/**
 * The event edit form: a copy of the event's fields with the social links
 * kept as one nested record, inputs named `social-<network>` routed into that
 * record, and a multipart body that sends every field, the social links as
 * one serialised entry and exactly one featured image.
 */
module EditEventForm {
  import opened JsValues
  import opened Lists
  import opened Requests

  /** An event as the server sends it; the category, the website and the social links may be missing. */
  datatype Event = Event(
    id: string,
    title: string,
    company: string,
    description: string,
    location: string,
    country: string,
    city: string,
    eventStartDate: string,
    eventEndDate: string,
    category: Option<string>,
    website: Option<string>,
    socialLinks: Option<map<string, string>>,
    featuredImage: string)

  /** `formData`: the event's text fields, its social links and the existing image's URL. */
  datatype EditForm = EditForm(
    title: string,
    company: string,
    description: string,
    location: string,
    country: string,
    city: string,
    eventStartDate: string,
    eventEndDate: string,
    category: string,
    website: string,
    socialLinks: map<string, string>,
    featuredImage: string)

  /** The inputs `handleChange` serves under their own names. */
  datatype Input =
    | Title | Company | Description | Location | Country | City
    | EventStartDate | EventEndDate | Category | Website

  function Name(input: Input): string
  {
    match input
    case Title => "title"
    case Company => "company"
    case Description => "description"
    case Location => "location"
    case Country => "country"
    case City => "city"
    case EventStartDate => "eventStartDate"
    case EventEndDate => "eventEndDate"
    case Category => "category"
    case Website => "website"
  }

  /** The input a name denotes, if any. */
  function InputNamed(name: string): (r: Option<Input>)
    ensures r.Some? ==> Name(r.value) == name
  {
    match name
    case "title" => Some(Title)
    case "company" => Some(Company)
    case "description" => Some(Description)
    case "location" => Some(Location)
    case "country" => Some(Country)
    case "city" => Some(City)
    case "eventStartDate" => Some(EventStartDate)
    case "eventEndDate" => Some(EventEndDate)
    case "category" => Some(Category)
    case "website" => Some(Website)
    case _ => None
  }

  /** The text an input holds. */
  function Get(f: EditForm, input: Input): string
  {
    match input
    case Title => f.title
    case Company => f.company
    case Description => f.description
    case Location => f.location
    case Country => f.country
    case City => f.city
    case EventStartDate => f.eventStartDate
    case EventEndDate => f.eventEndDate
    case Category => f.category
    case Website => f.website
  }

  /** `{...prev, [name]: value}` for one input: that input holds `value`, every other part of the form is kept. */
  function Set(f: EditForm, input: Input, value: string): (r: EditForm)
    ensures Get(r, input) == value
    ensures forall other :: other != input ==> Get(r, other) == Get(f, other)
    ensures r.socialLinks == f.socialLinks && r.featuredImage == f.featuredImage
  {
    match input
    case Title => f.(title := value)
    case Company => f.(company := value)
    case Description => f.(description := value)
    case Location => f.(location := value)
    case Country => f.(country := value)
    case City => f.(city := value)
    case EventStartDate => f.(eventStartDate := value)
    case EventEndDate => f.(eventEndDate := value)
    case Category => f.(category := value)
    case Website => f.(website := value)
  }

  /** The keys of `formData`, in the order `Object.keys` lists them. */
  const FormKeys: seq<string> := [
    "title", "company", "description", "location", "country", "city",
    "eventStartDate", "eventEndDate", "category", "website", "socialLinks", "featuredImage"]

  /** The social networks the form starts with. */
  const Networks: set<string> := {"linkedin", "telegram", "twitter", "instagram"}

  const SocialPrefix := "social-"

  lemma FormKeysDistinct()
    ensures Distinct(FormKeys)
  {
  }

  /** Every input's name leads back to it, is a key of the form, and is neither of the two special keys. */
  lemma NameRoundTrip(input: Input)
    ensures InputNamed(Name(input)) == Some(input)
    ensures Name(input) in FormKeys && Name(input) != "socialLinks" && Name(input) != "featuredImage"
  {
    match input
    case Title =>
    case Company =>
    case Description =>
    case Location =>
    case Country =>
    case City =>
    case EventStartDate =>
    case EventEndDate =>
    case Category =>
    case Website =>
  }

  /** `event.socialLinks?.[network] || ''`. */
  function LinkOf(e: Event, network: string): string
  {
    if e.socialLinks.Some? && network in e.socialLinks.value then e.socialLinks.value[network] else ""
  }

  /** The social links the form starts with: the four networks, each defaulting to empty text. */
  function InitialSocial(e: Event): (r: map<string, string>)
    ensures r.Keys == Networks
    ensures forall network :: network in r ==> r[network] == LinkOf(e, network)
    ensures e.socialLinks.None? ==> forall network :: network in r ==> r[network] == ""
  {
    map network | network in Networks :: LinkOf(e, network)
  }

  /**
   * The form opened on `e`: its fields copied, the category and website
   * defaulting to empty text, the social links from InitialSocial, and the
   * two dates as `startLocal` and `endLocal`: the first 16 characters of each
   * date's UTC ISO form (no offset applied), which the local date-time
   * inputs then show as if it were local time.
   */
  function InitialForm(e: Event, startLocal: string, endLocal: string): (f: EditForm)
    ensures f.category == OrElse(e.category, "") && f.website == OrElse(e.website, "")
    ensures f.socialLinks == InitialSocial(e) && f.featuredImage == e.featuredImage
  {
    EditForm(
      e.title, e.company, e.description, e.location, e.country, e.city, startLocal, endLocal,
      OrElse(e.category, ""), OrElse(e.website, ""), InitialSocial(e), e.featuredImage)
  }

  /**
   * What the `forEach` appends for `key`: the social links serialised, the
   * existing image URL only while no new image is chosen, and every input's
   * text whatever it is.
   */
  function EditValue(f: EditForm, newImage: Option<FileRef>): string -> Option<Value>
  {
    key =>
      if key == "socialLinks" then Some(Json(f.socialLinks))
      else if key == "featuredImage" then (if newImage.Some? then None else Some(Value.Text(f.featuredImage)))
      else if InputNamed(key).Some? then Some(Value.Text(Get(f, InputNamed(key).value)))
      else None
  }

  /** The new image's entry, appended after the loop when one was chosen. */
  function NewImageEntry(newImage: Option<FileRef>): seq<Entry>
  {
    if newImage.Some? then [Entry("featuredImage", Blob(newImage.value))] else []
  }

  /** `submitData` as `handleSubmit` builds it. */
  function Payload(f: EditForm, newImage: Option<FileRef>): seq<Entry>
  {
    AppendPresent(FormKeys, EditValue(f, newImage)) + NewImageEntry(newImage)
  }

  /** How often the body carries `key`: the loop's count plus the new image's. */
  lemma PayloadCountSplit(f: EditForm, newImage: Option<FileRef>, key: string)
    ensures CountKey(Payload(f, newImage), key)
            == CountKey(AppendPresent(FormKeys, EditValue(f, newImage)), key)
               + (if key == "featuredImage" && newImage.Some? then 1 else 0)
  {
    var last := NewImageEntry(newImage);
    CountKeyAppend(AppendPresent(FormKeys, EditValue(f, newImage)), last, key);
    if newImage.Some? {
      assert last[1..] == [];
    }
  }

  /** The body holds exactly one `featuredImage` entry. */
  lemma FeaturedImageOnce(f: EditForm, newImage: Option<FileRef>)
    ensures CountKey(Payload(f, newImage), "featuredImage") == 1
  {
    FormKeysDistinct();
    PayloadCountSplit(f, newImage, "featuredImage");
    AppendPresentCount(FormKeys, EditValue(f, newImage), "featuredImage");
  }

  /** The `featuredImage` entry is the existing image's URL when no new image was chosen, and the new file otherwise. */
  lemma FeaturedImageValue(f: EditForm, newImage: Option<FileRef>)
    ensures forall e :: e in Payload(f, newImage) && e.key == "featuredImage" ==>
              e.value == if newImage.Some? then Blob(newImage.value) else Value.Text(f.featuredImage)
  {
    var v := EditValue(f, newImage);
    var main := AppendPresent(FormKeys, v);
    AppendPresentValues(FormKeys, v);
    forall e | e in Payload(f, newImage) && e.key == "featuredImage"
      ensures e.value == if newImage.Some? then Blob(newImage.value) else Value.Text(f.featuredImage)
    {
      if e in main {
        assert v(e.key) == Some(e.value);
      }
    }
  }

  /** The social links go out once, as one serialised entry under `socialLinks`. */
  lemma SocialLinksOnce(f: EditForm, newImage: Option<FileRef>)
    ensures CountKey(Payload(f, newImage), "socialLinks") == 1
  {
    FormKeysDistinct();
    PayloadCountSplit(f, newImage, "socialLinks");
    AppendPresentCount(FormKeys, EditValue(f, newImage), "socialLinks");
  }

  /** That entry is the social links map, serialised whole. */
  lemma SocialLinksValue(f: EditForm, newImage: Option<FileRef>)
    ensures forall e :: e in Payload(f, newImage) && e.key == "socialLinks" ==> e.value == Json(f.socialLinks)
  {
    var v := EditValue(f, newImage);
    var main := AppendPresent(FormKeys, v);
    AppendPresentValues(FormKeys, v);
    forall e | e in Payload(f, newImage) && e.key == "socialLinks"
      ensures e.value == Json(f.socialLinks)
    {
      if e in main {
        assert v(e.key) == Some(e.value);
      }
    }
  }

  /** Every input goes out once under its name, even when its text is empty. */
  lemma InputAlwaysSent(f: EditForm, newImage: Option<FileRef>, input: Input)
    ensures CountKey(Payload(f, newImage), Name(input)) == 1
  {
    FormKeysDistinct();
    NameRoundTrip(input);
    PayloadCountSplit(f, newImage, Name(input));
    AppendPresentCount(FormKeys, EditValue(f, newImage), Name(input));
  }

  /** The entry under an input's name carries that input's text. */
  lemma InputValue(f: EditForm, newImage: Option<FileRef>, input: Input)
    ensures forall e :: e in Payload(f, newImage) && e.key == Name(input) ==> e.value == Value.Text(Get(f, input))
  {
    var v := EditValue(f, newImage);
    var main := AppendPresent(FormKeys, v);
    NameRoundTrip(input);
    AppendPresentValues(FormKeys, v);
    forall e | e in Payload(f, newImage) && e.key == Name(input)
      ensures e.value == Value.Text(Get(f, input))
    {
      if e in main {
        assert v(e.key) == Some(e.value);
      }
    }
  }

  /** The `forEach` over the form's keys: the body before the new image is added. */
  method BuildEntries(f: EditForm, newImage: Option<FileRef>) returns (entries: seq<Entry>)
    ensures entries == AppendPresent(FormKeys, EditValue(f, newImage))
  {
    entries := [];
    var i := 0;
    while i < |FormKeys|
      invariant 0 <= i <= |FormKeys|
      invariant entries == AppendPresent(FormKeys[..i], EditValue(f, newImage))
    {
      var key := FormKeys[i];
      ghost var before := entries;
      if key == "socialLinks" {
        entries := entries + [Entry(key, Json(f.socialLinks))];
      } else if key != "featuredImage" || newImage.None? {
        if key == "featuredImage" {
          entries := entries + [Entry(key, Value.Text(f.featuredImage))];
        } else if InputNamed(key).Some? {
          entries := entries + [Entry(key, Value.Text(Get(f, InputNamed(key).value)))];
        }
      }
      assert entries == before + EntryFor(key, EditValue(f, newImage)(key));
      AppendPresentSnoc(FormKeys[..i], key, EditValue(f, newImage));
      assert FormKeys[..i + 1] == FormKeys[..i] + [key];
      i := i + 1;
    }
    assert FormKeys[..|FormKeys|] == FormKeys;
  }

  /** The whole body: the loop's entries, then the new image when one was chosen. */
  method BuildPayload(f: EditForm, newImage: Option<FileRef>) returns (entries: seq<Entry>)
    ensures entries == Payload(f, newImage)
  {
    entries := BuildEntries(f, newImage);
    if newImage.Some? {
      entries := entries + [Entry("featuredImage", Blob(newImage.value))];
    }
  }

  /** The update request: a PUT of the body to the event's address. */
  datatype Put = Put(id: string, body: seq<Entry>)

  /** The edit form's state. */
  class EventEditor {
    const event: Event
    var formData: EditForm
    var useExistingImage: bool
    var newImage: Option<FileRef>
    var imagePreview: string

    /**
     * The form opened on `e`; `startLocal` and `endLocal` are the first 16
     * characters of its dates' UTC ISO forms, shown unchanged by the local
     * date-time inputs.
     */
    constructor (e: Event, startLocal: string, endLocal: string)
      ensures event == e && formData == InitialForm(e, startLocal, endLocal)
      ensures useExistingImage && newImage == None && imagePreview == e.featuredImage
    {
      event := e;
      formData := InitialForm(e, startLocal, endLocal);
      useExistingImage := true;
      newImage := None;
      imagePreview := e.featuredImage;
    }

    /**
     * `handleChange`: an input named `social-<network>` sets that network's
     * link and nothing else; any other input sets its own field and nothing else.
     */
    method HandleChange(name: string, value: string)
      requires StartsWith(name, SocialPrefix) || InputNamed(name).Some?
      modifies this
      ensures StartsWith(name, SocialPrefix) ==>
                formData == old(formData).(socialLinks := old(formData).socialLinks[name[|SocialPrefix|..] := value])
      ensures !StartsWith(name, SocialPrefix) ==> formData == Set(old(formData), InputNamed(name).value, value)
      ensures useExistingImage == old(useExistingImage) && newImage == old(newImage) && imagePreview == old(imagePreview)
    {
      if StartsWith(name, SocialPrefix) {
        var network := name[|SocialPrefix|..];
        formData := formData.(socialLinks := formData.socialLinks[network := value]);
      } else {
        formData := Set(formData, InputNamed(name).value, value);
      }
    }

    /** `handleImageChange`: a chosen file becomes the new image and the existing one is no longer used. */
    method HandleImageChange(file: Option<FileRef>, preview: string)
      modifies this
      ensures file.Some? ==> newImage == file && !useExistingImage && imagePreview == preview
      ensures file.None? ==>
                newImage == old(newImage) && useExistingImage == old(useExistingImage) && imagePreview == old(imagePreview)
      ensures formData == old(formData)
    {
      if file.Some? {
        newImage := file;
        useExistingImage := false;
        imagePreview := preview;
      }
    }

    /**
     * `handleSubmit`: the body always goes out; on success the updated event
     * from the reply is handed to the list and the form closes. The form's
     * own state does not change.
     */
    method HandleSubmit(reply: Reply<Event>) returns (sent: Put, updated: Option<Event>, closed: bool)
      ensures sent == Put(event.id, Payload(formData, newImage))
      ensures updated.Some? <==> reply.Ok?
      ensures reply.Ok? ==> updated == Some(reply.body)
      ensures closed <==> reply.Ok?
    {
      var form, file := formData, newImage;
      var entries := BuildPayload(form, file);
      sent := Put(event.id, entries);
      if reply.Ok? {
        updated, closed := Some(reply.body), true;
      } else {
        updated, closed := None, false;
      }
    }
  }
}
