/**
 * The event creation form: a flat record of text fields, a country and state
 * picker that keeps `country` and `city` in step, URL inputs that refuse text
 * the URL pattern rejects, and a multipart body that skips empty fields, sends
 * the four social links under their own keys and needs a featured image.
 */
module EventForm {
  import opened JsValues
  import opened Lists
  import opened Requests

  /** The keys of `formData`, in the order `for...in` visits them. */
  const FormKeys: seq<string> := [
    "title", "company", "description", "location", "country", "city",
    "eventStartDate", "eventEndDate", "category", "website",
    "linkedin", "telegram", "twitter", "instagram"]

  const FormKeySet: set<string> := set k | k in FormKeys

  /** The social links, in the order the social block appends them. */
  const SocialKeys: seq<string> := ["linkedin", "telegram", "twitter", "instagram"]

  /** The form as it starts and as a successful create leaves it: every field empty. */
  const EmptyForm: map<string, string> := map k | k in FormKeys :: ""

  /** `formData` holds exactly the form's keys. */
  predicate WellFormed(form: map<string, string>)
  {
    form.Keys == FormKeySet
  }

  lemma FormKeysDistinct()
    ensures Distinct(FormKeys)
  {
  }

  /** The social links are distinct form keys, and the image is not a form key. */
  lemma SocialKeysWithin()
    ensures Distinct(SocialKeys)
    ensures forall k :: k in SocialKeys ==> k in FormKeys
    ensures "featuredImage" !in FormKeys
  {
  }

  /** `validateUrl`: empty text is allowed; anything else must match the URL pattern `urlRegex`. */
  predicate ValidateUrl(url: string, urlRegex: string -> bool)
  {
    url == "" || urlRegex(url)
  }

  /** `formattedData`: the form with both dates replaced by their ISO strings. */
  function Formatted(form: map<string, string>, start: string, end: string): (r: map<string, string>)
    ensures r.Keys == form.Keys + {"eventStartDate", "eventEndDate"}
    ensures r["eventStartDate"] == start && r["eventEndDate"] == end
    ensures forall k :: k in form && k != "eventStartDate" && k != "eventEndDate" ==> r[k] == form[k]
  {
    form["eventStartDate" := start]["eventEndDate" := end]
  }

  /** What the main loop appends for `key`: its text when truthy, nothing for empty text or a social key. */
  function MainValue(formatted: map<string, string>): string -> Option<Value>
  {
    key => if key in formatted && formatted[key] != "" && key !in SocialKeys
           then Some(Value.Text(formatted[key])) else None
  }

  /** What the social block appends for `key`: `formData[key] || ''`, always present. */
  function SocialValue(form: map<string, string>): string -> Option<Value>
  {
    key => Some(Value.Text(if key in form then form[key] else ""))
  }

  /** The text part of the body: the main loop's entries, then the four social links. */
  function TextEntries(form: map<string, string>, start: string, end: string): seq<Entry>
  {
    AppendPresent(FormKeys, MainValue(Formatted(form, start, end))) + AppendPresent(SocialKeys, SocialValue(form))
  }

  /** The whole body: the text entries and the featured image last. */
  function Payload(form: map<string, string>, start: string, end: string, image: FileRef): seq<Entry>
  {
    TextEntries(form, start, end) + [Entry("featuredImage", Blob(image))]
  }

  /** How often the body carries `key`: the count in each of its three parts added up. */
  lemma PayloadCountSplit(form: map<string, string>, start: string, end: string, image: FileRef, key: string)
    ensures CountKey(Payload(form, start, end, image), key)
            == CountKey(AppendPresent(FormKeys, MainValue(Formatted(form, start, end))), key)
               + CountKey(AppendPresent(SocialKeys, SocialValue(form)), key)
               + (if key == "featuredImage" then 1 else 0)
  {
    var main := AppendPresent(FormKeys, MainValue(Formatted(form, start, end)));
    var social := AppendPresent(SocialKeys, SocialValue(form));
    var last := [Entry("featuredImage", Blob(image))];
    CountKeyAppend(main + social, last, key);
    CountKeyAppend(main, social, key);
    assert last[1..] == [];
  }

  /** The body holds exactly one `featuredImage` entry. */
  lemma FeaturedImageOnce(form: map<string, string>, start: string, end: string, image: FileRef)
    ensures CountKey(Payload(form, start, end, image), "featuredImage") == 1
  {
    FormKeysDistinct();
    SocialKeysWithin();
    PayloadCountSplit(form, start, end, image, "featuredImage");
    AppendPresentCount(FormKeys, MainValue(Formatted(form, start, end)), "featuredImage");
    AppendPresentCount(SocialKeys, SocialValue(form), "featuredImage");
  }

  /** Each social link is in the body exactly once, whatever the form holds. */
  lemma SocialLinkOnce(form: map<string, string>, start: string, end: string, image: FileRef, key: string)
    requires key in SocialKeys
    ensures CountKey(Payload(form, start, end, image), key) == 1
  {
    FormKeysDistinct();
    SocialKeysWithin();
    PayloadCountSplit(form, start, end, image, key);
    AppendPresentCount(FormKeys, MainValue(Formatted(form, start, end)), key);
    AppendPresentCount(SocialKeys, SocialValue(form), key);
  }

  /** Every other field is in the body once when its formatted text is non-empty, and not at all when it is empty. */
  lemma FieldOnceIfFilled(form: map<string, string>, start: string, end: string, image: FileRef, key: string)
    requires WellFormed(form) && key in FormKeys && key !in SocialKeys
    ensures CountKey(Payload(form, start, end, image), key) == if Formatted(form, start, end)[key] != "" then 1 else 0
  {
    FormKeysDistinct();
    SocialKeysWithin();
    PayloadCountSplit(form, start, end, image, key);
    AppendPresentCount(FormKeys, MainValue(Formatted(form, start, end)), key);
    AppendPresentCount(SocialKeys, SocialValue(form), key);
  }

  /**
   * The main loop's entries follow the form's key order, carry no social
   * link, and each carries its field's non-empty formatted text.
   */
  lemma MainEntriesShape(form: map<string, string>, start: string, end: string)
    ensures SubseqOf(KeysOf(AppendPresent(FormKeys, MainValue(Formatted(form, start, end)))), FormKeys)
    ensures forall e :: e in AppendPresent(FormKeys, MainValue(Formatted(form, start, end))) ==>
              e.key !in SocialKeys && e.key in Formatted(form, start, end)
              && e.value == Value.Text(Formatted(form, start, end)[e.key]) && e.value.s != ""
  {
    var formatted := Formatted(form, start, end);
    var v := MainValue(formatted);
    AppendPresentOrder(FormKeys, v);
    AppendPresentValues(FormKeys, v);
    forall e | e in AppendPresent(FormKeys, v)
      ensures e.key !in SocialKeys && e.key in formatted
              && e.value == Value.Text(formatted[e.key]) && e.value.s != ""
    {
      assert v(e.key) == Some(e.value);
    }
  }

  /** The social block appends the four links in order, an empty text for each one the form lacks. */
  lemma SocialEntriesInOrder(form: map<string, string>)
    ensures KeysOf(AppendPresent(SocialKeys, SocialValue(form))) == SocialKeys
  {
    var v := SocialValue(form);
    assert AppendPresent(SocialKeys[3..], v) == [Entry("instagram", v("instagram").value)];
    assert AppendPresent(SocialKeys[2..], v) == [Entry("twitter", v("twitter").value)] + AppendPresent(SocialKeys[3..], v);
    assert AppendPresent(SocialKeys[1..], v) == [Entry("telegram", v("telegram").value)] + AppendPresent(SocialKeys[2..], v);
  }

  /** The `for...in` loop over the formatted form: the main part of the body. */
  method BuildMainEntries(form: map<string, string>, start: string, end: string) returns (entries: seq<Entry>)
    ensures entries == AppendPresent(FormKeys, MainValue(Formatted(form, start, end)))
  {
    var formatted := Formatted(form, start, end);
    entries := [];
    var i := 0;
    while i < |FormKeys|
      invariant 0 <= i <= |FormKeys|
      invariant entries == AppendPresent(FormKeys[..i], MainValue(formatted))
    {
      var key := FormKeys[i];
      ghost var before := entries;
      if key in formatted && formatted[key] != "" {
        if key !in SocialKeys {
          entries := entries + [Entry(key, Value.Text(formatted[key]))];
        }
      }
      assert entries == before + EntryFor(key, MainValue(formatted)(key));
      AppendPresentSnoc(FormKeys[..i], key, MainValue(formatted));
      assert FormKeys[..i + 1] == FormKeys[..i] + [key];
      i := i + 1;
    }
    assert FormKeys[..|FormKeys|] == FormKeys;
  }

  /** The `forEach` over the social links: the four link entries. */
  method BuildSocialEntries(form: map<string, string>) returns (entries: seq<Entry>)
    ensures entries == AppendPresent(SocialKeys, SocialValue(form))
  {
    entries := [];
    var j := 0;
    while j < |SocialKeys|
      invariant 0 <= j <= |SocialKeys|
      invariant entries == AppendPresent(SocialKeys[..j], SocialValue(form))
    {
      var key := SocialKeys[j];
      var link := if key in form then form[key] else "";
      entries := entries + [Entry(key, Value.Text(link))];
      AppendPresentSnoc(SocialKeys[..j], key, SocialValue(form));
      assert SocialKeys[..j + 1] == SocialKeys[..j] + [key];
      j := j + 1;
    }
    assert SocialKeys[..|SocialKeys|] == SocialKeys;
  }

  /** The body `handleSubmit` builds once the dates are formatted and an image is chosen. */
  method BuildPayload(form: map<string, string>, start: string, end: string, image: FileRef) returns (entries: seq<Entry>)
    ensures entries == Payload(form, start, end, image)
  {
    var main := BuildMainEntries(form, start, end);
    var social := BuildSocialEntries(form);
    entries := main + social + [Entry("featuredImage", Blob(image))];
  }

  /** The event creation form's state. */
  class EventCreator {
    var formData: map<string, string>
    var selectedCountry: string
    var selectedState: string
    var states: seq<string>
    var selectedCompany: string
    var image: Option<FileRef>
    var imagePreview: string
    var loading: bool

    ghost predicate Valid()
      reads this
    {
      WellFormed(formData)
    }

    constructor ()
      ensures Valid() && formData == EmptyForm
      ensures selectedCountry == "" && selectedState == "" && states == [] && selectedCompany == ""
      ensures image == None && imagePreview == "" && !loading
    {
      formData := EmptyForm;
      selectedCountry, selectedState, states, selectedCompany := "", "", [], "";
      image, imagePreview, loading := None, "", false;
    }

    /**
     * `fetchStates`: choosing a country records it, clears the chosen state
     * and the city, and loads that country's states (`statesReply`, None when
     * the lookup fails and the list is left as it was); choosing no country
     * empties the list.
     */
    method FetchStates(country: string, statesReply: Option<seq<string>>)
      requires Valid()
      modifies this
      ensures Valid()
      ensures selectedCountry == country && selectedState == ""
      ensures formData == old(formData)["country" := country]["city" := ""]
      ensures country == "" ==> states == []
      ensures country != "" && statesReply.Some? ==> states == statesReply.value
      ensures country != "" && statesReply.None? ==> states == old(states)
      ensures selectedCompany == old(selectedCompany) && image == old(image)
      ensures imagePreview == old(imagePreview) && loading == old(loading)
    {
      selectedCountry := country;
      selectedState := "";
      formData := formData["country" := country]["city" := ""];
      if country != "" {
        if statesReply.Some? {
          states := statesReply.value;
        }
      } else {
        states := [];
      }
    }

    /** `handleStateChange`: the chosen state becomes the city; nothing else changes. */
    method HandleStateChange(state: string)
      requires Valid()
      modifies this
      ensures Valid()
      ensures selectedState == state && formData == old(formData)["city" := state]
      ensures selectedCountry == old(selectedCountry) && states == old(states)
      ensures selectedCompany == old(selectedCompany) && image == old(image)
      ensures imagePreview == old(imagePreview) && loading == old(loading)
    {
      selectedState := state;
      formData := formData["city" := state];
    }

    /** `handleChange`: the input named `name` now holds `value`. */
    method HandleChange(name: string, value: string)
      requires Valid() && name in FormKeySet
      modifies this
      ensures Valid() && formData == old(formData)[name := value]
      ensures selectedCountry == old(selectedCountry) && selectedState == old(selectedState) && states == old(states)
      ensures selectedCompany == old(selectedCompany) && image == old(image)
      ensures imagePreview == old(imagePreview) && loading == old(loading)
    {
      formData := formData[name := value];
    }

    /**
     * `handleUrlChange`: non-empty text the URL pattern rejects is refused
     * (a toast is shown and the form is unchanged); anything else is stored.
     */
    method HandleUrlChange(name: string, value: string, urlRegex: string -> bool) returns (refused: bool)
      requires Valid() && name in FormKeySet
      modifies this
      ensures Valid()
      ensures refused <==> !ValidateUrl(value, urlRegex)
      ensures refused ==> formData == old(formData)
      ensures !refused ==> formData == old(formData)[name := value]
      ensures value == "" ==> !refused
      ensures selectedCountry == old(selectedCountry) && selectedState == old(selectedState) && states == old(states)
      ensures selectedCompany == old(selectedCompany) && image == old(image)
      ensures imagePreview == old(imagePreview) && loading == old(loading)
    {
      if value != "" && !ValidateUrl(value, urlRegex) {
        return true;
      }
      formData := formData[name := value];
      refused := false;
    }

    /**
     * `handleDateChange`: the date is stored; a warning is raised when the
     * end date now falls before a start date already entered, judged on the
     * form as it was before this change. `earlier(a, b)` stands for
     * `new Date(a) < new Date(b)`.
     */
    method HandleDateChange(name: string, value: string, earlier: (string, string) -> bool) returns (warn: bool)
      requires Valid() && (name == "eventStartDate" || name == "eventEndDate")
      modifies this
      ensures Valid() && formData == old(formData)[name := value]
      ensures warn <==>
                (name == "eventEndDate" && old(formData)["eventStartDate"] != "" && earlier(value, old(formData)["eventStartDate"]))
                || (name == "eventStartDate" && old(formData)["eventEndDate"] != "" && earlier(old(formData)["eventEndDate"], value))
      ensures selectedCountry == old(selectedCountry) && selectedState == old(selectedState) && states == old(states)
      ensures selectedCompany == old(selectedCompany) && image == old(image)
      ensures imagePreview == old(imagePreview) && loading == old(loading)
    {
      var before := formData;
      formData := formData[name := value];
      warn := false;
      if name == "eventEndDate" && before["eventStartDate"] != "" {
        warn := earlier(value, before["eventStartDate"]);
      }
      if name == "eventStartDate" && before["eventEndDate"] != "" {
        warn := earlier(before["eventEndDate"], value);
      }
    }

    /** `handleCompanyChange`: the chosen company is both the selection and the form's company. */
    method HandleCompanyChange(companyName: string)
      requires Valid()
      modifies this
      ensures Valid()
      ensures selectedCompany == companyName && formData == old(formData)["company" := companyName]
      ensures selectedCountry == old(selectedCountry) && selectedState == old(selectedState) && states == old(states)
      ensures image == old(image) && imagePreview == old(imagePreview) && loading == old(loading)
    {
      selectedCompany := companyName;
      formData := formData["company" := companyName];
    }

    /** `handleImageChange`: a chosen file becomes the image, with `preview` as its preview URL; no file changes nothing. */
    method HandleImageChange(file: Option<FileRef>, preview: string)
      modifies this
      ensures file.Some? ==> image == file && imagePreview == preview
      ensures file.None? ==> image == old(image) && imagePreview == old(imagePreview)
      ensures formData == old(formData) && loading == old(loading)
      ensures selectedCountry == old(selectedCountry) && selectedState == old(selectedState) && states == old(states)
      ensures selectedCompany == old(selectedCompany)
    {
      if file.Some? {
        image := file;
        imagePreview := preview;
      }
    }

    /**
     * The end of `handleSubmit`: after a created event every field, the
     * image and the preview are cleared; loading is over in every case.
     */
    method Settle(created: bool)
      requires Valid()
      modifies this
      ensures Valid() && !loading
      ensures created ==> formData == EmptyForm && image == None && imagePreview == ""
      ensures !created ==> formData == old(formData) && image == old(image) && imagePreview == old(imagePreview)
      ensures selectedCountry == old(selectedCountry) && selectedState == old(selectedState) && states == old(states)
      ensures selectedCompany == old(selectedCompany)
    {
      if created {
        formData := EmptyForm;
        image := None;
        imagePreview := "";
      }
      loading := false;
    }

    /**
     * `handleSubmit`: `isoOf` stands for `new Date(d).toISOString()`, None
     * where it throws. An invalid date or a missing image stops the submit
     * before any request; otherwise the body goes out, and when the server
     * accepts it (`ok`) the form, the image and the preview are cleared.
     * Loading is over either way.
     */
    method HandleSubmit(isoOf: string -> Option<string>, ok: bool) returns (sent: Option<seq<Entry>>)
      requires Valid()
      modifies this
      ensures Valid() && !loading
      ensures sent.Some? <==>
                isoOf(old(formData)["eventStartDate"]).Some? && isoOf(old(formData)["eventEndDate"]).Some? && old(image).Some?
      ensures sent.Some? ==>
                sent.value == Payload(old(formData), isoOf(old(formData)["eventStartDate"]).value,
                                      isoOf(old(formData)["eventEndDate"]).value, old(image).value)
      ensures sent.Some? && ok ==> formData == EmptyForm && image == None && imagePreview == ""
      ensures !(sent.Some? && ok) ==> formData == old(formData) && image == old(image) && imagePreview == old(imagePreview)
      ensures selectedCountry == old(selectedCountry) && selectedState == old(selectedState) && states == old(states)
      ensures selectedCompany == old(selectedCompany)
    {
      var form, file := formData, image;
      var start := isoOf(form["eventStartDate"]);
      var end := isoOf(form["eventEndDate"]);
      if start.None? || end.None? || file.None? {
        sent := None;
      } else {
        var entries := BuildPayload(form, start.value, end.value, file.value);
        sent := Some(entries);
      }
      Settle(sent.Some? && ok);
    }
  }
}
