/**
 * The podcast creation form: a title required for every status, four more
 * fields required (after trimming) only for publishing with the missing ones
 * reported in order, and the multipart body sent when validation passes.
 */
module CreatePodcast {
  import opened JsValues
  import opened Lists
  import opened Requests

  /** `formData`: every field is text except the chosen image. */
  datatype PodcastForm = PodcastForm(
    title: string,
    description: string,
    shortDescription: string,
    category: string,
    company: string,
    youtubeIframe: string,
    image: Option<FileRef>,
    imageCaption: string,
    status: string,
    slug: string)

  /** A new podcast starts as an empty draft with no image. */
  const InitialForm := PodcastForm("", "", "", "", "", "", None, "", "draft", "")

  /** The text fields of the form. */
  datatype Field =
    | Title | Description | ShortDescription | Category | Company
    | YoutubeIframe | ImageCaption | Status | Slug

  /** The key a field has in the form and in the body. */
  function Name(field: Field): string
  {
    match field
    case Title => "title"
    case Description => "description"
    case ShortDescription => "shortDescription"
    case Category => "category"
    case Company => "company"
    case YoutubeIframe => "youtubeIframe"
    case ImageCaption => "imageCaption"
    case Status => "status"
    case Slug => "slug"
  }

  /** The text field a key names, if any. */
  function FieldNamed(key: string): (r: Option<Field>)
    ensures r.Some? ==> Name(r.value) == key
  {
    match key
    case "title" => Some(Title)
    case "description" => Some(Description)
    case "shortDescription" => Some(ShortDescription)
    case "category" => Some(Category)
    case "company" => Some(Company)
    case "youtubeIframe" => Some(YoutubeIframe)
    case "imageCaption" => Some(ImageCaption)
    case "status" => Some(Status)
    case "slug" => Some(Slug)
    case _ => None
  }

  /** The text under a field. */
  function TextField(f: PodcastForm, field: Field): string
  {
    match field
    case Title => f.title
    case Description => f.description
    case ShortDescription => f.shortDescription
    case Category => f.category
    case Company => f.company
    case YoutubeIframe => f.youtubeIframe
    case ImageCaption => f.imageCaption
    case Status => f.status
    case Slug => f.slug
  }

  /** The form's keys in declaration order: the order the body is built in. */
  const FormKeys: seq<string> :=
    ["title", "description", "shortDescription", "category", "company",
     "youtubeIframe", "image", "imageCaption", "status", "slug"]

  /** The inputs `handleChange` serves. */
  const ChangeFields: seq<Field> := [Description, ShortDescription, Category, YoutubeIframe, ImageCaption, Status]

  /** The fields publishing requires besides the title, in reporting order. */
  const PublishRequired: seq<Field> := [Description, ShortDescription, Category, Company]

  const TitleRequired := "Title is required even for draft"

  const SubmitFailed := "Failed to submit podcast"

  function BlankIn(f: PodcastForm): Field -> bool
  {
    field => IsBlank(TextField(f, field))
  }

  /** `missingFields`: the publish-required fields that are blank once trimmed, in list order. */
  function MissingForPublish(f: PodcastForm): (r: seq<Field>)
    ensures forall field :: field in r <==> field in PublishRequired && IsBlank(TextField(f, field))
  {
    Filter(PublishRequired, BlankIn(f))
  }

  /** The missing fields are reported in the order of the required list. */
  lemma MissingInOrder(f: PodcastForm)
    ensures SubseqOf(MissingForPublish(f), PublishRequired)
  {
    FilterIsSubseq(PublishRequired, BlankIn(f));
  }

  function Names(fields: seq<Field>): (r: seq<string>)
    ensures |r| == |fields| && forall i :: 0 <= i < |r| ==> r[i] == Name(fields[i])
  {
    seq(|fields|, i requires 0 <= i < |fields| => Name(fields[i]))
  }

  /** The error for missing fields: their names joined by ", ", then "is" for one and "are" for several. */
  function MissingMessage(missing: seq<Field>): string
  {
    Join(Names(missing), ", ") + (if |missing| > 1 then " are required for publishing" else " is required for publishing")
  }

  /**
   * The validation in `handleSubmit`: the title is required whatever the
   * status; only a podcast being published also needs the four other fields.
   * The result is the error shown, or None when the form may be sent.
   */
  function Validate(f: PodcastForm): (r: Option<string>)
    ensures IsBlank(f.title) ==> r == Some(TitleRequired)
    ensures f.status != "published" ==> (r.None? <==> !IsBlank(f.title))
    ensures f.status == "published" && !IsBlank(f.title) ==>
              (r.None? <==> MissingForPublish(f) == [])
              && (r.Some? ==> r.value == MissingMessage(MissingForPublish(f)))
  {
    if IsBlank(f.title) then Some(TitleRequired)
    else if f.status == "published" && MissingForPublish(f) != [] then Some(MissingMessage(MissingForPublish(f)))
    else None
  }

  lemma NothingMissing(f: PodcastForm)
    ensures MissingForPublish(f) == [] <==>
              !IsBlank(f.description) && !IsBlank(f.shortDescription) && !IsBlank(f.category) && !IsBlank(f.company)
  {
    EmptyIffNoneBlank(f, MissingForPublish(f));
  }

  /** A list holding exactly the blank required fields is empty exactly when none of the four is blank. */
  lemma EmptyIffNoneBlank(f: PodcastForm, missing: seq<Field>)
    requires forall field :: field in missing <==> field in PublishRequired && IsBlank(TextField(f, field))
    ensures missing == [] <==>
              !IsBlank(f.description) && !IsBlank(f.shortDescription) && !IsBlank(f.category) && !IsBlank(f.company)
  {
    assert Description in missing <==> IsBlank(f.description) by {
      assert TextField(f, Description) == f.description;
    }
    assert ShortDescription in missing <==> IsBlank(f.shortDescription) by {
      assert TextField(f, ShortDescription) == f.shortDescription;
    }
    assert Category in missing <==> IsBlank(f.category) by {
      assert TextField(f, Category) == f.category;
    }
    assert Company in missing <==> IsBlank(f.company) by {
      assert TextField(f, Company) == f.company;
    }
    if missing != [] {
      assert missing[0] in missing;
    }
  }

  /** A podcast with a title can be published exactly when none of the four publish-required fields is blank. */
  lemma PublishNeedsAllFour(f: PodcastForm)
    requires f.status == "published" && !IsBlank(f.title)
    ensures Validate(f).None? <==>
              !IsBlank(f.description) && !IsBlank(f.shortDescription) && !IsBlank(f.category) && !IsBlank(f.company)
  {
    NothingMissing(f);
  }

  /** The message grammar: one missing field "is" required, several "are", listed in order and comma-separated. */
  lemma MissingMessageGrammar(missing: seq<Field>)
    requires |missing| >= 1
    ensures |missing| == 1 ==> MissingMessage(missing) == Name(missing[0]) + " is required for publishing"
    ensures |missing| > 1 ==>
              MissingMessage(missing)
              == Name(missing[0]) + ", " + Join(Names(missing[1..]), ", ") + " are required for publishing"
  {
    assert Names(missing)[1..] == Names(missing[1..]);
  }

  /** The message names every missing field. */
  lemma MessageNamesEveryMissing(missing: seq<Field>, field: Field)
    requires field in missing
    ensures Includes(MissingMessage(missing), Name(field))
  {
    var k :| 0 <= k < |missing| && missing[k] == field;
    var joined := Join(Names(missing), ", ");
    var i := JoinHasPart(Names(missing), ", ", k);
    OccursInLonger(joined, MissingMessage(missing)[|joined|..], Name(field), i);
    assert joined + MissingMessage(missing)[|joined|..] == MissingMessage(missing);
    IncludesIff(MissingMessage(missing), Name(field));
  }

  /** A blank title is reported alone, whatever else is missing. */
  lemma TitleIsCheckedFirst(f: PodcastForm)
    requires IsBlank(f.title) && f.status == "published"
    ensures Validate(f) == Some(TitleRequired)
  {
  }

  /** What `handleSubmit` appends for a key: the image only when one was chosen, every text field always. */
  function ValueOf(f: PodcastForm): string -> Option<Value>
  {
    key => if key == "image" then (if f.image.Some? then Some(Blob(f.image.value)) else None)
           else if FieldNamed(key).Some? then Some(Value.Text(TextField(f, FieldNamed(key).value)))
           else None
  }

  /** No key of the form is listed twice. */
  lemma FormKeysDistinct()
    ensures Distinct(FormKeys)
  {
  }

  /** Every field's name leads back to that field, and is one of the form's keys. */
  lemma NameRoundTrip(field: Field)
    ensures FieldNamed(Name(field)) == Some(field)
    ensures Name(field) in FormKeys && Name(field) != "image"
  {
    match field
    case Title =>
    case Description =>
    case ShortDescription =>
    case Category =>
    case Company =>
    case YoutubeIframe =>
    case ImageCaption =>
    case Status =>
    case Slug =>
  }

  /** The body lists its keys in the form's declaration order. */
  lemma PayloadOrder(f: PodcastForm)
    ensures SubseqOf(KeysOf(AppendPresent(FormKeys, ValueOf(f))), FormKeys)
  {
    AppendPresentOrder(FormKeys, ValueOf(f));
  }

  /** The body holds `image` exactly once when an image was chosen, and not at all otherwise. */
  lemma PayloadImageOnlyIfChosen(f: PodcastForm)
    ensures CountKey(AppendPresent(FormKeys, ValueOf(f)), "image") == if f.image.Some? then 1 else 0
  {
    FormKeysDistinct();
    AppendPresentCount(FormKeys, ValueOf(f), "image");
  }

  /** Every text field is in the body exactly once, even when empty. */
  lemma PayloadHasEveryField(f: PodcastForm, field: Field)
    ensures CountKey(AppendPresent(FormKeys, ValueOf(f)), Name(field)) == 1
  {
    FormKeysDistinct();
    NameRoundTrip(field);
    AppendPresentCount(FormKeys, ValueOf(f), Name(field));
  }

  /** Each entry of the body carries its field's current text, or the chosen file under `image`. */
  lemma PayloadValues(f: PodcastForm)
    ensures forall e :: e in AppendPresent(FormKeys, ValueOf(f)) ==>
              if e.key == "image" then f.image.Some? && e.value == Blob(f.image.value)
              else FieldNamed(e.key).Some? && e.value == Value.Text(TextField(f, FieldNamed(e.key).value))
  {
    AppendPresentValues(FormKeys, ValueOf(f));
  }

  /** Every key of the form other than `image` names a text field. */
  lemma TextKeysHaveFields(i: int)
    requires 0 <= i < |FormKeys| && FormKeys[i] != "image"
    ensures FieldNamed(FormKeys[i]).Some?
  {
  }

  /** The `forEach` over the form's keys that fills the `FormData`. */
  method BuildPayload(f: PodcastForm) returns (entries: seq<Entry>)
    ensures entries == AppendPresent(FormKeys, ValueOf(f))
  {
    entries := [];
    var i := 0;
    while i < |FormKeys|
      invariant 0 <= i <= |FormKeys|
      invariant entries == AppendPresent(FormKeys[..i], ValueOf(f))
    {
      var key := FormKeys[i];
      if key == "image" && f.image.Some? {
        entries := entries + [Entry("image", Blob(f.image.value))];
      } else if key != "image" {
        var field := FieldNamed(key);
        TextKeysHaveFields(i);
        entries := entries + [Entry(key, Value.Text(TextField(f, field.value)))];
      }
      AppendPresentSnoc(FormKeys[..i], key, ValueOf(f));
      assert FormKeys[..i + 1] == FormKeys[..i] + [key];
      i := i + 1;
    }
    assert FormKeys[..|FormKeys|] == FormKeys;
  }

  /** The creation form's state. */
  class PodcastCreator {
    var formData: PodcastForm
    var selectedCompany: string
    var loading: bool
    var submitError: Option<string>

    constructor ()
      ensures formData == InitialForm && formData.status == "draft"
      ensures selectedCompany == "" && !loading && submitError == None
    {
      formData := InitialForm;
      selectedCompany := "";
      loading := false;
      submitError := None;
    }

    /** `handleChange`: the input for `field` now holds `value`; nothing else changes. */
    method HandleChange(field: Field, value: string)
      requires field in ChangeFields
      modifies this
      ensures TextField(formData, field) == value
      ensures forall other :: other != field ==> TextField(formData, other) == TextField(old(formData), other)
      ensures formData.image == old(formData.image)
      ensures selectedCompany == old(selectedCompany) && loading == old(loading) && submitError == old(submitError)
    {
      match field
      case Description => formData := formData.(description := value);
      case ShortDescription => formData := formData.(shortDescription := value);
      case Category => formData := formData.(category := value);
      case YoutubeIframe => formData := formData.(youtubeIframe := value);
      case ImageCaption => formData := formData.(imageCaption := value);
      case Status => formData := formData.(status := value);
    }

    /** `handleTitleChange`, first part: the title changes at once. */
    method HandleTitleChange(title: string)
      modifies this
      ensures formData == old(formData).(title := title)
      ensures selectedCompany == old(selectedCompany) && loading == old(loading) && submitError == old(submitError)
    {
      formData := formData.(title := title);
    }

    /** `handleTitleChange`, second part: the delayed slug, computed from the title, replaces the slug. */
    method SlugGenerated(slug: string)
      modifies this
      ensures formData == old(formData).(slug := slug)
      ensures selectedCompany == old(selectedCompany) && loading == old(loading) && submitError == old(submitError)
    {
      formData := formData.(slug := slug);
    }

    /** `handleCompanyChange`: the chosen company is both selected and stored in the form. */
    method HandleCompanyChange(company: string)
      modifies this
      ensures formData == old(formData).(company := company) && selectedCompany == company
      ensures loading == old(loading) && submitError == old(submitError)
    {
      selectedCompany := company;
      formData := formData.(company := company);
    }

    /** `handleImageChange`: a chosen file replaces the image; cancelling the picker changes nothing. */
    method HandleImageChange(file: Option<FileRef>)
      modifies this
      ensures file.Some? ==> formData == old(formData).(image := file)
      ensures file.None? ==> formData == old(formData)
      ensures selectedCompany == old(selectedCompany) && loading == old(loading) && submitError == old(submitError)
    {
      if file.Some? {
        formData := formData.(image := file);
      }
    }

    /**
     * `handleSubmit`: a form that fails validation sends nothing and shows the
     * validation error; otherwise the body goes out, a success goes to the
     * home page `/` (the welcome page, not the podcast list) and a failure
     * shows the server's error or a fixed message. Loading is over either way.
     */
    method HandleSubmit(reply: Reply<bool>) returns (sent: Option<seq<Entry>>, toHome: bool)
      modifies this
      ensures !loading
      ensures formData == old(formData) && selectedCompany == old(selectedCompany)
      ensures Validate(formData).Some? ==> sent == None && submitError == Validate(formData)
      ensures Validate(formData).None? ==> sent == Some(AppendPresent(FormKeys, ValueOf(formData)))
      ensures Validate(formData).None? && reply.Ok? ==> submitError == None
      ensures Validate(formData).None? && reply.Failed? ==> submitError == Some(OrElse(reply.message, SubmitFailed))
      ensures toHome <==> Validate(formData).None? && reply.Ok?
    {
      toHome := false;
      loading := true;
      submitError := None;
      var check := Validate(formData);
      if check.Some? {
        submitError := check;
        loading := false;
        return None, false;
      }
      var entries := BuildPayload(formData);
      sent := Some(entries);
      if reply.Failed? {
        submitError := Some(OrElse(reply.message, SubmitFailed));
      } else {
        toHome := true;
      }
      loading := false;
    }
  }
}
