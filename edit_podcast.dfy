/**
 * The podcast edit form: loaded from the server with absent optional fields
 * defaulted to empty text, validated without trimming against a longer
 * required list for publishing, and sent as the whole form.
 */
module EditPodcast {
  import opened JsValues
  import opened Lists
  import opened Requests
  import C = CreatePodcast

  /**
   * `formData` as loaded: the title and status are taken from the server as
   * they are and may be missing; the other fields are always text.
   */
  datatype EditForm = EditForm(
    title: Option<string>,
    description: string,
    shortDescription: string,
    category: string,
    company: string,
    youtubeIframe: string,
    status: Option<string>)

  const InitialEditForm := EditForm(Some(""), "", "", "", "", "", Some("draft"))

  /** The inputs `handleChange` serves. */
  const ChangeFields: seq<C.Field> :=
    [C.Title, C.Description, C.ShortDescription, C.Category, C.Company, C.YoutubeIframe, C.Status]

  /** The fields publishing requires, in reporting order. */
  const PublishRequired: seq<C.Field> :=
    [C.Title, C.Description, C.ShortDescription, C.Category, C.Company, C.YoutubeIframe]

  const DraftTitleRequired := "Title is required even for draft podcasts"

  const MissingPrefix := "Please fill in all required fields: "

  function Truthy(o: Option<string>): bool
  {
    o.Some? && o.value != ""
  }

  /** `formData[field]` is truthy: present and not empty. Whitespace counts as filled. */
  function Filled(f: EditForm, field: C.Field): bool
  {
    match field
    case Title => Truthy(f.title)
    case Description => f.description != ""
    case ShortDescription => f.shortDescription != ""
    case Category => f.category != ""
    case Company => f.company != ""
    case YoutubeIframe => f.youtubeIframe != ""
    case Status => Truthy(f.status)
    case _ => false
  }

  function EmptyIn(f: EditForm): C.Field -> bool
  {
    field => !Filled(f, field)
  }

  /** `missingFields`: the required fields that are empty, in list order. */
  function MissingFields(f: EditForm): (r: seq<C.Field>)
    ensures forall field :: field in r <==> field in PublishRequired && !Filled(f, field)
  {
    Filter(PublishRequired, EmptyIn(f))
  }

  /** The missing fields are listed in the order of the required list. */
  lemma MissingInOrder(f: EditForm)
    ensures SubseqOf(MissingFields(f), PublishRequired)
  {
    FilterIsSubseq(PublishRequired, EmptyIn(f));
  }

  /**
   * `validateForm`: a podcast being published needs all six required fields;
   * any other status needs only the title. The result is the error shown,
   * or None when the form may be sent.
   */
  function ValidateForm(f: EditForm): (r: Option<string>)
    ensures f.status == Some("published") ==>
              (r.None? <==> MissingFields(f) == [])
              && (r.Some? ==> r.value == MissingPrefix + Join(C.Names(MissingFields(f)), ", "))
    ensures f.status != Some("published") ==>
              (r.None? <==> Truthy(f.title)) && (r.Some? ==> r.value == DraftTitleRequired)
  {
    if f.status == Some("published") then
      if MissingFields(f) != [] then Some(MissingPrefix + Join(C.Names(MissingFields(f)), ", ")) else None
    else if !Truthy(f.title) then Some(DraftTitleRequired)
    else None
  }

  /** The six required fields are all filled. */
  predicate AllSixFilled(f: EditForm)
  {
    Truthy(f.title) && f.description != "" && f.shortDescription != ""
    && f.category != "" && f.company != "" && f.youtubeIframe != ""
  }

  lemma NothingMissing(f: EditForm)
    ensures MissingFields(f) == [] <==> AllSixFilled(f)
  {
    EmptyIffAllFilled(f, MissingFields(f));
  }

  /** A list holding exactly the empty required fields is empty exactly when all six are filled. */
  lemma EmptyIffAllFilled(f: EditForm, missing: seq<C.Field>)
    requires forall field :: field in missing <==> field in PublishRequired && !Filled(f, field)
    ensures missing == [] <==> AllSixFilled(f)
  {
    if missing == [] {
      assert Filled(f, C.Title) && Filled(f, C.Description) && Filled(f, C.ShortDescription);
      assert Filled(f, C.Category) && Filled(f, C.Company) && Filled(f, C.YoutubeIframe);
    } else {
      assert missing[0] in missing;
    }
  }

  /** A podcast being published is valid exactly when its six required fields are all non-empty. */
  lemma PublishNeedsAllSix(f: EditForm)
    requires f.status == Some("published")
    ensures ValidateForm(f).None? <==> AllSixFilled(f)
  {
    NothingMissing(f);
  }

  /**
   * Unlike creation, editing does not trim: whitespace-only fields pass here,
   * while the creation form refuses the same text as a blank title.
   */
  lemma WhitespacePassesOnlyHere(s: string)
    requires s != "" && IsBlank(s)
    ensures ValidateForm(EditForm(Some(s), s, s, s, s, s, Some("published"))).None?
    ensures C.Validate(C.PodcastForm(s, s, s, s, s, s, None, "", "published", "")) == Some(C.TitleRequired)
  {
    PublishNeedsAllSix(EditForm(Some(s), s, s, s, s, s, Some("published")));
  }

  /**
   * The required lists differ: a podcast with no YouTube link can be
   * published from the creation form but not from the edit form.
   */
  lemma YoutubeRequiredOnlyHere(title: string, text: string)
    requires !IsBlank(title) && !IsBlank(text)
    ensures C.Validate(C.PodcastForm(title, text, text, text, text, "", None, "", "published", "")).None?
    ensures C.YoutubeIframe in MissingFields(EditForm(Some(title), text, text, text, text, "", Some("published")))
    ensures ValidateForm(EditForm(Some(title), text, text, text, text, "", Some("published"))).Some?
  {
    CreationSkipsYoutube(title, text);
    EmptyYoutubeRefused(EditForm(Some(title), text, text, text, text, "", Some("published")));
  }

  /** Publishing from the edit form without a YouTube link is refused, with the link among the missing fields. */
  lemma EmptyYoutubeRefused(f: EditForm)
    requires f.status == Some("published") && f.youtubeIframe == ""
    ensures C.YoutubeIframe in MissingFields(f)
    ensures ValidateForm(f).Some?
  {
    assert !Filled(f, C.YoutubeIframe);
  }

  lemma CreationSkipsYoutube(title: string, text: string)
    requires !IsBlank(title) && !IsBlank(text)
    ensures C.Validate(C.PodcastForm(title, text, text, text, text, "", None, "", "published", "")).None?
  {
    C.PublishNeedsAllFour(C.PodcastForm(title, text, text, text, text, "", None, "", "published", ""));
  }

  // ---------------------------------------------------------------------------
  // Loading

  /** The podcast `fetchPodcast` receives; every field may be missing. */
  datatype LoadedPodcast = LoadedPodcast(
    id: string,
    title: Option<string>,
    description: Option<string>,
    shortDescription: Option<string>,
    category: Option<string>,
    company: Option<string>,
    youtubeIframe: Option<string>,
    status: Option<string>)

  /** The form `fetchPodcast` builds: missing optional fields become empty text; title and status are copied as they are. */
  function FromLoaded(p: LoadedPodcast): (f: EditForm)
    ensures f.title == p.title && f.status == p.status
    ensures p.description.None? ==> f.description == ""
    ensures p.description.Some? ==> f.description == p.description.value
    ensures p.shortDescription.None? ==> f.shortDescription == ""
    ensures p.shortDescription.Some? ==> f.shortDescription == p.shortDescription.value
    ensures p.category.None? ==> f.category == ""
    ensures p.category.Some? ==> f.category == p.category.value
    ensures p.company.None? ==> f.company == ""
    ensures p.company.Some? ==> f.company == p.company.value
    ensures p.youtubeIframe.None? ==> f.youtubeIframe == ""
    ensures p.youtubeIframe.Some? ==> f.youtubeIframe == p.youtubeIframe.value
  {
    EditForm(
      p.title,
      OrElse(p.description, ""),
      OrElse(p.shortDescription, ""),
      OrElse(p.category, ""),
      OrElse(p.company, ""),
      OrElse(p.youtubeIframe, ""),
      p.status)
  }

  /**
   * A loaded draft without a title cannot be saved until a title is typed;
   * a loaded podcast with every field filled can be saved as it is.
   */
  lemma LoadedFormValidity(p: LoadedPodcast)
    ensures p.status != Some("published") ==> (ValidateForm(FromLoaded(p)).None? <==> Truthy(p.title))
    ensures p.status == Some("published") && Truthy(p.title) && Truthy(p.description) && Truthy(p.shortDescription)
            && Truthy(p.category) && Truthy(p.company) && Truthy(p.youtubeIframe) ==>
              ValidateForm(FromLoaded(p)).None?
  {
    if p.status == Some("published") {
      PublishNeedsAllSix(FromLoaded(p));
    }
  }

  /** What the fetch by slug gives: a body with its success flag and podcast, or a failure. */
  datatype FetchReply = Fetched(success: bool, podcast: LoadedPodcast) | FetchFailed

  /** The update request: the podcast's id and the whole form. */
  datatype Update = Update(id: Option<string>, form: EditForm)

  /** The edit form's state. */
  class PodcastEditor {
    var formData: EditForm
    var loading: bool
    var submitting: bool
    var originalStatus: Option<string>
    var podcastId: Option<string>

    constructor ()
      ensures formData == InitialEditForm && loading && !submitting
      ensures originalStatus == Some("") && podcastId == None
    {
      formData := InitialEditForm;
      loading, submitting := true, false;
      originalStatus, podcastId := Some(""), None;
    }

    /**
     * `fetchPodcast`: a successful load fills the form and ends loading; any
     * other outcome changes nothing and leaves for the podcast list.
     */
    method FetchPodcast(reply: FetchReply) returns (backToList: bool)
      modifies this
      ensures submitting == old(submitting)
      ensures reply.Fetched? && reply.success ==>
                formData == FromLoaded(reply.podcast) && podcastId == Some(reply.podcast.id)
                && originalStatus == reply.podcast.status && !loading && !backToList
      ensures !(reply.Fetched? && reply.success) ==>
                formData == old(formData) && podcastId == old(podcastId) && originalStatus == old(originalStatus)
                && loading == old(loading) && backToList
    {
      if reply.Fetched? && reply.success {
        podcastId := Some(reply.podcast.id);
        formData := FromLoaded(reply.podcast);
        originalStatus := reply.podcast.status;
        loading := false;
        backToList := false;
      } else {
        backToList := true;
      }
    }

    /** `handleChange`: the input for `field` now holds `value`; nothing else changes. */
    method HandleChange(field: C.Field, value: string)
      requires field in ChangeFields
      modifies this
      ensures field == C.Title ==> formData == old(formData).(title := Some(value))
      ensures field == C.Description ==> formData == old(formData).(description := value)
      ensures field == C.ShortDescription ==> formData == old(formData).(shortDescription := value)
      ensures field == C.Category ==> formData == old(formData).(category := value)
      ensures field == C.Company ==> formData == old(formData).(company := value)
      ensures field == C.YoutubeIframe ==> formData == old(formData).(youtubeIframe := value)
      ensures field == C.Status ==> formData == old(formData).(status := Some(value))
      ensures loading == old(loading) && submitting == old(submitting)
      ensures originalStatus == old(originalStatus) && podcastId == old(podcastId)
    {
      match field
      case Title => formData := formData.(title := Some(value));
      case Description => formData := formData.(description := value);
      case ShortDescription => formData := formData.(shortDescription := value);
      case Category => formData := formData.(category := value);
      case Company => formData := formData.(company := value);
      case YoutubeIframe => formData := formData.(youtubeIframe := value);
      case Status => formData := formData.(status := Some(value));
    }

    /**
     * `handleSubmit`: an invalid form sends nothing and changes nothing;
     * otherwise the whole form goes out under the podcast's id, submitting is
     * over afterwards, and only a reply reporting success leaves the page.
     */
    method HandleSubmit(reply: Reply<bool>) returns (sent: Option<Update>, backToList: bool)
      modifies this
      ensures formData == old(formData) && loading == old(loading)
      ensures originalStatus == old(originalStatus) && podcastId == old(podcastId)
      ensures ValidateForm(formData).Some? ==> sent == None && !backToList && submitting == old(submitting)
      ensures ValidateForm(formData).None? ==>
                sent == Some(Update(podcastId, formData)) && !submitting
                && (backToList <==> reply.Ok? && reply.body)
    {
      if ValidateForm(formData).Some? {
        return None, false;
      }
      submitting := true;
      sent := Some(Update(podcastId, formData));
      backToList := reply.Ok? && reply.body;
      submitting := false;
    }
  }
}
