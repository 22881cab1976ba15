# Admin panel forms and lists, modelled in Dafny

This project models the logic of a React admin panel for events, podcasts and
quizzes. Each screen keeps component state and has handlers that react to an
input event or a server reply. The handlers validate forms, assemble the
multipart or JSON body of a request, and update the state. Every component
becomes a Dafny `class` whose fields are its state and whose methods are its
handlers. The rules the handlers apply are pure functions with lemmas about
them:

- the validators;
- the filters and the pagination;
- the payload builders;
- the status flip.

The network is not modelled as such. A handler method takes the server's
answer as a parameter: a reply with a body, a failure, or a success flag. It
returns the request it would send, or `None` when it sends nothing. The same
holds for a `window.confirm` answer, a chosen file, a date conversion and the
URL pattern: each one is a parameter.

Modules, one per source file plus shared ones:

- `JsValues`: the JavaScript coercions the screens rely on:
  - `trim`, `parseInt` and `Number`;
  - `toLowerCase` and `includes`;
  - `join` and `startsWith`;
  - form values that start as the number `0` and become text once typed into.
- `Lists`: `filter`, and order-preserving subsequences.
- `Requests`: `FormData` bodies as sequences of key/value entries. `AppendPresent` specifies every "append each present key in order" loop.
- `QuizModel`: questions and the active/inactive status toggle.
- `CreateQuiz`, `EditQuiz`, `ViewQuiz`, `QuizManagement`: the quiz builder, the quiz editor, the quiz list and the results list.
- `CreatePodcast`, `EditPodcast`, `ViewPodcasts`: podcast creation, podcast editing, and the paginated draft/published list.
- `EventForm`, `EditEventForm`, `EventList`: event creation, event editing and the event list.

## Model

| member | source | states |
|---|---|---|
| JsValues.TrimStart | src/components/podcasts/CreatePodcast.jsx:102 | the result is a suffix of the text, and everything dropped before it is whitespace |
| JsValues.TrimEnd | src/components/podcasts/CreatePodcast.jsx:102 | the result is a prefix of the text, and everything dropped after it is whitespace |
| JsValues.BlankIffTrimEmpty | src/components/podcasts/CreatePodcast.jsx:102 | `!s.trim()` holds exactly when every character of `s` is whitespace |
| JsValues.DigitPrefix | src/components/quiz/CreateQuiz.jsx:65 | `parseInt` reads the longest run of leading digits and stops at the first non-digit |
| JsValues.DigitPrefixStopsAtNonDigit | src/components/quiz/CreateQuiz.jsx:65 | the digit run read from digits followed by a non-digit is exactly those digits |
| JsValues.BlankIsZeroButNaN | src/components/quiz/CreateQuiz.jsx:48-65 | on blank text the `<` comparison reads 0 while `parseInt` gives NaN |
| JsValues.SignSurvivesSuffix | src/components/quiz/CreateQuiz.jsx:65 | a leading sign is not affected by what follows it |
| JsValues.ParseIntAgreesWithNumber | src/components/quiz/CreateQuiz.jsx:48-65 | on a non-blank integer numeral, `parseInt` and `Number` read the same integer |
| JsValues.ToLower | src/components/quiz/ViewQuiz.jsx:75 | lower-casing keeps the length of the text |
| JsValues.Includes | src/components/quiz/ViewQuiz.jsx:75 | the empty term is found in every text, and a term longer than the text is never found |
| JsValues.JoinHasPart | src/components/podcasts/CreatePodcast.jsx:114 | every part of a `join` occurs in the joined text |
| JsValues.OccursInLonger | src/components/podcasts/CreatePodcast.jsx:114 | an occurrence survives appending more text |
| JsValues.TabsAndFeedsAreSkipped | src/components/quiz/CreateQuiz.jsx:65 | vertical tab and form feed are whitespace: such text is blank, and `parseInt` skips them |
| JsValues.IncludesIff | src/components/quiz/ViewQuiz.jsx:75 | `includes` is true exactly when the term occurs at some position of the text |
| JsValues.ToLowerIdempotent | src/components/quiz/ViewQuiz.jsx:75 | lower-casing twice is lower-casing once |
| JsValues.ToLowerAppend | src/components/quiz/ViewQuiz.jsx:75 | lower-casing distributes over concatenation |
| JsValues.MatchesIgnoresTermCase | src/components/quiz/ViewQuiz.jsx:75 | a search term and its lower-case form match the same texts |
| JsValues.MatchesNarrows | src/components/quiz/QuizManagement.jsx:49-52 | a text matching a longer term also matches every prefix of that term |
| JsValues.OrElse | src/components/podcasts/CreatePodcast.jsx:134 | the `or` fallback on optional text: absent or empty text gives the fallback (no contract of its own; used by every failure message) |
| JsValues.IsSpace | src/components/podcasts/CreatePodcast.jsx:102 | the characters `trim` and `parseInt` skip; TabsAndFeedsAreSkipped states the vertical tab and form feed cases |
| JsValues.Trim | src/components/podcasts/CreatePodcast.jsx:102 | `s.trim()` as TrimEnd of TrimStart; its meaning is stated by BlankIffTrimEmpty |
| JsValues.IsBlank | src/components/podcasts/CreatePodcast.jsx:102 | `!s.trim()`: every character is whitespace; BlankIffTrimEmpty ties it to `trim` in both directions |
| JsValues.ParseInt | src/components/quiz/CreateQuiz.jsx:65-76 | `parseInt(s)`: skip whitespace, read a sign and the leading digits, NaN without a digit; stated by DigitPrefixStopsAtNonDigit, ParseIntAgreesWithNumber, BlankIsZeroButNaN and TabsAndFeedsAreSkipped |
| JsValues.ToNumber | src/components/quiz/CreateQuiz.jsx:48 | `Number(s)` on integer numerals: blank text is 0, a trimmed signed digit run is its value, anything else NaN; stated by BlankIsZeroButNaN and ParseIntAgreesWithNumber |
| JsValues.NumeralThenNonDigit | src/components/quiz/CreateQuiz.jsx:65 | `parseInt` reads exactly a signed numeral followed by text that does not start with a digit, with the numeral's sign |
| JsValues.NumberOf | src/components/quiz/CreateQuiz.jsx:48 | the coercion `<` applies to a form value that is a number or typed text; AddDisabledIffNoRoom and FilledDraftSubmits state what follows from it |
| JsValues.ParseIntOf | src/components/quiz/CreateQuiz.jsx:65 | `parseInt` of a form value that is a number or typed text; Submit and SubmitWhenCounted state what follows from it |
| JsValues.Matches | src/components/quiz/ViewQuiz.jsx:75 | `text.toLowerCase().includes(term.toLowerCase())`; stated by MatchesIgnoresTermCase and MatchesNarrows |
| JsValues.Join | src/components/podcasts/CreatePodcast.jsx:114 | `parts.join(sep)`; JoinHasPart states that every part occurs in the result |
| JsValues.StartsWith | src/components/EditEventForm.jsx:34 | `s.startsWith(p)`: `p` is a prefix of `s`; EventEditor.HandleChange's contract branches on it |
| Lists.Filter | src/components/EventList.jsx:36 | the kept elements are exactly those passing the test, and there are no more of them than in the input |
| Lists.FilterCounts | src/components/podcasts/ViewPodcasts.jsx:62-68 | a filter keeps every copy of each element that passes the test and no copy of one that fails it |
| Lists.FilterIsSubseq | src/components/quiz/ViewQuiz.jsx:75 | a filter keeps the original order |
| Lists.FilterKeepsAll | src/components/quiz/ViewQuiz.jsx:75 | a filter that every element passes returns the whole list |
| Lists.FilterSameTest | src/components/quiz/QuizManagement.jsx:49-52 | two tests that agree on the list's elements give the same filtered list |
| Requests.CountKeyAppend | src/components/EventForm.jsx:179-205 | the count of a key over a body built in two parts is the sum of the two counts |
| Requests.AppendPresentSnoc | src/components/podcasts/CreatePodcast.jsx:122-128 | one more pass of an append loop adds the next key's entry at the end of the body |
| Requests.AppendPresentValues | src/components/podcasts/CreatePodcast.jsx:122-128 | every entry of the body carries one of the loop's keys and that key's value |
| Requests.AppendPresentOrder | src/components/podcasts/CreatePodcast.jsx:122-128 | the body's keys keep the order in which the loop visits them |
| Requests.AppendPresentCount | src/components/podcasts/CreatePodcast.jsx:122-128 | with distinct keys, a key appears once if it is listed and its value is present, and never otherwise |
| Requests.AppendPresent | src/components/podcasts/CreatePodcast.jsx:122-128 | the body an append loop over the keys builds, skipping keys without a value; AppendPresentSnoc, AppendPresentValues, AppendPresentOrder and AppendPresentCount state its properties |
| QuizModel.NextStatus | src/components/quiz/EditQuiz.jsx:192 | the toggle asks for `inactive` exactly when the status is `active`, and for `active` otherwise |
| QuizModel.ToggleTwice | src/components/quiz/ViewQuiz.jsx:36 | toggling twice gives back `active` or `inactive`, and any other status ends up `inactive` |
| CreateQuiz.AddDisabledIffNoRoom | src/components/quiz/CreateQuiz.jsx:192 | the Add Question button is disabled exactly when `addQuestion` would not append; with a non-numeric target it is enabled yet does nothing |
| CreateQuiz.Appended | src/components/quiz/CreateQuiz.jsx:47-59 | the number of presses that append never takes the list past the target, and is every press while room remains |
| CreateQuiz.AddAllFillsToTarget | src/components/quiz/CreateQuiz.jsx:47-59 | a run of Add Question presses appends the buffers in order until the target is reached, then nothing; the other details never change |
| CreateQuiz.AddAllStaysWithinTarget | src/components/quiz/CreateQuiz.jsx:48 | for a target that `Number` reads as an integer, Add Question alone never takes the list past the declared number of questions |
| CreateQuiz.Submit | src/components/quiz/CreateQuiz.jsx:61-77 | the create request is sent exactly when the count equals `parseInt(numberOfQuestions)`; title and questions are kept and the four numeric details go through `parseInt` |
| CreateQuiz.FilledDraftSubmits | src/components/quiz/CreateQuiz.jsx:47-77 | with a numeral target, a draft can be submitted after enough presses of Add Question, and it then carries the first buffers in order |
| CreateQuiz.FilledAfterPresses | src/components/quiz/CreateQuiz.jsx:47-59 | after the presses the target is unchanged, and the list holds exactly the target's count of questions exactly when enough presses were made |
| CreateQuiz.SubmitWhenCounted | src/components/quiz/CreateQuiz.jsx:61-77 | with a target `parseInt` reads as `n`, the create request goes out exactly when the draft holds `n` questions, and it carries them |
| CreateQuiz.BlankTargetNeverSubmits | src/components/quiz/CreateQuiz.jsx:48-68 | a blank target disables Add Question and makes every submit a count mismatch |
| CreateQuiz.QuizBuilder.constructor | src/components/quiz/CreateQuiz.jsx:9-22 | an empty draft with numeric details 0, and an empty buffer of four options |
| CreateQuiz.QuizBuilder.HandleQuizDataChange | src/components/quiz/CreateQuiz.jsx:24-29 | only the named detail changes, to the typed text |
| CreateQuiz.QuizBuilder.HandleQuestionChange | src/components/quiz/CreateQuiz.jsx:31-36 | only the question text or the typed correct answer changes; the buffer keeps four options |
| CreateQuiz.QuizBuilder.HandleOptionChange | src/components/quiz/CreateQuiz.jsx:38-45 | only option `index` changes; text, answer and the other three options are kept |
| CreateQuiz.QuizBuilder.AddQuestion | src/components/quiz/CreateQuiz.jsx:47-59 | with room, the buffer is appended after the earlier questions and reset; without room nothing changes |
| CreateQuiz.QuizBuilder.HandleSubmit | src/components/quiz/CreateQuiz.jsx:61-89 | the create body goes out exactly when `Submit` says so; a reply carrying data leads to the quiz list, and a failure alerts the server's message or "Failed to create quiz" |
| CreateQuiz.HasRoom | src/components/quiz/CreateQuiz.jsx:48 | the guard of `addQuestion`: the count is below the target coerced by `Number` (integer targets only; fractional and exponent targets read as NaN); AddDisabledIffNoRoom relates it to the button |
| CreateQuiz.AddDisabled | src/components/quiz/CreateQuiz.jsx:192 | the button's `disabled` test; AddDisabledIffNoRoom states when it agrees with the guard |
| CreateQuiz.AddStep | src/components/quiz/CreateQuiz.jsx:47-59 | one Add Question press on the draft and the buffer; QuizBuilder.AddQuestion is proved to follow it |
| CreateQuiz.AddAll | src/components/quiz/CreateQuiz.jsx:47-59 | a run of presses, one buffer per press; AddAllFillsToTarget and AddAllStaysWithinTarget state its result |
| EditQuiz.SomeBlank | src/components/quiz/EditQuiz.jsx:96 | true exactly when some option is blank once trimmed |
| EditQuiz.CheckQuestion | src/components/quiz/EditQuiz.jsx:92-99 | a blank question text is reported first, then a blank option, and the buffer passes only when neither is blank |
| EditQuiz.ResetBufferIsRefused | src/components/quiz/EditQuiz.jsx:92-95 | a freshly reset buffer, or one with whitespace-only text, is refused before any request |
| EditQuiz.DetailsOf | src/components/quiz/EditQuiz.jsx:171-179 | the details body is the title plus `parseInt` of duration, reward and maxParticipants |
| EditQuiz.DetailsIgnoreQuestions | src/components/quiz/EditQuiz.jsx:171-179 | the details body does not depend on the questions, the question count or the status |
| EditQuiz.QuizEditor.constructor | src/components/quiz/EditQuiz.jsx:10-37 | without an id the editor shows "Quiz ID is missing" and stops loading; with one it waits for the fetch |
| EditQuiz.QuizEditor.FetchQuizData | src/components/quiz/EditQuiz.jsx:39-54 | a fetched quiz replaces the local one; a failure keeps it, shows the error and leaves only on a 404; loading ends either way |
| EditQuiz.QuizEditor.HandleQuizDataChange | src/components/quiz/EditQuiz.jsx:56-61 | only the named detail changes |
| EditQuiz.QuizEditor.HandleQuestionChange | src/components/quiz/EditQuiz.jsx:63-68 | only the buffer's question text changes |
| EditQuiz.QuizEditor.SelectCorrectAnswer | src/components/quiz/EditQuiz.jsx:351-359 | only the buffer's correct answer changes, to the chosen index |
| EditQuiz.QuizEditor.HandleOptionChange | src/components/quiz/EditQuiz.jsx:70-77 | only option `index` of the buffer changes |
| EditQuiz.QuizEditor.StartEditingQuestion | src/components/quiz/EditQuiz.jsx:79-87 | question `index` is copied into the buffer and marked as edited; the quiz is unchanged |
| EditQuiz.QuizEditor.SaveQuestion | src/components/quiz/EditQuiz.jsx:89-155 | a refused buffer sends nothing; otherwise it updates the edited index or appends; only an answer carrying a quiz replaces the quiz and resets buffer and index, and anything else changes nothing |
| EditQuiz.QuizEditor.DeleteQuestion | src/components/quiz/EditQuiz.jsx:157-167 | the delete of question `index` is sent; success refetches the quiz, and failure changes nothing |
| EditQuiz.QuizEditor.UpdateQuizDetails | src/components/quiz/EditQuiz.jsx:169-186 | only the details body is sent, and the editor leaves exactly on success |
| EditQuiz.QuizEditor.UpdateQuizStatus | src/components/quiz/EditQuiz.jsx:188-199 | the request asks for the toggled status; success refetches, and failure changes nothing |
| EditQuiz.BodyOf | src/components/quiz/EditQuiz.jsx:101-105 | `questionData`: the buffer's text and options with `parseInt` of its answer; QuizEditor.SaveQuestion's contract states it is what goes out |
| ViewQuiz.FilteredQuizzes | src/components/quiz/ViewQuiz.jsx:73-76 | a quiz is listed exactly when its title contains the term, ignoring case, in server order, each as often as in the list; a non-array state lists nothing |
| ViewQuiz.EmptyTermShowsAll | src/components/quiz/ViewQuiz.jsx:75 | an empty search box lists every quiz, in order |
| ViewQuiz.SearchIgnoresCase | src/components/quiz/ViewQuiz.jsx:75 | a term and its lower-case form list the same rows |
| ViewQuiz.LongerTermListsFewer | src/components/quiz/ViewQuiz.jsx:75 | typing more characters only removes rows |
| ViewQuiz.AfterFetch | src/components/quiz/ViewQuiz.jsx:16-26 | the list becomes `data.quizzes`, or empty when it is absent or the fetch fails |
| ViewQuiz.QuizList.constructor | src/components/quiz/ViewQuiz.jsx:8-9 | an empty list and an empty search term |
| ViewQuiz.QuizList.FetchQuizzes | src/components/quiz/ViewQuiz.jsx:16-26 | the list is what the fetch leaves, and the search term is kept |
| ViewQuiz.QuizList.SetSearchTerm | src/components/quiz/ViewQuiz.jsx:85 | only the search term changes |
| ViewQuiz.QuizList.HandleStatusChange | src/components/quiz/ViewQuiz.jsx:28-50 | the toggled status is sent; success refetches the list, and failure keeps it |
| ViewQuiz.QuizList.HandleDelete | src/components/quiz/ViewQuiz.jsx:52-71 | nothing is sent without confirmation; success refetches the list, and failure keeps it |
| ViewQuiz.Shown | src/components/quiz/ViewQuiz.jsx:75 | the row test: the title matches the term ignoring case; FilteredQuizzes keeps exactly the rows it passes |
| QuizManagement.FilteredResults | src/components/quiz/QuizManagement.jsx:48-52 | a result is kept exactly when its user matches, or its quiz title exists and matches; order and repeats are kept |
| QuizManagement.EmptyTermKeepsAll | src/components/quiz/QuizManagement.jsx:49-52 | an empty search term keeps every result |
| QuizManagement.UntitledFoundByUserOnly | src/components/quiz/QuizManagement.jsx:51 | a result without a quiz title is found exactly when its user matches |
| QuizManagement.LongerTermKeepsFewer | src/components/quiz/QuizManagement.jsx:49-52 | typing more characters only removes results |
| QuizManagement.ResultsPage.constructor | src/components/quiz/QuizManagement.jsx:7-10 | no results, loading, no error and an empty search term |
| QuizManagement.ResultsPage.FetchResults | src/components/quiz/QuizManagement.jsx:16-34 | the results become `data \|\| []`, or a failure keeps them and sets the error; loading ends either way |
| QuizManagement.ResultsPage.SetSearchTerm | src/components/quiz/QuizManagement.jsx:63 | only the search term changes |
| QuizManagement.Kept | src/components/quiz/QuizManagement.jsx:49-52 | the row test: the user matches, or a present title matches; FilteredResults keeps exactly the rows it passes, and UntitledFoundByUserOnly states the untitled case |
| ViewPodcasts.Drafts | src/components/podcasts/ViewPodcasts.jsx:62-64 | exactly the podcasts with status `draft`, in order; none for a non-array state |
| ViewPodcasts.Published | src/components/podcasts/ViewPodcasts.jsx:66-68 | exactly the podcasts with status `published`, in order; none for a non-array state |
| ViewPodcasts.PartitionIsExact | src/components/podcasts/ViewPodcasts.jsx:62-68 | no podcast is in both sections, other statuses are in neither, and the two sections together hold each podcast as often as the list does |
| ViewPodcasts.ClampIndex | src/components/podcasts/ViewPodcasts.jsx:74 | `slice` clamps an index into the list |
| ViewPodcasts.Slice | src/components/podcasts/ViewPodcasts.jsx:74 | a slice is never longer than its index range |
| ViewPodcasts.ClampNarrows | src/components/podcasts/ViewPodcasts.jsx:74 | clamping never moves two ordered indices further apart |
| ViewPodcasts.PageData | src/components/podcasts/ViewPodcasts.jsx:71-81 | page `p` is the slice from `(p-1)*5` to `p*5`, cut at the end of the list, so it has at most 5 rows |
| ViewPodcasts.TotalPages | src/components/podcasts/ViewPodcasts.jsx:84 | `ceil(n/5)`: the smallest page count whose pages hold `n` items |
| ViewPodcasts.PagesUpToIsPrefix | src/components/podcasts/ViewPodcasts.jsx:71-81 | pages 1 to k, concatenated, are the first `5k` items |
| ViewPodcasts.AllPagesGiveTheList | src/components/podcasts/ViewPodcasts.jsx:71-84 | concatenating pages 1 to `totalPages` gives back the whole section |
| ViewPodcasts.PastLastPageIsEmpty | src/components/podcasts/ViewPodcasts.jsx:71-81 | a page beyond the last one is empty |
| ViewPodcasts.NavigationStaysInRange | src/components/podcasts/ViewPodcasts.jsx:102-112 | Previous and Next keep the page in `[1, totalPages]`; Previous stays put exactly on page 1 and Next exactly on the last page, which is when each is disabled |
| ViewPodcasts.PageButtons | src/components/podcasts/ViewPodcasts.jsx:87-98 | one button per page from 1 to `totalPages`, and only the current one is disabled |
| ViewPodcasts.PodcastList.ShownRows | src/components/podcasts/ViewPodcasts.jsx:186-201 | a section shows at most 5 rows, all from that section; from page 1 on, exactly the stretch from `(p-1)*5` to `p*5` cut at the section's end |
| ViewPodcasts.PodcastList.constructor | src/components/podcasts/ViewPodcasts.jsx:11-18 | an empty list, loading, and both sections on page 1 |
| ViewPodcasts.PodcastList.FetchPodcasts | src/components/podcasts/ViewPodcasts.jsx:24-34 | the list becomes `response.data.data \|\| []`, or a failure keeps it and sets the error; loading ends either way |
| ViewPodcasts.PodcastList.GoTo | src/components/podcasts/ViewPodcasts.jsx:91 | the section moves to the chosen page and the other section keeps its page |
| ViewPodcasts.PodcastList.Previous | src/components/podcasts/ViewPodcasts.jsx:103 | the section moves to `max(1, p-1)` and stays on a real page |
| ViewPodcasts.PodcastList.Next | src/components/podcasts/ViewPodcasts.jsx:110 | the section moves to `min(totalPages, p+1)` and stays on a real page |
| ViewPodcasts.PodcastList.HandleDelete | src/components/podcasts/ViewPodcasts.jsx:40-59 | nothing is sent without confirmation; after a confirmed delete `deletingId` is cleared, and only a reported success refetches the list, which ends loading and shows "Failed to fetch podcasts" if the refetch fails; otherwise `error` and `loading` stay |
| ViewPodcasts.PreviousPage | src/components/podcasts/ViewPodcasts.jsx:103 | `Math.max(1, p - 1)`; NavigationStaysInRange states its range and when it stays put |
| ViewPodcasts.NextPage | src/components/podcasts/ViewPodcasts.jsx:110 | `Math.min(totalPages, p + 1)`; NavigationStaysInRange states its range and when it stays put |
| ViewPodcasts.PodcastList.RowBusy | src/components/podcasts/ViewPodcasts.jsx:159-168 | a row's buttons are disabled while its podcast is being deleted; PodcastList.HandleDelete states that `deletingId` is cleared once a confirmed delete ends |
| CreatePodcast.FieldNamed | src/components/podcasts/CreatePodcast.jsx:45-51 | the field an input name selects carries that name |
| CreatePodcast.MissingForPublish | src/components/podcasts/CreatePodcast.jsx:110-111 | exactly the publish-required fields that are blank once trimmed |
| CreatePodcast.MissingInOrder | src/components/podcasts/CreatePodcast.jsx:110-111 | the missing fields are listed in the order of the required list |
| CreatePodcast.Names | src/components/podcasts/CreatePodcast.jsx:114 | the fields' names, position by position |
| CreatePodcast.Validate | src/components/podcasts/CreatePodcast.jsx:101-118 | a blank title is refused for every status; a draft with a title passes; publishing also reports the blank required fields |
| CreatePodcast.NothingMissing | src/components/podcasts/CreatePodcast.jsx:109-117 | nothing is missing exactly when description, shortDescription, category and company are all non-blank |
| CreatePodcast.PublishNeedsAllFour | src/components/podcasts/CreatePodcast.jsx:109-118 | a titled podcast can be published exactly when its four publish-required fields are non-blank |
| CreatePodcast.MessageNamesEveryMissing | src/components/podcasts/CreatePodcast.jsx:111-114 | the message names every missing field |
| CreatePodcast.MissingMessageGrammar | src/components/podcasts/CreatePodcast.jsx:114 | one missing field "is" required, several "are"; they are listed in order and joined by ", " |
| CreatePodcast.TitleIsCheckedFirst | src/components/podcasts/CreatePodcast.jsx:101-106 | a blank title is reported alone, whatever else is missing |
| CreatePodcast.FormKeysDistinct | src/components/podcasts/CreatePodcast.jsx:16-27 | the form has no duplicate key |
| CreatePodcast.NameRoundTrip | src/components/podcasts/CreatePodcast.jsx:45-51 | every text field's name selects that field again, and is a key of the form |
| CreatePodcast.PayloadOrder | src/components/podcasts/CreatePodcast.jsx:122-128 | the body lists its keys in the form's order |
| CreatePodcast.PayloadImageOnlyIfChosen | src/components/podcasts/CreatePodcast.jsx:123-124 | `image` is in the body once when chosen and not at all otherwise |
| CreatePodcast.PayloadHasEveryField | src/components/podcasts/CreatePodcast.jsx:125-126 | every text field is in the body exactly once, even when empty |
| CreatePodcast.PayloadValues | src/components/podcasts/CreatePodcast.jsx:122-128 | each entry carries its field's current text, or the chosen file |
| CreatePodcast.BuildPayload | src/components/podcasts/CreatePodcast.jsx:121-128 | the `forEach` loop builds exactly the specified body |
| CreatePodcast.PodcastCreator.constructor | src/components/podcasts/CreatePodcast.jsx:16-27 | an empty draft with no image |
| CreatePodcast.PodcastCreator.HandleChange | src/components/podcasts/CreatePodcast.jsx:45-51 | only the named field changes |
| CreatePodcast.PodcastCreator.HandleTitleChange | src/components/podcasts/CreatePodcast.jsx:53-58 | only the title changes, at once |
| CreatePodcast.PodcastCreator.SlugGenerated | src/components/podcasts/CreatePodcast.jsx:60-69 | the delayed slug replaces only the slug |
| CreatePodcast.PodcastCreator.HandleCompanyChange | src/components/podcasts/CreatePodcast.jsx:72-79 | the company is both selected and stored in the form |
| CreatePodcast.PodcastCreator.HandleImageChange | src/components/podcasts/CreatePodcast.jsx:81-94 | a chosen file replaces the image; cancelling changes nothing |
| CreatePodcast.PodcastCreator.HandleSubmit | src/components/podcasts/CreatePodcast.jsx:96-139 | an invalid form sends nothing and shows its error; a valid one sends the specified body, the error follows the reply, a success (and only a success) raises `toHome`, the `navigate('/')` to the welcome page, and loading is false afterwards |
| CreatePodcast.MissingMessage | src/components/podcasts/CreatePodcast.jsx:114 | the error for missing fields; MessageNamesEveryMissing and MissingMessageGrammar state its content |
| CreatePodcast.EmptyIffNoneBlank | src/components/podcasts/CreatePodcast.jsx:109-117 | a list holding exactly the blank required fields is empty exactly when all four are non-blank |
| EditPodcast.MissingFields | src/components/podcasts/EditPodcast.jsx:65-66 | exactly the six required fields that are empty, untrimmed |
| EditPodcast.MissingInOrder | src/components/podcasts/EditPodcast.jsx:65-69 | the missing fields are listed in the order of the required list |
| EditPodcast.ValidateForm | src/components/podcasts/EditPodcast.jsx:63-79 | publishing needs no missing field and reports them joined by ", "; any other status needs only a title |
| EditPodcast.NothingMissing | src/components/podcasts/EditPodcast.jsx:64-71 | nothing is missing exactly when all six required fields are non-empty |
| EditPodcast.PublishNeedsAllSix | src/components/podcasts/EditPodcast.jsx:64-71 | a podcast being published is valid exactly when all six fields are non-empty |
| EditPodcast.WhitespacePassesOnlyHere | src/components/podcasts/EditPodcast.jsx:66 | whitespace-only fields pass the edit check while creation refuses the same title |
| EditPodcast.YoutubeRequiredOnlyHere | src/components/podcasts/EditPodcast.jsx:65 | without a YouTube link a podcast can be published on creation but not on edit |
| EditPodcast.CreationSkipsYoutube | src/components/podcasts/CreatePodcast.jsx:109-118 | creation publishes a podcast with four filled fields and no YouTube link |
| EditPodcast.FromLoaded | src/components/podcasts/EditPodcast.jsx:34-42 | absent optional fields become empty text; title and status are copied as they are |
| EditPodcast.LoadedFormValidity | src/components/podcasts/EditPodcast.jsx:34-77 | a loaded draft is valid exactly when it has a title; a loaded podcast with every field filled is valid |
| EditPodcast.PodcastEditor.constructor | src/components/podcasts/EditPodcast.jsx:10-22 | an empty draft form, loading, not submitting |
| EditPodcast.PodcastEditor.FetchPodcast | src/components/podcasts/EditPodcast.jsx:28-53 | a successful load fills the form, id and original status and ends loading; any other outcome changes nothing and leaves |
| EditPodcast.PodcastEditor.HandleChange | src/components/podcasts/EditPodcast.jsx:55-61 | only the named field changes |
| EditPodcast.PodcastEditor.HandleSubmit | src/components/podcasts/EditPodcast.jsx:81-100 | an invalid form sends nothing; a valid one sends the whole form under the podcast's id and leaves only on a reported success |
| EditPodcast.Filled | src/components/podcasts/EditPodcast.jsx:66 | `formData[field]` is truthy, so whitespace counts as filled; WhitespacePassesOnlyHere states the difference from creation |
| EditPodcast.EmptyIffAllFilled | src/components/podcasts/EditPodcast.jsx:64-71 | a list holding exactly the unfilled required fields is empty exactly when all six are filled |
| EditPodcast.EmptyYoutubeRefused | src/components/podcasts/EditPodcast.jsx:65-69 | publishing without a YouTube link lists `youtubeIframe` as missing and is refused |
| EventForm.FormKeysDistinct | src/components/EventForm.jsx:70-85 | the form has no duplicate key |
| EventForm.SocialKeysWithin | src/components/EventForm.jsx:179-202 | the four social keys are distinct form keys, and `featuredImage` is not a form key |
| EventForm.Formatted | src/components/EventForm.jsx:172-176 | the two dates are replaced by their ISO forms and every other field is kept |
| EventForm.PayloadCountSplit | src/components/EventForm.jsx:179-205 | a key's count in the body is its count in the main loop, the social block and the image entry |
| EventForm.FeaturedImageOnce | src/components/EventForm.jsx:201-205 | the body holds exactly one `featuredImage` entry |
| EventForm.SocialLinkOnce | src/components/EventForm.jsx:189-198 | each social key is in the body exactly once |
| EventForm.FieldOnceIfFilled | src/components/EventForm.jsx:179-186 | every other field is in the body once when non-empty after date formatting, and not at all otherwise |
| EventForm.MainEntriesShape | src/components/EventForm.jsx:179-186 | the main loop keeps key order, skips social keys, and sends only non-empty text |
| EventForm.SocialEntriesInOrder | src/components/EventForm.jsx:189-198 | the social block lists linkedin, telegram, twitter and instagram in that order |
| EventForm.BuildMainEntries | src/components/EventForm.jsx:179-186 | the `for...in` loop builds exactly the specified main entries |
| EventForm.BuildSocialEntries | src/components/EventForm.jsx:189-198 | the `forEach` builds exactly the specified social entries |
| EventForm.BuildPayload | src/components/EventForm.jsx:169-205 | the whole body: main entries, social entries, then the image |
| EventForm.EventCreator.constructor | src/components/EventForm.jsx:70-89 | an empty form of the fourteen keys, nothing selected and no image |
| EventForm.EventCreator.FetchStates | src/components/EventForm.jsx:40-60 | the country is set, the state selection and the city are cleared, and the state list is cleared for an empty country |
| EventForm.EventCreator.HandleStateChange | src/components/EventForm.jsx:62-68 | the selected state and the city both become the state, and nothing else changes |
| EventForm.EventCreator.HandleChange | src/components/EventForm.jsx:101-107 | only the named field changes |
| EventForm.EventCreator.HandleUrlChange | src/components/EventForm.jsx:117-133 | a non-empty URL failing the pattern is refused and leaves the form unchanged; an empty URL is always accepted |
| EventForm.EventCreator.HandleDateChange | src/components/EventForm.jsx:135-153 | the date is stored; a warning is shown exactly when both dates are set and the end precedes the start |
| EventForm.EventCreator.HandleCompanyChange | src/components/EventForm.jsx:155-162 | the company is both selected and stored in the form |
| EventForm.EventCreator.HandleImageChange | src/components/EventForm.jsx:109-115 | a chosen file and its preview replace the image; cancelling changes nothing |
| EventForm.EventCreator.Settle | src/components/EventForm.jsx:226-249 | after a creation the form, image and preview are reset; after anything else they are kept; loading is false |
| EventForm.EventCreator.HandleSubmit | src/components/EventForm.jsx:164-250 | a request is sent exactly when both dates convert and an image is chosen; it carries the specified body; only a successful reply resets the form |
| EventForm.ValidateUrl | src/components/EventForm.jsx:117-121 | empty text is allowed, anything else must match the pattern; EventCreator.HandleUrlChange's contract states refusal exactly when it fails |
| EventForm.MainValue | src/components/EventForm.jsx:179-186 | what the `for...in` loop appends for a key: its formatted text when truthy and not a social key; MainEntriesShape and FieldOnceIfFilled state the result |
| EventForm.SocialValue | src/components/EventForm.jsx:189-198 | what the social block appends: `formData[key]`, or empty text when that is falsy, for every social key; SocialEntriesInOrder and SocialLinkOnce state the result |
| EventForm.TextEntries | src/components/EventForm.jsx:179-198 | the main loop's entries then the social block's; BuildMainEntries and BuildSocialEntries are proved to build them |
| EventForm.Payload | src/components/EventForm.jsx:168-205 | the whole body with the image last; FeaturedImageOnce, SocialLinkOnce, FieldOnceIfFilled and PayloadCountSplit state its counts |
| EditEventForm.InputNamed | src/components/EditEventForm.jsx:43-48 | the input a field name selects carries that name |
| EditEventForm.Set | src/components/EditEventForm.jsx:43-48 | only the named top-level field changes; social links and image are kept |
| EditEventForm.FormKeysDistinct | src/components/EditEventForm.jsx:7-25 | the form has no duplicate key |
| EditEventForm.NameRoundTrip | src/components/EditEventForm.jsx:43-48 | every input's name selects that input again, and is a plain form key |
| EditEventForm.InitialSocial | src/components/EditEventForm.jsx:18-23 | the four networks, each holding the event's link or '' when missing |
| EditEventForm.InitialForm | src/components/EditEventForm.jsx:7-25 | category and website default to '', social links as above, and the existing image is kept |
| EditEventForm.PayloadCountSplit | src/components/EditEventForm.jsx:66-77 | a key's count in the body is its count in the loop plus the new-image entry |
| EditEventForm.FeaturedImageOnce | src/components/EditEventForm.jsx:69-77 | the body holds exactly one `featuredImage` entry |
| EditEventForm.FeaturedImageValue | src/components/EditEventForm.jsx:69-77 | that entry is the new file when one was chosen, and the existing URL otherwise |
| EditEventForm.SocialLinksOnce | src/components/EditEventForm.jsx:67-68 | `socialLinks` is sent exactly once |
| EditEventForm.SocialLinksValue | src/components/EditEventForm.jsx:67-68 | every `socialLinks` entry is the serialised map |
| EditEventForm.InputAlwaysSent | src/components/EditEventForm.jsx:69-70 | every plain field is sent exactly once |
| EditEventForm.InputValue | src/components/EditEventForm.jsx:69-70 | a plain field is sent with its current text |
| EditEventForm.BuildEntries | src/components/EditEventForm.jsx:66-72 | the `forEach` loop builds exactly the specified entries |
| EditEventForm.BuildPayload | src/components/EditEventForm.jsx:63-77 | the loop's entries followed by the new image when there is one |
| EditEventForm.EventEditor.constructor | src/components/EditEventForm.jsx:7-30 | the form built from the event, the existing image in use and previewed |
| EditEventForm.EventEditor.HandleChange | src/components/EditEventForm.jsx:32-49 | `social-X` updates only social link X; any other name updates only that top-level field |
| EditEventForm.EventEditor.HandleImageChange | src/components/EditEventForm.jsx:51-58 | a chosen file becomes the new image and the existing one is no longer used; cancelling changes nothing |
| EditEventForm.EventEditor.HandleSubmit | src/components/EditEventForm.jsx:60-98 | the specified body goes to the event's id; the updated event is passed on and the form closed exactly on success |
| EditEventForm.LinkOf | src/components/EditEventForm.jsx:19-22 | the event's link for a network, or empty text when there is none; InitialSocial states the links the form starts with |
| EditEventForm.EditValue | src/components/EditEventForm.jsx:66-72 | what the `forEach` appends for a key: the serialised links, the existing image URL only without a new image, every input's text; FeaturedImageValue, SocialLinksValue and InputValue state the result |
| EditEventForm.Payload | src/components/EditEventForm.jsx:63-77 | the loop's entries then the new image; FeaturedImageOnce, SocialLinksOnce and InputAlwaysSent state its counts |
| EventList.RemoveById | src/components/EventList.jsx:36 | exactly the events without that id remain, in order and with their repeats |
| EventList.ReplaceById | src/components/EventList.jsx:47-49 | same length; each event with the id is replaced and every other one kept |
| EventList.RemoveIsIdempotent | src/components/EventList.jsx:36 | after a delete no event carries the id, and deleting again changes nothing |
| EventList.RemoveAbsentIdKeepsAll | src/components/EventList.jsx:36 | deleting an id no event carries keeps the list |
| EventList.ReplaceAbsentIdKeepsAll | src/components/EventList.jsx:47-49 | updating with an id no event carries keeps the list |
| EventList.ReplaceKeepsIdOrder | src/components/EventList.jsx:47-49 | each position keeps the id it had |
| EventList.ReplaceIsIdempotent | src/components/EventList.jsx:47-49 | replacing twice is replacing once |
| EventList.DeleteAfterUpdate | src/components/EventList.jsx:28-50 | updating an event and then deleting its id is deleting alone |
| EventList.EventListPage.constructor | src/components/EventList.jsx:8-10 | no events, loading, and nothing being edited |
| EventList.EventListPage.FetchEvents | src/components/EventList.jsx:16-26 | loaded events replace the list; a failure keeps it; loading ends either way |
| EventList.EventListPage.HandleDelete | src/components/EventList.jsx:28-44 | nothing is sent without confirmation; a successful delete removes that id, and a failed one keeps the list |
| EventList.EventListPage.StartEditing | src/components/EventList.jsx:102 | the edit form opens on the event |
| EventList.EventListPage.StopEditing | src/components/EventList.jsx:61 | the edit form closes |
| EventList.EventListPage.HandleEventUpdate | src/components/EventList.jsx:46-50 | the list becomes the replace-by-id of the old list |

## Left out

- HTTP: axios, `fetch`, the API base URL and the `podcastService` wrapper (`src/services/api.js` is not part of this model). Each call is a reply parameter: a body, a failure, or a success flag.
- The country, state and company lookups on third-party services. A state list reply is a parameter of `FetchStates`, and the option lists are not modelled.
- Dates: `toISOString`, the `Date` comparison and locale formatting. The ISO conversion (`isoOf`) and the "earlier than" test (`earlier`) are parameters. The edit form receives its two start/end dates already formatted.
- The URL pattern of `validateUrl`: a predicate passed as a parameter.
- `slugify` and its 300 ms delay: `SlugGenerated` receives the slug once the delay is over.
- `JSON.stringify` of the social links: sent as the map itself, so key order in the serialised text is not modelled.
- `FileReader` and `URL.createObjectURL`: the preview string is a parameter.
- Toasts, `alert`, `console` and all rendering and CSS. Each `navigate` call is a returned flag: `toHome` for `/`, `backToList` for `/podcasts` in the podcast editor and `/quiz` in the quiz editor, and `toQuizList` for `/quiz`. `window.confirm` is a boolean parameter.
- The authentication context, the login and auth pages, the sidebar, the navbar and the app router.
- Async interleaving: each handler runs to completion with its reply in hand. Stale replies after unmount and double submits are not modelled.
- `JsValues.ParseIntAgreesWithNumber`: `Number` is modelled only on signed decimal integers and whitespace, so fractions, exponents, hexadecimal and `Infinity` read as NaN.
- `CreateQuiz.AddAllStaysWithinTarget` and `CreateQuiz.HasRoom`: the source's guard compares with `Number` of the typed target, which a number input can set to "2.5" or "1e1". With "2.5" the source appends a third question (2 < 2.5) and goes past the target, and its `parseInt` submit check then reads 2, so that quiz can never be submitted. With "1e1" Add Question allows ten presses while the submit check wants exactly one. The model reads both targets as NaN, so the stay-within property is stated only for targets `Number` reads as an integer, and in the program it does not hold for fractional ones.
- `JsValues.ToLower`: `toLowerCase` folds only the ASCII letters, so `Matches`, `ViewQuiz.FilteredQuizzes` and `QuizManagement.FilteredResults` do not find "é" in "École" as JavaScript does.
- `JsValues.ParseInt`: a `0x` prefix is read as the digit 0, not as hexadecimal; the values parsed come from number inputs and radio indices, which never carry it.
- `EventForm.EventCreator.HandleSubmit`: `loading` is true only while the request is in flight; the model states only the state after the handler.
- `ViewPodcasts.PodcastList.HandleDelete`: `deletingId` holding the id during the request is likewise not visible; only its clearing afterwards is stated.
- `EventList.EventListPage.FetchEvents`: the events state holds whatever the server answers; the model takes it to be a list of events.
- `QuizManagement.ResultsPage.FetchResults`: likewise, results other than a list are not modelled.
- `EditEventForm.EventEditor.constructor`: event fields the server leaves out are modelled as text, not as `undefined`.
- `EditPodcast.YoutubeRequiredOnlyHere`: states that `youtubeIframe` is among the missing fields, not the exact missing list.
- Error message texts shown in toasts after a failed request are not modelled, except the ones kept in state: `submitError`, the editor and list `error` fields.
- `CreateQuiz.QuizBuilder.HandleSubmit`: the count-mismatch alert is the `CountMismatch` result carrying the typed target; the alert's text is not built.
