# Book catalog front end: request lifecycle model

A Dafny model of the logic layer of a React book-catalog front end. It covers five pages and
hooks:

- the book list, with its search and its fallback to a built-in sample table;
- the registration form, with its debounced, abortable AI blurb generation;
- the OpenAI chat hook;
- the detail page;
- the login page.

React state becomes the fields of a class, and each `setX` becomes an assignment. Every axios
call becomes an input: the request is recorded when it is sent, and its completion arrives later
as an `Outcome`. That outcome is either the response body or the rejection the `catch` block sees.

The form page and the chat hook, whose effects start, debounce and abort requests, are modelled
twice:

- as a pure state machine (`BookForm.Step`, `ChatHook.Step`), whose events are edits, toggles,
  timer firings, request completions and unmounting;
- as a class whose methods are proved to perform exactly one step of that machine.

The invariants and properties are proved about the machine.

Files:

| file | what it holds |
|---|---|
| `wrappers.dfy` | `Option`, and `??` as `GetOr` |
| `text.dfy` | JavaScript `trim`, ASCII `toLowerCase`, and `includes` |
| `http.dfy` | axios outcomes, rejections, and the `message \|\| fallback` idiom |
| `openai.dfy` | the `/api/openai` request body, and reading `choices[0].message.content` |
| `storage.dfy` | `localStorage` as a string map |
| `effects.dfy` | requests in flight with an abort flag |
| `book_list.dfy` | `BookListPage.jsx` |
| `book_form.dfy` | `BookFormPage.jsx` |
| `chat_hook.dfy` | `useOpenAIChatAxio.js` |
| `book_detail.dfy` | `BookDetailPage.jsx` |
| `login.dfy` | `Login.jsx` |

How the code behaves where requests overlap or state lingers:

- **No generation counter.** No request carries a sequence number, and no handler checks that a
  response belongs to the latest request.
  - On the list page this is harmless because of the render gate. While `loading` is true the
    page renders only its loading text, so neither the search box, the category select nor the
    two buttons exist. At most one `fetchBooks` is in flight, and it is the last request sent
    (`BookList.BookListPage.Valid`, `BookList.BookListPage.ShowsControls`,
    `BookList.BookListPage.Settle`).
  - The form page and the chat hook rely only on their effect cleanup, which aborts the
    previous request. An aborted request cannot change the result (`BookForm.CanceledSettleIsSilent`,
    `ChatHook.StaleNeverShows`).
  - The `finally` of an aborted request still turns loading off while the newer request is
    running (`ChatHook.StaleFinallyClearsLoading`).
- **Toggle-off keeps the suggestion.** Turning auto-generation off cancels the timer and the
  request, but the suggestion stays (`BookForm.ToggleOffStops`).
- **Discard does not abort.** Discarding a suggestion aborts nothing, so a request still in
  flight can put a suggestion back (`BookForm.DiscardThenReply`).
- **Cancellation is silent.** A cancelled request has no status of its own: the error stays as
  it was, and only loading ends.
- **Detail errors stick.** The detail page never clears its error and never resets `loading`
  when the route parameter changes. An error, once shown, therefore stays
  (`BookDetail.ErrorIsSticky`).
- **One submission at a time.** The form's submit button is disabled while submitting, so at
  most one `POST /books` is in flight (`BookForm.BookFormPage.Valid`).

## Model

| member | source | states |
|---|---|---|
| Text.TrimStartCut | frontend/src/pages/BookListPage.jsx:126 | stripping leading whitespace keeps a suffix of the input and removes only whitespace before it |
| Text.TrimEndCut | frontend/src/pages/BookListPage.jsx:126 | stripping trailing whitespace keeps a prefix of the input and removes only whitespace after it |
| Text.Trim | frontend/src/pages/BookListPage.jsx:126 | the result has no whitespace at either end and is no longer than the input |
| Text.TrimCut | frontend/src/pages/BookListPage.jsx:126 | the trimmed text is a contiguous piece of the input, and only whitespace lies before and after it |
| Text.TrimsToEmpty | frontend/src/pages/BookFormPage.jsx:67 | the test `s.trim() === ""` holds exactly when `s` is whitespace only |
| Text.TrimKeepsTrimmed | frontend/src/pages/BookListPage.jsx:126 | trimming a string without whitespace at its ends returns it unchanged |
| Text.TrimIdempotent | frontend/src/pages/BookListPage.jsx:126 | trimming twice equals trimming once |
| Text.TrimBlank | frontend/src/pages/BookFormPage.jsx:67 | `s.trim()` is empty if and only if `s` is whitespace only |
| Text.TrimPadded | frontend/src/pages/BookFormPage.jsx:50-61 | trimming whitespace padding around an already trimmed string gives that string back |
| Text.Lower | frontend/src/pages/BookListPage.jsx:105-106 | lower-casing keeps the length, turns each of A-Z into its lower-case letter, keeps every other character, and leaves no upper-case ASCII letter |
| Text.LowerIdempotent | frontend/src/pages/BookListPage.jsx:105-106 | lower-casing twice equals lower-casing once |
| Text.LowerMember | frontend/src/pages/BookListPage.jsx:105-106 | a character of the lowered text was that character or its upper-case form in the original |
| Text.ContainsIff | frontend/src/pages/BookListPage.jsx:109-113 | `includes` holds exactly when the substring occurs at some position |
| Text.ContainsInfix | frontend/src/pages/BookListPage.jsx:109-113 | a concatenation includes each of its parts |
| Text.ContainsFirstChar | frontend/src/pages/BookListPage.jsx:109-113 | an included non-empty string starts with a character of the text |
| Text.NoAsciiLetterMisses | frontend/src/pages/BookListPage.jsx:109-113 | a text without ASCII letters includes no lowered keyword that starts with an ASCII letter |
| Text.ContainsEmpty | frontend/src/pages/BookListPage.jsx:109-113 | every text includes the empty string |
| Http.MessageOr | frontend/src/pages/BookListPage.jsx:103 | `e.response?.data?.message \|\| fallback`: the server's message when non-empty, the fallback otherwise, and never empty for a non-empty fallback |
| Http.BodyMessageOr | frontend/src/pages/BookFormPage.jsx:126 | `res.data?.message \|\| fallback`, with the same three cases |
| OpenAI.ExtractContent | frontend/src/hooks/useOpenAIChatAxio.js:36 | the content the reply carries when every link of `choices[0].message.content` is present, and `""` when some link is missing or the content is empty |
| OpenAI.ExtractReplyWith | frontend/src/pages/BookFormPage.jsx:89 | a well-formed reply reads back as exactly its text |
| Storage.LocalStorage.GetItem | frontend/src/pages/BookFormPage.jsx:117 | `getItem` is present exactly for a stored key, with the stored value |
| Storage.LocalStorage.SetItem | frontend/src/pages/Login.jsx:51 | `setItem` updates that one key and keeps the others |
| Effects.AbortAll | frontend/src/hooks/useOpenAIChatAxio.js:52-54 | after the cleanup no request is live, and every request keeps its origin |
| Effects.RemoveAt | frontend/src/pages/BookFormPage.jsx:93-95 | a settled request leaves the in-flight list, and the others keep their order |
| Effects.RemoveKeepsLive | frontend/src/hooks/useOpenAIChatAxio.js:45-47 | a settling request makes no other request live and keeps "at most one live" |
| Effects.StartAfterAbort | frontend/src/hooks/useOpenAIChatAxio.js:15 | a new controller after the cleanup leaves exactly the new request live |
| BookList.FilterBooks | frontend/src/pages/BookListPage.jsx:107-116 | the filter returns at most as many books as it was given |
| BookList.FilterIsSubsequence | frontend/src/pages/BookListPage.jsx:107-116 | the filtered list is a subsequence of the input: nothing added, nothing reordered |
| BookList.FilterMembership | frontend/src/pages/BookListPage.jsx:105-115 | a book is kept if and only if it is in the list and matches the keyword (title or author, case-insensitive) and the category |
| BookList.FilterEmptyIff | frontend/src/pages/BookListPage.jsx:107-116 | the result is empty exactly when no book matches |
| BookList.FilterKeepsAll | frontend/src/pages/BookListPage.jsx:107-116 | when every book matches, the whole list comes back |
| BookList.MatchesIgnoresCase | frontend/src/pages/BookListPage.jsx:105-114 | two keywords equal once lowered match the same books |
| BookList.FilterAgrees | frontend/src/pages/BookListPage.jsx:107-116 | criteria every book matches alike filter to the same list |
| BookList.FilterIgnoresCase | frontend/src/pages/BookListPage.jsx:105-116 | the filter gives the same books for keywords that differ only in ASCII case |
| BookList.UpperKimSelectsMock4 | frontend/src/pages/BookListPage.jsx:52-110 | the keyword "KIM" selects mock-4, as "kim" does |
| BookList.EmptyCriteriaShowsAllMocks | frontend/src/pages/BookListPage.jsx:108-114 | no keyword and no category show all five sample books in order |
| BookList.NotIncludedWithoutFirstLetter | frontend/src/pages/BookListPage.jsx:109-110 | a lowered text cannot include a keyword whose first letter it lacks in both cases |
| BookList.HangulOnlyMocks | frontend/src/pages/BookListPage.jsx:24-65 | the sample books other than mock-4 have no ASCII letter in title or author |
| BookList.AsciiKeywordMissesHangulBook | frontend/src/pages/BookListPage.jsx:108-110 | a keyword starting with an ASCII letter misses a book written in Hangul only |
| BookList.AsciiKeywordMissesHangulMocks | frontend/src/pages/BookListPage.jsx:108-110 | such a keyword misses all sample books except mock-4 |
| BookList.KimMatchesMock4 | frontend/src/pages/BookListPage.jsx:52 | "Alice Kim" matches the keyword "kim" |
| BookList.KimSelectsMock4 | frontend/src/pages/BookListPage.jsx:108-110 | the keyword "kim" with no category selects exactly mock-4 |
| BookList.ZzzMissesMock4 | frontend/src/pages/BookListPage.jsx:108-110 | mock-4 does not match "zzz" |
| BookList.ZzzSelectsNothing | frontend/src/pages/BookListPage.jsx:108-110 | a keyword found in no title or author, "zzz", selects nothing |
| BookList.BuildParams | frontend/src/pages/BookListPage.jsx:92-94 | a `keyword` key exists if and only if the keyword is non-empty, a `category` key if and only if the category is, each holding its value, and no other key |
| BookList.SearchCriteria | frontend/src/pages/BookListPage.jsx:126 | the trimmed keyword, and `""` for the "전체" category, otherwise the trimmed category |
| BookList.SearchCriteriaNormalised | frontend/src/pages/BookListPage.jsx:124-127 | search criteria are trimmed; "전체" and a blank search box omit their parameters |
| BookList.Fallback | frontend/src/pages/BookListPage.jsx:101-118 | a failure shows the error's message or the fixed text, the filtered sample books, and the sample banner |
| BookList.Resolve | frontend/src/pages/BookListPage.jsx:95-120 | the sample table is used if and only if the request failed or its body was null; success shows `data` or `[]` with no error |
| BookList.BookListPage.ShowsControls | frontend/src/pages/BookListPage.jsx:140 | the search box, category select and buttons are rendered exactly when no fetch is in flight |
| BookList.BookListPage.ShowsRetryAlert | frontend/src/pages/BookListPage.jsx:216 | the error-with-retry alert is never shown, because an error always comes with the sample banner |
| BookList.BookListPage.constructor | frontend/src/pages/BookListPage.jsx:70-75 | the initial state, and the mount effect's fetch with no criteria |
| BookList.BookListPage.FetchBooks | frontend/src/pages/BookListPage.jsx:89-95 | sends one request with the built parameters and records it as pending; nothing shown changes |
| BookList.BookListPage.EditKeyword | frontend/src/pages/BookListPage.jsx:140-177 | typing, possible only while the controls are rendered, sets only the search box |
| BookList.BookListPage.EditCategory | frontend/src/pages/BookListPage.jsx:186-192 | choosing, possible only while the controls are rendered, sets only the category |
| BookList.BookListPage.HandleSearch | frontend/src/pages/BookListPage.jsx:124-127 | from an idle page: loading on, one fetch with the normalised criteria, which becomes the only one in flight; nothing else changed |
| BookList.BookListPage.HandleReset | frontend/src/pages/BookListPage.jsx:129-134 | from an idle page: clears the search box, selects "전체", turns loading on, and makes the fetch with no parameters the only one in flight |
| BookList.BookListPage.Settle | frontend/src/pages/BookListPage.jsx:96-121 | the fetch in flight, which is the last request sent, settles: books, error and banner per `Resolve` for its criteria, loading off, nothing left in flight |
| BookList.SearchShowsItsOwnResult | frontend/src/pages/BookListPage.jsx:124-140 | a failed search for "kim" shows the matching sample book under the search box that asked for it, and "kim" was the last keyword sent |
| BookList.KimSearch | frontend/src/pages/BookListPage.jsx:92-126 | the search box "kim" with "전체" gives the criteria ("kim", ""), the parameters `{ keyword: "kim" }` and the sample book mock-4 |
| BookForm.With | frontend/src/pages/BookFormPage.jsx:42-45 | the named field gets the value, and every other field is kept |
| BookForm.BuildPrompt | frontend/src/pages/BookFormPage.jsx:48-62 | the prompt has no whitespace at either end |
| BookForm.BuildPromptIsText | frontend/src/pages/BookFormPage.jsx:50-61 | trimming removes exactly the template's leading line break and trailing line break and indentation |
| BookForm.PromptEmbedsFields | frontend/src/pages/BookFormPage.jsx:51-60 | the prompt opens with the instruction, holds each field verbatim or "(미입력)" ("(없음)" for the description), and holds the requirements |
| BookForm.PromptBody | frontend/src/pages/BookFormPage.jsx:76-87 | the posted body is the built prompt, with no whitespace at its ends, model "gpt-4o-mini", system "You are a helpful assistant for Korean book blurbs." and temperature 0.7 |
| BookForm.GateIsTrimTest | frontend/src/pages/BookFormPage.jsx:66-67 | generation is allowed exactly when the toggle is on and the trimmed title and author are non-empty |
| BookForm.InitialConsistent | frontend/src/pages/BookFormPage.jsx:28-40 | the page starts consistent |
| BookForm.RerunRestarts | frontend/src/pages/BookFormPage.jsx:98-102 | a dependency change leaves no live request, and a timer over the current form exactly when the gate is open |
| BookForm.SettlePreserves | frontend/src/pages/BookFormPage.jsx:89-95 | a completion keeps the state consistent |
| BookForm.FirePreserves | frontend/src/pages/BookFormPage.jsx:70-87 | the timer firing keeps the state consistent |
| BookForm.StepPreserves | frontend/src/pages/BookFormPage.jsx:65-102 | every event keeps the state consistent: a timer only behind the gate with nothing live, at most one live request, started from the current form |
| BookForm.RunPreserves | frontend/src/pages/BookFormPage.jsx:65-102 | any sequence of events keeps the state consistent |
| BookForm.ReachableConsistent | frontend/src/pages/BookFormPage.jsx:65-102 | from the mounted page, a pending timer always has the gate open and nothing live |
| BookForm.EditStep | frontend/src/pages/BookFormPage.jsx:42-45 | an edit or toggle sends nothing and leaves the AI result alone; a real change restarts the debounce |
| BookForm.EditsCollapse | frontend/src/pages/BookFormPage.jsx:96-102 | any run of edits sends nothing and leaves at most one timer, over the last form, exactly when the gate is open |
| BookForm.DebouncedSendIsLatest | frontend/src/pages/BookFormPage.jsx:70-87 | after a run of edits the timer sends exactly one request, for the final form, with loading on and error and suggestion reset |
| BookForm.ClosedGateSendsNothing | frontend/src/pages/BookFormPage.jsx:66-67 | with the gate closed the timer event changes nothing |
| BookForm.CanceledSettleIsSilent | frontend/src/pages/BookFormPage.jsx:91-94 | an aborted request keeps error and suggestion, and ends loading |
| BookForm.LiveSettle | frontend/src/pages/BookFormPage.jsx:89-94 | success sets the suggestion to the content or `""`; a non-cancel error is recorded; a `CanceledError` is not; loading ends |
| BookForm.EditChangesOnlyThatField | frontend/src/pages/BookFormPage.jsx:42-45 | `handleChange` sets the named field, keeps the others and the suggestion |
| BookForm.ApplySuggestionLaw | frontend/src/pages/BookFormPage.jsx:105-108 | no-op without a suggestion; otherwise only the description becomes the suggestion; applying twice equals once |
| BookForm.ToggleOffStops | frontend/src/pages/BookFormPage.jsx:161 | turning the toggle off clears the timer and aborts the live request but keeps the suggestion |
| BookForm.DiscardThenReply | frontend/src/pages/BookFormPage.jsx:244 | discarding clears the suggestion without aborting, and a later reply brings one back |
| BookForm.SubmitPayload | frontend/src/pages/BookFormPage.jsx:117-124 | the stored user id if non-empty, otherwise "TEMP_USER_ID"; the four fields unchanged; `aiSummary` present exactly for a non-empty suggestion |
| BookForm.BlankTitleSubmitsButNeverGenerates | frontend/src/pages/BookFormPage.jsx:111 | a whitespace-only title passes the submit check but trims to empty and never opens the generation gate |
| BookForm.BookFormPage.constructor | frontend/src/pages/BookFormPage.jsx:28-40 | the initial state, consistent, with toggle off |
| BookForm.BookFormPage.CleanupEffect | frontend/src/pages/BookFormPage.jsx:98-101 | the cleanup step: timer cleared, every request aborted |
| BookForm.BookFormPage.RunEffectBody | frontend/src/pages/BookFormPage.jsx:65-70 | the effect step: a timer over the form only behind the trim gate |
| BookForm.BookFormPage.HandleChange | frontend/src/pages/BookFormPage.jsx:42-45 | performs the `Edit` step and keeps the invariant; submission state untouched |
| BookForm.BookFormPage.SetAutoGenerate | frontend/src/pages/BookFormPage.jsx:161 | performs the `Toggle` step and keeps the invariant |
| BookForm.BookFormPage.TimerFires | frontend/src/pages/BookFormPage.jsx:70-87 | performs the timer step and keeps the invariant |
| BookForm.BookFormPage.SettleGeneration | frontend/src/pages/BookFormPage.jsx:89-95 | performs the completion step and keeps the invariant |
| BookForm.BookFormPage.ApplyAISummary | frontend/src/pages/BookFormPage.jsx:105-108 | performs the apply step and keeps the invariant |
| BookForm.BookFormPage.DiscardSuggestion | frontend/src/pages/BookFormPage.jsx:244 | performs the discard step |
| BookForm.BookFormPage.Unmount | frontend/src/pages/BookFormPage.jsx:98-101 | performs the final cleanup |
| BookForm.BookFormPage.HandleSubmit | frontend/src/pages/BookFormPage.jsx:110-133 | only from the enabled button (not submitting): without title or author only the required alert; a throwing `getItem` alerts the fixed error text, posts nothing and ends submitting; otherwise submitting on and exactly one post of `SubmitPayload` with the stored id |
| BookForm.BookFormPage.SubmitSettled | frontend/src/pages/BookFormPage.jsx:126-133 | the one post in flight settles: success alerts the server message or the fixed text and goes to `/books`; failure alerts the error message or its fixed text; submitting off |
| BookForm.BookFormPage.Cancel | frontend/src/pages/BookFormPage.jsx:279 | goes to `/books` and changes nothing else |
| ChatHook.ApplyDefaults | frontend/src/hooks/useOpenAIChatAxio.js:6 | an omitted `options` is `{}` and an omitted `auto` is true |
| ChatHook.GateIsTrimTest | frontend/src/hooks/useOpenAIChatAxio.js:12-13 | the hook runs exactly when `auto` is on and the prompt is present with non-empty trim |
| ChatHook.RequestBody | frontend/src/hooks/useOpenAIChatAxio.js:25-28 | the body carries the prompt as given, and each of model, system and temperature is the given option or, when it is missing, its default |
| ChatHook.DefaultsApply | frontend/src/hooks/useOpenAIChatAxio.js:26-28 | without options the body has model 'gpt-4o-mini', system 'You are a helpful assistant.' and temperature 0.7 |
| ChatHook.OnlyModelGiven | frontend/src/hooks/useOpenAIChatAxio.js:26-28 | with only a model given, the body has that model and the default system text and temperature |
| ChatHook.GivenOptionsKept | frontend/src/hooks/useOpenAIChatAxio.js:26-28 | given options are posted unchanged, an empty model string included (`??`, not `\|\|`) |
| ChatHook.MountConsistent | frontend/src/hooks/useOpenAIChatAxio.js:11-18 | the first render starts one request with loading on exactly when the gate is open; otherwise the initial result and nothing sent |
| ChatHook.RerenderRestarts | frontend/src/hooks/useOpenAIChatAxio.js:11-55 | new dependencies abort every earlier request; behind an open gate they reset the result and start one request with the new body, otherwise nothing is sent and the result stays |
| ChatHook.SameDepsNoRerun | frontend/src/hooks/useOpenAIChatAxio.js:55 | a render with the same dependencies changes nothing |
| ChatHook.SettlePreserves | frontend/src/hooks/useOpenAIChatAxio.js:35-47 | a completion keeps the hook consistent |
| ChatHook.StepPreserves | frontend/src/hooks/useOpenAIChatAxio.js:11-55 | every event keeps at most one live request, started from the current arguments behind the gate, whose body was the last one posted |
| ChatHook.RunPreserves | frontend/src/hooks/useOpenAIChatAxio.js:11-55 | any sequence of events keeps the hook consistent |
| ChatHook.ReachableConsistent | frontend/src/hooks/useOpenAIChatAxio.js:11-55 | every state reached after the first render is consistent |
| ChatHook.StaleNeverShows | frontend/src/hooks/useOpenAIChatAxio.js:38-44 | an aborted request never changes the answer or the error |
| ChatHook.LiveSettle | frontend/src/hooks/useOpenAIChatAxio.js:36-47 | the live request answers the current arguments; success sets the content or `''`; a cancellation is no error; any other failure is; loading ends |
| ChatHook.StaleFinallyClearsLoading | frontend/src/hooks/useOpenAIChatAxio.js:45-47 | after a prompt change the old request's cancellation turns loading off while the new request is live |
| ChatHook.UnmountStopsAll | frontend/src/hooks/useOpenAIChatAxio.js:52-54 | unmounting aborts everything and keeps the result |
| ChatHook.ChatHookInstance.Value | frontend/src/hooks/useOpenAIChatAxio.js:57 | the hook returns `{ loading, answer, error }` of its state |
| ChatHook.ChatHookInstance.RunEffectBody | frontend/src/hooks/useOpenAIChatAxio.js:12-18 | the effect step behind the trim gate |
| ChatHook.ChatHookInstance.constructor | frontend/src/hooks/useOpenAIChatAxio.js:7-18 | the first render, consistent |
| ChatHook.ChatHookInstance.Render | frontend/src/hooks/useOpenAIChatAxio.js:52-55 | performs the render step and keeps the invariant |
| ChatHook.ChatHookInstance.Settled | frontend/src/hooks/useOpenAIChatAxio.js:35-47 | performs the completion step and keeps the invariant |
| ChatHook.ChatHookInstance.Unmounted | frontend/src/hooks/useOpenAIChatAxio.js:52-54 | performs the final cleanup |
| BookDetail.SelectView | frontend/src/pages/BookDetailPage.jsx:31-44 | loading first, then a non-empty error, then "not found" for no book, then the detail, with the cover only for a non-empty URL; each case if and only if its condition |
| BookDetail.SettleFetch | frontend/src/pages/BookDetailPage.jsx:15-25 | success sets the book to `data` and keeps the error; a null body or a failure sets the message or the fixed text and keeps the book |
| BookDetail.FirstViewCases | frontend/src/pages/BookDetailPage.jsx:17-33 | after the first fetch, a book in `data` shows it, no `data` shows "not found" (not the error), a failure shows its message |
| BookDetail.ErrorIsSticky | frontend/src/pages/BookDetailPage.jsx:19-21 | once set, the error is never cleared and keeps the error view |
| BookDetail.BookDetailPage.View | frontend/src/pages/BookDetailPage.jsx:31-33 | the page renders `SelectView` of its state |
| BookDetail.BookDetailPage.constructor | frontend/src/pages/BookDetailPage.jsx:11-13 | no book, loading, no error, and one fetch of `/books/:id` |
| BookDetail.BookDetailPage.RouteChanged | frontend/src/pages/BookDetailPage.jsx:27-29 | a new id fetches again without resetting loading or error |
| BookDetail.BookDetailPage.FetchSettled | frontend/src/pages/BookDetailPage.jsx:15-25 | book and error per `SettleFetch`, loading off |
| BookDetail.BookDetailPage.Back | frontend/src/pages/BookDetailPage.jsx:59 | goes to `/books`, nothing else changes |
| BookDetail.StaleErrorAfterRouteChange | frontend/src/pages/BookDetailPage.jsx:27-29 | a failed load, a route change and a successful load still show the old error |
| Login.Set | frontend/src/pages/Login.jsx:31 | the named field gets the value, the other is kept |
| Login.LoginPage.constructor | frontend/src/pages/Login.jsx:21-27 | empty form, no error, not loading |
| Login.LoginPage.HandleChange | frontend/src/pages/Login.jsx:29-33 | sets the named field and clears the error |
| Login.LoginPage.HandleSubmit | frontend/src/pages/Login.jsx:35-58 | an empty field sets the fixed message and touches neither loading nor storage; otherwise stores `userId = TEMP_USER_ID`, goes to `/`, and ends with loading off; a throwing storage shows the fixed error |
| Login.PostedUserIsTemp | frontend/src/pages/Login.jsx:51 | when only the login writes `userId`, a registered book carries "TEMP_USER_ID" |
| Login.LoginThenRegister | frontend/src/pages/BookFormPage.jsx:117 | logging in then registering a book posts "TEMP_USER_ID" with the entered title and author |

## Left out

- Rendering: JSX, Material-UI layout, styling and the loading texts. `Header.jsx` is not part of
  this model.
- Timers are events. The 600 ms delay and wall-clock time are not modelled; a pending timer
  fires when the `TimerFires` event arrives.
- Transport: axios, the `/books` and `/api/openai` backends, and the model's output are inputs.
  Every completion is a given `Outcome`. An aborted request is assumed to reject with a
  `CanceledError`, as axios does.
- Text.Lower: folds only the ASCII letters A-Z, where JavaScript's `toLowerCase` folds every
  script with case (for example "Ä" to "ä", and the Kelvin sign U+212A to "k"). The sample data is
  Hangul and ASCII, but the user's keyword is lowered too, so a non-ASCII keyword that matches a
  book in the page can miss it in the model.
- The temperature `0.7` is carried as its literal and never computed with.
- React batching and render scheduling: each `setX` is an immediate assignment. One
  consequence: the login page's `loading` is set and reset within one handler, and only its
  final value is modelled.
- State updates after unmount are allowed, as in React, and have no effect the model tracks.
- Plain navigation buttons are not modelled: the list page's "new book" and card links, and the
  login page's sign-up and password links. The form's cancel and the detail page's back button
  are modelled.
- `alert` and `navigate` are recorded as the last message and the last route.
- BookForm.BookFormPage.TimerFires: the posted body is not an out-parameter. `sent` records the
  form the request was built from, and `PromptBody` of that form is the body. This keeps the prompt
  text out of the method's proof.
- BookForm.Gate: stated as "not whitespace only" rather than "trims to non-empty".
  `GateIsTrimTest` proves the two are the same.
- A `prompt` that is truthy but not a string, which would make `prompt.trim()` throw, is outside
  the model: the prompt is a string or absent.
- The list page's error alert with the retry button is unreachable (see
  `BookList.BookListPage.ShowsRetryAlert`), so its retry action is not modelled.
