/**
 * The book registration form: four fields, an auto-generate toggle that asks `/api/openai` for a
 * blurb 600 ms after the last change, and the submit that posts the book to `/books`.
 *
 * The generation effect is modelled as a state machine (`AiState`, `Step`). Timers and requests
 * are explicit: a pending timer remembers the form its callback closes over, and every request
 * in flight carries whether its AbortController has been aborted. Nothing counts generations:
 * earlier runs are stopped only by the effect's cleanup clearing the timer and aborting.
 */
module BookForm {
  import opened Wrappers
  import opened Text
  import opened Http
  import opened OpenAI
  import opened Storage
  import opened Effects

  datatype Fields = Fields(title: string, author: string, category: string, description: string)

  /** The `name` attribute of an input, which `handleChange` uses as the key to update. */
  datatype FieldName = Title | Author | Category | Description

  function Get(f: Fields, n: FieldName): string {
    match n
    case Title => f.title
    case Author => f.author
    case Category => f.category
    case Description => f.description
  }

  /** `{ ...prev, [name]: value }`: the named field replaced, the others kept. */
  function With(f: Fields, n: FieldName, v: string): (g: Fields)
    ensures Get(g, n) == v
    ensures forall m :: m != n ==> Get(g, m) == Get(f, m)
  {
    match n
    case Title => f.(title := v)
    case Author => f.(author := v)
    case Category => f.(category := v)
    case Description => f.(description := v)
  }

  const EmptyForm := Fields("", "", "", "")

  // ---------------------------------------------------------------- the prompt

  const NotEntered := "(미입력)"
  const NoDescription := "(없음)"

  /** `v || marker` for a string. */
  function OrMarker(v: string, marker: string): string {
    if v != "" then v else marker
  }

  /** The template's first line, the request itself (written in two pieces, one per clause). */
  const Instruction := "다음 도서 메타데이터를 바탕으로 독자가 관심을 갖도록 " + "한국어로 200~300자 내의 소개 문구를 작성해주고 이미지 생성 리턴해줘."

  /** The template's closing block, one piece per line. */
  const Requirements := "요구 사항:\n" + "- 핵심 가치를 2~3개로 압축해 설득력 있게 제시\n" + "- 과장/광고 문구는 지양, 정보 중심\n" + "- 문장부호와 띄어쓰기 정확히"

  /** One `- label: value` line of the template. */
  function Line(name: string, value: string): string {
    "- " + name + ": " + value + "\n"
  }

  function FieldLines(f: Fields): string {
    Line("제목", OrMarker(f.title, NotEntered)) + Line("저자", OrMarker(f.author, NotEntered))
    + Line("카테고리", OrMarker(f.category, NotEntered)) + Line("참고 설명", OrMarker(f.description, NoDescription))
  }

  /** The text between the template's surrounding whitespace. */
  function PromptText(f: Fields): string {
    Instruction + "\n" + FieldLines(f) + "\n" + Requirements
  }

  /** The template literal as written: a line break before the text, a line break and four spaces after. */
  function PromptTemplate(f: Fields): string {
    "\n" + PromptText(f) + "\n    "
  }

  /** `buildPrompt(form)`: the template literal, trimmed. */
  function BuildPrompt(f: Fields): (prompt: string)
    ensures Trimmed(prompt)
  {
    Trim(PromptTemplate(f))
  }

  /** Trimming removes exactly the template's surrounding whitespace. */
  lemma BuildPromptIsText(f: Fields)
    ensures BuildPrompt(f) == PromptText(f)
  {
    var t := PromptText(f);
    assert t[0] == Instruction[0] == '다';
    assert t[|t| - 1] == Requirements[|Requirements| - 1] == '히';
    assert AllWhitespace("\n") && AllWhitespace("\n    ");
    TrimPadded("\n", t, "\n    ");
  }

  /**
   * The prompt has no whitespace at either end, opens with the instruction, and holds one line per
   * field: the value verbatim, or "(미입력)" ("(없음)" for the description) when it is empty.
   */
  lemma PromptEmbedsFields(f: Fields)
    ensures Trimmed(BuildPrompt(f))
    ensures StartsWith(BuildPrompt(f), Instruction)
    ensures Contains(BuildPrompt(f), Line("제목", OrMarker(f.title, NotEntered)))
    ensures Contains(BuildPrompt(f), Line("저자", OrMarker(f.author, NotEntered)))
    ensures Contains(BuildPrompt(f), Line("카테고리", OrMarker(f.category, NotEntered)))
    ensures Contains(BuildPrompt(f), Line("참고 설명", OrMarker(f.description, NoDescription)))
    ensures Contains(BuildPrompt(f), Requirements)
  {
    BuildPromptIsText(f);
    var l1, l2 := Line("제목", OrMarker(f.title, NotEntered)), Line("저자", OrMarker(f.author, NotEntered));
    var l3, l4 := Line("카테고리", OrMarker(f.category, NotEntered)), Line("참고 설명", OrMarker(f.description, NoDescription));
    assert PromptText(f) == Instruction + "\n" + (l1 + l2 + l3 + l4) + "\n" + Requirements;
    JoinedParts(Instruction, l1, l2, l3, l4, Requirements);
  }

  /** The pieces of `a + "\n" + b1 + b2 + b3 + b4 + "\n" + c`, each found in the whole. */
  lemma JoinedParts(a: string, b1: string, b2: string, b3: string, b4: string, c: string)
    ensures var p := a + "\n" + (b1 + b2 + b3 + b4) + "\n" + c;
      && StartsWith(p, a)
      && Contains(p, b1) && Contains(p, b2) && Contains(p, b3) && Contains(p, b4) && Contains(p, c)
  {
    var p := a + "\n" + (b1 + b2 + b3 + b4) + "\n" + c;
    var h := a + "\n";
    assert p[..|a|] == a;
    assert p == h + b1 + (b2 + b3 + b4 + "\n" + c);
    ContainsInfix(h, b1, b2 + b3 + b4 + "\n" + c);
    assert p == (h + b1) + b2 + (b3 + b4 + "\n" + c);
    ContainsInfix(h + b1, b2, b3 + b4 + "\n" + c);
    assert p == (h + b1 + b2) + b3 + (b4 + "\n" + c);
    ContainsInfix(h + b1 + b2, b3, b4 + "\n" + c);
    assert p == (h + b1 + b2 + b3) + b4 + ("\n" + c);
    ContainsInfix(h + b1 + b2 + b3, b4, "\n" + c);
    assert p == (h + b1 + b2 + b3 + b4 + "\n") + c + "";
    ContainsInfix(h + b1 + b2 + b3 + b4 + "\n", c, "");
  }

  /** The page's fixed model, system text and temperature. */
  const FormModel := "gpt-4o-mini"
  const FormSystem := "You are a helpful assistant for Korean book blurbs."
  const FormTemperature := Temperature("0.7")

  /**
   * The body of the request a timer over the form `f` sends: the prompt built from `f`, which
   * has no whitespace at either end, with the page's fixed model, system text and temperature.
   */
  function PromptBody(f: Fields): (body: ChatBody)
    ensures body.prompt == BuildPrompt(f) && Trimmed(body.prompt)
    ensures body.model == "gpt-4o-mini"
    ensures body.system == "You are a helpful assistant for Korean book blurbs."
    ensures body.temperature == Temperature("0.7")
  {
    ChatBody(BuildPrompt(f), FormModel, FormSystem, FormTemperature)
  }

  // ---------------------------------------------------------------- the generation state machine

  /**
   * The effect schedules a generation only with the toggle on and a title and an author that are
   * not whitespace only, which is when `title?.trim()` and `author?.trim()` are non-empty.
   */
  predicate Gate(f: Fields, autoGenerate: bool) {
    autoGenerate && !AllWhitespace(f.title) && !AllWhitespace(f.author)
  }

  /** The gate is the effect's own test on trimmed values. */
  lemma GateIsTrimTest(f: Fields, autoGenerate: bool)
    ensures Gate(f, autoGenerate) <==> autoGenerate && Trim(f.title) != "" && Trim(f.author) != ""
  {
    TrimBlank(f.title);
    TrimBlank(f.author);
  }

  /** A `POST /api/openai` in flight, started from the form its prompt was built from. */
  type Request = Pending<Fields>

  datatype AiState = AiState(
    form: Fields,
    autoGenerate: bool,
    aiLoading: bool,
    aiError: Option<AxiosError>,
    aiSuggestion: string,
    /** The pending 600 ms timer, with the form its callback closes over. */
    timer: Option<Fields>,
    inFlight: seq<Request>,
    /** The form behind each request sent so far, in order; request `k` carried `PromptBody(sent[k])`. */
    sent: seq<Fields>)

  /** The events that drive the page; `i` in `Settles` picks which request in flight settles. */
  datatype Event =
    | Edit(name: FieldName, value: string)
    | Toggle(on: bool)
    | TimerFires
    | Settles(i: nat, outcome: Outcome<Option<ChatReply>>)
    | ApplySuggestion
    | DiscardSuggestion
    | Unmount

  /** The page as mounted: empty fields, toggle off, so the first effect run schedules nothing. */
  const Initial := AiState(EmptyForm, false, false, None, "", None, [], [])

  /**
   * The effect's cleanup: `clearTimeout(timer)` and `controller.abort()`. Aborting every request
   * in flight is the same as aborting the last run's controller, since the earlier runs' cleanups
   * already aborted theirs (see `Consistent`).
   */
  function Cleanup(s: AiState): AiState {
    s.(timer := None, inFlight := AbortAll(s.inFlight))
  }

  /** The effect body: behind the gate, a new controller and a fresh 600 ms timer over the current form. */
  function RunEffect(s: AiState): AiState {
    if Gate(s.form, s.autoGenerate) then s.(timer := Some(s.form)) else s
  }

  /** A dependency changed: React runs the old cleanup, then the effect again. */
  function Rerun(s: AiState): AiState {
    RunEffect(Cleanup(s))
  }

  /** The timer callback: reset the AI state and send the prompt built from the captured form. */
  function FireTimer(s: AiState): AiState {
    match s.timer
    case None => s
    case Some(snapshot) =>
      s.(timer := None, aiLoading := true, aiError := None, aiSuggestion := "",
         inFlight := s.inFlight + [Pending(snapshot, false)], sent := s.sent + [snapshot])
  }

  /**
   * Request `i` settles with `o`; an aborted request always settles with a `CanceledError`.
   * Success shows the extracted content; any error but a `CanceledError` is shown; loading ends.
   */
  function SettleRequest(s: AiState, i: nat, o: Outcome<Option<ChatReply>>): AiState {
    if i >= |s.inFlight| then s
    else
      var effective := if s.inFlight[i].aborted then Failure(Canceled) else o;
      var rest := RemoveAt(s.inFlight, i);
      match effective
      case Ok(reply) => s.(inFlight := rest, aiSuggestion := ExtractContent(reply), aiLoading := false)
      case Failure(e) =>
        s.(inFlight := rest, aiError := if e.name != "CanceledError" then Some(e) else s.aiError, aiLoading := false)
  }

  /** `handleChange`: React re-runs the effect only when the field's value actually changed. */
  function EditField(s: AiState, n: FieldName, v: string): AiState {
    if Get(s.form, n) == v then s.(form := With(s.form, n, v))
    else Rerun(s.(form := With(s.form, n, v)))
  }

  function Step(s: AiState, e: Event): AiState {
    match e
    case Edit(n, v) => EditField(s, n, v)
    case Toggle(on) => if on == s.autoGenerate then s else Rerun(s.(autoGenerate := on))
    case TimerFires => FireTimer(s)
    case Settles(i, o) => SettleRequest(s, i, o)
    case ApplySuggestion => if s.aiSuggestion == "" then s else EditField(s, Description, s.aiSuggestion)
    case DiscardSuggestion => s.(aiSuggestion := "")
    case Unmount => Cleanup(s)
  }

  function Run(s: AiState, es: seq<Event>): AiState
    decreases |es|
  {
    if es == [] then s else Run(Step(s, es[0]), es[1..])
  }

  /**
   * What every reachable state satisfies: a pending timer holds the current form and exists only
   * behind the gate with nothing in flight; at most one request is live (not aborted), and it was
   * built from the current form behind the gate.
   */
  ghost predicate Consistent(s: AiState) {
    EffectConsistent(s.form, s.autoGenerate, s.timer, s.inFlight)
  }

  ghost predicate EffectConsistent(form: Fields, autoGenerate: bool, timer: Option<Fields>, rs: seq<Request>) {
    && (timer.Some? ==> timer.value == form && Gate(form, autoGenerate) && NoLive(rs))
    && (!NoLive(rs) ==> Gate(form, autoGenerate))
    && LiveFrom(rs, form)
    && AtMostOneLive(rs)
  }

  lemma InitialConsistent()
    ensures Consistent(Initial)
  {
  }

  /** After a cleanup and a fresh effect run nothing is live, and a timer is pending iff the gate is open. */
  lemma RerunRestarts(s: AiState)
    ensures Consistent(Rerun(s))
    ensures NoLive(Rerun(s).inFlight)
    ensures Rerun(s).timer == if Gate(s.form, s.autoGenerate) then Some(s.form) else None
  {
  }

  lemma SettlePreserves(s: AiState, i: nat, o: Outcome<Option<ChatReply>>)
    requires Consistent(s)
    ensures Consistent(SettleRequest(s, i, o))
  {
    if i < |s.inFlight| {
      RemoveKeepsLive(s.inFlight, i, s.form);
    }
  }

  lemma FirePreserves(s: AiState)
    requires Consistent(s)
    ensures Consistent(FireTimer(s))
  {
    if s.timer.Some? {
      StartAfterAbort(s.inFlight, s.form);
    }
  }

  /** Every event keeps the state consistent. */
  lemma StepPreserves(s: AiState, e: Event)
    requires Consistent(s)
    ensures Consistent(Step(s, e))
  {
    match e
    case Edit(n, v) =>
      if Get(s.form, n) != v { RerunRestarts(s.(form := With(s.form, n, v))); }
      else { assert s.form == With(s.form, n, v) by { FieldsExt(s.form, With(s.form, n, v)); } }
    case Toggle(on) =>
      if on != s.autoGenerate { RerunRestarts(s.(autoGenerate := on)); }
    case TimerFires => FirePreserves(s);
    case Settles(i, o) => SettlePreserves(s, i, o);
    case ApplySuggestion =>
      if s.aiSuggestion != "" {
        var v := s.aiSuggestion;
        if Get(s.form, Description) != v { RerunRestarts(s.(form := With(s.form, Description, v))); }
        else { assert s.form == With(s.form, Description, v) by { FieldsExt(s.form, With(s.form, Description, v)); } }
      }
    case DiscardSuggestion =>
    case Unmount =>
  }

  /** Two field records that agree on every field are equal. */
  lemma FieldsExt(f: Fields, g: Fields)
    requires forall n :: Get(f, n) == Get(g, n)
    ensures f == g
  {
    assert Get(f, Title) == Get(g, Title) && Get(f, Author) == Get(g, Author);
    assert Get(f, Category) == Get(g, Category) && Get(f, Description) == Get(g, Description);
  }

  /** Every state reached from a consistent one by any events is consistent. */
  lemma {:induction false} RunPreserves(s: AiState, es: seq<Event>)
    requires Consistent(s)
    ensures Consistent(Run(s, es))
    decreases |es|
  {
    if es != [] {
      StepPreserves(s, es[0]);
      RunPreserves(Step(s, es[0]), es[1..]);
    }
  }

  /**
   * In every state the page can reach, a generation is pending only behind the gate, and at most
   * one timer or one live request exists at a time.
   */
  lemma ReachableConsistent(es: seq<Event>)
    ensures Consistent(Run(Initial, es))
    ensures Run(Initial, es).timer.Some? ==> Gate(Run(Initial, es).form, Run(Initial, es).autoGenerate)
    ensures Run(Initial, es).timer.Some? ==> NoLive(Run(Initial, es).inFlight)
  {
    InitialConsistent();
    RunPreserves(Initial, es);
  }

  /** A field change or a toggle change. */
  predicate IsEdit(e: Event) {
    e.Edit? || e.Toggle?
  }

  /** Edits send nothing and leave the AI result alone; a dependency change restarts the debounce. */
  lemma EditStep(s: AiState, e: Event)
    requires IsEdit(e)
    ensures var t := Step(s, e);
      && t.sent == s.sent && t.aiLoading == s.aiLoading && t.aiError == s.aiError && t.aiSuggestion == s.aiSuggestion
      && (t == s || (NoLive(t.inFlight) && t.timer == if Gate(t.form, t.autoGenerate) then Some(t.form) else None))
  {
    match e
    case Edit(n, v) =>
      if Get(s.form, n) == v { FieldsExt(s.form, With(s.form, n, v)); }
    case Toggle(on) =>
  }

  /**
   * Debounce collapsing: any run of field and toggle changes sends no request, aborts everything
   * in flight once some dependency changed, and leaves one timer pending over the last inputs
   * whenever the gate is open; when that timer fires, exactly one request is sent, built from the
   * final form.
   */
  lemma {:induction false} EditsCollapse(s: AiState, edits: seq<Event>)
    requires forall k :: 0 <= k < |edits| ==> IsEdit(edits[k])
    ensures var t := Run(s, edits);
      && t.sent == s.sent && t.aiLoading == s.aiLoading && t.aiError == s.aiError && t.aiSuggestion == s.aiSuggestion
      && (t == s || (NoLive(t.inFlight) && t.timer == if Gate(t.form, t.autoGenerate) then Some(t.form) else None))
    decreases |edits|
  {
    if edits != [] {
      EditStep(s, edits[0]);
      var s1 := Step(s, edits[0]);
      EditsCollapse(s1, edits[1..]);
    }
  }

  /** The timer sends one request for the form it closes over, after resetting loading, error and suggestion. */
  lemma DebouncedSendIsLatest(s: AiState, edits: seq<Event>)
    requires Consistent(s)
    requires forall k :: 0 <= k < |edits| ==> IsEdit(edits[k])
    requires Run(s, edits).timer.Some?
    ensures var t := Run(s, edits); var u := Step(t, TimerFires);
      && u.sent == s.sent + [t.form]
      && u.aiLoading && u.aiError.None? && u.aiSuggestion == ""
  {
    RunPreserves(s, edits);
    EditsCollapse(s, edits);
  }

  /** With the gate closed, for instance a blank author, the timer event sends nothing. */
  lemma ClosedGateSendsNothing(s: AiState)
    requires Consistent(s) && !Gate(s.form, s.autoGenerate)
    ensures Step(s, TimerFires) == s
  {
  }

  /** A request whose controller was aborted does not touch `aiError` or the suggestion; loading ends. */
  lemma CanceledSettleIsSilent(s: AiState, i: nat, o: Outcome<Option<ChatReply>>)
    requires i < |s.inFlight| && s.inFlight[i].aborted
    ensures var t := Step(s, Settles(i, o));
      t.aiError == s.aiError && t.aiSuggestion == s.aiSuggestion && !t.aiLoading && |t.inFlight| == |s.inFlight| - 1
  {
  }

  /**
   * A live request that settles sets the suggestion to the reply's content (or `""`) on success,
   * records any error but a `CanceledError`, and always ends loading.
   */
  lemma LiveSettle(s: AiState, i: nat, o: Outcome<Option<ChatReply>>)
    requires Live(s.inFlight, i)
    ensures var t := Step(s, Settles(i, o));
      && !t.aiLoading
      && (o.Ok? ==> t.aiSuggestion == ExtractContent(o.body) && t.aiError == s.aiError)
      && (o.Failure? && o.err.name != "CanceledError" ==> t.aiError == Some(o.err) && t.aiSuggestion == s.aiSuggestion)
      && (o.Failure? && o.err.name == "CanceledError" ==> t.aiError == s.aiError && t.aiSuggestion == s.aiSuggestion)
  {
  }

  /** `handleChange` updates only the named field. */
  lemma EditChangesOnlyThatField(s: AiState, n: FieldName, v: string)
    ensures Get(Step(s, Edit(n, v)).form, n) == v
    ensures forall m :: m != n ==> Get(Step(s, Edit(n, v)).form, m) == Get(s.form, m)
    ensures Step(s, Edit(n, v)).aiSuggestion == s.aiSuggestion
  {
  }

  /**
   * `applyAISummary` does nothing without a suggestion; otherwise it sets only the description to
   * the suggestion, and applying it twice is the same as applying it once.
   */
  lemma ApplySuggestionLaw(s: AiState)
    ensures s.aiSuggestion == "" ==> Step(s, ApplySuggestion) == s
    ensures s.aiSuggestion != "" ==> Step(s, ApplySuggestion).form == s.form.(description := s.aiSuggestion)
    ensures Step(s, ApplySuggestion).aiSuggestion == s.aiSuggestion
    ensures Step(Step(s, ApplySuggestion), ApplySuggestion) == Step(s, ApplySuggestion)
  {
    if s.aiSuggestion != "" {
      var t := Step(s, ApplySuggestion);
      assert t.form.description == s.aiSuggestion == t.aiSuggestion;
      FieldsExt(t.form, With(t.form, Description, t.aiSuggestion));
    }
  }

  /** Turning the toggle off stops any pending or live generation but keeps the shown suggestion. */
  lemma ToggleOffStops(s: AiState)
    requires Consistent(s)
    ensures var t := Step(s, Toggle(false));
      t.timer.None? && NoLive(t.inFlight) && t.aiSuggestion == s.aiSuggestion && !t.autoGenerate
  {
  }

  /**
   * Discarding clears the suggestion but aborts nothing: a live request that then succeeds puts a
   * suggestion back.
   */
  lemma DiscardThenReply(s: AiState, i: nat, text: string)
    requires Live(s.inFlight, i)
    ensures Step(s, DiscardSuggestion).aiSuggestion == ""
    ensures Step(s, DiscardSuggestion).inFlight == s.inFlight
    ensures Step(Step(s, DiscardSuggestion), Settles(i, Ok(Some(ReplyWith(text))))).aiSuggestion == text
  {
    ExtractReplyWith(text);
  }

  // ---------------------------------------------------------------- submission

  const RequiredAlert := "제목과 저자는 필수입니다."
  const CreatedAlert := "도서가 성공적으로 등록되었습니다."
  const CreateErrorAlert := "도서 등록 중 오류가 발생했습니다."
  const TempUserId := "TEMP_USER_ID"

  /** The body of `POST /books`. */
  datatype BookPayload = BookPayload(
    userId: string, title: string, author: string, category: string, description: string,
    aiSummary: Option<string>)

  /** `handleSubmit` posts only with a title and an author, compared untrimmed. */
  predicate CanSubmit(f: Fields) {
    f.title != "" && f.author != ""
  }

  /**
   * `{ userId, ...form, aiSummary: aiSuggestion || undefined }` with
   * `userId = localStorage.getItem("userId") || "TEMP_USER_ID"`.
   */
  function SubmitPayload(storedUserId: Option<string>, f: Fields, suggestion: string): (p: BookPayload)
    ensures p.userId == if storedUserId.Some? && storedUserId.value != "" then storedUserId.value else TempUserId
    ensures p.userId != ""
    ensures p.title == f.title && p.author == f.author && p.category == f.category && p.description == f.description
    ensures p.aiSummary.Some? <==> suggestion != ""
    ensures p.aiSummary.Some? ==> p.aiSummary.value == suggestion
  {
    var userId := if storedUserId.Some? && storedUserId.value != "" then storedUserId.value else TempUserId;
    BookPayload(userId, f.title, f.author, f.category, f.description, if suggestion != "" then Some(suggestion) else None)
  }

  /** A whitespace-only title passes the submit check but never opens the generation gate. */
  lemma BlankTitleSubmitsButNeverGenerates(f: Fields, autoGenerate: bool)
    requires f.title != "" && AllWhitespace(f.title) && f.author != ""
    ensures CanSubmit(f) && Trim(f.title) == "" && !Gate(f, autoGenerate)
  {
    TrimBlank(f.title);
  }

  /** The form page's state: React's `useState` fields, the effect's timer and requests, and what it sent. */
  class BookFormPage {
    var form: Fields
    var submitting: bool
    var autoGenerate: bool
    var aiLoading: bool
    var aiError: Option<AxiosError>
    var aiSuggestion: string
    var timer: Option<Fields>
    var inFlight: seq<Request>
    var sent: seq<Fields>
    /** Every `POST /books` body sent, and how many of those requests are still in flight. */
    var posts: seq<BookPayload>
    var awaiting: nat
    /** The last `alert` shown and the last `navigate` target. */
    var lastAlert: Option<string>
    var lastRoute: Option<string>
    const store: LocalStorage

    ghost function Ai(): AiState
      reads this
    {
      AiState(form, autoGenerate, aiLoading, aiError, aiSuggestion, timer, inFlight, sent)
    }

    /**
     * The generation state is consistent, and the submit button, disabled while submitting,
     * lets at most one `POST /books` be in flight, exactly while submitting.
     */
    ghost predicate Valid()
      reads this
    {
      Consistent(Ai()) && awaiting <= 1 && (submitting <==> awaiting == 1)
    }

    /** The part of the state that submitting touches, none of it generation state. */
    ghost function Submission(): (bool, seq<BookPayload>, nat, Option<string>, Option<string>)
      reads this
    {
      (submitting, posts, awaiting, lastAlert, lastRoute)
    }

    constructor (store: LocalStorage)
      ensures Valid() && Ai() == Initial
      ensures !submitting && posts == [] && awaiting == 0 && lastAlert.None? && lastRoute.None?
      ensures this.store == store
    {
      form := EmptyForm;
      submitting := false;
      autoGenerate := false;
      aiLoading := false;
      aiError := None;
      aiSuggestion := "";
      timer := None;
      inFlight := [];
      sent := [];
      posts := [];
      awaiting := 0;
      lastAlert := None;
      lastRoute := None;
      this.store := store;
    }

    /** The cleanup of the last effect run. */
    method CleanupEffect()
      modifies this
      ensures Ai() == Cleanup(old(Ai()))
      ensures Submission() == old(Submission())
    {
      timer := None;
      inFlight := AbortAll(inFlight);
    }

    /** The effect body. */
    method RunEffectBody()
      modifies this
      ensures Ai() == RunEffect(old(Ai()))
      ensures Submission() == old(Submission())
    {
      var blankTitle := TrimsToEmpty(form.title);
      var blankAuthor := TrimsToEmpty(form.author);
      if autoGenerate && !blankTitle && !blankAuthor {
        timer := Some(form);
      }
    }

    method HandleChange(name: FieldName, value: string)
      requires Valid()
      modifies this
      ensures Valid() && Ai() == Step(old(Ai()), Edit(name, value))
      ensures Submission() == old(Submission())
    {
      var previous := Get(form, name);
      form := With(form, name, value);
      if previous != value {
        CleanupEffect();
        RunEffectBody();
      }
      StepPreserves(old(Ai()), Edit(name, value));
    }

    /** The switch's `onChange`: `setAutoGenerate(checked)`. */
    method SetAutoGenerate(on: bool)
      requires Valid()
      modifies this
      ensures Valid() && Ai() == Step(old(Ai()), Toggle(on))
      ensures Submission() == old(Submission())
    {
      if on != autoGenerate {
        autoGenerate := on;
        CleanupEffect();
        RunEffectBody();
      }
      StepPreserves(old(Ai()), Toggle(on));
    }

    /**
     * The 600 ms timer fires and sends `PromptBody` of the form it closes over; `sent` records
     * that form.
     */
    method TimerFires()
      requires Valid()
      modifies this
      ensures Valid() && Ai() == Step(old(Ai()), Event.TimerFires)
      ensures Submission() == old(Submission())
    {
      if timer.Some? {
        var snapshot := timer.value;
        timer := None;
        aiLoading := true;
        aiError := None;
        aiSuggestion := "";
        inFlight := inFlight + [Pending(snapshot, false)];
        sent := sent + [snapshot];
      }
      FirePreserves(old(Ai()));
    }

    /** Request `i` in flight settles with `o`. */
    method SettleGeneration(i: nat, o: Outcome<Option<ChatReply>>)
      requires Valid()
      modifies this
      ensures Valid() && Ai() == Step(old(Ai()), Settles(i, o))
      ensures Submission() == old(Submission())
    {
      if i < |inFlight| {
        var effective := if inFlight[i].aborted then Failure(Canceled) else o;
        inFlight := RemoveAt(inFlight, i);
        match effective {
          case Ok(reply) =>
            aiSuggestion := ExtractContent(reply);
          case Failure(e) =>
            if e.name != "CanceledError" {
              aiError := Some(e);
            }
        }
        aiLoading := false;
      }
      SettlePreserves(old(Ai()), i, o);
    }

    method ApplyAISummary()
      requires Valid()
      modifies this
      ensures Valid() && Ai() == Step(old(Ai()), ApplySuggestion)
      ensures Submission() == old(Submission())
    {
      if aiSuggestion != "" {
        HandleChange(Description, aiSuggestion);
      }
      StepPreserves(old(Ai()), ApplySuggestion);
    }

    /** The suggestion's reset button: `setAiSuggestion("")`. */
    method DiscardSuggestion()
      requires Valid()
      modifies this
      ensures Valid() && Ai() == Step(old(Ai()), Event.DiscardSuggestion)
      ensures Submission() == old(Submission())
    {
      aiSuggestion := "";
    }

    /** The page unmounts: the last cleanup runs. */
    method Unmount()
      requires Valid()
      modifies this
      ensures Valid() && Ai() == Step(old(Ai()), Event.Unmount)
      ensures Submission() == old(Submission())
    {
      CleanupEffect();
    }

    /**
     * `handleSubmit`, from the enabled submit button: without a title or an author only the alert
     * is shown. Otherwise the page reads the stored user id and posts the payload. `storageThrows`
     * says whether `localStorage.getItem` throws; the exception has no `response`, so the `catch`
     * alerts the fixed text and the `finally` ends submitting, with nothing posted.
     */
    method HandleSubmit(storageThrows: bool)
      requires Valid() && !submitting
      modifies this
      ensures Valid() && Ai() == old(Ai()) && lastRoute == old(lastRoute)
      ensures !CanSubmit(form) ==>
        lastAlert == Some(RequiredAlert) && posts == old(posts) && !submitting && awaiting == old(awaiting)
      ensures CanSubmit(form) && storageThrows ==>
        lastAlert == Some(CreateErrorAlert) && posts == old(posts) && !submitting && awaiting == old(awaiting)
      ensures CanSubmit(form) && !storageThrows ==>
        submitting && posts == old(posts) + [SubmitPayload(store.GetItem("userId"), form, aiSuggestion)]
        && awaiting == old(awaiting) + 1 && lastAlert == old(lastAlert)
    {
      if form.title == "" || form.author == "" {
        lastAlert := Some(RequiredAlert);
        return;
      }
      submitting := true;
      if storageThrows {
        lastAlert := Some(CreateErrorAlert);
        submitting := false;
        return;
      }
      var stored := store.GetItem("userId");
      posts := posts + [SubmitPayload(stored, form, aiSuggestion)];
      awaiting := awaiting + 1;
    }

    /** The `POST /books` in flight settles: alert the outcome, go to the list on success. */
    method SubmitSettled(o: Outcome<Option<Envelope<string>>>)
      requires Valid() && submitting
      modifies this
      ensures Valid()
      ensures Ai() == old(Ai()) && posts == old(posts) && awaiting == old(awaiting) - 1
      ensures !submitting
      ensures o.Ok? ==> lastAlert == Some(BodyMessageOr(o.body, CreatedAlert)) && lastRoute == Some("/books")
      ensures o.Failure? ==> lastAlert == Some(MessageOr(o.err, CreateErrorAlert)) && lastRoute == old(lastRoute)
    {
      match o {
        case Ok(body) =>
          lastAlert := Some(BodyMessageOr(body, CreatedAlert));
          lastRoute := Some("/books");
        case Failure(e) =>
          lastAlert := Some(MessageOr(e, CreateErrorAlert));
      }
      submitting := false;
      awaiting := awaiting - 1;
    }

    /** The cancel button: `navigate("/books")`. */
    method Cancel()
      modifies this
      ensures Ai() == old(Ai()) && lastRoute == Some("/books")
      ensures submitting == old(submitting) && posts == old(posts) && awaiting == old(awaiting) && lastAlert == old(lastAlert)
    {
      lastRoute := Some("/books");
    }
  }
}
