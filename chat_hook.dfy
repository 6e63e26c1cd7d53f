/**
 * `useOpenAIChatAxios({ prompt, options, auto })`: a hook that posts the prompt to `/api/openai`
 * whenever its inputs change and exposes `{ loading, answer, error }`.
 *
 * The hook is a state machine over renders and request completions. Each effect run that passes
 * the gate starts one request with its own AbortController; the cleanup before the next run (or at
 * unmount) aborts it, and an aborted request settles with a `CanceledError`, which is never shown.
 */
module ChatHook {
  import opened Wrappers
  import opened Text
  import opened Http
  import opened OpenAI
  import opened Effects

  /** The `options` object; each field may be left out. */
  datatype ChatOptions = ChatOptions(model: Option<string>, system: Option<string>, temperature: Option<Temperature>)

  const NoOptions := ChatOptions(None, None, None)

  /** The hook's arguments once its parameter defaults are applied; `prompt` may be absent. */
  datatype HookArgs = HookArgs(prompt: Option<string>, options: ChatOptions, auto: bool)

  /** The parameter defaults `options = {}` and `auto = true`, applied to an omitted argument. */
  function ApplyDefaults(prompt: Option<string>, options: Option<ChatOptions>, auto: Option<bool>): (args: HookArgs)
    ensures args.prompt == prompt
    ensures options.None? ==> args.options == NoOptions
    ensures options.Some? ==> args.options == options.value
    ensures args.auto <==> auto != Some(false)
  {
    HookArgs(prompt, options.GetOr(NoOptions), auto.GetOr(true))
  }

  const DefaultModel := "gpt-4o-mini"
  const DefaultSystem := "You are a helpful assistant."
  const DefaultTemperature := Temperature("0.7")

  /**
   * The effect's early returns: it does nothing unless `auto` is on and the prompt is present and
   * not whitespace only, which is when `prompt.trim()` is non-empty.
   */
  predicate Gate(args: HookArgs) {
    args.auto && args.prompt.Some? && !AllWhitespace(args.prompt.value)
  }

  /** The gate is the hook's own test on the trimmed prompt. */
  lemma GateIsTrimTest(args: HookArgs)
    ensures Gate(args) <==> args.auto && args.prompt.Some? && Trim(args.prompt.value) != ""
  {
    if args.prompt.Some? {
      TrimBlank(args.prompt.value);
    }
  }

  /** The posted body: the prompt, and each option or, when it is null or missing, its default (`??`). */
  function RequestBody(args: HookArgs): (body: ChatBody)
    requires args.prompt.Some?
    ensures body.prompt == args.prompt.value
    ensures body.model == if args.options.model.Some? then args.options.model.value else DefaultModel
    ensures body.system == if args.options.system.Some? then args.options.system.value else DefaultSystem
    ensures body.temperature == if args.options.temperature.Some? then args.options.temperature.value else DefaultTemperature
  {
    ChatBody(args.prompt.value,
      args.options.model.GetOr(DefaultModel),
      args.options.system.GetOr(DefaultSystem),
      args.options.temperature.GetOr(DefaultTemperature))
  }

  /** Without options every field of the body takes its default. */
  lemma DefaultsApply(prompt: string, auto: Option<bool>)
    ensures var body := RequestBody(ApplyDefaults(Some(prompt), None, auto));
      body == ChatBody(prompt, DefaultModel, DefaultSystem, DefaultTemperature)
  {
  }

  /** Options given in part, as `{ model: "x" }`: the given one is posted, the others take their defaults. */
  lemma OnlyModelGiven(prompt: string, model: string)
    ensures RequestBody(HookArgs(Some(prompt), ChatOptions(Some(model), None, None), true))
      == ChatBody(prompt, model, DefaultSystem, DefaultTemperature)
  {
  }

  /**
   * `??` replaces only a missing option: a given option is posted as it is, the empty model and
   * system strings included.
   */
  lemma GivenOptionsKept(prompt: string, o: ChatOptions)
    requires o.model.Some? && o.system.Some? && o.temperature.Some?
    ensures RequestBody(HookArgs(Some(prompt), o, true)) == ChatBody(prompt, o.model.value, o.system.value, o.temperature.value)
    ensures o.model == Some("") ==> RequestBody(HookArgs(Some(prompt), o, true)).model == ""
  {
  }

  /** How the `catch` block recognises a cancellation: `axios.isCancel(e) || e.name === 'CanceledError'`. */
  predicate IsCancellation(e: AxiosError) {
    e.isCancel || e.name == "CanceledError"
  }

  /** The hook's value `{ loading, answer, error }`. */
  datatype HookResult = HookResult(loading: bool, answer: string, error: Option<AxiosError>)

  datatype HookState = HookState(
    /** The arguments of the last render; they are exactly the effect's dependencies. */
    args: HookArgs,
    loading: bool,
    answer: string,
    error: Option<AxiosError>,
    inFlight: seq<Pending<HookArgs>>,
    /** Every body posted so far, in order. */
    sent: seq<ChatBody>)

  function Result(s: HookState): HookResult {
    HookResult(s.loading, s.answer, s.error)
  }

  datatype Event =
    | Rerender(next: HookArgs)
    | Settle(i: nat, outcome: Outcome<Option<ChatReply>>)
    | Unmount

  /** The effect body: behind the gate, reset the result and start a request for the current arguments. */
  function RunEffect(s: HookState): HookState {
    if Gate(s.args) then
      s.(loading := true, error := None, answer := "",
         inFlight := s.inFlight + [Pending(s.args, false)], sent := s.sent + [RequestBody(s.args)])
    else s
  }

  /** The cleanup of the last run, `controller.abort()`; the earlier runs' requests are already aborted. */
  function Cleanup(s: HookState): HookState {
    s.(inFlight := AbortAll(s.inFlight))
  }

  /** The first render: initial state, then the effect. */
  function Mount(args: HookArgs): HookState {
    RunEffect(HookState(args, false, "", None, [], []))
  }

  /** Request `i` settles; an aborted request settles with a `CanceledError`. */
  function SettleRequest(s: HookState, i: nat, o: Outcome<Option<ChatReply>>): HookState {
    if i >= |s.inFlight| then s
    else
      var effective := if s.inFlight[i].aborted then Failure(Canceled) else o;
      var rest := RemoveAt(s.inFlight, i);
      match effective
      case Ok(reply) => s.(inFlight := rest, answer := ExtractContent(reply), loading := false)
      case Failure(e) =>
        s.(inFlight := rest, error := if IsCancellation(e) then s.error else Some(e), loading := false)
  }

  /** A render with the same dependencies does not run the effect again. */
  function Step(s: HookState, e: Event): HookState {
    match e
    case Rerender(next) => if next == s.args then s else RunEffect(Cleanup(s.(args := next)))
    case Settle(i, o) => SettleRequest(s, i, o)
    case Unmount => Cleanup(s)
  }

  function Run(s: HookState, es: seq<Event>): HookState
    decreases |es|
  {
    if es == [] then s else Run(Step(s, es[0]), es[1..])
  }

  /**
   * At most one request is live; it was started from the current arguments, which pass the gate,
   * and its body is the last one posted.
   */
  ghost predicate Consistent(s: HookState) {
    && (!NoLive(s.inFlight) ==> Gate(s.args) && s.sent != [] && s.sent[|s.sent| - 1] == RequestBody(s.args))
    && LiveFrom(s.inFlight, s.args)
    && AtMostOneLive(s.inFlight)
  }

  /** The first render starts a request exactly when the gate is open. */
  lemma MountConsistent(args: HookArgs)
    ensures Consistent(Mount(args))
    ensures Gate(args) ==> Mount(args).loading && Mount(args).sent == [RequestBody(args)] && |Mount(args).inFlight| == 1
    ensures !Gate(args) ==> Result(Mount(args)) == HookResult(false, "", None) && Mount(args).sent == []
  {
    if Gate(args) {
      StartAfterAbort([], args);
    }
  }

  /**
   * A render with new dependencies aborts every request; with the gate open it then resets the
   * result and starts exactly one request, posting the new arguments' body; with the gate closed it
   * posts nothing and leaves the result alone.
   */
  lemma RerenderRestarts(s: HookState, next: HookArgs)
    requires next != s.args
    ensures var t := Step(s, Rerender(next));
      && Consistent(t)
      && (Gate(next) ==>
            && t.loading && t.answer == "" && t.error.None?
            && t.sent == s.sent + [RequestBody(next)]
            && |t.inFlight| == |s.inFlight| + 1
            && Live(t.inFlight, |s.inFlight|)
            && forall k :: 0 <= k < |s.inFlight| ==> t.inFlight[k].aborted)
      && (!Gate(next) ==> Result(t) == Result(s) && t.sent == s.sent && NoLive(t.inFlight))
  {
    var c := Cleanup(s.(args := next));
    if Gate(next) {
      StartAfterAbort(c.inFlight, next);
    }
  }

  /** Rendering with the same dependencies changes nothing. */
  lemma SameDepsNoRerun(s: HookState)
    ensures Step(s, Rerender(s.args)) == s
  {
  }

  lemma SettlePreserves(s: HookState, i: nat, o: Outcome<Option<ChatReply>>)
    requires Consistent(s)
    ensures Consistent(SettleRequest(s, i, o))
  {
    if i < |s.inFlight| {
      RemoveKeepsLive(s.inFlight, i, s.args);
    }
  }

  lemma StepPreserves(s: HookState, e: Event)
    requires Consistent(s)
    ensures Consistent(Step(s, e))
  {
    match e
    case Rerender(next) =>
      if next != s.args { RerenderRestarts(s, next); }
    case Settle(i, o) => SettlePreserves(s, i, o);
    case Unmount =>
  }

  lemma {:induction false} RunPreserves(s: HookState, es: seq<Event>)
    requires Consistent(s)
    ensures Consistent(Run(s, es))
    decreases |es|
  {
    if es != [] {
      StepPreserves(s, es[0]);
      RunPreserves(Step(s, es[0]), es[1..]);
    }
  }

  /** Whatever happens after the first render, at most one request is live and it is for the current arguments. */
  lemma ReachableConsistent(args: HookArgs, es: seq<Event>)
    ensures Consistent(Run(Mount(args), es))
  {
    MountConsistent(args);
    RunPreserves(Mount(args), es);
  }

  /** A superseded (aborted) request never changes the answer or the error, whatever it settles with. */
  lemma StaleNeverShows(s: HookState, i: nat, o: Outcome<Option<ChatReply>>)
    requires i < |s.inFlight| && s.inFlight[i].aborted
    ensures Step(s, Settle(i, o)).answer == s.answer
    ensures Step(s, Settle(i, o)).error == s.error
  {
  }

  /**
   * The live request settles: on success the answer is the reply's content (or `""`), and it
   * answers the current arguments; a cancellation is not an error; any other error is shown.
   * Either way loading ends.
   */
  lemma LiveSettle(s: HookState, i: nat, o: Outcome<Option<ChatReply>>)
    requires Consistent(s) && Live(s.inFlight, i)
    ensures var t := Step(s, Settle(i, o));
      && !t.loading && t.args == s.args && s.inFlight[i].source == s.args
      && (o.Ok? ==> t.answer == ExtractContent(o.body) && t.error == s.error)
      && (o.Failure? && IsCancellation(o.err) ==> t.error == s.error && t.answer == s.answer)
      && (o.Failure? && !IsCancellation(o.err) ==> t.error == Some(o.err) && t.answer == s.answer)
  {
  }

  /**
   * The `finally` of a superseded request still runs `setLoading(false)`: after a change of prompt,
   * the old request's cancellation turns loading off while the new request is still live.
   */
  lemma StaleFinallyClearsLoading(s: HookState, next: HookArgs, i: nat)
    requires Consistent(s) && Live(s.inFlight, i) && next != s.args && Gate(next)
    ensures var t := Step(Step(s, Rerender(next)), Settle(i, Failure(Canceled)));
      !t.loading && !NoLive(t.inFlight)
  {
    RerenderRestarts(s, next);
    var r := Step(s, Rerender(next));
    RemoveKeepsLive(r.inFlight, i, next);
    var t := SettleRequest(r, i, Failure(Canceled));
    assert t.inFlight[|s.inFlight| - 1] == r.inFlight[|s.inFlight|];
  }

  /** After unmounting nothing is live, so no later completion reaches the state it would set. */
  lemma UnmountStopsAll(s: HookState)
    ensures NoLive(Step(s, Unmount).inFlight)
    ensures Result(Step(s, Unmount)) == Result(s)
  {
  }

  /** One mounted use of the hook. */
  class ChatHookInstance {
    var args: HookArgs
    var loading: bool
    var answer: string
    var error: Option<AxiosError>
    var inFlight: seq<Pending<HookArgs>>
    var sent: seq<ChatBody>

    ghost function State(): HookState
      reads this
    {
      HookState(args, loading, answer, error, inFlight, sent)
    }

    ghost predicate Valid()
      reads this
    {
      Consistent(State())
    }

    /** The value the component reads. */
    function Value(): (r: HookResult)
      reads this
      ensures r == Result(State())
    {
      HookResult(loading, answer, error)
    }

    /** The effect body of one run. */
    method RunEffectBody()
      modifies this
      ensures State() == RunEffect(old(State()))
    {
      var blank := args.prompt.None?;
      if args.prompt.Some? {
        blank := TrimsToEmpty(args.prompt.value);
      }
      if args.auto && !blank {
        loading := true;
        error := None;
        answer := "";
        inFlight := inFlight + [Pending(args, false)];
        sent := sent + [RequestBody(args)];
      }
    }

    /** The first render with `a`. */
    constructor (a: HookArgs)
      ensures Valid() && State() == Mount(a)
    {
      args := a;
      loading := false;
      answer := "";
      error := None;
      inFlight := [];
      sent := [];
      new;
      RunEffectBody();
      MountConsistent(a);
    }

    /** A later render of the component with `next`. */
    method Render(next: HookArgs)
      requires Valid()
      modifies this
      ensures Valid() && State() == Step(old(State()), Rerender(next))
    {
      if next != args {
        args := next;
        inFlight := AbortAll(inFlight);
        RunEffectBody();
        RerenderRestarts(old(State()), next);
      }
    }

    /** Request `i` in flight settles with `o`. */
    method Settled(i: nat, o: Outcome<Option<ChatReply>>)
      requires Valid()
      modifies this
      ensures Valid() && State() == Step(old(State()), Settle(i, o))
    {
      if i < |inFlight| {
        var effective := if inFlight[i].aborted then Failure(Canceled) else o;
        inFlight := RemoveAt(inFlight, i);
        match effective {
          case Ok(reply) =>
            answer := ExtractContent(reply);
          case Failure(e) =>
            if !(e.isCancel || e.name == "CanceledError") {
              error := Some(e);
            }
        }
        loading := false;
      }
      SettlePreserves(old(State()), i, o);
    }

    /** The component unmounts: the last cleanup aborts its request. */
    method Unmounted()
      requires Valid()
      modifies this
      ensures Valid() && State() == Step(old(State()), Unmount)
    {
      inFlight := AbortAll(inFlight);
    }
  }
}
