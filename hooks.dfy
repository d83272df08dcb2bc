/**
 * The data hooks of src/lib/hooks.ts: `useMe`, `useUsage`, `useEvents` and
 * `useMetrics`. Each keeps `{data, loading, error}`; each run of its effect
 * owns an `alive` flag that its cleanup clears, and `useEvents` also polls on
 * an interval. Effect runs are numbered: a fetch resolution carries the number
 * of the run that issued it, and it is applied only when that run is the
 * current one and still alive. Timer ticks and fetch resolutions are discrete
 * events chosen by the caller.
 */
module Hooks {
  import opened Wrappers
  import opened JsValues
  import opened JsStrings
  import opened Api

  datatype HookKind = UseMe | UseUsage | UseEvents | UseMetrics

  /** The dependencies an effect run was started with. */
  datatype Params =
    | MeParams
    | UsageParams
    | EventsParams(limit: int, pollMs: int)
    | MetricsParams(fromDay: string, toDay: string)

  function KindOf(p: Params): HookKind {
    match p
    case MeParams => UseMe
    case UsageParams => UseUsage
    case EventsParams(_, _) => UseEvents
    case MetricsParams(_, _) => UseMetrics
  }

  /** `useEvents(limit = 50, pollMs = 7000)` */
  const DefaultEvents := EventsParams(50, 7000)

  /** The defaults of `useEvents`: the latest 50 events, polled every 7 s. */
  lemma EventsDefaults()
    ensures KindOf(DefaultEvents) == UseEvents && DefaultEvents.pollMs == 7000
    ensures RequestPath(DefaultEvents) == "/v1/events?limit=50"
  {
    assert IntToString(50) == "50" by {
      assert NatToString(50) == NatToString(5) + ['0'];
    }
  }

  /** The path each hook passes to `apiGet`. */
  function RequestPath(p: Params): (path: string)
    ensures StartsWith(path, "/v1/")
  {
    match p
    case MeParams => "/v1/me"
    case UsageParams => "/v1/usage"
    case EventsParams(limit, _) => "/v1/events?limit=" + IntToString(limit)
    case MetricsParams(fromDay, toDay) => "/v1/metrics?from_day=" + fromDay + "&to_day=" + toDay
  }

  /** Hooks of different kinds never request the same path. */
  lemma RequestPathsDistinguishKinds(p: Params, q: Params)
    requires KindOf(p) != KindOf(q)
    ensures RequestPath(p) != RequestPath(q)
  {
    PathSignature(p);
    PathSignature(q);
  }

  /** The characters after `/v1/` that tell the four paths apart. */
  lemma PathSignature(p: Params)
    ensures var r := RequestPath(p);
      && (p.MeParams? ==> r == "/v1/me")
      && (p.UsageParams? ==> |r| > 4 && r[4] == 'u')
      && (p.EventsParams? ==> |r| > 4 && r[4] == 'e')
      && (p.MetricsParams? ==> |r| > 6 && r[4] == 'm' && r[6] == 't')
  {
    match p
    case MeParams =>
    case UsageParams =>
    case EventsParams(limit, _) =>
      PrefixIndex("/v1/events?limit=", IntToString(limit), 4);
    case MetricsParams(fromDay, toDay) =>
      var head := "/v1/metrics?from_day=";
      PrefixIndex(head, fromDay, 4);
      PrefixIndex(head, fromDay, 6);
      PrefixIndex(head + fromDay, "&to_day=", 4);
      PrefixIndex(head + fromDay, "&to_day=", 6);
      PrefixIndex(head + fromDay + "&to_day=", toDay, 4);
      PrefixIndex(head + fromDay + "&to_day=", toDay, 6);
  }

  /** The events path carries the limit it was started with. */
  lemma EventsPathDeterminesLimit(a: int, b: int, pollA: int, pollB: int)
    requires RequestPath(EventsParams(a, pollA)) == RequestPath(EventsParams(b, pollB))
    ensures a == b
  {
    var n := |"/v1/events?limit="|;
    assert IntToString(a) == RequestPath(EventsParams(a, pollA))[n..];
    assert IntToString(b) == RequestPath(EventsParams(b, pollB))[n..];
    IntToStringRoundTrip(a);
    IntToStringRoundTrip(b);
  }

  /** `normalizeApiError(e)` */
  function NormalizeApiError(e: Thrown): (r: ApiError)
    ensures e.ApiFailure? ==> r == e.err
    ensures e.OtherThrown? ==> r.status == 0 && r.code == Unknown && r.message == "Unknown error" && r.body == e.v
  {
    match e
    case ApiFailure(err) => err
    case OtherThrown(v) => ApiError(0, Unknown, "Unknown error", v)
  }

  /** Only `useEvents` keeps its previous data when a fetch fails. */
  predicate KeepsDataOnFailure(k: HookKind) {
    k == UseEvents
  }

  datatype HookState = HookState(
    params: Params,
    data: Value,
    loading: bool,
    error: Option<ApiError>,
    run: nat,               // the number of the latest effect run (0: none yet)
    alive: bool,            // that run's `alive` flag
    polling: bool,          // whether its interval is registered
    ticks: nat,             // `tick.current`
    requests: seq<string>)  // the paths of the `apiGet` calls issued so far

  /** Polling belongs to `useEvents` only, and only to a live run. */
  ghost predicate Wf(s: HookState) {
    s.polling ==> s.alive && KindOf(s.params) == UseEvents
  }

  /** The state `useState` starts with, before any effect has run. */
  function Initial(p: Params): (s: HookState)
    ensures s.params == p && s.run == 0
    ensures s.data == Null && s.loading && s.error == None
    ensures !s.alive && !s.polling && s.ticks == 0 && s.requests == [] && Wf(s)
  {
    HookState(p, Null, true, None, 0, false, false, 0, [])
  }

  /** One run of the effect: a fresh `alive` flag, the loading state, the
      first `apiGet`, and for `useEvents` the interval. */
  function StartStep(s: HookState, p: Params): (r: HookState)
    requires KindOf(p) == KindOf(s.params)
    ensures r.data == s.data && r.loading && r.error == None
    ensures r.params == p && r.run == s.run + 1 && r.alive
    ensures r.polling <==> KindOf(p) == UseEvents
    ensures r.ticks == s.ticks && r.requests == s.requests + [RequestPath(p)]
    ensures Wf(r)
  {
    s.(params := p, loading := true, error := None, run := s.run + 1, alive := true,
       polling := KindOf(p) == UseEvents, requests := s.requests + [RequestPath(p)])
  }

  /** Whether the resolution of a fetch issued by run `run` is applied. */
  predicate Applies(s: HookState, run: nat) {
    s.alive && run == s.run
  }

  /** A fetch of run `run` resolved with `body`. */
  function ResolveOkStep(s: HookState, run: nat, body: Value): (r: HookState)
    ensures !Applies(s, run) ==> r == s
    ensures Applies(s, run) ==> r.data == body && !r.loading && r.error == None
    ensures r.params == s.params && r.run == s.run && r.alive == s.alive && r.polling == s.polling
    ensures r.ticks == s.ticks && r.requests == s.requests
  {
    if Applies(s, run) then s.(data := body, loading := false, error := None) else s
  }

  /** A fetch of run `run` rejected with `e`. */
  function ResolveErrStep(s: HookState, run: nat, e: Thrown): (r: HookState)
    ensures !Applies(s, run) ==> r == s
    ensures Applies(s, run) ==> !r.loading && r.error == Some(NormalizeApiError(e))
    ensures Applies(s, run) ==> r.data == if KeepsDataOnFailure(KindOf(s.params)) then s.data else Null
    ensures r.params == s.params && r.run == s.run && r.alive == s.alive && r.polling == s.polling
    ensures r.ticks == s.ticks && r.requests == s.requests
  {
    if !Applies(s, run) then s
    else if KeepsDataOnFailure(KindOf(s.params)) then s.(loading := false, error := Some(NormalizeApiError(e)))
    else s.(data := Null, loading := false, error := Some(NormalizeApiError(e)))
  }

  /** The interval fires: `tick.current += 1; load(false)`. A poll does not
      touch `loading`, `data` or `error`; without a registered interval
      nothing fires. */
  function TickStep(s: HookState): (r: HookState)
    ensures !s.polling ==> r == s
    ensures s.polling ==> r.ticks == s.ticks + 1 && r.requests == s.requests + [RequestPath(s.params)]
    ensures r.data == s.data && r.loading == s.loading && r.error == s.error
    ensures r.params == s.params && r.run == s.run && r.alive == s.alive && r.polling == s.polling
  {
    if s.polling then s.(ticks := s.ticks + 1, requests := s.requests + [RequestPath(s.params)]) else s
  }

  /** The effect's cleanup: `alive = false` and, for `useEvents`, `clearInterval`. */
  function TeardownStep(s: HookState): (r: HookState)
    ensures !r.alive && !r.polling && Wf(r)
    ensures r == s.(alive := false, polling := false)
  {
    s.(alive := false, polling := false)
  }

  datatype HookEvent =
    | StartEvent(p: Params)
    | TickEvent
    | OkEvent(run: nat, body: Value)
    | ErrEvent(run: nat, e: Thrown)
    | TeardownEvent

  function Step(s: HookState, ev: HookEvent): HookState {
    match ev
    case StartEvent(p) => if KindOf(p) == KindOf(s.params) then StartStep(s, p) else s
    case TickEvent => TickStep(s)
    case OkEvent(run, body) => ResolveOkStep(s, run, body)
    case ErrEvent(run, e) => ResolveErrStep(s, run, e)
    case TeardownEvent => TeardownStep(s)
  }

  function Run(s: HookState, evs: seq<HookEvent>): HookState
    decreases |evs|
  {
    if evs == [] then s else Run(Step(s, evs[0]), evs[1..])
  }

  predicate NoRestart(evs: seq<HookEvent>) {
    forall i :: 0 <= i < |evs| ==> !evs[i].StartEvent?
  }

  lemma {:induction false} StepKeepsWf(s: HookState, ev: HookEvent)
    requires Wf(s)
    ensures Wf(Step(s, ev))
  {
  }

  lemma {:induction false} RunKeepsWf(s: HookState, evs: seq<HookEvent>)
    requires Wf(s)
    ensures Wf(Run(s, evs))
    decreases |evs|
  {
    if evs != [] {
      StepKeepsWf(s, evs[0]);
      RunKeepsWf(Step(s, evs[0]), evs[1..]);
    }
  }

  /** Once the run is torn down, no tick, resolution or further cleanup
      changes anything until the effect runs again. */
  lemma {:induction false} NothingChangesAfterTeardown(s: HookState, evs: seq<HookEvent>)
    requires !s.alive && !s.polling
    requires NoRestart(evs)
    ensures Run(s, evs) == s
    decreases |evs|
  {
    if evs != [] {
      assert Step(s, evs[0]) == s;
      assert NoRestart(evs[1..]) by {
        forall i | 0 <= i < |evs[1..]| ensures !evs[1..][i].StartEvent? {
          assert evs[1..][i] == evs[i + 1];
        }
      }
      NothingChangesAfterTeardown(s, evs[1..]);
    }
  }

  lemma TeardownIsFinal(s: HookState, evs: seq<HookEvent>)
    requires NoRestart(evs)
    ensures Run(TeardownStep(s), evs) == TeardownStep(s)
  {
    NothingChangesAfterTeardown(TeardownStep(s), evs);
  }

  /** Without a new effect run, `loading` only ever goes from true to false:
      polls never put the hook back into the loading state. */
  lemma {:induction false} PollsNeverAssertLoading(s: HookState, evs: seq<HookEvent>)
    requires NoRestart(evs)
    ensures Run(s, evs).loading ==> s.loading
    decreases |evs|
  {
    if evs != [] {
      assert NoRestart(evs[1..]) by {
        forall i | 0 <= i < |evs[1..]| ensures !evs[1..][i].StartEvent? {
          assert evs[1..][i] == evs[i + 1];
        }
      }
      PollsNeverAssertLoading(Step(s, evs[0]), evs[1..]);
    }
  }

  function Ticks(n: nat): (evs: seq<HookEvent>)
    ensures |evs| == n && forall i :: 0 <= i < n ==> evs[i] == TickEvent
  {
    seq(n, _ => TickEvent)
  }

  /** While the interval is registered, n ticks add n to `tick.current` and
      issue n loads of the same path, and change nothing else. */
  lemma {:induction false} TicksIssueOneLoadEach(s: HookState, n: nat)
    requires s.polling
    ensures Run(s, Ticks(n)) == s.(ticks := s.ticks + n, requests := s.requests + seq(n, _ => RequestPath(s.params)))
    decreases n
  {
    var path := RequestPath(s.params);
    if n == 0 {
      assert s.requests + seq(0, _ => path) == s.requests;
    } else {
      assert Ticks(n)[1..] == Ticks(n - 1);
      var t := TickStep(s);
      TicksIssueOneLoadEach(t, n - 1);
      assert t.requests + seq(n - 1, _ => path) == s.requests + seq(n, _ => path);
    }
  }

  /** `useMe`, `useUsage` and `useMetrics` never poll. */
  lemma {:induction false} OnlyEventsPoll(s: HookState, evs: seq<HookEvent>)
    requires Wf(s) && KindOf(s.params) != UseEvents
    ensures !Run(s, evs).polling && Run(s, evs).ticks == s.ticks
    decreases |evs|
  {
    if evs != [] {
      StepKeepsWf(s, evs[0]);
      OnlyEventsPoll(Step(s, evs[0]), evs[1..]);
    }
  }

  /** The hook object of one component instance. */
  class ResourceHook {
    var params: Params
    var data: Value
    var loading: bool
    var error: Option<ApiError>
    var run: nat
    var alive: bool
    var polling: bool
    var ticks: nat
    var requests: seq<string>

    function State(): HookState
      reads this
    {
      HookState(params, data, loading, error, run, alive, polling, ticks, requests)
    }

    constructor (p: Params)
      ensures State() == Initial(p)
    {
      params, data, loading, error := p, Null, true, None;
      run, alive, polling, ticks, requests := 0, false, false, 0, [];
    }

    /** Runs the effect with dependencies `p`; returns the run's number,
        which its fetch resolutions carry. */
    method Start(p: Params) returns (thisRun: nat)
      requires KindOf(p) == KindOf(params)
      modifies this
      ensures State() == StartStep(old(State()), p)
      ensures thisRun == run
    {
      run := run + 1;
      alive := true;
      params := p;
      loading := true;
      error := None;
      requests := requests + [RequestPath(p)];
      polling := KindOf(p) == UseEvents;
      thisRun := run;
    }

    method Tick()
      modifies this
      ensures State() == TickStep(old(State()))
    {
      if polling {
        ticks := ticks + 1;
        requests := requests + [RequestPath(params)];
      }
    }

    method ResolveOk(fromRun: nat, body: Value)
      modifies this
      ensures State() == ResolveOkStep(old(State()), fromRun, body)
    {
      if !alive || fromRun != run {
        return;
      }
      data, loading, error := body, false, None;
    }

    method ResolveErr(fromRun: nat, e: Thrown)
      modifies this
      ensures State() == ResolveErrStep(old(State()), fromRun, e)
    {
      if !alive || fromRun != run {
        return;
      }
      if !KeepsDataOnFailure(KindOf(params)) {
        data := Null;
      }
      loading, error := false, Some(NormalizeApiError(e));
    }

    method Teardown()
      modifies this
      ensures State() == TeardownStep(old(State()))
    {
      alive := false;
      polling := false;
    }
  }
}
