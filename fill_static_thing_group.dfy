/**
 * The group-filling function: adds every thing named in a stored list to a static
 * thing group, in windows of ADD_THING_TO_THING_GROUP_TPS calls, and hands the rest
 * of the list to a fresh invocation of itself once LAMBDA_RECURSION_TIME_MS has passed.
 */
module FillStaticThingGroup {
  import opened Effects

  /** ADD_THING_TO_THING_GROUP_TPS (the window size W) and LAMBDA_RECURSION_TIME_MS (the time budget). */
  datatype Config = Config(maxAddThingToThingGroup: int, lambdaRecursionTimeMs: int)

  /**
   * Index i closes a window: `i % W === W - 1`. For i >= 0 this never holds when W <= 0
   * (JavaScript's remainder is NaN for W = 0 and non-negative for W < 0).
   */
  predicate IsWindowEnd(i: nat, w: int): (b: bool)
    ensures b ==> w > 0
  {
    w > 0 && i % w == w - 1
  }

  /** A falsy startIndex (absent or 0) starts at 0. */
  function StartOf(startIndex: Option<nat>): (s: nat)
    ensures s == 0 <==> startIndex.None? || startIndex.value == 0
  {
    if startIndex.Some? then startIndex.value else 0
  }

  /** The non-empty entries of a list, in order: the ones that get an add call. */
  function NonEmpty(s: seq<string>): (r: seq<string>)
    ensures |r| <= |s|
    ensures forall x :: x in r <==> x in s && x != ""
  {
    if s == [] then [] else (if s[0] == "" then [] else [s[0]]) + NonEmpty(s[1..])
  }

  predicate NoInvoke(t: seq<Event>) {
    forall e | e in t :: !e.InvokeFill?
  }

  /** The index after a window end is a multiple of the window size. */
  lemma WindowEndResumesAtMultiple(i: nat, w: int)
    requires IsWindowEnd(i, w)
    ensures (i + 1) % w == 0
  {
    var q := i / w;
    assert i == w * q + (w - 1);
    assert i + 1 == w * (q + 1) + 0;
    ModUnique(i + 1, w, q + 1, 0);
  }

  /** A continuation payload of an invocation that started at index i of a list of n entries. */
  predicate HandsOverWithin(p: FillPayload, group: string, exclude: Option<string>, i: nat, n: nat) {
    && p.staticGroupName == group
    && p.excludeListFileName == exclude
    && p.startIndex.Some?
    && i < p.startIndex.value <= n
  }

  /**
   * One invocation of fillStaticGroup from index i, k clock readings having been taken
   * (reading 0 is the handler's startTime). Returns the calls made and how it ends.
   */
  function FillFrom(cfg: Config, group: string, exclude: Option<string>, arr: seq<string>,
                    startTime: int, clock: nat -> int, i: nat, k: nat): (r: Run<FillPayload>)
    ensures !r.outcome.Failed?
    ensures r.outcome.Continued? ==> HandsOverWithin(r.outcome.payload, group, exclude, i, |arr|)
    decreases |arr| - i
  {
    if i >= |arr| then
      Run([Barrier, Log(|arr|)], Completed)
    else if arr[i] == "" then
      FillFrom(cfg, group, exclude, arr, startTime, clock, i + 1, k)
    else if !IsWindowEnd(i, cfg.maxAddThingToThingGroup) then
      Prepend([Add(arr[i], group)], FillFrom(cfg, group, exclude, arr, startTime, clock, i + 1, k))
    else if clock(k) - startTime > cfg.lambdaRecursionTimeMs then
      var payload := FillPayload(group, exclude, Some(i + 1));
      Run([Add(arr[i], group), Log(i + 1), Barrier, InvokeFill(payload)], Continued(payload))
    else
      Prepend([Add(arr[i], group), Log(i + 1), Barrier], FillFrom(cfg, group, exclude, arr, startTime, clock, i + 1, k + 1))
  }

  /** Every add call of an invocation targets its group. */
  lemma {:induction false} AddsTargetGroup(cfg: Config, group: string, exclude: Option<string>, arr: seq<string>,
                                           startTime: int, clock: nat -> int, i: nat, k: nat)
    ensures forall e | e in FillFrom(cfg, group, exclude, arr, startTime, clock, i, k).calls && e.Add? :: e.group == group
    decreases |arr| - i
  {
    if i < |arr| {
      if arr[i] == "" || !IsWindowEnd(i, cfg.maxAddThingToThingGroup) {
        AddsTargetGroup(cfg, group, exclude, arr, startTime, clock, i + 1, k);
      } else {
        AddsTargetGroup(cfg, group, exclude, arr, startTime, clock, i + 1, k + 1);
      }
    }
  }

  /** `t` dispatches no continuation and ends with a barrier and a log of n. */
  predicate EndsCompleted(t: seq<Event>, n: int) {
    NoInvoke(t) && |t| >= 2 && t[|t| - 2..] == [Barrier, Log(n)]
  }

  lemma EndsCompletedAppend(h: seq<Event>, t: seq<Event>, n: int)
    requires NoInvoke(h) && EndsCompleted(t, n)
    ensures EndsCompleted(h + t, n)
  {
    SuffixOfAppend(h, t, 2);
  }

  /** A run to the end of the list dispatches no continuation and ends with a barrier and a log of the list length. */
  lemma {:induction false} CompletedRunShape(cfg: Config, group: string, exclude: Option<string>, arr: seq<string>,
                                             startTime: int, clock: nat -> int, i: nat, k: nat)
    requires FillFrom(cfg, group, exclude, arr, startTime, clock, i, k).outcome.Completed?
    ensures EndsCompleted(FillFrom(cfg, group, exclude, arr, startTime, clock, i, k).calls, |arr|)
    decreases |arr| - i
  {
    if i < |arr| && arr[i] != "" {
      if IsWindowEnd(i, cfg.maxAddThingToThingGroup) {
        var rest := FillFrom(cfg, group, exclude, arr, startTime, clock, i + 1, k + 1);
        CompletedRunShape(cfg, group, exclude, arr, startTime, clock, i + 1, k + 1);
        EndsCompletedAppend([Add(arr[i], group), Log(i + 1), Barrier], rest.calls, |arr|);
      } else {
        var rest := FillFrom(cfg, group, exclude, arr, startTime, clock, i + 1, k);
        CompletedRunShape(cfg, group, exclude, arr, startTime, clock, i + 1, k);
        EndsCompletedAppend([Add(arr[i], group)], rest.calls, |arr|);
      }
    } else if i < |arr| {
      CompletedRunShape(cfg, group, exclude, arr, startTime, clock, i + 1, k);
    } else {
      assert FillFrom(cfg, group, exclude, arr, startTime, clock, i, k).calls[0..] == [Barrier, Log(|arr|)];
    }
  }

  /**
   * A continuation is the invocation's last call and its only continuation; it follows the
   * add call and the barrier of a non-empty window end, and resumes at a multiple of W.
   */
  lemma ContinuedRunShape(cfg: Config, group: string, exclude: Option<string>, arr: seq<string>,
                          startTime: int, clock: nat -> int, i: nat, k: nat)
    requires FillFrom(cfg, group, exclude, arr, startTime, clock, i, k).outcome.Continued?
    ensures var r := FillFrom(cfg, group, exclude, arr, startTime, clock, i, k);
            var e := r.outcome.payload.startIndex.value;
      && IsWindowEnd(e - 1, cfg.maxAddThingToThingGroup)
      && e % cfg.maxAddThingToThingGroup == 0
      && arr[e - 1] != ""
      && |r.calls| >= 4
      && r.calls[|r.calls| - 4..] == [Add(arr[e - 1], group), Log(e), Barrier, InvokeFill(r.outcome.payload)]
      && NoInvoke(r.calls[..|r.calls| - 1])
  {
    var r := FillFrom(cfg, group, exclude, arr, startTime, clock, i, k);
    ContinuedAtWindowEnd(cfg, group, exclude, arr, startTime, clock, i, k);
    WindowEndResumesAtMultiple(r.outcome.payload.startIndex.value - 1, cfg.maxAddThingToThingGroup);
    ContinuedLastCalls(cfg, group, exclude, arr, startTime, clock, i, k);
    ContinuedInvokesOnce(cfg, group, exclude, arr, startTime, clock, i, k);
  }

  lemma {:induction false} ContinuedAtWindowEnd(cfg: Config, group: string, exclude: Option<string>, arr: seq<string>,
                                                startTime: int, clock: nat -> int, i: nat, k: nat)
    requires FillFrom(cfg, group, exclude, arr, startTime, clock, i, k).outcome.Continued?
    ensures var e := FillFrom(cfg, group, exclude, arr, startTime, clock, i, k).outcome.payload.startIndex.value;
            0 < e <= |arr| && IsWindowEnd(e - 1, cfg.maxAddThingToThingGroup) && arr[e - 1] != ""
    decreases |arr| - i
  {
    if arr[i] == "" || !IsWindowEnd(i, cfg.maxAddThingToThingGroup) {
      ContinuedAtWindowEnd(cfg, group, exclude, arr, startTime, clock, i + 1, k);
    } else if clock(k) - startTime <= cfg.lambdaRecursionTimeMs {
      ContinuedAtWindowEnd(cfg, group, exclude, arr, startTime, clock, i + 1, k + 1);
    }
  }

  /**
   * `t` ends by closing the window at entry e - 1 of `arr` and handing over with `p`,
   * e being p's startIndex: the add call of that entry, the log of e, the barrier, the continuation.
   */
  predicate EndsWithHandOver(t: seq<Event>, arr: seq<string>, group: string, p: FillPayload) {
    && p.startIndex.Some? && 0 < p.startIndex.value <= |arr| && |t| >= 4
    && t[|t| - 4..] == [Add(arr[p.startIndex.value - 1], group), Log(p.startIndex.value), Barrier, InvokeFill(p)]
  }

  lemma EndsWithHandOverAppend(h: seq<Event>, t: seq<Event>, arr: seq<string>, group: string, p: FillPayload)
    requires EndsWithHandOver(t, arr, group, p)
    ensures EndsWithHandOver(h + t, arr, group, p)
  {
    SuffixOfAppend(h, t, 4);
  }

  lemma {:induction false} ContinuedLastCalls(cfg: Config, group: string, exclude: Option<string>, arr: seq<string>,
                                              startTime: int, clock: nat -> int, i: nat, k: nat)
    requires FillFrom(cfg, group, exclude, arr, startTime, clock, i, k).outcome.Continued?
    ensures var r := FillFrom(cfg, group, exclude, arr, startTime, clock, i, k);
            EndsWithHandOver(r.calls, arr, group, r.outcome.payload)
    decreases |arr| - i
  {
    var r := FillFrom(cfg, group, exclude, arr, startTime, clock, i, k);
    if arr[i] == "" {
      ContinuedLastCalls(cfg, group, exclude, arr, startTime, clock, i + 1, k);
    } else if !IsWindowEnd(i, cfg.maxAddThingToThingGroup) {
      var rest := FillFrom(cfg, group, exclude, arr, startTime, clock, i + 1, k);
      ContinuedLastCalls(cfg, group, exclude, arr, startTime, clock, i + 1, k);
      EndsWithHandOverAppend([Add(arr[i], group)], rest.calls, arr, group, rest.outcome.payload);
    } else if clock(k) - startTime <= cfg.lambdaRecursionTimeMs {
      var rest := FillFrom(cfg, group, exclude, arr, startTime, clock, i + 1, k + 1);
      ContinuedLastCalls(cfg, group, exclude, arr, startTime, clock, i + 1, k + 1);
      EndsWithHandOverAppend([Add(arr[i], group), Log(i + 1), Barrier], rest.calls, arr, group, rest.outcome.payload);
    } else {
      assert r.calls[|r.calls| - 4..] == r.calls;
    }
  }

  lemma SuffixOfAppend<T>(h: seq<T>, t: seq<T>, n: nat)
    requires n <= |t|
    ensures (h + t)[|h + t| - n..] == t[|t| - n..]
  {
  }

  lemma {:induction false} ContinuedInvokesOnce(cfg: Config, group: string, exclude: Option<string>, arr: seq<string>,
                                                startTime: int, clock: nat -> int, i: nat, k: nat)
    requires FillFrom(cfg, group, exclude, arr, startTime, clock, i, k).outcome.Continued?
    ensures var r := FillFrom(cfg, group, exclude, arr, startTime, clock, i, k);
            r.calls != [] && NoInvoke(r.calls[..|r.calls| - 1])
    decreases |arr| - i
  {
    var r := FillFrom(cfg, group, exclude, arr, startTime, clock, i, k);
    if arr[i] == "" {
      ContinuedInvokesOnce(cfg, group, exclude, arr, startTime, clock, i + 1, k);
    } else if !IsWindowEnd(i, cfg.maxAddThingToThingGroup) {
      var rest := FillFrom(cfg, group, exclude, arr, startTime, clock, i + 1, k);
      ContinuedInvokesOnce(cfg, group, exclude, arr, startTime, clock, i + 1, k);
      assert r.calls[..|r.calls| - 1] == [Add(arr[i], group)] + rest.calls[..|rest.calls| - 1];
    } else if clock(k) - startTime > cfg.lambdaRecursionTimeMs {
      assert r.calls[..|r.calls| - 1] == [Add(arr[i], group), Log(i + 1), Barrier];
    } else {
      var rest := FillFrom(cfg, group, exclude, arr, startTime, clock, i + 1, k + 1);
      ContinuedInvokesOnce(cfg, group, exclude, arr, startTime, clock, i + 1, k + 1);
      assert r.calls[..|r.calls| - 1] == [Add(arr[i], group), Log(i + 1), Barrier] + rest.calls[..|rest.calls| - 1];
    }
  }

  /** fillStaticGroup: walks thingArray from startIndex, closing a window at every non-empty window end. */
  method FillStaticGroup(cfg: Config, staticGroupName: string, thingArray: seq<string>, startTime: int,
                         startIndex: Option<nat>, excludeListFileName: Option<string>, clock: nat -> int)
    returns (trace: seq<Event>, outcome: Outcome<FillPayload>)
    ensures Run(trace, outcome) == FillFrom(cfg, staticGroupName, excludeListFileName, thingArray, startTime, clock, StartOf(startIndex), 1)
  {
    ghost var run := FillFrom(cfg, staticGroupName, excludeListFileName, thingArray, startTime, clock, StartOf(startIndex), 1);
    trace := [];
    var reading: nat := 1;
    var i := StartOf(startIndex);
    assert trace + run.calls == run.calls;
    while i < |thingArray|
      invariant run == Prepend(trace, FillFrom(cfg, staticGroupName, excludeListFileName, thingArray, startTime, clock, i, reading))
      decreases |thingArray| - i
    {
      if thingArray[i] == "" {
        i := i + 1;
        continue;
      }
      var calls := [Add(thingArray[i], staticGroupName)];
      if IsWindowEnd(i, cfg.maxAddThingToThingGroup) {
        calls := [Add(thingArray[i], staticGroupName), Log(i + 1), Barrier];
        var now := clock(reading);
        reading := reading + 1;
        if now - startTime > cfg.lambdaRecursionTimeMs {
          var payload := FillPayload(staticGroupName, excludeListFileName, Some(i + 1));
          trace := trace + (calls + [InvokeFill(payload)]);
          outcome := Continued(payload);
          return;
        }
      }
      PrependTwice(trace, calls, FillFrom(cfg, staticGroupName, excludeListFileName, thingArray, startTime, clock, i + 1, reading));
      trace := trace + calls;
      i := i + 1;
    }
    trace := trace + [Barrier, Log(|thingArray|)];
    outcome := Completed;
  }

  /**
   * One invocation of the handler: reads the clock for startTime, fetches the list named
   * by the payload's excludeListFileName and fills the payload's group from its startIndex.
   */
  function Invocation(cfg: Config, store: map<string, seq<string>>, event: FillPayload, clock: nat -> int)
    : (r: Run<FillPayload>)
    ensures r.calls != [] && r.calls[0] == GetList(event.excludeListFileName)
    ensures r.outcome.Failed? <==> Fetch(store, event.excludeListFileName).None?
    ensures r.outcome.Continued? ==>
      && r.outcome.payload.staticGroupName == event.staticGroupName
      && r.outcome.payload.excludeListFileName == event.excludeListFileName
      && StartOf(event.startIndex) < StartOf(r.outcome.payload.startIndex) <= |Fetch(store, event.excludeListFileName).value|
  {
    var fetched := Fetch(store, event.excludeListFileName);
    if fetched.None? then
      Run([GetList(event.excludeListFileName)], Failed)
    else
      Prepend([GetList(event.excludeListFileName)],
        FillFrom(cfg, event.staticGroupName, event.excludeListFileName, fetched.value, clock(0), clock, StartOf(event.startIndex), 1))
  }

  method Handler(cfg: Config, store: map<string, seq<string>>, event: FillPayload, clock: nat -> int)
    returns (trace: seq<Event>, outcome: Outcome<FillPayload>)
    ensures Run(trace, outcome) == Invocation(cfg, store, event, clock)
  {
    var startTime := clock(0);
    trace := [GetList(event.excludeListFileName)];
    var fetched := Fetch(store, event.excludeListFileName);
    if fetched.None? {
      outcome := Failed;
      return;
    }
    var t, o := FillStaticGroup(cfg, event.staticGroupName, fetched.value, startTime, event.startIndex,
                                event.excludeListFileName, clock);
    trace, outcome := trace + t, o;
  }

  /** How much of the list is left for the invocation `event`. */
  function Remaining(store: map<string, seq<string>>, event: FillPayload): nat {
    var fetched := Fetch(store, event.excludeListFileName);
    if fetched.Some? && StartOf(event.startIndex) <= |fetched.value| then |fetched.value| - StartOf(event.startIndex) else 0
  }

  /**
   * A chain of invocations: invocation n reads the clock `clocks(n)` and, when it hands
   * over, its continuation payload is the next invocation's event.
   */
  function Chain(cfg: Config, store: map<string, seq<string>>, event: FillPayload, clocks: nat -> (nat -> int), n: nat)
    : (r: Run<FillPayload>)
    ensures !r.outcome.Continued?
    decreases Remaining(store, event)
  {
    var step := Invocation(cfg, store, event, clocks(n));
    if step.outcome.Continued? then Prepend(step.calls, Chain(cfg, store, step.outcome.payload, clocks, n + 1)) else step
  }

  // ---------------------------------------------------------------------------
  // What one invocation adds

  lemma {:induction false} NonEmptyAppend(a: seq<string>, b: seq<string>)
    ensures NonEmpty(a + b) == NonEmpty(a) + NonEmpty(b)
  {
    if a == [] {
      assert a + b == b;
    } else {
      assert (a + b)[1..] == a[1..] + b;
      NonEmptyAppend(a[1..], b);
    }
  }

  /** The entries of [i, e) are the one at i followed by those of [i + 1, e). */
  lemma NonEmptyStep(arr: seq<string>, i: nat, e: nat)
    requires i < e <= |arr|
    ensures NonEmpty(arr[i..e]) == (if arr[i] == "" then [] else [arr[i]]) + NonEmpty(arr[i + 1..e])
  {
    assert arr[i..e] == [arr[i]] + arr[i + 1..e];
    NonEmptyAppend([arr[i]], arr[i + 1..e]);
    assert [arr[i]][1..] == [];
  }

  /** An add call followed by calls that add nothing, in front of `t`. */
  lemma AddedAfterHead(x: string, group: string, quiet: seq<Event>, t: seq<Event>)
    requires forall e | e in quiet :: !e.Add?
    ensures Added([Add(x, group)] + quiet + t) == [x] + Added(t)
  {
    PickAppend([Add(x, group)] + quiet, t, AddedThing);
    PickAppend([Add(x, group)], quiet, AddedThing);
    PickSingle(Add(x, group), AddedThing);
    PickNone(quiet, AddedThing);
  }

  /** The adds of one step in front of calls that added the non-empty entries of [i + 1, e). */
  lemma AddsEntryStep(arr: seq<string>, i: nat, e: nat, group: string, head: seq<Event>, t: seq<Event>)
    requires i < e <= |arr|
    requires arr[i] == "" ==> head == []
    requires arr[i] != "" ==> head == [Add(arr[i], group)] || head == [Add(arr[i], group), Log(i + 1), Barrier]
    requires Added(t) == NonEmpty(arr[i + 1..e])
    ensures Added(head + t) == NonEmpty(arr[i..e])
  {
    NonEmptyStep(arr, i, e);
    if arr[i] == "" {
      assert head + t == t;
    } else {
      AddedAfterHead(arr[i], group, head[1..], t);
      assert head + t == [Add(arr[i], group)] + head[1..] + t;
    }
  }

  /**
   * An invocation that hands over at index e has added exactly the non-empty entries
   * of [i, e), each once and in list order.
   */
  lemma {:induction false} ContinuedAddsWindowPrefix(cfg: Config, group: string, exclude: Option<string>, arr: seq<string>,
                                                      startTime: int, clock: nat -> int, i: nat, k: nat)
    requires FillFrom(cfg, group, exclude, arr, startTime, clock, i, k).outcome.Continued?
    ensures var r := FillFrom(cfg, group, exclude, arr, startTime, clock, i, k);
            Added(r.calls) == NonEmpty(arr[i..r.outcome.payload.startIndex.value])
    decreases |arr| - i
  {
    var r := FillFrom(cfg, group, exclude, arr, startTime, clock, i, k);
    var e := r.outcome.payload.startIndex.value;
    if arr[i] == "" {
      var rest := FillFrom(cfg, group, exclude, arr, startTime, clock, i + 1, k);
      ContinuedAddsWindowPrefix(cfg, group, exclude, arr, startTime, clock, i + 1, k);
      AddsEntryStep(arr, i, e, group, [], rest.calls);
    } else if !IsWindowEnd(i, cfg.maxAddThingToThingGroup) {
      var rest := FillFrom(cfg, group, exclude, arr, startTime, clock, i + 1, k);
      ContinuedAddsWindowPrefix(cfg, group, exclude, arr, startTime, clock, i + 1, k);
      AddsEntryStep(arr, i, e, group, [Add(arr[i], group)], rest.calls);
    } else if clock(k) - startTime > cfg.lambdaRecursionTimeMs {
      NonEmptyStep(arr, i, e);
      assert arr[i + 1..e] == [];
      AddedAfterHead(arr[i], group, [Log(i + 1), Barrier, InvokeFill(r.outcome.payload)], []);
      assert r.calls == [Add(arr[i], group)] + [Log(i + 1), Barrier, InvokeFill(r.outcome.payload)] + [];
      PickNone([], AddedThing);
    } else {
      var rest := FillFrom(cfg, group, exclude, arr, startTime, clock, i + 1, k + 1);
      ContinuedAddsWindowPrefix(cfg, group, exclude, arr, startTime, clock, i + 1, k + 1);
      AddsEntryStep(arr, i, e, group, [Add(arr[i], group), Log(i + 1), Barrier], rest.calls);
    }
  }

  /** An invocation that runs to the end of the list has added exactly the non-empty entries of [i, |arr|). */
  lemma {:induction false} CompletedAddsRest(cfg: Config, group: string, exclude: Option<string>, arr: seq<string>,
                                              startTime: int, clock: nat -> int, i: nat, k: nat)
    requires i <= |arr|
    requires FillFrom(cfg, group, exclude, arr, startTime, clock, i, k).outcome.Completed?
    ensures Added(FillFrom(cfg, group, exclude, arr, startTime, clock, i, k).calls) == NonEmpty(arr[i..])
    decreases |arr| - i
  {
    var r := FillFrom(cfg, group, exclude, arr, startTime, clock, i, k);
    if i == |arr| {
      assert arr[i..] == [];
      PickNone([Barrier, Log(|arr|)], AddedThing);
    } else {
      assert arr[i..|arr|] == arr[i..] && arr[i + 1..|arr|] == arr[i + 1..];
      if arr[i] == "" {
        var rest := FillFrom(cfg, group, exclude, arr, startTime, clock, i + 1, k);
        CompletedAddsRest(cfg, group, exclude, arr, startTime, clock, i + 1, k);
        AddsEntryStep(arr, i, |arr|, group, [], rest.calls);
      } else if !IsWindowEnd(i, cfg.maxAddThingToThingGroup) {
        var rest := FillFrom(cfg, group, exclude, arr, startTime, clock, i + 1, k);
        CompletedAddsRest(cfg, group, exclude, arr, startTime, clock, i + 1, k);
        AddsEntryStep(arr, i, |arr|, group, [Add(arr[i], group)], rest.calls);
      } else {
        var rest := FillFrom(cfg, group, exclude, arr, startTime, clock, i + 1, k + 1);
        CompletedAddsRest(cfg, group, exclude, arr, startTime, clock, i + 1, k + 1);
        AddsEntryStep(arr, i, |arr|, group, [Add(arr[i], group), Log(i + 1), Barrier], rest.calls);
      }
    }
  }

  /** The logged counts of the window ends from index i on: i + 1 for each non-empty entry at a window end. */
  function WindowEnds(arr: seq<string>, w: int, i: nat): seq<int>
    decreases |arr| - i
  {
    if i >= |arr| then []
    else (if arr[i] != "" && IsWindowEnd(i, w) then [i + 1] else []) + WindowEnds(arr, w, i + 1)
  }

  /**
   * The logs of `t` are the window ends of `arr` from index i on, then the list length,
   * and `t` waits once per log.
   */
  predicate LogsWindowEnds(t: seq<Event>, arr: seq<string>, w: int, i: nat) {
    Logged(t) == WindowEnds(arr, w, i) + [|arr|] && |Barriers(t)| == |Logged(t)|
  }

  /** An add call that does not close a window keeps the logs and barriers of what follows. */
  lemma AddKeepsLogs(x: string, group: string, rest: seq<Event>, arr: seq<string>, w: int, i: nat)
    requires i < |arr| && !(arr[i] != "" && IsWindowEnd(i, w))
    requires LogsWindowEnds(rest, arr, w, i + 1)
    ensures LogsWindowEnds([Add(x, group)] + rest, arr, w, i)
  {
    PickSingle(Add(x, group), LoggedCount);
    PickSingle(Add(x, group), BarrierOf);
    PickAppend([Add(x, group)], rest, LoggedCount);
    PickAppend([Add(x, group)], rest, BarrierOf);
  }

  /** Closing the window at a non-empty entry i logs i + 1 and waits once, before what follows. */
  lemma WindowCloseLogs(x: string, group: string, rest: seq<Event>, arr: seq<string>, w: int, i: nat)
    requires i < |arr| && arr[i] != "" && IsWindowEnd(i, w)
    requires LogsWindowEnds(rest, arr, w, i + 1)
    ensures LogsWindowEnds([Add(x, group), Log(i + 1), Barrier] + rest, arr, w, i)
  {
    var head := [Add(x, group), Log(i + 1), Barrier];
    PickTriple(Add(x, group), Log(i + 1), Barrier, LoggedCount);
    PickTriple(Add(x, group), Log(i + 1), Barrier, BarrierOf);
    PickAppend(head, rest, LoggedCount);
    PickAppend(head, rest, BarrierOf);
    assert WindowEnds(arr, w, i) == [i + 1] + WindowEnds(arr, w, i + 1);
    assert Logged(head + rest) == [i + 1] + (WindowEnds(arr, w, i + 1) + [|arr|]);
  }

  /**
   * In a run to the end of the list, a log and a barrier follow exactly the non-empty
   * entries at window ends, in index order, and a final barrier and log of the list length
   * close the run.
   */
  lemma {:induction false} CompletedRunWindows(cfg: Config, group: string, exclude: Option<string>, arr: seq<string>,
                                               startTime: int, clock: nat -> int, i: nat, k: nat)
    requires FillFrom(cfg, group, exclude, arr, startTime, clock, i, k).outcome.Completed?
    ensures LogsWindowEnds(FillFrom(cfg, group, exclude, arr, startTime, clock, i, k).calls, arr, cfg.maxAddThingToThingGroup, i)
    decreases |arr| - i
  {
    var w := cfg.maxAddThingToThingGroup;
    if i >= |arr| {
      WaitAndLog(|arr|);
    } else if arr[i] == "" {
      CompletedRunWindows(cfg, group, exclude, arr, startTime, clock, i + 1, k);
      assert WindowEnds(arr, w, i) == WindowEnds(arr, w, i + 1);
    } else if !IsWindowEnd(i, w) {
      var rest := FillFrom(cfg, group, exclude, arr, startTime, clock, i + 1, k);
      CompletedRunWindows(cfg, group, exclude, arr, startTime, clock, i + 1, k);
      AddKeepsLogs(arr[i], group, rest.calls, arr, w, i);
    } else {
      var rest := FillFrom(cfg, group, exclude, arr, startTime, clock, i + 1, k + 1);
      CompletedRunWindows(cfg, group, exclude, arr, startTime, clock, i + 1, k + 1);
      WindowCloseLogs(arr[i], group, rest.calls, arr, w, i);
    }
  }

  /**
   * The number of calls a run within the budget makes for the entries of [i, j): one add per
   * non-empty entry, and a log and a wait at each non-empty window end.
   */
  function CallsBefore(arr: seq<string>, w: int, i: nat, j: nat): nat
    requires i <= j <= |arr|
  {
    |NonEmpty(arr[i..j])| + 2 * Readings(arr, w, i, j)
  }

  /** Calls `h` in front of `t` shift every position of `t` by |h|. */
  lemma SliceAfterHead(h: seq<Event>, t: seq<Event>, p: nat, n: nat)
    requires p + n <= |t|
    ensures (h + t)[|h| + p..|h| + p + n] == t[p..p + n]
    ensures (h + t)[..|h| + p] == h + t[..p]
  {
  }

  /**
   * At position p of `t` come the add of entry j, its log j + 1 and the wait, and the adds
   * before p are exactly the non-empty entries of [i, j).
   */
  predicate WindowWaitAt(t: seq<Event>, arr: seq<string>, group: string, i: nat, j: nat, p: nat)
    requires i <= j < |arr|
  {
    p + 3 <= |t| && t[p..p + 3] == [Add(arr[j], group), Log(j + 1), Barrier] && Added(t[..p]) == NonEmpty(arr[i..j])
  }

  /** The calls of step i in front of `t` move the window's wait back by their number. */
  lemma WindowWaitStep(arr: seq<string>, i: nat, j: nat, group: string, head: seq<Event>, t: seq<Event>, p: nat)
    requires i < j < |arr|
    requires arr[i] == "" ==> head == []
    requires arr[i] != "" ==> head == [Add(arr[i], group)] || head == [Add(arr[i], group), Log(i + 1), Barrier]
    requires WindowWaitAt(t, arr, group, i + 1, j, p)
    ensures WindowWaitAt(head + t, arr, group, i, j, |head| + p)
  {
    SliceAfterHead(head, t, p, 3);
    AddsEntryStep(arr, i, j, group, head, t[..p]);
  }

  /** The calls for [i, j) number one more per non-empty entry and two more per non-empty window end than those for [i + 1, j). */
  lemma CallsBeforeStep(arr: seq<string>, w: int, i: nat, j: nat)
    requires i < j <= |arr|
    ensures CallsBefore(arr, w, i, j)
         == (if arr[i] == "" then 0 else if IsWindowEnd(i, w) then 3 else 1) + CallsBefore(arr, w, i + 1, j)
  {
    NonEmptyStep(arr, i, j);
    ReadingsStep(arr, w, i, j);
  }

  /** The calls step i makes in front of the rest of a run within the budget. */
  function StepHead(arr: seq<string>, group: string, w: int, i: nat): (h: seq<Event>)
    requires i < |arr|
    ensures arr[i] == "" ==> h == []
    ensures arr[i] != "" ==> h == [Add(arr[i], group)] || h == [Add(arr[i], group), Log(i + 1), Barrier]
  {
    if arr[i] == "" then [] else if IsWindowEnd(i, w) then [Add(arr[i], group), Log(i + 1), Barrier] else [Add(arr[i], group)]
  }

  /** A run to the end of the list is step i's calls followed by a run to the end from i + 1. */
  lemma CompletedStep(cfg: Config, group: string, exclude: Option<string>, arr: seq<string>,
                      startTime: int, clock: nat -> int, i: nat, k: nat)
    requires i < |arr| && FillFrom(cfg, group, exclude, arr, startTime, clock, i, k).outcome.Completed?
    ensures var k' := if arr[i] != "" && IsWindowEnd(i, cfg.maxAddThingToThingGroup) then k + 1 else k;
            var rest := FillFrom(cfg, group, exclude, arr, startTime, clock, i + 1, k');
            && rest.outcome.Completed?
            && FillFrom(cfg, group, exclude, arr, startTime, clock, i, k).calls
               == StepHead(arr, group, cfg.maxAddThingToThingGroup, i) + rest.calls
  {
    if arr[i] == "" {
      assert FillFrom(cfg, group, exclude, arr, startTime, clock, i, k).calls
          == [] + FillFrom(cfg, group, exclude, arr, startTime, clock, i + 1, k).calls;
    }
  }

  /**
   * In a run to the end of the list, the wait at a non-empty window end j comes right after
   * the add of entry j and its log j + 1, at the position just past the calls for [i, j); the
   * adds before it are exactly the non-empty entries of [i, j), so the wait awaits its window.
   */
  lemma {:induction false} WindowWaitFollowsItsAdds(cfg: Config, group: string, exclude: Option<string>, arr: seq<string>,
                                                    startTime: int, clock: nat -> int, i: nat, k: nat, j: nat)
    requires i <= j < |arr| && arr[j] != "" && IsWindowEnd(j, cfg.maxAddThingToThingGroup)
    requires FillFrom(cfg, group, exclude, arr, startTime, clock, i, k).outcome.Completed?
    ensures WindowWaitAt(FillFrom(cfg, group, exclude, arr, startTime, clock, i, k).calls, arr, group, i, j,
                         CallsBefore(arr, cfg.maxAddThingToThingGroup, i, j))
    decreases j - i
  {
    var w := cfg.maxAddThingToThingGroup;
    var t := FillFrom(cfg, group, exclude, arr, startTime, clock, i, k).calls;
    var k' := if arr[i] != "" && IsWindowEnd(i, w) then k + 1 else k;
    var head := StepHead(arr, group, w, i);
    var rest := FillFrom(cfg, group, exclude, arr, startTime, clock, i + 1, k').calls;
    CompletedStep(cfg, group, exclude, arr, startTime, clock, i, k);
    if i == j {
      assert t[..0] == [] && arr[i..j] == [];
      PickNone([], AddedThing);
    } else {
      CallsBeforeStep(arr, w, i, j);
      var p := CallsBefore(arr, w, i + 1, j);
      WindowWaitFollowsItsAdds(cfg, group, exclude, arr, startTime, clock, i + 1, k', j);
      WindowWaitStep(arr, i, j, group, head, rest, p);
      assert CallsBefore(arr, w, i, j) == |head| + p;
    }
  }

  /** While every clock reading stays within the budget, no continuation is dispatched. */
  lemma {:induction false} WithinBudgetCompletes(cfg: Config, group: string, exclude: Option<string>, arr: seq<string>,
                                                  startTime: int, clock: nat -> int, i: nat, k: nat)
    requires forall j :: clock(j) - startTime <= cfg.lambdaRecursionTimeMs
    ensures FillFrom(cfg, group, exclude, arr, startTime, clock, i, k).outcome == Completed
    decreases |arr| - i
  {
    if i < |arr| {
      if arr[i] == "" || !IsWindowEnd(i, cfg.maxAddThingToThingGroup) {
        WithinBudgetCompletes(cfg, group, exclude, arr, startTime, clock, i + 1, k);
      } else {
        assert clock(k) - startTime <= cfg.lambdaRecursionTimeMs;
        WithinBudgetCompletes(cfg, group, exclude, arr, startTime, clock, i + 1, k + 1);
      }
    }
  }

  /** A non-empty window end whose clock reading exceeds the budget hands over right there, with startIndex i + 1. */
  lemma OverBudgetAtWindowEndHandsOver(cfg: Config, group: string, exclude: Option<string>, arr: seq<string>,
                                       startTime: int, clock: nat -> int, i: nat, k: nat)
    requires i < |arr| && arr[i] != "" && IsWindowEnd(i, cfg.maxAddThingToThingGroup)
    requires clock(k) - startTime > cfg.lambdaRecursionTimeMs
    ensures var p := FillPayload(group, exclude, Some(i + 1));
            FillFrom(cfg, group, exclude, arr, startTime, clock, i, k)
              == Run([Add(arr[i], group), Log(i + 1), Barrier, InvokeFill(p)], Continued(p))
  {
  }

  /** The number of clock readings taken over [i, e): one at each non-empty window end. */
  function Readings(arr: seq<string>, w: int, i: nat, e: nat): (n: nat)
    requires e <= |arr|
    ensures n <= if i <= e then e - i else 0
    decreases e - i
  {
    if i >= e then 0 else (if arr[i] != "" && IsWindowEnd(i, w) then 1 else 0) + Readings(arr, w, i + 1, e)
  }

  /** The n readings from the k-th on are all within the budget. */
  predicate WithinFrom(clock: nat -> int, startTime: int, budget: int, k: nat, n: nat) {
    forall j | k <= j < k + n :: clock(j) - startTime <= budget
  }

  lemma WithinFromCons(clock: nat -> int, startTime: int, budget: int, k: nat, n: nat)
    ensures WithinFrom(clock, startTime, budget, k, n + 1)
        <==> clock(k) - startTime <= budget && WithinFrom(clock, startTime, budget, k + 1, n)
  {
  }

  lemma ReadingsStep(arr: seq<string>, w: int, i: nat, e: nat)
    requires i < e <= |arr|
    ensures Readings(arr, w, i, e) == (if arr[i] != "" && IsWindowEnd(i, w) then 1 else 0) + Readings(arr, w, i + 1, e)
  {
  }

  /** The time check decides completion: an invocation completes exactly when every reading it takes is within the budget. */
  lemma {:induction false} CompletesIffWithinBudget(cfg: Config, group: string, exclude: Option<string>, arr: seq<string>,
                                                    startTime: int, clock: nat -> int, i: nat, k: nat)
    requires i <= |arr|
    ensures FillFrom(cfg, group, exclude, arr, startTime, clock, i, k).outcome.Completed?
        <==> WithinFrom(clock, startTime, cfg.lambdaRecursionTimeMs, k, Readings(arr, cfg.maxAddThingToThingGroup, i, |arr|))
    decreases |arr| - i
  {
    var w, b := cfg.maxAddThingToThingGroup, cfg.lambdaRecursionTimeMs;
    if i < |arr| {
      ReadingsStep(arr, w, i, |arr|);
      var n := Readings(arr, w, i + 1, |arr|);
      if arr[i] == "" || !IsWindowEnd(i, w) {
        CompletesIffWithinBudget(cfg, group, exclude, arr, startTime, clock, i + 1, k);
      } else {
        WithinFromCons(clock, startTime, b, k, n);
        if clock(k) - startTime <= b {
          CompletesIffWithinBudget(cfg, group, exclude, arr, startTime, clock, i + 1, k + 1);
        }
      }
    }
  }

  /** The reading k + m is the first from the k-th on that exceeds the budget. */
  predicate FirstOverBudget(clock: nat -> int, startTime: int, budget: int, k: nat, m: nat) {
    WithinFrom(clock, startTime, budget, k, m) && clock(k + m) - startTime > budget
  }

  lemma FirstOverBudgetCons(clock: nat -> int, startTime: int, budget: int, k: nat, m: nat)
    requires clock(k) - startTime <= budget && FirstOverBudget(clock, startTime, budget, k + 1, m)
    ensures FirstOverBudget(clock, startTime, budget, k, m + 1)
  {
    WithinFromCons(clock, startTime, budget, k, m);
  }

  /**
   * An invocation that hands over at e does so at the first reading over the budget: the last
   * of the n readings it takes over [i, e), the one at the window end e - 1, all readings
   * before it being within the budget.
   */
  lemma {:induction false} HandsOverAtFirstOverBudget(cfg: Config, group: string, exclude: Option<string>, arr: seq<string>,
                                                      startTime: int, clock: nat -> int, i: nat, k: nat)
    requires FillFrom(cfg, group, exclude, arr, startTime, clock, i, k).outcome.Continued?
    ensures var e := FillFrom(cfg, group, exclude, arr, startTime, clock, i, k).outcome.payload.startIndex.value;
            var n := Readings(arr, cfg.maxAddThingToThingGroup, i, e);
            n >= 1 && FirstOverBudget(clock, startTime, cfg.lambdaRecursionTimeMs, k, n - 1)
    decreases |arr| - i
  {
    var w, b := cfg.maxAddThingToThingGroup, cfg.lambdaRecursionTimeMs;
    var r := FillFrom(cfg, group, exclude, arr, startTime, clock, i, k);
    var e := r.outcome.payload.startIndex.value;
    ReadingsStep(arr, w, i, e);
    if arr[i] == "" {
      HandsOverAtFirstOverBudget(cfg, group, exclude, arr, startTime, clock, i + 1, k);
    } else if !IsWindowEnd(i, w) {
      HandsOverAtFirstOverBudget(cfg, group, exclude, arr, startTime, clock, i + 1, k);
    } else if clock(k) - startTime > b {
      assert e == i + 1;
    } else {
      HandsOverAtFirstOverBudget(cfg, group, exclude, arr, startTime, clock, i + 1, k + 1);
      FirstOverBudgetCons(clock, startTime, b, k, Readings(arr, w, i + 1, e) - 1);
    }
  }


  /**
   * Across a chain of invocations that starts inside the list, every non-empty entry from
   * the first startIndex on is added to the group exactly once and in list order, and the
   * chain ends with a completed invocation.
   */
  lemma ChainAddsEachEntryOnce(cfg: Config, store: map<string, seq<string>>, event: FillPayload,
                                clocks: nat -> (nat -> int), n: nat)
    requires Fetch(store, event.excludeListFileName).Some?
    requires StartOf(event.startIndex) <= |Fetch(store, event.excludeListFileName).value|
    ensures var r := Chain(cfg, store, event, clocks, n);
            && r.outcome == Completed
            && Added(r.calls) == NonEmpty(Fetch(store, event.excludeListFileName).value[StartOf(event.startIndex)..])
            && forall e | e in r.calls && e.Add? :: e.group == event.staticGroupName
  {
    ChainCompletes(cfg, store, event, clocks, n);
    ChainAddsInOrder(cfg, store, event, clocks, n);
    ChainTargetsGroup(cfg, store, event, clocks, n);
  }

  /** An invocation whose list is found makes the fetch call, then runs the fill from its startIndex. */
  lemma InvocationFound(cfg: Config, store: map<string, seq<string>>, event: FillPayload, clock: nat -> int)
    requires Fetch(store, event.excludeListFileName).Some?
    ensures var run := FillFrom(cfg, event.staticGroupName, event.excludeListFileName, Fetch(store, event.excludeListFileName).value,
                                clock(0), clock, StartOf(event.startIndex), 1);
            var step := Invocation(cfg, store, event, clock);
            && step == Prepend([GetList(event.excludeListFileName)], run)
            && Added(step.calls) == Added(run.calls)
            && (forall e | e in step.calls && e.Add? :: e.group == event.staticGroupName)
  {
    var arr := Fetch(store, event.excludeListFileName).value;
    var run := FillFrom(cfg, event.staticGroupName, event.excludeListFileName, arr, clock(0), clock, StartOf(event.startIndex), 1);
    var list: seq<Event> := [GetList(event.excludeListFileName)];
    PickNone(list, AddedThing);
    PickAppend(list, run.calls, AddedThing);
    AddsTargetGroup(cfg, event.staticGroupName, event.excludeListFileName, arr, clock(0), clock, StartOf(event.startIndex), 1);
  }

  /** A chain that starts inside a list that is found ends with a completed invocation. */
  lemma {:induction false} ChainCompletes(cfg: Config, store: map<string, seq<string>>, event: FillPayload,
                                           clocks: nat -> (nat -> int), n: nat)
    requires Fetch(store, event.excludeListFileName).Some?
    ensures Chain(cfg, store, event, clocks, n).outcome == Completed
    decreases Remaining(store, event)
  {
    var step := Invocation(cfg, store, event, clocks(n));
    if step.outcome.Continued? {
      ChainCompletes(cfg, store, step.outcome.payload, clocks, n + 1);
    }
  }

  /** Every add call of a chain targets the group of its first event. */
  lemma {:induction false} ChainTargetsGroup(cfg: Config, store: map<string, seq<string>>, event: FillPayload,
                                              clocks: nat -> (nat -> int), n: nat)
    requires Fetch(store, event.excludeListFileName).Some?
    ensures forall e | e in Chain(cfg, store, event, clocks, n).calls && e.Add? :: e.group == event.staticGroupName
    decreases Remaining(store, event)
  {
    var step := Invocation(cfg, store, event, clocks(n));
    InvocationFound(cfg, store, event, clocks(n));
    if step.outcome.Continued? {
      ChainTargetsGroup(cfg, store, step.outcome.payload, clocks, n + 1);
    }
  }

  /** Calls adding the non-empty entries of [s, m), then calls adding those of [m, |arr|). */
  lemma AddsJoin(arr: seq<string>, s: nat, m: nat, a: seq<Event>, b: seq<Event>)
    requires s <= m <= |arr|
    requires Added(a) == NonEmpty(arr[s..m]) && Added(b) == NonEmpty(arr[m..])
    ensures Added(a + b) == NonEmpty(arr[s..])
  {
    PickAppend(a, b, AddedThing);
    assert arr[s..] == arr[s..m] + arr[m..];
    NonEmptyAppend(arr[s..m], arr[m..]);
  }

  /** The adds of a chain: the non-empty entries from the first startIndex on, in list order. */
  lemma {:induction false} ChainAddsInOrder(cfg: Config, store: map<string, seq<string>>, event: FillPayload,
                                             clocks: nat -> (nat -> int), n: nat)
    requires Fetch(store, event.excludeListFileName).Some?
    requires StartOf(event.startIndex) <= |Fetch(store, event.excludeListFileName).value|
    ensures Added(Chain(cfg, store, event, clocks, n).calls)
         == NonEmpty(Fetch(store, event.excludeListFileName).value[StartOf(event.startIndex)..])
    decreases Remaining(store, event)
  {
    var arr := Fetch(store, event.excludeListFileName).value;
    var s := StartOf(event.startIndex);
    var run := FillFrom(cfg, event.staticGroupName, event.excludeListFileName, arr, clocks(n)(0), clocks(n), s, 1);
    var step := Invocation(cfg, store, event, clocks(n));
    InvocationFound(cfg, store, event, clocks(n));
    if run.outcome.Continued? {
      var next := run.outcome.payload;
      var m := next.startIndex.value;
      ContinuedAddsWindowPrefix(cfg, event.staticGroupName, event.excludeListFileName, arr, clocks(n)(0), clocks(n), s, 1);
      ChainAddsInOrder(cfg, store, next, clocks, n + 1);
      AddsJoin(arr, s, m, step.calls, Chain(cfg, store, next, clocks, n + 1).calls);
    } else {
      CompletedAddsRest(cfg, event.staticGroupName, event.excludeListFileName, arr, clocks(n)(0), clocks(n), s, 1);
    }
  }

  // ---------------------------------------------------------------------------
  // Two concrete runs

  /**
   * ["x", "", "y", "z", "w"] with W = 2 and a clock that stays within the budget: the window
   * end at index 1 is empty, so no wait is taken there and the first window holds three add
   * calls, closed at index 3; the last window holds one, and the completion log reports the
   * list length 5, empty entry included.
   */
  lemma EmptyWindowEndMergesWindows(clock: nat -> int)
    requires forall j :: clock(j) <= 1000
    ensures FillFrom(Config(2, 1000), "g", None, ["x", "", "y", "z", "w"], 0, clock, 0, 1)
         == Run([Add("x", "g"), Add("y", "g"), Add("z", "g"), Log(4), Barrier, Add("w", "g"), Barrier, Log(5)], Completed)
  {
    var cfg, arr := Config(2, 1000), ["x", "", "y", "z", "w"];
    var last := [Add("w", "g"), Barrier, Log(5)];
    assert |arr| == 5 && clock(1) <= 1000;
    assert !IsWindowEnd(0, 2) && !IsWindowEnd(2, 2) && IsWindowEnd(3, 2) && !IsWindowEnd(4, 2);
    assert FillFrom(cfg, "g", None, arr, 0, clock, 4, 2) == Run(last, Completed);
    assert FillFrom(cfg, "g", None, arr, 0, clock, 3, 1) == Run([Add("z", "g"), Log(4), Barrier] + last, Completed);
    assert FillFrom(cfg, "g", None, arr, 0, clock, 1, 1) == Run([Add("y", "g"), Add("z", "g"), Log(4), Barrier] + last, Completed);
    assert FillFrom(cfg, "g", None, arr, 0, clock, 0, 1)
        == Prepend([Add("x", "g")], FillFrom(cfg, "g", None, arr, 0, clock, 1, 1));
  }

  /**
   * Five entries, W = 2 and a budget of 0 that every reading exceeds: the first window
   * closes at index 1 and the invocation hands over with startIndex 2, adding nothing more.
   */
  lemma OverBudgetHandsOverAfterFirstWindow(clock: nat -> int)
    requires forall j :: clock(j) > 0
    ensures FillFrom(Config(2, 0), "g", None, ["a", "b", "c", "d", "e"], 0, clock, 0, 1)
         == Run([Add("a", "g"), Add("b", "g"), Log(2), Barrier, InvokeFill(FillPayload("g", None, Some(2)))],
                 Continued(FillPayload("g", None, Some(2))))
  {
    var cfg, arr := Config(2, 0), ["a", "b", "c", "d", "e"];
    var payload := FillPayload("g", None, Some(2));
    var tail := [Log(2), Barrier, InvokeFill(payload)];
    assert !IsWindowEnd(0, 2) && IsWindowEnd(1, 2) && clock(1) > 0;
    assert [Add("b", "g"), Log(2), Barrier, InvokeFill(payload)] == [Add("b", "g")] + tail;
    assert FillFrom(cfg, "g", None, arr, 0, clock, 1, 1) == Run([Add("b", "g")] + tail, Continued(payload));
    assert FillFrom(cfg, "g", None, arr, 0, clock, 0, 1)
        == Prepend([Add("a", "g")], FillFrom(cfg, "g", None, arr, 0, clock, 1, 1));
    assert [Add("a", "g")] + ([Add("b", "g")] + tail)
        == [Add("a", "g"), Add("b", "g"), Log(2), Barrier, InvokeFill(payload)];
  }
}
