/**
 * The seeding function: creates SEED_NUMBER_OF_THINGS test things named by a prefix and
 * their index, paced by CREATE_THINGS_LIMIT_TPS, or deletes every thing the fleet index
 * lists under that prefix, one page per DELETE_THINGS_LIMIT_TPS-sized search.
 */
module SeedThings {
  import opened Effects

  /** An event of the function; seedConfigNumber is a JavaScript number, truthy when non-zero. */
  datatype SeedEvent = SeedEvent(mode: Option<string>, demoThingPrefix: Option<string>, seedConfigNumber: Option<int>)

  /** The module-level variables the handler overwrites: demoThingPrefix and seedConfig.number. */
  datatype SeedState = SeedState(demoThingPrefix: string, number: int)

  /** `demoThingPrefix + i` */
  function ThingName(prefix: string, i: nat): (name: string)
    ensures |name| > |prefix| && name[..|prefix|] == prefix
  {
    prefix + Decimal(i)
  }

  /** The seeded things are pairwise distinct. */
  lemma ThingNamesDistinct(prefix: string, i: nat, j: nat)
    requires i != j
    ensures ThingName(prefix, i) != ThingName(prefix, j)
  {
    if ThingName(prefix, i) == ThingName(prefix, j) {
      assert Decimal(i) == ThingName(prefix, i)[|prefix|..];
      assert Decimal(j) == ThingName(prefix, j)[|prefix|..];
      DecimalInjective(i, j);
    }
  }

  // ---------------------------------------------------------------------------
  // Seeding

  /**
   * Index i is followed by an await of every call so far and a pacing wait: `i % W === 0`.
   * For i >= 0 JavaScript's remainder agrees with Dafny's for any W != 0, and is NaN for W = 0.
   */
  predicate IsCreateBarrier(i: nat, w: int): (b: bool)
    ensures i == 0 && w != 0 ==> b
    ensures w == 0 ==> !b
  {
    w != 0 && i % w == 0
  }

  /** How many times `for (let i = 0; i < number; i++)` runs. */
  function Count(number: int): nat {
    if number > 0 then number else 0
  }

  /** The calls of the first n iterations of the create loop. */
  function SeedSteps(prefix: string, w: int, n: nat): (t: seq<Event>)
    ensures |t| >= n
  {
    if n == 0 then []
    else
      var i := n - 1;
      SeedSteps(prefix, w, i) + [Create(ThingName(prefix, i))] + (if IsCreateBarrier(i, w) then [Log(i), Barrier] else [])
  }

  /** seedAccountWithThings: the loop, then a log of promiseArray's length, which is never reset. */
  function SeedRun(prefix: string, w: int, number: int): (t: seq<Event>)
    ensures |t| >= Count(number) + 1 && t[|t| - 1] == Log(Count(number))
  {
    SeedSteps(prefix, w, Count(number)) + [Log(Count(number))]
  }

  /** The names of things lo .. hi - 1. */
  function Names(prefix: string, lo: nat, hi: nat): (r: seq<string>)
    requires lo <= hi
    ensures |r| == hi - lo
    ensures forall i | lo <= i < hi :: r[i - lo] == ThingName(prefix, i)
    decreases hi - lo
  {
    if lo == hi then [] else Names(prefix, lo, hi - 1) + [ThingName(prefix, hi - 1)]
  }

  /** The create calls for things lo .. hi - 1, with nothing between them. */
  function Creates(prefix: string, lo: nat, hi: nat): seq<Event>
    requires lo <= hi
    decreases hi - lo
  {
    if lo == hi then [] else Creates(prefix, lo, hi - 1) + [Create(ThingName(prefix, hi - 1))]
  }

  /** The indices of [0, n) that are followed by a barrier, in increasing order. */
  function BarrierIndices(w: int, n: nat): (r: seq<nat>)
    ensures forall j | 0 <= j < |r| :: r[j] < n && IsCreateBarrier(r[j], w)
  {
    if n == 0 then [] else BarrierIndices(w, n - 1) + (if IsCreateBarrier(n - 1, w) then [n - 1] else [])
  }

  /**
   * The create loop issues one create per index in [0, n), named by the index in order, and
   * logs the index of every barrier, in order.
   */
  lemma {:induction false} SeedStepsCalls(prefix: string, w: int, n: nat)
    ensures Created(SeedSteps(prefix, w, n)) == Names(prefix, 0, n)
    ensures Logged(SeedSteps(prefix, w, n)) == BarrierIndices(w, n)
    ensures |Barriers(SeedSteps(prefix, w, n))| == |BarrierIndices(w, n)|
  {
    if n > 0 {
      SeedStepsCalls(prefix, w, n - 1);
      IterationProjections(SeedSteps(prefix, w, n - 1), prefix, w, n - 1);
    }
  }

  /** What iteration i adds to the creates, the logs and the barriers of the calls before it. */
  lemma IterationProjections(before: seq<Event>, prefix: string, w: int, i: nat)
    ensures var t := before + [Create(ThingName(prefix, i))] + (if IsCreateBarrier(i, w) then [Log(i), Barrier] else []);
            && Created(t) == Created(before) + [ThingName(prefix, i)]
            && Logged(t) == Logged(before) + (if IsCreateBarrier(i, w) then [i] else [])
            && |Barriers(t)| == |Barriers(before)| + (if IsCreateBarrier(i, w) then 1 else 0)
  {
    var create := Create(ThingName(prefix, i));
    var wait: seq<Event> := if IsCreateBarrier(i, w) then [Log(i), Barrier] else [];
    PickConcat3(before, [create], wait, CreatedThing);
    PickConcat3(before, [create], wait, LoggedCount);
    PickConcat3(before, [create], wait, BarrierOf);
    PickSingle(create, CreatedThing);
    PickSingle(create, LoggedCount);
    PickSingle(create, BarrierOf);
    if IsCreateBarrier(i, w) {
      PickPair(Log(i), Barrier, CreatedThing);
      PickPair(Log(i), Barrier, LoggedCount);
      PickPair(Log(i), Barrier, BarrierOf);
    }
  }

  /**
   * seedAccountWithThings creates exactly `number` things (none for a number below 1), with
   * pairwise distinct names prefix + i in index order, and its last log is that count.
   */
  lemma SeedRunCreates(prefix: string, w: int, number: int)
    ensures var t := SeedRun(prefix, w, number);
            && Created(t) == Names(prefix, 0, Count(number))
            && (forall i, j | 0 <= i < j < |Created(t)| :: Created(t)[i] != Created(t)[j])
            && t[|t| - 1] == Log(|Created(t)|)
  {
    var steps := SeedSteps(prefix, w, Count(number));
    SeedStepsCalls(prefix, w, Count(number));
    PickAppend(steps, [Log(Count(number))], CreatedThing);
    PickSingle(Log(Count(number)), CreatedThing);
    var names := Names(prefix, 0, Count(number));
    forall i, j | 0 <= i < j < |names|
      ensures names[i] != names[j]
    {
      ThingNamesDistinct(prefix, i, j);
    }
  }

  /** The first barrier comes right after the create of index 0, alone. */
  lemma FirstBarrierAfterIndexZero(prefix: string, w: int, n: nat)
    requires w != 0 && n >= 1
    ensures [Create(ThingName(prefix, 0)), Log(0), Barrier] <= SeedSteps(prefix, w, n)
  {
    assert IsCreateBarrier(0, w);
    assert SeedSteps(prefix, w, 1) == [Create(ThingName(prefix, 0)), Log(0), Barrier];
    SeedStepsPrefix(prefix, w, 1, n);
  }

  /** Later iterations only append calls. */
  lemma {:induction false} SeedStepsPrefix(prefix: string, w: int, m: nat, n: nat)
    requires m <= n
    ensures SeedSteps(prefix, w, m) <= SeedSteps(prefix, w, n)
    decreases n - m
  {
    if m < n {
      SeedStepsPrefix(prefix, w, m, n - 1);
    }
  }

  /**
   * The calls up to iteration i are a prefix of the whole loop's and have created the things
   * 0 .. i; iteration i ends with its create, and at an index with `i % W === 0` that create
   * is followed right away by the log of i and the wait.
   */
  lemma WaitFollowsItsCreate(prefix: string, w: int, i: nat, n: nat)
    requires i < n
    ensures var a := SeedSteps(prefix, w, i + 1);
            && a <= SeedSteps(prefix, w, n)
            && Created(a) == Names(prefix, 0, i + 1)
            && (IsCreateBarrier(i, w) ==> |a| >= 3 && a[|a| - 3..] == [Create(ThingName(prefix, i)), Log(i), Barrier])
            && (!IsCreateBarrier(i, w) ==> a[|a| - 1] == Create(ThingName(prefix, i)))
  {
    SeedStepsPrefix(prefix, w, i + 1, n);
    SeedStepsCalls(prefix, w, i + 1);
  }

  /** Iterations lo .. hi - 1 with no barrier among them only create. */
  lemma {:induction false} StepsWithoutBarrier(prefix: string, w: int, lo: nat, hi: nat)
    requires lo <= hi
    requires forall i | lo <= i < hi :: !IsCreateBarrier(i, w)
    ensures SeedSteps(prefix, w, hi) == SeedSteps(prefix, w, lo) + Creates(prefix, lo, hi)
    decreases hi - lo
  {
    if lo < hi {
      StepsWithoutBarrier(prefix, w, lo, hi - 1);
      assert !IsCreateBarrier(hi - 1, w);
    }
  }

  /**
   * With W > 0 the last barrier follows index b = the greatest multiple of W below n; the
   * (n - 1) % W creates after it are never awaited by the function.
   */
  lemma UnawaitedTail(prefix: string, w: int, n: nat)
    requires w > 0 && n >= 1
    ensures var b := (n - 1) / w * w;
            var awaited := SeedSteps(prefix, w, b + 1);
            && b + 1 <= n
            && SeedSteps(prefix, w, n) == awaited + Creates(prefix, b + 1, n)
            && awaited[|awaited| - 1] == Barrier
            && n - (b + 1) == (n - 1) % w
  {
    var b := (n - 1) / w * w;
    LastMultipleBelow(n, w);
    StepsWithoutBarrier(prefix, w, b + 1, n);
    EndsWithBarrier(prefix, w, b + 1);
  }

  /** An iteration at a barrier index ends with the barrier. */
  lemma EndsWithBarrier(prefix: string, w: int, m: nat)
    requires m >= 1 && IsCreateBarrier(m - 1, w)
    ensures var t := SeedSteps(prefix, w, m); |t| >= 1 && t[|t| - 1] == Barrier
  {
  }

  /**
   * b = the greatest multiple of W below n is a barrier index, no index after it below n
   * is one, and (n - 1) % W indices follow it.
   */
  lemma LastMultipleBelow(n: nat, w: int)
    requires w > 0 && n >= 1
    ensures var b := (n - 1) / w * w;
            && b + 1 <= n && IsCreateBarrier(b, w) && n - (b + 1) == (n - 1) % w
            && forall i | b + 1 <= i < n :: !IsCreateBarrier(i, w)
  {
    var q := (n - 1) / w;
    var b := q * w;
    assert n - 1 == w * q + (n - 1) % w;
    ModUnique(b, w, q, 0);
    forall i | b + 1 <= i < n
      ensures !IsCreateBarrier(i, w)
    {
      ModUnique(i, w, q, i - b);
    }
  }

  /**
   * Four things with W = 2: barriers follow indices 0 and 2, so the create of index 3 is
   * left running when the function ends, and the final log says 4.
   */
  lemma SeedFourWithWindowTwo()
    ensures SeedRun("t", 2, 4)
         == [Create(ThingName("t", 0)), Log(0), Barrier, Create(ThingName("t", 1)),
             Create(ThingName("t", 2)), Log(2), Barrier, Create(ThingName("t", 3)), Log(4)]
  {
    assert IsCreateBarrier(0, 2) && !IsCreateBarrier(1, 2) && IsCreateBarrier(2, 2) && !IsCreateBarrier(3, 2);
    var s1 := [Create(ThingName("t", 0)), Log(0), Barrier];
    assert SeedSteps("t", 2, 1) == s1;
    assert SeedSteps("t", 2, 2) == s1 + [Create(ThingName("t", 1))];
    var s3 := s1 + [Create(ThingName("t", 1))] + [Create(ThingName("t", 2))] + [Log(2), Barrier];
    assert SeedSteps("t", 2, 3) == s3;
    assert SeedSteps("t", 2, 4) == s3 + [Create(ThingName("t", 3))];
  }

  // ---------------------------------------------------------------------------
  // Deleting

  /** The search of the delete loop after a result whose cursor was `prev`. */
  function DeleteParams(prefix: string, deleteThingPerS: int, prev: Option<string>): (p: SearchParams)
    ensures p.queryString == prefix + "*" && p.maxResults == deleteThingPerS
    ensures p.nextToken.Some? <==> Truthy(prev)
    ensures p.nextToken.Some? ==> p.nextToken == prev
  {
    SearchParams(prefix + "*", deleteThingPerS, Forwarded(prev))
  }

  /** One delete per listed thing, in listing order. */
  function Deletes(things: seq<string>): (r: seq<Event>)
    ensures |r| == |things|
  {
    if things == [] then [] else Deletes(things[..|things| - 1]) + [Delete(things[|things| - 1])]
  }

  /**
   * The delete loop from its k-th search, the previous result's cursor being `prev` and the
   * counter `deleteCount`; a search beyond the last page throws.
   */
  function DeletePass(prefix: string, deleteThingPerS: int, prev: Option<string>, pages: seq<Page>, k: nat, deleteCount: int)
    : (r: Run<()>)
    ensures r.calls != [] && r.calls[0] == Search(DeleteParams(prefix, deleteThingPerS, prev))
    ensures !r.outcome.Continued?
    decreases |pages| - k
  {
    var search := Search(DeleteParams(prefix, deleteThingPerS, prev));
    if k >= |pages| then Run([search], Failed)
    else
      var head := DeleteHead(DeleteParams(prefix, deleteThingPerS, prev), pages[k].things, deleteCount * deleteThingPerS);
      if !Truthy(pages[k].nextToken) then Run(head, Completed)
      else Prepend(head, DeletePass(prefix, deleteThingPerS, pages[k].nextToken, pages, k + 1, deleteCount + 1))
  }

  lemma {:induction false} DeletesThings(things: seq<string>)
    ensures Deleted(Deletes(things)) == things
    ensures forall e | e in Deletes(things) :: e.Delete?
  {
    if things != [] {
      var init, last := things[..|things| - 1], things[|things| - 1];
      DeletesThings(init);
      PickAppend(Deletes(init), [Delete(last)], DeletedThing);
      PickSingle(Delete(last), DeletedThing);
      assert things == init + [last];
    }
  }

  /** The calls of one iteration of the delete loop. */
  function DeleteHead(p: SearchParams, things: seq<string>, count: int): (t: seq<Event>)
  {
    [Search(p)] + Deletes(things) + [Barrier, Log(count)]
  }

  /** What one iteration contributes to the projections of a run. */
  lemma DeleteHeadProjections(p: SearchParams, things: seq<string>, count: int)
    ensures var t := DeleteHead(p, things, count);
            && Deleted(t) == things
            && Searches(t) == [p]
            && Logged(t) == [count]
            && |Barriers(t)| == 1
            && forall e | e in t :: e.Search? || e.Delete? || e.Barrier? || e.Log?
  {
    DeletesThings(things);
    WaitAndLog(count);
    HeadDeleted(p, things, count);
    HeadSearches(p, things, count);
    HeadLogged(p, things, count);
    HeadBarriers(p, things, count);
  }

  lemma HeadDeleted(p: SearchParams, things: seq<string>, count: int)
    requires Deleted(Deletes(things)) == things && Deleted([Barrier, Log(count)]) == []
    ensures Deleted(DeleteHead(p, things, count)) == things
  {
    PickSingle(Search(p), DeletedThing);
    PickConcat3([Search(p)], Deletes(things), [Barrier, Log(count)], DeletedThing);
  }

  lemma HeadSearches(p: SearchParams, things: seq<string>, count: int)
    requires forall e | e in Deletes(things) :: e.Delete?
    requires Searches([Barrier, Log(count)]) == []
    ensures Searches(DeleteHead(p, things, count)) == [p]
  {
    PickNone(Deletes(things), SearchOf);
    PickSingle(Search(p), SearchOf);
    PickConcat3([Search(p)], Deletes(things), [Barrier, Log(count)], SearchOf);
  }

  lemma HeadLogged(p: SearchParams, things: seq<string>, count: int)
    requires forall e | e in Deletes(things) :: e.Delete?
    requires Logged([Barrier, Log(count)]) == [count]
    ensures Logged(DeleteHead(p, things, count)) == [count]
  {
    PickNone(Deletes(things), LoggedCount);
    PickSingle(Search(p), LoggedCount);
    PickConcat3([Search(p)], Deletes(things), [Barrier, Log(count)], LoggedCount);
  }

  lemma HeadBarriers(p: SearchParams, things: seq<string>, count: int)
    requires forall e | e in Deletes(things) :: e.Delete?
    requires |Barriers([Barrier, Log(count)])| == 1
    ensures |Barriers(DeleteHead(p, things, count))| == 1
  {
    PickNone(Deletes(things), BarrierOf);
    PickSingle(Search(p), BarrierOf);
    PickConcat3([Search(p)], Deletes(things), [Barrier, Log(count)], BarrierOf);
  }

  /**
   * The delete loop stops after the first page without a cursor, or throws past the last
   * page; until then it deletes every listed thing, page after page, and calls nothing but
   * searches, deletes, waits and logs.
   */
  lemma {:induction false} DeletePassDeletes(prefix: string, perS: int, prev: Option<string>, pages: seq<Page>, k: nat, deleteCount: int)
    requires k <= |pages|
    ensures var r := DeletePass(prefix, perS, prev, pages, k, deleteCount);
            && (r.outcome.Completed? <==> FirstTokenless(pages, k) < |pages|)
            && Deleted(r.calls) == ThingsOf(pages[k..LastPageEnd(pages, k)])
            && forall e | e in r.calls :: e.Search? || e.Delete? || e.Barrier? || e.Log?
    decreases |pages| - k
  {
    var r := DeletePass(prefix, perS, prev, pages, k, deleteCount);
    var p := DeleteParams(prefix, perS, prev);
    if k == |pages| {
      PickSingle(Search(p), DeletedThing);
      assert pages[k..LastPageEnd(pages, k)] == [];
    } else {
      var end := LastPageEnd(pages, k);
      var visited := pages[k..end];
      var head := DeleteHead(p, pages[k].things, deleteCount * perS);
      DeleteHeadProjections(p, pages[k].things, deleteCount * perS);
      assert visited[0] == pages[k];
      assert ThingsOf(visited) == pages[k].things + ThingsOf(visited[1..]);
      if !Truthy(pages[k].nextToken) {
        assert r.calls == head;
        assert visited[1..] == [];
      } else {
        var rest := DeletePass(prefix, perS, pages[k].nextToken, pages, k + 1, deleteCount + 1);
        DeletePassDeletes(prefix, perS, pages[k].nextToken, pages, k + 1, deleteCount + 1);
        assert r.calls == head + rest.calls;
        PickAppend(head, rest.calls, DeletedThing);
        assert LastPageEnd(pages, k + 1) == end;
        assert visited[1..] == pages[k + 1..end];
      }
    }
  }

  /** The projections of one iteration of the delete loop, and of the rest of the loop after it. */
  lemma DeletePassStep(prefix: string, perS: int, prev: Option<string>, pages: seq<Page>, k: nat, deleteCount: int)
    requires k < |pages|
    ensures var r := DeletePass(prefix, perS, prev, pages, k, deleteCount);
            var rest := if Truthy(pages[k].nextToken)
                        then DeletePass(prefix, perS, pages[k].nextToken, pages, k + 1, deleteCount + 1).calls else [];
            && Searches(r.calls) == [DeleteParams(prefix, perS, prev)] + Searches(rest)
            && Logged(r.calls) == [deleteCount * perS] + Logged(rest)
  {
    var r := DeletePass(prefix, perS, prev, pages, k, deleteCount);
    var head := DeleteHead(DeleteParams(prefix, perS, prev), pages[k].things, deleteCount * perS);
    var rest := if Truthy(pages[k].nextToken)
                then DeletePass(prefix, perS, pages[k].nextToken, pages, k + 1, deleteCount + 1).calls else [];
    DeleteHeadProjections(DeleteParams(prefix, perS, prev), pages[k].things, deleteCount * perS);
    assert r.calls == head + rest;
    PickAppend(head, rest, SearchOf);
    PickAppend(head, rest, LoggedCount);
  }

  /** `l` holds n logs, the j-th reporting (deleteCount + j) * perS. */
  predicate CountedLogs(l: seq<int>, n: int, deleteCount: int, perS: int) {
    |l| == n && forall j | 0 <= j < |l| :: l[j] == (deleteCount + j) * perS
  }

  lemma CountedLogsCons(l: seq<int>, n: int, deleteCount: int, perS: int)
    requires CountedLogs(l, n, deleteCount + 1, perS)
    ensures CountedLogs([deleteCount * perS] + l, n + 1, deleteCount, perS)
  {
    var l2 := [deleteCount * perS] + l;
    forall j | 1 <= j < |l2|
      ensures l2[j] == (deleteCount + j) * perS
    {
      assert l2[j] == l[j - 1] == (deleteCount + 1 + (j - 1)) * perS;
    }
  }

  /**
   * One log per page processed, page j's reporting (deleteCount + j) * deleteThingPerS
   * rather than the number of deletions so far.
   */
  lemma {:induction false} DeletePassLogs(prefix: string, perS: int, prev: Option<string>, pages: seq<Page>, k: nat, deleteCount: int)
    requires k <= |pages|
    ensures CountedLogs(Logged(DeletePass(prefix, perS, prev, pages, k, deleteCount).calls), LastPageEnd(pages, k) - k, deleteCount, perS)
    decreases |pages| - k
  {
    if k == |pages| {
      PickSingle(Search(DeleteParams(prefix, perS, prev)), LoggedCount);
    } else {
      DeletePassStep(prefix, perS, prev, pages, k, deleteCount);
      LastPageEndStep(pages, k);
      if Truthy(pages[k].nextToken) {
        var rest := DeletePass(prefix, perS, pages[k].nextToken, pages, k + 1, deleteCount + 1);
        DeletePassLogs(prefix, perS, pages[k].nextToken, pages, k + 1, deleteCount + 1);
        CountedLogsCons(Logged(rest.calls), LastPageEnd(pages, k + 1) - (k + 1), deleteCount, perS);
      } else {
        CountedLogsCons([], 0, deleteCount, perS);
      }
    }
  }

  /** The delete loop waits once per page it processes: one pacing wait for each page's deletes. */
  lemma {:induction false} DeletePassWaits(prefix: string, perS: int, prev: Option<string>, pages: seq<Page>, k: nat, deleteCount: int)
    requires k <= |pages|
    ensures |Barriers(DeletePass(prefix, perS, prev, pages, k, deleteCount).calls)| == LastPageEnd(pages, k) - k
    decreases |pages| - k
  {
    var p := DeleteParams(prefix, perS, prev);
    if k == |pages| {
      PickSingle(Search(p), BarrierOf);
    } else {
      var head := DeleteHead(p, pages[k].things, deleteCount * perS);
      DeleteHeadProjections(p, pages[k].things, deleteCount * perS);
      LastPageEndStep(pages, k);
      if Truthy(pages[k].nextToken) {
        var rest := DeletePass(prefix, perS, pages[k].nextToken, pages, k + 1, deleteCount + 1);
        DeletePassWaits(prefix, perS, pages[k].nextToken, pages, k + 1, deleteCount + 1);
        assert DeletePass(prefix, perS, prev, pages, k, deleteCount).calls == head + rest.calls;
        PickAppend(head, rest.calls, BarrierOf);
      }
    }
  }

  /**
   * `s` is the search sequence of a delete loop that starts at page k after cursor `prev`:
   * every search asks for `<prefix>*` with deleteThingPerS results; the first forwards
   * `prev` when truthy, and each later one the cursor of the page before.
   */
  predicate DeleteSearches(prefix: string, perS: int, prev: Option<string>, pages: seq<Page>, k: nat, s: seq<SearchParams>) {
    && 1 <= |s| && k + |s| <= |pages| + 1
    && s[0] == DeleteParams(prefix, perS, prev)
    && (forall j | 1 <= j < |s| :: s[j] == DeleteParams(prefix, perS, pages[k + j - 1].nextToken))
  }

  lemma DeleteSearchesCons(prefix: string, perS: int, prev: Option<string>, pages: seq<Page>, k: nat, s': seq<SearchParams>)
    requires k < |pages|
    requires DeleteSearches(prefix, perS, pages[k].nextToken, pages, k + 1, s')
    ensures DeleteSearches(prefix, perS, prev, pages, k, [DeleteParams(prefix, perS, prev)] + s')
  {
    var s := [DeleteParams(prefix, perS, prev)] + s';
    forall j | 1 <= j < |s|
      ensures s[j] == DeleteParams(prefix, perS, pages[k + j - 1].nextToken)
    {
      assert s[j] == s'[j - 1];
    }
  }

  /** The searches of the delete loop from page k. */
  lemma {:induction false} DeletePassSearches(prefix: string, perS: int, prev: Option<string>, pages: seq<Page>, k: nat, deleteCount: int)
    requires k <= |pages|
    ensures DeleteSearches(prefix, perS, prev, pages, k, Searches(DeletePass(prefix, perS, prev, pages, k, deleteCount).calls))
    decreases |pages| - k
  {
    if k == |pages| {
      PickSingle(Search(DeleteParams(prefix, perS, prev)), SearchOf);
    } else {
      DeletePassStep(prefix, perS, prev, pages, k, deleteCount);
      if Truthy(pages[k].nextToken) {
        var rest := DeletePass(prefix, perS, pages[k].nextToken, pages, k + 1, deleteCount + 1);
        DeletePassSearches(prefix, perS, pages[k].nextToken, pages, k + 1, deleteCount + 1);
        DeleteSearchesCons(prefix, perS, prev, pages, k, Searches(rest.calls));
      }
    }
  }

  // ---------------------------------------------------------------------------
  // The handler

  /** The handler's overrides: each applies only when its event field is truthy. */
  function Overridden(s: SeedState, event: SeedEvent): (r: SeedState)
    ensures Truthy(event.demoThingPrefix) ==> r.demoThingPrefix == event.demoThingPrefix.value
    ensures !Truthy(event.demoThingPrefix) ==> r.demoThingPrefix == s.demoThingPrefix
    ensures event.seedConfigNumber.Some? && event.seedConfigNumber.value != 0 ==> r.number == event.seedConfigNumber.value
    ensures !(event.seedConfigNumber.Some? && event.seedConfigNumber.value != 0) ==> r.number == s.number
  {
    SeedState(
      if Truthy(event.demoThingPrefix) then event.demoThingPrefix.value else s.demoThingPrefix,
      if event.seedConfigNumber.Some? && event.seedConfigNumber.value != 0 then event.seedConfigNumber.value else s.number)
  }

  /** One invocation from state `s`: mode "delete" deletes, mode "seed" seeds, any other mode does nothing. */
  function Invocation(createThingPerS: int, deleteThingPerS: int, s: SeedState, event: SeedEvent, pages: seq<Page>)
    : (r: Run<()>)
    ensures !r.outcome.Continued?
    ensures r.outcome.Failed? ==> event.mode == Some("delete")
  {
    var o := Overridden(s, event);
    if event.mode == Some("delete") then DeletePass(o.demoThingPrefix, deleteThingPerS, None, pages, 0, 1)
    else if event.mode == Some("seed") then Run(SeedRun(o.demoThingPrefix, createThingPerS, o.number), Completed)
    else Run([], Completed)
  }

  /**
   * Mode dispatch: deleting never creates, seeding never deletes or searches, and any other
   * mode makes no call at all.
   */
  lemma RunDispatch(createThingPerS: int, deleteThingPerS: int, s: SeedState, event: SeedEvent, pages: seq<Page>)
    ensures var r, o := Invocation(createThingPerS, deleteThingPerS, s, event, pages), Overridden(s, event);
            && (event.mode == Some("delete") ==>
                  Created(r.calls) == [] && Deleted(r.calls) == ThingsOf(pages[..LastPageEnd(pages, 0)])
                  && forall p | p in Searches(r.calls) :: p.queryString == o.demoThingPrefix + "*")
            && (event.mode == Some("seed") ==>
                  r.outcome == Completed && Deleted(r.calls) == [] && Searches(r.calls) == []
                  && Created(r.calls) == Names(o.demoThingPrefix, 0, Count(o.number)))
            && (event.mode != Some("delete") && event.mode != Some("seed") ==> r == Run([], Completed))
  {
    var o := Overridden(s, event);
    if event.mode == Some("delete") {
      DeleteRunCalls(o.demoThingPrefix, deleteThingPerS, pages);
    } else if event.mode == Some("seed") {
      SeedRunCalls(o.demoThingPrefix, createThingPerS, o.number);
    }
  }

  /** A delete run creates nothing, deletes every listed thing and only searches under `<prefix>*`. */
  lemma DeleteRunCalls(prefix: string, perS: int, pages: seq<Page>)
    ensures var t := DeletePass(prefix, perS, None, pages, 0, 1).calls;
            && Created(t) == [] && Deleted(t) == ThingsOf(pages[..LastPageEnd(pages, 0)])
            && forall p | p in Searches(t) :: p.queryString == prefix + "*"
  {
    var t := DeletePass(prefix, perS, None, pages, 0, 1).calls;
    DeletePassDeletes(prefix, perS, None, pages, 0, 1);
    DeletePassSearches(prefix, perS, None, pages, 0, 1);
    PickNone(t, CreatedThing);
    assert pages[0..LastPageEnd(pages, 0)] == pages[..LastPageEnd(pages, 0)];
    forall p | p in Searches(t)
      ensures p.queryString == prefix + "*"
    {
      var j :| 0 <= j < |Searches(t)| && Searches(t)[j] == p;
    }
  }

  /** A seed run deletes and searches nothing and creates the `number` names in order. */
  lemma SeedRunCalls(prefix: string, w: int, number: int)
    ensures var t := SeedRun(prefix, w, number);
            Deleted(t) == [] && Searches(t) == [] && Created(t) == Names(prefix, 0, Count(number))
  {
    var t := SeedRun(prefix, w, number);
    SeedRunCreates(prefix, w, number);
    SeedStepsNoDeleteOrSearch(prefix, w, Count(number));
    PickNone(t, DeletedThing);
    PickNone(t, SearchOf);
  }

  lemma {:induction false} SeedStepsNoDeleteOrSearch(prefix: string, w: int, n: nat)
    ensures forall e | e in SeedSteps(prefix, w, n) :: e.Create? || e.Log? || e.Barrier?
  {
    if n > 0 {
      SeedStepsNoDeleteOrSearch(prefix, w, n - 1);
    }
  }

  // ---------------------------------------------------------------------------
  // The function's state and its operations

  class Seeder {
    const createThingPerS: int
    const deleteThingPerS: int
    var demoThingPrefix: string
    var number: int

    function State(): SeedState
      reads this
    {
      SeedState(demoThingPrefix, number)
    }

    /** A cold start with DEMO_THING_PREFIX and the configured numbers. */
    constructor(demoThingPrefix: string, number: int, createThingPerS: int, deleteThingPerS: int)
      ensures State() == SeedState(demoThingPrefix, number)
      ensures this.createThingPerS == createThingPerS && this.deleteThingPerS == deleteThingPerS
    {
      this.demoThingPrefix, this.number := demoThingPrefix, number;
      this.createThingPerS, this.deleteThingPerS := createThingPerS, deleteThingPerS;
    }

    method SeedAccountWithThings() returns (trace: seq<Event>)
      ensures trace == SeedRun(demoThingPrefix, createThingPerS, number)
    {
      var promiseCount := 0;
      trace := [];
      var i: nat := 0;
      while i < number
        invariant i <= Count(number)
        invariant trace == SeedSteps(demoThingPrefix, createThingPerS, i) && promiseCount == i
        decreases number - i
      {
        trace := trace + [Create(ThingName(demoThingPrefix, i))];
        promiseCount := promiseCount + 1;
        if IsCreateBarrier(i, createThingPerS) {
          trace := trace + [Log(i), Barrier];
        }
        i := i + 1;
      }
      trace := trace + [Log(promiseCount)];
    }

    method DeleteDemoThings(pages: seq<Page>) returns (trace: seq<Event>, outcome: Outcome<()>)
      ensures Run(trace, outcome) == DeletePass(demoThingPrefix, deleteThingPerS, None, pages, 0, 1)
    {
      ghost var run := DeletePass(demoThingPrefix, deleteThingPerS, None, pages, 0, 1);
      var thingsAvailable := true;
      var prev: Option<string> := None;
      var deleteCount := 1;
      var k := 0;
      trace, outcome := [], Completed;
      assert trace + run.calls == run.calls;
      while thingsAvailable
        invariant k <= |pages|
        invariant thingsAvailable ==> run == Prepend(trace, DeletePass(demoThingPrefix, deleteThingPerS, prev, pages, k, deleteCount))
        invariant !thingsAvailable ==> run == Run(trace, outcome)
        decreases |pages| - k
      {
        var listParams := DeleteParams(demoThingPrefix, deleteThingPerS, prev);
        if k >= |pages| {
          trace, outcome := trace + [Search(listParams)], Failed;
          return;
        }
        var list := pages[k];
        var deletes := [];
        for i := 0 to |list.things|
          invariant deletes == Deletes(list.things[..i])
        {
          assert list.things[..i + 1][..i] == list.things[..i];
          deletes := deletes + [Delete(list.things[i])];
        }
        assert list.things[..|list.things|] == list.things;
        var head := [Search(listParams)] + deletes + [Barrier, Log(deleteCount * deleteThingPerS)];
        if !Truthy(list.nextToken) {
          thingsAvailable := false;
          outcome := Completed;
        } else {
          PrependTwice(trace, head, DeletePass(demoThingPrefix, deleteThingPerS, list.nextToken, pages, k + 1, deleteCount + 1));
        }
        trace := trace + head;
        deleteCount := deleteCount + 1;
        prev := list.nextToken;
        k := k + 1;
      }
    }

    method Handler(event: SeedEvent, pages: seq<Page>) returns (trace: seq<Event>, outcome: Outcome<()>)
      modifies this
      ensures State() == Overridden(old(State()), event)
      ensures Run(trace, outcome) == Invocation(createThingPerS, deleteThingPerS, old(State()), event, pages)
    {
      demoThingPrefix := if Truthy(event.demoThingPrefix) then event.demoThingPrefix.value else demoThingPrefix;
      number := if event.seedConfigNumber.Some? && event.seedConfigNumber.value != 0 then event.seedConfigNumber.value else number;
      if event.mode == Some("delete") {
        trace, outcome := DeleteDemoThings(pages);
      } else if event.mode == Some("seed") {
        trace := SeedAccountWithThings();
        outcome := Completed;
      } else {
        trace, outcome := [], Completed;
      }
    }
  }
}
