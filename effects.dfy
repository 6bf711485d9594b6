/**
 * The environment shared by the three Lambda functions: the remote calls they
 * make, recorded as events of a trace, the payloads they hand to each other,
 * and the search index and list store they read from.
 */
module Effects {

  datatype Option<+T> = None | Some(value: T)

  /** A JavaScript string that may be null or undefined (None): truthy when present and non-empty. */
  predicate Truthy(s: Option<string>) {
    s.Some? && s.value != ""
  }

  /**
   * The nextToken a search request carries after a page whose token was `prev`:
   * the field is set only when `prev` is truthy, and then to that same value.
   */
  function Forwarded(prev: Option<string>): (r: Option<string>)
    ensures r.Some? <==> Truthy(prev)
    ensures r.Some? ==> r == prev
  {
    if Truthy(prev) then prev else None
  }

  /** Parameters of one iot.searchIndex call. */
  datatype SearchParams = SearchParams(queryString: string, maxResults: int, nextToken: Option<string>)

  /** One page of search results: the names of the listed things and the cursor, if any. */
  datatype Page = Page(things: seq<string>, nextToken: Option<string>)

  /** Payload of an invocation of the group-filling function (a fresh one has no startIndex). */
  datatype FillPayload = FillPayload(staticGroupName: string, excludeListFileName: Option<string>, startIndex: Option<nat>)

  /**
   * Payload of an invocation of the job function. A fresh job only sets the first three
   * fields; a continuation sets all of them, and only a resume event's shadow fields are read.
   */
  datatype JobEvent = JobEvent(
    jobName: Option<string>,
    fleetIndexQuery: Option<string>,
    excludeListFileName: Option<string>,
    nextToken: Option<string>,
    shadowKey: string,
    shadowValue: nat)

  /** One remote call (or one counted log line) of an invocation. */
  datatype Event =
    | Add(thing: string, group: string)                       // iot.addThingToThingGroup
    | UpdateShadow(thing: string, key: string, value: nat)    // iotData.updateThingShadow
    | Create(thing: string)                                   // iot.createThing
    | Delete(thing: string)                                   // iot.deleteThing
    | Search(params: SearchParams)                            // iot.searchIndex
    | Barrier                                                 // await Promise.all of the window, with its pacing wait
    | Log(count: int)                                         // a count written to the log
    | GetList(listKey: Option<string>)                         // s3.getObject of a thing list
    | InvokeFill(fillPayload: FillPayload)                    // lambda.invoke of the group-filling function
    | InvokeJob(jobPayload: JobEvent)                         // lambda.invoke of the job function
    | EnableFleetIndexing                                     // enableFleetIndexing, polling included
    | CreateThingGroup(groupName: string)                     // iot.createThingGroup
    | CreateDynamicGroup(queryString: string, dynamicGroupName: string)
    | CreateJob(jobId: string, targetGroup: string)

  /** How an invocation ends: its loop ran out, it handed over to a continuation, or a call threw. */
  datatype Outcome<+P> = Completed | Continued(payload: P) | Failed

  /** The calls an invocation makes, in order, and how it ends. */
  datatype Run<P> = Run(calls: seq<Event>, outcome: Outcome<P>)

  /** Events `t` happen before the run `r`. */
  function Prepend<P>(t: seq<Event>, r: Run<P>): Run<P> {
    Run(t + r.calls, r.outcome)
  }

  /** Prepending twice is prepending the concatenation. */
  lemma PrependTwice<P>(a: seq<Event>, b: seq<Event>, r: Run<P>)
    ensures Prepend(a, Prepend(b, r)) == Prepend(a + b, r)
  {
    assert a + (b + r.calls) == (a + b) + r.calls;
  }

  /**
   * s3.getObject followed by the split on the list delimiter: the store maps object keys
   * to their already split contents; a missing or null key makes the call throw.
   */
  function Fetch(store: map<string, seq<string>>, key: Option<string>): (r: Option<seq<string>>)
    ensures r.Some? <==> key.Some? && key.value in store
    ensures r.Some? ==> r.value == store[key.value]
  {
    if key.Some? && key.value in store then Some(store[key.value]) else None
  }

  /** The first index at or after k whose page has no truthy cursor, or |pages| if there is none. */
  function FirstTokenless(pages: seq<Page>, k: nat): (e: nat)
    requires k <= |pages|
    ensures k <= e <= |pages|
    ensures forall j | k <= j < e :: Truthy(pages[j].nextToken)
    ensures e < |pages| ==> !Truthy(pages[e].nextToken)
    decreases |pages| - k
  {
    if k == |pages| || !Truthy(pages[k].nextToken) then k else FirstTokenless(pages, k + 1)
  }

  /**
   * One past the last page a cursor loop started at page k processes, when nothing stops it
   * earlier: the first page without a cursor, or all of them.
   */
  function LastPageEnd(pages: seq<Page>, k: nat): (n: nat)
    requires k <= |pages|
    ensures k <= n <= |pages|
  {
    var e := FirstTokenless(pages, k);
    if e < |pages| then e + 1 else |pages|
  }

  /** A page with a cursor hands the end over to the next page; one without is the last page. */
  lemma LastPageEndStep(pages: seq<Page>, k: nat)
    requires k < |pages|
    ensures LastPageEnd(pages, k) == if Truthy(pages[k].nextToken) then LastPageEnd(pages, k + 1) else k + 1
  {
  }

  /** The things of the pages, page after page. */
  function ThingsOf(pages: seq<Page>): seq<string> {
    if pages == [] then [] else pages[0].things + ThingsOf(pages[1..])
  }

  // ---------------------------------------------------------------------------
  // Decimal rendering of a number, as JavaScript's `"" + n` does for a natural n

  function Digit(d: nat): (c: char)
    requires d < 10
    ensures '0' <= c <= '9' && c as int - '0' as int == d
  {
    (48 + d) as char
  }

  function Decimal(n: nat): (s: string)
    ensures 1 <= |s|
    ensures n >= 10 <==> |s| >= 2
    decreases n
  {
    if n < 10 then [Digit(n)] else Decimal(n / 10) + [Digit(n % 10)]
  }

  /** Different numbers have different renderings. */
  lemma {:induction false} DecimalInjective(a: nat, b: nat)
    ensures Decimal(a) == Decimal(b) ==> a == b
    decreases a
  {
    if Decimal(a) == Decimal(b) && a >= 10 && b >= 10 {
      var sa, sb := Decimal(a), Decimal(b);
      assert sa[..|sa| - 1] == Decimal(a / 10);
      assert sb[..|sb| - 1] == Decimal(b / 10);
      DecimalInjective(a / 10, b / 10);
      assert Digit(a % 10) == sa[|sa| - 1] == Digit(b % 10);
    }
  }

  // ---------------------------------------------------------------------------
  // Euclidean remainder, as JavaScript's `%` computes it on non-negative operands

  /** A remainder is determined by any quotient-remainder decomposition. */
  lemma ModUnique(x: int, w: int, q: int, r: int)
    requires w > 0 && 0 <= r < w && x == w * q + r
    ensures x % w == r
  {
    var q', r' := x / w, x % w;
    assert x == w * q' + r';
    assert w * (q - q') == r' - r;
    if q > q' {
      MulAtLeast(w, q - q');
    } else if q < q' {
      assert w * (q' - q) == r - r';
      MulAtLeast(w, q' - q);
    }
  }

  lemma MulAtLeast(w: int, d: int)
    requires w > 0 && d >= 1
    ensures w * d >= w
  {
  }

  // ---------------------------------------------------------------------------
  // Projections of a trace

  /** The values `f` picks out of the events of `t`, in trace order. */
  function Pick<X>(t: seq<Event>, f: Event -> Option<X>): (r: seq<X>)
    ensures |r| <= |t|
  {
    if t == [] then [] else (if f(t[0]).Some? then [f(t[0]).value] else []) + Pick(t[1..], f)
  }

  lemma {:induction false} PickAppend<X>(a: seq<Event>, b: seq<Event>, f: Event -> Option<X>)
    ensures Pick(a + b, f) == Pick(a, f) + Pick(b, f)
  {
    if a == [] {
      assert a + b == b;
    } else {
      var ab := a + b;
      assert ab[0] == a[0];
      assert ab[1..] == a[1..] + b;
      PickAppend(a[1..], b, f);
      var h := if f(a[0]).Some? then [f(a[0]).value] else [];
      calc {
        Pick(ab, f);
        h + Pick(a[1..] + b, f);
        h + (Pick(a[1..], f) + Pick(b, f));
        (h + Pick(a[1..], f)) + Pick(b, f);
      }
    }
  }

  lemma PickSingle<X>(e: Event, f: Event -> Option<X>)
    ensures Pick([e], f) == if f(e).Some? then [f(e).value] else []
  {
    assert [e][1..] == [];
  }

  lemma PickConcat3<X>(a: seq<Event>, b: seq<Event>, c: seq<Event>, f: Event -> Option<X>)
    ensures Pick(a + b + c, f) == Pick(a, f) + Pick(b, f) + Pick(c, f)
  {
    PickAppend(a, b, f);
    PickAppend(a + b, c, f);
  }

  /** The wait for a window and the log after it: a barrier and one logged count, nothing else. */
  lemma WaitAndLog(count: int)
    ensures Logged([Barrier, Log(count)]) == [count] && |Barriers([Barrier, Log(count)])| == 1
    ensures Added([Barrier, Log(count)]) == [] && Updated([Barrier, Log(count)]) == []
    ensures Created([Barrier, Log(count)]) == [] && Deleted([Barrier, Log(count)]) == []
    ensures Searches([Barrier, Log(count)]) == []
  {
    PickPair(Barrier, Log(count), LoggedCount);
    PickPair(Barrier, Log(count), BarrierOf);
    PickPair(Barrier, Log(count), AddedThing);
    PickPair(Barrier, Log(count), UpdatedThing);
    PickPair(Barrier, Log(count), CreatedThing);
    PickPair(Barrier, Log(count), DeletedThing);
    PickPair(Barrier, Log(count), SearchOf);
  }

  /** What `f` picks from a three-event trace. */
  lemma PickTriple<X>(x: Event, y: Event, z: Event, f: Event -> Option<X>)
    ensures Pick([x, y, z], f)
         == (if f(x).Some? then [f(x).value] else []) + (if f(y).Some? then [f(y).value] else [])
            + (if f(z).Some? then [f(z).value] else [])
  {
    assert [x, y, z] == [x] + [y, z];
    PickAppend([x], [y, z], f);
    PickSingle(x, f);
    PickPair(y, z, f);
  }

  /** What `f` picks from a two-event trace. */
  lemma PickPair<X>(x: Event, y: Event, f: Event -> Option<X>)
    ensures Pick([x, y], f) == (if f(x).Some? then [f(x).value] else []) + (if f(y).Some? then [f(y).value] else [])
  {
    assert [x, y] == [x] + [y];
    PickAppend([x], [y], f);
    PickSingle(x, f);
    PickSingle(y, f);
  }

  /** Events that `f` does not pick contribute nothing. */
  lemma {:induction false} PickNone<X>(t: seq<Event>, f: Event -> Option<X>)
    requires forall e | e in t :: f(e).None?
    ensures Pick(t, f) == []
  {
    if t != [] {
      assert forall e | e in t[1..] :: e in t;
      PickNone(t[1..], f);
    }
  }

  function AddedThing(e: Event): Option<string> { if e.Add? then Some(e.thing) else None }
  function UpdatedThing(e: Event): Option<string> { if e.UpdateShadow? then Some(e.thing) else None }
  function CreatedThing(e: Event): Option<string> { if e.Create? then Some(e.thing) else None }
  function DeletedThing(e: Event): Option<string> { if e.Delete? then Some(e.thing) else None }
  function SearchOf(e: Event): Option<SearchParams> { if e.Search? then Some(e.params) else None }
  function LoggedCount(e: Event): Option<int> { if e.Log? then Some(e.count) else None }
  function BarrierOf(e: Event): Option<()> { if e.Barrier? then Some(()) else None }

  /** Things added to a group, in call order. */
  function Added(t: seq<Event>): seq<string> { Pick(t, AddedThing) }
  /** Things whose shadow is updated, in call order. */
  function Updated(t: seq<Event>): seq<string> { Pick(t, UpdatedThing) }
  function Created(t: seq<Event>): seq<string> { Pick(t, CreatedThing) }
  function Deleted(t: seq<Event>): seq<string> { Pick(t, DeletedThing) }
  /** The parameters of the search calls, in call order. */
  function Searches(t: seq<Event>): seq<SearchParams> { Pick(t, SearchOf) }
  function Logged(t: seq<Event>): seq<int> { Pick(t, LoggedCount) }
  function Barriers(t: seq<Event>): seq<()> { Pick(t, BarrierOf) }
}
