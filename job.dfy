/**
 * The job function: on a fresh event it enables fleet indexing, creates the exclude group
 * (filled by the group-filling function), a dynamic thing group and a continuous job on it;
 * then, fresh or resumed, it pages through the fleet index and tags every listed thing's
 * shadow with a marker the dynamic group matches, handing the cursor to a fresh invocation
 * of itself once its iteration budget is spent.
 */
module Job {
  import opened Effects
  import FillStaticThingGroup

  /**
   * The environment of the function: SHADOW_UPDATE_KEY, MAXIMUM_IOT_SEARCH_LIST_SIZE,
   * MAXIMUM_IOT_SEARCH_ITERATIONS, DEFAULT_JOB_NAME and DEFAULT_FLEET_INDEX_QUERY.
   */
  datatype JobConfig = JobConfig(
    shadowUpdateKey: string,
    maxIoTSearchListSize: int,
    maxIoTSearchIterations: int,
    defaultJobName: string,
    defaultFleetIndexQuery: string)

  /** The reported shadow key/value pair that marks a thing as a job target. */
  datatype Shadow = Shadow(key: string, value: nat)

  /** The module-level variables of the function, as one value. */
  datatype Globals = Globals(
    jobName: string,
    fleetIndexQuery: string,
    excludeListFileName: Option<string>,
    excludeThingArray: Option<seq<string>>,
    shadow: Shadow)

  /** The variables when the container loads: names unset, the marker value read from the clock. */
  function ColdStart(cfg: JobConfig, loadTime: nat): Globals {
    Globals("", "", None, None, Shadow(cfg.shadowUpdateKey, loadTime))
  }

  /** `input ? input : fallback` for a string input. */
  function OrDefault(input: Option<string>, fallback: string): string {
    if Truthy(input) then input.value else fallback
  }

  /** What initGlobals can leave in the name variables: a truthy value, or the configured default. */
  predicate WellFormed(cfg: JobConfig, g: Globals) {
    && (g.jobName != "" || cfg.defaultJobName == "")
    && (g.fleetIndexQuery != "" || cfg.defaultFleetIndexQuery == "")
    && (g.excludeListFileName.None? || Truthy(g.excludeListFileName))
  }

  /** An exclude list is set only together with its loaded contents. */
  predicate ExclusionLoaded(g: Globals) {
    Truthy(g.excludeListFileName) ==> g.excludeThingArray.Some?
  }

  /**
   * initGlobals: each falsy input falls back to its default (null for the exclude list),
   * the loaded exclude list is dropped, and the shadow marker is left as it was.
   */
  function Initialised(cfg: JobConfig, g: Globals, event: JobEvent): (r: Globals)
    ensures WellFormed(cfg, r)
    ensures Truthy(event.jobName) ==> r.jobName == event.jobName.value
    ensures !Truthy(event.jobName) ==> r.jobName == cfg.defaultJobName
    ensures Truthy(event.fleetIndexQuery) ==> r.fleetIndexQuery == event.fleetIndexQuery.value
    ensures !Truthy(event.fleetIndexQuery) ==> r.fleetIndexQuery == cfg.defaultFleetIndexQuery
    ensures r.excludeListFileName.Some? <==> Truthy(event.excludeListFileName)
    ensures r.excludeListFileName.Some? ==> r.excludeListFileName == event.excludeListFileName
    ensures r.excludeThingArray.None? && r.shadow == g.shadow
  {
    Globals(OrDefault(event.jobName, cfg.defaultJobName),
            OrDefault(event.fleetIndexQuery, cfg.defaultFleetIndexQuery),
            Forwarded(event.excludeListFileName),
            None,
            g.shadow)
  }

  // ---------------------------------------------------------------------------
  // Query strings and call parameters

  /** The static group createStaticGroup creates for the exclude list. */
  function ExcludeGroupName(jobName: string): (n: string)
    ensures |n| == |jobName| + 8 && n[..|jobName|] == jobName && n[|jobName|..] == "-exclude"
  {
    jobName + "-exclude"
  }

  /** The exclusion clause appended to a query when an exclude list is set. */
  function ExclusionClause(jobName: string): string {
    " AND NOT thingGroupNames:" + ExcludeGroupName(jobName)
  }

  /** `(query) AND NOT thingGroupNames:<jobName>-exclude` */
  function Excluding(query: string, jobName: string): (q: string)
    ensures |q| == |query| + 2 + |ExclusionClause(jobName)|
    ensures q[0] == '(' && q[1..|query| + 1] == query && q[|query| + 1] == ')'
    ensures q[|query| + 2..] == ExclusionClause(jobName)
  {
    "(" + query + ")" + ExclusionClause(jobName)
  }

  /** The fleet index query of the search calls. */
  function SearchQuery(g: Globals): (q: string)
    ensures !Truthy(g.excludeListFileName) ==> q == g.fleetIndexQuery
    ensures Truthy(g.excludeListFileName) ==> q == Excluding(g.fleetIndexQuery, g.jobName)
  {
    if Truthy(g.excludeListFileName) then Excluding(g.fleetIndexQuery, g.jobName) else g.fleetIndexQuery
  }

  /**
   * getSearchIndexParams after a result whose cursor was `prev`: the query, a page of
   * maxIoTSearchListSize, and the cursor exactly when it is truthy.
   */
  function SearchIndexParams(cfg: JobConfig, g: Globals, prev: Option<string>): (p: SearchParams)
    ensures p.queryString == SearchQuery(g)
    ensures p.maxResults == cfg.maxIoTSearchListSize
    ensures p.nextToken.Some? <==> Truthy(prev)
    ensures p.nextToken.Some? ==> p.nextToken == prev
  {
    SearchParams(SearchQuery(g), cfg.maxIoTSearchListSize, Forwarded(prev))
  }

  /** `shadow.reported.<key>:<value> OR <fleetIndexQuery>` */
  function MarkerOrQuery(g: Globals): (q: string)
    ensures |q| > |g.fleetIndexQuery| + 4 && q[|q| - |g.fleetIndexQuery| - 4..] == " OR " + g.fleetIndexQuery
    ensures |q| >= 16 && q[..16] == "shadow.reported."
  {
    "shadow.reported." + g.shadow.key + ":" + Decimal(g.shadow.value) + " OR " + g.fleetIndexQuery
  }

  /** The query of the dynamic thing group createDynamicGroup creates. */
  function DynamicGroupQuery(g: Globals): (q: string)
    ensures !Truthy(g.excludeListFileName) ==> q == MarkerOrQuery(g)
    ensures Truthy(g.excludeListFileName) ==> q == Excluding(MarkerOrQuery(g), g.jobName)
  {
    if Truthy(g.excludeListFileName) then Excluding(MarkerOrQuery(g), g.jobName) else MarkerOrQuery(g)
  }

  /** getLambdaInvokeParams: the payload of a continuation with cursor `token`. */
  function ContinuationPayload(g: Globals, token: string): (p: JobEvent)
    ensures Truthy(p.nextToken) <==> token != ""
    ensures Truthy(p.jobName) <==> g.jobName != ""
    ensures Truthy(p.fleetIndexQuery) <==> g.fleetIndexQuery != ""
    ensures Truthy(p.excludeListFileName) <==> Truthy(g.excludeListFileName)
  {
    JobEvent(Some(g.jobName), Some(g.fleetIndexQuery), g.excludeListFileName, Some(token), g.shadow.key, g.shadow.value)
  }

  // ---------------------------------------------------------------------------
  // One page of search results

  /** `excludeListFileName && excludeThingArray.includes(thing)` */
  predicate Excluded(g: Globals, thing: string) {
    Truthy(g.excludeListFileName) && g.excludeThingArray.Some? && thing in g.excludeThingArray.value
  }

  /** The listed things that are not excluded, in listing order. */
  function Tagged(g: Globals, things: seq<string>): (r: seq<string>)
    ensures |r| <= |things|
  {
    if things == [] then []
    else
      var last := things[|things| - 1];
      Tagged(g, things[..|things| - 1]) + (if Excluded(g, last) then [] else [last])
  }

  /** getUpdateShadowParams for each name, in order. */
  function ShadowUpdates(s: Shadow, names: seq<string>): (r: seq<Event>)
    ensures |r| == |names|
  {
    if names == [] then []
    else ShadowUpdates(s, names[..|names| - 1]) + [UpdateShadow(names[|names| - 1], s.key, s.value)]
  }

  /** The calls of updateShadowsFromThingArray for one page: updates, the wait for all, the log. */
  function PageEvents(cfg: JobConfig, g: Globals, things: seq<string>, updateCount: int): (t: seq<Event>)
  {
    ShadowUpdates(g.shadow, Tagged(g, things)) + [Barrier, Log(updateCount * cfg.maxIoTSearchListSize)]
  }

  // ---------------------------------------------------------------------------
  // The cursor loop

  /** The calls that provision the job rather than tag shadows. */
  predicate Provisioning(e: Event) {
    e.EnableFleetIndexing? || e.CreateThingGroup? || e.InvokeFill? || e.CreateDynamicGroup? || e.CreateJob?
  }

  /**
   * A call the loop may make with counter `updateCount`: it does not provision, a shadow
   * update writes the marker to a thing that is not excluded, and a log reports
   * updateCount * maxIoTSearchListSize.
   */
  predicate TaggingCall(cfg: JobConfig, g: Globals, updateCount: int, e: Event) {
    && (e.Search? || e.UpdateShadow? || e.Barrier? || e.Log? || e.InvokeJob?)
    && (e.UpdateShadow? ==> e.key == g.shadow.key && e.value == g.shadow.value && !Excluded(g, e.thing))
    && (e.Log? ==> e.count == updateCount * cfg.maxIoTSearchListSize)
  }

  /**
   * The loop of updateShadows from its k-th search call on, the previous result's cursor
   * being `prev`; page k of `pages` answers the k-th search, and a search beyond the last
   * page throws.
   */
  function ShadowPass(cfg: JobConfig, g: Globals, prev: Option<string>, pages: seq<Page>, k: nat, updateCount: int)
    : (r: Run<JobEvent>)
    ensures r.calls != [] && r.calls[0] == Search(SearchIndexParams(cfg, g, prev))
    ensures r.outcome.Continued? ==>
      && r.outcome.payload.nextToken.Some? && r.outcome.payload.nextToken.value != ""
      && r.outcome.payload == ContinuationPayload(g, r.outcome.payload.nextToken.value)
    decreases |pages| - k
  {
    var search := Search(SearchIndexParams(cfg, g, prev));
    if k >= |pages| then Run([search], Failed)
    else
      var page := pages[k];
      // updateShadowsFromThingArray returns `updateCount++`: the count before the increment
      var count := updateCount;
      var head := [search] + PageEvents(cfg, g, page.things, updateCount);
      if !Truthy(page.nextToken) then Run(head, Completed)
      else if count > cfg.maxIoTSearchIterations then
        var payload := ContinuationPayload(g, page.nextToken.value);
        Run(head + [InvokeJob(payload)], Continued(payload))
      else Prepend(head, ShadowPass(cfg, g, page.nextToken, pages, k + 1, count))
  }

  /** The things the pages list that get tagged, page after page. */
  function TaggedPages(g: Globals, ps: seq<Page>): seq<string> {
    if ps == [] then [] else Tagged(g, ps[0].things) + TaggedPages(g, ps[1..])
  }

  lemma TaggedSnoc(g: Globals, things: seq<string>, x: string)
    ensures Tagged(g, things + [x]) == Tagged(g, things) + (if Excluded(g, x) then [] else [x])
  {
    assert (things + [x])[..|things|] == things;
  }

  /** Looking at one more listed thing adds its update exactly when it is not excluded. */
  lemma TagStep(g: Globals, things: seq<string>, i: nat)
    requires i < |things|
    ensures ShadowUpdates(g.shadow, Tagged(g, things[..i + 1]))
         == ShadowUpdates(g.shadow, Tagged(g, things[..i]))
            + (if Excluded(g, things[i]) then [] else [UpdateShadow(things[i], g.shadow.key, g.shadow.value)])
  {
    assert things[..i + 1] == things[..i] + [things[i]];
    TaggedSnoc(g, things[..i], things[i]);
    if !Excluded(g, things[i]) {
      ShadowUpdatesSnoc(g.shadow, Tagged(g, things[..i]), things[i]);
    } else {
      var t := Tagged(g, things[..i]);
      assert t + [] == t;
      assert ShadowUpdates(g.shadow, t) + [] == ShadowUpdates(g.shadow, t);
    }
  }

  lemma ShadowUpdatesSnoc(s: Shadow, names: seq<string>, x: string)
    ensures ShadowUpdates(s, names + [x]) == ShadowUpdates(s, names) + [UpdateShadow(x, s.key, s.value)]
  {
    assert (names + [x])[..|names|] == names;
  }

  /** A listed thing is tagged exactly when it is not excluded. */
  lemma {:induction false} TaggedMembers(g: Globals, things: seq<string>)
    ensures forall x :: x in Tagged(g, things) <==> x in things && !Excluded(g, x)
  {
    if things != [] {
      var init, last := things[..|things| - 1], things[|things| - 1];
      assert things == init + [last];
      TaggedMembers(g, init);
    }
  }

  /** Without an exclude list every listed thing is tagged, in listing order. */
  lemma {:induction false} TaggedWithoutExclusion(g: Globals, things: seq<string>)
    requires !Truthy(g.excludeListFileName)
    ensures Tagged(g, things) == things
  {
    if things != [] {
      var init := things[..|things| - 1];
      TaggedWithoutExclusion(g, init);
      assert things == init + [things[|things| - 1]];
    }
  }

  /** The shadow updates name the given things in order, and all of them write the marker `s`. */
  lemma {:induction false} ShadowUpdatesTagThings(s: Shadow, names: seq<string>)
    ensures Updated(ShadowUpdates(s, names)) == names
    ensures forall e | e in ShadowUpdates(s, names) :: e.UpdateShadow? && e.key == s.key && e.value == s.value
  {
    if names != [] {
      var init, last := names[..|names| - 1], names[|names| - 1];
      ShadowUpdatesTagThings(s, init);
      PickAppend(ShadowUpdates(s, init), [UpdateShadow(last, s.key, s.value)], UpdatedThing);
      PickSingle(UpdateShadow(last, s.key, s.value), UpdatedThing);
      assert names == init + [last];
    }
  }

  /**
   * One page: one shadow update per tagged thing, each writing the marker, then, as the last
   * two calls, the single wait for those updates and a log of updateCount *
   * maxIoTSearchListSize; no search and no provisioning.
   */
  lemma PageEventsShape(cfg: JobConfig, g: Globals, things: seq<string>, updateCount: int)
    ensures var t := PageEvents(cfg, g, things, updateCount);
            && Updated(t) == Tagged(g, things)
            && Searches(t) == []
            && Logged(t) == [updateCount * cfg.maxIoTSearchListSize]
            && |Barriers(t)| == 1
            && |t| >= 2 && t[|t| - 2..] == [Barrier, Log(updateCount * cfg.maxIoTSearchListSize)]
            && (forall j | 0 <= j < |t| - 2 :: t[j].UpdateShadow?)
            && (forall e | e in t :: e.UpdateShadow? || e.Barrier? || e.Log?)
            && forall e | e in t :: TaggingCall(cfg, g, updateCount, e)
  {
    var names := Tagged(g, things);
    var updates := ShadowUpdates(g.shadow, names);
    var count := updateCount * cfg.maxIoTSearchListSize;
    ShadowUpdatesTagThings(g.shadow, names);
    WaitAndLog(count);
    PageUpdated(updates, names, count);
    PageQuiet(updates, count);
    PageCalls(cfg, g, things, updateCount);
    PickNone(updates, BarrierOf);
    PickAppend(updates, [Barrier, Log(count)], BarrierOf);
  }

  lemma PageCalls(cfg: JobConfig, g: Globals, things: seq<string>, updateCount: int)
    ensures forall e | e in PageEvents(cfg, g, things, updateCount) :: (e.UpdateShadow? || e.Barrier? || e.Log?) && TaggingCall(cfg, g, updateCount, e)
  {
    var names := Tagged(g, things);
    var updates := ShadowUpdates(g.shadow, names);
    ShadowUpdatesTagThings(g.shadow, names);
    ShadowUpdatesNames(g.shadow, names);
    TaggedMembers(g, things);
    assert PageEvents(cfg, g, things, updateCount) == updates + [Barrier, Log(updateCount * cfg.maxIoTSearchListSize)];
  }

  /** The things a page's calls update: those of its shadow updates. */
  lemma PageUpdated(updates: seq<Event>, names: seq<string>, count: int)
    requires Updated(updates) == names && Updated([Barrier, Log(count)]) == []
    ensures Updated(updates + [Barrier, Log(count)]) == names
  {
    PickAppend(updates, [Barrier, Log(count)], UpdatedThing);
  }

  /** Shadow updates neither search nor log: a page's only log is the one after its wait. */
  lemma PageQuiet(updates: seq<Event>, count: int)
    requires forall e | e in updates :: e.UpdateShadow?
    requires Searches([Barrier, Log(count)]) == [] && Logged([Barrier, Log(count)]) == [count]
    ensures Searches(updates + [Barrier, Log(count)]) == []
    ensures Logged(updates + [Barrier, Log(count)]) == [count]
  {
    PickNone(updates, SearchOf);
    PickNone(updates, LoggedCount);
    PickAppend(updates, [Barrier, Log(count)], SearchOf);
    PickAppend(updates, [Barrier, Log(count)], LoggedCount);
  }

  lemma {:induction false} ShadowUpdatesNames(s: Shadow, names: seq<string>)
    ensures forall e | e in ShadowUpdates(s, names) :: e.UpdateShadow? && e.thing in names
  {
    if names != [] {
      var init := names[..|names| - 1];
      ShadowUpdatesNames(s, init);
      assert forall x | x in init :: x in names;
    }
  }

  // ---------------------------------------------------------------------------
  // What the cursor loop does

  /** Unfolds one iteration: the search and the page's calls come first. */
  lemma ShadowPassStep(cfg: JobConfig, g: Globals, prev: Option<string>, pages: seq<Page>, k: nat, updateCount: int)
    requires k < |pages| && Truthy(pages[k].nextToken) && !(updateCount > cfg.maxIoTSearchIterations)
    ensures ShadowPass(cfg, g, prev, pages, k, updateCount)
         == Prepend([Search(SearchIndexParams(cfg, g, prev))] + PageEvents(cfg, g, pages[k].things, updateCount),
                    ShadowPass(cfg, g, pages[k].nextToken, pages, k + 1, updateCount))
  {
  }

  /**
   * The loop ends on the first page without a cursor, unless the counter exceeds the
   * iteration budget at a page with one, where it hands over; running out of pages throws.
   */
  lemma {:induction false} ShadowPassOutcome(cfg: JobConfig, g: Globals, prev: Option<string>, pages: seq<Page>, k: nat, updateCount: int)
    requires k <= |pages|
    ensures var r := ShadowPass(cfg, g, prev, pages, k, updateCount);
            var handsOver := updateCount > cfg.maxIoTSearchIterations && k < |pages| && Truthy(pages[k].nextToken);
            && (r.outcome.Continued? <==> handsOver)
            && (r.outcome.Continued? ==> r.outcome.payload == ContinuationPayload(g, pages[k].nextToken.value))
            && (r.outcome.Failed? <==> !handsOver && FirstTokenless(pages, k) == |pages|)
    decreases |pages| - k
  {
    if k < |pages| && Truthy(pages[k].nextToken) && !(updateCount > cfg.maxIoTSearchIterations) {
      ShadowPassStep(cfg, g, prev, pages, k, updateCount);
      ShadowPassOutcome(cfg, g, pages[k].nextToken, pages, k + 1, updateCount);
    }
  }

  /** The number of pages the loop from page k processes: one past the budget, all up to the first without a cursor within it. */
  function PagesProcessed(cfg: JobConfig, pages: seq<Page>, k: nat, updateCount: int): nat
    requires k <= |pages|
  {
    if updateCount > cfg.maxIoTSearchIterations then (if k < |pages| then 1 else 0) else LastPageEnd(pages, k) - k
  }

  /** `t` waits once and logs once per page, n pages in all. */
  predicate OncePerPage(t: seq<Event>, n: nat) {
    |Barriers(t)| == n && |Logged(t)| == n
  }

  /** A search and a page's calls in front of `tail` add one wait and one log. */
  lemma PageWaitsOnce(cfg: JobConfig, g: Globals, prev: Option<string>, things: seq<string>, updateCount: int, tail: seq<Event>, n: nat)
    requires OncePerPage(tail, n)
    ensures OncePerPage([Search(SearchIndexParams(cfg, g, prev))] + PageEvents(cfg, g, things, updateCount) + tail, n + 1)
  {
    var search := Search(SearchIndexParams(cfg, g, prev));
    var page := PageEvents(cfg, g, things, updateCount);
    PageEventsShape(cfg, g, things, updateCount);
    HeadPick(search, page, tail, BarrierOf);
    HeadPick(search, page, tail, LoggedCount);
  }

  /** The loop waits for its updates and logs exactly once per page it processes. */
  lemma {:induction false} ShadowPassWaits(cfg: JobConfig, g: Globals, prev: Option<string>, pages: seq<Page>, k: nat, updateCount: int)
    requires k <= |pages|
    ensures OncePerPage(ShadowPass(cfg, g, prev, pages, k, updateCount).calls, PagesProcessed(cfg, pages, k, updateCount))
    decreases |pages| - k
  {
    var search := Search(SearchIndexParams(cfg, g, prev));
    if k == |pages| {
      PickSingle(search, BarrierOf);
      PickSingle(search, LoggedCount);
    } else {
      var things := pages[k].things;
      var head := [search] + PageEvents(cfg, g, things, updateCount);
      LastPageEndStep(pages, k);
      if !Truthy(pages[k].nextToken) {
        PickNone([], BarrierOf);
        PickNone([], LoggedCount);
        PageWaitsOnce(cfg, g, prev, things, updateCount, [], 0);
        assert head + [] == head;
      } else if updateCount > cfg.maxIoTSearchIterations {
        var invoke := InvokeJob(ContinuationPayload(g, pages[k].nextToken.value));
        PickSingle(invoke, BarrierOf);
        PickSingle(invoke, LoggedCount);
        PageWaitsOnce(cfg, g, prev, things, updateCount, [invoke], 0);
      } else {
        var rest := ShadowPass(cfg, g, pages[k].nextToken, pages, k + 1, updateCount);
        ShadowPassStep(cfg, g, prev, pages, k, updateCount);
        ShadowPassWaits(cfg, g, pages[k].nextToken, pages, k + 1, updateCount);
        PageWaitsOnce(cfg, g, prev, things, updateCount, rest.calls, PagesProcessed(cfg, pages, k + 1, updateCount));
      }
    }
  }

  /**
   * Every call of the loop is a search, a shadow update writing the marker to a thing that
   * is not excluded, a wait, a log of updateCount * maxIoTSearchListSize, or, as the very
   * last call, the continuation; it never provisions.
   */
  lemma ShadowPassCalls(cfg: JobConfig, g: Globals, prev: Option<string>, pages: seq<Page>, k: nat, updateCount: int)
    ensures var r := ShadowPass(cfg, g, prev, pages, k, updateCount);
            && (forall e | e in r.calls :: TaggingCall(cfg, g, updateCount, e))
            && (r.outcome.Continued? ==> r.calls[|r.calls| - 1] == InvokeJob(r.outcome.payload))
            && (forall j | 0 <= j < |r.calls| && r.calls[j].InvokeJob? :: r.outcome.Continued? && j == |r.calls| - 1)
  {
    var r := ShadowPass(cfg, g, prev, pages, k, updateCount);
    ShadowPassCallKinds(cfg, g, prev, pages, k, updateCount);
    ShadowPassInvokesLast(cfg, g, prev, pages, k, updateCount);
    assert forall j | 0 <= j < |r.calls| - 1 :: r.calls[j] in r.calls[..|r.calls| - 1];
  }

  lemma {:induction false} ShadowPassCallKinds(cfg: JobConfig, g: Globals, prev: Option<string>, pages: seq<Page>, k: nat, updateCount: int)
    ensures forall e | e in ShadowPass(cfg, g, prev, pages, k, updateCount).calls :: TaggingCall(cfg, g, updateCount, e)
    decreases |pages| - k
  {
    if k < |pages| {
      PageCalls(cfg, g, pages[k].things, updateCount);
      if Truthy(pages[k].nextToken) && !(updateCount > cfg.maxIoTSearchIterations) {
        ShadowPassCallKinds(cfg, g, pages[k].nextToken, pages, k + 1, updateCount);
      }
    }
  }

  lemma {:induction false} ShadowPassInvokesLast(cfg: JobConfig, g: Globals, prev: Option<string>, pages: seq<Page>, k: nat, updateCount: int)
    ensures var r := ShadowPass(cfg, g, prev, pages, k, updateCount);
            InvokesLast(r.calls, r.outcome)
    decreases |pages| - k
  {
    if k < |pages| {
      var head := [Search(SearchIndexParams(cfg, g, prev))] + PageEvents(cfg, g, pages[k].things, updateCount);
      PageCalls(cfg, g, pages[k].things, updateCount);
      assert NoInvokeJob(head);
      if Truthy(pages[k].nextToken) && !(updateCount > cfg.maxIoTSearchIterations) {
        var rest := ShadowPass(cfg, g, pages[k].nextToken, pages, k + 1, updateCount);
        ShadowPassInvokesLast(cfg, g, pages[k].nextToken, pages, k + 1, updateCount);
        InvokesLastAppend(head, rest.calls, rest.outcome);
      } else if Truthy(pages[k].nextToken) {
        var payload := ContinuationPayload(g, pages[k].nextToken.value);
        assert (head + [InvokeJob(payload)])[..|head|] == head;
      }
    }
  }

  /** `t` invokes the job function only as its last call, and does so exactly when the run hands over. */
  predicate InvokesLast(t: seq<Event>, o: Outcome<JobEvent>) {
    if o.Continued? then |t| >= 1 && t[|t| - 1] == InvokeJob(o.payload) && NoInvokeJob(t[..|t| - 1])
    else NoInvokeJob(t)
  }

  lemma InvokesLastAppend(h: seq<Event>, t: seq<Event>, o: Outcome<JobEvent>)
    requires NoInvokeJob(h) && InvokesLast(t, o)
    ensures InvokesLast(h + t, o)
  {
    if o.Continued? {
      assert (h + t)[..|h + t| - 1] == h + t[..|t| - 1];
    }
  }

  /** No call of `t` invokes the job function. */
  predicate NoInvokeJob(t: seq<Event>) {
    forall e | e in t :: !e.InvokeJob?
  }

  /** What one iteration's search and page contribute to the projections of a run. */
  lemma HeadProjections(cfg: JobConfig, g: Globals, prev: Option<string>, things: seq<string>, updateCount: int, tail: seq<Event>)
    ensures var t := [Search(SearchIndexParams(cfg, g, prev))] + PageEvents(cfg, g, things, updateCount) + tail;
            && Updated(t) == Tagged(g, things) + Updated(tail)
            && Searches(t) == [SearchIndexParams(cfg, g, prev)] + Searches(tail)
  {
    var search := Search(SearchIndexParams(cfg, g, prev));
    var page := PageEvents(cfg, g, things, updateCount);
    PageEventsShape(cfg, g, things, updateCount);
    HeadPick(search, page, tail, UpdatedThing);
    HeadPick(search, page, tail, SearchOf);
  }

  lemma HeadPick<X>(search: Event, page: seq<Event>, tail: seq<Event>, f: Event -> Option<X>)
    ensures Pick([search] + page + tail, f) == (if f(search).Some? then [f(search).value] else []) + Pick(page, f) + Pick(tail, f)
  {
    PickSingle(search, f);
    PickConcat3([search], page, tail, f);
  }

  /**
   * `s` is the sequence of searches of a cursor loop that starts at page k after cursor
   * `prev`: the first forwards `prev` if truthy, each later one forwards the cursor of the
   * page just processed, which was truthy; so pages are requested in order, each once.
   */
  predicate PagedSearches(cfg: JobConfig, g: Globals, prev: Option<string>, pages: seq<Page>, k: nat, s: seq<SearchParams>) {
    && 1 <= |s| && k + |s| <= |pages| + 1
    && s[0] == SearchIndexParams(cfg, g, prev)
    && (forall j | 1 <= j < |s| :: s[j] == SearchIndexParams(cfg, g, pages[k + j - 1].nextToken))
    && (forall i | k <= i < k + |s| - 1 :: Truthy(pages[i].nextToken))
  }

  /** The searches of the loop are paged searches from page k. */
  lemma {:induction false} ShadowPassSearches(cfg: JobConfig, g: Globals, prev: Option<string>, pages: seq<Page>, k: nat, updateCount: int)
    requires k <= |pages|
    ensures PagedSearches(cfg, g, prev, pages, k, Searches(ShadowPass(cfg, g, prev, pages, k, updateCount).calls))
    decreases |pages| - k
  {
    if k < |pages| && Truthy(pages[k].nextToken) && !(updateCount > cfg.maxIoTSearchIterations) {
      var rest := ShadowPass(cfg, g, pages[k].nextToken, pages, k + 1, updateCount);
      ShadowPassSearches(cfg, g, pages[k].nextToken, pages, k + 1, updateCount);
      LoopSearchesStep(cfg, g, prev, pages, k, updateCount);
      SearchesCons(cfg, g, prev, pages, k, Searches(rest.calls));
    } else {
      LoopSearchesStop(cfg, g, prev, pages, k, updateCount);
    }
  }

  /** The search sequence of an iteration that goes on, from that of the rest of the loop. */
  lemma SearchesCons(cfg: JobConfig, g: Globals, prev: Option<string>, pages: seq<Page>, k: nat, s': seq<SearchParams>)
    requires k < |pages| && Truthy(pages[k].nextToken)
    requires PagedSearches(cfg, g, pages[k].nextToken, pages, k + 1, s')
    ensures PagedSearches(cfg, g, prev, pages, k, [SearchIndexParams(cfg, g, prev)] + s')
  {
    var s := [SearchIndexParams(cfg, g, prev)] + s';
    forall j | 1 <= j < |s|
      ensures s[j] == SearchIndexParams(cfg, g, pages[k + j - 1].nextToken)
    {
      assert s[j] == s'[j - 1];
    }
  }

  /** An iteration that goes on searches once, then the rest of the loop searches. */
  lemma LoopSearchesStep(cfg: JobConfig, g: Globals, prev: Option<string>, pages: seq<Page>, k: nat, updateCount: int)
    requires k < |pages| && Truthy(pages[k].nextToken) && !(updateCount > cfg.maxIoTSearchIterations)
    ensures Searches(ShadowPass(cfg, g, prev, pages, k, updateCount).calls)
         == [SearchIndexParams(cfg, g, prev)] + Searches(ShadowPass(cfg, g, pages[k].nextToken, pages, k + 1, updateCount).calls)
  {
    var rest := ShadowPass(cfg, g, pages[k].nextToken, pages, k + 1, updateCount);
    ShadowPassStep(cfg, g, prev, pages, k, updateCount);
    HeadProjections(cfg, g, prev, pages[k].things, updateCount, rest.calls);
  }

  /** An iteration that ends the loop, or a search past the last page, is the loop's last search. */
  lemma LoopSearchesStop(cfg: JobConfig, g: Globals, prev: Option<string>, pages: seq<Page>, k: nat, updateCount: int)
    requires k <= |pages|
    requires !(k < |pages| && Truthy(pages[k].nextToken) && !(updateCount > cfg.maxIoTSearchIterations))
    ensures Searches(ShadowPass(cfg, g, prev, pages, k, updateCount).calls) == [SearchIndexParams(cfg, g, prev)]
  {
    var r := ShadowPass(cfg, g, prev, pages, k, updateCount);
    var search := Search(SearchIndexParams(cfg, g, prev));
    if k == |pages| {
      PickSingle(search, SearchOf);
    } else {
      var things := pages[k].things;
      if !Truthy(pages[k].nextToken) {
        HeadProjections(cfg, g, prev, things, updateCount, []);
        PickNone([], SearchOf);
        assert r.calls == [search] + PageEvents(cfg, g, things, updateCount) + [];
      } else {
        var payload := ContinuationPayload(g, pages[k].nextToken.value);
        assert r.calls == [search] + PageEvents(cfg, g, things, updateCount) + [InvokeJob(payload)];
        HeadProjections(cfg, g, prev, things, updateCount, [InvokeJob(payload)]);
        PickSingle(InvokeJob(payload), SearchOf);
      }
    }
  }

  /**
   * With the counter within the budget, the loop tags the things of every page up to and
   * including the first one without a cursor (all pages if it throws), page after page.
   */
  lemma {:induction false} ShadowPassTagsPages(cfg: JobConfig, g: Globals, prev: Option<string>, pages: seq<Page>, k: nat, updateCount: int)
    requires k <= |pages| && !(updateCount > cfg.maxIoTSearchIterations)
    ensures Updated(ShadowPass(cfg, g, prev, pages, k, updateCount).calls) == TaggedPages(g, pages[k..LastPageEnd(pages, k)])
    decreases |pages| - k
  {
    var r := ShadowPass(cfg, g, prev, pages, k, updateCount);
    var search := Search(SearchIndexParams(cfg, g, prev));
    if k == |pages| {
      PickSingle(search, UpdatedThing);
      assert pages[k..LastPageEnd(pages, k)] == [];
    } else {
      var things := pages[k].things;
      var stop := LastPageEnd(pages, k);
      var visited := pages[k..stop];
      assert visited[0] == pages[k];
      if !Truthy(pages[k].nextToken) {
        HeadProjections(cfg, g, prev, things, updateCount, []);
        PickNone([], UpdatedThing);
        assert r.calls == [search] + PageEvents(cfg, g, things, updateCount) + [];
        assert visited == [pages[k]];
        assert TaggedPages(g, visited) == Tagged(g, things) + TaggedPages(g, []);
      } else {
        var rest := ShadowPass(cfg, g, pages[k].nextToken, pages, k + 1, updateCount);
        ShadowPassStep(cfg, g, prev, pages, k, updateCount);
        ShadowPassTagsPages(cfg, g, pages[k].nextToken, pages, k + 1, updateCount);
        HeadProjections(cfg, g, prev, things, updateCount, rest.calls);
        assert LastPageEnd(pages, k + 1) == stop;
        assert visited[1..] == pages[k + 1..stop];
        assert TaggedPages(g, visited) == Tagged(g, things) + TaggedPages(g, visited[1..]);
      }
    }
  }

  // ---------------------------------------------------------------------------
  // The handler

  /** The calls made before updateShadows, the variables then, and whether no call threw. */
  datatype Prep = Prep(events: seq<Event>, globals: Globals, ok: bool)

  /** excludeList: with an exclude list set, create its group, start filling it, and load it. */
  function ExcludeListStep(g: Globals, store: map<string, seq<string>>): (r: Prep)
    ensures r.events == [] <==> !Truthy(g.excludeListFileName)
    ensures r.ok <==> !Truthy(g.excludeListFileName) || Fetch(store, g.excludeListFileName).Some?
    ensures r.globals == if r.ok && Truthy(g.excludeListFileName) then g.(excludeThingArray := Fetch(store, g.excludeListFileName)) else g
  {
    if !Truthy(g.excludeListFileName) then Prep([], g, true)
    else
      var group := ExcludeGroupName(g.jobName);
      var events := [CreateThingGroup(group),
                     InvokeFill(FillPayload(group, g.excludeListFileName, None)),
                     GetList(g.excludeListFileName)];
      var fetched := Fetch(store, g.excludeListFileName);
      if fetched.None? then Prep(events, g, false)
      else Prep(events, g.(excludeThingArray := fetched), true)
  }

  /**
   * The handler up to updateShadows. A fresh event (falsy nextToken) provisions the job;
   * a resumed one restores the shadow marker and reloads the exclude list, whatever
   * excludeListFileName is.
   */
  function Prepare(cfg: JobConfig, g: Globals, event: JobEvent, store: map<string, seq<string>>): (r: Prep)
    ensures r.events != [] && (r.events[0] == EnableFleetIndexing <==> !Truthy(event.nextToken))
    ensures Truthy(event.nextToken) ==> r.events == [GetList(Initialised(cfg, g, event).excludeListFileName)]
  {
    var g1 := Initialised(cfg, g, event);
    if !Truthy(event.nextToken) then
      var ex := ExcludeListStep(g1, store);
      if !ex.ok then Prep([EnableFleetIndexing] + ex.events, ex.globals, false)
      else
        var g2 := ex.globals;
        Prep([EnableFleetIndexing] + ex.events
               + [CreateDynamicGroup(DynamicGroupQuery(g2), g2.jobName), CreateJob(g2.jobName, g2.jobName)],
             g2, true)
    else
      var g2 := g1.(shadow := Shadow(event.shadowKey, event.shadowValue));
      var fetched := Fetch(store, g2.excludeListFileName);
      if fetched.None? then Prep([GetList(g2.excludeListFileName)], g2, false)
      else Prep([GetList(g2.excludeListFileName)], g2.(excludeThingArray := fetched), true)
  }

  /** One invocation of the handler, from variables `g`: its calls and how it ends. */
  function Handle(cfg: JobConfig, g: Globals, event: JobEvent, store: map<string, seq<string>>, pages: seq<Page>)
    : (r: Run<JobEvent>)
    ensures Prepare(cfg, g, event, store).events <= r.calls
    ensures !Prepare(cfg, g, event, store).ok ==> r == Run(Prepare(cfg, g, event, store).events, Failed)
  {
    var p := Prepare(cfg, g, event, store);
    if !p.ok then Run(p.events, Failed)
    else Prepend(p.events, ShadowPass(cfg, p.globals, event.nextToken, pages, 0, 1))
  }

  // ---------------------------------------------------------------------------
  // What the handler does

  /**
   * After the preparation the names are those initGlobals chose; when nothing threw the
   * exclude list, if set, is loaded from the store.
   */
  lemma PrepareGlobals(cfg: JobConfig, g: Globals, event: JobEvent, store: map<string, seq<string>>)
    ensures var p, g1 := Prepare(cfg, g, event, store), Initialised(cfg, g, event);
            && p.globals.(excludeThingArray := None, shadow := g.shadow) == g1
            && (p.ok ==> ExclusionLoaded(p.globals) && WellFormed(cfg, p.globals))
            && (p.ok && Truthy(g1.excludeListFileName) ==> p.globals.excludeThingArray == Fetch(store, g1.excludeListFileName))
  {
    var g1 := Initialised(cfg, g, event);
    if !Truthy(event.nextToken) {
      var ex := ExcludeListStep(g1, store);
      assert Prepare(cfg, g, event, store).globals == ex.globals;
    }
  }

  /** A resumed invocation restores the marker and reloads the exclude list, named or not. */
  lemma ResumePrepares(cfg: JobConfig, g: Globals, event: JobEvent, store: map<string, seq<string>>)
    requires Truthy(event.nextToken)
    ensures var p := Prepare(cfg, g, event, store);
            && p.globals.shadow == Shadow(event.shadowKey, event.shadowValue)
            && p.events == [GetList(Forwarded(event.excludeListFileName))]
            && (p.ok <==> Fetch(store, Forwarded(event.excludeListFileName)).Some?)
  {
  }

  /**
   * A fresh invocation keeps the marker and provisions in order: fleet indexing; with an
   * exclude list, its group, the fill of that group and the load of the list; then the
   * dynamic group and the job on it.
   */
  lemma FreshProvisions(cfg: JobConfig, g: Globals, event: JobEvent, store: map<string, seq<string>>)
    requires !Truthy(event.nextToken)
    ensures var p, g1 := Prepare(cfg, g, event, store), Initialised(cfg, g, event);
            var n := ExcludeGroupName(g1.jobName);
            && p.globals.shadow == g.shadow
            && p.events[0] == EnableFleetIndexing
            && (Truthy(g1.excludeListFileName) ==>
                  && |p.events| >= 4
                  && p.events[1..4] == [CreateThingGroup(n), InvokeFill(FillPayload(n, g1.excludeListFileName, None)),
                                        GetList(g1.excludeListFileName)]
                  && (p.ok <==> Fetch(store, g1.excludeListFileName).Some?))
            && (!Truthy(g1.excludeListFileName) ==> p.ok && |p.events| == 3)
            && (p.ok ==>
                  && |p.events| >= 3
                  && p.events[|p.events| - 2..] == [CreateDynamicGroup(DynamicGroupQuery(p.globals), g1.jobName),
                                                    CreateJob(g1.jobName, g1.jobName)])
  {
    var g1 := Initialised(cfg, g, event);
    var ex := ExcludeListStep(g1, store);
    var p := Prepare(cfg, g, event, store);
    if ex.ok {
      var tail := [CreateDynamicGroup(DynamicGroupQuery(ex.globals), ex.globals.jobName), CreateJob(ex.globals.jobName, ex.globals.jobName)];
      assert p.events == [EnableFleetIndexing] + ex.events + tail;
      assert p.events[|p.events| - 2..] == tail;
    }
  }

  /** The preparation neither searches, tags, logs nor hands over. */
  lemma PrepareCalls(cfg: JobConfig, g: Globals, event: JobEvent, store: map<string, seq<string>>)
    ensures forall e | e in Prepare(cfg, g, event, store).events ::
              !e.Search? && !e.UpdateShadow? && !e.Log? && !e.InvokeJob?
  {
    var g1 := Initialised(cfg, g, event);
    if !Truthy(event.nextToken) {
      var ex := ExcludeListStep(g1, store);
      assert forall e | e in ex.events :: e.CreateThingGroup? || e.InvokeFill? || e.GetList?;
    }
  }

  /** A fresh invocation starts by provisioning; a resumed one never provisions. */
  lemma ProvisionsOnlyWhenFresh(cfg: JobConfig, g: Globals, event: JobEvent, store: map<string, seq<string>>, pages: seq<Page>)
    ensures var r := Handle(cfg, g, event, store, pages);
            && (!Truthy(event.nextToken) ==> r.calls != [] && r.calls[0] == EnableFleetIndexing)
            && (Truthy(event.nextToken) ==> forall e | e in r.calls :: !Provisioning(e))
  {
    var p := Prepare(cfg, g, event, store);
    if !Truthy(event.nextToken) {
      FreshProvisions(cfg, g, event, store);
    } else {
      ResumePrepares(cfg, g, event, store);
      if p.ok {
        ShadowPassCalls(cfg, p.globals, event.nextToken, pages, 0, 1);
      }
    }
  }

  /**
   * updateShadowsFromThingArray hands back the counter it was given, so the counter stays 1
   * and an invocation hands over exactly when MAXIMUM_IOT_SEARCH_ITERATIONS is below 1 and
   * the first page has a cursor; the continuation is then its last call.
   */
  lemma ContinuesOnlyBelowOneIteration(cfg: JobConfig, g: Globals, event: JobEvent, store: map<string, seq<string>>, pages: seq<Page>)
    ensures var r, p := Handle(cfg, g, event, store, pages), Prepare(cfg, g, event, store);
            && (r.outcome.Continued? <==> p.ok && cfg.maxIoTSearchIterations < 1 && 0 < |pages| && Truthy(pages[0].nextToken))
            && (r.outcome.Continued? ==>
                  && r.outcome.payload == ContinuationPayload(p.globals, pages[0].nextToken.value)
                  && r.calls[|r.calls| - 1] == InvokeJob(r.outcome.payload))
  {
    var p := Prepare(cfg, g, event, store);
    if p.ok {
      ShadowPassOutcome(cfg, p.globals, event.nextToken, pages, 0, 1);
      ShadowPassCalls(cfg, p.globals, event.nextToken, pages, 0, 1);
    }
  }

  /**
   * Within the iteration budget an invocation completes exactly when some page has no
   * cursor; it tags the not-excluded things of every page up to that one with the marker,
   * and every log reports maxIoTSearchListSize, the counter being stuck at 1.
   */
  lemma HandleTagsPages(cfg: JobConfig, g: Globals, event: JobEvent, store: map<string, seq<string>>, pages: seq<Page>)
    requires cfg.maxIoTSearchIterations >= 1
    ensures var r, p := Handle(cfg, g, event, store, pages), Prepare(cfg, g, event, store);
            && (r.outcome.Completed? <==> p.ok && FirstTokenless(pages, 0) < |pages|)
            && (p.ok ==> Updated(r.calls) == TaggedPages(p.globals, pages[..LastPageEnd(pages, 0)]))
            && (forall e | e in r.calls && e.UpdateShadow? :: e.key == p.globals.shadow.key && e.value == p.globals.shadow.value)
            && (forall e | e in r.calls && e.Log? :: e.count == cfg.maxIoTSearchListSize)
  {
    var p := Prepare(cfg, g, event, store);
    PrepareCalls(cfg, g, event, store);
    if p.ok {
      var pass := ShadowPass(cfg, p.globals, event.nextToken, pages, 0, 1);
      ShadowPassOutcome(cfg, p.globals, event.nextToken, pages, 0, 1);
      ShadowPassCalls(cfg, p.globals, event.nextToken, pages, 0, 1);
      ShadowPassTagsPages(cfg, p.globals, event.nextToken, pages, 0, 1);
      PickNone(p.events, UpdatedThing);
      PickAppend(p.events, pass.calls, UpdatedThing);
      assert pages[0..LastPageEnd(pages, 0)] == pages[..LastPageEnd(pages, 0)];
    }
  }

  /**
   * The searches of an invocation are paged searches from the first page after the event's
   * cursor, each with the query and page size of the variables the handler set up.
   */
  lemma HandleSearches(cfg: JobConfig, g: Globals, event: JobEvent, store: map<string, seq<string>>, pages: seq<Page>)
    requires Prepare(cfg, g, event, store).ok
    ensures PagedSearches(cfg, Prepare(cfg, g, event, store).globals, event.nextToken, pages, 0,
                          Searches(Handle(cfg, g, event, store, pages).calls))
  {
    var p := Prepare(cfg, g, event, store);
    HandleSearchesArePass(cfg, g, event, store, pages);
    ShadowPassSearches(cfg, p.globals, event.nextToken, pages, 0, 1);
  }

  /** The handler searches only in its cursor loop. */
  lemma HandleSearchesArePass(cfg: JobConfig, g: Globals, event: JobEvent, store: map<string, seq<string>>, pages: seq<Page>)
    requires Prepare(cfg, g, event, store).ok
    ensures Searches(Handle(cfg, g, event, store, pages).calls)
         == Searches(ShadowPass(cfg, Prepare(cfg, g, event, store).globals, event.nextToken, pages, 0, 1).calls)
  {
    var p := Prepare(cfg, g, event, store);
    var pass := ShadowPass(cfg, p.globals, event.nextToken, pages, 0, 1);
    PrepareCalls(cfg, g, event, store);
    PickNone(p.events, SearchOf);
    PickAppend(p.events, pass.calls, SearchOf);
  }

  /**
   * Round trip: handing a continuation payload back to the handler, on any container,
   * restores the names, the exclude list and the marker of the invocation that wrote it,
   * provisions nothing, and resumes the search at the cursor it carries.
   */
  lemma ResumeRoundTrip(cfg: JobConfig, g: Globals, token: string, g': Globals, store: map<string, seq<string>>, pages: seq<Page>)
    requires WellFormed(cfg, g) && token != ""
    ensures var event := ContinuationPayload(g, token);
            var p := Prepare(cfg, g', event, store);
            && p.events == [GetList(g.excludeListFileName)]
            && p.globals.jobName == g.jobName
            && p.globals.fleetIndexQuery == g.fleetIndexQuery
            && p.globals.excludeListFileName == g.excludeListFileName
            && p.globals.shadow == g.shadow
            && (p.ok <==> Fetch(store, g.excludeListFileName).Some?)
            && (p.ok ==> var s := Searches(Handle(cfg, g', event, store, pages).calls); s != [] && s[0].nextToken == Some(token))
  {
    var event := ContinuationPayload(g, token);
    ResumePrepares(cfg, g', event, store);
    PrepareGlobals(cfg, g', event, store);
    if Prepare(cfg, g', event, store).ok {
      HandleSearches(cfg, g', event, store, pages);
    }
  }

  /**
   * A resumed invocation without an exclude list asks the store for a null key, which
   * throws: it ends after that call and tags nothing.
   */
  lemma ResumeWithoutExcludeListThrows(cfg: JobConfig, g: Globals, event: JobEvent, store: map<string, seq<string>>, pages: seq<Page>)
    requires Truthy(event.nextToken) && !Truthy(event.excludeListFileName)
    ensures Handle(cfg, g, event, store, pages) == Run([GetList(None)], Failed)
  {
    ResumePrepares(cfg, g, event, store);
  }

  /** `q` ends with `n`. */
  predicate EndsWithName(q: string, n: string) {
    |n| <= |q| && q[|q| - |n|..] == n
  }

  /** `(query) AND NOT thingGroupNames:<jobName>-exclude` ends with the exclude group's name. */
  lemma ExcludingEndsWithGroup(query: string, jobName: string)
    ensures EndsWithName(Excluding(query, jobName), ExcludeGroupName(jobName))
  {
    var n := ExcludeGroupName(jobName);
    assert Excluding(query, jobName) == ("(" + query + ")" + " AND NOT thingGroupNames:") + n;
  }

  /** With an exclude list set, the dynamic group's query and the search query both end with the exclude group. */
  lemma QueriesExcludeGroup(g: Globals)
    requires Truthy(g.excludeListFileName)
    ensures EndsWithName(DynamicGroupQuery(g), ExcludeGroupName(g.jobName))
    ensures EndsWithName(SearchQuery(g), ExcludeGroupName(g.jobName))
  {
    ExcludingEndsWithGroup(MarkerOrQuery(g), g.jobName);
    ExcludingEndsWithGroup(g.fleetIndexQuery, g.jobName);
  }

  /**
   * With an exclude list, a fresh invocation creates the exclude group, starts filling it,
   * and both the dynamic group's query and every search query exclude that same group.
   */
  lemma ExcludeGroupConsistent(cfg: JobConfig, g: Globals, event: JobEvent, store: map<string, seq<string>>)
    requires !Truthy(event.nextToken) && Truthy(event.excludeListFileName)
    ensures var p := Prepare(cfg, g, event, store);
            var n := ExcludeGroupName(p.globals.jobName);
            && p.events[1] == CreateThingGroup(n)
            && p.events[2] == InvokeFill(FillPayload(n, event.excludeListFileName, None))
            && Truthy(p.globals.excludeListFileName)
  {
    var p, g1 := Prepare(cfg, g, event, store), Initialised(cfg, g, event);
    var ex := ExcludeListStep(g1, store);
    var n := ExcludeGroupName(g1.jobName);
    assert ex.events == [CreateThingGroup(n), InvokeFill(FillPayload(n, event.excludeListFileName, None)), GetList(event.excludeListFileName)];
    assert p.globals.jobName == g1.jobName;
    assert p.events[1] == ex.events[0] && p.events[2] == ex.events[1];
  }

  /**
   * The fill a fresh invocation starts puts every non-empty name of the exclude list into
   * the exclude group, each once, over however many invocations it takes; and the same
   * names are never tagged, since they are all in excludeThingArray.
   */
  lemma ExcludeListFillsExcludeGroup(cfg: JobConfig, g: Globals, event: JobEvent, store: map<string, seq<string>>,
                                     fillCfg: FillStaticThingGroup.Config, clocks: nat -> (nat -> int))
    requires !Truthy(event.nextToken) && Truthy(event.excludeListFileName) && Prepare(cfg, g, event, store).ok
    ensures var p := Prepare(cfg, g, event, store);
            var n := ExcludeGroupName(p.globals.jobName);
            var list := store[event.excludeListFileName.value];
            var c := FillStaticThingGroup.Chain(fillCfg, store, FillPayload(n, event.excludeListFileName, None), clocks, 0);
            && c.outcome == Completed
            && Added(c.calls) == FillStaticThingGroup.NonEmpty(list)
            && (forall e | e in c.calls && e.Add? :: e.group == n)
            && (forall x | x in list :: Excluded(p.globals, x))
  {
    var p := Prepare(cfg, g, event, store);
    FreshProvisions(cfg, g, event, store);
    PrepareGlobals(cfg, g, event, store);
    var n := ExcludeGroupName(p.globals.jobName);
    var list := store[event.excludeListFileName.value];
    FillStaticThingGroup.ChainAddsEachEntryOnce(fillCfg, store, FillPayload(n, event.excludeListFileName, None), clocks, 0);
    assert list[0..] == list;
  }

  // ---------------------------------------------------------------------------
  // The function's state and its operations

  class JobFunction {
    const cfg: JobConfig
    var jobName: string
    var fleetIndexQuery: string
    var excludeListFileName: Option<string>
    var excludeThingArray: Option<seq<string>>
    var shadowKey: string
    var shadowValue: nat

    function State(): Globals
      reads this
    {
      Globals(jobName, fleetIndexQuery, excludeListFileName, excludeThingArray, Shadow(shadowKey, shadowValue))
    }

    /** A cold start; `loadTime` is the clock reading taken when the module loads. */
    constructor(cfg: JobConfig, loadTime: nat)
      ensures this.cfg == cfg && State() == ColdStart(cfg, loadTime)
    {
      this.cfg := cfg;
      jobName, fleetIndexQuery := "", "";
      excludeListFileName, excludeThingArray := None, None;
      shadowKey, shadowValue := cfg.shadowUpdateKey, loadTime;
    }

    method InitGlobals(inputs: JobEvent)
      modifies this
      ensures State() == Initialised(cfg, old(State()), inputs)
    {
      jobName := if Truthy(inputs.jobName) then inputs.jobName.value else cfg.defaultJobName;
      fleetIndexQuery := if Truthy(inputs.fleetIndexQuery) then inputs.fleetIndexQuery.value else cfg.defaultFleetIndexQuery;
      excludeListFileName := if Truthy(inputs.excludeListFileName) then inputs.excludeListFileName else None;
      excludeThingArray := None;
    }

    /** getThingArray: loads the list named `fileName` into excludeThingArray, or throws. */
    method GetThingArray(fileName: Option<string>, store: map<string, seq<string>>)
      returns (trace: seq<Event>, ok: bool)
      modifies this
      ensures trace == [GetList(fileName)] && ok == Fetch(store, fileName).Some?
      ensures State() == if ok then old(State()).(excludeThingArray := Fetch(store, fileName)) else old(State())
    {
      trace := [GetList(fileName)];
      var fetched := Fetch(store, fileName);
      ok := fetched.Some?;
      if ok {
        excludeThingArray := fetched;
      }
    }

    method ExcludeList(store: map<string, seq<string>>) returns (trace: seq<Event>, ok: bool)
      modifies this
      ensures var p := ExcludeListStep(old(State()), store);
              trace == p.events && ok == p.ok && State() == p.globals
    {
      if !Truthy(excludeListFileName) {
        return [], true;
      }
      // createStaticGroup
      var staticGroupName := ExcludeGroupName(jobName);
      trace := [CreateThingGroup(staticGroupName), InvokeFill(FillPayload(staticGroupName, excludeListFileName, None))];
      var t;
      t, ok := GetThingArray(excludeListFileName, store);
      trace := trace + t;
    }

    /** updateShadowsFromThingArray: tags the page's things that are not excluded. */
    method UpdateShadowsFromThingArray(list: Page, updateCount: int) returns (trace: seq<Event>, count: int)
      ensures trace == PageEvents(cfg, State(), list.things, updateCount)
      ensures count == updateCount
    {
      var g := State();
      trace := [];
      for i := 0 to |list.things|
        invariant trace == ShadowUpdates(g.shadow, Tagged(g, list.things[..i]))
      {
        var thingName := list.things[i];
        TagStep(g, list.things, i);
        if Excluded(g, thingName) {
          continue;
        }
        trace := trace + [UpdateShadow(thingName, g.shadow.key, g.shadow.value)];
      }
      assert list.things[..|list.things|] == list.things;
      trace := trace + [Barrier, Log(updateCount * cfg.maxIoTSearchListSize)];
      assert g == State();
      count := updateCount;
    }

    /** updateShadows: searches page after page from `nextToken` until a page has no cursor. */
    method UpdateShadows(nextToken: Option<string>, pages: seq<Page>) returns (trace: seq<Event>, outcome: Outcome<JobEvent>)
      ensures Run(trace, outcome) == ShadowPass(cfg, State(), nextToken, pages, 0, 1)
    {
      var g := State();
      ghost var run := ShadowPass(cfg, g, nextToken, pages, 0, 1);
      var thingsAvailable := true;
      var prev := nextToken;
      var updateCount := 1;
      var k := 0;
      trace, outcome := [], Completed;
      assert trace + run.calls == run.calls;
      while thingsAvailable
        invariant k <= |pages| && g == State()
        invariant thingsAvailable ==> run == Prepend(trace, ShadowPass(cfg, g, prev, pages, k, updateCount))
        invariant !thingsAvailable ==> run == Run(trace, outcome)
        decreases |pages| - k
      {
        var search := Search(SearchIndexParams(cfg, g, prev));
        if k >= |pages| {
          trace, outcome := trace + [search], Failed;
          return;
        }
        var list := pages[k];
        var page, count := UpdateShadowsFromThingArray(list, updateCount);
        var calls := [search] + page;
        if !Truthy(list.nextToken) {
          thingsAvailable := false;
          outcome := Completed;
        } else if count > cfg.maxIoTSearchIterations {
          thingsAvailable := false;
          var payload := ContinuationPayload(g, list.nextToken.value);
          calls := calls + [InvokeJob(payload)];
          outcome := Continued(payload);
        } else {
          ShadowPassStep(cfg, g, prev, pages, k, updateCount);
          PrependTwice(trace, calls, ShadowPass(cfg, g, list.nextToken, pages, k + 1, count));
        }
        trace := trace + calls;
        updateCount := count;
        prev := list.nextToken;
        k := k + 1;
      }
    }

    /**
     * The handler: initialises the variables, provisions the job on a fresh event or restores
     * the marker and exclude list on a resumed one, and tags shadows; a throwing call ends it.
     */
    method Handler(event: JobEvent, store: map<string, seq<string>>, pages: seq<Page>)
      returns (trace: seq<Event>, outcome: Outcome<JobEvent>)
      modifies this
      ensures Run(trace, outcome) == Handle(cfg, old(State()), event, store, pages)
      ensures State() == Prepare(cfg, old(State()), event, store).globals
    {
      InitGlobals(event);
      var ok;
      if !Truthy(event.nextToken) {
        var t;
        t, ok := ExcludeList(store);
        trace := [EnableFleetIndexing] + t;
        if ok {
          // createDynamicGroup, then createJob on the group it returns
          var queryString := DynamicGroupQuery(State());
          trace := trace + [CreateDynamicGroup(queryString, jobName), CreateJob(jobName, jobName)];
        }
      } else {
        shadowKey, shadowValue := event.shadowKey, event.shadowValue;
        trace, ok := GetThingArray(excludeListFileName, store);
      }
      if !ok {
        outcome := Failed;
        return;
      }
      var t, o := UpdateShadows(event.nextToken, pages);
      trace, outcome := trace + t, o;
    }
  }
}
