# Rapid large-scale IoT job updates — a Dafny model of the three Lambda functions

This project models the control logic of three AWS Lambda handlers. Each one pushes a long list
of IoT thing names through a paced loop. Two of them can hand the rest of the work to a fresh
invocation of themselves.

- **fillStaticThingGroup** adds every name of a stored list to a static thing group. It works in
  windows of `ADD_THING_TO_THING_GROUP_TPS` (W) add calls. At every window end it checks the
  elapsed time against `LAMBDA_RECURSION_TIME_MS`. Once the budget is exceeded, it invokes
  itself with `startIndex = i + 1`.
- **job** runs in two ways:
  - On a fresh event, it provisions a rollout: it enables fleet indexing; when an exclude list
    is named, it creates `<jobName>-exclude`, has it filled and loads the list; then it creates
    a dynamic thing group and a continuous job on that group.
  - On a fresh event, and on a resumed event that names an exclude list, it pages through the
    fleet index. It writes a reported-shadow marker to every listed thing that is not excluded.
    The marker is what puts the thing into the dynamic group. A continuation carries the search
    cursor and the marker.
  - A resumed event without an exclude list never reaches the fleet index: the handler reloads
    the list unconditionally, `getThingArray(null)` throws (job/src/index.js:365), and the
    `catch` ends the invocation (`Job.ResumeWithoutExcludeListThrows`).
- **seedThings** has two modes. `seed` creates `SEED_NUMBER_OF_THINGS` things named
  `prefix + i`, with barriers at `i % CREATE_THINGS_LIMIT_TPS === 0`. `delete` deletes every
  thing the fleet index lists under `prefix*`, one page at a time.

Every remote call is an `Event` appended to a trace (`effects.dfy`):
- add to group, shadow update, create, delete, search;
- `Barrier`, which stands for an `await Promise.all` together with its pacing wait;
- the counts written to the log;
- list fetches, Lambda invocations and the provisioning calls.

The environment is given as values:
- The clock is an oracle `nat -> int` of successive readings.
- The fleet index is a sequence of pages: the k-th search call is answered by page k, and a
  search past the last page throws.
- The S3 bucket is a map from object key to the already split list.

A call that throws ends the invocation with outcome `Failed`, because each handler's `catch`
swallows the error and returns.

Each loop of the source is a `method` with a `while`/`for` loop. Each method is proved equal to
a recursive specification function: `FillFrom`, `ShadowPass`, `DeletePass` or `SeedRun`. The
lemmas state the properties of those functions.

The job function's and the seed function's module-level variables are the fields of the classes
`JobFunction` and `Seeder`. Their handlers update those fields in place, so state left by one
invocation is seen by the next one on a warm container.

Behaviour of the code that the model keeps as written:
- **Fill windows are index-based.** A window ends at every index `i` with
  `i % W === W - 1` (fillStaticThingGroup/src/index.js:88). An empty entry there takes no
  barrier and no time check, so the windows on either side of it merge. For
  `["x","","y","z","w"]` with W = 2, the first window holds three add calls (x, y, z) and
  closes at index 3; w is then added alone. The completion log reports `thingArray.length`,
  empty entries included, so it says 5 (`EmptyWindowEndMergesWindows`). A run to the end of the
  list thus waits once per non-empty window end and once more for the tail after the last one
  (`CompletedRunWindows`).
- **The job continuation is effectively unreachable.** The doc comment at
  job/src/index.js:307 says the function recursively invokes itself after 200 iterations. The
  code does not do that: `updateShadowsFromThingArray` returns `updateCount++`, which is the
  counter unchanged (job/src/index.js:302). The counter therefore stays 1, and the job hands
  over only when `MAXIMUM_IOT_SEARCH_ITERATIONS < 1` (`ContinuesOnlyBelowOneIteration`).

## Model

| member | source | states |
|---|---|---|
| Effects.Forwarded | amplify/backend/function/job/src/index.js:278-280 | a search carries a nextToken exactly when the previous result's token is truthy, and then that same token |
| Effects.Fetch | amplify/backend/function/job/src/index.js:149-155 | a list fetch succeeds exactly when the key is non-null and stored, and yields that object's split contents |
| Effects.FirstTokenless | amplify/backend/function/job/src/index.js:317-321 | the index where a cursor loop stops: every page before it has a truthy cursor, and the page at it has none |
| Effects.DecimalInjective | amplify/backend/function/seedThings/src/index.js:56 | different indices render as different decimal strings |
| FillStaticThingGroup.IsWindowEnd | amplify/backend/function/fillStaticThingGroup/src/index.js:88 | a window end exists only for a positive W; for W <= 0 the source's `i % W === W - 1` never holds, so no window ever closes |
| FillStaticThingGroup.StartOf | amplify/backend/function/fillStaticThingGroup/src/index.js:77 | the start index is 0 exactly when startIndex is falsy (absent or 0), and startIndex otherwise |
| FillStaticThingGroup.NonEmpty | amplify/backend/function/fillStaticThingGroup/src/index.js:80-82 | the entries that get an add call: exactly the non-empty entries of the list, none added |
| FillStaticThingGroup.WindowEndResumesAtMultiple | amplify/backend/function/fillStaticThingGroup/src/index.js:88-95 | the startIndex handed over after a window end `i % W == W-1` is a multiple of W |
| FillStaticThingGroup.FillFrom | amplify/backend/function/fillStaticThingGroup/src/index.js:74-106 | one invocation never fails; a continuation names the same group and exclude list and resumes strictly after the start index, within the list |
| FillStaticThingGroup.AddsTargetGroup | amplify/backend/function/fillStaticThingGroup/src/index.js:84-87 | every add call of an invocation targets staticGroupName |
| FillStaticThingGroup.CompletedRunShape | amplify/backend/function/fillStaticThingGroup/src/index.js:102-105 | a run to the end of the list makes no self-invocation and ends with a barrier and a log of the list length, empty entries included |
| FillStaticThingGroup.ContinuedRunShape | amplify/backend/function/fillStaticThingGroup/src/index.js:88-98 | a continuation follows the add call, the log and the barrier of a non-empty window end; it resumes at a multiple of W, is the last call, and is the only self-invocation |
| FillStaticThingGroup.CompletedRunWindows | amplify/backend/function/fillStaticThingGroup/src/index.js:79-105 | in a completed run, the logs are i + 1 for exactly the non-empty window-end indices i, in order, followed by the list length; there is one barrier per log |
| FillStaticThingGroup.WindowWaitFollowsItsAdds | amplify/backend/function/fillStaticThingGroup/src/index.js:79-95 | in a run to the end of the list, the add of each non-empty window-end entry j comes right after one add per earlier non-empty entry and a log and a wait per earlier window end, and is followed at once by its log j + 1 and its wait; the adds before it are exactly the non-empty entries of [startIndex, j), so each wait awaits its own window |
| FillStaticThingGroup.ContinuedAddsWindowPrefix | amplify/backend/function/fillStaticThingGroup/src/index.js:79-98 | an invocation that hands over at k has added exactly the non-empty entries of [startIndex, k), each once and in index order |
| FillStaticThingGroup.CompletedAddsRest | amplify/backend/function/fillStaticThingGroup/src/index.js:79-105 | an invocation that runs to the end has added exactly the non-empty entries from startIndex on, each once and in order |
| FillStaticThingGroup.WithinBudgetCompletes | amplify/backend/function/fillStaticThingGroup/src/index.js:91 | the function hands over only when a reading strictly exceeds the budget: while no reading does, it completes |
| FillStaticThingGroup.OverBudgetAtWindowEndHandsOver | amplify/backend/function/fillStaticThingGroup/src/index.js:88-98 | at a non-empty window end i whose clock reading exceeds the budget, the invocation adds entry i, logs i + 1, waits, invokes itself with startIndex i + 1 and stops |
| FillStaticThingGroup.Readings | amplify/backend/function/fillStaticThingGroup/src/index.js:88-91 | the number of clock readings taken over [i, e), one per non-empty window end, is at most the length of the range |
| FillStaticThingGroup.CompletesIffWithinBudget | amplify/backend/function/fillStaticThingGroup/src/index.js:79-105 | an invocation completes if and only if every clock reading it takes, one per non-empty window end, is within the budget |
| FillStaticThingGroup.HandsOverAtFirstOverBudget | amplify/backend/function/fillStaticThingGroup/src/index.js:88-98 | an invocation that hands over at startIndex e has taken at least one reading over [i, e), and its last one, at window end e - 1, is the first to exceed the budget |
| FillStaticThingGroup.FillStaticGroup | amplify/backend/function/fillStaticThingGroup/src/index.js:74-106 | the loop (falsy startIndex read as 0, empty entries skipped, windows closed at `i % W == W-1`, a time check at each) makes exactly the calls of FillFrom and ends the same way |
| FillStaticThingGroup.Invocation | amplify/backend/function/fillStaticThingGroup/src/index.js:112-122 | the handler first fetches the list its payload names, fails exactly when that fetch throws, and passes staticGroupName, excludeListFileName and startIndex through to its continuation |
| FillStaticThingGroup.Handler | amplify/backend/function/fillStaticThingGroup/src/index.js:112-122 | the handler's calls and outcome are those of Invocation, with reading 0 of the clock as startTime |
| FillStaticThingGroup.Chain | amplify/backend/function/fillStaticThingGroup/src/index.js:92-117 | feeding each continuation payload to the next invocation ends in an invocation that does not hand over |
| FillStaticThingGroup.ChainAddsEachEntryOnce | amplify/backend/function/fillStaticThingGroup/src/index.js:79-117 | across a chain of invocations, every non-empty entry from the first startIndex on is added exactly once, in list order and to the named group, and the chain completes |
| FillStaticThingGroup.EmptyWindowEndMergesWindows | amplify/backend/function/fillStaticThingGroup/src/index.js:79-105 | ["x","","y","z","w"] with W = 2 within the budget: the empty window end at index 1 merges two windows, so x, y and z are added before the one barrier at index 3 (log 4); w follows alone, and the completion log says 5 |
| FillStaticThingGroup.OverBudgetHandsOverAfterFirstWindow | amplify/backend/function/fillStaticThingGroup/src/index.js:88-98 | five entries, W = 2, budget exceeded: two adds, one barrier, then a single continuation with startIndex 2 and no further call |
| Job.Initialised | amplify/backend/function/job/src/index.js:336-341 | each truthy input is kept and each falsy one replaced by its default (null for the exclude list); the loaded list is reset to null and the marker is kept |
| Job.ExcludeGroupName | amplify/backend/function/job/src/index.js:127 | the exclude group's name is the job name followed by `-exclude` |
| Job.MarkerOrQuery | amplify/backend/function/job/src/index.js:182 | the dynamic group query starts with `shadow.reported.` and ends with ` OR ` and the fleet index query |
| Job.ContinuationPayload | amplify/backend/function/job/src/index.js:237-248 | the continuation payload has a truthy nextToken exactly when the cursor is non-empty, and a truthy job name, query and exclude list exactly when the current ones are |
| Job.ExcludeListStep | amplify/backend/function/job/src/index.js:162-173 | excludeList calls nothing exactly when no exclude list is set; it fails exactly when a set list is not stored; on success the list is loaded and nothing else changes |
| Job.Prepare | amplify/backend/function/job/src/index.js:356-366 | the handler's preparation starts with enabling fleet indexing exactly when the event is fresh; a resumed event makes only the list fetch |
| Job.Excluding | amplify/backend/function/job/src/index.js:270-277 | the wrapped query is `(`, the query, `)`, then ` AND NOT thingGroupNames:<jobName>-exclude` |
| Job.SearchQuery | amplify/backend/function/job/src/index.js:271-277 | the search query is fleetIndexQuery without an exclude list, and the wrapped, excluding query with one |
| Job.SearchIndexParams | amplify/backend/function/job/src/index.js:270-282 | the search parameters carry that query and maxIoTSearchListSize, and a nextToken exactly when the previous one is truthy |
| Job.DynamicGroupQuery | amplify/backend/function/job/src/index.js:182-185 | the dynamic group's query is `shadow.reported.<key>:<value> OR <fleetIndexQuery>`, wrapped and excluding the exclude group exactly when an exclude list is set |
| Job.Tagged | amplify/backend/function/job/src/index.js:293-299 | a page never yields more shadow updates than it lists things |
| Job.ShadowUpdates | amplify/backend/function/job/src/index.js:220-229 | one shadow update per name |
| Job.ShadowPass | amplify/backend/function/job/src/index.js:310-330 | the loop starts with a search built from the previous cursor; a continuation carries a truthy cursor and the current names, exclude list and marker |
| Job.Handle | amplify/backend/function/job/src/index.js:354-371 | the handler's preparation calls come first, and a throwing preparation ends the invocation right there |
| Job.TaggedMembers | amplify/backend/function/job/src/index.js:295-298 | a listed thing gets a shadow update if and only if it is not excluded |
| Job.TaggedWithoutExclusion | amplify/backend/function/job/src/index.js:295 | without an exclude list every listed thing is tagged, in listing order |
| Job.ShadowUpdatesTagThings | amplify/backend/function/job/src/index.js:220-229 | the updates name the given things in order, each writing the marker key and value |
| Job.PageEventsShape | amplify/backend/function/job/src/index.js:291-303 | one page (the calls of PageEvents) makes one update per not-excluded listed thing, in order, then, as the last two calls, the one wait for those updates and one log of updateCount * maxIoTSearchListSize, and no other kind of call |
| Job.ShadowPassOutcome | amplify/backend/function/job/src/index.js:317-327 | the loop hands over if and only if the counter exceeds the budget at a page with a cursor, with that cursor; it throws if and only if it runs out of pages first |
| Job.ShadowPassCalls | amplify/backend/function/job/src/index.js:317-327 | the loop makes only searches, updates, waits, logs and the continuation, never a provisioning call; every update writes the marker to a not-excluded thing; every log reports the initial counter times the page size; a continuation is the last call and the only one |
| Job.ShadowPassSearches | amplify/backend/function/job/src/index.js:317-320 | each search forwards the cursor of the page before, and that cursor was truthy, so pages are requested in order, each once |
| Job.ShadowPassWaits | amplify/backend/function/job/src/index.js:291-327 | the loop waits once and logs once per page it processes: one page when the counter is over the budget, otherwise every page up to and including the first without a cursor, or all pages when every page has one |
| Job.ShadowPassTagsPages | amplify/backend/function/job/src/index.js:317-327 | within the budget, the loop tags the not-excluded things of every page up to and including the first page without a cursor, page after page |
| Job.PrepareGlobals | amplify/backend/function/job/src/index.js:336-366 | after preparation the names are those initGlobals chose, and a set exclude list is loaded from the store |
| Job.ResumePrepares | amplify/backend/function/job/src/index.js:362-366 | a resumed event restores the marker and reloads the exclude list unconditionally; it fails exactly when that load throws |
| Job.FreshProvisions | amplify/backend/function/job/src/index.js:357-361 | a fresh event keeps the marker and calls, in order: fleet indexing; then, with an exclude list, the exclude group, its fill and the list load; then the dynamic group and the job |
| Job.PrepareCalls | amplify/backend/function/job/src/index.js:357-366 | the preparation neither searches, updates shadows, logs nor hands over |
| Job.ProvisionsOnlyWhenFresh | amplify/backend/function/job/src/index.js:357-366 | a fresh invocation starts by enabling fleet indexing, and a resumed one makes no provisioning call at all |
| Job.ContinuesOnlyBelowOneIteration | amplify/backend/function/job/src/index.js:302-325 | the counter stays 1, so an invocation hands over if and only if MAXIMUM_IOT_SEARCH_ITERATIONS < 1 and the first page has a cursor |
| Job.HandleTagsPages | amplify/backend/function/job/src/index.js:301-327 | with a budget of at least 1, an invocation completes exactly when some page has no cursor, tags the pages up to it, and every log reports maxIoTSearchListSize |
| Job.HandleSearches | amplify/backend/function/job/src/index.js:314-318 | the first search forwards the event's cursor when it is truthy, and each later search forwards the truthy cursor of the page before |
| Job.ResumeRoundTrip | amplify/backend/function/job/src/index.js:336-367 | on any container, a continuation payload fed back to the handler restores the names, the exclude list and the marker, provisions nothing, and resumes searching at the cursor it carries |
| Job.ResumeWithoutExcludeListThrows | amplify/backend/function/job/src/index.js:362-367 | a resumed event without an exclude list fetches a null key, which throws, so the invocation ends there |
| Job.QueriesExcludeGroup | amplify/backend/function/job/src/index.js:127-185 | with an exclude list, both the dynamic group's query and the search query end with the group that createStaticGroup creates |
| Job.ExcludeGroupConsistent | amplify/backend/function/job/src/index.js:125-173 | a fresh event with an exclude list creates `<jobName>-exclude` and invokes the fill with that group and the list's key |
| Job.ExcludeListFillsExcludeGroup | amplify/backend/function/job/src/index.js:162-173 | the fill that is started adds every non-empty name of the exclude list to the exclude group exactly once, and all those names are excluded from tagging |
| Job.JobFunction.constructor | amplify/backend/function/job/src/index.js:44-54 | on a cold start the names are unset and the marker is the key from the environment with the load-time clock reading |
| Job.JobFunction.InitGlobals | amplify/backend/function/job/src/index.js:336-341 | updates the variables to Initialised |
| Job.JobFunction.GetThingArray | amplify/backend/function/job/src/index.js:149-155 | one list fetch; on success excludeThingArray holds the split list; on a throw nothing changes |
| Job.JobFunction.ExcludeList | amplify/backend/function/job/src/index.js:162-173 | without an exclude list nothing is called; otherwise it creates the group, invokes the fill and loads the list |
| Job.JobFunction.UpdateShadowsFromThingArray | amplify/backend/function/job/src/index.js:291-303 | the loop over a page makes exactly the page's calls, and it returns the counter it was given |
| Job.JobFunction.UpdateShadows | amplify/backend/function/job/src/index.js:310-330 | the cursor loop, with the counter starting at 1, makes exactly the calls of ShadowPass and ends the same way |
| Job.JobFunction.Handler | amplify/backend/function/job/src/index.js:354-371 | the handler makes the calls of Handle, and leaves the variables as the preparation set them, which carry over to the next invocation |
| SeedThings.ThingNamesDistinct | amplify/backend/function/seedThings/src/index.js:56 | `demoThingPrefix + i` names are pairwise distinct |
| SeedThings.ThingName | amplify/backend/function/seedThings/src/index.js:56 | a seeded name is the prefix followed by at least one more character |
| SeedThings.IsCreateBarrier | amplify/backend/function/seedThings/src/index.js:58 | index 0 is always followed by a barrier when W is non-zero, and no index is when W is 0 (`i % 0` is NaN) |
| SeedThings.SeedRun | amplify/backend/function/seedThings/src/index.js:53-65 | the seeding makes at least one call per created thing and ends with a log of the number of things created |
| SeedThings.SeedStepsCalls | amplify/backend/function/seedThings/src/index.js:55-63 | the create loop (the calls of SeedSteps) creates `prefix + i` for i in [0, n), in order; it logs exactly the indices with `i % W === 0`, in order, and waits as many times |
| SeedThings.WaitFollowsItsCreate | amplify/backend/function/seedThings/src/index.js:55-62 | iteration i ends with the create of `prefix + i`, after the creates of all earlier indices; at an index with `i % W === 0` that create is followed at once by the log of i and the wait |
| SeedThings.SeedRunCreates | amplify/backend/function/seedThings/src/index.js:53-65 | exactly `number` pairwise distinct things are created, and the last log is that count, because promiseArray is never reset |
| SeedThings.FirstBarrierAfterIndexZero | amplify/backend/function/seedThings/src/index.js:58-62 | the first barrier comes right after the create of index 0, alone |
| SeedThings.UnawaitedTail | amplify/backend/function/seedThings/src/index.js:58-64 | after the last barrier, (n - 1) % W creates are issued that the function never awaits |
| SeedThings.SeedFourWithWindowTwo | amplify/backend/function/seedThings/src/index.js:53-65 | four things with W = 2: barriers after indices 0 and 2, index 3 left running, final log 4 |
| SeedThings.DeleteParams | amplify/backend/function/seedThings/src/index.js:75-81 | every delete search asks for `<prefix>*` with deleteThingPerS results, and carries a nextToken exactly when the previous one is truthy |
| SeedThings.Deletes | amplify/backend/function/seedThings/src/index.js:84-86 | one delete call per listed thing |
| SeedThings.DeletesThings | amplify/backend/function/seedThings/src/index.js:84-86 | the delete calls name exactly the listed things, in listing order, and are nothing but deletes |
| SeedThings.DeleteHeadProjections | amplify/backend/function/seedThings/src/index.js:82-88 | one iteration (the calls of DeleteHead) makes one search with its parameters, deletes exactly the listed things, waits once and logs the count once |
| SeedThings.DeletePass | amplify/backend/function/seedThings/src/index.js:70-94 | the delete loop starts with its search and never hands over |
| SeedThings.DeletePassDeletes | amplify/backend/function/seedThings/src/index.js:82-92 | the loop completes exactly when some page has no cursor, deletes every listed thing of the pages up to that one in order, and calls nothing but searches, deletes, waits and logs |
| SeedThings.DeletePassLogs | amplify/backend/function/seedThings/src/index.js:87-89 | one log per page, the j-th reporting (deleteCount + j) * deleteThingPerS rather than the deletions made |
| SeedThings.DeletePassSearches | amplify/backend/function/seedThings/src/index.js:75-82 | the pages are requested in order, each search forwarding the cursor of the page before |
| SeedThings.DeletePassWaits | amplify/backend/function/seedThings/src/index.js:82-92 | the delete loop waits once per page it processes: every page up to and including the first without a cursor, or all pages when every page has one |
| SeedThings.Overridden | amplify/backend/function/seedThings/src/index.js:101-102 | the prefix and the number are overridden only when the event's fields are truthy |
| SeedThings.RunDispatch | amplify/backend/function/seedThings/src/index.js:104-108 | mode `delete` only deletes listed things under `<prefix>*`; mode `seed` only creates the `number` names; any other mode calls nothing |
| SeedThings.Invocation | amplify/backend/function/seedThings/src/index.js:104-108 | one invocation never hands over, and only the delete mode can fail (a search past the last page) |
| SeedThings.Seeder.constructor | amplify/backend/function/seedThings/src/index.js:30-38 | a cold start holds DEMO_THING_PREFIX, the configured number and the rate limits |
| SeedThings.Seeder.SeedAccountWithThings | amplify/backend/function/seedThings/src/index.js:53-65 | the counted loop makes exactly the calls of SeedRun |
| SeedThings.Seeder.DeleteDemoThings | amplify/backend/function/seedThings/src/index.js:70-94 | the cursor loop, with deleteCount starting at 1, makes exactly the calls of DeletePass |
| SeedThings.Seeder.Handler | amplify/backend/function/seedThings/src/index.js:99-112 | the handler overwrites the prefix and the number as Overridden says, which persists to the next invocation, and dispatches on the mode as Invocation does |

## Left out

- SDK calls other than the list fetch and the search never fail in the model. In the source, a rejected per-item call does not get absorbed. `Promise.all` rejects, so the `await` throws (fillStaticThingGroup/src/index.js:90 and :104, job/src/index.js:300, seedThings/src/index.js:60 and :87). The handler's `catch` (fillStaticThingGroup/src/index.js:118, job/src/index.js:368, seedThings/src/index.js:109) then ends the invocation without a continuation, so the rest of the list or the fleet index is not processed. The model leaves these throws out because they depend on the remote service alone; such a run would end as `Failed` right after the window or page that holds the failing call.
- FillStaticThingGroup.ChainAddsEachEntryOnce: holds only when every add call succeeds. A rejected add ends the chain at that window.
- Job.ShadowPassTagsPages: holds only when every shadow update succeeds. A rejected update ends the invocation after that page, and the later pages are not tagged.
- SeedThings.DeletePassDeletes: holds only when every delete call succeeds. A rejected delete ends the loop after that page, and the later pages are not deleted.
- Fleet-index polling (`waitForIndexBuild`, `enableFleetIndexing`, job/src/index.js:78-119) is one `EnableFleetIndexing` event. Its unbounded poll on remote state is not modelled.
- The endpoint caching of `getIoTDataClient` (job/src/index.js:254-262) is not modelled. It has no effect on the calls that follow.
- Reading the S3 object and splitting it on `LIST_DELIMITER` are not modelled. The store holds the already split list.
- Real time is not modelled. `wait(1000)`/`setTimeout` and `Promise.all` become one `Barrier` event, and the concurrent fan-out within a window is not modelled. `Date.getTime()` is a clock oracle.
- JSON payloads are records, and `lambda.invoke` parameters are reduced to their payloads. The `FunctionName` and `InvocationType` fields are not modelled.
- Log text is dropped apart from the logged counts.
- `createJob` is one `CreateJob(jobId, target)` event. Its document, rollout rate and target selection are constant parameters and are left out. The job targets the group by its name; the group's ARN is not modelled.
- `createThingGroup` is assumed to return the requested group name.
- Numbers from the environment and events are integers. `NaN` from a malformed variable and fractional values are not modelled.
- `startIndex` is an optional natural number.
- The marker value is a natural number rendered in decimal. JavaScript's exponent notation for very large numbers is not modelled.
- `seedConfigNumber`'s truthiness is modelled as present and non-zero. A NaN there is not modelled.
- The TypeError that `excludeThingArray.includes` would raise with an exclude list set but not loaded is not modelled. It cannot happen: `Job.PrepareGlobals` shows the list is loaded whenever preparation succeeds.
- Job.ShadowPassTagsPages and Job.HandleTagsPages describe the tagged things only for runs that do not hand over (counter within the budget). A handing-over run tags only the first page; `Job.ShadowPassOutcome` and `Job.ContinuesOnlyBelowOneIteration` describe that run.
