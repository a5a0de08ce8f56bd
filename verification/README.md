# Verified models of the Sloppenheimer host

This project models, in Dafny, the parts of the host whose correctness depends on interleavings, loops or
whole runs, and proves what each of them promises.

- **A Codex session** (`ConnectionState`, `CodexSession` and the `Codex*` modules). One state cell with its atomic
  transitions, and everything that runs against it: requesters with their timeouts, response handlers and session
  failure under the `lifecycle` semaphore, notification handlers outside it, awaiters and their silence timers. The
  cell is a class whose methods are each proved equal to a transition function; the handlers are program counters
  between those transitions, so a run is any interleaving of any number of them.
- **The GitHub request limiter** (`RateLimit`): a generic cell rate algorithm (ITU-T I.371, Annex A) with interrupted
  waits given back.
- **Byte-stream framing** (`Splitting`, `Framing`) and **diagnostic records** (`PemRecords`, encapsulation boundaries
  as in section 2 of RFC 7468).
- **Publication under a lease** (`GitHistory`, `GitRepository`, `Publication`, `Candidates`): the host's git commands
  against a commit graph, with anybody else moving the remote, and the workspace too, before every command, any
  command failing, and a push whose acknowledgement is lost.
- **Dependency graphs** (`Cascade`, `DependencyGraph`, `Layout`, `Ordering`).
- **The registry and the workflow store** (`Registry`, `WorkflowStore`).
- **Diff counting** (`DiffCounts`) and **usage totals** (`Usage`).

Where the source updates a cell, a map or a worklist in place, the model does so too, in a class or in a method with a
loop, proved against a specification about which the lemmas are. Where several fibers interleave, each atomic update
is one step of a state machine, `Run` is a finite run of it from the start, and the main results hold in every state
of every run.

## What the proofs found

- A terminal notification that declares one turn and nests another can claim the nested turn, fail its own lookup of
  the declared one after the session has died, and abort, so that the turn it claimed is never completed and its
  awaiter waits for ever. `CodexLosing.DisagreeingLoses` gives such a run for every two different turns;
  `CodexTerminal.AgreeingNeverLoses` shows that no run in which every notification names one turn has that outcome;
  `CodexTerminal.LosesExactly` is the exact step. The comment at `packages/adapter-codex/src/inbound.ts:259-263` does
  not mention this.
- A wait for a reply or a turn can still end if and only if no notification has dropped what is awaited or holds it and
  is about to (`CodexLiveness.WaitCanEndIffNotDoomed`).
- A limited request waits at most one emission interval for each permit, and one more for each interrupted booking that
  could not be given back and is still ahead of the clock (`RateLimit.WaitBound`, which is attained for all settings:
  `RateLimit.WaitBoundAttained`). The permits alone bound every wait if and only if there is one permit
  (`RateLimit.PermitsSufficeIffOne`), as long as nobody is interrupted between booking and sleeping: such a booking is
  never given back, and breaks the bound for every number of permits (`RateLimit.AbandonDelays`).
- A retry of work whose push was accepted pushes nothing, keeps it on the branch and reports `Published`
  (`Publication.PublishTwice`), except when what was pushed came out as the base itself on a branch that was new: then
  it reports `NoChanges` (`Publication.RetryReadsAsNoChanges`, and `Publication.RetryCanReadAsNoChanges` for its input),
  which `packages/adapter-node/src/source-control.ts:256-261` does not foresee. Where the lease
  covers what was pushed already, the same is proved of every retry none of whose commands fails.
- A comment says that a member of a dependency cycle can never have all its blockers satisfied
  (`src/operator/operator.ts:121-122`). That is so of every cycle the completed issue is not on
  (`Cascade.KnotStaysHeld`), and an issue is never cleared exactly when it is in such a knot (`Cascade.HeldIffKnotted`).
  A cycle the completed issue is on is cleared whole if and only if nothing else holds its other members
  (`Cascade.OwnCycleOpens`): a plain one always is (`Cascade.PlainCycleOpens`), but not every one is
  (`Cascade.OwnCycleCanStayShut`).
- A concatenated diff counts exactly if and only if every file header has a header section to stand in
  (`DiffCounts.ExactCounts`), with one line too many each way for every header that has not, as
  `packages/adapter-codex/src/file-changes.ts:116-119` concedes.

## Model

| member | source | states |
|---|---|---|
| ConnectionState.ConnectionRef.Select | packages/adapter-codex/src/connection-state.ts:87-104 | an existing turn wins over the session's error, and the error over the caller's candidate, which is otherwise installed |
| ConnectionState.ConnectionRef.Claim | packages/adapter-codex/src/connection-state.ts:107-121 | true, and the turn marked claimed, only for the same Deferred not claimed before |
| ConnectionState.ConnectionRef.BeginTimer | packages/adapter-codex/src/connection-state.ts:124-141 | starts a timer only for the very record the caller selected, unclaimed and untimed |
| ConnectionState.ConnectionRef.ReleaseTimer | packages/adapter-codex/src/connection-state.ts:147-158 | releases the timer of the same turn only |
| ConnectionState.ConnectionRef.Register | packages/adapter-codex/src/connection-state.ts:177-196 | a fresh id and an unclaimed entry, or the session's error and nothing |
| ConnectionState.ConnectionRef.ClaimReply | packages/adapter-codex/src/connection-state.ts:199-210 | an unclaimed request is handed out once, marked claimed |
| ConnectionState.ConnectionRef.Expire | packages/adapter-codex/src/connection-state.ts:213-226 | drops exactly the caller's own unclaimed request, and says whether it did |
| ConnectionState.ConnectionRef.Remove | packages/adapter-codex/src/connection-state.ts:229-241 | forgets the entry of this reply and no other |
| ConnectionState.ConnectionRef.Adopt | packages/adapter-codex/src/connection-state.ts:251-262 | takes the identities a message names and keeps what it does not name |
| ConnectionState.ConnectionRef.MarkStarted | packages/adapter-codex/src/connection-state.ts:265-284 | the first caller records the turn, its count and that it is in flight; later ones change nothing |
| ConnectionState.ConnectionRef.BeginClose | packages/adapter-codex/src/connection-state.ts:365-368 | closes, and says whether this call did |
| ConnectionState.ConnectionRef.StartCount | packages/adapter-codex/src/connection-state.ts:357-362 | the count of the first registered `turn/start` still pending |
| ConnectionState.ClaimTurns | packages/adapter-codex/src/connection-state.ts:390-403 | the claiming loop: every turn ends claimed, and those newly claimed, the stand-in candidate included, are exactly the ones returned |
| ConnectionState.ConnectionRef.ClaimEverything | packages/adapter-codex/src/connection-state.ts:383-416 | all pending requests handed out and dropped, all turns claimed, and the first remembered error kept, in one update |
| CodexSteps.AdvanceKeeps | packages/adapter-codex/src/session-runtime.ts:191-285 | every step of every requester, handler, failure, settler and timer keeps the ownership invariant: each reply is completed, unclaimed in `pending`, or held by exactly one fiber, and each turn is claimed exactly when completed, held or lost |
| CodexSteps.RunKeeps | packages/adapter-codex/src/connection-state.ts:9-19 | so every reachable state has it |
| CodexSafety.CompletionTakes | packages/adapter-codex/src/turns.ts:41-77 | whoever completes a Deferred is the one fiber holding it, finds it not completed, and its result is the one stored: each is completed at most once |
| CodexSafety.ResultsStay | packages/adapter-codex/src/turns.ts:41-44 | a result never changes afterwards, over any run |
| CodexSafety.FirstToTakeOn | packages/adapter-codex/src/connection-state.ts:106-121 | a fiber that takes a Deferred on is the first: nothing bound its result before, and from then on it is bound |
| CodexSafety.PromiseHeld | packages/adapter-codex/src/inbound.ts:262-263 | what the first claim decided is what it is completed with, at every later moment, unless an aborted notification drops it |
| CodexSafety.FirstClaimReturned | packages/adapter-codex/src/session-runtime.ts:205-233 | a requester or awaiter returns exactly what the first claim decided, whatever its own timeout and everybody else do meanwhile |
| CodexSafety.ClaimedResponseReturned | packages/adapter-codex/src/inbound.ts:88-166 | a response that claimed its request is what the requester returns, even when its timeout fires before delivery |
| CodexSafety.QuietMeansSettled | packages/adapter-codex/src/turns.ts:45-81 | with no handler in flight, claimed and completed coincide for every turn not lost, and a reply is completed exactly when its request is not waiting unclaimed |
| CodexSafety.FailureBinds | packages/adapter-codex/src/session-runtime.ts:240-285 | session failure binds every pending reply and every turn not claimed before to its error |
| CodexSafety.FailureLeavesNothing | packages/adapter-codex/src/connection-state.ts:376-388 | after it nothing is pending, every reply is completed or held, every turn is claimed, the one in flight included |
| CodexOrigins.ResultOrigin | packages/adapter-codex/src/inbound.ts:88-166 | at every moment of every run, a request's result is what a response to that request carried or its read timeout, a turn's is what a report of that turn said or its silence timeout, or either is what the session failed with |
| CodexOrigins.RepliesAreAnswers | packages/adapter-codex/src/inbound.ts:144-166 | a request succeeds only with the value of a response to that request |
| CodexOrigins.CompletionsAreReports | packages/adapter-codex/src/inbound.ts:319-335 | a turn is complete only when a report or settlement of that turn said so |
| CodexOrigins.ErrorOrigin | packages/adapter-codex/src/connection-state.ts:383-416 | the error a session remembers is one it failed with and was to remember |
| CodexOrigins.ReturnOrigin | packages/adapter-codex/src/session-runtime.ts:205-233 | whoever waits returns a result its own request or turn can have |
| CodexOrigins.ClaimedTurnReturned | packages/adapter-codex/src/turns.ts:41-77 | an awaiter returns the outcome of whichever settlement or notification was first to claim its turn |
| CodexOrigins.SilentTurnTimesOut | packages/adapter-codex/src/turns.ts:108-123 | an awaiter whose turn its silence timer was first to claim returns a `turn_timeout` failure |
| CodexOrigins.LateResponseTimesOut | packages/adapter-codex/src/session-runtime.ts:205-233 | a requester whose timeout was first to claim its request returns a `read_timeout` failure |
| CodexOrigins.DeadSessionAnswers | packages/adapter-codex/src/connection-state.ts:87-104 | after a remembered failure every later request, and every later wait for a turn the session does not have, returns that failure |
| CodexStarts.StartedBeforeAnswered | packages/adapter-codex/src/inbound.ts:117-155 | by the time the reply to a `turn/start` can be read, the turn its response names has a record and has been reported started |
| CodexStarts.KnownBeforeAnswered | packages/adapter-codex/src/inbound.ts:117-125 | by the time a reply can be read whose response names a thread, the session knows its thread |
| CodexStarts.StartedBeforeReported | packages/adapter-codex/src/inbound.ts:280-292 | a notification that finds a `turn/start` pending has started its turn by the time the turn it claimed can be seen to end, and by the time it is done |
| CodexStarts.StartedIsCurrent | packages/adapter-codex/src/connection-state.ts:265-284 | in every run the turn a step starts is the session's turn right after it, with the count it was started with |
| CodexStarts.RunTimers | packages/adapter-codex/src/turns.ts:98-133 | in every reachable state a turn is marked as timed exactly when its silence timer runs, and then one does |
| CodexTerminal.LastingOverRun | packages/adapter-codex/src/connection-state.ts:106-121 | over any run turns keep their Deferred and stay claimed, so a claim is won at most once, and a turn keeps the count it was first started with |
| CodexTerminal.StartsCounted | packages/adapter-codex/src/connection-state.ts:265-284 | in every reachable state the turns started are exactly those with a recorded count |
| CodexTerminal.TerminalQuiescence | packages/adapter-codex/src/connection-state.ts:383-416 | after a remembered failure, at every later moment: the same error, nothing pending, no request or turn added, all turns claimed |
| CodexTerminal.NoBrokenResponse | packages/adapter-codex/src/inbound.ts:144-155 | in no reachable state does a response handler's own turn lookup fail |
| CodexTerminal.LosesExactly | packages/adapter-codex/src/inbound.ts:274-292 | a claimed turn is dropped exactly when the notification holding it looks up another turn, absent, after a remembered failure |
| CodexTerminal.LostForever | packages/adapter-codex/src/inbound.ts:289-291 | what is dropped is never completed later |
| CodexTerminal.LostAwaiterHangs | packages/adapter-codex/src/turns.ts:164-171 | and whoever awaits it stays waiting at every later moment |
| CodexTerminal.AgreeingNeverLoses | packages/adapter-codex/src/inbound.ts:265-335 | if every notification of a run names one turn, nothing is ever dropped |
| CodexTerminal.ClaimedIsCompleted | packages/adapter-codex/src/turns.ts:41-81 | and then, with no handler in flight, claimed and completed coincide |
| CodexLosing.DisagreeingLoses | packages/adapter-codex/src/inbound.ts:274-292 | for every two different turns a notification names, a run that claims one of them and never completes it |
| CodexWatch.RunWatched | packages/adapter-codex/src/turns.ts:98-133 | in every reachable state a turn somebody awaits is claimed or has its silence timer running |
| CodexLiveness.OwnerFinishes | packages/adapter-codex/src/session-runtime.ts:257-283 | whoever holds a Deferred, and is not about to drop it, completes it by at most four steps of its own, never blocked |
| CodexLiveness.NobodyIsStuck | packages/adapter-codex/src/turns.ts:158-171 | every wait for a reply or a turn can be brought to return by the waiter and at most one other fiber, unless the turn was dropped or is about to be |
| CodexLiveness.RequesterReturns | packages/adapter-codex/src/session-runtime.ts:205-233 | a requester can always return |
| CodexLiveness.EveryWaitCanEnd | packages/adapter-codex/src/turns.ts:158-171 | every run extends to one in which a given wait has returned, unless the turn was dropped or is about to be |
| CodexLiveness.WaitCanEndIffNotDoomed | packages/adapter-codex/src/turns.ts:158-171 | after any run a wait can still return if and only if no notification has dropped what it waits for, or holds it and is about to |
| CodexLiveness.DoomedAwaiterHangs | packages/adapter-codex/src/inbound.ts:274-292 | whoever awaits a turn that is dropped or about to be is still waiting at every later moment |
| CodexLiveness.EveryWaitReturns | packages/adapter-codex/src/turns.ts:158-171 | with a result, when every notification names one turn |
| CodexLiveness.LockComesFree | packages/adapter-codex/src/session-runtime.ts:62-63 | whoever has the lifecycle semaphore can release it by its own steps alone |
| Usage.UsageLedger.Accumulate | packages/adapter-codex/src/connection-state.ts:333-354 | after any readings, each turn is at its per-field maximum and the answer is the sum over turns, no less than before in any field |
| Usage.UsageLedger.SessionUsage | packages/adapter-codex/src/inbound.ts:353-363 | only a `turn/usage` reading that names its turn is accumulated; any other passes unchanged |
| Usage.SumLedger | packages/adapter-codex/src/connection-state.ts:345-352 | the loop's sum is the sum over all turns |
| Usage.TotalIsSums | packages/adapter-codex/src/connection-state.ts:345-352 | the total is, field by field, the sum of the integers over the turns |
| Usage.LedgerRecords | packages/adapter-codex/src/connection-state.ts:339-344 | after any readings every turn read is in the ledger at its per-field maximum, and no other |
| Usage.OrderAndRepetition | packages/adapter-codex/src/connection-state.ts:328-332 | readings in another order, or repeated, come to the same total |
| Usage.TotalNeverFalls | packages/adapter-codex/src/connection-state.ts:330-332 | the total never falls in any field, however many readings follow |
| Usage.TotalMoves | packages/adapter-codex/src/connection-state.ts:328-332 | a reading raises the total by exactly what it exceeds its turn's mark by |
| RateLimit.GitHubRateLimit.Reserve | packages/adapter-github/src/rate-limit.ts:193-201 | books one emission interval, of which as many as there are requests make the interval, after the bucket or now, whichever is later, and answers the wait beyond the tolerance |
| RateLimit.GitHubRateLimit.Surrender | packages/adapter-github/src/rate-limit.ts:203-210 | gives back only the last booking |
| RateLimit.RunKeeps | packages/adapter-github/src/rate-limit.ts:180-262 | in every run the bookings in force form a chain ending at the bucket, requests start no earlier than booked, and permits are respected |
| RateLimit.SurrenderRestores | packages/adapter-github/src/rate-limit.ts:203-210 | a surrender restores the very bucket it was booked on, and drops it below no booking that stands |
| RateLimit.RateBound | packages/adapter-github/src/rate-limit.ts:175-178 | the requests started from one booking to another span an emission interval for each beyond the burst, measured from when the first was due, with any rollbacks in between |
| RateLimit.RateOfSettings | packages/adapter-github/src/rate-limit.ts:175-201 | in the settings' own terms: the requests started from one booking to another take a full interval for every `requestsPerInterval` of them beyond the first so many |
| RateLimit.PermitsRespected | packages/adapter-github/src/rate-limit.ts:239-262 | at no moment are more requests in flight than permits |
| RateLimit.WaitBound | packages/adapter-github/src/rate-limit.ts:239-262 | a booking waits at most an emission interval for each permit, and one for each forfeited booking still ahead of the clock, beyond the age of its clock reading |
| RateLimit.WaitOfSettings | packages/adapter-github/src/rate-limit.ts:239-262 | the same in terms of `intervalMs`, `requestsPerInterval` and `concurrency` |
| RateLimit.WaitBoundAttained | packages/adapter-github/src/rate-limit.ts:239-262 | for all settings, a run without interruptions in which that bound is met with equality |
| RateLimit.ForfeitsDelay | packages/adapter-github/src/rate-limit.ts:203-210 | for all settings with two permits or more, a run in which a forfeit makes somebody wait an interval longer than the permits allow |
| RateLimit.PermitsSufficeIffOne | packages/adapter-github/src/rate-limit.ts:203-224 | while every booking reaches its sleep, the permits alone bound every wait of every run if and only if there is one permit |
| RateLimit.AbandonDelays | packages/adapter-github/src/rate-limit.ts:239-262 | for all settings, an interruption between booking and sleep makes somebody wait an interval longer than the permits allow |
| Splitting.SplitInvertsUnsplit | packages/adapter-codex/src/framing.ts:109-122 | splitting joined lines gives the lines and the tail back |
| Splitting.UnsplitInvertsSplit | packages/adapter-codex/src/framing.ts:109-122 | joining split lines gives the stream back |
| Framing.Frame | packages/adapter-codex/src/framing.ts:84-133 | one chunk is rejected exactly when tail and chunk break the limit; otherwise the lines, CR stripped, are emitted and the true tail held within the limit and one byte |
| Framing.FramedLines | packages/adapter-codex/src/framing.ts:135-174 | under every chunking: failed exactly when the whole stream breaks the limit; otherwise exactly its LF-split lines, CR stripped, with the tail dropped or flushed; and before a failure only lines that precede the offender |
| Framing.LinesComeBack | packages/adapter-codex/src/framing.ts:84-133 | lines written with LF or CRLF in any mixture come back as they were, and an unterminated tail after them |
| Framing.WrittenIsRead | packages/adapter-codex/src/framing.ts:135-174 | so a reader is owed exactly what was written, and rejects it exactly when the text of a line is over the limit |
| Framing.OverrunIsFinal | packages/adapter-codex/src/framing.ts:85-91 | no continuation of a rejected stream would have been accepted |
| PemRecords.DiagnosticRecords | packages/adapter-codex/src/framing.ts:213-222 | one state carried over all lines and flushed at the end |
| PemRecords.HeaderMatch | packages/adapter-codex/src/framing.ts:179 | the recogniser accepts exactly what the pattern matches at a position, with its label |
| PemRecords.FirstHeader | packages/adapter-codex/src/framing.ts:179 | the header found is the first in the line, with its label and its end; none is found only where there is none |
| PemRecords.PrintedBlock | packages/adapter-codex/src/framing.ts:183-222 | a printed key block comes out as what stood before its header and the redaction text, whatever else its lines hold |
| PemRecords.PrintedBlockUnclosed | packages/adapter-codex/src/framing.ts:204-222 | and so does one the stream ends in |
| PemRecords.OneLineBlock | packages/adapter-codex/src/framing.ts:195-198 | a block opened and ended on one line is that line, trimmed |
| PemRecords.PlainLine | packages/adapter-codex/src/framing.ts:201-202 | a line with no header is a record of its own, trimmed, unless nothing is left of it |
| PemRecords.BlankLine | packages/adapter-codex/src/framing.ts:201-202 | a line of blanks, tabs and line ends is no record |
| PemRecords.TrimIs | packages/adapter-codex/src/framing.ts:201 | trimming takes the white space off both ends and nothing else |
| PemRecords.KeyMaterialIsInvisible | packages/adapter-codex/src/framing.ts:183-222 | streams that differ only after the header of a key block, on its opening line or on the lines after it, before its end marker, give the same records |
| PemRecords.InsideIsInvisible | packages/adapter-codex/src/framing.ts:183-222 | nor does it matter what a block that is open already goes on with |
| PemRecords.RecordCount | packages/adapter-codex/src/framing.ts:183-222 | one record for each multi-line block, closed or not, and for each other non-blank line |
| DiffCounts.DiffCounts | packages/adapter-codex/src/file-changes.ts:123-157 | the one-pass reader with look-ahead counts what a reader with three places counts |
| DiffCounts.Recognises | packages/adapter-codex/src/file-changes.ts:102-144 | the lines the reader goes by are exactly those with these texts in front |
| DiffCounts.CountInvertsPrinting | packages/adapter-codex/src/file-changes.ts:105-121 | for every patch printed with its real header texts, and any content, the true totals plus one of each for every header read as content |
| DiffCounts.ExactCounts | packages/adapter-codex/src/file-changes.ts:116-121 | the count is exact if and only if every header is preceded by its own `diff --git` or by no content |
| DiffCounts.ConcatenationAdds | packages/adapter-codex/src/file-changes.ts:116-119 | counts of texts add up when the second starts with `diff --git` |
| DiffCounts.HeaderAloneMiscounts | packages/adapter-codex/src/file-changes.ts:117-119 | two files set apart by header alone that are miscounted |
| Cascade.Index | src/operator/operator.ts:130-143 | both indexes agree with the open issues and their unresolved blockers |
| Cascade.Visit | src/operator/operator.ts:153-162 | looking at one finished issue clears only what must be cleared, and misses nothing it was the last blocker of |
| Cascade.Walk | src/operator/operator.ts:146-163 | the worklist ends with exactly the least closed set containing the start |
| Cascade.DownstreamCounts | src/operator/operator.ts:126-167 | each issue's count is the size of that set without itself |
| Cascade.Unresolved | packages/core/src/domain/dependencies.ts:8-14 | the blockers whose normalised state is not terminal |
| Cascade.ClearedIsLeast | src/operator/operator.ts:118-121 | the set is closed and is in every closed set with the start, so no order of the worklist matters |
| Cascade.ClosedMeans | src/operator/operator.ts:118-119 | closed means: has every issue with something left to wait for, all of it cleared |
| Cascade.KnotStaysHeld | src/operator/operator.ts:121-122 | no member of a set that waits on itself, the start not among them, is ever counted |
| Cascade.HeldIffKnotted | src/operator/operator.ts:118-122 | an issue is never counted if and only if it is in some set, the start not in it, each of whose members waits on nothing or on another member |
| Cascade.TiedMeans | src/operator/operator.ts:118-122 | for issues listed once each, that is what a member of such a set is |
| Cascade.OwnCycleOpens | src/operator/operator.ts:121-122 | a cycle of any length that the completed issue is on is cleared whole if and only if so is all that its other members wait on besides the members before them |
| Cascade.PlainCycleOpens | src/operator/operator.ts:121-122 | a cycle whose members wait on nothing but members before them is cleared whole |
| Cascade.OwnCycleCanStayShut | src/operator/operator.ts:121-122 | a backlog in which completing an issue leaves the rest of its own cycle held |
| DependencyGraph.VisitedIffAcyclic | src/operator/ui/graph.ts:26-44 | a layering's visited nodes are exactly those with no cycle among themselves and their ancestors |
| DependencyGraph.LayerIsLongest | src/operator/ui/graph.ts:36-37 | a visited node's layer is the length of a longest path to it |
| DependencyGraph.LayeringUnique | src/operator/ui/graph.ts:1-3 | a graph has one layering, whatever the queue order |
| Layout.Prepare | src/operator/ui/graph.ts:17-25 | indegrees and sorted outgoing lists agree with the edges, repetitions included |
| Ordering.LeqMeans | src/operator/ui/graph.ts:12-30 | the order everything is sorted by: a string comes before those it begins, and otherwise the first difference decides |
| Layout.Relax | src/operator/ui/graph.ts:36-43 | one node taken out of what its dependents wait for: layers raised, counts lowered, those with none left queued once |
| Layout.Walk | src/operator/ui/graph.ts:26-44 | terminates with a layering of all the nodes that have one, having taken at every step the least of those that waited for nothing |
| Layout.OneOrder | src/operator/ui/graph.ts:1-3 | a graph has one such order of visits |
| Layout.LastLayer | src/operator/ui/graph.ts:45 | the largest layer, or zero |
| Layout.Columns | src/operator/ui/graph.ts:51-57 | each column has the nodes of its layer in order |
| Layout.Place | src/operator/ui/graph.ts:58-64 | each node stands at the place of its column and its row there |
| Layout.Size | src/operator/ui/graph.ts:65-69 | the stage is as large as its columns and no larger |
| Layout.GraphLayout | src/operator/ui/graph.ts:5-70 | the drawing is the one its graph determines, and fits the stage |
| Layout.RowIsRank | src/operator/ui/graph.ts:59-63 | a node's row is how many names of its column come before it |
| Layout.PlacesDiffer | src/operator/ui/graph.ts:58-64 | no two nodes share a position |
| Layout.EdgesGoRight | src/operator/ui/graph.ts:36-50 | an edge goes strictly right exactly when no cycle is behind its blocker; otherwise both ends are in the last column |
| Layout.ColumnsMean | src/operator/ui/graph.ts:45-50 | a node's column is its longest path, or past them all when a cycle is behind it |
| Layout.SameGraphSameDrawing | src/operator/ui/graph.ts:1-3 | one backlog always draws the same plan, whatever order or repetition its edges are listed in |
| Registry.ActiveRegistry.Lease | packages/coordinator/src/registry.ts:93-98 | a lease of the installed generation for a known entry only |
| Registry.ActiveRegistry.Publish | packages/coordinator/src/registry.ts:99-110 | accepted, and recorded, only for the installed generation and a known entry |
| Registry.ActiveRegistry.TakeGeneration | packages/coordinator/src/registry.ts:64-69 | consumes a generation and changes nothing else |
| Registry.ActiveRegistry.Install | packages/coordinator/src/registry.ts:80-83 | entries, generation and scope replaced and statuses cleared at once |
| Registry.RunKeeps | packages/coordinator/src/registry.ts:59-88 | in every run the open scopes are the installed one and what a reload in progress holds, and every other was closed exactly once |
| Registry.OneScopeOpen | packages/coordinator/src/registry.ts:1 | outside a reload exactly one child scope is open |
| Registry.NeverAcceptedAgain | packages/coordinator/src/registry.ts:64-65 | a failed or retired generation is never accepted again |
| Registry.FencedOff | packages/coordinator/src/registry.ts:64-79 | in particular neither one whose preparation failed nor one that was replaced |
| Registry.FailedReloadsChangeNothing | packages/coordinator/src/registry.ts:71-79 | until a reload is installed, entries, generation and scope stay, and the statuses are those before with every accepted publication recorded in turn |
| Registry.ReloadInstalls | packages/coordinator/src/registry.ts:59-88 | from every idle state a reload that nothing fails installs its entries under the next generation, in a scope that is then the only one open |
| Registry.FailedReloadEnds | packages/coordinator/src/registry.ts:71-79 | and one whose preparation fails ends with nothing changed but a generation used up |
| Registry.LatestStands | packages/coordinator/src/registry.ts:99-110 | an accepted publication stands until one to the same entry, or an installed reload |
| Registry.NothingElseRecorded | packages/coordinator/src/registry.ts:80-110 | a publication under any other lease changes nothing; an installed reload brings its own entries, generation and scope, and no statuses |
| Registry.LeaseLife | packages/coordinator/src/registry.ts:84-110 | a lease is honoured if and only if no reload was installed since it was taken |
| WorkflowStore.Worker.HandleCommit | packages/adapter-node/src/workflow-database-worker.ts:29-48 | a commit conflicts, commits row and history together, or is rolled back whole |
| WorkflowStore.Connection.Request | packages/adapter-node/src/workflow-store.ts:86-98 | a fresh call number, pending, unless the worker is gone |
| WorkflowStore.Connection.Resume | packages/adapter-node/src/workflow-store.ts:65-84 | an answer settles a pending call and no other |
| WorkflowStore.Connection.GiveUp | packages/adapter-node/src/workflow-store.ts:50-56 | every pending call settled with a storage failure, and no more accepted |
| WorkflowStore.TransactKeeps | packages/adapter-node/src/workflow-database-worker.ts:29-48 | a commit that advances one revision never meets its history key, and keeps the history full |
| WorkflowStore.CommitsWhenCurrent | packages/adapter-node/src/workflow-database-worker.ts:29-48 | a commit is made exactly when the issue is at the revision it expects, and then it is the row and the newest history, and nothing else changes |
| WorkflowStore.RunKeeps | packages/adapter-node/src/workflow-store.ts:46-119 | in every run, with other connections, deadlines, interruptions and a dying worker, tables, answers and commits agree |
| WorkflowStore.DecidedByRevision | packages/adapter-node/src/workflow-database-worker.ts:32-37 | in every run a request taken up is committed exactly when its issue is at the revision it expects, and conflicts otherwise |
| WorkflowStore.ToldTheTruth | packages/adapter-node/src/workflow-store.ts:71-83 | a client told of success did commit, and what it asked for; one told of a conflict did not and never will by that call |
| WorkflowStore.AskedFor | packages/adapter-node/src/workflow-store.ts:86-98 | what a call asked for is on record from then on, unchanged |
| WorkflowStore.NoCallForgotten | packages/adapter-node/src/workflow-store.ts:46-119 | in every run each call made was answered, lost its caller, or is pending with the worker or its answer on the way |
| WorkflowStore.EveryCallAnswered | packages/adapter-node/src/workflow-store.ts:65-84 | every pending call can be answered by the worker's and its answers' steps alone |
| WorkflowStore.InterruptedForGood | packages/adapter-node/src/workflow-store.ts:86-119 | a caller interrupted while it waited is never resumed, whatever is answered after |
| WorkflowStore.DeadlineStands | packages/adapter-node/src/workflow-store.ts:93-98 | a deadline answers a waiting call with a storage failure, and no later answer is told |
| WorkflowStore.OneWinner | packages/adapter-node/src/workflow-database-worker.ts:32-37 | at most one commit succeeds on an expected revision |
| WorkflowStore.HistoryComplete | packages/adapter-node/src/workflow-database-worker.ts:38-41 | an issue's history is exactly its revisions from zero to the row's, the row is the last, and no insert collides |
| GitHistory.DeliveredStays | packages/adapter-node/src/git-publication.ts:149-176 | whatever the branch carries at any moment stays on it through every later push under a lease that does not cover it, whatever leases were held before, unless others take it off |
| GitHistory.SecondPushNeedsUndoing | packages/adapter-node/src/git-publication.ts:149-176 | a second push under one lease needs somebody else to have put the branch back |
| GitRepository.Repository.NothingTakenOff | packages/adapter-node/src/git-publication.ts:149-176 | so a remote whose other writers only build on top loses nothing to a host whose pushes since were under one lease |
| GitRepository.Repository.Push | packages/adapter-node/src/git-publication.ts:169-175 | the remote swaps only the expected head, possibly without the host hearing of it |
| Publication.PrepareRepository | packages/adapter-node/src/source-control.ts:119-182 | the lease is the head the remote answered; the workspace is clean at that head, at the exact repair head, or at the base; it succeeds unless a command fails, the repair's head moved, or the branch went away meanwhile |
| Publication.AlreadyOnRemote | packages/adapter-node/src/git-publication.ts:97-123 | when no command fails, yes exactly if the fetched branch carries the commit; yes in no other case |
| Publication.CommitChanges | packages/adapter-node/src/source-control.ts:224-246 | refused over a paused rebase; otherwise everything uncommitted becomes one commit whose parent is HEAD, and a clean workspace is left as it is |
| Publication.RebaseOntoBase | packages/adapter-node/src/git-publication.ts:58-87 | on success HEAD sits on the fetched base; after a failure that left no rebase behind HEAD is where it was |
| Publication.PushUnderLease | packages/adapter-node/src/git-publication.ts:154-176 | at most one push, over the recorded head only, and one that succeeds unless a command fails or the branch is, or was seen, elsewhere; a moved branch is refused without pushing |
| Publication.RebaseAndPush | packages/adapter-node/src/source-control.ts:273-276 | what is pushed sits on the fetched base and is what is reported; it succeeds unless a command fails or the branch has moved |
| Publication.PublishRepository | packages/adapter-node/src/source-control.ts:217-284 | at most one push, over the head recorded at preparation and on the base as just fetched, leaving a clean workspace at what the remote took, told or not; what is reported published is on the branch; and a retry of delivered work pushes nothing and answers as `RetryOutcome` says, surely if no command fails, whatever others built on top; it succeeds unless a command fails, a rebase was left open, or the branch has moved, with no changes exactly for a clean workspace at the baseline |
| Publication.PublishTwice | packages/adapter-node/src/source-control.ts:256-271 | after a push the remote took, acknowledged or not, a second publication pushes nothing, what was pushed is still on the branch whatever others built on it, and it is reported as `RetryOutcome` says; for a lease that covers it, when no command of the retry fails |
| Publication.DeliverRepeatedly | packages/adapter-node/src/git-publication.ts:149-176 | any number of publications and rebases under one preparation push over its head alone, and take nothing beyond that head off a branch whose other writers build on top |
| Publication.RetryReadsAsNoChanges | packages/adapter-node/src/source-control.ts:247-271 | a retry of work the lease does not cover reads as no changes exactly when the branch was new and the delivered head is the base it was prepared from |
| Publication.RetryCanReadAsNoChanges | packages/adapter-node/src/source-control.ts:247-271 | an input on which it does: a new branch and a clean workspace behind the base |
| Publication.RebaseRepository | packages/adapter-node/src/source-control.ts:298-327 | unchanged when HEAD has the base as fetched, and then only; otherwise rebased and pushed under the same lease; it succeeds unless a command fails or the branch has moved |
| Candidates.AssertCandidate | packages/adapter-node/src/git-candidate-state.ts:20-37 | passes only if head, tree and a clean status were seen to be the candidate's, and in an exclusive workspace with no failing command exactly then |
| Candidates.CandidateSourceControl.Checkpoint | packages/adapter-node/src/git-candidate.ts:23-72 | the candidate is what an exclusive workspace holds, clean, on top of its baseline; none exactly for an untouched baseline that does not count, with nothing retained; when no command fails it succeeds exactly over no open rebase, for a retained candidate in place or a workspace that descends from its baseline |
| Candidates.CandidateSourceControl.Align | packages/adapter-node/src/git-candidate.ts:74-94 | the candidate ends up on the base as fetched, under the lease it had; when no command fails it succeeds exactly for a candidate in place |
| Candidates.Observe | packages/adapter-node/src/git-candidate.ts:96-135 | published if and only if the branch as read carries the candidate, when no command fails, and surely for one that carried it all along; unpublished only if the branch is where it was; diverged only if it is not |
| Candidates.CandidateSourceControl.Verify | packages/adapter-node/src/git-verification.ts:32-71 | evidence is given if and only if the command passed between two sightings of this very head, tree and clean workspace |
| Candidates.CandidateSourceControl.Publish | packages/adapter-node/src/git-candidate.ts:137-170 | at most one push, of the hash the evidence names, over the recorded head, right after it was seen in the workspace; nothing when the evidence names another candidate, nor, when no command fails, when the branch carries the candidate already, which is then answered published; a candidate in place is published unless a command fails or the branch has moved |

## Left out

- Process spawning, pipes, signals, SQLite, HTTP and the git binary: each is an atomic step that may fail or go
  unacknowledged.
- Interruption of a Codex fiber: it stops between steps in the model only by not being scheduled. Stopping a session
  closes it without remembering a failure, so quiescence is stated for remembered failures.
- Event payloads, timestamps, logs, redaction, schema decoding and metrics: opaque or absent. Rate-limit snapshot
  merging is not part of this model.
- `receiveLine` dispatch, host tools and approvals: a response or notification handler may start at any moment, which
  allows every order the reader allows and more. `failCurrentTurn` and `failUnlessClosed` appear as the failure or the
  settlement they choose.
- The activity queue of a turn: a silence timer may run out at any moment, which covers every re-arming.
- CodexLiveness.EveryWaitReturns: states that a schedule ending the wait exists, not that a particular scheduler is fair.
- RateLimit.RateBound: reals stand for the floating-point milliseconds of the source, so rounding is not modelled.
- The limiter's queue of waiting entries and its status: they are read by operators and decide nothing.
- Framing.FramedLines: lines are byte sequences; decoding them as UTF-8 is not modelled.
- PemRecords.DiagnosticRecords: characters are Unicode scalar values, as the pattern's `u` flag reads them; lone
  surrogates do not occur.
- Ordering of identifiers: by scalar value, which differs from UTF-16 code units outside the basic plane.
- Layout.GraphLayout: takes identifiers that are distinct, as those of a backlog snapshot are.
- Cycle detection and the rest of the backlog snapshot: separate computations whose results the two graph loops do not
  read.
- Registry decoding, labels and the snapshot: they are derived from the state modelled here.
- WorkflowStore.Worker.HandleCommit: reads and listings are not modelled, and a client's deadline is an event that may
  happen at any time.
- Publication.PublishRepository: what is said of the reported head is said for a workspace nobody else touches, because
  the push names HEAD rather than the head just read. It is modelled without a conflict resolver: the paused-rebase
  repair continuation depends on git's sequencer and an external repairer.
- Candidates.AssertCandidate: its three reads are three moments; in a workspace others touch, passing means each was
  seen, not that all held at once.
- `inspectRepository` and recovery's read of the remote head: reads that decide nothing modelled here.
- Workspace leases, cleanup and retention, orchestrator dispatch and delivery, the operator server and its documents,
  configuration and the command line: the predicates and transitions that decide them are not part of this model, or
  they are plumbing.
