/** Where everything a Codex session reports comes from: a result is what the response, notification or
    failure that first claimed its Deferred carried, or the timeout of whoever waited. */
module CodexOrigins {
  import opened Options
  import opened ConnectionState
  import opened CodexSession
  import opened CodexInvariant
  import opened CodexSteps
  import opened CodexEffects
  import opened CodexWatch
  import opened CodexSafety
  import opened CodexTerminal

  /** What came in over the first `k` steps: the places fibers were started at. */
  ghost function Started(steps: seq<Step>, k: nat): set<Pc>
    requires k <= |steps|
  {
    set i | 0 <= i < k && steps[i].Spawn? :: steps[i].pc
  }

  predicate TimedOut(r: Result, category: string) {
    r.Failed? && r.error.category == category
  }

  /** A response to this very request carried this. */
  ghost predicate ByResponse(entries: set<Pc>, id: nat, r: Result) {
    exists answer :: ResponseWaiting(id, answer) in entries && r == ResultOf(answer)
  }

  /** The session failed with this. */
  ghost predicate ByFailure(entries: set<Pc>, r: Result) {
    exists error, remember :: FailWaiting(error, remember) in entries && r == Failed(error)
  }

  /** This very turn was reported, or settled, this way. */
  ghost predicate ByReport(entries: set<Pc>, turnId: string, r: Result) {
    SettleSelecting(turnId, r, None) in entries || exists declared :: NoteSelecting(turnId, r, declared) in entries
  }

  ghost predicate ReplyFrom(entries: set<Pc>, id: nat, r: Result) {
    ByResponse(entries, id, r) || ByFailure(entries, r) || TimedOut(r, "read_timeout")
  }

  ghost predicate TurnFrom(entries: set<Pc>, turnId: string, r: Result) {
    ByReport(entries, turnId, r) || ByFailure(entries, r) || TimedOut(r, "turn_timeout")
  }

  /** A Deferred's result is one its own request, or its own turn, can have. */
  ghost predicate CellFrom(entries: set<Pc>, s: State, c: Cell, r: Result) {
    && (c in s.requests ==> ReplyFrom(entries, s.requests[c], r))
    && (forall t :: t in s.conn.turns && s.conn.turns[t].settlement == c ==> TurnFrom(entries, t, r))
  }

  /** A handler that has claimed nothing yet still carries what it came with; a silence timer carries its
      timeout. */
  ghost predicate PcFrom(entries: set<Pc>, pc: Pc) {
    match pc
    case ResponseWaiting(_, _) => pc in entries
    case ResponseClaiming(id, answer) => ResponseWaiting(id, answer) in entries
    case FailWaiting(_, _) => pc in entries
    case FailClaiming(error, remember) => FailWaiting(error, remember) in entries
    case SettleSelecting(turnId, outcome, timer) => OutcomeFrom(entries, turnId, outcome, timer)
    case SettleClaiming(turnId, _, outcome, timer) => OutcomeFrom(entries, turnId, outcome, timer)
    case NoteSelecting(_, _, _) => pc in entries
    case NoteClaiming(turnId, _, outcome, declared) => NoteSelecting(turnId, outcome, declared) in entries
    case _ => true
  }

  ghost predicate OutcomeFrom(entries: set<Pc>, turnId: string, outcome: Result, timer: Option<TurnState>) {
    if timer.Some? then TimedOut(outcome, "turn_timeout") else SettleSelecting(turnId, outcome, None) in entries
  }

  ghost predicate FibersFrom(entries: set<Pc>, s: State) {
    forall f :: f in s.fibers ==> PcFrom(entries, s.fibers[f])
  }

  ghost predicate PromisesFrom(entries: set<Pc>, s: State) {
    forall c {:trigger Promise(s, c)} :: Promise(s, c).Some? ==> CellFrom(entries, s, c, Promise(s, c).value)
  }

  ghost predicate ErrorFrom(entries: set<Pc>, c: Connection) {
    c.terminalError.Some? ==> FailWaiting(c.terminalError.value, true) in entries
  }

  ghost predicate From(entries: set<Pc>, s: State) {
    FibersFrom(entries, s) && PromisesFrom(entries, s) && ErrorFrom(entries, s.conn)
  }

  /** Requests and turns get fresh Deferreds, and keep them. */
  ghost predicate GrowsFresh(s: State, s': State) {
    && (forall c :: c in s'.requests && c < s.cells ==> c in s.requests && s'.requests[c] == s.requests[c])
    && (forall t :: t in s'.conn.turns && s'.conn.turns[t].settlement < s.cells ==>
          t in s.conn.turns && s.conn.turns[t].settlement == s'.conn.turns[t].settlement)
  }

  lemma CellStays(entries: set<Pc>, entries': set<Pc>, s: State, s': State, c: Cell, r: Result)
    requires CellFrom(entries, s, c, r) && entries <= entries' && GrowsFresh(s, s') && c < s.cells
    ensures CellFrom(entries', s', c, r)
  {}

  lemma PcStays(entries: set<Pc>, entries': set<Pc>, pc: Pc)
    requires PcFrom(entries, pc) && entries <= entries'
    ensures PcFrom(entries', pc)
  {}

  /** Where a step leaves the fiber that makes it, and the rest of the session. */
  ghost predicate StepsFrom(entries: set<Pc>, s: State, f: Fiber, s': State) {
    GrowsFresh(s, s') && ErrorFrom(entries, s'.conn) && f in s'.fibers && PcFrom(entries, s'.fibers[f])
  }

  lemma RequesterFrom(entries: set<Pc>, s: State, f: Fiber, pc: Pc, expire: bool, s': State)
    requires RoleOf(pc).Requester? && RequesterStep(s, f, pc, expire) == Some(s') && ErrorFrom(entries, s.conn)
    ensures StepsFrom(entries, s, f, s')
  {}

  lemma ResponderFrom(entries: set<Pc>, s: State, f: Fiber, pc: Pc, s': State)
    requires RoleOf(pc).Responder? && ResponderStep(s, f, pc) == Some(s') && PcFrom(entries, pc) && ErrorFrom(entries, s.conn)
    ensures StepsFrom(entries, s, f, s')
  {
    if BringsAnswer(pc) { AnsweringFrom(entries, s, f, pc, s'); }
  }

  lemma AnsweringFrom(entries: set<Pc>, s: State, f: Fiber, pc: Pc, s': State)
    requires BringsAnswer(pc) && ResponderStep(s, f, pc) == Some(s') && ErrorFrom(entries, s.conn)
    ensures StepsFrom(entries, s, f, s')
  {}

  lemma FailAllFrom(entries: set<Pc>, s: State, f: Fiber, error: AgentError, remember: bool, s': State)
    requires s' == FailAll(s, f, error, remember) && FailWaiting(error, remember) in entries && ErrorFrom(entries, s.conn)
    ensures StepsFrom(entries, s, f, s')
  {}

  lemma FailerFrom(entries: set<Pc>, s: State, f: Fiber, pc: Pc, pick: nat, s': State)
    requires RoleOf(pc).Failer? && FailerStep(s, f, pc, pick) == Some(s') && PcFrom(entries, pc) && ErrorFrom(entries, s.conn)
    ensures StepsFrom(entries, s, f, s')
  {
    if pc.FailClaiming? { FailAllFrom(entries, s, f, pc.error, pc.remember, s'); }
  }

  lemma SettlerFrom(entries: set<Pc>, s: State, f: Fiber, pc: Pc, s': State)
    requires RoleOf(pc).Settler? && SettlerStep(s, f, pc) == Some(s') && PcFrom(entries, pc) && ErrorFrom(entries, s.conn)
    ensures StepsFrom(entries, s, f, s')
  {}

  lemma NoteClaimingFrom(entries: set<Pc>, s: State, f: Fiber, pc: Pc, s': State)
    requires (pc.NoteSelecting? || pc.NoteClaiming?) && NotifierStep(s, f, pc) == Some(s') && PcFrom(entries, pc)
    requires ErrorFrom(entries, s.conn)
    ensures StepsFrom(entries, s, f, s')
  {}

  lemma NoteReadingFrom(entries: set<Pc>, s: State, f: Fiber, pc: Pc, s': State)
    requires (pc.NoteReading? || pc.NoteEnsuring?) && NotifierStep(s, f, pc) == Some(s') && ErrorFrom(entries, s.conn)
    ensures StepsFrom(entries, s, f, s')
  {}

  lemma NotifierFrom(entries: set<Pc>, s: State, f: Fiber, pc: Pc, s': State)
    requires RoleOf(pc).Notifier? && NotifierStep(s, f, pc) == Some(s') && PcFrom(entries, pc) && ErrorFrom(entries, s.conn)
    ensures StepsFrom(entries, s, f, s')
  {
    if pc.NoteSelecting? || pc.NoteClaiming? { NoteClaimingFrom(entries, s, f, pc, s'); }
    if pc.NoteReading? || pc.NoteEnsuring? { NoteReadingFrom(entries, s, f, pc, s'); }
  }

  lemma TimingFrom(entries: set<Pc>, s: State, f: Fiber, pc: Pc, expire: bool, pick: nat, s': State)
    requires f in s.fibers && pc.TurnTiming? && AwaiterStep(s, f, pc, expire, pick) == Some(s') && ErrorFrom(entries, s.conn)
    ensures StepsFrom(entries, s, f, s')
  {}

  lemma AwaiterFrom(entries: set<Pc>, s: State, f: Fiber, pc: Pc, expire: bool, pick: nat, s': State)
    requires f in s.fibers && RoleOf(pc).Awaiter? && AwaiterStep(s, f, pc, expire, pick) == Some(s') && ErrorFrom(entries, s.conn)
    ensures StepsFrom(entries, s, f, s')
  {
    if pc.TurnTiming? { TimingFrom(entries, s, f, pc, expire, pick, s'); }
  }

  lemma AdvanceFrom(entries: set<Pc>, s: State, f: Fiber, expire: bool, pick: nat, s': State)
    requires f in s.fibers && AdvanceOf(s, f, expire, pick) == Some(s')
    requires PcFrom(entries, s.fibers[f]) && ErrorFrom(entries, s.conn)
    ensures StepsFrom(entries, s, f, s')
  {
    var pc := s.fibers[f];
    match RoleOf(pc) {
      case Requester => RequesterFrom(entries, s, f, pc, expire, s');
      case Responder => ResponderFrom(entries, s, f, pc, s');
      case Failer => FailerFrom(entries, s, f, pc, pick, s');
      case Settler => SettlerFrom(entries, s, f, pc, s');
      case Notifier => NotifierFrom(entries, s, f, pc, s');
      case Awaiter => AwaiterFrom(entries, s, f, pc, expire, pick, s');
    }
  }

  /** No turn's Deferred is a request's. */
  lemma NoTurns(s: State, c: Cell)
    requires TurnsOk(s) && c in s.requests
    ensures forall t :: t in s.conn.turns ==> s.conn.turns[t].settlement != c
  {
    forall t | t in s.conn.turns ensures s.conn.turns[t].settlement != c { assert TurnOk(s, t); }
  }

  ghost predicate Sourced(entries: set<Pc>, s: State, c: Cell, r: Option<Result>) {
    r.Some? && c < s.cells && CellFrom(entries, s, c, r.value)
  }

  /** In this step a fiber takes this Deferred on. */
  ghost predicate TakesOnCell(s: State, f: Fiber, pc: Pc, s': State, c: Cell) {
    f in s'.fibers && c in Owns(s'.fibers[f]) && c !in Owns(pc)
  }

  lemma ExpiringTakes(entries: set<Pc>, s: State, f: Fiber, pc: Pc, expire: bool, s': State, c: Cell)
    requires RoleOf(pc).Requester? && RequesterStep(s, f, pc, expire) == Some(s') && TakesOnCell(s, f, pc, s', c)
    requires PcOk(s, pc) && TurnsOk(s) && RequestsOk(s)
    ensures Sourced(entries, s, c, OutcomeOf(s'.fibers[f]))
  {
    NoTurns(s, c);
  }

  lemma ResponseTakes(entries: set<Pc>, s: State, f: Fiber, pc: Pc, s': State, c: Cell)
    requires RoleOf(pc).Responder? && ResponderStep(s, f, pc) == Some(s') && TakesOnCell(s, f, pc, s', c)
    requires PcFrom(entries, pc) && PendingOk(s) && TurnsOk(s) && RequestsOk(s)
    ensures Sourced(entries, s, c, OutcomeOf(s'.fibers[f]))
  {
    assert pc.ResponseClaiming? && EntryOk(s, pc.id) && c == s.conn.pending[pc.id].reply;
    assert OutcomeOf(s'.fibers[f]) == Some(ResultOf(pc.answer));
    NoTurns(s, c);
  }

  lemma FailureTakes(entries: set<Pc>, s: State, f: Fiber, pc: Pc, pick: nat, s': State, c: Cell)
    requires RoleOf(pc).Failer? && FailerStep(s, f, pc, pick) == Some(s') && TakesOnCell(s, f, pc, s', c)
    requires PcFrom(entries, pc)
    ensures OutcomeOf(s'.fibers[f]) == Some(Failed(pc.error)) && CellFrom(entries, s', c, Failed(pc.error))
  {
    assert pc.FailClaiming? && FailWaiting(pc.error, pc.remember) in entries;
    assert ByFailure(entries, Failed(pc.error));
  }

  /** No two turns share a Deferred, and none is a request's. */
  lemma OnlyItsTurn(entries: set<Pc>, s: State, turnId: string, r: Result)
    requires TurnsOk(s) && turnId in s.conn.turns && TurnFrom(entries, turnId, r)
    ensures Sourced(entries, s, s.conn.turns[turnId].settlement, Some(r))
  {
    assert TurnOk(s, turnId);
  }

  lemma SettlerTakes(entries: set<Pc>, s: State, f: Fiber, pc: Pc, s': State, c: Cell)
    requires RoleOf(pc).Settler? && SettlerStep(s, f, pc) == Some(s') && TakesOnCell(s, f, pc, s', c)
    requires PcFrom(entries, pc) && TurnsOk(s)
    ensures Sourced(entries, s, c, OutcomeOf(s'.fibers[f]))
  {
    assert pc.SettleClaiming?;
    OnlyItsTurn(entries, s, pc.turnId, pc.outcome);
  }

  lemma NoteTakes(entries: set<Pc>, s: State, f: Fiber, pc: Pc, s': State, c: Cell)
    requires RoleOf(pc).Notifier? && NotifierStep(s, f, pc) == Some(s') && TakesOnCell(s, f, pc, s', c)
    requires PcFrom(entries, pc) && TurnsOk(s)
    ensures Sourced(entries, s, c, OutcomeOf(s'.fibers[f]))
  {
    assert pc.NoteClaiming?;
    assert ByReport(entries, pc.turnId, pc.outcome);
    OnlyItsTurn(entries, s, pc.turnId, pc.outcome);
  }

  lemma AwaiterTakesNothing(s: State, f: Fiber, pc: Pc, expire: bool, pick: nat, s': State, c: Cell)
    requires f in s.fibers && RoleOf(pc).Awaiter? && AwaiterStep(s, f, pc, expire, pick) == Some(s')
    ensures !TakesOnCell(s, f, pc, s', c)
  {}

  /** Whoever takes a Deferred on brings a result of its own kind. */
  lemma TakenFrom(entries: set<Pc>, s: State, f: Fiber, expire: bool, pick: nat, s': State, c: Cell)
    requires Inv(s) && f in s.fibers && AdvanceOf(s, f, expire, pick) == Some(s')
    requires PcFrom(entries, s.fibers[f]) && TakesOnCell(s, f, s.fibers[f], s', c)
    ensures OutcomeOf(s'.fibers[f]).Some?
    ensures Sourced(entries, s, c, OutcomeOf(s'.fibers[f])) || CellFrom(entries, s', c, OutcomeOf(s'.fibers[f]).value)
  {
    var pc := s.fibers[f];
    assert PcOk(s, pc);
    match RoleOf(pc) {
      case Requester => ExpiringTakes(entries, s, f, pc, expire, s', c);
      case Responder => ResponseTakes(entries, s, f, pc, s', c);
      case Failer => FailureTakes(entries, s, f, pc, pick, s', c);
      case Settler => SettlerTakes(entries, s, f, pc, s', c);
      case Notifier => NoteTakes(entries, s, f, pc, s', c);
      case Awaiter => AwaiterTakesNothing(s, f, pc, expire, pick, s', c);
    }
  }

  /** A Deferred somebody is bound to complete was bound before this step, or taken on in it. */
  lemma PromisedBefore(s: State, f: Fiber, expire: bool, pick: nat, s': State, c: Cell)
    requires Inv(s) && Inv(s') && f in s.fibers && AdvanceOf(s, f, expire, pick) == Some(s')
    requires Promise(s, c).None? && Promise(s', c).Some?
    ensures TakesOnCell(s, f, s.fibers[f], s', c) && Promise(s', c) == OutcomeOf(s'.fibers[f])
  {
    StepEffect(s, f, expire, pick, s');
    CompletionTakes(s, f, expire, pick, s');
    if CompletionOf(s.fibers[f], pick).Some? {
      OwnsWhatItCompletes(s, f, pick);
      CompletesOwned(s.fibers[f], pick);
    }
    assert c !in s'.results;
    PromisedNow(s, f, s', c);
  }

  lemma PromisedNow(s: State, f: Fiber, s': State, c: Cell)
    requires HolderOk(s) && OwnersOk(s) && HolderOk(s') && OwnersOk(s') && f in s.fibers && f in s'.fibers
    requires Promise(s, c).None? && Promise(s', c).Some? && c !in s'.results
    requires forall g :: g in s'.fibers && g !in s.fibers ==> g == f || s'.fibers[g].TimerArmed?
    requires forall g :: g in s.fibers && g != f ==> g in s'.fibers && s'.fibers[g] == s.fibers[g]
    ensures TakesOnCell(s, f, s.fibers[f], s', c) && Promise(s', c) == OutcomeOf(s'.fibers[f])
  {
    var g := s'.holder[c];
    assert c in Owns(s'.fibers[g]);
    OwnedIsDue(s'.fibers[g], c);
    if g in s.fibers && c in Owns(s.fibers[g]) {
      OwnedIsDue(s.fibers[g], c);
      HeldPromise(s, g, c);
    }
  }

  lemma OwnedIsDue(pc: Pc, c: Cell)
    requires c in Owns(pc)
    ensures OutcomeOf(pc).Some? && !pc.TimerArmed?
  {}

  lemma StepPromises(entries: set<Pc>, s: State, f: Fiber, expire: bool, pick: nat, s': State)
    requires Inv(s) && Inv(s') && f in s.fibers && AdvanceOf(s, f, expire, pick) == Some(s') && From(entries, s)
    ensures PromisesFrom(entries, s')
  {
    AdvanceFrom(entries, s, f, expire, pick, s');
    forall c {:trigger Promise(s', c)} | Promise(s', c).Some? ensures CellFrom(entries, s', c, Promise(s', c).value) {
      if Promise(s, c).Some? {
        PromiseStays(entries, s, Advance(f, expire, pick), s', c);
      } else {
        PromiseTaken(entries, s, f, expire, pick, s', c);
      }
    }
  }

  lemma PromiseTaken(entries: set<Pc>, s: State, f: Fiber, expire: bool, pick: nat, s': State, c: Cell)
    requires Inv(s) && Inv(s') && f in s.fibers && AdvanceOf(s, f, expire, pick) == Some(s') && PcFrom(entries, s.fibers[f])
    requires Promise(s, c).None? && Promise(s', c).Some? && GrowsFresh(s, s')
    ensures CellFrom(entries, s', c, Promise(s', c).value)
  {
    PromisedBefore(s, f, expire, pick, s', c);
    TakenFrom(entries, s, f, expire, pick, s', c);
    if Sourced(entries, s, c, Promise(s', c)) {
      CellStays(entries, entries, s, s', c, Promise(s', c).value);
    }
  }

  lemma PromiseStays(entries: set<Pc>, s: State, step: Step, s': State, c: Cell)
    requires Inv(s) && Inv(s') && Next(s, step, s') && PromisesFrom(entries, s) && GrowsFresh(s, s')
    requires Promise(s, c).Some? && Promise(s', c).Some?
    ensures CellFrom(entries, s', c, Promise(s', c).value)
  {
    StepPromise(s, step, s', c);
    PromisedKnown(s, c);
    PromisedKnown(s', c);
    CellStays(entries, entries, s, s', c, Promise(s, c).value);
  }

  lemma PromisedKnown(s: State, c: Cell)
    requires HolderOk(s) && ResultsOk(s) && LostOk(s) && Promise(s, c).Some?
    ensures c < s.cells && c !in s.lost
  {}

  lemma StepFrom(entries: set<Pc>, s: State, step: Step, s': State)
    requires Inv(s) && Inv(s') && Next(s, step, s') && From(entries, s)
    requires step.Spawn? ==> step.pc in entries
    ensures From(entries, s')
  {
    match step {
      case Spawn(f, pc) => EntryFrom(entries, s, f, pc, s');
      case Advance(f, expire, pick) =>
        AdvanceFrom(entries, s, f, expire, pick, s');
        StepPromises(entries, s, f, expire, pick, s');
        OthersFrom(entries, s, f, expire, pick, s');
      case Close => CloseFrom(entries, s, s');
    }
  }

  lemma OthersFrom(entries: set<Pc>, s: State, f: Fiber, expire: bool, pick: nat, s': State)
    requires Inv(s) && f in s.fibers && AdvanceOf(s, f, expire, pick) == Some(s')
    requires FibersFrom(entries, s) && f in s'.fibers && PcFrom(entries, s'.fibers[f])
    ensures FibersFrom(entries, s')
  {
    StepEffect(s, f, expire, pick, s');
    forall g | g in s'.fibers ensures PcFrom(entries, s'.fibers[g]) {
      if g in s.fibers && g != f { assert PcFrom(entries, s.fibers[g]); }
    }
  }

  lemma EntryFrom(entries: set<Pc>, s: State, f: Fiber, pc: Pc, s': State)
    requires Inv(s) && Inv(s') && f !in s.fibers && Entry(pc) && s' == Move(s, f, pc) && From(entries, s) && pc in entries
    ensures From(entries, s')
  {
    forall c {:trigger Promise(s', c)} | Promise(s', c).Some? ensures CellFrom(entries, s', c, Promise(s', c).value) {
      assert Promise(s, c) == Promise(s', c);
    }
  }

  lemma CloseFrom(entries: set<Pc>, s: State, s': State)
    requires s' == s.(conn := s.conn.(closed := true)) && From(entries, s)
    ensures From(entries, s')
  {
    forall c {:trigger Promise(s', c)} | Promise(s', c).Some? ensures CellFrom(entries, s', c, Promise(s', c).value) {
      assert Promise(s, c) == Promise(s', c);
    }
  }

  lemma FromMore(entries: set<Pc>, entries': set<Pc>, s: State)
    requires From(entries, s) && entries <= entries'
    ensures From(entries', s)
  {
    forall f | f in s.fibers ensures PcFrom(entries', s.fibers[f]) { PcStays(entries, entries', s.fibers[f]); }
    forall c {:trigger Promise(s, c)} | Promise(s, c).Some? ensures CellFrom(entries', s, c, Promise(s, c).value) {
      CellMore(entries, entries', s, c, Promise(s, c).value);
    }
  }

  lemma CellMore(entries: set<Pc>, entries': set<Pc>, s: State, c: Cell, r: Result)
    requires CellFrom(entries, s, c, r) && entries <= entries'
    ensures CellFrom(entries', s, c, r)
  {}

  /** In every reachable state, everything decided so far was brought in. */
  lemma {:induction false} RunFrom(states: seq<State>, steps: seq<Step>, k: nat)
    requires Run(states, steps) && k <= |steps|
    ensures From(Started(steps, k), states[k])
    decreases k
  {
    if k > 0 {
      RunFrom(states, steps, k - 1);
      RunFromNext(states, steps, k - 1);
    }
  }

  lemma RunFromNext(states: seq<State>, steps: seq<Step>, k: nat)
    requires Run(states, steps) && k < |steps| && From(Started(steps, k), states[k])
    ensures From(Started(steps, k + 1), states[k + 1])
  {
    RunKeeps(states, steps, k);
    RunKeeps(states, steps, k + 1);
    assert Started(steps, k) <= Started(steps, k + 1);
    FromMore(Started(steps, k), Started(steps, k + 1), states[k]);
    StepFrom(Started(steps, k + 1), states[k], steps[k], states[k + 1]);
  }

  /** WHERE RESULTS COME FROM. At every moment, a request's result is what a response to that request
      carried, or its read timeout, and a turn's is what a report of that turn said, or its silence
      timeout; or either is what the session failed with. */
  lemma ResultOrigin(states: seq<State>, steps: seq<Step>, k: nat, c: Cell)
    requires Run(states, steps) && k <= |steps| && c in states[k].results
    ensures CellFrom(Started(steps, k), states[k], c, states[k].results[c])
  {
    RunFrom(states, steps, k);
    assert Promise(states[k], c) == Some(states[k].results[c]);
  }

  /** So a request succeeds only with what a response to that request carried. */
  lemma RepliesAreAnswers(states: seq<State>, steps: seq<Step>, k: nat, c: Cell, value: string)
    requires Run(states, steps) && k <= |steps| && c in states[k].results && c in states[k].requests
    requires states[k].results[c] == Reply(value)
    ensures exists threadId, named ::
              ResponseWaiting(states[k].requests[c], Answer(value, threadId, named)) in Started(steps, k)
  {
    ResultOrigin(states, steps, k, c);
    var id := states[k].requests[c];
    var answer :| ResponseWaiting(id, answer) in Started(steps, k) && Reply(value) == ResultOf(answer);
    assert ResponseWaiting(id, Answer(value, answer.threadId, answer.named)) in Started(steps, k);
  }

  /** And a turn is complete only when a report of that turn said so. */
  lemma CompletionsAreReports(states: seq<State>, steps: seq<Step>, k: nat, turnId: string)
    requires Run(states, steps) && k <= |steps| && turnId in states[k].conn.turns
    requires states[k].conn.turns[turnId].settlement in states[k].results
    requires states[k].results[states[k].conn.turns[turnId].settlement] == Completed
    ensures ByReport(Started(steps, k), turnId, Completed)
  {
    ResultOrigin(states, steps, k, states[k].conn.turns[turnId].settlement);
  }

  /** The session's error is one it failed with and was to remember. */
  lemma ErrorOrigin(states: seq<State>, steps: seq<Step>, k: nat)
    requires Run(states, steps) && k <= |steps| && states[k].conn.terminalError.Some?
    ensures FailWaiting(states[k].conn.terminalError.value, true) in Started(steps, k)
  {
    RunFrom(states, steps, k);
  }

  /** Whoever waits for a turn, or for the reply to a request, returns a result that turn or request had. */
  lemma ReturnOrigin(states: seq<State>, steps: seq<Step>, k: nat, f: Fiber, c: Cell)
    requires Run(states, steps) && k < |steps| && steps[k].Advance? && steps[k].f == f && f in states[k].fibers
    requires AwaitedBy(states[k].fibers[f]) == Some(c) && f in states[k + 1].fibers && states[k + 1].fibers[f].Returned?
    ensures var r := states[k + 1].fibers[f].result;
            if states[k].fibers[f].TurnAwaiting? then TurnFrom(Started(steps, k), states[k].fibers[f].turnId, r)
            else c in states[k].requests && ReplyFrom(Started(steps, k), states[k].requests[c], r)
  {
    RunKeeps(states, steps, k);
    assert PcOk(states[k], states[k].fibers[f]);
    ReturnsResult(states[k], f, steps[k].expire, steps[k].pick, states[k + 1]);
    ResultOrigin(states, steps, k, c);
  }

  /** In this step a settlement or a notification claims a turn, to complete it this way. */
  ghost predicate ClaimsTurn(s: State, step: Step, c: Cell, r: Result) {
    && step.Advance? && step.f in s.fibers
    && (match s.fibers[step.f]
        case SettleClaiming(turnId, turn, outcome, _) => outcome == r && turn.settlement == c && ClaimTurn(s.conn, turnId, turn).0
        case NoteClaiming(turnId, turn, outcome, _) => outcome == r && turn.settlement == c && ClaimTurn(s.conn, turnId, turn).0
        case _ => false)
  }

  lemma SettlementTakesOn(s: State, step: Step, s': State, c: Cell, r: Result)
    requires step.Advance? && step.f in s.fibers && SettlerStep(s, step.f, s.fibers[step.f]) == Some(s')
    requires s.fibers[step.f].SettleClaiming? && ClaimsTurn(s, step, c, r)
    ensures step.f in s'.fibers && c in Owns(s'.fibers[step.f]) && OutcomeOf(s'.fibers[step.f]) == Some(r) && c in s'.holder
  {}

  lemma ClaimTakesOn(s: State, step: Step, s': State, c: Cell, r: Result)
    requires Next(s, step, s') && ClaimsTurn(s, step, c, r)
    ensures step.f in s'.fibers && c in Owns(s'.fibers[step.f]) && OutcomeOf(s'.fibers[step.f]) == Some(r) && c in s'.holder
  {
    if s.fibers[step.f].SettleClaiming? { SettlementTakesOn(s, step, s', c, r); }
  }

  lemma TurnClaimBinds(s: State, step: Step, s': State, c: Cell, r: Result)
    requires HolderOk(s') && OwnersOk(s') && LostOk(s') && Next(s, step, s') && ClaimsTurn(s, step, c, r)
    ensures Bound(s', c, r) && c !in s'.lost
  {
    ClaimTakesOn(s, step, s', c, r);
    HeldPromise(s', step.f, c);
    assert Settling(s', c);
  }

  /** Whoever is first to claim a turn decides what its awaiters return. */
  lemma ClaimedTurnReturned(states: seq<State>, steps: seq<Step>, j: nat, k: nat, f: Fiber, turnId: string, c: Cell, r: Result)
    requires Run(states, steps) && j < k < |steps| && ClaimsTurn(states[j], steps[j], c, r)
    requires f in states[k].fibers && states[k].fibers[f] == TurnAwaiting(turnId, c) && f in states[k + 1].fibers
    requires steps[k].Advance? && steps[k].f == f && states[k + 1].fibers[f].Returned?
    ensures states[k + 1].fibers[f] == Returned(r)
  {
    RunKeeps(states, steps, j + 1);
    TurnClaimBinds(states[j], steps[j], states[j + 1], c, r);
    FirstClaimReturned(states, steps, j + 1, k, f, c, r);
  }

  /** In particular an awaiter whose turn its silence timer was first to claim returns a turn timeout. */
  lemma SilentTurnTimesOut(states: seq<State>, steps: seq<Step>, j: nat, k: nat, f: Fiber, turnId: string, c: Cell)
    requires Run(states, steps) && j < k < |steps| && steps[j].Advance? && steps[j].f in states[j].fibers
    requires states[j].fibers[steps[j].f].SettleClaiming? && states[j].fibers[steps[j].f].timer.Some?
    requires ClaimsTurn(states[j], steps[j], c, states[j].fibers[steps[j].f].outcome)
    requires f in states[k].fibers && states[k].fibers[f] == TurnAwaiting(turnId, c) && f in states[k + 1].fibers
    requires steps[k].Advance? && steps[k].f == f && states[k + 1].fibers[f].Returned?
    ensures TimedOut(states[k + 1].fibers[f].result, "turn_timeout")
  {
    RunFrom(states, steps, j);
    var timer := states[j].fibers[steps[j].f];
    assert PcFrom(Started(steps, j), timer);
    ClaimedTurnReturned(states, steps, j, k, f, turnId, c, timer.outcome);
  }

  /** In this step a request's timeout is the first to claim it. */
  ghost predicate Expires(s: State, step: Step, c: Cell) {
    && step.Advance? && step.f in s.fibers && s.fibers[step.f].Expiring? && s.fibers[step.f].reply == c
    && ExpirePending(s.conn, s.fibers[step.f].id, c).0
  }

  /** And a requester whose timeout was first returns a read timeout. */
  lemma LateResponseTimesOut(states: seq<State>, steps: seq<Step>, j: nat, k: nat, f: Fiber, c: Cell)
    requires Run(states, steps) && j < k < |steps| && Expires(states[j], steps[j], c)
    requires f in states[k].fibers && AwaitedBy(states[k].fibers[f]) == Some(c) && f in states[k + 1].fibers
    requires steps[k].Advance? && steps[k].f == f && states[k + 1].fibers[f].Returned?
    ensures TimedOut(states[k + 1].fibers[f].result, "read_timeout")
  {
    RunKeeps(states, steps, j + 1);
    ExpiryBinds(states[j], steps[j], states[j + 1], c);
    FirstClaimReturned(states, steps, j + 1, k, f, c, Failed(READ_TIMEOUT));
  }

  lemma ExpiryBinds(s: State, step: Step, s': State, c: Cell)
    requires HolderOk(s') && OwnersOk(s') && LostOk(s') && Next(s, step, s') && Expires(s, step, c)
    ensures Bound(s', c, Failed(READ_TIMEOUT)) && c !in s'.lost
  {
    assert c in Owns(s'.fibers[step.f]);
    HeldPromise(s', step.f, c);
    assert Settling(s', c);
  }

  /** A session that failed for good answers every later request, and every later wait for a turn it does
      not have, with the error it failed with. */
  lemma DeadSessionAnswers(states: seq<State>, steps: seq<Step>, j: nat, k: nat, f: Fiber)
    requires Run(states, steps) && j <= k < |steps| && states[j].conn.terminalError.Some?
    requires steps[k].Advance? && steps[k].f == f && f in states[k].fibers
    requires states[k].fibers[f].Registering?
             || (states[k].fibers[f].TurnSelecting? && states[k].fibers[f].turnId !in states[j].conn.turns)
    ensures f in states[k + 1].fibers && states[k + 1].fibers[f] == Returned(Failed(states[j].conn.terminalError.value))
  {
    TerminalQuiescence(states, steps, j, k);
    assert Next(states[k], steps[k], states[k + 1]);
  }
}
