/** What handlers see to before they answer: a turn is started before its request is answered, or its
    end reported, and has one silence timer at a time. */
module CodexStarts {
  import opened Options
  import opened ConnectionState
  import opened CodexSession
  import opened CodexInvariant
  import opened CodexSteps
  import opened CodexEffects
  import opened CodexWatch
  import opened CodexSafety
  import opened CodexTerminal

  /** The session has a record of this turn, and has reported it started. */
  predicate HasStarted(c: Connection, turnId: string) {
    turnId in c.turns && turnId in c.startedTurns
  }

  /** How far a handler is with the turn it has to start before it goes on. */
  predicate Prepares(c: Connection, pc: Pc, turnId: string) {
    match pc
    case ResponseAdopting(_, request, _, _, named) => IsTurnStart(request) && named == Some(turnId)
    case ResponseSelecting(_, _, _, t, _) => t == turnId
    case ResponseStarting(_, _, _, t, _) => t == turnId && turnId in c.turns
    case ResponseSettling(_, _, _) => HasStarted(c, turnId)
    case ResponseRemoving(_, _) => HasStarted(c, turnId)
    case ResponseReleasing => HasStarted(c, turnId)
    case NoteEnsuring(_, t, _) => t == turnId
    case NoteStarting(_, t, _) => t == turnId && turnId in c.turns
    case NoteFinishing(_) => HasStarted(c, turnId)
    case NoteAborted(_) => true
    case Finished => HasStarted(c, turnId)
    case _ => false
  }

  /** Before it has started the turn, a handler has not let go of what it is to complete. */
  lemma NotYetStarted(c: Connection, pc: Pc, turnId: string)
    requires Prepares(c, pc, turnId) && !HasStarted(c, turnId)
    ensures pc.ResponseAdopting? || pc.ResponseSelecting? || pc.ResponseStarting?
            || pc.NoteEnsuring? || pc.NoteStarting? || pc.NoteAborted?
  {}

  lemma ResponsePrepares(s: State, f: Fiber, pc: Pc, turnId: string, s': State)
    requires RoleOf(pc).Responder? && ResponderStep(s, f, pc) == Some(s') && Prepares(s.conn, pc, turnId) && PcOk(s, pc)
    requires !pc.ResponseSelecting? || Selection(s, pc.turnId).Turn?
    ensures f in s'.fibers && Prepares(s'.conn, s'.fibers[f], turnId)
  {}

  lemma EnsuringPrepares(s: State, f: Fiber, pc: Pc, turnId: string, s': State)
    requires pc.NoteEnsuring? && NotifierStep(s, f, pc) == Some(s') && Prepares(s.conn, pc, turnId)
    ensures f in s'.fibers && Prepares(s'.conn, s'.fibers[f], turnId)
  {
    if Selection(s, pc.turnId).SelectionError? {
      assert s'.fibers[f] == NoteAborted(pc.owed);
    } else {
      assert s'.fibers[f] == NoteStarting(pc.owed, pc.turnId, pc.count);
      assert pc.turnId in s'.conn.turns;
    }
  }

  lemma NotePrepares(s: State, f: Fiber, pc: Pc, turnId: string, s': State)
    requires RoleOf(pc).Notifier? && NotifierStep(s, f, pc) == Some(s') && Prepares(s.conn, pc, turnId)
    ensures f in s'.fibers && Prepares(s'.conn, s'.fibers[f], turnId)
  {
    if pc.NoteEnsuring? { EnsuringPrepares(s, f, pc, turnId, s'); }
  }

  lemma PreparedLater(c: Connection, c': Connection, pc: Pc, turnId: string)
    requires Prepares(c, pc, turnId) && TurnsLast(c, c')
    ensures Prepares(c', pc, turnId)
  {}

  lemma StepPrepares(s: State, step: Step, s': State, f: Fiber, turnId: string)
    requires Inv(s) && Next(s, step, s') && TurnsLast(s.conn, s'.conn) && f in s.fibers && Prepares(s.conn, s.fibers[f], turnId)
    ensures f in s'.fibers && Prepares(s'.conn, s'.fibers[f], turnId)
  {
    var pc := s.fibers[f];
    if step.Advance? && step.f == f {
      assert PcOk(s, pc);
      if pc.ResponseSelecting? { ResponseNeverBreaks(s, f); }
      if RoleOf(pc).Responder? { ResponsePrepares(s, f, pc, turnId, s'); } else { NotePrepares(s, f, pc, turnId, s'); }
    } else {
      if step.Advance? { StepEffect(s, step.f, step.expire, step.pick, s'); }
      PreparedLater(s.conn, s'.conn, pc, turnId);
    }
  }

  lemma {:induction false} RunPrepares(states: seq<State>, steps: seq<Step>, j: nat, k: nat, f: Fiber, turnId: string)
    requires Run(states, steps) && j <= k <= |steps|
    requires f in states[j].fibers && Prepares(states[j].conn, states[j].fibers[f], turnId)
    ensures f in states[k].fibers && Prepares(states[k].conn, states[k].fibers[f], turnId)
    decreases k
  {
    if j < k {
      RunPrepares(states, steps, j, k - 1, f, turnId);
      RunLasts(states, steps, k - 1);
      RunKeeps(states, steps, k - 1);
      StepPrepares(states[k - 1], steps[k - 1], states[k], f, turnId);
    }
  }

  /** By the time the reply to a `turn/start` can be read, the turn its response names has a record and
      has been reported started: the requester that goes on to await it finds that very record. */
  lemma StartedBeforeAnswered(
    states: seq<State>, steps: seq<Step>, j: nat, k: nat, g: Fiber, id: nat, answer: Answer, c: Cell, turnId: string)
    requires Run(states, steps) && j < k <= |steps| && Claims(states[j], steps[j], g, id, answer, c)
    requires answer.Answer? && answer.named == Some(turnId) && IsTurnStart(states[j].conn.pending[id])
    requires c in states[k].results
    ensures HasStarted(states[k].conn, turnId)
  {
    ClaimPrepares(states[j], steps[j], states[j + 1], g, id, answer, c, turnId);
    RunPrepares(states, steps, j + 1, k, g, turnId);
    RunPreparesCell(states, steps, j + 1, k, g, turnId, c);
  }

  lemma ClaimPrepares(s: State, step: Step, s': State, g: Fiber, id: nat, answer: Answer, c: Cell, turnId: string)
    requires Next(s, step, s') && Claims(s, step, g, id, answer, c)
    requires answer.Answer? && answer.named == Some(turnId) && IsTurnStart(s.conn.pending[id])
    ensures g in s'.fibers && Prepares(s'.conn, s'.fibers[g], turnId) && c in Owns(s'.fibers[g])
  {}

  /** How far a response handler is with the thread its response names. */
  predicate Adopts(c: Connection, pc: Pc) {
    c.threadId.Some? || (pc.ResponseAdopting? && pc.threadId.Some?)
  }

  lemma StepAdopts(s: State, step: Step, s': State, f: Fiber, c: Cell)
    requires Inv(s) && Next(s, step, s') && TurnsLast(s.conn, s'.conn)
    requires f in s.fibers && Adopts(s.conn, s.fibers[f]) && (s.conn.threadId.None? ==> c in Owns(s.fibers[f]))
    ensures f in s'.fibers && Adopts(s'.conn, s'.fibers[f]) && (s'.conn.threadId.None? ==> c in Owns(s'.fibers[f]))
  {
    if step.Advance? {
      StepEffect(s, step.f, step.expire, step.pick, s');
      if step.f == f && s.conn.threadId.None? { AdoptingKnows(s, f, s.fibers[f], s'); }
    }
  }

  lemma AdoptingKnows(s: State, f: Fiber, pc: Pc, s': State)
    requires pc.ResponseAdopting? && pc.threadId.Some? && ResponderStep(s, f, pc) == Some(s')
    ensures s'.conn.threadId == pc.threadId
  {}

  lemma {:induction false} RunAdopts(states: seq<State>, steps: seq<Step>, j: nat, k: nat, f: Fiber, c: Cell)
    requires Run(states, steps) && j <= k <= |steps| && f in states[j].fibers
    requires Adopts(states[j].conn, states[j].fibers[f]) && c in Owns(states[j].fibers[f])
    ensures f in states[k].fibers && Adopts(states[k].conn, states[k].fibers[f])
    ensures states[k].conn.threadId.None? ==> c in Owns(states[k].fibers[f])
    decreases k
  {
    if j < k {
      RunAdopts(states, steps, j, k - 1, f, c);
      RunAdoptsNext(states, steps, k - 1, f, c);
    }
  }

  lemma RunAdoptsNext(states: seq<State>, steps: seq<Step>, k: nat, f: Fiber, c: Cell)
    requires Run(states, steps) && k < |steps| && f in states[k].fibers && Adopts(states[k].conn, states[k].fibers[f])
    requires states[k].conn.threadId.None? ==> c in Owns(states[k].fibers[f])
    ensures f in states[k + 1].fibers && Adopts(states[k + 1].conn, states[k + 1].fibers[f])
    ensures states[k + 1].conn.threadId.None? ==> c in Owns(states[k + 1].fibers[f])
  {
    RunLasts(states, steps, k);
    RunKeeps(states, steps, k);
    StepAdopts(states[k], steps[k], states[k + 1], f, c);
  }

  /** By the time a reply can be read whose response named a thread, the session knows its thread. */
  lemma KnownBeforeAnswered(states: seq<State>, steps: seq<Step>, j: nat, k: nat, g: Fiber, id: nat, answer: Answer, c: Cell)
    requires Run(states, steps) && j < k <= |steps| && Claims(states[j], steps[j], g, id, answer, c)
    requires answer.Answer? && answer.threadId.Some? && c in states[k].results
    ensures states[k].conn.threadId.Some?
  {
    ClaimAdopts(states[j], steps[j], states[j + 1], g, id, answer, c);
    RunAdopts(states, steps, j + 1, k, g, c);
    RunKeeps(states, steps, k);
  }

  lemma ClaimAdopts(s: State, step: Step, s': State, g: Fiber, id: nat, answer: Answer, c: Cell)
    requires Next(s, step, s') && Claims(s, step, g, id, answer, c) && answer.Answer? && answer.threadId.Some?
    ensures g in s'.fibers && Adopts(s'.conn, s'.fibers[g]) && c in Owns(s'.fibers[g])
  {}

  /** Until it has started the turn, the handler holds the reply. */
  lemma {:induction false} RunPreparesCell(states: seq<State>, steps: seq<Step>, j: nat, k: nat, f: Fiber, turnId: string, c: Cell)
    requires Run(states, steps) && j <= k <= |steps| && f in states[j].fibers && c in Owns(states[j].fibers[f])
    requires Prepares(states[j].conn, states[j].fibers[f], turnId)
    ensures HasStarted(states[k].conn, turnId) || c in states[k].lost || (f in states[k].fibers && c in Owns(states[k].fibers[f]))
    ensures c in states[k].results ==> HasStarted(states[k].conn, turnId)
    decreases k
  {
    RunKeeps(states, steps, k);
    if j < k {
      RunPreparesCell(states, steps, j, k - 1, f, turnId, c);
      RunPrepares(states, steps, j, k - 1, f, turnId);
      StillHeld(states, steps, k - 1, f, turnId, c);
    }
  }

  lemma StillHeld(states: seq<State>, steps: seq<Step>, k: nat, f: Fiber, turnId: string, c: Cell)
    requires Run(states, steps) && k < |steps| && f in states[k].fibers
    requires Prepares(states[k].conn, states[k].fibers[f], turnId)
    requires HasStarted(states[k].conn, turnId) || c in states[k].lost || c in Owns(states[k].fibers[f])
    ensures HasStarted(states[k + 1].conn, turnId) || c in states[k + 1].lost
            || (f in states[k + 1].fibers && c in Owns(states[k + 1].fibers[f]))
  {
    RunKeeps(states, steps, k);
    RunLasts(states, steps, k);
    RunLost(states, steps, k);
    if c in Owns(states[k].fibers[f]) { StepHeld(states[k], steps[k], states[k + 1], f, turnId, c); }
  }

  lemma StepHeld(s: State, step: Step, s': State, f: Fiber, turnId: string, c: Cell)
    requires Inv(s) && Next(s, step, s') && f in s.fibers && Prepares(s.conn, s.fibers[f], turnId)
    requires c in Owns(s.fibers[f])
    ensures HasStarted(s.conn, turnId) || c in s'.lost || (f in s'.fibers && c in Owns(s'.fibers[f]))
  {
    if step.Advance? {
      StepEffect(s, step.f, step.expire, step.pick, s');
      if step.f == f && !HasStarted(s.conn, turnId) {
        NotYetStarted(s.conn, s.fibers[f], turnId);
        assert KeepsWord(s, s.fibers[f], CompletionOf(s.fibers[f], step.pick), s'.fibers[f], c);
      }
    }
  }

  /** A notification that finds a `turn/start` still waiting has started the turn by the time the turn it
      claimed can be seen to end, and by the time it is done. */
  lemma StartedBeforeReported(states: seq<State>, steps: seq<Step>, j: nat, k: nat, f: Fiber)
    requires Run(states, steps) && j <= k <= |steps| && f in states[j].fibers && states[j].fibers[f].NoteEnsuring?
    ensures var pc := states[j].fibers[f];
            && (pc.owed.Some? && pc.owed.value.cell in states[k].results ==> HasStarted(states[k].conn, pc.turnId))
            && (f in states[k].fibers && states[k].fibers[f] == Finished ==> HasStarted(states[k].conn, pc.turnId))
  {
    var pc := states[j].fibers[f];
    RunPrepares(states, steps, j, k, f, pc.turnId);
    if pc.owed.Some? { RunPreparesCell(states, steps, j, k, f, pc.turnId, pc.owed.value.cell); }
  }

  /** Whichever turn is started in a step becomes the session's turn, with its own count. */
  ghost predicate StartsCurrent(c: Connection, c': Connection) {
    forall t :: t in c'.startedTurns && t !in c.startedTurns ==>
      c'.turnId == Some(t) && t in c'.turnCounts && c'.turnCounts[t] == c'.turnCount
  }

  lemma ResponderStarts(s: State, f: Fiber, pc: Pc, s': State)
    requires RoleOf(pc).Responder? && ResponderStep(s, f, pc) == Some(s')
    ensures StartsCurrent(s.conn, s'.conn)
  {}

  lemma NotifierStarts(s: State, f: Fiber, pc: Pc, s': State)
    requires RoleOf(pc).Notifier? && NotifierStep(s, f, pc) == Some(s')
    ensures StartsCurrent(s.conn, s'.conn)
  {}

  lemma RequesterStarts(s: State, f: Fiber, pc: Pc, expire: bool, s': State)
    requires RoleOf(pc).Requester? && RequesterStep(s, f, pc, expire) == Some(s')
    ensures s'.conn.startedTurns == s.conn.startedTurns
  {}

  lemma FailerStarts(s: State, f: Fiber, pc: Pc, pick: nat, s': State)
    requires RoleOf(pc).Failer? && FailerStep(s, f, pc, pick) == Some(s')
    ensures s'.conn.startedTurns == s.conn.startedTurns
  {}

  lemma SettlerStarts(s: State, f: Fiber, pc: Pc, s': State)
    requires RoleOf(pc).Settler? && SettlerStep(s, f, pc) == Some(s')
    ensures s'.conn.startedTurns == s.conn.startedTurns
  {}

  lemma AwaiterStarts(s: State, f: Fiber, pc: Pc, expire: bool, pick: nat, s': State)
    requires RoleOf(pc).Awaiter? && AwaiterStep(s, f, pc, expire, pick) == Some(s')
    ensures s'.conn.startedTurns == s.conn.startedTurns
  {}

  lemma AdvanceStarts(s: State, f: Fiber, expire: bool, pick: nat, s': State)
    requires f in s.fibers && AdvanceOf(s, f, expire, pick) == Some(s')
    ensures StartsCurrent(s.conn, s'.conn)
  {
    var pc := s.fibers[f];
    match RoleOf(pc) {
      case Requester => RequesterStarts(s, f, pc, expire, s');
      case Responder => ResponderStarts(s, f, pc, s');
      case Failer => FailerStarts(s, f, pc, pick, s');
      case Settler => SettlerStarts(s, f, pc, s');
      case Notifier => NotifierStarts(s, f, pc, s');
      case Awaiter => AwaiterStarts(s, f, pc, expire, pick, s');
    }
  }

  /** In every run, the turn a step starts is the session's turn right after, counted as it was asked for. */
  lemma StartedIsCurrent(states: seq<State>, steps: seq<Step>, k: nat)
    requires Run(states, steps) && k < |steps|
    ensures StartsCurrent(states[k].conn, states[k + 1].conn)
  {
    var s, s' := states[k], states[k + 1];
    assert Next(s, steps[k], s');
    if steps[k].Advance? { AdvanceStarts(s, steps[k].f, steps[k].expire, steps[k].pick, s'); }
  }

  /** The turn whose silence timer this fiber is, from when it is forked until it has released it. */
  function TimerOf(pc: Pc): Option<string> {
    match pc
    case TimerArmed(t, _) => Some(t)
    case SettleSelecting(t, _, timer) => if timer.Some? then Some(t) else None
    case SettleClaiming(t, _, _, timer) => if timer.Some? then Some(t) else None
    case SettleCompleting(t, _, timer) => if timer.Some? then Some(t) else None
    case TimerReleasing(t, _) => Some(t)
    case _ => None
  }

  predicate Timed(c: Connection, turnId: string) {
    turnId in c.turns && c.turns[turnId].timerStarted
  }

  ghost predicate Times(s: State, f: Fiber, turnId: string) {
    f in s.fibers && TimerOf(s.fibers[f]) == Some(turnId)
  }

  /** Every turn marked as timed has exactly one timer, and no other turn has any. */
  ghost predicate OneTimer(s: State) {
    && (forall t :: Timed(s.conn, t) <==> exists f :: Times(s, f, t))
    && (forall f, g, t :: Times(s, f, t) && Times(s, g, t) ==> f == g)
  }

  ghost predicate SameTimed(c: Connection, c': Connection) {
    forall t :: Timed(c, t) <==> Timed(c', t)
  }

  /** A step that starts no timer and ends none. */
  ghost predicate KeepsTime(s: State, f: Fiber, pc: Pc, s': State) {
    SameTimed(s.conn, s'.conn) && f in s'.fibers && TimerOf(s'.fibers[f]) == TimerOf(pc) && s'.fibers == s.fibers[f := s'.fibers[f]]
  }

  lemma TimersKeep(s: State, f: Fiber, s': State)
    requires OneTimer(s) && f in s.fibers && KeepsTime(s, f, s.fibers[f], s')
    ensures OneTimer(s')
  {
    SameTimers(s, s');
  }

  lemma SameTimers(s: State, s': State)
    requires OneTimer(s) && SameTimed(s.conn, s'.conn) && forall f, t :: Times(s, f, t) <==> Times(s', f, t)
    ensures OneTimer(s')
  {
    forall t ensures Timed(s'.conn, t) <==> exists f :: Times(s', f, t) {
      if Timed(s'.conn, t) {
        var f :| Times(s, f, t);
        assert Times(s', f, t);
      }
      if f :| Times(s', f, t) { assert Times(s, f, t); }
    }
  }

  lemma RequesterTime(s: State, f: Fiber, pc: Pc, expire: bool, s': State)
    requires RoleOf(pc).Requester? && RequesterStep(s, f, pc, expire) == Some(s')
    ensures KeepsTime(s, f, pc, s')
  {}

  lemma ResponderTime(s: State, f: Fiber, pc: Pc, s': State)
    requires RoleOf(pc).Responder? && ResponderStep(s, f, pc) == Some(s')
    ensures KeepsTime(s, f, pc, s')
  {
    if BringsAnswer(pc) { AnsweringTime(s, f, pc, s'); }
  }

  lemma AnsweringTime(s: State, f: Fiber, pc: Pc, s': State)
    requires BringsAnswer(pc) && ResponderStep(s, f, pc) == Some(s')
    ensures KeepsTime(s, f, pc, s')
  {}

  lemma FailerTime(s: State, f: Fiber, pc: Pc, pick: nat, s': State)
    requires RoleOf(pc).Failer? && FailerStep(s, f, pc, pick) == Some(s')
    ensures KeepsTime(s, f, pc, s')
  {}

  lemma SettlerClaimingTime(s: State, f: Fiber, pc: Pc, s': State)
    requires pc.SettleClaiming? && SettlerStep(s, f, pc) == Some(s')
    ensures KeepsTime(s, f, pc, s')
  {}

  lemma SettlerTime(s: State, f: Fiber, pc: Pc, s': State)
    requires RoleOf(pc).Settler? && SettlerStep(s, f, pc) == Some(s')
    ensures KeepsTime(s, f, pc, s')
  {
    if pc.SettleClaiming? { SettlerClaimingTime(s, f, pc, s'); }
  }

  lemma NoteClaimingTime(s: State, f: Fiber, pc: Pc, s': State)
    requires (pc.NoteSelecting? || pc.NoteClaiming?) && NotifierStep(s, f, pc) == Some(s')
    ensures KeepsTime(s, f, pc, s')
  {}

  lemma NotifierTime(s: State, f: Fiber, pc: Pc, s': State)
    requires RoleOf(pc).Notifier? && NotifierStep(s, f, pc) == Some(s')
    ensures KeepsTime(s, f, pc, s')
  {
    if pc.NoteSelecting? || pc.NoteClaiming? { NoteClaimingTime(s, f, pc, s'); }
  }

  /** A timer of a turn that had none, or the end of the one it had. */
  lemma TimersAfter(s: State, s': State, turnId: string, timer: Fiber)
    requires OneTimer(s)
    requires forall t :: t != turnId ==> (Timed(s'.conn, t) <==> Timed(s.conn, t))
    requires forall f, t :: t != turnId ==> (Times(s', f, t) <==> Times(s, f, t))
    requires forall f :: Times(s', f, turnId) <==> Timed(s'.conn, turnId) && f == timer
    ensures OneTimer(s')
  {
    forall t ensures Timed(s'.conn, t) <==> exists f :: Times(s', f, t) {
      if t != turnId && Timed(s'.conn, t) {
        var f :| Times(s, f, t);
        assert Times(s', f, t);
      }
      if f :| Times(s', f, t) && t != turnId { assert Times(s, f, t); }
      if t == turnId && Timed(s'.conn, t) { assert Times(s', timer, t); }
    }
  }

  lemma TimerStarts(s: State, f: Fiber, turnId: string, turn: TurnState, pick: Fiber, s': State)
    requires OneTimer(s) && f in s.fibers && s.fibers[f] == TurnTiming(turnId, turn) && pick !in s.fibers
    requires BeginTurnTimer(s.conn, turnId, turn).0
    requires s'.fibers == s.fibers[f := TurnAwaiting(turnId, turn.settlement)][pick := TimerArmed(turnId, turn)]
    requires s'.conn == BeginTurnTimer(s.conn, turnId, turn).1
    ensures OneTimer(s')
  {
    assert !Timed(s.conn, turnId) && Timed(s'.conn, turnId);
    forall g ensures Times(s', g, turnId) <==> g == pick { assert !Times(s, g, turnId); }
    TimersAfter(s, s', turnId, pick);
  }

  lemma TimerEnds(s: State, f: Fiber, turnId: string, turn: TurnState, s': State)
    requires OneTimer(s) && f in s.fibers && s.fibers[f] == TimerReleasing(turnId, turn)
    requires turnId in s.conn.turns && s.conn.turns[turnId].settlement == turn.settlement
    requires s'.fibers == s.fibers[f := Finished] && s'.conn == ReleaseTurnTimer(s.conn, turnId, turn)
    ensures OneTimer(s')
  {
    assert Times(s, f, turnId) && !Timed(s'.conn, turnId);
    forall g ensures !Times(s', g, turnId) { assert Times(s, g, turnId) ==> g == f; }
    TimersAfter(s, s', turnId, f);
  }

  lemma WaitingTime(s: State, f: Fiber, pc: Pc, expire: bool, pick: nat, s': State)
    requires RoleOf(pc).Awaiter? && !pc.TurnTiming? && !pc.TimerReleasing? && AwaiterStep(s, f, pc, expire, pick) == Some(s')
    ensures KeepsTime(s, f, pc, s')
  {}

  lemma AwaiterTimers(s: State, f: Fiber, expire: bool, pick: nat, s': State)
    requires OneTimer(s) && f in s.fibers && RoleOf(s.fibers[f]).Awaiter? && PcWatched(s.conn, s.fibers[f])
    requires AwaiterStep(s, f, s.fibers[f], expire, pick) == Some(s')
    ensures OneTimer(s')
  {
    var pc := s.fibers[f];
    match pc {
      case TurnTiming(turnId, turn) =>
        if BeginTurnTimer(s.conn, turnId, turn).0 {
          TimerStarts(s, f, turnId, turn, pick, s');
        } else {
          TimersKeep(s, f, s');
        }
      case TimerReleasing(turnId, turn) => TimerEnds(s, f, turnId, turn, s');
      case _ =>
        WaitingTime(s, f, pc, expire, pick, s');
        TimersKeep(s, f, s');
    }
  }

  lemma AdvanceTimers(s: State, f: Fiber, expire: bool, pick: nat, s': State)
    requires OneTimer(s) && f in s.fibers && PcWatched(s.conn, s.fibers[f]) && AdvanceOf(s, f, expire, pick) == Some(s')
    ensures OneTimer(s')
  {
    var pc := s.fibers[f];
    if RoleOf(pc).Awaiter? {
      AwaiterTimers(s, f, expire, pick, s');
    } else {
      match RoleOf(pc) {
        case Requester => RequesterTime(s, f, pc, expire, s');
        case Responder => ResponderTime(s, f, pc, s');
        case Failer => FailerTime(s, f, pc, pick, s');
        case Settler => SettlerTime(s, f, pc, s');
        case Notifier => NotifierTime(s, f, pc, s');
      }
      TimersKeep(s, f, s');
    }
  }

  lemma SpawnTimers(s: State, f: Fiber, pc: Pc, s': State)
    requires OneTimer(s) && f !in s.fibers && Entry(pc) && s' == Move(s, f, pc)
    ensures OneTimer(s')
  {
    SameTimers(s, s');
  }

  lemma StepTimers(s: State, step: Step, s': State)
    requires OneTimer(s) && Watched(s) && Next(s, step, s')
    ensures OneTimer(s')
  {
    match step {
      case Spawn(f, pc) => SpawnTimers(s, f, pc, s');
      case Advance(f, expire, pick) => AdvanceTimers(s, f, expire, pick, s');
      case Close => SameTimers(s, s');
    }
  }

  /** In every reachable state a turn is marked as timed if and only if its silence timer runs, and then
      only one does. */
  lemma {:induction false} RunTimers(states: seq<State>, steps: seq<Step>, k: nat)
    requires Run(states, steps) && k <= |steps|
    ensures OneTimer(states[k])
    decreases k
  {
    if k > 0 {
      RunTimers(states, steps, k - 1);
      RunWatched(states, steps, k - 1);
      assert Next(states[k - 1], steps[k - 1], states[k]);
      StepTimers(states[k - 1], steps[k - 1], states[k]);
    }
  }
}
