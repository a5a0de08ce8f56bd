/** What becomes of a session's turns: claims are for good, a session that failed for good accepts
    nothing new, and the one way a claimed turn is never completed. */
module CodexTerminal {
  import opened Options
  import opened ConnectionState
  import opened CodexSession
  import opened CodexInvariant
  import opened CodexSteps
  import opened CodexEffects
  import opened CodexWatch
  import opened CodexSafety

  /** Turns are never dropped, keep their Deferred, and stay claimed and started; and a session that knows
      its thread goes on knowing one. */
  ghost predicate TurnsLast(c: Connection, c': Connection) {
    && c.startedTurns <= c'.startedTurns && (c.threadId.Some? ==> c'.threadId.Some?)
    && forall t :: t in c.turns ==>
      t in c'.turns && c'.turns[t].settlement == c.turns[t].settlement && (c.turns[t].claimed ==> c'.turns[t].claimed)
  }

  /** Every turn started has a count, and keeps the one it was started with. */
  ghost predicate CountsLast(c: Connection, c': Connection) {
    c.turnCounts.Keys == c.startedTurns ==>
      && c'.turnCounts.Keys == c'.startedTurns && c.startedTurns <= c'.startedTurns
      && forall t :: t in c.turnCounts ==> c'.turnCounts[t] == c.turnCounts[t]
  }

  /** No request and no turn is added, and the error is the same. */
  ghost predicate Sealed(s: State, s': State) {
    && s'.conn.terminalError == s.conn.terminalError && s'.conn.turns.Keys == s.conn.turns.Keys
    && s'.conn.nextId == s.conn.nextId && s'.requests == s.requests
  }

  ghost predicate Lasting(s: State, s': State) {
    && TurnsLast(s.conn, s'.conn) && CountsLast(s.conn, s'.conn) && s.requests.Keys <= s'.requests.Keys
    && (s.conn.terminalError.Some? ==> Sealed(s, s'))
  }

  lemma RequesterLasts(s: State, f: Fiber, pc: Pc, expire: bool, s': State)
    requires RoleOf(pc).Requester? && RequesterStep(s, f, pc, expire) == Some(s')
    ensures Lasting(s, s')
  {}

  lemma ResponderLasts(s: State, f: Fiber, pc: Pc, s': State)
    requires RoleOf(pc).Responder? && ResponderStep(s, f, pc) == Some(s')
    ensures Lasting(s, s')
  {
    if BringsAnswer(pc) { AnsweringLasts(s, f, pc, s'); }
  }

  lemma AnsweringLasts(s: State, f: Fiber, pc: Pc, s': State)
    requires BringsAnswer(pc) && ResponderStep(s, f, pc) == Some(s')
    ensures Lasting(s, s')
  {}

  lemma FailerLasts(s: State, f: Fiber, pc: Pc, pick: Cell, s': State)
    requires FlightNamed(s.conn) && RoleOf(pc).Failer? && FailerStep(s, f, pc, pick) == Some(s')
    ensures Lasting(s, s')
  {}

  lemma SettlementLasts(s: State, f: Fiber, pc: Pc, s': State)
    requires pc.SettleClaiming? && SettlerStep(s, f, pc) == Some(s')
    ensures Lasting(s, s')
  {}

  lemma SettlerLasts(s: State, f: Fiber, pc: Pc, s': State)
    requires RoleOf(pc).Settler? && SettlerStep(s, f, pc) == Some(s')
    ensures Lasting(s, s')
  {
    if pc.SettleClaiming? { SettlementLasts(s, f, pc, s'); }
  }

  lemma EnsuringLasts(s: State, f: Fiber, pc: Pc, s': State)
    requires pc.NoteEnsuring? && NotifierStep(s, f, pc) == Some(s')
    ensures Lasting(s, s')
  {}

  lemma NotifierLasts(s: State, f: Fiber, pc: Pc, s': State)
    requires RoleOf(pc).Notifier? && NotifierStep(s, f, pc) == Some(s')
    ensures Lasting(s, s')
  {
    if pc.NoteEnsuring? { EnsuringLasts(s, f, pc, s'); }
  }

  lemma TimingLasts(s: State, f: Fiber, pc: Pc, expire: bool, pick: Fiber, s': State)
    requires pc.TurnTiming? && AwaiterStep(s, f, pc, expire, pick) == Some(s')
    ensures Lasting(s, s')
  {}

  lemma ReleasingLasts(s: State, f: Fiber, pc: Pc, expire: bool, pick: Fiber, s': State)
    requires pc.TimerReleasing? && AwaiterStep(s, f, pc, expire, pick) == Some(s')
    ensures Lasting(s, s')
  {}

  lemma AwaiterLasts(s: State, f: Fiber, pc: Pc, expire: bool, pick: Fiber, s': State)
    requires RoleOf(pc).Awaiter? && AwaiterStep(s, f, pc, expire, pick) == Some(s')
    ensures Lasting(s, s')
  {
    if pc.TurnTiming? { TimingLasts(s, f, pc, expire, pick, s'); }
    if pc.TimerReleasing? { ReleasingLasts(s, f, pc, expire, pick, s'); }
  }

  lemma StepLasts(s: State, step: Step, s': State)
    requires FlightNamed(s.conn) && Next(s, step, s')
    ensures Lasting(s, s')
  {
    if step.Advance? { AdvanceLasts(s, step.f, step.expire, step.pick, s'); }
  }

  lemma AdvanceLasts(s: State, f: Fiber, expire: bool, pick: nat, s': State)
    requires FlightNamed(s.conn) && f in s.fibers && AdvanceOf(s, f, expire, pick) == Some(s')
    ensures Lasting(s, s')
  {
    var pc := s.fibers[f];
    match RoleOf(pc) {
      case Requester => RequesterLasts(s, f, pc, expire, s');
      case Responder => ResponderLasts(s, f, pc, s');
      case Failer => FailerLasts(s, f, pc, pick, s');
      case Settler => SettlerLasts(s, f, pc, s');
      case Notifier => NotifierLasts(s, f, pc, s');
      case Awaiter => AwaiterLasts(s, f, pc, expire, pick, s');
    }
  }

  lemma RunLasts(states: seq<State>, steps: seq<Step>, k: nat)
    requires Run(states, steps) && k < |steps|
    ensures Lasting(states[k], states[k + 1])
  {
    RunWatched(states, steps, k);
    StepLasts(states[k], steps[k], states[k + 1]);
  }

  /** Over a run no turn is dropped or unclaimed, so its claim is won at most once; the first start of a turn
      stands, with its count; and once the session has failed for good, nothing is registered, installed or
      forgotten any more. */
  lemma {:induction false} LastingOverRun(states: seq<State>, steps: seq<Step>, j: nat, k: nat)
    requires Run(states, steps) && j <= k <= |steps|
    ensures Lasting(states[j], states[k])
    decreases k
  {
    if j < k {
      LastingOverRun(states, steps, j, k - 1);
      RunLasts(states, steps, k - 1);
    }
  }

  /** In every reachable state the turns started are those with a count. */
  lemma StartsCounted(states: seq<State>, steps: seq<Step>, k: nat)
    requires Run(states, steps) && k <= |steps|
    ensures states[k].conn.turnCounts.Keys == states[k].conn.startedTurns
  {
    LastingOverRun(states, steps, 0, k);
    assert states[0].conn.turnCounts.Keys == states[0].conn.startedTurns;
  }

  /** After a remembered failure: the same error for ever, nothing pending, the same turns, all claimed. */
  lemma TerminalQuiescence(states: seq<State>, steps: seq<Step>, j: nat, k: nat)
    requires Run(states, steps) && j <= k <= |steps| && states[j].conn.terminalError.Some?
    ensures Sealed(states[j], states[k]) && states[k].conn.pending == map[]
    ensures forall t :: t in states[k].conn.turns ==> states[k].conn.turns[t].claimed
  {
    LastingOverRun(states, steps, j, k);
    RunKeeps(states, steps, k);
  }

  /** In no reachable state has a response handler failed its turn lookup under the lock. */
  lemma NoBrokenResponse(states: seq<State>, steps: seq<Step>, k: nat, f: Fiber)
    requires Run(states, steps) && k <= |steps| && f in states[k].fibers
    ensures !states[k].fibers[f].ResponseBroken?
    ensures states[k].fibers[f].ResponseSelecting? ==> Selection(states[k], states[k].fibers[f].turnId).Turn?
  {
    RunKeeps(states, steps, k);
    assert PcOk(states[k], states[k].fibers[f]);
  }

  /** About to lose a Deferred: a notification that claimed it looks up another turn, which the session
      never had, after the session has failed for good. */
  ghost predicate Losing(s: State, pc: Pc, c: Cell) {
    && pc.NoteEnsuring? && pc.owed.Some? && pc.owed.value.cell == c
    && s.conn.terminalError.Some? && pc.turnId !in s.conn.turns
  }

  lemma LosesExactly(s: State, f: Fiber, expire: bool, pick: nat, s': State, c: Cell)
    requires Inv(s) && f in s.fibers && AdvanceOf(s, f, expire, pick) == Some(s')
    ensures c in s'.lost && c !in s.lost <==> Losing(s, s.fibers[f], c)
  {
    StepEffect(s, f, expire, pick, s');
    LosingWasHeld(s, f, c);
  }

  lemma LosingWasHeld(s: State, f: Fiber, c: Cell)
    requires HolderOk(s) && OwnersOk(s) && LostOk(s) && f in s.fibers
    ensures Losing(s, s.fibers[f], c) ==> c !in s.lost
  {
    assert Losing(s, s.fibers[f], c) ==> c in Owns(s.fibers[f]);
  }

  /** What is lost is never completed, so whoever awaits it awaits it for ever. */
  lemma {:induction false} LostForever(states: seq<State>, steps: seq<Step>, j: nat, k: nat, c: Cell)
    requires Run(states, steps) && j <= k <= |steps| && c in states[j].lost
    ensures c in states[k].lost && c !in states[k].results
    decreases k
  {
    RunKeeps(states, steps, k);
    if j < k {
      LostForever(states, steps, j, k - 1, c);
      RunLost(states, steps, k - 1);
    }
  }

  lemma RunLost(states: seq<State>, steps: seq<Step>, k: nat)
    requires Run(states, steps) && k < |steps|
    ensures states[k].lost <= states[k + 1].lost
  {
    RunKeeps(states, steps, k);
    StepLost(states[k], steps[k], states[k + 1]);
  }

  /** Somebody waiting for a lost turn waits at every later moment. */
  lemma {:induction false} LostAwaiterHangs(states: seq<State>, steps: seq<Step>, j: nat, k: nat, f: Fiber, turnId: string, c: Cell)
    requires Run(states, steps) && j <= k <= |steps| && c in states[j].lost
    requires f in states[j].fibers && states[j].fibers[f] == TurnAwaiting(turnId, c)
    ensures f in states[k].fibers && states[k].fibers[f] == TurnAwaiting(turnId, c)
    decreases k
  {
    if j < k {
      LostAwaiterHangs(states, steps, j, k - 1, f, turnId, c);
      LostForever(states, steps, j, k - 1, c);
      RunHangs(states, steps, k - 1, f, turnId, c);
    }
  }

  lemma RunHangs(states: seq<State>, steps: seq<Step>, k: nat, f: Fiber, turnId: string, c: Cell)
    requires Run(states, steps) && k < |steps| && c !in states[k].results
    requires f in states[k].fibers && states[k].fibers[f] == TurnAwaiting(turnId, c)
    ensures f in states[k + 1].fibers && states[k + 1].fibers[f] == TurnAwaiting(turnId, c)
  {
    RunKeeps(states, steps, k);
    if steps[k].Advance? {
      StepEffect(states[k], steps[k].f, steps[k].expire, steps[k].pick, states[k + 1]);
    }
  }

  /** The turn a notification claims, and the turn it declares at its top level, are the same turn. */
  predicate Agrees(turnId: string, declared: Option<string>) {
    declared.Some? ==> declared.value == turnId
  }

  ghost predicate AgreedPc(c: Connection, pc: Pc) {
    match pc
    case NoteSelecting(turnId, _, declared) => Agrees(turnId, declared)
    case NoteClaiming(turnId, _, _, declared) => Agrees(turnId, declared) && turnId in c.turns
    case NoteReading(owed, named) => owed.Some? ==> named.Some? && named.value in c.turns
    case NoteEnsuring(owed, turnId, _) => owed.Some? ==> turnId in c.turns
    case _ => true
  }

  ghost predicate AllAgreed(s: State) {
    forall f :: f in s.fibers ==> AgreedPc(s.conn, s.fibers[f])
  }

  lemma ReadingAgreed(s: State, f: Fiber, pc: Pc, s': State)
    requires pc.NoteReading? && NotifierStep(s, f, pc) == Some(s') && AgreedPc(s.conn, pc)
    ensures f in s'.fibers && AgreedPc(s'.conn, s'.fibers[f])
  {}

  lemma ClaimingAgreed(s: State, f: Fiber, pc: Pc, s': State)
    requires (pc.NoteSelecting? || pc.NoteClaiming?) && NotifierStep(s, f, pc) == Some(s') && AgreedPc(s.conn, pc)
    ensures f in s'.fibers && AgreedPc(s'.conn, s'.fibers[f])
  {}

  lemma NotifierAgreed(s: State, f: Fiber, pc: Pc, s': State)
    requires RoleOf(pc).Notifier? && NotifierStep(s, f, pc) == Some(s') && AgreedPc(s.conn, pc)
    ensures f in s'.fibers && AgreedPc(s'.conn, s'.fibers[f])
  {
    if pc.NoteReading? { ReadingAgreed(s, f, pc, s'); }
    if pc.NoteSelecting? || pc.NoteClaiming? { ClaimingAgreed(s, f, pc, s'); }
  }

  lemma AdvanceAgreed(s: State, f: Fiber, expire: bool, pick: nat, s': State)
    requires Inv(s) && f in s.fibers && AdvanceOf(s, f, expire, pick) == Some(s')
    requires AllAgreed(s) && TurnsLast(s.conn, s'.conn)
    ensures AllAgreed(s')
  {
    StepEffect(s, f, expire, pick, s');
    var pc := s.fibers[f];
    if RoleOf(pc).Notifier? { NotifierAgreed(s, f, pc, s'); }
    forall g | g in s'.fibers ensures AgreedPc(s'.conn, s'.fibers[g]) {
      if g in s.fibers && g != f { assert AgreedPc(s.conn, s.fibers[g]); }
    }
  }

  /** Every notification that starts in this run names one turn. */
  ghost predicate AgreeingRun(steps: seq<Step>) {
    forall k {:trigger steps[k]} :: 0 <= k < |steps| && steps[k].Spawn? && steps[k].pc.NoteSelecting? ==>
      Agrees(steps[k].pc.turnId, steps[k].pc.declared)
  }

  lemma StepAgreed(s: State, step: Step, s': State)
    requires Inv(s) && Watched(s) && Next(s, step, s') && AllAgreed(s) && s.lost == {}
    requires step.Spawn? && step.pc.NoteSelecting? ==> Agrees(step.pc.turnId, step.pc.declared)
    ensures AllAgreed(s') && s'.lost == {}
  {
    if step.Advance? {
      StepLasts(s, step, s');
      AdvanceAgreed(s, step.f, step.expire, step.pick, s');
      forall c ensures c !in s'.lost {
        LosesExactly(s, step.f, step.expire, step.pick, s', c);
        assert AgreedPc(s.conn, s.fibers[step.f]);
      }
    } else {
      forall g | g in s'.fibers ensures AgreedPc(s'.conn, s'.fibers[g]) {
        if g in s.fibers { assert AgreedPc(s.conn, s.fibers[g]); }
      }
    }
  }

  lemma RunAgreedAt(states: seq<State>, steps: seq<Step>, k: nat)
    requires Run(states, steps) && AgreeingRun(steps) && k < |steps| && AllAgreed(states[k]) && states[k].lost == {}
    ensures AllAgreed(states[k + 1]) && states[k + 1].lost == {}
  {
    RunWatched(states, steps, k);
    StepAgreed(states[k], steps[k], states[k + 1]);
  }

  /** If every notification names one turn only, nothing is ever lost, whatever the interleaving. */
  lemma {:induction false} AgreeingNeverLoses(states: seq<State>, steps: seq<Step>, k: nat)
    requires Run(states, steps) && AgreeingRun(steps) && k <= |steps|
    ensures AllAgreed(states[k]) && states[k].lost == {}
    decreases k
  {
    if k > 0 {
      AgreeingNeverLoses(states, steps, k - 1);
      RunAgreedAt(states, steps, k - 1);
    }
  }

  /** So then, with no handler in flight, claimed and completed coincide. */
  lemma ClaimedIsCompleted(states: seq<State>, steps: seq<Step>, k: nat, t: string)
    requires Run(states, steps) && AgreeingRun(steps) && k <= |steps| && Quiet(states[k]) && t in states[k].conn.turns
    ensures states[k].conn.turns[t].claimed <==> states[k].conn.turns[t].settlement in states[k].results
  {
    AgreeingNeverLoses(states, steps, k);
    QuietMeansSettled(states, steps, k);
  }
}
