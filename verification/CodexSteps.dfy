/** Every step of every fiber keeps the session invariant, so every run does. */
module CodexSteps {
  import opened Options
  import opened ConnectionState
  import opened CodexSession
  import opened CodexInvariant

  /** A fiber moves on and nothing else happens. */
  lemma MovesOn(s: State, f: Fiber, pc: Pc, s': State)
    requires Inv(s) && f in s.fibers && s' == Move(s, f, pc) && PcOk(s, pc)
    requires Owns(pc) == Owns(s.fibers[f]) && InLock(pc) == InLock(s.fibers[f]) && StillResponds(s, f, pc)
    ensures Inv(s')
  {
    StepKeeps(s, f, pc, s');
  }

  /** A fiber moves on, and the connection notes something no ownership rests on. */
  lemma NotesOn(s: State, f: Fiber, conn: Connection, pc: Pc, s': State)
    requires Inv(s) && f in s.fibers && s' == Move(s.(conn := conn), f, pc) && PcOk(s, pc)
    requires conn.pending == s.conn.pending && conn.turns == s.conn.turns && conn.nextId == s.conn.nextId
    requires conn.terminalError == s.conn.terminalError
    requires Owns(pc) == Owns(s.fibers[f]) && InLock(pc) == InLock(s.fibers[f]) && StillResponds(s, f, pc)
    ensures Inv(s')
  {
    StepKeeps(s, f, pc, s');
  }

  /** A fiber takes the lock, or gives it up, holding nothing. */
  lemma LocksOn(s: State, f: Fiber, pc: Pc, s': State)
    requires Inv(s) && f in s.fibers && s'.fibers == s.fibers[f := pc] && s' == Move(s.(lock := s'.lock), f, pc)
    requires Owns(pc) == {} == Owns(s.fibers[f]) && PcOk(s, pc) && (InLock(pc) <==> !InLock(s.fibers[f]))
    requires if InLock(pc) then s.lock.None? && s'.lock == Some(f) else s'.lock.None?
    requires StillResponds(s, f, pc)
    ensures Inv(s')
  {
    StepKeeps(s, f, pc, s');
  }

  lemma RegisteringKeeps(s: State, f: Fiber, call: string, turnCount: Option<nat>, s': State)
    requires Inv(s) && f in s.fibers && s.fibers[f] == Registering(call, turnCount)
    requires RequesterStep(s, f, s.fibers[f], false) == Some(s')
    ensures Inv(s')
  {
    if s.conn.terminalError.None? {
      RegisterKeeps(s, f, call, turnCount, s');
    } else {
      StepKeeps(s, f, Returned(Failed(s.conn.terminalError.value)), s');
    }
  }

  lemma ExpiringKeeps(s: State, f: Fiber, id: nat, reply: Cell, s': State)
    requires Inv(s) && f in s.fibers && s.fibers[f] == Expiring(id, reply)
    requires RequesterStep(s, f, s.fibers[f], false) == Some(s')
    ensures Inv(s')
  {
    assert PcOk(s, s.fibers[f]);
    if ExpirePending(s.conn, id, reply).0 {
      ExpireKeeps(s, f, id, reply, s');
    } else {
      UnexpiredIsSettling(s, id, reply);
      MovesOn(s, f, AwaitingSettled(reply), s');
    }
  }

  /** A request its own requester cannot drop has been claimed or settled already. */
  lemma UnexpiredIsSettling(s: State, id: nat, reply: Cell)
    requires PendingOk(s) && RequestsOk(s) && Issued(s, id, reply) && !ExpirePending(s.conn, id, reply).0
    ensures Settling(s, reply)
  {
    assert Settling(s, reply) || Unclaimed(s, reply);
  }

  lemma FailingReplyKeeps(s: State, f: Fiber, reply: Cell, s': State)
    requires Inv(s) && f in s.fibers && s.fibers[f] == FailingReply(reply)
    requires RequesterStep(s, f, s.fibers[f], false) == Some(s')
    ensures Inv(s')
  {
    assert PcOk(s, s.fibers[f]);
    assert !InLock(s.fibers[f]) && s.lock != Some(f);
    CompleteKeeps(s, f, reply, Failed(READ_TIMEOUT), AwaitingSettled(reply), s');
  }

  lemma AwaitingKeeps(s: State, f: Fiber, expire: bool, s': State)
    requires Inv(s) && f in s.fibers && (s.fibers[f].Awaiting? || s.fibers[f].AwaitingSettled?)
    requires RequesterStep(s, f, s.fibers[f], expire) == Some(s')
    ensures Inv(s')
  {
    assert PcOk(s, s.fibers[f]);
    MovesOn(s, f, s'.fibers[f], s');
  }

  lemma RequesterKeeps(s: State, f: Fiber, expire: bool, s': State)
    requires Inv(s) && f in s.fibers && RoleOf(s.fibers[f]).Requester?
    requires RequesterStep(s, f, s.fibers[f], expire) == Some(s')
    ensures Inv(s')
  {
    match s.fibers[f] {
      case Registering(call, turnCount) => RegisteringKeeps(s, f, call, turnCount, s');
      case Expiring(id, reply) => ExpiringKeeps(s, f, id, reply, s');
      case FailingReply(reply) => FailingReplyKeeps(s, f, reply, s');
      case _ => AwaitingKeeps(s, f, expire, s');
    }
  }

  lemma ClaimingResponseKeeps(s: State, f: Fiber, id: nat, answer: Answer, s': State)
    requires Inv(s) && f in s.fibers && s.fibers[f] == ResponseClaiming(id, answer)
    requires ResponderStep(s, f, s.fibers[f]) == Some(s')
    ensures Inv(s')
  {
    var claim := ClaimResponse(s.conn, id);
    if claim.0.None? {
      MovesOn(s, f, ResponseReleasing, s');
    } else {
      ClaimResponseKeeps(s, f, id, Answered(id, claim.0.value, answer), s');
    }
  }

  lemma AdoptingKeeps(s: State, f: Fiber, id: nat, request: PendingRequest, conn: Connection, s': State)
    requires Inv(s) && f in s.fibers && s.fibers[f].ResponseAdopting?
    requires s.fibers[f].id == id && s.fibers[f].request == request
    requires conn == AdoptIdentity(s.conn, s.fibers[f].threadId, s.fibers[f].named)
    requires ResponderStep(s, f, s.fibers[f]) == Some(s')
    ensures Inv(s')
  {
    assert PcOk(s, s.fibers[f]);
    NotesOn(s, f, conn, s'.fibers[f], s');
  }

  /** Under the lock, with a claimed request still pending, the session cannot have failed for good. */
  lemma AnsweringMeansOpen(s: State, id: nat, reply: Cell)
    requires TerminalOk(s) && Answering(s, id, reply)
    ensures s.conn.terminalError.None?
  {}

  lemma SelectingResponseKeeps(s: State, f: Fiber, id: nat, reply: Cell, s': State)
    requires Inv(s) && f in s.fibers && s.fibers[f].ResponseSelecting? && s.fibers[f].id == id && s.fibers[f].reply == reply
    requires ResponderStep(s, f, s.fibers[f]) == Some(s')
    ensures Inv(s') && s'.fibers[f].ResponseStarting?
  {
    assert PcOk(s, s.fibers[f]);
    AnsweringMeansOpen(s, id, reply);
    assert InLock(s.fibers[f]) && s.lock == Some(f);
    SelectKeeps(s, f, s.fibers[f].turnId, s'.fibers[f], s');
  }

  lemma SettlingResponseKeeps(s: State, f: Fiber, id: nat, reply: Cell, result: Result, s': State)
    requires Inv(s) && f in s.fibers && s.fibers[f] == ResponseSettling(id, reply, result)
    requires ResponderStep(s, f, s.fibers[f]) == Some(s')
    ensures Inv(s')
  {
    assert PcOk(s, s.fibers[f]);
    assert InLock(s.fibers[f]) && s.lock == Some(f);
    CompleteKeeps(s, f, reply, result, ResponseRemoving(id, reply), s');
  }

  lemma ReleasingKeeps(s: State, f: Fiber, s': State)
    requires Inv(s) && f in s.fibers && (s.fibers[f].ResponseReleasing? || s.fibers[f].ResponseWaiting? || s.fibers[f].ResponseBroken?)
    requires ResponderStep(s, f, s.fibers[f]) == Some(s')
    ensures Inv(s')
  {
    assert PcOk(s, s.fibers[f]);
    LocksOn(s, f, s'.fibers[f], s');
  }

  lemma StartingResponseKeeps(s: State, f: Fiber, s': State)
    requires Inv(s) && f in s.fibers && s.fibers[f].ResponseStarting?
    requires ResponderStep(s, f, s.fibers[f]) == Some(s')
    ensures Inv(s')
  {
    assert PcOk(s, s.fibers[f]);
    NotesOn(s, f, s'.conn, s'.fibers[f], s');
  }

  lemma ResponderKeeps(s: State, f: Fiber, s': State)
    requires Inv(s) && f in s.fibers && RoleOf(s.fibers[f]).Responder? && ResponderStep(s, f, s.fibers[f]) == Some(s')
    ensures Inv(s')
  {
    match s.fibers[f] {
      case ResponseClaiming(id, answer) => ClaimingResponseKeeps(s, f, id, answer, s');
      case ResponseAdopting(id, request, value, threadId, named) =>
        AdoptingKeeps(s, f, id, request, AdoptIdentity(s.conn, threadId, named), s');
      case ResponseSelecting(id, reply, _, _, _) => SelectingResponseKeeps(s, f, id, reply, s');
      case ResponseStarting(_, _, _, _, _) => StartingResponseKeeps(s, f, s');
      case ResponseSettling(id, reply, result) => SettlingResponseKeeps(s, f, id, reply, result, s');
      case ResponseRemoving(id, reply) => RemoveKeeps(s, f, id, reply, s');
      case _ => ReleasingKeeps(s, f, s');
    }
  }

  lemma SettlingOneKeeps(s: State, f: Fiber, error: AgentError, left: set<Cell>, pick: Cell, s': State)
    requires Inv(s) && f in s.fibers && s.fibers[f] == FailSettling(error, left) && pick in left
    requires s' == Complete(s, f, pick, Failed(error), FailSettling(error, left - {pick}))
    ensures Inv(s')
  {
    assert InLock(s.fibers[f]) && s.lock == Some(f);
    CompleteKeeps(s, f, pick, Failed(error), FailSettling(error, left - {pick}), s');
  }

  lemma SettlingAllKeeps(s: State, f: Fiber, error: AgentError, left: set<Cell>, pick: Cell, s': State)
    requires Inv(s) && f in s.fibers && s.fibers[f] == FailSettling(error, left)
    requires FailerStep(s, f, s.fibers[f], pick) == Some(s')
    ensures Inv(s')
  {
    if left == {} {
      LocksOn(s, f, Finished, s');
    } else {
      SettlingOneKeeps(s, f, error, left, pick, s');
    }
  }

  lemma FailerKeeps(s: State, f: Fiber, pick: Cell, s': State)
    requires Inv(s) && f in s.fibers && RoleOf(s.fibers[f]).Failer? && FailerStep(s, f, s.fibers[f], pick) == Some(s')
    ensures Inv(s')
  {
    match s.fibers[f] {
      case FailWaiting(error, remember) => LocksOn(s, f, FailClaiming(error, remember), s');
      case FailClaiming(error, remember) => FailAllKeeps(s, f, error, remember, s');
      case FailSettling(error, left) => SettlingAllKeeps(s, f, error, left, pick, s');
    }
  }

  lemma SettlerKeeps(s: State, f: Fiber, s': State)
    requires Inv(s) && f in s.fibers && RoleOf(s.fibers[f]).Settler? && SettlerStep(s, f, s.fibers[f]) == Some(s')
    ensures Inv(s')
  {
    match s.fibers[f] {
      case SettleSelecting(turnId, _, _) => SettleSelectingKeeps(s, f, turnId, s');
      case SettleClaiming(turnId, turn, outcome, timer) => SettleClaimingKeeps(s, f, turnId, turn, outcome, timer, s');
      case SettleCompleting(turnId, due, timer) => SettleCompletingKeeps(s, f, turnId, due, timer, s');
    }
  }

  lemma SettleSelectingKeeps(s: State, f: Fiber, turnId: string, s': State)
    requires Inv(s) && f in s.fibers && s.fibers[f].SettleSelecting? && s.fibers[f].turnId == turnId
    requires SettlerStep(s, f, s.fibers[f]) == Some(s')
    ensures Inv(s')
  {
    assert !InLock(s.fibers[f]) && s.lock != Some(f);
    SelectKeeps(s, f, turnId, s'.fibers[f], s');
  }

  lemma SettleClaimingKeeps(
    s: State, f: Fiber, turnId: string, turn: TurnState, outcome: Result, timer: Option<TurnState>, s': State)
    requires Inv(s) && f in s.fibers && s.fibers[f] == SettleClaiming(turnId, turn, outcome, timer)
    requires SettlerStep(s, f, s.fibers[f]) == Some(s')
    ensures Inv(s')
  {
    assert !InLock(s.fibers[f]) && s.lock != Some(f);
    if ClaimTurn(s.conn, turnId, turn).0 {
      ClaimKeeps(s, f, turnId, turn, SettleCompleting(turnId, Owed(turn.settlement, outcome), timer), s');
    } else {
      MovesOn(s, f, AfterSettling(turnId, timer), s');
    }
  }

  lemma SettleCompletingKeeps(s: State, f: Fiber, turnId: string, due: Owed, timer: Option<TurnState>, s': State)
    requires Inv(s) && f in s.fibers && s.fibers[f] == SettleCompleting(turnId, due, timer)
    requires SettlerStep(s, f, s.fibers[f]) == Some(s')
    ensures Inv(s')
  {
    assert !InLock(s.fibers[f]) && s.lock != Some(f);
    CompleteKeeps(s, f, due.cell, due.outcome, AfterSettling(turnId, timer), s');
  }

  lemma NoteSelectingKeeps(s: State, f: Fiber, turnId: string, s': State)
    requires Inv(s) && f in s.fibers && s.fibers[f].NoteSelecting? && s.fibers[f].turnId == turnId
    requires NotifierStep(s, f, s.fibers[f]) == Some(s')
    ensures Inv(s')
  {
    assert !InLock(s.fibers[f]) && s.lock != Some(f);
    SelectKeeps(s, f, turnId, s'.fibers[f], s');
  }

  lemma NoteClaimingKeeps(
    s: State, f: Fiber, turnId: string, turn: TurnState, outcome: Result, declared: Option<string>, s': State)
    requires Inv(s) && f in s.fibers && s.fibers[f] == NoteClaiming(turnId, turn, outcome, declared)
    requires NotifierStep(s, f, s.fibers[f]) == Some(s')
    ensures Inv(s')
  {
    assert !InLock(s.fibers[f]) && s.lock != Some(f);
    if ClaimTurn(s.conn, turnId, turn).0 {
      NoteWinsKeeps(s, f, turnId, turn, NoteReading(Some(Owed(turn.settlement, outcome)), OrElse(declared, Some(turnId))), s');
    } else {
      MovesOn(s, f, Finished, s');
    }
  }

  lemma NoteWinsKeeps(s: State, f: Fiber, turnId: string, turn: TurnState, pc: Pc, s': State)
    requires Inv(s) && f in s.fibers && s.fibers[f].NoteClaiming? && s.lock != Some(f)
    requires pc.NoteReading? && pc.owed.Some? && pc.owed.value.cell == turn.settlement
    requires ClaimTurn(s.conn, turnId, turn).0 && s' == Claim(s, f, turnId, turn, pc)
    ensures Inv(s')
  {
    ClaimedWasFree(s, f, turnId, turn, pc, s');
    ClaimKeeps(s, f, turnId, turn, pc, s');
  }

  lemma NoteReadingKeeps(s: State, f: Fiber, s': State)
    requires Inv(s) && f in s.fibers && (s.fibers[f].NoteReading? || s.fibers[f].NoteStarting?)
    requires NotifierStep(s, f, s.fibers[f]) == Some(s')
    ensures Inv(s')
  {
    assert PcOk(s, s.fibers[f]);
    NotesOn(s, f, s'.conn, s'.fibers[f], s');
  }

  lemma NoteEnsuringKeeps(s: State, f: Fiber, owed: Option<Owed>, turnId: string, count: nat, s': State)
    requires Inv(s) && f in s.fibers && s.fibers[f] == NoteEnsuring(owed, turnId, count)
    requires NotifierStep(s, f, s.fibers[f]) == Some(s')
    ensures Inv(s')
  {
    assert PcOk(s, s.fibers[f]);
    assert !InLock(s.fibers[f]) && s.lock != Some(f);
    if Selection(s, turnId).SelectionError? {
      AbortKeeps(s, f, owed, s');
    } else {
      SelectKeeps(s, f, turnId, NoteStarting(owed, turnId, count), s');
    }
  }

  lemma NoteFinishingKeeps(s: State, f: Fiber, owed: Option<Owed>, s': State)
    requires Inv(s) && f in s.fibers && s.fibers[f] == NoteFinishing(owed)
    requires NotifierStep(s, f, s.fibers[f]) == Some(s')
    ensures Inv(s')
  {
    assert !InLock(s.fibers[f]) && s.lock != Some(f);
    if owed.Some? {
      assert Owns(Finished) == Owns(s.fibers[f]) - {owed.value.cell};
      CompleteKeeps(s, f, owed.value.cell, owed.value.outcome, Finished, s');
    } else {
      MovesOn(s, f, Finished, s');
    }
  }

  lemma NotifierKeeps(s: State, f: Fiber, s': State)
    requires Inv(s) && f in s.fibers && RoleOf(s.fibers[f]).Notifier? && NotifierStep(s, f, s.fibers[f]) == Some(s')
    ensures Inv(s')
  {
    match s.fibers[f] {
      case NoteSelecting(turnId, _, _) => NoteSelectingKeeps(s, f, turnId, s');
      case NoteClaiming(turnId, turn, outcome, declared) => NoteClaimingKeeps(s, f, turnId, turn, outcome, declared, s');
      case NoteEnsuring(owed, turnId, count) => NoteEnsuringKeeps(s, f, owed, turnId, count, s');
      case NoteFinishing(owed) => NoteFinishingKeeps(s, f, owed, s');
      case _ => NoteReadingKeeps(s, f, s');
    }
  }

  lemma TurnSelectingKeeps(s: State, f: Fiber, turnId: string, s': State)
    requires Inv(s) && f in s.fibers && s.fibers[f] == TurnSelecting(turnId)
    requires AwaiterStep(s, f, s.fibers[f], false, 0) == Some(s')
    ensures Inv(s')
  {
    assert !InLock(s.fibers[f]) && s.lock != Some(f);
    SelectKeeps(s, f, turnId, s'.fibers[f], s');
  }

  lemma TurnTimingKeeps(s: State, f: Fiber, turnId: string, turn: TurnState, pick: Fiber, s': State)
    requires Inv(s) && f in s.fibers && s.fibers[f] == TurnTiming(turnId, turn)
    requires AwaiterStep(s, f, s.fibers[f], false, pick) == Some(s')
    ensures Inv(s')
  {
    var pc := TurnAwaiting(turnId, turn.settlement);
    if BeginTurnTimer(s.conn, turnId, turn).0 {
      var between := Move(s.(conn := BeginTurnTimer(s.conn, turnId, turn).1), f, pc);
      TimerStartKeeps(s, f, turnId, turn, pc, between);
      TimerForks(between, pick, turnId, turn, s');
    } else {
      assert PcOk(s, s.fibers[f]);
      MovesOn(s, f, pc, s');
    }
  }

  /** Starting a silence timer: once the waiter has gone on to wait, the timer's fiber is there. */
  lemma TimerForks(s: State, g: Fiber, turnId: string, turn: TurnState, s': State)
    requires Inv(s) && g !in s.fibers && s' == Move(s, g, TimerArmed(turnId, turn))
    ensures Inv(s')
  {
    SpawnKeeps(s, g, TimerArmed(turnId, turn), s');
  }

  lemma TimerStartKeeps(s: State, f: Fiber, turnId: string, turn: TurnState, pc: Pc, s': State)
    requires Inv(s) && f in s.fibers && s.fibers[f] == TurnTiming(turnId, turn) && pc == TurnAwaiting(turnId, turn.settlement)
    requires BeginTurnTimer(s.conn, turnId, turn).0 && s' == Move(s.(conn := BeginTurnTimer(s.conn, turnId, turn).1), f, pc)
    ensures Inv(s')
  {
    assert PcOk(s, s.fibers[f]);
    assert !InLock(s.fibers[f]) && s.lock != Some(f);
    TimerKeeps(s, f, turnId, WithTimer(turn, true), pc, s');
  }

  lemma TimerReleasingKeeps(s: State, f: Fiber, turnId: string, turn: TurnState, s': State)
    requires Inv(s) && f in s.fibers && s.fibers[f] == TimerReleasing(turnId, turn)
    requires AwaiterStep(s, f, s.fibers[f], false, 0) == Some(s')
    ensures Inv(s')
  {
    assert !InLock(s.fibers[f]) && s.lock != Some(f);
    if s'.conn == s.conn {
      MovesOn(s, f, Finished, s');
    } else {
      TimerKeeps(s, f, turnId, WithTimer(s.conn.turns[turnId], false), Finished, s');
    }
  }

  lemma TurnAwaitingKeeps(s: State, f: Fiber, expire: bool, s': State)
    requires Inv(s) && f in s.fibers && (s.fibers[f].TurnAwaiting? || s.fibers[f].TimerArmed?)
    requires AwaiterStep(s, f, s.fibers[f], expire, 0) == Some(s')
    ensures Inv(s')
  {
    MovesOn(s, f, s'.fibers[f], s');
  }

  lemma AwaiterKeeps(s: State, f: Fiber, expire: bool, pick: Fiber, s': State)
    requires Inv(s) && f in s.fibers && RoleOf(s.fibers[f]).Awaiter?
    requires AwaiterStep(s, f, s.fibers[f], expire, pick) == Some(s')
    ensures Inv(s')
  {
    match s.fibers[f] {
      case TurnSelecting(turnId) => TurnSelectingKeeps(s, f, turnId, s');
      case TurnTiming(turnId, turn) => TurnTimingKeeps(s, f, turnId, turn, pick, s');
      case TimerReleasing(turnId, turn) => TimerReleasingKeeps(s, f, turnId, turn, s');
      case _ => TurnAwaitingKeeps(s, f, expire, s');
    }
  }

  lemma AdvanceKeeps(s: State, f: Fiber, expire: bool, pick: nat, s': State)
    requires Inv(s) && f in s.fibers && AdvanceOf(s, f, expire, pick) == Some(s')
    ensures Inv(s')
  {
    match RoleOf(s.fibers[f]) {
      case Requester => RequesterKeeps(s, f, expire, s');
      case Responder => ResponderKeeps(s, f, s');
      case Failer => FailerKeeps(s, f, pick, s');
      case Settler => SettlerKeeps(s, f, s');
      case Notifier => NotifierKeeps(s, f, s');
      case Awaiter => AwaiterKeeps(s, f, expire, pick, s');
    }
  }

  lemma CloseKeeps(s: State, s': State)
    requires Inv(s) && s' == s.(conn := s.conn.(closed := true))
    ensures Inv(s')
  {
    assert SamePending(s, s') && SameTurns(s, s');
    RequestsFrom(s, s');
    TurnsFrom(s, s');
    forall id | id in s'.conn.pending ensures EntryOk(s', id) { assert EntryOk(s, id); }
    forall f | f in s'.fibers ensures PcOk(s', s'.fibers[f]) { assert PcOk(s, s.fibers[f]); }
  }

  lemma NextKeeps(s: State, step: Step, s': State)
    requires Inv(s) && Next(s, step, s')
    ensures Inv(s')
  {
    match step {
      case Spawn(f, pc) => SpawnKeeps(s, f, pc, s');
      case Advance(f, expire, pick) => AdvanceKeeps(s, f, expire, pick, s');
      case Close => CloseKeeps(s, s');
    }
  }

  /** Every reachable state is in order. */
  lemma {:induction false} RunKeeps(states: seq<State>, steps: seq<Step>, k: nat)
    requires Run(states, steps) && k <= |steps|
    ensures Inv(states[k])
    decreases k
  {
    if k > 0 {
      RunKeeps(states, steps, k - 1);
      NextKeeps(states[k - 1], steps[k - 1], states[k]);
    }
  }
}
