/** A second invariant of a session, about its turns: one that somebody awaits is being timed until it
    is claimed, and once the session has failed for good no turn is added. */
module CodexWatch {
  import opened Options
  import opened ConnectionState
  import opened CodexSession
  import opened CodexInvariant
  import opened CodexSteps

  /** The silence timer of a turn, up to the claim it makes when it runs out. */
  predicate Guards(pc: Pc, turnId: string) {
    match pc
    case TimerArmed(t, _) => t == turnId
    case SettleSelecting(t, _, timer) => t == turnId && timer.Some?
    case SettleClaiming(t, _, _, timer) => t == turnId && timer.Some?
    case _ => false
  }

  predicate Fresh(turn: TurnState) {
    turn == TurnState(turn.settlement, false, false, 0)
  }

  ghost predicate TurnWatched(s: State, t: string)
    requires t in s.conn.turns
  {
    var turn := s.conn.turns[t];
    turn.claimed || Fresh(turn) || (turn.timerStarted && exists g :: g in s.fibers && Guards(s.fibers[g], t))
  }

  ghost predicate Done(c: Connection, t: string, cell: Cell) {
    t in c.turns && c.turns[t].settlement == cell && c.turns[t].claimed
  }

  ghost predicate Named(c: Connection, t: string, cell: Cell) {
    t in c.turns && c.turns[t].settlement == cell
  }

  ghost predicate TimerNamed(c: Connection, t: string, timer: Option<TurnState>) {
    timer.Some? ==> Named(c, t, timer.value.settlement)
  }

  /** What a fiber may count on of the turns at its program counter. */
  ghost predicate PcWatched(c: Connection, pc: Pc) {
    match pc
    case TurnTiming(t, turn) => Named(c, t, turn.settlement) && (Fresh(c.turns[t]) ==> turn == c.turns[t])
    case TurnAwaiting(t, cell) => Named(c, t, cell) && !Fresh(c.turns[t])
    case TimerArmed(t, turn) => Named(c, t, turn.settlement)
    case SettleSelecting(t, _, timer) => TimerNamed(c, t, timer)
    case SettleClaiming(t, turn, _, timer) => Named(c, t, turn.settlement) && TimerNamed(c, t, timer)
    case SettleCompleting(t, _, timer) => timer.Some? ==> Done(c, t, timer.value.settlement)
    case TimerReleasing(t, turn) => Done(c, t, turn.settlement)
    case NoteStarting(_, t, _) => t in c.turns
    case _ => true
  }

  ghost predicate FibersWatched(s: State) {
    forall f :: f in s.fibers ==> PcWatched(s.conn, s.fibers[f])
  }

  ghost predicate TurnsWatched(s: State) {
    forall t :: t in s.conn.turns ==> TurnWatched(s, t)
  }

  /** A session that failed for good has given its turn in flight a record. */
  predicate FlightNamed(c: Connection) {
    c.terminalError.Some? && c.turnId.Some? ==> c.turnId.value in c.turns
  }

  ghost predicate Watched(s: State) {
    FibersWatched(s) && TurnsWatched(s) && FlightNamed(s.conn)
  }

  /** Turns are only ever added fresh or claimed, and changed by claiming them or when claimed. */
  ghost predicate OnlyClaims(c: Connection, c': Connection) {
    && (forall t :: t in c.turns ==> Later(c, c', t))
    && (forall t :: t in c'.turns && t !in c.turns ==> c'.turns[t].claimed || Fresh(c'.turns[t]))
  }

  ghost predicate Later(c: Connection, c': Connection, t: string)
    requires t in c.turns
  {
    && t in c'.turns && c'.turns[t].settlement == c.turns[t].settlement
    && (c'.turns[t] == c.turns[t] || (c'.turns[t].claimed && c'.turns[t].copies > 0))
  }

  lemma WatchedLater(c: Connection, c': Connection, pc: Pc)
    requires PcWatched(c, pc) && OnlyClaims(c, c')
    ensures PcWatched(c', pc)
  {}

  ghost predicate PassesGuard(pc: Pc, pc': Pc, c': Connection) {
    forall t :: Guards(pc, t) ==> Guards(pc', t) || (t in c'.turns && c'.turns[t].claimed)
  }

  lemma WatchStep(s: State, f: Fiber, pc: Pc, s': State)
    requires Watched(s) && f in s.fibers && s'.fibers == s.fibers[f := pc] && OnlyClaims(s.conn, s'.conn)
    requires PcWatched(s'.conn, pc) && PassesGuard(s.fibers[f], pc, s'.conn) && FlightNamed(s'.conn)
    ensures Watched(s')
  {
    forall g | g in s'.fibers ensures PcWatched(s'.conn, s'.fibers[g]) {
      if g != f { WatchedLater(s.conn, s'.conn, s.fibers[g]); }
    }
    forall t | t in s'.conn.turns ensures TurnWatched(s', t) {
      if t in s.conn.turns {
        assert Later(s.conn, s'.conn, t) && TurnWatched(s, t);
        if s'.conn.turns[t] == s.conn.turns[t] && !s.conn.turns[t].claimed && !Fresh(s.conn.turns[t]) {
          var g :| g in s.fibers && Guards(s.fibers[g], t);
          assert Guards(s'.fibers[g], t);
        }
      }
    }
  }

  /** A step that leaves the turns alone. */
  lemma WatchQuiet(s: State, f: Fiber, pc: Pc, s': State)
    requires Watched(s) && f in s.fibers && s'.fibers == s.fibers[f := pc] && s'.conn.turns == s.conn.turns
    requires PcWatched(s.conn, pc) && PassesGuard(s.fibers[f], pc, s'.conn) && FlightNamed(s'.conn)
    ensures Watched(s')
  {
    assert OnlyClaims(s.conn, s'.conn);
    WatchedLater(s.conn, s'.conn, pc);
    WatchStep(s, f, pc, s');
  }

  /** Finding or installing a turn. */
  lemma WatchSelect(s: State, f: Fiber, turnId: string, pc: Pc, s': State)
    requires Watched(s) && f in s.fibers && s'.conn == SelectTurn(s.conn, turnId, Candidate(s)).1
    requires s'.fibers == s.fibers[f := pc] && PcWatched(s'.conn, pc) && PassesGuard(s.fibers[f], pc, s'.conn)
    ensures Watched(s')
  {
    assert OnlyClaims(s.conn, s'.conn);
    WatchStep(s, f, pc, s');
  }

  lemma WatchClaim(s: State, f: Fiber, turnId: string, turn: TurnState, pc: Pc, s': State)
    requires Watched(s) && f in s.fibers && ClaimTurn(s.conn, turnId, turn).0 && s' == Claim(s, f, turnId, turn, pc)
    requires PcWatched(s'.conn, pc) && forall t :: Guards(s.fibers[f], t) ==> t == turnId
    ensures Watched(s')
  {
    assert OnlyClaims(s.conn, s'.conn);
    WatchStep(s, f, pc, s');
  }

  lemma WatchFail(s: State, f: Fiber, error: AgentError, remember: bool, s': State)
    requires Watched(s) && f in s.fibers && s.fibers[f].FailClaiming? && s' == FailAll(s, f, error, remember)
    ensures Watched(s')
  {
    assert OnlyClaims(s.conn, s'.conn);
    WatchStep(s, f, s'.fibers[f], s');
  }

  lemma RegisteringFrame(s: State, f: Fiber, pc: Pc, s': State)
    requires (pc.Registering? || pc.Expiring?) && RequesterStep(s, f, pc, false) == Some(s')
    ensures f in s'.fibers && s'.fibers == s.fibers[f := s'.fibers[f]]
    ensures RoleOf(s'.fibers[f]).Requester? || s'.fibers[f].Returned?
    ensures s'.conn.turns == s.conn.turns && s'.conn.turnId == s.conn.turnId && s'.conn.terminalError == s.conn.terminalError
  {}

  lemma RequesterFrame(s: State, f: Fiber, pc: Pc, expire: bool, s': State)
    requires RoleOf(pc).Requester? && RequesterStep(s, f, pc, expire) == Some(s')
    ensures f in s'.fibers && s'.fibers == s.fibers[f := s'.fibers[f]]
    ensures RoleOf(s'.fibers[f]).Requester? || s'.fibers[f].Returned?
    ensures s'.conn.turns == s.conn.turns && s'.conn.turnId == s.conn.turnId && s'.conn.terminalError == s.conn.terminalError
  {
    if pc.Registering? || pc.Expiring? { RegisteringFrame(s, f, pc, s'); }
  }

  lemma RequesterWatched(s: State, f: Fiber, expire: bool, s': State)
    requires Watched(s) && f in s.fibers && RoleOf(s.fibers[f]).Requester?
    requires RequesterStep(s, f, s.fibers[f], expire) == Some(s')
    ensures Watched(s')
  {
    RequesterFrame(s, f, s.fibers[f], expire, s');
    WatchQuiet(s, f, s'.fibers[f], s');
  }

  /** What a response handler adopts names the turn in flight only while the session can still run it. */
  lemma ResponderWatched(s: State, f: Fiber, s': State)
    requires Watched(s) && TerminalOk(s) && f in s.fibers && PcOk(s, s.fibers[f])
    requires RoleOf(s.fibers[f]).Responder? && ResponderStep(s, f, s.fibers[f]) == Some(s')
    ensures Watched(s')
  {
    var pc := s.fibers[f];
    if pc.ResponseSelecting? {
      WatchSelect(s, f, pc.turnId, s'.fibers[f], s');
    } else {
      ResponderFrame(s, f, pc, s');
      WatchQuiet(s, f, s'.fibers[f], s');
    }
  }

  lemma ResponderFrame(s: State, f: Fiber, pc: Pc, s': State)
    requires TerminalOk(s) && FlightNamed(s.conn) && PcOk(s, pc)
    requires RoleOf(pc).Responder? && !pc.ResponseSelecting? && ResponderStep(s, f, pc) == Some(s')
    ensures f in s'.fibers && s'.fibers == s.fibers[f := s'.fibers[f]] && PcWatched(s.conn, s'.fibers[f])
    ensures s'.conn.turns == s.conn.turns && FlightNamed(s'.conn)
  {}

  lemma FailerWatched(s: State, f: Fiber, pick: Cell, s': State)
    requires Watched(s) && f in s.fibers && RoleOf(s.fibers[f]).Failer? && FailerStep(s, f, s.fibers[f], pick) == Some(s')
    ensures Watched(s')
  {
    match s.fibers[f] {
      case FailClaiming(error, remember) => WatchFail(s, f, error, remember, s');
      case FailWaiting(_, _) => WatchQuiet(s, f, s'.fibers[f], s');
      case FailSettling(_, _) => WatchQuiet(s, f, s'.fibers[f], s');
    }
  }

  lemma SettlerWatched(s: State, f: Fiber, s': State)
    requires Watched(s) && f in s.fibers && RoleOf(s.fibers[f]).Settler? && SettlerStep(s, f, s.fibers[f]) == Some(s')
    ensures Watched(s')
  {
    assert PcWatched(s.conn, s.fibers[f]);
    match s.fibers[f] {
      case SettleSelecting(turnId, _, _) => WatchSelect(s, f, turnId, s'.fibers[f], s');
      case SettleClaiming(turnId, turn, _, _) =>
        if ClaimTurn(s.conn, turnId, turn).0 { WatchClaim(s, f, turnId, turn, s'.fibers[f], s'); } else {
          WatchQuiet(s, f, s'.fibers[f], s');
        }
      case SettleCompleting(_, _, _) => WatchQuiet(s, f, s'.fibers[f], s');
    }
  }

  lemma NoteClaimingWatched(s: State, f: Fiber, turnId: string, turn: TurnState, s': State)
    requires Watched(s) && f in s.fibers && s.fibers[f].NoteClaiming?
    requires s.fibers[f].turnId == turnId && s.fibers[f].turn == turn && NotifierStep(s, f, s.fibers[f]) == Some(s')
    ensures Watched(s')
  {
    if ClaimTurn(s.conn, turnId, turn).0 {
      WatchClaim(s, f, turnId, turn, s'.fibers[f], s');
    } else {
      WatchQuiet(s, f, Finished, s');
    }
  }

  lemma NoteReadingWatched(s: State, f: Fiber, s': State)
    requires Watched(s) && f in s.fibers && (s.fibers[f].NoteReading? || s.fibers[f].NoteStarting? || s.fibers[f].NoteFinishing?)
    requires NotifierStep(s, f, s.fibers[f]) == Some(s')
    ensures Watched(s')
  {
    assert PcWatched(s.conn, s.fibers[f]);
    WatchQuiet(s, f, s'.fibers[f], s');
  }

  lemma NotifierWatched(s: State, f: Fiber, s': State)
    requires Watched(s) && f in s.fibers && RoleOf(s.fibers[f]).Notifier? && NotifierStep(s, f, s.fibers[f]) == Some(s')
    ensures Watched(s')
  {
    assert PcWatched(s.conn, s.fibers[f]);
    match s.fibers[f] {
      case NoteSelecting(turnId, _, _) => WatchSelect(s, f, turnId, s'.fibers[f], s');
      case NoteEnsuring(_, turnId, _) => WatchSelect(s, f, turnId, s'.fibers[f], s');
      case NoteClaiming(turnId, turn, _, _) => NoteClaimingWatched(s, f, turnId, turn, s');
      case _ => NoteReadingWatched(s, f, s');
    }
  }

  /** The one step that starts a timer also forks the fiber that runs it. */
  lemma WatchBegin(s: State, f: Fiber, turnId: string, turn: TurnState, pick: Fiber, s': State)
    requires Watched(s) && f in s.fibers && s.fibers[f] == TurnTiming(turnId, turn) && BeginTurnTimer(s.conn, turnId, turn).0
    requires pick !in s.fibers && s'.conn == BeginTurnTimer(s.conn, turnId, turn).1
    requires s'.fibers == s.fibers[f := TurnAwaiting(turnId, turn.settlement)][pick := TimerArmed(turnId, turn)]
    ensures Watched(s')
  {
    assert Guards(s'.fibers[pick], turnId);
    forall g | g in s'.fibers ensures PcWatched(s'.conn, s'.fibers[g]) {
      if g in s.fibers { assert PcWatched(s.conn, s.fibers[g]); }
    }
    forall t | t in s'.conn.turns ensures TurnWatched(s', t) {
      assert TurnWatched(s, t);
      if t != turnId && !s.conn.turns[t].claimed && !Fresh(s.conn.turns[t]) {
        var g :| g in s.fibers && Guards(s.fibers[g], t);
        assert Guards(s'.fibers[g], t);
      }
    }
  }

  lemma AwaiterWatched(s: State, f: Fiber, expire: bool, pick: Fiber, s': State)
    requires Watched(s) && TurnsOk(s) && f in s.fibers && RoleOf(s.fibers[f]).Awaiter?
    requires AwaiterStep(s, f, s.fibers[f], expire, pick) == Some(s')
    ensures Watched(s')
  {
    assert PcWatched(s.conn, s.fibers[f]);
    match s.fibers[f] {
      case TurnSelecting(turnId) => WatchSelect(s, f, turnId, s'.fibers[f], s');
      case TurnTiming(turnId, turn) =>
        if BeginTurnTimer(s.conn, turnId, turn).0 { WatchBegin(s, f, turnId, turn, pick, s'); } else {
          WatchQuiet(s, f, TurnAwaiting(turnId, turn.settlement), s');
        }
      case TurnAwaiting(_, _) => WatchQuiet(s, f, s'.fibers[f], s');
      case TimerArmed(turnId, turn) => WatchArmed(s, f, turnId, turn, expire, s');
      case TimerReleasing(turnId, turn) => WatchRelease(s, f, turnId, turn, s');
    }
  }

  /** A timer is released only from a turn that is claimed. */
  lemma WatchRelease(s: State, f: Fiber, turnId: string, turn: TurnState, s': State)
    requires Watched(s) && f in s.fibers && s.fibers[f] == TimerReleasing(turnId, turn)
    requires s' == Move(s.(conn := ReleaseTurnTimer(s.conn, turnId, turn)), f, Finished)
    ensures Watched(s')
  {
    assert PcWatched(s.conn, s.fibers[f]);
    assert OnlyClaims(s.conn, s'.conn);
    WatchStep(s, f, Finished, s');
  }

  /** A timer whose turn completed without it leaves a claimed turn. */
  lemma WatchArmed(s: State, f: Fiber, turnId: string, turn: TurnState, expire: bool, s': State)
    requires Watched(s) && TurnsOk(s) && f in s.fibers && s.fibers[f] == TimerArmed(turnId, turn)
    requires AwaiterStep(s, f, s.fibers[f], expire, 0) == Some(s')
    ensures Watched(s')
  {
    assert PcWatched(s.conn, s.fibers[f]);
    assert TurnOk(s, turnId);
    WatchQuiet(s, f, s'.fibers[f], s');
  }

  lemma NextWatched(s: State, step: Step, s': State)
    requires Inv(s) && Watched(s) && Next(s, step, s')
    ensures Watched(s')
  {
    match step {
      case Spawn(f, pc) => SpawnWatched(s, f, pc, s');
      case Advance(f, expire, pick) => AdvanceWatched(s, f, expire, pick, s');
      case Close => CloseWatched(s, s');
    }
  }

  lemma AdvanceWatched(s: State, f: Fiber, expire: bool, pick: nat, s': State)
    requires Inv(s) && Watched(s) && f in s.fibers && AdvanceOf(s, f, expire, pick) == Some(s')
    ensures Watched(s')
  {
    assert PcOk(s, s.fibers[f]);
    match RoleOf(s.fibers[f]) {
      case Requester => RequesterWatched(s, f, expire, s');
      case Responder => ResponderWatched(s, f, s');
      case Failer => FailerWatched(s, f, pick, s');
      case Settler => SettlerWatched(s, f, s');
      case Notifier => NotifierWatched(s, f, s');
      case Awaiter => AwaiterWatched(s, f, expire, pick, s');
    }
  }

  lemma SpawnWatched(s: State, f: Fiber, pc: Pc, s': State)
    requires Watched(s) && f !in s.fibers && Entry(pc) && s' == Move(s, f, pc)
    ensures Watched(s')
  {
    forall t | t in s'.conn.turns ensures TurnWatched(s', t) {
      assert TurnWatched(s, t);
      if !s.conn.turns[t].claimed && !Fresh(s.conn.turns[t]) {
        var g :| g in s.fibers && Guards(s.fibers[g], t);
        assert Guards(s'.fibers[g], t);
      }
    }
  }

  lemma CloseWatched(s: State, s': State)
    requires Watched(s) && s' == s.(conn := s.conn.(closed := true))
    ensures Watched(s')
  {
    forall t | t in s'.conn.turns ensures TurnWatched(s', t) { assert TurnWatched(s, t); }
    forall g | g in s'.fibers ensures PcWatched(s'.conn, s'.fibers[g]) { assert PcWatched(s.conn, s.fibers[g]); }
  }

  /** Every reachable state is in order, and its turns are watched. */
  lemma {:induction false} RunWatched(states: seq<State>, steps: seq<Step>, k: nat)
    requires Run(states, steps) && k <= |steps|
    ensures Inv(states[k]) && Watched(states[k])
    decreases k
  {
    RunKeeps(states, steps, k);
    if k > 0 {
      RunWatched(states, steps, k - 1);
      StepWatched(states, steps, k - 1);
    }
  }

  lemma StepWatched(states: seq<State>, steps: seq<Step>, k: nat)
    requires Run(states, steps) && k < |steps| && Inv(states[k]) && Watched(states[k])
    ensures Watched(states[k + 1])
  {
    NextWatched(states[k], steps[k], states[k + 1]);
  }
}
