/** What every step of a Codex session keeps. The heart of it is ownership: each Deferred that matters
    is completed, or waiting to be claimed, or held by exactly one fiber that will complete it. */
module CodexInvariant {
  import opened Options
  import opened ConnectionState
  import opened CodexSession

  /** Completed, or taken on by some fiber. */
  ghost predicate Settling(s: State, c: Cell) {
    c in s.results || c in s.holder
  }

  /** The request a reply was issued for is still pending, and nobody has claimed it. */
  ghost predicate Unclaimed(s: State, c: Cell)
    requires c in s.requests
  {
    && s.requests[c] in s.conn.pending
    && s.conn.pending[s.requests[c]].reply == c
    && !s.conn.pending[s.requests[c]].claimed
  }

  /** A response handler between claiming this request and forgetting it. */
  predicate RespondsTo(pc: Pc, id: nat, reply: Cell) {
    match pc
    case ResponseAdopting(i, request, _, _, _) => i == id && request.reply == reply
    case ResponseSelecting(i, r, _, _, _) => i == id && r == reply
    case ResponseStarting(i, r, _, _, _) => i == id && r == reply
    case ResponseSettling(i, r, _) => i == id && r == reply
    case ResponseRemoving(i, r) => i == id && r == reply
    case _ => false
  }

  /** The holders are exactly the fibers whose program counter says so. */
  ghost predicate HolderOk(s: State) {
    forall c :: c in s.holder ==>
      c < s.cells && c !in s.results && s.holder[c] in s.fibers && c in Owns(s.fibers[s.holder[c]])
  }

  ghost predicate OwnersOk(s: State) {
    forall f, c :: f in s.fibers && c in Owns(s.fibers[f]) ==> c in s.holder && s.holder[c] == f
  }

  ghost predicate EntryOk(s: State, id: nat)
    requires id in s.conn.pending
  {
    var request := s.conn.pending[id];
    && id < s.conn.nextId && request.reply in s.requests && s.requests[request.reply] == id
    && (!request.claimed ==> !Settling(s, request.reply))
    && (request.claimed ==> s.lock.Some? && s.lock.value in s.fibers && RespondsTo(s.fibers[s.lock.value], id, request.reply))
  }

  ghost predicate PendingOk(s: State) {
    forall id :: id in s.conn.pending ==> EntryOk(s, id)
  }

  /** Every reply ever issued is completed, held, or waiting to be claimed. */
  ghost predicate RequestsOk(s: State) {
    forall c :: c in s.requests ==>
      c < s.cells && s.requests[c] < s.conn.nextId && (Settling(s, c) || Unclaimed(s, c))
  }

  ghost predicate TurnOk(s: State, t: string)
    requires t in s.conn.turns
  {
    var turn := s.conn.turns[t];
    && turn.settlement < s.cells && turn.settlement !in s.requests
    && (turn.claimed <==> Settling(s, turn.settlement) || turn.settlement in s.lost)
  }

  /** A turn is claimed exactly when its Deferred is completed, held, or lost with an aborted handler. */
  ghost predicate TurnsOk(s: State) {
    && (forall t :: t in s.conn.turns ==> TurnOk(s, t))
    && (forall t, u :: t in s.conn.turns && u in s.conn.turns && t != u ==>
          s.conn.turns[t].settlement != s.conn.turns[u].settlement)
  }

  /** What was lost was lost for good, and no reply ever is. */
  ghost predicate LostOk(s: State) {
    forall c :: c in s.lost ==> c < s.cells && !Settling(s, c) && c !in s.requests
  }

  ghost predicate ResultsOk(s: State) {
    forall c :: c in s.results ==> c < s.cells
  }

  ghost predicate LockOk(s: State) {
    && (s.lock.Some? ==> s.lock.value in s.fibers)
    && (forall f :: f in s.fibers ==> (InLock(s.fibers[f]) <==> s.lock == Some(f)))
  }

  /** After a remembered failure nothing is pending and every turn is claimed. */
  ghost predicate TerminalOk(s: State) {
    s.conn.terminalError.Some? ==>
      s.conn.pending == map[] && forall t :: t in s.conn.turns ==> s.conn.turns[t].claimed
  }

  ghost predicate Known(s: State, turnId: string, cell: Cell) {
    turnId in s.conn.turns && s.conn.turns[turnId].settlement == cell
  }

  ghost predicate Issued(s: State, id: nat, reply: Cell) {
    reply in s.requests && s.requests[reply] == id
  }

  /** The request a response handler claimed stays its own until it forgets it. */
  ghost predicate Answering(s: State, id: nat, reply: Cell) {
    id in s.conn.pending && s.conn.pending[id].claimed && s.conn.pending[id].reply == reply
  }

  /** The Deferred a notification claimed is no request's. */
  ghost predicate OfTurn(s: State, owed: Option<Owed>) {
    owed.Some? ==> owed.value.cell < s.cells && owed.value.cell !in s.requests
  }

  /** What a fiber may count on at its program counter. */
  ghost predicate PcOk(s: State, pc: Pc) {
    match pc
    case Awaiting(id, reply) => Issued(s, id, reply)
    case Expiring(id, reply) => Issued(s, id, reply)
    case FailingReply(reply) => reply in s.requests
    case AwaitingSettled(reply) => reply in s.requests && Settling(s, reply)
    case ResponseAdopting(id, request, _, _, _) => Answering(s, id, request.reply)
    case ResponseSelecting(id, reply, _, _, _) => Answering(s, id, reply)
    case ResponseStarting(id, reply, _, _, _) => Answering(s, id, reply)
    case ResponseSettling(id, reply, _) => Answering(s, id, reply)
    case ResponseRemoving(id, reply) => Answering(s, id, reply) && reply in s.results
    case ResponseBroken => false
    case NoteReading(owed, _) => OfTurn(s, owed)
    case NoteEnsuring(owed, _, _) => OfTurn(s, owed)
    case NoteStarting(owed, _, _) => OfTurn(s, owed)
    case NoteFinishing(owed) => OfTurn(s, owed)
    case TurnTiming(turnId, turn) => Known(s, turnId, turn.settlement)
    case TurnAwaiting(turnId, cell) => Known(s, turnId, cell)
    case _ => true
  }

  ghost predicate FibersOk(s: State) {
    forall f :: f in s.fibers ==> PcOk(s, s.fibers[f])
  }

  ghost predicate Inv(s: State) {
    && HolderOk(s) && OwnersOk(s) && PendingOk(s) && RequestsOk(s) && TurnsOk(s) && LostOk(s) && ResultsOk(s)
    && LockOk(s) && TerminalOk(s) && FibersOk(s)
  }

  /** What one fiber's step leaves to every other: their own places, the facts they count on, and the
      lock if it was theirs. */
  ghost predicate LeavesOthers(s: State, f: Fiber, s': State) {
    && (forall g :: g in s.fibers && g != f ==> g in s'.fibers && s'.fibers[g] == s.fibers[g])
    && (forall c :: c in s.requests ==> Issued(s', s.requests[c], c) && (Settling(s, c) ==> Settling(s', c)))
    && (forall c :: c in s'.requests ==> c in s.requests || c >= s.cells)
    && s'.cells >= s.cells
    && (forall c :: c in s.results ==> c in s'.results)
    && (forall t :: t in s.conn.turns ==> Known(s', t, s.conn.turns[t].settlement))
    && (forall id :: id in s.conn.pending && s.conn.pending[id].claimed && s.lock != Some(f) ==>
          Answering(s', id, s.conn.pending[id].reply))
  }

  lemma FibersFrom(s: State, f: Fiber, pc: Pc, s': State)
    requires FibersOk(s) && LockOk(s) && LeavesOthers(s, f, s')
    requires s'.fibers == s.fibers[f := pc] && PcOk(s', pc)
    ensures FibersOk(s')
  {
    forall g | g in s'.fibers ensures PcOk(s', s'.fibers[g]) {
      if g != f {
        assert PcOk(s, s.fibers[g]);
        assert InLock(s.fibers[g]) <==> s.lock == Some(g);
      }
    }
  }

  /** The lock stays, or is this fiber's to take or give up. */
  ghost predicate LockMoves(s: State, f: Fiber, pc: Pc, s': State) {
    (InLock(pc) <==> s'.lock == Some(f)) && (s'.lock == s.lock || {s'.lock, s.lock} == {None, Some(f)})
  }

  lemma LockFrom(s: State, f: Fiber, pc: Pc, s': State)
    requires LockOk(s) && s'.fibers == s.fibers[f := pc] && LockMoves(s, f, pc, s')
    ensures LockOk(s')
  {
    forall g | g in s'.fibers ensures InLock(s'.fibers[g]) <==> s'.lock == Some(g) {
      if g != f && s'.lock != s.lock {
        assert s'.lock in {None, Some(f)} && s.lock in {None, Some(f)};
      }
    }
  }

  /** This fiber's holdings become exactly what its new place owns; nobody else's change. */
  ghost predicate HoldingMoves(s: State, f: Fiber, pc: Pc, s': State) {
    && s'.cells >= s.cells
    && (forall c :: c in s'.holder <==> c in Owns(pc) || (c in s.holder && s.holder[c] != f))
    && (forall c :: c in s'.holder ==> s'.holder[c] == if c in Owns(pc) then f else s.holder[c])
    && (forall c :: c in Owns(pc) ==> c < s'.cells && c !in s'.results && (c in s.holder ==> s.holder[c] == f))
    && (forall c :: c in s'.results && c !in s.results ==> c in s.holder && s.holder[c] == f)
  }

  lemma SameHolding(s: State, f: Fiber, pc: Pc, s': State)
    requires HolderOk(s) && OwnersOk(s) && f in s.fibers && Owns(pc) == Owns(s.fibers[f])
    requires s'.holder == s.holder && s'.results == s.results && s'.cells >= s.cells
    ensures HoldingMoves(s, f, pc, s')
  {}

  lemma HolderFrom(s: State, f: Fiber, pc: Pc, s': State)
    requires HolderOk(s) && OwnersOk(s) && s'.fibers == s.fibers[f := pc] && HoldingMoves(s, f, pc, s')
    ensures HolderOk(s') && OwnersOk(s')
  {}

  /** Taking on a Deferred that is free. */
  lemma TakesOn(s: State, f: Fiber, c: Cell, pc: Pc, s': State)
    requires HolderOk(s) && OwnersOk(s) && f in s.fibers && Owns(s.fibers[f]) == {} && Owns(pc) == {c}
    requires !Settling(s, c) && c < s.cells
    requires s'.holder == s.holder[c := f] && s'.results == s.results && s'.cells >= s.cells
    ensures HoldingMoves(s, f, pc, s')
  {}

  /** Giving up whatever is held. */
  lemma GivesUp(s: State, f: Fiber, pc: Pc, s': State)
    requires HolderOk(s) && OwnersOk(s) && f in s.fibers && Owns(pc) == {}
    requires s'.holder == s.holder - Owns(s.fibers[f]) && s'.results == s.results && s'.cells >= s.cells
    ensures HoldingMoves(s, f, pc, s')
  {}

  /** The requests are as they were, and none of their replies was claimed or let go. */
  ghost predicate SamePending(s: State, s': State) {
    && s'.conn.pending == s.conn.pending && s'.conn.nextId == s.conn.nextId && s'.requests == s.requests
    && s'.cells >= s.cells
    && (forall c :: c in s.requests ==> (Settling(s', c) <==> Settling(s, c)))
  }

  lemma RequestsFrom(s: State, s': State)
    requires RequestsOk(s) && SamePending(s, s')
    ensures RequestsOk(s')
  {}

  /** Whatever request this fiber was answering, it still is. */
  ghost predicate StillResponds(s: State, f: Fiber, pc: Pc)
    requires f in s.fibers
  {
    forall id :: id in s.conn.pending && s.conn.pending[id].claimed && RespondsTo(s.fibers[f], id, s.conn.pending[id].reply) ==>
      RespondsTo(pc, id, s.conn.pending[id].reply)
  }

  lemma PendingSame(s: State, f: Fiber, pc: Pc, s': State)
    requires PendingOk(s) && LockOk(s) && SamePending(s, s') && f in s.fibers
    requires s'.fibers == s.fibers[f := pc] && LockMoves(s, f, pc, s') && StillResponds(s, f, pc)
    ensures PendingOk(s')
  {
    forall id | id in s'.conn.pending ensures EntryOk(s', id) {
      assert EntryOk(s, id);
      if s.conn.pending[id].claimed && s.lock == Some(f) {
        assert RespondsTo(pc, id, s.conn.pending[id].reply);
        assert InLock(pc);
      }
    }
  }

  ghost predicate TurnsKnown(s: State, s': State) {
    forall t :: t in s.conn.turns ==> Known(s', t, s.conn.turns[t].settlement)
  }

  lemma LeavesFrom(s: State, f: Fiber, pc: Pc, s': State)
    requires SamePending(s, s') && s'.fibers == s.fibers[f := pc] && TurnsKnown(s, s')
    requires forall c :: c in s.results ==> c in s'.results
    ensures LeavesOthers(s, f, s')
  {}

  ghost predicate SameTurns(s: State, s': State) {
    && s'.conn.turns == s.conn.turns && s'.conn.terminalError == s.conn.terminalError && s'.lost == s.lost
    && s'.cells >= s.cells && s'.requests == s.requests
    && (forall c :: Settling(s', c) <==> Settling(s, c))
    && (forall c :: c in s'.results ==> c < s'.cells)
  }

  lemma TurnsFrom(s: State, s': State)
    requires SameTurns(s, s') && s'.conn.pending == s.conn.pending
    requires TurnsOk(s) && LostOk(s) && TerminalOk(s)
    ensures TurnsOk(s') && LostOk(s') && ResultsOk(s') && TerminalOk(s')
  {
    forall t | t in s'.conn.turns ensures TurnOk(s', t) { assert TurnOk(s, t); }
  }

  /** A fiber moves on, and perhaps takes or releases the lock, or completes what it held, while the
      requests and turns stay as they are. */
  lemma MoveKeeps(s: State, f: Fiber, pc: Pc, s': State)
    requires Inv(s) && f in s.fibers && s'.fibers == s.fibers[f := pc]
    requires SamePending(s, s') && SameTurns(s, s') && (forall c :: c in s.results ==> c in s'.results)
    requires HoldingMoves(s, f, pc, s') && LockMoves(s, f, pc, s') && StillResponds(s, f, pc) && PcOk(s', pc)
    ensures Inv(s')
  {
    RequestsFrom(s, s');
    TurnsFrom(s, s');
    LockFrom(s, f, pc, s');
    PendingSame(s, f, pc, s');
    HolderFrom(s, f, pc, s');
    LeavesFrom(s, f, pc, s');
    FibersFrom(s, f, pc, s');
  }

  /** Only the program counter, and parts of the connection no ownership rests on, change. */
  lemma StepKeeps(s: State, f: Fiber, pc: Pc, s': State)
    requires Inv(s) && f in s.fibers && s'.fibers == s.fibers[f := pc]
    requires s'.conn.pending == s.conn.pending && s'.conn.turns == s.conn.turns && s'.conn.nextId == s.conn.nextId
    requires s'.conn.terminalError == s.conn.terminalError && s'.results == s.results && s'.holder == s.holder
    requires s'.requests == s.requests && s'.lost == s.lost && s'.cells >= s.cells
    requires Owns(pc) == Owns(s.fibers[f]) && LockMoves(s, f, pc, s') && StillResponds(s, f, pc) && PcOk(s', pc)
    ensures Inv(s')
  {
    assert SamePending(s, s') && SameTurns(s, s');
    SameHolding(s, f, pc, s');
    MoveKeeps(s, f, pc, s');
  }

  /** A Deferred a fiber holds is not completed, so completing it is what decides it. */
  lemma HeldIsOpen(s: State, f: Fiber, c: Cell, r: Result, pc: Pc, s': State)
    requires HolderOk(s) && OwnersOk(s) && f in s.fibers && c in Owns(s.fibers[f]) && s' == Complete(s, f, c, r, pc)
    requires Owns(pc) == Owns(s.fibers[f]) - {c}
    ensures c !in s.results && s'.results == s.results[c := r] && c < s.cells
    ensures HoldingMoves(s, f, pc, s')
  {
    assert c in s.holder && s.holder[c] == f;
  }

  lemma CompletingSettles(s: State, f: Fiber, c: Cell, r: Result, pc: Pc, s': State)
    requires HolderOk(s) && c in s.holder && s' == Complete(s, f, c, r, pc)
    ensures SamePending(s, s') && forall x :: Settling(s', x) <==> Settling(s, x)
  {}

  lemma CompleteKeeps(s: State, f: Fiber, c: Cell, r: Result, pc: Pc, s': State)
    requires Inv(s) && f in s.fibers && c in Owns(s.fibers[f]) && s' == Complete(s, f, c, r, pc)
    requires Owns(pc) == Owns(s.fibers[f]) - {c} && LockMoves(s, f, pc, s') && StillResponds(s, f, pc) && PcOk(s', pc)
    ensures Inv(s')
  {
    HeldIsOpen(s, f, c, r, pc, s');
    CompletingSettles(s, f, c, r, pc, s');
    MoveKeeps(s, f, pc, s');
  }

  /** A fresh candidate installed as a turn: unclaimed, and nobody's yet. */
  lemma TurnAdded(s: State, turnId: string, s': State)
    requires HolderOk(s) && ResultsOk(s) && TurnsOk(s) && LostOk(s) && RequestsOk(s) && TerminalOk(s)
    requires turnId !in s.conn.turns && s.conn.terminalError.None? && s'.conn.terminalError.None?
    requires s'.conn.turns == s.conn.turns[turnId := Candidate(s)] && s'.cells == s.cells + 1
    requires s'.results == s.results && s'.holder == s.holder && s'.lost == s.lost && s'.requests == s.requests
    ensures TurnsOk(s') && LostOk(s') && ResultsOk(s') && TerminalOk(s')
  {
    forall t | t in s'.conn.turns ensures TurnOk(s', t) {
      if t != turnId { assert TurnOk(s, t); }
    }
    forall t | t in s.conn.turns ensures s.conn.turns[t].settlement < s.cells { assert TurnOk(s, t); }
  }

  /** Finding or installing a turn. */
  lemma SelectKeeps(s: State, f: Fiber, turnId: string, pc: Pc, s': State)
    requires Inv(s) && f in s.fibers && s' == Select(s, f, turnId, pc)
    requires Owns(pc) == Owns(s.fibers[f]) && LockMoves(s, f, pc, s') && StillResponds(s, f, pc) && PcOk(s', pc)
    ensures Inv(s')
  {
    if turnId in s.conn.turns || s.conn.terminalError.Some? {
      StepKeeps(s, f, pc, s');
    } else {
      TurnAdded(s, turnId, s');
      SameHolding(s, f, pc, s');
      assert SamePending(s, s') && TurnsKnown(s, s');
      KeepsWithTurns(s, f, pc, s');
    }
  }

  /** The turns may have changed, to others that are all right; the requests have not. */
  lemma KeepsWithTurns(s: State, f: Fiber, pc: Pc, s': State)
    requires Inv(s) && f in s.fibers && s'.fibers == s.fibers[f := pc]
    requires TurnsOk(s') && LostOk(s') && ResultsOk(s') && TerminalOk(s')
    requires SamePending(s, s') && TurnsKnown(s, s') && s'.results == s.results
    requires HoldingMoves(s, f, pc, s') && LockMoves(s, f, pc, s') && StillResponds(s, f, pc) && PcOk(s', pc)
    ensures Inv(s')
  {
    RequestsFrom(s, s');
    LockFrom(s, f, pc, s');
    PendingSame(s, f, pc, s');
    HolderFrom(s, f, pc, s');
    LeavesFrom(s, f, pc, s');
    FibersFrom(s, f, pc, s');
  }

  /** One turn's record replaced by a copy with the same Deferred, claimed only with a holder. */
  lemma TurnReplaced(s: State, turnId: string, turn: TurnState, s': State)
    requires TurnsOk(s) && LostOk(s) && ResultsOk(s) && TerminalOk(s) && s'.cells == s.cells
    requires turnId in s.conn.turns && turn.settlement == s.conn.turns[turnId].settlement
    requires s'.conn.turns == s.conn.turns[turnId := turn] && s'.conn.terminalError == s.conn.terminalError
    requires s'.conn.pending == s.conn.pending
    requires s'.results == s.results && s'.lost == s.lost && s'.requests == s.requests
    requires s'.holder == s.holder || (turn.claimed && turn.settlement !in s.lost && s'.holder.Keys == s.holder.Keys + {turn.settlement})
    requires s'.holder == s.holder ==> turn.claimed == s.conn.turns[turnId].claimed
    requires s.conn.turns[turnId].claimed ==> turn.claimed
    ensures TurnsOk(s') && LostOk(s') && ResultsOk(s') && TerminalOk(s')
  {
    forall t | t in s'.conn.turns ensures TurnOk(s', t) { assert TurnOk(s, t); }
  }

  /** Winning a turn's claim takes on completing it, and nobody else had. */
  lemma ClaimKeeps(s: State, f: Fiber, turnId: string, turn: TurnState, pc: Pc, s': State)
    requires Inv(s) && f in s.fibers && ClaimTurn(s.conn, turnId, turn).0 && s' == Claim(s, f, turnId, turn, pc)
    requires Owns(s.fibers[f]) == {} && Owns(pc) == {turn.settlement}
    requires LockMoves(s, f, pc, s') && StillResponds(s, f, pc) && PcOk(s', pc)
    ensures Inv(s')
  {
    ClaimedWasFree(s, f, turnId, turn, pc, s');
    TurnReplaced(s, turnId, Claimed(s.conn.turns[turnId]), s');
    KeepsWithTurns(s, f, pc, s');
  }

  lemma ClaimedWasFree(s: State, f: Fiber, turnId: string, turn: TurnState, pc: Pc, s': State)
    requires HolderOk(s) && OwnersOk(s) && TurnsOk(s)
    requires f in s.fibers && ClaimTurn(s.conn, turnId, turn).0 && s' == Claim(s, f, turnId, turn, pc)
    requires Owns(s.fibers[f]) == {} && Owns(pc) == {turn.settlement}
    ensures turn.settlement < s.cells && turn.settlement !in s.requests && turn.settlement !in s.lost
    ensures HoldingMoves(s, f, pc, s') && SamePending(s, s') && TurnsKnown(s, s')
  {
    assert TurnOk(s, turnId);
    TakesOn(s, f, turn.settlement, pc, s');
    assert SamePending(s, s');
    assert TurnsKnown(s, s');
  }

  lemma TimerKeeps(s: State, f: Fiber, turnId: string, turn: TurnState, pc: Pc, s': State)
    requires Inv(s) && f in s.fibers && turnId in s.conn.turns
    requires turn.settlement == s.conn.turns[turnId].settlement && turn.claimed == s.conn.turns[turnId].claimed
    requires s' == Move(s.(conn := s.conn.(turns := s.conn.turns[turnId := turn])), f, pc)
    requires Owns(pc) == Owns(s.fibers[f]) && LockMoves(s, f, pc, s') && StillResponds(s, f, pc) && PcOk(s', pc)
    ensures Inv(s')
  {
    TurnReplaced(s, turnId, turn, s');
    SameHolding(s, f, pc, s');
    KeepsWithTurns(s, f, pc, s');
  }

  lemma AbortKeeps(s: State, f: Fiber, owed: Option<Owed>, s': State)
    requires Inv(s) && f in s.fibers && OfTurn(s, owed) && Owns(s.fibers[f]) == OwedCells(owed) && !InLock(s.fibers[f])
    requires s'.fibers == s.fibers[f := NoteAborted(owed)] && s'.cells >= s.cells && s'.conn == s.conn && s'.lock == s.lock
    requires s'.results == s.results && s'.requests == s.requests
    requires s'.holder == s.holder - OwedCells(owed) && s'.lost == s.lost + OwedCells(owed)
    ensures Inv(s')
  {
    AbortTurns(s, f, owed, s');
    assert SamePending(s, s') && TurnsKnown(s, s');
    GivesUp(s, f, NoteAborted(owed), s');
    KeepsWithTurns(s, f, NoteAborted(owed), s');
  }

  lemma AbortTurns(s: State, f: Fiber, owed: Option<Owed>, s': State)
    requires HolderOk(s) && OwnersOk(s) && TurnsOk(s) && LostOk(s) && ResultsOk(s) && TerminalOk(s)
    requires f in s.fibers && OfTurn(s, owed) && Owns(s.fibers[f]) == OwedCells(owed)
    requires s'.cells >= s.cells && s'.conn == s.conn && s'.results == s.results && s'.requests == s.requests
    requires s'.holder == s.holder - OwedCells(owed) && s'.lost == s.lost + OwedCells(owed)
    ensures TurnsOk(s') && LostOk(s') && ResultsOk(s') && TerminalOk(s')
  {
    forall t | t in s'.conn.turns ensures TurnOk(s', t) { assert TurnOk(s, t); }
  }

  /** A new fiber, holding nothing and outside the lock. */
  lemma SpawnKeeps(s: State, f: Fiber, pc: Pc, s': State)
    requires Inv(s) && f !in s.fibers && s' == Move(s, f, pc)
    requires Owns(pc) == {} && !InLock(pc) && PcOk(s', pc)
    ensures Inv(s')
  {
    SpawnHolds(s, f, pc, s');
    SpawnPending(s, f, pc, s');
    SpawnLeaves(s, f, pc, s');
    FibersFrom(s, f, pc, s');
    TurnsFrom(s, s');
    RequestsFrom(s, s');
  }

  lemma SpawnLeaves(s: State, f: Fiber, pc: Pc, s': State)
    requires f !in s.fibers && s' == Move(s, f, pc)
    ensures LeavesOthers(s, f, s')
  {}

  lemma SpawnHolds(s: State, f: Fiber, pc: Pc, s': State)
    requires HolderOk(s) && OwnersOk(s) && LockOk(s) && ResultsOk(s) && f !in s.fibers && s' == Move(s, f, pc)
    requires Owns(pc) == {} && !InLock(pc)
    ensures HolderOk(s') && OwnersOk(s') && LockOk(s') && SameTurns(s, s') && SamePending(s, s')
  {}

  lemma SpawnPending(s: State, f: Fiber, pc: Pc, s': State)
    requires PendingOk(s) && LockOk(s) && f !in s.fibers && s' == Move(s, f, pc)
    ensures PendingOk(s')
  {
    forall id | id in s'.conn.pending ensures EntryOk(s', id) { assert EntryOk(s, id); }
  }

  /** What changes hands when requests come and go, given how the requests and the lock come out. */
  lemma KeepsWithRequests(s: State, f: Fiber, pc: Pc, s': State)
    requires Inv(s) && f in s.fibers && s'.fibers == s.fibers[f := pc]
    requires PendingOk(s') && RequestsOk(s') && TurnsOk(s') && LostOk(s') && ResultsOk(s') && TerminalOk(s')
    requires HoldingMoves(s, f, pc, s') && LockMoves(s, f, pc, s') && LeavesOthers(s, f, s') && PcOk(s', pc)
    ensures Inv(s')
  {
    LockFrom(s, f, pc, s');
    HolderFrom(s, f, pc, s');
    FibersFrom(s, f, pc, s');
  }

  /** The turns are as they were, and so is who settles them. */
  lemma TurnsApart(s: State, s': State)
    requires TurnsOk(s) && LostOk(s) && TerminalOk(s) && ResultsOk(s)
    requires s'.conn.turns == s.conn.turns && s'.conn.terminalError == s.conn.terminalError && s'.lost == s.lost
    requires s'.cells >= s.cells && s'.results == s.results
    requires forall c :: c in s'.requests ==> c in s.requests || c >= s.cells
    requires forall c :: c in s.requests ==> c in s'.requests
    requires forall c :: Settling(s', c) && !Settling(s, c) ==> c in s.requests
    requires forall c :: Settling(s, c) ==> Settling(s', c)
    requires s'.conn.terminalError.Some? ==> s'.conn.pending == map[]
    ensures TurnsOk(s') && LostOk(s') && ResultsOk(s') && TerminalOk(s')
  {
    forall t | t in s'.conn.turns ensures TurnOk(s', t) { assert TurnOk(s, t); }
  }

  /** Enough for a step to leave every other fiber what it counts on, when the turns stay. */
  lemma LeavesWhenFree(s: State, f: Fiber, s': State)
    requires PendingOk(s) && f in s.fibers && s'.fibers.Keys == s.fibers.Keys
    requires forall g :: g in s.fibers && g != f ==> s'.fibers[g] == s.fibers[g]
    requires s'.cells >= s.cells && s'.results == s.results && s.holder.Keys <= s'.holder.Keys && TurnsKnown(s, s')
    requires forall c :: c in s.requests ==> Issued(s', s.requests[c], c)
    requires forall c :: c in s'.requests ==> c in s.requests || c >= s.cells
    requires s.lock == Some(f) || forall id :: id in s.conn.pending && s.conn.pending[id].claimed ==>
                id in s'.conn.pending && s'.conn.pending[id] == s.conn.pending[id]
    ensures LeavesOthers(s, f, s')
  {}

  /** A request is registered under a fresh id with a fresh reply, waiting to be claimed. */
  lemma RegisterKeeps(s: State, f: Fiber, call: string, turnCount: Option<nat>, s': State)
    requires Inv(s) && f in s.fibers && s.fibers[f].Registering? && s.conn.terminalError.None?
    requires var id := s.conn.nextId;
             s' == Move(s.(conn := RegisterRequest(s.conn, call, turnCount, s.cells).1, cells := s.cells + 1,
                           requests := s.requests[s.cells := id]), f, Awaiting(id, s.cells))
    ensures Inv(s')
  {
    assert !InLock(s.fibers[f]) && s.lock != Some(f);
    RegisteredPending(s, f, PendingRequest(call, turnCount, s.cells, false), s');
    TurnsApart(s, s');
    SameHolding(s, f, s'.fibers[f], s');
    KeepsWithRequests(s, f, s'.fibers[f], s');
  }

  lemma RegisteredPending(s: State, f: Fiber, entry: PendingRequest, s': State)
    requires PendingOk(s) && ResultsOk(s) && HolderOk(s) && f in s.fibers && s.lock != Some(f)
    requires s'.fibers == s.fibers[f := Awaiting(s.conn.nextId, s.cells)] && s'.lock == s.lock
    requires s'.results == s.results && s'.holder == s.holder && s'.requests == s.requests[s.cells := s.conn.nextId]
    requires s'.conn.nextId == s.conn.nextId + 1 && RequestsOk(s) && s'.cells == s.cells + 1 && s'.conn.turns == s.conn.turns
    requires s'.conn.pending == s.conn.pending[s.conn.nextId := entry] && entry.reply == s.cells && !entry.claimed
    ensures PendingOk(s') && RequestsOk(s') && LeavesOthers(s, f, s')
  {
    forall id | id in s.conn.pending ensures id < s.conn.nextId && EntryOk(s', id) {
      assert EntryOk(s, id);
    }
    RegisteredRequests(s, s');
    LeavesWhenFree(s, f, s');
  }

  lemma RegisteredRequests(s: State, s': State)
    requires RequestsOk(s) && s'.results == s.results && s'.holder == s.holder && s'.cells == s.cells + 1
    requires s'.requests == s.requests[s.cells := s.conn.nextId] && s'.conn.nextId == s.conn.nextId + 1
    requires s'.conn.pending.Keys == s.conn.pending.Keys + {s.conn.nextId}
    requires forall id :: id in s.conn.pending && id != s.conn.nextId ==> s'.conn.pending[id] == s.conn.pending[id]
    requires var entry := s'.conn.pending[s.conn.nextId]; entry.reply == s.cells && !entry.claimed
    ensures RequestsOk(s')
  {
    forall c | c in s.requests ensures Settling(s', c) || Unclaimed(s', c) {
      assert Settling(s, c) || Unclaimed(s, c);
    }
  }

  /** An unclaimed request is dropped, and its requester takes on failing its reply. */
  lemma ExpireKeeps(s: State, f: Fiber, id: nat, reply: Cell, s': State)
    requires Inv(s) && f in s.fibers && s.fibers[f] == Expiring(id, reply) && ExpirePending(s.conn, id, reply).0
    requires s' == Move(s.(conn := ExpirePending(s.conn, id, reply).1, holder := s.holder[reply := f]), f, FailingReply(reply))
    ensures Inv(s')
  {
    ExpiredPending(s, f, id, reply, s');
    TurnsApart(s, s');
    assert LockMoves(s, f, s'.fibers[f], s') by { assert InLock(s.fibers[f]) <==> s.lock == Some(f); }
    KeepsWithRequests(s, f, s'.fibers[f], s');
  }

  lemma ExpiredPending(s: State, f: Fiber, id: nat, reply: Cell, s': State)
    requires PendingOk(s) && RequestsOk(s) && HolderOk(s) && OwnersOk(s) && LockOk(s)
    requires f in s.fibers && s.fibers[f] == Expiring(id, reply) && ExpirePending(s.conn, id, reply).0
    requires s' == Move(s.(conn := ExpirePending(s.conn, id, reply).1, holder := s.holder[reply := f]), f, FailingReply(reply))
    ensures PendingOk(s') && RequestsOk(s') && LeavesOthers(s, f, s') && HoldingMoves(s, f, s'.fibers[f], s')
  {
    assert !InLock(s.fibers[f]) && s.lock != Some(f);
    assert EntryOk(s, id);
    forall i | i in s'.conn.pending ensures EntryOk(s', i) { assert EntryOk(s, i); }
    TakesOn(s, f, reply, s'.fibers[f], s');
    LeavesWhenFree(s, f, s');
    DroppedRequests(s, id, s');
  }

  /** Claiming or dropping a request leaves its reply taken on or completed. */
  lemma DroppedRequests(s: State, id: nat, s': State)
    requires RequestsOk(s) && id in s.conn.pending
    requires forall i :: i in s.conn.pending && i != id ==> i in s'.conn.pending && s'.conn.pending[i] == s.conn.pending[i]
    requires s'.requests == s.requests && s'.conn.nextId == s.conn.nextId && s'.cells == s.cells
    requires s'.results == s.results && s.holder.Keys <= s'.holder.Keys && Settling(s', s.conn.pending[id].reply)
    ensures RequestsOk(s')
  {
    forall c | c in s'.requests ensures Settling(s', c) || Unclaimed(s', c) {
      assert Settling(s, c) || Unclaimed(s, c);
    }
  }

  /** A response claims its request, and its handler takes on the reply. */
  lemma ClaimResponseKeeps(s: State, f: Fiber, id: nat, pc: Pc, s': State)
    requires Inv(s) && f in s.fibers && s.fibers[f].ResponseClaiming? && ClaimResponse(s.conn, id).0.Some?
    requires var reply := s.conn.pending[id].reply;
             && s' == Move(s.(conn := ClaimResponse(s.conn, id).1, holder := s.holder[reply := f]), f, pc)
             && Owns(pc) == {reply} && InLock(pc) && RespondsTo(pc, id, reply) && PcOk(s', pc)
    ensures Inv(s')
  {
    ClaimedPending(s, f, id, pc, s');
    TurnsApart(s, s');
    assert LockMoves(s, f, pc, s') by { assert InLock(s.fibers[f]) <==> s.lock == Some(f); }
    KeepsWithRequests(s, f, pc, s');
  }

  lemma ClaimedPending(s: State, f: Fiber, id: nat, pc: Pc, s': State)
    requires PendingOk(s) && RequestsOk(s) && HolderOk(s) && OwnersOk(s) && LockOk(s)
    requires f in s.fibers && s.fibers[f].ResponseClaiming? && ClaimResponse(s.conn, id).0.Some?
    requires var reply := s.conn.pending[id].reply;
             && s' == Move(s.(conn := ClaimResponse(s.conn, id).1, holder := s.holder[reply := f]), f, pc)
             && Owns(pc) == {reply} && InLock(pc) && RespondsTo(pc, id, reply)
    ensures PendingOk(s') && RequestsOk(s') && LeavesOthers(s, f, s') && HoldingMoves(s, f, pc, s')
    ensures s.conn.pending[id].reply in s.requests
  {
    assert InLock(s.fibers[f]) && s.lock == Some(f);
    assert EntryOk(s, id);
    forall i | i in s'.conn.pending ensures EntryOk(s', i) { assert EntryOk(s, i); }
    TakesOn(s, f, s.conn.pending[id].reply, pc, s');
    LeavesWhenFree(s, f, s');
    DroppedRequests(s, id, s');
  }

  /** A settled request is forgotten. */
  lemma RemoveKeeps(s: State, f: Fiber, id: nat, reply: Cell, s': State)
    requires Inv(s) && f in s.fibers && s.fibers[f] == ResponseRemoving(id, reply)
    requires s' == Move(s.(conn := RemovePending(s.conn, id, reply)), f, ResponseReleasing)
    ensures Inv(s')
  {
    assert PcOk(s, s.fibers[f]);
    RemovedPending(s, f, id, reply, s');
    TurnsApart(s, s');
    SameHolding(s, f, ResponseReleasing, s');
    assert LockMoves(s, f, ResponseReleasing, s') by { assert InLock(s.fibers[f]) <==> s.lock == Some(f); }
    KeepsWithRequests(s, f, ResponseReleasing, s');
  }

  lemma RemovedPending(s: State, f: Fiber, id: nat, reply: Cell, s': State)
    requires PendingOk(s) && RequestsOk(s) && LockOk(s)
    requires f in s.fibers && s.fibers[f] == ResponseRemoving(id, reply) && Answering(s, id, reply) && reply in s.results
    requires s' == Move(s.(conn := RemovePending(s.conn, id, reply)), f, ResponseReleasing)
    ensures PendingOk(s') && RequestsOk(s') && LeavesOthers(s, f, s')
  {
    assert InLock(s.fibers[f]) && s.lock == Some(f);
    forall i | i in s'.conn.pending ensures EntryOk(s', i) { assert EntryOk(s, i); }
    DroppedRequests(s, id, s');
  }

  /** What session failure takes on: every pending reply, and every turn it is the one to claim. */
  function LeftBy(s: State): set<Cell> {
    Replies(s.conn.pending) + Settlements(NewlyClaimed(s.conn, Candidate(s).(claimed := true)))
  }

  /** Nobody else has taken on or settled what session failure claims. */
  lemma LeftIsFree(s: State, f: Fiber)
    requires PendingOk(s) && TurnsOk(s) && LostOk(s) && ResultsOk(s) && HolderOk(s) && RequestsOk(s)
    requires f in s.fibers && s.fibers[f].FailClaiming? && s.lock == Some(f)
    ensures AllFree(s, LeftBy(s))
  {
    forall c | c in LeftBy(s) ensures c <= s.cells && !Settling(s, c) && c !in s.lost {
      if c in Replies(s.conn.pending) {
        var id :| id in s.conn.pending && s.conn.pending[id].reply == c;
        assert EntryOk(s, id);
      } else {
        var turns := NewlyClaimed(s.conn, Candidate(s).(claimed := true));
        var t :| t in turns && turns[t].settlement == c;
        if t in s.conn.turns { assert TurnOk(s, t); }
      }
    }
  }

  /** Under its own lock, nothing is claimed that session failure does not then settle. */
  lemma FailAllKeeps(s: State, f: Fiber, error: AgentError, remember: bool, s': State)
    requires Inv(s) && f in s.fibers && s.fibers[f].FailClaiming? && s' == FailAll(s, f, error, remember)
    ensures Inv(s')
  {
    assert InLock(s.fibers[f]) && s.lock == Some(f);
    LeftIsFree(s, f);
    FailAllShape(s, f, error, remember, s');
    FailedTurns(s, error, remember, s');
    FailedKeeps(s, f, error, LeftBy(s), s');
  }

  lemma FailedKeeps(s: State, f: Fiber, error: AgentError, left: set<Cell>, s': State)
    requires Inv(s) && f in s.fibers && s.fibers[f].FailClaiming? && s.lock == Some(f) && s'.lock == s.lock
    requires AllFree(s, left) && Replies(s.conn.pending) <= left && TurnsKnown(s, s')
    requires s'.fibers == s.fibers[f := FailSettling(error, left)] && s'.cells == s.cells + 1
    requires s'.results == s.results && s'.requests == s.requests && s'.holder == s.holder + (map c | c in left :: f)
    requires s'.conn.pending == map[] && s'.conn.nextId == s.conn.nextId
    requires TurnsOk(s') && LostOk(s') && ResultsOk(s') && TerminalOk(s')
    ensures Inv(s')
  {
    FailedRequests(s, f, left, FailSettling(error, left), s');
    KeepsWithRequests(s, f, FailSettling(error, left), s');
  }

  lemma FailAllShape(s: State, f: Fiber, error: AgentError, remember: bool, s': State)
    requires s' == FailAll(s, f, error, remember)
    ensures s'.fibers == s.fibers[f := FailSettling(error, LeftBy(s))] && s'.cells == s.cells + 1 && s'.lock == s.lock
    ensures s'.results == s.results && s'.requests == s.requests && s'.holder == s.holder + (map c | c in LeftBy(s) :: f)
    ensures s'.conn.pending == map[] && s'.conn.nextId == s.conn.nextId && s'.lost == s.lost
    ensures TurnsKnown(s, s') && Replies(s.conn.pending) <= LeftBy(s)
    ensures forall c :: c in s'.holder <==> c in s.holder || c in LeftBy(s)
  {}

  ghost predicate AllFree(s: State, cells: set<Cell>) {
    forall c :: c in cells ==> c <= s.cells && !Settling(s, c) && c !in s.lost
  }

  lemma FailedRequests(s: State, f: Fiber, left: set<Cell>, pc: Pc, s': State)
    requires PendingOk(s) && RequestsOk(s) && HolderOk(s) && OwnersOk(s) && AllFree(s, left) && Replies(s.conn.pending) <= left
    requires f in s.fibers && s.fibers[f].FailClaiming? && s.lock == Some(f) && TurnsKnown(s, s')
    requires s'.fibers == s.fibers[f := pc] && Owns(pc) == left && s'.cells == s.cells + 1
    requires s'.results == s.results && s'.requests == s.requests && s'.holder == s.holder + (map c | c in left :: f)
    requires s'.conn.pending == map[] && s'.conn.nextId == s.conn.nextId
    ensures PendingOk(s') && RequestsOk(s') && LeavesOthers(s, f, s') && HoldingMoves(s, f, pc, s')
  {
    FailedHolding(s, f, left, pc, s');
    LeavesWhenFree(s, f, s');
    DroppedAll(s, s');
  }

  /** Dropping every request leaves every reply taken on or completed. */
  lemma DroppedAll(s: State, s': State)
    requires RequestsOk(s) && s'.conn.pending == map[] && s'.requests == s.requests && s'.conn.nextId == s.conn.nextId
    requires s'.cells >= s.cells && s'.results == s.results && (forall c :: c in s.holder || c in Replies(s.conn.pending) ==> c in s'.holder)
    ensures PendingOk(s') && RequestsOk(s')
  {
    forall c | c in s.requests ensures Settling(s', c) {
      if !Settling(s, c) {
        assert Unclaimed(s, c);
        assert c in Replies(s.conn.pending);
      }
    }
  }

  lemma FailedHolding(s: State, f: Fiber, left: set<Cell>, pc: Pc, s': State)
    requires HolderOk(s) && OwnersOk(s) && AllFree(s, left) && f in s.fibers && Owns(s.fibers[f]) == {} && Owns(pc) == left
    requires s'.cells == s.cells + 1 && s'.results == s.results && s'.holder == s.holder + (map c | c in left :: f)
    ensures HoldingMoves(s, f, pc, s')
  {}

  lemma FailedTurns(s: State, error: AgentError, remember: bool, s': State)
    requires TurnsOk(s) && LostOk(s) && ResultsOk(s) && RequestsOk(s) && AllFree(s, LeftBy(s))
    requires s'.cells == s.cells + 1 && s'.results == s.results && s'.lost == s.lost && s'.requests == s.requests
    requires s'.conn == ClaimOutstanding(s.conn, error, remember, Candidate(s).(claimed := true)).1
    requires forall c :: c in s'.holder <==> c in s.holder || c in LeftBy(s)
    ensures TurnsOk(s') && LostOk(s') && ResultsOk(s') && TerminalOk(s')
  {
    forall t | t in s'.conn.turns ensures TurnOk(s', t) { FailedTurn(s, error, remember, s', t); }
    forall t | t in s.conn.turns ensures s.conn.turns[t].settlement < s.cells { assert TurnOk(s, t); }
  }

  /** A turn is left claimed, by this failure or by whoever had claimed it before. */
  lemma FailedTurn(s: State, error: AgentError, remember: bool, s': State, t: string)
    requires (forall u :: u in s.conn.turns ==> TurnOk(s, u)) && RequestsOk(s)
    requires s'.cells == s.cells + 1 && s'.results == s.results && s'.lost == s.lost && s'.requests == s.requests
    requires s'.conn == ClaimOutstanding(s.conn, error, remember, Candidate(s).(claimed := true)).1
    requires forall c :: c in s'.holder <==> c in s.holder || c in LeftBy(s)
    requires t in s'.conn.turns
    ensures TurnOk(s', t)
  {
    var turns := NewlyClaimed(s.conn, Candidate(s).(claimed := true));
    if t in s.conn.turns { assert TurnOk(s, t); }
    if t in turns { assert turns[t].settlement in Settlements(turns); }
  }
}
