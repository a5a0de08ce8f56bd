/** Everything one App Server connection remembers about its requests and turns, and every atomic
    transition of it: first as functions of the state, then as the cell they update in place. */
module ConnectionState {
  import opened Options

  /** The identity of a Deferred. A turn's settlement also names its activity queue, which is always
      allocated with it. */
  type Cell = nat

  datatype AgentError = AgentError(category: string, message: string)

  datatype PendingRequest = PendingRequest(call: string, turnCount: Option<nat>, reply: Cell, claimed: bool)

  /** `copies` counts the times the record was replaced by a changed copy, which is what comparing
      records by identity can see. */
  datatype TurnState = TurnState(settlement: Cell, timerStarted: bool, claimed: bool, copies: nat)

  datatype TurnSelection = Turn(turn: TurnState) | SelectionError(error: AgentError)

  datatype RequestRegistration = Registered(id: nat) | RegistrationError(error: AgentError)

  /** What a session-terminal failure has left to settle. */
  datatype Outstanding = Outstanding(pending: map<nat, PendingRequest>, turns: map<string, TurnState>)

  datatype Connection = Connection(
    pending: map<nat, PendingRequest>,
    turns: map<string, TurnState>,
    startedTurns: set<string>,
    turnCounts: map<string, nat>,
    nextId: nat,
    closed: bool,
    terminalError: Option<AgentError>,
    threadId: Option<string>,
    turnId: Option<string>,
    turnCount: nat)

  const INITIAL := Connection(map[], map[], {}, map[], 1, false, None, None, None, 0)

  const TURN_START := "turn/start"

  /** An existing turn wins over the session's error, and the error over the candidate. */
  function SelectTurn(c: Connection, turnId: string, candidate: TurnState): (TurnSelection, Connection) {
    if turnId in c.turns then (Turn(c.turns[turnId]), c)
    else if c.terminalError.Some? then (SelectionError(c.terminalError.value), c)
    else (Turn(candidate), c.(turns := c.turns[turnId := candidate]))
  }

  function Claimed(turn: TurnState): TurnState {
    turn.(claimed := true, copies := turn.copies + 1)
  }

  function ClaimTurn(c: Connection, turnId: string, turn: TurnState): (bool, Connection) {
    if turnId !in c.turns || c.turns[turnId].settlement != turn.settlement || c.turns[turnId].claimed then (false, c)
    else (true, c.(turns := c.turns[turnId := Claimed(c.turns[turnId])]))
  }

  function WithTimer(turn: TurnState, started: bool): TurnState {
    turn.(timerStarted := started, copies := turn.copies + 1)
  }

  function BeginTurnTimer(c: Connection, turnId: string, turn: TurnState): (bool, Connection) {
    if turnId !in c.turns || c.turns[turnId] != turn || turn.timerStarted || turn.claimed then (false, c)
    else (true, c.(turns := c.turns[turnId := WithTimer(turn, true)]))
  }

  function ReleaseTurnTimer(c: Connection, turnId: string, turn: TurnState): Connection {
    if turnId !in c.turns || c.turns[turnId].settlement != turn.settlement || !c.turns[turnId].timerStarted then c
    else c.(turns := c.turns[turnId := WithTimer(c.turns[turnId], false)])
  }

  function RegisterRequest(c: Connection, call: string, turnCount: Option<nat>, reply: Cell):
    (RequestRegistration, Connection)
  {
    if c.terminalError.Some? then (RegistrationError(c.terminalError.value), c)
    else
      (Registered(c.nextId),
       c.(nextId := c.nextId + 1, pending := c.pending[c.nextId := PendingRequest(call, turnCount, reply, false)]))
  }

  function ClaimResponse(c: Connection, id: nat): (Option<PendingRequest>, Connection) {
    if id !in c.pending || c.pending[id].claimed then (None, c)
    else
      var claimed := c.pending[id].(claimed := true);
      (Some(claimed), c.(pending := c.pending[id := claimed]))
  }

  function ExpirePending(c: Connection, id: nat, reply: Cell): (bool, Connection) {
    if id !in c.pending || c.pending[id].reply != reply || c.pending[id].claimed then (false, c)
    else (true, c.(pending := c.pending - {id}))
  }

  function RemovePending(c: Connection, id: nat, reply: Cell): Connection {
    if id !in c.pending || c.pending[id].reply != reply then c else c.(pending := c.pending - {id})
  }

  function AdoptIdentity(c: Connection, threadId: Option<string>, turnId: Option<string>): Connection {
    c.(threadId := OrElse(threadId, c.threadId), turnId := OrElse(turnId, c.turnId))
  }

  function MarkTurnStarted(c: Connection, turnId: string, turnCount: nat): (bool, Connection) {
    if turnId in c.startedTurns then (false, c)
    else
      (true,
       c.(startedTurns := c.startedTurns + {turnId}, turnCounts := c.turnCounts[turnId := turnCount],
          turnId := Some(turnId), turnCount := turnCount))
  }

  predicate IsTurnStart(request: PendingRequest) {
    request.call == TURN_START && request.turnCount.Some?
  }

  /** The turn count of the first registered `turn/start` still pending, from request `id` on. */
  function TurnStartCountFrom(c: Connection, id: nat): Option<nat>
    decreases c.nextId - id
  {
    if id >= c.nextId then None
    else if id in c.pending && IsTurnStart(c.pending[id]) then c.pending[id].turnCount
    else TurnStartCountFrom(c, id + 1)
  }

  function PendingTurnStartCount(c: Connection): Option<nat> {
    TurnStartCountFrom(c, 0)
  }

  /** The turns once a candidate stands in for a turn in flight that has none. */
  function WithCandidate(c: Connection, candidate: TurnState): map<string, TurnState> {
    if c.turnId.Some? && c.turnId.value !in c.turns then c.turns[c.turnId.value := candidate] else c.turns
  }

  function ClaimAll(turns: map<string, TurnState>): map<string, TurnState> {
    map t | t in turns :: if turns[t].claimed then turns[t] else Claimed(turns[t])
  }

  /** The candidate, when it stands in, and every turn this failure is the one to claim. */
  function NewlyClaimed(c: Connection, candidate: TurnState): map<string, TurnState> {
    map t | t in WithCandidate(c, candidate) && (t !in c.turns || !c.turns[t].claimed) ::
      ClaimAll(WithCandidate(c, candidate))[t]
  }

  function ClaimOutstanding(c: Connection, error: AgentError, remember: bool, candidate: TurnState):
    (Outstanding, Connection)
  {
    (Outstanding(c.pending, NewlyClaimed(c, candidate)),
     c.(pending := map[], turns := ClaimAll(WithCandidate(c, candidate)),
        terminalError := if remember && c.terminalError.None? then Some(error) else c.terminalError))
  }

  /** How far the claiming loop is: the turns of `left` are as they were, the others claimed. */
  ghost predicate Claiming(
    c: Connection, candidate: TurnState, left: set<string>, all: map<string, TurnState>, claimed: map<string, TurnState>)
  {
    var start := WithCandidate(c, candidate);
    && left <= start.Keys == all.Keys
    && (forall t :: t in all ==> all[t] == if t in left then start[t] else ClaimAll(start)[t])
    && (forall t :: t in claimed <==> t in start && (t !in c.turns || (!c.turns[t].claimed && t !in left)))
    && (forall t :: t in claimed ==> claimed[t] == ClaimAll(start)[t])
  }

  lemma ClaimOne(
    c: Connection, candidate: TurnState, left: set<string>, all: map<string, TurnState>, claimed: map<string, TurnState>,
    t: string)
    requires candidate.claimed && Claiming(c, candidate, left, all, claimed) && t in left
    ensures all[t].claimed ==> Claiming(c, candidate, left - {t}, all, claimed)
    ensures !all[t].claimed ==>
              Claiming(c, candidate, left - {t}, all[t := Claimed(all[t])], claimed[t := Claimed(all[t])])
  {}

  lemma ClaimedAll(c: Connection, candidate: TurnState, all: map<string, TurnState>, claimed: map<string, TurnState>)
    requires Claiming(c, candidate, {}, all, claimed)
    ensures all == ClaimAll(WithCandidate(c, candidate)) && claimed == NewlyClaimed(c, candidate)
  {}

  /** Claims one turn after another, the candidate first if it stands in for the turn in flight. */
  method ClaimTurns(current: Connection, candidate: TurnState)
    returns (all: map<string, TurnState>, claimed: map<string, TurnState>)
    requires candidate.claimed
    ensures all == ClaimAll(WithCandidate(current, candidate)) && claimed == NewlyClaimed(current, candidate)
  {
    all, claimed := current.turns, map[];
    if current.turnId.Some? && current.turnId.value !in all {
      all := all[current.turnId.value := candidate];
      claimed := claimed[current.turnId.value := candidate];
    }
    var left := all.Keys;
    while left != {}
      invariant Claiming(current, candidate, left, all, claimed)
    {
      var t :| t in left;
      ClaimOne(current, candidate, left, all, claimed, t);
      left := left - {t};
      if !all[t].claimed {
        var turn := all[t].(claimed := true, copies := all[t].copies + 1);
        all := all[t := turn];
        claimed := claimed[t := turn];
      }
    }
    ClaimedAll(current, candidate, all, claimed);
  }

  /** The `Ref` every transition takes: each method is one atomic modification of it. */
  class ConnectionRef {
    var pending: map<nat, PendingRequest>
    var turns: map<string, TurnState>
    var startedTurns: set<string>
    var turnCounts: map<string, nat>
    var nextId: nat
    var closed: bool
    var terminalError: Option<AgentError>
    var threadId: Option<string>
    var turnId: Option<string>
    var turnCount: nat

    function View(): Connection reads this {
      Connection(pending, turns, startedTurns, turnCounts, nextId, closed, terminalError, threadId, turnId, turnCount)
    }

    constructor ()
      ensures View() == INITIAL
    {
      pending, turns, startedTurns, turnCounts := map[], map[], {}, map[];
      nextId, closed, terminalError, threadId, turnId, turnCount := 1, false, None, None, None, 0;
    }

    method Select(id: string, candidate: TurnState) returns (selection: TurnSelection)
      modifies this`turns
      ensures (selection, View()) == SelectTurn(old(View()), id, candidate)
    {
      if id in turns {
        return Turn(turns[id]);
      }
      if terminalError.Some? {
        return SelectionError(terminalError.value);
      }
      turns := turns[id := candidate];
      return Turn(candidate);
    }

    method Claim(id: string, turn: TurnState) returns (won: bool)
      modifies this`turns
      ensures (won, View()) == ClaimTurn(old(View()), id, turn)
    {
      if id !in turns || turns[id].settlement != turn.settlement || turns[id].claimed {
        return false;
      }
      turns := turns[id := turns[id].(claimed := true, copies := turns[id].copies + 1)];
      return true;
    }

    method BeginTimer(id: string, turn: TurnState) returns (start: bool)
      modifies this`turns
      ensures (start, View()) == BeginTurnTimer(old(View()), id, turn)
    {
      if id !in turns || turns[id] != turn || turns[id].timerStarted || turns[id].claimed {
        return false;
      }
      turns := turns[id := turns[id].(timerStarted := true, copies := turns[id].copies + 1)];
      return true;
    }

    method ReleaseTimer(id: string, turn: TurnState)
      modifies this`turns
      ensures View() == ReleaseTurnTimer(old(View()), id, turn)
    {
      if id in turns && turns[id].settlement == turn.settlement && turns[id].timerStarted {
        turns := turns[id := turns[id].(timerStarted := false, copies := turns[id].copies + 1)];
      }
    }

    method Register(call: string, count: Option<nat>, reply: Cell) returns (registration: RequestRegistration)
      modifies this`pending, this`nextId
      ensures (registration, View()) == RegisterRequest(old(View()), call, count, reply)
    {
      if terminalError.Some? {
        return RegistrationError(terminalError.value);
      }
      registration := Registered(nextId);
      pending := pending[nextId := PendingRequest(call, count, reply, false)];
      nextId := nextId + 1;
    }

    method ClaimReply(id: nat) returns (request: Option<PendingRequest>)
      modifies this`pending
      ensures (request, View()) == ClaimResponse(old(View()), id)
    {
      if id !in pending || pending[id].claimed {
        return None;
      }
      var claimed := pending[id].(claimed := true);
      pending := pending[id := claimed];
      return Some(claimed);
    }

    method Expire(id: nat, reply: Cell) returns (expired: bool)
      modifies this`pending
      ensures (expired, View()) == ExpirePending(old(View()), id, reply)
    {
      if id !in pending || pending[id].reply != reply || pending[id].claimed {
        return false;
      }
      pending := pending - {id};
      return true;
    }

    method Remove(id: nat, reply: Cell)
      modifies this`pending
      ensures View() == RemovePending(old(View()), id, reply)
    {
      if id in pending && pending[id].reply == reply {
        pending := pending - {id};
      }
    }

    method Adopt(thread: Option<string>, turn: Option<string>)
      modifies this`threadId, this`turnId
      ensures View() == AdoptIdentity(old(View()), thread, turn)
    {
      if thread.Some? {
        threadId := thread;
      }
      if turn.Some? {
        turnId := turn;
      }
    }

    method MarkStarted(id: string, count: nat) returns (first: bool)
      modifies this`startedTurns, this`turnCounts, this`turnId, this`turnCount
      ensures (first, View()) == MarkTurnStarted(old(View()), id, count)
    {
      if id in startedTurns {
        return false;
      }
      startedTurns := startedTurns + {id};
      turnCounts := turnCounts[id := count];
      turnId, turnCount := Some(id), count;
      return true;
    }

    method BeginClose() returns (first: bool)
      modifies this`closed
      ensures first == !old(closed) && View() == old(View()).(closed := true)
    {
      first := !closed;
      closed := true;
    }

    /** Requests are looked through in the order they were registered. */
    method StartCount() returns (count: Option<nat>)
      ensures count == PendingTurnStartCount(View())
    {
      var id := 0;
      while id < nextId
        invariant PendingTurnStartCount(View()) == TurnStartCountFrom(View(), id)
      {
        if id in pending && pending[id].call == TURN_START && pending[id].turnCount.Some? {
          return pending[id].turnCount;
        }
        id := id + 1;
      }
      return None;
    }

    /** Claims everything still outstanding, within one modification. */
    method ClaimEverything(error: AgentError, remember: bool, candidate: TurnState) returns (outstanding: Outstanding)
      requires candidate.claimed
      modifies this`pending, this`turns, this`terminalError
      ensures (outstanding, View()) == ClaimOutstanding(old(View()), error, remember, candidate)
    {
      var all, claimed := ClaimTurns(View(), candidate);
      outstanding := Outstanding(pending, claimed);
      pending, turns := map[], all;
      if remember && terminalError.None? {
        terminalError := Some(error);
      }
    }
  }
}
