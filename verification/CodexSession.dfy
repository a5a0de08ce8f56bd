/** A Codex session as the interleaving of everything that runs against its one state cell: requesters,
    response handlers, notification handlers, awaiters with their silence timers, and session failure.
    Each fiber is a program counter between two atomic steps. */
module CodexSession {
  import opened Options
  import opened ConnectionState

  type Fiber = nat

  datatype Result = Reply(value: string) | Completed | Failed(error: AgentError)

  /** What a response carries: a result with the identities it declares, or an error (which is also
      what a response without a result amounts to). */
  datatype Answer =
    | Answer(value: string, threadId: Option<string>, named: Option<string>)
    | ErrorAnswer(error: AgentError)

  /** A turn some handler has claimed and not completed, and how it will. */
  datatype Owed = Owed(cell: Cell, outcome: Result)

  datatype Pc =
    // sendRequest
    | Registering(call: string, turnCount: Option<nat>)
    | Awaiting(id: nat, reply: Cell)
    | Expiring(id: nat, reply: Cell)
    | FailingReply(reply: Cell)
    | AwaitingSettled(reply: Cell)
    | Returned(result: Result)
    // settleResponse
    | ResponseWaiting(id: nat, answer: Answer)
    | ResponseClaiming(id: nat, answer: Answer)
    | ResponseAdopting(id: nat, request: PendingRequest, value: string, threadId: Option<string>, named: Option<string>)
    | ResponseSelecting(id: nat, reply: Cell, value: string, turnId: string, count: nat)
    | ResponseStarting(id: nat, reply: Cell, value: string, turnId: string, count: nat)
    | ResponseSettling(id: nat, reply: Cell, result: Result)
    | ResponseRemoving(id: nat, reply: Cell)
    | ResponseReleasing
    | ResponseBroken
    // failSession
    | FailWaiting(error: AgentError, remember: bool)
    | FailClaiming(error: AgentError, remember: bool)
    | FailSettling(error: AgentError, left: set<Cell>)
    // settleTurn, on its own or at the end of a silence timer
    | SettleSelecting(turnId: string, outcome: Result, timer: Option<TurnState>)
    | SettleClaiming(turnId: string, turn: TurnState, outcome: Result, timer: Option<TurnState>)
    | SettleCompleting(turnId: string, due: Owed, timer: Option<TurnState>)
    // handleNotification
    | NoteSelecting(turnId: string, outcome: Result, declared: Option<string>)
    | NoteClaiming(turnId: string, turn: TurnState, outcome: Result, declared: Option<string>)
    | NoteReading(owed: Option<Owed>, named: Option<string>)
    | NoteEnsuring(owed: Option<Owed>, turnId: string, count: nat)
    | NoteStarting(owed: Option<Owed>, turnId: string, count: nat)
    | NoteFinishing(owed: Option<Owed>)
    | NoteAborted(owed: Option<Owed>)
    // awaitTurn and the silence timer
    | TurnSelecting(turnId: string)
    | TurnTiming(turnId: string, turn: TurnState)
    | TurnAwaiting(turnId: string, cell: Cell)
    | TimerArmed(turnId: string, turn: TurnState)
    | TimerReleasing(turnId: string, turn: TurnState)
    | Finished

  /** `results` are the Deferreds completed so far and `cells` the next fresh one. The last three
      fields record history only: who has taken on completing which Deferred, which request each reply
      was issued for, and which claimed turns an aborted handler dropped. */
  datatype State = State(
    conn: Connection,
    lock: Option<Fiber>,
    fibers: map<Fiber, Pc>,
    results: map<Cell, Result>,
    cells: Cell,
    holder: map<Cell, Fiber>,
    requests: map<Cell, nat>,
    lost: set<Cell>)

  const INITIAL_STATE := State(ConnectionState.INITIAL, None, map[], map[], 0, map[], map[], {})

  datatype Step =
    | Spawn(f: Fiber, pc: Pc)
    | Advance(f: Fiber, expire: bool, pick: nat)
    | Close

  /** Where a fiber may start. A notification that ends no turn starts at its reading. */
  predicate Entry(pc: Pc) {
    || pc.Registering? || pc.ResponseWaiting? || pc.FailWaiting? || pc.NoteSelecting? || pc.TurnSelecting?
    || (pc.SettleSelecting? && pc.timer.None?)
    || (pc.NoteReading? && pc.owed.None?)
  }

  function OwedCells(owed: Option<Owed>): set<Cell> {
    if owed.Some? then {owed.value.cell} else {}
  }

  /** The Deferreds a fiber at this point has taken on completing. */
  function Owns(pc: Pc): set<Cell> {
    match pc
    case FailingReply(reply) => {reply}
    case ResponseAdopting(_, request, _, _, _) => {request.reply}
    case ResponseSelecting(_, reply, _, _, _) => {reply}
    case ResponseStarting(_, reply, _, _, _) => {reply}
    case ResponseSettling(_, reply, _) => {reply}
    case FailSettling(_, left) => left
    case SettleCompleting(_, due, _) => {due.cell}
    case NoteReading(owed, _) => OwedCells(owed)
    case NoteEnsuring(owed, _, _) => OwedCells(owed)
    case NoteStarting(owed, _, _) => OwedCells(owed)
    case NoteFinishing(owed) => OwedCells(owed)
    case _ => {}
  }

  /** Between acquiring and releasing the lifecycle semaphore. */
  predicate InLock(pc: Pc) {
    || pc.ResponseClaiming? || pc.ResponseAdopting? || pc.ResponseSelecting? || pc.ResponseStarting?
    || pc.ResponseSettling? || pc.ResponseRemoving? || pc.ResponseReleasing? || pc.ResponseBroken?
    || pc.FailClaiming? || pc.FailSettling?
  }

  function Move(s: State, f: Fiber, pc: Pc): State {
    s.(fibers := s.fibers[f := pc])
  }

  /** A Deferred keeps the first result it is completed with. */
  function Complete(s: State, f: Fiber, c: Cell, r: Result, pc: Pc): State {
    s.(results := if c in s.results then s.results else s.results[c := r], holder := s.holder - {c},
       fibers := s.fibers[f := pc])
  }

  function Candidate(s: State): TurnState { TurnState(s.cells, false, false, 0) }

  function Selection(s: State, turnId: string): TurnSelection { SelectTurn(s.conn, turnId, Candidate(s)).0 }

  /** `turnStateOf`: a candidate is allocated, and installed if nothing stands in its way. */
  function Select(s: State, f: Fiber, turnId: string, pc: Pc): State {
    s.(conn := SelectTurn(s.conn, turnId, Candidate(s)).1, cells := s.cells + 1, fibers := s.fibers[f := pc])
  }

  /** Claiming a turn, when that was won, takes on completing it. */
  function Claim(s: State, f: Fiber, turnId: string, turn: TurnState, pc: Pc): State {
    s.(conn := ClaimTurn(s.conn, turnId, turn).1, holder := s.holder[turn.settlement := f], fibers := s.fibers[f := pc])
  }

  function AfterSettling(turnId: string, timer: Option<TurnState>): Pc {
    if timer.Some? then TimerReleasing(turnId, timer.value) else Finished
  }

  const READ_TIMEOUT := AgentError("read_timeout", "response timed out")
  const TURN_TIMEOUT := AgentError("turn_timeout", "turn produced no output")

  /** `sendRequest`, whose timeout fires if `expire`. */
  function RequesterStep(s: State, f: Fiber, pc: Pc, expire: bool): Option<State> {
    match pc
    case Registering(call, turnCount) =>
      (match RegisterRequest(s.conn, call, turnCount, s.cells)
       case (RegistrationError(error), _) => Some(Move(s.(cells := s.cells + 1), f, Returned(Failed(error))))
       case (Registered(id), conn) =>
         Some(Move(s.(conn := conn, cells := s.cells + 1, requests := s.requests[s.cells := id]), f, Awaiting(id, s.cells))))
    case Awaiting(id, reply) =>
      if expire then Some(Move(s, f, Expiring(id, reply)))
      else if reply in s.results then Some(Move(s, f, Returned(s.results[reply])))
      else None
    case Expiring(id, reply) =>
      if ExpirePending(s.conn, id, reply).0 then
        Some(Move(s.(conn := ExpirePending(s.conn, id, reply).1, holder := s.holder[reply := f]), f, FailingReply(reply)))
      else Some(Move(s, f, AwaitingSettled(reply)))
    case FailingReply(reply) => Some(Complete(s, f, reply, Failed(READ_TIMEOUT), AwaitingSettled(reply)))
    case AwaitingSettled(reply) =>
      if reply in s.results then Some(Move(s, f, Returned(s.results[reply]))) else None
    case _ => None
  }

  /** Where a handler goes with the request it claimed. */
  function Answered(id: nat, request: PendingRequest, answer: Answer): Pc {
    match answer
    case ErrorAnswer(error) => ResponseSettling(id, request.reply, Failed(error))
    case Answer(value, threadId, named) => ResponseAdopting(id, request, value, threadId, named)
  }

  /** `settleResponse`, under the lock from its claim to its last step. */
  function ResponderStep(s: State, f: Fiber, pc: Pc): Option<State> {
    match pc
    case ResponseWaiting(id, answer) =>
      if s.lock.None? then Some(Move(s.(lock := Some(f)), f, ResponseClaiming(id, answer))) else None
    case ResponseClaiming(id, answer) =>
      (match ClaimResponse(s.conn, id)
       case (None, _) => Some(Move(s, f, ResponseReleasing))
       case (Some(request), conn) =>
         Some(Move(s.(conn := conn, holder := s.holder[request.reply := f]), f, Answered(id, request, answer))))
    case ResponseAdopting(id, request, value, threadId, named) =>
      var conn := AdoptIdentity(s.conn, threadId, named);
      Some(Move(s.(conn := conn), f,
                if IsTurnStart(request) && conn.turnId.Some? then
                  ResponseSelecting(id, request.reply, value, conn.turnId.value, request.turnCount.value)
                else ResponseSettling(id, request.reply, Reply(value))))
    case ResponseSelecting(id, reply, value, turnId, turnCount) =>
      Some(Select(s, f, turnId,
                  if Selection(s, turnId).SelectionError? then ResponseBroken
                  else ResponseStarting(id, reply, value, turnId, turnCount)))
    case ResponseStarting(id, reply, value, turnId, turnCount) =>
      Some(Move(s.(conn := MarkTurnStarted(s.conn, turnId, turnCount).1), f, ResponseSettling(id, reply, Reply(value))))
    case ResponseSettling(id, reply, result) => Some(Complete(s, f, reply, result, ResponseRemoving(id, reply)))
    case ResponseRemoving(id, reply) => Some(Move(s.(conn := RemovePending(s.conn, id, reply)), f, ResponseReleasing))
    case ResponseReleasing => Some(Move(s.(lock := None), f, Finished))
    case ResponseBroken => Some(Move(s.(lock := None), f, Finished))
    case _ => None
  }

  /** `failSession`, which settles what it claimed in any order: `pick` is the next. */
  function FailerStep(s: State, f: Fiber, pc: Pc, pick: Cell): Option<State> {
    match pc
    case FailWaiting(error, remember) =>
      if s.lock.None? then Some(Move(s.(lock := Some(f)), f, FailClaiming(error, remember))) else None
    case FailClaiming(error, remember) => Some(FailAll(s, f, error, remember))
    case FailSettling(error, left) =>
      if left == {} then Some(Move(s.(lock := None), f, Finished))
      else if pick in left then Some(Complete(s, f, pick, Failed(error), FailSettling(error, left - {pick})))
      else None
    case _ => None
  }

  /** `settleTurn`. */
  function SettlerStep(s: State, f: Fiber, pc: Pc): Option<State> {
    match pc
    case SettleSelecting(turnId, outcome, timer) =>
      Some(Select(s, f, turnId,
                  match Selection(s, turnId)
                  case SelectionError(_) => AfterSettling(turnId, timer)
                  case Turn(turn) => SettleClaiming(turnId, turn, outcome, timer)))
    case SettleClaiming(turnId, turn, outcome, timer) =>
      if ClaimTurn(s.conn, turnId, turn).0 then
        Some(Claim(s, f, turnId, turn, SettleCompleting(turnId, Owed(turn.settlement, outcome), timer)))
      else Some(Move(s, f, AfterSettling(turnId, timer)))
    case SettleCompleting(turnId, due, timer) =>
      Some(Complete(s, f, due.cell, due.outcome, AfterSettling(turnId, timer)))
    case _ => None
  }

  /** Where a notification goes once it has read the state. */
  function Noted(c: Connection, owed: Option<Owed>, named: Option<string>): Pc {
    var target, count := OrElse(named, c.turnId), PendingTurnStartCount(c);
    if target.Some? && count.Some? then NoteEnsuring(owed, target.value, count.value) else NoteFinishing(owed)
  }

  /** `handleNotification`, outside the lock throughout. */
  function NotifierStep(s: State, f: Fiber, pc: Pc): Option<State> {
    match pc
    case NoteSelecting(turnId, outcome, declared) =>
      Some(Select(s, f, turnId,
                  match Selection(s, turnId)
                  case SelectionError(_) => NoteAborted(None)
                  case Turn(turn) => NoteClaiming(turnId, turn, outcome, declared)))
    case NoteClaiming(turnId, turn, outcome, declared) =>
      if ClaimTurn(s.conn, turnId, turn).0 then
        Some(Claim(s, f, turnId, turn,
                   NoteReading(Some(Owed(turn.settlement, outcome)), OrElse(declared, Some(turnId)))))
      else Some(Move(s, f, Finished))
    case NoteReading(owed, named) => Some(Move(s, f, Noted(s.conn, owed, named)))
    case NoteEnsuring(owed, turnId, turnCount) =>
      if Selection(s, turnId).SelectionError? then Some(Abort(s, f, turnId, owed))
      else Some(Select(s, f, turnId, NoteStarting(owed, turnId, turnCount)))
    case NoteStarting(owed, turnId, turnCount) =>
      Some(Move(s.(conn := MarkTurnStarted(s.conn, turnId, turnCount).1), f, NoteFinishing(owed)))
    case NoteFinishing(owed) =>
      if owed.Some? then Some(Complete(s, f, owed.value.cell, owed.value.outcome, Finished))
      else Some(Move(s, f, Finished))
    case _ => None
  }

  /** A notification's own turn lookup fails, and with it the handler, whatever it had claimed. */
  function Abort(s: State, f: Fiber, turnId: string, owed: Option<Owed>): State {
    Select(s, f, turnId, NoteAborted(owed)).(holder := s.holder - OwedCells(owed), lost := s.lost + OwedCells(owed))
  }

  /** `awaitTurn`, and the silence timer it may fork as the fiber `pick`. */
  function AwaiterStep(s: State, f: Fiber, pc: Pc, expire: bool, pick: Fiber): Option<State> {
    match pc
    case TurnSelecting(turnId) =>
      Some(Select(s, f, turnId,
                  match Selection(s, turnId)
                  case SelectionError(error) => Returned(Failed(error))
                  case Turn(turn) => TurnTiming(turnId, turn)))
    case TurnTiming(turnId, turn) =>
      if !BeginTurnTimer(s.conn, turnId, turn).0 then Some(Move(s, f, TurnAwaiting(turnId, turn.settlement)))
      else if pick in s.fibers then None
      else
        Some(Move(Move(s.(conn := BeginTurnTimer(s.conn, turnId, turn).1), f, TurnAwaiting(turnId, turn.settlement)),
                  pick, TimerArmed(turnId, turn)))
    case TurnAwaiting(turnId, cell) =>
      if cell in s.results then Some(Move(s, f, Returned(s.results[cell]))) else None
    case TimerArmed(turnId, turn) =>
      if expire then Some(Move(s, f, SettleSelecting(turnId, Failed(TURN_TIMEOUT), Some(turn))))
      else if turn.settlement in s.results then Some(Move(s, f, TimerReleasing(turnId, turn)))
      else None
    case TimerReleasing(turnId, turn) => Some(Move(s.(conn := ReleaseTurnTimer(s.conn, turnId, turn)), f, Finished))
    case _ => None
  }

  datatype Role = Requester | Responder | Failer | Settler | Notifier | Awaiter | Over

  function RoleOf(pc: Pc): Role {
    match pc
    case Registering(_, _) => Requester
    case Awaiting(_, _) => Requester
    case Expiring(_, _) => Requester
    case FailingReply(_) => Requester
    case AwaitingSettled(_) => Requester
    case ResponseWaiting(_, _) => Responder
    case ResponseClaiming(_, _) => Responder
    case ResponseAdopting(_, _, _, _, _) => Responder
    case ResponseSelecting(_, _, _, _, _) => Responder
    case ResponseStarting(_, _, _, _, _) => Responder
    case ResponseSettling(_, _, _) => Responder
    case ResponseRemoving(_, _) => Responder
    case ResponseReleasing => Responder
    case ResponseBroken => Responder
    case FailWaiting(_, _) => Failer
    case FailClaiming(_, _) => Failer
    case FailSettling(_, _) => Failer
    case SettleSelecting(_, _, _) => Settler
    case SettleClaiming(_, _, _, _) => Settler
    case SettleCompleting(_, _, _) => Settler
    case NoteSelecting(_, _, _) => Notifier
    case NoteClaiming(_, _, _, _) => Notifier
    case NoteReading(_, _) => Notifier
    case NoteEnsuring(_, _, _) => Notifier
    case NoteStarting(_, _, _) => Notifier
    case NoteFinishing(_) => Notifier
    case TurnSelecting(_) => Awaiter
    case TurnTiming(_, _) => Awaiter
    case TurnAwaiting(_, _) => Awaiter
    case TimerArmed(_, _) => Awaiter
    case TimerReleasing(_, _) => Awaiter
    case _ => Over
  }

  /** The next atomic step of a fiber, if it has one now. */
  function AdvanceOf(s: State, f: Fiber, expire: bool, pick: nat): Option<State>
    requires f in s.fibers
  {
    var pc := s.fibers[f];
    match RoleOf(pc)
    case Requester => RequesterStep(s, f, pc, expire)
    case Responder => ResponderStep(s, f, pc)
    case Failer => FailerStep(s, f, pc, pick)
    case Settler => SettlerStep(s, f, pc)
    case Notifier => NotifierStep(s, f, pc)
    case Awaiter => AwaiterStep(s, f, pc, expire, pick)
    case Over => None
  }

  function Settlements(turns: map<string, TurnState>): set<Cell> {
    set t | t in turns :: turns[t].settlement
  }

  function Replies(pending: map<nat, PendingRequest>): set<Cell> {
    set id | id in pending :: pending[id].reply
  }

  /** `failSession` under the lock: everything outstanding is claimed in one transition, and settling
      each of it is taken on. */
  function FailAll(s: State, f: Fiber, error: AgentError, remember: bool): State {
    var (outstanding, conn) := ClaimOutstanding(s.conn, error, remember, Candidate(s).(claimed := true));
    var left := Replies(outstanding.pending) + Settlements(outstanding.turns);
    s.(conn := conn, cells := s.cells + 1, holder := s.holder + (map c | c in left :: f),
       fibers := s.fibers[f := FailSettling(error, left)])
  }

  ghost predicate Next(s: State, step: Step, s': State) {
    match step
    case Spawn(f, pc) => f !in s.fibers && Entry(pc) && s' == Move(s, f, pc)
    case Advance(f, expire, pick) => f in s.fibers && AdvanceOf(s, f, expire, pick) == Some(s')
    case Close => s' == s.(conn := s.conn.(closed := true))
  }

  ghost predicate Run(states: seq<State>, steps: seq<Step>) {
    && |states| == |steps| + 1 && states[0] == INITIAL_STATE
    && forall k {:trigger steps[k]} :: 0 <= k < |steps| ==> Next(states[k], steps[k], states[k + 1])
  }
}
