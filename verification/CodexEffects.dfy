/** What one step of a session does to the Deferreds, whoever takes it. */
module CodexEffects {
  import opened Options
  import opened ConnectionState
  import opened CodexSession

  /** The Deferred a fiber's next step completes, and how. */
  function CompletionOf(pc: Pc, pick: nat): Option<Owed> {
    match pc
    case FailingReply(reply) => Some(Owed(reply, Failed(READ_TIMEOUT)))
    case ResponseSettling(_, reply, result) => Some(Owed(reply, result))
    case FailSettling(error, left) => if pick in left then Some(Owed(pick, Failed(error))) else None
    case SettleCompleting(_, due, _) => Some(due)
    case NoteFinishing(owed) => owed
    case _ => None
  }

  function OwedOutcome(owed: Option<Owed>): Option<Result> {
    if owed.Some? then Some(owed.value.outcome) else None
  }

  /** How a fiber will complete whatever it has taken on. */
  function OutcomeOf(pc: Pc): Option<Result> {
    match pc
    case FailingReply(reply) => Some(Failed(READ_TIMEOUT))
    case ResponseAdopting(_, _, value, _, _) => Some(Reply(value))
    case ResponseSelecting(_, _, value, _, _) => Some(Reply(value))
    case ResponseStarting(_, _, value, _, _) => Some(Reply(value))
    case ResponseSettling(_, _, result) => Some(result)
    case FailSettling(error, _) => Some(Failed(error))
    case SettleCompleting(_, due, _) => Some(due.outcome)
    case NoteReading(owed, _) => OwedOutcome(owed)
    case NoteEnsuring(owed, _, _) => OwedOutcome(owed)
    case NoteStarting(owed, _, _) => OwedOutcome(owed)
    case NoteFinishing(owed) => OwedOutcome(owed)
    case _ => None
  }

  /** A notification about to fail its own turn lookup. */
  predicate Aborting(s: State, pc: Pc) {
    pc.NoteEnsuring? && Selection(s, pc.turnId).SelectionError?
  }

  function ResultsAfter(s: State, due: Option<Owed>): map<Cell, Result> {
    if due.None? || due.value.cell in s.results then s.results else s.results[due.value.cell := due.value.outcome]
  }

  /** What a fiber had taken on it still has, and will complete the same way; or just completed that
      way; or just lost. */
  ghost predicate KeepsWord(s: State, pc: Pc, due: Option<Owed>, pc': Pc, c: Cell) {
    || (c in Owns(pc') && OutcomeOf(pc') == OutcomeOf(pc))
    || (due.Some? && due.value.cell == c && Some(due.value.outcome) == OutcomeOf(pc))
    || Aborting(s, pc)
  }

  ghost predicate Effect(s: State, f: Fiber, pc: Pc, pick: nat, s': State) {
    var due := CompletionOf(pc, pick);
    && s'.results == ResultsAfter(s, due)
    && s'.lost == (if Aborting(s, pc) then s.lost + Owns(pc) else s.lost)
    && f in s'.fibers && (RoleOf(s'.fibers[f]).Notifier? ==> RoleOf(pc).Notifier?)
    && (forall g :: g in s'.fibers && g !in s.fibers ==> g == f || s'.fibers[g].TimerArmed?)
    && (forall g :: g in s.fibers && g != f ==> g in s'.fibers && s'.fibers[g] == s.fibers[g])
    && (forall c :: c in Owns(pc) ==> KeepsWord(s, pc, due, s'.fibers[f], c))
  }

  lemma RegisteringEffect(s: State, f: Fiber, pc: Pc, pick: nat, s': State)
    requires (pc.Registering? || pc.Expiring?) && RequesterStep(s, f, pc, false) == Some(s')
    ensures Effect(s, f, pc, pick, s')
  {}

  lemma RequesterEffect(s: State, f: Fiber, pc: Pc, expire: bool, pick: nat, s': State)
    requires RoleOf(pc).Requester? && RequesterStep(s, f, pc, expire) == Some(s')
    ensures Effect(s, f, pc, pick, s')
  {
    if pc.Registering? || pc.Expiring? { RegisteringEffect(s, f, pc, pick, s'); }
  }

  /** Between claiming a request and settling it. */
  predicate BringsAnswer(pc: Pc) {
    pc.ResponseAdopting? || pc.ResponseSelecting? || pc.ResponseStarting? || pc.ResponseSettling?
  }

  lemma AnsweringEffect(s: State, f: Fiber, pc: Pc, pick: nat, s': State)
    requires BringsAnswer(pc) && ResponderStep(s, f, pc) == Some(s')
    requires !pc.ResponseSelecting? || Selection(s, pc.turnId).Turn?
    ensures Effect(s, f, pc, pick, s')
  {}

  lemma ResponderEffect(s: State, f: Fiber, pc: Pc, pick: nat, s': State)
    requires RoleOf(pc).Responder? && ResponderStep(s, f, pc) == Some(s')
    requires !pc.ResponseSelecting? || Selection(s, pc.turnId).Turn?
    ensures Effect(s, f, pc, pick, s')
  {
    if BringsAnswer(pc) { AnsweringEffect(s, f, pc, pick, s'); }
  }

  lemma SettlingAllEffect(s: State, f: Fiber, error: AgentError, left: set<Cell>, pick: nat, s': State)
    requires FailerStep(s, f, FailSettling(error, left), pick) == Some(s')
    ensures Effect(s, f, FailSettling(error, left), pick, s')
  {}

  lemma FailerEffect(s: State, f: Fiber, pc: Pc, pick: nat, s': State)
    requires RoleOf(pc).Failer? && FailerStep(s, f, pc, pick) == Some(s')
    ensures Effect(s, f, pc, pick, s')
  {
    if pc.FailSettling? { SettlingAllEffect(s, f, pc.error, pc.left, pick, s'); }
  }

  lemma SettlerEffect(s: State, f: Fiber, pc: Pc, pick: nat, s': State)
    requires RoleOf(pc).Settler? && SettlerStep(s, f, pc) == Some(s')
    ensures Effect(s, f, pc, pick, s')
  {}

  lemma EnsuringEffect(s: State, f: Fiber, pc: Pc, pick: nat, s': State)
    requires pc.NoteEnsuring? && NotifierStep(s, f, pc) == Some(s')
    ensures Effect(s, f, pc, pick, s')
  {
    if Selection(s, pc.turnId).SelectionError? {
      assert s' == Abort(s, f, pc.turnId, pc.owed);
    }
  }

  lemma FinishingEffect(s: State, f: Fiber, pc: Pc, pick: nat, s': State)
    requires pc.NoteFinishing? && NotifierStep(s, f, pc) == Some(s')
    ensures Effect(s, f, pc, pick, s')
  {}

  lemma ReadingEffect(s: State, f: Fiber, pc: Pc, pick: nat, s': State)
    requires (pc.NoteReading? || pc.NoteStarting?) && NotifierStep(s, f, pc) == Some(s')
    ensures Effect(s, f, pc, pick, s')
  {}

  lemma NotifierEffect(s: State, f: Fiber, pc: Pc, pick: nat, s': State)
    requires RoleOf(pc).Notifier? && NotifierStep(s, f, pc) == Some(s')
    ensures Effect(s, f, pc, pick, s')
  {
    match pc {
      case NoteEnsuring(_, _, _) => EnsuringEffect(s, f, pc, pick, s');
      case NoteSelecting(_, _, _) =>
      case NoteClaiming(_, _, _, _) =>
      case NoteFinishing(_) => FinishingEffect(s, f, pc, pick, s');
      case _ => ReadingEffect(s, f, pc, pick, s');
    }
  }

  lemma TimingEffect(s: State, f: Fiber, pc: Pc, expire: bool, pick: nat, s': State)
    requires f in s.fibers && pc.TurnTiming? && AwaiterStep(s, f, pc, expire, pick) == Some(s')
    ensures Effect(s, f, pc, pick, s')
  {}

  lemma AwaiterEffect(s: State, f: Fiber, pc: Pc, expire: bool, pick: nat, s': State)
    requires f in s.fibers && RoleOf(pc).Awaiter? && AwaiterStep(s, f, pc, expire, pick) == Some(s')
    ensures Effect(s, f, pc, pick, s')
  {
    if pc.TurnTiming? { TimingEffect(s, f, pc, expire, pick, s'); }
  }

  lemma AdvanceEffect(s: State, f: Fiber, expire: bool, pick: nat, s': State)
    requires f in s.fibers && AdvanceOf(s, f, expire, pick) == Some(s')
    requires !s.fibers[f].ResponseSelecting? || Selection(s, s.fibers[f].turnId).Turn?
    ensures Effect(s, f, s.fibers[f], pick, s')
  {
    var pc := s.fibers[f];
    match RoleOf(pc) {
      case Requester => RequesterEffect(s, f, pc, expire, pick, s');
      case Responder => ResponderEffect(s, f, pc, pick, s');
      case Failer => FailerEffect(s, f, pc, pick, s');
      case Settler => SettlerEffect(s, f, pc, pick, s');
      case Notifier => NotifierEffect(s, f, pc, pick, s');
      case Awaiter => AwaiterEffect(s, f, pc, expire, pick, s');
    }
  }
}
