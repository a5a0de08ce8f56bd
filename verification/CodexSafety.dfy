/** What a Codex session guarantees over every run: each Deferred completed once, by whoever claimed it
    first, with what that claim decided; and nothing changed once the session has failed for good. */
module CodexSafety {
  import opened Options
  import opened ConnectionState
  import opened CodexSession
  import opened CodexInvariant
  import opened CodexSteps
  import opened CodexEffects
  import opened CodexWatch

  /** What a Deferred is bound to be completed with: its result, or what the fiber holding it will write. */
  function Promise(s: State, c: Cell): Option<Result> {
    if c in s.results then Some(s.results[c])
    else if c in s.holder && s.holder[c] in s.fibers then OutcomeOf(s.fibers[s.holder[c]])
    else None
  }

  /** A response handler's own turn lookup cannot fail: its request would not be pending any more. */
  lemma ResponseNeverBreaks(s: State, f: Fiber)
    requires TerminalOk(s) && f in s.fibers && s.fibers[f].ResponseSelecting? && PcOk(s, s.fibers[f])
    ensures Selection(s, s.fibers[f].turnId).Turn?
  {}

  lemma StepEffect(s: State, f: Fiber, expire: bool, pick: nat, s': State)
    requires Inv(s) && f in s.fibers && AdvanceOf(s, f, expire, pick) == Some(s')
    ensures Effect(s, f, s.fibers[f], pick, s')
  {
    assert PcOk(s, s.fibers[f]);
    if s.fibers[f].ResponseSelecting? { ResponseNeverBreaks(s, f); }
    AdvanceEffect(s, f, expire, pick, s');
  }

  /** Whatever a fiber is about to complete, it holds. */
  lemma CompletesOwned(pc: Pc, pick: nat)
    ensures CompletionOf(pc, pick).Some? ==>
              CompletionOf(pc, pick).value.cell in Owns(pc) && OutcomeOf(pc) == Some(CompletionOf(pc, pick).value.outcome)
  {}

  /** Every attempt at completing a Deferred is the first one, and takes. */
  lemma CompletionTakes(s: State, f: Fiber, expire: bool, pick: nat, s': State)
    requires Inv(s) && f in s.fibers && AdvanceOf(s, f, expire, pick) == Some(s')
    ensures var due := CompletionOf(s.fibers[f], pick);
            s'.results == if due.None? then s.results else s.results[due.value.cell := due.value.outcome]
    ensures var due := CompletionOf(s.fibers[f], pick);
            due.Some? ==> due.value.cell !in s.results && due.value.cell in s.holder && s.holder[due.value.cell] == f
  {
    StepEffect(s, f, expire, pick, s');
    if CompletionOf(s.fibers[f], pick).Some? { OwnsWhatItCompletes(s, f, pick); }
  }

  lemma OwnsWhatItCompletes(s: State, f: Fiber, pick: nat)
    requires HolderOk(s) && OwnersOk(s) && f in s.fibers && CompletionOf(s.fibers[f], pick).Some?
    ensures var c := CompletionOf(s.fibers[f], pick).value.cell;
            c !in s.results && c in s.holder && s.holder[c] == f
  {
    CompletesOwned(s.fibers[f], pick);
  }

  lemma StepResults(s: State, step: Step, s': State)
    requires Inv(s) && Next(s, step, s')
    ensures forall c :: c in s.results ==> c in s'.results && s'.results[c] == s.results[c]
  {
    if step.Advance? { CompletionTakes(s, step.f, step.expire, step.pick, s'); }
  }

  /** A result never changes. */
  lemma {:induction false} ResultsStay(states: seq<State>, steps: seq<Step>, j: nat, k: nat, c: Cell)
    requires Run(states, steps) && j <= k <= |steps| && c in states[j].results
    ensures c in states[k].results && states[k].results[c] == states[j].results[c]
    decreases k
  {
    if j < k {
      ResultsStay(states, steps, j, k - 1, c);
      RunKeeps(states, steps, k - 1);
      StepResults(states[k - 1], steps[k - 1], states[k]);
    }
  }

  /** One step keeps every promise it does not drop. */
  lemma StepPromise(s: State, step: Step, s': State, c: Cell)
    requires Inv(s) && Inv(s') && Next(s, step, s') && Promise(s, c).Some?
    ensures Promise(s', c) == Promise(s, c) || c in s'.lost
  {
    StepResults(s, step, s');
    if c !in s.results {
      var g := s.holder[c];
      assert c in Owns(s.fibers[g]);
      if step.Advance? {
        StepEffect(s, step.f, step.expire, step.pick, s');
        if g == step.f { StepOwnPromise(s, step.f, step.pick, s', c); }
      }
      if g in s'.fibers && s'.fibers[g] == s.fibers[g] {
        HeldPromise(s', g, c);
      }
    }
  }

  lemma HeldPromise(s: State, g: Fiber, c: Cell)
    requires HolderOk(s) && OwnersOk(s) && g in s.fibers && c in Owns(s.fibers[g])
    ensures Promise(s, c) == OutcomeOf(s.fibers[g])
  {}

  lemma StepOwnPromise(s: State, f: Fiber, pick: nat, s': State, c: Cell)
    requires HolderOk(s') && OwnersOk(s') && f in s.fibers && Effect(s, f, s.fibers[f], pick, s')
    requires c in Owns(s.fibers[f]) && c !in s.results
    ensures Promise(s', c) == OutcomeOf(s.fibers[f]) || c in s'.lost
  {
    var pc, due := s.fibers[f], CompletionOf(s.fibers[f], pick);
    assert KeepsWord(s, pc, due, s'.fibers[f], c);
    if c in Owns(s'.fibers[f]) && OutcomeOf(s'.fibers[f]) == OutcomeOf(pc) { HeldPromise(s', f, c); }
  }

  /** Bound to be completed with this result, unless an aborted handler drops it. */
  ghost predicate Bound(s: State, c: Cell, r: Result) {
    Promise(s, c) == Some(r) || c in s.lost
  }

  lemma StepBound(s: State, step: Step, s': State, c: Cell, r: Result)
    requires Inv(s) && Inv(s') && Next(s, step, s') && Bound(s, c, r)
    ensures Bound(s', c, r)
  {
    if c in s.lost { StepLost(s, step, s'); } else { StepPromise(s, step, s', c); }
  }

  /** The first to take a Deferred on decides what it is completed with, whatever else happens after. */
  lemma {:induction false} PromiseHeld(states: seq<State>, steps: seq<Step>, j: nat, k: nat, c: Cell, r: Result)
    requires Run(states, steps) && j <= k <= |steps| && Bound(states[j], c, r)
    ensures Bound(states[k], c, r)
    decreases k
  {
    if j < k {
      PromiseHeld(states, steps, j, k - 1, c, r);
      RunBound(states, steps, k - 1, c, r);
    }
  }

  lemma RunBound(states: seq<State>, steps: seq<Step>, k: nat, c: Cell, r: Result)
    requires Run(states, steps) && k < |steps| && Bound(states[k], c, r)
    ensures Bound(states[k + 1], c, r)
  {
    RunKeeps(states, steps, k);
    RunKeeps(states, steps, k + 1);
    StepBound(states[k], steps[k], states[k + 1], c, r);
  }

  lemma StepLost(s: State, step: Step, s': State)
    requires Inv(s) && Next(s, step, s')
    ensures s.lost <= s'.lost
  {
    if step.Advance? { StepEffect(s, step.f, step.expire, step.pick, s'); }
  }

  /** What a fiber waits for before it returns. */
  function AwaitedBy(pc: Pc): Option<Cell> {
    match pc
    case Awaiting(_, reply) => Some(reply)
    case AwaitingSettled(reply) => Some(reply)
    case TurnAwaiting(_, cell) => Some(cell)
    case _ => None
  }

  /** A waiter returns exactly what its Deferred was completed with. */
  lemma ReturnsResult(s: State, f: Fiber, expire: bool, pick: nat, s': State)
    requires f in s.fibers && AwaitedBy(s.fibers[f]).Some? && AdvanceOf(s, f, expire, pick) == Some(s') && s'.fibers[f].Returned?
    ensures var c := AwaitedBy(s.fibers[f]).value; c in s.results && s'.fibers[f].result == s.results[c]
  {}

  /** Once somebody has taken on completing what a fiber waits for, the fiber can only return what that
      one decided: its own timeout, a later response and a session failure change nothing. */
  lemma FirstClaimReturned(states: seq<State>, steps: seq<Step>, j: nat, k: nat, f: Fiber, c: Cell, r: Result)
    requires Run(states, steps) && j <= k < |steps| && Bound(states[j], c, r) && c !in states[j].lost
    requires f in states[k].fibers && AwaitedBy(states[k].fibers[f]) == Some(c) && f in states[k + 1].fibers
    requires steps[k].Advance? && steps[k].f == f && states[k + 1].fibers[f].Returned?
    ensures states[k + 1].fibers[f] == Returned(r)
  {
    PromiseHeld(states, steps, j, k, c, r);
    ReturnsResult(states[k], f, steps[k].expire, steps[k].pick, states[k + 1]);
    RunKeeps(states, steps, k);
  }

  /** Whoever takes a Deferred on is the first to: until then nothing bound it. */
  lemma FirstToTakeOn(s: State, f: Fiber, expire: bool, pick: nat, s': State, c: Cell)
    requires Inv(s) && Inv(s') && f in s.fibers && AdvanceOf(s, f, expire, pick) == Some(s') && f in s'.fibers
    requires c in Owns(s'.fibers[f]) && c !in Owns(s.fibers[f])
    ensures Promise(s, c) == None && Promise(s', c) == OutcomeOf(s'.fibers[f])
  {
    StepEffect(s, f, expire, pick, s');
    HeldPromise(s', f, c);
    NotHeldBefore(s, f, s', c);
    StepResults(s, Advance(f, expire, pick), s');
  }

  /** Nobody else had taken it on, having stayed where they were. */
  lemma NotHeldBefore(s: State, f: Fiber, s': State, c: Cell)
    requires HolderOk(s) && HolderOk(s') && OwnersOk(s') && f in s'.fibers && c in Owns(s'.fibers[f])
    requires f in s.fibers && c !in Owns(s.fibers[f])
    requires forall g :: g in s.fibers && g != f ==> g in s'.fibers && s'.fibers[g] == s.fibers[g]
    ensures c !in s.holder && c !in s'.results
  {
    assert s'.holder[c] == f;
    forall g | g in s.fibers && g != f ensures c !in Owns(s.fibers[g]) {
      assert s'.fibers[g] == s.fibers[g];
    }
  }

  /** How a claimed request will be answered. */
  function ResultOf(answer: Answer): Result {
    match answer
    case ErrorAnswer(error) => Failed(error)
    case Answer(value, _, _) => Reply(value)
  }

  /** A response that claims its request binds the reply to what it carries. */
  lemma ResponseBinds(s: State, g: Fiber, expire: bool, pick: nat, s': State, id: nat, answer: Answer)
    requires HolderOk(s') && OwnersOk(s') && LostOk(s') && g in s.fibers && s.fibers[g] == ResponseClaiming(id, answer)
    requires AdvanceOf(s, g, expire, pick) == Some(s') && ClaimResponse(s.conn, id).0.Some?
    ensures Bound(s', s.conn.pending[id].reply, ResultOf(answer)) && s.conn.pending[id].reply !in s'.lost
  {
    var c := s.conn.pending[id].reply;
    assert s'.fibers[g] == Answered(id, s.conn.pending[id].(claimed := true), answer);
    assert c in Owns(s'.fibers[g]);
    HeldPromise(s', g, c);
    assert Settling(s', c);
  }

  /** In this step a response handler claims the request this reply answers. */
  ghost predicate Claims(s: State, step: Step, g: Fiber, id: nat, answer: Answer, c: Cell) {
    && step.Advance? && step.f == g && g in s.fibers && s.fibers[g] == ResponseClaiming(id, answer)
    && ClaimResponse(s.conn, id).0.Some? && s.conn.pending[id].reply == c
  }

  lemma RunClaims(states: seq<State>, steps: seq<Step>, j: nat, g: Fiber, id: nat, answer: Answer, c: Cell)
    requires Run(states, steps) && j < |steps| && Claims(states[j], steps[j], g, id, answer, c)
    ensures Bound(states[j + 1], c, ResultOf(answer)) && c !in states[j + 1].lost
  {
    RunKeeps(states, steps, j);
    RunKeeps(states, steps, j + 1);
    ResponseBinds(states[j], g, steps[j].expire, steps[j].pick, states[j + 1], id, answer);
  }

  /** A response that claims its request before the timeout drops it is the one the requester returns,
      even if its own timeout fires before the response is delivered. */
  lemma ClaimedResponseReturned(
    states: seq<State>, steps: seq<Step>, j: nat, k: nat, g: Fiber, id: nat, answer: Answer, f: Fiber, c: Cell)
    requires Run(states, steps) && j < k < |steps| && Claims(states[j], steps[j], g, id, answer, c)
    requires f in states[k].fibers && AwaitedBy(states[k].fibers[f]) == Some(c) && f in states[k + 1].fibers
    requires steps[k].Advance? && steps[k].f == f && states[k + 1].fibers[f].Returned?
    ensures states[k + 1].fibers[f] == Returned(ResultOf(answer))
  {
    RunClaims(states, steps, j, g, id, answer, c);
    FirstClaimReturned(states, steps, j + 1, k, f, c, ResultOf(answer));
  }

  /** A state with nobody in the middle of settling anything. */
  ghost predicate Quiet(s: State) {
    forall f :: f in s.fibers ==> Owns(s.fibers[f]) == {}
  }

  /** With no handler in flight, a turn is claimed exactly when it is completed, unless an aborted
      notification lost it; and a reply is completed exactly when its request is no longer waiting. */
  lemma QuietMeansSettled(states: seq<State>, steps: seq<Step>, k: nat)
    requires Run(states, steps) && k <= |steps| && Quiet(states[k])
    ensures var s := states[k];
            && (forall t :: t in s.conn.turns && s.conn.turns[t].settlement !in s.lost ==>
                  (s.conn.turns[t].claimed <==> s.conn.turns[t].settlement in s.results))
            && (forall c :: c in s.requests ==> (c in s.results <==> !Unclaimed(s, c)))
  {
    RunKeeps(states, steps, k);
    QuietSettled(states[k]);
  }

  lemma QuietSettled(s: State)
    requires HolderOk(s) && RequestsOk(s) && TurnsOk(s) && PendingOk(s) && Quiet(s)
    ensures forall t :: t in s.conn.turns && s.conn.turns[t].settlement !in s.lost ==>
              (s.conn.turns[t].claimed <==> s.conn.turns[t].settlement in s.results)
    ensures forall c :: c in s.requests ==> (c in s.results <==> !Unclaimed(s, c))
  {
    forall c ensures c !in s.holder {}
    forall t | t in s.conn.turns ensures TurnOk(s, t) {}
    forall c | c in s.requests && Unclaimed(s, c) ensures c !in s.results { assert EntryOk(s, s.requests[c]); }
  }

  /** Session failure binds every reply still waiting, and every turn not claimed before, to its error. */
  lemma FailureBinds(s: State, f: Fiber, error: AgentError, remember: bool, s': State, c: Cell)
    requires Inv(s) && Inv(s') && f in s.fibers && s.fibers[f] == FailClaiming(error, remember)
    requires s' == FailAll(s, f, error, remember)
    requires c in LeftBy(s)
    ensures Bound(s', c, Failed(error)) && c !in s'.lost
  {
    FailAllShape(s, f, error, remember, s');
    HeldPromise(s', f, c);
    assert Settling(s', c);
  }

  /** Session failure leaves nothing unbound: every reply and every turn there is has a result to come. */
  lemma FailureLeavesNothing(s: State, f: Fiber, error: AgentError, remember: bool, s': State)
    requires Inv(s) && Inv(s') && f in s.fibers && s.fibers[f] == FailClaiming(error, remember)
    requires s' == FailAll(s, f, error, remember)
    ensures s'.conn.pending == map[] && forall c :: c in s'.requests ==> Settling(s', c)
    ensures forall t :: t in s'.conn.turns ==> s'.conn.turns[t].claimed
    ensures s.conn.turnId.Some? ==> s.conn.turnId.value in s'.conn.turns
    ensures forall c :: c in s.requests && Unclaimed(s, c) ==> c in LeftBy(s)
  {
    forall c | c in s.requests && Unclaimed(s, c) ensures c in LeftBy(s) {
      assert c in Replies(s.conn.pending);
    }
  }
}
