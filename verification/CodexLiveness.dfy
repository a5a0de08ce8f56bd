/** Nobody is left waiting: from every reachable state there is a schedule, of the waiter and at most one
    other fiber, that ends the wait; the one exception is a turn an aborted notification lost. */
module CodexLiveness {
  import opened Options
  import opened ConnectionState
  import opened CodexSession
  import opened CodexInvariant
  import opened CodexSteps
  import opened CodexEffects
  import opened CodexWatch
  import opened CodexSafety
  import opened CodexTerminal

  function Apply(s: State, step: Step): Option<State> {
    match step
    case Spawn(f, pc) => if f !in s.fibers && Entry(pc) then Some(Move(s, f, pc)) else None
    case Advance(f, expire, pick) => if f in s.fibers then AdvanceOf(s, f, expire, pick) else None
    case Close => Some(s.(conn := s.conn.(closed := true)))
  }

  /** The state a schedule leads to, if every step of it can be taken. */
  function Play(s: State, steps: seq<Step>): Option<State>
    decreases |steps|
  {
    if steps == [] then Some(s)
    else
      var next := Apply(s, steps[0]);
      if next.None? then None else Play(next.value, steps[1..])
  }

  /** Every schedule that can be played continues a run. */
  lemma {:induction false} PlayContinues(states: seq<State>, steps: seq<Step>, more: seq<Step>) returns (longer: seq<State>)
    requires Run(states, steps) && Play(states[|steps|], more).Some?
    ensures Run(longer, steps + more) && longer[|steps| + |more|] == Play(states[|steps|], more).value
    ensures longer[..|states|] == states
    decreases |more|
  {
    if more == [] {
      assert steps + more == steps;
      longer := states;
    } else {
      var next := Apply(states[|steps|], more[0]).value;
      RunGrows(states, steps, more[0], next);
      longer := PlayContinues(states + [next], steps + [more[0]], more[1..]);
      assert (steps + [more[0]]) + more[1..] == steps + more;
    }
  }

  lemma RunGrows(states: seq<State>, steps: seq<Step>, step: Step, next: State)
    requires Run(states, steps) && Apply(states[|steps|], step) == Some(next)
    ensures Run(states + [next], steps + [step])
  {
    var longer, all := states + [next], steps + [step];
    forall k {:trigger all[k]} | 0 <= k < |all| ensures Next(longer[k], all[k], longer[k + 1]) {
      if k < |steps| { assert Next(states[k], steps[k], states[k + 1]); }
    }
  }

  lemma {:induction false} PlayAppends(s: State, first: seq<Step>, second: seq<Step>)
    requires Play(s, first).Some?
    ensures Play(s, first + second) == Play(Play(s, first).value, second)
    decreases |first|
  {
    if first == [] {
      assert first + second == second;
    } else {
      assert (first + second)[1..] == first[1..] + second;
      PlayAppends(Apply(s, first[0]).value, first[1..], second);
    }
  }

  /** How many steps of its own a fiber still needs to complete what it holds. */
  function Distance(pc: Pc): nat {
    match pc
    case FailingReply(_) => 1
    case ResponseAdopting(_, _, _, _, _) => 4
    case ResponseSelecting(_, _, _, _, _) => 3
    case ResponseStarting(_, _, _, _, _) => 2
    case ResponseSettling(_, _, _) => 1
    case FailSettling(_, _) => 1
    case SettleCompleting(_, _, _) => 1
    case NoteReading(_, _) => 4
    case NoteEnsuring(_, _, _) => 3
    case NoteStarting(_, _, _) => 2
    case NoteFinishing(_) => 1
    case _ => 0
  }

  /** A fiber that holds a Deferred is never blocked, on the lock or on anything else. */
  lemma OwnerAdvances(s: State, g: Fiber, c: Cell)
    requires g in s.fibers && c in Owns(s.fibers[g])
    ensures AdvanceOf(s, g, false, c).Some?
  {}

  lemma OwnerNears(s: State, g: Fiber, c: Cell, s': State)
    requires Inv(s) && g in s.fibers && c in Owns(s.fibers[g]) && AdvanceOf(s, g, false, c) == Some(s')
    requires !Losing(s, s.fibers[g], c)
    ensures c in s'.results
            || (&& g in s'.fibers && c in Owns(s'.fibers[g]) && !Losing(s', s'.fibers[g], c)
                && Distance(s'.fibers[g]) < Distance(s.fibers[g]))
  {
    StepEffect(s, g, false, c, s');
    var pc := s.fibers[g];
    assert KeepsWord(s, pc, CompletionOf(pc, c), s'.fibers[g], c);
    NearsAlone(s, g, c, s');
    StaysSafe(s, g, c, s');
  }

  /** A fiber comes to its second lookup only while a request is pending, so not after the session has
      failed for good. */
  lemma StaysSafe(s: State, g: Fiber, c: Cell, s': State)
    requires TerminalOk(s) && g in s.fibers && AdvanceOf(s, g, false, c) == Some(s') && g in s'.fibers
    requires c in Owns(s.fibers[g]) && !Losing(s, s.fibers[g], c)
    ensures !Losing(s', s'.fibers[g], c)
  {
    var pc := s.fibers[g];
    if RoleOf(pc).Notifier? {
      NoCountWithoutRequests(s.conn, 0);
      NotifierSafe(s, g, pc, s');
    } else {
      OthersSafe(s, g, c, s');
    }
  }

  lemma NotifierSafe(s: State, g: Fiber, pc: Pc, s': State)
    requires TerminalOk(s) && RoleOf(pc).Notifier? && Owns(pc) != {} && NotifierStep(s, g, pc) == Some(s')
    requires s.conn.pending == map[] ==> PendingTurnStartCount(s.conn).None?
    ensures g in s'.fibers && (s'.fibers[g].NoteEnsuring? ==> s'.conn.terminalError.None?)
  {}

  lemma OthersSafe(s: State, g: Fiber, c: Cell, s': State)
    requires g in s.fibers && !RoleOf(s.fibers[g]).Notifier? && c in Owns(s.fibers[g])
    requires AdvanceOf(s, g, false, c) == Some(s') && g in s'.fibers
    ensures !s'.fibers[g].NoteEnsuring?
  {}

  lemma {:induction false} NoCountWithoutRequests(c: Connection, id: nat)
    ensures c.pending == map[] ==> TurnStartCountFrom(c, id).None?
    decreases c.nextId - id
  {
    if id < c.nextId { NoCountWithoutRequests(c, id + 1); }
  }

  lemma NearsAlone(s: State, g: Fiber, c: Cell, s': State)
    requires g in s.fibers && c in Owns(s.fibers[g]) && AdvanceOf(s, g, false, c) == Some(s') && g in s'.fibers
    ensures c in Owns(s'.fibers[g]) ==> Distance(s'.fibers[g]) < Distance(s.fibers[g])
  {
    if RoleOf(s.fibers[g]).Notifier? { NotifierNears(s, g, s.fibers[g], s'); }
  }

  lemma NotifierNears(s: State, g: Fiber, pc: Pc, s': State)
    requires RoleOf(pc).Notifier? && Owns(pc) != {} && NotifierStep(s, g, pc) == Some(s')
    ensures g in s'.fibers && (Owns(s'.fibers[g]) == {} || Distance(s'.fibers[g]) < Distance(pc))
  {}

  /** A schedule of these fibers only. */
  predicate OnlyBy(steps: seq<Step>, fibers: set<Fiber>) {
    forall k {:trigger steps[k]} :: 0 <= k < |steps| ==> steps[k].Advance? && steps[k].f in fibers
  }

  ghost predicate Sound(s: State) {
    Inv(s) && Watched(s)
  }

  lemma AdvanceSound(s: State, f: Fiber, expire: bool, pick: nat, s': State)
    requires Sound(s) && f in s.fibers && AdvanceOf(s, f, expire, pick) == Some(s')
    ensures Sound(s')
  {
    AdvanceKeeps(s, f, expire, pick, s');
    AdvanceWatched(s, f, expire, pick, s');
  }

  /** What a schedule of one fiber leaves: a sound state, every other fiber where it was, and nothing
      completed or lost undone. */
  ghost predicate LeavesRest(s: State, g: Fiber, s': State) {
    && Sound(s') && g in s'.fibers && (forall h :: h in s.fibers && h != g ==> h in s'.fibers && s'.fibers[h] == s.fibers[h])
    && (forall c :: c in s.results ==> c in s'.results)
  }

  lemma AdvanceLeaves(s: State, g: Fiber, expire: bool, pick: nat, s': State)
    requires Sound(s) && g in s.fibers && AdvanceOf(s, g, expire, pick) == Some(s')
    ensures LeavesRest(s, g, s')
  {
    AdvanceSound(s, g, expire, pick, s');
    StepEffect(s, g, expire, pick, s');
    CompletionTakes(s, g, expire, pick, s');
  }

  /** One more step in front of a schedule. */
  lemma PlayFirst(s: State, f: Fiber, expire: bool, pick: nat, s': State, rest: seq<Step>)
    requires f in s.fibers && AdvanceOf(s, f, expire, pick) == Some(s')
    ensures Play(s, [Advance(f, expire, pick)] + rest) == Play(s', rest)
  {
    assert ([Advance(f, expire, pick)] + rest)[1..] == rest;
  }

  /** Whoever holds a Deferred, and is not about to lose it, can complete it on its own within four steps. */
  lemma {:induction false} OwnerFinishes(s: State, g: Fiber, c: Cell) returns (steps: seq<Step>, s': State)
    requires Sound(s) && g in s.fibers && c in Owns(s.fibers[g]) && !Losing(s, s.fibers[g], c)
    ensures Play(s, steps) == Some(s') && OnlyBy(steps, {g}) && |steps| <= Distance(s.fibers[g])
    ensures LeavesRest(s, g, s') && c in s'.results
    decreases Distance(s.fibers[g])
  {
    OwnerAdvances(s, g, c);
    var next := AdvanceOf(s, g, false, c).value;
    OwnerNears(s, g, c, next);
    AdvanceLeaves(s, g, false, c, next);
    var rest := [];
    s' := next;
    NearingTakesSteps(s, g, c);
    if c !in next.results { rest, s' := OwnerFinishes(next, g, c); }
    PlayFirst(s, g, false, c, next, rest);
    steps := [Advance(g, false, c)] + rest;
  }

  lemma NearingTakesSteps(s: State, g: Fiber, c: Cell)
    requires g in s.fibers && c in Owns(s.fibers[g])
    ensures Distance(s.fibers[g]) > 0
  {}

  function GuardDistance(pc: Pc): nat {
    if pc.TimerArmed? then 3 else if pc.SettleSelecting? then 2 else 1
  }

  ghost predicate Open(s: State, turnId: string, c: Cell) {
    Named(s.conn, turnId, c) && !s.conn.turns[turnId].claimed
  }

  lemma GuardNears(s: State, g: Fiber, turnId: string, c: Cell)
    requires g in s.fibers && Guards(s.fibers[g], turnId) && PcWatched(s.conn, s.fibers[g]) && Open(s, turnId, c)
    ensures var next := AdvanceOf(s, g, true, 0);
            && next.Some? && g in next.value.fibers
            && (|| (c in Owns(next.value.fibers[g]) && !next.value.fibers[g].NoteEnsuring?)
                || (Guards(next.value.fibers[g], turnId) && Open(next.value, turnId, c)
                    && GuardDistance(next.value.fibers[g]) < GuardDistance(s.fibers[g])))
  {}

  /** The silence timer of an unclaimed turn can run out, and then claims the turn. */
  lemma {:induction false} GuardClaims(s: State, g: Fiber, turnId: string, c: Cell) returns (steps: seq<Step>, s': State)
    requires Sound(s) && g in s.fibers && Guards(s.fibers[g], turnId) && Open(s, turnId, c)
    ensures Play(s, steps) == Some(s') && OnlyBy(steps, {g}) && LeavesRest(s, g, s')
    ensures c in Owns(s'.fibers[g]) && !s'.fibers[g].NoteEnsuring?
    decreases GuardDistance(s.fibers[g])
  {
    assert PcWatched(s.conn, s.fibers[g]);
    GuardNears(s, g, turnId, c);
    var next := AdvanceOf(s, g, true, 0).value;
    AdvanceLeaves(s, g, true, 0, next);
    var rest := [];
    s' := next;
    if c !in Owns(next.fibers[g]) || next.fibers[g].NoteEnsuring? { rest, s' := GuardClaims(next, g, turnId, c); }
    PlayFirst(s, g, true, 0, next, rest);
    steps := [Advance(g, true, 0)] + rest;
  }

  /** How a wait ends, with somebody's help if that is what it takes. */
  ghost predicate Ends(s: State, steps: seq<Step>, s': State, f: Fiber, g: Fiber) {
    Play(s, steps) == Some(s') && OnlyBy(steps, {f, g}) && f in s'.fibers && s'.fibers[f].Returned?
  }

  lemma DoneEnds(s: State, f: Fiber, c: Cell) returns (steps: seq<Step>, s': State)
    requires f in s.fibers && AwaitedBy(s.fibers[f]) == Some(c) && c in s.results
    ensures Ends(s, steps, s', f, f)
  {
    steps, s' := [Advance(f, false, 0)], AdvanceOf(s, f, false, 0).value;
    assert Play(s, steps) == Some(s');
  }

  lemma OwnedEnds(s: State, f: Fiber, g: Fiber, c: Cell) returns (steps: seq<Step>, s': State)
    requires Sound(s) && f in s.fibers && AwaitedBy(s.fibers[f]) == Some(c) && g in s.fibers && c in Owns(s.fibers[g])
    requires !Losing(s, s.fibers[g], c)
    ensures Ends(s, steps, s', f, g)
  {
    var first, middle := OwnerFinishes(s, g, c);
    assert f != g && middle.fibers[f] == s.fibers[f];
    var last;
    last, s' := DoneEnds(middle, f, c);
    PlayAppends(s, first, last);
    steps := first + last;
  }

  /** A request nobody has claimed can be expired by its own requester. */
  lemma UnclaimedEnds(s: State, f: Fiber, id: nat, c: Cell) returns (steps: seq<Step>, s': State)
    requires Sound(s) && f in s.fibers && s.fibers[f] == Awaiting(id, c) && !Settling(s, c)
    ensures Ends(s, steps, s', f, f)
  {
    var first, second := ExpiresAlone(s, f, id, c);
    var rest;
    rest, s' := FailsAlone(second, f, c);
    PlayFirst(first, f, false, 0, second, rest);
    PlayFirst(s, f, true, 0, first, [Advance(f, false, 0)] + rest);
    steps := [Advance(f, true, 0)] + ([Advance(f, false, 0)] + rest);
  }

  lemma ExpiresAlone(s: State, f: Fiber, id: nat, c: Cell) returns (first: State, second: State)
    requires Sound(s) && f in s.fibers && s.fibers[f] == Awaiting(id, c) && !Settling(s, c)
    ensures AdvanceOf(s, f, true, 0) == Some(first) && f in first.fibers && AdvanceOf(first, f, false, 0) == Some(second)
    ensures f in second.fibers && second.fibers[f] == FailingReply(c)
  {
    assert PcOk(s, s.fibers[f]);
    assert Unclaimed(s, c);
    first := AdvanceOf(s, f, true, 0).value;
    second := AdvanceOf(first, f, false, 0).value;
  }

  lemma FailsAlone(s: State, f: Fiber, c: Cell) returns (steps: seq<Step>, s': State)
    requires f in s.fibers && s.fibers[f] == FailingReply(c)
    ensures Ends(s, steps, s', f, f)
  {
    var next := AdvanceOf(s, f, false, 0).value;
    s' := AdvanceOf(next, f, false, 0).value;
    PlayFirst(next, f, false, 0, s', []);
    PlayFirst(s, f, false, 0, next, [Advance(f, false, 0)] + []);
    steps := [Advance(f, false, 0)] + ([Advance(f, false, 0)] + []);
  }

  /** A turn nobody has claimed is being timed on behalf of whoever awaits it. */
  lemma UnclaimedTurnEnds(s: State, f: Fiber, turnId: string, c: Cell) returns (steps: seq<Step>, s': State, g: Fiber)
    requires Sound(s) && f in s.fibers && s.fibers[f] == TurnAwaiting(turnId, c) && !Settling(s, c) && c !in s.lost
    ensures Ends(s, steps, s', f, g)
  {
    g := GuardOf(s, f, turnId, c);
    var first, middle := GuardClaims(s, g, turnId, c);
    assert f != g && middle.fibers[f] == s.fibers[f];
    var last;
    last, s' := OwnedEnds(middle, f, g, c);
    PlayAppends(s, first, last);
    steps := first + last;
  }

  lemma GuardOf(s: State, f: Fiber, turnId: string, c: Cell) returns (g: Fiber)
    requires Sound(s) && f in s.fibers && s.fibers[f] == TurnAwaiting(turnId, c) && !Settling(s, c) && c !in s.lost
    ensures g in s.fibers && g != f && Guards(s.fibers[g], turnId) && Open(s, turnId, c)
  {
    assert PcWatched(s.conn, s.fibers[f]);
    assert TurnOk(s, turnId) && TurnWatched(s, turnId);
    g :| g in s.fibers && Guards(s.fibers[g], turnId);
  }

  /** Lost, or about to be: held by a notification whose next step can only drop it. */
  ghost predicate Doomed(s: State, c: Cell) {
    c in s.lost || exists g :: g in s.fibers && Losing(s, s.fibers[g], c)
  }

  /** From every reachable state, whoever waits for a reply or a turn can be brought to return by the
      steps of that fiber and at most one other, unless a notification has dropped the turn or is about
      to. */
  lemma NobodyIsStuck(s: State, f: Fiber, c: Cell) returns (steps: seq<Step>, s': State, g: Fiber)
    requires Sound(s) && f in s.fibers && AwaitedBy(s.fibers[f]) == Some(c) && !Doomed(s, c)
    ensures Ends(s, steps, s', f, g)
  {
    g := f;
    if c in s.results {
      steps, s' := DoneEnds(s, f, c);
    } else if c in s.holder {
      g := s.holder[c];
      steps, s' := OwnedEnds(s, f, g, c);
    } else if s.fibers[f].TurnAwaiting? {
      steps, s', g := UnclaimedTurnEnds(s, f, s.fibers[f].turnId, c);
    } else {
      AwaitingWhenOpen(s, f, c);
      steps, s' := UnclaimedEnds(s, f, s.fibers[f].id, c);
    }
  }

  lemma AwaitingWhenOpen(s: State, f: Fiber, c: Cell)
    requires Inv(s) && f in s.fibers && AwaitedBy(s.fibers[f]) == Some(c) && !Settling(s, c) && !s.fibers[f].TurnAwaiting?
    ensures s.fibers[f].Awaiting?
  {
    assert PcOk(s, s.fibers[f]);
  }

  /** A reply is never lost, so a requester always returns. */
  lemma RequesterReturns(s: State, f: Fiber, c: Cell) returns (steps: seq<Step>, s': State, g: Fiber)
    requires Sound(s) && f in s.fibers && (s.fibers[f].Awaiting? || s.fibers[f].AwaitingSettled?) && s.fibers[f].reply == c
    ensures Ends(s, steps, s', f, g)
  {
    RepliesAreSafe(s, f, c);
    steps, s', g := NobodyIsStuck(s, f, c);
  }

  lemma RepliesAreSafe(s: State, f: Fiber, c: Cell)
    requires FibersOk(s) && LostOk(s) && f in s.fibers && AwaitedBy(s.fibers[f]) == Some(c) && !s.fibers[f].TurnAwaiting?
    ensures !Doomed(s, c)
  {
    assert PcOk(s, s.fibers[f]);
    forall g | g in s.fibers ensures !Losing(s, s.fibers[g], c) { assert PcOk(s, s.fibers[g]); }
  }

  /** A turn that is doomed stays so, and is never completed. */
  lemma StepDoomed(s: State, step: Step, s': State, c: Cell)
    requires Inv(s) && Watched(s) && Next(s, step, s') && Doomed(s, c)
    ensures Doomed(s', c)
  {
    if c in s.lost {
      StepLost(s, step, s');
    } else {
      var g :| g in s.fibers && Losing(s, s.fibers[g], c);
      StepLosing(s, step, s', g, c);
    }
  }

  lemma StepLosing(s: State, step: Step, s': State, g: Fiber, c: Cell)
    requires Inv(s) && FlightNamed(s.conn) && Next(s, step, s') && g in s.fibers && Losing(s, s.fibers[g], c)
    ensures c in s'.lost || (g in s'.fibers && Losing(s', s'.fibers[g], c))
  {
    StepLasts(s, step, s');
    if step.Advance? {
      StepEffect(s, step.f, step.expire, step.pick, s');
      LosesExactly(s, step.f, step.expire, step.pick, s', c);
    }
  }

  lemma DoomedIsOpen(s: State, c: Cell)
    requires HolderOk(s) && OwnersOk(s) && LostOk(s) && Doomed(s, c)
    ensures c !in s.results
  {
    if c !in s.lost {
      var g :| g in s.fibers && Losing(s, s.fibers[g], c);
      assert c in Owns(s.fibers[g]);
    }
  }

  lemma {:induction false} DoomedForever(states: seq<State>, steps: seq<Step>, j: nat, k: nat, c: Cell)
    requires Run(states, steps) && j <= k <= |steps| && Doomed(states[j], c)
    ensures Doomed(states[k], c) && c !in states[k].results
    decreases k
  {
    if j < k {
      DoomedForever(states, steps, j, k - 1, c);
      RunDoomed(states, steps, k - 1, c);
    }
    RunKeeps(states, steps, k);
    DoomedIsOpen(states[k], c);
  }

  lemma RunDoomed(states: seq<State>, steps: seq<Step>, k: nat, c: Cell)
    requires Run(states, steps) && k < |steps| && Doomed(states[k], c)
    ensures Doomed(states[k + 1], c)
  {
    RunWatched(states, steps, k);
    StepDoomed(states[k], steps[k], states[k + 1], c);
  }

  /** Whoever awaits a doomed turn is still waiting at every later moment. */
  lemma {:induction false} DoomedAwaiterHangs(
    states: seq<State>, steps: seq<Step>, j: nat, k: nat, f: Fiber, turnId: string, c: Cell)
    requires Run(states, steps) && j <= k <= |steps| && Doomed(states[j], c)
    requires f in states[j].fibers && states[j].fibers[f] == TurnAwaiting(turnId, c)
    ensures f in states[k].fibers && states[k].fibers[f] == TurnAwaiting(turnId, c)
    decreases k
  {
    if j < k {
      DoomedAwaiterHangs(states, steps, j, k - 1, f, turnId, c);
      DoomedForever(states, steps, j, k - 1, c);
      RunHangs(states, steps, k - 1, f, turnId, c);
    }
  }

  /** A run that goes on from this one until the fiber returns. */
  ghost predicate ReturnsIn(states: seq<State>, steps: seq<Step>, f: Fiber, longer: seq<State>, more: seq<Step>) {
    && Run(longer, steps + more) && |states| <= |longer| && longer[..|states|] == states
    && f in longer[|steps| + |more|].fibers && longer[|steps| + |more|].fibers[f].Returned?
  }

  ghost predicate CanReturn(states: seq<State>, steps: seq<Step>, f: Fiber) {
    exists longer, more :: ReturnsIn(states, steps, f, longer, more)
  }

  /** THE WAIT. After any run, whoever waits for a reply or a turn can still return if and only if no
      notification has dropped what it waits for, or holds it and is about to. */
  lemma WaitCanEndIffNotDoomed(states: seq<State>, steps: seq<Step>, f: Fiber, c: Cell)
    requires Run(states, steps) && f in states[|steps|].fibers && AwaitedBy(states[|steps|].fibers[f]) == Some(c)
    ensures CanReturn(states, steps, f) <==> !Doomed(states[|steps|], c)
  {
    if Doomed(states[|steps|], c) {
      forall longer, more ensures !ReturnsIn(states, steps, f, longer, more) {
        NeverReturns(states, steps, f, c, longer, more);
      }
    } else {
      var longer, more, _ := EveryWaitCanEnd(states, steps, f, c);
      assert ReturnsIn(states, steps, f, longer, more);
    }
  }

  lemma NeverReturns(states: seq<State>, steps: seq<Step>, f: Fiber, c: Cell, longer: seq<State>, more: seq<Step>)
    requires Run(states, steps) && f in states[|steps|].fibers && AwaitedBy(states[|steps|].fibers[f]) == Some(c)
    requires Doomed(states[|steps|], c)
    ensures !ReturnsIn(states, steps, f, longer, more)
  {
    RunKeeps(states, steps, |steps|);
    OnlyTurnsAreDoomed(states[|steps|], f, c);
    if Run(longer, steps + more) && |states| <= |longer| && longer[..|states|] == states {
      assert longer[|steps|] == longer[..|states|][|steps|];
      DoomedAwaiterHangs(longer, steps + more, |steps|, |steps| + |more|, f, states[|steps|].fibers[f].turnId, c);
    }
  }

  lemma OnlyTurnsAreDoomed(s: State, f: Fiber, c: Cell)
    requires FibersOk(s) && LostOk(s) && f in s.fibers && AwaitedBy(s.fibers[f]) == Some(c) && Doomed(s, c)
    ensures s.fibers[f].TurnAwaiting?
  {
    assert s.fibers[f].TurnAwaiting? || !Doomed(s, c) by {
      if !s.fibers[f].TurnAwaiting? { RepliesAreSafe(s, f, c); }
    }
  }

  /** Every run can be continued so that a given wait ends, unless what it waits for is doomed. */
  lemma EveryWaitCanEnd(states: seq<State>, steps: seq<Step>, f: Fiber, c: Cell)
    returns (longer: seq<State>, more: seq<Step>, g: Fiber)
    requires Run(states, steps) && f in states[|steps|].fibers && AwaitedBy(states[|steps|].fibers[f]) == Some(c)
    requires !Doomed(states[|steps|], c)
    ensures Run(longer, steps + more) && OnlyBy(more, {f, g}) && longer[..|states|] == states
    ensures var s' := longer[|steps| + |more|]; f in s'.fibers && s'.fibers[f].Returned?
  {
    RunWatched(states, steps, |steps|);
    var s';
    more, s', g := NobodyIsStuck(states[|steps|], f, c);
    longer := PlayContinues(states, steps, more);
  }

  /** When every notification names one turn, every wait can end. */
  lemma EveryWaitReturns(states: seq<State>, steps: seq<Step>, f: Fiber, c: Cell)
    returns (longer: seq<State>, more: seq<Step>, g: Fiber)
    requires Run(states, steps) && AgreeingRun(steps)
    requires f in states[|steps|].fibers && AwaitedBy(states[|steps|].fibers[f]) == Some(c)
    ensures Run(longer, steps + more) && OnlyBy(more, {f, g})
    ensures var s' := longer[|steps| + |more|]; f in s'.fibers && s'.fibers[f].Returned?
  {
    AgreeingNeverLoses(states, steps, |steps|);
    var s := states[|steps|];
    forall h | h in s.fibers ensures !Losing(s, s.fibers[h], c) { assert AgreedPc(s.conn, s.fibers[h]); }
    longer, more, g := EveryWaitCanEnd(states, steps, f, c);
  }

  /** How far a fiber is from releasing the lock, apart from what a session failure has left to settle. */
  function LockDistance(pc: Pc): nat {
    match pc
    case ResponseClaiming(_, _) => 8
    case ResponseAdopting(_, _, _, _, _) => 7
    case ResponseSelecting(_, _, _, _, _) => 6
    case ResponseStarting(_, _, _, _, _) => 5
    case ResponseSettling(_, _, _) => 4
    case ResponseRemoving(_, _) => 3
    case ResponseReleasing => 2
    case FailClaiming(_, _) => 2
    case _ => 1
  }

  function LeftToSettle(pc: Pc): set<Cell> {
    if pc.FailSettling? then pc.left else {}
  }

  predicate Pickable(pc: Pc, pick: Cell) {
    LeftToSettle(pc) == {} || pick in LeftToSettle(pc)
  }

  lemma LockNears(s: State, f: Fiber, pick: Cell)
    requires f in s.fibers && InLock(s.fibers[f]) && s.lock == Some(f) && Pickable(s.fibers[f], pick)
    ensures var pc, next := s.fibers[f], AdvanceOf(s, f, false, pick);
            && next.Some? && f in next.value.fibers
            && (|| next.value.lock.None?
                || (&& next.value.lock == Some(f) && InLock(next.value.fibers[f])
                    && (|| LockDistance(next.value.fibers[f]) < LockDistance(pc)
                        || (&& LockDistance(next.value.fibers[f]) == LockDistance(pc)
                            && LeftToSettle(next.value.fibers[f]) < LeftToSettle(pc)))))
  {
    match RoleOf(s.fibers[f]) {
      case Responder => ResponderNears(s, f, s.fibers[f]);
      case Failer =>
    }
  }

  lemma ResponderNears(s: State, f: Fiber, pc: Pc)
    requires RoleOf(pc).Responder? && InLock(pc) && s.lock == Some(f)
    ensures var next := ResponderStep(s, f, pc);
            && next.Some? && f in next.value.fibers
            && (|| next.value.lock.None?
                || (&& next.value.lock == Some(f) && InLock(next.value.fibers[f])
                    && LockDistance(next.value.fibers[f]) < LockDistance(pc)))
  {}

  /** Whoever has the lifecycle semaphore can release it by its own steps alone, so every response and
      every session failure waiting for it gets its turn. */
  lemma {:induction false} LockComesFree(s: State, f: Fiber) returns (steps: seq<Step>, s': State)
    requires f in s.fibers && InLock(s.fibers[f]) && s.lock == Some(f)
    ensures Play(s, steps) == Some(s') && OnlyBy(steps, {f}) && s'.lock.None?
    decreases LockDistance(s.fibers[f]), LeftToSettle(s.fibers[f])
  {
    var pick := 0;
    if LeftToSettle(s.fibers[f]) != {} { pick :| pick in LeftToSettle(s.fibers[f]); }
    LockNears(s, f, pick);
    var next := AdvanceOf(s, f, false, pick).value;
    var rest := [];
    s' := next;
    if next.lock.Some? { rest, s' := LockComesFree(next, f); }
    PlayFirst(s, f, false, pick, next, rest);
    steps := [Advance(f, false, pick)] + rest;
  }
}
