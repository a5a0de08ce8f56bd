/** The coordinator's registry: a state cell replaced as a whole by reloads, with every published
    status fenced by the generation its lease was taken under. */
module Registry {
  import opened Options

  datatype EntryStatus = NotConnected | Unavailable

  datatype EntryLease = EntryLease(id: string, generation: nat)

  /** The cell. `scope` names the child scope the installed generation runs in. */
  datatype Active = Active(
    nextGeneration: nat, generation: nat, entries: seq<string>, statuses: map<string, EntryStatus>, scope: nat)

  function LeaseOf(current: Active, id: string): Option<EntryLease> {
    if id in current.entries then Some(EntryLease(id, current.generation)) else None
  }

  predicate Accepts(current: Active, lease: EntryLease) {
    current.generation == lease.generation && lease.id in current.entries
  }

  function Published(current: Active, lease: EntryLease, status: EntryStatus): Active {
    if Accepts(current, lease) then current.(statuses := current.statuses[lease.id := status]) else current
  }

  function Numbered(current: Active): Active {
    current.(nextGeneration := current.nextGeneration + 1)
  }

  function Installed(current: Active, generation: nat, entries: seq<string>, scope: nat): Active {
    current.(generation := generation, entries := entries, statuses := map[], scope := scope)
  }

  /** The state cell, each method one atomic update or read of it. */
  class ActiveRegistry {
    var nextGeneration: nat
    var generation: nat
    var entries: seq<string>
    var statuses: map<string, EntryStatus>
    var scope: nat

    ghost function View(): Active reads this {
      Active(nextGeneration, generation, entries, statuses, scope)
    }

    constructor (initialScope: nat)
      ensures View() == INITIAL.cell.(scope := initialScope)
    {
      nextGeneration, generation, entries, statuses, scope := 1, 0, [], map[], initialScope;
    }

    method Lease(id: string) returns (lease: Option<EntryLease>)
      ensures lease == LeaseOf(View(), id)
    {
      if id in entries {
        return Some(EntryLease(id, generation));
      }
      return None;
    }

    method Publish(lease: EntryLease, status: EntryStatus) returns (accepted: bool)
      modifies this
      ensures accepted == Accepts(old(View()), lease)
      ensures View() == Published(old(View()), lease, status)
    {
      if generation != lease.generation || lease.id !in entries {
        return false;
      }
      statuses := statuses[lease.id := status];
      return true;
    }

    /** Even a failed preparation consumes its generation. */
    method TakeGeneration() returns (taken: nat)
      modifies this
      ensures taken == old(nextGeneration) && View() == Numbered(old(View()))
    {
      taken := nextGeneration;
      nextGeneration := nextGeneration + 1;
    }

    method Install(taken: nat, prepared: seq<string>, staged: nat) returns (retired: nat)
      modifies this
      ensures retired == old(scope) && View() == Installed(old(View()), taken, prepared, staged)
    {
      retired := scope;
      generation, entries, statuses, scope := taken, prepared, map[], staged;
    }
  }

  /** Where the one reload the semaphore lets run has got to. */
  datatype Phase =
    | Idle
    | Decoding
    | Forking(entries: seq<string>, generation: nat)
    | Preparing(entries: seq<string>, generation: nat, staged: nat)
    | Abandoning(staged: nat)
    | Retiring(retired: nat)

  /** The cell, the reload in progress, the child scopes forked so far, those still open, and every
      closing there has been. */
  datatype State = State(cell: Active, reload: Phase, forked: nat, open: set<nat>, closings: seq<nat>)

  datatype Step =
    | Begin
    | RejectInput
    | Number(entries: seq<string>)
    | Fork
    | FailPreparation
    | CloseStaged
    | Replace
    | CloseRetired
    | Publish(lease: EntryLease, status: EntryStatus)

  const INITIAL := State(Active(1, 0, [], map[], 0), Idle, 1, {0}, [])

  ghost predicate Next(s: State, step: Step, s': State) {
    match step
    case Begin => s.reload.Idle? && s' == s.(reload := Decoding)
    case RejectInput => s.reload.Decoding? && s' == s.(reload := Idle)
    case Number(entries) =>
      && s.reload.Decoding?
      && s' == s.(cell := Numbered(s.cell), reload := Forking(entries, s.cell.nextGeneration))
    case Fork =>
      && s.reload.Forking?
      && s' == s.(reload := Preparing(s.reload.entries, s.reload.generation, s.forked),
                  forked := s.forked + 1, open := s.open + {s.forked})
    case FailPreparation => s.reload.Preparing? && s' == s.(reload := Abandoning(s.reload.staged))
    case CloseStaged =>
      && s.reload.Abandoning?
      && s' == s.(reload := Idle, open := s.open - {s.reload.staged}, closings := s.closings + [s.reload.staged])
    case Replace =>
      && s.reload.Preparing?
      && s' == s.(cell := Installed(s.cell, s.reload.generation, s.reload.entries, s.reload.staged),
                  reload := Retiring(s.cell.scope))
    case CloseRetired =>
      && s.reload.Retiring?
      && s' == s.(reload := Idle, open := s.open - {s.reload.retired}, closings := s.closings + [s.reload.retired])
    case Publish(lease, status) => s' == s.(cell := Published(s.cell, lease, status))
  }

  ghost predicate Run(states: seq<State>, steps: seq<Step>) {
    && |states| == |steps| + 1 && states[0] == INITIAL
    && forall k {:trigger steps[k]} :: 0 <= k < |steps| ==> Next(states[k], steps[k], states[k + 1])
  }

  /** The scopes a reload holds besides the installed one. */
  function Extra(reload: Phase): set<nat> {
    match reload
    case Preparing(_, _, staged) => {staged}
    case Abandoning(staged) => {staged}
    case Retiring(retired) => {retired}
    case _ => {}
  }

  ghost predicate ClosedOnce(s: State) {
    forall scope: nat :: multiset(s.closings)[scope] == if scope < s.forked && scope !in s.open then 1 else 0
  }

  /** Exactly the installed scope is open, and whatever a reload in progress holds; every other scope
      ever forked was closed exactly once; and a generation being prepared is newer than any other. */
  ghost predicate Inv(s: State) {
    && s.cell.scope < s.forked && s.cell.scope !in Extra(s.reload)
    && (forall scope :: scope in Extra(s.reload) ==> scope < s.forked)
    && s.open == {s.cell.scope} + Extra(s.reload)
    && ClosedOnce(s)
    && s.cell.generation < s.cell.nextGeneration
    && (s.reload.Forking? || s.reload.Preparing? ==>
          s.cell.generation < s.reload.generation < s.cell.nextGeneration)
    && (forall id :: id in s.cell.statuses ==> id in s.cell.entries)
  }

  predicate Pending(s: State, generation: nat) {
    (s.reload.Forking? || s.reload.Preparing?) && s.reload.generation == generation
  }

  lemma NextKeeps(s: State, step: Step, s': State)
    requires Inv(s) && Next(s, step, s')
    ensures Inv(s')
  {
    if step.CloseStaged? {
      ClosingOnce(s, s.reload.staged, s');
    } else if step.CloseRetired? {
      ClosingOnce(s, s.reload.retired, s');
    } else {
      assert s'.closings == s.closings;
      assert ClosedOnce(s');
    }
  }

  lemma ClosingOnce(s: State, scope: nat, s': State)
    requires ClosedOnce(s) && scope in s.open && scope < s.forked
    requires s'.forked == s.forked && s'.open == s.open - {scope} && s'.closings == s.closings + [scope]
    ensures ClosedOnce(s')
  {
    forall x: nat ensures multiset(s'.closings)[x] == multiset(s.closings)[x] + if x == scope then 1 else 0 {
      assert multiset(s'.closings) == multiset(s.closings) + multiset{scope};
    }
  }

  lemma {:induction false} RunKeeps(states: seq<State>, steps: seq<Step>, k: nat)
    requires Run(states, steps) && k < |states|
    ensures Inv(states[k])
  {
    if k > 0 {
      RunKeeps(states, steps, k - 1);
      NextKeeps(states[k - 1], steps[k - 1], states[k]);
    }
  }

  /** Outside a reload exactly one child scope is open, and every other was closed exactly once. */
  lemma OneScopeOpen(states: seq<State>, steps: seq<Step>, k: nat)
    requires Run(states, steps) && k < |states| && states[k].reload.Idle?
    ensures states[k].open == {states[k].cell.scope}
    ensures forall scope: nat :: scope < states[k].forked && scope != states[k].cell.scope ==>
              multiset(states[k].closings)[scope] == 1
  {
    RunKeeps(states, steps, k);
  }

  /** Numbered, and neither installed nor still on its way: failed or retired. */
  ghost predicate Dead(s: State, generation: nat) {
    generation < s.cell.nextGeneration && generation != s.cell.generation && !Pending(s, generation)
  }

  lemma DeadStays(s: State, step: Step, s': State, generation: nat)
    requires Inv(s) && Next(s, step, s') && Dead(s, generation)
    ensures Dead(s', generation)
  {}

  /** What kills a generation: the failure of its own preparation, or another taking its place. */
  lemma WhatDies(s: State, step: Step, s': State)
    requires Inv(s) && Next(s, step, s')
    ensures step.FailPreparation? ==> Dead(s', s.reload.generation)
    ensures step.Replace? ==> Dead(s', s.cell.generation)
  {}

  /** A failed or retired generation is never accepted again, whatever runs meanwhile. */
  lemma {:induction false} NeverAcceptedAgain(states: seq<State>, steps: seq<Step>, i: nat, j: nat, lease: EntryLease)
    requires Run(states, steps) && i <= j < |states| && Dead(states[i], lease.generation)
    ensures Dead(states[j], lease.generation) && !Accepts(states[j].cell, lease)
    decreases j
  {
    if i < j {
      NeverAcceptedAgain(states, steps, i, j - 1, lease);
      RunDead(states, steps, j - 1, lease.generation);
    }
  }

  lemma RunDead(states: seq<State>, steps: seq<Step>, k: nat, generation: nat)
    requires Run(states, steps) && k < |steps| && Dead(states[k], generation)
    ensures Dead(states[k + 1], generation)
  {
    RunKeeps(states, steps, k);
    DeadStays(states[k], steps[k], states[k + 1], generation);
  }

  /** In particular neither a generation whose own preparation failed nor one that was replaced is. */
  lemma FencedOff(states: seq<State>, steps: seq<Step>, i: nat, j: nat, lease: EntryLease)
    requires Run(states, steps) && i < j <= |steps|
    requires (steps[i].FailPreparation? && lease.generation == states[i].reload.generation)
             || (steps[i].Replace? && lease.generation == states[i].cell.generation)
    ensures !Accepts(states[j].cell, lease)
  {
    RunKeeps(states, steps, i);
    WhatDies(states[i], steps[i], states[i + 1]);
    NeverAcceptedAgain(states, steps, i + 1, j, lease);
  }

  ghost predicate Replaces(steps: seq<Step>, i: nat, j: nat)
    requires i <= j <= |steps|
  {
    exists k :: i <= k < j && steps[k].Replace?
  }

  /** A cell after the publications among some steps, each accepted or refused as it came. */
  function AllPublished(current: Active, steps: seq<Step>): Active
    decreases |steps|
  {
    if steps == [] then current
    else
      var before := AllPublished(current, steps[..|steps| - 1]);
      match steps[|steps| - 1]
      case Publish(lease, status) => Published(before, lease, status)
      case _ => before
  }

  /** However far reloads get, as long as none is installed the registry serves what it served: the
      same entries under the same generation, and the same statuses but for those published, each of
      which it accepts or refuses as if no reload were going on. */
  lemma {:induction false} FailedReloadsChangeNothing(states: seq<State>, steps: seq<Step>, i: nat, j: nat)
    requires Run(states, steps) && i <= j <= |steps| && !Replaces(steps, i, j)
    ensures states[j].cell.generation == states[i].cell.generation
    ensures states[j].cell.entries == states[i].cell.entries && states[j].cell.scope == states[i].cell.scope
    ensures states[j].cell.statuses == AllPublished(states[i].cell, steps[i..j]).statuses
    ensures states[j].cell == AllPublished(states[i].cell, steps[i..j]).(nextGeneration := states[j].cell.nextGeneration)
    decreases j
  {
    if i < j {
      assert !Replaces(steps, i, j - 1) by {
        forall k | i <= k < j - 1 ensures !steps[k].Replace? {}
      }
      FailedReloadsChangeNothing(states, steps, i, j - 1);
      assert Next(states[j - 1], steps[j - 1], states[j]);
      PublishedNext(states[i].cell, steps, i, j);
      SameButNumbers(states[i].cell, steps[i..j - 1]);
    }
  }

  lemma PublishedNext(current: Active, steps: seq<Step>, i: nat, j: nat)
    requires i < j <= |steps|
    ensures var before, after := AllPublished(current, steps[i..j - 1]), AllPublished(current, steps[i..j]);
            after == match steps[j - 1] case Publish(lease, status) => Published(before, lease, status) case _ => before
  {
    assert steps[i..j][..j - 1 - i] == steps[i..j - 1] && steps[i..j][j - 1 - i] == steps[j - 1];
  }

  /** Publications leave generation, entries and scope alone. */
  lemma {:induction false} SameButNumbers(current: Active, steps: seq<Step>)
    ensures var after := AllPublished(current, steps);
            after.generation == current.generation && after.entries == current.entries && after.scope == current.scope
    decreases |steps|
  {
    if steps != [] { SameButNumbers(current, steps[..|steps| - 1]); }
  }

  /** An accepted publication stands until one to the same entry is accepted, or a reload is installed. */
  lemma {:induction false} LatestStands(
    states: seq<State>, steps: seq<Step>, i: nat, j: nat, lease: EntryLease, status: EntryStatus)
    requires Run(states, steps) && i < j <= |steps| && !Replaces(steps, i, j)
    requires steps[i] == Publish(lease, status)
    requires lease.generation == states[i].cell.generation && lease.id in states[i].cell.entries
    requires forall k {:trigger steps[k]} :: i < k < j && steps[k].Publish? ==> steps[k].lease.id != lease.id
    ensures lease.id in states[j].cell.statuses && states[j].cell.statuses[lease.id] == status
    decreases j
  {
    assert Next(states[j - 1], steps[j - 1], states[j]);
    assert !steps[j - 1].Replace?;
    if i < j - 1 {
      forall k | i <= k < j - 1 ensures !steps[k].Replace? {}
      LatestStands(states, steps, i, j - 1, lease, status);
      assert steps[j - 1].Publish? ==> steps[j - 1].lease.id != lease.id;
    }
  }

  /** A publication under any other lease changes nothing, and an installed reload starts with none. */
  lemma NothingElseRecorded(states: seq<State>, steps: seq<Step>, k: nat)
    requires Run(states, steps) && k < |steps|
    ensures steps[k].Publish?
            && !(steps[k].lease.generation == states[k].cell.generation && steps[k].lease.id in states[k].cell.entries) ==>
              states[k + 1].cell == states[k].cell
    ensures steps[k].Replace? ==>
              && states[k + 1].cell.statuses == map[] && states[k + 1].cell.entries == states[k].reload.entries
              && states[k + 1].cell.generation == states[k].reload.generation && states[k + 1].cell.scope == states[k].reload.staged
    ensures !steps[k].Publish? && !steps[k].Replace? ==> states[k + 1].cell.statuses == states[k].cell.statuses
  {
    assert Next(states[k], steps[k], states[k + 1]);
  }

  lemma RunGrows(states: seq<State>, steps: seq<Step>, step: Step, next: State)
    requires Run(states, steps) && Next(states[|steps|], step, next)
    ensures Run(states + [next], steps + [step])
  {
    var longer, all := states + [next], steps + [step];
    forall k {:trigger all[k]} | 0 <= k < |all| ensures Next(longer[k], all[k], longer[k + 1]) {
      if k < |steps| { assert Next(states[k], steps[k], states[k + 1]); }
    }
  }

  /** A run carried on by five steps. */
  lemma RunGrowsByFive(
    states: seq<State>, steps: seq<Step>, a: Step, b: Step, c: Step, d: Step, e: Step,
    s1: State, s2: State, s3: State, s4: State, s5: State)
    requires Run(states, steps) && Next(states[|steps|], a, s1) && Next(s1, b, s2) && Next(s2, c, s3) && Next(s3, d, s4) && Next(s4, e, s5)
    ensures Run(states + [s1, s2, s3, s4, s5], steps + [a, b, c, d, e])
  {
    RunGrows(states, steps, a, s1);
    RunGrows(states + [s1], steps + [a], b, s2);
    RunGrows(states + [s1] + [s2], steps + [a] + [b], c, s3);
    RunGrows(states + [s1] + [s2] + [s3], steps + [a] + [b] + [c], d, s4);
    RunGrows(states + [s1] + [s2] + [s3] + [s4], steps + [a] + [b] + [c] + [d], e, s5);
    assert states + [s1] + [s2] + [s3] + [s4] + [s5] == states + [s1, s2, s3, s4, s5];
    assert steps + [a] + [b] + [c] + [d] + [e] == steps + [a, b, c, d, e];
  }

  /** From every idle state a reload that nothing fails installs its entries, under the next generation and
      in a scope of its own, which is then the only one open. */
  lemma ReloadInstalls(states: seq<State>, steps: seq<Step>, entries: seq<string>) returns (longer: seq<State>)
    requires Run(states, steps) && states[|steps|].reload.Idle?
    ensures Run(longer, steps + [Begin, Number(entries), Fork, Replace, CloseRetired]) && longer[..|states|] == states
    ensures var s, s' := states[|steps|], longer[|steps| + 5];
            && s'.reload.Idle? && s'.open == {s.forked}
            && s'.cell == Active(s.cell.nextGeneration + 1, s.cell.nextGeneration, entries, map[], s.forked)
  {
    var s := states[|steps|];
    RunKeeps(states, steps, |steps|);
    var s1 := s.(reload := Decoding);
    var s2 := s1.(cell := Numbered(s.cell), reload := Forking(entries, s.cell.nextGeneration));
    var s3 := s2.(reload := Preparing(entries, s.cell.nextGeneration, s.forked), forked := s.forked + 1, open := s.open + {s.forked});
    var s4 := s3.(cell := Installed(s3.cell, s.cell.nextGeneration, entries, s.forked), reload := Retiring(s.cell.scope));
    var s5 := s4.(reload := Idle, open := s4.open - {s.cell.scope}, closings := s4.closings + [s.cell.scope]);
    RunGrowsByFive(states, steps, Begin, Number(entries), Fork, Replace, CloseRetired, s1, s2, s3, s4, s5);
    longer := states + [s1, s2, s3, s4, s5];
  }

  /** And one whose preparation fails can end with nothing changed but its generation used up. */
  lemma FailedReloadEnds(states: seq<State>, steps: seq<Step>, entries: seq<string>) returns (longer: seq<State>)
    requires Run(states, steps) && states[|steps|].reload.Idle?
    ensures Run(longer, steps + [Begin, Number(entries), Fork, FailPreparation, CloseStaged]) && longer[..|states|] == states
    ensures var s, s' := states[|steps|], longer[|steps| + 5];
            && s'.reload.Idle? && s'.open == s.open
            && s'.cell == s.cell.(nextGeneration := s.cell.nextGeneration + 1)
  {
    var s := states[|steps|];
    RunKeeps(states, steps, |steps|);
    var s1 := s.(reload := Decoding);
    var s2 := s1.(cell := Numbered(s.cell), reload := Forking(entries, s.cell.nextGeneration));
    var s3 := s2.(reload := Preparing(entries, s.cell.nextGeneration, s.forked), forked := s.forked + 1, open := s.open + {s.forked});
    var s4 := s3.(reload := Abandoning(s.forked));
    var s5 := s4.(reload := Idle, open := s4.open - {s.forked}, closings := s4.closings + [s.forked]);
    RunGrowsByFive(states, steps, Begin, Number(entries), Fork, FailPreparation, CloseStaged, s1, s2, s3, s4, s5);
    longer := states + [s1, s2, s3, s4, s5];
  }

  /** Once something was installed, an older generation is dead. */
  lemma {:induction false} ReplacedIsDead(states: seq<State>, steps: seq<Step>, i: nat, j: nat)
    requires Run(states, steps) && i <= j <= |steps| && Replaces(steps, i, j)
    ensures Dead(states[j], states[i].cell.generation)
    decreases j
  {
    RunKeeps(states, steps, j - 1);
    assert Next(states[j - 1], steps[j - 1], states[j]);
    if Replaces(steps, i, j - 1) {
      ReplacedIsDead(states, steps, i, j - 1);
      RunDead(states, steps, j - 1, states[i].cell.generation);
    } else {
      FailedReloadsChangeNothing(states, steps, i, j - 1);
    }
  }

  /** THE FENCE. A lease is honoured exactly until a reload is installed. */
  lemma LeaseLife(states: seq<State>, steps: seq<Step>, i: nat, j: nat, id: string, lease: EntryLease)
    requires Run(states, steps) && i <= j <= |steps| && LeaseOf(states[i].cell, id) == Some(lease)
    ensures Accepts(states[j].cell, lease) <==> !Replaces(steps, i, j)
  {
    if Replaces(steps, i, j) {
      ReplacedIsDead(states, steps, i, j);
    } else {
      FailedReloadsChangeNothing(states, steps, i, j);
    }
  }
}
