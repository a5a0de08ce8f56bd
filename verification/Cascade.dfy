/** How many open issues each issue unblocks: a worklist cascade, proved to compute the least set its
    rule allows, whatever order the worklist is taken in. */
module Cascade {

  datatype Blocker = Blocker(identifier: string, state: string)

  datatype Issue = Issue(identifier: string, blockedBy: seq<Blocker>)

  /** The terminal states of a workflow and the normalisation states are compared under. */
  datatype Terminal = Terminal(states: seq<string>, normalize: string -> string) {
    predicate Includes(state: string) {
      exists i :: 0 <= i < |states| && normalize(states[i]) == normalize(state)
    }
  }

  /** The blockers of an issue that still hold it back. */
  function Unresolved(blockedBy: seq<Blocker>, terminal: Terminal): (r: seq<string>)
    ensures forall id :: id in r <==>
              exists i :: 0 <= i < |blockedBy| && blockedBy[i].identifier == id
                          && forall k :: 0 <= k < |terminal.states| ==>
                               terminal.normalize(terminal.states[k]) != terminal.normalize(blockedBy[i].state)
  {
    if blockedBy == [] then []
    else (if terminal.Includes(blockedBy[0].state) then [] else [blockedBy[0].identifier]) +
         Unresolved(blockedBy[1..], terminal)
  }

  /** An open issue and what holds it back: all the cascade reads of one. */
  datatype Held = Held(identifier: string, blockers: seq<string>)

  function HeldOf(issues: seq<Issue>, terminal: Terminal): (held: seq<Held>)
    ensures |held| == |issues|
    ensures forall i :: 0 <= i < |held| ==>
              held[i] == Held(issues[i].identifier, Unresolved(issues[i].blockedBy, terminal))
  {
    seq(|issues|, i requires 0 <= i < |issues| => Held(issues[i].identifier, Unresolved(issues[i].blockedBy, terminal)))
  }

  ghost function SetOf(s: seq<string>): set<string> { set x | x in s }

  ghost function Identifiers(held: seq<Held>): set<string> {
    set i | 0 <= i < |held| :: held[i].identifier
  }

  /** Some entry named `dependent` lists `blocker`. */
  ghost predicate Depends(held: seq<Held>, dependent: string, blocker: string) {
    exists i :: 0 <= i < |held| && held[i].identifier == dependent && blocker in held[i].blockers
  }

  /** What the last entry named `identifier` lists: a later entry of one name replaces an earlier. */
  ghost function BlockersOf(held: seq<Held>, identifier: string): set<string> {
    if held == [] then {}
    else if held[|held| - 1].identifier == identifier then SetOf(held[|held| - 1].blockers)
    else BlockersOf(held[..|held| - 1], identifier)
  }

  /** Nothing outside `cleared` waits on a member of it and has all its blockers in it. */
  ghost predicate Closed(held: seq<Held>, cleared: set<string>) {
    forall d, b :: b in cleared && Depends(held, d, b) && BlockersOf(held, d) <= cleared ==> d in cleared
  }

  /** What completing `start` clears: whatever is in every closed set that has it. */
  ghost function Cleared(held: seq<Held>, start: string): set<string> {
    set d | d in Identifiers(held) + {start} && InEveryClosed(held, start, d)
  }

  ghost predicate InEveryClosed(held: seq<Held>, start: string, d: string) {
    forall c: set<string> :: start in c && Closed(held, c) ==> d in c
  }

  lemma DependsIdentifies(held: seq<Held>, d: string, b: string)
    requires Depends(held, d, b)
    ensures d in Identifiers(held)
  {}

  /** `Cleared` is itself closed, so it is the least closed set that has `start`. */
  lemma ClearedIsLeast(held: seq<Held>, start: string)
    ensures start in Cleared(held, start) && Closed(held, Cleared(held, start))
    ensures forall c: set<string> :: start in c && Closed(held, c) ==> Cleared(held, start) <= c
  {
    var least := Cleared(held, start);
    forall d, b | b in least && Depends(held, d, b) && BlockersOf(held, d) <= least ensures d in least {
      DependsIdentifies(held, d, b);
      forall c: set<string> | start in c && Closed(held, c) ensures d in c {
        assert least <= c;
      }
    }
  }

  /** What the code's own documentation says the cascade is, where every issue is listed once: a set
      is closed exactly when it has every issue with something left to wait for, all of it cleared. */
  lemma ClosedMeans(held: seq<Held>, cleared: set<string>)
    requires forall i, j :: 0 <= i < j < |held| ==> held[i].identifier != held[j].identifier
    ensures Closed(held, cleared) <==>
            forall i :: 0 <= i < |held| && held[i].blockers != [] && SetOf(held[i].blockers) <= cleared ==>
                          held[i].identifier in cleared
  {
    forall i | 0 <= i < |held| ensures BlockersOf(held, held[i].identifier) == SetOf(held[i].blockers) {
      OwnBlockers(held, i);
    }
    if Closed(held, cleared) {
      forall i | 0 <= i < |held| && held[i].blockers != [] && SetOf(held[i].blockers) <= cleared
        ensures held[i].identifier in cleared
      {
        assert held[i].blockers[0] in SetOf(held[i].blockers);
        assert Depends(held, held[i].identifier, held[i].blockers[0]);
      }
    }
  }

  lemma {:induction false} OwnBlockers(held: seq<Held>, i: nat)
    requires i < |held|
    requires forall j, k :: 0 <= j < k < |held| ==> held[j].identifier != held[k].identifier
    ensures BlockersOf(held, held[i].identifier) == SetOf(held[i].blockers)
  {
    if i < |held| - 1 { OwnBlockers(held[..|held| - 1], i); }
  }

  /** Nothing outside the knot can free this member: all it was ever listed behind is in the knot, or
      something it waits on is. */
  ghost predicate Tied(held: seq<Held>, knot: set<string>, d: string) {
    (forall b :: Depends(held, d, b) ==> b in knot) || BlockersOf(held, d) * knot != {}
  }

  /** A set without the issue completed, every member of which is tied: one that is no open issue, one
      that waits on nothing, or one that waits on another member. */
  ghost predicate Knot(held: seq<Held>, start: string, knot: set<string>) {
    start !in knot && forall d :: d in knot ==> Tied(held, knot, d)
  }

  /** The cascade stops at every knot, dependency cycles that do not hold the issue completed included. */
  lemma KnotStaysHeld(held: seq<Held>, start: string, knot: set<string>)
    requires Knot(held, start, knot)
    ensures Cleared(held, start) * knot == {}
  {
    ClearedIsLeast(held, start);
    var least := Cleared(held, start);
    var rest := least - knot;
    forall d, b | b in rest && Depends(held, d, b) && BlockersOf(held, d) <= rest ensures d in rest {
      assert BlockersOf(held, d) * knot == {};
      assert !Tied(held, knot, d);
    }
    assert least <= rest;
  }

  ghost function Listed(held: seq<Held>): set<string> {
    set i, b | 0 <= i < |held| && b in held[i].blockers :: b
  }

  /** Everything completing an issue does not clear is a knot. */
  lemma LeftIsKnot(held: seq<Held>, start: string, names: set<string>)
    requires Listed(held) <= names
    ensures Knot(held, start, names - Cleared(held, start))
  {
    ClearedIsLeast(held, start);
    var least := Cleared(held, start);
    var knot := names - least;
    forall d | d in knot ensures Tied(held, knot, d) {
      if b :| Depends(held, d, b) && b !in knot {
        assert b in Listed(held) && b in least;
        assert !(BlockersOf(held, d) <= least);
        var c :| c in BlockersOf(held, d) && c !in least;
        BlockersDepend(held, d, c);
        assert c in Listed(held);
        assert c in BlockersOf(held, d) * knot;
      }
    }
  }

  /** So an issue is never cleared if and only if it is in a knot: members of a cycle, of what hangs on
      one, and whatever waits on something that completing this issue cannot reach. */
  lemma HeldIffKnotted(held: seq<Held>, start: string, d: string)
    ensures d !in Cleared(held, start) <==> exists knot :: d in knot && Knot(held, start, knot)
  {
    if d !in Cleared(held, start) {
      var names := Identifiers(held) + Listed(held) + {d};
      LeftIsKnot(held, start, names);
      assert d in names - Cleared(held, start);
    }
    forall knot | d in knot && Knot(held, start, knot) ensures d !in Cleared(held, start) {
      KnotStaysHeld(held, start, knot);
    }
  }

  /** Where every issue is listed once, to be tied is to wait on nothing or on another member. */
  lemma TiedMeans(held: seq<Held>, knot: set<string>, d: string)
    requires forall i, j :: 0 <= i < j < |held| ==> held[i].identifier != held[j].identifier
    ensures Tied(held, knot, d) <==> BlockersOf(held, d) == {} || BlockersOf(held, d) * knot != {}
  {
    forall b ensures Depends(held, d, b) <==> b in BlockersOf(held, d) {
      if Depends(held, d, b) {
        var i :| 0 <= i < |held| && held[i].identifier == d && b in held[i].blockers;
        OwnBlockers(held, i);
      }
      if b in BlockersOf(held, d) { BlockersDepend(held, d, b); }
    }
    if b :| b in BlockersOf(held, d) {
      assert b in knot ==> b in BlockersOf(held, d) * knot;
    }
  }

  /** Nothing but the issue completed is cleared before everything it waits on. */
  lemma ClearedHasReason(held: seq<Held>, start: string, d: string)
    requires d in Cleared(held, start) && d != start
    ensures BlockersOf(held, d) <= Cleared(held, start)
  {
    ClearedIsLeast(held, start);
    var least := Cleared(held, start);
    var rest := least - {d};
    assert !Closed(held, rest) by { assert !(least <= rest); }
    var e, b :| b in rest && Depends(held, e, b) && BlockersOf(held, e) <= rest && e !in rest;
    assert e in least;
  }

  /** Each member waits on the one before it, and the first on the last. */
  ghost predicate Cycle(held: seq<Held>, cycle: seq<string>) {
    && cycle != [] && Depends(held, cycle[0], cycle[|cycle| - 1])
    && (forall i :: 1 <= i < |cycle| ==> cycle[i] != cycle[0] && Depends(held, cycle[i], cycle[i - 1]))
  }

  /** Completing an issue on a cycle, of any length and in any backlog, clears the whole cycle if and only
      if it clears all that the other members wait on besides the members before them. */
  lemma OwnCycleOpens(held: seq<Held>, cycle: seq<string>)
    requires Cycle(held, cycle)
    ensures (forall i :: 0 <= i < |cycle| ==> cycle[i] in Cleared(held, cycle[0])) <==>
            (forall i :: 1 <= i < |cycle| ==> BlockersOf(held, cycle[i]) - SetOf(cycle[..i]) <= Cleared(held, cycle[0]))
  {
    var start := cycle[0];
    if forall i :: 0 <= i < |cycle| ==> cycle[i] in Cleared(held, start) {
      forall i | 1 <= i < |cycle| ensures BlockersOf(held, cycle[i]) - SetOf(cycle[..i]) <= Cleared(held, start) {
        ClearedHasReason(held, start, cycle[i]);
      }
    }
    if forall i :: 1 <= i < |cycle| ==> BlockersOf(held, cycle[i]) - SetOf(cycle[..i]) <= Cleared(held, start) {
      AlongCycle(held, cycle, |cycle| - 1);
    }
  }

  lemma {:induction false} AlongCycle(held: seq<Held>, cycle: seq<string>, i: nat)
    requires Cycle(held, cycle) && i < |cycle|
    requires forall j :: 1 <= j < |cycle| ==> BlockersOf(held, cycle[j]) - SetOf(cycle[..j]) <= Cleared(held, cycle[0])
    ensures forall j :: 0 <= j <= i ==> cycle[j] in Cleared(held, cycle[0])
  {
    ClearedIsLeast(held, cycle[0]);
    if i > 0 {
      AlongCycle(held, cycle, i - 1);
      assert SetOf(cycle[..i]) <= Cleared(held, cycle[0]);
      assert BlockersOf(held, cycle[i]) <= Cleared(held, cycle[0]);
      assert Depends(held, cycle[i], cycle[i - 1]);
      assert cycle[i] in Cleared(held, cycle[0]);
    }
  }

  /** In particular every cycle whose members wait on nothing but members before them is opened. */
  lemma PlainCycleOpens(held: seq<Held>, cycle: seq<string>)
    requires Cycle(held, cycle)
    requires forall i :: 1 <= i < |cycle| ==> BlockersOf(held, cycle[i]) <= SetOf(cycle[..i])
    ensures forall i :: 0 <= i < |cycle| ==> cycle[i] in Cleared(held, cycle[0])
  {
    forall i | 1 <= i < |cycle| ensures BlockersOf(held, cycle[i]) - SetOf(cycle[..i]) <= Cleared(held, cycle[0]) {
      assert BlockersOf(held, cycle[i]) - SetOf(cycle[..i]) == {};
    }
    OwnCycleOpens(held, cycle);
  }

  /** And not every cycle is: with one member also waiting on an issue that waits on something else, the
      cycle the completed issue is on stays shut. */
  lemma OwnCycleCanStayShut(a: string, b: string, c: string, d: string) returns (held: seq<Held>)
    requires a != b && a != c && b != c && d != a && d != b && d != c
    ensures Cycle(held, [a, b]) && Cleared(held, a) == {a}
  {
    held := [Held(a, [b]), Held(b, [a, c]), Held(c, [d])];
    assert held[0].identifier == a && held[1].identifier == b;
    assert Depends(held, a, b) && Depends(held, b, a);
    OwnBlockers(held, 1);
    OwnBlockers(held, 2);
    assert held[1].blockers[1] == c && held[2].blockers[0] == d;
    assert c in BlockersOf(held, b) && d in BlockersOf(held, c);
    assert Closed(held, {a});
    ClearedIsLeast(held, a);
  }

  function ListOf(dependents: map<string, seq<string>>, blocker: string): seq<string> {
    if blocker in dependents then dependents[blocker] else []
  }

  /** The two indexes agree with the entries they were built from. */
  ghost predicate Indexed(held: seq<Held>, blockers: map<string, set<string>>, dependents: map<string, seq<string>>) {
    && blockers.Keys == Identifiers(held)
    && (forall d :: d in blockers ==> blockers[d] == BlockersOf(held, d))
    && (forall d, b :: d in ListOf(dependents, b) <==> Depends(held, d, b))
  }

  method Index(held: seq<Held>) returns (blockers: map<string, set<string>>, dependents: map<string, seq<string>>)
    ensures Indexed(held, blockers, dependents)
  {
    blockers, dependents := map[], map[];
    for k := 0 to |held|
      invariant Indexed(held[..k], blockers, dependents)
    {
      var entry := held[k];
      ghost var before := dependents;
      blockers := blockers[entry.identifier := set x | x in entry.blockers];
      for j := 0 to |entry.blockers|
        invariant forall d, b :: d in ListOf(dependents, b) <==>
                    d in ListOf(before, b) || (d == entry.identifier && b in entry.blockers[..j])
      {
        var blocker := entry.blockers[j];
        dependents := dependents[blocker := ListOf(dependents, blocker) + [entry.identifier]];
      }
      EntryIndexed(held, k);
    }
    assert held[..|held|] == held;
  }

  /** What one more entry changes. */
  lemma EntryIndexed(held: seq<Held>, k: nat)
    requires k < |held|
    ensures Identifiers(held[..k + 1]) == Identifiers(held[..k]) + {held[k].identifier}
    ensures forall d :: BlockersOf(held[..k + 1], d) ==
              if d == held[k].identifier then SetOf(held[k].blockers) else BlockersOf(held[..k], d)
    ensures forall d, b :: Depends(held[..k + 1], d, b) <==>
              Depends(held[..k], d, b) || (d == held[k].identifier && b in held[k].blockers)
  {
    var now, next := held[..k], held[..k + 1];
    assert next[..k] == now && next[k] == held[k];
    assert forall i :: 0 <= i < k ==> next[i] == now[i];
    forall d ensures BlockersOf(next, d) ==
      if d == held[k].identifier then SetOf(held[k].blockers) else BlockersOf(now, d) {}
    forall d, b | Depends(now, d, b) ensures Depends(next, d, b) {
      var i :| 0 <= i < |now| && now[i].identifier == d && b in now[i].blockers;
      assert next[i].identifier == d && b in next[i].blockers;
    }
  }

  lemma {:induction false} BlockersDepend(held: seq<Held>, d: string, b: string)
    requires b in BlockersOf(held, d)
    ensures Depends(held, d, b)
  {
    var last := |held| - 1;
    if held[last].identifier != d {
      BlockersDepend(held[..last], d, b);
      var i :| 0 <= i < last && held[..last][i].identifier == d && b in held[..last][i].blockers;
      assert held[i].identifier == d && b in held[i].blockers;
    } else {
      assert b in held[last].blockers;
    }
  }

  /** Of the issues waiting on one already looked at, `seen`, each is cleared or still waits on
      something not looked at. */
  ghost predicate Settled(
    blockers: map<string, set<string>>, dependents: map<string, seq<string>>, cleared: set<string>, seen: set<string>)
  {
    forall b, d :: b in seen && d in ListOf(dependents, b) && d in blockers && d !in cleared ==> !(blockers[d] <= seen)
  }

  ghost predicate Distinct(s: seq<string>) {
    s == [] || (s[|s| - 1] !in s[..|s| - 1] && Distinct(s[..|s| - 1]))
  }

  /** What is cleared has been looked at, or is still in the frontier, but not both. */
  ghost predicate Split(cleared: set<string>, seen: set<string>, frontier: seq<string>) {
    && Distinct(frontier)
    && (forall x :: x in cleared <==> x in seen || x in frontier)
    && (forall x :: x in frontier ==> x !in seen)
  }

  lemma PopSplits(cleared: set<string>, seen: set<string>, frontier: seq<string>)
    requires Split(cleared, seen, frontier) && frontier != []
    ensures Split(cleared, seen + {frontier[|frontier| - 1]}, frontier[..|frontier| - 1])
    ensures frontier[|frontier| - 1] in cleared
  {
    var last := |frontier| - 1;
    assert frontier == frontier[..last] + [frontier[last]];
  }

  lemma PushSplits(cleared: set<string>, seen: set<string>, frontier: seq<string>, d: string)
    requires Split(cleared, seen, frontier) && d !in cleared
    ensures Split(cleared + {d}, seen, frontier + [d])
  {
    assert (frontier + [d])[..|frontier|] == frontier;
  }

  /** Each of these is cleared or waits on something outside `seen`. */
  ghost predicate Examined(blockers: map<string, set<string>>, cleared: set<string>, seen: set<string>, list: seq<string>) {
    forall i :: 0 <= i < |list| && list[i] in blockers && list[i] !in cleared ==> !(blockers[list[i]] <= seen)
  }

  lemma ExaminedMore(
    blockers: map<string, set<string>>, cleared: set<string>, seen: set<string>, list: seq<string>, j: nat, later: set<string>)
    requires j < |list| && Examined(blockers, cleared, seen, list[..j]) && cleared <= later
    requires list[j] in blockers && list[j] !in later ==> !(blockers[list[j]] <= seen)
    ensures Examined(blockers, later, seen, list[..j + 1])
  {
    assert list[..j + 1] == list[..j] + [list[j]];
  }

  /** Once everything waiting on `finished` was examined, it can join what was looked at. */
  lemma NowSettled(
    held: seq<Held>, blockers: map<string, set<string>>, dependents: map<string, seq<string>>,
    before: set<string>, seen: set<string>, finished: string, cleared: set<string>)
    requires Indexed(held, blockers, dependents) && before <= cleared
    requires Settled(blockers, dependents, before, seen)
    requires Examined(blockers, cleared, seen + {finished}, ListOf(dependents, finished))
    ensures Settled(blockers, dependents, cleared, seen + {finished})
  {
    forall b, d | b in seen + {finished} && d in ListOf(dependents, b) && d in blockers && d !in cleared
      ensures !(blockers[d] <= seen + {finished})
    {
      if finished in blockers[d] {
        BlockersDepend(held, d, finished);
      } else if b != finished {
        assert !(blockers[d] <= seen);
      }
    }
  }

  /** Looks at `finished`: clears every issue it was the last thing needed for. */
  method Visit(
    held: seq<Held>, blockers: map<string, set<string>>, dependents: map<string, seq<string>>, ghost start: string,
    before: set<string>, ghost seen: set<string>, waiting: seq<string>, finished: string)
    returns (cleared: set<string>, frontier: seq<string>)
    requires Indexed(held, blockers, dependents)
    requires before <= Cleared(held, start) && finished in before
    requires Split(before, seen + {finished}, waiting) && Settled(blockers, dependents, before, seen)
    ensures before <= cleared <= Cleared(held, start) && (cleared == before ==> frontier == waiting)
    ensures Split(cleared, seen + {finished}, frontier) && Settled(blockers, dependents, cleared, seen + {finished})
  {
    cleared, frontier := before, waiting;
    var list := ListOf(dependents, finished);
    for j := 0 to |list|
      invariant before <= cleared <= Cleared(held, start)
      invariant cleared == before ==> frontier == waiting
      invariant Split(cleared, seen + {finished}, frontier)
      invariant Examined(blockers, cleared, seen + {finished}, list[..j])
    {
      var dependent := list[j];
      ghost var now := cleared;
      DependentKnown(held, blockers, dependents, dependent, finished);
      if dependent !in cleared {
        if blockers[dependent] <= cleared {
          MustClear(held, start, now, dependent, finished);
          PushSplits(cleared, seen + {finished}, frontier, dependent);
          cleared := cleared + {dependent};
          frontier := frontier + [dependent];
        }
      }
      ExaminedMore(blockers, now, seen + {finished}, list, j, cleared);
    }
    assert list[..|list|] == list;
    NowSettled(held, blockers, dependents, before, seen, finished, cleared);
  }

  lemma DependentKnown(
    held: seq<Held>, blockers: map<string, set<string>>, dependents: map<string, seq<string>>, d: string, b: string)
    requires Indexed(held, blockers, dependents) && d in ListOf(dependents, b)
    ensures Depends(held, d, b) && d in blockers && blockers[d] == BlockersOf(held, d)
  {
    DependsIdentifies(held, d, b);
  }

  lemma MustClear(held: seq<Held>, start: string, cleared: set<string>, d: string, b: string)
    requires cleared <= Cleared(held, start) && b in cleared
    requires Depends(held, d, b) && BlockersOf(held, d) <= cleared
    ensures d in Cleared(held, start)
  {
    ClearedIsLeast(held, start);
  }

  /** The walk from one completed issue. */
  method Walk(held: seq<Held>, blockers: map<string, set<string>>, dependents: map<string, seq<string>>, start: string)
    returns (cleared: set<string>)
    requires Indexed(held, blockers, dependents)
    ensures cleared == Cleared(held, start)
  {
    ClearedIsLeast(held, start);
    cleared := {start};
    var frontier := [start];
    ghost var seen: set<string> := {};
    while frontier != []
      invariant start in cleared && cleared <= Cleared(held, start)
      invariant Split(cleared, seen, frontier) && Settled(blockers, dependents, cleared, seen)
      decreases |Cleared(held, start) - cleared|, |frontier|
    {
      PopSplits(cleared, seen, frontier);
      var finished := frontier[|frontier| - 1];
      ghost var before := cleared;
      cleared, frontier :=
        Visit(held, blockers, dependents, start, cleared, seen, frontier[..|frontier| - 1], finished);
      seen := seen + {finished};
      SmallerLeft(Cleared(held, start), before, cleared);
    }
    WalkEnds(held, blockers, dependents, start, cleared, seen);
  }

  lemma SmallerLeft(all: set<string>, before: set<string>, after: set<string>)
    requires before <= after <= all
    ensures after == before || |all - after| < |all - before|
  {
    if after != before {
      var x :| x in after && x !in before;
      var kept, had := all - after, all - before;
      assert kept < had;
      assert had == kept + (had - kept);
    }
  }

  /** With nothing left to look at, what was cleared is closed, and so it is all there is. */
  lemma WalkEnds(
    held: seq<Held>, blockers: map<string, set<string>>, dependents: map<string, seq<string>>, start: string,
    cleared: set<string>, seen: set<string>)
    requires Indexed(held, blockers, dependents)
    requires start in cleared && cleared <= Cleared(held, start)
    requires Split(cleared, seen, []) && Settled(blockers, dependents, cleared, seen)
    ensures cleared == Cleared(held, start)
  {
    assert cleared == seen;
    forall d, b | b in cleared && Depends(held, d, b) && BlockersOf(held, d) <= cleared ensures d in cleared {
      DependsIdentifies(held, d, b);
    }
    ClearedIsLeast(held, start);
  }

  /** The counts: for each open issue, how many others completing it clears. */
  method DownstreamCounts(issues: seq<Issue>, terminal: Terminal) returns (counts: map<string, nat>)
    ensures counts.Keys == Identifiers(HeldOf(issues, terminal))
    ensures forall id :: id in counts ==> counts[id] == |Cleared(HeldOf(issues, terminal), id)| - 1
  {
    var held := HeldOf(issues, terminal);
    var blockers, dependents := Index(held);
    counts := map[];
    for k := 0 to |held|
      invariant counts.Keys == Identifiers(held[..k])
      invariant forall id :: id in counts ==> counts[id] == |Cleared(held, id)| - 1
    {
      ClearedIsLeast(held, held[k].identifier);
      var cleared := Walk(held, blockers, dependents, held[k].identifier);
      EntryIndexed(held, k);
      counts := counts[held[k].identifier := |cleared| - 1];
    }
    assert held[..|held|] == held;
  }
}
