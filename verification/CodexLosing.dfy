/** The run that loses a turn: for every notification that names two turns there is one. */
module CodexLosing {
  import opened Options
  import opened ConnectionState
  import opened CodexSession
  import opened CodexTerminal
  import opened CodexLiveness

  const PENDING := map[1 := PendingRequest(TURN_START, Some(1), 0, false)]

  /** A `turn/start` is waiting for its response. */
  function Asked(): State {
    INITIAL_STATE.(conn := INITIAL.(nextId := 2, pending := PENDING), cells := 1, requests := map[0 := 1],
                   fibers := map[0 := Awaiting(1, 0)])
  }

  /** A completion of `nested` has claimed that turn, and is about to look up `declared`. */
  function ClaimedByNote(nested: string, declared: string): State {
    Asked().(conn := Asked().conn.(turns := map[nested := TurnState(1, false, true, 1)]), cells := 2, holder := map[1 := 1],
             fibers := map[0 := Awaiting(1, 0), 1 := NoteEnsuring(Some(Owed(1, Completed)), declared, 1)])
  }

  const ASKING := [Spawn(0, Registering(TURN_START, Some(1))), Advance(0, false, 0)]

  function Noting(nested: string, declared: string): seq<Step> {
    [Spawn(1, NoteSelecting(nested, Completed, Some(declared))), Advance(1, false, 0), Advance(1, false, 0), Advance(1, false, 0)]
  }

  function Dying(error: AgentError): seq<Step> {
    [Spawn(2, FailWaiting(error, true)), Advance(2, false, 0), Advance(2, false, 0), Advance(1, false, 0)]
  }

  /** Four steps played one after the other. */
  lemma PlayFour(s: State, a: Step, b: Step, c: Step, d: Step, s1: State, s2: State, s3: State, s4: State)
    requires Apply(s, a) == Some(s1) && Apply(s1, b) == Some(s2) && Apply(s2, c) == Some(s3) && Apply(s3, d) == Some(s4)
    ensures Play(s, [a, b, c, d]) == Some(s4)
  {
    assert [a, b, c, d][1..] == [b, c, d] && [b, c, d][1..] == [c, d] && [c, d][1..] == [d] && [d][1..] == [];
    assert Play(s4, []) == Some(s4);
    assert Play(s3, [d]) == Some(s4);
    assert Play(s2, [c, d]) == Some(s4);
    assert Play(s1, [b, c, d]) == Some(s4);
  }

  lemma Asking()
    ensures Play(INITIAL_STATE, ASKING) == Some(Asked())
  {
    var first := Move(INITIAL_STATE, 0, Registering(TURN_START, Some(1)));
    AskedNext(first);
    assert ASKING == [Spawn(0, Registering(TURN_START, Some(1)))] + [Advance(0, false, 0)];
    PlayFirst(first, 0, false, 0, Asked(), []);
    assert [Advance(0, false, 0)] + [] == [Advance(0, false, 0)];
    assert ASKING[1..] == [Advance(0, false, 0)];
  }

  lemma AskedNext(first: State)
    requires first == Move(INITIAL_STATE, 0, Registering(TURN_START, Some(1)))
    ensures AdvanceOf(first, 0, false, 0) == Some(Asked())
  {
    assert Asked().fibers == first.fibers[0 := Awaiting(1, 0)];
    assert Asked().conn.pending == first.conn.pending[1 := PendingRequest(TURN_START, Some(1), 0, false)];
  }

  function Selected(s: State, f: Fiber, nested: string, declared: string): State {
    Select(s, f, nested, NoteClaiming(nested, Candidate(s), Completed, Some(declared)))
  }

  function Won(s: State, f: Fiber, nested: string, declared: string): State {
    Claim(Selected(s, f, nested, declared), f, nested, Candidate(s), NoteReading(Some(Owed(s.cells, Completed)), Some(declared)))
  }

  /** A notification of a turn the session does not have yet installs and claims it. */
  lemma NewTurnClaimed(s: State, f: Fiber, nested: string, declared: string)
    requires f in s.fibers && s.fibers[f] == NoteSelecting(nested, Completed, Some(declared))
    requires nested !in s.conn.turns && s.conn.terminalError.None?
    ensures AdvanceOf(s, f, false, 0) == Some(Selected(s, f, nested, declared))
    ensures AdvanceOf(Selected(s, f, nested, declared), f, false, 0) == Some(Won(s, f, nested, declared))
  {}

  lemma NotingLeads(nested: string, declared: string)
    ensures Play(Asked(), Noting(nested, declared)) == Some(ClaimedByNote(nested, declared))
  {
    var s := Asked();
    var s1 := Move(s, 1, NoteSelecting(nested, Completed, Some(declared)));
    NewTurnClaimed(s1, 1, nested, declared);
    var s2, s3 := Selected(s1, 1, nested, declared), Won(s1, 1, nested, declared);
    OnePending(s3.conn);
    WonIs(nested, declared);
    PlayFour(s, Spawn(1, NoteSelecting(nested, Completed, Some(declared))), Advance(1, false, 0), Advance(1, false, 0),
             Advance(1, false, 0), s1, s2, s3, ClaimedByNote(nested, declared));
  }

  lemma WonIs(nested: string, declared: string)
    ensures Move(Won(Move(Asked(), 1, NoteSelecting(nested, Completed, Some(declared))), 1, nested, declared), 1,
                 NoteEnsuring(Some(Owed(1, Completed)), declared, 1)) == ClaimedByNote(nested, declared)
  {}

  lemma OnePending(c: Connection)
    requires c.pending == PENDING && c.nextId == 2
    ensures PendingTurnStartCount(c) == Some(1)
  {
    assert TurnStartCountFrom(c, 1) == Some(1);
    assert 0 !in c.pending;
  }

  function Dead(s: State, g: Fiber, error: AgentError): State {
    FailAll(Move(Move(s, g, FailWaiting(error, true)).(lock := Some(g)), g, FailClaiming(error, true)), g, error, true)
  }

  /** The session can fail for good at any moment the lock is free. */
  lemma DyingPlays(s: State, g: Fiber, error: AgentError)
    requires g !in s.fibers && s.lock.None? && s.conn.turnId.None? && s.conn.terminalError.None?
    ensures var s1 := Move(s, g, FailWaiting(error, true));
            var s2 := Move(s1.(lock := Some(g)), g, FailClaiming(error, true));
            && Apply(s, Spawn(g, FailWaiting(error, true))) == Some(s1)
            && Apply(s1, Advance(g, false, 0)) == Some(s2)
            && Apply(s2, Advance(g, false, 0)) == Some(Dead(s, g, error))
    ensures Dead(s, g, error).conn.terminalError == Some(error) && Dead(s, g, error).conn.turns == ClaimAll(s.conn.turns)
    ensures Dead(s, g, error).lost == s.lost && Dead(s, g, error).results == s.results
    ensures forall h :: h in s.fibers ==> h in Dead(s, g, error).fibers && Dead(s, g, error).fibers[h] == s.fibers[h]
  {}

  /** A notification that then looks up another turn aborts, and drops what it claimed. */
  lemma AbortPlays(s: State, f: Fiber, due: Owed, declared: string, count: nat)
    requires f in s.fibers && s.fibers[f] == NoteEnsuring(Some(due), declared, count)
    requires s.conn.terminalError.Some? && declared !in s.conn.turns
    ensures Apply(s, Advance(f, false, 0)) == Some(Abort(s, f, declared, Some(due)))
    ensures Abort(s, f, declared, Some(due)).lost == s.lost + {due.cell}
  {}

  lemma DyingLoses(nested: string, declared: string, error: AgentError)
    requires nested != declared
    ensures var end := Play(ClaimedByNote(nested, declared), Dying(error));
            end.Some? && LostWith(end.value, nested, 1)
  {
    var s := ClaimedByNote(nested, declared);
    DyingPlays(s, 2, error);
    var s1 := Move(s, 2, FailWaiting(error, true));
    var s2 := Move(s1.(lock := Some(2)), 2, FailClaiming(error, true));
    var s3 := Dead(s, 2, error);
    AbortPlays(s3, 1, Owed(1, Completed), declared, 1);
    var s4 := Abort(s3, 1, declared, Some(Owed(1, Completed)));
    PlayFour(s, Spawn(2, FailWaiting(error, true)), Advance(2, false, 0), Advance(2, false, 0), Advance(1, false, 0), s1, s2, s3, s4);
  }

  /** This turn is claimed, and its Deferred neither completed nor ever going to be. */
  ghost predicate LostWith(s: State, turnId: string, c: Cell) {
    && turnId in s.conn.turns && s.conn.turns[turnId].claimed && s.conn.turns[turnId].settlement == c
    && c in s.lost && c !in s.results
  }

  /** The one notification that starts in a schedule. */
  ghost predicate OneNote(steps: seq<Step>, k: nat, nested: string, declared: string) {
    && k < |steps| && steps[k] == Spawn(1, NoteSelecting(nested, Completed, Some(declared)))
    && forall i {:trigger steps[i]} :: 0 <= i < |steps| && i != k && steps[i].Spawn? ==> !steps[i].pc.NoteSelecting?
  }

  lemma OnlyNote(nested: string, declared: string, error: AgentError)
    ensures OneNote(ASKING + Noting(nested, declared) + Dying(error), 2, nested, declared)
  {
    assert ASKING + Noting(nested, declared) + Dying(error) ==
           [Spawn(0, Registering(TURN_START, Some(1))), Advance(0, false, 0),
            Spawn(1, NoteSelecting(nested, Completed, Some(declared))), Advance(1, false, 0), Advance(1, false, 0),
            Advance(1, false, 0), Spawn(2, FailWaiting(error, true)), Advance(2, false, 0), Advance(2, false, 0),
            Advance(1, false, 0)];
  }

  /** For every two different turns a notification names, some run loses the one it claims. */
  lemma DisagreeingLoses(nested: string, declared: string, error: AgentError) returns (states: seq<State>, steps: seq<Step>)
    requires nested != declared
    ensures Run(states, steps) && OneNote(steps, 2, nested, declared) && LostWith(states[|steps|], nested, 1)
  {
    Asking();
    NotingLeads(nested, declared);
    DyingLoses(nested, declared, error);
    var noting, dying := Noting(nested, declared), Dying(error);
    PlayAppends(INITIAL_STATE, ASKING, noting);
    PlayAppends(INITIAL_STATE, ASKING + noting, dying);
    steps := ASKING + noting + dying;
    states := PlayContinues([INITIAL_STATE], [], steps);
    assert [] + steps == steps;
    OnlyNote(nested, declared, error);
  }
}
