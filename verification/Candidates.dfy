/** Host-verified publication: a candidate is checkpointed, put on its base, verified, and pushed by name. */
module Candidates {
  import opened Options
  import opened GitHistory
  import opened GitRepository
  import opened Publication

  /** A commit and its content, with the lease its preparation took. */
  datatype Candidate = Candidate(prepared: Prepared, head: Commit, tree: nat, commitCreated: bool)

  datatype Evidence = Evidence(head: Commit, tree: nat, script: string)

  datatype VerifiedCandidate = VerifiedCandidate(candidate: Candidate, evidence: Evidence)

  datatype Observation = Delivered(head: Commit) | Unpublished | Diverged(remoteHead: Option<Commit>)

  /** The candidate's head, its tree and a clean worktree, seen in that order. */
  function Sighting(c: Candidate): seq<Event> {
    [SawHead(c.head), SawTree(c.tree), SawClean]
  }

  ghost predicate CertifiedAt(events: seq<Event>, i: nat, c: Candidate, script: string) {
    i + 7 <= |events| && events[i..i + 7] == Sighting(c) + [Passed(script)] + Sighting(c)
  }

  /** At some point this script passed, between two sightings of the candidate. */
  ghost predicate Certified(events: seq<Event>, c: Candidate, script: string) {
    exists i :: CertifiedAt(events, i, c, script)
  }

  /** Nothing seen before is unseen. */
  ghost predicate Grew(older: seq<Event>, newer: seq<Event>) {
    |older| <= |newer| && newer[..|older|] == older
  }

  lemma CertifiedStays(older: seq<Event>, newer: seq<Event>, c: Candidate, script: string)
    requires Certified(older, c, script) && Grew(older, newer)
    ensures Certified(newer, c, script)
  {
    var i: nat :| CertifiedAt(older, i, c, script);
    assert newer[i..i + 7] == newer[..|older|][i..i + 7];
    assert CertifiedAt(newer, i, c, script);
  }

  lemma JustCertified(before: seq<Event>, c: Candidate, script: string)
    ensures Certified(before + Sighting(c) + [Passed(script)] + Sighting(c), c, script)
  {
    var events := before + Sighting(c) + [Passed(script)] + Sighting(c);
    assert events[|before|..|before| + 7] == Sighting(c) + [Passed(script)] + Sighting(c);
    assert CertifiedAt(events, |before|, c, script);
  }

  /** The candidate as the workspace has it. */
  ghost predicate InPlace(work: Worktree, c: Candidate) {
    work.head == c.head && work.head.tree == c.tree && !work.dirty
  }

  /** Reads head, tree and status, one after another, against the candidate. */
  method AssertCandidate(repo: Repository, c: Candidate) returns (r: Result<()>)
    requires repo.Valid()
    modifies repo
    ensures repo.Valid() && repo.Pushes() == old(repo.Pushes()) && (repo.gentle ==> Keeps(old(repo.branch), repo.branch))
    ensures repo.exclusive ==> repo.work == old(repo.work)
    ensures r.Ok? <==> repo.events == old(repo.events) + Sighting(c)
    ensures r.Err? && r.category.PublicationFailed? ==> repo.failures > old(repo.failures)
    ensures repo.exclusive && repo.failures == old(repo.failures) ==> (r.Ok? <==> InPlace(repo.work, c))
    ensures repo.failures >= old(repo.failures) && (r.Ok? ==> repo.failures == old(repo.failures))
    ensures repo.exclusive && r.Ok? ==> InPlace(repo.work, c)
    ensures r.Err? ==> r.category.CandidateChanged? || r.category.PublicationFailed?
    ensures Grew(old(repo.events), repo.events) && |repo.events| <= |old(repo.events)| + 3 && repo.baseFetches == old(repo.baseFetches)
  {
    var head := repo.Head();
    if head.None? { return Err(PublicationFailed); }
    assert repo.events == old(repo.events) + [SawHead(head.value)];
    var tree := repo.Tree();
    if tree.None? { return Err(PublicationFailed); }
    assert repo.events == old(repo.events) + [SawHead(head.value), SawTree(tree.value)];
    var dirty := repo.Status();
    if dirty.None? { return Err(PublicationFailed); }
    assert repo.events ==
           old(repo.events) + [SawHead(head.value), SawTree(tree.value), if dirty.value then SawDirty else SawClean];
    if head.value != c.head || tree.value != c.tree || dirty.value {
      return Err(CandidateChanged);
    }
    return Ok(());
  }

  /** Whether the remote has the candidate, or still has what it had at preparation. */
  method Observe(repo: Repository, c: Candidate) returns (r: Result<Observation>)
    requires repo.Valid()
    modifies repo
    ensures repo.Valid() && repo.Pushes() == old(repo.Pushes()) && (repo.gentle ==> Keeps(old(repo.branch), repo.branch))
    ensures repo.events == old(repo.events) && (repo.exclusive ==> repo.work == old(repo.work))
    ensures r.Ok? ==> repo.sighted == repo.listed
    ensures r.Ok? && r.value.Delivered? ==>
              r.value.head == c.head && Carries(repo.listed, c.head) && repo.failures == old(repo.failures)
    ensures r.Ok? && r.value.Unpublished? ==> repo.listed == c.prepared.expected && repo.listed != Some(c.head)
    ensures r.Ok? && r.value.Diverged? ==> r.value.remoteHead == repo.listed != c.prepared.expected
    ensures repo.failures == old(repo.failures) ==> r.Ok? && (r.value.Delivered? <==> Carries(repo.listed, c.head))
    ensures repo.failures == old(repo.failures) && repo.gentle && old(Carries(repo.branch, c.head)) ==> r == Ok(Delivered(c.head))
    ensures repo.failures >= old(repo.failures)
    ensures r.Err? ==> r.category.PublicationFailed?
  {
    var seen := repo.RemoteHead();
    if seen.None? { return Err(PublicationFailed); }
    var actual := seen.value;
    if actual == Some(c.head) {
      return Ok(Delivered(c.head));
    }
    if actual.Some? {
      var fetched := repo.FetchObject(actual.value);
      if !fetched { return Err(PublicationFailed); }
      var contained := repo.ContainedIn(c.head, actual.value);
      if contained {
        return Ok(Delivered(c.head));
      }
    }
    return Ok(if actual == c.prepared.expected then Unpublished else Diverged(actual));
  }

  /** The candidates of one workspace. `certified` is everything verification has answered with. */
  class CandidateSourceControl {
    const repo: Repository
    ghost var certified: set<VerifiedCandidate>

    ghost predicate Valid()
      reads this, repo
    {
      && repo.Valid()
      && (forall v :: v in certified ==> Names(v) && Certified(repo.events, v.candidate, v.evidence.script))
    }

    /** The evidence names this candidate and no other. */
    static predicate Names(v: VerifiedCandidate) {
      v.candidate.head == v.evidence.head && v.candidate.tree == v.evidence.tree
    }

    constructor (repo: Repository)
      requires repo.Valid()
      ensures Valid() && this.repo == repo && certified == {}
    {
      this.repo, certified := repo, {};
    }

    /** What the workspace holds, committed: as a new candidate, as the retained one, or as none when
        nothing was done and the baseline does not count. */
    method Checkpoint(prepared: Prepared, retained: Option<Candidate>, includeBaseline: bool, note: nat)
      returns (r: Result<Option<Candidate>>)
      requires Valid()
      modifies repo
      ensures Valid() && repo.Pushes() == old(repo.Pushes())
      ensures r.Ok? && r.value.None? ==> retained.None? && !includeBaseline
      ensures repo.exclusive && r.Ok? ==>
                (r.value.None? <==> retained.None? && !includeBaseline && !old(repo.work.dirty) && old(repo.work.head) == prepared.baseline)
      // It succeeds, unless a command fails, exactly over no open rebase, for a retained candidate still in
      // place, or a workspace that descends from its baseline.
      ensures repo.exclusive && repo.failures == old(repo.failures) ==>
                (r.Ok? <==> old(repo.work.rebase.None?)
                            && if retained.Some? then InPlace(old(repo.work), retained.value)
                               else Contains(old(repo.work.head), prepared.baseline))
      ensures if r.Ok? then repo.failures == old(repo.failures) else repo.failures >= old(repo.failures)
      ensures repo.exclusive && r.Ok? && r.value.Some? ==> InPlace(repo.work, r.value.value)
      ensures repo.exclusive && r.Ok? && r.value.Some? && retained.None? ==> Contains(r.value.value.head, prepared.baseline)
      ensures repo.exclusive && r.Ok? && r.value.None? ==> repo.work == old(repo.work) && repo.work.head == prepared.baseline && !repo.work.dirty
      ensures r.Ok? && r.value.Some? && retained.Some? ==> r.value.value == retained.value.(prepared := prepared)
      ensures repo.exclusive && r.Ok? && r.value.Some? && retained.None? ==>
                && r.value.value.prepared == prepared && r.value.value.commitCreated == old(repo.work.dirty)
                && Contains(r.value.value.head, old(repo.work.head))
    {
      var paused := repo.Rebasing();
      if paused.None? { return Err(PublicationFailed); }
      if paused.value { return Err(RebaseConflict); }
      if retained.Some? {
        var kept := retained.value.(prepared := prepared);
        var still := AssertCandidate(repo, kept);
        Remember(old(repo.events));
        return if still.Ok? then Ok(Some(kept)) else Err(still.category);
      }
      var descends := repo.HeadContains(prepared.baseline);
      if !descends { return Err(CandidateChanged); }
      var status := repo.Status();
      if status.None? { return Err(PublicationFailed); }
      var dirty := status.value;
      Remember(old(repo.events));
      if dirty {
        var committed := repo.CommitEverything(note);
        if !committed { return Err(PublicationFailed); }
      }
      var head := repo.Head();
      if head.None? { return Err(PublicationFailed); }
      Remember(old(repo.events));
      if !includeBaseline && !dirty && head.value == prepared.baseline {
        return Ok(None);
      }
      var tree := repo.Tree();
      Remember(old(repo.events));
      if tree.None? { return Err(PublicationFailed); }
      return Ok(Some(Candidate(prepared, head.value, tree.value, dirty)));
    }

    /** The candidate put on the base as the remote has it now, under the lease it already had. */
    method Align(c: Candidate) returns (r: Result<Candidate>)
      requires Valid()
      modifies repo
      ensures Valid() && repo.Pushes() == old(repo.Pushes())
      ensures r.Ok? ==> r.value.prepared == c.prepared.(baseHead := r.value.prepared.baseHead) && r.value.commitCreated == c.commitCreated
      ensures repo.exclusive && r.Ok? ==> InPlace(repo.work, r.value) && Contains(r.value.head, r.value.prepared.baseHead)
      ensures r.Ok? ==> repo.BaseFetched(old(repo.baseFetches))
      ensures repo.exclusive && repo.failures == old(repo.failures) ==> (r.Ok? <==> InPlace(old(repo.work), c))
      ensures repo.failures >= old(repo.failures)
      ensures repo.exclusive && r.Ok? ==> repo.work.trackedBase == Some(r.value.prepared.baseHead)
      ensures r.Ok? && Contains(c.head, r.value.prepared.baseHead) && repo.failures == old(repo.failures) ==>
                r.value.head == c.head && r.value.tree == c.tree
    {
      var still := AssertCandidate(repo, c);
      Remember(old(repo.events));
      if still.Err? { return Err(still.category); }
      var base := repo.FetchBase();
      if base.None? { return Err(PublicationFailed); }
      var onBase := repo.ContainedIn(base.value, c.head);
      var prepared := c.prepared.(baseHead := base.value);
      if onBase {
        return Ok(c.(prepared := prepared));
      }
      var rebased := RebaseOntoBase(repo);
      if rebased.Err? { return Err(rebased.category); }
      r := Capture(prepared, c.commitCreated);
    }

    /** The candidate HEAD and its tree now make. */
    method Capture(prepared: Prepared, commitCreated: bool) returns (r: Result<Candidate>)
      requires Valid()
      modifies repo
      ensures Valid() && repo.Pushes() == old(repo.Pushes()) && repo.baseFetches == old(repo.baseFetches)
      ensures repo.exclusive ==> repo.work == old(repo.work)
      ensures r.Ok? ==> r.value.prepared == prepared && r.value.commitCreated == commitCreated
      ensures r.Ok? && repo.exclusive ==> r.value.head == repo.work.head && r.value.tree == repo.work.head.tree
      ensures if r.Ok? then repo.failures == old(repo.failures) else repo.failures > old(repo.failures)
    {
      var head := repo.Head();
      Remember(old(repo.events));
      if head.None? { return Err(PublicationFailed); }
      var tree := repo.Tree();
      Remember(old(repo.events));
      if tree.None? { return Err(PublicationFailed); }
      return Ok(Candidate(prepared, head.value, tree.value, commitCreated));
    }

    /** A passing command certifies the commit and content seen unchanged before and after it. */
    method Verify(c: Candidate, script: string) returns (r: Result<VerifiedCandidate>)
      requires Valid()
      modifies repo, this`certified
      ensures Valid() && repo.Pushes() == old(repo.Pushes()) && certified >= old(certified)
      ensures r.Ok? ==> r.value == VerifiedCandidate(c, Evidence(c.head, c.tree, script)) && r.value in certified
      ensures r.Ok? <==> repo.events == old(repo.events) + Sighting(c) + [Passed(script)] + Sighting(c)
      ensures certified == if r.Ok? then old(certified) + {r.value} else old(certified)
      ensures r.Ok? && repo.exclusive ==> InPlace(repo.work, c)
      ensures r.Ok? ==> repo.failures == old(repo.failures)
    {
      var before := AssertCandidate(repo, c);
      Remember(old(repo.events));
      if before.Err? { return Err(before.category); }
      var passed := repo.Verify(script);
      Remember(old(repo.events));
      if passed.None? || !passed.value { return Err(VerificationFailed); }
      var after := AssertCandidate(repo, c);
      Remember(old(repo.events));
      if after.Err? { return Err(after.category); }
      JustCertified(old(repo.events), c, script);
      var verified := VerifiedCandidate(c, Evidence(c.head, c.tree, script));
      certified := certified + {verified};
      return Ok(verified);
    }

    /** Pushes the checked object by its name, never whatever HEAD might have become. */
    method Publish(verified: VerifiedCandidate) returns (r: Result<Outcome>, ghost landed: bool)
      requires Valid()
      modifies repo
      ensures Valid()
      // One push at most: of the object the evidence names, over the head recorded at preparation, right
      // after the workspace was seen to hold it.
      ensures repo.Pushes() == old(repo.Pushes()) +
                (if landed then [Update(true, verified.candidate.prepared.expected, Some(verified.candidate.head))] else [])
      ensures landed ==> Names(verified) && repo.events == old(repo.events) + Sighting(verified.candidate)
      ensures landed && verified in certified ==> Certified(repo.events, verified.candidate, verified.evidence.script)
      ensures repo.gentle ==> Keeps(old(repo.branch), if landed then verified.candidate.prepared.expected else repo.branch)
      ensures r.Ok? ==> r.value == Published(verified.candidate.head, verified.candidate.commitCreated)
      ensures r.Ok? ==> Carries(repo.sighted, verified.candidate.head)
      ensures !Names(verified) ==> r == Err(CandidateChanged) && !landed
      // It succeeds, unless a command fails or the branch has moved, for a candidate still in place.
      ensures repo.failures == old(repo.failures) && repo.exclusive && Names(verified) ==>
                if InPlace(old(repo.work), verified.candidate) then r.Ok? || MovedFrom(repo, verified.candidate.prepared)
                else r == Err(CandidateChanged)
      ensures repo.failures >= old(repo.failures)
      // A branch that carries the candidate already is answered so, and nothing is pushed.
      ensures repo.gentle && repo.failures == old(repo.failures) && old(Carries(repo.branch, verified.candidate.head)) ==>
                !landed && (repo.exclusive && Names(verified) && InPlace(old(repo.work), verified.candidate) ==> r.Ok?)
    {
      landed := false;
      var c := verified.candidate;
      if c.head != verified.evidence.head || c.tree != verified.evidence.tree {
        return Err(CandidateChanged), false;
      }
      var still := AssertCandidate(repo, c);
      Remember(old(repo.events));
      if still.Err? { return Err(still.category), false; }
      var observed := Observe(repo, c);
      if observed.Err? { return Err(observed.category), false; }
      if observed.value.Diverged? { return Err(LeaseConflict), false; }
      if observed.value.Unpublished? {
        var pushed;
        pushed, landed := PushUnderLease(repo, c.prepared, Some(c.head));
        if pushed.Err? { return Err(pushed.category), landed; }
      }
      return Ok(Published(c.head, c.commitCreated)), landed;
    }

    /** What was certified stays so. */
    lemma Remember(events: seq<Event>)
      requires Grew(events, repo.events) && forall v :: v in certified ==> Certified(events, v.candidate, v.evidence.script)
      ensures forall v :: v in certified ==> Certified(repo.events, v.candidate, v.evidence.script)
    {
      forall v | v in certified ensures Certified(repo.events, v.candidate, v.evidence.script) {
        CertifiedStays(events, repo.events, v.candidate, v.evidence.script);
      }
    }
  }
}
