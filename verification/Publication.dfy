/** The host's git decisions: what a run is prepared from, and publishing its work, or the branch put back
    on its base, under the lease the preparation took. */
module Publication {
  import opened Options
  import opened GitHistory
  import opened GitRepository

  datatype Category = PrepareFailed | PublicationFailed | RebaseConflict | LeaseConflict | CandidateChanged | VerificationFailed

  datatype Result<+T> = Ok(value: T) | Err(category: Category)

  datatype Target = Normal | Repair(expectedHead: Commit)

  /** What is captured before an agent is launched. */
  datatype Prepared = Prepared(target: Target, baseHead: Commit, baseline: Commit, expected: Option<Commit>)

  datatype Outcome = NoChanges(baseline: Commit) | Published(head: Commit, commitCreated: bool)

  /** The head a run starts from, given what the branch was seen to be; nothing if its lease is gone. */
  function BaselineFor(target: Target, observed: Option<Commit>, base: Commit): Option<Commit> {
    match target
    case Normal => OrElse(observed, Some(base))
    case Repair(expectedHead) => if observed == Some(expectedHead) then observed else None
  }

  /** A workspace at the branch's published head, at the exact head of a repair, or at the base. */
  method PrepareRepository(repo: Repository, target: Target) returns (r: Result<Prepared>)
    requires repo.Valid()
    modifies repo
    ensures repo.Valid() && repo.Pushes() == old(repo.Pushes()) && (repo.gentle ==> Keeps(old(repo.branch), repo.branch))
    ensures r.Ok? ==> repo.failures == old(repo.failures)
    ensures r.Ok? ==> r.value.target == target && Some(r.value.baseline) == BaselineFor(target, r.value.expected, r.value.baseHead)
    ensures r.Ok? ==> repo.work.head == r.value.baseline && !repo.work.dirty
    ensures r.Ok? ==> r.value.expected == repo.listed && repo.BaseFetched(old(repo.baseFetches))
    ensures r.Ok? && repo.exclusive ==>
              repo.work.trackedBase == Some(r.value.baseHead) && (r.value.expected.Some? ==> repo.work.tracked.Some?)
    ensures r == Err(LeaseConflict) ==> BaselineFor(target, repo.listed, repo.base).None?
    // A repair starts at its exact head, other work at the branch's head, or at the base when there is none.
    ensures r.Ok? && target.Repair? ==> r.value.baseline == target.expectedHead && r.value.expected == Some(target.expectedHead)
    ensures r.Ok? && target.Normal? ==> r.value.baseline == if r.value.expected.Some? then r.value.expected.value else r.value.baseHead
    // It succeeds, unless a command fails, the repair's head moved, or the branch went away meanwhile.
    ensures repo.failures == old(repo.failures) ==>
              || r.Ok?
              || (r == Err(LeaseConflict) && target.Repair? && repo.listed != Some(target.expectedHead))
              || (r == Err(PrepareFailed) && repo.listed.Some? && repo.sighted.None?)
    ensures repo.failures >= old(repo.failures)
  {
    var ready := repo.Begin();
    if !ready { return Err(PrepareFailed); }
    var base := repo.FetchBase();
    if base.None? { return Err(PrepareFailed); }
    var seen := repo.RemoteHead();
    if seen.None? { return Err(PrepareFailed); }
    var observed := seen.value;
    if target.Repair? && observed != Some(target.expectedHead) {
      return Err(LeaseConflict);
    }
    var baseline := base.value;
    if observed.Some? {
      var fetched := repo.FetchBranch();
      if !fetched { return Err(PrepareFailed); }
      baseline := observed.value;
    }
    var ok := repo.CheckoutAt(baseline);
    if !ok { return Err(PrepareFailed); }
    return Ok(Prepared(target, base.value, baseline, observed));
  }

  /** Whether the branch, as the remote has it now, carries the commit. Not being able to tell is a no. */
  method AlreadyOnRemote(repo: Repository, committed: Commit) returns (delivered: bool)
    requires repo.Valid()
    modifies repo
    ensures repo.Valid() && repo.Pushes() == old(repo.Pushes()) && (repo.gentle ==> Keeps(old(repo.branch), repo.branch))
    ensures repo.exclusive ==> repo.work == old(repo.work).(tracked := repo.work.tracked)
    ensures delivered ==> Carries(repo.sighted, committed) && repo.failures == old(repo.failures)
    ensures repo.failures == old(repo.failures) && repo.exclusive ==> (delivered <==> Carries(repo.sighted, committed))
    ensures !delivered && repo.gentle && repo.exclusive && old(Carries(repo.branch, committed)) ==> repo.failures > old(repo.failures)
    ensures repo.failures >= old(repo.failures) && repo.events == old(repo.events) && repo.baseFetches == old(repo.baseFetches)
  {
    var fetched := repo.FetchBranch();
    if !fetched {
      return false;
    }
    delivered := repo.ContainedIn(committed, repo.work.tracked.value);
  }

  /** Puts HEAD on the fetched base, and takes a rebase that failed back. How that goes is discarded: the
      first failure is the one reported, and `conflict` is how git classified it. */
  method RebaseOntoBase(repo: Repository) returns (r: Result<()>)
    requires repo.Valid()
    modifies repo
    ensures repo.Valid() && repo.Pushes() == old(repo.Pushes()) && (repo.gentle ==> Keeps(old(repo.branch), repo.branch))
    ensures r.Ok? ==> repo.work.trackedBase.Some? && Contains(repo.work.head, repo.work.trackedBase.value)
    ensures r.Ok? && repo.exclusive ==> RebaseMay(repo.work, repo.work.head)
    ensures r.Ok? ==> repo.failures == old(repo.failures)
    ensures r.Err? ==> repo.failures > old(repo.failures) && !r.category.LeaseConflict?
    ensures repo.exclusive && r.Ok? ==> repo.work == old(repo.work).(head := repo.work.head)
    ensures repo.exclusive && r.Err? && old(repo.work).rebase.None? && repo.work.rebase.None? ==> repo.work.head == old(repo.work).head
    ensures repo.sighted == old(repo.sighted) && repo.events == old(repo.events) && repo.baseFetches == old(repo.baseFetches)
  {
    var ok := repo.RebaseCommand();
    if ok {
      return Ok(());
    }
    var conflict: bool := *;
    var aborted := repo.AbortCommand();
    return Err(if conflict then RebaseConflict else PublicationFailed);
  }

  /** The branch was seen, or is, somewhere else than where the preparation found it. */
  ghost predicate MovedFrom(repo: Repository, prepared: Prepared) reads repo {
    repo.listed != prepared.expected || repo.branch != prepared.expected
  }

  /** Pushes HEAD, or a named object, provided the branch is where the preparation found it: read once to
      tell a moved branch from a rejected push, and enforced again by the remote. */
  method PushUnderLease(repo: Repository, prepared: Prepared, commit: Option<Commit>) returns (r: Result<()>, ghost landed: bool)
    requires repo.Valid()
    modifies repo
    ensures repo.Valid() && (repo.exclusive ==> repo.work == old(repo.work))
    ensures landed ==> repo.branch.Some? && repo.Pushes() == old(repo.Pushes()) + [Update(true, prepared.expected, repo.branch)]
    ensures landed ==> if commit.Some? then repo.branch == commit else repo.exclusive ==> repo.branch == Some(repo.work.head)
    ensures landed && repo.gentle ==> Keeps(old(repo.branch), prepared.expected)
    ensures !landed ==> repo.Pushes() == old(repo.Pushes()) && (repo.gentle ==> Keeps(old(repo.branch), repo.branch))
    ensures r.Ok? ==> landed && repo.sighted == repo.branch && repo.failures == old(repo.failures)
    ensures r == Err(LeaseConflict) ==> !landed && repo.sighted != prepared.expected
    ensures r.Err? ==> r.category.LeaseConflict? || r.category.PublicationFailed?
    ensures landed && r.Err? ==> repo.failures > old(repo.failures)
    ensures repo.failures == old(repo.failures) ==> r.Ok? || MovedFrom(repo, prepared)
    ensures repo.events == old(repo.events) && repo.failures >= old(repo.failures) && repo.baseFetches == old(repo.baseFetches)
  {
    landed := false;
    var actual := repo.RemoteHead();
    if actual.None? {
      return Err(PublicationFailed), false;
    }
    if actual.value != prepared.expected {
      return Err(LeaseConflict), false;
    }
    var ok;
    ok, landed := repo.Push(commit, prepared.expected);
    return if ok then Ok(()) else Err(PublicationFailed), landed;
  }

  /** What a publication begins with: no rebase open, everything uncommitted made one commit, and HEAD
      with whether there was anything. */
  method CommitChanges(repo: Repository, note: nat) returns (r: Result<(Commit, bool)>)
    requires repo.Valid()
    modifies repo
    ensures repo.Valid() && repo.Pushes() == old(repo.Pushes()) && (repo.gentle ==> Keeps(old(repo.branch), repo.branch))
    ensures repo.failures >= old(repo.failures) && repo.baseFetches == old(repo.baseFetches)
    ensures repo.failures == old(repo.failures) && repo.exclusive ==> (r.Ok? <==> old(repo.work.rebase.None?))
    ensures r.Ok? && repo.exclusive ==> r.value == (repo.work.head, old(repo.work.dirty)) && old(repo.work.rebase.None?)
    ensures r.Ok? && repo.exclusive ==>
              repo.work == (if old(repo.work.dirty) then old(repo.work).(head := repo.work.head, dirty := false) else old(repo.work))
              && Contains(repo.work.head, old(repo.work.head))
    ensures r.Ok? && repo.exclusive && old(repo.work.dirty) ==>
              repo.work.head == Commit([old(repo.work.head)], repo.work.head.tree, note)
    ensures repo.failures == old(repo.failures) ==> r.Ok? || r == Err(RebaseConflict)
    ensures r.Ok? ==> repo.failures == old(repo.failures)
    ensures r.Err? ==> !r.category.LeaseConflict?
  {
    var paused := repo.Rebasing();
    if paused.None? { return Err(PublicationFailed); }
    if paused.value { return Err(RebaseConflict); }
    var status := repo.Status();
    if status.None? { return Err(PublicationFailed); }
    if status.value {
      var committed := repo.CommitEverything(note);
      if !committed { return Err(PublicationFailed); }
    }
    var head := repo.Head();
    if head.None? { return Err(PublicationFailed); }
    return Ok((head.value, status.value));
  }

  /** Publishes what the workspace holds. `landed` is what the remote took from this call, whether or not
      the host was told. */
  method PublishRepository(repo: Repository, prepared: Prepared, note: nat) returns (r: Result<Outcome>, ghost landed: Option<Commit>)
    requires repo.Valid()
    modifies repo
    ensures repo.Valid()
    // At most one push, and of nothing but the head recorded at preparation.
    ensures repo.Pushes() == old(repo.Pushes()) + (if landed.Some? then [Update(true, prepared.expected, landed)] else [])
    ensures landed.Some? && repo.gentle ==> Keeps(old(repo.branch), prepared.expected)
    ensures landed.None? && repo.gentle ==> Keeps(old(repo.branch), repo.branch)
    // What is reported published is on the branch, and is HEAD.
    ensures r.Ok? && r.value.Published? && repo.exclusive ==>
              Carries(repo.sighted, r.value.head) && r.value.head == repo.work.head && (landed.Some? ==> landed == Some(r.value.head))
    // It succeeds, unless a command fails, a rebase was left open, or the branch has moved; and it reports
    // no changes exactly for a clean workspace at the baseline.
    ensures repo.failures == old(repo.failures) && repo.exclusive ==>
              || r.Ok?
              || (r == Err(RebaseConflict) && old(repo.work.rebase.Some?))
              || MovedFrom(repo, prepared)
    ensures repo.failures == old(repo.failures) ==> r.Ok? || r == Err(RebaseConflict) || MovedFrom(repo, prepared)
    ensures r.Ok? && repo.exclusive ==>
              (r.value.NoChanges? <==> !old(repo.work.dirty) && old(repo.work.head) == prepared.baseline)
    ensures r.Ok? && r.value.NoChanges? ==>
              landed.None? && r.value.baseline == prepared.baseline
              && (repo.exclusive ==> !old(repo.work.dirty) && repo.work == old(repo.work) && repo.work.head == prepared.baseline)
    ensures r.Ok? && r.value.Published? && repo.exclusive ==>
              !repo.work.dirty && r.value.commitCreated == old(repo.work.dirty)
              && (landed.None? ==> Contains(r.value.head, old(repo.work.head)))
    // What is pushed sits on the base as just fetched.
    ensures landed.Some? ==> repo.BaseFetched(old(repo.baseFetches))
    ensures landed.Some? && repo.exclusive ==>
              repo.work.trackedBase.Some? && Contains(landed.value, repo.work.trackedBase.value)
    ensures r == Err(LeaseConflict) ==> landed.None? && repo.sighted != prepared.expected
    // What a push leaves behind, whether or not the host was told of it.
    ensures landed.Some? ==> repo.branch == landed && (r.Err? ==> repo.failures > old(repo.failures))
    ensures landed.Some? && repo.exclusive ==> Landed(repo.work, landed.value)
    ensures repo.failures >= old(repo.failures)
    // A retry of work the branch carries already.
    ensures repo.exclusive && repo.gentle && Delivered(old(repo.work), old(repo.branch)) && repo.failures == old(repo.failures) ==>
              landed.None? && Carries(repo.branch, old(repo.work.head)) && r == Ok(RetryOutcome(old(repo.work.head), prepared))
    ensures repo.exclusive && repo.gentle && Delivered(old(repo.work), old(repo.branch)) &&
            !Carries(prepared.expected, old(repo.work.head)) ==>
              && landed.None? && Carries(repo.branch, old(repo.work.head))
              && (r.Ok? ==> r.value == RetryOutcome(old(repo.work.head), prepared))
  {
    landed := None;
    var committed := CommitChanges(repo, note);
    if committed.Err? { return Err(committed.category), None; }
    var (head, dirty) := committed.value;
    if !dirty && head == prepared.baseline {
      return Ok(NoChanges(prepared.baseline)), None;
    }
    var delivered := AlreadyOnRemote(repo, head);
    if delivered {
      return Ok(Published(head, dirty)), None;
    }
    var base := repo.FetchBase();
    if base.None? { return Err(PublicationFailed), None; }
    var pushed;
    pushed, landed := RebaseAndPush(repo, prepared);
    return (match pushed case Ok(sent) => Ok(Published(sent, dirty)) case Err(category) => Err(category)), landed;
  }

  /** What a publication and a rebase end with: HEAD on the fetched base, pushed under the lease. */
  method RebaseAndPush(repo: Repository, prepared: Prepared) returns (r: Result<Commit>, ghost landed: Option<Commit>)
    requires repo.Valid()
    modifies repo
    ensures repo.Valid() && repo.failures >= old(repo.failures) && repo.baseFetches == old(repo.baseFetches)
    ensures repo.exclusive && r.Ok? ==> repo.work == old(repo.work).(head := repo.work.head)
    ensures repo.Pushes() == old(repo.Pushes()) + (if landed.Some? then [Update(true, prepared.expected, landed)] else [])
    ensures landed.Some? && repo.gentle ==> Keeps(old(repo.branch), prepared.expected)
    ensures landed.None? && repo.gentle ==> Keeps(old(repo.branch), repo.branch)
    ensures r.Ok? ==> landed.Some? && repo.sighted == landed && repo.failures == old(repo.failures)
    ensures repo.failures == old(repo.failures) ==> r.Ok? || MovedFrom(repo, prepared)
    ensures r.Ok? && repo.exclusive ==> landed == Some(r.value) && r.value == repo.work.head
    ensures landed.Some? ==> repo.branch == landed && (r.Err? ==> repo.failures > old(repo.failures))
    ensures landed.Some? && repo.exclusive ==>
              && landed == Some(repo.work.head) && repo.work == old(repo.work).(head := repo.work.head)
              && RebaseMay(repo.work, landed.value)
    ensures r == Err(LeaseConflict) ==> landed.None? && repo.sighted != prepared.expected
  {
    landed := None;
    var rebased := RebaseOntoBase(repo);
    if rebased.Err? { return Err(rebased.category), None; }
    var head := repo.Head();
    if head.None? { return Err(PublicationFailed), None; }
    var pushed;
    ghost var took;
    pushed, took := PushUnderLease(repo, prepared, None);
    landed := if took then repo.branch else None;
    if pushed.Err? { return Err(pushed.category), landed; }
    return Ok(head.value), landed;
  }

  /** The workspace a push leaves: clean, no rebase open, HEAD what the remote took, and on the base as
      fetched. */
  ghost predicate Landed(work: Worktree, landed: Commit) {
    work.head == landed && !work.dirty && work.rebase.None? && work.trackedBase.Some? && Contains(landed, work.trackedBase.value)
  }

  /** Nothing to commit, and HEAD is on the branch. */
  ghost predicate Delivered(work: Worktree, branch: Option<Commit>) {
    !work.dirty && work.rebase.None? && Carries(branch, work.head)
  }

  /** Published, unless what was delivered is the baseline itself. */
  function RetryOutcome(head: Commit, prepared: Prepared): Outcome {
    if head == prepared.baseline then NoChanges(prepared.baseline) else Published(head, false)
  }

  /** Puts a branch that fell behind back on the base, with nothing committed. */
  method RebaseRepository(repo: Repository, prepared: Prepared) returns (r: Result<Outcome>, ghost landed: Option<Commit>)
    requires repo.Valid()
    modifies repo
    ensures repo.Valid()
    ensures repo.Pushes() == old(repo.Pushes()) + (if landed.Some? then [Update(true, prepared.expected, landed)] else [])
    ensures landed.Some? && repo.gentle ==> Keeps(old(repo.branch), prepared.expected)
    ensures landed.None? && repo.gentle ==> Keeps(old(repo.branch), repo.branch)
    ensures r.Ok? && repo.exclusive ==> repo.work.trackedBase.Some? && Contains(repo.work.head, repo.work.trackedBase.value)
    ensures r.Ok? || landed.Some? ==> repo.BaseFetched(old(repo.baseFetches))
    ensures r.Ok? && r.value.NoChanges? ==> landed.None? && r.value.baseline == prepared.baseline
    ensures r.Ok? && r.value.NoChanges? && repo.exclusive ==> repo.work.head == old(repo.work.head)
    // It succeeds, unless a command fails or the branch has moved; and it moves a branch exactly when that
    // is behind the base as fetched.
    ensures repo.failures == old(repo.failures) ==> r.Ok? || MovedFrom(repo, prepared)
    ensures repo.failures == old(repo.failures) && r.Ok? && repo.exclusive ==>
              (r.value.NoChanges? <==> Contains(old(repo.work.head), repo.work.trackedBase.value))
    ensures repo.failures >= old(repo.failures)
    ensures r.Ok? && r.value.Published? && repo.exclusive ==>
              landed == Some(r.value.head) && repo.sighted == landed && r.value.head == repo.work.head && !r.value.commitCreated
    ensures r == Err(LeaseConflict) ==> landed.None? && repo.sighted != prepared.expected
  {
    var base := repo.FetchBase();
    if base.None? { return Err(PublicationFailed), None; }
    var onBase := repo.HeadContains(base.value);
    if onBase {
      return Ok(NoChanges(prepared.baseline)), None;
    }
    var pushed;
    pushed, landed := RebaseAndPush(repo, prepared);
    return (match pushed case Ok(sent) => Ok(Published(sent, false)) case Err(category) => Err(category)), landed;
  }

  /** A publication, and a retry of it after others have acted: what a delivery does when the first
      answer does not come. If the remote took the first push, the retry pushes nothing, what was pushed
      is still there whatever others built on it, and the retry says so; `missed` counts the commands
      that failed during the retry. */
  method PublishTwice(repo: Repository, prepared: Prepared, note: nat, noteAgain: nat)
    returns (first: Result<Outcome>, second: Result<Outcome>, ghost landed: Option<Commit>, ghost again: Option<Commit>, ghost missed: nat)
    requires repo.Valid() && repo.exclusive && repo.gentle
    modifies repo
    ensures repo.Valid() && repo.failures >= old(repo.failures) + missed + if first.Err? && landed.Some? then 1 else 0
    ensures landed.Some? && missed == 0 ==>
              again.None? && Carries(repo.branch, landed.value) && second == Ok(RetryOutcome(landed.value, prepared))
    ensures landed.Some? && !Carries(prepared.expected, landed.value) ==>
              && again.None? && Carries(repo.branch, landed.value)
              && (second.Ok? ==> second.value == RetryOutcome(landed.value, prepared))
    ensures repo.Pushes() == old(repo.Pushes()) + PushOf(prepared, landed) + PushOf(prepared, again)
  {
    first, landed := PublishRepository(repo, prepared, note);
    repo.Elsewhere();
    ghost var before := repo.failures;
    second, again := PublishRepository(repo, prepared, noteAgain);
    missed := repo.failures - before;
  }

  ghost function PushOf(prepared: Prepared, landed: Option<Commit>): seq<Update> {
    if landed.Some? then [Update(true, prepared.expected, landed)] else []
  }

  /** Any number of publications and rebases under one preparation, in any order, with others acting in
      between: every push is over the head that preparation recorded, and on a remote whose other writers
      only build on top nothing beyond that head is ever taken off, so not one push lands. */
  method DeliverRepeatedly(repo: Repository, prepared: Prepared, calls: nat) returns (ghost pushed: seq<Update>)
    requires repo.Valid()
    modifies repo
    ensures repo.Valid() && repo.Pushes() == old(repo.Pushes()) + pushed && Leased(pushed, prepared.expected)
    ensures repo.gentle ==> forall c :: old(Carries(repo.branch, c)) && !Carries(prepared.expected, c) ==>
              pushed == [] && Carries(repo.branch, c)
  {
    pushed := [];
    var left := calls;
    while left > 0
      invariant repo.Valid() && repo.Pushes() == old(repo.Pushes()) + pushed && Leased(pushed, prepared.expected)
      invariant repo.gentle ==> forall c :: old(Carries(repo.branch, c)) && !Carries(prepared.expected, c) ==>
                  pushed == [] && Carries(repo.branch, c)
    {
      var rebase: bool, note: nat := *, *;
      var _, landed := Deliver(repo, prepared, rebase, note);
      pushed := pushed + PushOf(prepared, landed);
      left := left - 1;
    }
  }

  method Deliver(repo: Repository, prepared: Prepared, rebase: bool, note: nat) returns (r: Result<Outcome>, ghost landed: Option<Commit>)
    requires repo.Valid()
    modifies repo
    ensures repo.Valid() && repo.Pushes() == old(repo.Pushes()) + PushOf(prepared, landed)
    ensures repo.gentle ==> Keeps(old(repo.branch), if landed.Some? then prepared.expected else repo.branch)
  {
    repo.Elsewhere();
    if rebase {
      r, landed := RebaseRepository(repo, prepared);
    } else {
      r, landed := PublishRepository(repo, prepared, note);
    }
  }

  /** The one way a retry of delivered work reads as no work at all: the branch was new, and what was
      pushed to it came out as the very base it was prepared from. */
  lemma RetryReadsAsNoChanges(work: Worktree, branch: Option<Commit>, prepared: Prepared)
    requires Delivered(work, branch) && !Carries(prepared.expected, work.head)
    requires Some(prepared.baseline) == BaselineFor(prepared.target, prepared.expected, prepared.baseHead)
    ensures RetryOutcome(work.head, prepared).NoChanges? <==>
              prepared.expected.None? && prepared.target.Normal? && work.head == prepared.baseHead
  {
    assert prepared.expected.Some? ==> Contains(prepared.expected.value, prepared.baseline);
  }

  /** It happens: a new branch, a clean workspace behind the base, and a base that has not moved. The
      publication finds HEAD off the baseline, the rebase may bring it to the base itself, and what that
      push leaves is delivered and reads as no changes. */
  lemma RetryCanReadAsNoChanges(base: Commit, behind: Commit)
    returns (prepared: Prepared, before: Worktree, after: Worktree)
    requires Contains(base, behind) && behind != base
    ensures Some(prepared.baseline) == BaselineFor(prepared.target, prepared.expected, prepared.baseHead)
    ensures !before.dirty && before.head == behind && before.head != prepared.baseline
    ensures RebaseMay(before, base) && after == before.(head := base)
    ensures Landed(after, base) && Delivered(after, Some(base)) && !Carries(prepared.expected, base)
    ensures RetryOutcome(base, prepared) == NoChanges(prepared.baseline)
  {
    prepared := Prepared(Normal, base, base, None);
    before := Worktree(behind, false, None, None, Some(base));
    after := before.(head := base);
  }
}
