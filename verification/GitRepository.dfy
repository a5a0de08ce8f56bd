/** The workspace and the remote as the host's git commands see and change them, one command at a time,
    with everybody else acting in between. */
module GitRepository {
  import opened Options
  import opened GitHistory

  /** `rebase` is where a rebase in progress started from; the tracked refs are the workspace's copies. */
  datatype Worktree = Worktree(
    head: Commit, dirty: bool, rebase: Option<Commit>, tracked: Option<Commit>, trackedBase: Option<Commit>)

  /** What was seen of the workspace, and how the verification command ended in it. */
  datatype Event = SawHead(commit: Commit) | SawTree(tree: nat) | SawClean | SawDirty | Passed(script: string) | NotPassed

  /** A rebase may put HEAD at any commit on the fetched base, unless another is in progress. */
  predicate RebaseMay(work: Worktree, onto: Commit) {
    work.rebase.None? && work.trackedBase.Some? && Contains(onto, work.trackedBase.value)
  }

  class Repository {
    /** Nobody but the host touches the workspace. */
    const exclusive: bool
    /** Nobody but the host takes anything off the branch. */
    const gentle: bool
    ghost const start: Option<Commit>

    var branch: Option<Commit>
    var base: Commit
    var work: Worktree

    /** The branch as a host command last saw or left it, as `ls-remote` last answered, the base each time
        it was fetched, how many commands have failed, and what has been seen of the workspace. A fetch of a
        branch that is not there, and a push the lease refuses, tell how things are: they are no failures. */
    ghost var sighted: Option<Commit>
    ghost var listed: Option<Commit>
    ghost var baseFetches: seq<Commit>
    ghost var failures: nat
    ghost var events: seq<Event>
    ghost var history: seq<Update>

    ghost predicate Valid() reads this {
      && Linked(start, history) && branch == BranchAt(start, history, |history|)
      && (gentle ==> OthersBuildOnTop(history, 0))
    }

    /** The base was fetched since, and the workspace has it as the remote had it then. */
    ghost predicate BaseFetched(older: seq<Commit>) reads this {
      |older| < |baseFetches| && (exclusive ==> work.trackedBase == Some(baseFetches[|baseFetches| - 1]))
    }

    ghost function Pushes(): seq<Update> reads this { Hosted(history) }

    constructor (exclusive: bool, gentle: bool, branch: Option<Commit>, base: Commit, work: Worktree)
      ensures Valid() && Pushes() == [] && start == branch && events == [] && baseFetches == [] && failures == 0
      ensures this.exclusive == exclusive && this.gentle == gentle
      ensures this.branch == branch && this.base == base && this.work == work
    {
      this.exclusive, this.gentle, this.start, this.branch, this.base, this.work := exclusive, gentle, branch, branch, base, work;
      sighted, listed, baseFetches, failures, events, history := None, None, [], 0, [], [];
    }

    /** What the branch carried at any moment of this history it carries now, if others only build on it
        and every push the host has made since was under a lease that does not cover it. */
    lemma NothingTakenOff(from: nat, expected: Option<Commit>, c: Commit)
      requires Valid() && gentle && from <= |history| && Carries(BranchAt(start, history, from), c)
      requires Leased(Hosted(history[from..]), expected) && !Carries(expected, c)
      ensures Carries(branch, c)
    {
      LeasedSince(history, from, expected);
      DeliveredStays(start, history, from, |history|, expected, c);
    }

    /** One change of the branch on the remote. */
    method Change(u: Update)
      requires Valid() && u.before == branch && (gentle && !u.byHost ==> Keeps(u.before, u.after))
      modifies this`branch, this`history
      ensures Valid() && branch == u.after && Pushes() == old(Pushes()) + (if u.byHost then [u] else [])
    {
      Appends(start, history, u);
      history := history + [u];
      branch := u.after;
    }

    /** Everybody else: any number of changes of the remote, and of the workspace unless it is ours. */
    method Elsewhere()
      requires Valid()
      modifies this`branch, this`base, this`work, this`history
      ensures Valid() && Pushes() == old(Pushes()) && (gentle ==> Keeps(old(branch), branch))
      ensures exclusive ==> work == old(work)
    {
      var moves: nat := *;
      while moves > 0
        invariant Valid() && Pushes() == old(Pushes()) && (gentle ==> Keeps(old(branch), branch)) && work == old(work)
      {
        var to: Option<Commit> := *;
        if gentle && branch.Some? && !Carries(to, branch.value) {
          to := branch;
        }
        if gentle { KeepsOnTop(branch, to); }
        Change(Update(false, branch, to));
        moves := moves - 1;
      }
      base := *;
      if !exclusive {
        work := *;
      }
    }

    /** A command, once it has started: others have acted, and it works or fails. */
    method Begin() returns (ok: bool)
      requires Valid()
      modifies this`branch, this`base, this`work, this`history, this`failures
      ensures Valid() && Pushes() == old(Pushes()) && (gentle ==> Keeps(old(branch), branch))
      ensures exclusive ==> work == old(work)
      ensures failures == if ok then old(failures) else old(failures) + 1
    {
      Elsewhere();
      ok := *;
      if !ok {
        failures := failures + 1;
      }
    }

    /** `status`: whether anything is uncommitted. */
    method Status() returns (dirty: Option<bool>)
      requires Valid()
      modifies this`branch, this`base, this`work, this`history, this`failures, this`events
      ensures Valid() && Pushes() == old(Pushes()) && (gentle ==> Keeps(old(branch), branch))
      ensures exclusive ==> work == old(work)
      ensures failures == if dirty.Some? then old(failures) else old(failures) + 1
      ensures dirty.Some? ==> dirty.value == work.dirty
      ensures events == if dirty.None? then old(events) else old(events) + [if dirty.value then SawDirty else SawClean]
    {
      var ok := Begin();
      if !ok {
        return None;
      }
      dirty := Some(work.dirty);
      events := events + [if work.dirty then SawDirty else SawClean];
    }

    /** `rev-parse HEAD`. */
    method Head() returns (head: Option<Commit>)
      requires Valid()
      modifies this`branch, this`base, this`work, this`history, this`failures, this`events
      ensures Valid() && Pushes() == old(Pushes()) && (gentle ==> Keeps(old(branch), branch))
      ensures exclusive ==> work == old(work)
      ensures failures == if head.Some? then old(failures) else old(failures) + 1
      ensures head.Some? ==> head.value == work.head
      ensures events == if head.None? then old(events) else old(events) + [SawHead(head.value)]
    {
      var ok := Begin();
      if !ok {
        return None;
      }
      head := Some(work.head);
      events := events + [SawHead(work.head)];
    }

    /** `rev-parse HEAD^{tree}`. */
    method Tree() returns (tree: Option<nat>)
      requires Valid()
      modifies this`branch, this`base, this`work, this`history, this`failures, this`events
      ensures Valid() && Pushes() == old(Pushes()) && (gentle ==> Keeps(old(branch), branch))
      ensures exclusive ==> work == old(work)
      ensures failures == if tree.Some? then old(failures) else old(failures) + 1
      ensures tree.Some? ==> tree.value == work.head.tree
      ensures events == if tree.None? then old(events) else old(events) + [SawTree(tree.value)]
    {
      var ok := Begin();
      if !ok {
        return None;
      }
      tree := Some(work.head.tree);
      events := events + [SawTree(work.head.tree)];
    }

    /** Whether a rebase was left in progress. */
    method Rebasing() returns (paused: Option<bool>)
      requires Valid()
      modifies this`branch, this`base, this`work, this`history, this`failures
      ensures Valid() && Pushes() == old(Pushes()) && (gentle ==> Keeps(old(branch), branch))
      ensures exclusive ==> work == old(work)
      ensures failures == if paused.Some? then old(failures) else old(failures) + 1
      ensures paused.Some? ==> paused.value == work.rebase.Some?
    {
      var ok := Begin();
      return if ok then Some(work.rebase.Some?) else None;
    }

    /** `ls-remote`: the branch as the remote has it now. */
    method RemoteHead() returns (head: Option<Option<Commit>>)
      requires Valid()
      modifies this`branch, this`base, this`work, this`history, this`failures, this`sighted, this`listed
      ensures Valid() && Pushes() == old(Pushes()) && (gentle ==> Keeps(old(branch), branch))
      ensures exclusive ==> work == old(work)
      ensures failures == if head.Some? then old(failures) else old(failures) + 1
      ensures if head.Some? then head.value == branch == sighted == listed else sighted == old(sighted) && listed == old(listed)
    {
      var ok := Begin();
      if !ok {
        return None;
      }
      sighted, listed := branch, branch;
      return Some(branch);
    }

    /** `fetch` of the branch, which does not succeed when there is none. */
    method FetchBranch() returns (ok: bool)
      requires Valid()
      modifies this`branch, this`base, this`work, this`history, this`failures, this`sighted
      ensures Valid() && Pushes() == old(Pushes()) && (gentle ==> Keeps(old(branch), branch))
      ensures exclusive ==> work == old(work).(tracked := work.tracked)
      ensures ok ==> work.tracked == branch && failures == old(failures)
      ensures if failures == old(failures) then sighted == branch && (ok <==> branch.Some?) else failures > old(failures) && !ok
    {
      ok := Begin();
      if ok {
        sighted := branch;
        ok := branch.Some?;
      }
      if ok {
        work := work.(tracked := branch);
      }
    }

    /** `fetch` of one object the remote has, by its name. */
    method FetchObject(commit: Commit) returns (ok: bool)
      requires Valid()
      modifies this`branch, this`base, this`work, this`history, this`failures
      ensures Valid() && Pushes() == old(Pushes()) && (gentle ==> Keeps(old(branch), branch))
      ensures exclusive ==> work == old(work)
      ensures failures == if ok then old(failures) else old(failures) + 1
    {
      ok := Begin();
    }

    /** `fetch` of the protected base, and `rev-parse` of the workspace's copy of it. */
    method FetchBase() returns (head: Option<Commit>)
      requires Valid()
      modifies this`branch, this`base, this`work, this`history, this`failures, this`baseFetches
      ensures Valid() && Pushes() == old(Pushes()) && (gentle ==> Keeps(old(branch), branch))
      ensures exclusive ==> work == old(work).(trackedBase := work.trackedBase)
      ensures head.Some? ==> head == work.trackedBase && failures == old(failures)
      ensures head.None? ==> failures > old(failures)
      ensures head.Some? ==> BaseFetched(old(baseFetches))
    {
      var ok := Begin();
      if !ok {
        return None;
      }
      work := work.(trackedBase := Some(base));
      baseFetches := baseFetches + [base];
      ok := Begin();
      if ok && work.trackedBase.None? {
        ok, failures := false, failures + 1;
      }
      return if ok then work.trackedBase else None;
    }

    /** `merge-base --is-ancestor`. A failure reads as "not contained". */
    method ContainedIn(candidate: Commit, reference: Commit) returns (yes: bool)
      requires Valid()
      modifies this`branch, this`base, this`work, this`history, this`failures
      ensures Valid() && Pushes() == old(Pushes()) && (gentle ==> Keeps(old(branch), branch))
      ensures exclusive ==> work == old(work)
      ensures yes ==> Contains(reference, candidate) && failures == old(failures)
      ensures !yes ==> if Contains(reference, candidate) then failures > old(failures) else failures >= old(failures)
    {
      var ok := Begin();
      return ok && Contains(reference, candidate);
    }

    /** The same question of HEAD. */
    method HeadContains(candidate: Commit) returns (yes: bool)
      requires Valid()
      modifies this`branch, this`base, this`work, this`history, this`failures
      ensures Valid() && Pushes() == old(Pushes()) && (gentle ==> Keeps(old(branch), branch))
      ensures exclusive ==> work == old(work)
      ensures yes ==> Contains(work.head, candidate) && failures == old(failures)
      ensures !yes ==> if Contains(work.head, candidate) then failures > old(failures) else failures >= old(failures)
    {
      var ok := Begin();
      return ok && Contains(work.head, candidate);
    }

    /** `add --all`, `show` and `commit`: everything uncommitted becomes one commit on top of HEAD. */
    method CommitEverything(note: nat) returns (ok: bool)
      requires Valid()
      modifies this`branch, this`base, this`work, this`history, this`failures
      ensures Valid() && Pushes() == old(Pushes()) && (gentle ==> Keeps(old(branch), branch))
      ensures exclusive && ok ==> work == old(work).(head := Commit([old(work).head], work.head.tree, note), dirty := false)
      ensures exclusive && !ok ==> work == old(work)
      ensures exclusive ==> Contains(work.head, old(work).head) && forall c :: Contains(old(work).head, c) ==> Contains(work.head, c)
      ensures failures == if ok then old(failures) else old(failures) + 1
    {
      ok := Begin();
      if ok {
        var tree: nat := *;
        ghost var was := work.head;
        work := work.(head := Commit([work.head], tree, note), dirty := false);
        assert was in work.head.parents;
      }
    }

    /** `checkout -B` and `reset --hard`: nothing is carried over. */
    method CheckoutAt(commit: Commit) returns (ok: bool)
      requires Valid()
      modifies this`branch, this`base, this`work, this`history, this`failures
      ensures Valid() && Pushes() == old(Pushes()) && (gentle ==> Keeps(old(branch), branch))
      ensures failures == if ok then old(failures) else old(failures) + 1
      ensures ok ==> work.head == commit && !work.dirty
      ensures exclusive ==> work == if ok then old(work).(head := commit, dirty := false) else old(work)
    {
      ok := Begin();
      if ok {
        work := work.(head := commit, dirty := false);
      }
    }

    /** `rebase`: on success HEAD sits on the fetched base; otherwise the rebase may be left in progress
        anywhere, or not have started. */
    method RebaseCommand() returns (ok: bool)
      requires Valid()
      modifies this`branch, this`base, this`work, this`history, this`failures
      ensures Valid() && Pushes() == old(Pushes()) && (gentle ==> Keeps(old(branch), branch))
      ensures failures == if ok then old(failures) else old(failures) + 1
      ensures ok ==> work.trackedBase.Some? && Contains(work.head, work.trackedBase.value)
      ensures exclusive && ok ==> work == old(work).(head := work.head) && work.rebase.None?
      ensures exclusive && !ok ==>
                || work == old(work)
                || (old(work).rebase.None? && work == old(work).(head := work.head, dirty := work.dirty, rebase := Some(old(work).head)))
    {
      ok := Begin();
      var onto: Commit := *;
      if ok && !RebaseMay(work, onto) {
        ok, failures := false, failures + 1;
      }
      if ok {
        work := work.(head := onto);
      } else if work.rebase.None? {
        var started: bool, dirty: bool := *, *;
        if started {
          work := work.(head := onto, dirty := dirty, rebase := Some(work.head));
        }
      }
    }

    /** `rebase --abort`: back to where the rebase in progress started, if there is one. */
    method AbortCommand() returns (ok: bool)
      requires Valid()
      modifies this`branch, this`base, this`work, this`history, this`failures
      ensures Valid() && Pushes() == old(Pushes()) && (gentle ==> Keeps(old(branch), branch))
      ensures failures == if ok then old(failures) else old(failures) + 1
      ensures exclusive && ok ==>
                old(work).rebase.Some? && work == old(work).(head := old(work).rebase.value, dirty := false, rebase := None)
      ensures exclusive && !ok ==> work == old(work)
    {
      ok := Begin();
      if ok && work.rebase.None? {
        ok, failures := false, failures + 1;
      }
      if ok {
        work := work.(head := work.rebase.value, dirty := false, rebase := None);
      }
    }

    /** The verification command, which may change anything in the workspace it runs in. */
    method Verify(script: string) returns (passed: Option<bool>)
      requires Valid()
      modifies this`branch, this`base, this`work, this`history, this`failures, this`events
      ensures Valid() && Pushes() == old(Pushes()) && (gentle ==> Keeps(old(branch), branch))
      ensures failures == if passed.Some? then old(failures) else old(failures) + 1
      ensures events == if passed.None? then old(events) else old(events) + [if passed.value then Passed(script) else NotPassed]
    {
      var ok := Begin();
      work := *;
      if !ok {
        return None;
      }
      var good: bool := *;
      events := events + [if good then Passed(script) else NotPassed];
      return Some(good);
    }

    /** `push --force-with-lease`: the remote compares and swaps in one step, and its answer may be lost.
        `commit` names an object; without one, HEAD is what is pushed. `landed` is what the remote did. */
    method Push(commit: Option<Commit>, expected: Option<Commit>) returns (ok: bool, ghost landed: bool)
      requires Valid()
      modifies this`branch, this`base, this`work, this`history, this`failures, this`sighted
      ensures Valid() && (exclusive ==> work == old(work))
      ensures ok ==> failures == old(failures)
      ensures !ok ==> failures > old(failures) || (!landed && branch != expected && failures == old(failures))
      ensures landed ==> branch.Some? && Pushes() == old(Pushes()) + [Update(true, expected, branch)]
      ensures landed ==> if commit.Some? then branch == commit else exclusive ==> branch == Some(work.head)
      ensures landed && gentle ==> Keeps(old(branch), expected)
      ensures !landed ==> Pushes() == old(Pushes()) && (gentle ==> Keeps(old(branch), branch))
      ensures if ok then landed && sighted == branch else sighted == old(sighted)
    {
      Elsewhere();
      var arrives: bool, answered: bool := *, *;
      if !arrives || !answered {
        failures := failures + 1;
      }
      arrives := arrives && branch == expected;
      ok, landed := arrives && answered, arrives;
      if arrives {
        Change(Update(true, branch, Some(if commit.Some? then commit.value else work.head)));
      }
      if ok {
        sighted := branch;
      }
    }
  }
}
