/** Commits, and the history of the one remote branch the host publishes to. */
module GitHistory {
  import opened Options

  /** A commit is its content: what it came from, the tree it records, and what it is for. */
  datatype Commit = Commit(parents: seq<Commit>, tree: nat, note: nat)

  /** `c` is `reference` itself or one of its ancestors. */
  predicate Contains(reference: Commit, c: Commit) {
    reference == c || exists p :: p in reference.parents && Contains(p, c)
  }

  lemma {:induction false} ContainsTransitive(a: Commit, b: Commit, c: Commit)
    requires Contains(a, b) && Contains(b, c)
    ensures Contains(a, c)
    decreases a
  {
    if a != b {
      var p :| p in a.parents && Contains(p, b);
      ContainsTransitive(p, b, c);
    }
  }

  predicate Carries(branch: Option<Commit>, c: Commit) {
    branch.Some? && Contains(branch.value, c)
  }

  /** Whatever the branch carried, it carries still. */
  ghost predicate Keeps(before: Option<Commit>, after: Option<Commit>) {
    forall c :: Carries(before, c) ==> Carries(after, c)
  }

  lemma KeepsOnTop(before: Option<Commit>, after: Option<Commit>)
    requires before.Some? ==> Carries(after, before.value)
    ensures Keeps(before, after)
  {
    forall c | Carries(before, c) ensures Carries(after, c) {
      ContainsTransitive(after.value, before.value, c);
    }
  }

  /** One change of the remote branch, by a push of the host's or by anybody else. */
  datatype Update = Update(byHost: bool, before: Option<Commit>, after: Option<Commit>)

  /** The branch after the first `i` updates. */
  ghost function BranchAt(start: Option<Commit>, history: seq<Update>, i: nat): Option<Commit>
    requires i <= |history|
  {
    if i == 0 then start else history[i - 1].after
  }

  ghost predicate Linked(start: Option<Commit>, history: seq<Update>) {
    forall i {:trigger history[i]} :: 0 <= i < |history| ==> history[i].before == BranchAt(start, history, i)
  }

  /** The host's own pushes, in order. */
  ghost function Hosted(history: seq<Update>): seq<Update> {
    if history == [] then []
    else Hosted(history[..|history| - 1]) + (if history[|history| - 1].byHost then [history[|history| - 1]] else [])
  }

  lemma HostedGrows(history: seq<Update>, u: Update)
    ensures Hosted(history + [u]) == Hosted(history) + (if u.byHost then [u] else [])
  {
    assert (history + [u])[..|history|] == history;
  }

  lemma Appends(start: Option<Commit>, history: seq<Update>, u: Update)
    requires Linked(start, history) && u.before == BranchAt(start, history, |history|)
    ensures Linked(start, history + [u]) && BranchAt(start, history + [u], |history| + 1) == u.after
    ensures Hosted(history + [u]) == Hosted(history) + (if u.byHost then [u] else [])
    ensures OthersBuildOnTop(history, 0) && (u.byHost || Keeps(u.before, u.after)) ==> OthersBuildOnTop(history + [u], 0)
  {
    HostedGrows(history, u);
    var longer := history + [u];
    forall i {:trigger longer[i]} | 0 <= i < |longer| ensures longer[i].before == BranchAt(start, longer, i) {
      if i < |history| { assert longer[i] == history[i]; }
    }
    if OthersBuildOnTop(history, 0) && (u.byHost || Keeps(u.before, u.after)) {
      forall i {:trigger longer[i]} | 0 <= i < |longer| && !longer[i].byHost ensures Keeps(longer[i].before, longer[i].after) {
        if i < |history| { assert longer[i] == history[i]; }
      }
    }
  }

  /** The host overwrote nothing but this head. */
  ghost predicate Leased(pushes: seq<Update>, expected: Option<Commit>) {
    forall u :: u in pushes ==> u.before == expected
  }

  lemma {:induction false} HostedIsLeased(history: seq<Update>, from: nat, expected: Option<Commit>, i: nat)
    requires from <= i < |history| && Leased(Hosted(history[from..]), expected) && history[i].byHost
    ensures history[i].before == expected
    decreases |history|
  {
    var last, rest := |history| - 1, history[from..];
    assert rest[|rest| - 1] == history[last];
    if i < last {
      assert history[..last][from..] == rest[..|rest| - 1];
      HostedIsLeased(history[..last], from, expected, i);
    } else {
      assert history[last] in Hosted(rest);
    }
  }

  /** Over these updates the host overwrote nothing but this head. */
  ghost predicate LeasedBetween(history: seq<Update>, from: nat, until: nat, expected: Option<Commit>)
    requires until <= |history|
  {
    forall i {:trigger history[i]} :: from <= i < until && history[i].byHost ==> history[i].before == expected
  }

  lemma LeasedSince(history: seq<Update>, from: nat, expected: Option<Commit>)
    requires from <= |history| && Leased(Hosted(history[from..]), expected)
    ensures LeasedBetween(history, from, |history|, expected)
  {
    forall i {:trigger history[i]} | from <= i < |history| && history[i].byHost ensures history[i].before == expected {
      HostedIsLeased(history, from, expected, i);
    }
  }

  ghost predicate OthersBuildOnTop(history: seq<Update>, from: nat) {
    forall i {:trigger history[i]} :: from <= i < |history| && !history[i].byHost ==> Keeps(history[i].before, history[i].after)
  }

  /** Whatever reached the branch, the host's own push or anybody's work, stays on it through every push
      the host makes from then on under a lease that does not cover it, whatever leases it held before:
      the host never overwrites it, and so it goes only if somebody else takes it off. */
  lemma {:induction false} DeliveredStays(
    start: Option<Commit>, history: seq<Update>, from: nat, until: nat, expected: Option<Commit>, c: Commit)
    requires Linked(start, history) && from <= until <= |history| && Carries(BranchAt(start, history, from), c)
    requires LeasedBetween(history, from, until, expected) && OthersBuildOnTop(history, from) && !Carries(expected, c)
    ensures Carries(BranchAt(start, history, until), c)
    ensures forall i {:trigger history[i]} :: from <= i < until ==> !history[i].byHost
    decreases until
  {
    if from < until {
      var last := until - 1;
      DeliveredStays(start, history, from, last, expected, c);
      assert history[last].before == BranchAt(start, history, last);
    }
  }

  /** Under one lease the host's pushes cannot follow one another: a second needs somebody else to have put
      the branch back where the preparation found it. */
  lemma {:induction false} SecondPushNeedsUndoing(
    start: Option<Commit>, history: seq<Update>, expected: Option<Commit>, i: nat, j: nat)
    requires Linked(start, history) && i < j < |history| && LeasedBetween(history, i + 1, j + 1, expected)
    requires history[i].byHost && history[j].byHost && history[i].after != expected
    ensures exists k {:trigger history[k]} :: i < k < j && !history[k].byHost && history[k].after == expected
    decreases j - i
  {
    assert history[j].before == BranchAt(start, history, j);
    if history[j - 1].byHost {
      SecondPushNeedsUndoing(start, history, expected, i, j - 1);
    }
  }
}
