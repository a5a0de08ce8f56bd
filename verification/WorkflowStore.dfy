/** The revisioned workflow store: a database worker that commits one revision at a time, and the
    client's table of calls it has not answered yet. */
module WorkflowStore {
  import opened Options

  datatype Row = Row(revision: int, body: string)

  /** The two tables: the current row of each issue, and every revision there ever was. */
  datatype Database = Database(rows: map<string, Row>, history: map<(string, int), string>)

  datatype Commit = Commit(issueId: string, revision: int, expected: Option<int>, body: string)

  datatype Verdict = Committed | Conflict | Storage

  function RevisionOf(rows: map<string, Row>, issueId: string): Option<int> {
    if issueId in rows then Some(rows[issueId].revision) else None
  }

  /** The check a client makes before it asks: a commit advances exactly one revision. */
  predicate AdvancesOne(commit: Commit) {
    commit.revision == if commit.expected.None? then 0 else commit.expected.value + 1
  }

  /** One transaction. The history's key can refuse the insert, and then nothing is written. */
  function Transact(db: Database, commit: Commit): (Database, Verdict) {
    if RevisionOf(db.rows, commit.issueId) != commit.expected then (db, Conflict)
    else if (commit.issueId, commit.revision) in db.history then (db, Storage)
    else
      (Database(db.rows[commit.issueId := Row(commit.revision, commit.body)],
                db.history[(commit.issueId, commit.revision) := commit.body]), Committed)
  }

  /** The worker's tables, updated in place between BEGIN and COMMIT or put back by ROLLBACK. */
  class Worker {
    var rows: map<string, Row>
    var history: map<(string, int), string>

    ghost function View(): Database reads this { Database(rows, history) }

    constructor ()
      ensures View() == INITIAL.db
    {
      rows, history := map[], map[];
    }

    method HandleCommit(commit: Commit) returns (verdict: Verdict)
      modifies this
      ensures (View(), verdict) == Transact(old(View()), commit)
    {
      var began := rows;
      if RevisionOf(rows, commit.issueId) != commit.expected {
        return Conflict;
      }
      rows := rows[commit.issueId := Row(commit.revision, commit.body)];
      if (commit.issueId, commit.revision) in history {
        rows := began;
        return Storage;
      }
      history := history[(commit.issueId, commit.revision) := commit.body];
      return Committed;
    }
  }

  /** A client's calls: those waiting, how many were ever made, whether it gave up, and the answer each
      settled call was resumed with. */
  datatype Client = Client(pending: set<nat>, counter: nat, unavailable: bool, results: map<nat, Verdict>)

  /** Resumes every call of `ids` at once with a storage failure. */
  function FailEach(results: map<nat, Verdict>, ids: set<nat>): map<nat, Verdict> {
    results + map id | id in ids :: Storage
  }

  function FailAll(client: Client): Client {
    client.(pending := {}, unavailable := true, results := FailEach(client.results, client.pending))
  }

  function Answered(client: Client, id: nat, verdict: Verdict): Client {
    if id in client.pending then client.(pending := client.pending - {id}, results := client.results[id := verdict])
    else client
  }

  /** The client's table of pending calls, updated in place by the events of its worker. */
  class Connection {
    var pending: set<nat>
    var counter: nat
    var unavailable: bool
    var results: map<nat, Verdict>

    ghost function View(): Client reads this { Client(pending, counter, unavailable, results) }

    constructor ()
      ensures View() == INITIAL.client
    {
      pending, counter, unavailable, results := {}, 0, false, map[];
    }

    method Request() returns (id: Option<nat>)
      modifies this
      ensures old(unavailable) ==> id == None && View() == old(View())
      ensures !old(unavailable) ==>
                && id == Some(old(counter) + 1)
                && View() == old(View()).(counter := old(counter) + 1, pending := old(pending) + {old(counter) + 1})
    {
      if unavailable {
        return None;
      }
      counter := counter + 1;
      pending := pending + {counter};
      return Some(counter);
    }

    /** An answer from the worker, or from the deadline of the call itself. */
    method Resume(id: nat, verdict: Verdict)
      modifies this
      ensures View() == Answered(old(View()), id, verdict)
    {
      if id in pending {
        pending := pending - {id};
        results := results[id := verdict];
      }
    }

    method GiveUp()
      modifies this
      ensures View() == FailAll(old(View()))
    {
      unavailable := true;
      results := ResumeEach(results, pending);
      pending := {};
    }
  }

  /** Resumes one pending call after another with a storage failure. */
  method ResumeEach(before: map<nat, Verdict>, pending: set<nat>) returns (results: map<nat, Verdict>)
    ensures results == FailEach(before, pending)
  {
    results := before;
    var left := pending;
    while left != {}
      invariant left <= pending && results == FailEach(before, pending - left)
    {
      var id :| id in left;
      results := results[id := Storage];
      left := left - {id};
    }
  }

  /** Who committed: a call of this client by its number, or another connection. */
  datatype Entry = Entry(call: Option<nat>, commit: Commit)

  /** Everything: the database, this client, what it asked and the worker has not taken up, what the
      worker decided and the client has not read; and, as history, the commit each call asked for, every
      decision on them, every commit made, and the calls whose callers were interrupted. */
  datatype State = State(
    db: Database, client: Client, inbox: seq<(nat, Commit)>, outbox: seq<(nat, Verdict)>,
    asked: map<nat, Commit>, verdicts: map<nat, Verdict>, log: seq<Entry>, dropped: set<nat>)

  datatype Step =
    | Ask(commit: Commit)
    | FailToPost
    | Work
    | FailWork
    | Deliver
    | Deadline(id: nat)
    | Interrupt(id: nat)
    | GiveUp
    | WorkerExit
    | Foreign(commit: Commit)

  const INITIAL := State(Database(map[], map[]), Client({}, 0, false, map[]), [], [], map[], map[], [], {})

  function Recorded(log: seq<Entry>, call: Option<nat>, commit: Commit, verdict: Verdict): seq<Entry> {
    if verdict == Committed then log + [Entry(call, commit)] else log
  }

  /** One event. Commits of this client and of any other connection pass the same check first; the
      worker may fail a request after rolling it back; answers may come late or not at all. */
  ghost predicate Next(s: State, step: Step, s': State) {
    match step
    case Ask(commit) =>
      && !s.client.unavailable && AdvancesOne(commit)
      && var id := s.client.counter + 1;
      && s' == s.(client := s.client.(counter := id, pending := s.client.pending + {id}), inbox := s.inbox + [(id, commit)],
                  asked := s.asked[id := commit])
    case FailToPost =>
      && !s.client.unavailable
      && var id := s.client.counter + 1;
      && s' == s.(client := s.client.(counter := id, results := s.client.results[id := Storage]))
    case Work =>
      && s.inbox != []
      && var (id, commit) := s.inbox[0];
      && var (db, verdict) := Transact(s.db, commit);
      && s' == s.(db := db, inbox := s.inbox[1..], outbox := s.outbox + [(id, verdict)],
                  verdicts := s.verdicts[id := verdict], log := Recorded(s.log, Some(id), commit, verdict))
    case FailWork =>
      && s.inbox != []
      && s' == s.(inbox := s.inbox[1..], outbox := s.outbox + [(s.inbox[0].0, Storage)],
                  verdicts := s.verdicts[s.inbox[0].0 := Storage])
    case Deliver =>
      && s.outbox != []
      && s' == s.(outbox := s.outbox[1..], client := Answered(s.client, s.outbox[0].0, s.outbox[0].1))
    case Deadline(id) => id in s.client.pending && s' == s.(client := Answered(s.client, id, Storage))
    case Interrupt(id) => s' == s.(client := s.client.(pending := s.client.pending - {id}), dropped := s.dropped + {id})
    case GiveUp => s' == s.(client := FailAll(s.client))
    case WorkerExit => s' == s.(client := FailAll(s.client), inbox := [])
    case Foreign(commit) =>
      && AdvancesOne(commit)
      && var (db, verdict) := Transact(s.db, commit);
      && s' == s.(db := db, log := Recorded(s.log, None, commit, verdict))
  }

  ghost predicate Run(states: seq<State>, steps: seq<Step>) {
    && |states| == |steps| + 1 && states[0] == INITIAL
    && forall k {:trigger steps[k]} :: 0 <= k < |steps| ==> Next(states[k], steps[k], states[k + 1])
  }

  /** An issue's history is exactly its revisions from zero to the current one, and the current row is
      the last of them. */
  ghost predicate FullHistory(db: Database) {
    && (forall id, r :: (id, r) in db.history <==> id in db.rows && 0 <= r <= db.rows[id].revision)
    && (forall id :: id in db.rows ==>
          (id, db.rows[id].revision) in db.history && db.history[(id, db.rows[id].revision)] == db.rows[id].body)
  }

  /** The history and the commits made are the same thing, and each commit of an issue was made on the
      revision of the one before. */
  ghost predicate Logged(db: Database, log: seq<Entry>) {
    && (forall i :: 0 <= i < |log| ==>
          && AdvancesOne(log[i].commit)
          && (log[i].commit.issueId, log[i].commit.revision) in db.history
          && db.history[(log[i].commit.issueId, log[i].commit.revision)] == log[i].commit.body)
    && (forall i, j :: 0 <= i < j < |log| && log[i].commit.issueId == log[j].commit.issueId ==>
          log[i].commit.revision < log[j].commit.revision)
  }

  /** A request still waiting was decided nowhere, and waits once. */
  ghost predicate Undecided(s: State) {
    && (forall i :: 0 <= i < |s.inbox| ==>
          AdvancesOne(s.inbox[i].1) && s.inbox[i].0 !in s.verdicts && s.inbox[i].0 <= s.client.counter)
    && (forall i :: 0 <= i < |s.inbox| ==> s.inbox[i].0 in s.asked && s.asked[s.inbox[i].0] == s.inbox[i].1)
    && (forall id :: id in s.asked ==> id <= s.client.counter)
    && (forall i, j :: 0 <= i < j < |s.inbox| ==> s.inbox[i].0 != s.inbox[j].0)
    && (forall id :: id in s.verdicts ==> id <= s.client.counter)
  }

  /** Answers on their way say what was decided, and so does every success or conflict told. */
  ghost predicate Truthful(s: State) {
    && (forall i :: 0 <= i < |s.outbox| ==> s.outbox[i].0 in s.verdicts && s.verdicts[s.outbox[i].0] == s.outbox[i].1)
    && (forall id :: id in s.client.results && s.client.results[id] != Storage ==>
          id in s.verdicts && s.verdicts[id] == s.client.results[id])
  }

  /** What was decided to commit is in the log, once, as it was asked for, and nothing else of this
      client is. */
  ghost predicate LogMatches(s: State) {
    && (forall i :: 0 <= i < |s.log| && s.log[i].call.Some? ==>
          s.log[i].call.value in s.verdicts && s.verdicts[s.log[i].call.value] == Committed)
    && (forall i :: 0 <= i < |s.log| && s.log[i].call.Some? ==>
          s.log[i].call.value in s.asked && s.log[i].commit == s.asked[s.log[i].call.value])
    && (forall id :: id in s.verdicts && s.verdicts[id] == Committed ==> InLog(s.log, id))
    && (forall i, j :: 0 <= i < j < |s.log| && s.log[i].call.Some? ==> s.log[i].call != s.log[j].call)
  }

  ghost predicate InLog(log: seq<Entry>, id: nat) {
    exists i :: 0 <= i < |log| && log[i].call == Some(id)
  }

  /** A call is waiting or was answered, never both; and every call is one of this client's. */
  ghost predicate Answering(client: Client) {
    && client.pending !! client.results.Keys
    && (forall id :: id in client.pending ==> id <= client.counter)
    && (forall id :: id in client.results ==> id <= client.counter)
    && (client.unavailable ==> client.pending == {})
  }

  ghost predicate Inv(s: State) {
    && FullHistory(s.db) && Logged(s.db, s.log)
    && Undecided(s) && Truthful(s) && LogMatches(s) && Answering(s.client)
  }

  /** The history key is never taken by a commit that got this far, so a transaction either conflicts
      or commits; and committing keeps the history full. */
  lemma TransactKeeps(db: Database, commit: Commit)
    requires FullHistory(db) && AdvancesOne(commit)
    ensures FullHistory(Transact(db, commit).0)
    ensures Transact(db, commit).1 != Storage
    ensures forall key :: key in db.history ==>
              key in Transact(db, commit).0.history && Transact(db, commit).0.history[key] == db.history[key]
  {}

  /** A commit that advances one revision is made exactly when the issue is at the revision it expects,
      and then it is the issue's row and its newest history, and changes nothing else. */
  lemma CommitsWhenCurrent(db: Database, commit: Commit)
    requires FullHistory(db) && AdvancesOne(commit)
    ensures var (db', verdict) := Transact(db, commit);
            var current := if commit.issueId in db.rows then Some(db.rows[commit.issueId].revision) else None;
            if commit.expected != current then verdict == Conflict && db' == db
            else verdict == Committed
                 && commit.issueId in db'.rows && db'.rows[commit.issueId] == Row(commit.revision, commit.body)
                 && (forall id :: id in db'.rows && id != commit.issueId ==> id in db.rows && db'.rows[id] == db.rows[id])
                 && db'.history.Keys == db.history.Keys + {(commit.issueId, commit.revision)}
                 && db'.history[(commit.issueId, commit.revision)] == commit.body
  {
    TransactKeeps(db, commit);
  }

  lemma CommitLogged(db: Database, log: seq<Entry>, call: Option<nat>, commit: Commit)
    requires FullHistory(db) && Logged(db, log) && AdvancesOne(commit)
    ensures var (db', verdict) := Transact(db, commit);
            Logged(db', Recorded(log, call, commit, verdict))
  {
    TransactKeeps(db, commit);
    var (db', verdict) := Transact(db, commit);
    if verdict == Committed {
      forall i | 0 <= i < |log| && log[i].commit.issueId == commit.issueId
        ensures log[i].commit.revision < commit.revision
      {
        assert (log[i].commit.issueId, log[i].commit.revision) in db.history;
      }
    }
  }

  /** The first request is decided: the same whether the worker took it up or failed. */
  lemma DecideKeeps(s: State, verdict: Verdict, db: Database, log: seq<Entry>, s': State)
    requires Inv(s) && s.inbox != []
    requires FullHistory(db) && Logged(db, log)
    requires log == Recorded(s.log, Some(s.inbox[0].0), s.inbox[0].1, verdict)
    requires s' == s.(db := db, inbox := s.inbox[1..], outbox := s.outbox + [(s.inbox[0].0, verdict)],
                      verdicts := s.verdicts[s.inbox[0].0 := verdict], log := log)
    ensures Inv(s')
  {
    DecideUndecided(s, verdict, s');
    DecideTruthful(s, s.inbox[0].0, verdict, s');
    DecideMatches(s, s.inbox[0].0, s.inbox[0].1, verdict, s');
  }

  lemma DecideUndecided(s: State, verdict: Verdict, s': State)
    requires Undecided(s) && s.inbox != [] && s'.inbox == s.inbox[1..] && s'.client == s.client && s'.asked == s.asked
    requires s'.verdicts == s.verdicts[s.inbox[0].0 := verdict]
    ensures Undecided(s')
  {}

  lemma DecideTruthful(s: State, id: nat, verdict: Verdict, s': State)
    requires Truthful(s) && id !in s.verdicts && s'.client == s.client
    requires s'.outbox == s.outbox + [(id, verdict)] && s'.verdicts == s.verdicts[id := verdict]
    ensures Truthful(s')
  {}

  lemma DecideMatches(s: State, id: nat, commit: Commit, verdict: Verdict, s': State)
    requires LogMatches(s) && id !in s.verdicts && id in s.asked && s.asked[id] == commit && s'.asked == s.asked
    requires s'.log == Recorded(s.log, Some(id), commit, verdict) && s'.verdicts == s.verdicts[id := verdict]
    ensures LogMatches(s')
  {
    forall x | x in s'.verdicts && s'.verdicts[x] == Committed ensures InLog(s'.log, x) {
      if x == id {
        assert s'.log[|s.log|].call == Some(id);
      } else {
        assert InLog(s.log, x);
        var i :| 0 <= i < |s.log| && s.log[i].call == Some(x);
        assert s'.log[i].call == Some(x);
      }
    }
  }

  lemma NextKeeps(s: State, step: Step, s': State)
    requires Inv(s) && Next(s, step, s')
    ensures Inv(s')
  {
    match step
    case Work =>
      var (db, verdict) := Transact(s.db, s.inbox[0].1);
      TransactKeeps(s.db, s.inbox[0].1);
      CommitLogged(s.db, s.log, Some(s.inbox[0].0), s.inbox[0].1);
      DecideKeeps(s, verdict, db, s'.log, s');
    case FailWork => DecideKeeps(s, Storage, s.db, s.log, s');
    case Foreign(commit) => ForeignKeeps(s, commit, s');
    case _ => ClientKeeps(s, step, s');
  }

  lemma ForeignKeeps(s: State, commit: Commit, s': State)
    requires Inv(s) && Next(s, Foreign(commit), s')
    ensures Inv(s')
  {
    TransactKeeps(s.db, commit);
    CommitLogged(s.db, s.log, None, commit);
    ForeignMatches(s, commit, Transact(s.db, commit).1, s');
  }

  lemma ForeignMatches(s: State, commit: Commit, verdict: Verdict, s': State)
    requires LogMatches(s) && s'.log == Recorded(s.log, None, commit, verdict)
    requires s'.verdicts == s.verdicts && s'.asked == s.asked
    ensures LogMatches(s')
  {
    forall x | x in s'.verdicts && s'.verdicts[x] == Committed ensures InLog(s'.log, x) {
      var i :| 0 <= i < |s.log| && s.log[i].call == Some(x);
      assert s'.log[i].call == Some(x);
    }
  }

  /** Whatever only the client does leaves the database and the log alone. */
  lemma ClientKeeps(s: State, step: Step, s': State)
    requires Inv(s) && Next(s, step, s') && !step.Work? && !step.FailWork? && !step.Foreign?
    ensures Inv(s')
  {
    assert s'.db == s.db && s'.log == s.log && s'.verdicts == s.verdicts;
    ClientAnswers(s, step, s');
    ClientUndecided(s, step, s');
    AskedGrows(s, s');
  }

  lemma ClientAnswers(s: State, step: Step, s': State)
    requires Answering(s.client) && Truthful(s) && Undecided(s)
    requires Next(s, step, s') && !step.Work? && !step.FailWork? && !step.Foreign?
    ensures Answering(s'.client) && Truthful(s')
  {}

  lemma ClientUndecided(s: State, step: Step, s': State)
    requires Undecided(s) && Next(s, step, s') && !step.Work? && !step.FailWork? && !step.Foreign?
    ensures Undecided(s')
    ensures forall id :: id in s.asked ==> id in s'.asked && s'.asked[id] == s.asked[id]
  {}

  lemma AskedGrows(s: State, s': State)
    requires LogMatches(s) && s'.log == s.log && s'.verdicts == s.verdicts
    requires forall id :: id in s.asked ==> id in s'.asked && s'.asked[id] == s.asked[id]
    ensures LogMatches(s')
  {}

  lemma {:induction false} RunKeeps(states: seq<State>, steps: seq<Step>, k: nat)
    requires Run(states, steps) && k < |states|
    ensures Inv(states[k])
  {
    if k > 0 {
      RunKeeps(states, steps, k - 1);
      NextKeeps(states[k - 1], steps[k - 1], states[k]);
    }
  }

  /** Requests, decisions, answers and revisions are never taken back, and a client that gave up asks
      nothing more. */
  ghost predicate Extends(s: State, s': State) {
    && (s.client.unavailable ==> s'.client.unavailable && s'.client.counter == s.client.counter)
    && (forall id :: id in s.asked ==> id in s'.asked && s'.asked[id] == s.asked[id])
    && (forall id :: id in s.verdicts ==> id in s'.verdicts && s'.verdicts[id] == s.verdicts[id])
    && (forall id :: id in s.client.results ==> id in s'.client.results && s'.client.results[id] == s.client.results[id])
    && (forall key :: key in s.db.history ==> key in s'.db.history && s'.db.history[key] == s.db.history[key])
  }

  lemma {:induction false} RunExtends(states: seq<State>, steps: seq<Step>, i: nat, j: nat)
    requires Run(states, steps) && i <= j < |states|
    ensures Extends(states[i], states[j])
    decreases j
  {
    if i < j {
      RunExtends(states, steps, i, j - 1);
      RunStepExtends(states, steps, j - 1);
    }
  }

  lemma RunStepExtends(states: seq<State>, steps: seq<Step>, k: nat)
    requires Run(states, steps) && k < |steps|
    ensures Extends(states[k], states[k + 1])
  {
    RunKeeps(states, steps, k);
    StepExtends(states[k], steps[k], states[k + 1]);
  }

  lemma StepExtends(s: State, step: Step, s': State)
    requires Inv(s) && Next(s, step, s')
    ensures Extends(s, s')
  {
    match step
    case Work => TransactKeeps(s.db, s.inbox[0].1);
    case Foreign(commit) => TransactKeeps(s.db, commit);
    case _ =>
  }

  ghost predicate Among<T>(id: nat, queue: seq<(nat, T)>) {
    exists i :: 0 <= i < |queue| && queue[i].0 == id
  }

  /** Every call made is waiting, was answered, or lost its caller; and every call waiting is with the
      worker, or its answer is on its way. */
  ghost predicate Accounted(s: State) {
    && (forall id: nat :: 1 <= id <= s.client.counter ==>
          id in s.client.pending || id in s.client.results || id in s.dropped)
    && (forall id :: id in s.client.pending ==> Among(id, s.inbox) || Among(id, s.outbox))
  }

  lemma AmongAdded<T>(id: nat, queue: seq<(nat, T)>, entry: (nat, T))
    ensures Among(id, queue + [entry]) <==> Among(id, queue) || entry.0 == id
  {
    assert (queue + [entry])[|queue|] == entry;
    if i :| 0 <= i < |queue| && queue[i].0 == id { assert (queue + [entry])[i] == queue[i]; }
  }

  lemma AmongTaken<T>(id: nat, queue: seq<(nat, T)>)
    requires queue != []
    ensures Among(id, queue) <==> Among(id, queue[1..]) || queue[0].0 == id
  {
    if i :| 0 < i < |queue| && queue[i].0 == id { assert queue[1..][i - 1] == queue[i]; }
    if i :| 0 <= i < |queue[1..]| && queue[1..][i].0 == id { assert queue[i + 1] == queue[1..][i]; }
  }

  lemma StepAccounts(s: State, step: Step, s': State)
    requires Accounted(s) && Next(s, step, s')
    ensures Accounted(s')
  {
    forall id | id in s'.client.pending ensures Among(id, s'.inbox) || Among(id, s'.outbox) {
      match step
      case Ask(commit) => AmongAdded(id, s.inbox, (s.client.counter + 1, commit));
      case Work =>
        AmongTaken(id, s.inbox);
        AmongAdded(id, s.outbox, (s.inbox[0].0, Transact(s.db, s.inbox[0].1).1));
      case FailWork =>
        AmongTaken(id, s.inbox);
        AmongAdded(id, s.outbox, (s.inbox[0].0, Storage));
      case Deliver => AmongTaken(id, s.outbox);
      case _ =>
    }
  }

  /** In every run no call is forgotten: each was answered, lost its caller, or waits for an answer that is
      still to come. */
  lemma {:induction false} NoCallForgotten(states: seq<State>, steps: seq<Step>, k: nat)
    requires Run(states, steps) && k < |states|
    ensures Accounted(states[k])
  {
    if k > 0 {
      NoCallForgotten(states, steps, k - 1);
      assert Next(states[k - 1], steps[k - 1], states[k]);
      StepAccounts(states[k - 1], steps[k - 1], states[k]);
    }
  }

  /** A call of this client's that nobody waits for, and that has no answer. */
  ghost predicate Gone(client: Client, id: nat) {
    id <= client.counter && id !in client.pending && id !in client.results
  }

  lemma {:induction false} GoneForGood(states: seq<State>, steps: seq<Step>, i: nat, j: nat, id: nat)
    requires Run(states, steps) && i <= j < |states| && Gone(states[i].client, id)
    ensures Gone(states[j].client, id)
    decreases j
  {
    if i < j {
      GoneForGood(states, steps, i, j - 1, id);
      assert Next(states[j - 1], steps[j - 1], states[j]);
    }
  }

  /** A caller interrupted while it waited is never resumed, whatever the worker answers after. */
  lemma InterruptedForGood(states: seq<State>, steps: seq<Step>, i: nat, j: nat, id: nat)
    requires Run(states, steps) && i < j < |states| && steps[i] == Interrupt(id) && id in states[i].client.pending
    ensures id !in states[j].client.results && id !in states[j].client.pending
  {
    RunKeeps(states, steps, i);
    assert Next(states[i], steps[i], states[i + 1]);
    GoneForGood(states, steps, i + 1, j, id);
  }

  /** A deadline answers a call that waits with a storage failure, and no answer that comes later is told. */
  lemma DeadlineStands(states: seq<State>, steps: seq<Step>, i: nat, j: nat, id: nat)
    requires Run(states, steps) && i < j < |states| && steps[i] == Deadline(id)
    ensures id in states[i].client.pending
    ensures id in states[j].client.results && states[j].client.results[id] == Storage
  {
    assert Next(states[i], steps[i], states[i + 1]);
    RunExtends(states, steps, i + 1, j);
  }

  lemma RunGrows(states: seq<State>, steps: seq<Step>, step: Step, next: State)
    requires Run(states, steps) && Next(states[|steps|], step, next)
    ensures Run(states + [next], steps + [step])
  {
    var longer, all := states + [next], steps + [step];
    forall k {:trigger all[k]} | 0 <= k < |all| ensures Next(longer[k], all[k], longer[k + 1]) {
      if k < |steps| { assert Next(states[k], steps[k], states[k + 1]); }
    }
  }

  /** Nothing but the worker working and its answers arriving. */
  ghost predicate OnlyAnswering(more: seq<Step>) {
    forall i :: 0 <= i < |more| ==> more[i].Work? || more[i].Deliver?
  }

  /** Whatever the worker is to take up next, or to be heard of. */
  function Onward(s: State): (Step, State)
    requires s.inbox != [] || s.outbox != []
  {
    if s.outbox != [] then
      (Deliver, s.(outbox := s.outbox[1..], client := Answered(s.client, s.outbox[0].0, s.outbox[0].1)))
    else
      var (id, commit) := s.inbox[0];
      var (db, verdict) := Transact(s.db, commit);
      (Work, s.(db := db, inbox := s.inbox[1..], outbox := s.outbox + [(id, verdict)],
                verdicts := s.verdicts[id := verdict], log := Recorded(s.log, Some(id), commit, verdict)))
  }

  /** Every run can be carried on, by the worker and its answers alone, to where a given call that waits
      has been answered. */
  lemma {:induction false} EveryCallAnswered(states: seq<State>, steps: seq<Step>, id: nat)
    returns (longer: seq<State>, more: seq<Step>)
    requires Run(states, steps) && id in states[|steps|].client.pending
    ensures Run(longer, steps + more) && longer[..|states|] == states && OnlyAnswering(more)
    ensures id in longer[|steps| + |more|].client.results
    decreases 2 * |states[|steps|].inbox| + |states[|steps|].outbox|
  {
    var s := states[|steps|];
    NoCallForgotten(states, steps, |steps|);
    var (step, next) := Onward(s);
    RunGrows(states, steps, step, next);
    if id in next.client.results && id !in next.client.pending {
      longer, more := states + [next], [step];
    } else {
      longer, more := EveryCallAnswered(states + [next], steps + [step], id);
      assert steps + [step] + more == steps + ([step] + more);
      assert longer[..|states|] == longer[..|states| + 1][..|states|];
      more := [step] + more;
    }
  }

  /** The commit a call asked for was made, as it was asked for. */
  ghost predicate Made(s: State, id: nat) {
    id in s.asked && exists i :: 0 <= i < |s.log| && s.log[i] == Entry(Some(id), s.asked[id])
  }

  /** A client told of success did commit just what it asked for, and one told of a conflict committed
      nothing by that call and never will, whatever happens after. */
  lemma ToldTheTruth(states: seq<State>, steps: seq<Step>, i: nat, j: nat, id: nat)
    requires Run(states, steps) && i <= j < |states| && id in states[i].client.results
    ensures states[i].client.results[id] == Committed ==> Made(states[j], id)
    ensures states[i].client.results[id] == Conflict ==> !InLog(states[j].log, id)
  {
    RunKeeps(states, steps, i);
    RunKeeps(states, steps, j);
    RunExtends(states, steps, i, j);
    if states[i].client.results[id] == Committed { LoggedIsMade(states[j], id); }
  }

  lemma LoggedIsMade(s: State, id: nat)
    requires LogMatches(s) && id in s.verdicts && s.verdicts[id] == Committed
    ensures Made(s, id)
  {
    assert InLog(s.log, id);
    var i :| 0 <= i < |s.log| && s.log[i].call == Some(id);
    assert s.log[i] == Entry(Some(id), s.asked[id]);
  }

  /** What a call asked for stays what it was asked with. */
  lemma AskedFor(states: seq<State>, steps: seq<Step>, i: nat, j: nat)
    requires Run(states, steps) && i < j < |states| && steps[i].Ask?
    ensures var id := states[i].client.counter + 1; id in states[j].asked && states[j].asked[id] == steps[i].commit
  {
    RunExtends(states, steps, i + 1, j);
  }

  /** In every run, a request the worker takes up is committed exactly when its issue is at the revision it
      expects, and conflicts otherwise: of those that expect the current one, the first is made. */
  lemma DecidedByRevision(states: seq<State>, steps: seq<Step>, k: nat)
    requires Run(states, steps) && k < |steps| && steps[k].Work?
    ensures states[k].inbox != []
    ensures var (id, commit) := states[k].inbox[0];
            var rows := states[k].db.rows;
            var current := if commit.issueId in rows then Some(rows[commit.issueId].revision) else None;
            && id in states[k + 1].verdicts
            && states[k + 1].verdicts[id] == (if commit.expected == current then Committed else Conflict)
            && (commit.expected == current ==>
                  commit.issueId in states[k + 1].db.rows &&
                  states[k + 1].db.rows[commit.issueId] == Row(commit.revision, commit.body))
  {
    RunKeeps(states, steps, k);
    assert Next(states[k], steps[k], states[k + 1]);
    assert AdvancesOne(states[k].inbox[0].1);
    CommitsWhenCurrent(states[k].db, states[k].inbox[0].1);
  }

  /** At most one commit succeeds on any expected revision of an issue, this client's or another's. */
  lemma OneWinner(states: seq<State>, steps: seq<Step>, k: nat, p: nat, q: nat)
    requires Run(states, steps) && k < |states| && p < |states[k].log| && q < |states[k].log|
    requires states[k].log[p].commit.issueId == states[k].log[q].commit.issueId
    requires states[k].log[p].commit.expected == states[k].log[q].commit.expected
    ensures p == q
  {
    RunKeeps(states, steps, k);
  }

  /** In every state of every run each issue's history is exactly its revisions from zero to the row's,
      the row is the last of them, and no transaction was ever refused by the history key. */
  lemma HistoryComplete(states: seq<State>, steps: seq<Step>, k: nat, issueId: string, r: int)
    requires Run(states, steps) && k < |states|
    ensures var db := states[k].db;
            (issueId, r) in db.history <==> issueId in db.rows && 0 <= r <= db.rows[issueId].revision
    ensures var db := states[k].db;
            issueId in db.rows ==>
              && (issueId, db.rows[issueId].revision) in db.history
              && db.history[(issueId, db.rows[issueId].revision)] == db.rows[issueId].body
    ensures k < |steps| && steps[k].Work? ==>
              states[k].inbox != [] && Transact(states[k].db, states[k].inbox[0].1).1 != Storage
  {
    RunKeeps(states, steps, k);
    if k < |steps| && steps[k].Work? {
      assert Next(states[k], steps[k], states[k + 1]);
      TransactKeeps(states[k].db, states[k].inbox[0].1);
    }
  }
}
