/** The token usage of a session: what each turn has reported at most, summed over its turns. */
module Usage {
  import opened Options

  datatype TokenCounts = TokenCounts(inputTokens: int, outputTokens: int, totalTokens: int)

  datatype Reading = Reading(turnId: string, usage: TokenCounts)

  const ZERO := TokenCounts(0, 0, 0)

  function Max(a: int, b: int): int { if a >= b then a else b }

  function Higher(a: TokenCounts, b: TokenCounts): TokenCounts {
    TokenCounts(Max(a.inputTokens, b.inputTokens), Max(a.outputTokens, b.outputTokens), Max(a.totalTokens, b.totalTokens))
  }

  function Sum(a: TokenCounts, b: TokenCounts): TokenCounts {
    TokenCounts(a.inputTokens + b.inputTokens, a.outputTokens + b.outputTokens, a.totalTokens + b.totalTokens)
  }

  predicate AtMost(a: TokenCounts, b: TokenCounts) {
    a.inputTokens <= b.inputTokens && a.outputTokens <= b.outputTokens && a.totalTokens <= b.totalTokens
  }

  /** Field by field, `mark` is the largest reading of this turn among `readings`, or zero. */
  ghost predicate HighWater(readings: set<Reading>, turnId: string, mark: TokenCounts) {
    && AtMost(ZERO, mark) && (forall r :: r in readings && r.turnId == turnId ==> AtMost(r.usage, mark))
    && (mark.inputTokens == 0 || exists r :: r in readings && r.turnId == turnId && r.usage.inputTokens == mark.inputTokens)
    && (mark.outputTokens == 0 || exists r :: r in readings && r.turnId == turnId && r.usage.outputTokens == mark.outputTokens)
    && (mark.totalTokens == 0 || exists r :: r in readings && r.turnId == turnId && r.usage.totalTokens == mark.totalTokens)
  }

  /** The ledger holds every turn that was read, at its high-water mark. */
  ghost predicate Records(readings: set<Reading>, ledger: map<string, TokenCounts>) {
    && (forall r :: r in readings ==> r.turnId in ledger)
    && (forall t :: t in ledger ==> HighWater(readings, t, ledger[t]) && exists r :: r in readings && r.turnId == t)
  }

  /** The sum over some turns of the ledger. */
  ghost function SumOver(turns: set<string>, ledger: map<string, TokenCounts>): TokenCounts
    requires turns <= ledger.Keys
  {
    if turns == {} then ZERO
    else
      var t :| t in turns;
      Sum(ledger[t], SumOver(turns - {t}, ledger))
  }

  ghost function Total(ledger: map<string, TokenCounts>): TokenCounts { SumOver(ledger.Keys, ledger) }

  /** Whichever turn is taken first, the sum is the same. */
  lemma {:induction false} SumTakes(turns: set<string>, ledger: map<string, TokenCounts>, t: string)
    requires turns <= ledger.Keys && t in turns
    ensures SumOver(turns, ledger) == Sum(ledger[t], SumOver(turns - {t}, ledger))
    decreases turns
  {
    var u :| u in turns && SumOver(turns, ledger) == Sum(ledger[u], SumOver(turns - {u}, ledger));
    if u != t {
      SumTakes(turns - {u}, ledger, t);
      SumTakes(turns - {t}, ledger, u);
      assert turns - {u} - {t} == turns - {t} - {u};
      SumSwaps(ledger[u], ledger[t], SumOver(turns - {u} - {t}, ledger));
    }
  }

  /** The integers of one field, summed over some turns. */
  ghost function FieldSum(turns: set<string>, values: map<string, int>): int
    requires turns <= values.Keys
  {
    if turns == {} then 0
    else
      var t :| t in turns;
      values[t] + FieldSum(turns - {t}, values)
  }

  ghost predicate FieldsSum(turns: set<string>, ledger: map<string, TokenCounts>, total: TokenCounts)
    requires turns <= ledger.Keys
  {
    && total.inputTokens == FieldSum(turns, map t | t in ledger :: ledger[t].inputTokens)
    && total.outputTokens == FieldSum(turns, map t | t in ledger :: ledger[t].outputTokens)
    && total.totalTokens == FieldSum(turns, map t | t in ledger :: ledger[t].totalTokens)
  }

  /** The total is, in each field, the sum of that field over the turns. */
  lemma TotalIsSums(ledger: map<string, TokenCounts>)
    ensures FieldsSum(ledger.Keys, ledger, Total(ledger))
  {
    InputSum(ledger.Keys, ledger);
    OutputSum(ledger.Keys, ledger);
    WholeSum(ledger.Keys, ledger);
  }

  lemma {:induction false} InputSum(turns: set<string>, ledger: map<string, TokenCounts>)
    requires turns <= ledger.Keys
    ensures SumOver(turns, ledger).inputTokens == FieldSum(turns, map t | t in ledger :: ledger[t].inputTokens)
    decreases turns
  {
    if turns != {} {
      var values := map t | t in ledger :: ledger[t].inputTokens;
      var t :| t in turns && FieldSum(turns, values) == values[t] + FieldSum(turns - {t}, values);
      SumTakes(turns, ledger, t);
      InputSum(turns - {t}, ledger);
    }
  }

  lemma {:induction false} OutputSum(turns: set<string>, ledger: map<string, TokenCounts>)
    requires turns <= ledger.Keys
    ensures SumOver(turns, ledger).outputTokens == FieldSum(turns, map t | t in ledger :: ledger[t].outputTokens)
    decreases turns
  {
    if turns != {} {
      var values := map t | t in ledger :: ledger[t].outputTokens;
      var t :| t in turns && FieldSum(turns, values) == values[t] + FieldSum(turns - {t}, values);
      SumTakes(turns, ledger, t);
      OutputSum(turns - {t}, ledger);
    }
  }

  lemma {:induction false} WholeSum(turns: set<string>, ledger: map<string, TokenCounts>)
    requires turns <= ledger.Keys
    ensures SumOver(turns, ledger).totalTokens == FieldSum(turns, map t | t in ledger :: ledger[t].totalTokens)
    decreases turns
  {
    if turns != {} {
      var values := map t | t in ledger :: ledger[t].totalTokens;
      var t :| t in turns && FieldSum(turns, values) == values[t] + FieldSum(turns - {t}, values);
      SumTakes(turns, ledger, t);
      WholeSum(turns - {t}, ledger);
    }
  }

  lemma SumSwaps(a: TokenCounts, b: TokenCounts, c: TokenCounts)
    ensures Sum(a, Sum(b, c)) == Sum(b, Sum(a, c))
  {}

  lemma {:induction false} SumAgrees(turns: set<string>, ledger: map<string, TokenCounts>, other: map<string, TokenCounts>)
    requires turns <= ledger.Keys && turns <= other.Keys && forall t :: t in turns ==> ledger[t] == other[t]
    ensures SumOver(turns, ledger) == SumOver(turns, other)
    decreases turns
  {
    if turns != {} {
      var t :| t in turns;
      SumTakes(turns, ledger, t);
      SumTakes(turns, other, t);
      SumAgrees(turns - {t}, ledger, other);
    }
  }

  function Before(ledger: map<string, TokenCounts>, turnId: string): TokenCounts {
    if turnId in ledger then ledger[turnId] else ZERO
  }

  function Record(ledger: map<string, TokenCounts>, turnId: string, usage: TokenCounts): map<string, TokenCounts> {
    ledger[turnId := Higher(Before(ledger, turnId), usage)]
  }

  lemma RecordKeeps(readings: set<Reading>, ledger: map<string, TokenCounts>, turnId: string, usage: TokenCounts)
    requires Records(readings, ledger)
    ensures Records(readings + {Reading(turnId, usage)}, Record(ledger, turnId, usage))
  {
    var all, after, r := readings + {Reading(turnId, usage)}, Record(ledger, turnId, usage), Reading(turnId, usage);
    assert r in all;
    if turnId !in ledger { assert forall q :: q in readings ==> q.turnId != turnId; }
    forall t | t in after ensures HighWater(all, t, after[t]) && exists q :: q in all && q.turnId == t {
      if t != turnId { HighWaterAdds(readings, all, t, after[t]); } else { HighWaterMeets(readings, turnId, Before(ledger, turnId), usage); }
    }
  }

  lemma HighWaterAdds(readings: set<Reading>, all: set<Reading>, t: string, mark: TokenCounts)
    requires HighWater(readings, t, mark) && readings <= all && forall r :: r in all && r !in readings ==> r.turnId != t
    ensures HighWater(all, t, mark)
  {}

  lemma HighWaterMeets(readings: set<Reading>, t: string, mark: TokenCounts, usage: TokenCounts)
    requires HighWater(readings, t, mark)
    ensures HighWater(readings + {Reading(t, usage)}, t, Higher(mark, usage))
  {
    assert Reading(t, usage) in readings + {Reading(t, usage)};
  }

  /** The readings leave one ledger only, so only the set of them matters: neither their order nor how
      often each arrives. */
  lemma OneLedger(readings: set<Reading>, ledger: map<string, TokenCounts>, other: map<string, TokenCounts>)
    requires Records(readings, ledger) && Records(readings, other)
    ensures ledger == other && Total(ledger) == Total(other)
  {
    assert ledger.Keys == other.Keys;
    forall t | t in ledger ensures ledger[t] == other[t] { OneMark(readings, t, ledger[t], other[t]); }
  }

  lemma OneMark(readings: set<Reading>, t: string, a: TokenCounts, b: TokenCounts)
    requires HighWater(readings, t, a) && HighWater(readings, t, b)
    ensures a == b
  {}

  /** A reading moves the total by exactly what it exceeds its turn's mark by, and never down. */
  lemma TotalMoves(ledger: map<string, TokenCounts>, turnId: string, usage: TokenCounts)
    requires forall t :: t in ledger ==> AtMost(ZERO, ledger[t])
    ensures Sum(Total(Record(ledger, turnId, usage)), Before(ledger, turnId)) ==
            Sum(Total(ledger), Higher(Before(ledger, turnId), usage))
    ensures AtMost(Total(ledger), Total(Record(ledger, turnId, usage)))
  {
    var after := Record(ledger, turnId, usage);
    SumTakes(after.Keys, after, turnId);
    assert after.Keys - {turnId} == ledger.Keys - {turnId};
    SumAgrees(ledger.Keys - {turnId}, after, ledger);
    if turnId in ledger {
      SumTakes(ledger.Keys, ledger, turnId);
    } else {
      assert ledger.Keys - {turnId} == ledger.Keys;
    }
  }

  /** The ledger after these readings, in the order they arrived. */
  function LedgerAfter(readings: seq<Reading>): map<string, TokenCounts> {
    if readings == [] then map[]
    else
      var last := readings[|readings| - 1];
      Record(LedgerAfter(readings[..|readings| - 1]), last.turnId, last.usage)
  }

  ghost function SetOf(readings: seq<Reading>): set<Reading> { set r | r in readings }

  lemma {:induction false} LedgerRecords(readings: seq<Reading>)
    ensures Records(SetOf(readings), LedgerAfter(readings))
  {
    if readings != [] {
      var earlier, last := readings[..|readings| - 1], readings[|readings| - 1];
      LedgerRecords(earlier);
      assert earlier + [last] == readings;
      LastJoins(earlier, last, LedgerAfter(earlier));
    }
  }

  lemma LastJoins(earlier: seq<Reading>, last: Reading, ledger: map<string, TokenCounts>)
    requires Records(SetOf(earlier), ledger)
    ensures Records(SetOf(earlier + [last]), Record(ledger, last.turnId, last.usage))
  {
    RecordKeeps(SetOf(earlier), ledger, last.turnId, last.usage);
    assert SetOf(earlier + [last]) == SetOf(earlier) + {Reading(last.turnId, last.usage)};
  }

  /** Readings that arrive in another order, or again, come to the same total. */
  lemma OrderAndRepetition(readings: seq<Reading>, other: seq<Reading>)
    requires SetOf(readings) == SetOf(other)
    ensures Total(LedgerAfter(readings)) == Total(LedgerAfter(other))
  {
    LedgerRecords(readings);
    LedgerRecords(other);
    OneLedger(SetOf(readings), LedgerAfter(readings), LedgerAfter(other));
  }

  /** The total never falls, in any field, however many readings follow. */
  lemma {:induction false} TotalNeverFalls(readings: seq<Reading>, k: nat)
    requires k <= |readings|
    ensures AtMost(Total(LedgerAfter(readings[..k])), Total(LedgerAfter(readings)))
    decreases |readings|
  {
    if k == |readings| {
      assert readings[..k] == readings;
    } else {
      var earlier, last := readings[..|readings| - 1], readings[|readings| - 1];
      TotalNeverFalls(earlier, k);
      assert earlier[..k] == readings[..k];
      LedgerRecords(earlier);
      TotalMoves(LedgerAfter(earlier), last.turnId, last.usage);
    }
  }

  /** The ledger a connection keeps. `readings` is what it has been told so far. */
  class UsageLedger {
    var turnUsage: map<string, TokenCounts>
    ghost var readings: set<Reading>

    ghost predicate Valid() reads this { Records(readings, turnUsage) }

    constructor ()
      ensures Valid() && readings == {}
    {
      turnUsage, readings := map[], {};
    }

    /** Raises the turn's mark, and sums over every turn. */
    method Accumulate(turnId: string, usage: TokenCounts) returns (total: TokenCounts)
      requires Valid()
      modifies this
      ensures Valid() && readings == old(readings) + {Reading(turnId, usage)}
      ensures turnUsage == Record(old(turnUsage), turnId, usage) && total == Total(turnUsage)
      ensures AtMost(Total(old(turnUsage)), total)
    {
      RecordKeeps(readings, turnUsage, turnId, usage);
      TotalMoves(turnUsage, turnId, usage);
      var previous := if turnId in turnUsage then turnUsage[turnId] else ZERO;
      turnUsage := turnUsage[turnId := TokenCounts(
        Max(previous.inputTokens, usage.inputTokens), Max(previous.outputTokens, usage.outputTokens),
        Max(previous.totalTokens, usage.totalTokens))];
      readings := readings + {Reading(turnId, usage)};
      total := SumLedger(turnUsage);
    }

    /** What a notification reports as the session's usage: only a `turn/usage` that names its turn is
        added up, and any other reading is passed on as it came. */
    method SessionUsage(call: string, turnId: Option<string>, usage: Option<TokenCounts>) returns (reported: Option<TokenCounts>)
      requires Valid()
      modifies this
      ensures Valid()
      ensures if call == "turn/usage" && usage.Some? && turnId.Some?
              then readings == old(readings) + {Reading(turnId.value, usage.value)} && reported == Some(Total(turnUsage))
              else readings == old(readings) && turnUsage == old(turnUsage) && reported == usage
    {
      if call != "turn/usage" || usage.None? || turnId.None? {
        return usage;
      }
      var total := Accumulate(turnId.value, usage.value);
      return Some(total);
    }
  }

  method SumLedger(ledger: map<string, TokenCounts>) returns (total: TokenCounts)
    ensures total == Total(ledger)
  {
    total := ZERO;
    var left := ledger.Keys;
    while left != {}
      invariant left <= ledger.Keys && Sum(total, SumOver(left, ledger)) == Total(ledger)
    {
      var t :| t in left;
      SumTakes(left, ledger, t);
      total := TokenCounts(total.inputTokens + ledger[t].inputTokens, total.outputTokens + ledger[t].outputTokens,
                           total.totalTokens + ledger[t].totalTokens);
      left := left - {t};
    }
  }
}
