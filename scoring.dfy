/**
 * The score accumulator of the evaluator (class Score in eval.py) and the
 * report that finalize builds from it.
 *
 * A run's history is kept as a ghost ledger of entries: every call of
 * Score.add records one weighted entry, and every diagnostic line that the
 * evaluator pushes straight onto `details` records one unweighted note. The
 * concrete fields total, earned and details are functions of that ledger.
 */
module Scoring {

  /** One ledger entry: a weighted check, or a bare diagnostic line. */
  datatype Entry = Scored(points: int, passed: bool, line: string) | Note(line: string)

  /** The evaluator's answer: a configuration error, or a scored report. */
  datatype Report =
    | Error(error: string)
    | Result(score: int, maxScore: int, details: seq<string>)

  const PassMark := "✔ "
  const FailMark := "❌ "

  /** The entry that Score.add records for one check. */
  function Check(points: int, condition: bool, successMsg: string, failMsg: string): Entry
  {
    Scored(points, condition, if condition then PassMark + successMsg else FailMark + failMsg)
  }

  /** Points that the attempted checks could have earned. */
  function Possible(log: seq<Entry>): int
  {
    if log == [] then 0
    else (if log[0].Scored? then log[0].points else 0) + Possible(log[1..])
  }

  /** Points that the attempted checks did earn. */
  function Earned(log: seq<Entry>): int
  {
    if log == [] then 0
    else (if log[0].Scored? && log[0].passed then log[0].points else 0) + Earned(log[1..])
  }

  /** The human-readable detail lines, in the order they were recorded. */
  function Lines(log: seq<Entry>): seq<string>
  {
    if log == [] then [] else [log[0].line] + Lines(log[1..])
  }

  /** Number of weighted checks in a ledger. */
  function ScoredCount(log: seq<Entry>): nat
  {
    if log == [] then 0 else (if log[0].Scored? then 1 else 0) + ScoredCount(log[1..])
  }

  /** Every weighted check carries a non-negative weight. */
  predicate NonNegative(log: seq<Entry>)
  {
    forall i | 0 <= i < |log| :: log[i].Scored? ==> log[i].points >= 0
  }

  /** The report that finalize produces from a ledger. */
  function Tally(log: seq<Entry>): Report
  {
    Result(Earned(log), Possible(log), Lines(log))
  }

  /** The sums and the lines split over concatenation of ledgers. */
  lemma LedgerAppend(a: seq<Entry>, b: seq<Entry>)
    ensures Possible(a + b) == Possible(a) + Possible(b)
    ensures Earned(a + b) == Earned(a) + Earned(b)
    ensures Lines(a + b) == Lines(a) + Lines(b)
    ensures ScoredCount(a + b) == ScoredCount(a) + ScoredCount(b)
  {
    PossibleAppend(a, b);
    EarnedAppend(a, b);
    LinesAppend(a, b);
    ScoredCountAppend(a, b);
  }

  lemma {:induction false} PossibleAppend(a: seq<Entry>, b: seq<Entry>)
    ensures Possible(a + b) == Possible(a) + Possible(b)
  {
    if a == [] {
      assert a + b == b;
    } else {
      assert (a + b)[0] == a[0];
      assert (a + b)[1..] == a[1..] + b;
      PossibleAppend(a[1..], b);
    }
  }

  lemma {:induction false} EarnedAppend(a: seq<Entry>, b: seq<Entry>)
    ensures Earned(a + b) == Earned(a) + Earned(b)
  {
    if a == [] {
      assert a + b == b;
    } else {
      assert (a + b)[0] == a[0];
      assert (a + b)[1..] == a[1..] + b;
      EarnedAppend(a[1..], b);
    }
  }

  lemma {:induction false} LinesAppend(a: seq<Entry>, b: seq<Entry>)
    ensures Lines(a + b) == Lines(a) + Lines(b)
  {
    if a == [] {
      assert a + b == b;
    } else {
      assert (a + b)[0] == a[0];
      assert (a + b)[1..] == a[1..] + b;
      LinesAppend(a[1..], b);
    }
  }

  lemma {:induction false} ScoredCountAppend(a: seq<Entry>, b: seq<Entry>)
    ensures ScoredCount(a + b) == ScoredCount(a) + ScoredCount(b)
  {
    if a == [] {
      assert a + b == b;
    } else {
      assert (a + b)[0] == a[0];
      assert (a + b)[1..] == a[1..] + b;
      ScoredCountAppend(a[1..], b);
    }
  }

  /** The sums of a one-entry ledger. */
  lemma LedgerSingle(e: Entry)
    ensures Possible([e]) == (if e.Scored? then e.points else 0)
    ensures Earned([e]) == (if e.Scored? && e.passed then e.points else 0)
    ensures Lines([e]) == [e.line]
    ensures ScoredCount([e]) == (if e.Scored? then 1 else 0)
  {
  }

  /** The sums of a two-entry ledger. */
  lemma LedgerPair(d: Entry, e: Entry)
    ensures Possible([d, e]) == Possible([d]) + Possible([e])
    ensures Earned([d, e]) == Earned([d]) + Earned([e])
    ensures Lines([d, e]) == [d.line, e.line]
    ensures ScoredCount([d, e]) == ScoredCount([d]) + ScoredCount([e])
  {
    assert [d, e] == [d] + [e];
    LedgerAppend([d], [e]);
    LedgerSingle(d);
    LedgerSingle(e);
  }

  /** One detail line per entry, each the entry's own line. */
  lemma {:induction false} LinesMatchEntries(log: seq<Entry>)
    ensures |Lines(log)| == |log|
    ensures forall i | 0 <= i < |log| :: Lines(log)[i] == log[i].line
  {
    if log != [] {
      LinesMatchEntries(log[1..]);
    }
  }

  /** With non-negative weights, 0 <= earned <= total. */
  lemma {:induction false} EarnedWithinPossible(log: seq<Entry>)
    requires NonNegative(log)
    ensures 0 <= Earned(log) <= Possible(log)
  {
    if log != [] {
      assert NonNegative(log[1..]) by {
        forall i | 0 <= i < |log[1..]| ensures log[1..][i].Scored? ==> log[1..][i].points >= 0 {
          assert log[1..][i] == log[i + 1];
        }
      }
      EarnedWithinPossible(log[1..]);
    }
  }

  /** The mutable accumulator threaded through one evaluation run. */
  class Score {
    var total: int
    var earned: int
    var details: seq<string>
    /** Every entry recorded so far, oldest first. */
    ghost var log: seq<Entry>

    ghost predicate Valid()
      reads this
    {
      total == Possible(log) && earned == Earned(log) && details == Lines(log)
    }

    /** A fresh accumulator: nothing attempted, nothing earned, no details. */
    constructor ()
      ensures Valid() && log == []
      ensures total == 0 && earned == 0 && details == []
    {
      total := 0;
      earned := 0;
      details := [];
      log := [];
    }

    /**
     * Record one check: the total always grows by `points`, the earned points
     * grow only when `condition` holds, and exactly one line is appended,
     * marked as a pass or a failure.
     */
    method Add(points: int, condition: bool, successMsg: string, failMsg: string)
      requires Valid()
      modifies this
      ensures Valid() && log == old(log) + [Check(points, condition, successMsg, failMsg)]
      ensures total == old(total) + points
      ensures earned == old(earned) + (if condition then points else 0)
      ensures details == old(details) + [if condition then PassMark + successMsg else FailMark + failMsg]
      ensures points >= 0 && old(0 <= earned <= total) ==> 0 <= earned <= total
    {
      LedgerAppend(log, [Check(points, condition, successMsg, failMsg)]);
      total := total + points;
      if condition {
        earned := earned + points;
        details := details + [PassMark + successMsg];
      } else {
        details := details + [FailMark + failMsg];
      }
      log := log + [Check(points, condition, successMsg, failMsg)];
    }

    /** Push a diagnostic line onto `details` without scoring it. */
    method AppendDetail(line: string)
      requires Valid()
      modifies this
      ensures Valid() && log == old(log) + [Note(line)]
      ensures total == old(total) && earned == old(earned)
      ensures details == old(details) + [line]
    {
      LedgerAppend(log, [Note(line)]);
      details := details + [line];
      log := log + [Note(line)];
    }
  }

  /** finalize: copy the accumulator into a fresh report. */
  function Finalize(score: Score): (r: Report)
    reads score
    requires score.Valid()
    ensures r == Tally(score.log)
  {
    Result(score.earned, score.total, score.details)
  }
}
