/**
 * arena/hand_stats.py: per-match statistics, the pot of every hand played and
 * how many hands ended in each Hold'em phase.
 */
module Stats {
  import opened Wrappers
  import Utility

  /** HandStats.HOLDEM_PHASES: the phase names, indexed by the phase number tick records. */
  const HOLDEM_PHASES: seq<string> := [
    "Blinds", "Flop", "Flop betting", "Turn", "Turn betting", "River", "River betting", "Showdown"
  ]

  /** The total of a sequence of pots (Python's sum). */
  function Sum(s: seq<int>): int
  {
    if s == [] then 0 else Sum(s[..|s| - 1]) + s[|s| - 1]
  }

  /** A set that is not empty has an element. */
  lemma HasElement(s: set<int>)
    requires s != {}
    ensures exists k :: k in s
  {
    if forall k :: k !in s {
      assert false;
    }
  }

  /** The sum of all counts in a phase dictionary, taken key by key in no fixed order. */
  ghost function SumCounts(m: map<int, int>): int
    decreases |m.Keys|
  {
    if m.Keys == {} then 0
    else
      HasElement(m.Keys);
      var k :| k in m;
      assert (m - {k}).Keys == m.Keys - {k};
      m[k] + SumCounts(m - {k})
  }

  /** Whichever key is taken out first, the sum is that key's count plus the sum of the rest. */
  lemma {:induction false} SumRemove(m: map<int, int>, k: int)
    requires k in m
    ensures SumCounts(m) == m[k] + SumCounts(m - {k})
    decreases |m.Keys|
  {
    var j :| j in m && SumCounts(m) == m[j] + SumCounts(m - {j});
    if j != k {
      assert (m - {j}).Keys == m.Keys - {j};
      assert (m - {k}).Keys == m.Keys - {k};
      SumRemove(m - {j}, k);
      SumRemove(m - {k}, j);
      assert (m - {j}) - {k} == (m - {k}) - {j};
    }
  }

  /** With no negative count, the sum is at least every single count and never negative. */
  lemma {:induction false} SumAtLeast(m: map<int, int>, k: int)
    requires forall p :: p in m ==> m[p] >= 0
    ensures SumCounts(m) >= 0
    ensures k in m ==> m[k] <= SumCounts(m)
    decreases |m.Keys|
  {
    if m.Keys != {} {
      HasElement(m.Keys);
      var j :| j in m;
      SumRemove(m, j);
      assert (m - {j}).Keys == m.Keys - {j};
      SumAtLeast(m - {j}, k);
      if k in m && k != j {
        assert k in m - {j};
      }
    }
  }

  /** Counting one more hand in phase p adds exactly one to the sum. */
  lemma SumTick(m: map<int, int>, p: int)
    ensures SumCounts(m[p := (if p in m then m[p] else 0) + 1]) == SumCounts(m) + 1
  {
    var n := m[p := (if p in m then m[p] else 0) + 1];
    SumRemove(n, p);
    assert n - {p} == m - {p};
    if p in m {
      SumRemove(m, p);
    } else {
      assert m - {p} == m;
    }
  }

  /** One line of the phase table in the report: the phase, its count and its share of all hands. */
  datatype PhaseRow = PhaseRow(name: string, count: int, percent: real)

  /** HandStats: the pots in the order the hands were played and the count of hands per phase. */
  class HandStats {
    var pots: seq<int>
    var phases: map<int, int>

    /** Every recorded hand was counted in exactly one phase, and only phases that occurred are keys. */
    ghost predicate Valid()
      reads this
    {
      |pots| == SumCounts(phases) && forall p :: p in phases ==> phases[p] > 0
    }

    /** __init__: no hands and no phase counts. */
    constructor ()
      ensures pots == [] && phases == map[] && Valid()
    {
      pots := [];
      phases := map[];
    }

    /** phases.get(phase, 0): how many hands ended in the phase. */
    function Count(phase: int): int
      reads this
    {
      if phase in phases then phases[phase] else 0
    }

    /** A phase's count is never more than the hands played, and it is 0 exactly when the phase never occurred. */
    lemma CountAtMost(phase: int)
      requires Valid()
      ensures 0 <= Count(phase) <= |pots|
      ensures Count(phase) != 0 <==> phase in phases
    {
      SumAtLeast(phases, phase);
    }

    /**
     * tick(pot, phase): the phase's count goes up by one (from 0 when the phase is
     * new), every other count stays, and the pot is appended after the earlier ones.
     */
    method Tick(pot: int, phase: int)
      requires Valid()
      modifies this
      ensures Valid()
      ensures phases == old(phases)[phase := old(Count(phase)) + 1]
      ensures pots == old(pots) + [pot]
    {
      var count := if phase in phases then phases[phase] else 0;
      SumTick(phases, phase);
      phases := phases[phase := count + 1];
      pots := pots + [pot];
    }

    /**
     * The average pot of __repr__: hands is len(pots), so with no hands the true
     * division fails (None here); otherwise the average times the hands is the sum.
     */
    function AveragePot(): (r: Option<real>)
      reads this
      ensures r.None? <==> |pots| == 0
      ensures r.Some? ==> r.value * (|pots| as real) == Sum(pots) as real
    {
      if |pots| == 0 then None else Some((Sum(pots) as real) / (|pots| as real))
    }

    /** The percentage __repr__ shows for a phase: its count as a share of all hands. */
    function Share(phase: int): real
      reads this
    {
      Utility.Percentage(Count(phase) as real, |pots| as real)
    }

    /** The table rows for phases 0 .. n-1, in phase order, skipping phases with no hands. */
    function RowsUpTo(n: nat): seq<PhaseRow>
      requires n <= |HOLDEM_PHASES|
      reads this
    {
      if n == 0 then []
      else if Count(n - 1) == 0 then RowsUpTo(n - 1)
      else RowsUpTo(n - 1) + [PhaseRow(HOLDEM_PHASES[n - 1], Count(n - 1), Share(n - 1))]
    }

    /** A phase that occurred has a count of 1 .. hands and a share above 0 and at most 100%. */
    lemma RowBounded(phase: int)
      requires Valid() && |pots| > 0 && Count(phase) != 0
      ensures 0 < Count(phase) <= |pots| && 0.0 < Share(phase) <= 100.0
    {
      CountAtMost(phase);
      var c := Count(phase) as real;
      var h := |pots| as real;
      assert Share(phase) * h == 100.0 * c;
      Utility.PercentageAtMost(c, h, 100.0);
    }

    /** Every row of the table names a phase that occurred, with a count of 1 .. hands and a share of at most 100%. */
    lemma {:induction false} RowsBounded(n: nat)
      requires n <= |HOLDEM_PHASES| && Valid() && |pots| > 0
      ensures forall row :: row in RowsUpTo(n) ==>
        row.name in HOLDEM_PHASES && 0 < row.count <= |pots| && 0.0 < row.percent <= 100.0
    {
      if n > 0 {
        RowsBounded(n - 1);
        if Count(n - 1) != 0 {
          RowBounded(n - 1);
        }
      }
    }

    /** Every phase below n that occurred has its row in the table, with its count and share. */
    lemma {:induction false} RowsComplete(n: nat)
      requires n <= |HOLDEM_PHASES|
      ensures forall i :: 0 <= i < n && Count(i) != 0 ==>
        PhaseRow(HOLDEM_PHASES[i], Count(i), Share(i)) in RowsUpTo(n)
    {
      if n > 0 {
        RowsComplete(n - 1);
      }
    }

    /**
     * __repr__: None where the average divides by zero hands; otherwise the average
     * pot and the phase rows, built by walking HOLDEM_PHASES in order and skipping
     * phases that never occurred.
     */
    method Report() returns (r: Option<(real, seq<PhaseRow>)>)
      ensures r.None? <==> |pots| == 0
      ensures r.Some? ==> Some(r.value.0) == AveragePot() && r.value.1 == RowsUpTo(|HOLDEM_PHASES|)
    {
      var hands := |pots|;
      if hands == 0 {
        return None;
      }
      var avg := (Sum(pots) as real) / (hands as real);
      var rows: seq<PhaseRow> := [];
      var i := 0;
      while i < |HOLDEM_PHASES|
        invariant 0 <= i <= |HOLDEM_PHASES|
        invariant rows == RowsUpTo(i)
      {
        var count := if i in phases then phases[i] else 0;
        if count != 0 {
          var percent := Utility.Percentage(count as real, hands as real);
          rows := rows + [PhaseRow(HOLDEM_PHASES[i], count, percent)];
        }
        i := i + 1;
      }
      return Some((avg, rows));
    }
  }

  /** Three hands: pot 50 ended at the blinds, 100 at the turn, 75 at the flop betting. */
  method ThreeHands() returns (avg: Option<real>, blinds: int, river: int)
    ensures avg == Some(75.0) && blinds == 1 && river == 0
  {
    var stats := new HandStats();
    stats.Tick(50, 0);
    stats.Tick(100, 3);
    stats.Tick(75, 2);
    assert stats.pots == [50, 100, 75];
    assert stats.pots[..2] == [50, 100] && [50, 100][..1] == [50] && [50][..0] == [];
    assert Sum(stats.pots) == 225;
    avg := stats.AveragePot();
    blinds := stats.Count(0);
    river := stats.Count(5);
  }
}
