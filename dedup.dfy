/** Experiment deduplication (`deduplicate_experiments.py`): rows of a
    feature table are compared cell by cell with a per-column tolerance
    derived from the column statistics, and every row similar to a newer,
    not yet discarded row is marked as a duplicate. */
module Dedup {
  import opened Wrappers

  /** A table cell as pandas sees it.  Booleans count as numeric
      (`is_numeric_dtype` accepts `bool`), so the boolean branch of the
      comparison is never taken and booleans compare as 0 and 1. */
  datatype Cell =
    | NaN
    | Num(x: real)
    | Flag(b: bool)
    | Text(s: string)
    | Other(typeName: string)

  predicate IsNumeric(c: Cell) { c.Num? || c.Flag? }

  /** `float(c)` of a numeric cell. */
  function AsReal(c: Cell): real
    requires IsNumeric(c)
  {
    if c.Num? then c.x else if c.b then 1.0 else 0.0
  }

  function Abs(x: real): (a: real)
    ensures a >= 0.0 && (a == x || a == -x)
  {
    if x < 0.0 then -x else x
  }

  /** The column statistics the tolerance is derived from. */
  datatype Stats = Stats(min: real, max: real, mean: real)

  /** `calculate_adaptive_epsilon` for one column: the relative tolerance
      (in percent) of the absolute mean; of the value range when the mean
      is below `1e-10` in magnitude; `1e-6` when that range is not
      positive either. */
  function AdaptiveEpsilon(s: Stats, tolerance: real): (e: real)
    ensures tolerance > 0.0 ==> e > 0.0
    ensures tolerance >= 0.0 ==> e >= 0.0
  {
    var share := tolerance / 100.0;
    if Abs(s.mean) < 0.0000000001 then
      var range := s.max - s.min;
      if range > 0.0 then
        MulSign(range, share);
        range * share
      else 0.000001
    else
      var magnitude := Abs(s.mean);
      MulSign(magnitude, share);
      magnitude * share
  }

  lemma MulSign(a: real, x: real)
    requires a > 0.0
    ensures x > 0.0 ==> a * x > 0.0
    ensures x >= 0.0 ==> a * x >= 0.0
  {
  }

  /** A larger tolerance never gives a smaller epsilon. */
  lemma EpsilonMonotone(s: Stats, t1: real, t2: real)
    requires 0.0 <= t1 <= t2
    ensures AdaptiveEpsilon(s, t1) <= AdaptiveEpsilon(s, t2)
  {
    var m := Abs(s.mean);
    var range := s.max - s.min;
    if m >= 0.0000000001 {
      ScaledMonotone(m, t1, t2, AdaptiveEpsilon(s, t1), AdaptiveEpsilon(s, t2));
    } else if range > 0.0 {
      ScaledMonotone(range, t1, t2, AdaptiveEpsilon(s, t1), AdaptiveEpsilon(s, t2));
    }
  }

  lemma ScaledMonotone(a: real, t1: real, t2: real, e1: real, e2: real)
    requires a >= 0.0 && t1 <= t2 && e1 == a * (t1 / 100.0) && e2 == a * (t2 / 100.0)
    ensures e1 <= e2
  {
    MulMonotone(a, t1 / 100.0, t2 / 100.0);
  }

  lemma MulMonotone(a: real, x: real, y: real)
    requires a >= 0.0 && x <= y
    ensures a * x <= a * y
  {
  }

  /** For a mean away from zero the epsilon is the given percentage of
      its magnitude, whatever the range. */
  lemma EpsilonOfMean(s: Stats, tolerance: real)
    requires Abs(s.mean) >= 0.0000000001
    ensures AdaptiveEpsilon(s, tolerance) * 100.0 == Abs(s.mean) * tolerance
  {
  }

  /** The epsilon of every column with statistics. */
  function CalculateAdaptiveEpsilon(stats: map<string, Stats>, tolerance: real): (eps: map<string, real>)
    ensures eps.Keys == stats.Keys
    ensures tolerance > 0.0 ==> forall c :: c in eps ==> eps[c] > 0.0
  {
    map c | c in stats :: AdaptiveEpsilon(stats[c], tolerance)
  }

  /** `epsilon_dict.get(col, 0.01)`. */
  function EpsilonFor(eps: map<string, real>, col: string): real
  {
    if col in eps then eps[col] else 0.01
  }

  /** One column of `compare_dataframe_rows`: two missing values agree,
      one missing value does not; numbers agree within epsilon; strings
      must be equal; values of other types agree exactly when their types
      are equal. */
  predicate CellsSimilar(a: Cell, b: Cell, epsilon: real)
  {
    if a.NaN? && b.NaN? then true
    else if a.NaN? || b.NaN? then false
    else if IsNumeric(a) && IsNumeric(b) then Abs(AsReal(a) - AsReal(b)) <= epsilon
    else if a.Text? && b.Text? then a.s == b.s
    else a.Other? && b.Other? && a.typeName == b.typeName
  }

  /** `compare_dataframe_rows`: the columns are checked in order and the
      first difference ends the comparison. */
  function CompareRows(columns: seq<string>, row1: seq<Cell>, row2: seq<Cell>, eps: map<string, real>): (similar: bool)
    requires |row1| == |columns| && |row2| == |columns|
    ensures similar <==> forall k :: 0 <= k < |columns| ==> CellsSimilar(row1[k], row2[k], EpsilonFor(eps, columns[k]))
  {
    if |columns| == 0 then true
    else if !CellsSimilar(row1[0], row2[0], EpsilonFor(eps, columns[0])) then false
    else CompareRows(columns[1..], row1[1..], row2[1..], eps)
  }

  /** Comparison does not depend on the order of the two rows. */
  lemma CompareRowsSymmetric(columns: seq<string>, row1: seq<Cell>, row2: seq<Cell>, eps: map<string, real>)
    requires |row1| == |columns| && |row2| == |columns|
    ensures CompareRows(columns, row1, row2, eps) == CompareRows(columns, row2, row1, eps)
  {
  }

  /** A row without missing values is similar to itself when no epsilon
      is negative. */
  lemma CompareRowsReflexive(columns: seq<string>, row: seq<Cell>, eps: map<string, real>)
    requires |row| == |columns|
    requires forall c :: c in eps ==> eps[c] >= 0.0
    ensures CompareRows(columns, row, row, eps)
  {
  }

  // ---------------------------------------------------------------------
  // get_duplicate_indices

  /** Rows `i` and `j` exist, have a cell for every column, and compare
      similar. */
  predicate Similar(X: seq<seq<Cell>>, columns: seq<string>, eps: map<string, real>, i: nat, j: nat)
  {
    i < |X| && j < |X| && |X[i]| == |columns| && |X[j]| == |columns|
    && CompareRows(columns, X[i], X[j], eps)
  }

  /** The similarity of two rows of the table, as the scan applies it. */
  function SimilarOf(X: seq<seq<Cell>>, columns: seq<string>, eps: map<string, real>): (nat, nat) -> bool
  {
    (i: nat, j: nat) => Similar(X, columns, eps, i, j)
  }

  // The scan below is stated for any similarity relation `sim` between the
  // rows `0 .. n-1`; the table's is `SimilarOf(X, columns, eps)`.

  /** The inner loop: the newest row from `hi` down to just above `i` that
      is not marked and is similar to row `i`. */
  function MatchFrom(sim: (nat, nat) -> bool, i: nat, hi: int, marked: seq<nat>): Option<nat>
    decreases hi - i
  {
    if hi <= i then None
    else if hi !in marked && sim(i, hi) then Some(hi)
    else MatchFrom(sim, i, hi - 1, marked)
  }

  /** The match is unmarked, newer than `i`, similar to it, and no unmarked
      row newer than the match is; without a match no unmarked newer row is
      similar. */
  lemma {:induction false} MatchFromSpec(sim: (nat, nat) -> bool, i: nat, hi: int, marked: seq<nat>)
    ensures var r := MatchFrom(sim, i, hi, marked);
            (r.Some? ==> i < r.value <= hi && r.value !in marked && sim(i, r.value))
            && (forall j: nat :: (if r.Some? then r.value else i) < j <= hi && j !in marked ==> !sim(i, j))
    decreases hi - i
  {
    if hi > i && !(hi !in marked && sim(i, hi)) {
      MatchFromSpec(sim, i, hi - 1, marked);
    }
  }

  /** One round of the outer loop, for row `i` of `n`: it is marked, paired
      with its match, when it has one. */
  function Step(n: nat, sim: (nat, nat) -> bool, i: nat, prev: (seq<nat>, seq<(nat, nat)>)): (seq<nat>, seq<(nat, nat)>)
  {
    match MatchFrom(sim, i, n - 1, prev.0)
    case None => prev
    case Some(j) => (prev.0 + [i], prev.1 + [(i, j)])
  }

  /** The marks and pairs after the outer loop has handled the `m` newest
      of `n` rows, newest first. */
  function Scan(n: nat, sim: (nat, nat) -> bool, m: nat): (seq<nat>, seq<(nat, nat)>)
    requires m <= n
  {
    if m == 0 then ([], []) else Step(n, sim, n - m, Scan(n, sim, m - 1))
  }

  /** The duplicate indices and pairs of the whole table. */
  function Duplicates(X: seq<seq<Cell>>, columns: seq<string>, eps: map<string, real>): (seq<nat>, seq<(nat, nat)>)
  {
    Scan(|X|, SimilarOf(X, columns, eps), |X|)
  }

  /** `get_duplicate_indices` (its two loops; the statistics and epsilons
      are inputs here). */
  method GetDuplicateIndices(X: seq<seq<Cell>>, columns: seq<string>, eps: map<string, real>)
    returns (indices: seq<nat>, pairs: seq<(nat, nat)>)
    ensures (indices, pairs) == Duplicates(X, columns, eps)
  {
    var n := |X|;
    ghost var sim := SimilarOf(X, columns, eps);
    indices, pairs := [], [];
    var i := n - 1;
    while i >= 0
      invariant -1 <= i <= n - 1
      invariant indices == Scan(n, sim, n - 1 - i).0 && pairs == Scan(n, sim, n - 1 - i).1
      decreases i
    {
      ghost var before := Scan(n, sim, n - 1 - i);
      ScanNext(n, sim, n - 1 - i);
      var j := n - 1;
      while j > i
        invariant i <= j <= n - 1
        invariant indices == before.0 && pairs == before.1
        invariant MatchFrom(sim, i, j, indices) == MatchFrom(sim, i, n - 1, indices)
        decreases j
      {
        if j !in indices && Similar(X, columns, eps, i, j) {
          MatchHere(sim, i, j, indices);
          indices := indices + [i];
          pairs := pairs + [(i, j)];
          break;
        }
        MatchSkip(sim, i, j, indices);
        j := j - 1;
      }
      i := i - 1;
    }
  }

  lemma MatchHere(sim: (nat, nat) -> bool, i: nat, j: nat, marked: seq<nat>)
    requires i < j && j !in marked && sim(i, j)
    ensures MatchFrom(sim, i, j, marked) == Some(j)
  {
  }

  lemma MatchSkip(sim: (nat, nat) -> bool, i: nat, j: nat, marked: seq<nat>)
    requires i < j && !(j !in marked && sim(i, j))
    ensures MatchFrom(sim, i, j, marked) == MatchFrom(sim, i, j - 1, marked)
  {
  }

  /** One more round: the next row down is handled by `Step`. */
  lemma ScanNext(n: nat, sim: (nat, nat) -> bool, m: nat)
    requires m < n
    ensures Scan(n, sim, m + 1) == Step(n, sim, n - 1 - m, Scan(n, sim, m))
  {
  }

  /** Marks and pairs correspond: the k-th pair starts at the k-th mark. */
  predicate Paired(n: nat, indices: seq<nat>, pairs: seq<(nat, nat)>)
  {
    |indices| == |pairs|
    && forall k :: 0 <= k < |pairs| ==> pairs[k].0 == indices[k] && indices[k] < pairs[k].1 < n
  }

  /** Marks are made newest first, each index at most once. */
  predicate Descending(indices: seq<nat>)
  {
    forall k, l :: 0 <= k < l < |indices| ==> indices[k] > indices[l]
  }

  /** No pair ends at a marked row. */
  predicate EndsUnmarked(indices: seq<nat>, pairs: seq<(nat, nat)>)
  {
    forall k :: 0 <= k < |pairs| ==> pairs[k].1 !in indices
  }

  predicate Above(indices: seq<nat>, low: int)
  {
    forall k :: 0 <= k < |indices| ==> low <= indices[k]
  }

  /** After `m` rows: marks and pairs correspond, marks descend and lie
      among the rows handled, and no pair ends at a marked row. */
  lemma {:induction false} ScanShape(n: nat, sim: (nat, nat) -> bool, m: nat)
    requires m <= n
    ensures var s := Scan(n, sim, m);
            Paired(n, s.0, s.1) && Descending(s.0) && Above(s.0, n - m) && EndsUnmarked(s.0, s.1)
  {
    if m > 0 {
      ScanShape(n, sim, m - 1);
      var prev := Scan(n, sim, m - 1);
      var i := n - m;
      var r := MatchFrom(sim, i, n - 1, prev.0);
      MatchFromSpec(sim, i, n - 1, prev.0);
      if r.Some? {
        var s := (prev.0 + [i], prev.1 + [(i, r.value)]);
        assert Scan(n, sim, m) == s;
        assert i !in prev.0;
        assert EndsUnmarked(s.0, s.1) by {
          forall k | 0 <= k < |s.1| ensures s.1[k].1 !in s.0 {
            if k < |prev.1| {
              assert s.1[k] == prev.1[k];
            }
          }
        }
      }
    }
  }

  /** Marks above row `i` are the same before and after row `i` is
      marked. */
  lemma MarkedAbove(prev: seq<nat>, i: nat, j: nat)
    requires i < j
    ensures j in prev + [i] <==> j in prev
  {
  }

  /** After `m` rows, a handled row is marked exactly when a newer
      unmarked row is similar to it. */
  lemma {:induction false} ScanMarks(n: nat, sim: (nat, nat) -> bool, m: nat)
    requires m <= n
    ensures var s := Scan(n, sim, m);
            forall i: nat :: n - m <= i < n ==>
              (i in s.0 <==> exists j: nat :: i < j < n && j !in s.0 && sim(i, j))
  {
    if m > 0 {
      ScanMarks(n, sim, m - 1);
      ScanShape(n, sim, m - 1);
      var prev := Scan(n, sim, m - 1);
      var i := n - m;
      var r := MatchFrom(sim, i, n - 1, prev.0);
      MatchFromSpec(sim, i, n - 1, prev.0);
      var s := Scan(n, sim, m);
      assert i !in prev.0;
      if r.Some? {
        assert s.0 == prev.0 + [i];
        forall j: nat | i < j < n ensures (j in s.0 <==> j in prev.0) {
          MarkedAbove(prev.0, i, j);
        }
        assert r.value !in s.0;
      } else {
        assert s == prev;
      }
    }
  }

  /** After `m` rows, every pair is similar and names the newest unmarked
      row similar to its first row. */
  lemma {:induction false} ScanPairs(n: nat, sim: (nat, nat) -> bool, m: nat)
    requires m <= n
    ensures var s := Scan(n, sim, m);
            (forall k :: 0 <= k < |s.1| ==> sim(s.1[k].0, s.1[k].1))
            && (forall k, j: nat :: 0 <= k < |s.1| && s.1[k].1 < j < n && j !in s.0 ==> !sim(s.1[k].0, j))
  {
    if m > 0 {
      ScanPairs(n, sim, m - 1);
      ScanShape(n, sim, m - 1);
      var prev := Scan(n, sim, m - 1);
      var i := n - m;
      var r := MatchFrom(sim, i, n - 1, prev.0);
      MatchFromSpec(sim, i, n - 1, prev.0);
      if r.Some? {
        var s := (prev.0 + [i], prev.1 + [(i, r.value)]);
        assert Scan(n, sim, m) == s;
        forall k, j: nat | 0 <= k < |s.1| && s.1[k].1 < j < n && j !in s.0
          ensures !sim(s.1[k].0, j)
        {
          MarkedAbove(prev.0, i, j);
          if k < |prev.1| {
            assert s.1[k] == prev.1[k];
          }
        }
        forall k | 0 <= k < |s.1| ensures sim(s.1[k].0, s.1[k].1) {
          if k < |prev.1| {
            assert s.1[k] == prev.1[k];
          }
        }
      }
    }
  }

  /** The newest row is never marked: nothing is newer. */
  lemma {:induction false} NewestUnmarked(n: nat, sim: (nat, nat) -> bool, m: nat)
    requires 0 < n && m <= n
    ensures n - 1 !in Scan(n, sim, m).0
  {
    if m > 0 {
      NewestUnmarked(n, sim, m - 1);
    }
  }

  lemma LastRowKept(X: seq<seq<Cell>>, columns: seq<string>, eps: map<string, real>)
    requires |X| > 0
    ensures |X| - 1 !in Duplicates(X, columns, eps).0
  {
    NewestUnmarked(|X|, SimilarOf(X, columns, eps), |X|);
  }

  /** For the table: each row is marked at most once, newest first; a
      row is marked exactly when some newer unmarked row is similar to it;
      every pair `(i, j)` has `i < j`, `j` unmarked, the rows similar, and
      `j` the newest such row. */
  lemma DuplicatesSpec(X: seq<seq<Cell>>, columns: seq<string>, eps: map<string, real>)
    ensures var s := Duplicates(X, columns, eps);
            Paired(|X|, s.0, s.1) && Descending(s.0) && EndsUnmarked(s.0, s.1)
            && (forall i: nat :: i < |X| ==>
                  (i in s.0 <==> exists j: nat :: i < j < |X| && j !in s.0 && Similar(X, columns, eps, i, j)))
            && (forall k :: 0 <= k < |s.1| ==> Similar(X, columns, eps, s.1[k].0, s.1[k].1))
            && (forall k, j: nat :: 0 <= k < |s.1| && s.1[k].1 < j < |X| && j !in s.0 ==>
                  !Similar(X, columns, eps, s.1[k].0, j))
  {
    var sim := SimilarOf(X, columns, eps);
    ScanShape(|X|, sim, |X|);
    ScanMarks(|X|, sim, |X|);
    ScanPairs(|X|, sim, |X|);
  }
}
