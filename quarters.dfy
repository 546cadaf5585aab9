/** Complexity quarters: the label the script gives each joined country
    from its `ECI Rank 2018` value and the number of joined rows. */
module Quarters {

  /** The four labels, ordered Q1 < Q2 < Q3 < Q4 by `Ordinal`. */
  datatype Quarter = Q1 | Q2 | Q3 | Q4 {

    /** Position of the label in the order Q1 < Q2 < Q3 < Q4. */
    function Ordinal(): (k: nat)
      ensures 1 <= k <= 4
      ensures k == 1 <==> this == Q1
      ensures k == 4 <==> this == Q4
    {
      match this
      case Q1 => 1
      case Q2 => 2
      case Q3 => 3
      case Q4 => 4
    }
  }

  /** The quarter of a country of rank `rank` among `numRows` joined rows.
      The contract is the source's own test, over the true quotient
      `numRows / 4`; the body is the same partition in integer arithmetic. */
  function QuarterOf(rank: int, numRows: nat): (q: Quarter)
    ensures q == Q1 <==> (rank as real) < (numRows as real) / 4.0
    ensures q == Q2 <==> (numRows as real) / 4.0 <= (rank as real) < 2.0 * ((numRows as real) / 4.0)
    ensures q == Q3 <==> 2.0 * ((numRows as real) / 4.0) <= (rank as real) < 3.0 * ((numRows as real) / 4.0)
    ensures q == Q4 <==> 3.0 * ((numRows as real) / 4.0) <= (rank as real)
  {
    if 4 * rank < numRows then Q1
    else if 2 * rank < numRows then Q2
    else if 4 * rank < 3 * numRows then Q3
    else Q4
  }

  /** The labels are monotone in the rank: a better (smaller) rank never
      gets a later quarter. */
  lemma QuarterMonotone(a: int, b: int, numRows: nat)
    requires a <= b
    ensures QuarterOf(a, numRows).Ordinal() <= QuarterOf(b, numRows).Ordinal()
  {
    var qa, qb := QuarterOf(a, numRows), QuarterOf(b, numRows);
    if qa == Q2 { assert 2 * a < numRows && numRows <= 4 * b; }
    if qa == Q3 { assert numRows <= 2 * a && numRows <= 2 * b; }
    if qa == Q4 { assert 3 * numRows <= 4 * b; }
  }

  /** A rank at or beyond the joined row count (ranks come from the whole
      economic table) always lands in the last quarter. */
  lemma RankBeyondRowsIsQ4(rank: int, numRows: nat)
    requires numRows <= rank
    ensures QuarterOf(rank, numRows) == Q4
  {
  }

  /** Every rank lands in exactly one quarter, and the quarter is fixed by
      the integer comparisons 4R < n, 2R < n and 4R < 3n. */
  lemma QuarterIntegerBounds(rank: int, numRows: nat)
    ensures QuarterOf(rank, numRows) == Q1 <==> 4 * rank < numRows
    ensures QuarterOf(rank, numRows) == Q2 <==> numRows <= 4 * rank && 2 * rank < numRows
    ensures QuarterOf(rank, numRows) == Q3 <==> numRows <= 2 * rank && 4 * rank < 3 * numRows
    ensures QuarterOf(rank, numRows) == Q4 <==> 3 * numRows <= 4 * rank
  {
  }

  /** With 100 joined rows the boundaries fall at ranks 25, 50 and 75. */
  lemma HundredRowBoundaries(rank: int)
    requires 1 <= rank <= 100
    ensures QuarterOf(rank, 100) == Q1 <==> rank < 25
    ensures QuarterOf(rank, 100) == Q2 <==> 25 <= rank < 50
    ensures QuarterOf(rank, 100) == Q3 <==> 50 <= rank < 75
    ensures QuarterOf(rank, 100) == Q4 <==> 75 <= rank
  {
  }

  /** The boundaries move with the joined row count alone: the same rank 1
      is in Q2 among four joined rows and in Q1 among five. */
  lemma BoundariesFollowJoinedCount()
    ensures QuarterOf(1, 4) == Q2
    ensures QuarterOf(1, 5) == Q1
  {
  }

  /** How many of the ranks lo, lo + 1, ..., hi - 1 land in quarter `q`
      among `numRows` joined rows. */
  function CountInRange(q: Quarter, lo: int, hi: int, numRows: nat): (c: nat)
    ensures c <= if lo < hi then hi - lo else 0
    decreases hi - lo
  {
    if hi <= lo then 0
    else (if QuarterOf(lo, numRows) == q then 1 else 0) + CountInRange(q, lo + 1, hi, numRows)
  }

  lemma {:induction false} CountSplit(q: Quarter, lo: int, mid: int, hi: int, numRows: nat)
    requires lo <= mid <= hi
    ensures CountInRange(q, lo, hi, numRows) == CountInRange(q, lo, mid, numRows) + CountInRange(q, mid, hi, numRows)
    decreases mid - lo
  {
    if lo < mid {
      CountSplit(q, lo + 1, mid, hi, numRows);
    }
  }

  lemma {:induction false} CountUniform(q: Quarter, lo: int, hi: int, numRows: nat)
    requires lo <= hi
    requires forall r :: lo <= r < hi ==> QuarterOf(r, numRows) == q
    ensures CountInRange(q, lo, hi, numRows) == hi - lo
    decreases hi - lo
  {
    if lo < hi {
      CountUniform(q, lo + 1, hi, numRows);
    }
  }

  lemma {:induction false} CountAbsent(q: Quarter, lo: int, hi: int, numRows: nat)
    requires forall r :: lo <= r < hi ==> QuarterOf(r, numRows) != q
    ensures CountInRange(q, lo, hi, numRows) == 0
    decreases hi - lo
  {
    if lo < hi {
      CountAbsent(q, lo + 1, hi, numRows);
    }
  }

  lemma SegmentCount(q: Quarter, lo: int, hi: int, numRows: nat, segment: Quarter)
    requires lo <= hi
    requires forall r :: lo <= r < hi ==> QuarterOf(r, numRows) == segment
    ensures CountInRange(q, lo, hi, numRows) == if q == segment then hi - lo else 0
  {
    if q == segment {
      CountUniform(q, lo, hi, numRows);
    } else {
      CountAbsent(q, lo, hi, numRows);
    }
  }

  /** For 4m joined rows ranked 1 to 4m the quarters hold m - 1, m, m and
      m + 1 rows (24, 25, 25 and 26 for 100 rows): the partition is by rank
      value, so the first and last quarters differ by two. */
  lemma QuarterSizesForRanksOneToN(q: Quarter, m: nat)
    requires 1 <= m
    ensures CountInRange(q, 1, 4 * m + 1, 4 * m)
         == match q case Q1 => m - 1 case Q2 => m case Q3 => m case Q4 => m + 1
  {
    var n := 4 * m;
    CountSplit(q, 1, m, n + 1, n);
    CountSplit(q, m, 2 * m, n + 1, n);
    CountSplit(q, 2 * m, 3 * m, n + 1, n);
    SegmentCount(q, 1, m, n, Q1);
    SegmentCount(q, m, 2 * m, n, Q2);
    SegmentCount(q, 2 * m, 3 * m, n, Q3);
    SegmentCount(q, 3 * m, n + 1, n, Q4);
  }
}
