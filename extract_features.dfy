/** Reduction of a per-minute power profile to per-day features
    (T1: mean power, T4: mean absolute power, and the day value taken
    from the first timestamp of each day). */
module Features {

  /** Length of one segment: one day of one-minute samples (24 * 60). */
  const MinutesPerDay: nat := 1440

  /** Sum of a sequence, accumulated from the left. */
  function Sum(s: seq<real>): real
  {
    if s == [] then 0.0 else Sum(s[..|s| - 1]) + s[|s| - 1]
  }

  /** Arithmetic mean of a non-empty sequence (np.mean). */
  function Mean(s: seq<real>): real
    requires |s| > 0
  {
    Sum(s) / (|s| as real)
  }

  function Abs(x: real): real
  {
    if x < 0.0 then -x else x
  }

  /** Elementwise absolute value (np.abs). */
  function Magnitudes(s: seq<real>): seq<real>
  {
    seq(|s|, i requires 0 <= i < |s| => Abs(s[i]))
  }

  /** Number of whole days in a profile of n samples; a trailing partial
      day does not count. */
  function SegmentCount(n: nat): (nseg: nat)
    ensures nseg * MinutesPerDay <= n < (nseg + 1) * MinutesPerDay
  {
    n / MinutesPerDay
  }

  /** The samples of day k: indices [k * 1440, (k + 1) * 1440). */
  function Block(p: seq<real>, k: nat): (v: seq<real>)
    requires (k + 1) * MinutesPerDay <= |p|
    ensures |v| == MinutesPerDay
  {
    p[k * MinutesPerDay .. (k + 1) * MinutesPerDay]
  }

  /** The first m day blocks of a profile, in input order. */
  function Blocks(p: seq<real>, m: nat): seq<seq<real>>
    requires m <= SegmentCount(|p|)
  {
    seq(m, k requires 0 <= k < m => Block(p, k))
  }

  /** Concatenation of a sequence of blocks. */
  function Concat(blocks: seq<seq<real>>): seq<real>
  {
    if blocks == [] then [] else Concat(blocks[..|blocks| - 1]) + blocks[|blocks| - 1]
  }

  /** The day value of a block whose first timestamp is t0 minutes from the
      start of the year: true (not floor) division by the day length. */
  function DayValue(t0: int): real
  {
    (t0 as real) / (MinutesPerDay as real)
  }

  /** Every block's first timestamp is an index of the time column. */
  predicate BlockStartsIndexable(tLen: nat, pLen: nat)
  {
    SegmentCount(pLen) == 0 || (SegmentCount(pLen) - 1) * MinutesPerDay < tLen
  }

  /** Outcome of the extraction: the feature matrix bf (one row per day,
      columns T1 and T4) and the day vector, or the index error raised when
      the time column is shorter than the power column requires. */
  datatype Extraction =
    | Extracted(bf: array2<real>, day: array<real>)
    | IndexError(index: nat)

  /** Rows [0, m) of bf and day hold the features of day blocks [0, m). */
  predicate RowsFilled(bf: array2<real>, day: array<real>, t: seq<int>, p: seq<real>, m: nat)
    requires m <= bf.Length0 && bf.Length1 == 2 && m <= day.Length
    requires m <= SegmentCount(|p|) && (m == 0 || (m - 1) * MinutesPerDay < |t|)
    reads bf, day
  {
    forall k :: 0 <= k < m ==>
      && bf[k, 0] == Mean(Block(p, k))
      && bf[k, 1] == Mean(Magnitudes(Block(p, k)))
      && day[k] == DayValue(t[k * MinutesPerDay])
  }

  method ExtractFeatures(t: seq<int>, inputProf: seq<real>) returns (r: Extraction)
    ensures r.IndexError? <==> !BlockStartsIndexable(|t|, |inputProf|)
    ensures r.IndexError? ==>
      r.index % MinutesPerDay == 0 && |t| <= r.index < |t| + MinutesPerDay
    ensures r.Extracted? ==>
      && fresh(r.bf) && fresh(r.day)
      && r.bf.Length0 == SegmentCount(|inputProf|)
      && r.bf.Length1 == 2
      && r.day.Length == r.bf.Length0
      && RowsFilled(r.bf, r.day, t, inputProf, r.bf.Length0)
  {
    var n := |inputProf|;
    var nseg := n / MinutesPerDay;
    // np.zeros: every entry of bf and day is written before they are
    // returned, so their initial zeros are not modelled
    var bf := new real[nseg, 2];
    var day := new real[nseg];
    for iseg := 0 to nseg
      invariant iseg == 0 || (iseg - 1) * MinutesPerDay < |t|
      invariant RowsFilled(bf, day, t, inputProf, iseg)
    {
      var i1 := iseg * MinutesPerDay;
      var i2 := i1 + MinutesPerDay;
      var v := inputProf[i1..i2];
      assert v == Block(inputProf, iseg);
      bf[iseg, 0] := Mean(v);
      bf[iseg, 1] := Mean(Magnitudes(v));
      if i1 >= |t| {
        return IndexError(i1);
      }
      day[iseg] := DayValue(t[i1]);
    }
    return Extracted(bf, day);
  }

  /** |sum| is at most the sum of magnitudes, which is non-negative. */
  lemma {:induction false} SumMagnitudesBound(s: seq<real>)
    ensures 0.0 <= Sum(Magnitudes(s))
    ensures Abs(Sum(s)) <= Sum(Magnitudes(s))
  {
    if s != [] {
      var init := s[..|s| - 1];
      assert Magnitudes(s)[..|s| - 1] == Magnitudes(init);
      SumMagnitudesBound(init);
    }
  }

  /** T4 of a block is non-negative and bounds the magnitude of T1. */
  lemma MeanMagnitudeBounds(s: seq<real>)
    requires |s| > 0
    ensures Mean(Magnitudes(s)) >= 0.0
    ensures Mean(Magnitudes(s)) >= Abs(Mean(s))
  {
    SumMagnitudesBound(s);
    DivideByCount(Sum(s), Sum(Magnitudes(s)), |s| as real);
  }

  /** Dividing by a positive count keeps order and commutes with Abs. */
  lemma DivideByCount(x: real, y: real, n: real)
    requires n > 0.0 && Abs(x) <= y
    ensures Abs(x / n) == Abs(x) / n
    ensures Abs(x) / n <= y / n
  {
  }

  lemma {:induction false} SumConstant(s: seq<real>, x: real)
    requires forall i :: 0 <= i < |s| ==> s[i] == x
    ensures Sum(s) == (|s| as real) * x
  {
    if s != [] {
      SumConstant(s[..|s| - 1], x);
    }
  }

  /** A block of constant power x has T1 = x and T4 = |x|. */
  lemma ConstantBlockFeatures(s: seq<real>, x: real)
    requires |s| > 0
    requires forall i :: 0 <= i < |s| ==> s[i] == x
    ensures Mean(s) == x
    ensures Mean(Magnitudes(s)) == Abs(x)
  {
    SumConstant(s, x);
    SumConstant(Magnitudes(s), Abs(x));
    MeanOfMultiple(|s| as real, x);
    MeanOfMultiple(|s| as real, Abs(x));
  }

  lemma MeanOfMultiple(n: real, x: real)
    requires n > 0.0
    ensures (n * x) / n == x
  {
  }

  /** The day blocks are consecutive, disjoint and in input order: laid end
      to end they give back the profile up to the last whole day. */
  lemma {:induction false} BlocksTileProfile(p: seq<real>, m: nat)
    requires m <= SegmentCount(|p|)
    ensures |Blocks(p, m)| == m
    ensures Concat(Blocks(p, m)) == p[..m * MinutesPerDay]
  {
    if m > 0 {
      BlocksTileProfile(p, m - 1);
      assert Blocks(p, m)[..m - 1] == Blocks(p, m - 1);
      assert p[..m * MinutesPerDay] == p[..(m - 1) * MinutesPerDay] + Block(p, m - 1);
    }
  }

  /** A profile of k whole days and r < 1440 extra samples has k segments. */
  lemma SegmentCountTruncates(k: nat, r: nat)
    requires r < MinutesPerDay
    ensures SegmentCount(k * MinutesPerDay + r) == k
  {
  }

  /** The day value's integer part is the floor-division day index; it is a
      whole number exactly when the block starts at midnight. */
  lemma DayValueFloor(t0: int)
    ensures DayValue(t0).Floor == t0 / MinutesPerDay
    ensures DayValue(t0) == (t0 / MinutesPerDay) as real <==> t0 % MinutesPerDay == 0
  {
  }

  /** For a contiguous time column the day values of consecutive blocks
      step by exactly one. */
  lemma ContiguousDayValues(t: seq<int>, k: nat)
    requires forall i :: 0 <= i < |t| ==> t[i] == t[0] + i
    requires k * MinutesPerDay < |t|
    ensures DayValue(t[k * MinutesPerDay]) == DayValue(t[0]) + (k as real)
  {
  }
}
