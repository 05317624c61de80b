/** The aggregation and selection operators of the Arden Syntax: COUNT,
    EXIST, SUM, AVERAGE, VARIANCE, MEDIAN, MINIMUM, MAXIMUM, FIRST, LAST,
    EARLIEST, LATEST, ANY, ALL, NO and the INDEX selectors.  Each operator
    takes the elements of its argument (see ArdenValues.Items) and yields one
    value with its primary time.  Three time rules are kept apart:
    the algebraic rule (CommonTime), the tie rule of the order statistics
    (LatestTimeOf) and the time of a selected element. */
module Aggregation {

  import opened Wrappers
  import opened ArdenValues

  // ---------------------------------------------------------------------
  // Operands

  /** The numbers of a list, when every element is a number. */
  function Numbers(s: seq<Elem>): (r: Option<seq<real>>)
    ensures r.Some? <==> forall i :: 0 <= i < |s| ==> s[i].value.Num?
    ensures r.Some? ==> |r.value| == |s| && forall i :: 0 <= i < |s| ==> r.value[i] == s[i].value.n
  {
    if s == [] then Some([])
    else if !s[0].value.Num? then None
    else match Numbers(s[1..])
      case None => None
      case Some(rest) => Some([s[0].value.n] + rest)
  }

  /** A list of numbers yields exactly its values. */
  lemma NumbersOf(s: seq<Elem>, xs: seq<real>)
    requires |s| == |xs| && forall i :: 0 <= i < |s| ==> s[i].value == Num(xs[i])
    ensures Numbers(s) == Some(xs)
  {
    assert Numbers(s).value == xs;
  }

  /** The primary times of a list as ordering keys, when every element has one. */
  function TimeKeys(s: seq<Elem>): (r: Option<seq<real>>)
    ensures r.Some? <==> forall i :: 0 <= i < |s| ==> s[i].time.Some?
    ensures r.Some? ==> |r.value| == |s| && forall i :: 0 <= i < |s| ==> r.value[i] == s[i].time.value as real
  {
    if s == [] then Some([])
    else if s[0].time.None? then None
    else match TimeKeys(s[1..])
      case None => None
      case Some(rest) => Some([s[0].time.value as real] + rest)
  }

  // ---------------------------------------------------------------------
  // Time rules

  /** The algebraic time rule: the primary time shared by every element, if
      they all share one. */
  function CommonTime(s: seq<Elem>): (r: Option<Time>)
    ensures r.Some? <==> |s| > 0 && s[0].time.Some? && forall i :: 0 <= i < |s| ==> s[i].time == s[0].time
    ensures r.Some? ==> r == s[0].time
  {
    if |s| == 0 then None
    else if |s| == 1 then s[0].time
    else if s[0].time == CommonTime(s[1..]) then s[0].time
    else None
  }

  function Later(t: Time, o: Option<Time>): Option<Time>
  {
    if o.Some? && o.value > t then o else Some(t)
  }

  /** The tie rule of MINIMUM, MAXIMUM and MEDIAN: the latest primary time
      among the elements whose value is the number v. */
  function LatestTimeOf(s: seq<Elem>, v: real): (r: Option<Time>)
    ensures r.None? <==> forall i :: 0 <= i < |s| && s[i].value == Num(v) ==> s[i].time.None?
    ensures r.Some? ==> exists i :: 0 <= i < |s| && s[i].value == Num(v) && s[i].time == r
    ensures r.Some? ==> forall i :: 0 <= i < |s| && s[i].value == Num(v) && s[i].time.Some? ==> s[i].time.value <= r.value
  {
    if s == [] then None
    else
      var rest := LatestTimeOf(s[1..], v);
      assert forall i :: 1 <= i < |s| ==> s[i] == s[1..][i - 1];
      if s[0].value == Num(v) && s[0].time.Some? then Later(s[0].time.value, rest) else rest
  }

  /** Two candidate times agree, or there is no time. */
  function SameTime(a: Option<Time>, b: Option<Time>): Option<Time>
  {
    if a == b then a else None
  }

  // ---------------------------------------------------------------------
  // Orderings

  ghost predicate Sorted(xs: seq<real>)
  {
    forall i, j :: 0 <= i < j < |xs| ==> xs[i] <= xs[j]
  }

  function Insert(x: real, ys: seq<real>): (r: seq<real>)
    ensures |r| == |ys| + 1
  {
    if ys == [] || x <= ys[0] then [x] + ys else [ys[0]] + Insert(x, ys[1..])
  }

  /** The values in ascending order, as MEDIAN sorts them. */
  function Sort(xs: seq<real>): (r: seq<real>)
    ensures |r| == |xs|
  {
    if xs == [] then [] else Insert(xs[0], Sort(xs[1..]))
  }

  /** A value below every member of a sorted sequence can be put in front of it. */
  lemma SortedCons(h: real, t: seq<real>)
    requires Sorted(t) && forall k :: 0 <= k < |t| ==> h <= t[k]
    ensures Sorted([h] + t)
  {
    var r := [h] + t;
    forall i, j | 0 <= i < j < |r|
      ensures r[i] <= r[j]
    {
      assert r[j] == t[j - 1];
      if i > 0 {
        assert r[i] == t[i - 1];
      }
    }
  }

  /** A bound below the inserted value and the sequence is below every member of the result. */
  lemma {:induction false} InsertLowerBound(lo: real, x: real, ys: seq<real>)
    requires lo <= x && forall k :: 0 <= k < |ys| ==> lo <= ys[k]
    ensures forall k :: 0 <= k < |Insert(x, ys)| ==> lo <= Insert(x, ys)[k]
    decreases |ys|
  {
    if ys != [] && x > ys[0] {
      InsertLowerBound(lo, x, ys[1..]);
    }
  }

  lemma {:induction false} InsertSorted(x: real, ys: seq<real>)
    requires Sorted(ys)
    ensures Sorted(Insert(x, ys)) && multiset(Insert(x, ys)) == multiset(ys) + multiset{x}
    decreases |ys|
  {
    if ys == [] || x <= ys[0] {
      forall k | 0 <= k < |ys|
        ensures x <= ys[k]
      {
        assert ys[0] <= ys[k] || k == 0;
      }
      SortedCons(x, ys);
    } else {
      var rest := Insert(x, ys[1..]);
      SortedTail(ys);
      InsertSorted(x, ys[1..]);
      MultisetTail(ys);
      forall k | 0 <= k < |ys[1..]|
        ensures ys[0] <= ys[1..][k]
      {
        assert ys[1..][k] == ys[k + 1];
      }
      InsertLowerBound(ys[0], x, ys[1..]);
      SortedCons(ys[0], rest);
      assert multiset([ys[0]] + rest) == multiset{ys[0]} + multiset(rest);
    }
  }

  /** Sort orders the values and keeps each of them as often as it occurs. */
  lemma {:induction false} SortSorted(xs: seq<real>)
    ensures Sorted(Sort(xs)) && multiset(Sort(xs)) == multiset(xs)
  {
    if xs != [] {
      SortSorted(xs[1..]);
      InsertSorted(xs[0], Sort(xs[1..]));
      assert xs == [xs[0]] + xs[1..];
    }
  }

  /** The position of the first smallest key. */
  function FirstArgMin(xs: seq<real>): (k: nat)
    requires |xs| > 0
    ensures k < |xs|
    ensures forall j :: 0 <= j < |xs| ==> xs[k] <= xs[j]
    ensures forall j :: 0 <= j < k ==> xs[j] > xs[k]
  {
    if |xs| == 1 then 0
    else
      var k := FirstArgMin(xs[..|xs| - 1]);
      if xs[|xs| - 1] < xs[k] then |xs| - 1 else k
  }

  /** The position of the first largest key. */
  function FirstArgMax(xs: seq<real>): (k: nat)
    requires |xs| > 0
    ensures k < |xs|
    ensures forall j :: 0 <= j < |xs| ==> xs[j] <= xs[k]
    ensures forall j :: 0 <= j < k ==> xs[j] < xs[k]
  {
    if |xs| == 1 then 0
    else
      var k := FirstArgMax(xs[..|xs| - 1]);
      if xs[|xs| - 1] > xs[k] then |xs| - 1 else k
  }

  // ---------------------------------------------------------------------
  // COUNT and EXIST

  /** COUNT: every element counts, NULL included; a count has no time. */
  function Count(s: seq<Elem>): (r: Elem)
    ensures r.time.None? && r.value == Num(|s| as real)
  {
    Untimed(Num(|s| as real))
  }

  function HasValue(s: seq<Elem>): (b: bool)
    ensures b <==> exists i :: 0 <= i < |s| && s[i].value != Null
  {
    if s == [] then false
    else
      assert forall i :: 1 <= i < |s| ==> s[i] == s[1..][i - 1];
      s[0].value != Null || HasValue(s[1..])
  }

  /** The elements that are not NULL, in their order. */
  function NonNull(s: seq<Elem>): (r: seq<Elem>)
    ensures forall e :: e in r <==> e in s && e.value != Null
    ensures |r| <= |s|
  {
    if s == [] then []
    else if s[0].value == Null then NonNull(s[1..])
    else [s[0]] + NonNull(s[1..])
  }

  /** EXIST: TRUE iff some element is not NULL; its time is the time shared
      by the non-NULL elements. */
  function Exist(s: seq<Elem>): (r: Elem)
    ensures r.value == Bool(exists i :: 0 <= i < |s| && s[i].value != Null)
    ensures r.time == CommonTime(NonNull(s))
  {
    Elem(Bool(HasValue(s)), CommonTime(NonNull(s)))
  }

  // ---------------------------------------------------------------------
  // SUM, AVERAGE, VARIANCE

  function SumOf(xs: seq<real>): real
  {
    if xs == [] then 0.0 else xs[0] + SumOf(xs[1..])
  }

  lemma {:induction false} SumOfAppend(a: seq<real>, b: seq<real>)
    ensures SumOf(a + b) == SumOf(a) + SumOf(b)
  {
    if a == [] {
      assert a + b == b;
    } else {
      assert (a + b)[1..] == a[1..] + b;
      SumOfAppend(a[1..], b);
    }
  }

  /** SUM: the total of a list of numbers (0 for the empty list); NULL when
      some element is not a number. */
  function Sum(s: seq<Elem>): (r: Elem)
    ensures r.value.Num? <==> Numbers(s).Some?
    ensures r.value.Num? ==> r.time == CommonTime(s)
    ensures !r.value.Num? ==> r == NullElem
    ensures s == [] ==> r == Untimed(Num(0.0))
    ensures |s| == 1 && s[0].value.Num? ==> r == s[0]
  {
    match Numbers(s)
    case None => NullElem
    case Some(xs) =>
      assert |xs| == 1 ==> SumOf(xs) == xs[0] + SumOf(xs[1..]) && xs[1..] == [];
      Elem(Num(SumOf(xs)), CommonTime(s))
  }

  /** The numbers of a concatenation are those of its parts. */
  lemma {:induction false} NumbersAppend(a: seq<Elem>, b: seq<Elem>)
    requires Numbers(a).Some? && Numbers(b).Some?
    ensures Numbers(a + b) == Some(Numbers(a).value + Numbers(b).value)
  {
    var xs := Numbers(a).value + Numbers(b).value;
    forall i | 0 <= i < |a + b|
      ensures (a + b)[i].value == Num(xs[i])
    {
      if i < |a| {
        assert (a + b)[i] == a[i];
      } else {
        assert (a + b)[i] == b[i - |a|];
      }
    }
    NumbersOf(a + b, xs);
  }

  /** SUM distributes over concatenation: the sum of two lists of numbers
      is the sum of their sums. */
  lemma SumAppend(a: seq<Elem>, b: seq<Elem>)
    requires Numbers(a).Some? && Numbers(b).Some?
    ensures Sum(a + b).value == Num(Sum(a).value.n + Sum(b).value.n)
  {
    NumbersAppend(a, b);
    SumOfAppend(Numbers(a).value, Numbers(b).value);
  }

  /** AVERAGE: the mean of a non-empty list of numbers. */
  function Average(s: seq<Elem>): (r: Elem)
    ensures r.value.Num? <==> |s| > 0 && Numbers(s).Some?
    ensures r.value.Num? ==> r.time == CommonTime(s)
    ensures !r.value.Num? ==> r == NullElem
  {
    match Numbers(s)
    case None => NullElem
    case Some(xs) => if xs == [] then NullElem else Elem(Num(SumOf(xs) / |xs| as real), CommonTime(s))
  }

  function SquaredDeviations(xs: seq<real>, m: real): (r: real)
    ensures r >= 0.0
  {
    if xs == [] then 0.0
    else
      SquareNonNegative(xs[0] - m);
      (xs[0] - m) * (xs[0] - m) + SquaredDeviations(xs[1..], m)
  }

  lemma SquareNonNegative(d: real)
    ensures d * d >= 0.0
  {
    if d < 0.0 {
      assert d * d == (-d) * (-d);
    }
  }

  /** VARIANCE: the sample variance (divided by n - 1) of at least two numbers. */
  function Variance(s: seq<Elem>): (r: Elem)
    ensures r.value.Num? <==> |s| >= 2 && Numbers(s).Some?
    ensures r.value.Num? ==> r.time == CommonTime(s) && r.value.n >= 0.0
    ensures !r.value.Num? ==> r == NullElem
  {
    match Numbers(s)
    case None => NullElem
    case Some(xs) =>
      if |xs| < 2 then NullElem
      else
        var mean := SumOf(xs) / |xs| as real;
        Elem(Num(SquaredDeviations(xs, mean) / (|xs| - 1) as real), CommonTime(s))
  }

  /** The sum of n copies of c. */
  lemma {:induction false} SumOfConstant(xs: seq<real>, c: real)
    requires forall i :: 0 <= i < |xs| ==> xs[i] == c
    ensures SumOf(xs) == |xs| as real * c
  {
    if xs != [] {
      SumOfConstant(xs[1..], c);
    }
  }

  /** There are no deviations from the value every number has. */
  lemma {:induction false} SquaredDeviationsOfConstant(xs: seq<real>, c: real)
    requires forall i :: 0 <= i < |xs| ==> xs[i] == c
    ensures SquaredDeviations(xs, c) == 0.0
  {
    if xs != [] {
      SquaredDeviationsOfConstant(xs[1..], c);
      assert (xs[0] - c) * (xs[0] - c) == 0.0 * 0.0;
    }
  }

  /** The mean of n copies of c is c. */
  lemma ConstantMean(xs: seq<real>, c: real)
    requires |xs| > 0 && forall i :: 0 <= i < |xs| ==> xs[i] == c
    ensures SumOf(xs) / |xs| as real == c
  {
    SumOfConstant(xs, c);
  }

  /** VARIANCE of numbers that are all equal is 0. */
  lemma VarianceOfConstant(s: seq<Elem>)
    requires |s| >= 2 && Numbers(s).Some?
    requires forall i :: 0 <= i < |s| ==> s[i].value == s[0].value
    ensures Variance(s).value == Num(0.0)
  {
    var xs := Numbers(s).value;
    ConstantMean(xs, xs[0]);
    SquaredDeviationsOfConstant(xs, xs[0]);
  }

  /** Every value moved by c. */
  function Shifted(xs: seq<real>, c: real): (r: seq<real>)
    ensures |r| == |xs| && forall i :: 0 <= i < |xs| ==> r[i] == xs[i] + c
  {
    if xs == [] then [] else [xs[0] + c] + Shifted(xs[1..], c)
  }

  lemma {:induction false} SumOfShifted(xs: seq<real>, c: real)
    ensures SumOf(Shifted(xs, c)) == SumOf(xs) + |xs| as real * c
  {
    if xs != [] {
      SumOfShifted(xs[1..], c);
      assert Shifted(xs, c)[1..] == Shifted(xs[1..], c);
    }
  }

  /** Moving the values and their mean alike leaves every deviation as it was. */
  lemma {:induction false} SquaredDeviationsOfShifted(xs: seq<real>, m: real, c: real)
    ensures SquaredDeviations(Shifted(xs, c), m + c) == SquaredDeviations(xs, m)
  {
    if xs != [] {
      SquaredDeviationsOfShifted(xs[1..], m, c);
      assert Shifted(xs, c)[1..] == Shifted(xs[1..], c);
      assert Shifted(xs, c)[0] - (m + c) == xs[0] - m;
    }
  }

  lemma MeanOfShifted(xs: seq<real>, c: real)
    requires |xs| > 0
    ensures SumOf(Shifted(xs, c)) / |xs| as real == SumOf(xs) / |xs| as real + c
  {
    SumOfShifted(xs, c);
    QuotientOfShifted(SumOf(xs), |xs| as real, c);
  }

  lemma QuotientOfShifted(a: real, n: real, c: real)
    requires n > 0.0
    ensures (a + n * c) / n == a / n + c
  {
    assert (a + n * c) / n == a / n + (n * c) / n;
    assert (n * c) / n == c;
  }

  /** The value VARIANCE takes on at least two numbers, unfolded once here so
      that VarianceOfShifted can compare the two lists without unfolding
      VARIANCE itself. */
  lemma VarianceValue(s: seq<Elem>, xs: seq<real>)
    requires Numbers(s) == Some(xs) && |xs| >= 2
    ensures Variance(s).value == Num(SquaredDeviations(xs, SumOf(xs) / |xs| as real) / (|xs| - 1) as real)
  {
  }

  /** The sample variance of numbers is that of the numbers moved by c. */
  lemma SampleVarianceOfShifted(xs: seq<real>, c: real)
    requires |xs| >= 2
    ensures var ys := Shifted(xs, c);
            SquaredDeviations(ys, SumOf(ys) / |ys| as real) / (|ys| - 1) as real
              == SquaredDeviations(xs, SumOf(xs) / |xs| as real) / (|xs| - 1) as real
  {
    MeanOfShifted(xs, c);
    SquaredDeviationsOfShifted(xs, SumOf(xs) / |xs| as real, c);
  }

  /** Lists with the same primary times, one by one, share the same common time. */
  lemma CommonTimeOfSameTimes(s: seq<Elem>, t: seq<Elem>)
    requires |s| == |t| && forall i :: 0 <= i < |s| ==> s[i].time == t[i].time
    ensures CommonTime(s) == CommonTime(t)
  {
  }

  /** VARIANCE does not change when every number is moved by the same amount,
      and the primary times stay those of the operands. */
  lemma VarianceOfShifted(s: seq<Elem>, t: seq<Elem>, c: real)
    requires Numbers(s).Some? && |t| == |s|
    requires forall i :: 0 <= i < |s| ==> t[i] == Elem(Num(s[i].value.n + c), s[i].time)
    ensures Variance(t) == Variance(s)
  {
    var xs := Numbers(s).value;
    NumbersOf(t, Shifted(xs, c));
    CommonTimeOfSameTimes(s, t);
    if |xs| >= 2 {
      SampleVarianceOfShifted(xs, c);
      VarianceValue(s, xs);
      VarianceValue(t, Shifted(xs, c));
    }
  }

  // ---------------------------------------------------------------------
  // MEDIAN, MINIMUM, MAXIMUM

  /** MEDIAN: the middle value after sorting, or the mean of the two middle
      values for an even count.  Its time is the latest time among the
      elements equal to the determining value; when two different middle
      values are averaged, their two times must agree. */
  function Median(s: seq<Elem>): (r: Elem)
    ensures r.value.Num? <==> |s| > 0 && Numbers(s).Some?
    ensures !r.value.Num? ==> r == NullElem
  {
    match Numbers(s)
    case None => NullElem
    case Some(xs) =>
      if xs == [] then NullElem
      else
        var ys := Sort(xs);
        Elem(Num(MiddleValue(ys)), MedianTime(s, ys))
  }

  /** The middle of a sorted list, or the mean of its two middle values. */
  function MiddleValue(ys: seq<real>): real
    requires |ys| > 0
  {
    var n := |ys|;
    if n % 2 == 1 then ys[n / 2] else (ys[n / 2 - 1] + ys[n / 2]) / 2.0
  }

  /** MEDIAN's time, given the sorted values ys of s. */
  function MedianTime(s: seq<Elem>, ys: seq<real>): Option<Time>
    requires |ys| > 0
  {
    var n := |ys|;
    if n % 2 == 1 then LatestTimeOf(s, ys[n / 2])
    else
      var a, b := ys[n / 2 - 1], ys[n / 2];
      if a == b then LatestTimeOf(s, a) else SameTime(LatestTimeOf(s, a), LatestTimeOf(s, b))
  }

  /** An element of value v that carries the time t; with no time t, any
      element of value v. */
  predicate Tied(e: Elem, v: real, t: Option<Time>)
  {
    e.value == Num(v) && (t.None? || e.time == t)
  }

  /** The first tied position. */
  function FirstTied(s: seq<Elem>, v: real, t: Option<Time>): (k: nat)
    requires exists i :: 0 <= i < |s| && Tied(s[i], v, t)
    ensures k < |s| && Tied(s[k], v, t)
    ensures forall j :: 0 <= j < k ==> !Tied(s[j], v, t)
  {
    if Tied(s[0], v, t) then 0
    else
      assert forall i :: 1 <= i < |s| ==> s[i] == s[1..][i - 1];
      1 + FirstTied(s[1..], v, t)
  }

  /** The tie rule as a selection: among the elements of value v, the first
      one that carries the latest of their times. */
  function TiePosition(s: seq<Elem>, v: real): (k: nat)
    requires exists i :: 0 <= i < |s| && s[i].value == Num(v)
    ensures k < |s| && s[k].value == Num(v) && s[k].time == LatestTimeOf(s, v)
    ensures forall j :: 0 <= j < k && s[j].value == Num(v) ==> s[j].time != s[k].time
  {
    var t := LatestTimeOf(s, v);
    assert exists i :: 0 <= i < |s| && Tied(s[i], v, t);
    FirstTied(s, v, t)
  }

  /** The position MINIMUM and INDEX MINIMUM select: a smallest number, the
      latest in time among the tied ones, the first of those in list order. */
  function MinPosition(s: seq<Elem>): (k: Option<nat>)
    ensures k.Some? <==> |s| > 0 && Numbers(s).Some?
    ensures k.Some? ==> k.value < |s| && s[k.value].value.Num?
                        && (forall j :: 0 <= j < |s| ==> s[k.value].value.n <= s[j].value.n)
                        && s[k.value].time == LatestTimeOf(s, s[k.value].value.n)
                        && (forall j :: 0 <= j < k.value && s[j].value == s[k.value].value ==>
                              s[j].time != s[k.value].time)
  {
    match Numbers(s)
    case None => None
    case Some(xs) => if xs == [] then None else Some(TiePosition(s, xs[FirstArgMin(xs)]))
  }

  /** The position MAXIMUM and INDEX MAXIMUM select: a largest number, the
      latest in time among the tied ones, the first of those in list order. */
  function MaxPosition(s: seq<Elem>): (k: Option<nat>)
    ensures k.Some? <==> |s| > 0 && Numbers(s).Some?
    ensures k.Some? ==> k.value < |s| && s[k.value].value.Num?
                        && (forall j :: 0 <= j < |s| ==> s[j].value.n <= s[k.value].value.n)
                        && s[k.value].time == LatestTimeOf(s, s[k.value].value.n)
                        && (forall j :: 0 <= j < k.value && s[j].value == s[k.value].value ==>
                              s[j].time != s[k.value].time)
  {
    match Numbers(s)
    case None => None
    case Some(xs) => if xs == [] then None else Some(TiePosition(s, xs[FirstArgMax(xs)]))
  }

  /** MINIMUM: an element holding the smallest number, timed by the latest of
      the tied elements. */
  function Minimum(s: seq<Elem>): (r: Elem)
    ensures r.value.Num? <==> |s| > 0 && Numbers(s).Some?
    ensures r.value.Num? ==> (exists i :: 0 <= i < |s| && s[i] == r)
                             && (forall i :: 0 <= i < |s| ==> r.value.n <= s[i].value.n)
                             && r.time == LatestTimeOf(s, r.value.n)
    ensures !r.value.Num? ==> r == NullElem
  {
    match MinPosition(s)
    case None => NullElem
    case Some(k) => s[k]
  }

  /** MAXIMUM: an element holding the largest number, timed by the latest of
      the tied elements. */
  function Maximum(s: seq<Elem>): (r: Elem)
    ensures r.value.Num? <==> |s| > 0 && Numbers(s).Some?
    ensures r.value.Num? ==> (exists i :: 0 <= i < |s| && s[i] == r)
                             && (forall i :: 0 <= i < |s| ==> s[i].value.n <= r.value.n)
                             && r.time == LatestTimeOf(s, r.value.n)
    ensures !r.value.Num? ==> r == NullElem
  {
    match MaxPosition(s)
    case None => NullElem
    case Some(k) => s[k]
  }

  // ---------------------------------------------------------------------
  // Positional selection

  /** The 1-based position of a selected element, with that element's time. */
  function PositionOf(s: seq<Elem>, k: Option<nat>): (r: Elem)
    requires k.Some? ==> k.value < |s|
  {
    if k.Some? then Elem(Num((k.value + 1) as real), s[k.value].time) else NullElem
  }

  /** FIRST: the element at position 1. */
  function First(s: seq<Elem>): (r: Elem)
    ensures s == [] ==> r == NullElem
    ensures s != [] ==> r == s[0]
  {
    if s == [] then NullElem else s[0]
  }

  /** LAST: the element at position N. */
  function Last(s: seq<Elem>): (r: Elem)
    ensures s == [] ==> r == NullElem
    ensures s != [] ==> r == s[|s| - 1]
  {
    if s == [] then NullElem else s[|s| - 1]
  }

  /** The position EARLIEST selects: the first element with the smallest
      primary time; nothing when some element has no primary time. */
  function EarliestPosition(s: seq<Elem>): (k: Option<nat>)
    ensures k.Some? <==> |s| > 0 && forall i :: 0 <= i < |s| ==> s[i].time.Some?
    ensures k.Some? ==> k.value < |s|
                        && (forall j :: 0 <= j < |s| ==> s[k.value].time.value <= s[j].time.value)
                        && (forall j :: 0 <= j < k.value ==> s[j].time.value > s[k.value].time.value)
  {
    match TimeKeys(s)
    case None => None
    case Some(ts) => if ts == [] then None else Some(FirstArgMin(ts))
  }

  /** The position LATEST selects: the first element with the greatest
      primary time; nothing when some element has no primary time. */
  function LatestPosition(s: seq<Elem>): (k: Option<nat>)
    ensures k.Some? <==> |s| > 0 && forall i :: 0 <= i < |s| ==> s[i].time.Some?
    ensures k.Some? ==> k.value < |s|
                        && (forall j :: 0 <= j < |s| ==> s[j].time.value <= s[k.value].time.value)
                        && (forall j :: 0 <= j < k.value ==> s[j].time.value < s[k.value].time.value)
  {
    match TimeKeys(s)
    case None => None
    case Some(ts) => if ts == [] then None else Some(FirstArgMax(ts))
  }

  /** Every element of a non-empty list has a primary time. */
  predicate AllTimed(s: seq<Elem>)
  {
    |s| > 0 && forall i :: 0 <= i < |s| ==> s[i].time.Some?
  }

  /** EARLIEST: the first element with the smallest primary time; NULL for the
      empty list and when some element has no primary time. */
  function Earliest(s: seq<Elem>): (r: Elem)
    ensures !AllTimed(s) ==> r == NullElem
    ensures AllTimed(s) ==> exists k :: 0 <= k < |s| && r == s[k]
                              && (forall j :: 0 <= j < |s| ==> s[k].time.value <= s[j].time.value)
                              && (forall j :: 0 <= j < k ==> s[j].time.value > s[k].time.value)
  {
    match EarliestPosition(s)
    case None => NullElem
    case Some(k) => s[k]
  }

  /** LATEST: the first element with the greatest primary time; NULL for the
      empty list and when some element has no primary time. */
  function Latest(s: seq<Elem>): (r: Elem)
    ensures !AllTimed(s) ==> r == NullElem
    ensures AllTimed(s) ==> exists k :: 0 <= k < |s| && r == s[k]
                              && (forall j :: 0 <= j < |s| ==> s[j].time.value <= s[k].time.value)
                              && (forall j :: 0 <= j < k ==> s[j].time.value < s[k].time.value)
  {
    match LatestPosition(s)
    case None => NullElem
    case Some(k) => s[k]
  }

  /** INDEX EARLIEST: the 1-based position of the element EARLIEST returns,
      with that element's time; NULL when EARLIEST is NULL. */
  function IndexEarliest(s: seq<Elem>): (r: Elem)
    ensures EarliestPosition(s).None? <==> r == NullElem
    ensures EarliestPosition(s).Some? ==> var k := EarliestPosition(s).value;
              r == Elem(Num((k + 1) as real), s[k].time) && Earliest(s) == s[k]
  {
    PositionOf(s, EarliestPosition(s))
  }

  /** INDEX LATEST: the 1-based position of the element LATEST returns,
      with that element's time; NULL when LATEST is NULL. */
  function IndexLatest(s: seq<Elem>): (r: Elem)
    ensures LatestPosition(s).None? <==> r == NullElem
    ensures LatestPosition(s).Some? ==> var k := LatestPosition(s).value;
              r == Elem(Num((k + 1) as real), s[k].time) && Latest(s) == s[k]
  {
    PositionOf(s, LatestPosition(s))
  }

  /** INDEX MINIMUM: the 1-based position of the element MINIMUM returns,
      with that element's time; NULL when MINIMUM is NULL. */
  function IndexMinimum(s: seq<Elem>): (r: Elem)
    ensures MinPosition(s).None? <==> r == NullElem
    ensures MinPosition(s).Some? ==> var k := MinPosition(s).value;
              r == Elem(Num((k + 1) as real), s[k].time) && Minimum(s) == s[k]
  {
    PositionOf(s, MinPosition(s))
  }

  /** INDEX MAXIMUM: the 1-based position of the element MAXIMUM returns,
      with that element's time; NULL when MAXIMUM is NULL. */
  function IndexMaximum(s: seq<Elem>): (r: Elem)
    ensures MaxPosition(s).None? <==> r == NullElem
    ensures MaxPosition(s).Some? ==> var k := MaxPosition(s).value;
              r == Elem(Num((k + 1) as real), s[k].time) && Maximum(s) == s[k]
  {
    PositionOf(s, MaxPosition(s))
  }

  /** An INDEX result points at a selection: both are NULL, or the index is
      the 1-based position of the selected element and carries its time. */
  ghost predicate Locates(s: seq<Elem>, index: Elem, selected: Elem)
  {
    || (index == NullElem && selected == NullElem)
    || exists k :: 0 <= k < |s| && index == Elem(Num((k + 1) as real), s[k].time) && selected == s[k]
  }

  /** Each INDEX operator gives the position of the element its selection
      operator returns, so both follow the same tie rule. */
  lemma IndexLocatesSelection(s: seq<Elem>)
    ensures Locates(s, IndexEarliest(s), Earliest(s))
    ensures Locates(s, IndexLatest(s), Latest(s))
    ensures Locates(s, IndexMinimum(s), Minimum(s))
    ensures Locates(s, IndexMaximum(s), Maximum(s))
  {
    Located(s, EarliestPosition(s), IndexEarliest(s), Earliest(s));
    Located(s, LatestPosition(s), IndexLatest(s), Latest(s));
    Located(s, MinPosition(s), IndexMinimum(s), Minimum(s));
    Located(s, MaxPosition(s), IndexMaximum(s), Maximum(s));
  }

  lemma Located(s: seq<Elem>, k: Option<nat>, index: Elem, selected: Elem)
    requires k.Some? ==> k.value < |s|
    requires index == PositionOf(s, k)
    requires selected == if k.Some? then s[k.value] else NullElem
    ensures Locates(s, index, selected)
  {
    if k.Some? {
      assert index == Elem(Num((k.value + 1) as real), s[k.value].time) && selected == s[k.value];
    }
  }

  // ---------------------------------------------------------------------
  // ANY, ALL, NO

  /** ANY: Kleene OR over the elements, the empty list being FALSE. */
  function Any(s: seq<Elem>): (r: Elem)
    ensures r.time.None?
    ensures r.value == Bool(true) <==> exists i :: 0 <= i < |s| && s[i].value == Bool(true)
    ensures r.value == Bool(false) <==> forall i :: 0 <= i < |s| ==> s[i].value == Bool(false)
    ensures r.value == Bool(true) || r.value == Bool(false) || r.value == Null
  {
    if s == [] then Untimed(Bool(false))
    else
      assert forall i :: 1 <= i < |s| ==> s[i] == s[1..][i - 1];
      Untimed(Or3(Truth(s[0].value), Any(s[1..]).value))
  }

  /** ALL: Kleene AND over the elements, the empty list being TRUE. */
  function All(s: seq<Elem>): (r: Elem)
    ensures r.time.None?
    ensures r.value == Bool(false) <==> exists i :: 0 <= i < |s| && s[i].value == Bool(false)
    ensures r.value == Bool(true) <==> forall i :: 0 <= i < |s| ==> s[i].value == Bool(true)
    ensures r.value == Bool(true) || r.value == Bool(false) || r.value == Null
  {
    if s == [] then Untimed(Bool(true))
    else
      assert forall i :: 1 <= i < |s| ==> s[i] == s[1..][i - 1];
      Untimed(And3(Truth(s[0].value), All(s[1..]).value))
  }

  /** NO: the negation of ANY; TRUE for the empty list. */
  function No(s: seq<Elem>): (r: Elem)
    ensures r.time.None?
    ensures r.value == Bool(true) <==> forall i :: 0 <= i < |s| ==> s[i].value == Bool(false)
    ensures r.value == Bool(false) <==> exists i :: 0 <= i < |s| && s[i].value == Bool(true)
    ensures r.value == Bool(true) || r.value == Bool(false) || r.value == Null
  {
    Untimed(Not3(Any(s).value))
  }

  // ---------------------------------------------------------------------
  // Properties relating the operators

  /** The algebraic time rule over two numbers: SUM, AVERAGE, VARIANCE and
      EXIST keep a time the two share and have no time when they differ. */
  lemma AlgebraicTimeOfPair(a: Elem, b: Elem)
    requires a.value.Num? && b.value.Num?
    ensures var t := if a.time == b.time then a.time else None;
            && Sum([a, b]).time == t
            && Average([a, b]).time == t
            && Variance([a, b]).time == t
            && Exist([a, b]).time == t
  {
    assert NonNull([a, b]) == [a] + NonNull([b]);
  }

  /** AVERAGE is SUM divided by COUNT. */
  lemma AverageIsSumOverCount(s: seq<Elem>)
    requires |s| > 0 && Numbers(s).Some?
    ensures Average(s).value.n == Sum(s).value.n / Count(s).value.n
  {
  }

  /** A list without NULL elements is its own filtering. */
  lemma {:induction false} NonNullOfNonNull(s: seq<Elem>)
    requires forall i :: 0 <= i < |s| ==> s[i].value != Null
    ensures NonNull(s) == s
  {
    if s != [] {
      NonNullOfNonNull(s[1..]);
    }
  }

  /** NULL elements never affect EXIST, neither its value nor its time. */
  lemma ExistIgnoresNulls(s: seq<Elem>)
    ensures Exist(NonNull(s)) == Exist(s)
  {
    var r := NonNull(s);
    forall i | 0 <= i < |r|
      ensures r[i].value != Null
    {
      assert r[i] in r;
    }
    NonNullOfNonNull(r);
    if HasValue(s) {
      var i :| 0 <= i < |s| && s[i].value != Null;
      assert s[i] in r;
    }
  }

  /** The head of a sorted sequence is below every member. */
  lemma SortedHeadIsLeast(a: seq<real>, x: real)
    requires Sorted(a) && x in multiset(a)
    ensures a[0] <= x
  {
    assert x in a;
    var i :| 0 <= i < |a| && a[i] == x;
    if i > 0 {
      assert a[0] <= a[i];
    }
  }

  lemma SortedTail(a: seq<real>)
    requires Sorted(a) && a != []
    ensures Sorted(a[1..])
  {
    forall i, j | 0 <= i < j < |a| - 1
      ensures a[1..][i] <= a[1..][j]
    {
      assert a[1..][i] == a[i + 1] && a[1..][j] == a[j + 1];
    }
  }

  lemma MultisetTail(a: seq<real>)
    requires a != []
    ensures multiset(a[1..]) == multiset(a) - multiset{a[0]}
  {
    assert a == [a[0]] + a[1..];
  }

  /** Two sorted arrangements of the same values start with the same value. */
  lemma HeadsEqual(a: seq<real>, b: seq<real>)
    requires Sorted(a) && Sorted(b) && multiset(a) == multiset(b) && a != [] && b != []
    ensures a[0] == b[0]
  {
    assert a[0] in multiset(a) && b[0] in multiset(b);
    SortedHeadIsLeast(a, b[0]);
    SortedHeadIsLeast(b, a[0]);
  }

  /** Removing the common head leaves two sorted arrangements of the same values. */
  lemma TailsAgree(a: seq<real>, b: seq<real>)
    requires Sorted(a) && Sorted(b) && multiset(a) == multiset(b) && a != [] && b != []
    ensures a[0] == b[0] && Sorted(a[1..]) && Sorted(b[1..]) && multiset(a[1..]) == multiset(b[1..])
  {
    HeadsEqual(a, b);
    MultisetTail(a);
    MultisetTail(b);
    SortedTail(a);
    SortedTail(b);
  }

  /** Two sorted arrangements of the same values are equal. */
  lemma {:induction false} SortedUnique(a: seq<real>, b: seq<real>)
    requires Sorted(a) && Sorted(b) && multiset(a) == multiset(b)
    ensures a == b
    decreases |a|
  {
    assert |a| == |multiset(a)| == |multiset(b)| == |b|;
    if a != [] {
      TailsAgree(a, b);
      SortedUnique(a[1..], b[1..]);
      assert a == [a[0]] + a[1..] && b == [b[0]] + b[1..];
    }
  }

  /** The sorted arrangement is the only sorted permutation of the values. */
  lemma SortIs(xs: seq<real>, ys: seq<real>)
    requires Sorted(ys) && multiset(ys) == multiset(xs)
    ensures Sort(xs) == ys
  {
    SortSorted(xs);
    SortedUnique(Sort(xs), ys);
  }

  /** MEDIAN is read off any sorted arrangement of the values. */
  lemma MedianOfSorted(s: seq<Elem>, xs: seq<real>, ys: seq<real>)
    requires Numbers(s) == Some(xs) && Sorted(ys) && multiset(ys) == multiset(xs) && |ys| > 0
    ensures Median(s) == Elem(Num(MiddleValue(ys)), MedianTime(s, ys))
  {
    SortIs(xs, ys);
  }

  /** MEDIAN's value does not depend on the order of its arguments. */
  lemma MedianValueIgnoresOrder(s: seq<Elem>, t: seq<Elem>)
    requires Numbers(s).Some? && Numbers(t).Some?
    requires multiset(Numbers(s).value) == multiset(Numbers(t).value)
    ensures Median(s).value == Median(t).value
  {
    var xs, ys := Numbers(s).value, Numbers(t).value;
    assert |xs| == |multiset(xs)| == |multiset(ys)| == |ys|;
    SortSorted(xs);
    SortSorted(ys);
    SortedUnique(Sort(xs), Sort(ys));
    if xs != [] {
      assert Median(s).value == Num(MiddleValue(Sort(xs)));
      assert Median(t).value == Num(MiddleValue(Sort(ys)));
    }
  }

  /** Every sorted value is one of the inputs. */
  lemma SortMember(xs: seq<real>, k: nat)
    requires k < |xs|
    ensures exists i :: 0 <= i < |xs| && xs[i] == Sort(xs)[k]
  {
    var ys := Sort(xs);
    SortSorted(xs);
    assert ys[k] in multiset(ys);
    assert ys[k] in multiset(xs);
  }

  /** MINIMUM <= MEDIAN <= MAXIMUM on a non-empty list of numbers. */
  lemma MedianBetweenExtrema(s: seq<Elem>)
    requires |s| > 0 && Numbers(s).Some?
    ensures Minimum(s).value.n <= Median(s).value.n <= Maximum(s).value.n
  {
    var xs := Numbers(s).value;
    var lo, hi := Minimum(s).value.n, Maximum(s).value.n;
    assert Median(s).value.n == MiddleValue(Sort(xs));
    forall k | 0 <= k < |xs|
      ensures lo <= xs[k] <= hi
    {
      assert xs[k] == s[k].value.n;
    }
    SortedMiddleBetween(xs, lo, hi);
  }

  /** The middle of the sorted values lies within any bounds of the values. */
  lemma SortedMiddleBetween(xs: seq<real>, lo: real, hi: real)
    requires |xs| > 0 && forall k :: 0 <= k < |xs| ==> lo <= xs[k] <= hi
    ensures lo <= MiddleValue(Sort(xs)) <= hi
  {
    var ys := Sort(xs);
    forall k | 0 <= k < |ys|
      ensures lo <= ys[k] <= hi
    {
      SortMember(xs, k);
    }
    MiddleValueBetween(ys, lo, hi);
  }

  /** The middle of values within bounds is within the same bounds. */
  lemma MiddleValueBetween(ys: seq<real>, lo: real, hi: real)
    requires |ys| > 0 && forall k :: 0 <= k < |ys| ==> lo <= ys[k] <= hi
    ensures lo <= MiddleValue(ys) <= hi
  {
    var n := |ys|;
    if n % 2 == 0 {
      assert lo <= ys[n / 2 - 1] <= hi && lo <= ys[n / 2] <= hi;
    }
  }
}
