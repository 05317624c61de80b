/** The behaviour the operator tests of the Arden Syntax specification
    suite assert, one lemma per test, over the suite's data set
      u := 5 at 1995-01-01, v := 5 at 2000-01-01, w := 5 at TIME v,
      x := 5 at 1990-01-01, y := 3 at TIME x,   z := 2 at 1990-01-03.
    Each test lemma is assembled from small facts about named operands, so
    that no single proof has to evaluate an operator on a literal list. */
module AggregationExamples {

  import opened Wrappers
  import opened ArdenValues
  import opened Aggregation
  import opened SequenceOperators

  // Midnight UTC of the dates the data set uses, as seconds since 1970.
  const T_1990_01_01: Time := 631152000
  const T_1990_01_03: Time := 631324800
  const T_1995_01_01: Time := 788918400
  const T_2000_01_01: Time := 946684800

  const U: Elem := Elem(Num(5.0), Some(T_1995_01_01))
  const V: Elem := Elem(Num(5.0), Some(T_2000_01_01))
  const W: Elem := Elem(Num(5.0), V.time)
  const X: Elem := Elem(Num(5.0), Some(T_1990_01_01))
  const Y: Elem := Elem(Num(3.0), X.time)
  const Z: Elem := Elem(Num(2.0), Some(T_1990_01_03))

  /** A literal list `(e1, e2, ...)`. */
  function L(es: seq<Elem>): Elem { Untimed(List(es)) }

  /** A literal number. */
  function N(x: real): Elem { Untimed(Num(x)) }

  /** A literal string. */
  function S(t: string): Elem { Untimed(Str(t)) }

  /** A literal truth value. */
  function B(b: bool): Elem { Untimed(Bool(b)) }

  // The operands of the tests.
  const Three: Elem := N(3.0)
  const False: Elem := B(false)
  const N12_13_14: seq<Elem> := [N(12.0), N(13.0), N(14.0)]
  const N12_13_17: seq<Elem> := [N(12.0), N(13.0), N(17.0)]
  const N12_17_13: seq<Elem> := [N(12.0), N(17.0), N(13.0)]
  const N12_To_16: seq<Elem> := [N(12.0), N(13.0), N(14.0), N(15.0), N(16.0)]
  const N0_5: seq<Elem> := [N(0.0), N(5.0)]
  const OneAbc: seq<Elem> := [N(1.0), S("abc")]
  const Three5Red: seq<Elem> := [N(3.0), N(5.0), S("red")]
  const TrueFalseFalse: seq<Elem> := [B(true), B(false), B(false)]
  const FalseFalse: seq<Elem> := [B(false), B(false)]
  const FalseNull: seq<Elem> := [B(false), NullElem]
  const TrueNull: seq<Elem> := [B(true), NullElem]
  const XY: seq<Elem> := [X, Y]
  const XZ: seq<Elem> := [X, Z]
  const XYZ: seq<Elem> := [X, Y, Z]
  const XUV: seq<Elem> := [X, U, V]
  const VXWU: seq<Elem> := [V, X, W, U]
  const VXY: seq<Elem> := [V, X, Y]
  const VXZ: seq<Elem> := [V, X, Z]
  const VZ: seq<Elem> := [V, Z]

  // ---------------------------------------------------------------------
  // Facts about the operands

  lemma ItemsOfScalars()
    ensures Items(Three) == [Three] && Items(False) == [False]
    ensures Items(NullElem) == [NullElem] && Items(S("asdf")) == [S("asdf")]
  {
  }

  lemma NumbersOfOperands()
    ensures Numbers(N12_13_14) == Some([12.0, 13.0, 14.0])
    ensures Numbers(N12_13_17) == Some([12.0, 13.0, 17.0])
    ensures Numbers([Three]) == Some([3.0])
  {
    NumbersOf(N12_13_14, [12.0, 13.0, 14.0]);
    NumbersOf(N12_13_17, [12.0, 13.0, 17.0]);
    NumbersOf([Three], [3.0]);
  }

  lemma NumbersOfData()
    ensures Numbers(XY) == Some([5.0, 3.0])
    ensures Numbers(XZ) == Some([5.0, 2.0])
    ensures Numbers(XYZ) == Some([5.0, 3.0, 2.0])
    ensures Numbers(VXY) == Some([5.0, 5.0, 3.0])
  {
    NumbersOf(XY, [5.0, 3.0]);
    NumbersOf(XZ, [5.0, 2.0]);
    NumbersOf(XYZ, [5.0, 3.0, 2.0]);
    NumbersOf(VXY, [5.0, 5.0, 3.0]);
  }

  lemma NotAllNumbers()
    ensures Numbers(OneAbc).None?
  {
    assert !OneAbc[1].value.Num?;
  }

  lemma CommonTimesOfData()
    ensures CommonTime(XY) == Some(T_1990_01_01)
    ensures CommonTime(XZ) == None
  {
    assert XZ[1].time != XZ[0].time;
  }

  // ---------------------------------------------------------------------
  // COUNT, EXIST, AVERAGE, SUM, VARIANCE

  lemma TestCount()
    ensures Count(Items(L([N(12.0), N(13.0), N(14.0), NullElem]))).value == Num(4.0)
    ensures Count(Items(S("asdf"))).value == Num(1.0)
    ensures Count(Items(L([]))).value == Num(0.0)
    ensures Count(Items(NullElem)).value == Num(1.0)
    ensures Count(Items(L(XY))).time == None
  {
    ItemsOfScalars();
  }

  lemma TestExists()
    ensures Exist(Items(L(N12_13_14))).value == Bool(true)
    ensures Exist(Items(NullElem)).value == Bool(false)
    ensures Exist(Items(L([]))).value == Bool(false)
    ensures Exist(Items(L([S("plugh"), NullElem]))).value == Bool(true)
  {
    assert N12_13_14[0].value != Null;
    ItemsOfScalars();
    assert [S("plugh"), NullElem][0].value != Null;
  }

  lemma TestTimeOfExists()
    ensures Exist(Items(L(XY))).time == Some(T_1990_01_01)
    ensures Exist(Items(L(XZ))).time == None
  {
    assert NonNull(XY) == XY;
    assert NonNull(XZ) == XZ;
    CommonTimesOfData();
  }

  lemma SumsOfOperands()
    ensures SumOf([12.0, 13.0, 14.0]) == 39.0
    ensures SumOf([12.0, 13.0, 17.0]) == 42.0
    ensures SumOf([3.0]) == 3.0
  {
  }

  lemma TestAverage()
    ensures Average(Items(L(N12_13_17))).value == Num(14.0)
    ensures Average(Items(Three)).value == Num(3.0)
    ensures Average(Items(L([]))).value == Null
    ensures Average(Items(L(XY))).time == Some(T_1990_01_01)
    ensures Average(Items(L(XZ))).time == None
  {
    ItemsOfScalars();
    NumbersOfOperands();
    SumsOfOperands();
    NumbersOfData();
    CommonTimesOfData();
  }

  lemma TestSum()
    ensures Sum(Items(L(N12_13_14))).value == Num(39.0)
    ensures Sum(Items(Three)).value == Num(3.0)
    ensures Sum(Items(L([]))).value == Num(0.0)
    ensures Sum(Items(L(XY))).time == Some(T_1990_01_01)
    ensures Sum(Items(L(XZ))).time == None
  {
    ItemsOfScalars();
    NumbersOfOperands();
    SumsOfOperands();
    assert Numbers([]) == Some([]);
    NumbersOfData();
    CommonTimesOfData();
  }

  lemma VarianceOfTwelveToSixteen()
    ensures Variance(N12_To_16).value == Num(2.5)
  {
    var xs := [12.0, 13.0, 14.0, 15.0, 16.0];
    NumbersOf(N12_To_16, xs);
    assert SumOf(xs[4..]) == 16.0;
    assert SumOf(xs[3..]) == 31.0;
    assert SumOf(xs[2..]) == 45.0;
    assert SumOf(xs[1..]) == 58.0;
    assert SumOf(xs) == 70.0;
    assert SquaredDeviations(xs[4..], 14.0) == 4.0;
    assert SquaredDeviations(xs[3..], 14.0) == 5.0;
    assert SquaredDeviations(xs[2..], 14.0) == 5.0;
    assert SquaredDeviations(xs[1..], 14.0) == 6.0;
    assert SquaredDeviations(xs, 14.0) == 10.0;
  }

  lemma TestVariance()
    ensures Variance(Items(L(N12_To_16))).value == Num(2.5)
    ensures Variance(Items(Three)).value == Null
    ensures Variance(Items(L([]))).value == Null
    ensures Variance(Items(L(XY))).time == Some(T_1990_01_01)
    ensures Variance(Items(L(XZ))).time == None
  {
    VarianceOfTwelveToSixteen();
    ItemsOfScalars();
    NumbersOfData();
    CommonTimesOfData();
  }

  // ---------------------------------------------------------------------
  // MEDIAN

  lemma MiddleValues()
    ensures MiddleValue([12.0, 13.0, 17.0]) == 13.0
    ensures MiddleValue([3.0]) == 3.0
    ensures MiddleValue([0.0, 5.0]) == 2.5
    ensures MiddleValue([2.0, 3.0, 5.0]) == 3.0
    ensures MiddleValue([3.0, 5.0]) == 4.0
    ensures MiddleValue([2.0, 5.0]) == 3.5
    ensures MiddleValue([5.0, 5.0, 5.0]) == 5.0
    ensures MiddleValue([5.0, 5.0, 5.0, 5.0]) == 5.0
  {
  }

  lemma SortedOfTwo(a: real, b: real)
    requires a <= b
    ensures Sorted([a, b])
  {
  }

  lemma SortedOfThree(a: real, b: real, c: real)
    requires a <= b <= c
    ensures Sorted([a, b, c])
  {
  }

  lemma SortedOfFour(a: real, b: real, c: real, d: real)
    requires a <= b <= c <= d
    ensures Sorted([a, b, c, d])
  {
  }

  lemma MedianOfOdd()
    ensures Median(N12_17_13).value == Num(13.0)
  {
    NumbersOf(N12_17_13, [12.0, 17.0, 13.0]);
    SortedOfThree(12.0, 13.0, 17.0);
    MedianOfSorted(N12_17_13, [12.0, 17.0, 13.0], [12.0, 13.0, 17.0]);
    MiddleValues();
  }

  lemma MedianOfOne()
    ensures Median([Three]).value == Num(3.0)
  {
    NumbersOf([Three], [3.0]);
    assert Sorted([3.0]);
    MedianOfSorted([Three], [3.0], [3.0]);
    MiddleValues();
  }

  lemma MedianOfEven()
    ensures Median(N0_5).value == Num(2.5)
  {
    NumbersOf(N0_5, [0.0, 5.0]);
    SortedOfTwo(0.0, 5.0);
    MedianOfSorted(N0_5, [0.0, 5.0], [0.0, 5.0]);
    MiddleValues();
  }

  lemma TestMedian()
    ensures Median(Items(L(N12_17_13))).value == Num(13.0)
    ensures Median(Items(Three)).value == Num(3.0)
    ensures Median(Items(L([]))).value == Null
    ensures Median(Items(L(N0_5))).value == Num(2.5)
  {
    MedianOfOdd();
    MedianOfOne();
    MedianOfEven();
    ItemsOfScalars();
  }

  lemma MedianTimes()
    ensures MedianTime(XYZ, [2.0, 3.0, 5.0]) == LatestTimeOf(XYZ, 3.0)
    ensures MedianTime(XY, [3.0, 5.0]) == SameTime(LatestTimeOf(XY, 3.0), LatestTimeOf(XY, 5.0))
    ensures MedianTime(XUV, [5.0, 5.0, 5.0]) == LatestTimeOf(XUV, 5.0)
    ensures MedianTime(VXWU, [5.0, 5.0, 5.0, 5.0]) == LatestTimeOf(VXWU, 5.0)
    ensures MedianTime(XZ, [2.0, 5.0]) == SameTime(LatestTimeOf(XZ, 2.0), LatestTimeOf(XZ, 5.0))
  {
  }

  lemma MedianOfXYZ()
    ensures Median(XYZ) == Elem(Num(3.0), LatestTimeOf(XYZ, 3.0))
  {
    NumbersOfData();
    SortedOfThree(2.0, 3.0, 5.0);
    MedianOfSorted(XYZ, [5.0, 3.0, 2.0], [2.0, 3.0, 5.0]);
    MiddleValues();
    MedianTimes();
  }

  lemma MedianOfXY()
    ensures Median(XY) == Elem(Num(4.0), SameTime(LatestTimeOf(XY, 3.0), LatestTimeOf(XY, 5.0)))
  {
    NumbersOfData();
    SortedOfTwo(3.0, 5.0);
    MedianOfSorted(XY, [5.0, 3.0], [3.0, 5.0]);
    MiddleValues();
    MedianTimes();
  }

  lemma MedianOfXUV()
    ensures Median(XUV) == Elem(Num(5.0), LatestTimeOf(XUV, 5.0))
  {
    NumbersOf(XUV, [5.0, 5.0, 5.0]);
    SortedOfThree(5.0, 5.0, 5.0);
    MedianOfSorted(XUV, [5.0, 5.0, 5.0], [5.0, 5.0, 5.0]);
    MiddleValues();
    MedianTimes();
  }

  lemma MedianOfVXWU()
    ensures Median(VXWU) == Elem(Num(5.0), LatestTimeOf(VXWU, 5.0))
  {
    NumbersOf(VXWU, [5.0, 5.0, 5.0, 5.0]);
    SortedOfFour(5.0, 5.0, 5.0, 5.0);
    MedianOfSorted(VXWU, [5.0, 5.0, 5.0, 5.0], [5.0, 5.0, 5.0, 5.0]);
    MiddleValues();
    MedianTimes();
  }

  lemma MedianOfXZ()
    ensures Median(XZ) == Elem(Num(3.5), SameTime(LatestTimeOf(XZ, 2.0), LatestTimeOf(XZ, 5.0)))
  {
    NumbersOfData();
    SortedOfTwo(2.0, 5.0);
    MedianOfSorted(XZ, [5.0, 2.0], [2.0, 5.0]);
    MiddleValues();
    MedianTimes();
  }

  lemma LatestTimesOfData()
    ensures LatestTimeOf(XYZ, 3.0) == Y.time
    ensures LatestTimeOf(XY, 3.0) == Y.time && LatestTimeOf(XY, 5.0) == X.time
    ensures LatestTimeOf(XZ, 2.0) == Z.time && LatestTimeOf(XZ, 5.0) == X.time
    ensures LatestTimeOf(XYZ, 2.0) == Z.time
  {
  }

  lemma LatestTimesOfTies()
    ensures LatestTimeOf(XUV, 5.0) == V.time
    ensures LatestTimeOf(VXWU, 5.0) == V.time
    ensures LatestTimeOf(VXY, 5.0) == V.time
  {
    assert LatestTimeOf([V], 5.0) == V.time;
    assert XUV[1..][1..] == [V];
    assert LatestTimeOf(XUV[1..], 5.0) == V.time;
    assert VXWU[1..][1..][1..] == [U];
    assert LatestTimeOf(VXWU[1..][1..], 5.0) == V.time;
    assert LatestTimeOf(VXWU[1..], 5.0) == V.time;
    assert VXY[1..][1..] == [Y];
    assert LatestTimeOf(VXY[1..], 5.0) == X.time;
  }

  /** TIME MEDIAN: the middle value's latest time (x, y, z); two different
      middle values sharing a time (x, y); ties resolved to the latest time
      (x, u, v) and (v, x, w, u); two middle values with different times (x, z). */
  lemma TestTimeOfMedian()
    ensures Median(Items(L(XYZ))).time == Some(T_1990_01_01)
    ensures Median(Items(L(XY))).time == Some(T_1990_01_01)
    ensures Median(Items(L(XUV))).time == Some(T_2000_01_01)
    ensures Median(Items(L(VXWU))).time == Some(T_2000_01_01)
    ensures Median(Items(L(XZ))).time == None
  {
    MedianOfXYZ();
    MedianOfXY();
    MedianOfXUV();
    MedianOfVXWU();
    MedianOfXZ();
    LatestTimesOfData();
    LatestTimesOfTies();
  }

  // ---------------------------------------------------------------------
  // MINIMUM, MAXIMUM

  lemma MinimumOfOperands()
    ensures Minimum(N12_13_14).value == Num(12.0)
    ensures Minimum([Three]).value == Num(3.0)
    ensures Minimum(OneAbc).value == Null
  {
    NumbersOfOperands();
    assert Minimum(N12_13_14).value.n <= N12_13_14[0].value.n;
    NotAllNumbers();
  }

  lemma TestMinimum()
    ensures Minimum(Items(L(N12_13_14))).value == Num(12.0)
    ensures Minimum(Items(Three)).value == Num(3.0)
    ensures Minimum(Items(L([]))).value == Null
    ensures Minimum(Items(L(OneAbc))).value == Null
  {
    MinimumOfOperands();
    ItemsOfScalars();
  }

  lemma MinimumOfXYZ()
    ensures Minimum(XYZ) == Elem(Num(2.0), LatestTimeOf(XYZ, 2.0))
  {
    NumbersOf(XYZ, [5.0, 3.0, 2.0]);
    assert Minimum(XYZ).value.n <= XYZ[2].value.n;
  }

  lemma TestTimeOfMinimum()
    ensures Minimum(Items(L(XYZ))).time == Some(T_1990_01_03)
  {
    MinimumOfXYZ();
    LatestTimesOfData();
  }

  lemma MaximumOfOperands()
    ensures Maximum(N12_13_14).value == Num(14.0)
    ensures Maximum([Three]).value == Num(3.0)
    ensures Maximum(OneAbc).value == Null
  {
    NumbersOfOperands();
    assert Maximum(N12_13_14).value.n >= N12_13_14[2].value.n;
    NotAllNumbers();
  }

  lemma TestMaximum()
    ensures Maximum(Items(L(N12_13_14))).value == Num(14.0)
    ensures Maximum(Items(Three)).value == Num(3.0)
    ensures Maximum(Items(L([]))).value == Null
    ensures Maximum(Items(L(OneAbc))).value == Null
  {
    MaximumOfOperands();
    ItemsOfScalars();
  }

  /** TIME MAXIMUM (v, x, y): the latest time of the tied elements. */
  lemma MaximumOfVXY()
    ensures Maximum(VXY) == Elem(Num(5.0), LatestTimeOf(VXY, 5.0))
  {
    NumbersOf(VXY, [5.0, 5.0, 3.0]);
    assert Maximum(VXY).value.n >= VXY[0].value.n;
  }

  lemma TestTimeOfMaximum()
    ensures Maximum(Items(L(VXY))).time == Some(T_2000_01_01)
  {
    MaximumOfVXY();
    LatestTimesOfTies();
  }

  // ---------------------------------------------------------------------
  // FIRST, LAST, ANY, ALL, NO, LATEST, EARLIEST

  lemma TestFirstLast()
    ensures First(Items(L(N12_13_14))).value == Num(12.0)
    ensures First(Items(Three)).value == Num(3.0)
    ensures First(Items(L([]))).value == Null
    ensures Last(Items(L(N12_13_14))).value == Num(14.0)
    ensures Last(Items(Three)).value == Num(3.0)
    ensures Last(Items(L([]))).value == Null
    ensures Last(Items(L(XYZ))).time == Some(T_1990_01_03)
  {
    ItemsOfScalars();
  }

  lemma TestAny()
    ensures Any(Items(L(TrueFalseFalse))).value == Bool(true)
    ensures Any(Items(False)).value == Bool(false)
    ensures Any(Items(L([]))).value == Bool(false)
    ensures Any(Items(L(Three5Red))).value == Null
    ensures Any(Items(L(FalseFalse))).value == Bool(false)
    ensures Any(Items(L(FalseNull))).value == Null
  {
    assert TrueFalseFalse[0].value == Bool(true);
    ItemsOfScalars();
    assert Three5Red[0].value != Bool(false);
    assert Three5Red[0].value != Bool(true) && Three5Red[1].value != Bool(true) && Three5Red[2].value != Bool(true);
    assert FalseNull[1].value != Bool(false);
    assert FalseNull[0].value != Bool(true) && FalseNull[1].value != Bool(true);
  }

  lemma TestAll()
    ensures All(Items(L(TrueFalseFalse))).value == Bool(false)
    ensures All(Items(False)).value == Bool(false)
    ensures All(Items(L([]))).value == Bool(true)
    ensures All(Items(L(Three5Red))).value == Null
    ensures All(Items(L(TrueNull))).value == Null
  {
    assert TrueFalseFalse[1].value == Bool(false);
    ItemsOfScalars();
    assert Three5Red[0].value != Bool(true);
    assert Three5Red[0].value != Bool(false) && Three5Red[1].value != Bool(false) && Three5Red[2].value != Bool(false);
    assert TrueNull[1].value != Bool(true);
    assert TrueNull[0].value != Bool(false) && TrueNull[1].value != Bool(false);
  }

  lemma TestNo()
    ensures No(Items(L(TrueFalseFalse))).value == Bool(false)
    ensures No(Items(False)).value == Bool(true)
    ensures No(Items(L([]))).value == Bool(true)
    ensures No(Items(L(Three5Red))).value == Null
    ensures No(Items(L(FalseNull))).value == Null
  {
    assert TrueFalseFalse[0].value == Bool(true);
    ItemsOfScalars();
    assert Three5Red[0].value != Bool(false);
    assert Three5Red[0].value != Bool(true) && Three5Red[1].value != Bool(true) && Three5Red[2].value != Bool(true);
    assert FalseNull[1].value != Bool(false);
    assert FalseNull[0].value != Bool(true) && FalseNull[1].value != Bool(true);
  }

  lemma TestLatestEarliest()
    ensures Latest(Items(L([]))).value == Null
    ensures Latest(Items(L(VXZ))).value == Num(5.0)
    ensures Earliest(Items(L([]))).value == Null
    ensures Earliest(Items(L(VZ))).value == Num(2.0)
  {
    assert LatestPosition(VXZ) == Some(0) by {
      var k := LatestPosition(VXZ);
      assert VXZ[k.value].time.value >= VXZ[0].time.value;
    }
    assert EarliestPosition(VZ) == Some(1) by {
      var k := EarliestPosition(VZ);
      assert VZ[k.value].time.value <= VZ[1].time.value;
    }
  }

  // ---------------------------------------------------------------------
  // Element selection, EXTRACT CHARACTERS, SEQTO, REVERSE

  const N10_20: seq<Elem> := [N(10.0), N(20.0)]
  const N10_To_40: seq<Elem> := [N(10.0), N(20.0), N(30.0), N(40.0)]
  const N10_To_50: seq<Elem> := [N(10.0), N(20.0), N(30.0), N(40.0), N(50.0)]
  const N1_3_5: seq<Elem> := [N(1.0), N(3.0), N(5.0)]

  lemma LookupsOfOperands()
    ensures Lookup(N10_To_40, N(2.0)) == N(20.0)
    ensures Lookup(N10_20, N(1.5)) == NullElem
    ensures Lookup(N10_20, N(2.0)) == N(20.0)
    ensures Lookup(N10_To_50, N(1.0)) == N(10.0)
    ensures Lookup(N10_To_50, N(3.0)) == N(30.0)
    ensures Lookup(N10_To_50, N(5.0)) == N(50.0)
  {
    assert (2.0).Floor == 2 && (1.0).Floor == 1 && (3.0).Floor == 3 && (5.0).Floor == 5;
    assert !IsInteger(1.5);
  }

  lemma TestElementOfList()
    ensures Element(L(N10_To_40), N(2.0)).value == Num(20.0)
    ensures Element(L(N10_20), L([])).value == List([])
    ensures Element(L(N10_20), L([N(1.5), N(2.0)])).value == List([NullElem, N(20.0)])
  {
    LookupsOfOperands();
    FlattenAllFlat([N(1.5), N(2.0)]);
    var r := SelectAll(N10_20, [N(1.5), N(2.0)]);
    assert r[0] == NullElem && r[1] == N(20.0);
  }

  lemma SelectOneThreeFive()
    ensures SelectAll(N10_To_50, N1_3_5) == [N(10.0), N(30.0), N(50.0)]
  {
    LookupsOfOperands();
    var r := SelectAll(N10_To_50, N1_3_5);
    assert r[0] == N(10.0) && r[1] == N(30.0) && r[2] == N(50.0);
  }

  lemma FlattenNested()
    ensures FlattenAll([N(1.0), L([N(3.0), N(5.0)])]) == N1_3_5
  {
    var nested := [N(1.0), L([N(3.0), N(5.0)])];
    FlattenAllFlat([N(3.0), N(5.0)]);
    assert nested[1..][1..] == [];
    assert FlattenAll(nested[1..]) == [N(3.0), N(5.0)];
    assert FlattenAll(nested) == [N(1.0)] + [N(3.0), N(5.0)];
  }

  lemma TestElementOfIndices()
    ensures Element(L(N10_To_50), L(N1_3_5)).value == List([N(10.0), N(30.0), N(50.0)])
    ensures Element(L(N10_To_50), L([N(1.0), L([N(3.0), N(5.0)])])).value
            == List([N(10.0), N(30.0), N(50.0)])
  {
    FlattenAllFlat(N1_3_5);
    SelectOneThreeFive();
    FlattenNested();
  }

  lemma TestElementOfRange()
    ensures Element(L(N10_To_50), SeqTo(N(1.0), N(3.0))).value == List([N(10.0), N(20.0), N(30.0)])
  {
    SelectRangePrefix(L(N10_To_50), 3);
    assert (3 as real) == 3.0;
    assert N10_To_50[..3] == [N(10.0), N(20.0), N(30.0)];
  }

  /** TIME FIRST (x, y, z)[2, 3]: the selected elements keep their times. */
  lemma TestTimeOfElement()
    ensures First(Items(Element(L(XYZ), L([N(2.0), N(3.0)])))).time == Some(T_1990_01_01)
  {
    FlattenAllFlat([N(2.0), N(3.0)]);
    assert (2.0).Floor == 2;
    assert Lookup(XYZ, N(2.0)) == Y;
  }

  lemma StringsOfOne(t: string)
    ensures Strings([S(t)]) == Some(t)
  {
    assert [S(t)][1..] == [];
    assert t + "" == t;
  }

  lemma StringsOfTwo(a: string, b: string)
    ensures Strings([S(a), S(b)]) == Some(a + b)
  {
    assert [S(a), S(b)][1..] == [S(b)];
    StringsOfOne(b);
  }

  lemma TestExtractCharacters()
    ensures ExtractCharacters(S("abc")).value == List([S("a"), S("b"), S("c")])
    ensures ExtractCharacters(L([S("ab"), S("c")])).value == List([S("a"), S("b"), S("c")])
    ensures ExtractCharacters(L([])).value == List([])
    ensures ExtractCharacters(S("")).value == List([])
  {
    StringsOfOne("abc");
    StringsOfTwo("ab", "c");
    assert "ab" + "c" == "abc";
    StringsOfOne("");
  }

  const Abcde: seq<Elem> := [S("a"), S("b"), S("c"), S("d"), S("e")]
  const Edcba: seq<Elem> := [S("e"), S("d"), S("c"), S("b"), S("a")]

  lemma CharactersOfAbcde()
    ensures Characters("abcde") == Abcde && Characters("edcba") == Edcba
  {
  }

  lemma ReverseOfFive(a: Elem, b: Elem, c: Elem, d: Elem, e: Elem)
    ensures ReverseSeq([a, b, c, d, e]) == [e, d, c, b, a]
  {
    var r := ReverseSeq([a, b, c, d, e]);
    assert r[0] == e && r[1] == d && r[2] == c && r[3] == b && r[4] == a;
  }

  lemma ReversedCharacters()
    ensures ReverseSeq(Characters("abcde")) == Characters("edcba")
  {
    CharactersOfAbcde();
    ReverseOfFive(S("a"), S("b"), S("c"), S("d"), S("e"));
  }

  /** STRING REVERSE EXTRACT CHARACTERS "abcde". */
  lemma TestReverseCharacters()
    ensures StringOf(Reverse(ExtractCharacters(S("abcde")))).value == Str("edcba")
  {
    StringsOfOne("abcde");
    ReversedCharacters();
    StringsOfCharacters("edcba");
  }

  lemma TestSeqto()
    ensures SeqTo(N(2.0), N(4.0)).value == List([N(2.0), N(3.0), N(4.0)])
    ensures SeqTo(N(4.0), N(2.0)).value == List([])
    ensures SeqTo(N(4.5), N(2.0)).value == Null
    ensures SeqTo(N(2.0), N(2.0)).value == List([N(2.0)])
    ensures SeqTo(N(-3.0), N(-1.0)).value == List([N(-3.0), N(-2.0), N(-1.0)])
    ensures SeqTo(N(1.5), N(5.0)).value == Null
  {
  }

  lemma ReverseOfThree(a: Elem, b: Elem, c: Elem)
    ensures ReverseSeq([a, b, c]) == [c, b, a]
  {
    var r := ReverseSeq([a, b, c]);
    assert r[0] == c && r[1] == b && r[2] == a;
  }

  lemma ReverseOfSix(a: Elem, b: Elem, c: Elem, d: Elem, e: Elem, f: Elem)
    ensures ReverseSeq([a, b, c, d, e, f]) == [f, e, d, c, b, a]
  {
    var r := ReverseSeq([a, b, c, d, e, f]);
    assert r[0] == f && r[1] == e && r[2] == d && r[3] == c && r[4] == b && r[5] == a;
  }

  lemma OneSeqToSix()
    ensures SeqTo(N(1.0), N(6.0)) == L([N(1.0), N(2.0), N(3.0), N(4.0), N(5.0), N(6.0)])
  {
    assert (1.0).Floor == 1 && (6.0).Floor == 6;
    var r := Range(1, 6);
    assert r[0] == N(1.0) && r[1] == N(2.0) && r[2] == N(3.0) && r[3] == N(4.0) && r[4] == N(5.0) && r[5] == N(6.0);
  }

  lemma TestReverse()
    ensures Reverse(L([N(1.0), N(2.0), N(3.0)])).value == List([N(3.0), N(2.0), N(1.0)])
    ensures Reverse(SeqTo(N(1.0), N(6.0))).value == List([N(6.0), N(5.0), N(4.0), N(3.0), N(2.0), N(1.0)])
    ensures Reverse(L([])).value == List([])
  {
    ReverseOfThree(N(1.0), N(2.0), N(3.0));
    OneSeqToSix();
    ReverseOfSix(N(1.0), N(2.0), N(3.0), N(4.0), N(5.0), N(6.0));
  }

  // ---------------------------------------------------------------------
  // INDEX EARLIEST, INDEX LATEST, INDEX MINIMUM, INDEX MAXIMUM

  lemma TestIndexOfTime()
    ensures IndexEarliest(Items(L([]))).value == Null
    ensures IndexEarliest(Items(L(VXY))).value == Num(2.0)
    ensures IndexEarliest(Items(L(VXY))).time == Some(T_1990_01_01)
    ensures IndexLatest(Items(L([]))).value == Null
    ensures IndexLatest(Items(L(VXY))).value == Num(1.0)
  {
    assert EarliestPosition(VXY) == Some(1) by {
      var k := EarliestPosition(VXY);
      assert VXY[k.value].time.value <= VXY[1].time.value;
    }
    assert LatestPosition(VXY) == Some(0) by {
      var k := LatestPosition(VXY);
      assert VXY[k.value].time.value >= VXY[0].time.value;
    }
  }

  lemma IndexMinimumOfN12_13_14()
    ensures IndexMinimum(N12_13_14).value == Num(1.0)
  {
    NumbersOfOperands();
    assert MinPosition(N12_13_14) == Some(0) by {
      var k := MinPosition(N12_13_14);
      assert N12_13_14[k.value].value.n <= N12_13_14[0].value.n;
    }
  }

  lemma IndexMinimumOfScalars()
    ensures IndexMinimum([Three]).value == Num(1.0)
    ensures IndexMinimum(OneAbc).value == Null
  {
    NumbersOfOperands();
    NotAllNumbers();
  }

  lemma TestIndexOfMinimum()
    ensures IndexMinimum(Items(L(N12_13_14))).value == Num(1.0)
    ensures IndexMinimum(Items(Three)).value == Num(1.0)
    ensures IndexMinimum(Items(L([]))).value == Null
    ensures IndexMinimum(Items(L(OneAbc))).value == Null
  {
    IndexMinimumOfN12_13_14();
    IndexMinimumOfScalars();
    ItemsOfScalars();
  }

  lemma IndexMaximumOfN12_13_14()
    ensures IndexMaximum(N12_13_14).value == Num(3.0)
  {
    NumbersOfOperands();
    assert MaxPosition(N12_13_14) == Some(2) by {
      var k := MaxPosition(N12_13_14);
      assert N12_13_14[k.value].value.n >= N12_13_14[2].value.n;
    }
  }

  lemma IndexMaximumOfScalars()
    ensures IndexMaximum([Three]).value == Num(1.0)
    ensures IndexMaximum(OneAbc).value == Null
  {
    NumbersOfOperands();
    NotAllNumbers();
  }

  lemma TestIndexOfMaximum()
    ensures IndexMaximum(Items(L(N12_13_14))).value == Num(3.0)
    ensures IndexMaximum(Items(Three)).value == Num(1.0)
    ensures IndexMaximum(Items(L([]))).value == Null
    ensures IndexMaximum(Items(L(OneAbc))).value == Null
  {
    IndexMaximumOfN12_13_14();
    IndexMaximumOfScalars();
    ItemsOfScalars();
  }
}
