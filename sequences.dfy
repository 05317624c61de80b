/** The list operators of the Arden Syntax: SEQTO, REVERSE, element
    selection `l[i]`, EXTRACT CHARACTERS and, as its partner, STRING. */
module SequenceOperators {

  import opened Wrappers
  import opened ArdenValues
  import Aggregation

  // ---------------------------------------------------------------------
  // SEQTO

  /** The integers lo, lo + 1, ..., hi as untimed numbers. */
  function Range(lo: int, hi: int): (r: seq<Elem>)
    decreases hi - lo
    ensures |r| == if lo <= hi then hi - lo + 1 else 0
    ensures forall i :: 0 <= i < |r| ==> r[i] == Untimed(Num((lo + i) as real))
  {
    if lo > hi then [] else [Untimed(Num(lo as real))] + Range(lo + 1, hi)
  }

  predicate IsIntegerValue(x: Elem)
  {
    x.value.Num? && IsInteger(x.value.n)
  }

  /** `a SEQTO b`: the ascending integers from a to b, empty when a > b;
      NULL when a bound is not an integer. */
  function SeqTo(a: Elem, b: Elem): (r: Elem)
    ensures r.time.None?
    ensures r.value.List? <==> IsIntegerValue(a) && IsIntegerValue(b)
    ensures !r.value.List? ==> r == NullElem
    ensures r.value.List? ==>
              var lo, hi := a.value.n.Floor, b.value.n.Floor;
              && |r.value.items| == (if lo <= hi then hi - lo + 1 else 0)
              && forall i :: 0 <= i < |r.value.items| ==> r.value.items[i] == Untimed(Num((lo + i) as real))
  {
    if IsIntegerValue(a) && IsIntegerValue(b) then Untimed(List(Range(a.value.n.Floor, b.value.n.Floor)))
    else NullElem
  }

  /** The three shapes of an integral SEQTO: empty, one element, b - a + 1 elements. */
  lemma SeqToShape(a: int, b: int)
    ensures var r := SeqTo(Untimed(Num(a as real)), Untimed(Num(b as real)));
            && r.value.List?
            && (a > b ==> r.value.items == [])
            && (a == b ==> r.value.items == [Untimed(Num(a as real))])
            && (a <= b ==> |r.value.items| == b - a + 1
                           && r.value.items[0] == Untimed(Num(a as real))
                           && r.value.items[b - a] == Untimed(Num(b as real))
                           && forall i :: 0 <= i <= b - a ==> r.value.items[i] == Untimed(Num((a + i) as real)))
  {
    assert (a as real).Floor == a && (b as real).Floor == b;
  }

  // ---------------------------------------------------------------------
  // REVERSE

  function ReverseSeq(s: seq<Elem>): (r: seq<Elem>)
    ensures |r| == |s|
    ensures forall i :: 0 <= i < |s| ==> r[i] == s[|s| - 1 - i]
  {
    if s == [] then [] else ReverseSeq(s[1..]) + [s[0]]
  }

  /** REVERSE: the elements in the opposite order, each keeping its time. */
  function Reverse(x: Elem): (r: Elem)
    ensures r.time.None? && r.value.List?
    ensures |r.value.items| == |Items(x)|
    ensures forall i :: 0 <= i < |Items(x)| ==> r.value.items[i] == Items(x)[|Items(x)| - 1 - i]
  {
    Untimed(List(ReverseSeq(Items(x))))
  }

  /** REVERSE is its own inverse, element times included. */
  lemma ReverseReverse(x: Elem)
    ensures Items(Reverse(Reverse(x))) == Items(x)
  {
    var s := Items(x);
    assert ReverseSeq(ReverseSeq(s)) == s;
  }

  /** LAST is FIRST of the reversed list. */
  lemma LastIsFirstOfReverse(s: seq<Elem>)
    ensures Aggregation.Last(s) == Aggregation.First(ReverseSeq(s))
  {
  }

  // ---------------------------------------------------------------------
  // Element selection

  /** The scalars of an index expression, nested index lists flattened. */
  function Flatten(x: Elem): (r: seq<Elem>)
    decreases x, 1
    ensures forall i :: 0 <= i < |r| ==> !r[i].value.List?
  {
    if x.value.List? then FlattenAll(x.value.items) else [x]
  }

  function FlattenAll(xs: seq<Elem>): (r: seq<Elem>)
    decreases xs, 0
    ensures forall i :: 0 <= i < |r| ==> !r[i].value.List?
  {
    if xs == [] then []
    else
      var r, rest := Flatten(xs[0]), FlattenAll(xs[1..]);
      assert forall i :: |r| <= i < |r + rest| ==> (r + rest)[i] == rest[i - |r|];
      r + rest
  }

  /** A list without nested lists is its own flattening. */
  lemma {:induction false} FlattenAllFlat(xs: seq<Elem>)
    requires forall i :: 0 <= i < |xs| ==> !xs[i].value.List?
    ensures FlattenAll(xs) == xs
  {
    if xs != [] {
      FlattenAllFlat(xs[1..]);
    }
  }

  /** The element one index selects: positions are 1-based; a position that
      is not an integer or is out of range selects NULL. */
  function Lookup(s: seq<Elem>, k: Elem): (r: Elem)
    ensures forall i :: 0 <= i < |s| && k.value == Num((i + 1) as real) ==> r == s[i]
    ensures r == NullElem || exists i :: 0 <= i < |s| && k.value == Num((i + 1) as real) && r == s[i]
  {
    if IsIntegerValue(k) && 1 <= k.value.n.Floor <= |s| then
      var i := k.value.n.Floor - 1;
      assert k.value == Num((i + 1) as real);
      s[i]
    else NullElem
  }

  function SelectAll(s: seq<Elem>, ks: seq<Elem>): (r: seq<Elem>)
    ensures |r| == |ks|
    ensures forall j :: 0 <= j < |ks| ==> r[j] == Lookup(s, ks[j])
  {
    if ks == [] then [] else [Lookup(s, ks[0])] + SelectAll(s, ks[1..])
  }

  /** `l[idx]`: a scalar index selects one element; a list of indices, nested
      lists flattened, selects a list, with NULL at each invalid index. */
  function Element(l: Elem, idx: Elem): (r: Elem)
    ensures !idx.value.List? ==> r == Lookup(Items(l), idx)
    ensures idx.value.List? ==> r.value.List? && |r.value.items| == |FlattenAll(idx.value.items)|
    ensures idx.value.List? ==> forall j :: 0 <= j < |r.value.items| ==>
              r.value.items[j] == Lookup(Items(l), FlattenAll(idx.value.items)[j])
  {
    if idx.value.List? then Untimed(List(SelectAll(Items(l), FlattenAll(idx.value.items))))
    else Lookup(Items(l), idx)
  }

  /** Selecting 1 SEQTO n from a list of at least n elements gives its first n elements. */
  lemma {:induction false} SelectRangePrefix(l: Elem, n: nat)
    requires n <= |Items(l)|
    ensures Items(Element(l, SeqTo(Untimed(Num(1.0)), Untimed(Num(n as real))))) == Items(l)[..n]
  {
    var ks := Range(1, n);
    assert (n as real).Floor == n;
    FlattenAllFlat(ks);
    var r := Items(Element(l, SeqTo(Untimed(Num(1.0)), Untimed(Num(n as real)))));
    assert r == SelectAll(Items(l), ks);
    forall j | 0 <= j < n
      ensures r[j] == Items(l)[j]
    {
      assert ks[j] == Untimed(Num((1 + j) as real));
      assert ((1 + j) as real).Floor == 1 + j;
    }
  }

  // ---------------------------------------------------------------------
  // EXTRACT CHARACTERS and STRING

  /** The concatenation of the strings of a list, when every element is one. */
  function Strings(s: seq<Elem>): (r: Option<string>)
    ensures r.Some? <==> forall i :: 0 <= i < |s| ==> s[i].value.Str?
    ensures s == [] ==> r == Some("")
    ensures |s| == 1 && s[0].value.Str? ==> r == Some(s[0].value.s)
  {
    if s == [] then Some("")
    else if !s[0].value.Str? then None
    else match Strings(s[1..])
      case None => None
      case Some(rest) =>
        assert |s| == 1 ==> s[1..] == [] && rest == "" && s[0].value.s + rest == s[0].value.s;
        Some(s[0].value.s + rest)
  }

  /** The strings of two lists put together are those of the first list
      followed by those of the second. */
  lemma {:induction false} StringsAppend(a: seq<Elem>, b: seq<Elem>)
    requires Strings(a).Some? && Strings(b).Some?
    ensures Strings(a + b) == Some(Strings(a).value + Strings(b).value)
    decreases |a|
  {
    if a == [] {
      assert a + b == b;
      assert Strings(a).value + Strings(b).value == Strings(b).value;
    } else {
      assert (a + b)[0] == a[0] && (a + b)[1..] == a[1..] + b;
      StringsAppend(a[1..], b);
      var h, t, u := a[0].value.s, Strings(a[1..]).value, Strings(b).value;
      assert Strings(a).value == h + t;
      assert h + (t + u) == (h + t) + u;
    }
  }

  /** Each character of t as an untimed one-character string. */
  function Characters(t: string): (r: seq<Elem>)
    ensures |r| == |t|
    ensures forall i :: 0 <= i < |t| ==> r[i] == Untimed(Str([t[i]]))
  {
    if t == "" then [] else [Untimed(Str([t[0]]))] + Characters(t[1..])
  }

  /** EXTRACT CHARACTERS: the characters of the concatenated strings, in order. */
  function ExtractCharacters(x: Elem): (r: Elem)
    ensures r.time.None?
    ensures r.value.List? <==> Strings(Items(x)).Some?
    ensures r.value.List? ==> r.value.items == Characters(Strings(Items(x)).value)
    ensures !r.value.List? ==> r == NullElem
  {
    match Strings(Items(x))
    case None => NullElem
    case Some(t) => Untimed(List(Characters(t)))
  }

  /** STRING: the concatenation of a list of strings. */
  function StringOf(x: Elem): (r: Elem)
    ensures r.time.None?
    ensures r.value.Str? <==> Strings(Items(x)).Some?
    ensures r.value.Str? ==> r.value.s == Strings(Items(x)).value
  {
    match Strings(Items(x))
    case None => NullElem
    case Some(t) => Untimed(Str(t))
  }

  lemma {:induction false} StringsOfCharacters(t: string)
    ensures Strings(Characters(t)) == Some(t)
  {
    if t != "" {
      StringsOfCharacters(t[1..]);
      assert Characters(t)[1..] == Characters(t[1..]);
      assert [t[0]] + t[1..] == t;
    }
  }

  /** STRING undoes EXTRACT CHARACTERS. */
  lemma StringOfExtractCharacters(x: Elem)
    requires Strings(Items(x)).Some?
    ensures StringOf(ExtractCharacters(x)) == Untimed(Str(Strings(Items(x)).value))
  {
    StringsOfCharacters(Strings(Items(x)).value);
  }
}
