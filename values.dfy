/** The runtime value model of the Arden Syntax evaluator: every datum is a
    value paired with an optional primary time.  Lists are flat sequences of
    such pairs; a scalar used where a list is expected is a one-element list. */
module ArdenValues {

  import opened Wrappers

  /** A point in time, as seconds since 1970-01-01T00:00:00. */
  type Time = int

  datatype Value =
    | Null
    | Bool(b: bool)
    | Num(n: real)
    | Str(s: string)
    | List(items: seq<Elem>)

  /** A value with its (optional) primary time. */
  datatype Elem = Elem(value: Value, time: Option<Time>)

  /** A value that carries no primary time. */
  function Untimed(v: Value): Elem
  {
    Elem(v, None)
  }

  const NullElem: Elem := Untimed(Null)

  /** The elements an operator works on: the list's elements, or the scalar
      itself as a one-element list. */
  function Items(x: Elem): (s: seq<Elem>)
    ensures x.value.List? ==> s == x.value.items
    ensures !x.value.List? ==> s == [x]
  {
    if x.value.List? then x.value.items else [x]
  }

  /** An untimed list of untimed numbers, as a list literal `(a, b, ...)` builds it. */
  function NumList(xs: seq<real>): (r: Elem)
    ensures r.time.None? && r.value.List? && |r.value.items| == |xs|
    ensures forall i :: 0 <= i < |xs| ==> r.value.items[i] == Untimed(Num(xs[i]))
  {
    Untimed(List(seq(|xs|, i requires 0 <= i < |xs| => Untimed(Num(xs[i])))))
  }

  predicate IsInteger(r: real)
  {
    r == r.Floor as real
  }

  /** Coercion into boolean context: anything but TRUE or FALSE is unknown. */
  function Truth(v: Value): (r: Value)
    ensures r == Bool(true) || r == Bool(false) || r == Null
    ensures r != Null <==> v.Bool?
    ensures v.Bool? ==> r == v
  {
    if v.Bool? then v else Null
  }

  // Kleene's three-valued connectives, with Null standing for unknown.

  function Or3(a: Value, b: Value): (r: Value)
  {
    if a == Bool(true) || b == Bool(true) then Bool(true)
    else if a == Bool(false) && b == Bool(false) then Bool(false)
    else Null
  }

  function And3(a: Value, b: Value): (r: Value)
  {
    if a == Bool(false) || b == Bool(false) then Bool(false)
    else if a == Bool(true) && b == Bool(true) then Bool(true)
    else Null
  }

  function Not3(a: Value): (r: Value)
  {
    if a == Bool(true) then Bool(false)
    else if a == Bool(false) then Bool(true)
    else Null
  }

  /** De Morgan's law holds for the three-valued connectives, on any values. */
  lemma DeMorgan3(a: Value, b: Value)
    ensures Not3(Or3(a, b)) == And3(Not3(a), Not3(b))
  {
  }
}
