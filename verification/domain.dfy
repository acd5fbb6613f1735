/**
 * Domain calculation: the padded bounds that `findMinAndMax_X` and
 * `findMinAndMax_Y` compute with `d3.min` / `d3.max` over the rows.
 * Arithmetic is exact: the rounding of the 0.8 and 1.1 products is not modelled.
 */
module Domain {
  import opened Wrappers
  import opened Columns

  /** Padding factor of the horizontal lower bound. */
  const XMinFactor: real := 0.8
  /** Padding factor of the horizontal upper bound. */
  const XMaxFactor: real := 1.1
  /** Padding factor of the vertical upper bound; the vertical lower bound is fixed at 0. */
  const YMaxFactor: real := 1.1

  /**
   * `d3.min`: a left-to-right fold that keeps the first value and replaces it
   * by any later value it is greater than; `undefined` on no values.
   */
  function MinOf(s: seq<real>): (r: Option<real>)
    ensures r.None? <==> s == []
    ensures r.Some? ==> r.value in s
    ensures r.Some? ==> forall i :: 0 <= i < |s| ==> r.value <= s[i]
  {
    if s == [] then None
    else
      var last := s[|s| - 1];
      match MinOf(s[..|s| - 1])
      case None => Some(last)
      case Some(m) => if m > last then Some(last) else Some(m)
  }

  /** `d3.max`: the same fold, replacing the kept value by any later value it is less than. */
  function MaxOf(s: seq<real>): (r: Option<real>)
    ensures r.None? <==> s == []
    ensures r.Some? ==> r.value in s
    ensures r.Some? ==> forall i :: 0 <= i < |s| ==> s[i] <= r.value
  {
    if s == [] then None
    else
      var last := s[|s| - 1];
      match MaxOf(s[..|s| - 1])
      case None => Some(last)
      case Some(m) => if m < last then Some(last) else Some(m)
  }

  /** Every value multiplied by `c`, as the accessor `+data[col] * c` yields it. */
  function Scaled(s: seq<real>, c: real): (t: seq<real>)
    ensures |t| == |s|
    ensures forall i :: 0 <= i < |s| ==> t[i] == c * s[i]
  {
    seq(|s|, i requires 0 <= i < |s| => c * s[i])
  }

  /** `xMin` as `findMinAndMax_X` computes it for column `k`. */
  function XMin(rows: seq<Row>, k: Key): Option<real> {
    MinOf(Scaled(Column(rows, k), XMinFactor))
  }

  /** `xMax` as `findMinAndMax_X` computes it for column `k`. */
  function XMax(rows: seq<Row>, k: Key): Option<real> {
    MaxOf(Scaled(Column(rows, k), XMaxFactor))
  }

  /** `yMax` as `findMinAndMax_Y` computes it for column `k`. */
  function YMax(rows: seq<Row>, k: Key): Option<real> {
    MaxOf(Scaled(Column(rows, k), YMaxFactor))
  }

  /** `c` times an optional value; `undefined` stays `undefined`. */
  function Times(c: real, o: Option<real>): Option<real> {
    match o
    case None => None
    case Some(v) => Some(c * v)
  }

  lemma MulMonotone(c: real, a: real, b: real)
    requires 0.0 <= c && a <= b
    ensures c * a <= c * b
  {
    assert c * b - c * a == c * (b - a);
  }

  lemma ScaledAbove(s: seq<real>, c: real, i: int, m: real)
    requires 0.0 <= c && 0 <= i < |s| && m <= s[i]
    ensures c * m <= Scaled(s, c)[i]
  {
    MulMonotone(c, m, s[i]);
  }

  lemma ScaledBelow(s: seq<real>, c: real, i: int, m: real)
    requires 0.0 <= c && 0 <= i < |s| && s[i] <= m
    ensures Scaled(s, c)[i] <= c * m
  {
    MulMonotone(c, s[i], m);
  }

  /** A value of `s` that is at most every value of `s` is what `MinOf` returns. */
  lemma MinOfUnique(s: seq<real>, m: real)
    requires m in s
    requires forall i :: 0 <= i < |s| ==> m <= s[i]
    ensures MinOf(s) == Some(m)
  {
    var r := MinOf(s).value;
    var j :| 0 <= j < |s| && s[j] == r;
    assert m <= r;
  }

  /** A value of `s` that is at least every value of `s` is what `MaxOf` returns. */
  lemma MaxOfUnique(s: seq<real>, m: real)
    requires m in s
    requires forall i :: 0 <= i < |s| ==> s[i] <= m
    ensures MaxOf(s) == Some(m)
  {
    var r := MaxOf(s).value;
    var j :| 0 <= j < |s| && s[j] == r;
    assert r <= m;
  }

  lemma TimesSome(c: real, o: Option<real>, v: real)
    requires o == Some(v)
    ensures Times(c, o) == Some(c * v)
  {
    assert Times(c, o).value == c * v;
  }

  /** Scaling by a non-negative factor commutes with taking the minimum. */
  lemma MinOfScaled(s: seq<real>, c: real)
    requires 0.0 <= c
    ensures MinOf(Scaled(s, c)) == Times(c, MinOf(s))
  {
    if s != [] {
      var m := MinOf(s).value;
      ScaledMinimum(s, c, m);
      TimesSome(c, MinOf(s), m);
    } else {
      assert Scaled(s, c) == [];
    }
  }

  lemma ScaledMinimum(s: seq<real>, c: real, m: real)
    requires 0.0 <= c
    requires MinOf(s) == Some(m)
    ensures MinOf(Scaled(s, c)) == Some(c * m)
  {
    var j :| 0 <= j < |s| && s[j] == m;
    var t := Scaled(s, c);
    assert c * m in t by { assert t[j] == c * m; }
    forall i | 0 <= i < |t|
      ensures c * m <= t[i]
    {
      ScaledAbove(s, c, i, m);
    }
    MinOfUnique(t, c * m);
  }

  /** Scaling by a non-negative factor commutes with taking the maximum. */
  lemma MaxOfScaled(s: seq<real>, c: real)
    requires 0.0 <= c
    ensures MaxOf(Scaled(s, c)) == Times(c, MaxOf(s))
  {
    if s != [] {
      var m := MaxOf(s).value;
      ScaledMaximum(s, c, m);
      TimesSome(c, MaxOf(s), m);
    } else {
      assert Scaled(s, c) == [];
    }
  }

  lemma ScaledMaximum(s: seq<real>, c: real, m: real)
    requires 0.0 <= c
    requires MaxOf(s) == Some(m)
    ensures MaxOf(Scaled(s, c)) == Some(c * m)
  {
    var j :| 0 <= j < |s| && s[j] == m;
    var t := Scaled(s, c);
    assert c * m in t by { assert t[j] == c * m; }
    forall i | 0 <= i < |t|
      ensures t[i] <= c * m
    {
      ScaledBelow(s, c, i, m);
    }
    MaxOfUnique(t, c * m);
  }

  /**
   * The horizontal bounds are 0.8 times the column's minimum and 1.1 times
   * its maximum (both `undefined` on an empty dataset).
   */
  lemma XBoundsArePaddedExtremes(rows: seq<Row>, k: Key)
    ensures XMin(rows, k) == Times(0.8, MinOf(Column(rows, k)))
    ensures XMax(rows, k) == Times(1.1, MaxOf(Column(rows, k)))
  {
    MinOfScaled(Column(rows, k), XMinFactor);
    MaxOfScaled(Column(rows, k), XMaxFactor);
  }

  /** The vertical upper bound is 1.1 times the column's maximum. */
  lemma YBoundIsPaddedMaximum(rows: seq<Row>, k: Key)
    ensures YMax(rows, k) == Times(1.1, MaxOf(Column(rows, k)))
  {
    MaxOfScaled(Column(rows, k), YMaxFactor);
  }

  /** Every value of column `k` is non-negative. */
  ghost predicate NonNegative(rows: seq<Row>, k: Key) {
    forall i :: 0 <= i < |rows| ==> 0.0 <= Value(rows[i], k)
  }

  /**
   * For non-negative data the horizontal domain `[xMin, xMax]` holds every
   * row's value of the column, so no point is clipped.
   */
  lemma XDomainCoversColumn(rows: seq<Row>, k: Key)
    requires rows != []
    requires NonNegative(rows, k)
    ensures XMin(rows, k).Some? && XMax(rows, k).Some?
    ensures forall i :: 0 <= i < |rows| ==>
              XMin(rows, k).value <= Value(rows[i], k) <= XMax(rows, k).value
  {
    var lo := Scaled(Column(rows, k), XMinFactor);
    var hi := Scaled(Column(rows, k), XMaxFactor);
    forall i | 0 <= i < |rows|
      ensures XMin(rows, k).value <= Value(rows[i], k) <= XMax(rows, k).value
    {
      assert XMin(rows, k).value <= lo[i];
      assert hi[i] <= XMax(rows, k).value;
    }
  }

  /**
   * For non-negative data the vertical domain `[0, yMax]` holds every row's
   * value of the column.
   */
  lemma YDomainCoversColumn(rows: seq<Row>, k: Key)
    requires rows != []
    requires NonNegative(rows, k)
    ensures YMax(rows, k).Some?
    ensures forall i :: 0 <= i < |rows| ==> 0.0 <= Value(rows[i], k) <= YMax(rows, k).value
  {
    var hi := Scaled(Column(rows, k), YMaxFactor);
    forall i | 0 <= i < |rows|
      ensures Value(rows[i], k) <= YMax(rows, k).value
    {
      assert hi[i] <= YMax(rows, k).value;
    }
  }

  /**
   * Without the non-negativity of the data the padding can clip: a single
   * negative value lies below its own `xMin`.
   */
  lemma NegativeValueBelowXMin(r: Row)
    requires r.poverty < 0.0
    ensures XMin([r], Poverty).Some?
    ensures Value(r, Poverty) < XMin([r], Poverty).value
  {
    var t := Scaled(Column([r], Poverty), XMinFactor);
    assert t == [0.8 * r.poverty];
    assert MinOf(t) == Some(0.8 * r.poverty);
  }
}
