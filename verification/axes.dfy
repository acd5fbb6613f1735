/**
 * The axis-label state machine: which column drives each axis, the stored
 * bounds, and which of the six labels carries the `active` class.  A label
 * carries `inactive` exactly when it does not carry `active`, so one set of
 * active labels describes all six flags.
 */
module Axes {
  import opened Wrappers
  import opened Columns
  import opened Domain

  /**
   * The chart's state: `currentAxisLabelX`, `currentAxisLabelY`, the bounds
   * `xMin`, `xMax`, `yMax`, and the labels flagged active.
   */
  datatype Chart = Chart(
    curX: Key,
    curY: Key,
    xMin: Option<real>,
    xMax: Option<real>,
    yMax: Option<real>,
    active: set<Key>)

  /**
   * The state every reachable chart is in: each current key in its own group,
   * the bounds those of the current columns, and the active labels a
   * non-empty subset of the two current keys.
   */
  ghost predicate Inv(rows: seq<Row>, c: Chart) {
    && c.curX in XKeys
    && c.curY in YKeys
    && c.xMin == XMin(rows, c.curX)
    && c.xMax == XMax(rows, c.curX)
    && c.yMax == YMax(rows, c.curY)
    && c.active != {}
    && c.active <= {c.curX, c.curY}
  }

  /** The chart after loading: poverty against lack of healthcare, both labels active. */
  function Init(rows: seq<Row>): (c: Chart)
    ensures Inv(rows, c)
    ensures c.curX == Poverty && c.curY == HasHealthcare
    ensures c.active == {c.curX, c.curY}
  {
    Chart(Poverty, HasHealthcare, XMin(rows, Poverty), XMax(rows, Poverty),
          YMax(rows, HasHealthcare), {HasHealthcare, Poverty})
  }

  /** `labelChange`: every active label turns inactive, then the clicked one turns active. */
  function LabelChange(active: set<Key>, clicked: Key): (a: set<Key>)
    ensures clicked in a
    ensures forall l :: l in a ==> l == clicked
  {
    // `.filter(".active")` selects every active label: all of them turn inactive
    (active - active) + {clicked}
  }

  /** A click on the label tagged `k`. */
  function Click(rows: seq<Row>, c: Chart, k: Key): (d: Chart)
    // a label not flagged inactive ignores the click
    ensures k in c.active ==> d == c
    // a successful switch leaves the clicked label as the only active one, on both axes
    ensures k !in c.active ==> d.active == {k}
    // a vertical key moves only the vertical column and bound
    ensures k !in c.active && k in YKeys ==>
              d.curY == k && d.yMax == YMax(rows, k) &&
              d.curX == c.curX && d.xMin == c.xMin && d.xMax == c.xMax
    // every other key moves only the horizontal column and bounds
    ensures k !in c.active && k !in YKeys ==>
              d.curX == k && d.xMin == XMin(rows, k) && d.xMax == XMax(rows, k) &&
              d.curY == c.curY && d.yMax == c.yMax
    ensures Inv(rows, c) ==> Inv(rows, d)
  {
    if k in c.active then c
    else if IsYKey(k) then c.(curY := k, yMax := YMax(rows, k), active := LabelChange(c.active, k))
    else c.(curX := k, xMin := XMin(rows, k), xMax := XMax(rows, k), active := LabelChange(c.active, k))
  }

  /** The chart after a sequence of clicks, in order. */
  function Run(rows: seq<Row>, c: Chart, clicks: seq<Key>): Chart
    decreases |clicks|
  {
    if clicks == [] then c else Run(rows, Click(rows, c, clicks[0]), clicks[1..])
  }

  /** Every chart reached from the initial one by clicks satisfies the invariant. */
  lemma {:induction false} RunKeepsInv(rows: seq<Row>, c: Chart, clicks: seq<Key>)
    requires Inv(rows, c)
    ensures Inv(rows, Run(rows, c, clicks))
    decreases |clicks|
  {
    if clicks != [] {
      RunKeepsInv(rows, Click(rows, c, clicks[0]), clicks[1..]);
    }
  }

  /** The state reached from loading by `clicks`. */
  function Reached(rows: seq<Row>, clicks: seq<Key>): Chart {
    Run(rows, Init(rows), clicks)
  }

  /**
   * In every reachable chart the horizontal key is poverty, age or income,
   * the vertical key is healthcare, smoker or obese, and the bounds belong to
   * those keys.
   */
  lemma ReachedKeysStayInGroups(rows: seq<Row>, clicks: seq<Key>)
    ensures Reached(rows, clicks).curX in XKeys
    ensures Reached(rows, clicks).curY in YKeys
    ensures Reached(rows, clicks).xMin == XMin(rows, Reached(rows, clicks).curX)
    ensures Reached(rows, clicks).xMax == XMax(rows, Reached(rows, clicks).curX)
    ensures Reached(rows, clicks).yMax == YMax(rows, Reached(rows, clicks).curY)
  {
    RunKeepsInv(rows, Init(rows), clicks);
  }

  /**
   * Only current keys are ever flagged active: at most one label per axis is
   * active and never none, but after a switch only one label is active in all.
   */
  lemma ReachedActiveLabels(rows: seq<Row>, clicks: seq<Key>)
    ensures Reached(rows, clicks).active != {}
    ensures forall l :: l in Reached(rows, clicks).active ==>
              l == Reached(rows, clicks).curX || l == Reached(rows, clicks).curY
    ensures |Reached(rows, clicks).active * XKeys| <= 1
    ensures |Reached(rows, clicks).active * YKeys| <= 1
  {
    var c := Reached(rows, clicks);
    RunKeepsInv(rows, Init(rows), clicks);
    AtMostOne(c.active * XKeys, c.curX);
    AtMostOne(c.active * YKeys, c.curY);
  }

  lemma AtMostOne(s: set<Key>, x: Key)
    requires s <= {x}
    ensures |s| <= 1
  {
    if x in s {
      assert s == {x};
    } else {
      assert s == {};
    }
  }

  /**
   * After a switch on either axis the other axis's own current label is no
   * longer flagged active, so clicking it is no longer ignored: it reloads the
   * same column and makes that label the only active one.
   */
  lemma OtherAxisLabelClickableAfterSwitch(rows: seq<Row>, c: Chart, k: Key)
    requires Inv(rows, c)
    requires k !in c.active
    ensures var d := Click(rows, c, k);
            var other := if k in YKeys then d.curX else d.curY;
            other !in d.active &&
            Click(rows, d, other) != d &&
            Click(rows, d, other) == d.(active := {other})
  {
  }

  /** Clicking the same label once or any number of times in a row gives the same chart. */
  lemma {:induction false} RepeatedClickIdempotent(rows: seq<Row>, c: Chart, k: Key, n: nat)
    ensures Run(rows, c, seq(n + 1, _ => k)) == Click(rows, c, k)
    decreases n
  {
    var clicks := seq(n + 1, _ => k);
    var d := Click(rows, c, k);
    assert clicks[0] == k;
    if n == 0 {
      assert clicks[1..] == [];
    } else {
      assert clicks[1..] == seq(n, _ => k);
      RepeatedClickIdempotent(rows, d, k, n - 1);
      assert Click(rows, d, k) == d;
    }
  }

  /** Where a row's mark sits, in data units, before the scales map it to pixels. */
  function Mark(row: Row, c: Chart): (real, real) {
    (Value(row, c.curX), Value(row, c.curY))
  }

  /**
   * A switch moves every mark along the switched axis only, to the clicked
   * column's value: no mark keeps a stale column.
   */
  lemma SwitchMovesMarksAlongOneAxis(rows: seq<Row>, c: Chart, k: Key, row: Row)
    requires k !in c.active
    ensures k in YKeys ==>
              Mark(row, Click(rows, c, k)) == (Mark(row, c).0, Value(row, k))
    ensures k !in YKeys ==>
              Mark(row, Click(rows, c, k)) == (Value(row, k), Mark(row, c).1)
  {
  }

  /**
   * With a non-empty, non-negative dataset no mark of a reachable chart lies
   * outside `[xMin, xMax]` horizontally or `[0, yMax]` vertically.
   */
  lemma ReachedMarksInsideDomain(rows: seq<Row>, clicks: seq<Key>)
    requires rows != []
    requires forall k, i :: 0 <= i < |rows| ==> 0.0 <= Value(rows[i], k)
    ensures var c := Reached(rows, clicks);
            c.xMin.Some? && c.xMax.Some? && c.yMax.Some? &&
            forall i :: 0 <= i < |rows| ==>
              c.xMin.value <= Mark(rows[i], c).0 <= c.xMax.value &&
              0.0 <= Mark(rows[i], c).1 <= c.yMax.value
  {
    var c := Reached(rows, clicks);
    RunKeepsInv(rows, Init(rows), clicks);
    XDomainCoversColumn(rows, c.curX);
    YDomainCoversColumn(rows, c.curY);
  }
}
