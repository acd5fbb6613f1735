/**
 * The chart's mutable state as the data callback keeps it: the closure
 * variables `currentAxisLabelX`, `currentAxisLabelY`, `xMin`, `xMax`, `yMax`,
 * the domains last given to the two linear scales, and the active/inactive
 * classes of the six axis labels.  Each method is proved against the pure
 * state machine of module Axes.
 */
module App {
  import opened Wrappers
  import opened Columns
  import opened Domain
  import opened Axes

  class ChartState {
    /** The loaded dataset, fixed for the session. */
    const rows: seq<Row>
    var currentAxisLabelX: Key
    var currentAxisLabelY: Key
    var xMin: Option<real>
    var xMax: Option<real>
    var yMax: Option<real>
    /** The domain of the horizontal scale. */
    var xDomain: (Option<real>, Option<real>)
    /** The domain of the vertical scale; its lower end is always 0. */
    var yDomain: (real, Option<real>)
    /** The labels whose class is `active`; every other label is `inactive`. */
    var active: set<Key>

    /** The state-machine view of this object. */
    function Snapshot(): Chart
      reads this
    {
      Chart(currentAxisLabelX, currentAxisLabelY, xMin, xMax, yMax, active)
    }

    /** The invariant of reachable charts, with both scale domains in step with the bounds. */
    ghost predicate Valid()
      reads this
    {
      && Inv(rows, Snapshot())
      && xDomain == (xMin, xMax)
      && yDomain == (0.0, yMax)
    }

    /** Loading: default columns, their bounds and domains, and the two default labels active. */
    constructor (rows: seq<Row>)
      ensures this.rows == rows
      ensures Valid()
      ensures Snapshot() == Init(rows)
    {
      this.rows := rows;
      currentAxisLabelX := Poverty;
      currentAxisLabelY := HasHealthcare;
      new;
      FindMinAndMaxX(currentAxisLabelX);
      FindMinAndMaxY(currentAxisLabelY);
      xDomain := (xMin, xMax);
      yDomain := (0.0, yMax);
      active := {HasHealthcare, Poverty};
    }

    /** `findMinAndMax_X`: the horizontal bounds are 0.8 times the column's minimum and 1.1 times its maximum. */
    method FindMinAndMaxX(col: Key)
      modifies this`xMin, this`xMax
      ensures xMin == XMin(rows, col) && xMax == XMax(rows, col)
      ensures xMin == Times(0.8, MinOf(Column(rows, col)))
      ensures xMax == Times(1.1, MaxOf(Column(rows, col)))
    {
      xMin := MinOf(Scaled(Column(rows, col), XMinFactor));
      xMax := MaxOf(Scaled(Column(rows, col), XMaxFactor));
      XBoundsArePaddedExtremes(rows, col);
    }

    /** `findMinAndMax_Y`: the vertical upper bound is 1.1 times the column's maximum. */
    method FindMinAndMaxY(col: Key)
      modifies this`yMax
      ensures yMax == YMax(rows, col)
      ensures yMax == Times(1.1, MaxOf(Column(rows, col)))
    {
      yMax := MaxOf(Scaled(Column(rows, col), YMaxFactor));
      YBoundIsPaddedMaximum(rows, col);
    }

    /** `labelChange`: clears every active label, on both axes, then activates the clicked one. */
    method LabelChange(clicked: Key)
      modifies this`active
      ensures active == Axes.LabelChange(old(active), clicked)
      ensures active == {clicked}
    {
      // `.filter(".active")` selects every active label: all of them turn inactive
      active := active - active;
      active := active + {clicked};
    }

    /** The click handler of the axis labels. */
    method HandleClick(k: Key)
      requires Valid()
      modifies this
      ensures Valid()
      ensures Snapshot() == Click(rows, old(Snapshot()), k)
      ensures k in old(active) ==> Snapshot() == old(Snapshot()) && xDomain == old(xDomain) && yDomain == old(yDomain)
      ensures k !in old(active) && k in YKeys ==> xDomain == old(xDomain)
      ensures k !in old(active) && k !in YKeys ==> yDomain == old(yDomain)
    {
      ghost var before := Snapshot();
      var isClickedSelectionInactive := k !in active;
      if isClickedSelectionInactive {
        if k == Smoker || k == Obese || k == HasHealthcare {
          currentAxisLabelY := k;
          FindMinAndMaxY(currentAxisLabelY);
          yDomain := (0.0, yMax);
          LabelChange(k);
          assert Snapshot() == before.(curY := k, yMax := YMax(rows, k), active := {k});
          assert Snapshot() == Click(rows, before, k);
        } else {
          currentAxisLabelX := k;
          FindMinAndMaxX(currentAxisLabelX);
          xDomain := (xMin, xMax);
          LabelChange(k);
          assert Snapshot() == before.(curX := k, xMin := XMin(rows, k), xMax := XMax(rows, k), active := {k});
          assert Snapshot() == Click(rows, before, k);
        }
      }
    }
  }
}
