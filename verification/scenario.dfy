/** A two-state dataset worked through loading, one vertical switch and a repeated click. */
module Scenario {
  import opened Wrappers
  import opened Columns
  import opened Domain
  import opened Axes
  import opened Tooltip

  const Alabama: Row := Row("Alabama", "AL", 18.5, 11.6, 23.5, 35.6, 43623.0, 38.3)
  const Alaska: Row := Row("Alaska", "AK", 10.8, 14.6, 22.6, 32.1, 73355.0, 33.6)
  const TwoStates: seq<Row> := [Alabama, Alaska]

  /** After loading: horizontal domain [8.64, 20.35], vertical domain [0, 16.06]. */
  lemma TwoStatesInitialDomains()
    ensures Init(TwoStates).xMin == Some(8.64)
    ensures Init(TwoStates).xMax == Some(20.35)
    ensures Init(TwoStates).yMax == Some(16.06)
  {
    var pov := Column(TwoStates, Poverty);
    assert pov == [18.5, 10.8];
    assert pov[..1] == [18.5];
    assert MinOf(pov) == Some(10.8);
    assert MaxOf(pov) == Some(18.5);
    XBoundsArePaddedExtremes(TwoStates, Poverty);
    TimesSome(0.8, MinOf(pov), 10.8);
    TimesSome(1.1, MaxOf(pov), 18.5);

    var care := Column(TwoStates, HasHealthcare);
    assert care == [11.6, 14.6];
    assert care[..1] == [11.6];
    assert MaxOf(care) == Some(14.6);
    YBoundIsPaddedMaximum(TwoStates, HasHealthcare);
    TimesSome(1.1, MaxOf(care), 14.6);
  }

  /** The vertical upper bound of the obesity column is 39.16. */
  lemma TwoStatesObeseBound()
    ensures YMax(TwoStates, Obese) == Some(39.16)
  {
    var obese := Column(TwoStates, Obese);
    assert obese == [35.6, 32.1];
    assert obese[..1] == [35.6];
    assert MaxOf(obese) == Some(35.6);
    YBoundIsPaddedMaximum(TwoStates, Obese);
    TimesSome(1.1, MaxOf(obese), 35.6);
  }

  /** The chart after clicking the "obese" label once. */
  function AfterObese(): Chart {
    Click(TwoStates, Init(TwoStates), Obese)
  }

  /**
   * Clicking "obese" makes obesity the vertical column with domain [0, 39.16],
   * keeps the horizontal column and domain, and leaves "obese" the only
   * active label.
   */
  lemma TwoStatesClickObese()
    ensures AfterObese().curY == Obese && AfterObese().yMax == Some(39.16)
    ensures AfterObese().curX == Poverty
    ensures AfterObese().xMin == Some(8.64) && AfterObese().xMax == Some(20.35)
    ensures AfterObese().active == {Obese}
  {
    TwoStatesInitialDomains();
    TwoStatesObeseBound();
    assert Obese !in Init(TwoStates).active;
  }

  /** After that click Alabama's mark and tooltip use its obesity rate of 35.6. */
  lemma TwoStatesAlabamaAfterObese(show: real -> string)
    ensures Mark(Alabama, AfterObese()) == (18.5, 35.6)
    ensures Html(Alabama, AfterObese().curX, AfterObese().curY, show) ==
              "<strong>" + "Alabama" + "</strong><br>" +
              "Poverty: " + show(18.5) + "<br>" +
              "Obese: " + show(35.6)
  {
    TwoStatesClickObese();
    var d := AfterObese();
    assert PrefixX(d.curX) == "Poverty: " && PrefixY(d.curY) == "Obese: ";
    assert Value(Alabama, d.curX) == 18.5 && Value(Alabama, d.curY) == 35.6;
  }

  /** A second click on "obese" changes nothing. */
  lemma TwoStatesClickObeseTwice()
    ensures Click(TwoStates, AfterObese(), Obese) == AfterObese()
  {
    TwoStatesClickObese();
  }
}
