/**
 * The tooltip text of a mark: the state's name, then one line for the
 * horizontal column and one for the vertical column, each introduced by a
 * prefix chosen from the current keys.  How a number is turned into text is
 * the parameter `show`.
 */
module Tooltip {
  import opened Columns
  import opened Axes

  /**
   * The horizontal prefix, chosen by the same chain of tests as the tooltip
   * callback; a key none of the tests matches leaves the prefix `undefined`,
   * which string concatenation renders as the text "undefined".
   */
  function PrefixX(k: Key): (p: string)
    ensures k in XKeys ==> p == Describe(k).prefix
    ensures k !in XKeys ==> p == "undefined"
  {
    if k == Poverty then "Poverty: "
    else if k == AgeMed then "Age: "
    else if k == HhIncomeMed then "Income:"
    else "undefined"
  }

  /** The vertical prefix, chosen the same way among the vertical keys. */
  function PrefixY(k: Key): (p: string)
    ensures k in YKeys ==> p == Describe(k).prefix
    ensures k !in YKeys ==> p == "undefined"
  {
    if k == HasHealthcare then "Lacks Healthcare: "
    else if k == Smoker then "Smoker: "
    else if k == Obese then "Obese: "
    else "undefined"
  }

  /** The text the registry gives for a row under a pair of keys. */
  function Described(row: Row, curX: Key, curY: Key, show: real -> string): string {
    "<strong>" + row.state + "</strong><br>" +
    Describe(curX).prefix + show(Value(row, curX)) + "<br>" +
    Describe(curY).prefix + show(Value(row, curY))
  }

  /**
   * The tooltip's HTML for `row` under the current keys `curX` and `curY`;
   * with each key in its own group it is the registry's description.
   */
  function Html(row: Row, curX: Key, curY: Key, show: real -> string): (html: string)
    ensures curX in XKeys && curY in YKeys ==> html == Described(row, curX, curY, show)
  {
    "<strong>" + row.state + "</strong><br>" +
    PrefixX(curX) + show(Value(row, curX)) + "<br>" +
    PrefixY(curY) + show(Value(row, curY))
  }

  /**
   * In every reachable chart the tooltip introduces both values with the
   * registry's prefixes of the current columns: never "undefined" and never
   * the prefix of a column no longer shown.
   */
  lemma ReachedTooltipMatchesRegistry(rows: seq<Row>, clicks: seq<Key>, row: Row, show: real -> string)
    ensures var c := Reached(rows, clicks);
            Html(row, c.curX, c.curY, show) == Described(row, c.curX, c.curY, show)
  {
    ReachedKeysStayInGroups(rows, clicks);
  }

  /**
   * After a successful click on a vertical label, the tooltip's second line
   * shows that label's prefix and value while the first line is unchanged;
   * symmetrically for a horizontal label.
   */
  lemma TooltipFollowsSwitch(rows: seq<Row>, c: Chart, k: Key, row: Row, show: real -> string)
    requires Inv(rows, c)
    requires k !in c.active
    ensures var d := Click(rows, c, k);
            Html(row, d.curX, d.curY, show) ==
              if k in YKeys then Described(row, c.curX, k, show)
              else Described(row, k, c.curY, show)
  {
    GroupsPartitionKeys(k);
  }
}
