/**
 * The dataset rows and the six data columns the axis labels can select.
 * Rows arrive already typed: the CSV parsing and `+` coercion of the
 * loader are not part of this model.
 */
module Columns {

  /** One row per US state. */
  datatype Row = Row(
    state: string,
    abbreviation: string,
    poverty: real,
    hasHealthcare: real,
    smoker: real,
    obese: real,
    hhIncomeMed: real,
    ageMed: real)

  /** The `data-axis-name` of each of the six axis labels. */
  datatype Key = Poverty | AgeMed | HhIncomeMed | HasHealthcare | Smoker | Obese

  datatype Axis = X | Y

  const AllKeys: set<Key> := {Poverty, AgeMed, HhIncomeMed, HasHealthcare, Smoker, Obese}
  const XKeys: set<Key> := {Poverty, AgeMed, HhIncomeMed}
  const YKeys: set<Key> := {HasHealthcare, Smoker, Obese}

  /** The click handler's routing test: these three keys drive the vertical axis. */
  predicate IsYKey(k: Key) {
    k == Smoker || k == Obese || k == HasHealthcare
  }

  /** Typed accessor standing for `data[key]`. */
  function Value(row: Row, k: Key): real {
    match k
    case Poverty => row.poverty
    case AgeMed => row.ageMed
    case HhIncomeMed => row.hhIncomeMed
    case HasHealthcare => row.hasHealthcare
    case Smoker => row.smoker
    case Obese => row.obese
  }

  /** The values of one column, in row order. */
  function Column(rows: seq<Row>, k: Key): (c: seq<real>)
    ensures |c| == |rows|
    ensures forall i :: 0 <= i < |rows| ==> c[i] == Value(rows[i], k)
  {
    seq(|rows|, i requires 0 <= i < |rows| => Value(rows[i], k))
  }

  /** Static description of a column: its axis and its tooltip prefix. */
  datatype Descriptor = Descriptor(axis: Axis, prefix: string)

  /** The registry of the six labels: the axis each is drawn on and its tooltip prefix. */
  function Describe(k: Key): (d: Descriptor)
    ensures d.axis == Y <==> k in YKeys
    ensures d.axis == X <==> k in XKeys
  {
    match k
    case HasHealthcare => Descriptor(Y, "Lacks Healthcare: ")
    case Smoker => Descriptor(Y, "Smoker: ")
    case Obese => Descriptor(Y, "Obese: ")
    case Poverty => Descriptor(X, "Poverty: ")
    case AgeMed => Descriptor(X, "Age: ")
    case HhIncomeMed => Descriptor(X, "Income:")
  }

  /** The groups partition the six keys, and the routing test picks exactly the Y group. */
  lemma GroupsPartitionKeys(k: Key)
    ensures k in AllKeys
    ensures k in XKeys <==> k !in YKeys
    ensures IsYKey(k) <==> k in YKeys
  {
  }
}
