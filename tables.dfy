/**
 * The part of Orange's data model the image widgets touch: variables (columns) with
 * a mutable attribute dictionary, rows of meta values and a class value, domains and tables.
 */
module Tables {
  import opened Wrappers

  /**
   * A column definition. Its `attributes` dictionary is the one thing the widgets
   * change in place; every table built on the same domain sees the change.
   */
  class Variable {
    const name: string
    /** The value names of a discrete variable, in order; empty for other kinds. */
    const values: seq<string>
    var attributes: map<string, string>

    constructor (name: string, values: seq<string>, attributes: map<string, string>)
      ensures this.name == name && this.values == values && this.attributes == attributes
    {
      this.name := name;
      this.values := values;
      this.attributes := attributes;
    }
  }

  /** `var.attributes.get(key)`. */
  function Attribute(v: Variable, key: string): Option<string>
    reads v
  {
    if key in v.attributes then Some(v.attributes[key]) else None
  }

  /** `var.attributes.get("type") == "image"`. */
  predicate IsImage(v: Variable)
    reads v
  {
    Attribute(v, "type") == Some("image")
  }

  /** One row: its meta values (the image column holds a path relative to the origin) and its class value. */
  datatype Row = Row(metas: seq<string>, y: seq<real>)

  /**
   * The number of attribute (feature) columns, the meta columns in order, and the value
   * names of a discrete class variable, if there is one. Attribute values are not modelled.
   */
  datatype Domain = Domain(attributeCount: nat, metas: seq<Variable>, classValues: Option<seq<string>>)

  datatype Table = Table(domain: Domain, rows: seq<Row>)

  /** Every row has one meta value per meta column. */
  predicate WellFormed(t: Table) {
    forall r :: r in t.rows ==> |r.metas| == |t.domain.metas|
  }

  /** No variable object occurs twice among the metas of a domain. */
  predicate DistinctVariables(metas: seq<Variable>) {
    forall i, j :: 0 <= i < j < |metas| ==> metas[i] != metas[j]
  }

  /** `metas.index(v)`: the first position holding `v`; None where Python raises ValueError. */
  function IndexOf(metas: seq<Variable>, v: Variable): (r: Option<nat>)
    ensures r.Some? ==> r.value < |metas| && metas[r.value] == v
    ensures r.Some? ==> forall k :: 0 <= k < r.value ==> metas[k] != v
    ensures r.None? <==> v !in metas
  {
    if |metas| == 0 then None
    else if metas[0] == v then Some(0)
    else match IndexOf(metas[1..], v)
      case None => None
      case Some(k) => Some(k + 1)
  }

  /** Every row has a cell in column `col`. */
  predicate HasColumn(rows: seq<Row>, col: nat) {
    forall i :: 0 <= i < |rows| ==> col < |rows[i].metas|
  }

  /** In a well-formed table every row has a cell for every meta column. */
  lemma WellFormedHasColumn(t: Table, col: nat)
    requires WellFormed(t) && col < |t.domain.metas|
    ensures HasColumn(t.rows, col)
  {
    forall i | 0 <= i < |t.rows| ensures col < |t.rows[i].metas| {
      assert t.rows[i] in t.rows;
    }
  }

  /** The meta variables of an optional input table. */
  function MetasOf(table: Option<Table>): seq<Variable> {
    if table.Some? then table.value.domain.metas else []
  }
}
