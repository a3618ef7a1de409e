/** `image_table_variables`: finding the image column of a table. */
module ImageTable {
  import opened Wrappers
  import opened Tables
  import opened Paths
  import opened Selection

  /** The text of the exception raised when no meta column is tagged as an image. */
  const NoImageVariable: string := "No variable with type \"image\""

  /** The position of the first image-tagged meta variable, if any. */
  function FirstImageIndex(metas: seq<Variable>): (r: Option<nat>)
    reads metas
    ensures r.Some? ==> r.value < |metas| && IsImage(metas[r.value])
    ensures r.Some? ==> forall k :: 0 <= k < r.value ==> !IsImage(metas[k])
    ensures r.None? <==> forall k :: 0 <= k < |metas| ==> !IsImage(metas[k])
  {
    if |metas| == 0 then None
    else if IsImage(metas[0]) then Some(0)
    else match FirstImageIndex(metas[1..])
      case None => None
      case Some(k) => Some(k + 1)
  }

  /**
   * `image_table_variables(data)`: walks the meta variables in order and stops at the
   * first image-tagged one; returns its `origin` attribute (possibly absent) and its
   * position, or raises when no meta variable is tagged. Reads only.
   */
  method ImageTableVariables(data: Table) returns (r: Result<(Option<string>, nat)>)
    ensures r.Err? <==> forall k :: 0 <= k < |data.domain.metas| ==> !IsImage(data.domain.metas[k])
    ensures r.Err? ==> r.msg == NoImageVariable
    ensures r.Ok? ==> r.value.1 < |data.domain.metas| && IsImage(data.domain.metas[r.value.1])
    ensures r.Ok? ==> forall k :: 0 <= k < r.value.1 ==> !IsImage(data.domain.metas[k])
    ensures r.Ok? ==> r.value.0 == Attribute(data.domain.metas[r.value.1], "origin")
    ensures r.Ok? <==> FirstImageIndex(data.domain.metas).Some?
    ensures r.Ok? ==> FirstImageIndex(data.domain.metas) == Some(r.value.1)
  {
    var metas := data.domain.metas;
    var imageCol: Option<Variable> := None;
    var origin: Option<string> := None;
    var i := 0;
    while i < |metas|
      invariant 0 <= i <= |metas|
      invariant forall k :: 0 <= k < i ==> !IsImage(metas[k])
      invariant imageCol.None? && origin.None?
    {
      if IsImage(metas[i]) {
        imageCol := Some(metas[i]);
        origin := Attribute(metas[i], "origin");
        break;
      }
      i := i + 1;
    }
    if imageCol.None? {
      return Err(NoImageVariable);
    }
    var index := IndexOf(metas, imageCol.value);
    // the first position holding the found variable is the loop's own position
    assert index == Some(i);
    r := Ok((origin, index.value));
  }

  /** For each row, whether its image file exists (`os.path.exists`) under `origin`. */
  function Present(rows: seq<Row>, col: nat, origin: string, onDisk: string -> bool): (r: seq<bool>)
    requires HasColumn(rows, col)
    ensures |r| == |rows|
  {
    seq(|rows|, i requires 0 <= i < |rows| => onDisk(Join(origin, rows[i].metas[col])))
  }

  /** The rows a worker processes are exactly those whose file exists, in table order. */
  lemma PresentPositions(rows: seq<Row>, col: nat, origin: string, onDisk: string -> bool, i: nat)
    requires HasColumn(rows, col)
    ensures i in Positions(Present(rows, col, origin, onDisk)) <==>
      i < |rows| && onDisk(Join(origin, rows[i].metas[col]))
    ensures Increasing(Positions(Present(rows, col, origin, onDisk)))
  {
    PositionsMembers(Present(rows, col, origin, onDisk), i);
    PositionsIncreasing(Present(rows, col, origin, onDisk));
  }

  /**
   * For each row, whether its file exists but `cv2.imread` cannot decode it and
   * returns None; `decodes` says which paths decode.
   */
  function Unreadable(rows: seq<Row>, col: nat, origin: string, onDisk: string -> bool,
                      decodes: string -> bool): (r: seq<bool>)
    requires HasColumn(rows, col)
    ensures |r| == |rows|
  {
    seq(|rows|, i requires 0 <= i < |rows| =>
      onDisk(Join(origin, rows[i].metas[col])) && !decodes(Join(origin, rows[i].metas[col])))
  }

  /**
   * A worker stops at the first row whose file exists and does not decode, and every
   * row before it whose file exists decodes.
   */
  lemma UnreadableStop(rows: seq<Row>, col: nat, origin: string, onDisk: string -> bool,
                       decodes: string -> bool)
    requires HasColumn(rows, col)
    ensures var stop := StopAt(Unreadable(rows, col, origin, onDisk, decodes));
      (stop < |rows| ==> onDisk(Join(origin, rows[stop].metas[col])) && !decodes(Join(origin, rows[stop].metas[col]))) &&
      forall k :: 0 <= k < stop && onDisk(Join(origin, rows[k].metas[col])) ==> decodes(Join(origin, rows[k].metas[col]))
  {
    var u := Unreadable(rows, col, origin, onDisk, decodes);
    var stop := StopAt(u);
    if stop < |rows| {
      assert u[stop];
    }
    forall k | 0 <= k < stop && onDisk(Join(origin, rows[k].metas[col]))
      ensures decodes(Join(origin, rows[k].metas[col]))
    {
      assert !u[k];
    }
  }

  /** The origin of the first image column, as the workers read it. */
  function FirstOrigin(data: Option<Table>): Option<string>
    reads MetasOf(data)
  {
    match FirstImageIndex(MetasOf(data))
    case Some(k) => Attribute(MetasOf(data)[k], "origin")
    case None => None
  }

}
