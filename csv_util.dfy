/** `csv_to_pcd`: the table's coordinate columns reshaped into a
    `[step][body][axis]` tensor. */
module CsvUtil {
  import opened SimTable

  /** How the reshape fails: `max` of an empty column, or a row count that is
      not the product of the two dimensions. */
  datatype ReshapeError = EmptyTable | ShapeMismatch(rows: nat, steps: nat, bodies: nat)

  datatype Result<T> = Ok(value: T) | Err(error: ReshapeError)

  /** The `[step][body]` grid of points; the innermost axis is the three
      fields of `Point`. */
  type Tensor = seq<seq<Point>>

  /** `max` of a non-empty column. */
  function MaxOf(xs: seq<nat>): (m: nat)
    requires |xs| > 0
    ensures forall i :: 0 <= i < |xs| ==> xs[i] <= m
    ensures exists i :: 0 <= i < |xs| && xs[i] == m
  {
    if |xs| == 1 then xs[0]
    else
      var rest := MaxOf(xs[1..]);
      assert forall i :: 1 <= i < |xs| ==> xs[1..][i - 1] == xs[i];
      if xs[0] >= rest then xs[0] else rest
  }

  function StepColumn(rows: seq<Row>): seq<nat>
  {
    seq(|rows|, i requires 0 <= i < |rows| => rows[i].step)
  }

  function BodyColumn(rows: seq<Row>): seq<nat>
  {
    seq(|rows|, i requires 0 <= i < |rows| => rows[i].body)
  }

  /** Row-major reshape of a flat list into `steps` consecutive chunks of
      `bodies` points each. */
  function Reshape(flat: seq<Point>, steps: nat, bodies: nat): (t: Tensor)
    requires |flat| == steps * bodies
    ensures |t| == steps
    ensures forall s :: 0 <= s < steps ==> |t[s]| == bodies
    decreases steps
  {
    if steps == 0 then []
    else
      assert |flat| == (steps - 1) * bodies + bodies;
      [flat[..bodies]] + Reshape(flat[bodies..], steps - 1, bodies)
  }

  /** Row-major flattening, the inverse of the reshape. */
  function Flatten(t: Tensor): seq<Point>
  {
    if |t| == 0 then [] else t[0] + Flatten(t[1..])
  }

  /** Flattening a reshaped list gives the list back. */
  lemma {:induction false} FlattenReshape(flat: seq<Point>, steps: nat, bodies: nat)
    requires |flat| == steps * bodies
    ensures Flatten(Reshape(flat, steps, bodies)) == flat
    decreases steps
  {
    if steps > 0 {
      assert |flat| == (steps - 1) * bodies + bodies;
      FlattenReshape(flat[bodies..], steps - 1, bodies);
      assert flat[..bodies] + flat[bodies..] == flat;
    }
  }

  /** Position `s * bodies + b` of a row-major layout: one chunk further on
      for every step. */
  lemma RowMajorOffset(steps: nat, bodies: nat, s: nat, b: nat)
    requires 0 < s < steps && b < bodies
    ensures s * bodies == (s - 1) * bodies + bodies
    ensures s * bodies + b < steps * bodies
  {
    assert s * bodies + b < s * bodies + bodies == (s + 1) * bodies;
    assert (s + 1) * bodies <= steps * bodies;
  }

  /** Entry `[s][b]` of the reshape is element `s * bodies + b` of the list. */
  lemma {:induction false} ReshapeAt(flat: seq<Point>, steps: nat, bodies: nat, s: nat, b: nat)
    requires |flat| == steps * bodies
    requires s < steps && b < bodies
    ensures s * bodies + b < |flat|
    ensures Reshape(flat, steps, bodies)[s][b] == flat[s * bodies + b]
    decreases steps
  {
    assert |flat| == (steps - 1) * bodies + bodies;
    var t := Reshape(flat, steps, bodies);
    var rest := Reshape(flat[bodies..], steps - 1, bodies);
    assert t == [flat[..bodies]] + rest;
    if s == 0 {
      assert t[0] == flat[..bodies];
    } else {
      RowMajorOffset(steps, bodies, s, b);
      ReshapeAt(flat[bodies..], steps - 1, bodies, s - 1, b);
      assert t[s] == rest[s - 1];
      assert rest[s - 1][b] == flat[bodies..][(s - 1) * bodies + b];
    }
  }

  /** `csv_to_pcd` on an already parsed table. */
  function CsvToPcd(rows: seq<Row>): (r: Result<Tensor>)
    ensures r == Err(EmptyTable) <==> |rows| == 0
    ensures r.Ok? <==>
      |rows| > 0 && |rows| == (MaxOf(StepColumn(rows)) + 1) * (MaxOf(BodyColumn(rows)) + 1)
    ensures r.Ok? ==>
      |r.value| == MaxOf(StepColumn(rows)) + 1 &&
      forall s :: 0 <= s < |r.value| ==> |r.value[s]| == MaxOf(BodyColumn(rows)) + 1
  {
    if |rows| == 0 then Err(EmptyTable)
    else
      var steps := MaxOf(StepColumn(rows)) + 1;
      var bodies := MaxOf(BodyColumn(rows)) + 1;
      if |rows| != steps * bodies then Err(ShapeMismatch(|rows|, steps, bodies))
      else Ok(Reshape(CoordColumns(rows), steps, bodies))
  }

  /** Reading the tensor back in row-major order gives the coordinate columns
      in file order: nothing is sorted, dropped or altered. */
  lemma CsvToPcdFlattens(rows: seq<Row>)
    requires CsvToPcd(rows).Ok?
    ensures Flatten(CsvToPcd(rows).value) == CoordColumns(rows)
  {
    FlattenReshape(CoordColumns(rows), MaxOf(StepColumn(rows)) + 1, MaxOf(BodyColumn(rows)) + 1);
  }

  /** With B bodies, entry `[s][b]` holds the coordinates of the row at file
      position `s * B + b`, whatever its step and body columns say. */
  lemma CsvToPcdAt(rows: seq<Row>, t: Tensor, s: nat, b: nat)
    requires CsvToPcd(rows) == Ok(t)
    requires s < |t| && b < |t[s]|
    ensures var bodies := |t[s]|;
      s * bodies + b < |rows| && t[s][b] == Coords(rows[s * bodies + b])
  {
    var steps, bodies := |t|, |t[s]|;
    var flat := CoordColumns(rows);
    assert t == Reshape(flat, steps, bodies) && |flat| == steps * bodies;
    ReshapeAt(flat, steps, bodies, s, b);
  }

  /** Euclidean division, stated on its own so that the grid lemma below does
      not have to find it among its other facts. */
  lemma DivModSplit(k: nat, bodies: nat)
    requires bodies > 0
    ensures k == (k / bodies) * bodies + k % bodies
  {
  }

  /** For a table laid out step-major and body-minor, entry `[s][b]` holds the
      coordinates of the row whose step is `s` and whose body is `b`. */
  lemma CsvToPcdGrid(rows: seq<Row>, k: nat)
    requires CsvToPcd(rows).Ok?
    requires forall i :: 0 <= i < |rows| ==>
      rows[i].step == i / (MaxOf(BodyColumn(rows)) + 1) && rows[i].body == i % (MaxOf(BodyColumn(rows)) + 1)
    requires k < |rows|
    ensures var t := CsvToPcd(rows).value;
      rows[k].step < |t| && rows[k].body < |t[rows[k].step]| &&
      t[rows[k].step][rows[k].body] == Coords(rows[k])
  {
    var bodies := MaxOf(BodyColumn(rows)) + 1;
    var s, b := rows[k].step, rows[k].body;
    var t := CsvToPcd(rows).value;
    DivModSplit(k, bodies);
    assert StepColumn(rows)[k] == s;
    CsvToPcdAt(rows, t, s, b);
  }
}
