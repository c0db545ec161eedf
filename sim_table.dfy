/** The simulation table as the visualisation scripts read it: one parsed CSV
    row per (step, body) pair, with the body's coordinates. */
module SimTable {

  /** One row of the `step,body,x,y,z` table. */
  datatype Row = Row(step: nat, body: nat, x: real, y: real, z: real)

  /** One row of a point array: a position as three coordinates. */
  datatype Point = Point(x: real, y: real, z: real)

  /** The `[["x", "y", "z"]]` selection of one row. */
  function Coords(row: Row): Point
  {
    Point(row.x, row.y, row.z)
  }

  /** The coordinate columns of a table as a flat list of points, in file order. */
  function CoordColumns(rows: seq<Row>): (points: seq<Point>)
    ensures |points| == |rows|
    ensures forall i :: 0 <= i < |rows| ==> points[i] == Coords(rows[i])
  {
    seq(|rows|, i requires 0 <= i < |rows| => Coords(rows[i]))
  }
}
