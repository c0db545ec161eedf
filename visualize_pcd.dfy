/** The point-cloud viewer: selecting one frame of the table, and the
    optional in-place axis flip applied before plotting. */
module VisualizePcd {
  import opened SimTable

  // ---------------------------------------------------------------------------
  // Frame selection

  /** The coordinates of the rows whose step is `frameIdx`, in file order. */
  function FramePoints(rows: seq<Row>, frameIdx: int): (points: seq<Point>)
    ensures |points| <= |rows|
    ensures forall p :: p in points <==>
      exists i :: 0 <= i < |rows| && rows[i].step == frameIdx && Coords(rows[i]) == p
  {
    if |rows| == 0 then []
    else
      var rest := FramePoints(rows[1..], frameIdx);
      assert forall i :: 1 <= i < |rows| ==> rows[1..][i - 1] == rows[i];
      (if rows[0].step == frameIdx then [Coords(rows[0])] else []) + rest
  }

  /** Selection distributes over concatenation of tables, so it keeps the
      file order of the rows it keeps. */
  lemma {:induction false} FramePointsAppend(a: seq<Row>, b: seq<Row>, frameIdx: int)
    ensures FramePoints(a + b, frameIdx) == FramePoints(a, frameIdx) + FramePoints(b, frameIdx)
  {
    if |a| > 0 {
      assert (a + b)[1..] == a[1..] + b;
      FramePointsAppend(a[1..], b, frameIdx);
    } else {
      assert a + b == b;
    }
  }

  /** A single row is kept, as its coordinates, exactly when its step matches. */
  lemma FramePointsSingle(row: Row, frameIdx: int)
    ensures FramePoints([row], frameIdx) == if row.step == frameIdx then [Coords(row)] else []
  {
    assert [row][1..] == [];
  }

  /** A frame index that no row carries gives an empty point array, not an error. */
  lemma {:induction false} FramePointsNoMatch(rows: seq<Row>, frameIdx: int)
    requires forall i :: 0 <= i < |rows| ==> rows[i].step != frameIdx
    ensures FramePoints(rows, frameIdx) == []
  {
    if |rows| > 0 {
      FramePointsNoMatch(rows[1..], frameIdx);
    }
  }

  /** When every row belongs to the frame, the result is the whole coordinate
      column, unchanged and in order. */
  lemma {:induction false} FramePointsAllMatch(rows: seq<Row>, frameIdx: int)
    requires forall i :: 0 <= i < |rows| ==> rows[i].step == frameIdx
    ensures FramePoints(rows, frameIdx) == CoordColumns(rows)
  {
    if |rows| > 0 {
      FramePointsAllMatch(rows[1..], frameIdx);
      assert CoordColumns(rows) == [Coords(rows[0])] + CoordColumns(rows[1..]);
    }
  }

  // ---------------------------------------------------------------------------
  // Axis flip

  /** The flip of one point: z is negated, then the y and z columns swap. */
  function Flip(p: Point): Point
  {
    Point(p.x, -p.z, p.y)
  }

  /** The opposite quarter turn about the x axis. */
  function Unflip(p: Point): Point
  {
    Point(p.x, p.z, -p.y)
  }

  /** `Unflip` undoes `Flip` and the other way round. */
  lemma FlipInverse(p: Point)
    ensures Unflip(Flip(p)) == p && Flip(Unflip(p)) == p
  {
  }

  /** The flip is a quarter turn about the x axis: four of them are the identity,
      two of them negate y and z. */
  lemma FlipQuarterTurn(p: Point)
    ensures Flip(Flip(p)) == Point(p.x, -p.y, -p.z)
    ensures Flip(Flip(Flip(Flip(p)))) == p
  {
  }

  /** (1, 2, 3) becomes (1, -3, 2). */
  lemma FlipExample()
    ensures Flip(Point(1.0, 2.0, 3.0)) == Point(1.0, -3.0, 2.0)
  {
  }

  /** Every point flipped independently, count and order kept. */
  function FlipAll(points: seq<Point>): (flipped: seq<Point>)
    ensures |flipped| == |points|
    ensures forall i :: 0 <= i < |points| ==> flipped[i] == Flip(points[i])
  {
    seq(|points|, i requires 0 <= i < |points| => Flip(points[i]))
  }

  /** The rows of an (N, 3) point array. */
  function Rows(a: array2<real>): (points: seq<Point>)
    requires a.Length1 == 3
    reads a
    ensures |points| == a.Length0
  {
    seq(a.Length0, i requires 0 <= i < a.Length0 reads a => Point(a[i, 0], a[i, 1], a[i, 2]))
  }

  /** The flip as the two column assignments do it, in place: first the z
      column is negated, then columns (0, 1, 2) are overwritten with a copy of
      columns (0, 2, 1). */
  method FlipAxes(pointCloud: array2<real>)
    requires pointCloud.Length1 == 3
    modifies pointCloud
    ensures Rows(pointCloud) == FlipAll(old(Rows(pointCloud)))
  {
    var n := pointCloud.Length0;

    var i := 0;
    while i < n
      invariant 0 <= i <= n
      invariant forall j, c :: 0 <= j < n && 0 <= c < 2 ==> pointCloud[j, c] == old(pointCloud[j, c])
      invariant forall j :: 0 <= j < i ==> pointCloud[j, 2] == -old(pointCloud[j, 2])
      invariant forall j :: i <= j < n ==> pointCloud[j, 2] == old(pointCloud[j, 2])
    {
      pointCloud[i, 2] := pointCloud[i, 2] * -1.0;
      i := i + 1;
    }

    i := 0;
    while i < n
      invariant 0 <= i <= n
      invariant forall j :: 0 <= j < i ==>
        pointCloud[j, 0] == old(pointCloud[j, 0]) &&
        pointCloud[j, 1] == -old(pointCloud[j, 2]) &&
        pointCloud[j, 2] == old(pointCloud[j, 1])
      invariant forall j :: i <= j < n ==>
        pointCloud[j, 0] == old(pointCloud[j, 0]) &&
        pointCloud[j, 1] == old(pointCloud[j, 1]) &&
        pointCloud[j, 2] == -old(pointCloud[j, 2])
    {
      pointCloud[i, 0], pointCloud[i, 1], pointCloud[i, 2] := pointCloud[i, 0], pointCloud[i, 2], pointCloud[i, 1];
      i := i + 1;
    }
  }

  /** `visualize_pointcloud`: optionally flips the caller's array in place and
      hands its rows to the plot. Without the flip the array is left as it was. */
  method VisualizePointcloud(pointCloud: array2<real>, flipAxes: bool) returns (positions: seq<Point>)
    requires pointCloud.Length1 == 3
    modifies pointCloud
    ensures positions == Rows(pointCloud)
    ensures positions == if flipAxes then FlipAll(old(Rows(pointCloud))) else old(Rows(pointCloud))
    ensures !flipAxes ==> unchanged(pointCloud)
  {
    if flipAxes {
      FlipAxes(pointCloud);
    }
    positions := Rows(pointCloud);
  }

  /** `visualize_sim_frame`: selects one frame into a fresh point array and
      plots it with the default settings (no flip). */
  method VisualizeSimFrame(rows: seq<Row>, frameIdx: int) returns (positions: seq<Point>)
    ensures positions == FramePoints(rows, frameIdx)
  {
    var frame := FramePoints(rows, frameIdx);
    var points := new real[|frame|, 3]((i, c) requires 0 <= i < |frame| && 0 <= c < 3 =>
      if c == 0 then frame[i].x else if c == 1 then frame[i].y else frame[i].z);
    assert forall i :: 0 <= i < |frame| ==> Rows(points)[i] == frame[i];
    positions := VisualizePointcloud(points, false);
  }
}
