/** The geometry of the Barnes-Hut octree: the node record, the choice of
    octant for a point, and the bounding cube of the root. */
module Octree {
  import opened Vectors
  import opened Regions

  /** A simulated body. Only `position` is read by the operations below. */
  datatype Body = Body(mass: real, position: Vec3, velocity: Vec3, force: Vec3)

  datatype Option<T> = None | Some(value: T)

  // ---------------------------------------------------------------------------
  // Octant selection

  function Bit(b: bool): int
  {
    if b then 1 else 0
  }

  /** The octant of `region` that `point` falls in. A coordinate equal to the
      center's counts as right, top or front. */
  function GetChildIndex(region: Region, point: Vec3): (index: int)
    ensures index == Bit(point.x >= region.center.x)
                     + 2 * Bit(point.y >= region.center.y)
                     + 4 * Bit(point.z >= region.center.z)
  {
    var right := point.x >= region.center.x;
    var top := point.y >= region.center.y;
    var front := point.z >= region.center.z;
    if !right && !top && !front then 0
    else if right && !top && !front then 1
    else if !right && top && !front then 2
    else if right && top && !front then 3
    else if !right && !top && front then 4
    else if right && !top && front then 5
    else if !right && top && front then 6
    else 7
  }

  /** The octant chosen for a point of the region contains that point: octant
      selection and `ChildRegion` follow the same numbering. */
  lemma ChildIndexContainsPoint(region: Region, point: Vec3)
    requires Contains(region, point)
    ensures Contains(ChildRegion(region, GetChildIndex(region, point)), point)
  {
  }

  /** Off the three mid-planes, the chosen octant is the only one containing
      the point. */
  lemma ChildIndexUnique(region: Region, point: Vec3, index: int)
    requires 0 <= index < 8
    requires point.x != region.center.x && point.y != region.center.y && point.z != region.center.z
    requires Contains(ChildRegion(region, index), point)
    ensures GetChildIndex(region, point) == index
  {
  }

  // ---------------------------------------------------------------------------
  // Root bounding cube

  /** A double as the min/max sweep sees it, including the two infinities it
      starts from. */
  datatype Extended = NegInfinity | Finite(value: real) | PosInfinity

  /** `v < e` */
  predicate Below(v: real, e: Extended)
  {
    match e
    case NegInfinity => false
    case Finite(w) => v < w
    case PosInfinity => true
  }

  /** `v > e` */
  predicate Above(v: real, e: Extended)
  {
    match e
    case NegInfinity => true
    case Finite(w) => v > w
    case PosInfinity => false
  }

  /** The smallest coordinate along `a` over a non-empty list of bodies. */
  function MinCoord(bodies: seq<Body>, a: Axis): (m: real)
    requires |bodies| > 0
    ensures forall k :: 0 <= k < |bodies| ==> m <= Component(bodies[k].position, a)
    ensures exists k :: 0 <= k < |bodies| && m == Component(bodies[k].position, a)
  {
    var n := |bodies|;
    var v := Component(bodies[n - 1].position, a);
    if n == 1 then v
    else
      var prefix := bodies[..n - 1];
      var m := MinCoord(prefix, a);
      assert forall k :: 0 <= k < n - 1 ==> prefix[k] == bodies[k];
      if v < m then v else m
  }

  /** The largest coordinate along `a` over a non-empty list of bodies. */
  function MaxCoord(bodies: seq<Body>, a: Axis): (m: real)
    requires |bodies| > 0
    ensures forall k :: 0 <= k < |bodies| ==> m >= Component(bodies[k].position, a)
    ensures exists k :: 0 <= k < |bodies| && m == Component(bodies[k].position, a)
  {
    var n := |bodies|;
    var v := Component(bodies[n - 1].position, a);
    if n == 1 then v
    else
      var prefix := bodies[..n - 1];
      var m := MaxCoord(prefix, a);
      assert forall k :: 0 <= k < n - 1 ==> prefix[k] == bodies[k];
      if v > m then v else m
  }

  /** `std::max` of three values. */
  function Max3(a: real, b: real, c: real): (m: real)
    ensures m >= a && m >= b && m >= c
    ensures m == a || m == b || m == c
  {
    if a >= b && a >= c then a else if b >= c then b else c
  }

  function Span(bodies: seq<Body>, a: Axis): real
    requires |bodies| > 0
  {
    MaxCoord(bodies, a) - MinCoord(bodies, a)
  }

  /** The largest per-axis extent of the bodies. */
  function MaxSpan(bodies: seq<Body>): real
    requires |bodies| > 0
  {
    Max3(Span(bodies, X), Span(bodies, Y), Span(bodies, Z))
  }

  /** The root cube: centred on the per-axis midpoint of the extreme
      coordinates, with half the largest span as half-size, or 0.5 when all
      bodies share one position. */
  function RootRegion(bodies: seq<Body>): Region
    requires |bodies| > 0
  {
    var center := Vec3(0.5 * (MinCoord(bodies, X) + MaxCoord(bodies, X)),
                       0.5 * (MinCoord(bodies, Y) + MaxCoord(bodies, Y)),
                       0.5 * (MinCoord(bodies, Z) + MaxCoord(bodies, Z)));
    var maxSpan := if MaxSpan(bodies) == 0.0 then 1.0 else MaxSpan(bodies);
    Region(center, 0.5 * maxSpan)
  }

  /** The root cube contains every body and has positive size. */
  lemma RootRegionContainsAll(bodies: seq<Body>)
    requires |bodies| > 0
    ensures RootRegion(bodies).halfSize > 0.0
    ensures forall k :: 0 <= k < |bodies| ==> Contains(RootRegion(bodies), bodies[k].position)
  {
  }

  /** No smaller cube about the same center contains every body, unless all
      bodies coincide (then the size is the fallback 0.5). */
  lemma RootRegionTight(bodies: seq<Body>, h: real)
    requires |bodies| > 0
    requires MaxSpan(bodies) > 0.0
    requires h < RootRegion(bodies).halfSize
    ensures exists k :: 0 <= k < |bodies| && !Contains(Region(RootRegion(bodies).center, h), bodies[k].position)
  {
  }

  /** When every body sits at one point, the root cube is centred on it with
      half-size 0.5. */
  lemma RootRegionCoincident(bodies: seq<Body>)
    requires |bodies| > 0
    requires forall k :: 0 <= k < |bodies| ==> bodies[k].position == bodies[0].position
    ensures RootRegion(bodies) == Region(bodies[0].position, 0.5)
  {
  }

  /** The running minimum of the sweep after the given bodies: plus infinity
      before any body. */
  function RunningMin(bodies: seq<Body>, a: Axis): Extended
  {
    if |bodies| == 0 then PosInfinity else Finite(MinCoord(bodies, a))
  }

  /** The running maximum of the sweep after the given bodies: minus infinity
      before any body. */
  function RunningMax(bodies: seq<Body>, a: Axis): Extended
  {
    if |bodies| == 0 then NegInfinity else Finite(MaxCoord(bodies, a))
  }

  /** One more body moves a running extreme exactly when it lies strictly
      beyond it, which is the sweep's update. */
  lemma RunningStep(bodies: seq<Body>, i: nat, a: Axis)
    requires i < |bodies|
    ensures var v := Component(bodies[i].position, a);
      RunningMin(bodies[..i + 1], a) == (if Below(v, RunningMin(bodies[..i], a)) then Finite(v) else RunningMin(bodies[..i], a)) &&
      RunningMax(bodies[..i + 1], a) == (if Above(v, RunningMax(bodies[..i], a)) then Finite(v) else RunningMax(bodies[..i], a))
  {
    assert bodies[..i + 1][..i] == bodies[..i];
  }

  /** `computeRootRegion`: a sweep keeping six running extremes that start at
      plus and minus infinity, then the center and the half-size. The list is
      read only. An empty list leaves the extremes infinite, so it is excluded. */
  method ComputeRootRegion(bodies: seq<Body>) returns (r: Region)
    requires |bodies| > 0
    ensures r == RootRegion(bodies)
    ensures r.halfSize > 0.0
    ensures forall k :: 0 <= k < |bodies| ==> Contains(r, bodies[k].position)
  {
    var minX, minY, minZ := PosInfinity, PosInfinity, PosInfinity;
    var maxX, maxY, maxZ := NegInfinity, NegInfinity, NegInfinity;

    var i := 0;
    while i < |bodies|
      invariant 0 <= i <= |bodies|
      invariant minX == RunningMin(bodies[..i], X) && maxX == RunningMax(bodies[..i], X)
      invariant minY == RunningMin(bodies[..i], Y) && maxY == RunningMax(bodies[..i], Y)
      invariant minZ == RunningMin(bodies[..i], Z) && maxZ == RunningMax(bodies[..i], Z)
    {
      var p := bodies[i].position;

      RunningStep(bodies, i, X);
      if Below(p.x, minX) { minX := Finite(p.x); }
      if Above(p.x, maxX) { maxX := Finite(p.x); }
      assert minX == RunningMin(bodies[..i + 1], X) && maxX == RunningMax(bodies[..i + 1], X);

      RunningStep(bodies, i, Y);
      if Below(p.y, minY) { minY := Finite(p.y); }
      if Above(p.y, maxY) { maxY := Finite(p.y); }
      assert minY == RunningMin(bodies[..i + 1], Y) && maxY == RunningMax(bodies[..i + 1], Y);

      RunningStep(bodies, i, Z);
      if Below(p.z, minZ) { minZ := Finite(p.z); }
      if Above(p.z, maxZ) { maxZ := Finite(p.z); }

      i := i + 1;
    }
    assert bodies[..i] == bodies;

    var cx := 0.5 * (minX.value + maxX.value);
    var cy := 0.5 * (minY.value + maxY.value);
    var cz := 0.5 * (minZ.value + maxZ.value);
    var center := Vec3(cx, cy, cz);

    var spanX := maxX.value - minX.value;
    var spanY := maxY.value - minY.value;
    var spanZ := maxZ.value - minZ.value;
    var maxSpan := Max3(spanX, spanY, spanZ);

    if maxSpan == 0.0 {
      maxSpan := 1.0;
    }
    var halfSize := 0.5 * maxSpan;

    r := Region(center, halfSize);
    RootRegionContainsAll(bodies);
  }

  // ---------------------------------------------------------------------------
  // Octree nodes

  /** One node of the tree: the cube it covers, an optional body (the source
      holds a possibly null pointer), eight child slots, and the mass and
      center of mass of its subtree. */
  class OctreeNode {
    var bounds: Region
    var body: Option<Body>
    const children: array<OctreeNode?>
    var mass: real
    var centerOfMass: Vec3

    ghost predicate Valid()
      reads this
    {
      children.Length == 8
    }

    /** Every child slot is empty. */
    ghost predicate AllChildrenNull()
      reads this, children
    {
      forall i :: 0 <= i < children.Length ==> children[i] == null
    }

    /** The documented shape: either a leaf (no children) holding at most one
        body, or an internal node with all eight children and no body. */
    ghost predicate WellShaped()
      reads this, children
    {
      Valid() &&
      (AllChildrenNull() ||
       ((forall i :: 0 <= i < 8 ==> children[i] != null) && body == None))
    }

    /** A new node covers `region`, holds no body, has mass zero at the
        origin, and its eight child slots are cleared one by one. */
    constructor (region: Region)
      ensures Valid() && fresh(children)
      ensures bounds == region && body == None
      ensures mass == 0.0 && centerOfMass == Zero
      ensures AllChildrenNull() && WellShaped()
    {
      bounds := region;
      body := None;
      mass := 0.0;
      centerOfMass := Zero;
      children := new OctreeNode?[8];
      new;
      var i := 0;
      while i < 8
        invariant 0 <= i <= 8
        invariant forall j :: 0 <= j < i ==> children[j] == null
        modifies children
      {
        children[i] := null;
        i := i + 1;
      }
    }

    /** `isLeaf`: scans the slots and answers false at the first non-empty one. */
    method IsLeaf() returns (leaf: bool)
      requires Valid()
      ensures leaf <==> AllChildrenNull()
    {
      var i := 0;
      while i < 8
        invariant 0 <= i <= 8
        invariant forall j :: 0 <= j < i ==> children[j] == null
      {
        if children[i] != null {
          return false;
        }
        i := i + 1;
      }
      return true;
    }
  }

  /** A freshly built node is a leaf, and `IsLeaf` says so. */
  method NewNodeIsLeaf(region: Region) returns (node: OctreeNode, leaf: bool)
    ensures node.bounds == region && node.body == None
    ensures node.WellShaped()
    ensures leaf
  {
    node := new OctreeNode(region);
    leaf := node.IsLeaf();
  }
}
