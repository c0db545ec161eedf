/** Axis-aligned cubes given by a center and a half edge length, and their
    eight octants. */
module Regions {
  import opened Vectors

  /** The cube [center - halfSize, center + halfSize] on every axis. */
  datatype Region = Region(center: Vec3, halfSize: real)

  /** `Region()`: center at the origin, half-size zero. */
  const DefaultRegion: Region := Region(Zero, 0.0)

  /** Closed-interval membership on all three axes: boundary points are inside. */
  predicate Contains(r: Region, p: Vec3)
  {
    (p.x >= r.center.x - r.halfSize && p.x <= r.center.x + r.halfSize) &&
    (p.y >= r.center.y - r.halfSize && p.y <= r.center.y + r.halfSize) &&
    (p.z >= r.center.z - r.halfSize && p.z <= r.center.z + r.halfSize)
  }

  /** The direction tables of `childRegion`, one entry per octant. */
  const DX: seq<int> := [-1, 1, -1, 1, -1, 1, -1, 1]
  const DY: seq<int> := [-1, -1, 1, 1, -1, -1, 1, 1]
  const DZ: seq<int> := [-1, -1, -1, -1, 1, 1, 1, 1]

  /** The region of octant `index`: half the size, its center moved by the
      child half-size in the direction the tables give. The tables have eight
      entries, so only indices 0 to 7 are meaningful. */
  function ChildRegion(r: Region, index: int): Region
    requires 0 <= index < 8
  {
    var childHalfSize := r.halfSize * 0.5;
    var childCenter := Vec3(r.center.x + DX[index] as real * childHalfSize,
                            r.center.y + DY[index] as real * childHalfSize,
                            r.center.z + DZ[index] as real * childHalfSize);
    Region(childCenter, childHalfSize)
  }

  /** Absolute value, for the distance below. */
  function Abs(r: real): (a: real)
    ensures a >= 0.0 && (a == r || a == -r)
  {
    if r < 0.0 then -r else r
  }

  /** The largest per-axis distance between two points (the L-infinity metric). */
  function ChebyshevDistance(a: Vec3, b: Vec3): (d: real)
    ensures d >= 0.0
    ensures d >= Abs(a.x - b.x) && d >= Abs(a.y - b.y) && d >= Abs(a.z - b.z)
    ensures d == Abs(a.x - b.x) || d == Abs(a.y - b.y) || d == Abs(a.z - b.z)
  {
    var dx, dy, dz := Abs(a.x - b.x), Abs(a.y - b.y), Abs(a.z - b.z);
    if dx >= dy && dx >= dz then dx else if dy >= dz then dy else dz
  }

  /** Membership is "the Chebyshev distance to the center is at most the
      half-size": a cube is the closed ball of that metric. */
  lemma ContainsIffWithinDistance(r: Region, p: Vec3)
    ensures Contains(r, p) <==> ChebyshevDistance(p, r.center) <= r.halfSize
  {
  }

  /** A region contains some point only when its half-size is not negative. */
  lemma ContainsNeedsNonNegativeSize(r: Region, p: Vec3)
    requires Contains(r, p)
    ensures r.halfSize >= 0.0 && Contains(r, r.center)
  {
  }

  /** Bit `bit` of an octant index decides the direction along one axis. */
  function Sign(index: int, bit: nat): real
    requires 0 <= index < 8 && bit < 3
  {
    var weight := if bit == 0 then 1 else if bit == 1 then 2 else 4;
    if (index / weight) % 2 == 1 then 1.0 else -1.0
  }

  /** The child has half the parent's size, and its center is moved by the
      child half-size, in the + direction along x exactly when bit 0 of the
      index is set, along y when bit 1 is set, along z when bit 2 is set. */
  lemma ChildGeometry(r: Region, index: int)
    requires 0 <= index < 8
    ensures ChildRegion(r, index).halfSize == r.halfSize / 2.0
    ensures ChildRegion(r, index).center ==
      Vec3(r.center.x + Sign(index, 0) * (r.halfSize / 2.0),
           r.center.y + Sign(index, 1) * (r.halfSize / 2.0),
           r.center.z + Sign(index, 2) * (r.halfSize / 2.0))
  {
  }

  /** Every point of a child octant lies in the parent. (A parent with a
      negative half-size has children that contain no point.) */
  lemma ChildWithinParent(r: Region, index: int, p: Vec3)
    requires 0 <= index < 8
    requires Contains(ChildRegion(r, index), p)
    ensures Contains(r, p)
  {
  }

  /** Different octants of a region with positive size have different centers. */
  lemma ChildCentersDistinct(r: Region, i: int, j: int)
    requires 0 <= i < 8 && 0 <= j < 8 && i != j
    requires r.halfSize > 0.0
    ensures ChildRegion(r, i).center != ChildRegion(r, j).center
  {
  }
}
