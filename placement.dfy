/**
  The arithmetic of a spawn: where a new can is dropped from, the physical
  constants of its body, and the collision shapes derived from the bounding
  boxes of the can and duck meshes.
 */
module Placement {
  import opened Coords

  /** Height a can is dropped from, whatever the height of the surface hit. */
  const DropHeight: real := 0.5
  const CanMass: real := 0.04
  const CanSleepSpeedLimit: real := 1.0
  const CanCylinderSegments: nat := 12
  const DuckMass: real := 1.0
  /** cannon-es gives every body this sleep speed limit unless it is changed. */
  const DefaultSleepSpeedLimit: real := 0.1

  /** The cannon-es shapes this scene builds. */
  datatype Shape =
    | Plane
    | Box(halfExtents: Vec3)
    | Cylinder(radiusTop: real, radiusBottom: real, height: real, numSegments: nat)

  /** Position of a new can body: above the hit point, at the drop height. */
  function SpawnPosition(point: Vec3): Vec3 {
    Vec3(point.x, DropHeight, point.z)
  }

  /** The can's collision cylinder: radius half the box's width, height the box's height. */
  function CanCylinder(box: Box3): Shape {
    var radius := (box.max.x - box.min.x) / 2.0;
    Cylinder(radius, radius, box.max.y - box.min.y, CanCylinderSegments)
  }

  /** The duck's collision box: half of each extent of its bounding box. */
  function DuckBox(box: Box3): Shape {
    Box(Vec3((box.max.x - box.min.x) / 2.0,
             (box.max.y - box.min.y) / 2.0,
             (box.max.z - box.min.z) / 2.0))
  }

  function Center(box: Box3): Vec3 {
    Vec3((box.min.x + box.max.x) / 2.0, (box.min.y + box.max.y) / 2.0, (box.min.z + box.max.z) / 2.0)
  }

  /** Two hit points give the same spawn position exactly when they agree on x and z. */
  lemma SpawnPositionIgnoresHeight(a: Vec3, b: Vec3)
    ensures SpawnPosition(a) == SpawnPosition(b) <==> a.x == b.x && a.z == b.z
    ensures SpawnPosition(a).y == DropHeight
  {
  }

  /** The cylinder spans the box's full width and height, with equal radii and 12 segments. */
  lemma CanCylinderFitsBox(box: Box3)
    ensures CanCylinder(box).Cylinder?
    ensures CanCylinder(box).radiusTop == CanCylinder(box).radiusBottom
    ensures 2.0 * CanCylinder(box).radiusTop == box.max.x - box.min.x
    ensures CanCylinder(box).height == box.max.y - box.min.y
    ensures CanCylinder(box).numSegments == 12
    ensures box.min.x < box.max.x && box.min.y < box.max.y ==>
              CanCylinder(box).radiusTop > 0.0 && CanCylinder(box).height > 0.0
  {
  }

  /** The derived shapes depend only on the extents of the box, not on where it sits. */
  lemma ShapesIgnoreTranslation(box: Box3, d: Vec3)
    ensures CanCylinder(Translate(box, d)) == CanCylinder(box)
    ensures DuckBox(Translate(box, d)) == DuckBox(box)
  {
    var t := Translate(box, d);
    assert t.max.x - t.min.x == box.max.x - box.min.x;
    assert t.max.y - t.min.y == box.max.y - box.min.y;
    assert t.max.z - t.min.z == box.max.z - box.min.z;
  }

  /** The duck box, centred on the bounding box, has exactly its corners. */
  lemma DuckBoxReconstructsBounds(box: Box3)
    ensures DuckBox(box).Box?
    ensures var h := DuckBox(box).halfExtents; var c := Center(box);
      && Vec3(c.x - h.x, c.y - h.y, c.z - h.z) == box.min
      && Vec3(c.x + h.x, c.y + h.y, c.z + h.z) == box.max
  {
  }
}
