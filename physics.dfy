/**
  The cannon-es objects the spawn logic creates: bodies with a shape, a mass,
  a material, a pose and a sleep speed limit, and the world's list of bodies.
  Stepping, broadphase and the contact solver are not modelled.
 */
module Physics {
  import opened Coords
  import opened Placement

  /** The three named physics materials of the scene. */
  datatype PhysMaterial = DuckMaterial | CanMaterial | GroundMaterial

  datatype ContactMaterial = ContactMaterial(a: PhysMaterial, b: PhysMaterial, friction: real, restitution: real)

  class Body {
    const shape: Shape
    const mass: real
    const material: PhysMaterial
    var position: Vec3
    var quaternion: Quat
    var sleepSpeedLimit: real

    constructor (shape: Shape, mass: real, position: Vec3, material: PhysMaterial)
      ensures this.shape == shape && this.mass == mass && this.material == material
      ensures this.position == position && quaternion == Identity
      ensures sleepSpeedLimit == DefaultSleepSpeedLimit
    {
      this.shape := shape;
      this.mass := mass;
      this.material := material;
      this.position := position;
      quaternion := Identity;
      sleepSpeedLimit := DefaultSleepSpeedLimit;
    }
  }

  class World {
    var bodies: seq<Body>
    var contactMaterials: seq<ContactMaterial>
    var gravity: Vec3

    constructor ()
      ensures bodies == [] && contactMaterials == [] && gravity == Vec3(0.0, 0.0, 0.0)
    {
      bodies := [];
      contactMaterials := [];
      gravity := Vec3(0.0, 0.0, 0.0);
    }

    /** `addBody`: appends the body unless it is already in the world. */
    method AddBody(b: Body)
      modifies this
      ensures bodies == if b in old(bodies) then old(bodies) else old(bodies) + [b]
      ensures contactMaterials == old(contactMaterials) && gravity == old(gravity)
    {
      if b !in bodies {
        bodies := bodies + [b];
      }
    }

    method AddContactMaterial(c: ContactMaterial)
      modifies this
      ensures contactMaterials == old(contactMaterials) + [c]
      ensures bodies == old(bodies) && gravity == old(gravity)
    {
      contactMaterials := contactMaterials + [c];
    }
  }
}
