/**
  The TypeScript revision: the `cannery` pool of `{mesh, body}` records, the
  physics world they are added to, the click handler that spawns a can where
  the pointer meets the water, and the per-frame copy of each body's pose onto
  its mesh.
 */
module MainApp {
  import opened Coords
  import opened Optional
  import opened Placement
  import opened Raycast
  import opened FifoPool
  import opened SceneGraph
  import opened Physics

  const Gravity: Vec3 := Vec3(0.0, -9.82, 0.0)
  const GroundPosition: Vec3 := Vec3(0.0, -0.075, 0.0)
  /** The one contact material registered with the world: ground against duck. */
  const DuckContact: ContactMaterial := ContactMaterial(GroundMaterial, DuckMaterial, 0.7, 0.1)

  /** One `{mesh, body}` record of `cannery.cans`: an object of its own, never itself added to the scene. */
  class CanRecord {
    const mesh: Mesh
    const body: Body

    constructor (mesh: Mesh, body: Body)
      ensures this.mesh == mesh && this.body == body
    {
      this.mesh := mesh;
      this.body := body;
    }
  }

  /**
    `checkRaycastIntersection` of this revision: `false` when a can was hit
    (Overlap), the last Water hit, or `undefined` (NoWater).
   */
  method CheckRaycastIntersection(hits: seq<Hit>) returns (r: Verdict)
    ensures r == Classify(hits)
  {
    var plane, canOverlap := ScanHits(hits);
    if !canOverlap {
      r := match plane
        case Some(h) => OnWater(h)
        case None => NoWater;
      return;
    }
    r := Overlap;
  }

  /**
    What holds of the pool against the world's bodies and the scene's
    children: at most 49 records with distinct meshes, each body in the world,
    each mesh (but never the record) in the scene, and every mesh sharing the
    template's geometry and material.
   */
  ghost predicate PoolInvariant(cans: seq<CanRecord>, bodies: seq<Body>, children: seq<object>, template: Mesh?) {
    |cans| <= Capacity && Paired(cans, bodies, children, template)
  }

  ghost predicate Paired(cans: seq<CanRecord>, bodies: seq<Body>, children: seq<object>, template: Mesh?) {
    && (forall i, j :: 0 <= i < j < |cans| ==> cans[i].mesh != cans[j].mesh)
    && (forall i :: 0 <= i < |cans| ==> InWorldAndScene(cans[i], bodies, children, template))
  }

  ghost predicate InWorldAndScene(rec: CanRecord, bodies: seq<Body>, children: seq<object>, template: Mesh?) {
    && rec.body in bodies
    && rec.mesh in children
    && (rec as object) !in children
    && template != null && rec.mesh.geometry == template.geometry && rec.mesh.material == template.material
  }

  /** Adding a body to the world and a mesh to the scene keeps every record paired. */
  lemma GrowKeepsPaired(cans: seq<CanRecord>, bodies: seq<Body>, children: seq<object>, template: Mesh?, b: Body, m: Mesh)
    requires Paired(cans, bodies, children, template)
    ensures Paired(cans, bodies + [b], children + [m], template)
  {
    forall i | 0 <= i < |cans| ensures InWorldAndScene(cans[i], bodies + [b], children + [m], template) {
      assert InWorldAndScene(cans[i], bodies, children, template);
      assert (cans[i] as object) != m;
    }
  }

  lemma AppendKeepsPaired(cans: seq<CanRecord>, bodies: seq<Body>, children: seq<object>, template: Mesh?, rec: CanRecord)
    requires Paired(cans, bodies, children, template)
    requires InWorldAndScene(rec, bodies, children, template)
    requires forall i :: 0 <= i < |cans| ==> cans[i].mesh != rec.mesh
    ensures Paired(cans + [rec], bodies, children, template)
  {
    var s := cans + [rec];
    forall i | 0 <= i < |s| ensures InWorldAndScene(s[i], bodies, children, template) {
      if i < |cans| {
        assert s[i] == cans[i];
      }
    }
  }

  lemma TailKeepsPaired(cans: seq<CanRecord>, bodies: seq<Body>, children: seq<object>, template: Mesh?)
    requires Paired(cans, bodies, children, template) && |cans| > 0
    ensures Paired(cans[1..], bodies, children, template)
  {
    var t := cans[1..];
    assert forall i :: 0 <= i < |t| ==> t[i] == cans[i + 1];
  }

  /** Pushing a record whose body is in the world and whose mesh is new to the pool keeps the pool invariant. */
  lemma PushKeepsPoolInvariant(cans: seq<CanRecord>, bodies: seq<Body>, children: seq<object>, template: Mesh?, rec: CanRecord)
    requires PoolInvariant(cans, bodies, children, template)
    requires InWorldAndScene(rec, bodies, children, template)
    requires forall i :: 0 <= i < |cans| ==> cans[i].mesh != rec.mesh
    ensures PoolInvariant(Push(cans, rec), bodies, children, template)
  {
    AppendKeepsPaired(cans, bodies, children, template, rec);
    if |cans + [rec]| > Capacity {
      TailKeepsPaired(cans + [rec], bodies, children, template);
    }
  }

  class MainScene {
    const world: World
    const scene: Scene
    const ground: Body
    /** `cannery.cans`, oldest first. */
    var cans: seq<CanRecord>
    /** `cannery.canMesh`, the loaded "can" mesh every spawned can is cloned from. */
    var canMesh: Mesh?
    /** `gltfCollection` has arrived. */
    var loaded: bool
    var duck: Mesh?
    var duckBody: Body?
    var mouse: Vec2

    ghost predicate Valid()
      reads this, world, scene
    {
      && (loaded ==> canMesh != null)
      && (!loaded ==> cans == [])
      && PoolInvariant(cans, world.bodies, scene.children, canMesh)
    }

    /** The meshes of the pooled cans. */
    ghost function Meshes(): set<Mesh>
      reads this
    {
      set i | 0 <= i < |cans| :: cans[i].mesh
    }

    /** The buffers an eviction may dispose: those the can template shares with its clones. */
    ghost function TemplateBuffers(): set<object>
      reads this
    {
      if canMesh != null then {canMesh.geometry, canMesh.material} else {}
    }

    /**
      Scene start: a world with gravity, the static ground body and the
      ground/duck contact material; an empty pool; no assets yet. The ground's
      orientation, computed with trigonometry in the source, is supplied.
     */
    constructor (groundOrientation: Quat)
      ensures Valid() && fresh(world) && fresh(scene) && fresh(ground)
      ensures world.gravity == Gravity
      ensures world.bodies == [ground] && world.contactMaterials == [DuckContact]
      ensures ground.shape == Plane && ground.mass == 0.0 && ground.material == GroundMaterial
      ensures ground.position == GroundPosition && ground.quaternion == groundOrientation
      ensures scene.children == [] && cans == []
      ensures !loaded && canMesh == null && duck == null && duckBody == null
      ensures mouse == Vec2(0.0, 0.0)
    {
      var w := new World();
      w.gravity := Gravity;
      var g := new Body(Plane, 0.0, GroundPosition, GroundMaterial);
      g.quaternion := groundOrientation;
      w.AddBody(g);
      w.AddContactMaterial(DuckContact);
      world := w;
      ground := g;
      scene := new Scene();
      cans := [];
      canMesh := null;
      loaded := false;
      duck := null;
      duckBody := null;
      mouse := Vec2(0.0, 0.0);
    }

    /**
      The loader callback: the duck gets a box body sized from its bounding
      box, placed where the duck mesh is, and the "can" mesh becomes the
      template for spawned cans.
     */
    method OnGltfLoaded(canTemplate: Mesh, duckMesh: Mesh)
      requires Valid() && !loaded
      modifies this, world
      ensures Valid() && loaded
      ensures canMesh == canTemplate && duck == duckMesh
      ensures duckBody != null && fresh(duckBody)
      ensures duckBody.shape == DuckBox(duckMesh.geometry.boundingBox)
      ensures duckBody.mass == DuckMass && duckBody.material == DuckMaterial
      ensures duckBody.position == duckMesh.position
      ensures world.bodies == old(world.bodies) + [duckBody]
      ensures world.contactMaterials == old(world.contactMaterials) && world.gravity == old(world.gravity)
      ensures cans == old(cans) && mouse == old(mouse)
    {
      var body := new Body(DuckBox(duckMesh.geometry.boundingBox), DuckMass, duckMesh.position, DuckMaterial);
      world.AddBody(body);
      duck := duckMesh;
      duckBody := body;
      canMesh := canTemplate;
      loaded := true;
    }

    /**
      `cannery.createNewCan`: a cylinder body dropped above the hit point and
      a clone of the template mesh join the world, the scene and the tail of
      the pool (see PushRecord for the eviction).
     */
    method CreateNewCan(point: Vec3)
      requires Valid() && loaded
      modifies this, world, scene, TemplateBuffers()
      ensures Valid()
      ensures loaded && canMesh == old(canMesh) && duck == old(duck) && duckBody == old(duckBody) && mouse == old(mouse)
      ensures |cans| > 0
      ensures var rec := cans[|cans| - 1];
        && fresh(rec) && fresh(rec.mesh) && fresh(rec.body)
        && cans == Push(old(cans), rec)
        && world.bodies == old(world.bodies) + [rec.body]
        && scene.children == old(scene.children) + [rec.mesh]
        && rec.body.shape == CanCylinder(canMesh.geometry.boundingBox)
        && rec.body.mass == CanMass && rec.body.material == CanMaterial
        && rec.body.position == SpawnPosition(point) && rec.body.quaternion == Identity
        && rec.body.sleepSpeedLimit == CanSleepSpeedLimit
        && rec.mesh.name == canMesh.name && rec.mesh.geometry == canMesh.geometry
        && rec.mesh.material == canMesh.material
        && rec.mesh.position == SpawnPosition(point) && rec.mesh.quaternion == canMesh.quaternion
      ensures world.contactMaterials == old(world.contactMaterials) && world.gravity == old(world.gravity)
      ensures canMesh.geometry.disposed == (old(canMesh.geometry.disposed) || |old(cans)| == Capacity)
      ensures canMesh.material.disposed == (old(canMesh.material.disposed) || |old(cans)| == Capacity)
    {
      ghost var bodies0, children0 := world.bodies, scene.children;
      var box := canMesh.geometry.boundingBox;
      var body := new Body(CanCylinder(box), CanMass, SpawnPosition(point), CanMaterial);
      body.sleepSpeedLimit := CanSleepSpeedLimit;
      world.AddBody(body);

      var mesh := canMesh.Clone();
      mesh.position := body.position;
      scene.Add(mesh);
      assert scene.children == children0 + [mesh];
      GrowKeepsPaired(cans, bodies0, children0, canMesh, body, mesh);

      var rec := new CanRecord(mesh, body);
      assert (rec as object) !in children0;
      PushRecord(rec);
    }

    /**
      `cannery.cans.push` and the eviction that follows it: when the pool then
      holds more than 49 records the oldest one is shifted out and its mesh
      buffers are disposed. Its body stays in the world and, since the scene
      is asked to remove the record rather than the mesh, its mesh stays in
      the scene.
     */
    method PushRecord(rec: CanRecord)
      requires Valid() && loaded
      requires InWorldAndScene(rec, world.bodies, scene.children, canMesh)
      requires forall i :: 0 <= i < |cans| ==> cans[i].mesh != rec.mesh
      modifies this, scene, TemplateBuffers()
      ensures Valid()
      ensures loaded && canMesh == old(canMesh) && duck == old(duck) && duckBody == old(duckBody) && mouse == old(mouse)
      ensures cans == Push(old(cans), rec)
      ensures scene.children == old(scene.children)
      ensures canMesh.geometry.disposed == (old(canMesh.geometry.disposed) || |old(cans)| == Capacity)
      ensures canMesh.material.disposed == (old(canMesh.material.disposed) || |old(cans)| == Capacity)
    {
      PushKeepsPoolInvariant(cans, world.bodies, scene.children, canMesh, rec);
      ghost var cans0 := cans;
      cans := cans + [rec];
      if |cans| > Capacity {
        var lastCan := cans[0];
        cans := cans[1..];
        assert InWorldAndScene(cans0[0], world.bodies, scene.children, canMesh);
        lastCan.mesh.geometry.Dispose();
        lastCan.mesh.material.Dispose();
        scene.Remove(lastCan);
      }
      assert cans == Push(cans0, rec);
    }

    /**
      The loop at the start of each frame: every pooled mesh takes its body's
      position and quaternion. Bodies and the pool are left as they are.
     */
    method SyncCans()
      requires Valid()
      modifies Meshes()
      ensures Valid()
      ensures forall i :: 0 <= i < |cans| ==>
                cans[i].mesh.position == cans[i].body.position && cans[i].mesh.quaternion == cans[i].body.quaternion
      ensures forall i :: 0 <= i < |cans| ==>
                cans[i].body.position == old(cans[i].body.position) && cans[i].body.quaternion == old(cans[i].body.quaternion)
    {
      var i := 0;
      while i < |cans|
        invariant 0 <= i <= |cans|
        invariant forall k :: 0 <= k < i ==>
                    cans[k].mesh.position == cans[k].body.position && cans[k].mesh.quaternion == cans[k].body.quaternion
      {
        var rec := cans[i];
        assert rec.mesh in Meshes();
        rec.mesh.position := rec.body.position;
        rec.mesh.quaternion := rec.body.quaternion;
        i := i + 1;
      }
    }

    /**
      The click handler: the pointer position is converted to NDC and, once
      the assets are loaded, a can is spawned at the hit point when the ray
      meets water and no can. Otherwise the pool, the world and the scene are
      left as they were.
     */
    method OnClick(clientX: real, clientY: real, width: real, height: real, hits: seq<Hit>) returns (spawned: bool)
      requires Valid() && width > 0.0 && height > 0.0
      modifies this, world, scene, TemplateBuffers()
      ensures Valid()
      ensures mouse == ToNdc(clientX, clientY, width, height)
      ensures loaded == old(loaded) && canMesh == old(canMesh)
      ensures spawned == (old(loaded) && Classify(hits).OnWater?)
      ensures spawned ==> |cans| > 0
      ensures spawned ==>
                var rec := cans[|cans| - 1];
                && fresh(rec) && fresh(rec.mesh) && fresh(rec.body) && cans == Push(old(cans), rec)
                && world.bodies == old(world.bodies) + [rec.body]
                && scene.children == old(scene.children) + [rec.mesh]
                && rec.body.shape == CanCylinder(canMesh.geometry.boundingBox)
                && rec.body.mass == CanMass && rec.body.material == CanMaterial
                && rec.body.position == SpawnPosition(Classify(hits).hit.point) && rec.body.quaternion == Identity
                && rec.body.sleepSpeedLimit == CanSleepSpeedLimit
                && rec.mesh.name == canMesh.name && rec.mesh.geometry == canMesh.geometry
                && rec.mesh.material == canMesh.material
                && rec.mesh.position == SpawnPosition(Classify(hits).hit.point) && rec.mesh.quaternion == canMesh.quaternion
      ensures spawned ==> canMesh.geometry.disposed == (old(canMesh.geometry.disposed) || |old(cans)| == Capacity)
      ensures spawned ==> canMesh.material.disposed == (old(canMesh.material.disposed) || |old(cans)| == Capacity)
      ensures !spawned ==>
        cans == old(cans) && world.bodies == old(world.bodies) && scene.children == old(scene.children)
      ensures !spawned ==> unchanged(TemplateBuffers())
      ensures world.contactMaterials == old(world.contactMaterials) && world.gravity == old(world.gravity)
      ensures duck == old(duck) && duckBody == old(duckBody)
    {
      mouse := ToNdc(clientX, clientY, width, height);
      spawned := false;
      if loaded {
        var groundIntersection := CheckRaycastIntersection(hits);
        if groundIntersection.OnWater? {
          CreateNewCan(groundIntersection.hit.point);
          spawned := true;
        }
      }
    }
  }
}
