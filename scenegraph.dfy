/**
  The few three.js objects the spawn logic touches: meshes with a position
  and a quaternion, the geometry and material buffers they point to, and
  the scene's list of children. Only the behaviour the scene code relies on
  is modelled.
 */
module SceneGraph {
  import opened Coords

  /** `indexOf`: the position of the first occurrence of o. */
  function IndexOf<T(==)>(s: seq<T>, o: T): (i: nat)
    requires o in s
    ensures i < |s| && s[i] == o && o !in s[..i]
  {
    if s[0] == o then 0
    else
      var k := IndexOf(s[1..], o);
      assert s[..k + 1] == [s[0]] + s[1..][..k];
      k + 1
  }

  /** The sequence without the first occurrence of o (unchanged when o does not occur). */
  function RemoveFirst<T(==)>(s: seq<T>, o: T): (r: seq<T>)
    ensures o !in s ==> r == s
    ensures o in s ==> |r| == |s| - 1
    ensures forall x :: x in s && x != o ==> x in r
    ensures forall x :: x in r ==> x in s
    ensures o in s ==> r == s[..IndexOf(s, o)] + s[IndexOf(s, o) + 1..]
  {
    if |s| == 0 then s
    else if s[0] == o then s[1..]
    else
      var t := RemoveFirst(s[1..], o);
      assert o in s ==> o in s[1..] && IndexOf(s, o) == IndexOf(s[1..], o) + 1;
      [s[0]] + t
  }

  /** No entry occurs twice. */
  ghost predicate NoDup<T>(s: seq<T>) {
    forall i, j :: 0 <= i < j < |s| ==> s[i] != s[j]
  }

  /** Removing from a list without duplicates leaves none, and no copy of the removed entry. */
  lemma RemoveFirstNoDup<T>(s: seq<T>, o: T)
    requires NoDup(s)
    ensures NoDup(RemoveFirst(s, o)) && o !in RemoveFirst(s, o)
  {
    var r := RemoveFirst(s, o);
    if o in s {
      var k := IndexOf(s, o);
      assert r == s[..k] + s[k + 1..];
      assert forall i :: 0 <= i < |r| ==> r[i] == if i < k then s[i] else s[i + 1];
    }
  }

  /** `add` keeps a list of children without duplicates free of them. */
  lemma AddNoDup<T>(s: seq<T>, o: T)
    requires NoDup(s)
    ensures NoDup(RemoveFirst(s, o) + [o])
  {
    RemoveFirstNoDup(s, o);
    var r := RemoveFirst(s, o) + [o];
    assert forall i :: 0 <= i < |r| - 1 ==> r[i] == RemoveFirst(s, o)[i];
  }

  /** A geometry: its bounding box and whether `dispose()` has been called on it. */
  class BufferGeometry {
    const boundingBox: Box3
    var disposed: bool

    constructor (boundingBox: Box3)
      ensures this.boundingBox == boundingBox && !disposed
    {
      this.boundingBox := boundingBox;
      disposed := false;
    }

    method Dispose()
      modifies this
      ensures disposed
    {
      disposed := true;
    }
  }

  /** A material buffer and whether `dispose()` has been called on it. */
  class MeshMaterial {
    var disposed: bool

    constructor ()
      ensures !disposed
    {
      disposed := false;
    }

    method Dispose()
      modifies this
      ensures disposed
    {
      disposed := true;
    }
  }

  class Mesh {
    const name: string
    const geometry: BufferGeometry
    const material: MeshMaterial
    var position: Vec3
    var quaternion: Quat

    constructor (name: string, geometry: BufferGeometry, material: MeshMaterial, position: Vec3, quaternion: Quat)
      ensures this.name == name && this.geometry == geometry && this.material == material
      ensures this.position == position && this.quaternion == quaternion
    {
      this.name := name;
      this.geometry := geometry;
      this.material := material;
      this.position := position;
      this.quaternion := quaternion;
    }

    /** `clone()`: a new mesh with the same name and transform, sharing geometry and material. */
    method Clone() returns (m: Mesh)
      ensures fresh(m)
      ensures m.name == name && m.geometry == geometry && m.material == material
      ensures m.position == position && m.quaternion == quaternion
    {
      m := new Mesh(name, geometry, material, position, quaternion);
    }
  }

  /**
    The scene's direct children. `add` first detaches the object if it is
    already a child; `remove` takes out the object if it is a child and
    otherwise does nothing.
   */
  class Scene {
    var children: seq<object>

    constructor ()
      ensures children == []
    {
      children := [];
    }

    method Add(o: object)
      modifies this
      ensures children == RemoveFirst(old(children), o) + [o]
    {
      children := RemoveFirst(children, o) + [o];
    }

    method Remove(o: object)
      modifies this
      ensures children == RemoveFirst(old(children), o)
    {
      children := RemoveFirst(children, o);
    }
  }
}
