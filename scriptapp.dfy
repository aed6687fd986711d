/**
  The JavaScript revision: the pointerdown / pointermove / pointerup handlers
  that tell a tap from a drag, placement of a new can above the water, and
  the bounded `cans` list that a can joins when its drop animation completes.
 */
module ScriptApp {
  import opened Coords
  import opened Optional
  import opened Placement
  import opened Raycast
  import opened FifoPool
  import opened SceneGraph

  /** A release closer than this to the press, on both axes, is a tap (NDC units). */
  const TapThresholdX: real := 0.04
  const TapThresholdY: real := 0.03

  /** Both NDC deltas between press and release are strictly below their thresholds. */
  predicate IsTap(press: Vec2, release: Vec2) {
    Abs(release.x - press.x) < TapThresholdX && Abs(release.y - press.y) < TapThresholdY
  }

  /**
    The two variables the handlers share: `prevMouse`, undefined until the
    first press, and `drag`, whose initial `undefined` is falsy.
   */
  datatype Gesture = Gesture(prevMouse: Option<Vec2>, drag: bool)

  const InitialGesture: Gesture := Gesture(None, false)

  datatype PointerEvent = Down(at: Vec2) | Move | Up(at: Vec2)

  /**
    How each handler changes the gesture. A press records its position and
    clears `drag`; any move sets `drag`; a release clears `drag` when it is a
    tap. A release before any press reads `prevMouse.x` of `undefined`, so the
    handler throws and changes nothing.
   */
  function Step(g: Gesture, e: PointerEvent): Gesture {
    match e
    case Down(p) => Gesture(Some(p), false)
    case Move => g.(drag := true)
    case Up(q) =>
      match g.prevMouse
      case None => g
      case Some(p) => if IsTap(p, q) then g.(drag := false) else g
  }

  /** Whether a release at q, in gesture g, goes on to the spawn attempt (readiness aside). */
  predicate ReleaseAttempts(g: Gesture, q: Vec2) {
    g.prevMouse.Some? && !Step(g, Up(q)).drag
  }

  function Run(g: Gesture, events: seq<PointerEvent>): Gesture
    decreases |events|
  {
    if |events| == 0 then g else Run(Step(g, events[0]), events[1..])
  }

  function Moves(k: nat): (ms: seq<PointerEvent>)
    ensures |ms| == k && forall i :: 0 <= i < k ==> ms[i] == Move
  {
    if k == 0 then [] else [Move] + Moves(k - 1)
  }

  predicate NoPress(events: seq<PointerEvent>) {
    forall i :: 0 <= i < |events| ==> !events[i].Down?
  }

  lemma {:induction false} MovesDrag(p: Vec2, k: nat)
    ensures Run(Gesture(Some(p), false), Moves(k)) == Gesture(Some(p), k > 0)
    decreases k
  {
    if k > 0 {
      assert Moves(k)[1..] == Moves(k - 1);
      if k > 1 {
        MovesDragged(p, k - 1);
      }
    }
  }

  lemma {:induction false} MovesDragged(p: Vec2, k: nat)
    ensures Run(Gesture(Some(p), true), Moves(k)) == Gesture(Some(p), true)
    decreases k
  {
    if k > 0 {
      assert Moves(k)[1..] == Moves(k - 1);
      MovesDragged(p, k - 1);
    }
  }

  /**
    After a press at p and k moves, a release at q attempts a spawn exactly
    when no move happened or the release is a tap of p, whatever the state
    before the press.
   */
  lemma {:induction false} PressMovesRelease(g: Gesture, p: Vec2, k: nat, q: Vec2)
    ensures ReleaseAttempts(Run(g, [Down(p)] + Moves(k)), q) <==> k == 0 || IsTap(p, q)
  {
    var events := [Down(p)] + Moves(k);
    assert events[0] == Down(p) && events[1..] == Moves(k);
    MovesDrag(p, k);
    assert Run(g, events) == Gesture(Some(p), k > 0);
  }

  /** Before the first press no release ever attempts a spawn. */
  lemma {:induction false} NoPressNoSpawn(events: seq<PointerEvent>, q: Vec2)
    requires NoPress(events)
    ensures Run(InitialGesture, events).prevMouse == None
    ensures !ReleaseAttempts(Run(InitialGesture, events), q)
  {
    NoPressKeepsUnpressed(InitialGesture, events);
  }

  lemma {:induction false} NoPressKeepsUnpressed(g: Gesture, events: seq<PointerEvent>)
    requires g.prevMouse == None && NoPress(events)
    ensures Run(g, events).prevMouse == None
    decreases |events|
  {
    if |events| > 0 {
      assert !events[0].Down?;
      assert NoPress(events[1..]) by {
        assert forall i :: 0 <= i < |events| - 1 ==> events[1..][i] == events[i + 1];
      }
      NoPressKeepsUnpressed(Step(g, events[0]), events[1..]);
    }
  }

  /** A press resets the gesture whatever came before; a move always marks a drag. */
  lemma PressAndMove(g: Gesture, p: Vec2)
    ensures Step(g, Down(p)) == Gesture(Some(p), false)
    ensures Step(g, Move).drag && Step(g, Move).prevMouse == g.prevMouse
  {
  }

  /**
    The thresholds are strict: after a move, a release 0.04 to the right of
    the press is a drag, one at (0.03, 0.02) from it is a tap, one at
    (0.05, 0.02) is a drag.
   */
  lemma ThresholdExamples()
    ensures !ReleaseAttempts(Gesture(Some(Vec2(0.0, 0.0)), true), Vec2(0.04, 0.0))
    ensures ReleaseAttempts(Gesture(Some(Vec2(0.0, 0.0)), true), Vec2(0.03, 0.02))
    ensures !ReleaseAttempts(Gesture(Some(Vec2(0.0, 0.0)), true), Vec2(0.05, 0.02))
    ensures !ReleaseAttempts(Gesture(Some(Vec2(0.0, 0.0)), true), Vec2(0.0, 0.03))
  {
  }

  /** `checkRaycastIntersection` of this revision: `undefined` on a can overlap or when no Water was hit. */
  method CheckRaycastIntersection(hits: seq<Hit>) returns (plane: Option<Hit>)
    ensures plane.Some? <==> Classify(hits).OnWater?
    ensures plane.Some? ==> plane.value == Classify(hits).hit
  {
    var p, canOverlap := ScanHits(hits);
    plane := None;
    if !canOverlap {
      plane := p;
    }
  }

  /** Distinct meshes, each a child of the scene. */
  ghost predicate Tracked(meshes: seq<Mesh>, children: seq<object>) {
    && (forall i, j :: 0 <= i < j < |meshes| ==> meshes[i] != meshes[j])
    && (forall i :: 0 <= i < |meshes| ==> (meshes[i] as object) in children)
  }

  /** Removing the oldest mesh from the scene keeps the others tracked. */
  lemma EvictKeepsTracked(meshes: seq<Mesh>, children: seq<object>)
    requires Tracked(meshes, children) && |meshes| > 0
    ensures Tracked(meshes[1..], RemoveFirst(children, meshes[0]))
  {
    var t := meshes[1..];
    forall i | 0 <= i < |t| ensures (t[i] as object) in RemoveFirst(children, meshes[0]) {
      assert t[i] == meshes[i + 1] && meshes[i + 1] != meshes[0];
    }
  }

  class ScriptScene {
    const scene: Scene
    /** The cans whose drop has completed, oldest first. */
    var cans: seq<Mesh>
    /** The cans whose drop tween is still running, oldest first. */
    var tweening: seq<Mesh>
    var mouse: Vec2
    var prevMouse: Option<Vec2>
    var drag: bool
    /** The "can" child of `gltfCollection`, once loaded. */
    var canTemplate: Mesh?
    /** `gltfCollection` has arrived. */
    var loaded: bool

    ghost predicate Valid()
      reads this, scene
    {
      && (loaded ==> canTemplate != null)
      && |cans| <= Capacity
      && Tracked(cans + tweening, scene.children)
      && NoDup(scene.children)
    }

    function CurrentGesture(): Gesture
      reads this
    {
      Gesture(prevMouse, drag)
    }

    constructor ()
      ensures Valid() && fresh(scene) && scene.children == []
      ensures cans == [] && tweening == [] && !loaded && canTemplate == null
      ensures mouse == Vec2(0.0, 0.0) && CurrentGesture() == InitialGesture
    {
      scene := new Scene();
      cans := [];
      tweening := [];
      mouse := Vec2(0.0, 0.0);
      prevMouse := None;
      drag := false;
      canTemplate := null;
      loaded := false;
    }

    method OnGltfLoaded(can: Mesh)
      requires Valid() && !loaded
      modifies this
      ensures Valid() && loaded && canTemplate == can
      ensures cans == old(cans) && tweening == old(tweening) && mouse == old(mouse)
      ensures CurrentGesture() == old(CurrentGesture())
    {
      canTemplate := can;
      loaded := true;
    }

    method PointerDown(clientX: real, clientY: real, width: real, height: real)
      requires Valid() && width > 0.0 && height > 0.0
      modifies this
      ensures Valid()
      ensures mouse == ToNdc(clientX, clientY, width, height)
      ensures CurrentGesture() == Step(old(CurrentGesture()), Down(mouse))
      ensures cans == old(cans) && tweening == old(tweening)
      ensures loaded == old(loaded) && canTemplate == old(canTemplate)
    {
      mouse := ToNdc(clientX, clientY, width, height);
      prevMouse := Some(mouse);
      drag := false;
    }

    method PointerMove()
      requires Valid()
      modifies this
      ensures Valid()
      ensures CurrentGesture() == Step(old(CurrentGesture()), Move)
      ensures mouse == old(mouse) && cans == old(cans) && tweening == old(tweening)
      ensures loaded == old(loaded) && canTemplate == old(canTemplate)
    {
      drag := true;
    }

    /**
      `createNewCan`: a clone of the template is placed above the hit point
      and added to the scene, and its drop tween starts. It joins `cans` only
      when the tween completes.
     */
    method CreateNewCan(plane: Hit)
      requires Valid() && loaded
      modifies this, scene
      ensures Valid()
      ensures loaded == old(loaded) && canTemplate == old(canTemplate)
      ensures |tweening| == |old(tweening)| + 1 && tweening[..|old(tweening)|] == old(tweening)
      ensures var newCan := tweening[|tweening| - 1];
        && fresh(newCan)
        && newCan.name == canTemplate.name && newCan.geometry == canTemplate.geometry
        && newCan.material == canTemplate.material && newCan.quaternion == canTemplate.quaternion
        && newCan.position == SpawnPosition(plane.point)
        && scene.children == old(scene.children) + [newCan]
      ensures cans == old(cans) && mouse == old(mouse) && CurrentGesture() == old(CurrentGesture())
    {
      var newCan := canTemplate.Clone();
      newCan.position := SpawnPosition(plane.point);
      AddNoDup(scene.children, newCan);
      scene.Add(newCan);
      assert scene.children == old(scene.children) + [newCan];
      tweening := tweening + [newCan];
      assert cans + tweening == old(cans + tweening) + [newCan];
    }

    /**
      The pointerup handler: the release position becomes `mouse`; without an
      earlier press the handler throws there. A tap clears `drag`; then, if
      `drag` is clear and the assets are loaded, a can is placed where the
      ray meets water and no can.
     */
    method PointerUp(clientX: real, clientY: real, width: real, height: real, hits: seq<Hit>) returns (spawned: bool)
      requires Valid() && width > 0.0 && height > 0.0
      modifies this, scene
      ensures Valid()
      ensures mouse == ToNdc(clientX, clientY, width, height)
      ensures CurrentGesture() == Step(old(CurrentGesture()), Up(mouse))
      ensures cans == old(cans) && loaded == old(loaded) && canTemplate == old(canTemplate)
      ensures spawned == (old(loaded) && ReleaseAttempts(old(CurrentGesture()), mouse) && Classify(hits).OnWater?)
      ensures spawned ==> |tweening| == |old(tweening)| + 1 && tweening[..|old(tweening)|] == old(tweening)
      ensures spawned ==>
                var newCan := tweening[|tweening| - 1];
                && fresh(newCan)
                && newCan.name == canTemplate.name && newCan.geometry == canTemplate.geometry
                && newCan.material == canTemplate.material && newCan.quaternion == canTemplate.quaternion
                && newCan.position == SpawnPosition(Classify(hits).hit.point)
                && scene.children == old(scene.children) + [newCan]
      ensures !spawned ==> tweening == old(tweening) && scene.children == old(scene.children)
    {
      mouse := ToNdc(clientX, clientY, width, height);
      spawned := false;
      if prevMouse.None? {
        return;
      }
      var deltaX := Abs(mouse.x - prevMouse.value.x);
      var deltaY := Abs(mouse.y - prevMouse.value.y);
      if deltaX < TapThresholdX && deltaY < TapThresholdY {
        drag := false;
      }
      if !drag && loaded {
        var soil := CheckRaycastIntersection(hits);
        if soil.Some? {
          CreateNewCan(soil.value);
          spawned := true;
        }
      }
    }

    /**
      The tween's `onComplete` for the oldest running drop: the can lands at
      height 0 and is pushed onto `cans`; when that makes more than 49, the
      oldest can is shifted out and removed from the scene.
     */
    method OnTweenComplete()
      requires Valid() && |tweening| > 0
      modifies this, scene, tweening[0]
      ensures Valid()
      ensures var landed := old(tweening[0]);
        && cans == Push(old(cans), landed)
        && tweening == old(tweening)[1..]
        && landed.position == old(landed.position).(y := 0.0)
        && landed.quaternion == old(landed.quaternion)
        && scene.children == match Evicted(old(cans), landed)
             case Some(e) => RemoveFirst(old(scene.children), e)
             case None => old(scene.children)
      ensures Evicted(old(cans), old(tweening[0])).Some? ==>
                (Evicted(old(cans), old(tweening[0])).value as object) !in scene.children
      ensures mouse == old(mouse) && CurrentGesture() == old(CurrentGesture())
      ensures loaded == old(loaded) && canTemplate == old(canTemplate)
    {
      ghost var all := cans + tweening;
      var newCan := tweening[0];
      tweening := tweening[1..];
      newCan.position := newCan.position.(y := 0.0);
      cans := cans + [newCan];
      assert cans + tweening == all;
      if |cans| > Capacity {
        var oldest := cans[0];
        cans := cans[1..];
        EvictKeepsTracked(all, scene.children);
        assert cans + tweening == all[1..];
        RemoveFirstNoDup(scene.children, oldest);
        scene.Remove(oldest);
      }
    }
  }
}
