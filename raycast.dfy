/**
  Classification of the ray's hit list, `checkRaycastIntersection` in both
  revisions. The ray geometry is abstracted away: the hit list is an input,
  already in the order the raycaster returns it (nearest first).
 */
module Raycast {
  import opened Coords
  import opened Optional

  const WaterName: string := "Water"
  const CanName: string := "can"

  /** One intersection: the name of the object hit and the world point of the hit. */
  datatype Hit = Hit(name: string, point: Vec3)

  /**
    What a scan of the hits decides: a can was hit (placement rejected), the
    ray met water at `hit`, or neither.
   */
  datatype Verdict = Overlap | OnWater(hit: Hit) | NoWater

  /** Some hit is a can. */
  function AnyCan(hits: seq<Hit>): bool {
    if |hits| == 0 then false
    else AnyCan(hits[..|hits| - 1]) || hits[|hits| - 1].name == CanName
  }

  /** The Water hit that comes last in ray order, if any. */
  function LastWater(hits: seq<Hit>): Option<Hit> {
    if |hits| == 0 then None
    else if hits[|hits| - 1].name == WaterName then Some(hits[|hits| - 1])
    else LastWater(hits[..|hits| - 1])
  }

  /** The reference definition of the classification. */
  function Classify(hits: seq<Hit>): Verdict {
    if AnyCan(hits) then Overlap
    else match LastWater(hits)
      case Some(h) => OnWater(h)
      case None => NoWater
  }

  /**
    The `forEach` of `checkRaycastIntersection`: a Water hit overwrites
    `plane`, a can hit sets `canOverlap`, every other name is skipped.
   */
  method ScanHits(hits: seq<Hit>) returns (plane: Option<Hit>, canOverlap: bool)
    ensures plane == LastWater(hits)
    ensures canOverlap == AnyCan(hits)
  {
    plane, canOverlap := None, false;
    var i := 0;
    while i < |hits|
      invariant 0 <= i <= |hits|
      invariant plane == LastWater(hits[..i])
      invariant canOverlap == AnyCan(hits[..i])
    {
      assert hits[..i + 1][..i] == hits[..i];
      var item := hits[i];
      if item.name == WaterName {
        plane := Some(item);
      } else if item.name == CanName {
        canOverlap := true;
      }
      i := i + 1;
    }
    assert hits[..i] == hits;
  }

  lemma {:induction false} AnyCanIff(hits: seq<Hit>)
    ensures AnyCan(hits) <==> exists i :: 0 <= i < |hits| && hits[i].name == CanName
  {
    if |hits| > 0 {
      var p := hits[..|hits| - 1];
      AnyCanIff(p);
      assert forall i :: 0 <= i < |p| ==> p[i] == hits[i];
    }
  }

  /** No Water hit at all exactly when LastWater finds none. */
  lemma {:induction false} LastWaterNone(hits: seq<Hit>)
    ensures LastWater(hits) == None <==> forall i :: 0 <= i < |hits| ==> hits[i].name != WaterName
  {
    if |hits| > 0 {
      var p := hits[..|hits| - 1];
      LastWaterNone(p);
      assert forall i :: 0 <= i < |p| ==> p[i] == hits[i];
    }
  }

  /** A Water hit with no Water hit after it is what LastWater finds. */
  lemma {:induction false} LastWaterAt(hits: seq<Hit>, i: nat)
    requires i < |hits|
    requires hits[i].name == WaterName
    requires forall j :: i < j < |hits| ==> hits[j].name != WaterName
    ensures LastWater(hits) == Some(hits[i])
  {
    if i < |hits| - 1 {
      var p := hits[..|hits| - 1];
      assert forall k :: 0 <= k < |p| ==> p[k] == hits[k];
      LastWaterAt(p, i);
    }
  }

  /** Whatever LastWater returns is a Water hit with no Water hit after it. */
  lemma {:induction false} LastWaterIsLast(hits: seq<Hit>)
    ensures LastWater(hits).Some? ==>
              exists i :: 0 <= i < |hits| && LastWater(hits) == Some(hits[i]) && hits[i].name == WaterName &&
                forall j :: i < j < |hits| ==> hits[j].name != WaterName
  {
    if |hits| > 0 && hits[|hits| - 1].name != WaterName {
      var p := hits[..|hits| - 1];
      LastWaterIsLast(p);
      assert forall k :: 0 <= k < |p| ==> p[k] == hits[k];
    }
  }

  /** The last Water hit in ray order, seen as a property of the hit at index i. */
  ghost predicate IsLastWater(hits: seq<Hit>, i: int) {
    0 <= i < |hits| && hits[i].name == WaterName && forall j :: i < j < |hits| ==> hits[j].name != WaterName
  }

  /**
    The classification: rejection iff some hit is a can; otherwise the last
    Water hit in ray order, or nothing when there is none.
   */
  lemma ClassifySpec(hits: seq<Hit>)
    ensures Classify(hits) == Overlap <==> exists i :: 0 <= i < |hits| && hits[i].name == CanName
    ensures Classify(hits) == NoWater <==>
              (forall i :: 0 <= i < |hits| ==> hits[i].name != CanName) &&
              (forall i :: 0 <= i < |hits| ==> hits[i].name != WaterName)
    ensures forall h :: Classify(hits) == OnWater(h) <==>
              (forall j :: 0 <= j < |hits| ==> hits[j].name != CanName) &&
              exists i :: IsLastWater(hits, i) && hits[i] == h
  {
    AnyCanIff(hits);
    LastWaterNone(hits);
    LastWaterIsLast(hits);
    forall i | IsLastWater(hits, i) ensures LastWater(hits) == Some(hits[i]) {
      LastWaterAt(hits, i);
    }
  }

  /** A hit that is neither Water nor a can never changes the classification. */
  lemma {:induction false} ClassifyIgnoresOtherNames(a: seq<Hit>, h: Hit, b: seq<Hit>)
    requires h.name != WaterName && h.name != CanName
    ensures Classify(a + [h] + b) == Classify(a + b)
  {
    IgnoresOther(a, h, b);
  }

  lemma {:induction false} IgnoresOther(a: seq<Hit>, h: Hit, b: seq<Hit>)
    requires h.name != WaterName && h.name != CanName
    ensures AnyCan(a + [h] + b) == AnyCan(a + b)
    ensures LastWater(a + [h] + b) == LastWater(a + b)
  {
    if |b| == 0 {
      assert a + [h] + b == a + [h];
      assert (a + [h])[..|a|] == a;
      assert a + b == a;
    } else {
      var b' := b[..|b| - 1];
      IgnoresOther(a, h, b');
      assert (a + [h] + b)[..|a + [h] + b| - 1] == a + [h] + b';
      assert (a + b)[..|a + b| - 1] == a + b';
    }
  }

  /** A can anywhere in the list rejects, whatever the order of the hits. */
  lemma OverlapIgnoresOrder(a: seq<Hit>, b: seq<Hit>)
    requires multiset(a) == multiset(b)
    ensures Classify(a) == Overlap <==> Classify(b) == Overlap
  {
    ClassifySpec(a);
    ClassifySpec(b);
    if exists i :: 0 <= i < |a| && a[i].name == CanName {
      var i :| 0 <= i < |a| && a[i].name == CanName;
      assert a[i] in multiset(b);
      var j :| 0 <= j < |b| && b[j] == a[i];
    }
    if exists j :: 0 <= j < |b| && b[j].name == CanName {
      var j :| 0 <= j < |b| && b[j].name == CanName;
      assert b[j] in multiset(a);
      var i :| 0 <= i < |a| && a[i] == b[j];
    }
  }

  /**
    The classification depends on the names alone: two hit lists that name
    the same objects in the same order get the same verdict, and a Water
    verdict picks the same position in both.
   */
  lemma {:induction false} NamesDecide(a: seq<Hit>, b: seq<Hit>)
    requires |a| == |b|
    requires forall i :: 0 <= i < |a| ==> a[i].name == b[i].name
    ensures AnyCan(a) == AnyCan(b)
    ensures LastWater(a).None? == LastWater(b).None?
    ensures LastWater(a).Some? ==>
              exists i :: 0 <= i < |a| && LastWater(a) == Some(a[i]) && LastWater(b) == Some(b[i])
  {
    if |a| > 0 {
      var n := |a| - 1;
      var a', b' := a[..n], b[..n];
      NamesDecide(a', b');
      if a[n].name != WaterName && LastWater(a').Some? {
        var i :| 0 <= i < |a'| && LastWater(a') == Some(a'[i]) && LastWater(b') == Some(b'[i]);
        assert a'[i] == a[i] && b'[i] == b[i];
      }
    }
  }
}
