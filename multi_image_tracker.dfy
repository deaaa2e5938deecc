/**
 * `MultiImageTracker`: in the new mode it only forwards each image of a batch
 * as an (image, is tracking) notification; in the legacy mode it instantiates
 * the prefab of the first matching (image name, prefab) pairing once per image
 * name and toggles that object's visibility on updates.
 */
module ImageTracker {
  import opened Wrappers
  import opened ARTracking

  /** A legacy object: which pairing it was made from, and whether it is active. */
  datatype LegacyObject = LegacyObject(pairIndex: nat, visible: bool)

  /** The first pairing whose image name is `name`. */
  function FirstPairing(pairings: seq<string>, name: string): (r: Option<nat>)
    ensures r.Some? ==> r.value < |pairings| && pairings[r.value] == name
    ensures r.Some? ==> forall j :: 0 <= j < r.value ==> pairings[j] != name
    ensures r.None? ==> forall j :: 0 <= j < |pairings| ==> pairings[j] != name
  {
    FindFirst(pairings, (p: string) => p == name)
  }

  /** Every object was made from the first pairing that names its image. */
  predicate WellPaired(objects: map<string, LegacyObject>, pairings: seq<string>)
  {
    forall name :: name in objects ==> FirstPairing(pairings, name) == Some(objects[name].pairIndex)
  }

  /** One added image: skipped when its name already has an object or no pairing names it. */
  function LegacyAdd(objects: map<string, LegacyObject>, pairings: seq<string>, name: string): (r: map<string, LegacyObject>)
    ensures name in objects ==> r == objects
    ensures name !in objects && FirstPairing(pairings, name).None? ==> r == objects
    ensures name !in objects && FirstPairing(pairings, name).Some? ==>
      r == objects[name := LegacyObject(FirstPairing(pairings, name).value, true)]
  {
    if name in objects then objects
    else match FirstPairing(pairings, name)
      case None => objects
      case Some(k) => objects[name := LegacyObject(k, true)]
  }

  /**
   * The added images of a batch, in order: existing objects are kept, every added
   * image that some pairing names ends with an object, and every new object is
   * active, belongs to an added image and comes from that image's first pairing.
   */
  function LegacyAddAll(objects: map<string, LegacyObject>, pairings: seq<string>, images: seq<TrackedImage>): (r: map<string, LegacyObject>)
    ensures objects.Keys <= r.Keys
    ensures forall name :: name in objects ==> r[name] == objects[name]
    ensures forall j :: 0 <= j < |images| && FirstPairing(pairings, images[j].name).Some? ==> images[j].name in r
    ensures forall name :: name in r && name !in objects ==>
      name in Names(images) && r[name].visible && FirstPairing(pairings, name) == Some(r[name].pairIndex)
    decreases |images|
  {
    if |images| == 0 then objects
    else
      var prefix := images[..|images| - 1];
      NamesOfPrefix(images);
      assert forall j :: 0 <= j < |prefix| ==> images[j] == prefix[j];
      LegacyAdd(LegacyAddAll(objects, pairings, prefix), pairings, images[|images| - 1].name)
  }

  /** One updated image: only an existing object changes, active exactly when `Tracking`. */
  function LegacyUpdate(objects: map<string, LegacyObject>, image: TrackedImage): (r: map<string, LegacyObject>)
    ensures r.Keys == objects.Keys
    ensures image.name in objects ==> r[image.name] == objects[image.name].(visible := IsTracking(image))
    ensures forall name :: name in objects && name != image.name ==> r[name] == objects[name]
  {
    if image.name in objects then objects[image.name := objects[image.name].(visible := IsTracking(image))]
    else objects
  }

  /**
   * The updated images, in order: the same objects with the same pairings; an object
   * whose image is not updated is left alone, and any other ends active exactly when
   * the last update for its image is `Tracking`.
   */
  function LegacyUpdateAll(objects: map<string, LegacyObject>, images: seq<TrackedImage>): (r: map<string, LegacyObject>)
    ensures r.Keys == objects.Keys
    ensures forall name :: name in objects ==> r[name].pairIndex == objects[name].pairIndex
    ensures forall name :: name in objects && name !in Names(images) ==> r[name] == objects[name]
    ensures forall name :: name in objects && name in Names(images) ==>
      r[name].visible == IsTracking(images[LastNamed(images, name)])
    decreases |images|
  {
    if |images| == 0 then objects
    else
      NamesOfPrefix(images);
      LastNamedOfPrefix(images);
      LegacyUpdate(LegacyUpdateAll(objects, images[..|images| - 1]), images[|images| - 1])
  }

  /** `ProcessForLegacySystem`: the added images, then the updated ones; removed images are ignored. */
  function LegacyBatch(objects: map<string, LegacyObject>, pairings: seq<string>, batch: TrackedImagesChanged): (r: map<string, LegacyObject>)
    ensures objects.Keys <= r.Keys
    ensures forall name :: name in objects ==> r[name].pairIndex == objects[name].pairIndex
    ensures forall j :: 0 <= j < |batch.added| && FirstPairing(pairings, batch.added[j].name).Some? ==> batch.added[j].name in r
    ensures forall name :: name in r && name !in objects ==>
      name in Names(batch.added) && FirstPairing(pairings, name) == Some(r[name].pairIndex)
    ensures forall name :: name in r && name !in Names(batch.updated) ==>
      r[name].visible == (name !in objects || objects[name].visible)
    ensures forall name :: name in r && name in Names(batch.updated) ==>
      r[name].visible == IsTracking(batch.updated[LastNamed(batch.updated, name)])
  {
    LegacyUpdateAll(LegacyAddAll(objects, pairings, batch.added), batch.updated)
  }

  /**
   * Adding never replaces an object, so there is at most one per image name, and
   * every new object comes from an added image and its first pairing.
   */
  lemma {:induction false} LegacyAddAllKeepsObjects(objects: map<string, LegacyObject>, pairings: seq<string>, images: seq<TrackedImage>)
    requires WellPaired(objects, pairings)
    ensures var r := LegacyAddAll(objects, pairings, images);
      && WellPaired(r, pairings)
      && (forall name :: name in objects ==> name in r && r[name] == objects[name])
      && (forall name :: name in r && name !in objects ==>
            r[name].visible && exists j :: 0 <= j < |images| && images[j].name == name)
      && (forall j :: 0 <= j < |images| && FirstPairing(pairings, images[j].name).Some? ==> images[j].name in r)
    decreases |images|
  {
    if |images| > 0 {
      var init := images[..|images| - 1];
      LegacyAddAllKeepsObjects(objects, pairings, init);
      var last := images[|images| - 1];
      var prev := LegacyAddAll(objects, pairings, init);
      var r := LegacyAdd(prev, pairings, last.name);
      forall name | name in r && name !in objects
        ensures r[name].visible && exists j :: 0 <= j < |images| && images[j].name == name
      {
        if name in prev {
          var j :| 0 <= j < |init| && init[j].name == name;
          assert images[j] == init[j];
        } else {
          assert name == last.name;
          assert images[|images| - 1].name == name;
        }
      }
    }
  }

  /** Updating changes visibility only: the same names, the same pairings. */
  lemma {:induction false} LegacyUpdateAllKeepsPairs(objects: map<string, LegacyObject>, images: seq<TrackedImage>)
    ensures var r := LegacyUpdateAll(objects, images);
      && r.Keys == objects.Keys
      && forall name :: name in objects ==> r[name].pairIndex == objects[name].pairIndex
    decreases |images|
  {
    if |images| > 0 {
      LegacyUpdateAllKeepsPairs(objects, images[..|images| - 1]);
    }
  }

  /** The legacy path keeps every object paired with its first pairing. */
  lemma LegacyBatchWellPaired(objects: map<string, LegacyObject>, pairings: seq<string>, batch: TrackedImagesChanged)
    requires WellPaired(objects, pairings)
    ensures WellPaired(LegacyBatch(objects, pairings, batch), pairings)
  {
    var added := LegacyAddAll(objects, pairings, batch.added);
    LegacyAddAllKeepsObjects(objects, pairings, batch.added);
    LegacyUpdateAllKeepsPairs(added, batch.updated);
  }

  /** Three appends in a row append the batch's signals. */
  lemma SignalsAppend(e0: seq<ImageSignal>, e1: seq<ImageSignal>, e2: seq<ImageSignal>, e3: seq<ImageSignal>, batch: TrackedImagesChanged)
    requires e1 == e0 + AddedSignals(batch.added)
    requires e2 == e1 + UpdatedSignals(batch.updated)
    requires e3 == e2 + RemovedSignals(batch.removed)
    ensures e3 == e0 + TrackingSignals(batch)
  {
    AppendThree(e0, AddedSignals(batch.added), UpdatedSignals(batch.updated), RemovedSignals(batch.removed));
  }

  lemma AppendThree<T>(x: seq<T>, a: seq<T>, b: seq<T>, c: seq<T>)
    ensures x + a + b + c == x + (a + b + c)
  {
  }

  class MultiImageTracker {
    const useNewSystem: bool
    /** The image names of the `eslesmeler` pairings, in order; pairing `k` holds prefab `k`. */
    const pairings: seq<string>
    /** `olusanObjeler`: the legacy object made for each image name. */
    var spawned: map<string, LegacyObject>
    /** The `OnImageTrackingChanged` notifications raised so far. */
    var emitted: seq<ImageSignal>

    predicate Valid()
      reads this
    {
      WellPaired(spawned, pairings)
    }

    constructor (useNewSystem: bool, pairings: seq<string>)
      ensures this.useNewSystem == useNewSystem && this.pairings == pairings
      ensures spawned == map[] && emitted == [] && Valid()
    {
      this.useNewSystem := useNewSystem;
      this.pairings := pairings;
      spawned := map[];
      emitted := [];
    }

    /** `OnChanged`: one mode or the other, never both. */
    method OnChanged(batch: TrackedImagesChanged)
      requires Valid()
      modifies this
      ensures Valid()
      ensures useNewSystem ==> spawned == old(spawned) && emitted == old(emitted) + TrackingSignals(batch)
      ensures !useNewSystem ==> emitted == old(emitted) && spawned == LegacyBatch(old(spawned), pairings, batch)
    {
      if useNewSystem {
        ProcessForNewSystem(batch);
        return;
      }
      LegacyBatchWellPaired(spawned, pairings, batch);
      ProcessForLegacySystem(batch);
    }

    /** `ProcessForNewSystem`: the notifications of a batch, appended in order. */
    method ProcessForNewSystem(batch: TrackedImagesChanged)
      modifies this
      ensures emitted == old(emitted) + TrackingSignals(batch)
      ensures spawned == old(spawned)
    {
      ghost var before := emitted;
      EmitAdded(batch.added);
      ghost var e1 := emitted;
      EmitUpdated(batch.updated);
      ghost var e2 := emitted;
      EmitRemoved(batch.removed);
      SignalsAppend(before, e1, e2, emitted, batch);
    }

    /** The first `foreach` of `ProcessForNewSystem`: every added image as tracking. */
    method EmitAdded(images: seq<TrackedImage>)
      modifies this
      ensures emitted == old(emitted) + AddedSignals(images) && spawned == old(spawned)
    {
      var signals := AddedSignals(images);
      for n := 0 to |images|
        invariant emitted == old(emitted) + signals[..n] && spawned == old(spawned)
      {
        emitted := emitted + [ImageSignal(images[n].name, true)];
        assert signals[..n + 1] == signals[..n] + [signals[n]];
      }
      assert signals[..|images|] == signals;
    }

    /** The second `foreach`: every updated image as tracking exactly when its state is `Tracking`. */
    method EmitUpdated(images: seq<TrackedImage>)
      modifies this
      ensures emitted == old(emitted) + UpdatedSignals(images) && spawned == old(spawned)
    {
      var signals := UpdatedSignals(images);
      for n := 0 to |images|
        invariant emitted == old(emitted) + signals[..n] && spawned == old(spawned)
      {
        var isTracking := images[n].trackingState == Tracking;
        emitted := emitted + [ImageSignal(images[n].name, isTracking)];
        assert signals[..n + 1] == signals[..n] + [signals[n]];
      }
      assert signals[..|images|] == signals;
    }

    /** The third `foreach`: every removed image as not tracking. */
    method EmitRemoved(images: seq<TrackedImage>)
      modifies this
      ensures emitted == old(emitted) + RemovedSignals(images) && spawned == old(spawned)
    {
      var signals := RemovedSignals(images);
      for n := 0 to |images|
        invariant emitted == old(emitted) + signals[..n] && spawned == old(spawned)
      {
        emitted := emitted + [ImageSignal(images[n].name, false)];
        assert signals[..n + 1] == signals[..n] + [signals[n]];
      }
      assert signals[..|images|] == signals;
    }

    /** `ProcessForLegacySystem`: the added images, then the updated ones. */
    method ProcessForLegacySystem(batch: TrackedImagesChanged)
      modifies this
      ensures spawned == LegacyBatch(old(spawned), pairings, batch)
      ensures emitted == old(emitted)
    {
      AddLegacyObjects(batch.added);
      UpdateLegacyObjects(batch.updated);
    }

    /** The first `foreach`: a new object from the first pairing naming each added image. */
    method AddLegacyObjects(images: seq<TrackedImage>)
      modifies this
      ensures spawned == LegacyAddAll(old(spawned), pairings, images)
      ensures emitted == old(emitted)
    {
      for n := 0 to |images|
        invariant spawned == LegacyAddAll(old(spawned), pairings, images[..n])
        invariant emitted == old(emitted)
      {
        assert images[..n + 1][..n] == images[..n];
        var name := images[n].name;
        if name in spawned {
          continue;
        }
        var k := 0;
        while k < |pairings|
          invariant 0 <= k <= |pairings|
          invariant forall j :: 0 <= j < k ==> pairings[j] != name
          invariant spawned == LegacyAddAll(old(spawned), pairings, images[..n])
          invariant emitted == old(emitted)
        {
          if pairings[k] == name {
            spawned := spawned[name := LegacyObject(k, true)];
            break;
          }
          k := k + 1;
        }
      }
      assert images[..|images|] == images;
    }

    /** The second `foreach`: each updated image's object made active exactly when it is tracking. */
    method UpdateLegacyObjects(images: seq<TrackedImage>)
      modifies this
      ensures spawned == LegacyUpdateAll(old(spawned), images)
      ensures emitted == old(emitted)
    {
      for n := 0 to |images|
        invariant spawned == LegacyUpdateAll(old(spawned), images[..n])
        invariant emitted == old(emitted)
      {
        assert images[..n + 1][..n] == images[..n];
        var image := images[n];
        if image.name in spawned {
          spawned := spawned[image.name := spawned[image.name].(visible := image.trackingState == Tracking)];
        }
      }
      assert images[..|images|] == images;
    }
  }
}
