/**
 * `SimpleTestSpawner`: a cylinder on each recognised image (one per image name,
 * shown while the image is tracking, never removed by the spawner), manual test
 * cylinders on touch, click or button with a running counter, and a reset button
 * that forgets the image cylinders.
 */
module TestSpawner {
  import opened CSharpInt
  import opened ARTracking

  /** The "last image found" line. */
  datatype LastFound = NotYetFound | FoundImage(name: string) | ResetDone

  /**
   * What the spawner changes: the image cylinders by name, the last-found line,
   * the manual spawn counter, and how many manual cylinders were actually created.
   */
  datatype SpawnerState = SpawnerState(spawned: map<string, SceneObject>, lastFound: LastFound, spawnCount: Int32, created: nat)

  /** `SpawnOnARImage`: nothing for an image that already has a cylinder; otherwise a new active one. */
  function SpawnOnImage(s: SpawnerState, name: string): (r: SpawnerState)
    ensures name in r.spawned
    ensures name in s.spawned ==> r == s
    ensures name !in s.spawned ==> r == s.(spawned := s.spawned[name := SceneObject(true)])
  {
    if name in s.spawned then s else s.(spawned := s.spawned[name := SceneObject(true)])
  }

  function AddedStep(s: SpawnerState, image: TrackedImage): SpawnerState
  {
    SpawnOnImage(s.(lastFound := FoundImage(image.name)), image.name)
  }

  /** One updated image: an existing cylinder is shown exactly while the image is tracking. */
  function UpdatedStep(s: SpawnerState, image: TrackedImage): SpawnerState
  {
    if image.name in s.spawned then s.(spawned := s.spawned[image.name := SceneObject(IsTracking(image))]) else s
  }

  function AddedAll(s: SpawnerState, images: seq<TrackedImage>): SpawnerState
    decreases |images|
  {
    if |images| == 0 then s else AddedStep(AddedAll(s, images[..|images| - 1]), images[|images| - 1])
  }

  function UpdatedAll(s: SpawnerState, images: seq<TrackedImage>): SpawnerState
    decreases |images|
  {
    if |images| == 0 then s else UpdatedStep(UpdatedAll(s, images[..|images| - 1]), images[|images| - 1])
  }

  /** `OnImagesChanged`: the added images, then the updated ones; removed images are not handled. */
  function ImagesChanged(s: SpawnerState, batch: TrackedImagesChanged): SpawnerState
  {
    UpdatedAll(AddedAll(s, batch.added), batch.updated)
  }

  /**
   * The added images: each gets a cylinder, no existing cylinder is touched,
   * every new cylinder is active, and the last-found line names the last image.
   */
  lemma {:induction false} AddedAllSpawns(s: SpawnerState, images: seq<TrackedImage>)
    ensures var r := AddedAll(s, images);
      && r.spawned.Keys == s.spawned.Keys + Names(images)
      && (forall k :: k in s.spawned ==> r.spawned[k] == s.spawned[k])
      && (forall k :: k in r.spawned && k !in s.spawned ==> r.spawned[k] == SceneObject(true))
      && r.lastFound == (if |images| == 0 then s.lastFound else FoundImage(images[|images| - 1].name))
      && r.spawnCount == s.spawnCount && r.created == s.created
    decreases |images|
  {
    if |images| > 0 {
      AddedAllSpawns(s, images[..|images| - 1]);
      NamesOfPrefix(images);
    }
  }

  /**
   * The updated images: no cylinder is created or dropped, a cylinder whose image
   * was not updated is left alone, and every other one ends shown exactly when
   * the last update for its image is tracking.
   */
  lemma {:induction false} UpdatedAllShows(s: SpawnerState, images: seq<TrackedImage>)
    ensures var r := UpdatedAll(s, images);
      && r.spawned.Keys == s.spawned.Keys
      && (forall k :: k in s.spawned && k !in Names(images) ==> r.spawned[k] == s.spawned[k])
      && (forall k :: k in s.spawned && k in Names(images) ==>
            r.spawned[k] == SceneObject(IsTracking(images[LastNamed(images, k)])))
      && r.lastFound == s.lastFound && r.spawnCount == s.spawnCount && r.created == s.created
    decreases |images|
  {
    if |images| > 0 {
      var prefix := images[..|images| - 1];
      var last := images[|images| - 1];
      UpdatedAllShows(s, prefix);
      NamesOfPrefix(images);
      LastNamedOfPrefix(images);
      UpdatedStepShows(UpdatedAll(s, prefix), last);
    }
  }

  /** One update changes at most the cylinder of its own image, which it shows exactly when the image is tracking. */
  lemma UpdatedStepShows(s: SpawnerState, image: TrackedImage)
    ensures var r := UpdatedStep(s, image);
      && r.spawned.Keys == s.spawned.Keys
      && (forall k :: k in s.spawned && k != image.name ==> r.spawned[k] == s.spawned[k])
      && (image.name in s.spawned ==> r.spawned[image.name] == SceneObject(IsTracking(image)))
      && r.lastFound == s.lastFound && r.spawnCount == s.spawnCount && r.created == s.created
  {
  }

  /** A batch never forgets a cylinder, whatever it removes: the cylinders are the old ones plus one per added image. */
  lemma BatchKeepsCylinders(s: SpawnerState, batch: TrackedImagesChanged)
    ensures ImagesChanged(s, batch).spawned.Keys == s.spawned.Keys + Names(batch.added)
  {
    AddedAllSpawns(s, batch.added);
    UpdatedAllShows(AddedAll(s, batch.added), batch.updated);
  }

  /** `SpawnCylinder`: the counter goes up first, then a cylinder is made only if a camera is found. */
  function ManualSpawn(s: SpawnerState, cameraExists: bool): SpawnerState
  {
    s.(spawnCount := Wrap32(s.spawnCount + 1), created := if cameraExists then s.created + 1 else s.created)
  }

  /** Several manual spawns, one per entry saying whether a camera was found that time. */
  function SpawnAll(s: SpawnerState, cameras: seq<bool>): SpawnerState
    decreases |cameras|
  {
    if |cameras| == 0 then s else ManualSpawn(SpawnAll(s, cameras[..|cameras| - 1]), cameras[|cameras| - 1])
  }

  function CountTrue(bs: seq<bool>): nat
    decreases |bs|
  {
    if |bs| == 0 then 0 else CountTrue(bs[..|bs| - 1]) + (if bs[|bs| - 1] then 1 else 0)
  }

  /**
   * Every manual spawn counts, with or without a camera (wrapping like a C# `int`),
   * while cylinders appear only for the spawns that found a camera; image
   * cylinders are untouched.
   */
  lemma {:induction false} SpawnsAreCounted(s: SpawnerState, cameras: seq<bool>)
    ensures var r := SpawnAll(s, cameras);
      && r.spawnCount == Wrap32(s.spawnCount + |cameras|)
      && r.created == s.created + CountTrue(cameras)
      && r.spawned == s.spawned && r.lastFound == s.lastFound
    decreases |cameras|
  {
    if |cameras| == 0 {
      assert Wrap32(s.spawnCount + 0) == s.spawnCount;
    } else {
      var prefix := cameras[..|cameras| - 1];
      SpawnsAreCounted(s, prefix);
      Wrap32AddWrapped(s.spawnCount + |prefix|, 1);
    }
  }

  /** `AR RESET`: every image cylinder is forgotten; the counters are kept. */
  function Reset(s: SpawnerState): (r: SpawnerState)
    ensures r.spawned == map[] && r.lastFound == ResetDone
    ensures r.spawnCount == s.spawnCount && r.created == s.created
  {
    s.(spawned := map[], lastFound := ResetDone)
  }

  /** After a reset the next found image spawns again, even one that had a cylinder before. */
  lemma ResetAllowsRespawn(s: SpawnerState, image: TrackedImage)
    ensures AddedStep(Reset(s), image).spawned == map[image.name := SceneObject(true)]
  {
  }

  class SimpleTestSpawner {
    /** The inspector's `isActive` switch, a public field the scene may flip at run time; no handler changes it. */
    var isActive: bool
    var spawnCount: Int32
    var arSpawnedObjects: map<string, SceneObject>
    var lastFoundImage: LastFound
    var createdCylinders: nat

    function State(): SpawnerState
      reads this
    {
      SpawnerState(arSpawnedObjects, lastFoundImage, spawnCount, createdCylinders)
    }

    constructor (isActive: bool)
      ensures this.isActive == isActive
      ensures State() == SpawnerState(map[], NotYetFound, 0, 0)
    {
      this.isActive := isActive;
      spawnCount := 0;
      arSpawnedObjects := map[];
      lastFoundImage := NotYetFound;
      createdCylinders := 0;
    }

    method OnImagesChanged(batch: TrackedImagesChanged)
      modifies this
      ensures isActive == old(isActive)
      ensures State() == ImagesChanged(old(State()), batch)
    {
      HandleAdded(batch.added);
      HandleUpdated(batch.updated);
    }

    method HandleAdded(images: seq<TrackedImage>)
      modifies this
      ensures isActive == old(isActive)
      ensures State() == AddedAll(old(State()), images)
    {
      for n := 0 to |images|
        invariant isActive == old(isActive)
        invariant State() == AddedAll(old(State()), images[..n])
      {
        lastFoundImage := FoundImage(images[n].name);
        SpawnOnARImage(images[n].name);
        assert images[..n + 1][..n] == images[..n];
      }
      assert images[..|images|] == images;
    }

    method HandleUpdated(images: seq<TrackedImage>)
      modifies this
      ensures isActive == old(isActive)
      ensures State() == UpdatedAll(old(State()), images)
    {
      for n := 0 to |images|
        invariant isActive == old(isActive)
        invariant State() == UpdatedAll(old(State()), images[..n])
      {
        var name := images[n].name;
        if name in arSpawnedObjects {
          var isTracking := images[n].trackingState == Tracking;
          arSpawnedObjects := arSpawnedObjects[name := SceneObject(isTracking)];
        }
        assert images[..n + 1][..n] == images[..n];
      }
      assert images[..|images|] == images;
    }

    method SpawnOnARImage(name: string)
      modifies this
      ensures isActive == old(isActive)
      ensures State() == SpawnOnImage(old(State()), name)
    {
      if name in arSpawnedObjects {
        return;
      }
      arSpawnedObjects := arSpawnedObjects[name := SceneObject(true)];
    }

    method SpawnCylinder(cameraExists: bool)
      modifies this
      ensures isActive == old(isActive)
      ensures State() == ManualSpawn(old(State()), cameraExists)
    {
      var next: int := spawnCount + 1;
      spawnCount := Wrap32(next);
      if !cameraExists {
        return;
      }
      createdCylinders := createdCylinders + 1;
    }

    /**
     * `Update`: when active, a touch that began and a mouse click each spawn a
     * cylinder (both in one frame spawn two).
     */
    method Update(touchBegan: bool, mouseDown: bool, cameraExists: bool)
      modifies this
      ensures isActive == old(isActive)
      ensures State() == if !old(isActive) then old(State())
        else SpawnAll(old(State()), (if touchBegan then [cameraExists] else []) + (if mouseDown then [cameraExists] else []))
    {
      if !isActive {
        return;
      }
      ghost var cameras: seq<bool> := [];
      if touchBegan {
        SpawnCylinder(cameraExists);
        cameras := [cameraExists];
        assert SpawnAll(old(State()), cameras) == State() by {
          assert cameras[..0] == [];
        }
      }
      if mouseDown {
        SpawnCylinder(cameraExists);
        assert (cameras + [cameraExists])[..|cameras|] == cameras;
        cameras := cameras + [cameraExists];
      }
      assert cameras == (if touchBegan then [cameraExists] else []) + (if mouseDown then [cameraExists] else []);
    }

    /** The `MANUEL SPAWN` button, drawn only while the spawner is active. */
    method ManualSpawnButton(cameraExists: bool)
      modifies this
      ensures isActive == old(isActive)
      ensures State() == if old(isActive) then ManualSpawn(old(State()), cameraExists) else old(State())
    {
      if isActive {
        SpawnCylinder(cameraExists);
      }
    }

    /** The `AR RESET` button, drawn only while the spawner is active. */
    method ResetButton()
      modifies this
      ensures isActive == old(isActive)
      ensures State() == if old(isActive) then Reset(old(State())) else old(State())
    {
      if isActive {
        arSpawnedObjects := map[];
        lastFoundImage := ResetDone;
      }
    }
  }
}
