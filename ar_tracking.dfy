/**
 * What the AR image tracker delivers: batches of added, updated and removed
 * tracked images, each with the name of its reference image and a tri-state
 * tracking status. Poses are not modelled.
 */
module ARTracking {

  /** AR Foundation's `TrackingState` (None, Limited, Tracking). */
  datatype TrackingState = NoTracking | Limited | Tracking

  datatype TrackedImage = TrackedImage(name: string, trackingState: TrackingState)

  /** `ARTrackedImagesChangedEventArgs`. */
  datatype TrackedImagesChanged = TrackedImagesChanged(
    added: seq<TrackedImage>,
    updated: seq<TrackedImage>,
    removed: seq<TrackedImage>)

  /** One "(image, is tracking)" signal, as the new-system event and the verifier consume it. */
  datatype ImageSignal = ImageSignal(imageName: string, isTracking: bool)

  /** A scene object spawned on an image (a cylinder or prefab instance) and whether it is active. */
  datatype SceneObject = SceneObject(visible: bool)

  /** The tri-state status collapsed to a boolean: only `Tracking` counts. */
  predicate IsTracking(image: TrackedImage)
  {
    image.trackingState == Tracking
  }

  function AddedSignals(images: seq<TrackedImage>): (r: seq<ImageSignal>)
    ensures |r| == |images|
    ensures forall j :: 0 <= j < |r| ==> r[j] == ImageSignal(images[j].name, true)
  {
    if |images| == 0 then [] else [ImageSignal(images[0].name, true)] + AddedSignals(images[1..])
  }

  function UpdatedSignals(images: seq<TrackedImage>): (r: seq<ImageSignal>)
    ensures |r| == |images|
    ensures forall j :: 0 <= j < |r| ==> r[j] == ImageSignal(images[j].name, IsTracking(images[j]))
  {
    if |images| == 0 then []
    else [ImageSignal(images[0].name, IsTracking(images[0]))] + UpdatedSignals(images[1..])
  }

  function RemovedSignals(images: seq<TrackedImage>): (r: seq<ImageSignal>)
    ensures |r| == |images|
    ensures forall j :: 0 <= j < |r| ==> r[j] == ImageSignal(images[j].name, false)
  {
    if |images| == 0 then [] else [ImageSignal(images[0].name, false)] + RemovedSignals(images[1..])
  }

  /**
   * The signals a batch produces, in the order both consumers handle it: the
   * added images, then the updated ones, then the removed ones.
   */
  function TrackingSignals(batch: TrackedImagesChanged): (r: seq<ImageSignal>)
    ensures |r| == |batch.added| + |batch.updated| + |batch.removed|
  {
    AddedSignals(batch.added) + UpdatedSignals(batch.updated) + RemovedSignals(batch.removed)
  }

  /**
   * Every added image is reported as tracking, every updated image as tracking
   * exactly when its state is `Tracking`, every removed image as not tracking.
   */
  lemma TrackingSignalsOrder(batch: TrackedImagesChanged)
    ensures var r := TrackingSignals(batch);
      && (forall j :: 0 <= j < |batch.added| ==> r[j] == ImageSignal(batch.added[j].name, true))
      && (forall j :: 0 <= j < |batch.updated| ==>
            r[|batch.added| + j] == ImageSignal(batch.updated[j].name, batch.updated[j].trackingState == Tracking))
      && (forall j :: 0 <= j < |batch.removed| ==>
            r[|batch.added| + |batch.updated| + j] == ImageSignal(batch.removed[j].name, false))
  {
  }

  // ----- Image names -----

  /** The names of a run of images. */
  function Names(images: seq<TrackedImage>): set<string>
  {
    set j | 0 <= j < |images| :: images[j].name
  }

  lemma NamesOfPrefix(images: seq<TrackedImage>)
    requires |images| > 0
    ensures Names(images) == Names(images[..|images| - 1]) + {images[|images| - 1].name}
  {
    var prefix := images[..|images| - 1];
    forall k | k in Names(images) ensures k in Names(prefix) + {images[|images| - 1].name} {
      var j :| 0 <= j < |images| && images[j].name == k;
      if j < |images| - 1 {
        assert prefix[j] == images[j];
      }
    }
    forall k | k in Names(prefix) ensures k in Names(images) {
      var j :| 0 <= j < |prefix| && prefix[j].name == k;
      assert images[j] == prefix[j];
    }
  }

  /** The index of the last image named `name`. */
  function LastNamed(images: seq<TrackedImage>, name: string): (j: nat)
    requires name in Names(images)
    ensures j < |images| && images[j].name == name
    ensures forall k :: j < k < |images| ==> images[k].name != name
    decreases |images|
  {
    NamesOfPrefix(images);
    if images[|images| - 1].name == name then |images| - 1 else LastNamed(images[..|images| - 1], name)
  }

  /** Below the last image, an image name other than the last one's has the same last index in the shorter run. */
  lemma LastNamedOfPrefix(images: seq<TrackedImage>)
    requires |images| > 0
    ensures var prefix := images[..|images| - 1];
      forall name :: name in Names(images) && name != images[|images| - 1].name ==>
        name in Names(prefix) && LastNamed(images, name) == LastNamed(prefix, name)
  {
    NamesOfPrefix(images);
  }
}
