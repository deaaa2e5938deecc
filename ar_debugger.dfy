/**
 * `ARDebugger`: an on-screen log of the last 15 messages, a cylinder spawned on
 * each recognised image (one per image name), and a tracking summary line.
 */
module ARDebug {
  import opened ARTracking

  /** The log keeps at most this many lines. */
  const MaxLogMessages: nat := 15

  /** The tracking summary line: waiting, the last image found, or "tracking/total". */
  datatype TrackingStatus = Waiting | Found(name: string) | Counted(tracking: nat, total: nat)

  /** What the image callbacks change: the log, the cylinders by image name, and the tracking line. */
  datatype DebuggerState = DebuggerState(log: seq<string>, spawned: map<string, SceneObject>, trackingStatus: TrackingStatus)

  /** A log line: the time of day in brackets, then the message. */
  function LogLine(timestamp: string, message: string): string
  {
    "[" + timestamp + "] " + message
  }

  /** `AddLog`: append the line, then drop the oldest if the log is over its bound. */
  function WithLog(log: seq<string>, line: string): (r: seq<string>)
    ensures |log| <= MaxLogMessages ==> |r| <= MaxLogMessages
    ensures |r| > 0 && r[|r| - 1] == line
  {
    var appended := log + [line];
    if |appended| > MaxLogMessages then appended[1..] else appended
  }

  /** Several `AddLog` calls in order. */
  function LogAll(log: seq<string>, lines: seq<string>): seq<string>
    decreases |lines|
  {
    if |lines| == 0 then log else WithLog(LogAll(log, lines[..|lines| - 1]), lines[|lines| - 1])
  }

  /** The newest `MaxLogMessages` lines of a history. */
  function Newest(history: seq<string>): (r: seq<string>)
    ensures |r| <= MaxLogMessages
  {
    if |history| <= MaxLogMessages then history else history[|history| - MaxLogMessages..]
  }

  lemma WithLogNewest(history: seq<string>, line: string)
    ensures WithLog(Newest(history), line) == Newest(history + [line])
  {
    var longer := history + [line];
    if |history| > MaxLogMessages {
      assert (Newest(history) + [line])[1..] == longer[|longer| - MaxLogMessages..];
    }
  }

  /** Starting from a log within its bound, any run of `AddLog` calls leaves exactly the newest 15 lines of everything logged. */
  lemma {:induction false} LogKeepsNewest(log: seq<string>, lines: seq<string>)
    requires |log| <= MaxLogMessages
    ensures LogAll(log, lines) == Newest(log + lines)
    decreases |lines|
  {
    if |lines| > 0 {
      var prefix := lines[..|lines| - 1];
      var last := lines[|lines| - 1];
      LogKeepsNewest(log, prefix);
      WithLogNewest(log + prefix, last);
      assert log + prefix + [last] == log + lines;
    }
  }

  function AddLogTo(s: DebuggerState, timestamp: string, message: string): DebuggerState
  {
    s.(log := WithLog(s.log, LogLine(timestamp, message)))
  }

  /** `SpawnCylinderOnImage`: an image that already has a cylinder only logs so; otherwise a new active cylinder is recorded. */
  function SpawnCylinder(s: DebuggerState, name: string, timestamp: string): (r: DebuggerState)
    ensures name in r.spawned
    ensures name in s.spawned ==> r.spawned == s.spawned
    ensures name !in s.spawned ==> r.spawned == s.spawned[name := SceneObject(true)]
    ensures r.trackingStatus == s.trackingStatus
  {
    if name in s.spawned then AddLogTo(s, timestamp, "Zaten var: " + name)
    else AddLogTo(s.(spawned := s.spawned[name := SceneObject(true)]), timestamp, "Silindir olusturuldu: " + name)
  }

  /** One added image: logged, shown as found, and given a cylinder when spawning is on. */
  function AddedStep(s: DebuggerState, image: TrackedImage, timestamp: string, spawnOnImageFound: bool): DebuggerState
  {
    var found := AddLogTo(s, timestamp, ">>> GORSEL BULUNDU: " + image.name + " <<<").(trackingStatus := Found(image.name));
    if spawnOnImageFound then SpawnCylinder(found, image.name, timestamp) else found
  }

  /** One updated image: its cylinder, if any, is shown exactly when the image is tracking. */
  function UpdatedStep(s: DebuggerState, image: TrackedImage): DebuggerState
  {
    if image.name in s.spawned then s.(spawned := s.spawned[image.name := SceneObject(IsTracking(image))]) else s
  }

  /** One removed image: logged, and its cylinder destroyed and forgotten. */
  function RemovedStep(s: DebuggerState, image: TrackedImage, timestamp: string): DebuggerState
  {
    var logged := AddLogTo(s, timestamp, "Gorsel kayboldu: " + image.name);
    if image.name in s.spawned then logged.(spawned := s.spawned - {image.name}) else logged
  }

  function AddedAll(s: DebuggerState, images: seq<TrackedImage>, timestamp: string, spawnOnImageFound: bool): DebuggerState
    decreases |images|
  {
    if |images| == 0 then s
    else AddedStep(AddedAll(s, images[..|images| - 1], timestamp, spawnOnImageFound), images[|images| - 1], timestamp, spawnOnImageFound)
  }

  function UpdatedAll(s: DebuggerState, images: seq<TrackedImage>): DebuggerState
    decreases |images|
  {
    if |images| == 0 then s else UpdatedStep(UpdatedAll(s, images[..|images| - 1]), images[|images| - 1])
  }

  function RemovedAll(s: DebuggerState, images: seq<TrackedImage>, timestamp: string): DebuggerState
    decreases |images|
  {
    if |images| == 0 then s else RemovedStep(RemovedAll(s, images[..|images| - 1], timestamp), images[|images| - 1], timestamp)
  }

  /** `OnTrackedImagesChanged`: the added images, then the updated ones, then the removed ones. */
  function ImagesChanged(s: DebuggerState, batch: TrackedImagesChanged, timestamp: string, spawnOnImageFound: bool): DebuggerState
  {
    RemovedAll(UpdatedAll(AddedAll(s, batch.added, timestamp, spawnOnImageFound), batch.updated), batch.removed, timestamp)
  }

  /**
   * The added images: the log stays within its bound, no cylinder is changed or
   * lost, each added image has a cylinder when spawning is on and none is created
   * when it is off, each new cylinder is active, and the tracking line names the
   * last image found.
   */
  lemma {:induction false} AddedAllSpawns(s: DebuggerState, images: seq<TrackedImage>, timestamp: string, spawnOnImageFound: bool)
    requires |s.log| <= MaxLogMessages
    ensures var r := AddedAll(s, images, timestamp, spawnOnImageFound);
      && |r.log| <= MaxLogMessages
      && r.spawned.Keys == s.spawned.Keys + (if spawnOnImageFound then Names(images) else {})
      && (forall k :: k in s.spawned ==> r.spawned[k] == s.spawned[k])
      && (forall k :: k in r.spawned && k !in s.spawned ==> r.spawned[k] == SceneObject(true))
      && r.trackingStatus == (if |images| == 0 then s.trackingStatus else Found(images[|images| - 1].name))
    decreases |images|
  {
    if |images| > 0 {
      AddedAllSpawns(s, images[..|images| - 1], timestamp, spawnOnImageFound);
      AddedStepSpawns(AddedAll(s, images[..|images| - 1], timestamp, spawnOnImageFound), images[|images| - 1], timestamp, spawnOnImageFound);
      NamesOfPrefix(images);
    }
  }

  /** One added image keeps the log bounded, keeps every cylinder, adds its own when spawning is on, and is the new tracking line. */
  lemma AddedStepSpawns(s: DebuggerState, image: TrackedImage, timestamp: string, spawnOnImageFound: bool)
    requires |s.log| <= MaxLogMessages
    ensures var r := AddedStep(s, image, timestamp, spawnOnImageFound);
      && |r.log| <= MaxLogMessages
      && r.spawned.Keys == s.spawned.Keys + (if spawnOnImageFound then {image.name} else {})
      && (forall k :: k in s.spawned ==> r.spawned[k] == s.spawned[k])
      && (forall k :: k in r.spawned && k !in s.spawned ==> r.spawned[k] == SceneObject(true))
      && r.trackingStatus == Found(image.name)
  {
  }

  /**
   * The updated images: no cylinder is created or destroyed, the cylinder of an
   * image not updated is left alone, and every other cylinder ends shown exactly
   * when the last update for its image is tracking.
   */
  lemma {:induction false} UpdatedAllShows(s: DebuggerState, images: seq<TrackedImage>)
    ensures var r := UpdatedAll(s, images);
      && r.log == s.log && r.trackingStatus == s.trackingStatus
      && r.spawned.Keys == s.spawned.Keys
      && (forall k :: k in s.spawned && k !in Names(images) ==> r.spawned[k] == s.spawned[k])
      && (forall k :: k in s.spawned && k in Names(images) ==> r.spawned[k] == SceneObject(IsTracking(images[LastNamed(images, k)])))
    decreases |images|
  {
    if |images| > 0 {
      var prefix := images[..|images| - 1];
      var last := images[|images| - 1];
      UpdatedAllShows(s, prefix);
      NamesOfPrefix(images);
      LastNamedOfPrefix(images);
      UpdatedStepShows(UpdatedAll(s, prefix), last);
    }
  }

  /** One update changes at most the cylinder of its own image, which it shows exactly when the image is tracking. */
  lemma UpdatedStepShows(s: DebuggerState, image: TrackedImage)
    ensures var r := UpdatedStep(s, image);
      && r.log == s.log && r.trackingStatus == s.trackingStatus
      && r.spawned.Keys == s.spawned.Keys
      && (forall k :: k in s.spawned && k != image.name ==> r.spawned[k] == s.spawned[k])
      && (image.name in s.spawned ==> r.spawned[image.name] == SceneObject(IsTracking(image)))
  {
  }

  /** The removed images: exactly their cylinders are forgotten, and the log stays within its bound. */
  lemma {:induction false} RemovedAllForgets(s: DebuggerState, images: seq<TrackedImage>, timestamp: string)
    requires |s.log| <= MaxLogMessages
    ensures var r := RemovedAll(s, images, timestamp);
      && |r.log| <= MaxLogMessages && r.trackingStatus == s.trackingStatus
      && r.spawned == s.spawned - Names(images)
    decreases |images|
  {
    if |images| > 0 {
      RemovedAllForgets(s, images[..|images| - 1], timestamp);
      NamesOfPrefix(images);
    }
  }

  /**
   * A whole batch keeps the log within its bound and ends with a cylinder for
   * exactly the images that had one or were added (when spawning is on) and were
   * not removed.
   */
  lemma BatchCylinders(s: DebuggerState, batch: TrackedImagesChanged, timestamp: string, spawnOnImageFound: bool)
    requires |s.log| <= MaxLogMessages
    ensures var r := ImagesChanged(s, batch, timestamp, spawnOnImageFound);
      && |r.log| <= MaxLogMessages
      && r.spawned.Keys == (s.spawned.Keys + (if spawnOnImageFound then Names(batch.added) else {})) - Names(batch.removed)
  {
    var a := AddedAll(s, batch.added, timestamp, spawnOnImageFound);
    AddedAllSpawns(s, batch.added, timestamp, spawnOnImageFound);
    var u := UpdatedAll(a, batch.updated);
    UpdatedAllShows(a, batch.updated);
    RemovedAllForgets(u, batch.removed, timestamp);
  }

  /** How many images are tracking (the `Update` count). */
  function TrackingCount(images: seq<TrackedImage>): nat
    decreases |images|
  {
    if |images| == 0 then 0
    else TrackingCount(images[..|images| - 1]) + (if IsTracking(images[|images| - 1]) then 1 else 0)
  }

  /** The tracking count never exceeds the total, and equals it exactly when every image is tracking. */
  lemma {:induction false} TrackingAtMostTotal(images: seq<TrackedImage>)
    ensures TrackingCount(images) <= |images|
    ensures TrackingCount(images) == |images| <==> forall j :: 0 <= j < |images| ==> IsTracking(images[j])
    decreases |images|
  {
    if |images| > 0 {
      var prefix := images[..|images| - 1];
      TrackingAtMostTotal(prefix);
      assert forall j :: 0 <= j < |prefix| ==> prefix[j] == images[j];
    }
  }

  class ARDebugger {
    const spawnOnImageFound: bool
    const hasImageManager: bool
    var logMessages: seq<string>
    var spawnedObjects: map<string, SceneObject>
    var trackingStatus: TrackingStatus

    function State(): DebuggerState
      reads this
    {
      DebuggerState(logMessages, spawnedObjects, trackingStatus)
    }

    predicate Valid()
      reads this
    {
      |logMessages| <= MaxLogMessages
    }

    constructor (spawnOnImageFound: bool, hasImageManager: bool)
      ensures Valid()
      ensures this.spawnOnImageFound == spawnOnImageFound && this.hasImageManager == hasImageManager
      ensures State() == DebuggerState([], map[], Waiting)
    {
      this.spawnOnImageFound := spawnOnImageFound;
      this.hasImageManager := hasImageManager;
      logMessages := [];
      spawnedObjects := map[];
      trackingStatus := Waiting;
    }

    /** `AddLog`, with the time of day supplied by the caller. */
    method AddLog(timestamp: string, message: string)
      requires Valid()
      modifies this
      ensures Valid()
      ensures State() == AddLogTo(old(State()), timestamp, message)
    {
      logMessages := logMessages + [LogLine(timestamp, message)];
      if |logMessages| > MaxLogMessages {
        logMessages := logMessages[1..];
      }
    }

    method SpawnCylinderOnImage(name: string, timestamp: string)
      requires Valid()
      modifies this
      ensures Valid()
      ensures State() == SpawnCylinder(old(State()), name, timestamp)
    {
      if name in spawnedObjects {
        AddLog(timestamp, "Zaten var: " + name);
        return;
      }
      spawnedObjects := spawnedObjects[name := SceneObject(true)];
      AddLog(timestamp, "Silindir olusturuldu: " + name);
    }

    /** `OnTrackedImagesChanged`, with one time of day for the whole callback. */
    method OnTrackedImagesChanged(batch: TrackedImagesChanged, timestamp: string)
      requires Valid()
      modifies this
      ensures Valid()
      ensures State() == ImagesChanged(old(State()), batch, timestamp, spawnOnImageFound)
    {
      HandleAdded(batch.added, timestamp);
      HandleUpdated(batch.updated);
      HandleRemoved(batch.removed, timestamp);
    }

    method HandleAdded(images: seq<TrackedImage>, timestamp: string)
      requires Valid()
      modifies this
      ensures Valid()
      ensures State() == AddedAll(old(State()), images, timestamp, spawnOnImageFound)
    {
      for n := 0 to |images|
        invariant Valid()
        invariant State() == AddedAll(old(State()), images[..n], timestamp, spawnOnImageFound)
      {
        var name := images[n].name;
        AddLog(timestamp, ">>> GORSEL BULUNDU: " + name + " <<<");
        trackingStatus := Found(name);
        if spawnOnImageFound {
          SpawnCylinderOnImage(name, timestamp);
        }
        assert images[..n + 1][..n] == images[..n];
      }
      assert images[..|images|] == images;
    }

    method HandleUpdated(images: seq<TrackedImage>)
      requires Valid()
      modifies this
      ensures Valid()
      ensures State() == UpdatedAll(old(State()), images)
    {
      for n := 0 to |images|
        invariant Valid()
        invariant State() == UpdatedAll(old(State()), images[..n])
      {
        var name := images[n].name;
        if images[n].trackingState == Tracking {
          if name in spawnedObjects {
            spawnedObjects := spawnedObjects[name := SceneObject(true)];
          }
        } else {
          if name in spawnedObjects {
            spawnedObjects := spawnedObjects[name := SceneObject(false)];
          }
        }
        assert images[..n + 1][..n] == images[..n];
      }
      assert images[..|images|] == images;
    }

    method HandleRemoved(images: seq<TrackedImage>, timestamp: string)
      requires Valid()
      modifies this
      ensures Valid()
      ensures State() == RemovedAll(old(State()), images, timestamp)
    {
      for n := 0 to |images|
        invariant Valid()
        invariant State() == RemovedAll(old(State()), images[..n], timestamp)
      {
        var name := images[n].name;
        AddLog(timestamp, "Gorsel kayboldu: " + name);
        if name in spawnedObjects {
          spawnedObjects := spawnedObjects - {name};
        }
        assert images[..n + 1][..n] == images[..n];
      }
      assert images[..|images|] == images;
    }

    /** The counting loop of `Update`. */
    method CountTracking(trackables: seq<TrackedImage>) returns (tracking: nat, total: nat)
      ensures total == |trackables| && tracking == TrackingCount(trackables)
    {
      tracking, total := 0, 0;
      for n := 0 to |trackables|
        invariant total == n && tracking == TrackingCount(trackables[..n])
      {
        total := total + 1;
        if trackables[n].trackingState == Tracking {
          tracking := tracking + 1;
        }
        assert trackables[..n + 1][..n] == trackables[..n];
      }
      assert trackables[..|trackables|] == trackables;
    }

    /** `Update`: with an image manager, the tracking line becomes the count over the current trackables. */
    method Update(trackables: seq<TrackedImage>)
      modifies this
      ensures hasImageManager ==> trackingStatus == Counted(TrackingCount(trackables), |trackables|)
      ensures !hasImageManager ==> trackingStatus == old(trackingStatus)
      ensures logMessages == old(logMessages) && spawnedObjects == old(spawnedObjects)
    {
      if hasImageManager {
        var tracking, total := CountTracking(trackables);
        trackingStatus := Counted(tracking, total);
      }
    }
  }
}
