/**
 * The `LocationVerifier` component and the `CollectableAvatar` attached to each
 * avatar it spawns. Each callback updates the verifier's tables, the shared
 * location catalog and the shared preference store in place, and is proved to
 * end in the state the matching function of VerifierSpec computes.
 */
module Verifier {
  import opened Wrappers
  import opened Prefs
  import opened LocationData
  import opened ARTracking
  import opened VerifierSpec

  /** Handling the signals from position `k` on is handling signal `k`, then the rest. */
  lemma ProcessImagesFrom(s: VerifierState, signals: seq<ImageSignal>, k: nat, requireBoth: bool, cameraExists: bool)
    requires k < |signals|
    ensures var first := ProcessImage(s, signals[k], requireBoth, cameraExists);
      ProcessImages(s, signals[k..], requireBoth, cameraExists)
        == if first.thrown then first else ProcessImages(first.state, signals[k + 1..], requireBoth, cameraExists)
  {
    assert signals[k..][0] == signals[k];
    assert signals[k..][1..] == signals[k + 1..];
  }

  /** Handling `a + b` is handling `a`, then, unless that threw, `b`. */
  lemma {:induction false} ProcessImagesAppend(s: VerifierState, a: seq<ImageSignal>, b: seq<ImageSignal>, requireBoth: bool, cameraExists: bool)
    ensures var first := ProcessImages(s, a, requireBoth, cameraExists);
      ProcessImages(s, a + b, requireBoth, cameraExists)
        == if first.thrown then first else ProcessImages(first.state, b, requireBoth, cameraExists)
    decreases |a|
  {
    if |a| == 0 {
      assert a + b == b;
    } else {
      assert (a + b)[0] == a[0];
      assert (a + b)[1..] == a[1..] + b;
      var head := ProcessImage(s, a[0], requireBoth, cameraExists);
      if !head.thrown {
        ProcessImagesAppend(head.state, a[1..], b, requireBoth, cameraExists);
      }
    }
  }

  class LocationVerifier {
    const campusData: CampusLocationsData?
    const prefs: PlayerPrefs
    const requireBothConditions: bool
    var gpsVerified: map<string, bool>
    var arVerified: map<string, bool>
    var spawnedAvatars: map<string, Avatar>
    /** `OnLocationVerified`, `OnLocationLost` and `OnAvatarCollected`, in the order they were raised. */
    var events: seq<VerifierEvent>

    /** The verifier together with the catalog and the store it writes. */
    function State(): VerifierState
      requires campusData != null
      reads this, campusData, prefs
    {
      VerifierState(campusData.locations, gpsVerified, arVerified, spawnedAvatars, prefs.entries, events)
    }

    constructor (campusData: CampusLocationsData?, prefs: PlayerPrefs, requireBothConditions: bool)
      ensures this.campusData == campusData && this.prefs == prefs
      ensures this.requireBothConditions == requireBothConditions
      ensures gpsVerified == map[] && arVerified == map[] && spawnedAvatars == map[] && events == []
    {
      this.campusData := campusData;
      this.prefs := prefs;
      this.requireBothConditions := requireBothConditions;
      gpsVerified := map[];
      arVerified := map[];
      spawnedAvatars := map[];
      events := [];
    }

    /** `Start`: every location takes its saved flags. */
    method Start()
      modifies campusData
      ensures campusData != null ==>
        && |campusData.locations| == |old(campusData.locations)|
        && forall j :: 0 <= j < |campusData.locations| ==>
             campusData.locations[j] == LoadedState(prefs.entries, old(campusData.locations)[j])
    {
      if campusData != null {
        LoadAllStates(campusData, prefs);
      }
    }

    /**
     * `SpawnAvatar`: nothing without a prefab; an unanchored spawn reads the main
     * camera, so without one it throws before anything changes.
     */
    method SpawnAvatar(location: CampusLocation, anchored: bool, cameraExists: bool) returns (thrown: bool)
      modifies this
      ensures thrown <==> SpawnThrows(location, anchored, cameraExists)
      ensures spawnedAvatars ==
        if location.hasAvatarPrefab && !thrown then old(spawnedAvatars)[location.locationId := Avatar(anchored, true)]
        else old(spawnedAvatars)
      ensures gpsVerified == old(gpsVerified) && arVerified == old(arVerified) && events == old(events)
    {
      thrown := false;
      if !location.hasAvatarPrefab {
        return;
      }
      if !anchored && !cameraExists {
        thrown := true;
        return;
      }
      spawnedAvatars := spawnedAvatars[location.locationId := Avatar(anchored, true)];
    }

    /** `CheckVerificationStatus` for location `i`; `anchored` says whether a tracked image was passed. */
    method CheckVerificationStatus(i: nat, anchored: bool, cameraExists: bool) returns (thrown: bool)
      requires campusData != null && i < |campusData.locations|
      modifies this, campusData, prefs
      ensures Step(State(), thrown) == CheckStatus(old(State()), i, requireBothConditions, anchored, cameraExists)
    {
      thrown := false;
      var location := campusData.locations[i];
      if location.isCollected {
        return;
      }
      var id := location.locationId;
      var gpsOk := id in gpsVerified && gpsVerified[id];
      var arOk := id in arVerified && arVerified[id];
      var verified := if requireBothConditions then gpsOk && arOk else gpsOk || arOk;
      var hasSpawnedAvatar := id in spawnedAvatars;
      if verified && !hasSpawnedAvatar {
        thrown := SpawnAvatar(location, anchored, cameraExists);
        if thrown {
          return;
        }
        var discovered := location.(isDiscovered := true);
        campusData.locations := campusData.locations[i := discovered];
        SaveLocationState(prefs, discovered);
        events := events + [LocationVerified(discovered)];
        assert State() == FirstVerified(old(State()), i, anchored);
      } else if !verified && hasSpawnedAvatar {
        spawnedAvatars := spawnedAvatars[id := spawnedAvatars[id].(visible := false)];
        events := events + [LocationLost(location)];
      } else if verified && hasSpawnedAvatar {
        spawnedAvatars := spawnedAvatars[id := spawnedAvatars[id].(visible := true)];
      }
    }

    /**
     * `OnGPSUpdated`: each uncollected location, in catalog order, records the radius
     * test of the fix and is checked; an exception from a check ends the callback.
     */
    method OnGPSUpdated(inRadius: RadiusTest, cameraExists: bool) returns (thrown: bool)
      modifies this, campusData, prefs
      ensures campusData == null ==> !thrown && unchanged(this, prefs)
      ensures campusData != null ==>
        Step(State(), thrown) == Fix(old(State()), inRadius, requireBothConditions, cameraExists)
    {
      thrown := false;
      if campusData == null {
        return;
      }
      var i := 0;
      while i < |campusData.locations|
        invariant 0 <= i <= |campusData.locations|
        invariant FixFrom(State(), inRadius, requireBothConditions, cameraExists, i)
               == Fix(old(State()), inRadius, requireBothConditions, cameraExists)
        decreases |campusData.locations| - i
      {
        var location := campusData.locations[i];
        if !location.isCollected {
          ghost var before := State();
          gpsVerified := gpsVerified[location.locationId := inRadius(location.latitude, location.longitude, location.radius)];
          assert State() == WithFix(before, location, inRadius);
          thrown := CheckVerificationStatus(i, false, cameraExists);
          if thrown {
            return;
          }
        }
        i := i + 1;
      }
    }

    /** `ProcessARImage`: the signal of one image, for the uncollected location that image belongs to. */
    method ProcessARImage(signal: ImageSignal, cameraExists: bool) returns (thrown: bool)
      modifies this, campusData, prefs
      ensures campusData == null ==> !thrown && unchanged(this, prefs)
      ensures campusData != null ==>
        Step(State(), thrown) == ProcessImage(old(State()), signal, requireBothConditions, cameraExists)
    {
      thrown := false;
      if campusData == null {
        return;
      }
      var found := GetLocationByImageName(campusData.locations, signal.imageName);
      if found.None? || campusData.locations[found.value].isCollected {
        return;
      }
      var location := campusData.locations[found.value];
      arVerified := arVerified[location.locationId := signal.isTracking];
      thrown := CheckVerificationStatus(found.value, signal.isTracking, cameraExists);
    }

    /** One `foreach` of `OnARImagesChanged`: the signals in order, until one throws. */
    method ProcessSignals(signals: seq<ImageSignal>, cameraExists: bool) returns (thrown: bool)
      modifies this, campusData, prefs
      ensures campusData == null ==> !thrown && unchanged(this, prefs)
      ensures campusData != null ==>
        Step(State(), thrown) == ProcessImages(old(State()), signals, requireBothConditions, cameraExists)
    {
      thrown := false;
      for k := 0 to |signals|
        invariant campusData == null ==> unchanged(this, prefs)
        invariant campusData != null ==>
          ProcessImages(State(), signals[k..], requireBothConditions, cameraExists)
            == ProcessImages(old(State()), signals, requireBothConditions, cameraExists)
      {
        if campusData != null {
          ProcessImagesFrom(State(), signals, k, requireBothConditions, cameraExists);
        }
        thrown := ProcessARImage(signals[k], cameraExists);
        if thrown {
          return;
        }
      }
    }

    /**
     * `OnARImagesChanged`: added images as tracking, updated images as tracking when
     * their state is `Tracking`, removed images as not tracking; an exception ends the callback.
     */
    method OnARImagesChanged(batch: TrackedImagesChanged, cameraExists: bool) returns (thrown: bool)
      modifies this, campusData, prefs
      ensures campusData == null ==> !thrown && unchanged(this, prefs)
      ensures campusData != null ==>
        Step(State(), thrown) == ImagesChanged(old(State()), batch, requireBothConditions, cameraExists)
    {
      var added, updated, removed := AddedSignals(batch.added), UpdatedSignals(batch.updated), RemovedSignals(batch.removed);
      if campusData != null {
        ProcessImagesAppend(State(), added + updated, removed, requireBothConditions, cameraExists);
        ProcessImagesAppend(State(), added, updated, requireBothConditions, cameraExists);
      }
      thrown := ProcessSignals(added, cameraExists);
      if thrown {
        return;
      }
      if campusData != null {
        ProcessImagesAppend(State(), updated, removed, requireBothConditions, cameraExists);
      }
      thrown := ProcessSignals(updated, cameraExists);
      if thrown {
        return;
      }
      thrown := ProcessSignals(removed, cameraExists);
    }

    /** `CollectAvatar` for location `k` of the catalog. */
    method CollectAvatar(k: nat)
      requires campusData != null && k < |campusData.locations|
      modifies this, campusData, prefs
      ensures State() == CollectSpec(old(State()), k)
    {
      var location := campusData.locations[k];
      if location.isCollected {
        return;
      }
      var collected := location.(isCollected := true);
      campusData.locations := campusData.locations[k := collected];
      SaveLocationState(prefs, collected);
      if location.locationId in spawnedAvatars {
        spawnedAvatars := spawnedAvatars - {location.locationId};
      }
      events := events + [AvatarCollected(collected)];
    }

    /**
     * `TestSpawnAvatar`: without a camera nothing happens; without a catalog or with no
     * spawnable location a loose cylinder appears; otherwise the first uncollected
     * location without an avatar gets one in front of the camera.
     */
    method TestSpawnAvatar(cameraExists: bool) returns (outcome: TestSpawnOutcome)
      modifies this
      ensures campusData == null ==>
        && outcome == (if cameraExists then LooseCylinder else NoCamera)
        && unchanged(this)
      ensures campusData != null ==> (State(), outcome) == TestSpawn(old(State()), cameraExists)
    {
      if !cameraExists {
        return NoCamera;
      }
      if campusData == null || |campusData.locations| == 0 {
        return LooseCylinder;
      }
      var locations := campusData.locations;
      var i := 0;
      while i < |locations|
        invariant 0 <= i <= |locations|
        invariant forall j :: 0 <= j < i ==> locations[j].isCollected || locations[j].locationId in spawnedAvatars
      {
        if !locations[i].isCollected && locations[i].locationId !in spawnedAvatars {
          break;
        }
        i := i + 1;
      }
      if i == |locations| {
        return LooseCylinder;
      }
      spawnedAvatars := spawnedAvatars[locations[i].locationId := Avatar(false, true)];
      outcome := LocationAvatar(i);
    }

    /** `GetCurrentLocationName`: the first location whose gps entry is true. */
    method GetCurrentLocationName() returns (name: string)
      ensures campusData == null ==> name == Unknown
      ensures campusData != null ==> name == CurrentLocationName(campusData.locations, gpsVerified)
    {
      if campusData == null {
        return Unknown;
      }
      var locations := campusData.locations;
      for i := 0 to |locations|
        invariant forall j :: 0 <= j < i ==> !Flag(gpsVerified, locations[j].locationId)
      {
        var id := locations[i].locationId;
        if id in gpsVerified && gpsVerified[id] {
          return locations[i].locationName;
        }
      }
      return OffCampus;
    }
  }

  /**
   * The component on a spawned avatar. `location` is the catalog position of the
   * location it was initialised with (`None` when it was never initialised).
   */
  class CollectableAvatar {
    const location: Option<nat>
    const verifier: LocationVerifier
    var isCollectable: bool

    /** Attaching the component and `Initialize`. */
    constructor (location: Option<nat>, verifier: LocationVerifier)
      ensures this.location == location && this.verifier == verifier && isCollectable
    {
      this.location := location;
      this.verifier := verifier;
      isCollectable := true;
    }

    /**
     * `Collect`: the first tap on an initialised avatar disables further taps and,
     * once the shrink animation ends, collects its location; later taps do nothing.
     */
    method Collect()
      requires verifier.campusData != null
      requires location.Some? ==> location.value < |verifier.campusData.locations|
      modifies this, verifier, verifier.campusData, verifier.prefs
      ensures old(isCollectable) && location.Some? ==>
        && !isCollectable
        && verifier.State() == CollectSpec(old(verifier.State()), location.value)
      ensures !(old(isCollectable) && location.Some?) ==>
        isCollectable == old(isCollectable) && verifier.State() == old(verifier.State())
    {
      if !isCollectable || location.None? {
        return;
      }
      isCollectable := false;
      verifier.CollectAvatar(location.value);
    }
  }
}
