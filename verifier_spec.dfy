/**
 * The GPS + image verification state machine of `LocationVerifier`, as pure
 * functions over its state. The class in location_verifier.dfy runs the same
 * steps imperatively and is proved to agree with these functions; the lemmas
 * here state what the steps promise.
 */
module VerifierSpec {
  import opened Wrappers
  import opened Prefs
  import opened LocationData
  import opened ARTracking

  /**
   * A spawned avatar: whether it was parented to the tracked image (spawned from an
   * image signal) or placed in front of the camera, and whether it is active.
   */
  datatype Avatar = Avatar(anchoredToImage: bool, visible: bool)

  /** The three notifications the verifier raises, each carrying the location as it then is. */
  datatype VerifierEvent =
    | LocationVerified(location: CampusLocation)
    | LocationLost(location: CampusLocation)
    | AvatarCollected(location: CampusLocation)

  /**
   * Everything the verifier reads or writes: the catalog's locations, its three tables
   * keyed by location id, the PlayerPrefs store and the notifications raised so far.
   */
  datatype VerifierState = VerifierState(
    locations: seq<CampusLocation>,
    gpsVerified: map<string, bool>,
    arVerified: map<string, bool>,
    spawnedAvatars: map<string, Avatar>,
    prefs: Store,
    events: seq<VerifierEvent>)

  /** The state after a callback, and whether the callback ended by throwing an exception. */
  datatype Step = Step(state: VerifierState, thrown: bool)

  /** `GPSManager.IsWithinRadius(latitude, longitude, radius)` for the current fix. */
  type RadiusTest = (real, real, real) -> bool

  function Lookup<V>(table: map<string, V>, id: string): Option<V>
  {
    if id in table then Some(table[id]) else None
  }

  /** A table entry read as a flag: an absent entry reads as false. */
  predicate Flag(table: map<string, bool>, id: string)
  {
    id in table && table[id]
  }

  /** The combined verdict: both signals under the AND policy, either one under the OR policy. */
  predicate Verdict(requireBoth: bool, gpsOk: bool, arOk: bool)
    ensures Verdict(requireBoth, gpsOk, arOk) ==> gpsOk || arOk
    ensures gpsOk && arOk ==> Verdict(requireBoth, gpsOk, arOk)
    ensures requireBoth ==> (Verdict(requireBoth, gpsOk, arOk) <==> gpsOk && arOk)
    ensures !requireBoth ==> (Verdict(requireBoth, gpsOk, arOk) <==> gpsOk || arOk)
  {
    if requireBoth then gpsOk && arOk else gpsOk || arOk
  }

  predicate IsVerified(s: VerifierState, id: string, requireBoth: bool)
  {
    Verdict(requireBoth, Flag(s.gpsVerified, id), Flag(s.arVerified, id))
  }

  /**
   * `SpawnAvatar` places an avatar without an image in front of `Camera.main`; with no
   * camera that dereference throws, before anything has changed.
   */
  predicate SpawnThrows(location: CampusLocation, anchored: bool, cameraExists: bool)
  {
    location.hasAvatarPrefab && !anchored && !cameraExists
  }

  /** `b` differs from `a` at most in the `isDiscovered` flags. */
  predicate OnlyDiscoveryChanged(a: seq<CampusLocation>, b: seq<CampusLocation>)
  {
    |a| == |b| && forall j :: 0 <= j < |a| ==> b[j] == a[j].(isDiscovered := b[j].isDiscovered)
  }

  lemma OnlyDiscoveryChangedTransitive(a: seq<CampusLocation>, b: seq<CampusLocation>, c: seq<CampusLocation>)
    requires OnlyDiscoveryChanged(a, b) && OnlyDiscoveryChanged(b, c)
    ensures OnlyDiscoveryChanged(a, c)
  {
    forall j | 0 <= j < |a|
      ensures c[j] == a[j].(isDiscovered := c[j].isDiscovered)
    {
      assert b[j] == a[j].(isDiscovered := b[j].isDiscovered);
    }
  }

  /** `s'.events` is `s.events` with nothing or one notification appended. */
  predicate AtMostOneMoreEvent(s: VerifierState, s': VerifierState)
  {
    s'.events == s.events
    || (|s'.events| == |s.events| + 1 && s'.events[..|s.events|] == s.events)
  }

  /**
   * The first verification of location `i`: it is marked discovered and saved, its
   * avatar (when it has a prefab) is spawned visible, and `OnLocationVerified` is raised.
   */
  function FirstVerified(s: VerifierState, i: nat, anchored: bool): (r: VerifierState)
    requires i < |s.locations|
    ensures r.locations == s.locations[i := s.locations[i].(isDiscovered := true)]
    ensures OnlyDiscoveryChanged(s.locations, r.locations)
    ensures r.gpsVerified == s.gpsVerified && r.arVerified == s.arVerified
    ensures s.spawnedAvatars.Keys <= r.spawnedAvatars.Keys
    ensures r.spawnedAvatars - {s.locations[i].locationId} == s.spawnedAvatars - {s.locations[i].locationId}
    ensures r.prefs - {CollectedKey(s.locations[i].locationId), DiscoveredKey(s.locations[i].locationId)}
         == s.prefs - {CollectedKey(s.locations[i].locationId), DiscoveredKey(s.locations[i].locationId)}
    ensures r.events == s.events + [LocationVerified(s.locations[i].(isDiscovered := true))]
  {
    var location := s.locations[i];
    var id := location.locationId;
    var spawned := if location.hasAvatarPrefab then s.spawnedAvatars[id := Avatar(anchored, true)] else s.spawnedAvatars;
    var discovered := location.(isDiscovered := true);
    s.(locations := s.locations[i := discovered],
       spawnedAvatars := spawned,
       prefs := SavedState(s.prefs, discovered),
       events := s.events + [LocationVerified(discovered)])
  }

  /**
   * `CheckVerificationStatus` for location `i`; `anchored` says whether an image is
   * passed along (the avatar is then parented to it).
   */
  function CheckStatus(s: VerifierState, i: nat, requireBoth: bool, anchored: bool, cameraExists: bool): (r: Step)
    requires i < |s.locations|
    ensures OnlyDiscoveryChanged(s.locations, r.state.locations)
    ensures forall j :: 0 <= j < |s.locations| && j != i ==> r.state.locations[j] == s.locations[j]
    ensures r.state.gpsVerified == s.gpsVerified && r.state.arVerified == s.arVerified
    ensures s.spawnedAvatars.Keys <= r.state.spawnedAvatars.Keys
    ensures r.state.spawnedAvatars - {s.locations[i].locationId} == s.spawnedAvatars - {s.locations[i].locationId}
    ensures r.state.prefs - {CollectedKey(s.locations[i].locationId), DiscoveredKey(s.locations[i].locationId)}
         == s.prefs - {CollectedKey(s.locations[i].locationId), DiscoveredKey(s.locations[i].locationId)}
    ensures AtMostOneMoreEvent(s, r.state)
    ensures r.thrown ==> r.state == s
    ensures s.locations[i].isCollected ==> r == Step(s, false)
  {
    var location := s.locations[i];
    var id := location.locationId;
    if location.isCollected then Step(s, false)
    else
      var verified := IsVerified(s, id, requireBoth);
      var hasSpawnedAvatar := id in s.spawnedAvatars;
      if verified && !hasSpawnedAvatar then
        if SpawnThrows(location, anchored, cameraExists) then Step(s, true)
        else Step(FirstVerified(s, i, anchored), false)
      else if !verified && hasSpawnedAvatar then
        Step(s.(spawnedAvatars := s.spawnedAvatars[id := s.spawnedAvatars[id].(visible := false)],
                events := s.events + [LocationLost(location)]), false)
      else if verified && hasSpawnedAvatar then
        Step(s.(spawnedAvatars := s.spawnedAvatars[id := s.spawnedAvatars[id].(visible := true)]), false)
      else
        Step(s, false)
  }

  // ----- Position fixes -----

  /** The gps entry a fix writes for `location`. */
  function WithFix(s: VerifierState, location: CampusLocation, inRadius: RadiusTest): VerifierState
  {
    s.(gpsVerified := s.gpsVerified[location.locationId := inRadius(location.latitude, location.longitude, location.radius)])
  }

  /**
   * `OnGPSUpdated` from location `i` on: each uncollected location, in catalog order,
   * gets its gps entry and a check; an exception ends the callback.
   */
  function FixFrom(s: VerifierState, inRadius: RadiusTest, requireBoth: bool, cameraExists: bool, i: nat): (r: Step)
    requires i <= |s.locations|
    ensures OnlyDiscoveryChanged(s.locations, r.state.locations)
    ensures r.state.arVerified == s.arVerified
    ensures s.spawnedAvatars.Keys <= r.state.spawnedAvatars.Keys
    ensures s.events <= r.state.events
    decreases |s.locations| - i
  {
    if i == |s.locations| then Step(s, false)
    else
      var location := s.locations[i];
      if location.isCollected then FixFrom(s, inRadius, requireBoth, cameraExists, i + 1)
      else
        var checked := CheckStatus(WithFix(s, location, inRadius), i, requireBoth, false, cameraExists);
        if checked.thrown then checked
        else
          var rest := FixFrom(checked.state, inRadius, requireBoth, cameraExists, i + 1);
          OnlyDiscoveryChangedTransitive(s.locations, checked.state.locations, rest.state.locations);
          rest
  }

  /** A whole fix. */
  function Fix(s: VerifierState, inRadius: RadiusTest, requireBoth: bool, cameraExists: bool): (r: Step)
    ensures OnlyDiscoveryChanged(s.locations, r.state.locations)
    ensures r.state.arVerified == s.arVerified
    ensures s.spawnedAvatars.Keys <= r.state.spawnedAvatars.Keys
    ensures s.events <= r.state.events
  {
    FixFrom(s, inRadius, requireBoth, cameraExists, 0)
  }

  // ----- Image signals -----

  /** `ProcessARImage`: the signal of one tracked image. */
  function ProcessImage(s: VerifierState, signal: ImageSignal, requireBoth: bool, cameraExists: bool): (r: Step)
    ensures OnlyDiscoveryChanged(s.locations, r.state.locations)
    ensures r.state.gpsVerified == s.gpsVerified
    ensures s.spawnedAvatars.Keys <= r.state.spawnedAvatars.Keys
    ensures AtMostOneMoreEvent(s, r.state)
    ensures GetLocationByImageName(s.locations, signal.imageName).None? ==> r == Step(s, false)
    ensures GetLocationByImageName(s.locations, signal.imageName).Some? ==>
      var i := GetLocationByImageName(s.locations, signal.imageName).value;
      && (s.locations[i].isCollected ==> r == Step(s, false))
      && (!s.locations[i].isCollected ==>
            && Lookup(r.state.arVerified, s.locations[i].locationId) == Some(signal.isTracking)
            && r.state.arVerified - {s.locations[i].locationId} == s.arVerified - {s.locations[i].locationId})
  {
    match GetLocationByImageName(s.locations, signal.imageName)
    case None => Step(s, false)
    case Some(i) =>
      var location := s.locations[i];
      if location.isCollected then Step(s, false)
      else
        var tracked := s.(arVerified := s.arVerified[location.locationId := signal.isTracking]);
        CheckStatus(tracked, i, requireBoth, signal.isTracking, cameraExists)
  }

  /** Signals handled one after another; an exception ends the callback. */
  function ProcessImages(s: VerifierState, signals: seq<ImageSignal>, requireBoth: bool, cameraExists: bool): (r: Step)
    ensures OnlyDiscoveryChanged(s.locations, r.state.locations)
    ensures r.state.gpsVerified == s.gpsVerified
    ensures s.spawnedAvatars.Keys <= r.state.spawnedAvatars.Keys
    ensures s.events <= r.state.events
    decreases |signals|
  {
    if |signals| == 0 then Step(s, false)
    else
      var first := ProcessImage(s, signals[0], requireBoth, cameraExists);
      if first.thrown then first
      else
        var rest := ProcessImages(first.state, signals[1..], requireBoth, cameraExists);
        OnlyDiscoveryChangedTransitive(s.locations, first.state.locations, rest.state.locations);
        rest
  }

  /** `OnARImagesChanged`: added, then updated, then removed images. */
  function ImagesChanged(s: VerifierState, batch: TrackedImagesChanged, requireBoth: bool, cameraExists: bool): (r: Step)
    ensures OnlyDiscoveryChanged(s.locations, r.state.locations)
    ensures r.state.gpsVerified == s.gpsVerified
    ensures s.spawnedAvatars.Keys <= r.state.spawnedAvatars.Keys
    ensures s.events <= r.state.events
  {
    ProcessImages(s, TrackingSignals(batch), requireBoth, cameraExists)
  }

  // ----- Collection -----

  /** `CollectAvatar` for location `k`. */
  function CollectSpec(s: VerifierState, k: nat): (r: VerifierState)
    requires k < |s.locations|
    ensures |r.locations| == |s.locations| && r.locations[k].isCollected
    ensures forall j :: 0 <= j < |s.locations| && j != k ==> r.locations[j] == s.locations[j]
    ensures r.gpsVerified == s.gpsVerified && r.arVerified == s.arVerified
    ensures !s.locations[k].isCollected ==> s.locations[k].locationId !in r.spawnedAvatars
    ensures r.spawnedAvatars - {s.locations[k].locationId} == s.spawnedAvatars - {s.locations[k].locationId}
  {
    var location := s.locations[k];
    if location.isCollected then s
    else
      var collected := location.(isCollected := true);
      s.(locations := s.locations[k := collected],
         prefs := SavedState(s.prefs, collected),
         spawnedAvatars := s.spawnedAvatars - {location.locationId},
         events := s.events + [AvatarCollected(collected)])
  }

  // ----- Test spawning and queries -----

  /** What a test tap produced. */
  datatype TestSpawnOutcome = NoCamera | LooseCylinder | LocationAvatar(index: nat)

  /** `TestSpawnAvatar` with a catalog: the first uncollected location that has no spawn entry gets one. */
  function TestSpawn(s: VerifierState, cameraExists: bool): (r: (VerifierState, TestSpawnOutcome))
    ensures !cameraExists ==> r == (s, NoCamera)
    ensures cameraExists ==> !r.1.NoCamera?
    ensures cameraExists ==> (r.1.LooseCylinder? <==>
      forall j :: 0 <= j < |s.locations| ==> s.locations[j].isCollected || s.locations[j].locationId in s.spawnedAvatars)
    ensures r.1.LocationAvatar? ==>
      var i := r.1.index;
      && i < |s.locations| && !s.locations[i].isCollected && s.locations[i].locationId !in s.spawnedAvatars
      && (forall j :: 0 <= j < i ==> s.locations[j].isCollected || s.locations[j].locationId in s.spawnedAvatars)
      && r.0 == s.(spawnedAvatars := s.spawnedAvatars[s.locations[i].locationId := Avatar(false, true)])
    ensures r.1.LooseCylinder? ==>
      && r.0 == s
      && forall j :: 0 <= j < |s.locations| ==> s.locations[j].isCollected || s.locations[j].locationId in s.spawnedAvatars
  {
    if !cameraExists then (s, NoCamera)
    else if |s.locations| == 0 then (s, LooseCylinder)
    else
      match FindFirst(s.locations, (l: CampusLocation) => !l.isCollected && l.locationId !in s.spawnedAvatars)
      case None => (s, LooseCylinder)
      case Some(i) =>
        (s.(spawnedAvatars := s.spawnedAvatars[s.locations[i].locationId := Avatar(false, true)]), LocationAvatar(i))
  }

  const OffCampus: string := "Kampüs dışı"
  const Unknown: string := "Bilinmiyor"

  /** `GetCurrentLocationName` with a catalog: the first location whose gps entry is true. */
  function CurrentLocationName(locations: seq<CampusLocation>, gpsVerified: map<string, bool>): (name: string)
    ensures (forall j :: 0 <= j < |locations| ==> !Flag(gpsVerified, locations[j].locationId)) ==> name == OffCampus
    ensures forall j :: 0 <= j < |locations| && Flag(gpsVerified, locations[j].locationId) ==>
      (forall k :: 0 <= k < j ==> !Flag(gpsVerified, locations[k].locationId)) ==> name == locations[j].locationName
  {
    match FindFirst(locations, (l: CampusLocation) => Flag(gpsVerified, l.locationId))
    case None => OffCampus
    case Some(j) => locations[j].locationName
  }
}
