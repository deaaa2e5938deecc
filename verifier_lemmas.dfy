/** What the verification state machine promises, proved about the functions of VerifierSpec. */
module VerifierLemmas {
  import opened Wrappers
  import opened Prefs
  import opened LocationData
  import opened ARTracking
  import opened VerifierSpec

  // ----- The spawn / hide / re-show lifecycle of one check -----

  /**
   * A first verified check spawns (when a prefab is assigned), marks the location
   * discovered, saves it and raises `LocationVerified` once.
   */
  lemma FirstVerificationSpawns(s: VerifierState, i: nat, requireBoth: bool, anchored: bool, cameraExists: bool)
    requires i < |s.locations| && !s.locations[i].isCollected
    requires IsVerified(s, s.locations[i].locationId, requireBoth)
    requires s.locations[i].locationId !in s.spawnedAvatars
    requires !SpawnThrows(s.locations[i], anchored, cameraExists)
    ensures var r := CheckStatus(s, i, requireBoth, anchored, cameraExists);
      var id := s.locations[i].locationId;
      && !r.thrown
      && r.state.locations[i] == s.locations[i].(isDiscovered := true)
      && r.state.events == s.events + [LocationVerified(r.state.locations[i])]
      && (id in r.state.spawnedAvatars <==> s.locations[i].hasAvatarPrefab)
      && (s.locations[i].hasAvatarPrefab ==> r.state.spawnedAvatars[id] == Avatar(anchored, true))
      && LoadedState(r.state.prefs, s.locations[i]) == r.state.locations[i]
  {
    SaveThenLoad(s.prefs, s.locations[i].(isDiscovered := true));
  }

  /**
   * With a prefab the spawn is recorded, so the next verified check only keeps the
   * avatar shown: it changes nothing and raises nothing.
   */
  lemma SpawnedLocationIsQuiet(s: VerifierState, i: nat, requireBoth: bool,
                               anchored: bool, cameraExists: bool, anchored': bool, cameraExists': bool)
    requires i < |s.locations| && !s.locations[i].isCollected && s.locations[i].hasAvatarPrefab
    requires IsVerified(s, s.locations[i].locationId, requireBoth)
    requires s.locations[i].locationId !in s.spawnedAvatars
    requires !SpawnThrows(s.locations[i], anchored, cameraExists)
    ensures var first := CheckStatus(s, i, requireBoth, anchored, cameraExists);
      CheckStatus(first.state, i, requireBoth, anchored', cameraExists') == Step(first.state, false)
  {
    var first := CheckStatus(s, i, requireBoth, anchored, cameraExists);
    var id := s.locations[i].locationId;
    assert first.state.spawnedAvatars[id] == Avatar(anchored, true);
    assert first.state.spawnedAvatars[id := first.state.spawnedAvatars[id].(visible := true)] == first.state.spawnedAvatars;
  }

  /**
   * Without a prefab nothing is recorded, so every verified check spawns again and
   * raises `LocationVerified` again.
   */
  lemma UnspawnableLocationRefires(s: VerifierState, i: nat, requireBoth: bool,
                                   anchored: bool, cameraExists: bool, anchored': bool, cameraExists': bool)
    requires i < |s.locations| && !s.locations[i].isCollected && !s.locations[i].hasAvatarPrefab
    requires IsVerified(s, s.locations[i].locationId, requireBoth)
    requires s.locations[i].locationId !in s.spawnedAvatars
    ensures var first := CheckStatus(s, i, requireBoth, anchored, cameraExists);
      var second := CheckStatus(first.state, i, requireBoth, anchored', cameraExists');
      var discovered := s.locations[i].(isDiscovered := true);
      && !second.thrown
      && second.state.events == s.events + [LocationVerified(discovered), LocationVerified(discovered)]
      && s.locations[i].locationId !in second.state.spawnedAvatars
  {
  }

  /**
   * An unverified check with a spawn entry hides the avatar, keeps the entry and raises
   * `LocationLost`; the next unverified check raises it again.
   */
  lemma LossReportedOnEveryCheck(s: VerifierState, i: nat, requireBoth: bool,
                                 anchored: bool, cameraExists: bool, anchored': bool, cameraExists': bool)
    requires i < |s.locations| && !s.locations[i].isCollected
    requires !IsVerified(s, s.locations[i].locationId, requireBoth)
    requires s.locations[i].locationId in s.spawnedAvatars
    ensures var first := CheckStatus(s, i, requireBoth, anchored, cameraExists);
      var second := CheckStatus(first.state, i, requireBoth, anchored', cameraExists');
      var id := s.locations[i].locationId;
      && !first.thrown && !second.thrown
      && first.state.events == s.events + [LocationLost(s.locations[i])]
      && first.state.spawnedAvatars == s.spawnedAvatars[id := s.spawnedAvatars[id].(visible := false)]
      && second.state.events == s.events + [LocationLost(s.locations[i]), LocationLost(s.locations[i])]
      && second.state.spawnedAvatars == first.state.spawnedAvatars
  {
    var first := CheckStatus(s, i, requireBoth, anchored, cameraExists);
    var id := s.locations[i].locationId;
    assert first.state.spawnedAvatars[id := first.state.spawnedAvatars[id].(visible := false)] == first.state.spawnedAvatars;
  }

  /**
   * Scenario under the AND policy with GPS verified and an avatar spawned: losing the
   * image hides the avatar and raises `LocationLost`; regaining it re-shows the same
   * avatar (same anchoring) and raises nothing.
   */
  lemma LostThenRegained(s: VerifierState, imageName: string, i: nat, cameraExists: bool)
    requires GetLocationByImageName(s.locations, imageName) == Some(i)
    requires !s.locations[i].isCollected
    requires Flag(s.gpsVerified, s.locations[i].locationId)
    requires s.locations[i].locationId in s.spawnedAvatars
    ensures var lost := ProcessImage(s, ImageSignal(imageName, false), true, cameraExists);
      var regained := ProcessImage(lost.state, ImageSignal(imageName, true), true, cameraExists);
      var id := s.locations[i].locationId;
      && !lost.thrown && !regained.thrown
      && lost.state.events == s.events + [LocationLost(s.locations[i])]
      && !lost.state.spawnedAvatars[id].visible
      && regained.state.events == lost.state.events
      && regained.state.spawnedAvatars[id] == s.spawnedAvatars[id].(visible := true)
  {
    var lost := ProcessImage(s, ImageSignal(imageName, false), true, cameraExists);
    assert lost.state.locations == s.locations;
  }

  /**
   * Every verified check of an uncollected location that already has a spawn entry
   * only re-shows that avatar: nothing else changes and nothing is raised.
   */
  lemma ReshowIsSilent(s: VerifierState, i: nat, requireBoth: bool, anchored: bool, cameraExists: bool)
    requires i < |s.locations| && !s.locations[i].isCollected
    requires IsVerified(s, s.locations[i].locationId, requireBoth)
    requires s.locations[i].locationId in s.spawnedAvatars
    ensures var id := s.locations[i].locationId;
      CheckStatus(s, i, requireBoth, anchored, cameraExists)
        == Step(s.(spawnedAvatars := s.spawnedAvatars[id := s.spawnedAvatars[id].(visible := true)]), false)
  {
  }

  /** An unverified check of a location without a spawn entry changes nothing. */
  lemma UnverifiedWithoutAvatarIsNoOp(s: VerifierState, i: nat, requireBoth: bool, anchored: bool, cameraExists: bool)
    requires i < |s.locations|
    requires !IsVerified(s, s.locations[i].locationId, requireBoth)
    requires s.locations[i].locationId !in s.spawnedAvatars
    ensures CheckStatus(s, i, requireBoth, anchored, cameraExists) == Step(s, false)
  {
  }

  /** `e` reports the location with id `id` as verified. */
  predicate VerifiedEventFor(e: VerifierEvent, id: string)
  {
    e.LocationVerified? && e.location.locationId == id
  }

  /** No event of `events` from index `from` on reports `id` as verified. */
  predicate NoVerifiedSince(events: seq<VerifierEvent>, from: nat, id: string)
  {
    forall k :: from <= k < |events| ==> !VerifiedEventFor(events[k], id)
  }

  lemma NoVerifiedSinceChain(a: seq<VerifierEvent>, b: seq<VerifierEvent>, from: nat, id: string)
    requires a <= b && NoVerifiedSince(a, from, id) && NoVerifiedSince(b, |a|, id)
    ensures NoVerifiedSince(b, from, id)
  {
    forall k | from <= k < |a|
      ensures !VerifiedEventFor(b[k], id)
    {
      assert b[k] == b[..|a|][k];
    }
  }

  /**
   * A check, of any location, keeps an existing spawn entry for `id` and never
   * reports `id` verified again.
   */
  lemma CheckKeepsEntrySilent(s: VerifierState, i: nat, requireBoth: bool, anchored: bool, cameraExists: bool, id: string)
    requires i < |s.locations| && id in s.spawnedAvatars
    ensures var r := CheckStatus(s, i, requireBoth, anchored, cameraExists);
      id in r.state.spawnedAvatars && NoVerifiedSince(r.state.events, |s.events|, id)
  {
    var r := CheckStatus(s, i, requireBoth, anchored, cameraExists);
    var location := s.locations[i];
    if !location.isCollected && IsVerified(s, location.locationId, requireBoth)
       && location.locationId !in s.spawnedAvatars && !SpawnThrows(location, anchored, cameraExists) {
      assert location.locationId != id;
      assert r.state.events == s.events + [LocationVerified(location.(isDiscovered := true))];
    }
  }

  /** A position fix keeps an existing spawn entry for `id` and never reports `id` verified again. */
  lemma {:induction false} FixKeepsEntrySilent(s: VerifierState, inRadius: RadiusTest, requireBoth: bool, cameraExists: bool, i: nat, id: string)
    requires i <= |s.locations| && id in s.spawnedAvatars
    ensures var r := FixFrom(s, inRadius, requireBoth, cameraExists, i);
      id in r.state.spawnedAvatars && NoVerifiedSince(r.state.events, |s.events|, id)
    decreases |s.locations| - i
  {
    if i < |s.locations| {
      var location := s.locations[i];
      if location.isCollected {
        FixKeepsEntrySilent(s, inRadius, requireBoth, cameraExists, i + 1, id);
      } else {
        var fixed := WithFix(s, location, inRadius);
        CheckKeepsEntrySilent(fixed, i, requireBoth, false, cameraExists, id);
        var checked := CheckStatus(fixed, i, requireBoth, false, cameraExists);
        if !checked.thrown {
          FixKeepsEntrySilent(checked.state, inRadius, requireBoth, cameraExists, i + 1, id);
          var rest := FixFrom(checked.state, inRadius, requireBoth, cameraExists, i + 1);
          assert FixFrom(s, inRadius, requireBoth, cameraExists, i) == rest;
          NoVerifiedSinceChain(checked.state.events, rest.state.events, |s.events|, id);
        }
      }
    }
  }

  /** An image signal keeps an existing spawn entry for `id` and never reports `id` verified again. */
  lemma ImageKeepsEntrySilent(s: VerifierState, signal: ImageSignal, requireBoth: bool, cameraExists: bool, id: string)
    requires id in s.spawnedAvatars
    ensures var r := ProcessImage(s, signal, requireBoth, cameraExists);
      id in r.state.spawnedAvatars && NoVerifiedSince(r.state.events, |s.events|, id)
  {
    match GetLocationByImageName(s.locations, signal.imageName)
    case None =>
    case Some(i) =>
      var location := s.locations[i];
      if !location.isCollected {
        var tracked := s.(arVerified := s.arVerified[location.locationId := signal.isTracking]);
        CheckKeepsEntrySilent(tracked, i, requireBoth, signal.isTracking, cameraExists, id);
      }
  }

  /**
   * A run of image signals keeps an existing spawn entry for `id` and never reports
   * `id` verified again: true signals from the camera give no second spawn.
   */
  lemma {:induction false} ImagesKeepEntrySilent(s: VerifierState, signals: seq<ImageSignal>, requireBoth: bool, cameraExists: bool, id: string)
    requires id in s.spawnedAvatars
    ensures var r := ProcessImages(s, signals, requireBoth, cameraExists);
      id in r.state.spawnedAvatars && NoVerifiedSince(r.state.events, |s.events|, id)
    decreases |signals|
  {
    if |signals| > 0 {
      ImageKeepsEntrySilent(s, signals[0], requireBoth, cameraExists, id);
      var first := ProcessImage(s, signals[0], requireBoth, cameraExists);
      if !first.thrown {
        ImagesKeepEntrySilent(first.state, signals[1..], requireBoth, cameraExists, id);
        var rest := ProcessImages(first.state, signals[1..], requireBoth, cameraExists);
        assert first.state.events <= rest.state.events;
        NoVerifiedSinceChain(first.state.events, rest.state.events, |s.events|, id);
      }
    }
  }

  // ----- Collection -----

  /** Collecting twice is collecting once. */
  lemma CollectIsIdempotent(s: VerifierState, k: nat)
    requires k < |s.locations|
    ensures CollectSpec(CollectSpec(s, k), k) == CollectSpec(s, k)
  {
  }

  /**
   * Collecting an uncollected location marks it collected, persists it, drops its spawn
   * entry and raises `AvatarCollected` exactly once; an already-collected one changes nothing.
   */
  lemma CollectRaisesOnce(s: VerifierState, k: nat)
    requires k < |s.locations|
    ensures var r := CollectSpec(s, k);
      var id := s.locations[k].locationId;
      && (s.locations[k].isCollected ==> r == s)
      && (!s.locations[k].isCollected ==>
            && r.locations[k] == s.locations[k].(isCollected := true)
            && r.events == s.events + [AvatarCollected(r.locations[k])]
            && id !in r.spawnedAvatars
            && LoadedState(r.prefs, s.locations[k]) == r.locations[k])
  {
    SaveThenLoad(s.prefs, s.locations[k].(isCollected := true));
  }

  // ----- A collected location is never processed again -----

  /** Every location that carries `id` is collected. */
  predicate OnlyCollectedCarry(locations: seq<CampusLocation>, id: string)
  {
    forall j :: 0 <= j < |locations| && locations[j].locationId == id ==> locations[j].isCollected
  }

  /** Nothing the verifier keeps about `id` differs between `s` and `s'`. */
  predicate FrozenFor(s: VerifierState, s': VerifierState, id: string)
  {
    && |s'.locations| == |s.locations|
    && Lookup(s'.gpsVerified, id) == Lookup(s.gpsVerified, id)
    && Lookup(s'.arVerified, id) == Lookup(s.arVerified, id)
    && Lookup(s'.spawnedAvatars, id) == Lookup(s.spawnedAvatars, id)
    && forall j :: 0 <= j < |s.locations| && s.locations[j].locationId == id ==> s'.locations[j] == s.locations[j]
  }

  lemma CheckFreezesCollected(s: VerifierState, i: nat, requireBoth: bool, anchored: bool, cameraExists: bool, id: string)
    requires i < |s.locations| && OnlyCollectedCarry(s.locations, id)
    ensures var r := CheckStatus(s, i, requireBoth, anchored, cameraExists);
      FrozenFor(s, r.state, id) && OnlyCollectedCarry(r.state.locations, id)
  {
    var r := CheckStatus(s, i, requireBoth, anchored, cameraExists);
    if !s.locations[i].isCollected {
      assert s.locations[i].locationId != id;
      assert Lookup(r.state.spawnedAvatars, id) == Lookup(s.spawnedAvatars, id) by {
        assert id in r.state.spawnedAvatars <==> id in r.state.spawnedAvatars - {s.locations[i].locationId};
        assert id in s.spawnedAvatars <==> id in s.spawnedAvatars - {s.locations[i].locationId};
        if id in s.spawnedAvatars {
          assert (r.state.spawnedAvatars - {s.locations[i].locationId})[id] == (s.spawnedAvatars - {s.locations[i].locationId})[id];
        }
      }
      forall j | 0 <= j < |r.state.locations| && r.state.locations[j].locationId == id
        ensures r.state.locations[j].isCollected
      {
        assert r.state.locations[j] == s.locations[j].(isDiscovered := r.state.locations[j].isDiscovered);
      }
    }
  }

  lemma FrozenForTransitive(a: VerifierState, b: VerifierState, c: VerifierState, id: string)
    requires FrozenFor(a, b, id) && FrozenFor(b, c, id)
    ensures FrozenFor(a, c, id)
  {
  }

  /** One uncollected location's check during a fix changes nothing about an id that only collected locations carry. */
  lemma FixStepFreezes(s: VerifierState, inRadius: RadiusTest, requireBoth: bool, cameraExists: bool, i: nat, id: string)
    requires i < |s.locations| && !s.locations[i].isCollected && OnlyCollectedCarry(s.locations, id)
    ensures var r := CheckStatus(WithFix(s, s.locations[i], inRadius), i, requireBoth, false, cameraExists);
      FrozenFor(s, r.state, id) && OnlyCollectedCarry(r.state.locations, id)
  {
    var location := s.locations[i];
    var fixed := WithFix(s, location, inRadius);
    assert location.locationId != id;
    assert FrozenFor(s, fixed, id);
    CheckFreezesCollected(fixed, i, requireBoth, false, cameraExists, id);
    FrozenForTransitive(s, fixed, CheckStatus(fixed, i, requireBoth, false, cameraExists).state, id);
  }

  /** A position fix changes nothing about an id that only collected locations carry. */
  lemma {:induction false} FixFreezesCollected(s: VerifierState, inRadius: RadiusTest, requireBoth: bool, cameraExists: bool, i: nat, id: string)
    requires i <= |s.locations| && OnlyCollectedCarry(s.locations, id)
    ensures var r := FixFrom(s, inRadius, requireBoth, cameraExists, i);
      FrozenFor(s, r.state, id) && OnlyCollectedCarry(r.state.locations, id)
    decreases |s.locations| - i
  {
    if i < |s.locations| {
      if s.locations[i].isCollected {
        FixFreezesCollected(s, inRadius, requireBoth, cameraExists, i + 1, id);
      } else {
        FixFromUnfold(s, inRadius, requireBoth, cameraExists, i);
        FixStepFreezes(s, inRadius, requireBoth, cameraExists, i, id);
        var checked := CheckStatus(WithFix(s, s.locations[i], inRadius), i, requireBoth, false, cameraExists);
        if !checked.thrown {
          FixFreezesCollected(checked.state, inRadius, requireBoth, cameraExists, i + 1, id);
          FrozenForTransitive(s, checked.state, FixFrom(checked.state, inRadius, requireBoth, cameraExists, i + 1).state, id);
        }
      }
    }
  }

  lemma ImageFreezesCollected(s: VerifierState, signal: ImageSignal, requireBoth: bool, cameraExists: bool, id: string)
    requires OnlyCollectedCarry(s.locations, id)
    ensures var r := ProcessImage(s, signal, requireBoth, cameraExists);
      FrozenFor(s, r.state, id) && OnlyCollectedCarry(r.state.locations, id)
  {
    match GetLocationByImageName(s.locations, signal.imageName)
    case None =>
    case Some(i) =>
      var location := s.locations[i];
      if !location.isCollected {
        var tracked := s.(arVerified := s.arVerified[location.locationId := signal.isTracking]);
        assert location.locationId != id;
        assert FrozenFor(s, tracked, id);
        CheckFreezesCollected(tracked, i, requireBoth, signal.isTracking, cameraExists, id);
        FrozenForTransitive(s, tracked, CheckStatus(tracked, i, requireBoth, signal.isTracking, cameraExists).state, id);
      }
  }

  /** An image batch changes nothing about an id that only collected locations carry. */
  lemma {:induction false} ImagesFreezeCollected(s: VerifierState, signals: seq<ImageSignal>, requireBoth: bool, cameraExists: bool, id: string)
    requires OnlyCollectedCarry(s.locations, id)
    ensures var r := ProcessImages(s, signals, requireBoth, cameraExists);
      FrozenFor(s, r.state, id) && OnlyCollectedCarry(r.state.locations, id)
    decreases |signals|
  {
    if |signals| > 0 {
      ImageFreezesCollected(s, signals[0], requireBoth, cameraExists, id);
      var first := ProcessImage(s, signals[0], requireBoth, cameraExists);
      if !first.thrown {
        ImagesFreezeCollected(first.state, signals[1..], requireBoth, cameraExists, id);
        FrozenForTransitive(s, first.state, ProcessImages(first.state, signals[1..], requireBoth, cameraExists).state, id);
      }
    }
  }

  /** Collecting any location changes nothing about an id that only collected locations carry. */
  lemma CollectFreezesCollected(s: VerifierState, k: nat, id: string)
    requires k < |s.locations| && OnlyCollectedCarry(s.locations, id)
    ensures var r := CollectSpec(s, k);
      FrozenFor(s, r, id) && OnlyCollectedCarry(r.locations, id)
  {
    var r := CollectSpec(s, k);
    if !s.locations[k].isCollected {
      assert s.locations[k].locationId != id;
      assert id in r.spawnedAvatars <==> id in r.spawnedAvatars - {s.locations[k].locationId};
      assert id in s.spawnedAvatars <==> id in s.spawnedAvatars - {s.locations[k].locationId};
    }
  }

  // ----- What a fix records -----

  /** Location ids are unique within the catalog. */
  predicate UniqueIds(locations: seq<CampusLocation>)
  {
    forall j, k :: 0 <= j < k < |locations| ==> locations[j].locationId != locations[k].locationId
  }

  /** One step of `FixFrom` at an uncollected location: its gps entry is written, then it is checked. */
  lemma FixFromUnfold(s: VerifierState, inRadius: RadiusTest, requireBoth: bool, cameraExists: bool, i: nat)
    requires i < |s.locations| && !s.locations[i].isCollected
    ensures var checked := CheckStatus(WithFix(s, s.locations[i], inRadius), i, requireBoth, false, cameraExists);
      && FixFrom(s, inRadius, requireBoth, cameraExists, i)
         == (if checked.thrown then checked else FixFrom(checked.state, inRadius, requireBoth, cameraExists, i + 1))
      && OnlyDiscoveryChanged(s.locations, checked.state.locations)
      && checked.state.gpsVerified
         == s.gpsVerified[s.locations[i].locationId := inRadius(s.locations[i].latitude, s.locations[i].longitude, s.locations[i].radius)]
  {
  }

  /** Only discovery flags change, so an id absent from `a` from `lo` on is absent from `b` from `lo` on. */
  lemma IdAbsentFrom(a: seq<CampusLocation>, b: seq<CampusLocation>, lo: nat, id: string)
    requires OnlyDiscoveryChanged(a, b)
    requires forall j :: lo <= j < |a| ==> a[j].locationId != id
    ensures forall j :: lo <= j < |b| ==> b[j].locationId != id
  {
    forall j | lo <= j < |b|
      ensures b[j].locationId != id
    {
      assert b[j] == a[j].(isDiscovered := b[j].isDiscovered);
    }
  }

  /** Only discovery flags change, so unique ids stay unique. */
  lemma UniqueIdsKept(a: seq<CampusLocation>, b: seq<CampusLocation>)
    requires OnlyDiscoveryChanged(a, b) && UniqueIds(a)
    ensures UniqueIds(b)
  {
    forall j, k | 0 <= j < k < |b|
      ensures b[j].locationId != b[k].locationId
    {
      assert b[j] == a[j].(isDiscovered := b[j].isDiscovered);
      assert b[k] == a[k].(isDiscovered := b[k].isDiscovered);
    }
  }

  /** A fix from `i` on writes gps entries only for ids carried at `i` or later. */
  lemma {:induction false} FixKeepsOtherGpsEntries(s: VerifierState, inRadius: RadiusTest, requireBoth: bool, cameraExists: bool, i: nat, id: string)
    requires i <= |s.locations|
    requires forall j :: i <= j < |s.locations| ==> s.locations[j].locationId != id
    ensures Lookup(FixFrom(s, inRadius, requireBoth, cameraExists, i).state.gpsVerified, id) == Lookup(s.gpsVerified, id)
    decreases |s.locations| - i
  {
    if i < |s.locations| {
      if s.locations[i].isCollected {
        FixKeepsOtherGpsEntries(s, inRadius, requireBoth, cameraExists, i + 1, id);
      } else {
        FixFromUnfold(s, inRadius, requireBoth, cameraExists, i);
        var checked := CheckStatus(WithFix(s, s.locations[i], inRadius), i, requireBoth, false, cameraExists);
        if !checked.thrown {
          IdAbsentFrom(s.locations, checked.state.locations, i + 1, id);
          FixKeepsOtherGpsEntries(checked.state, inRadius, requireBoth, cameraExists, i + 1, id);
        }
      }
    }
  }

  /** `fixed` holds, for each uncollected location of `locations` from `i` on, the radius test of that fix. */
  predicate RecordsFix(locations: seq<CampusLocation>, fixed: map<string, bool>, inRadius: RadiusTest, i: nat)
  {
    forall j :: i <= j < |locations| && !locations[j].isCollected ==>
      Lookup(fixed, locations[j].locationId) == Some(inRadius(locations[j].latitude, locations[j].longitude, locations[j].radius))
  }

  /** One step of the fix: the entry written at `i` joins the entries recorded after it. */
  lemma RecordsFixStep(a: seq<CampusLocation>, b: seq<CampusLocation>, fixed: map<string, bool>, inRadius: RadiusTest, i: nat)
    requires i < |a| && OnlyDiscoveryChanged(a, b) && !a[i].isCollected
    requires RecordsFix(b, fixed, inRadius, i + 1)
    requires Lookup(fixed, a[i].locationId) == Some(inRadius(a[i].latitude, a[i].longitude, a[i].radius))
    ensures RecordsFix(a, fixed, inRadius, i)
  {
    forall j | i < j < |a| && !a[j].isCollected
      ensures Lookup(fixed, a[j].locationId) == Some(inRadius(a[j].latitude, a[j].longitude, a[j].radius))
    {
      assert b[j] == a[j].(isDiscovered := b[j].isDiscovered);
    }
  }

  /**
   * With unique ids, a fix that completes leaves every uncollected location's gps entry
   * equal to the radius test of that fix.
   */
  lemma {:induction false} FixRecordsRadiusTests(s: VerifierState, inRadius: RadiusTest, requireBoth: bool, cameraExists: bool, i: nat)
    requires i <= |s.locations| && UniqueIds(s.locations)
    ensures var r := FixFrom(s, inRadius, requireBoth, cameraExists, i);
      !r.thrown ==> RecordsFix(s.locations, r.state.gpsVerified, inRadius, i)
    decreases |s.locations| - i
  {
    if i < |s.locations| {
      if s.locations[i].isCollected {
        FixRecordsRadiusTests(s, inRadius, requireBoth, cameraExists, i + 1);
      } else {
        FixFromUnfold(s, inRadius, requireBoth, cameraExists, i);
        var checked := CheckStatus(WithFix(s, s.locations[i], inRadius), i, requireBoth, false, cameraExists);
        if !checked.thrown {
          UniqueIdsKept(s.locations, checked.state.locations);
          FixRecordsRadiusTests(checked.state, inRadius, requireBoth, cameraExists, i + 1);
          IdAbsentFrom(s.locations, checked.state.locations, i + 1, s.locations[i].locationId);
          FixKeepsOtherGpsEntries(checked.state, inRadius, requireBoth, cameraExists, i + 1, s.locations[i].locationId);
          var r := FixFrom(checked.state, inRadius, requireBoth, cameraExists, i + 1);
          if !r.thrown {
            RecordsFixStep(s.locations, checked.state.locations, r.state.gpsVerified, inRadius, i);
          }
        }
      }
    }
  }
}
