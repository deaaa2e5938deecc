/**
 * The campus catalog: `CampusLocation` records, the `CampusLocationsData` asset
 * that lists them, and `LocationDataHelper`, which persists the two progress
 * flags of each location in PlayerPrefs.
 */
module LocationData {
  import opened Wrappers
  import opened CSharpInt
  import opened Prefs

  /**
   * One campus location. A `null` string or image list of the asset is modelled as
   * "" or []; the avatar prefab is reduced to whether one is assigned; the coordinates
   * are kept only as inputs to the radius test.
   */
  datatype CampusLocation = CampusLocation(
    locationId: string,
    locationName: string,
    description: string,
    latitude: real,
    longitude: real,
    radius: real,
    referenceImageName: string,
    additionalImageNames: seq<string>,
    hasAvatarPrefab: bool,
    scoreValue: Int32,
    isCollected: bool,
    isDiscovered: bool)
  {
    /** Every reference-image name of the location: the primary one first. */
    function ImageNames(): seq<string>
    {
      [referenceImageName] + additionalImageNames
    }

    /** Whether a recognised reference image belongs to this location. */
    predicate MatchesImageName(imageName: string)
      ensures MatchesImageName(imageName) <==> imageName != "" && imageName in ImageNames()
    {
      if imageName == "" then false
      else if referenceImageName == imageName then true
      else imageName in additionalImageNames
    }
  }

  /** The location with both progress flags cleared and every other field kept. */
  function ClearedProgress(location: CampusLocation): (r: CampusLocation)
    ensures !r.isCollected && !r.isDiscovered
    ensures r.(isCollected := location.isCollected, isDiscovered := location.isDiscovered) == location
  {
    location.(isCollected := false, isDiscovered := false)
  }

  // ----- Catalog queries (`CampusLocationsData`) -----

  /** `GetLocationById`: the first location, in list order, carrying `id`. */
  function GetLocationById(locations: seq<CampusLocation>, id: string): (r: Option<nat>)
    ensures r.Some? ==> r.value < |locations| && locations[r.value].locationId == id
    ensures r.Some? ==> forall j :: 0 <= j < r.value ==> locations[j].locationId != id
    ensures r.None? <==> forall j :: 0 <= j < |locations| ==> locations[j].locationId != id
  {
    FindFirst(locations, (l: CampusLocation) => l.locationId == id)
  }

  /** `GetLocationByImageName`: the first location, in list order, that the image belongs to. */
  function GetLocationByImageName(locations: seq<CampusLocation>, imageName: string): (r: Option<nat>)
    ensures r.Some? ==> r.value < |locations| && locations[r.value].MatchesImageName(imageName)
    ensures r.Some? ==> forall j :: 0 <= j < r.value ==> !locations[j].MatchesImageName(imageName)
    ensures r.None? <==> forall j :: 0 <= j < |locations| ==> !locations[j].MatchesImageName(imageName)
    ensures imageName == "" ==> r.None?
  {
    FindFirst(locations, (l: CampusLocation) => l.MatchesImageName(imageName))
  }

  /** `GetUncollectedLocations`: the locations not yet collected, in list order. */
  function GetUncollectedLocations(locations: seq<CampusLocation>): (r: seq<CampusLocation>)
    ensures forall l :: l in r ==> l in locations && !l.isCollected
    ensures forall l :: l in locations && !l.isCollected ==> l in r
    ensures |r| <= |locations|
  {
    if |locations| == 0 then []
    else if locations[0].isCollected then GetUncollectedLocations(locations[1..])
    else [locations[0]] + GetUncollectedLocations(locations[1..])
  }

  /** The collected locations in list order (`locations.FindAll(l => l.isCollected)`). */
  function CollectedLocations(locations: seq<CampusLocation>): (r: seq<CampusLocation>)
    ensures forall l :: l in r ==> l in locations && l.isCollected
    ensures forall l :: l in locations && l.isCollected ==> l in r
    ensures |r| <= |locations|
  {
    if |locations| == 0 then []
    else if locations[0].isCollected then [locations[0]] + CollectedLocations(locations[1..])
    else CollectedLocations(locations[1..])
  }

  /**
   * `GetCollectedCount`: the locations not left uncollected, so none is counted
   * exactly when no location is collected.
   */
  function GetCollectedCount(locations: seq<CampusLocation>): (n: nat)
    ensures n == |locations| - |GetUncollectedLocations(locations)|
    ensures n <= |locations|
    ensures n == 0 <==> forall k :: 0 <= k < |locations| ==> !locations[k].isCollected
  {
    CountsAddUp(locations);
    var collected := CollectedLocations(locations);
    if |collected| > 0 then
      assert collected[0] in collected;
      |collected|
    else
      |collected|
  }

  /** `GetTotalCount`: the catalog size, which the collected and the uncollected locations share out. */
  function GetTotalCount(locations: seq<CampusLocation>): (n: nat)
    ensures n == |CollectedLocations(locations)| + |GetUncollectedLocations(locations)|
  {
    CountsAddUp(locations);
    |locations|
  }

  /** Collected and uncollected locations together account for the whole catalog. */
  lemma {:induction false} CountsAddUp(locations: seq<CampusLocation>)
    ensures |CollectedLocations(locations)| + |GetUncollectedLocations(locations)| == |locations|
  {
    if |locations| > 0 {
      CountsAddUp(locations[1..]);
    }
  }

  /** Filtering keeps list order: the filter of a concatenation is the concatenation of the filters. */
  lemma {:induction false} UncollectedKeepsOrder(a: seq<CampusLocation>, b: seq<CampusLocation>)
    ensures GetUncollectedLocations(a + b) == GetUncollectedLocations(a) + GetUncollectedLocations(b)
  {
    if |a| == 0 {
      assert a + b == b;
    } else {
      assert (a + b)[0] == a[0];
      assert (a + b)[1..] == a[1..] + b;
      UncollectedKeepsOrder(a[1..], b);
    }
  }

  /** The collected filter keeps list order too: it distributes over concatenation. */
  lemma {:induction false} CollectedKeepsOrder(a: seq<CampusLocation>, b: seq<CampusLocation>)
    ensures CollectedLocations(a + b) == CollectedLocations(a) + CollectedLocations(b)
  {
    if |a| == 0 {
      assert a + b == b;
    } else {
      assert (a + b)[0] == a[0];
      assert (a + b)[1..] == a[1..] + b;
      CollectedKeepsOrder(a[1..], b);
    }
  }

  /** A catalog whose flags are all cleared has nothing collected and everything uncollected. */
  lemma {:induction false} ClearedCatalogCounts(locations: seq<CampusLocation>)
    requires forall j :: 0 <= j < |locations| ==> !locations[j].isCollected
    ensures GetCollectedCount(locations) == 0
    ensures GetUncollectedLocations(locations) == locations
  {
    if |locations| > 0 {
      ClearedCatalogCounts(locations[1..]);
    }
  }

  /** The `CampusLocationsData` asset, shared by the verifier, the score manager and the map. */
  class CampusLocationsData {
    var locations: seq<CampusLocation>

    constructor (locations: seq<CampusLocation>)
      ensures this.locations == locations
    {
      this.locations := locations;
    }

    /** `ResetAllProgress`: clears both flags of every location and nothing else. */
    method ResetAllProgress()
      modifies this
      ensures |locations| == |old(locations)|
      ensures forall j :: 0 <= j < |locations| ==> locations[j] == ClearedProgress(old(locations)[j])
    {
      var i := 0;
      while i < |locations|
        invariant 0 <= i <= |locations| == |old(locations)|
        invariant forall j :: 0 <= j < i ==> locations[j] == ClearedProgress(old(locations)[j])
        invariant forall j :: i <= j < |locations| ==> locations[j] == old(locations)[j]
      {
        locations := locations[i := ClearedProgress(locations[i])];
        i := i + 1;
      }
    }
  }

  // ----- Persistence (`LocationDataHelper`) -----

  const CollectedKeyPrefix: string := "AYBU_Collected_"
  const DiscoveredKeyPrefix: string := "AYBU_Discovered_"

  function CollectedKey(id: string): string { CollectedKeyPrefix + id }
  function DiscoveredKey(id: string): string { DiscoveredKeyPrefix + id }

  /** The two keys of one location never coincide: they differ at position 5 ('C' against 'D'). */
  lemma KeysDiffer(id: string, id': string)
    ensures CollectedKey(id) != DiscoveredKey(id')
  {
    assert CollectedKey(id)[5] == 'C';
    assert DiscoveredKey(id')[5] == 'D';
  }

  function FlagValue(b: bool): Int32 { if b then 1 else 0 }

  /** The store after `SaveLocationState(location)`. */
  function SavedState(store: Store, location: CampusLocation): Store
  {
    SetInt(SetInt(store, CollectedKey(location.locationId), FlagValue(location.isCollected)),
           DiscoveredKey(location.locationId), FlagValue(location.isDiscovered))
  }

  /** The location after `LoadLocationState(location)` reads `store`. */
  function LoadedState(store: Store, location: CampusLocation): (r: CampusLocation)
    ensures r.isCollected <==> GetInt(store, CollectedKey(location.locationId), 0) == 1
    ensures r.isDiscovered <==> GetInt(store, DiscoveredKey(location.locationId), 0) == 1
    ensures r.(isCollected := location.isCollected, isDiscovered := location.isDiscovered) == location
  {
    location.(isCollected := GetInt(store, CollectedKey(location.locationId), 0) == 1,
              isDiscovered := GetInt(store, DiscoveredKey(location.locationId), 0) == 1)
  }

  /** Saving a location and loading it back restores both flags. */
  lemma SaveThenLoad(store: Store, location: CampusLocation)
    ensures LoadedState(SavedState(store, location), location) == location
  {
    KeysDiffer(location.locationId, location.locationId);
  }

  /** A location with no saved keys loads as neither collected nor discovered. */
  lemma LoadWithoutKeys(store: Store, location: CampusLocation)
    requires CollectedKey(location.locationId) !in store
    requires DiscoveredKey(location.locationId) !in store
    ensures LoadedState(store, location) == ClearedProgress(location)
  {
  }

  /** Saving one location leaves the keys of every other id alone. */
  lemma SaveKeepsOtherIds(store: Store, location: CampusLocation, id: string)
    requires id != location.locationId
    ensures LoadedState(SavedState(store, location), location.(locationId := id))
         == LoadedState(store, location.(locationId := id))
  {
    KeysDiffer(id, location.locationId);
    KeysDiffer(location.locationId, id);
    assert CollectedKey(id) != CollectedKey(location.locationId) by {
      assert CollectedKey(id)[|CollectedKeyPrefix|..] == id;
    }
    assert DiscoveredKey(id) != DiscoveredKey(location.locationId) by {
      assert DiscoveredKey(id)[|DiscoveredKeyPrefix|..] == id;
    }
  }

  /** Both keys of every location of the list. */
  function StateKeys(locations: seq<CampusLocation>): set<string>
  {
    (set j | 0 <= j < |locations| :: CollectedKey(locations[j].locationId))
      + (set j | 0 <= j < |locations| :: DiscoveredKey(locations[j].locationId))
  }

  lemma StateKeysExtend(locations: seq<CampusLocation>, i: nat)
    requires i < |locations|
    ensures StateKeys(locations[..i + 1])
         == StateKeys(locations[..i]) + {CollectedKey(locations[i].locationId), DiscoveredKey(locations[i].locationId)}
  {
    var a, b := locations[..i + 1], locations[..i];
    assert forall j :: 0 <= j < i ==> a[j] == b[j];
    assert a[i] == locations[i];
  }

  /** `SaveLocationState`. */
  method SaveLocationState(prefs: PlayerPrefs, location: CampusLocation)
    modifies prefs
    ensures prefs.entries == SavedState(old(prefs.entries), location)
  {
    prefs.SetIntPref(CollectedKey(location.locationId), FlagValue(location.isCollected));
    prefs.SetIntPref(DiscoveredKey(location.locationId), FlagValue(location.isDiscovered));
  }

  /** `LoadAllStates`: every location takes its flags from the store. */
  method LoadAllStates(data: CampusLocationsData, prefs: PlayerPrefs)
    modifies data
    ensures |data.locations| == |old(data.locations)|
    ensures forall j :: 0 <= j < |data.locations| ==> data.locations[j] == LoadedState(prefs.entries, old(data.locations)[j])
  {
    var i := 0;
    while i < |data.locations|
      invariant 0 <= i <= |data.locations| == |old(data.locations)|
      invariant forall j :: 0 <= j < i ==> data.locations[j] == LoadedState(prefs.entries, old(data.locations)[j])
      invariant forall j :: i <= j < |data.locations| ==> data.locations[j] == old(data.locations)[j]
    {
      data.locations := data.locations[i := LoadedState(prefs.entries, data.locations[i])];
      i := i + 1;
    }
  }

  /** Deleting two more keys from a store with `keys` removed removes all of them. */
  lemma DeleteBothKeys(store: Store, keys: set<string>, a: string, b: string)
    ensures DeleteKey(DeleteKey(store - keys, a), b) == store - (keys + {a, b})
  {
  }

  /** `ResetAllSavedData`: deletes both keys of every location and clears both flags. */
  method ResetAllSavedData(data: CampusLocationsData, prefs: PlayerPrefs)
    modifies data, prefs
    ensures prefs.entries == old(prefs.entries) - StateKeys(old(data.locations))
    ensures |data.locations| == |old(data.locations)|
    ensures forall j :: 0 <= j < |data.locations| ==> data.locations[j] == ClearedProgress(old(data.locations)[j])
  {
    ghost var original := data.locations;
    ghost var store := prefs.entries;
    var i := 0;
    while i < |data.locations|
      invariant 0 <= i <= |data.locations| == |original|
      invariant prefs.entries == store - StateKeys(original[..i])
      invariant forall j :: 0 <= j < i ==> data.locations[j] == ClearedProgress(original[j])
      invariant forall j :: i <= j < |data.locations| ==> data.locations[j] == original[j]
    {
      var id := data.locations[i].locationId;
      prefs.DeleteKeyPref(CollectedKey(id));
      prefs.DeleteKeyPref(DiscoveredKey(id));
      data.locations := data.locations[i := ClearedProgress(data.locations[i])];
      StateKeysExtend(original, i);
      DeleteBothKeys(store, StateKeys(original[..i]), CollectedKey(id), DiscoveredKey(id));
      i := i + 1;
    }
    assert original[..i] == original;
  }

  /** After `ResetAllSavedData`, loading any location of the catalog gives cleared flags. */
  lemma LoadAfterReset(store: Store, locations: seq<CampusLocation>, j: nat)
    requires j < |locations|
    ensures LoadedState(store - StateKeys(locations), locations[j]) == ClearedProgress(locations[j])
  {
    assert CollectedKey(locations[j].locationId) in StateKeys(locations);
    assert DiscoveredKey(locations[j].locationId) in StateKeys(locations);
  }
}
