/**
 * `MapUI`: one marker per catalog location, coloured by the location's progress
 * (collected, then discovered, then undiscovered) unless the player is standing
 * inside it, and an information panel with the same priority in words.
 */
module MapView {
  import opened Wrappers
  import opened LocationData
  import opened VerifierSpec
  import opened VerifierLemmas
  import opened UI

  /** The four colours of the map (each one a serialised setting of the component). */
  datatype MarkerColor = CollectedColor | DiscoveredColor | UndiscoveredColor | CurrentLocationColor

  /** The colour a location's progress gives its marker. */
  function BaseColor(location: CampusLocation): (c: MarkerColor)
    ensures c != CurrentLocationColor
    ensures c == CollectedColor <==> location.isCollected
    ensures c == DiscoveredColor <==> !location.isCollected && location.isDiscovered
    ensures c == UndiscoveredColor <==> !location.isCollected && !location.isDiscovered
  {
    if location.isCollected then CollectedColor
    else if location.isDiscovered then DiscoveredColor
    else UndiscoveredColor
  }

  /**
   * `UpdateMarkerColor`: while GPS is active, a location the player is inside
   * is shown in the current-location colour whatever its progress.
   */
  function MarkerColorFor(location: CampusLocation, gpsActive: bool, inRadius: RadiusTest): (c: MarkerColor)
    ensures c == CurrentLocationColor <==> gpsActive && inRadius(location.latitude, location.longitude, location.radius)
    ensures c != CurrentLocationColor ==> c == BaseColor(location)
  {
    if gpsActive && inRadius(location.latitude, location.longitude, location.radius) then CurrentLocationColor
    else BaseColor(location)
  }

  /** The progress priority: collected beats discovered beats undiscovered. */
  lemma ColorPriority(location: CampusLocation, gpsActive: bool, inRadius: RadiusTest)
    ensures var c := MarkerColorFor(location, gpsActive, inRadius);
      && (!gpsActive ==> c != CurrentLocationColor)
      && (c == CollectedColor <==> c != CurrentLocationColor && location.isCollected)
      && (c == DiscoveredColor <==> c != CurrentLocationColor && !location.isCollected && location.isDiscovered)
      && (c == UndiscoveredColor <==> c != CurrentLocationColor && !location.isCollected && !location.isDiscovered)
  {
  }

  const CollectedStatus: string := "Toplandı"
  const DiscoveredStatus: string := "Keşfedildi"
  const UndiscoveredStatus: string := "Keşfedilmedi"

  /** The status line of the information panel. */
  function StatusText(location: CampusLocation): (t: string)
    ensures t == CollectedStatus <==> location.isCollected
    ensures t == DiscoveredStatus <==> !location.isCollected && location.isDiscovered
    ensures t == UndiscoveredStatus <==> !location.isCollected && !location.isDiscovered
  {
    assert CollectedStatus[0] == 'T' && DiscoveredStatus[0] == 'K' && UndiscoveredStatus[0] == 'K';
    assert |DiscoveredStatus| != |UndiscoveredStatus|;
    if location.isCollected then CollectedStatus
    else if location.isDiscovered then DiscoveredStatus
    else UndiscoveredStatus
  }

  /** The status text names exactly the progress the marker's base colour shows. */
  lemma StatusFollowsColor(location: CampusLocation)
    ensures StatusText(location) == CollectedStatus <==> BaseColor(location) == CollectedColor
    ensures StatusText(location) == DiscoveredStatus <==> BaseColor(location) == DiscoveredColor
    ensures StatusText(location) == UndiscoveredStatus <==> BaseColor(location) == UndiscoveredColor
  {
    assert CollectedStatus[0] == 'T';
    assert DiscoveredStatus != UndiscoveredStatus by {
      assert |DiscoveredStatus| != |UndiscoveredStatus|;
    }
  }

  /** A marker: whether it carries an `Image`, and the tint it was given (`None` keeps the prefab's own). */
  datatype Marker = Marker(hasImage: bool, color: Option<MarkerColor>)

  /** `UpdateMarkerColor`: a marker without an image is left alone. */
  function Recolor(marker: Marker, location: CampusLocation, gpsActive: bool, inRadius: RadiusTest): Marker
  {
    if marker.hasImage then marker.(color := Some(MarkerColorFor(location, gpsActive, inRadius))) else marker
  }

  /** One step of `UpdateMarkers`: only a location that has a marker is recoloured. */
  function RecolorOne(markers: map<string, Marker>, location: CampusLocation, gpsActive: bool, inRadius: RadiusTest): map<string, Marker>
  {
    var id := location.locationId;
    if id in markers then markers[id := Recolor(markers[id], location, gpsActive, inRadius)] else markers
  }

  /** `UpdateMarkers` over the catalog, in order. */
  function Recolored(markers: map<string, Marker>, locations: seq<CampusLocation>, gpsActive: bool, inRadius: RadiusTest): map<string, Marker>
    decreases |locations|
  {
    if |locations| == 0 then markers
    else RecolorOne(Recolored(markers, locations[..|locations| - 1], gpsActive, inRadius), locations[|locations| - 1], gpsActive, inRadius)
  }

  predicate NamesNoLocation(locations: seq<CampusLocation>, id: string)
  {
    forall j :: 0 <= j < |locations| ==> locations[j].locationId != id
  }

  /**
   * Recolouring creates and drops no marker, leaves alone markers without an
   * image and markers of no catalog location, and gives every location's marker
   * that location's colour (ids being unique).
   */
  lemma RecoloredMarkers(markers: map<string, Marker>, locations: seq<CampusLocation>, gpsActive: bool, inRadius: RadiusTest)
    ensures var r := Recolored(markers, locations, gpsActive, inRadius);
      && r.Keys == markers.Keys
      && (forall id :: id in markers && !markers[id].hasImage ==> r[id] == markers[id])
      && (forall id :: id in markers && NamesNoLocation(locations, id) ==> r[id] == markers[id])
    ensures UniqueIds(locations) ==> forall j :: 0 <= j < |locations| && locations[j].locationId in markers ==>
      Recolored(markers, locations, gpsActive, inRadius)[locations[j].locationId]
        == Recolor(markers[locations[j].locationId], locations[j], gpsActive, inRadius)
  {
    RecoloredKeeps(markers, locations, gpsActive, inRadius);
    if UniqueIds(locations) {
      RecoloredColours(markers, locations, gpsActive, inRadius);
    }
  }

  /** Dropping the last location keeps an id absent. */
  lemma NamesNoLocationPrefix(locations: seq<CampusLocation>, id: string)
    requires |locations| > 0 && NamesNoLocation(locations, id)
    ensures NamesNoLocation(locations[..|locations| - 1], id)
  {
    var prefix := locations[..|locations| - 1];
    forall j | 0 <= j < |prefix| ensures prefix[j].locationId != id {
      assert prefix[j] == locations[j];
    }
  }

  /** The frame half of `RecoloredMarkers`. */
  lemma {:induction false} RecoloredKeeps(markers: map<string, Marker>, locations: seq<CampusLocation>, gpsActive: bool, inRadius: RadiusTest)
    ensures var r := Recolored(markers, locations, gpsActive, inRadius);
      && r.Keys == markers.Keys
      && (forall id :: id in markers && !markers[id].hasImage ==> r[id] == markers[id])
      && (forall id :: id in markers && NamesNoLocation(locations, id) ==> r[id] == markers[id])
    decreases |locations|
  {
    if |locations| > 0 {
      RecoloredKeeps(markers, locations[..|locations| - 1], gpsActive, inRadius);
      forall id | id in markers && NamesNoLocation(locations, id)
        ensures NamesNoLocation(locations[..|locations| - 1], id)
      {
        NamesNoLocationPrefix(locations, id);
      }
    }
  }

  /** The colour half of `RecoloredMarkers`: with unique ids, each location's marker gets that location's colour. */
  lemma {:induction false} RecoloredColours(markers: map<string, Marker>, locations: seq<CampusLocation>, gpsActive: bool, inRadius: RadiusTest)
    requires UniqueIds(locations)
    ensures Recolored(markers, locations, gpsActive, inRadius).Keys == markers.Keys
    ensures forall j :: 0 <= j < |locations| && locations[j].locationId in markers ==>
      Recolored(markers, locations, gpsActive, inRadius)[locations[j].locationId]
        == Recolor(markers[locations[j].locationId], locations[j], gpsActive, inRadius)
    decreases |locations|
  {
    RecoloredKeeps(markers, locations, gpsActive, inRadius);
    if |locations| > 0 {
      var n := |locations| - 1;
      var prefix := locations[..n];
      assert UniqueIds(prefix) by {
        forall j, k | 0 <= j < k < |prefix| ensures prefix[j].locationId != prefix[k].locationId {
          assert prefix[j] == locations[j] && prefix[k] == locations[k];
        }
      }
      RecoloredColours(markers, prefix, gpsActive, inRadius);
      assert NamesNoLocation(prefix, locations[n].locationId) by {
        forall j | 0 <= j < |prefix| ensures prefix[j].locationId != locations[n].locationId {
          assert prefix[j] == locations[j];
        }
      }
      RecoloredKeeps(markers, prefix, gpsActive, inRadius);
      forall j | 0 <= j < |locations| && locations[j].locationId in markers
        ensures Recolored(markers, locations, gpsActive, inRadius)[locations[j].locationId]
          == Recolor(markers[locations[j].locationId], locations[j], gpsActive, inRadius)
      {
        if j < n {
          assert prefix[j] == locations[j];
          assert locations[j].locationId != locations[n].locationId;
        }
      }
    }
  }

  /** The marker table after `CreateLocationMarkers` added one marker per location (a later duplicate id replaces an earlier one). */
  function WithMarkers(markers: map<string, Marker>, locations: seq<CampusLocation>, template: Marker): (r: map<string, Marker>)
    ensures forall j :: 0 <= j < |locations| ==> locations[j].locationId in r && r[locations[j].locationId] == template
    ensures forall id :: id in markers && NamesNoLocation(locations, id) ==> id in r && r[id] == markers[id]
    ensures forall id :: id in r ==> id in markers || !NamesNoLocation(locations, id)
    decreases |locations|
  {
    if |locations| == 0 then markers
    else
      var r := WithMarkers(markers, locations[..|locations| - 1], template)[locations[|locations| - 1].locationId := template];
      assert forall j :: 0 <= j < |locations| - 1 ==> locations[..|locations| - 1][j] == locations[j];
      r
  }

  /** After `CreateLocationMarkers`, every location has a marker, tinted with its own colour when the marker has an image. */
  lemma CreatedMarkersColored(markers: map<string, Marker>, locations: seq<CampusLocation>, prefabHasImage: bool, gpsActive: bool, inRadius: RadiusTest)
    requires UniqueIds(locations)
    ensures var r := Recolored(WithMarkers(markers, locations, Marker(prefabHasImage, None)), locations, gpsActive, inRadius);
      forall j :: 0 <= j < |locations| ==>
        && locations[j].locationId in r
        && r[locations[j].locationId] == Marker(prefabHasImage, if prefabHasImage then Some(MarkerColorFor(locations[j], gpsActive, inRadius)) else None)
  {
    RecoloredMarkers(WithMarkers(markers, locations, Marker(prefabHasImage, None)), locations, gpsActive, inRadius);
  }

  /** A label the panel may or may not have. */
  datatype Label = NoLabel | Label(text: string)

  function Written(field: Label, text: string): Label
  {
    if field.NoLabel? then NoLabel else Label(text)
  }

  class MapUI {
    const campusData: CampusLocationsData?
    var markers: map<string, Marker>
    var infoPanel: Panel
    var locationNameText: Label
    var locationDescText: Label
    var locationStatusText: Label

    constructor (campusData: CampusLocationsData?, infoPanel: Panel, nameText: Label, descText: Label, statusText: Label)
      ensures this.campusData == campusData && markers == map[]
      ensures this.infoPanel == infoPanel && locationNameText == nameText
      ensures locationDescText == descText && locationStatusText == statusText
    {
      this.campusData := campusData;
      markers := map[];
      this.infoPanel := infoPanel;
      locationNameText := nameText;
      locationDescText := descText;
      locationStatusText := statusText;
    }

    /** `Start`: markers are created and the information panel hidden. */
    method Start(hasMarkerPrefab: bool, prefabHasImage: bool, gpsActive: bool, inRadius: RadiusTest)
      modifies this
      ensures campusData != null && hasMarkerPrefab ==>
        markers == Recolored(WithMarkers(old(markers), campusData.locations, Marker(prefabHasImage, None)), campusData.locations, gpsActive, inRadius)
      ensures !(campusData != null && hasMarkerPrefab) ==> markers == old(markers)
      ensures infoPanel == SetPanelActive(old(infoPanel), false)
      ensures locationNameText == old(locationNameText) && locationDescText == old(locationDescText)
      ensures locationStatusText == old(locationStatusText)
    {
      CreateLocationMarkers(hasMarkerPrefab, prefabHasImage, gpsActive, inRadius);
      infoPanel := SetPanelActive(infoPanel, false);
    }

    /** `CreateLocationMarkers`: nothing without a catalog or a marker prefab; otherwise one marker per location, then every marker is coloured. */
    method CreateLocationMarkers(hasMarkerPrefab: bool, prefabHasImage: bool, gpsActive: bool, inRadius: RadiusTest)
      modifies this
      ensures campusData != null && hasMarkerPrefab ==>
        markers == Recolored(WithMarkers(old(markers), campusData.locations, Marker(prefabHasImage, None)), campusData.locations, gpsActive, inRadius)
      ensures !(campusData != null && hasMarkerPrefab) ==> markers == old(markers)
      ensures infoPanel == old(infoPanel) && locationNameText == old(locationNameText)
      ensures locationDescText == old(locationDescText) && locationStatusText == old(locationStatusText)
    {
      if campusData == null || !hasMarkerPrefab {
        return;
      }
      var locations := campusData.locations;
      var template := Marker(prefabHasImage, None);
      for i := 0 to |locations|
        invariant markers == WithMarkers(old(markers), locations[..i], template)
        invariant infoPanel == old(infoPanel) && locationNameText == old(locationNameText)
        invariant locationDescText == old(locationDescText) && locationStatusText == old(locationStatusText)
      {
        markers := markers[locations[i].locationId := template];
        assert locations[..i + 1][..i] == locations[..i];
      }
      assert locations[..|locations|] == locations;
      UpdateMarkers(gpsActive, inRadius);
    }

    /** `UpdateMarkers`: nothing without a catalog; otherwise each location with a marker is recoloured, in catalog order. */
    method UpdateMarkers(gpsActive: bool, inRadius: RadiusTest)
      modifies this
      ensures campusData != null ==> markers == Recolored(old(markers), campusData.locations, gpsActive, inRadius)
      ensures campusData == null ==> markers == old(markers)
      ensures infoPanel == old(infoPanel) && locationNameText == old(locationNameText)
      ensures locationDescText == old(locationDescText) && locationStatusText == old(locationStatusText)
    {
      if campusData == null {
        return;
      }
      var locations := campusData.locations;
      for i := 0 to |locations|
        invariant markers == Recolored(old(markers), locations[..i], gpsActive, inRadius)
        invariant infoPanel == old(infoPanel) && locationNameText == old(locationNameText)
        invariant locationDescText == old(locationDescText) && locationStatusText == old(locationStatusText)
      {
        var id := locations[i].locationId;
        if id in markers {
          markers := markers[id := Recolor(markers[id], locations[i], gpsActive, inRadius)];
        }
        assert locations[..i + 1][..i] == locations[..i];
      }
      assert locations[..|locations|] == locations;
    }

    /** `ShowLocationInfo`: nothing without a panel; otherwise the panel is shown and each label present gets name, description and status. */
    method ShowLocationInfo(location: CampusLocation)
      modifies this
      ensures old(infoPanel).Missing? ==> unchanged(this)
      ensures old(infoPanel).Present? ==>
        && infoPanel == Present(true)
        && locationNameText == Written(old(locationNameText), location.locationName)
        && locationDescText == Written(old(locationDescText), location.description)
        && locationStatusText == Written(old(locationStatusText), StatusText(location))
        && markers == old(markers)
    {
      if infoPanel.Missing? {
        return;
      }
      infoPanel := Present(true);
      locationNameText := Written(locationNameText, location.locationName);
      locationDescText := Written(locationDescText, location.description);
      locationStatusText := Written(locationStatusText, StatusText(location));
    }

    method HideLocationInfo()
      modifies this
      ensures infoPanel == SetPanelActive(old(infoPanel), false)
      ensures markers == old(markers) && locationNameText == old(locationNameText)
      ensures locationDescText == old(locationDescText) && locationStatusText == old(locationStatusText)
    {
      infoPanel := SetPanelActive(infoPanel, false);
    }

    /** `OnCloseClicked`: the close button hides the map screen when a UI manager exists. */
    method OnCloseClicked(ui: UIManager?)
      modifies ui
      ensures ui != null ==> ui.Current() == UI.Step(old(ui.Current()), HideMap)
    {
      if ui != null {
        ui.HideMap();
      }
    }
  }
}
