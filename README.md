# AYBU campus AR orientation game — a verified model of its core

The game is a Unity campus tour. Each campus location waits to be found.
GPS says the player is inside the location's radius, and AR recognises one of its reference images.
Depending on a policy flag, both signals are required (AND) or either is enough (OR).
A verified location spawns an avatar. Tapping the avatar collects it once.
The collected and discovered flags are persisted.
Collecting earns score, with a bonus on every fifth avatar.

The model covers the following:

- **Verification state machine** (`LocationVerifier`): GPS fixes, AR image batches, spawn, hide and re-show, collection, and the event trace it raises.
- **Location catalog** (`LocationData`), and its persistence in PlayerPrefs.
- **GameData and ScoreManager**: the persisted score, the collection count and the milestone bonus.
- **Gold star** (`GPSStarSpawner`): a GPS-only collectable.
- **Image trackers** (`MultiImageTracker`, `ARDebugger`, `SimpleTestSpawner`).
- **Screen state machine** (`UIManager`) and the **campus map** (`MapUI`).
- **`StarAvatarGenerator.CreateStarMesh`**: the integer triangle-fan arithmetic.

## Project layout

- `wrappers.dfy` (`Wrappers`): `Option` and a first-match search.
- `csharp_int.dfy` (`CSharpInt`): `Int32` and `Wrap32`, which is C# unchecked `int` wrap-around.
- `player_prefs.dfy` (`Prefs`): the PlayerPrefs key-value store.
  - It is a class over `map<string, PrefValue>`.
  - `GetInt` and `GetString` return the default for a key that is missing or holds the other type.
- `ar_tracking.dfy` (`ARTracking`): tracked images and a change batch (added, updated, removed).
  - It also maps a batch to `(image name, is tracking)` signals.
- `location_data.dfy` (`LocationData`): `CampusLocation`, the catalog class and the `LocationDataHelper` persistence.
- `verifier_spec.dfy` (`VerifierSpec`): pure functions giving the verifier's effect on its state. Its lemmas are in `verifier_lemmas.dfy` (`VerifierLemmas`).
- `location_verifier.dfy` (`Verifier`): the `LocationVerifier` and `CollectableAvatar` classes. Each method is proved equal to the spec functions.
- `game_data.dfy` (`GameData`), `score_manager.dfy` (`Scoring`).
- `gps_star_spawner.dfy` (`StarSpawner`).
- `multi_image_tracker.dfy` (`ImageTracker`).
- `ui_manager.dfy` (`UI`), `map_ui.dfy` (`MapView`).
- `star_mesh.dfy` (`StarMesh`).
- `ar_debugger.dfy` (`ARDebug`), `simple_test_spawner.dfy` (`TestSpawner`).

Each class mirrors a MonoBehaviour whose fields its callbacks update.
Every method is proved against a pure function of the old state, such as `ensures State() == CheckStatus(old(State()), ...)`.
The game's promises are then lemmas about those functions.
Loops over image batches and over the catalog are `for` or `while` loops. Their invariant is "state so far == fold over the prefix".

## Model

| member | source | states |
|---|---|---|
| LocationData.CampusLocation.MatchesImageName | Assets/Scripts/Core/LocationData.cs:25-36 | a location matches an image name exactly when the name is non-empty and is its reference image or one of its additional images |
| LocationData.ClearedProgress | Assets/Scripts/Core/LocationData.cs:88-95 | resetting a location clears both progress flags and changes nothing else |
| LocationData.GetLocationById | Assets/Scripts/Core/LocationData.cs:48-51 | the lookup finds the first location with that id, and finds nothing exactly when no location has it |
| LocationData.GetLocationByImageName | Assets/Scripts/Core/LocationData.cs:56-59 | the lookup finds the first location matching the image, finds nothing exactly when none matches, and never matches an empty name |
| LocationData.GetUncollectedLocations | Assets/Scripts/Core/LocationData.cs:64-67 | the result holds exactly the catalog's uncollected locations |
| LocationData.CollectedLocations | Assets/Scripts/Core/LocationData.cs:72-75 | the locations the collected count counts are exactly the collected ones |
| LocationData.CollectedKeepsOrder | Assets/Scripts/Core/LocationData.cs:72-75 | the collected locations of a joined catalog are those of the first part then those of the second, so the filter keeps catalog order and each collected entry once |
| LocationData.GetCollectedCount | Assets/Scripts/Core/LocationData.cs:72-75 | the count is exactly the catalog size minus the number of uncollected locations, so at most the catalog size, and 0 exactly when no location is collected |
| LocationData.GetTotalCount | Assets/Scripts/Core/LocationData.cs:80-83 | the total is the collected locations plus the uncollected ones |
| LocationData.CampusLocationsData.constructor | Assets/Scripts/Core/LocationData.cs:43 | the catalog holds the given locations |
| LocationData.CountsAddUp | Assets/Scripts/Core/LocationData.cs:64-83 | collected count plus uncollected list length equals the total count |
| LocationData.UncollectedKeepsOrder | Assets/Scripts/Core/LocationData.cs:64-67 | the uncollected list keeps catalog order: filtering a concatenation concatenates the filtered parts |
| LocationData.ClearedCatalogCounts | Assets/Scripts/Core/LocationData.cs:64-75 | a catalog with nothing collected counts 0 collected and lists every location as uncollected |
| LocationData.CampusLocationsData.ResetAllProgress | Assets/Scripts/Core/LocationData.cs:88-95 | every location of the catalog has both flags cleared, and the catalog is otherwise unchanged |
| LocationData.KeysDiffer | Assets/Scripts/Core/LocationData.cs:103-104 | a collected key never equals a discovered key, for any two ids |
| LocationData.LoadedState | Assets/Scripts/Core/LocationData.cs:113-117 | a loaded flag is set exactly when its stored int is 1; all other fields are kept |
| LocationData.SaveThenLoad | Assets/Scripts/Core/LocationData.cs:106-117 | loading what was saved gives back the location: the persistence round trip |
| LocationData.LoadWithoutKeys | Assets/Scripts/Core/LocationData.cs:113-117 | with no stored keys a location loads as neither collected nor discovered |
| LocationData.SaveKeepsOtherIds | Assets/Scripts/Core/LocationData.cs:106-117 | saving one location does not change what any other id loads |
| LocationData.SaveLocationState | Assets/Scripts/Core/LocationData.cs:106-111 | the store afterwards is the old store with the location's two flags saved |
| LocationData.LoadAllStates | Assets/Scripts/Core/LocationData.cs:119-125 | every catalog location is replaced by its loaded state, in place |
| LocationData.ResetAllSavedData | Assets/Scripts/Core/LocationData.cs:127-137 | both keys of every catalog location leave the store, and every location has its flags cleared |
| LocationData.LoadAfterReset | Assets/Scripts/Core/LocationData.cs:113-137 | after the reset, every catalog location loads as cleared |
| VerifierSpec.Verdict | Assets/Scripts/Core/LocationVerifier.cs:283-296 | under AND a location is verified iff both GPS and AR hold; under OR iff either holds |
| VerifierSpec.CheckStatus | Assets/Scripts/Core/LocationVerifier.cs:279-330 | one status check changes only location i's discovered flag, only its spawn entry and only its two stored keys, and raises at most one event; a throw leaves the state unchanged; a collected location is skipped; its branches are stated by FirstVerificationSpawns, LossReportedOnEveryCheck, ReshowIsSilent and UnverifiedWithoutAvatarIsNoOp |
| VerifierSpec.FixFrom | Assets/Scripts/Core/LocationVerifier.cs:207-228 | a GPS fix changes only discovered flags, keeps the AR table, never drops a spawn entry and only appends events |
| VerifierSpec.Fix | Assets/Scripts/Core/LocationVerifier.cs:207-228 | a whole GPS fix changes only discovered flags, keeps the AR table, never drops a spawn entry and only appends events |
| VerifierSpec.ProcessImage | Assets/Scripts/Core/LocationVerifier.cs:255-274 | an image signal that names no location changes nothing; otherwise only that location's AR flag and check apply, and the GPS table is kept |
| VerifierSpec.ProcessImages | Assets/Scripts/Core/LocationVerifier.cs:233-253 | a batch of image signals changes only discovered flags, keeps the GPS table, never drops a spawn entry and only appends events |
| VerifierSpec.ImagesChanged | Assets/Scripts/Core/LocationVerifier.cs:233-253 | a change batch changes only discovered flags, keeps the GPS table, never drops a spawn entry and only appends events |
| VerifierSpec.CollectSpec | Assets/Scripts/Core/LocationVerifier.cs:379-399 | collecting marks the location collected, drops its spawn entry when it was uncollected, and touches no other location |
| VerifierSpec.TestSpawn | Assets/Scripts/Core/LocationVerifier.cs:110-181 | without a camera nothing happens; with one something is always spawned: the first uncollected location without an avatar gets one, and a loose cylinder appears exactly when every location is collected or already has an avatar |
| VerifierSpec.CurrentLocationName | Assets/Scripts/Core/LocationVerifier.cs:404-417 | the name is "off campus" when no location is GPS-verified, and otherwise the name of a GPS-verified location |
| VerifierLemmas.FirstVerificationSpawns | Assets/Scripts/Core/LocationVerifier.cs:300-312 | the first verified check marks the location discovered, persists it, raises LocationVerified once, and spawns an anchored-or-camera avatar exactly when a prefab is assigned |
| VerifierLemmas.SpawnedLocationIsQuiet | Assets/Scripts/Core/LocationVerifier.cs:322-329 | the check right after a first spawn with a prefab only re-shows the avatar and raises nothing |
| VerifierLemmas.UnspawnableLocationRefires | Assets/Scripts/Core/LocationVerifier.cs:337-341 | without a prefab nothing is recorded, so every verified check raises LocationVerified again |
| VerifierLemmas.LossReportedOnEveryCheck | Assets/Scripts/Core/LocationVerifier.cs:313-321 | an unverified check with a spawn entry hides the avatar, keeps the entry and raises LocationLost, and it does so again on every such check |
| VerifierLemmas.LostThenRegained | Assets/Scripts/Core/LocationVerifier.cs:255-274 | under AND, losing the image hides the avatar and raises LocationLost; regaining it re-shows the same avatar without a new event |
| VerifierLemmas.ReshowIsSilent | Assets/Scripts/Core/LocationVerifier.cs:322-329 | in every state, a verified check of an uncollected location that has a spawn entry only makes that avatar visible: nothing else changes and no event is raised |
| VerifierLemmas.UnverifiedWithoutAvatarIsNoOp | Assets/Scripts/Core/LocationVerifier.cs:298-329 | in every state, an unverified check of a location without a spawn entry changes nothing |
| VerifierLemmas.NoVerifiedSinceChain | Assets/Scripts/Core/LocationVerifier.cs:298-312 | if no LocationVerified for an id was raised in two successive stretches of the trace, none was raised in their union |
| VerifierLemmas.CheckKeepsEntrySilent | Assets/Scripts/Core/LocationVerifier.cs:298-329 | a check of any location keeps an existing spawn entry and raises no LocationVerified for its id |
| VerifierLemmas.FixKeepsEntrySilent | Assets/Scripts/Core/LocationVerifier.cs:207-228 | once an id has a spawn entry, a whole GPS fix keeps it and raises no LocationVerified for it: no second spawn, under either policy |
| VerifierLemmas.ImageKeepsEntrySilent | Assets/Scripts/Core/LocationVerifier.cs:255-274 | once an id has a spawn entry, an image signal keeps it and raises no LocationVerified for it |
| VerifierLemmas.ImagesKeepEntrySilent | Assets/Scripts/Core/LocationVerifier.cs:233-253 | once an id has a spawn entry, any run of image signals keeps it and raises no LocationVerified for it: repeated true signals give no second spawn |
| VerifierLemmas.CollectIsIdempotent | Assets/Scripts/Core/LocationVerifier.cs:379-393 | collecting twice is the same as collecting once |
| VerifierLemmas.CollectRaisesOnce | Assets/Scripts/Core/LocationVerifier.cs:379-393 | collecting an uncollected location persists it, drops its avatar and raises AvatarCollected exactly once; collecting again changes nothing |
| VerifierLemmas.CheckFreezesCollected | Assets/Scripts/Core/LocationVerifier.cs:281 | a status check never changes a collected location, its avatar or its keys |
| VerifierLemmas.FixFreezesCollected | Assets/Scripts/Core/LocationVerifier.cs:209-227 | a GPS fix never changes a collected location, its avatar or its keys |
| VerifierLemmas.ImageFreezesCollected | Assets/Scripts/Core/LocationVerifier.cs:255-274 | an image signal never changes a collected location, its avatar or its keys |
| VerifierLemmas.ImagesFreezeCollected | Assets/Scripts/Core/LocationVerifier.cs:233-253 | a whole image batch never changes a collected location, its avatar or its keys |
| VerifierLemmas.CollectFreezesCollected | Assets/Scripts/Core/LocationVerifier.cs:379-399 | collecting one location never changes another collected location |
| VerifierLemmas.FixKeepsOtherGpsEntries | Assets/Scripts/Core/LocationVerifier.cs:209-227 | a GPS fix leaves the GPS entry of an id that names no catalog location as it was |
| VerifierLemmas.FixRecordsRadiusTests | Assets/Scripts/Core/LocationVerifier.cs:209-227 | with unique ids, after a fix the GPS table holds each uncollected location's own radius test |
| Verifier.ProcessImagesAppend | Assets/Scripts/Core/LocationVerifier.cs:233-253 | processing two runs of signals one after the other equals processing them together, stopping at the first throw |
| Verifier.LocationVerifier.constructor | Assets/Scripts/Core/LocationVerifier.cs:32-39 | the verifier starts with empty GPS, AR and spawn tables and no events |
| Verifier.LocationVerifier.Start | Assets/Scripts/Core/LocationVerifier.cs:53-72 | with a catalog, the catalog's stored states are loaded |
| Verifier.LocationVerifier.SpawnAvatar | Assets/Scripts/Core/LocationVerifier.cs:335-374 | the spawn throws exactly in its null-camera case; otherwise only the location's spawn entry is set |
| Verifier.LocationVerifier.CheckVerificationStatus | Assets/Scripts/Core/LocationVerifier.cs:279-330 | the new state and the throw are those of CheckStatus, whose four branches FirstVerificationSpawns, LossReportedOnEveryCheck, ReshowIsSilent and UnverifiedWithoutAvatarIsNoOp state for every state |
| Verifier.LocationVerifier.OnGPSUpdated | Assets/Scripts/Core/LocationVerifier.cs:207-228 | without a catalog nothing changes; otherwise the new state is that of the GPS fix |
| Verifier.LocationVerifier.ProcessARImage | Assets/Scripts/Core/LocationVerifier.cs:255-274 | without a catalog nothing changes; otherwise the new state is that of ProcessImage |
| Verifier.LocationVerifier.ProcessSignals | Assets/Scripts/Core/LocationVerifier.cs:236-252 | the loop over signals gives the new state of ProcessImages |
| Verifier.LocationVerifier.OnARImagesChanged | Assets/Scripts/Core/LocationVerifier.cs:233-253 | the added, then updated, then removed images are processed as ProcessImages over the batch's signals |
| Verifier.LocationVerifier.CollectAvatar | Assets/Scripts/Core/LocationVerifier.cs:379-399 | the new state is CollectSpec's |
| Verifier.LocationVerifier.TestSpawnAvatar | Assets/Scripts/Core/LocationVerifier.cs:110-181 | the new state and outcome are TestSpawn's |
| Verifier.LocationVerifier.GetCurrentLocationName | Assets/Scripts/Core/LocationVerifier.cs:404-417 | without a catalog the name is "unknown"; otherwise it is CurrentLocationName |
| Verifier.CollectableAvatar.Collect | Assets/Scripts/Core/LocationVerifier.cs:475-483 | only the first tap collects; every later tap changes nothing |
| Verifier.CollectableAvatar.constructor | Assets/Scripts/Core/LocationVerifier.cs:462-470 | the avatar is bound to its location and verifier and can be collected |
| ARTracking.AddedSignals | Assets/Scripts/Core/LocationVerifier.cs:236-240 | each added image becomes one "tracking" signal, in order |
| ARTracking.UpdatedSignals | Assets/Scripts/Core/LocationVerifier.cs:242-246 | each updated image becomes one signal that says whether it is Tracking, in order |
| ARTracking.RemovedSignals | Assets/Scripts/Core/LocationVerifier.cs:248-252 | each removed image becomes one "not tracking" signal, in order |
| ARTracking.TrackingSignalsOrder | Assets/Scripts/MultiImageTracker.cs:66-83 | a batch's signals are the added ones, then the updated ones, then the removed ones |
| GameData.Defaults | Assets/Scripts/Game/GameData.cs:16-63 | on an empty store the score and count read 0, the name reads "Öğrenci", and it is the first play |
| GameData.TotalScore | Assets/Scripts/Game/GameData.cs:16-18 | the score is the stored int, or 0 when none is stored |
| GameData.CollectedCount | Assets/Scripts/Game/GameData.cs:29-31 | the count is the stored int, or 0 when none is stored |
| GameData.PlayerName | Assets/Scripts/Game/GameData.cs:42-44 | the name is the stored string, or "Öğrenci" when none is stored |
| GameData.IsFirstPlay | Assets/Scripts/Game/GameData.cs:55-57 | it is the first play exactly when no int is stored or the stored int is 1 |
| Prefs.GetInt | Assets/Scripts/Game/GameData.cs:18 | the stored int under the key, or the default when the key holds none |
| Prefs.GetString | Assets/Scripts/Game/GameData.cs:44 | the stored string under the key, or the default when the key holds none |
| Prefs.PlayerPrefs.constructor | Assets/Scripts/Game/GameData.cs:16-18 | the store starts with the entries already persisted |
| Prefs.PlayerPrefs.SetIntPref | Assets/Scripts/Game/GameData.cs:21 | the key now holds the int and every other key is kept |
| Prefs.PlayerPrefs.SetStringPref | Assets/Scripts/Game/GameData.cs:47 | the key now holds the string and every other key is kept |
| Prefs.PlayerPrefs.DeleteKeyPref | Assets/Scripts/Game/GameData.cs:86-88 | the key is gone and every other key is kept |
| CSharpInt.Wrap32 | Assets/Scripts/Game/GameData.cs:68-79 | an unchecked `int` result equals the exact one when that fits, and otherwise differs from it by a multiple of 2^32 |
| GameData.WithTotalScore | Assets/Scripts/Game/GameData.cs:16-24 | setting the score changes the score only: the keys gain the score key and every other entry keeps its value |
| GameData.WithCollectedCount | Assets/Scripts/Game/GameData.cs:29-37 | setting the count changes the count only: the keys gain the count key and every other entry keeps its value |
| GameData.WithPlayerName | Assets/Scripts/Game/GameData.cs:42-50 | setting the name changes the name only: the keys gain the name key and every other entry keeps its value |
| GameData.WithFirstPlay | Assets/Scripts/Game/GameData.cs:55-63 | setting the first-play flag changes that flag only: the keys gain the flag's key and every other entry keeps its value |
| GameData.AddedScore | Assets/Scripts/Game/GameData.cs:68-71 | the score grows by the amount with 32-bit wrap-around (exactly, without overflow) and nothing else changes |
| GameData.IncrementedCount | Assets/Scripts/Game/GameData.cs:76-79 | the count grows by one with wrap-around and nothing else changes |
| GameData.ResetData | Assets/Scripts/Game/GameData.cs:84-90 | score, count and first-play keys are deleted, so they read 0, 0 and true; the player name and every other key are kept with their values |
| GameData.AddedScoreTwice | Assets/Scripts/Game/GameData.cs:68-71 | adding a and then b is adding a + b, even across overflow |
| GameData.SetTotalScore | Assets/Scripts/Game/GameData.cs:16-24 | the store becomes WithTotalScore of the old store |
| GameData.SetCollectedCount | Assets/Scripts/Game/GameData.cs:29-37 | the store becomes WithCollectedCount of the old store |
| GameData.SetPlayerName | Assets/Scripts/Game/GameData.cs:42-50 | the store becomes WithPlayerName of the old store |
| GameData.SetIsFirstPlay | Assets/Scripts/Game/GameData.cs:55-63 | the store becomes WithFirstPlay of the old store |
| GameData.AddScore | Assets/Scripts/Game/GameData.cs:68-71 | the store becomes AddedScore of the old store |
| GameData.IncrementCollectedCount | Assets/Scripts/Game/GameData.cs:76-79 | the store becomes IncrementedCount of the old store |
| GameData.ResetAllData | Assets/Scripts/Game/GameData.cs:84-90 | the store becomes ResetData of the old store |
| Scoring.RewardedStore | Assets/Scripts/Game/ScoreManager.cs:62-73 | a collection adds the location's score, plus the bonus when the new count is a multiple of 5, and raises the count by one; the name and first-play flag are kept |
| Scoring.CollectionEvents | Assets/Scripts/Game/ScoreManager.cs:62-77 | a collection raises MilestoneReached(count / 5) first on a milestone, then ScoreChanged with the new score, then CollectionChanged with the new count and the total |
| Scoring.MilestonesAppend | Assets/Scripts/Game/ScoreManager.cs:64-70 | the milestone numbers of two stretches of events are those of the first followed by those of the second |
| Scoring.UptoSplit | Assets/Scripts/Game/ScoreManager.cs:64-70 | the milestone numbers lo..mid followed by mid..hi are lo..hi |
| Scoring.MilestonesEveryFifth | Assets/Scripts/Game/ScoreManager.cs:59-80 | from a count c, n collections within `int` raise the count to c + n and raise MilestoneReached with the numbers c / 5 + 1, ..., (c + n) / 5, in order and each once: one per multiple of 5 passed |
| Scoring.OneCollectionMilestones | Assets/Scripts/Game/ScoreManager.cs:62-73 | one collection raises the count by one and raises a milestone, numbered new count / 5, exactly when the new count is a multiple of 5 |
| Scoring.ResetProgressClears | Assets/Scripts/Game/ScoreManager.cs:111-122 | after a reset, score and count read 0, the name is kept, and every catalog location loads as cleared |
| Scoring.ScoreManager.constructor | Assets/Scripts/Game/ScoreManager.cs:15 | the milestone bonus starts at 50 |
| Scoring.ScoreManager.TotalLocations | Assets/Scripts/Game/ScoreManager.cs:24 | the total is the catalog size, or 0 without a catalog |
| Scoring.ScoreManager.OnAvatarCollected | Assets/Scripts/Game/ScoreManager.cs:59-80 | the store becomes RewardedStore and the events CollectionEvents |
| Scoring.ScoreManager.AddScore | Assets/Scripts/Game/ScoreManager.cs:85-89 | the score grows by the amount and ScoreChanged reports the new score |
| Scoring.ScoreManager.ResetProgress | Assets/Scripts/Game/ScoreManager.cs:111-122 | game data is reset, the catalog's saved data is reset when there is a catalog, and ScoreChanged(0), then CollectionChanged(0, total) are raised |
| StarSpawner.StarAfterFix | Assets/Scripts/Core/GPSStarSpawner.cs:53-73 | once collected a fix changes nothing; otherwise in range with no star spawns one when a camera exists, out of range hides an existing star, and a star is never dropped |
| StarSpawner.StarAfterFixes | Assets/Scripts/Core/GPSStarSpawner.cs:53-73 | a run of fixes never changes the collected flag and never drops a spawned star |
| StarSpawner.HiddenStarStaysHidden | Assets/Scripts/Core/GPSStarSpawner.cs:65-72 | once hidden the star is never shown again, whatever fixes follow |
| StarSpawner.CollectedIgnoresFixes | Assets/Scripts/Core/GPSStarSpawner.cs:55 | after collection no sequence of fixes changes anything |
| StarSpawner.StarCollectedStore | Assets/Scripts/Core/GPSStarSpawner.cs:116-132 | collecting stores the flag as 1 and, with a score manager, adds 50 to the score; only those two keys are written, and every other entry keeps its value |
| StarSpawner.StarResetStore | Assets/Scripts/Core/GPSStarSpawner.cs:142-147 | the reset deletes the flag's key and no other key, and every remaining entry keeps its value |
| StarSpawner.GPSStarSpawner.Start | Assets/Scripts/Core/GPSStarSpawner.cs:29-43 | the collected flag is read from the store (1 means collected) |
| StarSpawner.GPSStarSpawner.constructor | Assets/Scripts/Core/GPSStarSpawner.cs:23-27 | the spawner starts with no star, out of range and not collected |
| StarSpawner.GPSStarSpawner.OnGPSUpdated | Assets/Scripts/Core/GPSStarSpawner.cs:53-73 | the new fields are StarAfterFix's |
| StarSpawner.GPSStarSpawner.SpawnStar | Assets/Scripts/Core/GPSStarSpawner.cs:75-106 | a star is created, active, only when there is none and a camera exists |
| StarSpawner.GPSStarSpawner.HideStar | Assets/Scripts/Core/GPSStarSpawner.cs:108-114 | an existing star is deactivated and kept |
| StarSpawner.GPSStarSpawner.CollectStar | Assets/Scripts/Core/GPSStarSpawner.cs:116-138 | the star is gone, the flag is set and stored, and the score manager adds the bonus and reports it |
| StarSpawner.GPSStarSpawner.ResetCollection | Assets/Scripts/Core/GPSStarSpawner.cs:142-147 | the key is deleted and the flag cleared; the star is untouched |
| StarSpawner.StarCollectable.Collect | Assets/Scripts/Core/GPSStarSpawner.cs:163-169 | only the first tap collects the star; later taps change nothing |
| StarSpawner.StarCollectable.constructor | Assets/Scripts/Core/GPSStarSpawner.cs:155-161 | the collectable is bound to its spawner and can be collected |
| ImageTracker.FirstPairing | Assets/Scripts/MultiImageTracker.cs:98-115 | the pairing used is the first one naming the image, and none is used when no pairing names it |
| ImageTracker.LegacyAdd | Assets/Scripts/MultiImageTracker.cs:91-117 | an added image gets a new active object from its first pairing unless it already has one or no pairing names it |
| ImageTracker.LegacyUpdate | Assets/Scripts/MultiImageTracker.cs:120-129 | an update only toggles an existing object, active exactly when its image is Tracking |
| ImageTracker.LegacyAddAll | Assets/Scripts/MultiImageTracker.cs:91-117 | adding a run of images keeps every existing object as it was, gives every added image with a pairing an object, and each new object is active, named by an added image and tied to that image's first pairing |
| ImageTracker.LegacyUpdateAll | Assets/Scripts/MultiImageTracker.cs:120-129 | updating a run of images keeps the same names with the same pairings; an object no update names is unchanged, and one that is named is active exactly when its last update is Tracking |
| ImageTracker.LegacyBatch | Assets/Scripts/MultiImageTracker.cs:88-130 | the legacy path never drops an object or changes its pairing; every added image with a pairing has an object, each new object comes from an added image with its first pairing; an object some update names is active exactly when the last such update is Tracking, and any other object keeps its old state, or is active if it is new |
| ImageTracker.LegacyAddAllKeepsObjects | Assets/Scripts/MultiImageTracker.cs:91-117 | adding never replaces an object, every added image with a pairing ends with an object, and every new object is active and comes from an added image |
| ImageTracker.LegacyUpdateAllKeepsPairs | Assets/Scripts/MultiImageTracker.cs:120-129 | updates keep the same objects with the same pairings |
| ImageTracker.LegacyBatchWellPaired | Assets/Scripts/MultiImageTracker.cs:88-130 | the legacy path keeps every object tied to the first pairing of its image |
| ImageTracker.MultiImageTracker.OnChanged | Assets/Scripts/MultiImageTracker.cs:49-60 | the new mode appends the batch's signals and spawns nothing; the legacy mode emits nothing and applies the legacy batch |
| ImageTracker.MultiImageTracker.ProcessForNewSystem | Assets/Scripts/MultiImageTracker.cs:66-83 | the emitted signals grow by the batch's signals in order |
| ImageTracker.MultiImageTracker.ProcessForLegacySystem | Assets/Scripts/MultiImageTracker.cs:88-130 | the objects become the legacy batch's; removed images are ignored |
| ImageTracker.MultiImageTracker.AddLegacyObjects | Assets/Scripts/MultiImageTracker.cs:91-117 | the objects become LegacyAddAll of the old objects over the added images, and no event is raised |
| ImageTracker.MultiImageTracker.UpdateLegacyObjects | Assets/Scripts/MultiImageTracker.cs:120-129 | the objects become LegacyUpdateAll of the old objects over the updated images, and no event is raised |
| ImageTracker.MultiImageTracker.constructor | Assets/Scripts/MultiImageTracker.cs:22-28 | the tracker starts in its mode with its pairings, no objects and no notifications |
| ImageTracker.MultiImageTracker.EmitAdded | Assets/Scripts/MultiImageTracker.cs:68-71 | each added image is notified as tracking, in order, and no object changes |
| ImageTracker.MultiImageTracker.EmitUpdated | Assets/Scripts/MultiImageTracker.cs:73-77 | each updated image is notified as tracking exactly when it is Tracking, in order |
| ImageTracker.MultiImageTracker.EmitRemoved | Assets/Scripts/MultiImageTracker.cs:79-82 | each removed image is notified as not tracking, in order |
| UI.BackAction | Assets/Scripts/UI/UIManager.cs:176-193 | the back button maps every screen to a direct screen change, never to itself or to toggling |
| UI.Step | Assets/Scripts/UI/UIManager.cs:52-154 | each screen change records the new state; toggling alternates map and game; pausing stops time; resuming restarts it; quitting only requests quit; other changes leave time as it was |
| UI.Run | Assets/Scripts/UI/UIManager.cs:52-193 | a run of screen changes only appends state reports, and once quit is requested it stays requested |
| UI.BackButtonTable | Assets/Scripts/UI/UIManager.cs:176-193 | back from the main menu quits; from the game it pauses; from the map it returns to the game; from pause it resumes |
| UI.ScreensShowOnePanel | Assets/Scripts/UI/UIManager.cs:52-83 | the main menu shows only its panel and turns AR off; the game shows only the HUD and turns AR on |
| UI.RestartAfterPauseStaysFrozen | Assets/Scripts/UI/UIManager.cs:52-83 | starting a game, pausing, leaving to the main menu and starting again leaves the game running with time stopped |
| UI.StepResumingTime | Assets/Scripts/UI/UIManager.cs:52-83 | the corrected change: the main menu and a new game set time running, and every other change is as before |
| UI.TimeStopsOnlyWhenPaused | Assets/Scripts/UI/UIManager.cs:121-140 | with the corrected changes, time is stopped only on the pause screen, whatever sequence of non-map changes is applied |
| UI.UIManager.constructor | Assets/Scripts/UI/UIManager.cs:28 | the manager starts in the main menu with time running and no state events |
| UI.UIManager.Start | Assets/Scripts/UI/UIManager.cs:44-47 | start-up takes Step's main-menu change |
| UI.UIManager.ShowMainMenu | Assets/Scripts/UI/UIManager.cs:52-65 | the new screen is Step's for the main menu |
| UI.UIManager.StartGame | Assets/Scripts/UI/UIManager.cs:70-83 | the new screen is Step's for starting a game |
| UI.UIManager.ShowMap | Assets/Scripts/UI/UIManager.cs:88-94 | the new screen is Step's for showing the map |
| UI.UIManager.HideMap | Assets/Scripts/UI/UIManager.cs:99-105 | the new screen is Step's for hiding the map |
| UI.UIManager.ToggleMap | Assets/Scripts/UI/UIManager.cs:110-116 | the new screen is Step's for toggling the map |
| UI.UIManager.ShowPause | Assets/Scripts/UI/UIManager.cs:121-128 | the new screen is Step's for pausing |
| UI.UIManager.ResumeGame | Assets/Scripts/UI/UIManager.cs:133-140 | the new screen is Step's for resuming |
| UI.UIManager.QuitGame | Assets/Scripts/UI/UIManager.cs:145-154 | the new screen is Step's for quitting |
| UI.UIManager.HandleBackButton | Assets/Scripts/UI/UIManager.cs:176-193 | the new screen is Step's for the back button |
| MapView.MarkerColorFor | Assets/Scripts/UI/MapUI.cs:180-210 | a marker shows the current-location colour exactly when GPS is active and the player is inside the location; otherwise it shows the progress colour |
| MapView.BaseColor | Assets/Scripts/UI/MapUI.cs:187-198 | the progress colour is the collected one exactly when collected, the discovered one exactly when discovered but not collected, and the undiscovered one otherwise |
| MapView.StatusText | Assets/Scripts/UI/MapUI.cs:229-237 | the status names collected exactly when collected, discovered exactly when discovered but not collected, and undiscovered otherwise |
| MapView.ColorPriority | Assets/Scripts/UI/MapUI.cs:187-198 | collected beats discovered beats undiscovered, and without GPS the current-location colour never appears |
| MapView.StatusFollowsColor | Assets/Scripts/UI/MapUI.cs:229-237 | the info panel's status text names exactly the progress the marker's colour shows |
| MapView.RecoloredMarkers | Assets/Scripts/UI/MapUI.cs:164-175 | updating markers creates and drops none, leaves markers without an image and of no location alone, and gives each location's marker its colour |
| MapView.WithMarkers | Assets/Scripts/UI/MapUI.cs:112-139 | every location gets the prefab's marker; markers of no location are kept, and no other marker appears |
| MapView.CreatedMarkersColored | Assets/Scripts/UI/MapUI.cs:112-139 | after creation every location has a marker, tinted with its own colour when the prefab has an image |
| MapView.MapUI.Start | Assets/Scripts/UI/MapUI.cs:51-58 | the info panel is hidden and, with a catalog and a prefab, the markers are created |
| MapView.MapUI.constructor | Assets/Scripts/UI/MapUI.cs:29-44 | the map starts with its panel, labels and catalog and no markers |
| MapView.MapUI.CreateLocationMarkers | Assets/Scripts/UI/MapUI.cs:112-139 | with a catalog and a prefab the markers become the created and recoloured table; otherwise nothing changes |
| MapView.MapUI.UpdateMarkers | Assets/Scripts/UI/MapUI.cs:164-175 | the markers become the recoloured table, and the panel and labels are untouched |
| MapView.MapUI.ShowLocationInfo | Assets/Scripts/UI/MapUI.cs:215-239 | without a panel nothing changes; otherwise the panel is shown with the location's name, description and status in the labels that exist |
| MapView.MapUI.HideLocationInfo | Assets/Scripts/UI/MapUI.cs:244-248 | the info panel is deactivated and nothing else changes |
| MapView.MapUI.OnCloseClicked | Assets/Scripts/UI/MapUI.cs:250-254 | the UI manager, when there is one, takes the hide-map step |
| StarMesh.Triangle | Assets/Scripts/Core/StarAvatarGenerator.cs:123-129 | every triangle starts at the centre, and its two ring indices lie in 1..2·points |
| StarMesh.TriangleIndicesInRange | Assets/Scripts/Core/StarAvatarGenerator.cs:123-129 | every index of every triangle names one of the 2·points + 1 vertices |
| StarMesh.FanIsClosed | Assets/Scripts/Core/StarAvatarGenerator.cs:127-128 | each triangle's last vertex is the next one's middle vertex, and the last triangle wraps to vertex 1 |
| StarMesh.TriangleSpansTipAndNotch | Assets/Scripts/Core/StarAvatarGenerator.cs:110-129 | each triangle joins an outer tip to an inner notch |
| StarMesh.FanCoversRingOnce | Assets/Scripts/Core/StarAvatarGenerator.cs:123-129 | each ring vertex is the middle vertex of exactly one triangle |
| StarMesh.CreateStarMesh | Assets/Scripts/Core/StarAvatarGenerator.cs:94-137 | it throws exactly when MeshThrows says; otherwise, with the ring size d = points * 2 wrapped to 32 bits, there are d + 1 vertices and 3·d indices, vertex 0 is the centre, ring vertices alternate outer and inner from a tip, and each triangle is the fan's |
| StarMesh.RingSize | Assets/Scripts/Core/StarAvatarGenerator.cs:98-101 | the ring size is `points * 2` with C# 32-bit wrap-around, and is always even |
| StarMesh.MeshSizes | Assets/Scripts/Core/StarAvatarGenerator.cs:98-128 | a mesh is built exactly for 0..357913941 points and for int.MinValue plus 0..357913941, where the doubling wraps round to the ring of that many points |
| StarMesh.TriangleCountWraps | Assets/Scripts/Core/StarAvatarGenerator.cs:101-128 | the triangle array is negative or shorter than the loop's indices exactly when 3·ring leaves `int` |
| StarMesh.FillVertices | Assets/Scripts/Core/StarAvatarGenerator.cs:103-120 | vertex 0 is the centre and each ring vertex has the radius its parity gives |
| StarMesh.FillTriangles | Assets/Scripts/Core/StarAvatarGenerator.cs:123-129 | every triangle of the array is the fan's triangle |
| ARDebug.WithLog | Assets/Scripts/ARDebugger.cs:211-221 | a log line is appended last and the log never exceeds 15 lines |
| ARDebug.LogKeepsNewest | Assets/Scripts/ARDebugger.cs:211-221 | any run of log calls leaves exactly the newest 15 lines of everything logged |
| ARDebug.SpawnCylinder | Assets/Scripts/ARDebugger.cs:170-202 | an image already having a cylinder keeps it; otherwise a new active one is recorded; the tracking line is untouched |
| ARDebug.AddedAllSpawns | Assets/Scripts/ARDebugger.cs:119-129 | added images get cylinders exactly when spawning is on; existing cylinders are untouched, new ones are active, and the tracking line names the last image found |
| ARDebug.UpdatedAllShows | Assets/Scripts/ARDebugger.cs:132-154 | updates create and drop no cylinder; each updated cylinder is shown exactly when its last update is Tracking |
| ARDebug.RemovedAllForgets | Assets/Scripts/ARDebugger.cs:157-167 | removal forgets exactly the removed images' cylinders |
| ARDebug.BatchCylinders | Assets/Scripts/ARDebugger.cs:116-168 | after a batch, the cylinders are the old ones plus the added ones (when spawning is on) minus the removed ones, and the log stays within 15 lines |
| ARDebug.TrackingAtMostTotal | Assets/Scripts/ARDebugger.cs:99-113 | the tracking count never exceeds the total, and equals it exactly when every image is Tracking |
| ARDebug.ARDebugger.constructor | Assets/Scripts/ARDebugger.cs:20-24 | the debugger starts with an empty log, no cylinders and the waiting line |
| ARDebug.ARDebugger.AddLog | Assets/Scripts/ARDebugger.cs:211-221 | the log becomes WithLog's and stays within its bound |
| ARDebug.ARDebugger.SpawnCylinderOnImage | Assets/Scripts/ARDebugger.cs:170-202 | the state becomes SpawnCylinder's |
| ARDebug.ARDebugger.OnTrackedImagesChanged | Assets/Scripts/ARDebugger.cs:116-168 | the state becomes that of the added, then updated, then removed images |
| ARDebug.ARDebugger.HandleAdded | Assets/Scripts/ARDebugger.cs:119-129 | the state becomes AddedAll's for the added images |
| ARDebug.ARDebugger.HandleUpdated | Assets/Scripts/ARDebugger.cs:132-154 | the state becomes UpdatedAll's for the updated images |
| ARDebug.ARDebugger.HandleRemoved | Assets/Scripts/ARDebugger.cs:157-167 | the state becomes RemovedAll's for the removed images |
| ARDebug.ARDebugger.CountTracking | Assets/Scripts/ARDebugger.cs:101-112 | the loop counts exactly the Tracking images and the total |
| ARDebug.ARDebugger.Update | Assets/Scripts/ARDebugger.cs:99-113 | with an image manager the tracking line shows the count and the total; nothing else changes |
| TestSpawner.SpawnOnImage | Assets/Scripts/SimpleTestSpawner.cs:85-108 | an image with a cylinder changes nothing; otherwise one new active cylinder is recorded |
| TestSpawner.AddedAllSpawns | Assets/Scripts/SimpleTestSpawner.cs:58-64 | every added image gets a cylinder, existing ones are untouched, new ones are active, and the last-found line names the last image |
| TestSpawner.UpdatedAllShows | Assets/Scripts/SimpleTestSpawner.cs:67-82 | updates create and drop no cylinder; each updated cylinder is shown exactly when its last update is Tracking |
| TestSpawner.BatchKeepsCylinders | Assets/Scripts/SimpleTestSpawner.cs:55-83 | a batch never forgets a cylinder: afterwards there are the old ones plus one per added image |
| TestSpawner.SpawnsAreCounted | Assets/Scripts/SimpleTestSpawner.cs:129-166 | every manual spawn raises the counter, with wrap-around, while cylinders appear only for spawns that found a camera |
| TestSpawner.Reset | Assets/Scripts/SimpleTestSpawner.cs:218-226 | the reset forgets every image cylinder and keeps the counters |
| TestSpawner.ResetAllowsRespawn | Assets/Scripts/SimpleTestSpawner.cs:218-226 | after a reset the next image found spawns again, even one that had a cylinder |
| TestSpawner.SimpleTestSpawner.OnImagesChanged | Assets/Scripts/SimpleTestSpawner.cs:55-83 | the state becomes that of the added, then updated images |
| TestSpawner.SimpleTestSpawner.constructor | Assets/Scripts/SimpleTestSpawner.cs:13-22 | the spawner starts with no cylinders, no image found and zero counters, and with the given `isActive` switch, which no handler changes |
| TestSpawner.SimpleTestSpawner.HandleAdded | Assets/Scripts/SimpleTestSpawner.cs:58-64 | the state becomes AddedAll's for the added images |
| TestSpawner.SimpleTestSpawner.HandleUpdated | Assets/Scripts/SimpleTestSpawner.cs:67-82 | the state becomes UpdatedAll's for the updated images |
| TestSpawner.SimpleTestSpawner.SpawnOnARImage | Assets/Scripts/SimpleTestSpawner.cs:85-108 | the state becomes SpawnOnImage's |
| TestSpawner.SimpleTestSpawner.SpawnCylinder | Assets/Scripts/SimpleTestSpawner.cs:129-166 | the counter goes up first; a cylinder is made only when a camera exists |
| TestSpawner.SimpleTestSpawner.Update | Assets/Scripts/SimpleTestSpawner.cs:110-127 | when active, a touch that began and a mouse click each spawn once; when inactive nothing changes |
| TestSpawner.SimpleTestSpawner.ManualSpawnButton | Assets/Scripts/SimpleTestSpawner.cs:213-216 | the button spawns once while the spawner is active |
| TestSpawner.SimpleTestSpawner.ResetButton | Assets/Scripts/SimpleTestSpawner.cs:218-226 | the button resets while the spawner is active |

## Left out

- Haversine distance and GPS start-up (`GPSManager`): floating-point trig and OS permission coroutines.
  - "Within radius" is a parameter `(lat, lon, radius) -> bool` supplied with each fix.
  - For the star, it is one boolean per fix.
- Positions, rotations, scales, colours as RGBA, mesh vertex coordinates and animations.
  - These are float geometry.
  - Map markers keep only which of the four colour roles they show.
  - A star mesh vertex keeps only the radius it is placed at.
- `MapUI.GPSToUIPosition` and `LoadMapImage`: float geometry and asset loading.
  - `LocationMarker.Initialize`'s label binding is UI plumbing.
- Unity object lifetime (`Instantiate`, `Destroy`, "fake null" of destroyed objects).
  - Spawned objects are values with a `visible` flag held in maps.
  - A destroyed entry is removed from its map.
- Coroutine timing in `CollectableAvatar.CollectAnimation` and `StarCollectable.CollectAnimation`.
  - Only the one-shot guard and the final collect call are kept.
- Event subscription, singletons and `Awake`/`OnDestroy` wiring.
  - Events raised are appended to an event trace instead.
- `ToggleRequireBothConditions`, which is editor-only. The AND/OR policy is a constant of each verifier.
- `PlayerPrefs.Save` and disk I/O. The store is a map that is always current.
- Logging through `Debug.Log` and on-screen status strings.
  - Exception: `ARDebugger`'s log lines, which are modelled.
- `ARDebugger.Start`, its status texts and `OnGUI`.
  - The time of day in log lines is one parameter per callback, because the clock is outside the model.
- `SimpleTestSpawner`'s GUI labels and AR info text. Only its two buttons are modelled.
- `MultiImageTracker` legacy mode with a null prefab in a pairing: the instantiation would throw.
  - Every pairing is taken to have a prefab.
- `CampusLocation` is a ScriptableObject entry that the catalog shares by reference.
  - It is modelled as a value in the catalog's sequence.
  - Code outside the catalog refers to a location by index.
  - Aliasing between two catalogs is not modelled.
- UI panels are values owned by the UI manager, treated as unaliased.
  - `Time.timeScale` is a field of the UI manager rather than a global.
- `ScoreManager.GetProgressPercentage`: float division.
- `ScoreManager.IsCompleted` is modelled as a predicate without a stated contract of its own.
- StarMesh.CreateStarMesh: a ring size whose 3·ring overflows `int` is reported as a throw without saying which exception.
  - A wrapped triangle array size that is negative fails the allocation; one that is non-negative fails at the first index past its end.
  - Running out of memory for a very large vertex array is not modelled.
- UI.TimeStopsOnlyWhenPaused: the lemma excludes the map actions.
  - `ShowMap` from the pause screen opens the map with time still stopped, and nothing in the source prevents it.

## Findings

| source | as written | input that shows it | evidently intended | confidence | as-written member | corrected member |
|---|---|---|---|---|---|---|
| Assets/Scripts/UI/UIManager.cs:52-83 | `ShowPause` sets `Time.timeScale` to 0 and only `ResumeGame` and `QuitGame` set it back to 1. `ShowMainMenu` and `StartGame` leave it as they find it. | StartGame, ShowPause, then ShowMainMenu (the pause panel's main-menu button), then StartGame: the game screen is shown with time stopped | returning to the main menu or starting a game resumes time, so time stands still only on the pause screen | not executed | UI.RestartAfterPauseStaysFrozen | UI.TimeStopsOnlyWhenPaused |
