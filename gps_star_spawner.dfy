/**
 * `GPSStarSpawner`: a gold star that appears in front of the camera while the
 * player is within a fixed radius of one target point, needs no image, and can
 * be collected once (persisted) for a 50-point bonus.
 */
module StarSpawner {
  import opened Wrappers
  import opened CSharpInt
  import opened Prefs
  import opened GameData
  import opened Scoring

  /** The spawned star object and whether it is active. */
  datatype Star = Star(visible: bool)

  const GoldStarCollectedKey: string := "AYBU_GoldStar_Collected"
  const StarBonus: Int32 := 50

  /** The spawner's three fields. */
  datatype StarState = StarState(spawnedStar: Option<Star>, isInRange: bool, hasCollected: bool)

  /** What `Start` reads: the flag is set when the stored value is 1 (a missing key reads as 0). */
  predicate StoredCollected(store: Store)
  {
    GetInt(store, GoldStarCollectedKey, 0) == 1
  }

  /**
   * `OnGPSUpdated` with the radius test `inRange`: nothing once collected; otherwise the
   * range flag is recorded, an in-range fix with no star spawns one (none when there is
   * no camera), and an out-of-range fix with a star hides it.
   */
  function StarAfterFix(st: StarState, inRange: bool, cameraExists: bool): (r: StarState)
    ensures st.hasCollected ==> r == st
    ensures !st.hasCollected ==> r.isInRange == inRange && !r.hasCollected
    ensures st.spawnedStar.Some? ==> r.spawnedStar.Some?
    ensures inRange && st.spawnedStar.Some? ==> r.spawnedStar == st.spawnedStar
    ensures !st.hasCollected && inRange && st.spawnedStar.None? ==>
      r.spawnedStar == (if cameraExists then Some(Star(true)) else None)
    ensures !st.hasCollected && !inRange ==>
      r.spawnedStar == (if st.spawnedStar.Some? then Some(Star(false)) else None)
  {
    if st.hasCollected then st
    else
      var star :=
        if inRange && st.spawnedStar.None? then (if cameraExists then Some(Star(true)) else None)
        else if !inRange && st.spawnedStar.Some? then Some(Star(false))
        else st.spawnedStar;
      StarState(star, inRange, st.hasCollected)
  }

  /** A sequence of fixes, each a radius test and whether a camera exists. */
  function StarAfterFixes(st: StarState, fixes: seq<(bool, bool)>): (r: StarState)
    ensures r.hasCollected == st.hasCollected
    ensures st.spawnedStar.Some? ==> r.spawnedStar.Some?
    decreases |fixes|
  {
    if |fixes| == 0 then st else StarAfterFixes(StarAfterFix(st, fixes[0].0, fixes[0].1), fixes[1..])
  }

  /** No branch re-shows a star once hidden: whatever fixes follow, it stays hidden. */
  lemma {:induction false} HiddenStarStaysHidden(st: StarState, fixes: seq<(bool, bool)>)
    requires st.spawnedStar == Some(Star(false))
    ensures StarAfterFixes(st, fixes).spawnedStar == Some(Star(false))
    decreases |fixes|
  {
    if |fixes| > 0 {
      var next := StarAfterFix(st, fixes[0].0, fixes[0].1);
      assert next.spawnedStar == Some(Star(false));
      HiddenStarStaysHidden(next, fixes[1..]);
    }
  }

  /** Once collected, no sequence of fixes changes anything. */
  lemma {:induction false} CollectedIgnoresFixes(st: StarState, fixes: seq<(bool, bool)>)
    requires st.hasCollected
    ensures StarAfterFixes(st, fixes) == st
    decreases |fixes|
  {
    if |fixes| > 0 {
      CollectedIgnoresFixes(StarAfterFix(st, fixes[0].0, fixes[0].1), fixes[1..]);
    }
  }

  /** The store after `CollectStar`: the key holds 1, and the score grows by 50 when a score manager exists. */
  function StarCollectedStore(store: Store, hasScoreManager: bool): (r: Store)
    ensures StoredCollected(r)
    ensures TotalScore(r) == if hasScoreManager then Wrap32(TotalScore(store) + StarBonus) else TotalScore(store)
    ensures CollectedCount(r) == CollectedCount(store)
    ensures r.Keys == store.Keys + {GoldStarCollectedKey} + (if hasScoreManager then {ScoreKey} else {})
    ensures forall key :: key in store && key != GoldStarCollectedKey && key != ScoreKey ==> r[key] == store[key]
  {
    var flagged := SetInt(store, GoldStarCollectedKey, 1);
    assert GoldStarCollectedKey[5] != ScoreKey[5] && GoldStarCollectedKey[5] != CollectedCountKey[5];
    if hasScoreManager then AddedScore(flagged, StarBonus) else flagged
  }

  /** The store after `ResetCollection`: the key is gone, so a later `Start` reads "not collected". */
  function StarResetStore(store: Store): (r: Store)
    ensures !StoredCollected(r) && GoldStarCollectedKey !in r
    ensures forall key :: key != GoldStarCollectedKey ==> (key in r <==> key in store)
    ensures forall key :: key in r ==> r[key] == store[key]
  {
    DeleteKey(store, GoldStarCollectedKey)
  }

  class GPSStarSpawner {
    var spawnedStar: Option<Star>
    var isInRange: bool
    var hasCollected: bool
    const prefs: PlayerPrefs
    /** `ScoreManager.Instance`, when there is one. */
    const scoreManager: ScoreManager?

    /** The score manager writes the same store as the spawner. */
    predicate Valid()
      reads this
    {
      scoreManager != null ==> scoreManager.prefs == prefs
    }

    function State(): StarState
      reads this
    {
      StarState(spawnedStar, isInRange, hasCollected)
    }

    constructor (prefs: PlayerPrefs, scoreManager: ScoreManager?)
      requires scoreManager != null ==> scoreManager.prefs == prefs
      ensures Valid() && this.prefs == prefs && this.scoreManager == scoreManager
      ensures State() == StarState(None, false, false)
    {
      this.prefs := prefs;
      this.scoreManager := scoreManager;
      spawnedStar := None;
      isInRange := false;
      hasCollected := false;
    }

    /** `Start`: the collected flag is loaded from the store. */
    method Start()
      modifies this
      ensures hasCollected == StoredCollected(prefs.entries)
      ensures spawnedStar == old(spawnedStar) && isInRange == old(isInRange)
    {
      hasCollected := GetInt(prefs.entries, GoldStarCollectedKey, 0) == 1;
    }

    method OnGPSUpdated(inRange: bool, cameraExists: bool)
      modifies this
      ensures State() == StarAfterFix(old(State()), inRange, cameraExists)
    {
      if hasCollected {
        return;
      }
      isInRange := inRange;
      if isInRange && spawnedStar.None? {
        SpawnStar(cameraExists);
      } else if !isInRange && spawnedStar.Some? {
        HideStar();
      }
    }

    /** `SpawnStar`: only when there is no star, and only when a camera exists. */
    method SpawnStar(cameraExists: bool)
      modifies this
      ensures spawnedStar == if old(spawnedStar).None? && cameraExists then Some(Star(true)) else old(spawnedStar)
      ensures isInRange == old(isInRange) && hasCollected == old(hasCollected)
    {
      if spawnedStar.Some? {
        return;
      }
      if !cameraExists {
        return;
      }
      spawnedStar := Some(Star(true));
    }

    /** `HideStar`: the star is deactivated but kept. */
    method HideStar()
      modifies this
      ensures spawnedStar == if old(spawnedStar).Some? then Some(Star(false)) else None
      ensures isInRange == old(isInRange) && hasCollected == old(hasCollected)
    {
      if spawnedStar.Some? {
        spawnedStar := Some(Star(false));
      }
    }

    /** `CollectStar`: on every call, marks and stores the collection, drops the star and adds the bonus. */
    method CollectStar()
      requires Valid()
      modifies this, prefs, scoreManager
      ensures hasCollected && spawnedStar.None? && isInRange == old(isInRange)
      ensures prefs.entries == StarCollectedStore(old(prefs.entries), scoreManager != null)
      ensures scoreManager != null ==> scoreManager.events == old(scoreManager.events) + [ScoreChanged(TotalScore(prefs.entries))]
    {
      hasCollected := true;
      prefs.SetIntPref(GoldStarCollectedKey, 1);
      if spawnedStar.Some? {
        spawnedStar := None;
      }
      if scoreManager != null {
        scoreManager.AddScore(StarBonus);
      }
    }

    /** `ResetCollection`: the key is deleted and the flag cleared. */
    method ResetCollection()
      modifies this, prefs
      ensures prefs.entries == StarResetStore(old(prefs.entries))
      ensures !hasCollected && spawnedStar == old(spawnedStar) && isInRange == old(isInRange)
    {
      prefs.DeleteKeyPref(GoldStarCollectedKey);
      hasCollected := false;
    }
  }

  /** The component on the star: the first tap collects, later taps do nothing. */
  class StarCollectable {
    const spawner: GPSStarSpawner
    var isCollectable: bool

    constructor (spawner: GPSStarSpawner)
      ensures this.spawner == spawner && isCollectable
    {
      this.spawner := spawner;
      isCollectable := true;
    }

    method Collect()
      requires spawner.Valid()
      modifies this, spawner, spawner.prefs, spawner.scoreManager
      ensures !isCollectable
      ensures old(isCollectable) ==>
        && spawner.hasCollected
        && spawner.prefs.entries == StarCollectedStore(old(spawner.prefs.entries), spawner.scoreManager != null)
      ensures !old(isCollectable) ==>
        spawner.State() == old(spawner.State()) && spawner.prefs.entries == old(spawner.prefs.entries)
    {
      if !isCollectable {
        return;
      }
      isCollectable := false;
      spawner.CollectStar();
    }
  }
}
