/**
 * `GameData`: the score, the collected count, the player name and the
 * first-play flag, each kept under its own key of the preference store with a
 * default for a missing key.
 */
module GameData {
  import opened CSharpInt
  import opened Prefs

  const ScoreKey: string := "AYBU_TotalScore"
  const CollectedCountKey: string := "AYBU_CollectedCount"
  const PlayerNameKey: string := "AYBU_PlayerName"
  const FirstPlayKey: string := "AYBU_FirstPlay"
  const DefaultPlayerName: string := "Öğrenci"

  /** The stored score, or 0 when none is stored. */
  function TotalScore(store: Store): (v: Int32)
    ensures ScoreKey in store && store[ScoreKey].IntPref? ==> v == store[ScoreKey].i
    ensures !(ScoreKey in store && store[ScoreKey].IntPref?) ==> v == 0
  {
    GetInt(store, ScoreKey, 0)
  }

  /** The stored collected count, or 0 when none is stored. */
  function CollectedCount(store: Store): (v: Int32)
    ensures CollectedCountKey in store && store[CollectedCountKey].IntPref? ==> v == store[CollectedCountKey].i
    ensures !(CollectedCountKey in store && store[CollectedCountKey].IntPref?) ==> v == 0
  {
    GetInt(store, CollectedCountKey, 0)
  }

  /** The stored player name, or the default name when none is stored. */
  function PlayerName(store: Store): (v: string)
    ensures PlayerNameKey in store && store[PlayerNameKey].StringPref? ==> v == store[PlayerNameKey].s
    ensures !(PlayerNameKey in store && store[PlayerNameKey].StringPref?) ==> v == DefaultPlayerName
  {
    GetString(store, PlayerNameKey, DefaultPlayerName)
  }

  /** The flag reads as set when the stored value is 1; a missing key counts as 1. */
  predicate IsFirstPlay(store: Store)
    ensures IsFirstPlay(store) <==>
      !(FirstPlayKey in store && store[FirstPlayKey].IntPref?) || store[FirstPlayKey].i == 1
  {
    GetInt(store, FirstPlayKey, 1) == 1
  }

  /** A store holding none of the four keys reads as a new player's. */
  lemma Defaults(store: Store)
    requires ScoreKey !in store && CollectedCountKey !in store
    requires PlayerNameKey !in store && FirstPlayKey !in store
    ensures TotalScore(store) == 0 && CollectedCount(store) == 0
    ensures PlayerName(store) == DefaultPlayerName && IsFirstPlay(store)
  {
  }

  // ----- The store after each setter -----

  function WithTotalScore(store: Store, value: Int32): (r: Store)
    ensures TotalScore(r) == value
    ensures CollectedCount(r) == CollectedCount(store) && PlayerName(r) == PlayerName(store)
    ensures IsFirstPlay(r) == IsFirstPlay(store)
    ensures r.Keys == store.Keys + {ScoreKey}
    ensures forall key :: key in store && key != ScoreKey ==> r[key] == store[key]
  {
    SetInt(store, ScoreKey, value)
  }

  function WithCollectedCount(store: Store, value: Int32): (r: Store)
    ensures CollectedCount(r) == value
    ensures TotalScore(r) == TotalScore(store) && PlayerName(r) == PlayerName(store)
    ensures IsFirstPlay(r) == IsFirstPlay(store)
    ensures r.Keys == store.Keys + {CollectedCountKey}
    ensures forall key :: key in store && key != CollectedCountKey ==> r[key] == store[key]
  {
    SetInt(store, CollectedCountKey, value)
  }

  function WithPlayerName(store: Store, value: string): (r: Store)
    ensures PlayerName(r) == value
    ensures TotalScore(r) == TotalScore(store) && CollectedCount(r) == CollectedCount(store)
    ensures IsFirstPlay(r) == IsFirstPlay(store)
    ensures r.Keys == store.Keys + {PlayerNameKey}
    ensures forall key :: key in store && key != PlayerNameKey ==> r[key] == store[key]
  {
    SetString(store, PlayerNameKey, value)
  }

  /** The flag is written as 1 or 0. */
  function WithFirstPlay(store: Store, value: bool): (r: Store)
    ensures IsFirstPlay(r) == value
    ensures TotalScore(r) == TotalScore(store) && CollectedCount(r) == CollectedCount(store)
    ensures PlayerName(r) == PlayerName(store)
    ensures r.Keys == store.Keys + {FirstPlayKey}
    ensures forall key :: key in store && key != FirstPlayKey ==> r[key] == store[key]
  {
    SetInt(store, FirstPlayKey, if value then 1 else 0)
  }

  /** `AddScore`: the score grows by `amount`, wrapping like a C# `int`. */
  function AddedScore(store: Store, amount: Int32): (r: Store)
    ensures TotalScore(r) == Wrap32(TotalScore(store) + amount)
    ensures MinInt32 <= TotalScore(store) + amount <= MaxInt32 ==> TotalScore(r) == TotalScore(store) + amount
    ensures CollectedCount(r) == CollectedCount(store) && PlayerName(r) == PlayerName(store)
    ensures IsFirstPlay(r) == IsFirstPlay(store)
    ensures r.Keys == store.Keys + {ScoreKey}
    ensures forall key :: key in store && key != ScoreKey ==> r[key] == store[key]
  {
    WithTotalScore(store, Wrap32(TotalScore(store) + amount))
  }

  /** `IncrementCollectedCount`: the count grows by one, wrapping like a C# `int`. */
  function IncrementedCount(store: Store): (r: Store)
    ensures CollectedCount(r) == Wrap32(CollectedCount(store) + 1)
    ensures CollectedCount(store) < MaxInt32 ==> CollectedCount(r) == CollectedCount(store) + 1
    ensures TotalScore(r) == TotalScore(store) && PlayerName(r) == PlayerName(store)
    ensures IsFirstPlay(r) == IsFirstPlay(store)
    ensures r.Keys == store.Keys + {CollectedCountKey}
    ensures forall key :: key in store && key != CollectedCountKey ==> r[key] == store[key]
  {
    WithCollectedCount(store, Wrap32(CollectedCount(store) + 1))
  }

  /** `ResetAllData`: score, count and first-play flag read as their defaults; the name is kept. */
  function ResetData(store: Store): (r: Store)
    ensures TotalScore(r) == 0 && CollectedCount(r) == 0 && IsFirstPlay(r)
    ensures PlayerName(r) == PlayerName(store)
    ensures ScoreKey !in r && CollectedCountKey !in r && FirstPlayKey !in r
    ensures forall key :: key in r <==> key in store && key !in {ScoreKey, CollectedCountKey, FirstPlayKey}
    ensures forall key :: key in r ==> r[key] == store[key]
  {
    DeleteKey(DeleteKey(DeleteKey(store, ScoreKey), CollectedCountKey), FirstPlayKey)
  }

  /** Two additions add up: wrapping after each step equals wrapping once. */
  lemma AddedScoreTwice(store: Store, a: Int32, b: Int32)
    ensures TotalScore(AddedScore(AddedScore(store, a), b)) == Wrap32(TotalScore(store) + a + b)
  {
    Wrap32AddWrapped(TotalScore(store) + a, b);
  }

  // ----- The static class over the shared store -----

  method SetTotalScore(prefs: PlayerPrefs, value: Int32)
    modifies prefs
    ensures prefs.entries == WithTotalScore(old(prefs.entries), value)
  {
    prefs.SetIntPref(ScoreKey, value);
  }

  method SetCollectedCount(prefs: PlayerPrefs, value: Int32)
    modifies prefs
    ensures prefs.entries == WithCollectedCount(old(prefs.entries), value)
  {
    prefs.SetIntPref(CollectedCountKey, value);
  }

  method SetPlayerName(prefs: PlayerPrefs, value: string)
    modifies prefs
    ensures prefs.entries == WithPlayerName(old(prefs.entries), value)
  {
    prefs.SetStringPref(PlayerNameKey, value);
  }

  method SetIsFirstPlay(prefs: PlayerPrefs, value: bool)
    modifies prefs
    ensures prefs.entries == WithFirstPlay(old(prefs.entries), value)
  {
    prefs.SetIntPref(FirstPlayKey, if value then 1 else 0);
  }

  /** `TotalScore += amount`. */
  method AddScore(prefs: PlayerPrefs, amount: Int32)
    modifies prefs
    ensures prefs.entries == AddedScore(old(prefs.entries), amount)
  {
    var score: int := TotalScore(prefs.entries);
    SetTotalScore(prefs, Wrap32(score + amount));
  }

  /** `CollectedCount++`. */
  method IncrementCollectedCount(prefs: PlayerPrefs)
    modifies prefs
    ensures prefs.entries == IncrementedCount(old(prefs.entries))
  {
    var count: int := CollectedCount(prefs.entries);
    SetCollectedCount(prefs, Wrap32(count + 1));
  }

  method ResetAllData(prefs: PlayerPrefs)
    modifies prefs
    ensures prefs.entries == ResetData(old(prefs.entries))
  {
    prefs.DeleteKeyPref(ScoreKey);
    prefs.DeleteKeyPref(CollectedCountKey);
    prefs.DeleteKeyPref(FirstPlayKey);
  }
}
