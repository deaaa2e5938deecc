/**
 * `ScoreManager`: turns each collected avatar into score (with a bonus on every
 * fifth collection) and a collected count, both persisted through GameData, and
 * reports the changes as events.
 */
module Scoring {
  import opened CSharpInt
  import opened Prefs
  import opened LocationData
  import opened GameData

  /** `OnScoreChanged(score)`, `OnCollectionChanged(collected, total)` and `OnMilestoneReached(n)`. */
  datatype ScoreEvent =
    | ScoreChanged(score: Int32)
    | CollectionChanged(collected: Int32, total: nat)
    | MilestoneReached(milestone: Int32)

  const DefaultBonusScorePerMilestone: Int32 := 50

  /**
   * Every fifth collection is a milestone. C# `%` truncates toward zero, but whether
   * the remainder is zero does not depend on the rounding.
   */
  predicate IsMilestone(count: Int32)
  {
    count % 5 == 0
  }

  /** The count a collection reaches. */
  function NextCount(store: Store): Int32
  {
    Wrap32(CollectedCount(store) + 1)
  }

  /** The score one collection adds: the location's value, plus the bonus on a milestone. */
  function Reward(scoreValue: Int32, newCount: Int32, bonus: Int32): Int32
  {
    if IsMilestone(newCount) then Wrap32(scoreValue + bonus) else scoreValue
  }

  /** The store after `OnAvatarCollected`: score raised by the reward, count raised by one. */
  function RewardedStore(store: Store, scoreValue: Int32, bonus: Int32): (r: Store)
    ensures CollectedCount(r) == NextCount(store)
    ensures TotalScore(r) == Wrap32(TotalScore(store) + scoreValue + (if IsMilestone(NextCount(store)) then bonus else 0))
    ensures PlayerName(r) == PlayerName(store) && IsFirstPlay(r) == IsFirstPlay(store)
  {
    Wrap32AddWrapped(scoreValue + bonus, TotalScore(store));
    IncrementedCount(AddedScore(store, Reward(scoreValue, NextCount(store), bonus)))
  }

  /**
   * The events of `OnAvatarCollected`: the milestone number first (before the store
   * changes), then the new score and the new count with the catalog size.
   */
  function CollectionEvents(store: Store, scoreValue: Int32, bonus: Int32, total: nat): (r: seq<ScoreEvent>)
    ensures IsMilestone(NextCount(store)) ==> |r| == 3 && r[0] == MilestoneReached(NextCount(store) / 5)
    ensures !IsMilestone(NextCount(store)) ==> |r| == 2
    ensures r[|r| - 2] == ScoreChanged(TotalScore(RewardedStore(store, scoreValue, bonus)))
    ensures r[|r| - 1] == CollectionChanged(NextCount(store), total)
  {
    var after := RewardedStore(store, scoreValue, bonus);
    (if IsMilestone(NextCount(store)) then [MilestoneReached(NextCount(store) / 5)] else [])
      + [ScoreChanged(TotalScore(after)), CollectionChanged(CollectedCount(after), total)]
  }

  /** `IsCompleted`: every location collected, and there is at least one. */
  predicate Completed(collected: int, total: nat)
  {
    collected >= total && total > 0
  }

  // ----- Many collections -----

  /** The store and events after collecting locations worth `values`, one after another. */
  function CollectAll(store: Store, values: seq<Int32>, bonus: Int32, total: nat): (r: (Store, seq<ScoreEvent>))
    decreases |values|
  {
    if |values| == 0 then (store, [])
    else
      var rest := CollectAll(RewardedStore(store, values[0], bonus), values[1..], bonus, total);
      (rest.0, CollectionEvents(store, values[0], bonus, total) + rest.1)
  }

  function MilestoneCount(events: seq<ScoreEvent>): nat
  {
    if |events| == 0 then 0
    else (if events[0].MilestoneReached? then 1 else 0) + MilestoneCount(events[1..])
  }

  lemma {:induction false} MilestoneCountAppend(a: seq<ScoreEvent>, b: seq<ScoreEvent>)
    ensures MilestoneCount(a + b) == MilestoneCount(a) + MilestoneCount(b)
    decreases |a|
  {
    if |a| == 0 {
      assert a + b == b;
    } else {
      assert (a + b)[1..] == a[1..] + b;
      MilestoneCountAppend(a[1..], b);
    }
  }

  /** The milestone numbers raised by `events`, in the order they are raised. */
  function Milestones(events: seq<ScoreEvent>): seq<int>
  {
    if |events| == 0 then []
    else (if events[0].MilestoneReached? then [events[0].milestone as int] else []) + Milestones(events[1..])
  }

  lemma {:induction false} MilestonesAppend(a: seq<ScoreEvent>, b: seq<ScoreEvent>)
    ensures Milestones(a + b) == Milestones(a) + Milestones(b)
    decreases |a|
  {
    if |a| == 0 {
      assert a + b == b;
    } else {
      assert (a + b)[0] == a[0];
      assert (a + b)[1..] == a[1..] + b;
      MilestonesAppend(a[1..], b);
      var head := if a[0].MilestoneReached? then [a[0].milestone as int] else [];
      calc {
        Milestones(a + b);
        head + Milestones(a[1..] + b);
        head + (Milestones(a[1..]) + Milestones(b));
        (head + Milestones(a[1..])) + Milestones(b);
      }
    }
  }

  /** The integers `lo, lo + 1, ..., hi - 1`. */
  function Upto(lo: int, hi: int): seq<int>
    decreases hi - lo
  {
    if lo >= hi then [] else [lo] + Upto(lo + 1, hi)
  }

  lemma {:induction false} UptoSplit(lo: int, mid: int, hi: int)
    requires lo <= mid <= hi
    ensures Upto(lo, mid) + Upto(mid, hi) == Upto(lo, hi)
    decreases mid - lo
  {
    if lo < mid {
      UptoSplit(lo + 1, mid, hi);
    }
  }

  /**
   * Starting from a count `c >= 0`, `n` collections that stay within `int` raise the
   * count to `c + n` and reach exactly the milestones `(c + n) / 5 - c / 5`: the
   * milestone numbers `c / 5 + 1, ..., (c + n) / 5`, in order, each once.
   */
  lemma MilestonesEveryFifth(store: Store, values: seq<Int32>, bonus: Int32, total: nat)
    requires 0 <= CollectedCount(store) && CollectedCount(store) + |values| <= MaxInt32
    ensures var r := CollectAll(store, values, bonus, total);
      && CollectedCount(r.0) == CollectedCount(store) + |values|
      && MilestoneCount(r.1) == (CollectedCount(store) + |values|) / 5 - CollectedCount(store) / 5
      && Milestones(r.1) == Upto(CollectedCount(store) / 5 + 1, (CollectedCount(store) + |values|) / 5 + 1)
  {
    MilestoneCountThrough(store, values, bonus, total);
    MilestoneNumbersThrough(store, values, bonus, total);
    assert NumbersFrom(CollectedCount(store), |values|)
        == Upto(CollectedCount(store) / 5 + 1, (CollectedCount(store) + |values|) / 5 + 1) by {
      NumbersFromUpto(CollectedCount(store), |values|);
    }
  }

  /** The count and the number of milestones after `n` collections from `c`. */
  lemma {:induction false} MilestoneCountThrough(store: Store, values: seq<Int32>, bonus: Int32, total: nat)
    requires 0 <= CollectedCount(store) && CollectedCount(store) + |values| <= MaxInt32
    ensures var r := CollectAll(store, values, bonus, total);
      && CollectedCount(r.0) == CollectedCount(store) + |values|
      && MilestoneCount(r.1) == (CollectedCount(store) + |values|) / 5 - CollectedCount(store) / 5
    decreases |values|
  {
    if |values| > 0 {
      var next := RewardedStore(store, values[0], bonus);
      OneCollectionMilestones(store, values[0], bonus, total);
      MilestoneCountThrough(next, values[1..], bonus, total);
      MilestoneCountAppend(CollectionEvents(store, values[0], bonus, total), CollectAll(next, values[1..], bonus, total).1);
    }
  }

  /** The milestone numbers `n` collections reach from count `c`, one collection at a time. */
  function NumbersFrom(c: int, n: nat): seq<int>
    decreases n
  {
    if n == 0 then [] else (if (c + 1) % 5 == 0 then [(c + 1) / 5] else []) + NumbersFrom(c + 1, n - 1)
  }

  lemma NumbersFromStep(c: int, n: nat)
    requires 0 < n
    ensures NumbersFrom(c, n) == NumbersFrom(c, 1) + NumbersFrom(c + 1, n - 1)
  {
    assert NumbersFrom(c + 1, 0) == [];
  }

  /** From a count `c >= 0`, the numbers reached are `c / 5 + 1, ..., (c + n) / 5`. */
  lemma {:induction false} NumbersFromUpto(c: int, n: nat)
    requires 0 <= c
    ensures NumbersFrom(c, n) == Upto(c / 5 + 1, (c + n) / 5 + 1)
    decreases n
  {
    if n == 0 {
      assert Upto(c / 5 + 1, c / 5 + 1) == [];
    } else {
      NumbersFromUpto(c + 1, n - 1);
      if (c + 1) % 5 == 0 {
        assert (c + 1) / 5 == c / 5 + 1;
        assert Upto(c / 5 + 1, c / 5 + 2) == [c / 5 + 1] + Upto(c / 5 + 2, c / 5 + 2);
        UptoSplit(c / 5 + 1, c / 5 + 2, (c + n) / 5 + 1);
      } else {
        assert (c + 1) / 5 == c / 5;
      }
    }
  }

  /** The milestone numbers of `n` collections from a store in range are those `NumbersFrom` its count. */
  lemma {:induction false} MilestoneNumbersThrough(store: Store, values: seq<Int32>, bonus: Int32, total: nat)
    requires 0 <= CollectedCount(store) && CollectedCount(store) + |values| <= MaxInt32
    ensures Milestones(CollectAll(store, values, bonus, total).1) == NumbersFrom(CollectedCount(store), |values|)
    decreases |values|
  {
    if |values| > 0 {
      var next := RewardedStore(store, values[0], bonus);
      OneCollectionNumbers(store, values[0], bonus, total);
      MilestoneNumbersThrough(next, values[1..], bonus, total);
      MilestonesAppend(CollectionEvents(store, values[0], bonus, total), CollectAll(next, values[1..], bonus, total).1);
      NumbersFromStep(CollectedCount(store), |values|);
    }
  }

  /** One collection from a count in range reaches count `c + 1` and the numbers `NumbersFrom(c, 1)`. */
  lemma OneCollectionNumbers(store: Store, value: Int32, bonus: Int32, total: nat)
    requires 0 <= CollectedCount(store) < MaxInt32
    ensures CollectedCount(RewardedStore(store, value, bonus)) == CollectedCount(store) + 1
    ensures Milestones(CollectionEvents(store, value, bonus, total)) == NumbersFrom(CollectedCount(store), 1)
  {
    OneCollectionMilestones(store, value, bonus, total);
    NumbersFromUpto(CollectedCount(store), 1);
  }

  /** One collection from a count `c` in range reaches count `c + 1` and one milestone exactly when `c + 1` is a multiple of 5. */
  lemma OneCollectionMilestones(store: Store, value: Int32, bonus: Int32, total: nat)
    requires 0 <= CollectedCount(store) < MaxInt32
    ensures CollectedCount(RewardedStore(store, value, bonus)) == CollectedCount(store) + 1
    ensures MilestoneCount(CollectionEvents(store, value, bonus, total))
         == (CollectedCount(store) + 1) / 5 - CollectedCount(store) / 5
    ensures Milestones(CollectionEvents(store, value, bonus, total))
         == Upto(CollectedCount(store) / 5 + 1, (CollectedCount(store) + 1) / 5 + 1)
  {
    var c := CollectedCount(store);
    var first := CollectionEvents(store, value, bonus, total);
    if IsMilestone(c + 1) {
      assert first[1].ScoreChanged? && first[2].CollectionChanged?;
      assert first[1..] == [first[1], first[2]];
      assert [first[1], first[2]][1..] == [first[2]];
      assert MilestoneCount([first[2]]) == 0;
      assert Milestones([first[2]]) == [];
      assert (c + 1) / 5 == c / 5 + 1;
      assert Upto(c / 5 + 1, c / 5 + 2) == [c / 5 + 1];
    } else {
      assert first[1..] == [first[1]];
      assert MilestoneCount([first[1]]) == 0;
      assert Milestones([first[1]]) == [];
      assert (c + 1) / 5 == c / 5;
    }
  }

  // ----- After a reset -----

  /** After `ResetProgress`, score and count read 0, nothing is completed and every location loads cleared. */
  lemma ResetProgressClears(store: Store, locations: seq<CampusLocation>)
    ensures var r := ResetData(store) - StateKeys(locations);
      && TotalScore(r) == 0 && CollectedCount(r) == 0 && PlayerName(r) == PlayerName(store)
      && !Completed(CollectedCount(r), |locations|)
      && forall j :: 0 <= j < |locations| ==> LoadedState(r, locations[j]) == ClearedProgress(locations[j])
  {
    var r := ResetData(store) - StateKeys(locations);
    forall j | 0 <= j < |locations|
      ensures LoadedState(r, locations[j]) == ClearedProgress(locations[j])
    {
      LoadAfterReset(ResetData(store), locations, j);
    }
    forall j | 0 <= j < |locations|
      ensures CollectedKey(locations[j].locationId) != PlayerNameKey
      ensures DiscoveredKey(locations[j].locationId) != PlayerNameKey
    {
      assert CollectedKey(locations[j].locationId)[5] == 'C';
      assert DiscoveredKey(locations[j].locationId)[5] == 'D';
      assert PlayerNameKey[5] == 'P';
    }
  }

  class ScoreManager {
    const campusData: CampusLocationsData?
    const prefs: PlayerPrefs
    const bonusScorePerMilestone: Int32
    var events: seq<ScoreEvent>

    constructor (campusData: CampusLocationsData?, prefs: PlayerPrefs)
      ensures this.campusData == campusData && this.prefs == prefs
      ensures bonusScorePerMilestone == DefaultBonusScorePerMilestone && events == []
    {
      this.campusData := campusData;
      this.prefs := prefs;
      bonusScorePerMilestone := DefaultBonusScorePerMilestone;
      events := [];
    }

    /** `TotalLocations`: the catalog size, or 0 without a catalog. */
    function TotalLocations(): (n: nat)
      reads this, campusData
      ensures campusData == null ==> n == 0
      ensures campusData != null ==> n == GetTotalCount(campusData.locations)
    {
      if campusData == null then 0 else GetTotalCount(campusData.locations)
    }

    /** `IsCompleted`. */
    predicate IsCompleted()
      reads this, campusData, prefs
    {
      Completed(CollectedCount(prefs.entries), TotalLocations())
    }

    /** `OnAvatarCollected`, for the location just collected. */
    method OnAvatarCollected(location: CampusLocation)
      modifies this, prefs
      ensures prefs.entries == RewardedStore(old(prefs.entries), location.scoreValue, bonusScorePerMilestone)
      ensures events == old(events) + CollectionEvents(old(prefs.entries), location.scoreValue, bonusScorePerMilestone, TotalLocations())
    {
      ghost var store := prefs.entries;
      var scoreToAdd := location.scoreValue;
      var count: int := CollectedCount(prefs.entries);
      var newCollectedCount := Wrap32(count + 1);
      var milestone: seq<ScoreEvent> := [];
      if newCollectedCount % 5 == 0 {
        scoreToAdd := Wrap32(scoreToAdd as int + bonusScorePerMilestone as int);
        milestone := [MilestoneReached(newCollectedCount / 5)];
        events := events + milestone;
      }
      assert scoreToAdd == Reward(location.scoreValue, NextCount(store), bonusScorePerMilestone);
      GameData.AddScore(prefs, scoreToAdd);
      GameData.IncrementCollectedCount(prefs);
      assert prefs.entries == RewardedStore(store, location.scoreValue, bonusScorePerMilestone);
      var reports := [ScoreChanged(TotalScore(prefs.entries)), CollectionChanged(CollectedCount(prefs.entries), TotalLocations())];
      assert milestone + reports == CollectionEvents(store, location.scoreValue, bonusScorePerMilestone, TotalLocations());
      events := events + reports;
    }

    /** `AddScore`: the score grows, the count does not, and the new score is reported. */
    method AddScore(amount: Int32)
      modifies this, prefs
      ensures prefs.entries == AddedScore(old(prefs.entries), amount)
      ensures events == old(events) + [ScoreChanged(TotalScore(prefs.entries))]
    {
      GameData.AddScore(prefs, amount);
      events := events + [ScoreChanged(TotalScore(prefs.entries))];
    }

    /** `ResetProgress`: GameData and every location's saved flags are reset, then 0 and (0, total) are reported. */
    method ResetProgress()
      modifies this, prefs, campusData
      ensures campusData == null ==> prefs.entries == ResetData(old(prefs.entries))
      ensures campusData != null ==>
        && prefs.entries == ResetData(old(prefs.entries)) - StateKeys(old(campusData.locations))
        && |campusData.locations| == |old(campusData.locations)|
        && forall j :: 0 <= j < |campusData.locations| ==> campusData.locations[j] == ClearedProgress(old(campusData.locations)[j])
      ensures events == old(events) + [ScoreChanged(0), CollectionChanged(0, TotalLocations())]
    {
      ResetAllData(prefs);
      if campusData != null {
        ResetAllSavedData(campusData, prefs);
      }
      events := events + [ScoreChanged(0), CollectionChanged(0, TotalLocations())];
    }
  }
}
