/** The achievement objects as the game holds them: each operation updates
    the object's fields, the shared persistent store and the shared popup
    queue in place, and is proved to have exactly the effect that the value
    model in AchievementModel gives it. */
module Achievements {
  import opened Int32s
  import Keys
  import opened AchievementModel

  /** The persistent integer store (`PersistentData`). */
  class PersistentData {
    var ints: Store

    constructor ()
      ensures ints == map[]
    {
      ints := map[];
    }

    method GetInt(key: string, default: Int32) returns (v: Int32)
      ensures v == AchievementModel.GetInt(ints, key, default)
    {
      v := if key in ints then ints[key] else default;
    }

    method SetInt(key: string, v: Int32)
      modifies this
      ensures ints == old(ints)[key := v]
    {
      ints := ints[key := v];
    }
  }

  /** The popup sequencer (`SequenceManager.Instance`), seen only through
      the IDs of the achievements queued on it. */
  class SequenceManager {
    ghost var queued: seq<string>

    constructor ()
      ensures queued == []
    {
      queued := [];
    }

    method Queue(id: string)
      modifies this
      ensures queued == old(queued) + [id]
    {
      queued := queued + [id];
    }
  }

  /** The save-data dictionary passed to GetSaveData and SetSaveData. */
  class SaveDictionary {
    var entries: SaveData

    constructor ()
      ensures entries == map[]
    {
      entries := map[];
    }
  }

  /** A BaseAchievement, ValueAchievement or PrefsAchievement, told apart by
      `kind`; the virtual members dispatch on it. */
  class Achievement {
    const id: string
    const name: string
    const kind: Kind
    const requiredValue: Int32
    const mode: ComparisonMode
    const persistentData: PersistentData
    const sequenceManager: SequenceManager

    /** The store key a PrefsAchievement reads from. */
    var prefsKey: string

    var completed: bool
    var rewardCollected: bool
    var value: Int32

    /** How often `onPointsChanged` has been invoked. */
    ghost var pointsChanged: nat

    function Config(): Config {
      AchievementModel.Config(id, kind, requiredValue, mode)
    }

    function State(): State
      reads this
    {
      AchievementModel.State(completed, rewardCollected, value)
    }

    /** The object, the store and the queue are where `step` says, starting
        from the queue `queuedBefore` and the count `countBefore`. */
    ghost predicate Took(step: Step, queuedBefore: seq<string>, countBefore: nat)
      reads this, persistentData, sequenceManager
    {
      && State() == step.state
      && persistentData.ints == step.store
      && sequenceManager.queued == queuedBefore + step.queued
      && pointsChanged == countBefore + step.pointsChanged
    }

    /** A freshly created asset: nothing completed, value 0, and the
        PrefsAchievement key defaulting to "Achievement". */
    constructor (id: string, name: string, kind: Kind, requiredValue: Int32, mode: ComparisonMode,
                 persistentData: PersistentData, sequenceManager: SequenceManager)
      ensures Config() == AchievementModel.Config(id, kind, requiredValue, mode) && this.name == name
      ensures this.persistentData == persistentData && this.sequenceManager == sequenceManager
      ensures State() == AchievementModel.State(false, false, 0)
      ensures prefsKey == "Achievement" && pointsChanged == 0
    {
      this.id := id;
      this.name := name;
      this.kind := kind;
      this.requiredValue := requiredValue;
      this.mode := mode;
      this.persistentData := persistentData;
      this.sequenceManager := sequenceManager;
      prefsKey := "Achievement";
      completed, rewardCollected, value := false, false, 0;
      pointsChanged := 0;
    }

    /** The `Value` setter. */
    method SetValue(v: Int32)
      modifies this`completed, this`value
      ensures State() == AssignValue(Config(), old(State()), v)
    {
      if kind == Base {
        completed := v == 1;
      } else {
        value := v;
      }
    }

    /** `Save`; a value achievement also stores its value. */
    method Save()
      modifies persistentData
      ensures persistentData.ints == AchievementModel.Save(Config(), State(), old(persistentData.ints))
    {
      var ck := Keys.CompletedPrefsKey(id);
      persistentData.SetInt(ck, Bit(completed));
      var rk := Keys.RewardCollectedPrefsKey(id);
      persistentData.SetInt(rk, Bit(rewardCollected));
      if kind != Base {
        var pk := Keys.PrefsKey(id);
        persistentData.SetInt(pk, value);
      }
    }

    /** `Load`; a value achievement then runs SetPoints on its stored value. */
    method Load()
      modifies this`completed, this`rewardCollected, this`value, this`pointsChanged,
               persistentData, sequenceManager
      ensures Took(AchievementModel.Load(Config(), old(State()), old(persistentData.ints)),
                   old(sequenceManager.queued), old(pointsChanged))
    {
      ghost var flags := LoadFlags(Config(), State(), persistentData.ints);
      var ck := Keys.CompletedPrefsKey(id);
      var storedCompleted := persistentData.GetInt(ck, 0);
      completed := storedCompleted == 1;
      var rk := Keys.RewardCollectedPrefsKey(id);
      var storedReward := persistentData.GetInt(rk, 0);
      rewardCollected := storedReward == 1;
      assert State() == flags;
      if kind != Base {
        var pk := Keys.PrefsKey(id);
        var stored := persistentData.GetInt(pk, DefaultValue(Config()));
        SetPoints(stored);
      }
    }

    /** `AchievementCompleted`. */
    method AchievementCompleted()
      modifies this`completed, this`rewardCollected, this`value, this`pointsChanged,
               persistentData, sequenceManager
      ensures Took(Complete(Config(), old(State()), old(persistentData.ints)),
                   old(sequenceManager.queued), old(pointsChanged))
    {
      if completed {
        return;
      }
      completed := true;
      rewardCollected := false;
      Save();
      sequenceManager.Queue(id);
    }

    /** `CollectAchievementReward`. */
    method CollectAchievementReward()
      modifies this`rewardCollected, persistentData
      ensures Took(CollectReward(Config(), old(State()), old(persistentData.ints)),
                   old(sequenceManager.queued), old(pointsChanged))
    {
      if rewardCollected {
        return;
      }
      rewardCollected := true;
      Save();
    }

    /** `SaveAndCheckProgress`. */
    method SaveAndCheckProgress()
      requires kind != Base
      modifies this`completed, this`rewardCollected, this`value, this`pointsChanged,
               persistentData, sequenceManager
      ensures Took(CheckProgress(Config(), old(State()), old(persistentData.ints)),
                   old(sequenceManager.queued), old(pointsChanged))
    {
      Save();
      match mode {
        case Equal =>
          if value == requiredValue {
            AchievementCompleted();
          }
        case NotEqual =>
          if value != requiredValue {
            AchievementCompleted();
          }
        case GreaterThan =>
          if value > requiredValue {
            AchievementCompleted();
          }
        case LessThan =>
          if value < requiredValue {
            AchievementCompleted();
          }
      }
      pointsChanged := pointsChanged + 1;
    }

    /** `AddPoints`. */
    method AddPoints(d: Int32)
      requires kind != Base
      modifies this`completed, this`rewardCollected, this`value, this`pointsChanged,
               persistentData, sequenceManager
      ensures Took(AchievementModel.AddPoints(Config(), old(State()), old(persistentData.ints), d),
                   old(sequenceManager.queued), old(pointsChanged))
    {
      value := Add(value, d);
      SaveAndCheckProgress();
    }

    /** `SetPoints`. */
    method SetPoints(v: Int32)
      requires kind != Base
      modifies this`completed, this`rewardCollected, this`value, this`pointsChanged,
               persistentData, sequenceManager
      ensures Took(AchievementModel.SetPoints(Config(), old(State()), old(persistentData.ints), v),
                   old(sequenceManager.queued), old(pointsChanged))
    {
      value := v;
      SaveAndCheckProgress();
    }

    /** `SetValueFromPlayerPrefs` of a PrefsAchievement. */
    method SetValueFromPlayerPrefs()
      requires kind == Prefs
      modifies this`completed, this`rewardCollected, this`value, this`pointsChanged,
               persistentData, sequenceManager
      ensures Took(SetValueFromPrefs(Config(), old(State()), old(persistentData.ints), prefsKey),
                   old(sequenceManager.queued), old(pointsChanged))
    {
      var stored := persistentData.GetInt(prefsKey, 0);
      SetPoints(stored);
    }

    /** `SetSaveData`; a value achievement then runs SetPoints. */
    method SetSaveData(data: SaveDictionary)
      requires Readable(Config(), data.entries)
      modifies this`completed, this`rewardCollected, this`value, this`pointsChanged,
               persistentData, sequenceManager
      ensures Took(AchievementModel.SetSaveData(Config(), old(State()), old(persistentData.ints), data.entries),
                   old(sequenceManager.queued), old(pointsChanged))
    {
      var ck := Keys.CompletedPrefsKey(id);
      completed := if ck in data.entries then data.entries[ck].value.b else false;
      var rk := Keys.RewardCollectedPrefsKey(id);
      rewardCollected := if rk in data.entries then data.entries[rk].value.b else false;
      if kind != Base {
        var pk := Keys.PrefsKey(id);
        var v := if pk in data.entries then ToInt32(data.entries[pk].value) else DefaultValue(Config());
        SetPoints(v);
      }
    }

    /** `GetSaveData`; a value achievement also writes its value. */
    method GetSaveData(data: SaveDictionary)
      modifies data
      ensures data.entries == AchievementModel.GetSaveData(Config(), State(), name, old(data.entries))
    {
      var ck := Keys.CompletedPrefsKey(id);
      data.entries := data.entries[ck := SaveEntry(name, Flag(completed))];
      var rk := Keys.RewardCollectedPrefsKey(id);
      data.entries := data.entries[rk := SaveEntry(name, Flag(rewardCollected))];
      if kind != Base {
        var pk := Keys.PrefsKey(id);
        data.entries := data.entries[pk := SaveEntry(name, Number(value))];
      }
    }
  }
}
