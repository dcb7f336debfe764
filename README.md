# Achievement state machine (Bubblegum.Achievements)

A Dafny model of the achievement logic of the Bubblegum game plugin. An
achievement has two flags, `Completed` and `RewardCollected`. A value
achievement also has a 32-bit counter `Value` that is compared with
`requiredValue` under a comparison mode (Equal, NotEqual, GreaterThan,
LessThan). The model covers how an achievement:

- completes through the guarded one-shot `AchievementCompleted`, which queues
  a popup on the sequencer only when it changes `Completed` from false to
  true (`Load`, `SetSaveData` and the Base `Value` setter can clear
  `Completed` again, after which it can complete and queue once more);
- collects its reward;
- stores its state in the persistent integer store under three keys derived
  from its ID;
- round-trips its state through a save-data dictionary.

Files, one module each:

- `int32.dfy` (`Int32s`): C# `int` and unchecked wrap-around addition.
- `decimal.dfy` (`Decimal`): `int.ToString()` and a parser that reads it back.
  The progress text is proved to decode to the numbers it shows.
- `keys.dfy` (`Keys`): the persistence keys `"Achievement"+ID`,
  `"AchievementCompleted"+ID` and `"AchievementRewardCollected"+ID`.
- `model.dfy` (`AchievementModel`): the state machine as values. There is one
  function per operation. Each gives the new state, the new store, the IDs it
  appended to the popup queue and how often `onPointsChanged` fired.
- `properties.dfy` (`AchievementProperties`): lemmas stating what the
  operations promise. One of them is that, across any sequence of completing,
  reward-collecting, `SetPoints`, `AddPoints` and `SetValueFromPlayerPrefs`
  calls, each achievement is queued at most once. `Load`, `SetSaveData` and
  the Base `Value` setter can clear `Completed`, so with them in the sequence
  an achievement can be queued again.
- `achievements.dfy` (`Achievements`): the objects as the game mutates them.
  `Achievement` is one class with a `kind` tag for BaseAchievement,
  ValueAchievement and PrefsAchievement; the virtual `Save`, `Load`,
  `SetSaveData` and `GetSaveData` dispatch on it. It has fields that its
  methods update in place. It writes to a shared `PersistentData` store and
  appends to a shared `SequenceManager` queue. Each method is proved to leave
  the object, the store and the queue where the matching `AchievementModel`
  function says (predicate `Took`).

Collaborators that the model replaces:

- `PersistentData` is a `map<string, Int32>`. `GetInt(key, default)` returns
  `default` for a missing key, and the one-argument `GetInt` defaults to 0.
- `SequenceManager.Instance.Queue(this)` appends the achievement's ID to a
  ghost sequence.
- Invoking `onPointsChanged` adds one to a ghost counter.
- The save-data dictionary maps keys to a name and a boxed value, which is a
  bool or an integer.

Behaviour of the code that a reader might not expect, and that the model keeps:

- The keys have no separator (`"AchievementCompleted"+ID`, not
  `"Completed:"+ID`), and the value key is `"Achievement"+ID`, not the bare ID.
  So keys of different achievements can coincide: the value key of
  `"Completed"+X` is the completed key of `X` (`Keys.KeysAliasAcrossIds`).
  When value achievement `"Completed"+X` saves a value other than 1, it
  overwrites X's completed flag. X's base `Load` then reads its completed
  flag as false, and X can be completed and queued again
  (`AchievementProperties.AliasUncompletes`).
- `CollectAchievementReward` does not check `Completed`. A reward can be
  collected before completion.
- A Base achievement's `Value` setter sets `Completed` to `v == 1`, so it can
  clear `Completed`. `Load` and `SetSaveData` can clear it too. So `Completed`
  is monotone only under the operations in `AchievementProperties.Call`.
- `ValueAchievement.Load` runs `SetPoints`. It therefore writes all three keys
  to the store, and it can complete the achievement and queue a popup. From an
  empty store this happens for Equal with required value 0, NotEqual with a
  nonzero required value and GreaterThan with a negative one.

## Model

| member | source | states |
|---|---|---|
| `Int32s.Add` | Assets/Bubblegum/Achievements/Scripts/ValueAchievement.cs:152 | `Value += d` on C# ints: the exact sum when it fits, otherwise the sum shifted by 2^32 |
| `Int32s.Wrap` | Assets/Bubblegum/Achievements/Scripts/ValueAchievement.cs:64 | 32-bit truncation (used for `requiredValue + 1`) is congruent to the exact value mod 2^32 and is the identity in range |
| `Decimal.NatToString` | Assets/Bubblegum/Achievements/Scripts/ValueAchievement.cs:64 | the printed digits of a number are canonical: non-empty, all decimal digits, no leading zero; "0" exactly for 0 |
| `Decimal.IntToString` | Assets/Bubblegum/Achievements/Scripts/ValueAchievement.cs:64 | `int.ToString()` is canonical (a '-' exactly for negative numbers, then canonical digits, never "-0") and contains no '/' |
| `Decimal.IndexOf` | Assets/Bubblegum/Achievements/Scripts/ValueAchievement.cs:64 | helper of the decoder that reads back the text printed at this line (it models no source code itself): finds the first occurrence of a character, or reports that there is none |
| `Decimal.ParseNatToString` | Assets/Bubblegum/Achievements/Scripts/ValueAchievement.cs:64 | printing a natural number and parsing it back gives the number |
| `Decimal.ParseIntToString` | Assets/Bubblegum/Achievements/Scripts/ValueAchievement.cs:64 | printing any integer, negative ones included, and parsing it back gives the integer |
| `Decimal.ParseFractionOf` | Assets/Bubblegum/Achievements/Scripts/ValueAchievement.cs:64 | the text `a + "/" + b` built from two printed integers is canonical and decodes to (a, b) |
| `Decimal.CanonicalNatUnique` | Assets/Bubblegum/Achievements/Scripts/ValueAchievement.cs:64 | a canonical digit string is the printed form of the number it parses to |
| `Decimal.CanonicalIntUnique` | Assets/Bubblegum/Achievements/Scripts/ValueAchievement.cs:64 | a canonical signed text is the `int.ToString()` of the integer it parses to, so no other spelling is canonical |
| `Decimal.FractionTextUnique` | Assets/Bubblegum/Achievements/Scripts/ValueAchievement.cs:64 | a canonical "a/b" text is exactly `a.ToString() + "/" + b.ToString()` of the numbers it decodes to |
| `Keys.KeysDistinct` | Assets/Bubblegum/Achievements/Scripts/BaseAchievement.cs:80-90 | for one ID the three keys `"Achievement"+ID`, `"AchievementCompleted"+ID`, `"AchievementRewardCollected"+ID` are pairwise distinct |
| `Keys.StripPrefix` | Assets/Bubblegum/Achievements/Scripts/BaseAchievement.cs:190-199 | a prefix followed by an ID determines the ID |
| `Keys.KeysInjective` | Assets/Bubblegum/Achievements/Scripts/BaseAchievement.cs:190-229 | each key getter is injective in the ID |
| `Keys.KeysAliasAcrossIds` | Assets/Bubblegum/Achievements/Scripts/BaseAchievement.cs:190-229 | without a separator, the value key of ID `"Completed"+X` equals the completed key of X, and likewise for the reward key |
| `AchievementModel.DefaultValue` | Assets/Bubblegum/Achievements/Scripts/ValueAchievement.cs:28-37 | int.MaxValue for a LessThan value achievement, a value that satisfies no LessThan comparison; 0 otherwise, including the base `DefaultValue` (BaseAchievement.cs:110-116) |
| `AchievementModel.CurrentValue` | Assets/Bubblegum/Achievements/Scripts/BaseAchievement.cs:95-100 | the base `Value` reads 1 iff completed and 0 iff not; a value achievement reads its counter (ValueAchievement.cs:23) |
| `AchievementModel.AssignValue` | Assets/Bubblegum/Achievements/Scripts/BaseAchievement.cs:101-104 | setting the base `Value` to v sets `Completed` to `v == 1`, so reading back gives v exactly when v is 0 or 1; a value achievement reads back v |
| `AchievementModel.ProgressOf` | Assets/Bubblegum/Achievements/Scripts/ValueAchievement.cs:42-54 | whole progress is 1 iff completed and 0 iff not; it is fractional exactly for an unfinished GreaterThan achievement, with operands Value and `requiredValue + 1` (base: BaseAchievement.cs:121-127) |
| `AchievementModel.ProgressDisplayText` | Assets/Bubblegum/Achievements/Scripts/ValueAchievement.cs:59-68 | other than GreaterThan: "1/1" iff completed, "0/1" iff not (as BaseAchievement.cs:132-138); GreaterThan: a canonical text that decodes to (Value, r+1), or (r+1, r+1) once completed, with r+1 in 32 bits; with `FractionTextUnique` this is the one text the source prints |
| `AchievementModel.ToInt32` | Assets/Bubblegum/Achievements/Scripts/ValueAchievement.cs:171 | `Convert.ToInt32` of a boxed integer is the integer, and of a bool is 1 for true and 0 for false |
| `AchievementModel.GetSaveData` | Assets/Bubblegum/Achievements/Scripts/ValueAchievement.cs:177-182 | the dictionary gains exactly the achievement's own keys, holding the name with the Completed and RewardCollected flags (BaseAchievement.cs:316-320) and, for value achievements, the value; every other entry is unchanged; SetSaveData can read it back without a failed cast |
| `AchievementProperties.SaveWritesOwnKeys` | Assets/Bubblegum/Achievements/Scripts/ValueAchievement.cs:99-104 | `Save` stores the flags as 1/0 (BaseAchievement.cs:248-252) and, for value achievements, the value; every other key is unchanged |
| `AchievementProperties.SaveIdempotent` | Assets/Bubblegum/Achievements/Scripts/BaseAchievement.cs:248-252 | saving twice leaves the store as saving once |
| `AchievementProperties.CompleteWhenCompletedIsNoOp` | Assets/Bubblegum/Achievements/Scripts/BaseAchievement.cs:257-260 | on a completed achievement AchievementCompleted changes no field, no store entry and no queue |
| `AchievementProperties.CompleteFirstTime` | Assets/Bubblegum/Achievements/Scripts/BaseAchievement.cs:262-266 | on an uncompleted achievement: Completed true, RewardCollected false, keys stored as 1 and 0, the virtual Save applied, exactly one queue entry |
| `AchievementProperties.CollectRewardIdempotent` | Assets/Bubblegum/Achievements/Scripts/BaseAchievement.cs:272-279 | the first call sets RewardCollected and saves, whatever Completed is, and leaves Completed alone; a second call is a no-op |
| `AchievementProperties.CheckProgressOutcome` | Assets/Bubblegum/Achievements/Scripts/ValueAchievement.cs:109-145 | afterwards Completed iff it was or the comparison holds (never cleared); value kept and saved; queued iff newly completed; onPointsChanged fired exactly once |
| `AchievementProperties.SetPointsStoresValue` | Assets/Bubblegum/Achievements/Scripts/ValueAchievement.cs:159-163 | SetPoints(v) leaves Value == v and the store entry `"Achievement"+ID` == v |
| `AchievementProperties.AddPointsWraps` | Assets/Bubblegum/Achievements/Scripts/ValueAchievement.cs:150-154 | AddPoints(d) leaves Value == old + d under 32-bit wrap-around and completes as SetPoints does |
| `AchievementProperties.LoadFlagsReadOnlyOne` | Assets/Bubblegum/Achievements/Scripts/BaseAchievement.cs:239-243 | the base Load, run first by every kind (ValueAchievement.cs:91), sets a flag true iff 1 is stored for it, any other stored integer or none giving false, and keeps the value; a Base achievement's Load leaves the store and the queue alone |
| `AchievementProperties.SaveLoadRoundTripBase` | Assets/Bubblegum/Achievements/Scripts/BaseAchievement.cs:239-252 | Save then Load restores Completed and RewardCollected |
| `AchievementProperties.SaveLoadRoundTripValue` | Assets/Bubblegum/Achievements/Scripts/ValueAchievement.cs:89-104 | Save then Load restores Value. It completes (clearing RewardCollected, queueing once) only if the comparison holds on an uncompleted state. From a settled state it restores everything and queues nothing |
| `AchievementProperties.LoadLessThanWithoutValue` | Assets/Bubblegum/Achievements/Scripts/ValueAchievement.cs:89-94 | a LessThan achievement with no stored value loads int.MaxValue and is never completed or queued by the load |
| `AchievementProperties.LoadFromEmptyStore` | Assets/Bubblegum/Achievements/Scripts/ValueAchievement.cs:89-94 | loading from an empty store completes and queues exactly for Equal with r == 0, NotEqual with r != 0, GreaterThan with r < 0 |
| `AchievementProperties.SetValueFromPrefsOutcome` | Assets/Bubblegum/Achievements/Scripts/PrefsAchievement.cs:27-30 | Value becomes the store entry under prefsKey (0 if absent). It completes iff already completed or the comparison holds. The value is written to `"Achievement"+ID`; the prefsKey entry is untouched unless it is one of the three own keys |
| `AchievementProperties.SaveDataRoundTripBase` | Assets/Bubblegum/Achievements/Scripts/BaseAchievement.cs:307-320 | GetSaveData then SetSaveData restores both flags and leaves the store alone |
| `AchievementProperties.SaveDataRoundTripValue` | Assets/Bubblegum/Achievements/Scripts/ValueAchievement.cs:168-182 | GetSaveData then SetSaveData restores Value, and restores a settled state entirely without queueing |
| `AchievementProperties.SetSaveDataAbsentKeys` | Assets/Bubblegum/Achievements/Scripts/ValueAchievement.cs:168-172 | absent keys leave RewardCollected false for every kind (BaseAchievement.cs:309-310), Completed false for Base, and DefaultValue for value achievements; the achievement then completes iff DefaultValue meets the comparison |
| `AchievementProperties.EqualModeScenario` | Assets/Bubblegum/Achievements/Scripts/ValueAchievement.cs:109-163 | Equal, required 5: SetPoints(3) does not complete; SetPoints(5) completes and queues once; SetPoints(10) keeps it completed, queues nothing, text "1/1" |
| `AchievementProperties.GreaterThanScenario` | Assets/Bubblegum/Achievements/Scripts/ValueAchievement.cs:42-68 | GreaterThan, required 4: AddPoints(3) gives progress 3 of 5 and text "3/5"; AddPoints(2) completes, queues once, progress 1, text "5/5" |
| `AchievementProperties.AliasUncompletes` | Assets/Bubblegum/Achievements/Scripts/BaseAchievement.cs:190-252 | a value achievement with ID `"Completed"+X` that saves a value other than 1 makes X's base Load read its completed flag as false, and completing X again queues it a second time |
| `AchievementProperties.ApplyQueuesOnCompletion` | Assets/Bubblegum/Achievements/Scripts/BaseAchievement.cs:257-266 | completing, reward and points calls never clear Completed and queue the achievement exactly when they newly complete it |
| `AchievementProperties.RunQueuesEachAchievementOnce` | Assets/Bubblegum/Achievements/Scripts/BaseAchievement.cs:257-266 | over any sequence of these calls on achievements with distinct IDs, each is queued once if it went from uncompleted to completed and never otherwise |
| `Achievements.Achievement.constructor` | Assets/Bubblegum/Achievements/Scripts/PrefsAchievement.cs:18 | a new asset is uncompleted with value 0, and `prefsKey` defaults to "Achievement" |
| `Achievements.Achievement.SetValue` | Assets/Bubblegum/Achievements/Scripts/BaseAchievement.cs:101-104 | the `Value` setter updates the fields as `AssignValue` says |
| `Achievements.Achievement.Save` | Assets/Bubblegum/Achievements/Scripts/ValueAchievement.cs:99-104 | the store becomes `AchievementModel.Save` of the current state (BaseAchievement.cs:248-252 for the flags) |
| `Achievements.Achievement.Load` | Assets/Bubblegum/Achievements/Scripts/ValueAchievement.cs:89-94 | fields, store, queue and callback count end as `AchievementModel.Load` says (BaseAchievement.cs:239-243 for the flags) |
| `Achievements.Achievement.AchievementCompleted` | Assets/Bubblegum/Achievements/Scripts/BaseAchievement.cs:257-267 | fields, store and queue end as `Complete` says |
| `Achievements.Achievement.CollectAchievementReward` | Assets/Bubblegum/Achievements/Scripts/BaseAchievement.cs:272-279 | fields, store and queue end as `CollectReward` says, which appends nothing to the queue |
| `Achievements.Achievement.SaveAndCheckProgress` | Assets/Bubblegum/Achievements/Scripts/ValueAchievement.cs:109-145 | fields, store, queue and callback count end as `CheckProgress` says |
| `Achievements.Achievement.AddPoints` | Assets/Bubblegum/Achievements/Scripts/ValueAchievement.cs:150-154 | ends as `AchievementModel.AddPoints` says |
| `Achievements.Achievement.SetPoints` | Assets/Bubblegum/Achievements/Scripts/ValueAchievement.cs:159-163 | ends as `AchievementModel.SetPoints` says |
| `Achievements.Achievement.SetValueFromPlayerPrefs` | Assets/Bubblegum/Achievements/Scripts/PrefsAchievement.cs:27-30 | ends as `SetValueFromPrefs` of the current `prefsKey` says |
| `Achievements.Achievement.SetSaveData` | Assets/Bubblegum/Achievements/Scripts/ValueAchievement.cs:168-172 | ends as `AchievementModel.SetSaveData` says (BaseAchievement.cs:307-311 for the flags) |
| `Achievements.Achievement.GetSaveData` | Assets/Bubblegum/Achievements/Scripts/ValueAchievement.cs:177-182 | the dictionary becomes `AchievementModel.GetSaveData` of the current state (BaseAchievement.cs:316-320) |

## Left out

- The lazily filled key caches (`cachedPrefsKey` and the two others) are not modelled. The key getters are the pure `Keys` functions. Every prefix is non-empty and the ID never changes, so a filled cache always equals the freshly derived key, and the caches change nothing observable.
- The GreaterThan branch of `Progress` divides floats and clamps with `Mathf.Clamp01`. Floating point is not modelled: `ProgressOf` returns the two operands (`Fraction`) instead of the float.
- Popup pass-through properties, `BeforeTask`, `SkipTask`, the `StartTask` coroutine, the `Complete` property that throws, and the editor inspector button are not modelled. They are host-engine presentation.
- AchievementDisplay.cs and AchievementListDisplay.cs are UI binding. Their button gate `Completed && !RewardCollected` is the only thing that stops a reward being collected before completion, and it is not part of this model.
- EntityUnlockAchievement.cs and TagAchievementUnlock.cs depend on unseen entity and tag APIs. Their only effect on the core is calling `AchievementCompleted`, which is modelled.
- The implementations of `PersistentData`, `SequenceManager` and `SaveDataKeyValuePair`, and the ID and Name of `StateKey`, are not modelled; only their interfaces are, as described above. Persistence to disk and popup display are not modelled.
- Achievements.Achievement.SetSaveData: a failed `(bool)` cast or `Convert.ToInt32` throws in C#. The model excludes those cases with the `Readable` precondition rather than modelling the exception. `Convert.ToInt32` is modelled only for boxed bools and integers.
- `onPointsChanged` is counted as invoked on every SaveAndCheckProgress. What the subscribers do is not modelled, and neither is the `?.` skip when nobody subscribes.
- `int.ToString()` is modelled with '-' as the negative sign, which is the invariant culture's. Other cultures' signs are not modelled.
