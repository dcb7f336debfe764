/** The achievement state machine as values: an achievement's fixed
    configuration, its mutable state, and one function per operation that
    gives the new state, the new persistent store, the entries appended to
    the popup queue and the number of `onPointsChanged` invocations. */
module AchievementModel {
  import opened Int32s
  import opened Decimal
  import Keys

  /** How a value achievement compares its value with the required value. */
  datatype ComparisonMode = Equal | NotEqual | GreaterThan | LessThan

  /** Which class the achievement is: BaseAchievement (a one-shot flag, as
      EntityUnlockAchievement), ValueAchievement or PrefsAchievement. */
  datatype Kind = Base | Value | Prefs

  /** What is fixed when the achievement asset is authored. */
  datatype Config = Config(id: string, kind: Kind, requiredValue: Int32, mode: ComparisonMode)

  /** What the operations change. `value` is the counter of a value
      achievement; a Base achievement never reads it. */
  datatype State = State(completed: bool, rewardCollected: bool, value: Int32)

  /** The persistent integer store. */
  type Store = map<string, Int32>

  /** The outcome of one operation. `queued` is what was appended to the
      popup queue, `pointsChanged` how often `onPointsChanged` fired. */
  datatype Step = Step(state: State, store: Store, queued: seq<string>, pointsChanged: nat)

  /** `GetInt(key, default)` of the store: the default for a missing key. */
  function GetInt(store: Store, key: string, default: Int32): Int32 {
    if key in store then store[key] else default
  }

  /** A flag as it is stored: 1 or 0. */
  function Bit(b: bool): Int32 {
    if b then 1 else 0
  }

  /** The completion test of SaveAndCheckProgress. */
  predicate Holds(mode: ComparisonMode, value: Int32, required: Int32) {
    match mode
    case Equal => value == required
    case NotEqual => value != required
    case GreaterThan => value > required
    case LessThan => value < required
  }

  /** `DefaultValue`: the value assumed when none is stored. LessThan starts
      at int.MaxValue, which is below no required value, so an absent value
      never completes a LessThan achievement. */
  function DefaultValue(c: Config): (r: Int32)
    ensures c.kind != Base && c.mode == LessThan ==> r == MaxInt32
    ensures c.kind != Base && c.mode == LessThan ==> forall q: Int32 :: !Holds(c.mode, r, q)
    ensures c.kind == Base || c.mode != LessThan ==> r == 0
  {
    if c.kind != Base && c.mode == LessThan then MaxInt32 else 0
  }

  /** The `Value` getter: a Base achievement reads 1 exactly when completed. */
  function CurrentValue(c: Config, s: State): (v: Int32)
    ensures c.kind == Base ==> (v == 1 <==> s.completed) && (v == 0 <==> !s.completed)
    ensures c.kind != Base ==> v == s.value
  {
    if c.kind == Base then Bit(s.completed) else s.value
  }

  /** The `Value` setter. On a Base achievement it sets `completed` to
      `v == 1`, so reading back gives `v` only for 0 and 1. */
  function AssignValue(c: Config, s: State, v: Int32): (s': State)
    ensures s'.rewardCollected == s.rewardCollected
    ensures c.kind == Base ==> (s'.completed <==> v == 1)
    ensures c.kind == Base ==> (CurrentValue(c, s') == v <==> v == 0 || v == 1)
    ensures c.kind != Base ==> CurrentValue(c, s') == v && s'.completed == s.completed
  {
    if c.kind == Base then s.(completed := v == 1) else s.(value := v)
  }

  /** `Progress`, except that the float `Clamp01(numerator / denominator)`
      of an unfinished GreaterThan achievement is kept as its two operands. */
  datatype Progress = Whole(n: int) | Fraction(numerator: Int32, denominator: Int32)

  function ProgressOf(c: Config, s: State): (p: Progress)
    ensures p.Whole? ==> (p.n == 1 <==> s.completed) && (p.n == 0 <==> !s.completed)
    ensures p.Fraction? <==> !s.completed && c.kind != Base && c.mode == GreaterThan
    ensures p.Fraction? ==> p.numerator == s.value && p.denominator == Wrap(c.requiredValue + 1)
  {
    if s.completed then Whole(1)
    else if c.kind != Base && c.mode == GreaterThan then Fraction(s.value, Wrap(c.requiredValue + 1))
    else Whole(0)
  }

  /** `ProgressDisplayText`. A GreaterThan achievement shows
      "value/(required+1)", and "(required+1)/(required+1)" once completed,
      with `required + 1` computed in 32 bits; every other achievement shows
      "1/1" or "0/1". */
  function ProgressDisplayText(c: Config, s: State): (t: string)
    ensures !(c.kind != Base && c.mode == GreaterThan) ==> (t == "1/1" <==> s.completed)
    ensures !(c.kind != Base && c.mode == GreaterThan) ==> (t == "0/1" <==> !s.completed)
    ensures c.kind != Base && c.mode == GreaterThan ==>
      var target := Wrap(c.requiredValue + 1);
      ParseFraction(t) == Some((if s.completed then target else s.value, target))
    ensures c.kind != Base && c.mode == GreaterThan ==> CanonicalFraction(t)
  {
    if c.kind != Base && c.mode == GreaterThan then
      var target := Wrap(c.requiredValue + 1);
      var shown := if s.completed then target else s.value;
      ParseFractionOf(shown, target);
      IntToString(shown) + "/" + IntToString(target)
    else if s.completed then "1/1" else "0/1"
  }

  /** The keys `Save` writes. */
  function OwnKeys(c: Config): set<string> {
    var flags := {Keys.CompletedPrefsKey(c.id), Keys.RewardCollectedPrefsKey(c.id)};
    if c.kind == Base then flags else flags + {Keys.PrefsKey(c.id)}
  }

  /** `Save` (virtual): the two flags as 1/0, and for value achievements
      also the value. */
  function Save(c: Config, s: State, store: Store): Store {
    var flags := store[Keys.CompletedPrefsKey(c.id) := Bit(s.completed)]
                      [Keys.RewardCollectedPrefsKey(c.id) := Bit(s.rewardCollected)];
    if c.kind == Base then flags else flags[Keys.PrefsKey(c.id) := s.value]
  }

  /** `AchievementCompleted`: a guarded one-shot. */
  function Complete(c: Config, s: State, store: Store): Step {
    if s.completed then Step(s, store, [], 0)
    else
      var s' := s.(completed := true, rewardCollected := false);
      Step(s', Save(c, s', store), [c.id], 0)
  }

  /** `CollectAchievementReward`: does not look at `completed`. */
  function CollectReward(c: Config, s: State, store: Store): Step {
    if s.rewardCollected then Step(s, store, [], 0)
    else
      var s' := s.(rewardCollected := true);
      Step(s', Save(c, s', store), [], 0)
  }

  /** `SaveAndCheckProgress`: save, complete when the comparison holds, then
      fire `onPointsChanged`. */
  function CheckProgress(c: Config, s: State, store: Store): Step
    requires c.kind != Base
  {
    var saved := Save(c, s, store);
    var step := if Holds(c.mode, s.value, c.requiredValue) then Complete(c, s, saved)
                else Step(s, saved, [], 0);
    step.(pointsChanged := step.pointsChanged + 1)
  }

  /** `SetPoints(v)`. */
  function SetPoints(c: Config, s: State, store: Store, v: Int32): Step
    requires c.kind != Base
  {
    CheckProgress(c, s.(value := v), store)
  }

  /** `AddPoints(d)`: `Value += d` wraps around in 32 bits. */
  function AddPoints(c: Config, s: State, store: Store, d: Int32): Step
    requires c.kind != Base
  {
    SetPoints(c, s, store, Add(s.value, d))
  }

  /** `SetValueFromPlayerPrefs` of a PrefsAchievement whose `prefsKey` is
      `key`; the one-argument `GetInt` defaults to 0. */
  function SetValueFromPrefs(c: Config, s: State, store: Store, key: string): Step
    requires c.kind == Prefs
  {
    SetPoints(c, s, store, GetInt(store, key, 0))
  }

  /** The base `Load`: a flag is true exactly when 1 is stored for it. */
  function LoadFlags(c: Config, s: State, store: Store): State {
    s.(completed := GetInt(store, Keys.CompletedPrefsKey(c.id), 0) == 1,
       rewardCollected := GetInt(store, Keys.RewardCollectedPrefsKey(c.id), 0) == 1)
  }

  /** `Load` (virtual): a value achievement then runs SetPoints on the stored
      value or DefaultValue, which saves and may complete it. */
  function Load(c: Config, s: State, store: Store): Step {
    var flags := LoadFlags(c, s, store);
    if c.kind == Base then Step(flags, store, [], 0)
    else SetPoints(c, flags, store, GetInt(store, Keys.PrefsKey(c.id), DefaultValue(c)))
  }

  /** A boxed value in the save-data dictionary: the flags are stored as
      bool, the value as int. */
  datatype SaveValue = Flag(b: bool) | Number(n: int)

  /** A `SaveDataKeyValuePair`: the achievement's name and a boxed value. */
  datatype SaveEntry = SaveEntry(name: string, value: SaveValue)

  type SaveData = map<string, SaveEntry>

  /** `Convert.ToInt32` succeeds on a bool and on an integer within range. */
  predicate Convertible(v: SaveValue) {
    v.Flag? || MinInt32 <= v.n <= MaxInt32
  }

  function ToInt32(v: SaveValue): (r: Int32)
    requires Convertible(v)
    ensures v.Number? ==> r == v.n
    ensures v.Flag? ==> (r == 1 <==> v.b) && (r == 0 <==> !v.b)
  {
    match v
    case Flag(b) => Bit(b)
    case Number(n) => n
  }

  /** The entries that `SetSaveData` reads can be cast without an exception:
      `(bool)` on the flags, `Convert.ToInt32` on the value. */
  predicate Readable(c: Config, data: SaveData) {
    && (Keys.CompletedPrefsKey(c.id) in data ==> data[Keys.CompletedPrefsKey(c.id)].value.Flag?)
    && (Keys.RewardCollectedPrefsKey(c.id) in data ==> data[Keys.RewardCollectedPrefsKey(c.id)].value.Flag?)
    && (c.kind != Base && Keys.PrefsKey(c.id) in data ==> Convertible(data[Keys.PrefsKey(c.id)].value))
  }

  /** `GetSaveData` (virtual): writes the flags, and for value achievements
      the value, into the dictionary under the achievement's keys. */
  function GetSaveData(c: Config, s: State, name: string, data: SaveData): (r: SaveData)
    ensures Readable(c, r)
    ensures r.Keys == data.Keys + OwnKeys(c)
    ensures r[Keys.CompletedPrefsKey(c.id)] == SaveEntry(name, Flag(s.completed))
    ensures r[Keys.RewardCollectedPrefsKey(c.id)] == SaveEntry(name, Flag(s.rewardCollected))
    ensures c.kind != Base ==> r[Keys.PrefsKey(c.id)] == SaveEntry(name, Number(s.value))
    ensures forall k :: k in data && k !in OwnKeys(c) ==> r[k] == data[k]
  {
    Keys.KeysDistinct(c.id);
    var flags := data[Keys.CompletedPrefsKey(c.id) := SaveEntry(name, Flag(s.completed))]
                     [Keys.RewardCollectedPrefsKey(c.id) := SaveEntry(name, Flag(s.rewardCollected))];
    if c.kind == Base then flags else flags[Keys.PrefsKey(c.id) := SaveEntry(name, Number(s.value))]
  }

  /** The base `SetSaveData`: an absent flag reads as false. */
  function SetSaveDataFlags(c: Config, s: State, data: SaveData): State
    requires Readable(c, data)
  {
    var ck, rk := Keys.CompletedPrefsKey(c.id), Keys.RewardCollectedPrefsKey(c.id);
    s.(completed := if ck in data then data[ck].value.b else false,
       rewardCollected := if rk in data then data[rk].value.b else false)
  }

  /** `SetSaveData` (virtual): a value achievement then runs SetPoints on the
      entry's value or DefaultValue. */
  function SetSaveData(c: Config, s: State, store: Store, data: SaveData): Step
    requires Readable(c, data)
  {
    var flags := SetSaveDataFlags(c, s, data);
    if c.kind == Base then Step(flags, store, [], 0)
    else
      var pk := Keys.PrefsKey(c.id);
      SetPoints(c, flags, store, if pk in data then ToInt32(data[pk].value) else DefaultValue(c))
  }

  /** A state that SaveAndCheckProgress leaves: a value achievement whose
      comparison holds is completed. */
  predicate Settled(c: Config, s: State) {
    c.kind == Base || s.completed || !Holds(c.mode, s.value, c.requiredValue)
  }
}
