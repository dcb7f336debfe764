/** What the achievement operations promise, stated over the value model. */
module AchievementProperties {
  import opened Int32s
  import Keys
  import opened AchievementModel

  /** `Save` writes exactly the achievement's own keys and leaves every other
      key as it was. */
  lemma SaveWritesOwnKeys(c: Config, s: State, store: Store)
    ensures var r := Save(c, s, store);
      && r.Keys == store.Keys + OwnKeys(c)
      && r[Keys.CompletedPrefsKey(c.id)] == Bit(s.completed)
      && r[Keys.RewardCollectedPrefsKey(c.id)] == Bit(s.rewardCollected)
      && (c.kind != Base ==> r[Keys.PrefsKey(c.id)] == s.value)
      && forall k :: k in store && k !in OwnKeys(c) ==> r[k] == store[k]
  {
  }

  /** Saving twice is saving once. */
  lemma SaveIdempotent(c: Config, s: State, store: Store)
    ensures Save(c, s, Save(c, s, store)) == Save(c, s, store)
  {
  }

  /** AchievementCompleted on a completed achievement changes nothing: no
      field, no store entry, no queue entry. */
  lemma CompleteWhenCompletedIsNoOp(c: Config, s: State, store: Store)
    requires s.completed
    ensures Complete(c, s, store) == Step(s, store, [], 0)
  {
  }

  /** AchievementCompleted on an uncompleted achievement completes it, clears
      the reward flag, stores 1 and 0 for them, and queues it exactly once. */
  lemma CompleteFirstTime(c: Config, s: State, store: Store)
    requires !s.completed
    ensures var step := Complete(c, s, store);
      && step.state == State(true, false, s.value)
      && step.store[Keys.CompletedPrefsKey(c.id)] == 1
      && step.store[Keys.RewardCollectedPrefsKey(c.id)] == 0
      && step.store == Save(c, step.state, store)
      && step.queued == [c.id]
      && step.pointsChanged == 0
  {
  }

  /** CollectAchievementReward sets the reward flag and saves, leaves
      `completed` alone whatever it is, and a second call is a no-op. */
  lemma CollectRewardIdempotent(c: Config, s: State, store: Store)
    ensures var first := CollectReward(c, s, store);
      && first.state == s.(rewardCollected := true)
      && first.queued == [] && first.pointsChanged == 0
      && first.store == (if s.rewardCollected then store else Save(c, first.state, store))
      && CollectReward(c, first.state, first.store) == Step(first.state, first.store, [], 0)
  {
  }

  /** SaveAndCheckProgress: `completed` afterwards is `completed` before or
      the comparison, it never becomes false, the value is kept and saved,
      the achievement is queued exactly when it newly completes, and
      `onPointsChanged` fires exactly once. */
  lemma CheckProgressOutcome(c: Config, s: State, store: Store)
    requires c.kind != Base
    ensures var step := CheckProgress(c, s, store);
      var holds := Holds(c.mode, s.value, c.requiredValue);
      && step.state.completed == (s.completed || holds)
      && step.state.value == s.value
      && step.state.rewardCollected == (if !s.completed && holds then false else s.rewardCollected)
      && step.store == Save(c, step.state, store)
      && step.queued == (if !s.completed && holds then [c.id] else [])
      && step.pointsChanged == 1
      && Settled(c, step.state)
  {
  }

  /** SetPoints(v) leaves Value == v and stores v under "Achievement" + ID. */
  lemma SetPointsStoresValue(c: Config, s: State, store: Store, v: Int32)
    requires c.kind != Base
    ensures var step := SetPoints(c, s, store, v);
      && step.state.value == v
      && step.store[Keys.PrefsKey(c.id)] == v
      && step.state.completed == (s.completed || Holds(c.mode, v, c.requiredValue))
      && step.pointsChanged == 1
  {
  }

  /** AddPoints(d) adds in 32 bits: the exact sum when it fits, the sum
      wrapped by 2^32 when it overflows. */
  lemma AddPointsWraps(c: Config, s: State, store: Store, d: Int32)
    requires c.kind != Base
    ensures var step := AddPoints(c, s, store, d);
      && step.state.value == Add(s.value, d)
      && (MinInt32 <= s.value + d <= MaxInt32 ==> step.state.value == s.value + d)
      && (s.value + d > MaxInt32 ==> step.state.value == s.value + d - Modulus)
      && step.state.completed == (s.completed || Holds(c.mode, Add(s.value, d), c.requiredValue))
  {
  }

  /** The base Load, which every kind runs first, maps any stored integer
      other than 1 to false and keeps the value; a Base achievement's Load
      stops there, touching neither the store nor the queue. */
  lemma LoadFlagsReadOnlyOne(c: Config, s: State, store: Store)
    ensures var flags := LoadFlags(c, s, store);
      var ck, rk := Keys.CompletedPrefsKey(c.id), Keys.RewardCollectedPrefsKey(c.id);
      && (flags.completed <==> ck in store && store[ck] == 1)
      && (flags.rewardCollected <==> rk in store && store[rk] == 1)
      && flags.value == s.value
    ensures c.kind == Base ==>
      var step := Load(c, s, store);
      var ck, rk := Keys.CompletedPrefsKey(c.id), Keys.RewardCollectedPrefsKey(c.id);
      && (step.state.completed <==> ck in store && store[ck] == 1)
      && (step.state.rewardCollected <==> rk in store && store[rk] == 1)
      && step.store == store && step.queued == []
  {
  }

  /** Save then Load restores both flags of a Base achievement. */
  lemma SaveLoadRoundTripBase(c: Config, s: State, s0: State, store: Store)
    requires c.kind == Base
    ensures var saved := Save(c, s, store);
      var step := Load(c, s0, saved);
      && step.state.completed == s.completed
      && step.state.rewardCollected == s.rewardCollected
      && step.store == saved && step.queued == []
  {
  }

  /** Save then Load restores the value and the flags of a value achievement
      except that a comparison that holds on an uncompleted state completes
      it; from a settled state everything is restored, the store is saved
      again unchanged and nothing is queued. */
  lemma SaveLoadRoundTripValue(c: Config, s: State, s0: State, store: Store)
    requires c.kind != Base
    ensures var saved := Save(c, s, store);
      var step := Load(c, s0, saved);
      var completes := !s.completed && Holds(c.mode, s.value, c.requiredValue);
      && step.state.value == s.value
      && step.state.completed == (s.completed || completes)
      && step.state.rewardCollected == (s.rewardCollected && !completes)
      && step.queued == (if completes then [c.id] else [])
      && step.pointsChanged == 1
      && (Settled(c, s) ==> step.state == s && step.store == saved)
  {
  }

  /** Loading a LessThan achievement whose value is not stored never
      completes it: its value becomes int.MaxValue. */
  lemma LoadLessThanWithoutValue(c: Config, s: State, store: Store)
    requires c.kind != Base && c.mode == LessThan
    requires Keys.PrefsKey(c.id) !in store
    ensures var step := Load(c, s, store);
      && step.state.value == MaxInt32
      && step.state.completed == (GetInt(store, Keys.CompletedPrefsKey(c.id), 0) == 1)
      && step.queued == []
  {
  }

  /** Loading a value achievement from an empty store completes it, and
      queues its popup, exactly for Equal with required value 0, NotEqual
      with a nonzero required value and GreaterThan with a negative one. */
  lemma LoadFromEmptyStore(c: Config, s: State)
    requires c.kind != Base
    ensures var step := Load(c, s, map[]);
      var r := c.requiredValue;
      var completes := (c.mode == Equal && r == 0) || (c.mode == NotEqual && r != 0)
                       || (c.mode == GreaterThan && r < 0);
      && step.state.completed == completes
      && step.queued == (if completes then [c.id] else [])
      && step.state.value == DefaultValue(c)
  {
  }

  /** SetValueFromPlayerPrefs reads the value under `key` (0 when absent),
      completes exactly as SetPoints does, and writes the value back under
      "Achievement" + ID: the entry under `key` itself is left alone unless
      `key` is one of the achievement's own keys. */
  lemma SetValueFromPrefsOutcome(c: Config, s: State, store: Store, key: string)
    requires c.kind == Prefs
    ensures var step := SetValueFromPrefs(c, s, store, key);
      var v := GetInt(store, key, 0);
      && step.state.value == v
      && step.state.completed == (s.completed || Holds(c.mode, v, c.requiredValue))
      && step.store[Keys.PrefsKey(c.id)] == v
      && (key !in OwnKeys(c) ==> (key in step.store <==> key in store))
      && (key !in OwnKeys(c) && key in store ==> step.store[key] == store[key])
  {
  }

  /** GetSaveData then SetSaveData restores both flags of a Base achievement
      and leaves the store alone. */
  lemma SaveDataRoundTripBase(c: Config, s: State, s0: State, store: Store, name: string, data: SaveData)
    requires c.kind == Base
    ensures var step := SetSaveData(c, s0, store, GetSaveData(c, s, name, data));
      && step.state.completed == s.completed
      && step.state.rewardCollected == s.rewardCollected
      && step.store == store && step.queued == []
  {
  }

  /** GetSaveData then SetSaveData restores the value of a value achievement,
      and restores the whole state of a settled one without queueing it. */
  lemma SaveDataRoundTripValue(c: Config, s: State, s0: State, store: Store, name: string, data: SaveData)
    requires c.kind != Base
    ensures var step := SetSaveData(c, s0, store, GetSaveData(c, s, name, data));
      && step.state.value == s.value
      && step.state.completed == (s.completed || Holds(c.mode, s.value, c.requiredValue))
      && (Settled(c, s) ==> step.state == s && step.queued == [] && step.store == Save(c, s, store))
  {
  }

  /** SetSaveData on a dictionary without the achievement's keys: the reward
      flag ends false for every kind (completing clears it as well), a Base
      achievement ends uncompleted, and a value achievement gets DefaultValue
      and completes exactly when DefaultValue meets the comparison. */
  lemma SetSaveDataAbsentKeys(c: Config, s: State, store: Store, data: SaveData)
    requires forall k :: k in OwnKeys(c) ==> k !in data
    ensures Readable(c, data)
    ensures var step := SetSaveData(c, s, store, data);
      && !step.state.rewardCollected
      && (c.kind == Base ==> !step.state.completed)
      && (c.kind != Base ==>
            step.state.value == DefaultValue(c)
            && step.state.completed == Holds(c.mode, DefaultValue(c), c.requiredValue))
  {
  }

  /** An Equal achievement with required value 5: setting 3 does not
      complete it, setting 5 completes and queues it, setting 10 afterwards
      keeps it completed without queueing it again, and it shows "1/1". */
  lemma EqualModeScenario()
    ensures var c := Config("A", Value, 5, Equal);
      var first := SetPoints(c, State(false, false, 0), map[], 3);
      var second := SetPoints(c, first.state, first.store, 5);
      var third := SetPoints(c, second.state, second.store, 10);
      && !first.state.completed && first.queued == []
      && second.state.completed && second.queued == ["A"]
      && third.state.completed && third.queued == []
      && ProgressDisplayText(c, third.state) == "1/1"
  {
  }

  /** A GreaterThan achievement with required value 4: adding 3 shows
      progress 3 of 5, adding 2 more completes it and it shows "5/5". */
  lemma GreaterThanScenario()
    ensures var c := Config("B", Value, 4, GreaterThan);
      var first := AddPoints(c, State(false, false, 0), map[], 3);
      var second := AddPoints(c, first.state, first.store, 2);
      && !first.state.completed && ProgressOf(c, first.state) == Fraction(3, 5)
      && ProgressDisplayText(c, first.state) == "3/5"
      && second.state.completed && second.queued == ["B"]
      && ProgressOf(c, second.state) == Whole(1)
      && ProgressDisplayText(c, second.state) == "5/5"
  {
  }

  /** Because keys have no separator, a value achievement whose ID is
      "Completed" + x overwrites x's completed flag when it saves a value
      other than 1: the base Load of x then reads that flag as false, and
      completing x again queues it a second time. */
  lemma AliasUncompletes(cx: Config, cy: Config, s: State, t: State, store: Store)
    requires cy.id == "Completed" + cx.id && cy.kind != Base && t.value != 1
    ensures var loaded := LoadFlags(cx, s, Save(cy, t, store));
      && !loaded.completed
      && Complete(cx, loaded, Save(cy, t, store)).queued == [cx.id]
  {
    Keys.KeysAliasAcrossIds(cx.id);
  }

  // ---- Many achievements sharing one store and one popup queue ----

  /** One call of an operation that only moves `completed` forward. */
  datatype Call =
    | CompleteCall(i: nat)
    | CollectCall(i: nat)
    | SetPointsCall(i: nat, v: Int32)
    | AddPointsCall(i: nat, d: Int32)
    | FromPrefsCall(i: nat, key: string)

  /** The call names an achievement that has the operation. */
  predicate Applicable(cs: seq<Config>, call: Call) {
    && call.i < |cs|
    && (call.SetPointsCall? || call.AddPointsCall? ==> cs[call.i].kind != Base)
    && (call.FromPrefsCall? ==> cs[call.i].kind == Prefs)
  }

  function Apply(c: Config, s: State, store: Store, call: Call): Step
    requires call.SetPointsCall? || call.AddPointsCall? ==> c.kind != Base
    requires call.FromPrefsCall? ==> c.kind == Prefs
  {
    match call
    case CompleteCall(_) => Complete(c, s, store)
    case CollectCall(_) => CollectReward(c, s, store)
    case SetPointsCall(_, v) => SetPoints(c, s, store, v)
    case AddPointsCall(_, d) => AddPoints(c, s, store, d)
    case FromPrefsCall(_, key) => SetValueFromPrefs(c, s, store, key)
  }

  datatype Run = Run(states: seq<State>, store: Store, queued: seq<string>)

  /** The calls applied in order; `queued` is everything they appended. */
  function RunCalls(cs: seq<Config>, ss: seq<State>, store: Store, calls: seq<Call>): Run
    requires |ss| == |cs|
    requires forall n :: 0 <= n < |calls| ==> Applicable(cs, calls[n])
    decreases |calls|
  {
    if calls == [] then Run(ss, store, [])
    else
      assert Applicable(cs, calls[0]);
      var i := calls[0].i;
      var step := Apply(cs[i], ss[i], store, calls[0]);
      var rest := RunCalls(cs, ss[i := step.state], step.store, calls[1..]);
      Run(rest.states, rest.store, step.queued + rest.queued)
  }

  /** Each of these operations keeps a completed achievement completed and
      queues it exactly when it newly completes. */
  lemma ApplyQueuesOnCompletion(c: Config, s: State, store: Store, call: Call)
    requires call.SetPointsCall? || call.AddPointsCall? ==> c.kind != Base
    requires call.FromPrefsCall? ==> c.kind == Prefs
    ensures var step := Apply(c, s, store, call);
      && (s.completed ==> step.state.completed)
      && step.queued == (if !s.completed && step.state.completed then [c.id] else [])
  {
  }

  /** Over any sequence of completing, reward and points calls on achievements
      with distinct IDs, each achievement is queued at most once: exactly
      once if it went from uncompleted to completed, never otherwise. */
  lemma {:induction false} RunQueuesEachAchievementOnce(cs: seq<Config>, ss: seq<State>, store: Store, calls: seq<Call>)
    requires |ss| == |cs|
    requires forall n :: 0 <= n < |calls| ==> Applicable(cs, calls[n])
    requires forall a, b :: 0 <= a < b < |cs| ==> cs[a].id != cs[b].id
    ensures var run := RunCalls(cs, ss, store, calls);
      && |run.states| == |ss|
      && forall j :: 0 <= j < |cs| ==>
           && (ss[j].completed ==> run.states[j].completed)
           && multiset(run.queued)[cs[j].id] == (if run.states[j].completed && !ss[j].completed then 1 else 0)
    decreases |calls|
  {
    if calls != [] {
      var i := calls[0].i;
      var step := Apply(cs[i], ss[i], store, calls[0]);
      var ss' := ss[i := step.state];
      assert forall n :: 0 <= n < |calls[1..]| ==> Applicable(cs, calls[1..][n]) by {
        forall n | 0 <= n < |calls[1..]| ensures Applicable(cs, calls[1..][n]) {
          assert calls[1..][n] == calls[n + 1];
        }
      }
      RunQueuesEachAchievementOnce(cs, ss', step.store, calls[1..]);
      ApplyQueuesOnCompletion(cs[i], ss[i], store, calls[0]);
      var rest := RunCalls(cs, ss', step.store, calls[1..]);
      forall j | 0 <= j < |cs|
        ensures (ss[j].completed ==> rest.states[j].completed)
        ensures multiset(step.queued + rest.queued)[cs[j].id]
                == (if rest.states[j].completed && !ss[j].completed then 1 else 0)
      {
        assert multiset(step.queued + rest.queued) == multiset(step.queued) + multiset(rest.queued);
        if j != i {
          assert multiset(step.queued)[cs[j].id] == 0;
        }
      }
    }
  }
}
