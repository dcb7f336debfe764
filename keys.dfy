/** The persistence keys of an achievement: a fixed prefix followed by the
    achievement's ID, with no separator. */
module Keys {

  const PrefsPrefix: string := "Achievement"
  const CompletedPrefix: string := "AchievementCompleted"
  const RewardCollectedPrefix: string := "AchievementRewardCollected"

  /** Key of the stored value of a value achievement. */
  function PrefsKey(id: string): string {
    PrefsPrefix + id
  }

  /** Key of the stored completed flag. */
  function CompletedPrefsKey(id: string): string {
    CompletedPrefix + id
  }

  /** Key of the stored reward-collected flag. */
  function RewardCollectedPrefsKey(id: string): string {
    RewardCollectedPrefix + id
  }

  /** The three keys of one achievement are pairwise different. */
  lemma KeysDistinct(id: string)
    ensures PrefsKey(id) != CompletedPrefsKey(id)
    ensures PrefsKey(id) != RewardCollectedPrefsKey(id)
    ensures CompletedPrefsKey(id) != RewardCollectedPrefsKey(id)
  {
  }

  /** Stripping a prefix recovers the ID, so each key determines its ID. */
  lemma StripPrefix(p: string, a: string, b: string)
    requires p + a == p + b
    ensures a == b
  {
    assert a == (p + a)[|p|..];
    assert b == (p + b)[|p|..];
  }

  lemma KeysInjective(a: string, b: string)
    ensures PrefsKey(a) == PrefsKey(b) ==> a == b
    ensures CompletedPrefsKey(a) == CompletedPrefsKey(b) ==> a == b
    ensures RewardCollectedPrefsKey(a) == RewardCollectedPrefsKey(b) ==> a == b
  {
    if PrefsKey(a) == PrefsKey(b) { StripPrefix(PrefsPrefix, a, b); }
    if CompletedPrefsKey(a) == CompletedPrefsKey(b) { StripPrefix(CompletedPrefix, a, b); }
    if RewardCollectedPrefsKey(a) == RewardCollectedPrefsKey(b) { StripPrefix(RewardCollectedPrefix, a, b); }
  }

  /** Without a separator the keys of different achievements can coincide:
      the value key of the achievement "Completed" + id is the completed key
      of the achievement id, and likewise for the reward key. */
  lemma KeysAliasAcrossIds(id: string)
    ensures PrefsKey("Completed" + id) == CompletedPrefsKey(id)
    ensures PrefsKey("RewardCollected" + id) == RewardCollectedPrefsKey(id)
  {
  }
}
