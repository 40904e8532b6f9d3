/**
 * The scenario list screen: the power gate, the per-scenario unlock thresholds,
 * the click handler and the visibility of the power cards, badges and unlock hints.
 * The screen holds no state; everything here is a function of the doll status.
 */
module ScenarioList {
  import opened Wrappers
  import AppTypes

  datatype Scenario = Scenario(id: string, title: string, description: string,
                               unlockCondition: string, isUnlocked: bool, thumbnail: string,
                               requiredAffection: int, estimatedTime: int)

  /** The doll counts as powered only strictly above 20 percent battery. */
  predicate IsPowered(batteryLevel: int) { batteryLevel > 20 }

  /** The scenario list, with its unlock flags computed from the affection level. */
  function Scenarios(affectionLevel: int): (r: seq<Scenario>)
    ensures |r| == 5
  {
    [
      Scenario("s1", "初めての出会い", "轟雷との初めての対話。お互いのことを知りましょう。",
               "初期解放", true, "初回", 0, 5),
      Scenario("s2", "訓練の日々", "一緒に訓練をする日常のストーリー。",
               "好感度レベル2", true, "訓練", 20, 8),
      Scenario("s3", "休日のお出かけ", "オフの日に一緒に過ごす特別な時間。",
               "好感度レベル4", affectionLevel >= 40, "休日", 40, 12),
      Scenario("s4", "夕暮れの約束", "夕日の中で交わす大切な約束のストーリー。",
               "好感度レベル6", affectionLevel >= 60, "夕暮れ", 60, 10),
      Scenario("s5", "心を通わせて", "お互いの本当の気持ちを知る特別なシナリオ。",
               "好感度レベル9", affectionLevel >= 90, "告白", 90, 15)
    ]
  }

  /** The click handler: the scenario passed to `onSelectScenario`, or `None` when nothing happens. */
  function HandleScenarioClick(scenario: Scenario, status: AppTypes.DollStatus): (selected: Option<Scenario>)
    ensures selected.Some? <==> scenario.isUnlocked && IsPowered(status.batteryLevel)
    ensures selected.Some? ==> selected.value == scenario
  {
    if scenario.isUnlocked && IsPowered(status.batteryLevel) then Some(scenario) else None
  }

  /** The low-power warning card. */
  predicate LowPowerWarningShown(status: AppTypes.DollStatus) { !IsPowered(status.batteryLevel) }

  /** The power-OK card. */
  predicate PowerOkShown(status: AppTypes.DollStatus) { IsPowered(status.batteryLevel) }

  /** The 実行可能 badge of a scenario card. */
  predicate RunnableBadgeShown(scenario: Scenario, status: AppTypes.DollStatus) {
    scenario.isUnlocked && IsPowered(status.batteryLevel)
  }

  /** The unlock-condition text of a scenario card. */
  predicate UnlockHintShown(scenario: Scenario) { !scenario.isUnlocked }

  // Lemmas.

  /** A level of exactly 20 is not powered; 21 is. */
  lemma PowerBoundary()
    ensures !IsPowered(20) && IsPowered(21)
  {
  }

  /**
   * s1 and s2 are always unlocked (s2's required affection of 20 is not consulted);
   * s3, s4 and s5 unlock exactly at their required affection of 40, 60 and 90.
   */
  lemma UnlockThresholds(affectionLevel: int)
    ensures Scenarios(affectionLevel)[0].isUnlocked && Scenarios(affectionLevel)[1].isUnlocked
    ensures Scenarios(affectionLevel)[2].isUnlocked <==> affectionLevel >= 40
    ensures Scenarios(affectionLevel)[3].isUnlocked <==> affectionLevel >= 60
    ensures Scenarios(affectionLevel)[4].isUnlocked <==> affectionLevel >= 90
    ensures forall k :: 2 <= k < 5 ==>
              (Scenarios(affectionLevel)[k].isUnlocked <==> affectionLevel >= Scenarios(affectionLevel)[k].requiredAffection)
  {
  }

  /** Unlocking follows list order: an unlocked scenario has every earlier one unlocked. */
  lemma UnlockMonotoneInOrder(affectionLevel: int, j: nat, k: nat)
    requires j <= k < 5
    requires Scenarios(affectionLevel)[k].isUnlocked
    ensures Scenarios(affectionLevel)[j].isUnlocked
  {
  }

  /** Raising the affection level never locks a scenario. */
  lemma UnlockMonotoneInAffection(a: int, b: int, k: nat)
    requires a <= b && k < 5
    requires Scenarios(a)[k].isUnlocked
    ensures Scenarios(b)[k].isUnlocked
  {
  }

  /** Exactly one of the two power cards is shown. */
  lemma ExactlyOnePowerCard(status: AppTypes.DollStatus)
    ensures LowPowerWarningShown(status) != PowerOkShown(status)
  {
  }

  /** A click selects a scenario exactly when its card carries the 実行可能 badge. */
  lemma ClickMatchesBadge(scenario: Scenario, status: AppTypes.DollStatus)
    ensures HandleScenarioClick(scenario, status).Some? <==> RunnableBadgeShown(scenario, status)
    ensures UnlockHintShown(scenario) ==> HandleScenarioClick(scenario, status).None?
  {
  }
}
