/**
 * The performance screen: the seeded performance list with its unlock flags,
 * the guarded execute handler and its delayed clear, the favourite toggle, and
 * the visibility of the card controls and the required-affection hint.
 */
module PerformanceList {
  import opened Wrappers

  datatype Performance = Performance(id: string, title: string, description: string,
                                     unlockCondition: string, isUnlocked: bool, isFavorite: bool,
                                     requiredAffection: int, isDLC: bool)

  /** The list the screen starts with; the unlock flags are fixed from the affection level at mount. */
  function SeededPerformances(affectionLevel: int): (r: seq<Performance>)
    ensures |r| == 6
  {
    [
      Performance("p1", "おはよう挨拶", "元気な朝の挨拶をします", "初期解放", true, true, 0, false),
      Performance("p2", "敬礼モーション", "きりっとした敬礼をします", "好感度レベル3", true, false, 30, false),
      Performance("p3", "喜びのダンス", "嬉しい時の特別なダンス", "好感度レベル5",
                  affectionLevel >= 50, false, 50, false),
      Performance("p4", "特別な告白", "特別なメッセージを伝えます", "好感度レベル8",
                  affectionLevel >= 80, false, 80, false),
      Performance("p5", "水着ポーズ", "夏の特別演出", "DLC購入", false, false, 0, true),
      Performance("p6", "クリスマスソング", "クリスマスの特別な歌", "DLC購入", false, false, 0, true)
    ]
  }

  /** The list after the favourite handler: `isFavorite` flipped on every entry with the id. */
  function FavoriteToggled(performances: seq<Performance>, id: string): (r: seq<Performance>)
    ensures |r| == |performances|
    ensures forall k :: 0 <= k < |r| && performances[k].id == id ==>
              r[k] == performances[k].(isFavorite := !performances[k].isFavorite)
    ensures forall k :: 0 <= k < |r| && performances[k].id != id ==> r[k] == performances[k]
  {
    if |performances| == 0 then []
    else
      var p := performances[0];
      [if p.id == id then p.(isFavorite := !p.isFavorite) else p] + FavoriteToggled(performances[1..], id)
  }

  /** The favourite star and the play icon are offered only on unlocked cards. */
  predicate ControlsShown(p: Performance) { p.isUnlocked }

  /** The required-affection hint of a card. */
  predicate HintShown(p: Performance) { !p.isUnlocked && p.requiredAffection > 0 }

  // Lemmas.

  /**
   * p1 and p2 are unlocked whatever the affection (p2's required affection of 30
   * is not consulted), p3 unlocks at 50, p4 at 80, and the DLC items p5 and p6
   * are always locked.
   */
  lemma UnlockRules(affectionLevel: int)
    ensures var ps := SeededPerformances(affectionLevel);
            && ps[0].isUnlocked && ps[1].isUnlocked && ps[1].requiredAffection == 30
            && (ps[2].isUnlocked <==> affectionLevel >= 50)
            && (ps[3].isUnlocked <==> affectionLevel >= 80)
            && !ps[4].isUnlocked && !ps[5].isUnlocked
            && forall k :: 0 <= k < 6 ==> (ps[k].isDLC <==> k >= 4)
  {
  }

  /** In the seeded list the hint shows exactly on locked p3 and p4, and never on a DLC item. */
  lemma HintRules(affectionLevel: int, k: nat)
    requires k < 6
    ensures var p := SeededPerformances(affectionLevel)[k];
            && (p.isDLC ==> !HintShown(p))
            && (HintShown(p) <==> (k == 2 && affectionLevel < 50) || (k == 3 && affectionLevel < 80))
  {
  }

  /** Toggling a favourite twice restores the list. */
  lemma FavoriteToggleTwice(performances: seq<Performance>, id: string)
    ensures FavoriteToggled(FavoriteToggled(performances, id), id) == performances
  {
  }

  /** Toggling a favourite changes nothing but `isFavorite`, so no card's unlock state or controls change. */
  lemma FavoriteToggleKeepsUnlock(performances: seq<Performance>, id: string, k: nat)
    requires k < |performances|
    ensures FavoriteToggled(performances, id)[k].(isFavorite := performances[k].isFavorite) == performances[k]
    ensures ControlsShown(FavoriteToggled(performances, id)[k]) == ControlsShown(performances[k])
    ensures HintShown(FavoriteToggled(performances, id)[k]) == HintShown(performances[k])
  {
  }

  /**
   * The screen's state.  `pendingClears` counts the delayed clears that execute
   * has scheduled and that have not fired yet.
   */
  class PerformanceScreen {
    var performances: seq<Performance>
    var selectedPerformance: Option<Performance>
    var pendingClears: nat

    constructor (affectionLevel: int)
      ensures performances == SeededPerformances(affectionLevel)
      ensures selectedPerformance == None && pendingClears == 0
    {
      performances := SeededPerformances(affectionLevel);
      selectedPerformance := None;
      pendingClears := 0;
    }

    /** A click on a card: an unlocked performance is selected and a clear is scheduled; a locked one does nothing. */
    method ExecutePerformance(p: Performance)
      modifies this
      ensures p.isUnlocked ==> selectedPerformance == Some(p) && pendingClears == old(pendingClears) + 1
      ensures !p.isUnlocked ==> selectedPerformance == old(selectedPerformance) && pendingClears == old(pendingClears)
      ensures performances == old(performances)
    {
      if p.isUnlocked {
        selectedPerformance := Some(p);
        pendingClears := pendingClears + 1;
      }
    }

    /** A scheduled clear fires. */
    method ClearSelection()
      requires pendingClears > 0
      modifies this
      ensures selectedPerformance == None && pendingClears == old(pendingClears) - 1
      ensures performances == old(performances)
    {
      selectedPerformance := None;
      pendingClears := pendingClears - 1;
    }

    method ToggleFavorite(id: string)
      modifies this
      ensures performances == FavoriteToggled(old(performances), id)
      ensures selectedPerformance == old(selectedPerformance) && pendingClears == old(pendingClears)
    {
      performances := FavoriteToggled(performances, id);
    }

    /** The running overlay is shown iff a performance is selected. */
    predicate OverlayShown()
      reads this
    {
      selectedPerformance.Some?
    }
  }
}
