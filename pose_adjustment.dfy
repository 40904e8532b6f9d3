/**
 * The pose adjustment screen: the motor-hold switch, the saved pose list that
 * only grows by one generated name at a time, the gating of the save button,
 * and the mode shown in the status card.
 */
module PoseAdjustment {
  import opened Decimal

  const SeededPoses: seq<string> := ["デフォルトポーズ", "敬礼ポーズ", "ピースサイン"]

  const PoseModeLabel: string := "ポーズ調整モード"

  /** The name the save handler gives a pose when the list holds `count` poses: `ポーズ ${count + 1}`. */
  function PoseName(count: nat): string {
    "ポーズ " + NatToString(count + 1)
  }

  /** The save and reset buttons are enabled only while motor hold is on. */
  predicate SaveEnabled(motorHold: bool) { motorHold }

  /** The mode shown in the status card. */
  function DisplayedMode(motorHold: bool, currentMode: string): (mode: string)
    ensures motorHold ==> mode == PoseModeLabel
    ensures !motorHold ==> mode == currentMode
  {
    if motorHold then PoseModeLabel else currentMode
  }

  /** Names generated at different list lengths differ. */
  lemma PoseNamesDistinct(a: nat, b: nat)
    requires a != b
    ensures PoseName(a) != PoseName(b)
  {
    var prefix := "ポーズ ";
    if PoseName(a) == PoseName(b) {
      assert NatToString(a + 1) == PoseName(a)[|prefix|..];
      assert NatToString(b + 1) == PoseName(b)[|prefix|..];
      NatToStringInjective(a + 1, b + 1);
    }
  }

  /** From the three seeded poses the first save is named ポーズ 4. */
  lemma FirstSaveName()
    ensures PoseName(|SeededPoses|) == "ポーズ 4"
  {
  }

  class PoseScreen {
    var motorHold: bool
    var savedPoses: seq<string>

    constructor ()
      ensures !motorHold && savedPoses == SeededPoses
    {
      motorHold := false;
      savedPoses := SeededPoses;
    }

    method ToggleMotorHold()
      modifies this
      ensures motorHold == !old(motorHold) && savedPoses == old(savedPoses)
    {
      motorHold := !motorHold;
    }

    /** The save handler: one generated name appended, earlier entries unchanged. */
    method SavePose()
      modifies this
      ensures savedPoses == old(savedPoses) + [PoseName(|old(savedPoses)|)]
      ensures |savedPoses| == |old(savedPoses)| + 1 && savedPoses[..|old(savedPoses)|] == old(savedPoses)
      ensures motorHold == old(motorHold)
    {
      savedPoses := savedPoses + [PoseName(|savedPoses|)];
    }

    /** A click on the save button, which is disabled while motor hold is off. */
    method PressSave()
      modifies this
      ensures old(motorHold) ==> savedPoses == old(savedPoses) + [PoseName(|old(savedPoses)|)]
      ensures !old(motorHold) ==> savedPoses == old(savedPoses)
      ensures motorHold == old(motorHold)
    {
      if SaveEnabled(motorHold) {
        SavePose();
      }
    }
  }
}
