/**
 * The types App.tsx exports to the screens (the screen tag and the doll status
 * record), and the affection level that the home and menu screens derive from
 * the status.
 */
module AppTypes {
  import opened Wrappers

  datatype Screen =
    | Connection | Home | Pose | Performance | Scenario | ScenarioExecution
    | Scheduler | Shop | Menu

  /**
   * The doll status shared by the screens.  `characterName` is `None` where the
   * source would store `undefined` (a device name without a second token).
   */
  datatype DollStatus = DollStatus(connected: bool, batteryLevel: int, affectionLevel: int,
                                   currentMode: string, dialogue: string, nextSchedule: string,
                                   deviceId: string, firmwareVersion: string,
                                   characterName: Option<string>)

  /** The status before any device is connected. */
  const InitialStatus: DollStatus :=
    DollStatus(false, 0, 0, "スタンバイ", "", "", "", "", Some("轟雷"))

  /** The affection level shown on the home and menu screens, `Math.floor(affection / 10)`. */
  function Level(affectionLevel: int): (lv: int)
    ensures 10 * lv <= affectionLevel < 10 * lv + 10
  {
    affectionLevel / 10
  }
}
