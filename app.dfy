/**
 * The application shell: which screen is showing, the shared doll status and
 * the selected scenario, the handlers that change them, and the switch that
 * picks the component for the current screen together with its back target.
 */
module App {
  import opened Wrappers
  import opened AppTypes
  import ScenarioList
  import DeviceConnection

  /** The component the switch renders. */
  datatype Component =
    | ConnectionScreen | HomeScreen | PoseAdjustmentScreen | PerformanceScreen | ScenarioScreen
    | ScenarioExecutionScreen | SchedulerScreen | ShopScreen | MenuScreen

  /** The switch over the screen tag. */
  function Render(s: Screen): Component {
    match s
    case Connection => ConnectionScreen
    case Home => HomeScreen
    case Pose => PoseAdjustmentScreen
    case Performance => PerformanceScreen
    case Scenario => ScenarioScreen
    case ScenarioExecution => ScenarioExecutionScreen
    case Scheduler => SchedulerScreen
    case Shop => ShopScreen
    case Menu => MenuScreen
  }

  /** Where the rendered component's `onBack` navigates; the connection and home screens have none. */
  function BackTarget(s: Screen): (target: Option<Screen>)
    ensures target.None? <==> s == Connection || s == Home
    ensures s == ScenarioExecution ==> target == Some(Scenario)
    ensures s !in {Connection, Home, ScenarioExecution} ==> target == Some(Home)
  {
    match s
    case Connection => None
    case Home => None
    case ScenarioExecution => Some(Scenario)
    case _ => Some(Home)
  }

  /** Distinct screens render distinct components: each tag selects exactly one screen. */
  lemma RenderIsOneToOne(a: Screen, b: Screen)
    requires Render(a) == Render(b)
    ensures a == b
  {
  }

  /** Following back targets from any screen reaches the home screen within two steps. */
  lemma BackLeadsHome(s: Screen)
    requires BackTarget(s).Some?
    ensures var t := BackTarget(s).value;
            t == Home || (t == Scenario && BackTarget(t) == Some(Home))
  {
  }

  class AppState {
    var currentScreen: Screen
    var dollStatus: DollStatus
    var selectedScenario: Option<ScenarioList.Scenario>

    constructor ()
      ensures currentScreen == Connection && dollStatus == InitialStatus && selectedScenario == None
      ensures !dollStatus.connected && dollStatus.batteryLevel == 0 && dollStatus.affectionLevel == 0
    {
      currentScreen := Connection;
      dollStatus := InitialStatus;
      selectedScenario := None;
    }

    method NavigateTo(s: Screen)
      modifies this
      ensures currentScreen == s
      ensures dollStatus == old(dollStatus) && selectedScenario == old(selectedScenario)
    {
      currentScreen := s;
    }

    method HandleConnect(status: DollStatus)
      modifies this
      ensures dollStatus == status && currentScreen == Home
      ensures selectedScenario == old(selectedScenario)
    {
      dollStatus := status;
      currentScreen := Home;
    }

    method HandleScenarioSelect(scenario: ScenarioList.Scenario)
      modifies this
      ensures selectedScenario == Some(scenario) && currentScreen == ScenarioExecution
      ensures dollStatus == old(dollStatus)
    {
      selectedScenario := Some(scenario);
      currentScreen := ScenarioExecution;
    }

    /** The rendered component's `onBack`; nothing happens on a screen that has none. */
    method Back()
      modifies this
      ensures currentScreen == (match BackTarget(old(currentScreen))
                                case Some(t) => t
                                case None => old(currentScreen))
      ensures dollStatus == old(dollStatus) && selectedScenario == old(selectedScenario)
    {
      match BackTarget(currentScreen)
      case Some(t) => NavigateTo(t);
      case None =>
    }

    /** The menu's `onDisconnect`: back to the connection screen, keeping the status on purpose. */
    method Disconnect()
      requires currentScreen == Menu
      modifies this
      ensures currentScreen == Connection
      ensures dollStatus == old(dollStatus) && selectedScenario == old(selectedScenario)
    {
      NavigateTo(Connection);
    }

    /** A click on a device of the connection screen. */
    method ConnectDevice(d: DeviceConnection.Device)
      requires currentScreen == Connection
      modifies this
      ensures dollStatus == DeviceConnection.ConnectToDevice(d) && dollStatus.connected && currentScreen == Home
      ensures selectedScenario == old(selectedScenario)
    {
      HandleConnect(DeviceConnection.ConnectToDevice(d));
    }

    /** A click on a scenario card: it opens the dialogue only when unlocked and powered. */
    method ClickScenario(scenario: ScenarioList.Scenario)
      requires currentScreen == Scenario
      modifies this
      ensures scenario.isUnlocked && ScenarioList.IsPowered(old(dollStatus).batteryLevel) ==>
                currentScreen == ScenarioExecution && selectedScenario == Some(scenario)
      ensures !(scenario.isUnlocked && ScenarioList.IsPowered(old(dollStatus).batteryLevel)) ==>
                currentScreen == old(currentScreen) && selectedScenario == old(selectedScenario)
      ensures dollStatus == old(dollStatus)
    {
      match ScenarioList.HandleScenarioClick(scenario, dollStatus)
      case Some(sc) => HandleScenarioSelect(sc);
      case None =>
    }
  }
}
