# CutieroidDoll companion app: a Dafny model of its screen logic

The app is a front-end prototype for a Bluetooth companion doll. Device scanning,
doll status, scenario dialogue, schedules, performances and the shop are all
simulated inside the screens, using local state, fixed timers and hard-coded
sample data. This project models the rule logic those screens hold and proves
properties of it:

- **Dialogue walker** (`ScenarioExecution`, from `ScenarioExecutionScreen`). This is
  the five-node dialogue graph, node lookup with a fallback to the first node, and
  the progress percentage. The run state is the class `ScenarioRun`, with the
  screen's four state fields plus the pending timer. Choosing books the affection
  change at once (`HandleChoice`). The move to the choice's next node happens in a
  second step (`CompleteChoice`), which stands for the 1500 ms timer. `HandleNext`
  follows a linear link or leaves on the `-1` sentinel, and `HandleBack` is the
  header's back arrow. The same transitions are also written as functions on a
  `Run` value. A finite set of reachable states is proved closed under every
  event. From it follow the three possible totals of a run that ends through the
  終了 button (5, 4, -1) and the bound of at most four node moves.
- **Scheduler** (`Scheduler`). A schedule list whose toggle and delete handlers
  replace it by id; the screen defines both handlers, but no control calls them. A slot lookup finds the first entry whose time string is
  exactly equal. A slot shows a card only when that first entry is enabled.
  Clicking a weekday selects its date.
- **Performances** (`PerformanceList`). The seeded list with affection-based unlock
  flags. The guarded execute handler and its delayed clear. The favourite toggle.
  Rules for showing the card controls and the required-affection hint.
- **Scenario list** (`ScenarioList`). The battery > 20 power gate, the unlock
  thresholds, the click handler, and which power cards, badges and hints appear.
- **Shop** (`Shop`). The status/type table that picks each card's single action,
  and the tab filters over the catalogue.
- **Pose adjustment** (`PoseAdjustment`, with `Decimal` for the `${n}` rendering).
  The motor-hold switch, the append-only pose list with generated names, the
  disabled save button, and the displayed mode.
- **Connection** (`DeviceConnection`). The two-phase simulated scan. The status
  record built for a picked device, whose character name is the second
  space-separated token of the device name.
- **Router** (`App`, with the shared `AppTypes`). The screen tag, the handlers that
  switch screens, and the switch from tag to component with its back targets.
  Disconnecting keeps the doll status.

`Sequences` gives `find` and `filter` as functions on sequences, and `Wrappers`
gives `Option`.

Three facts about the dialogue code shape the model:

- A choice does not move at once; it moves after a pause.
- Lookup of an unknown node id falls back to node 0.
- Reaching the `-1` sentinel calls `onBack`, just as the header's back arrow
  does at any node.

Timers become explicit second steps, not time. A JavaScript `undefined` becomes
`None`. JavaScript numbers become unbounded integers; every value involved is a
small whole number.

## Model

| member | source | states |
|---|---|---|
| ScenarioExecution.CurrentNodeLookup | src/components/ScenarioExecutionScreen.tsx:72 | for an id 0..4 the shown node is the node with that id; for any other id it is the first node |
| Sequences.First | src/components/ScenarioExecutionScreen.tsx:72 | `find` returns nothing iff no element passes, and otherwise an element of the list that passes |
| Sequences.FirstAt | src/components/SchedulerScreen.tsx:84 | `find` returns the element at the first index that passes |
| ScenarioExecution.Progress | src/components/ScenarioExecutionScreen.tsx:73 | the progress formula over five nodes is exactly 20 × (id + 1), and 100 at the last node |
| ScenarioExecution.NodeIdsArePositions | src/components/ScenarioExecutionScreen.tsx:33-70 | each node's id equals its position in the list |
| ScenarioExecution.EdgesIncrease | src/components/ScenarioExecutionScreen.tsx:33-73 | every choice or link leads to an existing node with a larger id, so progress strictly increases along it |
| ScenarioExecution.TerminalNode | src/components/ScenarioExecutionScreen.tsx:33-70 | node 4 is the only node with no successor (its link is the exit sentinel) |
| ScenarioExecution.ControlsAtEveryNode | src/components/ScenarioExecutionScreen.tsx:163-187 | at every node either the choice buttons or the next button show, never both; the next button reads 終了 exactly at node 4 |
| ScenarioExecution.StartIsReachable | src/components/ScenarioExecutionScreen.tsx:27-30 | a run starts at node 0 with total 0, in a reachable state |
| ScenarioExecution.PickPreservesReachable | src/components/ScenarioExecutionScreen.tsx:75-79 | a choice click keeps the run reachable and does not move the node |
| ScenarioExecution.FirePreservesReachable | src/components/ScenarioExecutionScreen.tsx:80-83 | the delayed commit keeps the run reachable and does not move backwards |
| ScenarioExecution.AdvancePreservesReachable | src/components/ScenarioExecutionScreen.tsx:86-94 | a next click keeps the run reachable and moves forwards; it leaves the screen only at node 4, without changing the state |
| ScenarioExecution.LeaveAnyTime | src/components/ScenarioExecutionScreen.tsx:101-108 | the header's back arrow leaves the screen at any node, with the state as it is |
| ScenarioExecution.StepPreservesReachable | src/components/ScenarioExecutionScreen.tsx:75-108 | any single event, back arrow included, keeps the run reachable and never moves backwards; leaving changes nothing, and leaving through the next button happens only at node 4 |
| ScenarioExecution.PlayFromReachable | src/components/ScenarioExecutionScreen.tsx:75-108 | any event sequence stays reachable; no more node moves are made than the ids climbed; a run that ends through the 終了 button ends at node 4 |
| ScenarioExecution.CompleteRunTotals | src/components/ScenarioExecutionScreen.tsx:33-108 | any walk from the start makes at most 4 node moves; one that ends through 終了 has total 5, 4 or -1; any walk, including one left by the back arrow, has total 0, 2, -1, 5 or 4 |
| ScenarioExecution.FooterShownOnceBooked | src/components/ScenarioExecutionScreen.tsx:191 | in every reachable state the total footer shows iff the run has left its start state, so it appears with the first booked choice and stays |
| ScenarioExecution.FriendlyRun | src/components/ScenarioExecutionScreen.tsx:38-49 | accepting at node 0 and then picking answer i at node 1 ends, after 3 moves, with total 2 plus that answer's change |
| ScenarioExecution.WarmRunTotal | src/components/ScenarioExecutionScreen.tsx:39-48 | +2 then +3 ends the scenario with total 5 |
| ScenarioExecution.PoliteRunTotal | src/components/ScenarioExecutionScreen.tsx:39-49 | +2 then +2 ends the scenario with total 4 |
| ScenarioExecution.FinishFromNode3 | src/components/ScenarioExecutionScreen.tsx:63-69 | from node 3 the next button leads to node 4, whose 終了 button ends the run after one move |
| ScenarioExecution.BusyRunTotal | src/components/ScenarioExecutionScreen.tsx:40-68 | declining (-1) leads through node 2 and ends with total -1 |
| ScenarioExecution.ScenarioRun.constructor | src/components/ScenarioExecutionScreen.tsx:27-30 | the run starts at node 0 with total and last change 0, no notification and nothing pending |
| ScenarioExecution.ScenarioRun.HandleChoice | src/components/ScenarioExecutionScreen.tsx:75-79 | the choice's change is added to the total and recorded as the last change; the notification shows; the node stays; the move to its next node is scheduled |
| ScenarioExecution.ScenarioRun.CompleteChoice | src/components/ScenarioExecutionScreen.tsx:80-83 | the delayed callback moves to the scheduled node and hides the notification; the total is unchanged |
| ScenarioExecution.ScenarioRun.HandleBack | src/components/ScenarioExecutionScreen.tsx:101-108 | the back arrow calls `onBack` and leaves the state as it is |
| ScenarioExecution.ScenarioRun.HandleNext | src/components/ScenarioExecutionScreen.tsx:86-94 | with no link nothing happens; on -1 it exits with the state unchanged; otherwise only the node moves to the link; an exit happens only at node 4, with total 5, 4 or -1 |
| Scheduler.Toggled | src/components/SchedulerScreen.tsx:73-77 | same length; entries with the id have `enabled` flipped and every other entry is unchanged |
| Scheduler.ToggledKeepsOtherFields | src/components/SchedulerScreen.tsx:73-77 | toggling changes no field except `enabled`, and changes `enabled` exactly on entries with the id |
| Scheduler.ToggleTwice | src/components/SchedulerScreen.tsx:73-77 | toggling the same id twice restores the list |
| Scheduler.DeletedContents | src/components/SchedulerScreen.tsx:79-81 | after delete, the list holds exactly the entries with a different id, every copy of each, in their original order |
| Sequences.FilterCounts | src/components/SchedulerScreen.tsx:80 | `filter` keeps every copy of each passing element and no copy of a failing one |
| Scheduler.DeleteAbsent | src/components/SchedulerScreen.tsx:79-81 | deleting an id that no entry has changes nothing |
| Scheduler.DeleteTwice | src/components/SchedulerScreen.tsx:79-81 | deleting twice is the same as deleting once |
| Sequences.Filter | src/components/SchedulerScreen.tsx:80 | `filter` keeps exactly the elements that pass, and is no longer than its input |
| Sequences.FilterIsSubsequence | src/components/SchedulerScreen.tsx:80 | `filter` keeps the original order |
| Scheduler.ScheduleAtTimeIsFirst | src/components/SchedulerScreen.tsx:83-85 | the slot lookup returns the first entry whose time string is exactly equal, and the card shows iff that entry is enabled |
| Scheduler.SlotWithoutMatch | src/components/SchedulerScreen.tsx:150-161 | a slot with no exactly-equal time string shows nothing |
| Scheduler.DisabledFirstMatchHides | src/components/SchedulerScreen.tsx:150-161 | a disabled first match hides a later enabled entry at the same time |
| Scheduler.SeededGrid | src/components/SchedulerScreen.tsx:27-71 | '07:30' is not a slot ('7:30' is), and neither is '22:00'; the seeded grid shows no card until entry 3 is enabled, which no control on the screen does; toggling it would make 10:00 show |
| Scheduler.SchedulerScreen.constructor | src/components/SchedulerScreen.tsx:27-61 | the screen starts with the three seeded schedules and date 9 selected |
| Scheduler.SchedulerScreen.ToggleSchedule | src/components/SchedulerScreen.tsx:73-77 | the list becomes the toggled list; the date is unchanged |
| Scheduler.SchedulerScreen.DeleteSchedule | src/components/SchedulerScreen.tsx:79-81 | the list becomes the filtered list; the date is unchanged |
| Scheduler.SchedulerScreen.SelectDate | src/components/SchedulerScreen.tsx:113-117 | clicking weekday i selects `dates[i]`; the list is unchanged |
| PerformanceList.UnlockRules | src/components/PerformanceScreen.tsx:25-86 | p1 and p2 are always unlocked (p2's 30 is not consulted); p3 iff affection ≥ 50; p4 iff ≥ 80; DLC p5 and p6 are always locked |
| PerformanceList.HintRules | src/components/PerformanceScreen.tsx:194 | in the seeded list the hint never shows on a DLC item; it shows exactly on locked p3 or p4 |
| PerformanceList.FavoriteToggled | src/components/PerformanceScreen.tsx:100-104 | same length; `isFavorite` is flipped only on entries with the id; other entries are unchanged |
| PerformanceList.FavoriteToggleTwice | src/components/PerformanceScreen.tsx:100-104 | toggling a favourite twice is the identity |
| PerformanceList.FavoriteToggleKeepsUnlock | src/components/PerformanceScreen.tsx:167-194 | a favourite toggle changes only `isFavorite`, so controls and hint stay as they were |
| PerformanceList.PerformanceScreen.constructor | src/components/PerformanceScreen.tsx:25-88 | the screen starts with the seeded list for the mount-time affection and no selection |
| PerformanceList.PerformanceScreen.ExecutePerformance | src/components/PerformanceScreen.tsx:90-98 | an unlocked performance is selected and a clear is scheduled; a locked one leaves the state unchanged |
| PerformanceList.PerformanceScreen.ClearSelection | src/components/PerformanceScreen.tsx:94-96 | the delayed step clears the selection |
| PerformanceList.PerformanceScreen.ToggleFavorite | src/components/PerformanceScreen.tsx:100-104 | the list becomes the favourite-toggled list; the selection is unchanged |
| ScenarioList.PowerBoundary | src/components/ScenarioScreen.tsx:25 | a battery level of 20 is not powered; 21 is |
| ScenarioList.UnlockThresholds | src/components/ScenarioScreen.tsx:27-78 | s1 and s2 are always unlocked; s3, s4 and s5 unlock iff affection ≥ 40, 60, 90, which are their required affections |
| ScenarioList.UnlockMonotoneInOrder | src/components/ScenarioScreen.tsx:27-78 | if a scenario is unlocked, every earlier one is too |
| ScenarioList.UnlockMonotoneInAffection | src/components/ScenarioScreen.tsx:53-73 | more affection never locks a scenario |
| ScenarioList.HandleScenarioClick | src/components/ScenarioScreen.tsx:80-84 | the scenario is passed on iff it is unlocked and the doll is powered; otherwise nothing happens |
| ScenarioList.ExactlyOnePowerCard | src/components/ScenarioScreen.tsx:103-124 | exactly one of the low-power warning and the power-OK card shows |
| ScenarioList.ClickMatchesBadge | src/components/ScenarioScreen.tsx:167-179 | a click acts iff the card shows the 実行可能 badge; a card showing its unlock condition never acts |
| Shop.ActionFor | src/components/ShopScreen.tsx:133-156 | the four conditional blocks render exactly one action: installed → badge; purchased DLC → install; purchased physical → purchased badge; available → purchase |
| Shop.TabsPartition | src/components/ShopScreen.tsx:206-216 | the DLC and physical tabs split any list between them, each in list order and each holding only its own type; "all" shows the whole list |
| Sequences.FilterPartition | src/components/ShopScreen.tsx:211-215 | two complementary filters together keep every element exactly once |
| Shop.CatalogueTabs | src/components/ShopScreen.tsx:26-97 | on the catalogue, the DLC tab lists the first four items and the physical tab the last three |
| PoseAdjustment.DisplayedMode | src/components/PoseAdjustmentScreen.tsx:55 | the mode shows ポーズ調整モード while motor hold is on, otherwise the doll's current mode |
| PoseAdjustment.PoseNamesDistinct | src/components/PoseAdjustmentScreen.tsx:26 | names generated at different list lengths differ |
| PoseAdjustment.FirstSaveName | src/components/PoseAdjustmentScreen.tsx:15-26 | the first save from the three seeded poses is named ポーズ 4 |
| Decimal.NatToString | src/components/PoseAdjustmentScreen.tsx:26 | the decimal rendering is non-empty, all digits, and has no leading zero |
| Decimal.ParseNatToString | src/components/PoseAdjustmentScreen.tsx:26 | parsing the decimal rendering gives the number back |
| PoseAdjustment.PoseScreen.constructor | src/components/PoseAdjustmentScreen.tsx:14-19 | motor hold starts off, with the three seeded poses |
| PoseAdjustment.PoseScreen.ToggleMotorHold | src/components/PoseAdjustmentScreen.tsx:21-23 | motor hold flips; the poses are unchanged |
| PoseAdjustment.PoseScreen.SavePose | src/components/PoseAdjustmentScreen.tsx:25-28 | exactly one name `ポーズ (n+1)` is appended, and the earlier entries are unchanged |
| PoseAdjustment.PoseScreen.PressSave | src/components/PoseAdjustmentScreen.tsx:109-113 | the save button appends only while motor hold is on; otherwise the list is unchanged |
| DeviceConnection.JoinSplit | src/components/ConnectionScreen.tsx:47 | joining the pieces of `split` with the separator gives the name back |
| DeviceConnection.Split | src/components/ConnectionScreen.tsx:47 | `split` gives at least one piece, and no piece contains the separator |
| DeviceConnection.SecondTokenDefined | src/components/ConnectionScreen.tsx:47 | `split(' ')[1]` is undefined exactly when the name has no space, and otherwise contains no space |
| DeviceConnection.SecondTokenOf | src/components/ConnectionScreen.tsx:47 | for `first second…`, the token is the word between the first and the next space |
| DeviceConnection.ConnectToDevice | src/components/ConnectionScreen.tsx:36-48 | the status is connected, carries the device's id, and its character name is the second token of the device name |
| DeviceConnection.ConnectedConstants | src/components/ConnectionScreen.tsx:38-46 | battery 85, affection 42, mode スタンバイ, firmware v1.2.3 |
| DeviceConnection.ScannedCharacterNames | src/components/ConnectionScreen.tsx:27-31 | the three scanned devices give 轟雷, スティレット and バーゼラルド |
| DeviceConnection.DollCharacterName | src/components/ConnectionScreen.tsx:28-30 | a device named `CutieroidDoll <name>`, with no space in the name, gives that name |
| DeviceConnection.ConnectionScreen.constructor | src/components/ConnectionScreen.tsx:18-19 | the screen starts not scanning, with no devices |
| DeviceConnection.ConnectionScreen.StartScan | src/components/ConnectionScreen.tsx:21-24 | scanning turns on, the device list empties, and a completion is scheduled |
| DeviceConnection.ConnectionScreen.PressScan | src/components/ConnectionScreen.tsx:69-73 | the button does nothing while scanning; otherwise it starts a scan; at most one completion is pending |
| DeviceConnection.ConnectionScreen.CompleteScan | src/components/ConnectionScreen.tsx:26-33 | the delayed completion lists the three fixed devices and clears scanning |
| AppTypes.Level | src/components/HomeScreen.tsx:34 | the level `floor(affection / 10)` is the lv with 10·lv ≤ affection < 10·lv + 10 |
| App.BackTarget | src/App.tsx:64-86 | connection and home have no back target; scenario-execution goes back to scenario; every other screen goes back to home |
| App.RenderIsOneToOne | src/App.tsx:64-86 | each screen tag renders its own component, and no two tags share one |
| App.BackLeadsHome | src/App.tsx:70-83 | following back targets reaches home in one or two steps |
| App.AppState.constructor | src/App.tsx:36-48 | the app starts on connection, not connected, with battery 0 and affection 0 |
| App.AppState.NavigateTo | src/App.tsx:50-52 | only the current screen changes |
| App.AppState.HandleConnect | src/App.tsx:54-57 | the status is replaced and the app moves to home |
| App.AppState.HandleScenarioSelect | src/App.tsx:59-62 | the scenario is stored and the app moves to scenario-execution |
| App.AppState.Back | src/App.tsx:70-83 | onBack moves to the screen's back target; status and scenario are unchanged |
| App.AppState.Disconnect | src/App.tsx:83 | disconnect moves to connection and leaves the status and the selected scenario as they were |
| App.AppState.ConnectDevice | src/components/ConnectionScreen.tsx:36-49 | picking a device stores its connected status and moves to home |
| App.AppState.ClickScenario | src/components/ScenarioScreen.tsx:80-84 | a scenario click opens the dialogue iff it is unlocked and powered; otherwise nothing changes |
| ScenarioExecution.CurrentNode | src/components/ScenarioExecutionScreen.tsx:72 | the node `find` returns for the id, or node 0 when none matches (pinned down by `CurrentNodeLookup`) |
| ScenarioExecution.Successors | src/components/ScenarioExecutionScreen.tsx:33-70 | the ids a node moves to by a choice or by its link; the `-1` sentinel is no node (used by `EdgesIncrease`, `TerminalNode`) |
| ScenarioExecution.Offered | src/components/ScenarioExecutionScreen.tsx:163-177 | a choice is offered iff it is one of the current node's choice buttons |
| ScenarioExecution.Start | src/components/ScenarioExecutionScreen.tsx:27-30 | the initial values of the four state hooks, with nothing pending |
| ScenarioExecution.Choose | src/components/ScenarioExecutionScreen.tsx:75-79 | the immediate part of `handleChoice`: last and total change booked, notification shown, move scheduled |
| ScenarioExecution.Commit | src/components/ScenarioExecutionScreen.tsx:80-83 | the timer callback: move to the scheduled node and hide the notification |
| ScenarioExecution.Next | src/components/ScenarioExecutionScreen.tsx:86-94 | `handleNext`: follow the link, call `onBack` on `-1`, do nothing without a link |
| ScenarioExecution.Step | src/components/ScenarioExecutionScreen.tsx:75-108 | one click on a shown control or one timer firing, with whether the screen was left |
| ScenarioExecution.Play | src/components/ScenarioExecutionScreen.tsx:75-108 | a sequence of events until the screen is left, counting node moves and how it was left |
| ScenarioExecution.ChoicesShown | src/components/ScenarioExecutionScreen.tsx:163 | the choice buttons render iff the node has `choices` |
| ScenarioExecution.NextShown | src/components/ScenarioExecutionScreen.tsx:180 | the next button renders iff the node has no `choices` and has a `nextNode` |
| ScenarioExecution.NextLabel | src/components/ScenarioExecutionScreen.tsx:185 | the next button reads 終了 on the `-1` link and 次へ otherwise |
| ScenarioExecution.FooterShown | src/components/ScenarioExecutionScreen.tsx:191 | the footer renders iff the total change is not zero |
| Scheduler.Deleted | src/components/SchedulerScreen.tsx:79-81 | every entry kept has a different id and comes from the list, which never grows |
| Scheduler.ScheduleAtTime | src/components/SchedulerScreen.tsx:83-85 | nothing iff no entry has exactly that time string; otherwise an entry of the list with it |
| Scheduler.SlotShowsCard | src/components/SchedulerScreen.tsx:150-161 | a slot shows a card iff its looked-up schedule exists and is enabled |
| Scheduler.SchedulerScreen.IsHighlighted | src/components/SchedulerScreen.tsx:119 | weekday i is highlighted iff its date is the selected one |
| PerformanceList.SeededPerformances | src/components/PerformanceScreen.tsx:25-86 | the six seeded performances, with p3 and p4 unlocked by the mount-time affection |
| PerformanceList.ControlsShown | src/components/PerformanceScreen.tsx:167-192 | the star, play icon and preview render iff the performance is unlocked |
| PerformanceList.HintShown | src/components/PerformanceScreen.tsx:194 | the required-affection hint renders iff the card is locked and requires some affection |
| PerformanceList.PerformanceScreen.OverlayShown | src/components/PerformanceScreen.tsx:122 | the running overlay renders iff a performance is selected |
| ScenarioList.IsPowered | src/components/ScenarioScreen.tsx:25 | the doll counts as powered iff the battery is above 20 |
| ScenarioList.Scenarios | src/components/ScenarioScreen.tsx:27-78 | the five scenarios, with s3 to s5 unlocked by affection |
| ScenarioList.LowPowerWarningShown | src/components/ScenarioScreen.tsx:103 | the low-power warning renders iff the doll is not powered |
| ScenarioList.PowerOkShown | src/components/ScenarioScreen.tsx:117 | the power-OK card renders iff the doll is powered |
| ScenarioList.RunnableBadgeShown | src/components/ScenarioScreen.tsx:167 | the 実行可能 badge renders iff the scenario is unlocked and the doll powered |
| ScenarioList.UnlockHintShown | src/components/ScenarioScreen.tsx:175 | the unlock condition renders iff the scenario is locked |
| Shop.RenderedActions | src/components/ShopScreen.tsx:133-156 | the four independent conditional blocks of a card, in order |
| Shop.TabItems | src/components/ShopScreen.tsx:206-216 | the items under each tab: all of them, or those of the tab's type |
| PoseAdjustment.PoseName | src/components/PoseAdjustmentScreen.tsx:26 | the generated name `ポーズ ${count + 1}` |
| PoseAdjustment.SaveEnabled | src/components/PoseAdjustmentScreen.tsx:109-122 | the save and reset buttons are enabled iff motor hold is on |
| DeviceConnection.SecondToken | src/components/ConnectionScreen.tsx:47 | `name.split(' ')[1]`, or nothing with fewer than two pieces (pinned down by `SecondTokenDefined`, `SecondTokenOf`) |
| DeviceConnection.ConnectionScreen.Valid | src/components/ConnectionScreen.tsx:21-33 | exactly one completion is pending while scanning, none otherwise |
| DeviceConnection.ConnectionScreen.ScanEnabled | src/components/ConnectionScreen.tsx:71 | the scan button is enabled iff no scan is running |
| DeviceConnection.ConnectionScreen.DeviceListShown | src/components/ConnectionScreen.tsx:87 | the device list renders iff it is not empty |
| App.Render | src/App.tsx:64-86 | the component the switch renders for each screen tag |

## Left out

- ScenarioExecution.ScenarioRun.HandleChoice: requires that no move is pending, so clicks made during the 1500 ms pause are not modelled. The source leaves the choice buttons clickable and would stack one timer per click. It also requires that the choice is one the current node offers, which is the only kind the rendered buttons pass.
- ScenarioExecution.Step: a `Pick` made while a move is pending does nothing, for the same reason. In the source a double click at node 0 books +2 twice. So ScenarioExecution.CompleteRunTotals (totals 5, 4 or -1) and the reachable-state lemmas hold only for runs without such repeated clicks.
- ScenarioExecution.ScenarioRun.HandleBack: after the back arrow, a choice timer still pending would fire on the unmounted screen; the model ends the run at the arrow.
- Rendering: layout, icons, colours and the `./ui/*` components. This includes the notification's heart or broken heart chosen by the sign of the last change, the speaker initial, the header title fallback and the price formatting with `toLocaleString`.
- Real time: each `setTimeout` is an explicit later step (`CompleteChoice`, `ClearSelection`, `CompleteScan`) with no duration.
- Progress rounding: the float division and `Math.round` are replaced by the exact integer percentage, which is the same value for this five-node graph.
- Browser and device calls: `alert` in the shop's purchase and install handlers, the menu's `confirm` and `alert`, and the BLE command placeholder. None of them has logic.
- Scheduler.SchedulerScreen.ToggleSchedule and Scheduler.SchedulerScreen.DeleteSchedule: they model `toggleSchedule` and `deleteSchedule`, which the screen defines but never calls. Its only switch drives the repeat flag, and its delete button has no click handler.
- The scheduler's add dialog only closes itself and creates nothing, so there is no add operation. The repeat switch, the search and delete buttons, and the edit button hold no rule logic.
- The pose reset button and the apply buttons have no handlers.
- HomeScreen.tsx and MenuScreen.tsx are display and callback wiring; only the level formula is modelled.
- The router's `default:` branch cannot be reached, because the screen tag is a closed datatype here.
- PerformanceList.PerformanceScreen.constructor: the unlock flags are fixed from the affection seen when the screen mounts, as the source's initial state is. The model does not track later changes to the doll status.
