/**
 * The dialogue walker of the scenario-execution screen: a fixed five-node
 * dialogue graph, node lookup with a fallback to the first node, the progress
 * percentage, and the run state that the choice and next handlers update.
 *
 * A choice is taken in two steps, as in the screen: the choice handler books
 * the affection change at once and schedules a move to the choice's next node;
 * the scheduled callback (`Commit`) performs that move later.  The pending
 * callback is represented by the field `pendingNext`.
 */
module ScenarioExecution {
  import opened Wrappers
  import opened Sequences

  datatype Choice = Choice(text: string, affectionChange: int, nextNode: int)

  /** A dialogue node: either branching (`choices`) or linear (`nextNode`). */
  datatype Node = Node(id: int, speaker: string, text: string,
                       choices: Option<seq<Choice>>, nextNode: Option<int>)

  /** The `nextNode` value that ends the scenario. */
  const ExitSentinel: int := -1

  const ScenarioNodes: seq<Node> := [
    Node(0, "轟雷", "マスター、お時間ありますか？ちょっとお話したいことがあるんです。",
         Some([Choice("もちろん、何かな？", 2, 1), Choice("今は忙しいんだ", -1, 2)]), None),
    Node(1, "轟雷", "ありがとうございます！実は最近、マスターと過ごす時間がとても楽しくて...",
         Some([Choice("私も楽しいよ", 3, 3), Choice("そう言ってくれて嬉しい", 2, 3)]), None),
    Node(2, "轟雷", "そう、ですか...分かりました。また後で...", None, Some(4)),
    Node(3, "轟雷", "えへへ、これからもよろしくお願いしますね、マスター！", None, Some(4)),
    Node(4, "システム", "シナリオが終了しました", None, Some(ExitSentinel))
  ]

  /** The node shown for `currentNodeId`: the matching node, or the first node when none matches. */
  function CurrentNode(currentNodeId: int): Node {
    match First(ScenarioNodes, (n: Node) => n.id == currentNodeId)
    case Some(n) => n
    case None => ScenarioNodes[0]
  }

  /** The progress bar value, `(currentNodeId + 1) / nodes.length * 100`, in exact integers. */
  function Progress(currentNodeId: int): (p: int)
    ensures p == 20 * (currentNodeId + 1)
    ensures currentNodeId == |ScenarioNodes| - 1 ==> p == 100
  {
    (currentNodeId + 1) * 100 / |ScenarioNodes|
  }

  /** The ids a node can move to, by a choice or by its linear link; the exit sentinel is not a node. */
  function Successors(n: Node): seq<int> {
    match n.choices
    case Some(cs) => seq(|cs|, i requires 0 <= i < |cs| => cs[i].nextNode)
    case None =>
      match n.nextNode
      case Some(next) => if next == ExitSentinel then [] else [next]
      case None => []
  }

  // Visibility rules of the screen's controls.

  /** The choice buttons render iff the node has a `choices` field (an empty array is truthy too). */
  predicate ChoicesShown(n: Node) { n.choices.Some? }

  /** The next button renders iff the node has no `choices` and has a `nextNode`. */
  predicate NextShown(n: Node) { n.choices.None? && n.nextNode.Some? }

  function NextLabel(n: Node): string {
    if n.nextNode == Some(ExitSentinel) then "終了" else "次へ"
  }

  /** The footer with the running total renders iff the total is not zero. */
  predicate FooterShown(totalAffectionChange: int) { totalAffectionChange != 0 }

  /** A choice that the screen offers at the given node: one of its choice buttons. */
  predicate Offered(currentNodeId: int, c: Choice) {
    var n := CurrentNode(currentNodeId);
    n.choices.Some? && c in n.choices.value
  }

  // The run state and its transitions as values.

  datatype Run = Run(currentNodeId: int, totalAffectionChange: int, lastAffectionChange: int,
                     showAffectionChange: bool, pendingNext: Option<int>)

  function Start(): Run { Run(0, 0, 0, false, None) }

  /** The choice handler: book the change now, schedule the move. */
  function Choose(r: Run, c: Choice): Run {
    r.(lastAffectionChange := c.affectionChange,
       totalAffectionChange := r.totalAffectionChange + c.affectionChange,
       showAffectionChange := true,
       pendingNext := Some(c.nextNode))
  }

  /** The scheduled callback of the choice handler. */
  function Commit(r: Run): Run
    requires r.pendingNext.Some?
  {
    r.(showAffectionChange := false, currentNodeId := r.pendingNext.value, pendingNext := None)
  }

  /** The next handler; the boolean says whether it called `onBack` (left the screen). */
  function Next(r: Run): (Run, bool) {
    match CurrentNode(r.currentNodeId).nextNode
    case None => (r, false)
    case Some(next) => if next == ExitSentinel then (r, true) else (r.(currentNodeId := next), false)
  }

  /** One user or timer event of a run; `Leave` is a click on the header's back arrow. */
  datatype Event = Pick(index: nat) | Fire | Advance | Leave

  /**
   * The effect of one event: a click on the index-th choice button (only while no
   * move is pending and the button exists), the pending callback firing, a click
   * on the next button (only when it is shown), or a click on the back arrow,
   * which calls `onBack` at any node.  The boolean says whether the screen was left.
   */
  function Step(r: Run, e: Event): (Run, bool) {
    var n := CurrentNode(r.currentNodeId);
    match e
    case Pick(i) =>
      if r.pendingNext.None? && n.choices.Some? && i < |n.choices.value|
      then (Choose(r, n.choices.value[i]), false) else (r, false)
    case Fire => if r.pendingNext.Some? then (Commit(r), false) else (r, false)
    case Advance => if NextShown(n) then Next(r) else (r, false)
    case Leave => (r, true)
  }

  /**
   * The outcome of a sequence of events: the final state, whether the screen was
   * left, whether it was left through the 終了 button (rather than the back
   * arrow), and the node moves made.
   */
  datatype Trace = Trace(final: Run, exited: bool, finished: bool, moves: nat)

  function Play(r: Run, events: seq<Event>): Trace
    decreases |events|
  {
    if |events| == 0 then Trace(r, false, false, 0)
    else
      var (r1, exited) := Step(r, events[0]);
      if exited then Trace(r1, true, events[0].Advance?, 0)
      else
        var t := Play(r1, events[1..]);
        t.(moves := t.moves + if r1.currentNodeId != r.currentNodeId then 1 else 0)
  }

  /** Every state a run of this graph can be in. */
  const ReachableRuns: set<Run> := {
    Run(0, 0, 0, false, None),
    Run(0, 2, 2, true, Some(1)), Run(0, -1, -1, true, Some(2)),
    Run(1, 2, 2, false, None), Run(2, -1, -1, false, None),
    Run(1, 5, 3, true, Some(3)), Run(1, 4, 2, true, Some(3)),
    Run(3, 5, 3, false, None), Run(3, 4, 2, false, None),
    Run(4, 5, 3, false, None), Run(4, 4, 2, false, None), Run(4, -1, -1, false, None)
  }

  predicate Reachable(r: Run) { r in ReachableRuns }

  // Lemmas about the graph.

  lemma NodeIdsArePositions()
    ensures forall k :: 0 <= k < |ScenarioNodes| ==> ScenarioNodes[k].id == k
  {
  }

  /** Lookup: the node whose id matches, or the first node if no node matches. */
  lemma {:induction false} CurrentNodeLookup(currentNodeId: int)
    ensures 0 <= currentNodeId < |ScenarioNodes| ==> CurrentNode(currentNodeId) == ScenarioNodes[currentNodeId]
    ensures !(0 <= currentNodeId < |ScenarioNodes|) ==> CurrentNode(currentNodeId) == ScenarioNodes[0]
  {
    NodeIdsArePositions();
    if 0 <= currentNodeId < |ScenarioNodes| {
      FirstAt(ScenarioNodes, (n: Node) => n.id == currentNodeId, currentNodeId);
    }
  }

  /** Every edge of the graph leads to an existing node with a strictly larger id. */
  lemma EdgesIncrease(k: nat, j: nat)
    requires k < |ScenarioNodes| && j < |Successors(ScenarioNodes[k])|
    ensures ScenarioNodes[k].id < Successors(ScenarioNodes[k])[j] < |ScenarioNodes|
    ensures Progress(ScenarioNodes[k].id) < Progress(Successors(ScenarioNodes[k])[j])
  {
  }

  /** Node 4 is the only node without successors. */
  lemma TerminalNode(k: nat)
    requires k < |ScenarioNodes|
    ensures Successors(ScenarioNodes[k]) == [] <==> k == 4
  {
  }

  /** At every node exactly one kind of control is shown, and the next button reads 終了 only at node 4. */
  lemma ControlsAtEveryNode(k: nat)
    requires k < |ScenarioNodes|
    ensures ChoicesShown(ScenarioNodes[k]) != NextShown(ScenarioNodes[k])
    ensures NextShown(ScenarioNodes[k]) ==> (NextLabel(ScenarioNodes[k]) == "終了" <==> k == 4)
  {
  }

  // Lemmas about runs.

  lemma StartIsReachable()
    ensures Reachable(Start()) && Start().currentNodeId == 0 && Start().totalAffectionChange == 0
  {
  }

  /** The pending callback firing keeps the run reachable and moves forwards. */
  lemma FirePreservesReachable(r: Run)
    requires Reachable(r)
    ensures Reachable(Step(r, Fire).0) && !Step(r, Fire).1
    ensures r.currentNodeId <= Step(r, Fire).0.currentNodeId
  {
  }

  /** A click on the next button keeps the run reachable, moves forwards, and exits only at node 4. */
  lemma {:induction false} AdvancePreservesReachable(r: Run)
    requires Reachable(r)
    ensures Reachable(Step(r, Advance).0)
    ensures r.currentNodeId <= Step(r, Advance).0.currentNodeId
    ensures Step(r, Advance).1 ==> r.currentNodeId == 4 && Step(r, Advance).0 == r
  {
    CurrentNodeLookup(r.currentNodeId);
  }

  /** A click on a choice button keeps the run reachable and leaves the node where it is. */
  lemma {:induction false} PickPreservesReachable(r: Run, i: nat)
    requires Reachable(r)
    ensures Reachable(Step(r, Pick(i)).0) && !Step(r, Pick(i)).1
    ensures r.currentNodeId == Step(r, Pick(i)).0.currentNodeId
  {
    CurrentNodeLookup(r.currentNodeId);
  }

  /**
   * The running-total footer appears as soon as a choice has been booked and
   * stays from then on: no reachable state other than the start has a zero total.
   */
  lemma FooterShownOnceBooked(r: Run)
    requires Reachable(r)
    ensures FooterShown(r.totalAffectionChange) <==> r != Start()
  {
  }

  /** The back arrow leaves the screen at any node, with the state as it is. */
  lemma LeaveAnyTime(r: Run)
    ensures Step(r, Leave) == (r, true)
    ensures Play(r, [Leave]) == Trace(r, true, false, 0)
  {
  }

  /**
   * One event keeps the run reachable and never moves backwards; leaving the
   * screen changes nothing, and through the next button happens only at node 4.
   */
  lemma {:induction false} StepPreservesReachable(r: Run, e: Event)
    requires Reachable(r)
    ensures Reachable(Step(r, e).0)
    ensures r.currentNodeId <= Step(r, e).0.currentNodeId
    ensures Step(r, e).1 ==> Step(r, e).0 == r
    ensures Step(r, e).1 && e.Advance? ==> r.currentNodeId == 4
  {
    match e
    case Pick(i) => PickPreservesReachable(r, i);
    case Fire => FirePreservesReachable(r);
    case Advance => AdvancePreservesReachable(r);
    case Leave =>
  }

  /**
   * Any sequence of events from a reachable state stays reachable and makes no
   * more node moves than the ids it climbs; a run that ends through the 終了
   * button ends at node 4.
   */
  lemma {:induction false} PlayFromReachable(r: Run, events: seq<Event>)
    requires Reachable(r)
    ensures Reachable(Play(r, events).final)
    ensures Play(r, events).moves <= Play(r, events).final.currentNodeId - r.currentNodeId
    ensures Play(r, events).finished ==> Play(r, events).exited && Play(r, events).final.currentNodeId == 4
    decreases |events|
  {
    if |events| > 0 {
      StepPreservesReachable(r, events[0]);
      var (r1, exited) := Step(r, events[0]);
      if !exited {
        PlayFromReachable(r1, events[1..]);
      }
    }
  }

  /**
   * Any walk from the start makes at most 4 node moves.  One that ends through the
   * 終了 button ends at node 4 with a total change of 5, 4 or -1; one left by the
   * back arrow carries one of the totals booked on the way (0, 2, -1, 5 or 4).
   */
  lemma {:induction false} CompleteRunTotals(events: seq<Event>)
    ensures Play(Start(), events).moves <= 4
    ensures Play(Start(), events).finished ==>
              var total := Play(Start(), events).final.totalAffectionChange;
              total == 5 || total == 4 || total == -1
    ensures var total := Play(Start(), events).final.totalAffectionChange;
            total in {0, 2, -1, 5, 4}
  {
    PlayFromReachable(Start(), events);
  }

  /** +2 then +3: the first answer at both branching nodes gives a total of 5. */
  lemma WarmRunTotal()
    ensures var t := Play(Start(), [Pick(0), Fire, Pick(0), Fire, Advance, Advance]);
            t.finished && t.final.totalAffectionChange == 5 && t.moves == 3
  {
    FriendlyRun(0, Choice("私も楽しいよ", 3, 3));
  }

  /** +2 then +2: the second answer at node 1 gives a total of 4. */
  lemma PoliteRunTotal()
    ensures var t := Play(Start(), [Pick(0), Fire, Pick(1), Fire, Advance, Advance]);
            t.finished && t.final.totalAffectionChange == 4 && t.moves == 3
  {
    FriendlyRun(1, Choice("そう言ってくれて嬉しい", 2, 3));
  }

  /** A run that accepts at node 0 and then picks the i-th answer at node 1 books 2 plus that answer's change. */
  lemma FriendlyRun(i: nat, c: Choice)
    requires i < 2 && c == ScenarioNodes[1].choices.value[i]
    ensures var t := Play(Start(), [Pick(0), Fire, Pick(i), Fire, Advance, Advance]);
            t.finished && t.final.totalAffectionChange == 2 + c.affectionChange && t.moves == 3
  {
    var r1 := Choose(Start(), Choice("もちろん、何かな？", 2, 1));
    var r2 := Commit(r1);
    var r3 := Choose(r2, c);
    var r4 := Commit(r3);
    assert Step(Start(), Pick(0)) == (r1, false) by { CurrentNodeLookup(0); }
    assert Step(r1, Fire) == (r2, false);
    assert Step(r2, Pick(i)) == (r3, false) by { CurrentNodeLookup(1); }
    assert Step(r3, Fire) == (r4, false);
    FinishFromNode3(r4);
    var r5 := r4.(currentNodeId := 4);
    assert Play(r3, [Fire, Advance, Advance]) == Trace(r5, true, true, 2);
    assert Play(r2, [Pick(i), Fire, Advance, Advance]) == Trace(r5, true, true, 2);
    assert Play(r1, [Fire, Pick(i), Fire, Advance, Advance]) == Trace(r5, true, true, 3);
  }

  /** From node 3 the next button leads to node 4, whose 終了 button ends the run. */
  lemma FinishFromNode3(r: Run)
    requires r.currentNodeId == 3
    ensures Play(r, [Advance, Advance]) == Trace(r.(currentNodeId := 4), true, true, 1)
  {
    var r5 := r.(currentNodeId := 4);
    assert Step(r, Advance) == (r5, false) by { CurrentNodeLookup(3); }
    assert Step(r5, Advance) == (r5, true) by { CurrentNodeLookup(4); }
    assert Play(r5, [Advance]) == Trace(r5, true, true, 0);
  }

  /** -1 alone: declining at node 0 leads through node 2 and gives a total of -1. */
  lemma BusyRunTotal()
    ensures var t := Play(Start(), [Pick(1), Fire, Advance, Advance]);
            t.finished && t.final.totalAffectionChange == -1 && t.moves == 2
  {
    CurrentNodeLookup(0);
    CurrentNodeLookup(2);
    CurrentNodeLookup(4);
    var r1 := Choose(Start(), Choice("今は忙しいんだ", -1, 2));
    var r2 := Commit(r1);
    var r3 := r2.(currentNodeId := 4);
    assert Play(r3, [Advance]) == Trace(r3, true, true, 0);
    assert Play(r2, [Advance, Advance]) == Trace(r3, true, true, 1);
    assert Play(r1, [Fire, Advance, Advance]) == Trace(r3, true, true, 2);
  }

  /** The running screen state, as the component's four state hooks plus the pending callback. */
  class ScenarioRun {
    var currentNodeId: int
    var totalAffectionChange: int
    var lastAffectionChange: int
    var showAffectionChange: bool
    var pendingNext: Option<int>

    function State(): Run
      reads this
    {
      Run(currentNodeId, totalAffectionChange, lastAffectionChange, showAffectionChange, pendingNext)
    }

    ghost predicate Valid()
      reads this
    {
      Reachable(State())
    }

    /** A run starts at node 0 with no change booked. */
    constructor ()
      ensures Valid() && State() == Start()
      ensures currentNodeId == 0 && totalAffectionChange == 0 && lastAffectionChange == 0
      ensures !showAffectionChange && pendingNext == None
    {
      currentNodeId, totalAffectionChange, lastAffectionChange := 0, 0, 0;
      showAffectionChange, pendingNext := false, None;
    }

    /** A click on a choice button of the current node. */
    method HandleChoice(c: Choice)
      requires Valid() && pendingNext == None
      requires Offered(currentNodeId, c)
      modifies this
      ensures Valid() && State() == Choose(old(State()), c)
      ensures lastAffectionChange == c.affectionChange
      ensures totalAffectionChange == old(totalAffectionChange) + c.affectionChange
      ensures showAffectionChange && pendingNext == Some(c.nextNode)
      ensures currentNodeId == old(currentNodeId)
    {
      CurrentNodeLookup(currentNodeId);
      lastAffectionChange := c.affectionChange;
      totalAffectionChange := totalAffectionChange + c.affectionChange;
      showAffectionChange := true;
      pendingNext := Some(c.nextNode);
    }

    /** The delayed callback scheduled by `HandleChoice`. */
    method CompleteChoice()
      requires Valid() && pendingNext.Some?
      modifies this
      ensures Valid() && State() == Commit(old(State()))
      ensures currentNodeId == old(pendingNext.value) && !showAffectionChange && pendingNext == None
      ensures totalAffectionChange == old(totalAffectionChange)
      ensures lastAffectionChange == old(lastAffectionChange)
    {
      showAffectionChange := false;
      currentNodeId := pendingNext.value;
      pendingNext := None;
    }

    /** A click on the header's back arrow: `onBack` is called and the state stays as it is. */
    method HandleBack() returns (exited: bool)
      requires Valid()
      ensures Valid() && (State(), exited) == Step(State(), Leave)
      ensures exited
    {
      exited := true;
    }

    /** A click on the next button; `exited` says that `onBack` was called. */
    method HandleNext() returns (exited: bool)
      requires Valid()
      modifies this
      ensures Valid() && (State(), exited) == Next(old(State()))
      ensures CurrentNode(old(currentNodeId)).nextNode == None ==> !exited && State() == old(State())
      ensures CurrentNode(old(currentNodeId)).nextNode == Some(ExitSentinel) ==> exited && State() == old(State())
      ensures CurrentNode(old(currentNodeId)).nextNode.Some? && CurrentNode(old(currentNodeId)).nextNode != Some(ExitSentinel) ==>
                !exited && currentNodeId == CurrentNode(old(currentNodeId)).nextNode.value &&
                State() == old(State()).(currentNodeId := currentNodeId)
      ensures totalAffectionChange == old(totalAffectionChange)
      ensures exited ==> old(currentNodeId) == 4 && totalAffectionChange in {5, 4, -1}
    {
      CurrentNodeLookup(currentNodeId);
      var n := CurrentNode(currentNodeId);
      exited := false;
      if n.nextNode.Some? {
        if n.nextNode.value == ExitSentinel {
          exited := true;
        } else {
          currentNodeId := n.nextNode.value;
        }
      }
    }
  }
}
