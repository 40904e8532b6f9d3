/**
 * The scheduler screen: the schedule list that the toggle and delete handlers
 * replace, the lookup of the schedule shown in a time slot, the rule that
 * decides whether a slot shows a card, and the selected calendar date.
 */
module Scheduler {
  import opened Wrappers
  import opened Sequences

  datatype ScheduleType = PerformanceSchedule | ScenarioSchedule

  datatype Schedule = Schedule(id: string, enabled: bool, title: string, time: string,
                               days: seq<string>, kind: ScheduleType,
                               targetId: string, targetName: string)

  const EveryDay: seq<string> := ["月", "火", "水", "木", "金", "土", "日"]

  const SeededSchedules: seq<Schedule> := [
    Schedule("1", true, "おはよう", "07:30", EveryDay, PerformanceSchedule, "p1", "おはよう挨拶"),
    Schedule("2", true, "おやすみ", "22:00", EveryDay, PerformanceSchedule, "p7", "おやすみ挨拶"),
    Schedule("3", false, "週末シナリオ", "10:00", ["土", "日"], ScenarioSchedule, "s3", "休日のお出かけ")
  ]

  /** The day numbers under the seven weekday buttons. */
  const Dates: seq<int> := [4, 6, 8, 9, 10, 11, 12]

  const InitialSelectedDate: int := 9

  /** The rows of the day grid, as the strings they are compared with. */
  const TimeSlots: seq<string> :=
    ["7:00", "7:30", "8:00", "8:30", "9:00", "9:30", "10:00", "10:30", "11:00", "11:30", "12:00"]

  /** The list after the toggle handler: `enabled` flipped on every entry with the id. */
  function Toggled(schedules: seq<Schedule>, id: string): (r: seq<Schedule>)
    ensures |r| == |schedules|
    ensures forall k :: 0 <= k < |r| && schedules[k].id == id ==>
              r[k] == schedules[k].(enabled := !schedules[k].enabled)
    ensures forall k :: 0 <= k < |r| && schedules[k].id != id ==> r[k] == schedules[k]
  {
    if |schedules| == 0 then []
    else
      var s := schedules[0];
      [if s.id == id then s.(enabled := !s.enabled) else s] + Toggled(schedules[1..], id)
  }

  /** The list after the delete handler: every entry with the id removed, the rest in order. */
  function Deleted(schedules: seq<Schedule>, id: string): (r: seq<Schedule>)
    ensures forall k :: 0 <= k < |r| ==> r[k].id != id && r[k] in schedules
    ensures |r| <= |schedules|
  {
    Filter(schedules, (s: Schedule) => s.id != id)
  }

  /** The schedule shown in a time slot: the first entry whose time string equals the slot's. */
  function ScheduleAtTime(schedules: seq<Schedule>, time: string): (found: Option<Schedule>)
    ensures found.None? <==> forall k :: 0 <= k < |schedules| ==> schedules[k].time != time
    ensures found.Some? ==> found.value in schedules && found.value.time == time
  {
    First(schedules, (s: Schedule) => s.time == time)
  }

  /** A slot shows a card iff its schedule exists and is enabled. */
  predicate SlotShowsCard(schedules: seq<Schedule>, time: string) {
    match ScheduleAtTime(schedules, time)
    case Some(s) => s.enabled
    case None => false
  }

  // Lemmas about the list operations.

  /** Toggling keeps every other field of every entry, and only ever touches entries with the id. */
  lemma ToggledKeepsOtherFields(schedules: seq<Schedule>, id: string, k: nat)
    requires k < |schedules|
    ensures Toggled(schedules, id)[k].(enabled := schedules[k].enabled) == schedules[k]
    ensures Toggled(schedules, id)[k].enabled != schedules[k].enabled <==> schedules[k].id == id
  {
  }

  /** Toggling the same id twice restores the original list. */
  lemma ToggleTwice(schedules: seq<Schedule>, id: string)
    ensures Toggled(Toggled(schedules, id), id) == schedules
  {
  }

  /**
   * The deleted list holds exactly the entries whose id differs, every copy of
   * each of them, in their original order.
   */
  lemma DeletedContents(schedules: seq<Schedule>, id: string)
    ensures forall s :: s in Deleted(schedules, id) <==> s in schedules && s.id != id
    ensures forall s :: multiset(Deleted(schedules, id))[s] == if s.id != id then multiset(schedules)[s] else 0
    ensures IsSubsequence(Deleted(schedules, id), schedules)
  {
    var r := Deleted(schedules, id);
    FilterIsSubsequence(schedules, (s: Schedule) => s.id != id);
    FilterCounts(schedules, (s: Schedule) => s.id != id);
    forall s | s in r ensures s in schedules && s.id != id {
      var k :| 0 <= k < |r| && r[k] == s;
    }
    forall s | s in schedules && s.id != id ensures s in r {
      var k :| 0 <= k < |schedules| && schedules[k] == s;
    }
  }

  /** Deleting an id no entry has leaves the list as it is. */
  lemma DeleteAbsent(schedules: seq<Schedule>, id: string)
    requires forall k :: 0 <= k < |schedules| ==> schedules[k].id != id
    ensures Deleted(schedules, id) == schedules
  {
    FilterKeepsAll(schedules, (s: Schedule) => s.id != id);
  }

  /** Deleting the same id twice is deleting it once. */
  lemma DeleteTwice(schedules: seq<Schedule>, id: string)
    ensures Deleted(Deleted(schedules, id), id) == Deleted(schedules, id)
  {
    FilterIdempotent(schedules, (s: Schedule) => s.id != id);
  }

  /** The slot lookup picks the entry at the first index whose time matches exactly. */
  lemma ScheduleAtTimeIsFirst(schedules: seq<Schedule>, time: string, k: nat)
    requires k < |schedules| && schedules[k].time == time
    requires forall j :: 0 <= j < k ==> schedules[j].time != time
    ensures ScheduleAtTime(schedules, time) == Some(schedules[k])
    ensures SlotShowsCard(schedules, time) <==> schedules[k].enabled
  {
    FirstAt(schedules, (s: Schedule) => s.time == time, k);
  }

  /** A slot with no entry of exactly that time string shows nothing. */
  lemma SlotWithoutMatch(schedules: seq<Schedule>, time: string)
    requires forall k :: 0 <= k < |schedules| ==> schedules[k].time != time
    ensures ScheduleAtTime(schedules, time) == None && !SlotShowsCard(schedules, time)
  {
  }

  /** A disabled first entry hides a later enabled entry with the same time. */
  lemma DisabledFirstMatchHides()
    ensures var a := Schedule("a", false, "", "9:00", [], PerformanceSchedule, "", "");
            var b := Schedule("b", true, "", "9:00", [], PerformanceSchedule, "", "");
            !SlotShowsCard([a, b], "9:00") && SlotShowsCard([b, a], "9:00")
  {
    var a := Schedule("a", false, "", "9:00", [], PerformanceSchedule, "", "");
    var b := Schedule("b", true, "", "9:00", [], PerformanceSchedule, "", "");
    ScheduleAtTimeIsFirst([a, b], "9:00", 0);
    ScheduleAtTimeIsFirst([b, a], "9:00", 0);
  }

  /**
   * Times are compared as raw strings: the seeded "07:30" never meets the slot
   * "7:30", "22:00" is not a slot, and the seeded "10:00" entry is disabled, so
   * the seeded grid shows no card at all until entry "3" is switched on, which
   * no control on the screen does (the toggle handler is never called).
   */
  lemma SeededGrid()
    ensures "07:30" !in TimeSlots && "7:30" in TimeSlots && "22:00" !in TimeSlots
    ensures forall k :: 0 <= k < |TimeSlots| ==> !SlotShowsCard(SeededSchedules, TimeSlots[k])
    ensures SlotShowsCard(Toggled(SeededSchedules, "3"), "10:00")
  {
    forall k | 0 <= k < |TimeSlots| ensures !SlotShowsCard(SeededSchedules, TimeSlots[k]) {
      if TimeSlots[k] == "10:00" {
        ScheduleAtTimeIsFirst(SeededSchedules, "10:00", 2);
      } else {
        SlotWithoutMatch(SeededSchedules, TimeSlots[k]);
      }
    }
    ScheduleAtTimeIsFirst(Toggled(SeededSchedules, "3"), "10:00", 2);
  }

  /** The screen's state: the schedule list and the selected calendar date. */
  class SchedulerScreen {
    var schedules: seq<Schedule>
    var selectedDate: int

    constructor ()
      ensures schedules == SeededSchedules && selectedDate == InitialSelectedDate
    {
      schedules := SeededSchedules;
      selectedDate := InitialSelectedDate;
    }

    method ToggleSchedule(id: string)
      modifies this
      ensures schedules == Toggled(old(schedules), id)
      ensures selectedDate == old(selectedDate)
    {
      schedules := Toggled(schedules, id);
    }

    method DeleteSchedule(id: string)
      modifies this
      ensures schedules == Deleted(old(schedules), id)
      ensures selectedDate == old(selectedDate)
    {
      schedules := Deleted(schedules, id);
    }

    /** A click on the weekday button at `index`. */
    method SelectDate(index: nat)
      requires index < |Dates|
      modifies this
      ensures selectedDate == Dates[index]
      ensures schedules == old(schedules)
    {
      selectedDate := Dates[index];
    }

    /** The weekday button at `index` is highlighted iff its date is the selected one. */
    predicate IsHighlighted(index: nat)
      requires index < |Dates|
      reads this
    {
      selectedDate == Dates[index]
    }
  }
}
