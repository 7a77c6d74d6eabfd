/**
 * What the three calendars share: bucketing tasks by the day of their due date, and
 * the per-priority counts behind the coloured dots on a day's tile.
 */
module CalendarDays {
  import opened Schema
  import opened ClientTasks
  import Lists
  import Text

  /** `iso.split('T')[0]`: the date part of an ISO timestamp. */
  function DateKey(iso: string): string {
    Text.BeforeFirst(iso, 'T')
  }

  /** The date part of `date + "T" + time` is `date`. */
  lemma DateKeyOfTimestamp(date: string, time: string)
    requires 'T' !in date
    ensures DateKey(date + "T" + time) == date
  {
    Text.BeforeFirstOfJoin(date, 'T', time);
  }

  /** A task is due on the day `key` when it has a due date whose date part is `key`. */
  predicate DueOn(t: ClientTask, key: string) {
    !Undated(t) && DateKey(t.dueDate.value) == key
  }

  /** `getTasksForDate` of the dashboard and the popover calendar, for the date part `key`. */
  function TasksOnKey(tasks: seq<ClientTask>, key: string): seq<ClientTask> {
    Lists.Filter(tasks, (t: ClientTask) => DueOn(t, key))
  }

  /** Each dated task falls on one day only; an undated task on none. */
  lemma OneDayPerTask(t: ClientTask, k1: string, k2: string)
    ensures DueOn(t, k1) && DueOn(t, k2) ==> k1 == k2
    ensures Undated(t) ==> !DueOn(t, k1)
  {
  }

  function CountPriority(tasks: seq<ClientTask>, p: Priority): nat {
    |Lists.Filter(tasks, (t: ClientTask) => t.priority == p)|
  }

  /** The high, medium and low counts add up to the number of tasks, so none exceeds it. */
  lemma {:induction false} PriorityCountsSum(tasks: seq<ClientTask>)
    ensures CountPriority(tasks, High) + CountPriority(tasks, Medium) + CountPriority(tasks, Low) == |tasks|
  {
    if tasks != [] {
      PriorityCountsSum(tasks[1..]);
    }
  }

  /** Whether a dot shows for each priority of a day: one per priority with a task, in the order high, medium, low. */
  function DotsOf(high: nat, medium: nat, low: nat): (r: seq<Priority>)
    ensures |r| <= 3
    ensures High in r <==> high > 0
    ensures Medium in r <==> medium > 0
    ensures Low in r <==> low > 0
    ensures forall i, j :: 0 <= i < j < |r| ==> r[i] != r[j]
  {
    (if high > 0 then [High] else []) + (if medium > 0 then [Medium] else []) + (if low > 0 then [Low] else [])
  }

  /** The dots of a day's tile: red (high), yellow (medium), blue (low). */
  function Dots(tasks: seq<ClientTask>): seq<Priority> {
    DotsOf(CountPriority(tasks, High), CountPriority(tasks, Medium), CountPriority(tasks, Low))
  }

  /** A day with tasks shows at least one dot. */
  lemma DotsOfNonEmpty(tasks: seq<ClientTask>)
    requires |tasks| > 0
    ensures |Dots(tasks)| >= 1
  {
    PriorityCountsSum(tasks);
  }
}
