/**
 * The small calendar of the task page. Days are compared through `toDateString`, given
 * here as `dayOf`, which maps a stored due date to the local day it falls on.
 */
module TaskCalendar {
  import opened Options
  import opened Schema
  import opened ClientTasks
  import Lists
  import CalendarDays

  predicate OnDay(t: ClientTask, day: string, dayOf: string -> string) {
    !Undated(t) && dayOf(t.dueDate.value) == day
  }

  /** `getTasksForDate` for the tile whose day string is `day`. */
  function TasksForDay(tasks: seq<ClientTask>, day: string, dayOf: string -> string): (r: seq<ClientTask>)
    ensures forall i :: 0 <= i < |r| ==> OnDay(r[i], day, dayOf) && r[i] in tasks
    ensures forall j :: 0 <= j < |tasks| && !Undated(tasks[j]) && dayOf(tasks[j].dueDate.value) == day ==> tasks[j] in r
  {
    Lists.Filter(tasks, (t: ClientTask) => OnDay(t, day, dayOf))
  }

  /** `renderTileContent`: nothing for a day without tasks, otherwise one dot per priority present. */
  function TileContent(tasks: seq<ClientTask>, day: string, dayOf: string -> string): (r: Option<seq<Priority>>)
    ensures r.None? <==> |TasksForDay(tasks, day, dayOf)| == 0
    ensures r.Some? ==> 1 <= |r.value| <= 3 && r.value == CalendarDays.Dots(TasksForDay(tasks, day, dayOf))
  {
    var onDay := TasksForDay(tasks, day, dayOf);
    if |onDay| == 0 then None
    else
      CalendarDays.DotsOfNonEmpty(onDay);
      Some(CalendarDays.Dots(onDay))
  }
}
