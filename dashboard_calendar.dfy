/** The dashboard calendar: priority dots per day and the list of the selected day's tasks. */
module DashboardCalendar {
  import opened Options
  import opened Schema
  import opened ClientTasks
  import CalendarDays

  /** `getTasksForDate`. */
  function TasksForDate(tasks: seq<ClientTask>, date: string): seq<ClientTask> {
    CalendarDays.TasksOnKey(tasks, CalendarDays.DateKey(date))
  }

  /** `renderTileContent`: no content for a day without tasks, otherwise one to three priority dots. */
  function TileContent(tasks: seq<ClientTask>, date: string): (r: Option<seq<Priority>>)
    ensures r.None? <==> |TasksForDate(tasks, date)| == 0
    ensures r.Some? ==> 1 <= |r.value| <= 3 && r.value == CalendarDays.Dots(TasksForDate(tasks, date))
  {
    var onDate := TasksForDate(tasks, date);
    if |onDate| == 0 then None
    else
      CalendarDays.DotsOfNonEmpty(onDate);
      Some(CalendarDays.Dots(onDate))
  }

  /** `selectedTasks`: nothing when no date is selected. */
  function SelectedTasks(tasks: seq<ClientTask>, selectedDate: Option<string>): (r: seq<ClientTask>)
    ensures selectedDate.None? ==> r == []
  {
    if selectedDate.Some? then TasksForDate(tasks, selectedDate.value) else []
  }

  /** `tileClassName`: the tile of the selected day is highlighted. */
  predicate IsSelectedTile(selectedDate: Option<string>, date: string) {
    selectedDate.Some? && CalendarDays.DateKey(selectedDate.value) == CalendarDays.DateKey(date)
  }

  /** The list beside the calendar holds the highlighted tile's tasks, and that tile shows dots exactly when the list is not empty. */
  lemma SelectedTileShowsSelectedTasks(tasks: seq<ClientTask>, selectedDate: Option<string>, date: string)
    requires IsSelectedTile(selectedDate, date)
    ensures SelectedTasks(tasks, selectedDate) == TasksForDate(tasks, date)
    ensures TileContent(tasks, date).Some? <==> |SelectedTasks(tasks, selectedDate)| > 0
  {
  }
}
