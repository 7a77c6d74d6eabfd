/**
 * The month calendar with a popover per day: clicking a day with tasks opens that day's
 * popover, clicking an empty day opens the add-task dialog instead. Dates are their
 * ISO timestamps.
 */
module Calendar {
  import opened Options
  import opened Schema
  import opened ClientTasks
  import CalendarDays

  /** `getTasksForDate`. */
  function TasksForDate(tasks: seq<ClientTask>, date: string): seq<ClientTask> {
    CalendarDays.TasksOnKey(tasks, CalendarDays.DateKey(date))
  }

  /** A tile: nothing outside the month view, a hollow marker for a day without tasks, otherwise one dot per task. */
  datatype Tile = NoContent | EmptyMarker | TaskDots(dots: seq<Priority>, open: bool)

  /** The priorities of the tasks, one per task, in order. */
  function Priorities(tasks: seq<ClientTask>): (r: seq<Priority>)
    ensures |r| == |tasks|
    ensures forall i :: 0 <= i < |r| ==> r[i] == tasks[i].priority
  {
    seq(|tasks|, i requires 0 <= i < |tasks| => tasks[i].priority)
  }

  /** The state the calendar keeps. */
  class CalendarState {
    var selectedDate: Option<string>
    var openPopoverDate: Option<string>
    var isAddingTask: bool

    constructor ()
      ensures selectedDate.None? && openPopoverDate.None? && !isAddingTask
    {
      selectedDate := None;
      openPopoverDate := None;
      isAddingTask := false;
    }

    /** The popover of the tile for `date` is open exactly when the open date has the same date part. */
    predicate IsOpen(date: string)
      reads this
    {
      openPopoverDate.Some? && CalendarDays.DateKey(openPopoverDate.value) == CalendarDays.DateKey(date)
    }

    /** `tileClassName`: the tile of the selected day is highlighted. */
    predicate IsHighlighted(date: string)
      reads this
    {
      selectedDate.Some? && CalendarDays.DateKey(selectedDate.value) == CalendarDays.DateKey(date)
    }

    /** `handleAddTask`: select the date, close every popover, open the add-task dialog. */
    method HandleAddTask(date: string)
      modifies this
      ensures selectedDate == Some(date) && openPopoverDate.None? && isAddingTask
      ensures forall d :: !IsOpen(d)
    {
      selectedDate := Some(date);
      openPopoverDate := None;
      isAddingTask := true;
    }

    /** `handleDateClick`: select the date; open its popover when it has tasks, the add-task dialog otherwise. */
    method HandleDateClick(date: string, tasks: seq<ClientTask>)
      modifies this
      ensures selectedDate == Some(date) && IsHighlighted(date)
      ensures |TasksForDate(tasks, date)| == 0 ==> openPopoverDate.None? && isAddingTask
      ensures |TasksForDate(tasks, date)| > 0 ==>
                openPopoverDate == Some(date) && IsOpen(date) && isAddingTask == old(isAddingTask)
    {
      selectedDate := Some(date);
      if |TasksForDate(tasks, date)| == 0 {
        HandleAddTask(date);
      } else {
        openPopoverDate := Some(date);
      }
    }

    /** A click on a tile's dots toggles that tile's popover. */
    method HandleDotsClick(date: string)
      modifies this
      ensures old(IsOpen(date)) ==> openPopoverDate.None? && !IsOpen(date)
      ensures !old(IsOpen(date)) ==> openPopoverDate == Some(date) && IsOpen(date)
      ensures selectedDate == old(selectedDate) && isAddingTask == old(isAddingTask)
    {
      openPopoverDate := if IsOpen(date) then None else Some(date);
    }

    /** The popover asks to open or close itself. */
    method HandleOpenChange(open: bool, date: string)
      modifies this
      ensures openPopoverDate == (if open then Some(date) else None)
      ensures selectedDate == old(selectedDate) && isAddingTask == old(isAddingTask)
    {
      if open {
        openPopoverDate := Some(date);
      } else {
        openPopoverDate := None;
      }
    }

    /** `renderTileContent`. */
    function TileContent(view: string, date: string, tasks: seq<ClientTask>): (t: Tile)
      reads this
      ensures view != "month" <==> t.NoContent?
      ensures t.EmptyMarker? <==> view == "month" && |TasksForDate(tasks, date)| == 0
      ensures t.TaskDots? ==> |t.dots| == |TasksForDate(tasks, date)| > 0 && (t.open <==> IsOpen(date))
      ensures t.TaskDots? ==> t.dots == Priorities(TasksForDate(tasks, date))
    {
      if view != "month" then NoContent
      else
        var onDate := TasksForDate(tasks, date);
        if |onDate| > 0 then TaskDots(Priorities(onDate), IsOpen(date)) else EmptyMarker
    }
  }
}
