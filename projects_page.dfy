/** The projects page: per-project task statistics computed from the task list. */
module ProjectsPage {
  import opened Options
  import opened Schema
  import opened ClientTasks
  import Lists
  import Percent

  datatype ProjectStats = ProjectStats(totalTasks: nat, completedTasks: nat, progress: real, upcomingTasks: nat)

  predicate InProject(t: ClientTask, projectId: int) {
    t.projectId == Some(projectId)
  }

  /** Not completed, dated, and due after now. */
  predicate UpcomingTask(t: ClientTask, now: int, parseDate: string -> int) {
    t.status != Completed && !Undated(t) && parseDate(t.dueDate.value) > now
  }

  function ProjectTasks(tasks: seq<ClientTask>, projectId: int): seq<ClientTask> {
    Lists.Filter(tasks, (t: ClientTask) => InProject(t, projectId))
  }

  /** The statistics of a project whose tasks are `pt`. */
  function StatsOf(pt: seq<ClientTask>, now: int, parseDate: string -> int): (r: ProjectStats)
    ensures r.totalTasks == |pt|
    ensures r.completedTasks <= r.totalTasks
    ensures r.upcomingTasks + r.completedTasks <= r.totalTasks
    ensures 0.0 <= r.progress <= 100.0
    ensures r.totalTasks == 0 ==> r.progress == 0.0
    ensures r.progress == 100.0 <==> |pt| > 0 && forall i :: 0 <= i < |pt| ==> pt[i].status == Completed
    ensures r.progress > 0.0 <==> exists i :: 0 <= i < |pt| && pt[i].status == Completed
    ensures r.completedTasks == 0 <==> forall i :: 0 <= i < |pt| ==> pt[i].status != Completed
    ensures r.upcomingTasks == 0 <==> forall i :: 0 <= i < |pt| ==> !UpcomingTask(pt[i], now, parseDate)
  {
    var isCompleted := (t: ClientTask) => t.status == Completed;
    var isUpcoming := (t: ClientTask) => UpcomingTask(t, now, parseDate);
    Lists.FilterFull(pt, isCompleted);
    Lists.FilterEmpty(pt, isCompleted);
    Lists.FilterEmpty(pt, isUpcoming);
    Lists.DisjointFilters(pt, isCompleted, isUpcoming);
    var completed := |Lists.Filter(pt, isCompleted)|;
    ProjectStats(|pt|, completed, Percent.Percentage(completed, |pt|), |Lists.Filter(pt, isUpcoming)|)
  }

  /** `getProjectStats`: the statistics of the tasks whose project is `projectId`. */
  function GetProjectStats(tasks: seq<ClientTask>, projectId: int, now: int, parseDate: string -> int): (r: ProjectStats)
    ensures r.completedTasks <= r.totalTasks
    ensures r.upcomingTasks + r.completedTasks <= r.totalTasks
    ensures 0.0 <= r.progress <= 100.0
    ensures r.totalTasks == |ProjectTasks(tasks, projectId)|
    ensures r.progress == 100.0 <==>
              |ProjectTasks(tasks, projectId)| > 0 &&
              forall i :: 0 <= i < |ProjectTasks(tasks, projectId)| ==> ProjectTasks(tasks, projectId)[i].status == Completed
    ensures r.progress > 0.0 <==>
              exists i :: 0 <= i < |ProjectTasks(tasks, projectId)| && ProjectTasks(tasks, projectId)[i].status == Completed
    ensures r.upcomingTasks == 0 <==>
              forall i :: 0 <= i < |ProjectTasks(tasks, projectId)| ==> !UpcomingTask(ProjectTasks(tasks, projectId)[i], now, parseDate)
  {
    StatsOf(ProjectTasks(tasks, projectId), now, parseDate)
  }

  /** The project's tasks grow by one task exactly when that task belongs to the project. */
  lemma ProjectTasksAppend(tasks: seq<ClientTask>, t: ClientTask, projectId: int)
    ensures ProjectTasks(tasks + [t], projectId)
            == ProjectTasks(tasks, projectId) + (if InProject(t, projectId) then [t] else [])
  {
    Lists.FilterAppend(tasks, t, (t: ClientTask) => InProject(t, projectId));
  }

  /**
   * The three counts count the project's tasks: one more task in the list adds one to the total
   * exactly when it belongs to the project, one to the completed count exactly when it also is
   * completed, and one to the upcoming count exactly when it also is upcoming.
   */
  lemma TotalCountsProjectTasks(tasks: seq<ClientTask>, t: ClientTask, projectId: int, now: int, parseDate: string -> int)
    ensures GetProjectStats([], projectId, now, parseDate) == ProjectStats(0, 0, 0.0, 0)
    ensures var before := GetProjectStats(tasks, projectId, now, parseDate);
      var after := GetProjectStats(tasks + [t], projectId, now, parseDate);
      && after.totalTasks == before.totalTasks + (if InProject(t, projectId) then 1 else 0)
      && after.completedTasks == before.completedTasks + (if InProject(t, projectId) && t.status == Completed then 1 else 0)
      && after.upcomingTasks == before.upcomingTasks + (if InProject(t, projectId) && UpcomingTask(t, now, parseDate) then 1 else 0)
  {
    var pt := ProjectTasks(tasks, projectId);
    ProjectTasksAppend(tasks, t, projectId);
    if InProject(t, projectId) {
      Lists.FilterAppend(pt, t, (t: ClientTask) => t.status == Completed);
      Lists.FilterAppend(pt, t, (t: ClientTask) => UpcomingTask(t, now, parseDate));
    } else {
      assert ProjectTasks(tasks + [t], projectId) == pt;
    }
  }

  /** A project with no task in the list has no completed or upcoming task and zero progress. */
  lemma EmptyProject(tasks: seq<ClientTask>, projectId: int, now: int, parseDate: string -> int)
    requires forall i :: 0 <= i < |tasks| ==> !InProject(tasks[i], projectId)
    ensures GetProjectStats(tasks, projectId, now, parseDate) == ProjectStats(0, 0, 0.0, 0)
  {
    Lists.FilterEmpty(tasks, (t: ClientTask) => InProject(t, projectId));
  }
}
