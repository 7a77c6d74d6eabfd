/** The project card: task count label, completion progress and its badge colour. */
module ProjectCard {
  import opened Options
  import opened Schema
  import opened ClientTasks
  import Lists
  import Percent

  /** `project.tasks?.length || 0`: no attached list counts as none. */
  function TotalTasks(tasks: Option<seq<ClientTask>>): (n: nat)
    ensures tasks.None? ==> n == 0
    ensures tasks.Some? ==> n == |tasks.value|
  {
    if tasks.Some? then |tasks.value| else 0
  }

  function CompletedTasks(tasks: Option<seq<ClientTask>>): (n: nat)
    ensures n <= TotalTasks(tasks)
  {
    if tasks.Some? then |Lists.Filter(tasks.value, (t: ClientTask) => t.status == Completed)| else 0
  }

  predicate AllCompleted(tasks: Option<seq<ClientTask>>) {
    tasks.Some? && |tasks.value| > 0 && forall i :: 0 <= i < |tasks.value| ==> tasks.value[i].status == Completed
  }

  predicate SomeCompleted(tasks: Option<seq<ClientTask>>) {
    tasks.Some? && exists i :: 0 <= i < |tasks.value| && tasks.value[i].status == Completed
  }

  /** The completion percentage: 100 exactly when every attached task is completed, above 0 exactly when one is. */
  function Progress(tasks: Option<seq<ClientTask>>): (r: real)
    ensures 0.0 <= r <= 100.0
    ensures TotalTasks(tasks) == 0 ==> r == 0.0
    ensures r == 100.0 <==> AllCompleted(tasks)
    ensures r > 0.0 <==> SomeCompleted(tasks)
  {
    CompletedCounts(tasks);
    Percent.Percentage(CompletedTasks(tasks), TotalTasks(tasks))
  }

  lemma CompletedCounts(tasks: Option<seq<ClientTask>>)
    ensures CompletedTasks(tasks) == TotalTasks(tasks) > 0 <==> AllCompleted(tasks)
    ensures CompletedTasks(tasks) > 0 <==> SomeCompleted(tasks)
  {
    if tasks.Some? {
      Lists.FilterFull(tasks.value, (t: ClientTask) => t.status == Completed);
      Lists.FilterEmpty(tasks.value, (t: ClientTask) => t.status == Completed);
    }
  }

  datatype BadgeColour = Green | Blue | Grey

  function Badge(progress: real): BadgeColour {
    if progress == 100.0 then Green else if progress > 0.0 then Blue else Grey
  }

  /** Green when all attached tasks are completed, blue when some but not all are, grey when none is. */
  lemma BadgeMeaning(tasks: Option<seq<ClientTask>>)
    ensures Badge(Progress(tasks)) == Green <==> AllCompleted(tasks)
    ensures Badge(Progress(tasks)) == Blue <==> SomeCompleted(tasks) && !AllCompleted(tasks)
    ensures Badge(Progress(tasks)) == Grey <==> !SomeCompleted(tasks)
  {
    if AllCompleted(tasks) {
      assert tasks.value[0].status == Completed;
    }
  }

  /** The count badge's noun. */
  function TaskLabel(total: nat): (noun: string)
    ensures noun == "task" <==> total == 1
    ensures noun != "task" ==> noun == "tasks"
  {
    if total == 1 then "task" else "tasks"
  }
}
