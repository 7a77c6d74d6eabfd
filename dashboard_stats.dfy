/** The dashboard's statistic cards: counts by status, completion rate, and the next deadlines. */
module DashboardStats {
  import opened Schema
  import opened ClientTasks
  import Lists
  import Sorting
  import Percent

  function CountStatus(tasks: seq<ClientTask>, s: Status): nat {
    |Lists.Filter(tasks, (t: ClientTask) => t.status == s)|
  }

  /** With the three statuses of the enum, the three counts add up to the total. */
  lemma {:induction false} StatusCountsSum(tasks: seq<ClientTask>)
    ensures CountStatus(tasks, Completed) + CountStatus(tasks, InProgress) + CountStatus(tasks, Pending) == |tasks|
  {
    if tasks != [] {
      StatusCountsSum(tasks[1..]);
    }
  }

  /** The percentage of completed tasks, 0 for an empty list. */
  function CompletionRate(tasks: seq<ClientTask>): (r: real)
    ensures 0.0 <= r <= 100.0
    ensures |tasks| == 0 ==> r == 0.0
    ensures r == 100.0 <==> |tasks| > 0 && forall i :: 0 <= i < |tasks| ==> tasks[i].status == Completed
  {
    Lists.FilterFull(tasks, (t: ClientTask) => t.status == Completed);
    Percent.Percentage(CountStatus(tasks, Completed), |tasks|)
  }

  /** Seven days in milliseconds. */
  const Week: int := 7 * 24 * 60 * 60 * 1000

  /** Not completed, dated, and due after now and at most a week from now. */
  predicate Upcoming(t: ClientTask, now: int, parseDate: string -> int) {
    t.status != Completed && !Undated(t) && now < parseDate(t.dueDate.value) <= now + Week
  }

  function DueTime(t: ClientTask, parseDate: string -> int): int {
    if t.dueDate.Some? then parseDate(t.dueDate.value) else 0
  }

  function ByDueTime(parseDate: string -> int): (ClientTask, ClientTask) -> int {
    (a: ClientTask, b: ClientTask) => DueTime(a, parseDate) - DueTime(b, parseDate)
  }

  function Min(a: int, b: int): int {
    if a <= b then a else b
  }

  /** `upcomingDeadlines`: the upcoming tasks by due time, at most five. */
  function UpcomingDeadlines(tasks: seq<ClientTask>, now: int, parseDate: string -> int): seq<ClientTask> {
    var sorted := Sorting.Sort(Lists.Filter(tasks, (t: ClientTask) => Upcoming(t, now, parseDate)), ByDueTime(parseDate));
    sorted[..Min(5, |sorted|)]
  }

  /** The deadlines shown are upcoming tasks of the list, ordered by due time, five of them unless fewer are upcoming. */
  lemma UpcomingDeadlinesShape(tasks: seq<ClientTask>, now: int, parseDate: string -> int)
    ensures var r := UpcomingDeadlines(tasks, now, parseDate);
      var eligible := Lists.Filter(tasks, (t: ClientTask) => Upcoming(t, now, parseDate));
      && |r| == Min(5, |eligible|)
      && (forall i :: 0 <= i < |r| ==> Upcoming(r[i], now, parseDate) && r[i] in tasks)
      && Sorting.Sorted(r, ByDueTime(parseDate))
      && multiset(r) <= multiset(eligible)
  {
    var eligible := Lists.Filter(tasks, (t: ClientTask) => Upcoming(t, now, parseDate));
    var s := Sorting.Sort(eligible, ByDueTime(parseDate));
    Sorting.SortIsOrderedPermutation(eligible, ByDueTime(parseDate));
    var r := s[..Min(5, |s|)];
    Sorting.SortedPrefix(s, Min(5, |s|), ByDueTime(parseDate));
    forall i | 0 <= i < |r| ensures Upcoming(r[i], now, parseDate) && r[i] in tasks {
      assert r[i] in multiset(s);
      assert r[i] in eligible;
    }
  }

  /** No upcoming task left out of the five is due earlier than one shown. */
  lemma UpcomingDeadlinesEarliest(tasks: seq<ClientTask>, now: int, parseDate: string -> int)
    ensures var r := UpcomingDeadlines(tasks, now, parseDate);
      var eligible := Lists.Filter(tasks, (t: ClientTask) => Upcoming(t, now, parseDate));
      forall i, x :: 0 <= i < |r| && x in multiset(eligible) - multiset(r) ==>
        DueTime(r[i], parseDate) <= DueTime(x, parseDate)
  {
    var eligible := Lists.Filter(tasks, (t: ClientTask) => Upcoming(t, now, parseDate));
    var s := Sorting.Sort(eligible, ByDueTime(parseDate));
    Sorting.SortIsOrderedPermutation(eligible, ByDueTime(parseDate));
    Sorting.SortedPrefixComesFirst(s, Min(5, |s|), ByDueTime(parseDate));
  }
}
