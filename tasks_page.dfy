/**
 * The task table page: a search box filtering on title and description, column headers
 * that sort by title, priority, status or due date, and a status toggle per row.
 */
module TasksPage {
  import opened Options
  import opened Schema
  import opened ClientTasks
  import Sorting
  import Lists
  import Text
  import Http
  import TasksRoute

  datatype SortField = ByTitle | ByPriority | ByStatus | ByDueDate
  datatype SortOrder = Asc | Desc
  datatype SortState = SortState(field: SortField, order: SortOrder)

  /** The page opens sorted by due date, ascending. */
  const InitialSort := SortState(ByDueDate, Asc)

  function Flip(o: SortOrder): SortOrder {
    if o == Asc then Desc else Asc
  }

  /** `handleSort`: the current column flips its order; another column becomes current, ascending. */
  function NextSort(s: SortState, f: SortField): (n: SortState)
    ensures n.field == f
    ensures f == s.field ==> n.order != s.order
    ensures f != s.field ==> n.order == Asc
  {
    if f == s.field then SortState(f, Flip(s.order)) else SortState(f, Asc)
  }

  /** Two clicks on the current column restore the order; a click on another column then the first does not flip it back. */
  lemma SortClicks(s: SortState, f: SortField)
    ensures f == s.field ==> NextSort(NextSort(s, f), f) == s
    ensures f != s.field ==> NextSort(NextSort(s, f), s.field) == SortState(s.field, Asc)
  {
  }

  /** The page's sort state. */
  class SortControl {
    var sortField: SortField
    var sortOrder: SortOrder

    function State(): SortState
      reads this
    {
      SortState(sortField, sortOrder)
    }

    constructor ()
      ensures State() == InitialSort
    {
      sortField := ByDueDate;
      sortOrder := Asc;
    }

    method HandleSort(field: SortField)
      modifies this
      ensures State() == NextSort(old(State()), field)
    {
      if field == sortField {
        sortOrder := if sortOrder == Asc then Desc else Asc;
      } else {
        sortField := field;
        sortOrder := Asc;
      }
    }
  }

  /** `handleToggleStatus`: a completed task goes back to pending, any other is completed. */
  function ToggledStatus(s: Status): (r: Status)
    ensures r == Pending <==> s == Completed
    ensures r == Completed <==> s != Completed
  {
    if s == Completed then Pending else Completed
  }

  /** Toggling twice restores pending and completed tasks, but sends an in-progress task to pending. */
  lemma ToggleTwice(s: Status)
    ensures ToggledStatus(ToggledStatus(s)) == s <==> s != InProgress
    ensures s == InProgress ==> ToggledStatus(ToggledStatus(s)) == Pending
  {
  }

  /** The body of the PUT request the toggle sends. */
  function ToggleBody(t: ClientTask): map<string, Http.Json> {
    map["id" := Http.JNumber(t.id), "status" := Http.JString(StatusName(ToggledStatus(t.status)))]
  }

  /** The PUT endpoint accepts the toggle request of any task with a non-zero id, and it sets exactly the status. */
  lemma ToggleBodyAccepted(t: ClientTask)
    requires t.id != 0
    ensures TasksRoute.BodyId(ToggleBody(t)) == Some(Http.JNumber(t.id))
    ensures TasksRoute.ParseTaskData(ToggleBody(t) - {"id"}, true)
            == Some(TasksRoute.TaskData(None, None, None, Some(ToggledStatus(t.status)), None, None))
  {
    var rest := ToggleBody(t) - {"id"};
    assert rest == map["status" := Http.JString(StatusName(ToggledStatus(t.status)))];
    StatusLiterals("", ToggledStatus(t.status));
    assert TasksRoute.StatusField(rest, "status") == TasksRoute.Valid(ToggledStatus(t.status));
  }

  /** The search: the lower-cased query occurs in the lower-cased title or description. */
  predicate Matches(t: ClientTask, query: string, lower: string -> string) {
    || Text.Contains(lower(t.title), lower(query))
    || (t.description.Some? && Text.Contains(lower(t.description.value), lower(query)))
  }

  /** With an empty query every task is shown. */
  lemma EmptyQueryKeepsAll(tasks: seq<ClientTask>, lower: string -> string)
    requires lower("") == ""
    ensures Lists.Filter(tasks, t => Matches(t, "", lower)) == tasks
  {
    forall t | t in tasks ensures Matches(t, "", lower) {
      Text.ContainsEmpty(lower(t.title));
    }
    Lists.FilterKeepsAll(tasks, t => Matches(t, "", lower));
  }

  function PriorityRank(p: Priority): int {
    match p
    case High => 3
    case Medium => 2
    case Low => 1
  }

  function StatusRank(s: Status): int {
    match s
    case Completed => 2
    case InProgress => 1
    case Pending => 0
  }

  function Direction(o: SortOrder): int {
    if o == Asc then 1 else -1
  }

  /**
   * The comparator of the table. Dates come from `parseDate`, titles are compared by
   * `localeCompare`; an undated task is placed after the dated ones in the ascending order.
   */
  function Compare(field: SortField, order: SortOrder, localeCompare: (string, string) -> int,
                   parseDate: string -> int, a: ClientTask, b: ClientTask): int {
    var o := Direction(order);
    match field
    case ByDueDate =>
      if Undated(a) && Undated(b) then 0
      else if Undated(a) then o
      else if Undated(b) then -o
      else o * (parseDate(a.dueDate.value) - parseDate(b.dueDate.value))
    case ByPriority => o * (PriorityRank(a.priority) - PriorityRank(b.priority))
    case ByStatus => o * (StatusRank(a.status) - StatusRank(b.status))
    case ByTitle => o * localeCompare(a.title, b.title)
  }

  function Comparator(field: SortField, order: SortOrder, localeCompare: (string, string) -> int,
                      parseDate: string -> int): (ClientTask, ClientTask) -> int {
    (a: ClientTask, b: ClientTask) => Compare(field, order, localeCompare, parseDate, a, b)
  }

  /** The descending comparator is the exact negation of the ascending one. */
  lemma DescNegatesAsc(field: SortField, lc: (string, string) -> int, parseDate: string -> int, a: ClientTask, b: ClientTask)
    ensures Compare(field, Desc, lc, parseDate, a, b) == -Compare(field, Asc, lc, parseDate, a, b)
  {
  }

  /** What `localeCompare` is taken to be: an antisymmetric total preorder on strings. */
  ghost predicate StringOrder(lc: (string, string) -> int) {
    && (forall x, y :: lc(x, y) == -lc(y, x))
    && (forall x, y, z :: lc(x, y) <= 0 && lc(y, z) <= 0 ==> lc(x, z) <= 0)
  }

  lemma AscendingOrders(field: SortField, lc: (string, string) -> int, parseDate: string -> int)
    requires field == ByTitle ==> StringOrder(lc)
    ensures Sorting.TotalPreorder(Comparator(field, Asc, lc, parseDate))
    ensures Sorting.Antisymmetric(Comparator(field, Asc, lc, parseDate))
  {
  }

  /** Every column's comparator, in either order, is a total preorder, so the sorted table is well defined. */
  lemma ComparatorOrders(field: SortField, order: SortOrder, lc: (string, string) -> int, parseDate: string -> int)
    requires field == ByTitle ==> StringOrder(lc)
    ensures Sorting.TotalPreorder(Comparator(field, order, lc, parseDate))
  {
    AscendingOrders(field, lc, parseDate);
    if order == Desc {
      forall a, b ensures Comparator(field, Desc, lc, parseDate)(a, b) == -Comparator(field, Asc, lc, parseDate)(a, b) {
        DescNegatesAsc(field, lc, parseDate, a, b);
      }
      Sorting.Reversed(Comparator(field, Asc, lc, parseDate), Comparator(field, Desc, lc, parseDate));
    }
  }

  /** `filteredAndSortedTasks`. */
  function FilteredAndSorted(tasks: seq<ClientTask>, query: string, s: SortState, lower: string -> string,
                             lc: (string, string) -> int, parseDate: string -> int): seq<ClientTask> {
    Sorting.Sort(Lists.Filter(tasks, t => Matches(t, query, lower)), Comparator(s.field, s.order, lc, parseDate))
  }

  /** The table shows exactly the matching tasks, each as often as in the input, in the column's order. */
  lemma FilteredAndSortedSpec(tasks: seq<ClientTask>, query: string, s: SortState, lower: string -> string,
                              lc: (string, string) -> int, parseDate: string -> int)
    requires s.field == ByTitle ==> StringOrder(lc)
    ensures var r := FilteredAndSorted(tasks, query, s, lower, lc, parseDate);
      && multiset(r) == multiset(Lists.Filter(tasks, t => Matches(t, query, lower)))
      && (forall i :: 0 <= i < |r| ==> Matches(r[i], query, lower) && r[i] in tasks)
      && (forall j :: 0 <= j < |tasks| && Matches(tasks[j], query, lower) ==> tasks[j] in r)
      && Sorting.Sorted(r, Comparator(s.field, s.order, lc, parseDate))
  {
    var kept := Lists.Filter(tasks, t => Matches(t, query, lower));
    ComparatorOrders(s.field, s.order, lc, parseDate);
    Sorting.SortIsOrderedPermutation(kept, Comparator(s.field, s.order, lc, parseDate));
    var r := FilteredAndSorted(tasks, query, s, lower, lc, parseDate);
    forall i | 0 <= i < |r| ensures Matches(r[i], query, lower) && r[i] in tasks {
      assert r[i] in multiset(kept);
    }
    forall j | 0 <= j < |tasks| && Matches(tasks[j], query, lower) ensures tasks[j] in r {
      assert tasks[j] in multiset(r);
    }
  }

  /** Sorted by due date ascending, no undated task comes before a dated one; descending, none comes after. */
  lemma UndatedPlacement(tasks: seq<ClientTask>, query: string, order: SortOrder, lower: string -> string,
                         lc: (string, string) -> int, parseDate: string -> int)
    ensures var r := FilteredAndSorted(tasks, query, SortState(ByDueDate, order), lower, lc, parseDate);
      order == Asc ==> forall i, j :: 0 <= i < j < |r| && Undated(r[i]) ==> Undated(r[j])
    ensures var r := FilteredAndSorted(tasks, query, SortState(ByDueDate, order), lower, lc, parseDate);
      order == Desc ==> forall i, j :: 0 <= i < j < |r| && Undated(r[j]) ==> Undated(r[i])
  {
    FilteredAndSortedSpec(tasks, query, SortState(ByDueDate, order), lower, lc, parseDate);
  }
}
