/**
 * The task list component: a title search and two sort buttons, by priority or by due
 * date, over the stored task rows.
 */
module TaskList {
  import opened Options
  import opened Schema
  import Sorting
  import Lists
  import Text

  datatype SortKey = PriorityKey | DateKey
  datatype SortOrder = Asc | Desc
  datatype SortState = SortState(key: SortKey, order: SortOrder)

  /** The list opens sorted by date, ascending. */
  const InitialSort := SortState(DateKey, Asc)

  /** `handleSortByPriority` and `handleSortByDate`: flip on the current key, otherwise switch and reset to ascending. */
  function NextSort(s: SortState, k: SortKey): (n: SortState)
    ensures n.key == k
    ensures k == s.key ==> n.order != s.order
    ensures k != s.key ==> n.order == Asc
  {
    if k == s.key then SortState(k, if s.order == Asc then Desc else Asc) else SortState(k, Asc)
  }

  lemma SortClicks(s: SortState, k: SortKey)
    ensures k == s.key ==> NextSort(NextSort(s, k), k) == s
    ensures k != s.key ==> NextSort(NextSort(s, k), s.key) == SortState(s.key, Asc)
  {
  }

  class SortControl {
    var sortBy: SortKey
    var sortOrder: SortOrder

    function State(): SortState
      reads this
    {
      SortState(sortBy, sortOrder)
    }

    constructor ()
      ensures State() == InitialSort
    {
      sortBy := DateKey;
      sortOrder := Asc;
    }

    method HandleSortByPriority()
      modifies this
      ensures State() == NextSort(old(State()), PriorityKey)
    {
      if sortBy == PriorityKey {
        sortOrder := if sortOrder == Asc then Desc else Asc;
      } else {
        sortBy := PriorityKey;
        sortOrder := Asc;
      }
    }

    method HandleSortByDate()
      modifies this
      ensures State() == NextSort(old(State()), DateKey)
    {
      if sortBy == DateKey {
        sortOrder := if sortOrder == Asc then Desc else Asc;
      } else {
        sortBy := DateKey;
        sortOrder := Asc;
      }
    }
  }

  /** Only the title is searched. */
  predicate Matches(t: Task, query: string, lower: string -> string) {
    Text.Contains(lower(t.title), lower(query))
  }

  /** The description plays no part in the search. */
  lemma DescriptionIgnored(t: Task, d: Option<string>, query: string, lower: string -> string)
    ensures Matches(t.(description := d), query, lower) == Matches(t, query, lower)
  {
  }

  function PriorityRank(p: Priority): int {
    match p
    case Low => 0
    case Medium => 1
    case High => 2
  }

  /** A missing due date counts as time 0. */
  function DueTime(t: Task): int {
    if t.dueDate.Some? then t.dueDate.value else 0
  }

  function Compare(s: SortState, a: Task, b: Task): int {
    if s.key == PriorityKey then
      var diff := PriorityRank(a.priority) - PriorityRank(b.priority);
      if s.order == Asc then diff else -diff
    else
      if s.order == Asc then DueTime(a) - DueTime(b) else DueTime(b) - DueTime(a)
  }

  function Comparator(s: SortState): (Task, Task) -> int {
    (a: Task, b: Task) => Compare(s, a, b)
  }

  lemma DescNegatesAsc(k: SortKey, a: Task, b: Task)
    ensures Compare(SortState(k, Desc), a, b) == -Compare(SortState(k, Asc), a, b)
  {
  }

  lemma ComparatorOrders(s: SortState)
    ensures Sorting.TotalPreorder(Comparator(s))
  {
  }

  /** `filteredAndSortedTasks`. */
  function FilteredAndSorted(tasks: seq<Task>, query: string, s: SortState, lower: string -> string): seq<Task> {
    Sorting.Sort(Lists.Filter(tasks, t => Matches(t, query, lower)), Comparator(s))
  }

  /** The list shows exactly the tasks whose title matches, each as often as in the input, in the chosen order. */
  lemma FilteredAndSortedSpec(tasks: seq<Task>, query: string, s: SortState, lower: string -> string)
    ensures var r := FilteredAndSorted(tasks, query, s, lower);
      && multiset(r) == multiset(Lists.Filter(tasks, t => Matches(t, query, lower)))
      && (forall i :: 0 <= i < |r| ==> Matches(r[i], query, lower) && r[i] in tasks)
      && (forall j :: 0 <= j < |tasks| && Matches(tasks[j], query, lower) ==> tasks[j] in r)
      && Sorting.Sorted(r, Comparator(s))
  {
    var kept := Lists.Filter(tasks, t => Matches(t, query, lower));
    ComparatorOrders(s);
    Sorting.SortIsOrderedPermutation(kept, Comparator(s));
    var r := FilteredAndSorted(tasks, query, s, lower);
    forall i | 0 <= i < |r| ensures Matches(r[i], query, lower) && r[i] in tasks {
      assert r[i] in multiset(kept);
    }
    forall j | 0 <= j < |tasks| && Matches(tasks[j], query, lower) ensures tasks[j] in r {
      assert tasks[j] in multiset(r);
    }
  }

  /**
   * Sorted by date ascending, an undated task never follows a task due after time 0;
   * descending, it never precedes one.
   */
  lemma UndatedPlacement(tasks: seq<Task>, query: string, order: SortOrder, lower: string -> string)
    ensures var r := FilteredAndSorted(tasks, query, SortState(DateKey, order), lower);
      order == Asc ==> forall i, j :: 0 <= i < j < |r| && r[i].dueDate.Some? && r[i].dueDate.value > 0 ==> r[j].dueDate.Some?
    ensures var r := FilteredAndSorted(tasks, query, SortState(DateKey, order), lower);
      order == Desc ==> forall i, j :: 0 <= i < j < |r| && r[j].dueDate.Some? && r[j].dueDate.value > 0 ==> r[i].dueDate.Some?
  {
    FilteredAndSortedSpec(tasks, query, SortState(DateKey, order), lower);
  }
}
