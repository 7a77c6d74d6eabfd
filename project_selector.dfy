/**
 * The project drop-down: the selected project id travels as the item's string value,
 * "none" standing for no project.
 */
module ProjectSelector {
  import opened Options
  import Schema
  import Decimal

  /** What `onProjectSelect` receives: null, a number, or NaN when the value has no leading integer. */
  datatype Selection = NoProject | ProjectId(id: int) | NotANumber

  const NoneValue := "none"

  /** `selectedProjectId?.toString() ?? "none"`. */
  function Encode(selected: Option<int>): string {
    if selected.Some? then Decimal.ToDecimal(selected.value) else NoneValue
  }

  /** `value === "none" ? null : parseInt(value, 10)`. */
  function Decode(value: string): Selection {
    if value == NoneValue then NoProject
    else
      var n := Decimal.ParseInt(value);
      if n.Some? then ProjectId(n.value) else NotANumber
  }

  /** No id is written "none". */
  lemma DecimalIsNotNone(n: int)
    ensures Decimal.ToDecimal(n) != NoneValue
  {
    var m := if n < 0 then -n else n;
    var ds := Decimal.Digits(m);
    assert Decimal.IsDigit(ds[0]);
    if n < 0 {
      assert Decimal.ToDecimal(n)[0] == '-';
    } else {
      assert Decimal.ToDecimal(n)[0] == ds[0];
    }
  }

  /** Decoding the value of a selection gives that selection back. */
  lemma DecodeEncode(selected: Option<int>)
    ensures Decode(Encode(selected)) == if selected.Some? then ProjectId(selected.value) else NoProject
  {
    if selected.Some? {
      DecimalIsNotNone(selected.value);
      Decimal.ParseToDecimal(selected.value);
    }
  }

  /** The values of the items: "none" first, then one per project in the given order. */
  function ItemValues(projects: seq<Schema.Project>): (r: seq<string>)
    ensures |r| == |projects| + 1 && r[0] == NoneValue
    ensures forall i :: 0 <= i < |projects| ==> r[i + 1] == Decimal.ToDecimal(projects[i].id)
  {
    [NoneValue] + seq(|projects|, i requires 0 <= i < |projects| => Decimal.ToDecimal(projects[i].id))
  }

  /** Choosing an item selects its project, or no project for the first; the current selection has its item. */
  lemma ItemsDecode(projects: seq<Schema.Project>, i: int)
    requires 0 <= i < |projects|
    ensures Decode(ItemValues(projects)[0]) == NoProject
    ensures Decode(ItemValues(projects)[i + 1]) == ProjectId(projects[i].id)
    ensures Encode(Some(projects[i].id)) == ItemValues(projects)[i + 1]
    ensures Encode(None) == ItemValues(projects)[0]
  {
    DecodeEncode(Some(projects[i].id));
  }

  /** Projects with distinct ids have distinct items, none of them the "none" item. */
  lemma ItemsDistinct(projects: seq<Schema.Project>, i: int, j: int)
    requires 0 <= i < j < |projects| && projects[i].id != projects[j].id
    ensures ItemValues(projects)[i + 1] != ItemValues(projects)[j + 1]
    ensures ItemValues(projects)[i + 1] != ItemValues(projects)[0]
  {
    Decimal.ToDecimalInjective(projects[i].id, projects[j].id);
    DecimalIsNotNone(projects[i].id);
  }
}
