/** The `(part / whole) * 100` ratios the progress bars and statistics display. */
module Percent {
  /** `whole > 0 ? (part / whole) * 100 : 0`, on exact reals. */
  function Percentage(part: nat, whole: nat): (r: real)
    requires part <= whole
    ensures 0.0 <= r <= 100.0
    ensures whole == 0 ==> r == 0.0
    ensures r == 100.0 <==> whole > 0 && part == whole
    ensures r > 0.0 <==> part > 0
  {
    if whole > 0 then
      QuotientBounds(part, whole);
      (part as real / whole as real) * 100.0
    else 0.0
  }

  lemma QuotientBounds(part: nat, whole: nat)
    requires 0 < whole && part <= whole
    ensures 0.0 <= part as real / whole as real <= 1.0
    ensures part as real / whole as real == 1.0 <==> part == whole
    ensures part as real / whole as real > 0.0 <==> part > 0
  {
    var q := part as real / whole as real;
    assert q * whole as real == part as real;
    if part == whole {
      assert (q - 1.0) * whole as real == 0.0;
    }
    if q == 1.0 {
      assert part as real == whole as real;
    }
    if q == 0.0 {
      assert part as real == 0.0;
    }
  }
}
