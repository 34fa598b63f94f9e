/** Front-end grid helpers: the take-profit ladder generator, its validator,
    and the level rows of a new grid (guards, count and per-row flags). */
module GridUtils {
  import opened Common

  /** One ladder step: the percentage at which it triggers and the share of the position it sells. */
  datatype Ladder = Ladder(key: int, level: int, percentage: real, portion: real, editable: bool)

  // ---- generation ----

  /** `Math.floor(100 / n)` for a positive count. */
  function DefaultPortion(n: int): int
    requires n >= 1
  {
    100 / n
  }

  /** The ladder step `i` of an `n`-step ladder: every portion is the default
      share except the last, which takes what is left of 100. */
  function LadderStep(n: int, i: int): Ladder
    requires 0 <= i < n
  {
    var portion := if i == n - 1 then 100 - (n - 1) * DefaultPortion(n) else DefaultPortion(n);
    Ladder(i, i + 1, (5 + i * 5) as real, portion as real, true)
  }

  /** The generated ladder as a value. */
  function Ladders(n: int): (r: seq<Ladder>)
    ensures |r| == if n < 0 then 0 else n
  {
    if n <= 0 then [] else seq(n, i requires 0 <= i < n => LadderStep(n, i))
  }

  function TotalPortion(ls: seq<Ladder>): real
  {
    if ls == [] then 0.0 else TotalPortion(ls[..|ls| - 1]) + ls[|ls| - 1].portion
  }

  /** The ladder of `n` steps, built step by step with the running remainder. */
  method GenerateGridLevelLadders(n: int) returns (ladders: seq<Ladder>)
    ensures ladders == Ladders(n)
  {
    ladders := [];
    if n <= 0 {
      return;
    }
    var defaultPortion := 100 / n;
    var remaining := 100;
    var i := 0;
    while i < n
      invariant 0 <= i <= n
      invariant i < n ==> remaining == 100 - i * defaultPortion
      invariant ladders == seq(i, k requires 0 <= k < i => LadderStep(n, k))
    {
      var portion := if i == n - 1 then remaining else defaultPortion;
      remaining := remaining - portion;
      ladders := ladders + [Ladder(i, i + 1, (5 + i * 5) as real, portion as real, true)];
      i := i + 1;
    }
  }

  /** The profit ladder generator repeats the same construction. */
  method GenerateProfitLadders(n: int) returns (ladders: seq<Ladder>)
    ensures ladders == Ladders(n)
  {
    ladders := GenerateGridLevelLadders(n);
  }

  /** The generated ladder has one step per level, levels from 1, percentages
      5, 10, 15, ..., equal default portions before the last, and the
      portions add up to 100. */
  lemma LadderShape(n: int)
    requires n >= 1
    ensures |Ladders(n)| == n
    ensures forall i :: 0 <= i < n ==> Ladders(n)[i].level == i + 1 && Ladders(n)[i].percentage == (5 + 5 * i) as real
    ensures forall i :: 0 <= i < n - 1 ==> Ladders(n)[i].portion == (100 / n) as real
    ensures TotalPortion(Ladders(n)) == 100.0
  {
    var d := DefaultPortion(n);
    forall j | 0 <= j <= n - 1
      ensures TotalPortion(Ladders(n)[..j]) == (j * d) as real
    {
      DefaultPrefixTotal(n, j);
    }
    assert Ladders(n)[..n] == Ladders(n);
    assert Ladders(n)[..n][..n - 1] == Ladders(n)[..n - 1];
  }

  lemma {:induction false} DefaultPrefixTotal(n: int, j: int)
    requires 1 <= n && 0 <= j <= n - 1
    ensures TotalPortion(Ladders(n)[..j]) == (j * DefaultPortion(n)) as real
  {
    if j > 0 {
      DefaultPrefixTotal(n, j - 1);
      var d := DefaultPortion(n);
      var prefix := Ladders(n)[..j];
      assert prefix[..j - 1] == Ladders(n)[..j - 1];
      assert prefix[j - 1].portion == d as real;
      assert j * d == (j - 1) * d + d;
    }
  }

  // ---- validation ----

  /** The validator's verdict; the failure texts are rendered from these cases. */
  datatype LadderVerdict = Valid | Empty | NotIncreasing(at: int) | PortionTotal(total: real)

  /** The first position whose percentage does not exceed its predecessor's, from `from` on. */
  function FirstNotIncreasing(ls: seq<Ladder>, from: int): (r: Option<int>)
    requires 1 <= from
    ensures r.None? ==> forall k :: from <= k < |ls| ==> ls[k].percentage > ls[k - 1].percentage
    ensures r.Some? ==>
      && from <= r.value < |ls| && ls[r.value].percentage <= ls[r.value - 1].percentage
      && forall k :: from <= k < r.value ==> ls[k].percentage > ls[k - 1].percentage
    decreases |ls| - from
  {
    if from >= |ls| then None
    else if ls[from].percentage <= ls[from - 1].percentage then Some(from)
    else FirstNotIncreasing(ls, from + 1)
  }

  /** The verdict on a ladder list (`None` is a missing list). */
  function Verdict(ladders: Option<seq<Ladder>>): LadderVerdict
  {
    if ladders.None? || ladders.value == [] then Empty
    else match FirstNotIncreasing(ladders.value, 1)
      case Some(i) => NotIncreasing(i)
      case None => if TotalPortion(ladders.value) != 100.0 then PortionTotal(TotalPortion(ladders.value)) else Valid
  }

  /** A list passes exactly when it is present and non-empty, its percentages
      strictly increase, and its portions add up to 100. */
  lemma VerdictMeaning(ladders: Option<seq<Ladder>>)
    ensures Verdict(ladders) == Valid <==>
      && ladders.Some? && ladders.value != []
      && (forall k :: 1 <= k < |ladders.value| ==> ladders.value[k].percentage > ladders.value[k - 1].percentage)
      && TotalPortion(ladders.value) == 100.0
    ensures Verdict(ladders).NotIncreasing? ==>
      && ladders.Some?
      && 1 <= Verdict(ladders).at < |ladders.value|
      && ladders.value[Verdict(ladders).at].percentage <= ladders.value[Verdict(ladders).at - 1].percentage
      && forall k :: 1 <= k < Verdict(ladders).at ==> ladders.value[k].percentage > ladders.value[k - 1].percentage
  {
    if ladders.Some? && ladders.value != [] && FirstNotIncreasing(ladders.value, 1).Some? {
      var i := FirstNotIncreasing(ladders.value, 1).value;
      assert !(ladders.value[i].percentage > ladders.value[i - 1].percentage);
    }
  }

  /** The validator: the emptiness guard, a scan for the first step that does
      not increase, then the portion total. */
  method ValidateGridLevelLadders(ladders: Option<seq<Ladder>>) returns (v: LadderVerdict)
    ensures v == Verdict(ladders)
  {
    if ladders.None? || |ladders.value| == 0 {
      return Empty;
    }
    var ls := ladders.value;
    var i := 1;
    while i < |ls|
      invariant 1 <= i <= |ls|
      invariant FirstNotIncreasing(ls, 1) == FirstNotIncreasing(ls, i)
    {
      if ls[i].percentage <= ls[i - 1].percentage {
        return NotIncreasing(i);
      }
      i := i + 1;
    }
    var total := 0.0;
    var k := 0;
    while k < |ls|
      invariant 0 <= k <= |ls|
      invariant total == TotalPortion(ls[..k])
    {
      assert ls[..k + 1][..k] == ls[..k];
      total := total + ls[k].portion;
      k := k + 1;
    }
    assert ls[..k] == ls;
    if total != 100.0 {
      return PortionTotal(total);
    }
    return Valid;
  }

  /** Every generated ladder passes the validator. */
  lemma GeneratedLaddersValid(n: int)
    requires n >= 1
    ensures Verdict(Some(Ladders(n))) == Valid
  {
    LadderShape(n);
    VerdictMeaning(Some(Ladders(n)));
  }

  // ---- grid level rows ----

  /** A row of a new grid, without its float price range and price status. */
  datatype GridRow = GridRow(
    key: string,
    level: int,
    openSpacing: int,
    reboundRatio: real,
    takeProfitRatio: real,
    takeProfitReboundRatio: real,
    size: int,
    enabled: bool,
    editable: bool)

  /** The rows of a new grid: none when the bounds are not ordered or there are
      fewer than two grids, otherwise `gridCount + 1` rows numbered from 0 in
      which only the two end rows are disabled with no open spacing. */
  method GenerateGridLevels(upperPrice: real, lowerPrice: real, gridCount: int) returns (levels: seq<GridRow>)
    ensures upperPrice <= lowerPrice || gridCount < 2 <==> levels == []
    ensures levels != [] ==> |levels| == gridCount + 1
    ensures forall i :: 0 <= i < |levels| ==>
      && levels[i].level == i
      && levels[i].key == "level-" + NatText(i)
      && (levels[i].enabled <==> 0 < i < gridCount)
      && levels[i].openSpacing == (if levels[i].enabled then 1 else 0)
      && levels[i].reboundRatio == (if i == 0 then 0.0 else 0.5)
      && levels[i].takeProfitRatio == (if i == gridCount then 0.0 else 1.0)
      && levels[i].takeProfitReboundRatio == 0.3 && levels[i].size == 1 && levels[i].editable
  {
    levels := [];
    if upperPrice <= lowerPrice {
      return;
    }
    if gridCount < 2 {
      return;
    }
    var i := 0;
    while i <= gridCount
      invariant 0 <= i <= gridCount + 1
      invariant |levels| == i
      invariant forall k :: 0 <= k < i ==>
        && levels[k].level == k
        && levels[k].key == "level-" + NatText(k)
        && (levels[k].enabled <==> 0 < k < gridCount)
        && levels[k].openSpacing == (if levels[k].enabled then 1 else 0)
        && levels[k].reboundRatio == (if k == 0 then 0.0 else 0.5)
        && levels[k].takeProfitRatio == (if k == gridCount then 0.0 else 1.0)
        && levels[k].takeProfitReboundRatio == 0.3 && levels[k].size == 1 && levels[k].editable
    {
      var reboundRatio := if i == 0 then 0.0 else 0.5;
      var takeProfitRatio := if i == gridCount then 0.0 else 1.0;
      var row := GridRow("level-" + NatText(i), i, if i == 0 || i == gridCount then 0 else 1,
        reboundRatio, takeProfitRatio, 0.3, 1, i != 0 && i != gridCount, true);
      levels := levels + [row];
      i := i + 1;
    }
  }
}
