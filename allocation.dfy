/**
 * The arithmetic of the "Calculate & Adjust" action: the raw batch's total
 * cost is spread over the parts in proportion to their base subtotals
 * (quantity times current unit cost); every part but the last gets its
 * rounded proportional share and the last part absorbs the remainder.
 */
module AllocationEngine {
  import opened Wrappers
  import opened Rounding
  import opened Catalog

  /** A division by zero: the base subtotals sum to zero, or a part has no quantity. */
  datatype AllocError = DivisionByZero

  /** The differences shown before the reallocation: batch minus parts. */
  datatype Diagnostics = Diagnostics(qtyDiff: real, costDiff: real)

  /** A part as first tallied: its quantity and its base subtotal. */
  datatype PartLine = PartLine(part: Part, qty: real, base: real)

  /** One line of the result table. */
  datatype PartResult = PartResult(
    name: string, materialId: string, qty: real, base: real, adjTotal: real, adjCost: real)

  /** The sum of `xs`, added up from the left. */
  function Sum(xs: seq<real>): real
  {
    if xs == [] then 0.0 else Sum(xs[..|xs| - 1]) + xs[|xs| - 1]
  }

  /** A part's base subtotal: its quantity at its current unit cost. */
  function BaseSubtotal(qty: real, unitCost: real): real
  {
    qty * unitCost
  }

  /** Each part with its quantity and base subtotal, in catalog order. */
  function Tally(parts: seq<Part>, qtys: seq<real>, unitCosts: seq<real>): (lines: seq<PartLine>)
    requires |parts| == |qtys| == |unitCosts|
    ensures |lines| == |parts|
    ensures forall i :: 0 <= i < |parts| ==>
              lines[i] == PartLine(parts[i], qtys[i], BaseSubtotal(qtys[i], unitCosts[i]))
  {
    seq(|parts|, i requires 0 <= i < |parts| => PartLine(parts[i], qtys[i], BaseSubtotal(qtys[i], unitCosts[i])))
  }

  /** The quantities of `lines`. */
  function Quantities(lines: seq<PartLine>): (qtys: seq<real>)
    ensures |qtys| == |lines|
    ensures forall i :: 0 <= i < |lines| ==> qtys[i] == lines[i].qty
  {
    seq(|lines|, i requires 0 <= i < |lines| => lines[i].qty)
  }

  /** The base subtotals of `lines`. */
  function Bases(lines: seq<PartLine>): (bases: seq<real>)
    ensures |bases| == |lines|
    ensures forall i :: 0 <= i < |lines| ==> bases[i] == lines[i].base
  {
    seq(|lines|, i requires 0 <= i < |lines| => lines[i].base)
  }

  /** The factor by which the raw cost scales the base subtotals. */
  function Ratio(rawCost: real, bases: seq<real>): real
    requires Sum(bases) != 0.0
  {
    rawCost / Sum(bases)
  }

  /** A part's exact proportional share of the raw cost. */
  function ExactShare(base: real, ratio: real): real
  {
    base * ratio
  }

  /** A part's proportional share of the raw cost, rounded to cents. */
  function Share(base: real, ratio: real): (share: real)
    ensures IsCents(share)
    ensures -0.005 <= share - ExactShare(base, ratio) <= 0.005
  {
    Round2(ExactShare(base, ratio))
  }

  /** The proportional shares of the first `k` parts. */
  function Shares(bases: seq<real>, ratio: real, k: nat): (shares: seq<real>)
    requires k <= |bases|
    ensures |shares| == k
    ensures forall i :: 0 <= i < k ==> shares[i] == Share(bases[i], ratio)
  {
    seq(k, i requires 0 <= i < k => Share(bases[i], ratio))
  }

  /** The last part's subtotal: what remains of the raw cost after the others, rounded to cents. */
  function Remainder(rawCost: real, others: seq<real>): (rest: real)
    ensures IsCents(rest)
    ensures -0.005 <= Sum(others) + rest - rawCost <= 0.005
  {
    Round2(rawCost - Sum(others))
  }

  /**
   * The adjusted subtotals: the proportional share for every part but the
   * last, and for the last the remainder of the raw cost.
   */
  function AdjustedTotals(rawCost: real, bases: seq<real>): (totals: seq<real>)
    requires |bases| > 0 && Sum(bases) != 0.0
    ensures |totals| == |bases|
    ensures forall i :: 0 <= i < |bases| - 1 ==> totals[i] == Share(bases[i], Ratio(rawCost, bases))
  {
    var others := Shares(bases, Ratio(rawCost, bases), |bases| - 1);
    others + [Remainder(rawCost, others)]
  }

  /** A part's adjusted unit cost: its adjusted subtotal per unit of quantity, rounded to cents. */
  function AdjustedCost(total: real, qty: real): (cost: real)
    requires qty != 0.0
    ensures IsCents(cost)
    ensures -0.005 <= cost - total / qty <= 0.005
  {
    Round2(total / qty)
  }

  /** Every quantity is non-zero, so each adjusted unit cost can be divided out. */
  predicate NoZeroQuantity(lines: seq<PartLine>)
  {
    forall i :: 0 <= i < |lines| ==> lines[i].qty != 0.0
  }

  /** A part's line of the result table, given its adjusted subtotal. */
  function ResultLine(line: PartLine, total: real): PartResult
    requires line.qty != 0.0
  {
    PartResult(line.part.name, line.part.materialId, line.qty, line.base, total, AdjustedCost(total, line.qty))
  }

  /** The result table: each part's line with its adjusted subtotal and unit cost. */
  function Table(lines: seq<PartLine>, totals: seq<real>): (table: seq<PartResult>)
    requires |lines| == |totals| && NoZeroQuantity(lines)
    ensures |table| == |lines|
    ensures forall i :: 0 <= i < |lines| ==> table[i] == ResultLine(lines[i], totals[i])
  {
    seq(|lines|, i requires 0 <= i < |lines| => ResultLine(lines[i], totals[i]))
  }

  /** The reallocation of the tallied parts, or the division by zero it hits. */
  function Reallocation(rawCost: real, lines: seq<PartLine>): (r: Result<seq<PartResult>, AllocError>)
    requires |lines| > 0
    ensures r.Failure? <==> Sum(Bases(lines)) == 0.0 || !NoZeroQuantity(lines)
    ensures r.Success? ==> |r.value| == |lines| && forall i :: 0 <= i < |lines| ==>
              && r.value[i].name == lines[i].part.name
              && r.value[i].materialId == lines[i].part.materialId
              && r.value[i].qty == lines[i].qty
              && r.value[i].base == lines[i].base
              && IsCents(r.value[i].adjTotal) && IsCents(r.value[i].adjCost)
  {
    var bases := Bases(lines);
    if Sum(bases) == 0.0 || !NoZeroQuantity(lines) then Failure(DivisionByZero)
    else Success(Table(lines, AdjustedTotals(rawCost, bases)))
  }

  /** The diagnostics: quantity and cost differences, rounded to cents. */
  function Diagnose(rawQty: real, rawCost: real, lines: seq<PartLine>): (d: Diagnostics)
    ensures -0.005 <= d.qtyDiff - (rawQty - Sum(Quantities(lines))) <= 0.005
    ensures -0.005 <= d.costDiff - (rawCost - Sum(Bases(lines))) <= 0.005
    ensures IsCents(d.qtyDiff) && IsCents(d.costDiff)
  {
    Diagnostics(Round2(rawQty - Sum(Quantities(lines))), Round2(rawCost - Sum(Bases(lines))))
  }

  /**
   * The first loop of calculate: list every part with its quantity and base
   * subtotal while adding up the quantities and the subtotals.
   */
  method TallyParts(parts: seq<Part>, qtys: seq<real>, unitCosts: seq<real>)
    returns (lines: seq<PartLine>, totalQty: real, outTotal: real)
    requires |parts| == |qtys| == |unitCosts|
    ensures lines == Tally(parts, qtys, unitCosts)
    ensures totalQty == Sum(Quantities(lines)) && outTotal == Sum(Bases(lines))
  {
    ghost var expected := Tally(parts, qtys, unitCosts);
    totalQty, outTotal, lines := 0.0, 0.0, [];
    for i := 0 to |parts|
      invariant lines == expected[..i]
      invariant totalQty == Sum(Quantities(lines)) && outTotal == Sum(Bases(lines))
    {
      var qty := qtys[i];
      totalQty := totalQty + qty;
      var baseTotal := BaseSubtotal(qty, unitCosts[i]);
      outTotal := outTotal + baseTotal;
      var line := PartLine(parts[i], qty, baseTotal);
      assert Quantities(lines + [line])[..i] == Quantities(lines);
      assert Bases(lines + [line])[..i] == Bases(lines);
      lines := lines + [line];
    }
    assert expected[..|parts|] == expected;
  }

  /** Appending the last part's remainder line to the other parts' lines gives the whole table. */
  lemma LastLineCompletesTable(rawCost: real, lines: seq<PartLine>, others: seq<PartResult>, othersSum: real)
    requires |lines| > 0 && Sum(Bases(lines)) != 0.0 && NoZeroQuantity(lines)
    requires var shares := Shares(Bases(lines), Ratio(rawCost, Bases(lines)), |lines| - 1);
             && othersSum == Sum(shares)
             && |others| == |lines| - 1
             && forall k :: 0 <= k < |lines| - 1 ==> others[k] == ResultLine(lines[k], shares[k])
    ensures others + [ResultLine(lines[|lines| - 1], Round2(rawCost - othersSum))]
            == Table(lines, AdjustedTotals(rawCost, Bases(lines)))
  {
  }

  /**
   * The second half of calculate: give every part but the last its rounded
   * proportional share, the last the rounded remainder, and each its
   * adjusted unit cost; a zero quantity stops it with a division by zero.
   */
  method Reallocate(rawCost: real, lines: seq<PartLine>, outTotal: real)
    returns (result: Result<seq<PartResult>, AllocError>)
    requires |lines| > 0
    requires outTotal == Sum(Bases(lines)) && outTotal != 0.0
    ensures result == Reallocation(rawCost, lines)
  {
    var n := |lines|;
    var ratio := rawCost / outTotal;
    ghost var bases := Bases(lines);
    ghost var others := Shares(bases, ratio, n - 1);
    var othersSum := 0.0;
    var table: seq<PartResult> := [];
    for i := 0 to n - 1
      invariant othersSum == Sum(others[..i])
      invariant |table| == i
      invariant forall k :: 0 <= k < i ==> lines[k].qty != 0.0
      invariant forall k :: 0 <= k < i ==> table[k] == ResultLine(lines[k], others[k])
    {
      assert others[..i + 1][..i] == others[..i];
      var p := lines[i];
      var adjTotal := Share(p.base, ratio);
      if p.qty == 0.0 {
        return Failure(DivisionByZero);
      }
      table := table + [ResultLine(p, adjTotal)];
      othersSum := othersSum + adjTotal;
    }
    assert others[..n - 1] == others;
    var last := lines[n - 1];
    var lastTotal := Round2(rawCost - othersSum);
    if last.qty == 0.0 {
      return Failure(DivisionByZero);
    }
    assert NoZeroQuantity(lines);
    LastLineCompletesTable(rawCost, lines, table, othersSum);
    table := table + [ResultLine(last, lastTotal)];
    result := Success(table);
  }

  /**
   * calculate: tally the parts, produce the differences, then reallocate
   * the raw cost. The differences are produced even when the reallocation
   * then divides by zero.
   */
  method Calculate(parts: seq<Part>, rawQty: real, rawCost: real, qtys: seq<real>, unitCosts: seq<real>)
    returns (diag: Diagnostics, result: Result<seq<PartResult>, AllocError>)
    requires |parts| == |qtys| == |unitCosts| > 0
    ensures diag == Diagnose(rawQty, rawCost, Tally(parts, qtys, unitCosts))
    ensures result == Reallocation(rawCost, Tally(parts, qtys, unitCosts))
  {
    var lines, totalQty, outTotal := TallyParts(parts, qtys, unitCosts);
    diag := Diagnostics(Round2(rawQty - totalQty), Round2(rawCost - outTotal));
    if outTotal == 0.0 {
      return diag, Failure(DivisionByZero);
    }
    result := Reallocate(rawCost, lines, outTotal);
  }
}

/** What the reallocation guarantees about the adjusted subtotals. */
module AllocationProperties {
  import opened Wrappers
  import opened Rounding
  import opened Catalog
  import opened AllocationEngine

  /** The adjusted subtotals of a result table. */
  function AdjustedTotalsOf(table: seq<PartResult>): (totals: seq<real>)
    ensures |totals| == |table|
    ensures forall i :: 0 <= i < |table| ==> totals[i] == table[i].adjTotal
  {
    seq(|table|, i requires 0 <= i < |table| => table[i].adjTotal)
  }

  lemma SumSnoc(xs: seq<real>, x: real)
    ensures Sum(xs + [x]) == Sum(xs) + x
  {
    assert (xs + [x])[..|xs|] == xs;
  }

  /** A sum of whole cents is a whole number of cents. */
  lemma {:induction false} SumOfCents(xs: seq<real>)
    requires forall i :: 0 <= i < |xs| ==> IsCents(xs[i])
    ensures IsCents(Sum(xs))
    decreases |xs|
  {
    if xs == [] {
      assert 0.0 * 100.0 == 0 as real;
    } else {
      var prefix := xs[..|xs| - 1];
      assert forall i :: 0 <= i < |prefix| ==> prefix[i] == xs[i];
      SumOfCents(prefix);
      CentsClosed(Sum(prefix), xs[|xs| - 1]);
    }
  }

  /**
   * Remainder absorption: the adjusted subtotals add up to the raw cost
   * within half a cent, and exactly when the raw cost is whole cents.
   */
  lemma {:induction false} AdjustedTotalsSumToRawCost(rawCost: real, bases: seq<real>)
    requires |bases| > 0 && Sum(bases) != 0.0
    ensures -0.005 <= Sum(AdjustedTotals(rawCost, bases)) - rawCost <= 0.005
    ensures IsCents(rawCost) ==> Sum(AdjustedTotals(rawCost, bases)) == rawCost
  {
    var others := Shares(bases, Ratio(rawCost, bases), |bases| - 1);
    var rest := Remainder(rawCost, others);
    SumSnoc(others, rest);
    if IsCents(rawCost) {
      SumOfCents(others);
      CentsClosed(rawCost, Sum(others));
    }
  }

  lemma Distribute(a: real, b: real, r: real)
    ensures ExactShare(a + b, r) == ExactShare(a, r) + ExactShare(b, r)
  {
  }

  /** The exact shares of all the base subtotals make up the raw cost. */
  lemma RatioScalesBack(rawCost: real, bases: seq<real>)
    requires Sum(bases) != 0.0
    ensures ExactShare(Sum(bases), Ratio(rawCost, bases)) == rawCost
  {
  }

  /** Values each within half a cent of a reference add up to within half a cent per value of the reference sum. */
  lemma {:induction false} SumDeviation(approx: seq<real>, exact: seq<real>)
    requires |approx| == |exact|
    requires forall i :: 0 <= i < |approx| ==> -0.005 <= approx[i] - exact[i] <= 0.005
    ensures -0.005 * |approx| as real <= Sum(approx) - Sum(exact) <= 0.005 * |approx| as real
    decreases |approx|
  {
    if approx != [] {
      var n := |approx|;
      SumDeviation(approx[..n - 1], exact[..n - 1]);
    }
  }

  /** The exact proportional shares of the first `k` parts. */
  function ExactShares(bases: seq<real>, ratio: real, k: nat): (exact: seq<real>)
    requires k <= |bases|
    ensures |exact| == k
  {
    if k == 0 then [] else ExactShares(bases, ratio, k - 1) + [ExactShare(bases[k - 1], ratio)]
  }

  lemma {:induction false} ExactSharesAt(bases: seq<real>, ratio: real, k: nat, i: nat)
    requires i < k <= |bases|
    ensures ExactShares(bases, ratio, k)[i] == ExactShare(bases[i], ratio)
  {
    if i < k - 1 {
      ExactSharesAt(bases, ratio, k - 1, i);
    }
  }

  /** Adding one scaled term to a scaled sum scales the extended sum. */
  lemma ScaledStep(before: real, x: real, after: real, r: real, scaledBefore: real)
    requires after == before + x && scaledBefore == ExactShare(before, r)
    ensures scaledBefore + ExactShare(x, r) == ExactShare(after, r)
  {
    Distribute(before, x, r);
  }

  /** Scaling every base by the ratio scales their sum by it. */
  lemma {:induction false} ExactSharesSum(bases: seq<real>, ratio: real, k: nat)
    requires k <= |bases|
    ensures Sum(ExactShares(bases, ratio, k)) == ExactShare(Sum(bases[..k]), ratio)
  {
    if k > 0 {
      var exact := ExactShares(bases, ratio, k - 1);
      ExactSharesSum(bases, ratio, k - 1);
      SumSnoc(exact, ExactShare(bases[k - 1], ratio));
      assert bases[..k] == bases[..k - 1] + [bases[k - 1]];
      SumSnoc(bases[..k - 1], bases[k - 1]);
      ScaledStep(Sum(bases[..k - 1]), bases[k - 1], Sum(bases[..k]), ratio, Sum(exact));
    }
  }

  /**
   * The last part's deviation: the remainder differs from its exact share by
   * the accumulated deviation of the others plus its own rounding.
   */
  lemma LastDeviation(rawCost: real, othersSum: real, exactOthers: real, exactLast: real, last: real, m: real)
    requires rawCost == exactOthers + exactLast
    requires -0.005 * m <= othersSum - exactOthers <= 0.005 * m
    requires -0.005 <= othersSum + last - rawCost <= 0.005
    ensures -0.005 * (m + 1.0) <= last - exactLast <= 0.005 * (m + 1.0)
  {
  }

  /**
   * Proportionality: every part but the last receives its exact share of the
   * raw cost within half a cent, and the last within half a cent per part.
   */
  lemma ReallocationBounds(rawCost: real, bases: seq<real>)
    requires |bases| > 0 && Sum(bases) != 0.0
    ensures var totals := AdjustedTotals(rawCost, bases);
            var ratio := Ratio(rawCost, bases);
            && (forall i :: 0 <= i < |bases| - 1 ==> -0.005 <= totals[i] - ExactShare(bases[i], ratio) <= 0.005)
            && -0.005 * |bases| as real <= totals[|bases| - 1] - ExactShare(bases[|bases| - 1], ratio) <= 0.005 * |bases| as real
  {
    LastPartBound(rawCost, bases);
  }

  /** The last part's subtotal is within half a cent per part of its exact share. */
  lemma LastPartBound(rawCost: real, bases: seq<real>)
    requires |bases| > 0 && Sum(bases) != 0.0
    ensures var n := |bases|;
            var ratio := Ratio(rawCost, bases);
            var others := Shares(bases, ratio, n - 1);
            -0.005 * n as real <= Remainder(rawCost, others) - ExactShare(bases[n - 1], ratio) <= 0.005 * n as real
  {
    var n := |bases|;
    var ratio := Ratio(rawCost, bases);
    var others := Shares(bases, ratio, n - 1);
    var exact := ExactShares(bases, ratio, n - 1);
    forall i | 0 <= i < n - 1
      ensures -0.005 <= others[i] - exact[i] <= 0.005
    {
      ExactSharesAt(bases, ratio, n - 1, i);
    }
    SumDeviation(others, exact);
    ExactSharesSum(bases, ratio, n - 1);
    assert bases[..n] == bases;
    RatioScalesBack(rawCost, bases);
    ScaledStep(Sum(bases[..n - 1]), bases[n - 1], Sum(bases), ratio, Sum(exact));
    LastDeviation(rawCost, Sum(others), Sum(exact), ExactShare(bases[n - 1], ratio), Remainder(rawCost, others), (n - 1) as real);
  }

  /**
   * The exact reallocation property of the calculation: when it succeeds,
   * the result table's adjusted subtotals add up to the raw batch cost
   * within half a cent, and exactly for a raw cost in whole cents.
   */
  lemma TableSumsToRawCost(parts: seq<Part>, rawCost: real, qtys: seq<real>, unitCosts: seq<real>)
    requires |parts| == |qtys| == |unitCosts| > 0
    requires Reallocation(rawCost, Tally(parts, qtys, unitCosts)).Success?
    ensures var totals := AdjustedTotalsOf(Reallocation(rawCost, Tally(parts, qtys, unitCosts)).value);
            && -0.005 <= Sum(totals) - rawCost <= 0.005
            && (IsCents(rawCost) ==> Sum(totals) == rawCost)
  {
    var lines := Tally(parts, qtys, unitCosts);
    var bases := Bases(lines);
    var totals := AdjustedTotals(rawCost, bases);
    assert AdjustedTotalsOf(Table(lines, totals)) == totals;
    AdjustedTotalsSumToRawCost(rawCost, bases);
  }

  /**
   * Division guard: base subtotals summing to zero, or any part with no
   * quantity, is a division by zero and produces no table.
   */
  lemma DivisionGuard(parts: seq<Part>, rawCost: real, qtys: seq<real>, unitCosts: seq<real>)
    requires |parts| == |qtys| == |unitCosts| > 0
    ensures Reallocation(rawCost, Tally(parts, qtys, unitCosts)) == Failure(DivisionByZero) <==>
              Sum(Bases(Tally(parts, qtys, unitCosts))) == 0.0 || exists i :: 0 <= i < |qtys| && qtys[i] == 0.0
  {
    var lines := Tally(parts, qtys, unitCosts);
    if exists i :: 0 <= i < |qtys| && qtys[i] == 0.0 {
      var i :| 0 <= i < |qtys| && qtys[i] == 0.0;
      assert lines[i].qty == 0.0;
    }
  }
}
