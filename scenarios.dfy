/**
 * Worked calculations on concrete inputs: an even split, and a
 * reallocation whose last part ends up with a negative unit cost that the
 * "Save Costs" button would refuse.
 */
module Scenarios {
  import opened Wrappers
  import opened Rounding
  import opened Catalog
  import opened AllocationEngine
  import CostSheet

  /** A sum of five values, added from the left. */
  lemma SumOfFive(xs: seq<real>)
    requires |xs| == 5
    ensures Sum(xs) == xs[0] + xs[1] + xs[2] + xs[3] + xs[4]
  {
    assert xs[..1][..0] == [];
    assert xs[..2][..1] == xs[..1];
    assert xs[..3][..2] == xs[..2];
    assert xs[..4][..3] == xs[..3];
    assert xs[..5] == xs;
    assert Sum(xs[..1]) == xs[0];
    assert Sum(xs[..2]) == Sum(xs[..1]) + xs[1];
    assert Sum(xs[..3]) == Sum(xs[..2]) + xs[2];
    assert Sum(xs[..4]) == Sum(xs[..3]) + xs[3];
    assert Sum(xs[..5]) == Sum(xs[..4]) + xs[4];
  }

  /**
   * 2 kg of every part at 1 per kg against a 10 kg, 20 batch: nothing is
   * missing in quantity, 10 is missing in cost, and every part is adjusted
   * to a subtotal of 4 at 2 per kg.
   */
  lemma EvenSplit()
    ensures var lines := Tally(Parts, [2.0, 2.0, 2.0, 2.0, 2.0], [1.0, 1.0, 1.0, 1.0, 1.0]);
            var result := Reallocation(20.0, lines);
            && Diagnose(10.0, 20.0, lines) == Diagnostics(0.0, 10.0)
            && result.Success?
            && forall i :: 0 <= i < 5 ==> result.value[i].adjTotal == 4.0 && result.value[i].adjCost == 2.0
  {
    var lines := Tally(Parts, [2.0, 2.0, 2.0, 2.0, 2.0], [1.0, 1.0, 1.0, 1.0, 1.0]);
    var bases := Bases(lines);
    SumOfFive(Quantities(lines));
    SumOfFive(bases);
    assert Sum(bases) == 10.0;
    assert IsCents(0.0) && IsCents(10.0) && IsCents(4.0) && IsCents(2.0);
    var ratio := Ratio(20.0, bases);
    assert ratio == 2.0;
    var totals := AdjustedTotals(20.0, bases);
    var others := Shares(bases, ratio, 4);
    assert forall i :: 0 <= i < 4 ==> others[i] == 4.0;
    SumOfFive(others + [0.0]);
    assert (others + [0.0])[..4] == others;
    assert Sum(others) == 16.0;
    assert totals[4] == Round2(4.0);
  }

  /**
   * One kg of every part, the last two at no cost, against a batch costing
   * 0.02: the first three round up to 0.01 each, so the last part is left
   * with -0.01, and that negative unit cost becomes its cost entry.
   */
  lemma NegativeRemainder()
    ensures var lines := Tally(Parts, [1.0, 1.0, 1.0, 1.0, 1.0], [1.0, 1.0, 1.0, 0.0, 0.0]);
            var result := Reallocation(0.02, lines);
            && result.Success?
            && result.value[4].adjTotal == -0.01 && result.value[4].adjCost == -0.01
            && !CostSheet.Acceptable(Some(result.value[4].adjCost))
  {
    var lines := Tally(Parts, [1.0, 1.0, 1.0, 1.0, 1.0], [1.0, 1.0, 1.0, 0.0, 0.0]);
    var bases := Bases(lines);
    SumOfFive(bases);
    assert Sum(bases) == 3.0;
    var ratio := Ratio(0.02, bases);
    var share := Share(1.0, ratio);
    assert (share * 100.0).Floor == 1;
    assert share == 0.01;
    var others := Shares(bases, ratio, 4);
    assert others == [0.01, 0.01, 0.01, 0.0];
    SumOfFive(others + [0.0]);
    assert (others + [0.0])[..4] == others;
    assert Sum(others) == 0.03;
    assert IsCents(-0.01);
  }
}
