/**
 * The production sheet window's state and its three buttons: the cost
 * entries (read-only while the costs are locked), the cost ledger on disk,
 * the message line, the difference line and the result table.
 *
 * A text entry is modelled by what `float()` makes of its text: `Some(x)`
 * when the text parses as the number x, `None` when it does not (an empty
 * entry included).
 */
module CostSheet {
  import opened Wrappers
  import LexOrder
  import opened Catalog
  import opened CostStore
  import CostStoreProperties
  import opened AllocationEngine

  /** The text of the message line. */
  datatype Message =
    | Blank
    | CostsSavedAndLocked
    | InvalidCostInput
    | EditingCostsEnabled
    | CalculationComplete
    | InvalidNumericInput

  /** The cost entries at startup: each part's cost from the latest snapshot, or empty. */
  function StartupFields(saved: map<string, real>): (fields: seq<Option<real>>)
    ensures |fields| == |Parts|
    ensures forall i :: 0 <= i < |Parts| ==>
              if Parts[i].name in saved then fields[i] == Some(saved[Parts[i].name]) else fields[i] == None
  {
    seq(|Parts|, i requires 0 <= i < |Parts| =>
      if Parts[i].name in saved then Some(saved[Parts[i].name]) else None)
  }

  /** What the save button accepts as a cost: a number that is not negative. */
  predicate Acceptable(field: Option<real>)
  {
    field.Some? && field.value >= 0.0
  }

  /** Every entry parses as a number. */
  predicate AllNumbers(fields: seq<Option<real>>)
  {
    forall i :: 0 <= i < |fields| ==> fields[i].Some?
  }

  /** The numbers in entries that all parse. */
  function Numbers(fields: seq<Option<real>>): (values: seq<real>)
    requires AllNumbers(fields)
    ensures |values| == |fields|
    ensures forall i :: 0 <= i < |fields| ==> fields[i] == Some(values[i])
  {
    seq(|fields|, i requires 0 <= i < |fields| => fields[i].value)
  }

  /** One ledger entry per part, in catalog order, with the given costs. */
  function PartCosts(values: seq<real>): (costs: seq<CostEntry>)
    requires |values| == |Parts|
    ensures |costs| == |Parts|
    ensures forall i :: 0 <= i < |Parts| ==> costs[i] == CostEntry(Parts[i].name, values[i])
  {
    seq(|Parts|, i requires 0 <= i < |Parts| => CostEntry(Parts[i].name, values[i]))
  }

  /** The adjusted unit costs of a result table, in table order. */
  function AdjustedCosts(table: seq<PartResult>): (costs: seq<real>)
    ensures |costs| == |table|
    ensures forall i :: 0 <= i < |table| ==> costs[i] == table[i].adjCost
  {
    seq(|table|, i requires 0 <= i < |table| => table[i].adjCost)
  }

  /** Entries showing the given numbers. */
  function Showing(values: seq<real>): (fields: seq<Option<real>>)
    ensures |fields| == |values|
    ensures AllNumbers(fields) && Numbers(fields) == values
  {
    seq(|values|, i requires 0 <= i < |values| => Some(values[i]))
  }

  /**
   * The save button's validation loop: read every cost entry in catalog
   * order and give up at the first one that is not a number or is
   * negative.
   */
  method ReadCosts(fields: seq<Option<real>>) returns (values: Option<seq<real>>)
    ensures values.Some? <==> forall i :: 0 <= i < |fields| ==> Acceptable(fields[i])
    ensures values.Some? ==> AllNumbers(fields) && values.value == Numbers(fields)
  {
    var read: seq<real> := [];
    for i := 0 to |fields|
      invariant |read| == i
      invariant forall k :: 0 <= k < i ==> Acceptable(fields[k]) && fields[k] == Some(read[k])
    {
      var field := fields[i];
      if field.None? || field.value < 0.0 {
        return None;
      }
      read := read + [field.value];
    }
    return Some(read);
  }

  /** The entries filled from the dictionary of one entry per part show those entries' costs. */
  lemma StartupShowsPartCosts(values: seq<real>)
    requires |values| == |Parts|
    ensures StartupFields(AsMap(PartCosts(values))) == Showing(values)
  {
    var costs := PartCosts(values);
    CatalogNamesDistinct();
    forall i | 0 <= i < |Parts|
      ensures StartupFields(AsMap(costs))[i] == Showing(values)[i]
    {
      CostStoreProperties.AsMapLookup(costs, i);
    }
  }

  /**
   * Restarting the program after a save whose timestamp sorts after every
   * earlier one shows exactly the saved costs, locked.
   */
  lemma RestartShowsSavedCosts(ledger: seq<CostRecord>, values: seq<real>, ts: string)
    requires |values| == |Parts|
    requires forall j :: 0 <= j < |ledger| ==> LexOrder.Less(ledger[j].timestamp, ts)
    ensures SavedLedger(ledger, PartCosts(values), ts) != []
    ensures StartupFields(LoadLatestCosts(SavedLedger(ledger, PartCosts(values), ts))) == Showing(values)
  {
    var costs := PartCosts(values);
    CostStoreProperties.SaveThenLoadFresh(ledger, costs, ts);
    StartupShowsPartCosts(values);
    assert costs[0].part in AsMap(costs);
  }

  /** The window: the ledger file's rows, the lock, the entries and the labels. */
  class Sheet {
    /** The rows of the cost ledger file. */
    var ledger: seq<CostRecord>
    /** Whether the cost entries are read-only. */
    var locked: bool
    /** The cost entries, one per part in catalog order. */
    var costFields: seq<Option<real>>
    var message: Message
    /** The difference line: shown once a calculation got past parsing. */
    var differences: Option<Diagnostics>
    /** The result table. */
    var table: seq<PartResult>

    ghost predicate Valid()
      reads this
    {
      |costFields| == |Parts|
    }

    /**
     * Startup: load the latest snapshot, fill in the entries of the parts it
     * has a cost for, and lock the entries when there is a snapshot.
     */
    constructor (file: seq<CostRecord>)
      ensures Valid()
      ensures ledger == file
      ensures locked <==> LoadLatestCosts(file) != map[]
      ensures locked <==> file != []
      ensures costFields == StartupFields(LoadLatestCosts(file))
      ensures message == Blank && differences == None && table == []
    {
      var saved := LoadLatestCosts(file);
      ledger := file;
      locked := saved != map[];
      costFields := StartupFields(saved);
      message := Blank;
      differences := None;
      table := [];
    }

    /** Typing into a cost entry; a read-only entry keeps its text. */
    method TypeCost(i: nat, field: Option<real>)
      requires Valid() && i < |Parts|
      modifies this
      ensures Valid()
      ensures costFields == if old(locked) then old(costFields) else old(costFields)[i := field]
      ensures ledger == old(ledger) && locked == old(locked) && message == old(message)
      ensures differences == old(differences) && table == old(table)
    {
      if !locked {
        costFields := costFields[i := field];
      }
    }

    /**
     * The "Save Costs" button: when every entry holds a number that is not
     * negative, save them as a new snapshot and lock the entries; otherwise
     * report invalid input and save nothing.
     */
    method SaveCostsButton(ts: string) returns (ok: bool)
      requires Valid()
      modifies this
      ensures Valid()
      ensures ok <==> forall i :: 0 <= i < |Parts| ==> Acceptable(costFields[i])
      ensures costFields == old(costFields) && differences == old(differences) && table == old(table)
      ensures ok ==> AllNumbers(costFields)
                     && ledger == SavedLedger(old(ledger), PartCosts(Numbers(costFields)), ts)
                     && locked && message == CostsSavedAndLocked
      ensures !ok ==> ledger == old(ledger) && locked == old(locked) && message == InvalidCostInput
    {
      var values := ReadCosts(costFields);
      if values.None? {
        message := InvalidCostInput;
        return false;
      }
      ledger := SaveCosts(ledger, PartCosts(values.value), ts);
      locked := true;
      message := CostsSavedAndLocked;
      return true;
    }

    /** The "Edit Costs" button: make the cost entries editable. */
    method EditCostsButton()
      requires Valid()
      modifies this
      ensures Valid()
      ensures !locked && message == EditingCostsEnabled
      ensures ledger == old(ledger) && costFields == old(costFields)
      ensures differences == old(differences) && table == old(table)
    {
      locked := false;
      message := EditingCostsEnabled;
    }

    /**
     * The "Calculate & Adjust" button. Every entry must parse as a number
     * (negative ones included), else only the message changes; the rest is
     * `Adjust`.
     */
    method CalculateButton(rawQtyField: Option<real>, rawCostField: Option<real>,
                           qtyFields: seq<Option<real>>, ts: string)
      requires Valid() && |qtyFields| == |Parts|
      modifies this
      ensures Valid()
      ensures !(rawQtyField.Some? && rawCostField.Some? && AllNumbers(old(costFields)) && AllNumbers(qtyFields)) ==>
                && message == InvalidNumericInput && differences == old(differences)
                && ledger == old(ledger) && locked == old(locked)
                && costFields == old(costFields) && table == old(table)
      ensures rawQtyField.Some? && rawCostField.Some? && AllNumbers(old(costFields)) && AllNumbers(qtyFields) ==>
                var lines := Tally(Parts, Numbers(qtyFields), Numbers(old(costFields)));
                var result := Reallocation(rawCostField.value, lines);
                && differences == Some(Diagnose(rawQtyField.value, rawCostField.value, lines))
                && (result.Failure? ==>
                      && ledger == old(ledger) && locked == old(locked) && message == old(message)
                      && costFields == old(costFields) && table == old(table))
                && (result.Success? ==>
                      && table == result.value
                      && costFields == Showing(AdjustedCosts(result.value))
                      && locked
                      && ledger == SavedLedger(old(ledger), PartCosts(AdjustedCosts(result.value)), ts)
                      && message == CalculationComplete)
    {
      if !(rawQtyField.Some? && rawCostField.Some? && AllNumbers(costFields) && AllNumbers(qtyFields)) {
        message := InvalidNumericInput;
        return;
      }
      Adjust(rawQtyField.value, rawCostField.value, Numbers(qtyFields), ts);
    }

    /**
     * The calculation once every entry has parsed: show the difference line;
     * a division by zero stops there. Otherwise the cost entries take the
     * adjusted unit costs and lock, the adjusted costs are saved as a new
     * snapshot, and the table is filled.
     */
    method Adjust(rawQty: real, rawCost: real, qtys: seq<real>, ts: string)
      requires Valid() && AllNumbers(costFields) && |qtys| == |Parts|
      modifies this
      ensures Valid()
      ensures var lines := Tally(Parts, qtys, Numbers(old(costFields)));
              var result := Reallocation(rawCost, lines);
              && differences == Some(Diagnose(rawQty, rawCost, lines))
              && (result.Failure? ==>
                    && ledger == old(ledger) && locked == old(locked) && message == old(message)
                    && costFields == old(costFields) && table == old(table))
              && (result.Success? ==>
                    && table == result.value
                    && costFields == Showing(AdjustedCosts(result.value))
                    && locked
                    && ledger == SavedLedger(old(ledger), PartCosts(AdjustedCosts(result.value)), ts)
                    && message == CalculationComplete)
    {
      var diag, result := Calculate(Parts, rawQty, rawCost, qtys, Numbers(costFields));
      differences := Some(diag);
      if result.Failure? {
        return;
      }
      var adjusted := AdjustedCosts(result.value);
      costFields := Showing(adjusted);
      locked := true;
      ledger := SaveCosts(ledger, PartCosts(adjusted), ts);
      table := result.value;
      message := CalculationComplete;
    }
  }
}
