# Chicken production sheet: cost ledger, reallocation and cost lock

A Dafny model of the core of `ps_chicken_gui.py`, a one-window production
sheet for a chicken cutting line. The window does three things:

- **The cost ledger.** The unit cost of each of five parts (Thigh,
  Drumstick, Breast, Wings, Neck) is kept in a CSV file. The file holds
  snapshots, one row per part, all stamped with the time of the save.
  - Loading reads the snapshot with the greatest timestamp. Where one part
    has several rows, the later row wins.
  - Saving appends a new snapshot. It then keeps only the rows of the five
    greatest distinct timestamps, in their original order.
- **The reallocation.** The "Calculate & Adjust" action spreads the batch
  cost over the parts.
  - Each part's base subtotal is its quantity times its current unit cost.
  - Every part except the last gets its base subtotal scaled by
    `raw cost / total of the base subtotals`, rounded to cents.
  - The last part gets what is left of the raw cost, rounded to cents.
  - Each part's adjusted unit cost is its adjusted subtotal divided by its
    quantity, rounded to cents.
  - Before the division, a quantity difference and a cost difference are
    shown. They never block the calculation.
- **The cost lock.** The cost entries are read-only while the costs are
  locked.
  - At startup they are locked exactly when the ledger has a snapshot.
  - "Save Costs" checks every entry. An entry that is not a number, or is
    negative, aborts the save with nothing written. Otherwise it saves a
    snapshot and locks the entries.
  - "Edit Costs" unlocks them.
  - A successful calculation writes the adjusted unit costs into the
    entries, locks them and saves them as a new snapshot.

Modules:

- `Wrappers`: `Option` and `Result`.
- `LexOrder`: Python's string order (code point by code point; a proper
  prefix sorts first). Proved to be a strict total order.
- `Retention`: `TopN`, the timestamps with fewer than `n` others sorting
  after them. This is exactly the last `n` of the sorted distinct set.
- `CostStore` and `CostStoreProperties`: `load_latest_costs`, `save_costs`,
  and the laws relating them.
- `Rounding`: `round(x, 2)` on exact reals, with ties going to the even cent.
- `Catalog`: the five parts.
- `AllocationEngine` and `AllocationProperties`: the arithmetic of
  `calculate`, and what it guarantees.
- `CostSheet`: the window as a class `Sheet`. Its fields are:
  - the ledger rows;
  - the lock;
  - the cost entries;
  - the message line, the difference line and the result table.

  Its methods are the three buttons, plus typing into a cost entry.
- `Scenarios`: two worked calculations on concrete inputs.

Division by zero is an explicit error result. It happens when the base
subtotals sum to zero or a part's quantity is zero.

- In the program, `ZeroDivisionError` is not caught by the `except
  ValueError` handlers. The toolkit reports it and the window carries on.
- The difference line has already been updated at that point (line 158
  runs before line 161). Nothing else has changed.
- The model reproduces exactly this: `Sheet.CalculateButton` shows the
  differences and leaves the ledger, the lock, the entries, the table and
  the message as they were.

The ledger's costs are meant to be non-negative: the save button refuses a
negative entry. `calculate` has no such check, on its inputs or on its
results. So a negative adjusted unit cost can reach the cost entries and
the ledger. `Scenarios.NegativeRemainder` gives such an input. The model
keeps the program's behaviour.

## Model

| member | source | states |
|---|---|---|
| LexOrder.Irreflexive | ps_chicken_gui.py:41 | no timestamp sorts before itself |
| LexOrder.Transitive | ps_chicken_gui.py:41 | the string order used by `sorted` and `max` is transitive |
| LexOrder.Total | ps_chicken_gui.py:41 | any two different timestamps are ordered one way or the other |
| LexOrder.Asymmetric | ps_chicken_gui.py:41 | two timestamps are never each before the other |
| Retention.TopN | ps_chicken_gui.py:41 | the kept timestamps are a subset of those present |
| Retention.GreatestExists | ps_chicken_gui.py:30 | a non-empty set of timestamps has a greatest one, so `max` is defined |
| Retention.TopNSize | ps_chicken_gui.py:41 | exactly min(n, number of distinct timestamps) are kept, as `[-5:]` of the sorted set keeps |
| Retention.TopNUpwardClosed | ps_chicken_gui.py:41 | a timestamp sorting after a kept one is kept: the kept ones are the greatest |
| Retention.TopNKeepsAllWhenFew | ps_chicken_gui.py:41 | with at most n distinct timestamps nothing is dropped |
| Retention.GreatestIsKept | ps_chicken_gui.py:41 | the greatest timestamp is always kept |
| CostStore.MaxTimestamp | ps_chicken_gui.py:30 | `max` of the row timestamps is one of them and no row's timestamp sorts after it |
| CostStore.LatestIsUnique | ps_chicken_gui.py:30 | only one timestamp present is the latest |
| CostStore.CostsAt | ps_chicken_gui.py:31 | the dictionary comprehension: a part is a key iff some row of the timestamp names it, with the cost of the last such row |
| CostStore.LoadLatestCosts | ps_chicken_gui.py:23-31 | empty mapping iff the ledger is empty (or missing); otherwise exactly the parts of the latest snapshot, each with the cost of its last row there |
| CostStore.Stamp | ps_chicken_gui.py:39-40 | one row per entry, in order, each with the new timestamp, the entry's part and cost |
| CostStore.KeepRows | ps_chicken_gui.py:42 | a row survives iff its timestamp is kept |
| CostStore.AsMap | ps_chicken_gui.py:39 | the parts of the dictionary are exactly the parts of its entries |
| CostStore.SaveCosts | ps_chicken_gui.py:33-46 | the append loop and the filter produce the retained ledger `Retain(rows + Stamp(costs, ts))` |
| CostStoreProperties.KeepRowsAppend | ps_chicken_gui.py:42 | filtering distributes over concatenation, so order is preserved |
| CostStoreProperties.KeepRowsAllKept | ps_chicken_gui.py:42 | when every timestamp is kept the filter changes nothing |
| CostStoreProperties.RetainKeepsNewest | ps_chicken_gui.py:41-42 | retention keeps min(5, distinct) timestamps, the greatest ones, with every row of a kept timestamp |
| CostStoreProperties.SaveRetentionBound | ps_chicken_gui.py:41-42 | after any save at most 5 timestamps remain; with at most 5 nothing is dropped |
| CostStoreProperties.SaveKeepsNewSnapshot | ps_chicken_gui.py:39-42 | a save at a timestamp not before any existing one keeps its whole snapshot, after the surviving old rows |
| CostStoreProperties.CostsAtAppend | ps_chicken_gui.py:31 | the costs under a timestamp of two row blocks: the later block's rows win |
| CostStoreProperties.UnionUpdate | ps_chicken_gui.py:31 | updating a merged dictionary updates its later part |
| CostStoreProperties.CostsAtSnoc | ps_chicken_gui.py:31 | one more row under the timestamp overrides its part's cost |
| CostStoreProperties.CostsAtKeep | ps_chicken_gui.py:31-42 | pruning other snapshots leaves a kept snapshot's costs unchanged |
| CostStoreProperties.CostsAtStamp | ps_chicken_gui.py:39-40 | the stamped rows read back as the saved dictionary |
| CostStoreProperties.LoadReadsLatest | ps_chicken_gui.py:30-31 | load reads the costs of whichever present timestamp is latest |
| CostStoreProperties.SaveThenLoad | ps_chicken_gui.py:23-46 | a non-empty save at a latest timestamp loads back as the old costs at that timestamp overridden by the saved ones |
| CostStoreProperties.SaveThenLoadFresh | ps_chicken_gui.py:23-46 | round trip: a non-empty save at a timestamp after all existing ones loads back as exactly the saved dictionary |
| CostStoreProperties.CostsAtAbsent | ps_chicken_gui.py:31 | a timestamp no row carries has no costs |
| CostStoreProperties.AsMapLookup | ps_chicken_gui.py:39 | with distinct part names every part maps to its own entry's cost |
| Rounding.Round2 | ps_chicken_gui.py:163 | the result is whole cents, within half a cent of the input, the input itself when already whole cents, and the even cent on a tie |
| Rounding.CentsClosed | ps_chicken_gui.py:166 | sums and differences of whole cents are whole cents |
| Catalog.CatalogNamesDistinct | ps_chicken_gui.py:7-13 | the five part names are pairwise different |
| AllocationEngine.Tally | ps_chicken_gui.py:148-153 | each part's line holds its quantity and base subtotal `qty * cost`, in catalog order |
| AllocationEngine.Share | ps_chicken_gui.py:163 | a non-last part's adjusted subtotal is whole cents within half a cent of its exact share |
| AllocationEngine.Shares | ps_chicken_gui.py:162-163 | the i-th non-last subtotal is the i-th part's share |
| AllocationEngine.Remainder | ps_chicken_gui.py:166 | the last subtotal is whole cents and brings the total within half a cent of the raw cost |
| AllocationEngine.AdjustedTotals | ps_chicken_gui.py:162-166 | one subtotal per part; every non-last one is that part's share |
| AllocationEngine.AdjustedCost | ps_chicken_gui.py:164 | the adjusted unit cost is whole cents within half a cent of subtotal over quantity |
| AllocationEngine.Table | ps_chicken_gui.py:162-167 | one result line per part, in order |
| AllocationEngine.Reallocation | ps_chicken_gui.py:160-167 | fails iff the base subtotals sum to zero or a quantity is zero; otherwise every line keeps its part's name, id, quantity and base, with cents-valued adjusted subtotal and unit cost |
| AllocationEngine.Diagnose | ps_chicken_gui.py:156-157 | quantity and cost differences, each whole cents within half a cent of batch minus parts |
| AllocationEngine.TallyParts | ps_chicken_gui.py:145-153 | the first loop builds the tally and accumulates the total quantity and the total base subtotal |
| AllocationEngine.LastLineCompletesTable | ps_chicken_gui.py:165-167 | the lines of all but the last part followed by the last part's line form the whole table |
| AllocationEngine.Reallocate | ps_chicken_gui.py:161-167 | the ratio, the per-part loop and the last-part step compute `Reallocation` |
| AllocationEngine.Calculate | ps_chicken_gui.py:145-167 | the diagnostics and the result of the calculation are `Diagnose` and `Reallocation` of the tally, the diagnostics also when the division fails |
| AllocationProperties.AdjustedTotalsOf | ps_chicken_gui.py:163-166 | the adjusted subtotals of a table, line by line |
| AllocationProperties.SumSnoc | ps_chicken_gui.py:166 | the sum grows by the appended value |
| AllocationProperties.SumOfCents | ps_chicken_gui.py:166 | a sum of whole cents is whole cents |
| AllocationProperties.AdjustedTotalsSumToRawCost | ps_chicken_gui.py:162-166 | remainder absorption: the adjusted subtotals add up to the raw cost within half a cent, exactly when the raw cost is whole cents |
| AllocationProperties.Distribute | ps_chicken_gui.py:161 | exact shares distribute over addition of bases |
| AllocationProperties.RatioScalesBack | ps_chicken_gui.py:161 | the exact shares of all the bases add back to the raw cost |
| AllocationProperties.SumDeviation | ps_chicken_gui.py:162-166 | n values each within half a cent of a reference sum to within n half cents of the reference sum |
| AllocationProperties.ExactSharesAt | ps_chicken_gui.py:163 | the i-th exact share is the i-th base times the ratio |
| AllocationProperties.ScaledStep | ps_chicken_gui.py:161 | scaling one more base extends the scaled sum |
| AllocationProperties.ExactSharesSum | ps_chicken_gui.py:161-163 | the exact shares of a prefix of the parts add up to its base total times the ratio |
| AllocationProperties.LastDeviation | ps_chicken_gui.py:166 | the last part's deviation is at most the others' accumulated deviation plus its own rounding |
| AllocationProperties.LastPartBound | ps_chicken_gui.py:166 | the last subtotal is within n half cents of the last part's exact share |
| AllocationProperties.ReallocationBounds | ps_chicken_gui.py:161-166 | proportionality: each non-last part is within half a cent of its exact share, the last within n half cents |
| AllocationProperties.TableSumsToRawCost | ps_chicken_gui.py:160-167 | a successful calculation's table has subtotals summing to the raw cost within half a cent, exactly for a whole-cent raw cost |
| AllocationProperties.DivisionGuard | ps_chicken_gui.py:161-167 | the calculation fails with a division by zero iff the base subtotals sum to zero or some quantity is zero |
| CostSheet.StartupFields | ps_chicken_gui.py:62-68 | each cost entry shows its part's saved cost, or is empty when the snapshot has none |
| CostSheet.Numbers | ps_chicken_gui.py:143 | the numbers parsed from entries that all parse, entry by entry |
| CostSheet.PartCosts | ps_chicken_gui.py:74-79 | one ledger entry per part, in catalog order, with its cost |
| CostSheet.AdjustedCosts | ps_chicken_gui.py:177 | the adjusted unit costs of a table, line by line |
| CostSheet.Showing | ps_chicken_gui.py:170-175 | entries that show the given numbers parse back to exactly those numbers |
| CostSheet.ReadCosts | ps_chicken_gui.py:74-79 | the validation loop succeeds iff every entry is a non-negative number, and then yields exactly the entries' numbers |
| CostSheet.StartupShowsPartCosts | ps_chicken_gui.py:62-68 | filling the entries from the dictionary of one cost per part shows those costs |
| CostSheet.RestartShowsSavedCosts | ps_chicken_gui.py:59-68 | after a save at a timestamp after all earlier ones, a restart shows exactly the saved costs, locked |
| CostSheet.Sheet.constructor | ps_chicken_gui.py:59-70 | startup: locked iff the latest snapshot is non-empty iff the ledger is non-empty; entries filled from the latest snapshot |
| CostSheet.Sheet.TypeCost | ps_chicken_gui.py:69-70 | a locked (read-only) entry keeps its value; an unlocked one takes the typed value; nothing else changes |
| CostSheet.Sheet.SaveCostsButton | ps_chicken_gui.py:72-84 | succeeds iff every entry is a non-negative number; then the ledger is the saved ledger with those costs and the entries lock; on failure the ledger and lock are unchanged |
| CostSheet.Sheet.EditCostsButton | ps_chicken_gui.py:86-96 | unlocks the entries and changes nothing else but the message |
| CostSheet.Sheet.CalculateButton | ps_chicken_gui.py:139-185 | an unparsable input changes only the message; otherwise as `Adjust` |
| CostSheet.Sheet.Adjust | ps_chicken_gui.py:145-183 | the differences are always shown; a division by zero changes nothing else; success shows the adjusted costs, locks, saves them as a snapshot and fills the table |
| Scenarios.SumOfFive | ps_chicken_gui.py:150-152 | a five-part sum is the sum of its five values |
| Scenarios.EvenSplit | ps_chicken_gui.py:145-167 | 2 kg of each part at 1 against 10 kg costing 20: differences 0 and 10, every subtotal 4 and unit cost 2 |
| Scenarios.NegativeRemainder | ps_chicken_gui.py:160-177 | 1 kg of each part at costs 1, 1, 1, 0, 0 against a raw cost of 0.02: the last part gets -0.01, a cost the save button refuses |

## Left out

- Widgets, layout, colours, fonts and the main loop (lines 49-137, 187-189): the message line is an enumeration of its texts, the difference line the `Diagnostics` value, the table the list of result lines.
- File access and CSV encoding (lines 15-20, 24-27, 36-38, 43-46): the ledger file is a sequence of rows, and a missing file is the empty sequence, which the code treats the same way. I/O errors and a hand-edited file with an unparsable cost are not modelled.
- The clock (line 34): the save timestamp is a parameter. That timestamps sort in chronological order is not modelled; lemmas that need the new snapshot to be the latest require it of the timestamp.
- `float()` parsing (lines 76, 141-149): an entry is `Some(number)` when its text parses and `None` otherwise; `nan` and `inf`, which parse and pass the negative check, are not modelled.
- Floating point: amounts are exact reals and `round(x, 2)` rounds the exact value to cents with ties to the even cent; binary representation errors of Python floats and of the float-to-text round trip through the CSV file are not modelled.
- The in-place update of each part's dictionary (lines 162-167) is modelled as building a new result line per part.
- Typing into an entry is the toolkit's behaviour, not code of the program; it is modelled only to show that a read-only entry keeps its value.
