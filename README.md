# Make-to-order document chain, modelled in Dafny

This project models the order lifecycle engine of a make-to-order (MTO)
fulfilment simulator. One customer order becomes five linked business
documents in a fixed order: sales order, planned order, production order,
delivery and billing (invoice). Each step builds the next document from the
one before it. The new document stores its parent's identifier and copies the
product and quantity. The step then sets one field of a document in place: the
planned order on the sales order, the production order on the planned order,
`confirmed`, the delivery status or the billing status. `ProcessOrder` runs
the whole chain and appends one flat result record to the run's result list.
Batch mode calls it once per input row.

Files:

- `ids.dfy` (module `DocIds`): document identifiers. Each is a type prefix
  (`SO-`, `PL-`, `PO-`, `DLV-`, `INV-`) followed by a lowercase hexadecimal
  suffix.
- `documents.dfy` (module `Documents`): the five document classes and the six
  step methods. A field the source assigns only in a constructor is a
  `const`. The five fields the steps change later are `var`s, and each step's
  `modifies` clause names only the field that step changes.
- `processor.dfy` (module `OrderProcessor`): the result record, the `Engine`
  class holding the result list, `ProcessOrder`, batch mode, and the lemmas
  about the records.

Modelling decisions:

- Money is integer cents. The source's `round(…, 2)` calls are therefore the
  identity, and the amount is exactly unit price × quantity.
- The source's id suffix is random (`uuid4().hex[:8]`). Here the suffix is the
  hexadecimal form of a serial number. The order at position i of the result
  list uses serial i for all five of its documents, and the prefixes keep
  those apart. Uniqueness is then proved (`IdUnique`,
  `IdsDistinctFromSerials`, `BatchIdsDistinct`). The source only makes it
  likely.
- The exception `DeliverGoods` raises for an unconfirmed production order
  becomes a `Failure` result. `ProcessOrder` proves that this branch is never
  taken.
- The repository also holds a later version of the engine under
  `Project Files/capstone_utils`. It adds a status-to-outcome rule table
  (`status_rules.py:2-9`, applied at `process.py:43-51`), date normalisation
  (`process.py:30-36`), a `Status` column in the record (`process.py:79`) and,
  in single mode, an append-merge into the stored dataset (`runner.py:36-41`).
  The top-level `capstone_with_input.py` modelled here has none of these:
  - Every order ends confirmed, with delivery status "Delivered" and billing
    status "Paid".
  - The order date is passed through unchanged.
  - The record (capstone_with_input.py:109-122) carries four document ids:
    sales order, planned order, production order and invoice. For the
    delivery, it carries the status, not the id.
  - The result list is never merged with a stored dataset.

## Model

| member | source | states |
|---|---|---|
| DocIds.MakeId | capstone_with_input.py:9-42 | an identifier starts with its document kind's prefix and the rest is lowercase hex digits |
| DocIds.Hex | capstone_with_input.py:9 | the id suffix is a non-empty string of lowercase hex digits, as `uuid4().hex` produces |
| DocIds.HexInjective | capstone_with_input.py:9-42 | different serials give different suffixes |
| DocIds.IdUnique | capstone_with_input.py:9-42 | two identifiers are equal exactly when they have the same document kind and the same serial, so the prefix alone tells document kinds apart |
| Documents.SalesOrder.constructor | capstone_with_input.py:7-15 | a new sales order has an `SO-` id, copies customer, product, quantity, price (already in cents, so rounding changes nothing) and order date, and has no planned order yet |
| Documents.PlannedOrder.constructor | capstone_with_input.py:17-23 | a planned order has a `PL-` id, stores its sales order's id, copies product and quantity, and has no production order yet |
| Documents.ProductionOrder.constructor | capstone_with_input.py:25-31 | a production order has a `PO-` id, stores its planned order's id, copies product and quantity, and starts unconfirmed |
| Documents.Delivery.constructor | capstone_with_input.py:33-38 | a delivery has a `DLV-` id, stores its production order's id and the customer, and starts "Pending" |
| Documents.Billing.constructor | capstone_with_input.py:40-45 | an invoice has an `INV-` id, stores its delivery's id and the amount, and starts "Unpaid" |
| Documents.CreateSalesOrder | capstone_with_input.py:52-54 | returns a fresh sales order holding exactly the given order data, with no planned order |
| Documents.GeneratePlannedOrder | capstone_with_input.py:56-60 | returns a fresh planned order linked to the sales order, with the same product and quantity, and sets only the sales order's planned-order field to it |
| Documents.ConvertToProductionOrder | capstone_with_input.py:62-66 | returns a fresh, unconfirmed production order linked to the planned order, with the same product and quantity, and sets only the planned order's production-order field to it |
| Documents.ConfirmProduction | capstone_with_input.py:68-71 | sets `confirmed` and changes no other field; on an already confirmed order it changes nothing (idempotent); returns the same order |
| Documents.DeliverGoods | capstone_with_input.py:73-79 | fails with the "not confirmed" error exactly when the production order is unconfirmed; otherwise returns a fresh delivery linked to it, for the given customer, with status "Delivered" |
| Documents.GenerateBilling | capstone_with_input.py:81-86 | returns a fresh invoice linked to the delivery, with amount = unit price × quantity and status "Paid" |
| OrderProcessor.Engine.constructor | capstone_with_input.py:128 | a run starts with an empty result list |
| OrderProcessor.Engine.ProcessOrder | capstone_with_input.py:88-122 | never hits the delivery guard; appends exactly one record and leaves the earlier records unchanged; the chain's documents are linked by id; the delivery has the `DLV-` id of this order's serial and the given customer; the record carries their SO/PL/PO/INV ids, Confirmed = true, Delivery = "Delivered", Billing Status = "Paid", the quantity and amount = price × quantity; all ids in the list stay pairwise distinct |
| OrderProcessor.Engine.RunBatch | capstone_with_input.py:139-147 | appends one record per row, in row order, and keeps the earlier records; all ids in the list stay pairwise distinct |
| OrderProcessor.BatchMode | capstone_with_input.py:128-147 | a batch run starting from the empty result list ends with exactly one record per row, in row order, and no identifier repeats |
| OrderProcessor.BatchRecords | capstone_with_input.py:139-147 | a batch of k rows yields k records, and record i is the one row i produces with serial start + i |
| OrderProcessor.BatchRecordsAppend | capstone_with_input.py:139-147 | running two batches one after the other appends the same records as running their concatenation |
| OrderProcessor.IdsDistinctFromSerials | capstone_with_input.py:109-122 | records built from different serials share no identifier, within a record or across records |
| OrderProcessor.BatchIdsDistinct | capstone_with_input.py:139-147 | the records of one batch run carry pairwise distinct identifiers |

## Left out

- `LogAndPrint` and the summary block (capstone_with_input.py:48-50, 97-106)
  only write text to the console and the log file. They are not modelled.
- `VerifyMember`, the `input()` prompts and the mode selection
  (capstone_with_input.py:124-162) are interactive I/O. Manual mode is one
  `ProcessOrder` call on a fresh `Engine`.
- Reading the CSV file and the `int()`/`float()` coercion of row fields are
  library parsing. The model takes rows that are already typed. A coercion
  error that aborts the rest of the batch is not modelled.
- Building the DataFrame and writing the result file with `to_csv`
  (capstone_with_input.py:165-173) is file output. It overwrites the file and
  has no merge logic.
- DocIds.Hex: the suffix is the unbounded hex form of a serial, not eight
  random hex characters. Uniqueness is proved for the model only. In the source
  it holds only with high probability.
- Floating-point money: prices and amounts are integer cents, so `round(…, 2)`
  is exact. Binary-float rounding is not modelled.
- Python objects are dynamic, so any attribute could be reassigned. The model
  fixes every field the source never reassigns after construction.
- The results list is a field of `Engine`, not a module-level global.
- The later version under `Project Files/capstone_utils` is not modelled: its
  status-rule table, date normalisation, `Status` column and single-mode
  append-merge are absent from capstone_with_input.py.
