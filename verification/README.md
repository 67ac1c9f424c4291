# Batch allocation ledger

This project models the `Batch` / `OrderLine` allocation ledger of the allocation project, written in Dafny.

- An **OrderLine** is a value: an order id, a SKU and a quantity. Two lines with equal fields are the same line.
- A **Batch** is an entity. It has a reference, a SKU, a purchased quantity and an optional eta (a date or nothing). Its one mutable part is the set of order lines allocated to it.
- `allocate(line)` adds the line to the set when `can_allocate(line)` holds (assumed, see below). Otherwise it does nothing. Because the collection is a set, allocating the same line twice counts it once.
- `deallocate(line)` removes the line if it is held. Otherwise it does nothing.
- `available_quantity` is the purchased quantity minus the sum of the quantities of the allocated lines.

The behaviour is fixed by the unit tests in `chp01/01_allocation_project/tests/test_batches.py`. The module those tests import (`src/model.py` of the allocation project) is not part of this model. The Dafny follows what the tests assert. Two behaviours go beyond them and are marked as assumptions (below).

Assumptions beyond the tests:

- `allocate` consults `can_allocate` and does nothing when it is false. No test allocates a line of another SKU or a line that does not fit, so this is assumed, not observed.

`can_allocate` has two halves:

- The SKUs must match. The tests assert this half.
- The line's quantity must not exceed the available quantity. **This half is an assumption**: no test exercises it. It is kept because the usual design of this ledger has it, and because without it a batch could be oversubscribed. Only `Batches.AllocateNeverOversubscribes` depends on it, along with the `Available() >= 0` postcondition of `Batch.Allocate`.

Layout:

- `batches.dfy`, module `Batches`:
  - The value-level specification:
    - `TotalQty`: the sum of a set's quantities.
    - `AvailableFrom`, `Admits`.
    - `AllocateLine`, `DeallocateLine`: the allocations after each operation.
  - The lemmas about that specification.
  - The `Batch` class. Its fields `reference`, `sku`, `purchasedQuantity` and `eta` are constants. `allocations` is a `set<OrderLine>` that `Allocate` and `Deallocate` reassign. `AvailableQuantity` computes the sum with a loop over the set. Its result is proved equal to the specification.
- `test_batches.dfy`, module `BatchScenarios`: each test is a method. Its postcondition is the test's assertion, and Dafny proves it from the `Batch` contracts. `date.today()` becomes a `today: Date` parameter.

## Model

| member | source | states |
|---|---|---|
| Batches.Batch.constructor | chp01/01_allocation_project/tests/test_batches.py:8 | a new batch keeps the reference, SKU, purchased quantity and eta it was given, holds no lines, and has its whole purchased quantity available |
| Batches.Batch.AvailableQuantity | chp01/01_allocation_project/tests/test_batches.py:16 | the available quantity is the purchased quantity minus the total quantity of the allocated lines, whatever order the set is walked in |
| Batches.Batch.CanAllocate | chp01/01_allocation_project/tests/test_batches.py:18-21 | true exactly when the line's SKU is the batch's and (assumed) its quantity fits in what is available; always false on a SKU mismatch; changes nothing |
| Batches.Batch.Allocate | chp01/01_allocation_project/tests/test_batches.py:12-16 | the allocations gain the line exactly when it can be allocated (assumed guard) and are unchanged otherwise; re-allocating a held line is a no-op; every held line keeps the batch's SKU (the `Valid()` invariant, stated for its own sake: no other contract needs it); a non-negative available quantity stays non-negative; the other fields never change |
| Batches.Batch.Deallocate | chp01/01_allocation_project/tests/test_batches.py:29-38 | the line is removed if held and nothing changes otherwise; afterwards the line is not held; the available quantity rises by the line's quantity exactly when it was held |
| Batches.TotalQtyRemove | chp01/01_allocation_project/tests/test_batches.py:16 | the sum of the allocated quantities does not depend on the order in which the lines are taken: any held line can be taken out first |
| Batches.NothingAllocatedAllAvailable | chp01/01_allocation_project/tests/test_batches.py:35-38 | with no line allocated, the available quantity equals the purchased quantity |
| Batches.AllocateReducesAvailable | chp01/01_allocation_project/tests/test_batches.py:12-16 | allocating an admissible line that is not yet held lowers the available quantity by exactly the line's quantity |
| Batches.SkuMismatchRejected | chp01/01_allocation_project/tests/test_batches.py:18-21 | a line of another SKU is never admissible (the `can_allocate` result asserted at these lines); allocating it leaves the allocations unchanged (assumed: that `allocate` consults `can_allocate` is not shown by the tests) |
| Batches.AllocateIdempotent | chp01/01_allocation_project/tests/test_batches.py:23-27 | allocating a line a second time leaves the allocations as the first allocation left them |
| Batches.DeallocateUndoesAllocate | chp01/01_allocation_project/tests/test_batches.py:29-33 | deallocating a line just allocated restores the previous allocations and the previous available quantity |
| Batches.DeallocateUnknownIsNoOp | chp01/01_allocation_project/tests/test_batches.py:35-38 | deallocating a line that is not held leaves the allocations unchanged |
| Batches.DeallocateRestoresQuantity | chp01/01_allocation_project/tests/test_batches.py:29-33 | deallocating a held line removes it and raises the available quantity by exactly its quantity |
| Batches.AllocateNeverOversubscribes | chp01/01_allocation_project/tests/test_batches.py:18-21 | under the assumed stock half of `can_allocate`, allocation never takes a non-negative available quantity below zero |
| BatchScenarios.MakeBatchAndLine | chp01/01_allocation_project/tests/test_batches.py:6-10 | builds a fresh empty batch "batch-001" of the given SKU and quantity due today, and the line "order-123" for the given SKU and quantity |
| BatchScenarios.AllocatingReducesAvailableQuantity | chp01/01_allocation_project/tests/test_batches.py:12-16 | after allocating 2 CHAIR to a batch of 20 CHAIR, 18 are available |
| BatchScenarios.CannotAllocateIfSkusDoNotMatch | chp01/01_allocation_project/tests/test_batches.py:18-21 | a TABLE line cannot be allocated to a CHAIR batch without an eta |
| BatchScenarios.AllocationIsIdempotent | chp01/01_allocation_project/tests/test_batches.py:23-27 | allocating the same 2-unit line twice to a batch of 20 leaves 18 available |
| BatchScenarios.CanDeallocateAllocatedLines | chp01/01_allocation_project/tests/test_batches.py:29-33 | allocating and then deallocating a 2-unit line leaves all 20 available |
| BatchScenarios.CannotDeallocateUnallocatedLines | chp01/01_allocation_project/tests/test_batches.py:35-38 | deallocating a line that was never allocated leaves all 20 available |
| BatchScenarios.EtaDoesNotAffectAllocation | chp01/01_allocation_project/tests/test_batches.py:8 | two batches that differ only in their eta (a date or none) have the same available quantity after the same allocation |

## Left out

- Real dates: `date.today()` is a parameter of the scenarios, and `Date` is a plain year/month/day datatype that the model never reads.
- Batch.Allocate: that `allocate` consults `can_allocate` (and so ignores a line of another SKU or one that does not fit) is an assumption, because no test allocates such a line; `AllocateLine` and the allocation half of `SkuMismatchRejected` rest on it.
- The insufficient-stock half of `can_allocate` is an assumption, not a behaviour shown by the tests; see above.
- Input validation: the model, like the tests, does not restrict quantities to positive numbers. As a result, `Batch.Allocate` keeps a non-negative available quantity non-negative, but `Batch.Deallocate` of a line with a negative quantity can lower it.
- The library-lending sketch in `chp01/01b_domain_modellingHW/src/model.py` (`Books`, `BookCopy`, `reserve_book`, `Library`) is not modelled. The file is not valid Python: `reserve_book` and `Library` have no body. What remains is plain data with no behaviour.
- Choosing a batch for an order line, and persistence, do not appear in the tests and are not modelled.
- The pytest machinery (test discovery, assertion rewriting) is not modelled. Each test is a method whose postcondition is its assertion.
