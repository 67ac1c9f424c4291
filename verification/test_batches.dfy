/**
 * The batch allocation scenarios, each as a method whose postcondition is the
 * scenario's expected outcome. The current date is a parameter.
 */
module BatchScenarios {
  import opened Batches

  /** A batch "batch-001" of `batchQty` units of `sku` due `today`, and a line "order-123" for `lineQty` of it. */
  method MakeBatchAndLine(sku: string, batchQty: int, lineQty: int, today: Date)
    returns (batch: Batch, line: OrderLine)
    ensures fresh(batch) && batch.Valid()
    ensures batch.reference == "batch-001" && batch.sku == sku && batch.purchasedQuantity == batchQty
    ensures batch.eta == Some(today) && batch.allocations == {}
    ensures line == OrderLine("order-123", sku, lineQty)
  {
    batch := new Batch("batch-001", sku, batchQty, Some(today));
    line := OrderLine("order-123", sku, lineQty);
  }

  /** Allocating 2 chairs to a batch of 20 chairs leaves 18 available. */
  method AllocatingReducesAvailableQuantity(today: Date) returns (available: int)
    ensures available == 18
  {
    var batch := new Batch("batch-001", "CHAIR", 20, Some(today));
    var line := OrderLine("order-001", "CHAIR", 2);
    batch.Allocate(line);
    available := batch.AvailableQuantity();
    TotalQtyAdd({}, line);
  }

  /** A table line cannot be allocated to a chair batch. */
  method CannotAllocateIfSkusDoNotMatch() returns (allowed: bool)
    ensures !allowed
  {
    var batch := new Batch("batch-001", "CHAIR", 10, None);
    var line := OrderLine("order-002", "TABLE", 1);
    allowed := batch.CanAllocate(line);
  }

  /** Allocating the same line twice counts it once. */
  method AllocationIsIdempotent(today: Date) returns (available: int)
    ensures available == 18
  {
    var batch, line := MakeBatchAndLine("LAMP", 20, 2, today);
    batch.Allocate(line);
    batch.Allocate(line);
    available := batch.AvailableQuantity();
    TotalQtyAdd({}, line);
  }

  /** Deallocating an allocated line gives back its quantity. */
  method CanDeallocateAllocatedLines(today: Date) returns (available: int)
    ensures available == 20
  {
    var batch, line := MakeBatchAndLine("DESK", 20, 2, today);
    batch.Allocate(line);
    batch.Deallocate(line);
    available := batch.AvailableQuantity();
  }

  /** Deallocating a line that was never allocated changes nothing. */
  method CannotDeallocateUnallocatedLines(today: Date) returns (available: int)
    ensures available == 20
  {
    var batch, unallocatedLine := MakeBatchAndLine("SHELF", 20, 2, today);
    batch.Deallocate(unallocatedLine);
    available := batch.AvailableQuantity();
  }

  /**
   * The same allocation made to two otherwise equal batches, one with an eta
   * and one without, leaves the same quantity available in both.
   */
  method EtaDoesNotAffectAllocation(sku: string, qty: int, line: OrderLine, day: Date)
    returns (withEta: int, withoutEta: int)
    ensures withEta == withoutEta
  {
    var dated := new Batch("batch-001", sku, qty, Some(day));
    var undated := new Batch("batch-001", sku, qty, None);
    dated.Allocate(line);
    undated.Allocate(line);
    withEta := dated.AvailableQuantity();
    withoutEta := undated.AvailableQuantity();
  }
}
