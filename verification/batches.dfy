/**
 * The allocation ledger of one batch of stock: order lines are allocated to a
 * batch of the same SKU and deallocated from it, and the batch's available
 * quantity is its purchased quantity minus the quantities of the lines it
 * currently holds.
 */
module Batches {

  datatype Option<T> = None | Some(value: T)

  /** A calendar date; its value never enters the allocation arithmetic. */
  datatype Date = Date(year: int, month: int, day: int)

  /** An order line is a value: two lines with equal fields are the same line. */
  datatype OrderLine = OrderLine(orderId: string, sku: string, qty: int)

  // ---------------------------------------------------------------------------
  // Specification: the allocation ledger as values
  // ---------------------------------------------------------------------------

  /** The sum of the quantities of a set of lines. */
  ghost function TotalQty(lines: set<OrderLine>): int
  {
    if lines == {} then 0
    else
      var l :| l in lines;
      l.qty + TotalQty(lines - {l})
  }

  /** What is left of `purchased` once `lines` are allocated. */
  ghost function AvailableFrom(purchased: int, lines: set<OrderLine>): int
  {
    purchased - TotalQty(lines)
  }

  /**
   * Whether a batch of `sku` holding `lines` may take `line`: the SKUs must
   * agree and (an assumption, not shown by any test) the line must fit in
   * what is still available.
   */
  ghost predicate Admits(sku: string, purchased: int, lines: set<OrderLine>, line: OrderLine)
  {
    line.sku == sku && line.qty <= AvailableFrom(purchased, lines)
  }

  /**
   * The allocations after `allocate(line)`: added if admitted, otherwise
   * unchanged. That `allocate` consults the admission guard at all is an
   * assumption: no scenario allocates a line of another SKU or one that
   * does not fit.
   */
  ghost function AllocateLine(sku: string, purchased: int, lines: set<OrderLine>, line: OrderLine): set<OrderLine>
  {
    if Admits(sku, purchased, lines, line) then lines + {line} else lines
  }

  /** The allocations after `deallocate(line)`: removed if present, otherwise unchanged. */
  ghost function DeallocateLine(lines: set<OrderLine>, line: OrderLine): set<OrderLine>
  {
    if line in lines then lines - {line} else lines
  }

  // ---------------------------------------------------------------------------
  // Lemmas about the specification
  // ---------------------------------------------------------------------------

  /** Any member of a set may be taken out first when summing it. */
  lemma {:induction false} TotalQtyRemove(lines: set<OrderLine>, x: OrderLine)
    requires x in lines
    ensures TotalQty(lines) == x.qty + TotalQty(lines - {x})
    decreases lines
  {
    var l :| l in lines && TotalQty(lines) == l.qty + TotalQty(lines - {l});
    if l != x {
      TotalQtyRemove(lines - {l}, x);
      TotalQtyRemove(lines - {x}, l);
      assert lines - {l} - {x} == lines - {x} - {l};
    }
  }

  /** Adding a line that is not yet held adds its quantity to the total. */
  lemma TotalQtyAdd(lines: set<OrderLine>, x: OrderLine)
    requires x !in lines
    ensures TotalQty(lines + {x}) == TotalQty(lines) + x.qty
  {
    TotalQtyRemove(lines + {x}, x);
    assert lines + {x} - {x} == lines;
  }

  /** A batch that holds no lines has its whole purchased quantity available. */
  lemma NothingAllocatedAllAvailable(purchased: int)
    ensures AvailableFrom(purchased, {}) == purchased
  {
  }

  /** Allocating an admitted new line lowers the available quantity by exactly its quantity. */
  lemma AllocateReducesAvailable(sku: string, purchased: int, lines: set<OrderLine>, line: OrderLine)
    requires Admits(sku, purchased, lines, line) && line !in lines
    ensures AvailableFrom(purchased, AllocateLine(sku, purchased, lines, line))
            == AvailableFrom(purchased, lines) - line.qty
  {
    TotalQtyAdd(lines, line);
  }

  /**
   * A line whose SKU differs from the batch's is never admitted; and, under
   * the assumption that `allocate` consults the guard, allocating it changes
   * nothing.
   */
  lemma SkuMismatchRejected(sku: string, purchased: int, lines: set<OrderLine>, line: OrderLine)
    requires line.sku != sku
    ensures !Admits(sku, purchased, lines, line)
    ensures AllocateLine(sku, purchased, lines, line) == lines
  {
  }

  /** Allocating the same line twice leaves the same allocations as allocating it once. */
  lemma AllocateIdempotent(sku: string, purchased: int, lines: set<OrderLine>, line: OrderLine)
    ensures var once := AllocateLine(sku, purchased, lines, line);
            AllocateLine(sku, purchased, once, line) == once
  {
  }

  /** Deallocating a line that was just allocated restores the allocations and the available quantity. */
  lemma DeallocateUndoesAllocate(sku: string, purchased: int, lines: set<OrderLine>, line: OrderLine)
    requires line !in lines
    ensures DeallocateLine(AllocateLine(sku, purchased, lines, line), line) == lines
    ensures AvailableFrom(purchased, DeallocateLine(AllocateLine(sku, purchased, lines, line), line))
            == AvailableFrom(purchased, lines)
  {
    assert lines + {line} - {line} == lines;
  }

  /** Deallocating a line that is not held changes nothing. */
  lemma DeallocateUnknownIsNoOp(lines: set<OrderLine>, line: OrderLine)
    requires line !in lines
    ensures DeallocateLine(lines, line) == lines
  {
  }

  /** Deallocating a held line gives its quantity back, and the line is no longer held. */
  lemma DeallocateRestoresQuantity(purchased: int, lines: set<OrderLine>, line: OrderLine)
    requires line in lines
    ensures line !in DeallocateLine(lines, line)
    ensures AvailableFrom(purchased, DeallocateLine(lines, line))
            == AvailableFrom(purchased, lines) + line.qty
  {
    TotalQtyRemove(lines, line);
  }

  /** Under the assumed stock guard, allocation never drives the available quantity below zero. */
  lemma AllocateNeverOversubscribes(sku: string, purchased: int, lines: set<OrderLine>, line: OrderLine)
    requires AvailableFrom(purchased, lines) >= 0
    ensures AvailableFrom(purchased, AllocateLine(sku, purchased, lines, line)) >= 0
  {
    if Admits(sku, purchased, lines, line) && line !in lines {
      AllocateReducesAvailable(sku, purchased, lines, line);
    } else {
      assert AllocateLine(sku, purchased, lines, line) == lines;
    }
  }

  // ---------------------------------------------------------------------------
  // The Batch entity
  // ---------------------------------------------------------------------------

  class Batch {
    const reference: string
    const sku: string
    const purchasedQuantity: int
    const eta: Option<Date>
    var allocations: set<OrderLine>

    /**
     * Every allocated line is for this batch's SKU. Stated and preserved for
     * its own sake; no other contract depends on it.
     */
    ghost predicate Valid()
      reads this
    {
      forall l :: l in allocations ==> l.sku == sku
    }

    /** The available quantity, as a value. */
    ghost function Available(): int
      reads this
    {
      AvailableFrom(purchasedQuantity, allocations)
    }

    /** A new batch holds no lines, so all it purchased is available. */
    constructor (ref: string, sku: string, qty: int, eta: Option<Date>)
      ensures reference == ref && this.sku == sku && purchasedQuantity == qty && this.eta == eta
      ensures allocations == {}
      ensures Valid() && Available() == qty
    {
      reference := ref;
      this.sku := sku;
      purchasedQuantity := qty;
      this.eta := eta;
      allocations := {};
    }

    /** The purchased quantity less the quantities of the allocated lines. */
    method AvailableQuantity() returns (q: int)
      ensures q == purchasedQuantity - TotalQty(allocations)
    {
      var rest := allocations;
      var held := 0;
      while rest != {}
        invariant rest <= allocations
        invariant held + TotalQty(rest) == TotalQty(allocations)
        decreases rest
      {
        var l :| l in rest;
        TotalQtyRemove(rest, l);
        held := held + l.qty;
        rest := rest - {l};
      }
      q := purchasedQuantity - held;
    }

    /**
     * Whether `line` may be allocated here: its SKU must be this batch's, and
     * (assumed) its quantity must not exceed what is available.
     */
    method CanAllocate(line: OrderLine) returns (ok: bool)
      ensures ok == Admits(sku, purchasedQuantity, allocations, line)
    {
      var available := AvailableQuantity();
      ok := sku == line.sku && available >= line.qty;
    }

    /**
     * Adds `line` to the allocations when it can be allocated; otherwise does
     * nothing. Consulting `CanAllocate` here is an assumption: no scenario
     * allocates a line that it would reject.
     */
    method Allocate(line: OrderLine)
      requires Valid()
      modifies this`allocations
      ensures Valid()
      ensures allocations == AllocateLine(sku, purchasedQuantity, old(allocations), line)
      ensures line in old(allocations) ==> allocations == old(allocations)
      ensures old(Available()) >= 0 ==> Available() >= 0
    {
      if Available() >= 0 {
        AllocateNeverOversubscribes(sku, purchasedQuantity, allocations, line);
      }
      var ok := CanAllocate(line);
      if ok {
        allocations := allocations + {line};
      }
    }

    /** Removes `line` from the allocations when it is there; otherwise does nothing. */
    method Deallocate(line: OrderLine)
      requires Valid()
      modifies this`allocations
      ensures Valid()
      ensures allocations == DeallocateLine(old(allocations), line)
      ensures line !in allocations
      ensures Available() == if line in old(allocations) then old(Available()) + line.qty
                             else old(Available())
    {
      if line in allocations {
        DeallocateRestoresQuantity(purchasedQuantity, allocations, line);
        allocations := allocations - {line};
      }
    }
  }
}
