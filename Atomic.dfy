/**
 * The runtime's atomic add on an `int` cell (runtime/src/main/cpp/Atomic.h).
 *
 * In threaded builds the add is `__sync_add_and_fetch`; in single-threaded builds it is the
 * plain `*where += what`. Both return the NEW contents of the cell. The add is modelled as one
 * indivisible read-modify-write on a heap cell.
 */
module Atomic {

  const IntMin: int := -0x8000_0000
  const IntMax: int := 0x7fff_ffff

  /** The C `int` of the runtime's targets: 32-bit signed. */
  newtype int32 = x: int | -0x8000_0000 <= x < 0x8000_0000

  /** True when `v + what` is representable, i.e. the plain `+=` has no signed overflow. */
  predicate SumFits(v: int32, what: int32) {
    IntMin <= v as int + what as int <= IntMax
  }

  /** The memory an `int*` points at. */
  class IntCell {
    var value: int32

    constructor (init: int32)
      ensures value == init
    {
      value := init;
    }
  }

  /**
   * atomicAdd(where, what): add `what` to `*where` and return the new contents.
   * The caller must keep the sum inside `int` range: signed overflow of `+=` is undefined.
   */
  method AtomicAdd(where: IntCell, what: int32) returns (r: int32)
    requires SumFits(where.value, what)
    modifies where
    ensures where.value as int == old(where.value) as int + what as int
    ensures r == where.value
  {
    where.value := where.value + what;
    r := where.value;
  }

  /** Adding zero reads the cell: the result is its current value and the cell is unchanged. */
  method AddZero(init: int32) returns (r: int32, after: int32)
    ensures r == init && after == init
  {
    var cell := new IntCell(init);
    r := AtomicAdd(cell, 0);
    after := cell.value;
  }

  /** Three successive adds of 1 to a cell holding 0 return 1, 2 and 3 (add-and-fetch, not fetch-and-add). */
  method ThreeIncrements() returns (first: int32, second: int32, third: int32, after: int32)
    ensures first == 1 && second == 2 && third == 3 && after == 3
  {
    var cell := new IntCell(0);
    first := AtomicAdd(cell, 1);
    second := AtomicAdd(cell, 1);
    third := AtomicAdd(cell, 1);
    after := cell.value;
  }

  /** An add to one cell leaves every other cell alone. */
  method AddLeavesOtherCells(a: int32, b: int32, what: int32) returns (r: int32, otherAfter: int32)
    requires SumFits(a, what)
    ensures r as int == a as int + what as int
    ensures otherAfter == b
  {
    var cell := new IntCell(a);
    var other := new IntCell(b);
    r := AtomicAdd(cell, what);
    otherAfter := other.value;
  }
}
