/**
 * The bump allocator of include/halloc.h: a fixed 0x800-byte buffer and a running
 * counter `allocations`; each call hands out the bytes just after the previous call.
 * The counter is a `static` of the header, so every translation unit has its own
 * arena; the model makes the arena an object its user owns.
 */
module Halloc {

  const MAX_ALLOCATIONS: nat := 0x800

  /** A block handed out by `halloc`: its offset in `alloc_buffer` and its size. */
  datatype Block = Block(offset: nat, size: nat)

  /** What one call does: a pointer into the buffer, or the "Too many allocations" abort. */
  datatype Alloc = Ptr(offset: nat) | TooMany

  /** Blocks laid end to end from offset 0, the last ending at `top`. */
  ghost predicate Contiguous(blocks: seq<Block>, top: nat)
  {
    if blocks == [] then top == 0
    else
      var last := blocks[|blocks| - 1];
      last.offset + last.size == top && Contiguous(blocks[..|blocks| - 1], last.offset)
  }

  /** No two blocks share a byte (zero-sized blocks share nothing). */
  ghost predicate Disjoint(blocks: seq<Block>)
  {
    forall i, j :: 0 <= i < j < |blocks| ==> blocks[i].offset + blocks[i].size <= blocks[j].offset
  }

  /** Every block of a contiguous history ends at or before `top`. */
  lemma {:induction false} ContiguousBelow(blocks: seq<Block>, top: nat)
    requires Contiguous(blocks, top)
    ensures forall i :: 0 <= i < |blocks| ==> blocks[i].offset + blocks[i].size <= top
  {
    if blocks != [] {
      var last := blocks[|blocks| - 1];
      ContiguousBelow(blocks[..|blocks| - 1], last.offset);
    }
  }

  /** Successive allocations never overlap. */
  lemma {:induction false} ContiguousDisjoint(blocks: seq<Block>, top: nat)
    requires Contiguous(blocks, top)
    ensures Disjoint(blocks)
  {
    if blocks != [] {
      var init, last := blocks[..|blocks| - 1], blocks[|blocks| - 1];
      ContiguousDisjoint(init, last.offset);
      ContiguousBelow(init, last.offset);
      forall i, j | 0 <= i < j < |blocks|
        ensures blocks[i].offset + blocks[i].size <= blocks[j].offset
      {
        if j < |blocks| - 1 {
          assert blocks[i] == init[i] && blocks[j] == init[j];
        } else {
          assert blocks[i] == init[i];
        }
      }
    }
  }

  class Arena {
    /** The counter `allocations`: bytes handed out so far. */
    var allocations: nat
    /** Every block handed out so far, in call order. */
    ghost var blocks: seq<Block>

    ghost predicate Valid()
      reads this
    {
      Contiguous(blocks, allocations)
    }

    constructor ()
      ensures Valid() && allocations == 0 && blocks == []
    {
      allocations := 0;
      blocks := [];
    }

    /**
     * `halloc(size)`: the pointer is the buffer plus the counter before the call, the
     * counter grows by exactly `size`, and a total above 0x800 aborts (0x800 itself is
     * allowed).
     */
    method Halloc(size: nat) returns (r: Alloc)
      requires Valid()
      modifies this
      ensures Valid()
      ensures allocations == old(allocations) + size
      ensures blocks == old(blocks) + [Block(old(allocations), size)]
      ensures r == if allocations > MAX_ALLOCATIONS then TooMany else Ptr(old(allocations))
    {
      var ptr := allocations;
      allocations := allocations + size;
      blocks := blocks + [Block(ptr, size)];
      assert blocks[..|blocks| - 1] == old(blocks);
      if allocations > MAX_ALLOCATIONS {
        return TooMany;
      }
      return Ptr(ptr);
    }
  }

  /** While the arena has not aborted, every block lies inside the 0x800-byte buffer. */
  lemma InsideBuffer(blocks: seq<Block>, top: nat)
    requires Contiguous(blocks, top) && top <= MAX_ALLOCATIONS
    ensures Disjoint(blocks)
    ensures forall i :: 0 <= i < |blocks| ==> blocks[i].offset + blocks[i].size <= MAX_ALLOCATIONS
  {
    ContiguousDisjoint(blocks, top);
    ContiguousBelow(blocks, top);
  }
}
