/** The allocator, and `PointerCache` of src/queue.rs: a ring of recycled nodes, in sequential use. */
module QueueMemory {
  import opened Base
  import opened LinkQueueModel
  import opened RingArithmetic

  /** The memory that raw pointers point into. Only allocated nodes can be read, written or freed. */
  class Memory {
    var cells: map<Ptr, Node>
    var brk: Ptr

    ghost predicate Valid()
      reads this
    {
      brk != NULL && forall p :: p in cells ==> NULL < p < brk
    }

    constructor ()
      ensures Valid() && cells == map[]
    {
      cells, brk := map[], 1;
    }

    method Alloc(node: Node) returns (p: Ptr)
      requires Valid()
      modifies this
      ensures Valid() && p != NULL && p !in old(cells) && cells == old(cells)[p := node]
    {
      p := brk;
      brk := brk + 1;
      cells := cells[p := node];
    }

    method Store(p: Ptr, node: Node)
      requires Valid() && p in cells
      modifies this`cells
      ensures Valid() && cells == old(cells)[p := node]
    {
      cells := cells[p := node];
    }

    method Free(p: Ptr)
      requires Valid() && p in cells
      modifies this`cells
      ensures Valid() && cells == old(cells) - {p}
    {
      cells := cells - {p};
    }
  }

  // ----- rows of slots -----

  ghost function Nodes(b: seq<Ptr>): set<Ptr> {
    set p | p in b && p != NULL
  }

  ghost predicate Distinct(b: seq<Ptr>) {
    forall i, j :: 0 <= i < j < |b| && b[i] != NULL ==> b[i] != b[j]
  }

  ghost function Just(p: Ptr): set<Ptr> {
    if p == NULL then {} else {p}
  }

  lemma SlotChanges(b: seq<Ptr>, i: nat, p: Ptr)
    requires i < |b| && Distinct(b) && (p != NULL ==> p !in b)
    ensures Distinct(b[i := p]) && Nodes(b[i := p]) == Nodes(b) - Just(b[i]) + Just(p)
  {
    var b' := b[i := p];
    forall q | q != NULL ensures q in b' <==> (q in b && q != b[i]) || q == p {
      if q in b && q != b[i] {
        var j :| 0 <= j < |b| && b[j] == q;
        assert b'[j] == q;
      }
      assert b'[i] == p;
    }
  }

  /** The first `n` slots from `start` on are empty. */
  ghost predicate Cleared(b: seq<Ptr>, start: int, n: nat)
    requires |b| > 0
  {
    forall i: nat :: i < n ==> ClearAt(b, start, i)
  }

  ghost predicate ClearAt(b: seq<Ptr>, start: int, i: nat)
    requires |b| > 0
  {
    b[Slot(|b|, start + i)] == NULL
  }

  lemma ClearNext(b: seq<Ptr>, start: int, n: nat)
    requires |b| > 0 && Cleared(b, start, n)
    ensures Cleared(b[Slot(|b|, start + n) := NULL], start, n + 1)
  {
    var b' := b[Slot(|b|, start + n) := NULL];
    forall i: nat | i < n + 1 ensures ClearAt(b', start, i) {
      if i < n { assert ClearAt(b, start, i); }
    }
  }

  lemma AllCleared(b: seq<Ptr>, start: int)
    requires |b| > 0 && Cleared(b, start, |b|)
    ensures Nodes(b) == {}
  {
    forall k | 0 <= k < |b| ensures b[k] == NULL {
      var i := SlotVisited(|b|, start, k);
      assert ClearAt(b, start, i);
    }
  }

  class PointerCache {
    const mem: Memory
    const mask: nat
    ghost const bsize: nat
    const block: array<Ptr>
    var pos: nat
    ghost var ring: seq<Ptr>          // what the slots hold

    ghost predicate Valid()
      reads this, block, mem
    {
      && bsize <= 64 && block.Length == mask + 1 == Power2(bsize) && pos < WORD
      && ring == block[..] && Distinct(ring)
      && mem.Valid() && Nodes(ring) <= mem.cells.Keys
    }

    constructor (mem: Memory, bsize: nat)
      requires bsize <= 64 && mem.Valid()
      ensures Valid() && fresh(block) && this.mem == mem && this.bsize == bsize && pos == 0 && Nodes(ring) == {}
    {
      var count := Power2(bsize);
      this.mem, this.bsize := mem, bsize;
      block := new Ptr[count](_ => NULL);
      mask := count - 1;
      pos := 0;
      ring := seq(count, _ => NULL);
    }

    /** What the slot before the cursor holds, or null; a node now belongs to the caller. */
    method Pop() returns (item: Ptr)
      requires Valid()
      modifies this`pos, this`ring, block
      ensures Valid() && pos == SubWord(old(pos), 1)
      ensures |old(ring)| == mask + 1 && item == old(ring)[Slot(mask + 1, old(pos) - 1)]
      ensures ring == old(ring)[Slot(mask + 1, old(pos) - 1) := NULL]
      ensures Nodes(ring) == Nodes(old(ring)) - Just(item) && (item != NULL ==> item in Nodes(old(ring)))
    {
      pos := SubWord(pos, 1);
      var slot := pos % (mask + 1);
      Power2Divides(bsize);
      SlotWraps(mask + 1, old(pos) - 1);
      SlotChanges(ring, slot, NULL);
      item := block[slot];
      block[slot] := NULL;
      ring := ring[slot := NULL];
    }

    /** The node takes the slot at the cursor, and the node that was there is freed. */
    method Push(item: Ptr)
      requires Valid() && (item != NULL ==> item in mem.cells && item !in Nodes(ring))
      modifies this`pos, this`ring, block, mem`cells
      ensures Valid() && pos == AddWord(old(pos), 1)
      ensures |old(ring)| == mask + 1 && ring == old(ring)[Slot(mask + 1, old(pos)) := item]
      ensures var was := old(ring)[Slot(mask + 1, old(pos))];
        Nodes(ring) == Nodes(old(ring)) - Just(was) + Just(item) && mem.cells == old(mem.cells) - Just(was)
    {
      var slot := pos % (mask + 1);
      SlotChanges(ring, slot, item);
      pos := AddWord(pos, 1);
      var was := block[slot];
      block[slot] := item;
      ring := ring[slot := item];
      if was != NULL { mem.Free(was); }
    }

    /** `Drop`: a null for every slot, wherever the cursor stands. Every stored node is freed, and no other. */
    method Drop()
      requires Valid()
      modifies this`pos, this`ring, block, mem`cells
      ensures Valid() && Nodes(ring) == {} && mem.cells == old(mem.cells) - Nodes(old(ring))
    {
      ghost var start := pos;
      for n := 0 to mask + 1
        invariant Valid() && pos == AddWord(start, n)
        invariant Drained(old(mem.cells), old(ring))
        invariant Cleared(ring, start, n)
      {
        PushNull(start, n, old(mem.cells), old(ring));
      }
      AllCleared(ring, start);
    }

    /** Since the slots held `ring0` and the memory `cells0`, nodes have left both together. */
    ghost predicate Drained(cells0: map<Ptr, Node>, ring0: seq<Ptr>)
      reads this, mem
    {
      mem.cells - Nodes(ring) == cells0 - Nodes(ring0) && Nodes(ring) <= Nodes(ring0) && mem.cells.Keys <= cells0.Keys
    }

    /** Null number `n`: it empties the slot that it meets. */
    method PushNull(ghost start: nat, ghost n: nat, ghost cells0: map<Ptr, Node>, ghost ring0: seq<Ptr>)
      requires Valid() && pos == AddWord(start, n) && Drained(cells0, ring0) && Cleared(ring, start, n)
      modifies this`pos, this`ring, block, mem`cells
      ensures Valid() && pos == AddWord(start, n + 1) && Drained(cells0, ring0) && |ring| == |old(ring)| && Cleared(ring, start, n + 1)
    {
      Power2Divides(bsize);
      SlotWraps(mask + 1, start + n);
      ClearNext(ring, start, n);
      Push(NULL);
      AddWordTwice(start, n);
    }
  }
}
