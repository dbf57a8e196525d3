/** `InfiniteLinkQueue` of src/queue.rs used by one thread: a sequence, kept in linked nodes that are recycled. */
module SequentialQueue {
  import opened Base
  import opened LinkQueueModel
  import opened QueueMemory
  import opened RingArithmetic

  // ----- chains -----

  /** The address at a position of a chain, or null outside of it. */
  function Nth(chain: seq<Ptr>, i: int): Ptr {
    if 0 <= i < |chain| then chain[i] else NULL
  }

  /** Node `i` of a chain, oldest first: `next` leads to the older node, `prev` to the newer; the oldest `taken` are claimed. */
  ghost predicate ChainAt(cells: map<Ptr, Node>, chain: seq<Ptr>, vals: seq<Payload>, taken: nat, i: int)
    requires 0 <= i < |chain| == |vals|
  {
    && chain[i] in cells
    && cells[chain[i]] == Node(Nth(chain, i - 1), Nth(chain, i + 1), i < taken, i < taken, vals[i])
  }

  ghost predicate ChainOk(cells: map<Ptr, Node>, chain: seq<Ptr>, vals: seq<Payload>, taken: nat) {
    && |chain| == |vals| && taken <= |chain|
    && (forall i :: 0 <= i < |chain| ==> ChainAt(cells, chain, vals, taken, i))
    && (forall i, j :: 0 <= i < j < |chain| ==> chain[i] != chain[j])
  }

  ghost function NodesOf(chain: seq<Ptr>): set<Ptr> {
    set p | p in chain
  }

  /** Every allocated node is in the chain or in the ring, and in one of them only. */
  ghost predicate Owned(cells: map<Ptr, Node>, chain: seq<Ptr>, ring: seq<Ptr>) {
    NodesOf(chain) !! Nodes(ring) && NodesOf(chain) + Nodes(ring) == cells.Keys
  }

  lemma NodesAppend(chain: seq<Ptr>, p: Ptr)
    ensures NodesOf(chain + [p]) == NodesOf(chain) + {p}
  {
    assert forall q :: q in chain + [p] <==> q in chain || q == p;
  }

  lemma NodesSplit(chain: seq<Ptr>, a: nat)
    requires a <= |chain| && forall i, j :: 0 <= i < j < |chain| ==> chain[i] != chain[j]
    ensures NodesOf(chain) == NodesOf(chain[..a]) + NodesOf(chain[a..]) && NodesOf(chain[..a]) !! NodesOf(chain[a..])
  {
    assert chain == chain[..a] + chain[a..];
  }

  /** The memory after `item`, holding `t`, has been linked to `oldhead`. */
  function Published(cells: map<Ptr, Node>, oldhead: Ptr, item: Ptr, t: Payload): map<Ptr, Node> {
    var with := cells[item := Node(oldhead, NULL, false, false, t)];
    if oldhead in cells then with[oldhead := cells[oldhead].(prev := item)] else with
  }

  /** It does not matter what `item` held. */
  lemma PublishedAgain(cells: map<Ptr, Node>, oldhead: Ptr, item: Ptr, t: Payload)
    requires oldhead != item
    ensures Published(cells[item := Node(NULL, NULL, false, false, t)], oldhead, item, t) == Published(cells, oldhead, item, t)
  {
  }

  lemma ChainAppend(cells: map<Ptr, Node>, chain: seq<Ptr>, vals: seq<Payload>, taken: nat, item: Ptr, t: Payload)
    requires ChainOk(cells, chain, vals, taken) && item !in chain && NULL !in cells
    ensures var cells' := Published(cells, Nth(chain, |chain| - 1), item, t);
      ChainOk(cells', chain + [item], vals + [t], taken) && cells'.Keys == cells.Keys + {item}
  {
    var cells', chain', vals' := Published(cells, Nth(chain, |chain| - 1), item, t), chain + [item], vals + [t];
    if chain != [] { assert ChainAt(cells, chain, vals, taken, |chain| - 1); }
    forall i | 0 <= i < |chain'| ensures ChainAt(cells', chain', vals', taken, i) {
      if i < |chain| { assert ChainAt(cells, chain, vals, taken, i); }
    }
  }

  /** A chain that has lost its old end, whatever became of the nodes there. */
  lemma ChainCut(cells: map<Ptr, Node>, chain: seq<Ptr>, vals: seq<Payload>, taken: nat, a: nat, cells': map<Ptr, Node>)
    requires ChainOk(cells, chain, vals, taken) && a <= taken && a < |chain|
    requires forall p :: p in chain[a..] && p in cells ==> p in cells' && cells'[p] == cells[p]
    ensures chain[a] in cells'
    ensures ChainOk(cells'[chain[a] := cells'[chain[a]].(next := NULL)], chain[a..], vals[a..], taken - a)
  {
    assert ChainAt(cells, chain, vals, taken, a) && chain[a] in chain[a..];
    var chain', vals' := chain[a..], vals[a..];
    var cells2, taken' := cells'[chain[a] := cells'[chain[a]].(next := NULL)], taken - a;
    forall i | 0 <= i < |chain'| ensures ChainAt(cells2, chain', vals', taken', i) {
      assert ChainAt(cells, chain, vals, taken, a + i) && chain'[i] in chain';
    }
  }

  /** A chain with one more node claimed. */
  lemma ChainClaim(cells: map<Ptr, Node>, chain: seq<Ptr>, vals: seq<Payload>, taken: nat)
    requires ChainOk(cells, chain, vals, taken) && taken < |chain| && chain[taken] in cells
    ensures ChainOk(cells[chain[taken] := cells[chain[taken]].(claimed := true, needrel := true)], chain, vals, taken + 1)
  {
    var taken', cells' := taken + 1, cells[chain[taken] := cells[chain[taken]].(claimed := true, needrel := true)];
    forall i | 0 <= i < |chain| ensures ChainAt(cells', chain, vals, taken', i) {
      assert ChainAt(cells, chain, vals, taken, i);
    }
  }

  lemma ChainNonNull(cells: map<Ptr, Node>, chain: seq<Ptr>, vals: seq<Payload>, taken: nat)
    requires ChainOk(cells, chain, vals, taken)
    ensures forall i :: 0 <= i < |chain| ==> chain[i] in cells
  {
    forall i | 0 <= i < |chain| ensures chain[i] in cells { assert ChainAt(cells, chain, vals, taken, i); }
  }

  // ----- the queue at rest -----

  /** The nodes in the chain and their payloads, oldest first; how many of them are claimed; where `lst` is. */
  datatype Content = Content(nodes: seq<Ptr>, vals: seq<Payload>, taken: nat, at: nat)

  ghost predicate QueueOk(cells: map<Ptr, Node>, ring: seq<Ptr>, ptr: Ptr, lst: Ptr, g: Content) {
    && NULL !in cells && ChainOk(cells, g.nodes, g.vals, g.taken) && Owned(cells, g.nodes, ring)
    && ptr == Nth(g.nodes, |g.nodes| - 1) && lst == Nth(g.nodes, g.at) && g.at <= g.taken
    && (g.nodes != [] ==> g.at < |g.nodes|)
  }

  /** `ring'` and `item` are what the cache and the allocator left for the new node. */
  lemma PutOk(cells: map<Ptr, Node>, ring: seq<Ptr>, ptr: Ptr, lst: Ptr, g: Content, ring': seq<Ptr>, item: Ptr, t: Payload)
    requires QueueOk(cells, ring, ptr, lst, g) && item != NULL && item !in g.nodes
    requires Nodes(ring') == Nodes(ring) - {item} && (item in cells ==> item in Nodes(ring))
    ensures QueueOk(Published(cells, ptr, item, t), ring', item, if ptr == NULL then item else lst,
                    Content(g.nodes + [item], g.vals + [t], g.taken, if ptr == NULL then 0 else g.at))
  {
    ChainNonNull(cells, g.nodes, g.vals, g.taken);
    ChainAppend(cells, g.nodes, g.vals, g.taken, item, t);
    NodesAppend(g.nodes, item);
  }

  // ----- recycling -----

  /** `gone` is linked by `next`, newest first, in allocated memory. */
  ghost predicate Walkable(cells: map<Ptr, Node>, gone: seq<Ptr>) {
    && NULL !in cells
    && (forall i :: 0 <= i < |gone| ==> gone[i] in cells)
    && (forall i :: 0 <= i < |gone| ==> WalkAt(cells, gone, i))
    && (forall i, j :: 0 <= i < j < |gone| ==> gone[i] != gone[j])
  }

  ghost predicate WalkAt(cells: map<Ptr, Node>, gone: seq<Ptr>, i: int)
    requires 0 <= i < |gone| && gone[i] in cells
  {
    cells[gone[i]].next == Nth(gone, i - 1)
  }

  /** The nodes `gone` went into the ring; what is neither in the ring any more nor outside of both was freed. */
  ghost predicate Recycled(cells: map<Ptr, Node>, ring: seq<Ptr>, gone: set<Ptr>, cells': map<Ptr, Node>, ring': seq<Ptr>) {
    && Nodes(ring') <= Nodes(ring) + gone
    && cells'.Keys == cells.Keys - gone - Nodes(ring) + Nodes(ring')
    && (forall p :: p in cells' && p in cells ==> cells'[p] == cells[p])
  }

  lemma SuffixNodes(gone: seq<Ptr>, k: nat)
    requires k < |gone| && forall i, j :: 0 <= i < j < |gone| ==> gone[i] != gone[j]
    ensures NodesOf(gone[k..]) == NodesOf(gone[k + 1..]) + {gone[k]} && gone[k] !in NodesOf(gone[k + 1..])
  {
    assert gone[k..] == [gone[k]] + gone[k + 1..];
  }

  lemma StillThere(cells: map<Ptr, Node>, ring: seq<Ptr>, gone: set<Ptr>, cells': map<Ptr, Node>, ring': seq<Ptr>, p: Ptr)
    requires Recycled(cells, ring, gone, cells', ring') && p in cells && p !in gone && p !in Nodes(ring)
    ensures p in cells' && cells'[p] == cells[p]
  {
  }

  lemma RecycledNext(cells: map<Ptr, Node>, ring: seq<Ptr>, gone: set<Ptr>, cells1: map<Ptr, Node>, ring1: seq<Ptr>,
                     p: Ptr, was: Ptr, cells': map<Ptr, Node>, ring': seq<Ptr>)
    requires Recycled(cells, ring, gone, cells1, ring1) && p != NULL && p in cells && p !in gone && p !in Nodes(ring)
    requires (was != NULL ==> was in Nodes(ring1)) && Nodes(ring1) <= cells.Keys && was != p
    requires Nodes(ring') == Nodes(ring1) - Just(was) + Just(p) && cells' == cells1 - Just(was)
    ensures Recycled(cells, ring, gone + {p}, cells', ring')
  {
  }

  // ----- get -----

  /** The content once everything older than `lst` is gone from the chain. */
  function Cut(g: Content): Content
    requires g.at <= g.taken && g.at <= |g.nodes| && g.at <= |g.vals|
  {
    Content(g.nodes[g.at..], g.vals[g.at..], g.taken - g.at, 0)
  }

  /** What the node at position `i` says about itself. */
  lemma NodeIs(cells: map<Ptr, Node>, ring: seq<Ptr>, ptr: Ptr, lst: Ptr, g: Content, i: nat)
    requires QueueOk(cells, ring, ptr, lst, g) && i < |g.nodes|
    ensures |g.vals| == |g.nodes| && g.nodes[i] in cells && g.nodes[i] != NULL
    ensures cells[g.nodes[i]] == Node(Nth(g.nodes, i - 1), Nth(g.nodes, i + 1), i < g.taken, i < g.taken, g.vals[i])
  {
    assert ChainAt(cells, g.nodes, g.vals, g.taken, i);
  }

  lemma TailWalkable(cells: map<Ptr, Node>, ring: seq<Ptr>, ptr: Ptr, lst: Ptr, g: Content)
    requires QueueOk(cells, ring, ptr, lst, g) && lst != NULL
    ensures Walkable(cells, g.nodes[..g.at]) && NodesOf(g.nodes[..g.at]) !! Nodes(ring)
    ensures lst in cells && cells[lst].next == Nth(g.nodes[..g.at], g.at - 1)
  {
    NodeIs(cells, ring, ptr, lst, g, g.at);
    ChainWalkable(cells, g.nodes, g.vals, g.taken);
    PrefixWalkable(cells, g.nodes, g.at);
    PrefixApart(g.nodes, g.at, ring);
  }

  /** A chain is linked by `next`. */
  lemma ChainWalkable(cells: map<Ptr, Node>, chain: seq<Ptr>, vals: seq<Payload>, taken: nat)
    requires ChainOk(cells, chain, vals, taken) && NULL !in cells
    ensures Walkable(cells, chain)
  {
    forall i | 0 <= i < |chain| ensures chain[i] in cells && WalkAt(cells, chain, i) {
      assert ChainAt(cells, chain, vals, taken, i);
    }
  }

  lemma PrefixWalkable(cells: map<Ptr, Node>, chain: seq<Ptr>, n: nat)
    requires Walkable(cells, chain) && n <= |chain|
    ensures Walkable(cells, chain[..n])
  {
    forall i | 0 <= i < n ensures WalkAt(cells, chain[..n], i) {
      assert WalkAt(cells, chain, i);
    }
  }

  lemma PrefixApart(chain: seq<Ptr>, n: nat, ring: seq<Ptr>)
    requires NodesOf(chain) !! Nodes(ring) && n <= |chain|
    ensures NodesOf(chain[..n]) !! Nodes(ring)
  {
    assert forall p :: p in chain[..n] ==> p in NodesOf(chain);
  }

  lemma CutContents(g: Content)
    requires g.at <= g.taken <= |g.vals| && g.at <= |g.nodes|
    ensures Cut(g).vals[Cut(g).taken..] == g.vals[g.taken..]
  {
  }

  /** The nodes from `lst` on are still where they were, and all others went into the ring or were freed. */
  lemma TailKept(cells: map<Ptr, Node>, ring: seq<Ptr>, chain: seq<Ptr>, a: nat, cells1: map<Ptr, Node>, ring1: seq<Ptr>)
    requires Owned(cells, chain, ring) && a <= |chain| && forall i, j :: 0 <= i < j < |chain| ==> chain[i] != chain[j]
    requires Recycled(cells, ring, NodesOf(chain[..a]), cells1, ring1)
    ensures Owned(cells1, chain[a..], ring1)
    ensures forall p :: p in chain[a..] && p in cells ==> p in cells1 && cells1[p] == cells[p]
  {
    NodesSplit(chain, a);
    forall p | p in chain[a..] && p in cells ensures p in cells1 && cells1[p] == cells[p] {
      assert p in NodesOf(chain[a..]) && p in NodesOf(chain);
    }
  }

  lemma CutEnds(g: Content)
    requires g.at <= g.taken && g.at < |g.nodes| && g.at <= |g.vals|
    ensures Nth(Cut(g).nodes, 0) == Nth(g.nodes, g.at)
    ensures Nth(Cut(g).nodes, |Cut(g).nodes| - 1) == Nth(g.nodes, |g.nodes| - 1)
  {
  }

  lemma TailOk(cells: map<Ptr, Node>, ring: seq<Ptr>, ptr: Ptr, lst: Ptr, g: Content, cells1: map<Ptr, Node>, ring1: seq<Ptr>)
    requires QueueOk(cells, ring, ptr, lst, g) && lst != NULL
    requires Recycled(cells, ring, NodesOf(g.nodes[..g.at]), cells1, ring1)
    ensures lst in cells1 && QueueOk(cells1[lst := cells1[lst].(next := NULL)], ring1, ptr, lst, Cut(g))
  {
    TailKept(cells, ring, g.nodes, g.at, cells1, ring1);
    NullGone(cells, ring, NodesOf(g.nodes[..g.at]), cells1, ring1);
    CutChain(cells, g, cells1);
    OwnedStore(cells1, Cut(g).nodes, ring1, lst, cells1[lst].(next := NULL));
    CutOk(cells1[lst := cells1[lst].(next := NULL)], ring1, ptr, lst, g);
  }

  lemma CutChain(cells: map<Ptr, Node>, g: Content, cells': map<Ptr, Node>)
    requires ChainOk(cells, g.nodes, g.vals, g.taken) && g.at <= g.taken && g.at < |g.nodes|
    requires forall p :: p in g.nodes[g.at..] && p in cells ==> p in cells' && cells'[p] == cells[p]
    ensures var lst := g.nodes[g.at];
      lst in cells' && ChainOk(cells'[lst := cells'[lst].(next := NULL)], Cut(g).nodes, Cut(g).vals, Cut(g).taken)
  {
    ChainCut(cells, g.nodes, g.vals, g.taken, g.at, cells');
  }

  lemma NullGone(cells: map<Ptr, Node>, ring: seq<Ptr>, gone: set<Ptr>, cells': map<Ptr, Node>, ring': seq<Ptr>)
    requires Recycled(cells, ring, gone, cells', ring') && NULL !in cells
    ensures NULL !in cells'
  {
  }

  lemma CutOk(cells: map<Ptr, Node>, ring: seq<Ptr>, ptr: Ptr, lst: Ptr, g: Content)
    requires g.at <= g.taken && g.at < |g.nodes| && g.at <= |g.vals| && NULL !in cells
    requires ptr == Nth(g.nodes, |g.nodes| - 1) && lst == Nth(g.nodes, g.at)
    requires ChainOk(cells, Cut(g).nodes, Cut(g).vals, Cut(g).taken) && Owned(cells, Cut(g).nodes, ring)
    ensures QueueOk(cells, ring, ptr, lst, Cut(g))
  {
    CutEnds(g);
  }

  lemma OwnedStore(cells: map<Ptr, Node>, chain: seq<Ptr>, ring: seq<Ptr>, p: Ptr, node: Node)
    requires Owned(cells, chain, ring) && p in cells
    ensures Owned(cells[p := node], chain, ring)
  {
    assert cells[p := node].Keys == cells.Keys;
  }

  /** All that teardown needs: from `ptr` along `next` lies the chain, and every allocated node is there or in the ring. */
  ghost predicate Droppable(cells: map<Ptr, Node>, ring: seq<Ptr>, ptr: Ptr, chain: seq<Ptr>) {
    Walkable(cells, chain) && Owned(cells, chain, ring) && ptr == Nth(chain, |chain| - 1)
  }

  lemma QueueDroppable(cells: map<Ptr, Node>, ring: seq<Ptr>, ptr: Ptr, lst: Ptr, g: Content)
    requires QueueOk(cells, ring, ptr, lst, g)
    ensures Droppable(cells, ring, ptr, g.nodes)
  {
    ChainWalkable(cells, g.nodes, g.vals, g.taken);
  }

  const EMPTY := Content([], [], 0, 0)

  lemma ClaimOk(cells: map<Ptr, Node>, ring: seq<Ptr>, ptr: Ptr, lst: Ptr, g: Content, lst': Ptr, at': nat)
    requires QueueOk(cells, ring, ptr, lst, g) && g.taken < |g.nodes| && g.nodes[g.taken] in cells
    requires at' < |g.nodes| && at' <= g.taken + 1 && lst' == g.nodes[at']
    ensures QueueOk(cells[g.nodes[g.taken] := cells[g.nodes[g.taken]].(claimed := true, needrel := true)], ring, ptr, lst',
                    g.(taken := g.taken + 1, at := at'))
  {
    ChainClaim(cells, g.nodes, g.vals, g.taken);
  }

  /** Where `lst` is once the node at `g.taken` has been claimed. */
  function Onward(g: Content, first: bool): nat {
    if first && Nth(g.nodes, g.taken + 1) != NULL then g.at + 1 else g.at
  }

  lemma ClaimIs(cells: map<Ptr, Node>, ring: seq<Ptr>, ptr: Ptr, lst: Ptr, g: Content, cur: Ptr, first: bool)
    requires QueueOk(cells, ring, ptr, lst, g) && g.taken < |g.nodes| && cur == g.nodes[g.taken]
    requires first ==> g.at == g.taken && lst == cur
    ensures |g.vals| == |g.nodes| && cur in cells && cells[cur].payload == g.vals[g.taken]
    ensures cells[cur := cells[cur].(claimed := true, needrel := true)].Keys == cells.Keys
    ensures QueueOk(cells[cur := cells[cur].(claimed := true, needrel := true)], ring, ptr,
                    if first && cells[cur].prev != NULL && lst == cur then cells[cur].prev else lst,
                    g.(taken := g.taken + 1, at := Onward(g, first)))
  {
    NodeIs(cells, ring, ptr, lst, g, g.taken);
    ClaimOk(cells, ring, ptr, lst, g, Nth(g.nodes, Onward(g, first)), Onward(g, first));
  }

  class InfiniteLinkQueue {
    const mem: Memory
    const recycle: PointerCache
    var ptr: Ptr
    var lst: Ptr
    var len: nat
    var doingrel: bool
    ghost var g: Content

    ghost predicate Valid()
      reads this, recycle, recycle.block, mem
    {
      recycle.mem == mem && recycle.Valid() && QueueOk(mem.cells, recycle.ring, ptr, lst, g) && !doingrel
    }

    /** The items put and not yet got. */
    ghost function Contents(): seq<Payload>
      requires g.taken <= |g.vals|
      reads this
    {
      g.vals[g.taken..]
    }

    /** The queue is the only user of `mem`. */
    constructor (mem: Memory)
      requires mem.Valid() && mem.cells == map[]
      ensures Valid() && this.mem == mem && Contents() == [] && len == 0 && fresh(recycle) && fresh(recycle.block)
    {
      this.mem := mem;
      recycle := new PointerCache(mem, 10);
      ptr, lst, len, doingrel := NULL, NULL, 0, false;
      g := EMPTY;
    }

    /** A node for a new item: a recycled one, reset, or one from the allocator. */
    method NewItem(t: Payload) returns (item: Ptr)
      requires Valid()
      modifies recycle`pos, recycle`ring, recycle.block, mem
      ensures recycle.Valid() && item != NULL && item !in g.nodes
      ensures mem.cells == old(mem.cells)[item := Node(NULL, NULL, false, false, t)]
      ensures Nodes(recycle.ring) == Nodes(old(recycle.ring)) - {item}
      ensures item in old(mem.cells) ==> item in Nodes(old(recycle.ring))
    {
      ChainNonNull(mem.cells, g.nodes, g.vals, g.taken);
      item := recycle.Pop();
      if item != NULL {
        mem.Store(item, Node(NULL, NULL, false, false, t));
      } else {
        item := mem.Alloc(Node(NULL, NULL, false, false, t));
      }
    }

    method Put(t: Payload)
      requires Valid()
      modifies this, recycle`pos, recycle`ring, recycle.block, mem
      ensures Valid() && Contents() == old(Contents()) + [t] && len == AddWord(old(len), 1)
    {
      var item := NewItem(t);
      PutOk(old(mem.cells), old(recycle.ring), ptr, lst, g, recycle.ring, item, t);
      PublishedAgain(old(mem.cells), ptr, item, t);
      ghost var g' := Content(g.nodes + [item], g.vals + [t], g.taken, if ptr == NULL then 0 else g.at);
      assert g'.vals[g'.taken..] == g.vals[g.taken..] + [t];
      Link(item, t);
      len := AddWord(len, 1);
      g := g';
    }

    /** The item becomes the newest. */
    method Link(item: Ptr, ghost t: Payload)
      requires mem.Valid() && item in mem.cells && mem.cells[item] == Node(NULL, NULL, false, false, t) && item != ptr
      requires NULL !in mem.cells && (ptr != NULL ==> ptr in mem.cells)
      modifies this`ptr, this`lst, mem`cells
      ensures mem.Valid() && mem.cells == Published(old(mem.cells), old(ptr), item, t)
      ensures ptr == item && lst == if old(ptr) == NULL then item else old(lst)
    {
      var oldhead := ptr;
      ptr := item;
      mem.Store(item, mem.cells[item].(next := oldhead));
      if oldhead != NULL {
        mem.Store(oldhead, mem.cells[oldhead].(prev := item));
      } else {
        lst := item;
      }
    }

    /** One node goes into the ring, and may push another one out of it; the next older node is next. */
    method PushOne(cur: Ptr, ghost cells0: map<Ptr, Node>, ghost ring0: seq<Ptr>, ghost done: set<Ptr>) returns (ncur: Ptr)
      requires recycle.mem == mem && recycle.Valid() && Recycled(cells0, ring0, done, mem.cells, recycle.ring)
      requires cur != NULL && cur in cells0 && cur !in done && cur !in Nodes(ring0) && cur in mem.cells
      requires Nodes(ring0) <= cells0.Keys && done <= cells0.Keys
      modifies recycle`pos, recycle`ring, recycle.block, mem`cells
      ensures recycle.Valid() && Recycled(cells0, ring0, done + {cur}, mem.cells, recycle.ring)
      ensures ncur == old(mem.cells)[cur].next
    {
      ncur := mem.cells[cur].next;
      ghost var was := recycle.ring[Slot(recycle.mask + 1, recycle.pos)];
      recycle.Push(cur);
      RecycledNext(cells0, ring0, done, old(mem.cells), old(recycle.ring), cur, was, mem.cells, recycle.ring);
    }

    /** The loop of `taildealloc` and of `deallocall`: from `start` along `next`, every node goes into the ring. */
    method PushAll(start: Ptr, ghost gone: seq<Ptr>)
      requires recycle.mem == mem && recycle.Valid() && Walkable(mem.cells, gone) && NodesOf(gone) !! Nodes(recycle.ring)
      requires start == Nth(gone, |gone| - 1)
      modifies recycle`pos, recycle`ring, recycle.block, mem`cells
      ensures recycle.Valid() && Recycled(old(mem.cells), old(recycle.ring), NodesOf(gone), mem.cells, recycle.ring)
    {
      var cur := start;
      ghost var k := |gone|;
      assert gone[k..] == [];
      while cur != NULL
        invariant recycle.Valid() && 0 <= k <= |gone| && cur == Nth(gone, k - 1)
        invariant Recycled(old(mem.cells), old(recycle.ring), NodesOf(gone[k..]), mem.cells, recycle.ring)
        decreases k
      {
        k := k - 1;
        assert WalkAt(old(mem.cells), gone, k) && cur in NodesOf(gone);
        SuffixNodes(gone, k);
        StillThere(old(mem.cells), old(recycle.ring), NodesOf(gone[k + 1..]), mem.cells, recycle.ring, cur);
        cur := PushOne(cur, old(mem.cells), old(recycle.ring), NodesOf(gone[k + 1..]));
      }
      assert gone[k..] == gone;
    }

    /** Frees anything older than `after`, but not `after` itself. */
    method TailDealloc(after: Ptr)
      requires recycle.mem == mem && recycle.Valid() && QueueOk(mem.cells, recycle.ring, ptr, lst, g)
      requires after == lst != NULL
      modifies this`g, recycle`pos, recycle`ring, recycle.block, mem`cells
      ensures recycle.Valid() && QueueOk(mem.cells, recycle.ring, ptr, lst, g) && g == Cut(old(g))
    {
      TailWalkable(mem.cells, recycle.ring, ptr, lst, g);
      var cur := mem.cells[after].next;
      PushAll(cur, g.nodes[..g.at]);
      TailOk(old(mem.cells), old(recycle.ring), ptr, lst, g, mem.cells, recycle.ring);
      mem.Store(after, mem.cells[after].(next := NULL));
      g := Cut(g);
    }

    /** The first half of `get`: recycle what lies behind a claimed `lst`, and step over it. */
    method Advance() returns (cur: Ptr)
      requires Valid() && lst != NULL
      modifies this`lst, this`doingrel, this`g, recycle`pos, recycle`ring, recycle.block, mem`cells
      ensures Valid() && Contents() == old(Contents())
      ensures if cur == NULL then g.taken == |g.nodes| else cur == lst
    {
      cur := lst;
      NodeIs(mem.cells, recycle.ring, ptr, lst, g, g.at);
      if mem.cells[cur].needrel && !doingrel {
        doingrel := true;
        CutContents(g);
        TailDealloc(cur);
        doingrel := false;
      }
      cur := StepOver(cur);
    }

    /** A claimed `lst` moves on, if there is a newer node. */
    method StepOver(was: Ptr) returns (cur: Ptr)
      requires Valid() && was == lst != NULL
      modifies this`lst, this`g
      ensures Valid() && g.nodes == old(g.nodes) && g.vals == old(g.vals) && g.taken == old(g.taken)
      ensures if cur == NULL then g.taken == |g.nodes| else cur == lst
    {
      cur := was;
      NodeIs(mem.cells, recycle.ring, ptr, lst, g, g.at);
      if mem.cells[cur].needrel {
        var nlst := mem.cells[cur].prev;
        if nlst != NULL && lst == cur {
          lst := nlst;
          g := g.(at := g.at + 1);
        }
        cur := nlst;
      }
    }

    /** Marks the node, and moves `lst` on from it if `lst` is there and a newer node exists. */
    method Take(cur: Ptr, first: bool) returns (r: Payload)
      requires mem.Valid() && cur in mem.cells
      modifies this`lst, this`len, mem`cells
      ensures mem.Valid() && r == old(mem.cells)[cur].payload && len == SubWord(old(len), 1)
      ensures mem.cells == old(mem.cells)[cur := old(mem.cells)[cur].(claimed := true, needrel := true)]
      ensures var nlst := old(mem.cells)[cur].prev;
        lst == if first && nlst != NULL && old(lst) == cur then nlst else old(lst)
    {
      mem.Store(cur, mem.cells[cur].(claimed := true));
      len := SubWord(len, 1);
      if first {
        var nlst := mem.cells[cur].prev;
        if nlst != NULL && lst == cur { lst := nlst; }
      }
      r := mem.cells[cur].payload;
      mem.Store(cur, mem.cells[cur].(needrel := true));
    }

    /** Takes the oldest unclaimed node. */
    method Claim(cur: Ptr, first: bool) returns (r: Payload)
      requires Valid() && g.taken < |g.nodes| && cur == g.nodes[g.taken] && (first ==> g.at == g.taken && lst == cur)
      modifies this`lst, this`len, this`g, mem`cells
      ensures Valid() && |g.vals| == |g.nodes| && g.nodes == old(g.nodes) && g.vals == old(g.vals)
      ensures g.taken == old(g.taken) + 1 && r == g.vals[old(g.taken)] && len == SubWord(old(len), 1)
    {
      ClaimIs(mem.cells, recycle.ring, ptr, lst, g, cur, first);
      ghost var g' := g.(taken := g.taken + 1, at := Onward(g, first));
      r := Take(cur, first);
      assert recycle.Valid() && QueueOk(mem.cells, recycle.ring, ptr, lst, g');
      g := g';
    }

    /** The oldest item, or nothing exactly if there is none. */
    method Get() returns (r: Option<Payload>)
      requires Valid()
      modifies this, recycle`pos, recycle`ring, recycle.block, mem`cells
      ensures Valid()
      ensures if old(Contents()) == [] then r == None && Contents() == [] && len == old(len)
              else r == Some(old(Contents())[0]) && Contents() == old(Contents())[1..] && len == SubWord(old(len), 1)
    {
      if lst == NULL { return None; }
      var cur := Advance();
      var first := true;
      ghost var p := g.at;
      while cur != NULL
        invariant Valid() && Contents() == old(Contents()) && len == old(len)
        invariant if cur == NULL then g.taken == |g.nodes| else p <= g.taken && cur == Nth(g.nodes, p)
        invariant first && cur != NULL ==> p == g.at
        decreases |g.nodes| - p
      {
        NodeIs(mem.cells, recycle.ring, ptr, lst, g, p);
        if !mem.cells[cur].claimed {
          var payload := Claim(cur, first);
          return Some(payload);
        }
        first := false;
        cur := mem.cells[cur].prev;
        p := p + 1;
      }
      return None;
    }

    /** Moves the whole chain into the ring. */
    method DeallocAll()
      requires recycle.mem == mem && recycle.Valid() && Droppable(mem.cells, recycle.ring, ptr, g.nodes)
      modifies this`ptr, this`lst, this`g, recycle`pos, recycle`ring, recycle.block, mem`cells
      ensures recycle.Valid() && mem.cells.Keys == Nodes(recycle.ring) && g == EMPTY && ptr == lst == NULL
    {
      var after := ptr;
      ptr := NULL;
      lst := NULL;
      PushAll(after, g.nodes);
      g := EMPTY;
    }

    /** `Drop`, followed by the drop of the cache: every node that is still allocated is freed, once. */
    method Drop()
      requires recycle.mem == mem && recycle.Valid() && Droppable(mem.cells, recycle.ring, ptr, g.nodes)
      modifies this`ptr, this`lst, this`g, recycle`pos, recycle`ring, recycle.block, mem`cells
      ensures mem.cells == map[] && recycle.Valid() && Nodes(recycle.ring) == {}
    {
      DeallocAll();
      recycle.Drop();
    }
  }

  // ----- any mix of operations -----

  datatype Op = DoPut(t: Payload) | DoGet

  /** A sequence after one operation. */
  function Then(q: seq<Payload>, op: Op): seq<Payload> {
    if op.DoPut? then q + [op.t] else if q == [] then q else q[1..]
  }

  /** What the operation answers: a put nothing, a get the oldest item if there is one. */
  function Answer(q: seq<Payload>, op: Op): seq<Option<Payload>> {
    if op.DoPut? then [] else if q == [] then [None] else [Some(q[0])]
  }

  function After(q: seq<Payload>, ops: seq<Op>): seq<Payload>
    decreases |ops|
  {
    if ops == [] then q else After(Then(q, ops[0]), ops[1..])
  }

  function Answers(q: seq<Payload>, ops: seq<Op>): seq<Option<Payload>>
    decreases |ops|
  {
    if ops == [] then [] else Answer(q, ops[0]) + Answers(Then(q, ops[0]), ops[1..])
  }

  /** `len` as a word tells the number of items. */
  ghost predicate Tells(len: nat, q: seq<Payload>) {
    len == |q| % WORD
  }

  lemma TellsPut(len: nat, q: seq<Payload>, t: Payload)
    requires Tells(len, q)
    ensures Tells(AddWord(len, 1), q + [t])
  {
    AddWordTwice(|q|, 0);
  }

  lemma TellsGet(len: nat, q: seq<Payload>)
    requires Tells(len, q) && q != []
    ensures Tells(SubWord(len, 1), q[1..])
  {
  }

  method UseOnce(q: InfiniteLinkQueue, op: Op) returns (answer: seq<Option<Payload>>)
    requires q.Valid() && Tells(q.len, q.Contents())
    modifies q, q.recycle`pos, q.recycle`ring, q.recycle.block, q.mem
    ensures q.Valid() && Tells(q.len, q.Contents())
    ensures q.Contents() == Then(old(q.Contents()), op) && answer == Answer(old(q.Contents()), op)
  {
    if op.DoPut? {
      TellsPut(q.len, q.Contents(), op.t);
      q.Put(op.t);
      answer := [];
    } else {
      if q.Contents() != [] { TellsGet(q.len, q.Contents()); }
      var r := q.Get();
      answer := [r];
    }
  }

  /** The queue answers like a sequence, and `len` is the number of its items modulo the word size. */
  method Use(q: InfiniteLinkQueue, ops: seq<Op>) returns (answers: seq<Option<Payload>>)
    requires q.Valid() && Tells(q.len, q.Contents())
    modifies q, q.recycle`pos, q.recycle`ring, q.recycle.block, q.mem
    ensures q.Valid() && Tells(q.len, q.Contents())
    ensures q.Contents() == After(old(q.Contents()), ops) && answers == Answers(old(q.Contents()), ops)
  {
    answers := [];
    ghost var start := q.Contents();
    for i := 0 to |ops|
      invariant q.Valid() && Tells(q.len, q.Contents())
      invariant After(start, ops) == After(q.Contents(), ops[i..])
      invariant Answers(start, ops) == answers + Answers(q.Contents(), ops[i..])
    {
      UseNext(q.Contents(), ops[i..], answers);
      assert ops[i..][1..] == ops[i + 1..];
      var answer := UseOnce(q, ops[i]);
      answers := answers + answer;
    }
  }

  lemma UseNext(q: seq<Payload>, ops: seq<Op>, answers: seq<Option<Payload>>)
    requires ops != []
    ensures After(q, ops) == After(Then(q, ops[0]), ops[1..])
    ensures answers + Answers(q, ops) == answers + Answer(q, ops[0]) + Answers(Then(q, ops[0]), ops[1..])
  {
  }

  /** From any mix of operations to the end: the queue answers like a sequence, and dropping it leaves no node allocated. */
  method UseAndDrop(q: InfiniteLinkQueue, ops: seq<Op>) returns (answers: seq<Option<Payload>>)
    requires q.Valid() && Tells(q.len, q.Contents())
    modifies q, q.recycle`pos, q.recycle`ring, q.recycle.block, q.mem
    ensures answers == Answers(old(q.Contents()), ops) && q.mem.cells == map[]
  {
    answers := Use(q, ops);
    QueueDroppable(q.mem.cells, q.recycle.ring, q.ptr, q.lst, q.g);
    q.Drop();
  }
}
