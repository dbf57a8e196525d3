/** Every atomic operation of `put` keeps the invariant of the link queue. */
module LinkQueuePutSteps {
  import opened Base
  import opened LinkQueueModel
  import opened LinkQueueInvariant

  // ----- a node comes from the pointer cache -----

  lemma PutPopKeeps(m: Mode, s: State, t: nat, v: Payload, slot: nat)
    requires Inv(m, s) && t < |s.pcs| && s.pcs[t] == PutPop(v, slot) && slot < |s.slots|
    ensures Inv(m, PutPopStep(s, t, v, slot))
  {
    var s' := PutPopStep(s, t, v, slot);
    if s.slots[slot] == NULL {
      PutPopEmpty(m, s, t, v, slot);
      ControlKeeps(m, s, s', t);
    } else {
      PutPopTaken(m, s, t, v, slot);
    }
  }

  lemma PutPopEmpty(m: Mode, s: State, t: nat, v: Payload, slot: nat)
    requires t < |s.pcs| && s.pcs[t] == PutPop(v, slot) && slot < |s.slots| && s.slots[slot] == NULL
    ensures Goes(m, s, t, PutPop(v, slot), PutAlloc(v)) && PutPopStep(s, t, v, slot) == At(s, t, PutAlloc(v))
  {
  }

  lemma PutPopTaken(m: Mode, s: State, t: nat, v: Payload, slot: nat)
    requires Inv(m, s) && t < |s.pcs| && s.pcs[t] == PutPop(v, slot) && slot < |s.slots| && s.slots[slot] != NULL
    ensures Inv(m, PutPopStep(s, t, v, slot))
  {
    var s' := PutPopStep(s, t, v, slot);
    PutPopFrame(m, s, t, v, slot);
    PutPopLocal(m, s, t, v, slot);
    ThreadsKeep(m, s, s', t);
    PutPopPlaced(m, s, t, v, slot);
    NodesSame(s, s');
    EndsSame(s, s', t);
  }

  lemma PutPopLocal(m: Mode, s: State, t: nat, v: Payload, slot: nat)
    requires t < |s.pcs| && s.pcs[t] == PutPop(v, slot) && slot < |s.slots| && s.slots[slot] != NULL
    ensures Local(m, s, PutPopStep(s, t, v, slot), t) && NotLinking(s.pcs[t])
  {
  }

  lemma PutPopFrame(m: Mode, s: State, t: nat, v: Payload, slot: nat)
    requires Shape(m, s) && Placed(s) && t < |s.pcs| && s.pcs[t] == PutPop(v, slot) && slot < |s.slots|
    requires s.slots[slot] != NULL
    ensures var s' := PutPopStep(s, t, v, slot);
      Extends(s, s') && SameNodes(s, s') && SameEnds(s, s') && OthersKept(s, s', t) && Shape(m, s')
  {
    var s' := PutPopStep(s, t, v, slot);
    assert s.place[s.slots[slot]] == Cached(slot);
    assert s'.place.Keys == s.place.Keys;
    PlaceFrames(s, s', t);
  }

  lemma PutPopPlaced(m: Mode, s: State, t: nat, v: Payload, slot: nat)
    requires Shape(m, s) && Placed(s) && t < |s.pcs| && s.pcs[t] == PutPop(v, slot) && slot < |s.slots|
    requires s.slots[slot] != NULL
    ensures Placed(PutPopStep(s, t, v, slot))
  {
    var s' := PutPopStep(s, t, v, slot);
    assert s.place[s.slots[slot]] == Cached(slot);
    assert forall i :: Live(s', i) <==> Live(s, i);
    assert forall p :: p in s.place && s.place[p].Hand? ==> s.place[p].thread != t;
  }

  // ----- a private node is prepared -----

  lemma PutResetKeeps(m: Mode, s: State, t: nat, v: Payload, item: Ptr)
    requires Inv(m, s) && t < |s.pcs| && s.pcs[t] == PutReset(v, item)
    ensures Inv(m, PutResetStep(s, t, v, item))
  {
    var s' := PutResetStep(s, t, v, item);
    PutResetHand(s, t, v, item);
    PutResetOthers(s, t, v, item);
    PutResetFrame(m, s, t, v, item);
    PutResetLocal(m, s, t, v, item);
    ThreadsKeep(m, s, s', t);
    PlacedSame(s, s', t);
    NodesSame(s, s');
    EndsSame(s, s', t);
  }

  lemma PutResetHand(s: State, t: nat, v: Payload, item: Ptr)
    requires Placed(s) && Putters(s) && t < |s.pcs| && s.pcs[t] == PutReset(v, item)
    ensures item != NULL && item in s.place && s.place[item] == Hand(t)
  {
    assert PutterOk(s, t, s.pcs[t]);
    assert Held(s.pcs[t]) == item;
  }

  lemma PutResetLocal(m: Mode, s: State, t: nat, v: Payload, item: Ptr)
    requires t < |s.pcs| && s.pcs[t] == PutReset(v, item) && item != NULL
    ensures var s' := PutResetStep(s, t, v, item);
      Local(m, s, s', t) && NotLinking(s.pcs[t]) && Held(s'.pcs[t]) == Held(s.pcs[t]) && SamePlaces(s, s')
  {
  }

  /** A node in a thread's hand is not one that another thread prepares or links. */
  lemma OthersItems(s: State, t: nat, u: nat, item: Ptr)
    requires Placed(s) && Putters(s) && u < |s.pcs| && t != u && item in s.place && s.place[item] == Hand(t)
    ensures s.pcs[u].PutSwap? || s.pcs[u].PutLink? ==> s.pcs[u].item != item
  {
    assert PutterOk(s, u, s.pcs[u]);
    if s.pcs[u].PutSwap? { assert Held(s.pcs[u]) == s.pcs[u].item; }
  }

  lemma PutResetOthers(s: State, t: nat, v: Payload, item: Ptr)
    requires Placed(s) && Putters(s) && t < |s.pcs| && s.pcs[t] == PutReset(v, item)
    requires item in s.place && s.place[item] == Hand(t)
    ensures OthersKept(s, PutResetStep(s, t, v, item), t)
  {
    forall u | 0 <= u < |s.pcs| && u != t ensures s.pcs[u].PutSwap? || s.pcs[u].PutLink? ==> s.pcs[u].item != item {
      OthersItems(s, t, u, item);
    }
  }

  lemma PutResetFrame(m: Mode, s: State, t: nat, v: Payload, item: Ptr)
    requires Shape(m, s) && Placed(s) && t < |s.pcs| && s.pcs[t] == PutReset(v, item)
    requires item != NULL && item in s.place && s.place[item] == Hand(t)
    ensures var s' := PutResetStep(s, t, v, item); Extends(s, s') && SameNodes(s, s') && SameEnds(s, s') && Shape(m, s')
  {
    assert PutResetStep(s, t, v, item).heap.Keys == s.heap.Keys;
  }

  lemma PutAllocKeeps(m: Mode, s: State, t: nat, v: Payload, item: Ptr)
    requires Inv(m, s) && t < |s.pcs| && s.pcs[t] == PutAlloc(v) && item != NULL && item !in s.heap
    ensures Inv(m, PutAllocStep(s, t, v, item))
  {
    var s' := PutAllocStep(s, t, v, item);
    PutAllocFrame(m, s, t, v, item);
    PutAllocLocal(m, s, t, v, item);
    ThreadsKeep(m, s, s', t);
    PutAllocPlaced(m, s, t, v, item);
    NodesSame(s, s');
    EndsSame(s, s', t);
  }

  lemma PutAllocLocal(m: Mode, s: State, t: nat, v: Payload, item: Ptr)
    requires t < |s.pcs| && s.pcs[t] == PutAlloc(v) && item != NULL
    ensures Local(m, s, PutAllocStep(s, t, v, item), t) && NotLinking(s.pcs[t])
  {
  }

  lemma PutAllocFrame(m: Mode, s: State, t: nat, v: Payload, item: Ptr)
    requires Shape(m, s) && Placed(s) && t < |s.pcs| && s.pcs[t] == PutAlloc(v) && item != NULL && item !in s.heap
    ensures var s' := PutAllocStep(s, t, v, item);
      Extends(s, s') && SameNodes(s, s') && SameEnds(s, s') && OthersKept(s, s', t) && Shape(m, s')
  {
    var s' := PutAllocStep(s, t, v, item);
    assert s'.heap.Keys == s.heap.Keys + {item};
    assert s'.place.Keys == s.place.Keys + {item};
    PlaceFrames(s, s', t);
  }

  lemma PutAllocPlaced(m: Mode, s: State, t: nat, v: Payload, item: Ptr)
    requires Shape(m, s) && Placed(s) && t < |s.pcs| && s.pcs[t] == PutAlloc(v) && item != NULL && item !in s.heap
    ensures Placed(PutAllocStep(s, t, v, item))
  {
    var s' := PutAllocStep(s, t, v, item);
    assert forall i :: Live(s', i) <==> Live(s, i);
    assert forall p :: p in s.place && s.place[p].Hand? ==> s.place[p].thread != t;
  }

  // ----- the node is published -----

  lemma PutSwapKeeps(m: Mode, s: State, t: nat, item: Ptr)
    requires Inv(m, s) && t < |s.pcs| && s.pcs[t] == PutSwap(item) && item in s.heap
    ensures Inv(m, PutSwapStep(s, t, item))
  {
    PutSwapHand(s, t, item);
    PutSwapFrame(m, s, t, item);
    PutSwapThreads(m, s, t, item);
    PutSwapPlaced(m, s, t, item);
    PutSwapNodes(m, s, t, item);
    PutSwapEnds(m, s, t, item);
  }

  lemma PutSwapThreads(m: Mode, s: State, t: nat, item: Ptr)
    requires Shape(m, s) && Roles(m, s) && Placed(s) && Ends(s) && Putters(s) && Getters(m, s)
    requires t < |s.pcs| && s.pcs[t] == PutSwap(item) && item in s.heap && Extends(s, PutSwapStep(s, t, item))
    ensures var s' := PutSwapStep(s, t, item); Roles(m, s') && Putters(s') && Getters(m, s')
  {
    PutSwapOthers(s, t, item);
    if s.order != [] { LastIsInChain(m, s); }
    PutSwapLocal(m, s, t, item);
    ThreadsKeep(m, s, PutSwapStep(s, t, item), t);
  }

  lemma PutSwapHand(s: State, t: nat, item: Ptr)
    requires Placed(s) && Putters(s) && t < |s.pcs| && s.pcs[t] == PutSwap(item)
    ensures item != NULL && item in s.place && s.place[item] == Hand(t)
    ensures item in s.heap && s.heap[item] == Node(NULL, NULL, false, false, s.heap[item].payload)
  {
    assert PutterOk(s, t, s.pcs[t]);
    assert Held(s.pcs[t]) == item;
  }

  lemma PutSwapFrame(m: Mode, s: State, t: nat, item: Ptr)
    requires Shape(m, s) && t < |s.pcs| && s.pcs[t] == PutSwap(item) && item in s.heap
    requires item in s.place && s.place[item] == Hand(t)
    ensures var s' := PutSwapStep(s, t, item); Extends(s, s') && Shape(m, s')
  {
    assert PutSwapStep(s, t, item).place.Keys == s.place.Keys;
  }

  lemma PutSwapOthers(s: State, t: nat, item: Ptr)
    requires Ends(s) && t < |s.pcs| && s.pcs[t] == PutSwap(item) && item in s.heap
    ensures OthersKept(s, PutSwapStep(s, t, item), t)
  {
  }

  lemma PutSwapPlaced(m: Mode, s: State, t: nat, item: Ptr)
    requires Shape(m, s) && Placed(s) && t < |s.pcs| && s.pcs[t] == PutSwap(item) && item in s.heap
    requires item != NULL && item in s.place && s.place[item] == Hand(t)
    ensures Placed(PutSwapStep(s, t, item))
  {
    var s' := PutSwapStep(s, t, item);
    assert Held(s.pcs[t]) == item;
    assert forall i :: Live(s', i) <==> Live(s, i) || i == |s.order|;
  }

  lemma PutSwapLocal(m: Mode, s: State, t: nat, item: Ptr)
    requires t < |s.pcs| && s.pcs[t] == PutSwap(item) && item in s.heap && s.keep <= |s.order|
    requires s.ptr == if s.order == [] then NULL else s.order[|s.order| - 1]
    requires s.order != [] ==> InChain(s, s.ptr) && s.place[s.ptr].at == |s.order| - 1
    requires s.order != [] ==> InChain(PutSwapStep(s, t, item), s.ptr) && PutSwapStep(s, t, item).place[s.ptr] == s.place[s.ptr]
    ensures Local(m, s, PutSwapStep(s, t, item), t)
  {
    assert InChain(PutSwapStep(s, t, item), item);
  }

  /** The newest node is still in the chain: the tail is freed only up to a claimed node that stays. */
  lemma LastIsInChain(m: Mode, s: State)
    requires Shape(m, s) && Placed(s) && Ends(s) && |s.order| > 0
    ensures InChain(s, s.order[|s.order| - 1]) && s.place[s.order[|s.order| - 1]].at == |s.order| - 1
  {
    assert s.lst != NULL ==> s.keep < |s.order|;
    assert Live(s, |s.order| - 1);
  }

  lemma PutSwapNodes(m: Mode, s: State, t: nat, item: Ptr)
    requires Shape(m, s) && Nodes(s) && Ends(s) && t < |s.pcs| && s.pcs[t] == PutSwap(item)
    requires item in s.heap && s.heap[item] == Node(NULL, NULL, false, false, s.heap[item].payload)
    ensures Nodes(PutSwapStep(s, t, item))
  {
    var s' := PutSwapStep(s, t, item);
    forall i | Live(s', i) && s'.order[i] in s'.heap ensures NodeAt(s', i) {
      if i < |s.order| {
        assert Live(s, i) && NodeAt(s, i);
      }
    }
  }

  lemma PutSwapEnds(m: Mode, s: State, t: nat, item: Ptr)
    requires Shape(m, s) && Ends(s) && t < |s.pcs| && s.pcs[t] == PutSwap(item) && item in s.heap
    requires Extends(s, PutSwapStep(s, t, item))
    ensures Ends(PutSwapStep(s, t, item))
  {
    var s' := PutSwapStep(s, t, item);
    if s.lst != NULL { ReachedKeeps(s, s', s.lst); }
    forall i | i in s'.pending
      ensures s'.served <= i < |s'.order| && s'.pending[i] < |s'.pcs| && Linking(s', s'.pending[i], i)
    {
      if i != |s.order| { assert Linking(s, s.pending[i], i); }
    }
  }

  // ----- the node is linked -----

  lemma PutNextKeeps(m: Mode, s: State, t: nat, item: Ptr, oldhead: Ptr)
    requires Inv(m, s) && t < |s.pcs| && s.pcs[t] == PutNext(item, oldhead) && item in s.heap
    ensures Inv(m, PutNextStep(s, t, item, oldhead))
  {
    var s' := PutNextStep(s, t, item, oldhead);
    LinkingOk(s, t, item, oldhead);
    PutNextFrame(m, s, t, item, oldhead);
    PutNextOthers(s, t, item, oldhead);
    PutNextLocal(m, s, t, item, oldhead);
    ThreadsKeep(m, s, s', t);
    PlacedSame(s, s', t);
    PutNextNodes(s, t, item, oldhead);
    PutNextEnds(s, t, item, oldhead);
  }

  lemma LinkingOk(s: State, t: nat, item: Ptr, oldhead: Ptr)
    requires Putters(s) && t < |s.pcs| && (s.pcs[t] == PutNext(item, oldhead) || s.pcs[t] == PutLink(item, oldhead))
    ensures LinkOk(s, t, item, oldhead)
    ensures s.pcs[t].PutLink? ==> item in s.heap && s.heap[item].next == oldhead
  {
    assert PutterOk(s, t, s.pcs[t]);
  }

  lemma PutNextFrame(m: Mode, s: State, t: nat, item: Ptr, oldhead: Ptr)
    requires Shape(m, s) && t < |s.pcs| && s.pcs[t] == PutNext(item, oldhead) && item in s.heap
    ensures var s' := PutNextStep(s, t, item, oldhead); Extends(s, s') && Shape(m, s')
  {
    assert PutNextStep(s, t, item, oldhead).heap.Keys == s.heap.Keys;
  }

  lemma PutNextLocal(m: Mode, s: State, t: nat, item: Ptr, oldhead: Ptr)
    requires t < |s.pcs| && s.pcs[t] == PutNext(item, oldhead) && item in s.heap && LinkOk(s, t, item, oldhead)
    ensures var s' := PutNextStep(s, t, item, oldhead);
      Local(m, s, s', t) && Held(s'.pcs[t]) == Held(s.pcs[t]) && SamePlaces(s, s')
  {
    assert LinkOk(PutNextStep(s, t, item, oldhead), t, item, oldhead);
  }

  /** Threads that prepare or link nodes have different ones. */
  lemma OtherLinks(s: State, t: nat, u: nat, item: Ptr, oldhead: Ptr)
    requires Placed(s) && Putters(s) && u < |s.pcs| && t != u && LinkOk(s, t, item, oldhead)
    ensures s.pcs[u].PutSwap? || s.pcs[u].PutLink? ==> s.pcs[u].item != item
    ensures s.pcs[u].PutSwap? && oldhead != NULL ==> s.pcs[u].item != oldhead
  {
    assert PutterOk(s, u, s.pcs[u]);
    if s.pcs[u].PutSwap? { assert Held(s.pcs[u]) == s.pcs[u].item; }
  }

  lemma PutNextOthers(s: State, t: nat, item: Ptr, oldhead: Ptr)
    requires Placed(s) && Putters(s) && t < |s.pcs| && s.pcs[t] == PutNext(item, oldhead) && item in s.heap
    requires LinkOk(s, t, item, oldhead)
    ensures OthersKept(s, PutNextStep(s, t, item, oldhead), t)
  {
    forall u | 0 <= u < |s.pcs| && u != t ensures s.pcs[u].PutSwap? || s.pcs[u].PutLink? ==> s.pcs[u].item != item {
      OtherLinks(s, t, u, item, oldhead);
    }
  }

  lemma PutNextNodes(s: State, t: nat, item: Ptr, oldhead: Ptr)
    requires Placed(s) && Nodes(s) && t < |s.pcs| && s.pcs[t] == PutNext(item, oldhead) && item in s.heap
    requires LinkOk(s, t, item, oldhead)
    ensures Nodes(PutNextStep(s, t, item, oldhead))
  {
    var s' := PutNextStep(s, t, item, oldhead);
    forall i | Live(s', i) && s'.order[i] in s'.heap ensures NodeAt(s', i) {
      assert Live(s, i) && NodeAt(s, i);
      assert s.place[s.order[i]] == Chain(i);
    }
  }

  lemma PutNextEnds(s: State, t: nat, item: Ptr, oldhead: Ptr)
    requires Ends(s) && t < |s.pcs| && s.pcs[t] == PutNext(item, oldhead) && item in s.heap
    requires Extends(s, PutNextStep(s, t, item, oldhead))
    ensures Ends(PutNextStep(s, t, item, oldhead))
  {
    var s' := PutNextStep(s, t, item, oldhead);
    if s.lst != NULL { ReachedKeeps(s, s', s.lst); }
    forall i | i in s'.pending ensures s'.pending[i] < |s'.pcs| && i < |s'.order| && Linking(s', s'.pending[i], i) {
      assert Linking(s, s.pending[i], i);
    }
  }

  lemma PutLinkKeeps(m: Mode, s: State, t: nat, item: Ptr, oldhead: Ptr)
    requires Inv(m, s) && t < |s.pcs| && s.pcs[t] == PutLink(item, oldhead) && (oldhead != NULL ==> oldhead in s.heap)
    ensures Inv(m, PutLinkStep(s, t, item, oldhead))
  {
    LinkingOk(s, t, item, oldhead);
    PutLinkFirst(m, s, t, item, oldhead);
    PutLinkThreads(m, s, t, item, oldhead);
    PutLinkNodes(m, s, t, item, oldhead);
    PutLinkLst(m, s, t, item, oldhead);
    PutLinkPending(m, s, t, item, oldhead);
    EndsFrom(s, PutLinkStep(s, t, item, oldhead));
  }

  lemma EndsFrom(s: State, s': State)
    requires Ends(s) && s'.ptr == s.ptr && s'.order == s.order && LstOk(s') && PendingOk(s')
    ensures Ends(s')
  {
  }

  lemma PutLinkThreads(m: Mode, s: State, t: nat, item: Ptr, oldhead: Ptr)
    requires Shape(m, s) && Roles(m, s) && Placed(s) && Putters(s) && Getters(m, s)
    requires t < |s.pcs| && s.pcs[t] == PutLink(item, oldhead) && (oldhead != NULL ==> oldhead in s.heap)
    requires LinkOk(s, t, item, oldhead) && First(s, item, oldhead)
    ensures var s' := PutLinkStep(s, t, item, oldhead);
      Shape(m, s') && Roles(m, s') && Placed(s') && Putters(s') && Getters(m, s') && Extends(s, s')
  {
    PutLinkFrame(m, s, t, item, oldhead);
    PutLinkLocal(m, s, t, item, oldhead);
    PutLinkOthers(s, t, item, oldhead);
    ThreadsKeep(m, s, PutLinkStep(s, t, item, oldhead), t);
    PlacedSame(s, PutLinkStep(s, t, item, oldhead), t);
  }

  /** Only the first node of all has no older head, and `lst` is still null then. */
  lemma PutLinkFirst(m: Mode, s: State, t: nat, item: Ptr, oldhead: Ptr)
    requires Shape(m, s) && Ends(s) && LinkOk(s, t, item, oldhead)
    ensures First(s, item, oldhead)
  {
    if s.place[item].at > 0 {
      assert InChain(s, oldhead) && oldhead in s.place;
    }
  }

  ghost predicate First(s: State, item: Ptr, oldhead: Ptr) {
    && item != NULL
    && (oldhead == NULL <==> Position(s, item) == 0)
    && (oldhead == NULL ==> s.lst == NULL)
  }

  lemma PutLinkFrame(m: Mode, s: State, t: nat, item: Ptr, oldhead: Ptr)
    requires Shape(m, s) && t < |s.pcs| && s.pcs[t] == PutLink(item, oldhead)
    requires (oldhead != NULL ==> oldhead in s.heap) && LinkOk(s, t, item, oldhead) && First(s, item, oldhead)
    ensures var s' := PutLinkStep(s, t, item, oldhead); Extends(s, s') && Shape(m, s')
  {
    assert PutLinkStep(s, t, item, oldhead).heap.Keys == s.heap.Keys;
  }

  lemma PutLinkLocal(m: Mode, s: State, t: nat, item: Ptr, oldhead: Ptr)
    requires t < |s.pcs| && s.pcs[t] == PutLink(item, oldhead) && (oldhead != NULL ==> oldhead in s.heap)
    ensures var s' := PutLinkStep(s, t, item, oldhead);
      Local(m, s, s', t) && Held(s'.pcs[t]) == Held(s.pcs[t]) && SamePlaces(s, s')
  {
  }

  lemma PutLinkOthers(s: State, t: nat, item: Ptr, oldhead: Ptr)
    requires Placed(s) && Putters(s) && t < |s.pcs| && s.pcs[t] == PutLink(item, oldhead)
    requires (oldhead != NULL ==> oldhead in s.heap) && LinkOk(s, t, item, oldhead)
    ensures OthersKept(s, PutLinkStep(s, t, item, oldhead), t)
  {
    forall u | 0 <= u < |s.pcs| && u != t ensures s.pcs[u].PutSwap? && oldhead != NULL ==> s.pcs[u].item != oldhead {
      OtherLinks(s, t, u, item, oldhead);
    }
    assert s.pending[Position(s, item)] == t;
  }

  lemma PutLinkNodes(m: Mode, s: State, t: nat, item: Ptr, oldhead: Ptr)
    requires Shape(m, s) && Placed(s) && Nodes(s) && t < |s.pcs| && s.pcs[t] == PutLink(item, oldhead)
    requires (oldhead != NULL ==> oldhead in s.heap) && LinkOk(s, t, item, oldhead) && First(s, item, oldhead)
    requires item in s.heap && s.heap[item].next == oldhead
    ensures Nodes(PutLinkStep(s, t, item, oldhead))
  {
    var s' := PutLinkStep(s, t, item, oldhead);
    forall i | Live(s', i) && s'.order[i] in s'.heap ensures NodeAt(s', i) {
      assert Live(s, i) && NodeAt(s, i);
      assert s.place[s.order[i]] == Chain(i);
      PutLinkNode(m, s, t, item, oldhead, i);
    }
  }

  lemma PutLinkNode(m: Mode, s: State, t: nat, item: Ptr, oldhead: Ptr, i: nat)
    requires Shape(m, s) && t < |s.pcs| && s.pcs[t] == PutLink(item, oldhead)
    requires (oldhead != NULL ==> oldhead in s.heap) && LinkOk(s, t, item, oldhead) && First(s, item, oldhead)
    requires item in s.heap && s.heap[item].next == oldhead
    requires i < |s.order| && s.order[i] in s.heap && NodeAt(s, i) && s.place[s.order[i]] == Chain(i)
    requires s.order[s.place[item].at] == item
    ensures NodeAt(PutLinkStep(s, t, item, oldhead), i)
  {
    var s' := PutLinkStep(s, t, item, oldhead);
    var at := s.place[item].at;
    assert i + 1 in s'.pending <==> i + 1 in s.pending && i + 1 != at;
    if i == at {
      assert at > 0 ==> s.lo < at;
    } else if i + 1 == at {
      assert s.order[i] == oldhead;
    } else {
      assert s'.heap[s.order[i]] == s.heap[s.order[i]];
    }
  }

  lemma PutLinkLst(m: Mode, s: State, t: nat, item: Ptr, oldhead: Ptr)
    requires Shape(m, s) && Ends(s) && t < |s.pcs| && s.pcs[t] == PutLink(item, oldhead)
    requires (oldhead != NULL ==> oldhead in s.heap) && LinkOk(s, t, item, oldhead) && First(s, item, oldhead)
    requires Extends(s, PutLinkStep(s, t, item, oldhead))
    ensures LstOk(PutLinkStep(s, t, item, oldhead)) && PutLinkStep(s, t, item, oldhead).ptr == s.ptr
    ensures PutLinkStep(s, t, item, oldhead).order == s.order
  {
    if s.lst != NULL { ReachedKeeps(s, PutLinkStep(s, t, item, oldhead), s.lst); }
  }

  lemma PutLinkPending(m: Mode, s: State, t: nat, item: Ptr, oldhead: Ptr)
    requires Shape(m, s) && Placed(s) && Ends(s) && t < |s.pcs| && s.pcs[t] == PutLink(item, oldhead)
    requires (oldhead != NULL ==> oldhead in s.heap) && LinkOk(s, t, item, oldhead)
    ensures PendingOk(PutLinkStep(s, t, item, oldhead))
  {
    var s' := PutLinkStep(s, t, item, oldhead);
    forall i | i in s'.pending
      ensures s'.served <= i < |s'.order| && s'.pending[i] < |s'.pcs| && Linking(s', s'.pending[i], i)
    {
      OtherPending(m, s, t, item, oldhead, i);
    }
  }

  /** Any other pending position is pending on another thread. */
  lemma OtherPending(m: Mode, s: State, t: nat, item: Ptr, oldhead: Ptr, i: nat)
    requires Shape(m, s) && ChainPlaced(s) && PendingOk(s) && t < |s.pcs| && s.pcs[t] == PutLink(item, oldhead)
    requires LinkOk(s, t, item, oldhead) && i in s.pending && i != Position(s, item)
    ensures s.served <= i < |s.order| && s.pending[i] < |s.pcs| && s.pending[i] != t && Linking(s, s.pending[i], i)
  {
    assert Linking(s, s.pending[i], i) && Live(s, i);
  }
}
