/** Every atomic operation of `taildealloc` keeps the invariant of the link queue. */
module LinkQueueDeallocSteps {
  import opened Base
  import opened LinkQueueModel
  import opened LinkQueueInvariant
  import opened LinkQueueLoadSteps

  /** Only the consumer frees nodes, so no other thread is inside `get` while it does. */
  lemma ConsumerAlone(m: Mode, s: State, s': State, t: nat)
    requires Roles(m, s) && OneThread(s, s', t) && InDealloc(s.pcs[t]) && GetterOk(m, s', s'.pcs[t])
    ensures m.Recycling? && t == m.consumer && Getters(m, s')
  {
    forall u | 0 <= u < |s'.pcs| ensures GetterOk(m, s', s'.pcs[u]) {
      if u != t { assert !InGet(s.pcs[u]); }
    }
  }

  // ----- entering the walk -----

  lemma DeNextKeeps(m: Mode, s: State, t: nat, after: Ptr)
    requires Inv(m, s) && t < |s.pcs| && s.pcs[t] == DeNext(after) && after in s.heap
    ensures Inv(m, DeNextStep(s, t, after))
  {
    var s' := DeNextStep(s, t, after);
    GetterHere(m, s, t);
    ReachedNode(m, s, after);
    DeNextShape(m, s, t, after);
    DeNextLocal(m, s, t, after);
    ConsumerAlone(m, s, s', t);
    RolesKeep(m, s, s', t);
    DeNextPutters(m, s, t, after);
    DeNextPlaced(s, t, after);
    NodesSame(s, s');
    DeNextEnds(s, t, after);
  }

  lemma DeNextShape(m: Mode, s: State, t: nat, after: Ptr)
    requires Shape(m, s) && t < |s.pcs| && s.pcs[t] == DeNext(after) && after in s.heap
    requires GetterOk(m, s, s.pcs[t]) && RoleOk(m, t, s.pcs[t])
    ensures s.cut == s.keep && Shape(m, DeNextStep(s, t, after)) && SameNodes(s, DeNextStep(s, t, after))
  {
    var s' := DeNextStep(s, t, after);
    assert forall i :: Live(s', i) <==> Live(s, i);
  }

  lemma DeNextLocal(m: Mode, s: State, t: nat, after: Ptr)
    requires Shape(m, s) && t < |s.pcs| && s.pcs[t] == DeNext(after) && after in s.heap && Known(s, after)
    requires GetterOk(m, s, s.pcs[t]) && RoleOk(m, t, s.pcs[t]) && LstOk(s)
    ensures Local(m, s, DeNextStep(s, t, after), t)
  {
    var s' := DeNextStep(s, t, after);
    assert InChain(s', s.lst) && Position(s', s.lst) == Position(s, s.lst);
  }

  lemma DeNextPutters(m: Mode, s: State, t: nat, after: Ptr)
    requires Putters(s) && t < |s.pcs| && s.pcs[t] == DeNext(after) && after in s.heap && Reached(s, after)
    ensures Putters(DeNextStep(s, t, after))
  {
    var s' := DeNextStep(s, t, after);
    forall u | 0 <= u < |s'.pcs| ensures PutterOk(s', u, s'.pcs[u]) {
      if u != t { DeNextPutter(s, t, after, u); }
    }
  }

  /** A node being linked, and the head it links to, are newer than everything that will be freed. */
  lemma DeNextPutter(s: State, t: nat, after: Ptr, u: nat)
    requires Putters(s) && t < |s.pcs| && s.pcs[t] == DeNext(after) && after in s.heap && Reached(s, after)
    requires u < |s.pcs| && u != t
    ensures PutterOk(DeNextStep(s, t, after), u, s.pcs[u])
  {
    assert PutterOk(s, u, s.pcs[u]);
    if !NotLinking(s.pcs[u]) { assert s.place[after].at < s.place[s.pcs[u].item].at; }
  }

  lemma DeNextPlaced(s: State, t: nat, after: Ptr)
    requires Placed(s) && t < |s.pcs| && s.pcs[t] == DeNext(after) && after in s.heap && Reached(s, after)
    requires s.cut == s.keep && s.lo <= s.keep
    ensures Placed(DeNextStep(s, t, after))
  {
    var s' := DeNextStep(s, t, after);
    assert forall i :: Live(s', i) <==> Live(s, i);
  }

  lemma DeNextEnds(s: State, t: nat, after: Ptr)
    requires Ends(s) && t < |s.pcs| && s.pcs[t] == DeNext(after) && after in s.heap && NotPast(s, after)
    ensures Ends(DeNextStep(s, t, after))
  {
    var s' := DeNextStep(s, t, after);
    PendingSame(s, s', t);
    assert Reached(s', s.lst);
  }

  // ----- a node goes into the pointer cache -----

  lemma DeSlotKeeps(m: Mode, s: State, t: nat, after: Ptr, cur: Ptr, ncur: Ptr, slot: nat)
    requires Inv(m, s) && t < |s.pcs| && s.pcs[t] == DeSlot(after, cur, ncur, slot) && slot < |s.slots|
    ensures Inv(m, DeSlotStep(s, t, after, cur, ncur, slot))
  {
    GetterHere(m, s, t);
    RetiredNode(m, s);
    SlotPlace(s, slot);
    DeSlotThreads(m, s, t, after, cur, ncur, slot);
    DeSlotPlaced(m, s, t, after, cur, ncur, slot);
    DeSlotChainSame(m, s, t, after, cur, ncur, slot);
  }

  lemma DeSlotChainSame(m: Mode, s: State, t: nat, after: Ptr, cur: Ptr, ncur: Ptr, slot: nat)
    requires Nodes(s) && Ends(s) && SlotStep(s, t, after, cur, ncur, slot)
    requires var s' := DeSlotStep(s, t, after, cur, ncur, slot);
      Grows(s, s') && SameNodes(s, s') && SameEnds(s, s') && OneThread(s, s', t) && NotLinking(s.pcs[t])
    ensures Nodes(DeSlotStep(s, t, after, cur, ncur, slot)) && Ends(DeSlotStep(s, t, after, cur, ncur, slot))
  {
    var s' := DeSlotStep(s, t, after, cur, ncur, slot);
    NodesSame(s, s');
    EndsSame(s, s', t);
  }

  lemma DeSlotThreads(m: Mode, s: State, t: nat, after: Ptr, cur: Ptr, ncur: Ptr, slot: nat)
    requires Shape(m, s) && Roles(m, s) && LstOk(s) && Putters(s) && SlotStep(s, t, after, cur, ncur, slot)
    requires GetterOk(m, s, s.pcs[t]) && RoleOk(m, t, s.pcs[t])
    ensures var s' := DeSlotStep(s, t, after, cur, ncur, slot);
      && Shape(m, s') && Roles(m, s') && Putters(s') && Getters(m, s')
      && Grows(s, s') && SameNodes(s, s') && SameEnds(s, s') && OneThread(s, s', t) && NotLinking(s.pcs[t])
  {
    var s' := DeSlotStep(s, t, after, cur, ncur, slot);
    DeSlotFrame(m, s, t, after, cur, ncur, slot);
    DeSlotLocal(m, s, t, after, cur, ncur, slot);
    ConsumerAlone(m, s, s', t);
    RolesKeep(m, s, s', t);
    PuttersKeep(m, s, s', t);
  }

  lemma SlotPlace(s: State, slot: nat)
    requires Placed(s) && slot < |s.slots|
    ensures s.slots[slot] != NULL ==> s.slots[slot] in s.place && s.place[s.slots[slot]] == Cached(slot)
  {
  }

  ghost predicate SlotStep(s: State, t: nat, after: Ptr, cur: Ptr, ncur: Ptr, slot: nat) {
    && t < |s.pcs| && s.pcs[t] == DeSlot(after, cur, ncur, slot) && slot < |s.slots|
    && s.lo < s.cut <= s.keep && s.cut <= |s.order| && cur == s.order[s.cut - 1]
    && cur in s.place && s.place[cur] == Chain(s.cut - 1)
    && (s.slots[slot] != NULL ==> s.slots[slot] in s.place && s.place[s.slots[slot]] == Cached(slot))
  }

  lemma DeSlotFrame(m: Mode, s: State, t: nat, after: Ptr, cur: Ptr, ncur: Ptr, slot: nat)
    requires Shape(m, s) && LstOk(s) && SlotStep(s, t, after, cur, ncur, slot) && RoleOk(m, t, s.pcs[t])
    ensures var s' := DeSlotStep(s, t, after, cur, ncur, slot);
      Grows(s, s') && SameNodes(s, s') && SameEnds(s, s') && OthersKept(s, s', t) && Shape(m, s')
  {
    assert DeSlotStep(s, t, after, cur, ncur, slot).place.Keys == s.place.Keys;
  }

  lemma DeSlotLocal(m: Mode, s: State, t: nat, after: Ptr, cur: Ptr, ncur: Ptr, slot: nat)
    requires SlotStep(s, t, after, cur, ncur, slot) && Grows(s, DeSlotStep(s, t, after, cur, ncur, slot))
    requires GetterOk(m, s, s.pcs[t]) && RoleOk(m, t, s.pcs[t])
    ensures Local(m, s, DeSlotStep(s, t, after, cur, ncur, slot), t) && NotLinking(s.pcs[t])
  {
    var s' := DeSlotStep(s, t, after, cur, ncur, slot);
    DeSlotWalks(m, s, t, after, cur, ncur, slot);
    SlotGoes(m, s, s', t, after, ncur, s.slots[slot]);
  }

  /** The walk is one node further. */
  lemma DeSlotWalks(m: Mode, s: State, t: nat, after: Ptr, cur: Ptr, ncur: Ptr, slot: nat)
    requires SlotStep(s, t, after, cur, ncur, slot) && Grows(s, DeSlotStep(s, t, after, cur, ncur, slot))
    requires GetterOk(m, s, s.pcs[t])
    ensures var s' := DeSlotStep(s, t, after, cur, ncur, slot); WalkOk(s', after) && ncur == Back(s', s'.cut)
  {
    ReachedKeeps(s, DeSlotStep(s, t, after, cur, ncur, slot), after);
  }

  lemma SlotGoes(m: Mode, s: State, s': State, t: nat, after: Ptr, ncur: Ptr, was: Ptr)
    requires WalkOk(s', after) && ncur == Back(s', s'.cut) && m.Recycling? && MayGet(m, t)
    ensures GetterOk(m, s', DeWalk(after, ncur)) && RoleOk(m, t, DeWalk(after, ncur))
    ensures was != NULL ==> GetterOk(m, s', DeFree(after, ncur, was)) && RoleOk(m, t, DeFree(after, ncur, was))
  {
  }

  lemma DeSlotPlaced(m: Mode, s: State, t: nat, after: Ptr, cur: Ptr, ncur: Ptr, slot: nat)
    requires Shape(m, s) && Placed(s) && SlotStep(s, t, after, cur, ncur, slot)
    ensures Placed(DeSlotStep(s, t, after, cur, ncur, slot))
  {
    DeSlotChain(m, s, t, after, cur, ncur, slot);
    DeSlotSlots(m, s, t, after, cur, ncur, slot);
    DeSlotHands(m, s, t, after, cur, ncur, slot);
  }

  lemma DeSlotChain(m: Mode, s: State, t: nat, after: Ptr, cur: Ptr, ncur: Ptr, slot: nat)
    requires Shape(m, s) && ChainPlaced(s) && SlotStep(s, t, after, cur, ncur, slot)
    ensures ChainPlaced(DeSlotStep(s, t, after, cur, ncur, slot))
  {
    var s' := DeSlotStep(s, t, after, cur, ncur, slot);
    assert forall i :: Live(s', i) <==> Live(s, i) && i != s.cut - 1;
  }

  lemma DeSlotSlots(m: Mode, s: State, t: nat, after: Ptr, cur: Ptr, ncur: Ptr, slot: nat)
    requires Shape(m, s) && SlotsPlaced(s) && SlotStep(s, t, after, cur, ncur, slot)
    ensures SlotsPlaced(DeSlotStep(s, t, after, cur, ncur, slot))
  {
  }

  lemma DeSlotHands(m: Mode, s: State, t: nat, after: Ptr, cur: Ptr, ncur: Ptr, slot: nat)
    requires HandsPlaced(s) && SlotStep(s, t, after, cur, ncur, slot) && NULL !in s.place
    ensures HandsPlaced(DeSlotStep(s, t, after, cur, ncur, slot))
  {
    HandIs(s, t);
    if s.slots[slot] == NULL {
      EmptyHands(s, t, after, cur, ncur, slot);
    } else {
      FullHands(s, t, after, cur, ncur, slot);
    }
  }

  lemma EmptyHands(s: State, t: nat, after: Ptr, cur: Ptr, ncur: Ptr, slot: nat)
    requires HandsPlaced(s) && SlotStep(s, t, after, cur, ncur, slot) && s.slots[slot] == NULL && NULL !in s.place
    requires forall p: Ptr :: InHand(s, p, t) ==> p == Held(s.pcs[t])
    ensures HandsPlaced(DeSlotStep(s, t, after, cur, ncur, slot))
  {
    HandsMove(s, DeSlotStep(s, t, after, cur, ncur, slot), t);
  }

  lemma FullHands(s: State, t: nat, after: Ptr, cur: Ptr, ncur: Ptr, slot: nat)
    requires HandsPlaced(s) && SlotStep(s, t, after, cur, ncur, slot) && s.slots[slot] != NULL && NULL !in s.place
    requires forall p: Ptr :: InHand(s, p, t) ==> p == Held(s.pcs[t])
    ensures HandsPlaced(DeSlotStep(s, t, after, cur, ncur, slot))
  {
    HandsMove(s, DeSlotStep(s, t, after, cur, ncur, slot), t);
  }

  // ----- what the slot held is freed -----

  lemma DeFreeKeeps(m: Mode, s: State, t: nat, after: Ptr, ncur: Ptr, was: Ptr)
    requires Inv(m, s) && t < |s.pcs| && s.pcs[t] == DeFree(after, ncur, was)
    ensures Inv(m, DeFreeStep(s, t, after, ncur, was))
  {
    var s' := DeFreeStep(s, t, after, ncur, was);
    GetterHere(m, s, t);
    DeFreeHand(m, s, t, after, ncur, was);
    DeFreeFrame(m, s, t, after, ncur, was);
    DeFreeOthers(s, t, after, ncur, was);
    DeFreeLocal(m, s, t, after, ncur, was);
    ConsumerAlone(m, s, s', t);
    RolesKeep(m, s, s', t);
    PuttersKeep(m, s, s', t);
    DeFreePlaced(m, s, t, after, ncur, was);
    NodesSame(s, s');
    EndsSame(s, s', t);
  }

  lemma DeFreeHand(m: Mode, s: State, t: nat, after: Ptr, ncur: Ptr, was: Ptr)
    requires Placed(s) && t < |s.pcs| && s.pcs[t] == DeFree(after, ncur, was) && GetterOk(m, s, s.pcs[t])
    ensures was != NULL && was in s.place && s.place[was] == Hand(t)
  {
    assert Held(s.pcs[t]) == was;
  }

  lemma DeFreeFrame(m: Mode, s: State, t: nat, after: Ptr, ncur: Ptr, was: Ptr)
    requires Shape(m, s) && t < |s.pcs| && s.pcs[t] == DeFree(after, ncur, was) && was in s.place && s.place[was] == Hand(t)
    ensures var s' := DeFreeStep(s, t, after, ncur, was);
      Grows(s, s') && SameNodes(s, s') && SameEnds(s, s') && Shape(m, s')
  {
    var s' := DeFreeStep(s, t, after, ncur, was);
    assert forall i :: Live(s', i) <==> Live(s, i);
  }

  lemma DeFreeOthers(s: State, t: nat, after: Ptr, ncur: Ptr, was: Ptr)
    requires Placed(s) && Putters(s) && t < |s.pcs| && s.pcs[t] == DeFree(after, ncur, was)
    requires was in s.place && s.place[was] == Hand(t)
    ensures OthersKept(s, DeFreeStep(s, t, after, ncur, was), t)
  {
    forall u | 0 <= u < |s.pcs| && u != t && (s.pcs[u].PutSwap? || s.pcs[u].PutLink?) ensures s.pcs[u].item != was {
      NotThatItem(s, t, u, was);
    }
  }

  lemma NotThatItem(s: State, t: nat, u: nat, was: Ptr)
    requires Placed(s) && Putters(s) && u < |s.pcs| && u != t && (s.pcs[u].PutSwap? || s.pcs[u].PutLink?)
    requires was in s.place && s.place[was] == Hand(t)
    ensures s.pcs[u].item != was
  {
    assert PutterOk(s, u, s.pcs[u]);
    if s.pcs[u].PutSwap? { assert Held(s.pcs[u]) == s.pcs[u].item; }
  }

  lemma DeFreeLocal(m: Mode, s: State, t: nat, after: Ptr, ncur: Ptr, was: Ptr)
    requires t < |s.pcs| && s.pcs[t] == DeFree(after, ncur, was) && Grows(s, DeFreeStep(s, t, after, ncur, was))
    requires GetterOk(m, s, s.pcs[t]) && RoleOk(m, t, s.pcs[t])
    ensures Local(m, s, DeFreeStep(s, t, after, ncur, was), t) && NotLinking(s.pcs[t])
  {
    ReachedKeeps(s, DeFreeStep(s, t, after, ncur, was), after);
  }

  lemma DeFreePlaced(m: Mode, s: State, t: nat, after: Ptr, ncur: Ptr, was: Ptr)
    requires Shape(m, s) && Placed(s) && t < |s.pcs| && s.pcs[t] == DeFree(after, ncur, was)
    requires was != NULL && was in s.place && s.place[was] == Hand(t)
    ensures Placed(DeFreeStep(s, t, after, ncur, was))
  {
    var s' := DeFreeStep(s, t, after, ncur, was);
    assert forall i :: Live(s', i) <==> Live(s, i);
    DeFreeHands(s, t, after, ncur, was);
  }

  lemma DeFreeHands(s: State, t: nat, after: Ptr, ncur: Ptr, was: Ptr)
    requires HandsPlaced(s) && t < |s.pcs| && s.pcs[t] == DeFree(after, ncur, was)
    requires was != NULL && was in s.place && s.place[was] == Hand(t)
    ensures HandsPlaced(DeFreeStep(s, t, after, ncur, was))
  {
    HandIs(s, t);
    HandsMove(s, DeFreeStep(s, t, after, ncur, was), t);
  }

  // ----- leaving the walk -----

  lemma DeEndKeeps(m: Mode, s: State, t: nat, after: Ptr)
    requires Inv(m, s) && t < |s.pcs| && s.pcs[t] == DeEnd(after) && after in s.heap
    ensures Inv(m, DeEndStep(s, t, after))
  {
    var s' := DeEndStep(s, t, after);
    GetterHere(m, s, t);
    ReachedNode(m, s, after);
    DeEndFrame(m, s, t, after);
    DeEndOthers(s, t, after);
    DeEndLocal(m, s, t, after);
    ConsumerAlone(m, s, s', t);
    RolesKeep(m, s, s', t);
    PuttersKeep(m, s, s', t);
    DeEndPlaced(m, s, t, after);
    DeEndNodes(m, s, t, after);
    EndsSame(s, s', t);
  }

  lemma DeEndFrame(m: Mode, s: State, t: nat, after: Ptr)
    requires Shape(m, s) && t < |s.pcs| && s.pcs[t] == DeEnd(after) && after in s.heap
    ensures var s' := DeEndStep(s, t, after); Grows(s, s') && SameEnds(s, s') && Shape(m, s')
  {
    assert DeEndStep(s, t, after).heap.Keys == s.heap.Keys;
  }

  lemma DeEndOthers(s: State, t: nat, after: Ptr)
    requires Placed(s) && Putters(s) && t < |s.pcs| && s.pcs[t] == DeEnd(after) && after in s.heap && Reached(s, after)
    ensures OthersKept(s, DeEndStep(s, t, after), t)
  {
    forall u | 0 <= u < |s.pcs| && (s.pcs[u].PutSwap? || s.pcs[u].PutLink?) ensures s.pcs[u].item != after {
      NotTheKept(s, u, after);
    }
  }

  lemma NotTheKept(s: State, u: nat, after: Ptr)
    requires Placed(s) && Putters(s) && u < |s.pcs| && (s.pcs[u].PutSwap? || s.pcs[u].PutLink?) && Reached(s, after)
    ensures s.pcs[u].item != after
  {
    assert PutterOk(s, u, s.pcs[u]);
    if s.pcs[u].PutSwap? { assert Held(s.pcs[u]) == s.pcs[u].item; }
  }

  lemma DeEndLocal(m: Mode, s: State, t: nat, after: Ptr)
    requires t < |s.pcs| && s.pcs[t] == DeEnd(after) && after in s.heap && Grows(s, DeEndStep(s, t, after))
    requires GetterOk(m, s, s.pcs[t]) && RoleOk(m, t, s.pcs[t])
    ensures Local(m, s, DeEndStep(s, t, after), t) && NotLinking(s.pcs[t])
  {
    ReachedKeeps(s, DeEndStep(s, t, after), after);
  }

  lemma DeEndPlaced(m: Mode, s: State, t: nat, after: Ptr)
    requires Shape(m, s) && Placed(s) && t < |s.pcs| && s.pcs[t] == DeEnd(after) && after in s.heap && s.lo == s.cut
    ensures Placed(DeEndStep(s, t, after))
  {
    var s' := DeEndStep(s, t, after);
    assert forall i :: Live(s', i) <==> Live(s, i);
  }

  lemma DeEndNodes(m: Mode, s: State, t: nat, after: Ptr)
    requires Shape(m, s) && Placed(s) && Nodes(s) && t < |s.pcs| && s.pcs[t] == DeEnd(after) && after in s.heap
    requires s.lo == s.cut && Known(s, after) && s.place[after].at == s.keep
    ensures Nodes(DeEndStep(s, t, after))
  {
    var s' := DeEndStep(s, t, after);
    forall i | Live(s', i) && s'.order[i] in s'.heap ensures NodeAt(s', i) {
      assert Live(s, i);
      if i != s.keep { NotAfter(s, i, after); }
      EndNode(s, t, after, i);
    }
  }

  lemma NotAfter(s: State, i: int, after: Ptr)
    requires ChainPlaced(s) && Live(s, i) && after in s.place && s.place[after] == Chain(s.keep) && i != s.keep
    ensures s.order[i] != after
  {
  }

  lemma EndNode(s: State, t: nat, after: Ptr, i: int)
    requires t < |s.pcs| && after in s.heap && s.lo == s.cut <= s.keep <= i < |s.order| && s.order[i] in s.heap && NodeAt(s, i)
    requires s.keep < |s.order| && s.order[s.keep] == after && (i != s.keep ==> s.order[i] != after)
    ensures NodeAt(DeEndStep(s, t, after), i)
  {
  }
}
