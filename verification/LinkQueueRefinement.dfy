/**
 The link queue is linearizable: `put` takes effect at its `ptr.swap` and `get` at its successful claim, or at
 the load of the null pointer that makes it return nothing. An item can be taken from its link on. Every step is a step
 of the atomic queue or changes nothing that a caller can see.
 */
module LinkQueueRefinement {
  import opened Base
  import opened LinkQueueModel
  import opened LinkQueueInvariant
  import opened LinkQueueLoadSteps
  import opened LinkQueuePutSteps
  import opened LinkQueueGetSteps
  import opened LinkQueueDeallocSteps
  import opened LinkQueueSafety
  import Spec = AtomicQueue

  function ValueAt(s: State, p: Ptr): Option<Payload> {
    if Position(s, p) < |s.vals| then Some(s.vals[Position(s, p)]) else None
  }

  function PhaseOf(s: State, pc: Pc): Spec.Phase {
    match pc
    case Idle => Spec.Resting
    case PutPos(v) => Spec.Putting(v)
    case PutPop(v, _) => Spec.Putting(v)
    case PutReset(v, _) => Spec.Putting(v)
    case PutAlloc(v) => Spec.Putting(v)
    case PutSwap(item) => if item in s.heap then Spec.Putting(s.heap[item].payload) else Spec.Resting
    case PutNext(item, _) => Spec.Put(Position(s, item))
    case PutLink(item, _) => Spec.Put(Position(s, item))
    case PutLen => Spec.Linked
    case GetSub(cur, _) => Spec.Got(ValueAt(s, cur))
    case GetAdvance(cur) => Spec.Got(ValueAt(s, cur))
    case GetAdvanceCas(cur, _) => Spec.Got(ValueAt(s, cur))
    case GetCopy(cur) => Spec.Got(ValueAt(s, cur))
    case GetMark(_, v) => Spec.Got(Some(v))
    case GetDone(r) => Spec.Got(r)
    case _ => Spec.Getting
  }

  function Abs(s: State): Spec.State {
    Spec.State(s.vals, s.served, seq(|s.pcs|, t requires 0 <= t < |s.pcs| => PhaseOf(s, s.pcs[t])))
  }

  ghost predicate Refines(s: State, s': State, t: nat) {
    Abs(s') == Abs(s) || Spec.Step(Abs(s), Abs(s'), t)
  }

  ghost predicate OthersSame(s: State, s': State, t: nat) {
    forall u :: 0 <= u < |s.pcs| && u != t ==> PhaseOf(s', s.pcs[u]) == PhaseOf(s, s.pcs[u])
  }

  lemma Moves(s: State, s': State, t: nat)
    requires OneThread(s, s', t) && OthersSame(s, s', t)
    ensures Spec.Move(Abs(s), Abs(s'), t, PhaseOf(s', s'.pcs[t]))
    ensures Abs(s).phases[t] == PhaseOf(s, s.pcs[t])
    ensures PhaseOf(s', s'.pcs[t]) == PhaseOf(s, s.pcs[t]) ==> Abs(s').phases == Abs(s).phases
  {
    var a, a' := Abs(s).phases, Abs(s').phases;
    assert a' == a[t := PhaseOf(s', s'.pcs[t])];
  }

  lemma Stutters(s: State, s': State, t: nat)
    requires OneThread(s, s', t) && OthersSame(s, s', t) && s'.vals == s.vals && s'.served == s.served
    requires PhaseOf(s', s'.pcs[t]) == PhaseOf(s, s.pcs[t])
    ensures Refines(s, s', t)
  {
    Moves(s, s', t);
  }

  lemma GrowsOthers(m: Mode, s: State, s': State, t: nat)
    requires Shape(m, s) && Getters(m, s) && Putters(s) && Grows(s, s') && OthersKept(s, s', t)
    ensures OthersSame(s, s', t)
  {
    forall u | 0 <= u < |s.pcs| && u != t ensures PhaseOf(s', s.pcs[u]) == PhaseOf(s, s.pcs[u]) {
      assert GetterOk(m, s, s.pcs[u]) && PutterOk(s, u, s.pcs[u]);
    }
  }

  lemma ControlOthers(s: State, s': State, t: nat)
    requires SameMemory(s, s')
    ensures OthersSame(s, s', t)
  {
  }

  /** A step that changes no more than `pos`, `len` and `doingrel`, within one phase. */
  lemma SilentRefines(s: State, s': State, t: nat)
    requires OneThread(s, s', t) && SameMemory(s, s') && PhaseOf(s, s'.pcs[t]) == PhaseOf(s, s.pcs[t])
    ensures Refines(s, s', t)
  {
    ControlOthers(s, s', t);
    Stutters(s, s', t);
  }

  /** A step that extends the chain, within one phase. */
  lemma ExtendingRefines(m: Mode, s: State, s': State, t: nat)
    requires Shape(m, s) && Getters(m, s) && Putters(s)
    requires Grows(s, s') && OthersKept(s, s', t) && OneThread(s, s', t) && SameNodes(s, s')
    requires PhaseOf(s', s'.pcs[t]) == PhaseOf(s, s.pcs[t])
    ensures Refines(s, s', t)
  {
    GrowsOthers(m, s, s', t);
    Stutters(s, s', t);
  }

  // ----- why a get finds nothing -----

  /** There is nothing to get: all items are taken, or the put of the oldest one that is left is still linking. */
  ghost predicate Waiting(s: State) {
    s.served == |s.order| || s.served in s.pending
  }

  lemma NullLst(m: Mode, s: State)
    requires Shape(m, s) && Ends(s)
    ensures s.lst == NULL <==> s.served == 0 && Waiting(s)
  {
    if s.lst != NULL && s.served == 0 { assert Reached(s, s.lst); }
  }

  /** A claimed node has no newer neighbour exactly if it was claimed last and there is nothing to get. */
  lemma NullPrev(m: Mode, s: State, cur: Ptr)
    requires Shape(m, s) && PendingOk(s) && ChainPlaced(s) && Claimed(s, cur) && Known(s, cur)
    ensures s.heap[cur].prev == NULL <==> s.place[cur].at + 1 == s.served && Waiting(s)
  {
    var i := s.place[cur].at;
    if i + 1 < |s.order| { assert Live(s, i + 1) && s.order[i + 1] != NULL; }
  }

  lemma BlockedIff(m: Mode, s: State)
    requires Shape(m, s) && ChainPlaced(s) && PendingOk(s) && Putters(s)
    ensures Spec.Available(Abs(s)) <==> !Waiting(s)
  {
    var a := Abs(s);
    if s.served in s.pending {
      var u := s.pending[s.served];
      assert Linking(s, u, s.served) && Live(s, s.served);
      assert a.phases[u] == Spec.Put(s.served);
    }
    if u :| 0 <= u < |a.phases| && a.phases[u] == Spec.Put(a.taken) {
      assert PutterOk(s, u, s.pcs[u]) && PhaseOf(s, s.pcs[u]) == Spec.Put(s.served);
      assert s.served in s.pending;
    }
  }

  lemma MissRefines(m: Mode, s: State, s': State, t: nat)
    requires Shape(m, s) && ChainPlaced(s) && PendingOk(s) && Putters(s)
    requires OneThread(s, s', t) && OthersSame(s, s', t) && s'.vals == s.vals && s'.served == s.served
    requires PhaseOf(s, s.pcs[t]) == Spec.Getting && s'.pcs[t] == GetDone(None) && Waiting(s)
    ensures Refines(s, s', t)
  {
    Moves(s, s', t);
    BlockedIff(m, s);
    assert Spec.Miss(Abs(s), Abs(s'), t);
  }

  // ----- step by step -----

  lemma CallRefines(m: Mode, s: State, s': State, t: nat)
    requires Shape(m, s) && t < |s.pcs| && CallStep(m, s, s', t)
    ensures Refines(s, s', t)
  {
    if v: Payload :| s' == At(s, t, PutPos(v)) {
      CallIs(s, t, PutPos(v));
    } else {
      CallIs(s, t, GetLst);
    }
  }

  lemma CallIs(s: State, t: nat, pc: Pc)
    requires t < |s.pcs| && s.pcs[t].Idle? && (pc.PutPos? || pc.GetLst?)
    ensures Refines(s, At(s, t, pc), t)
  {
    ControlOthers(s, At(s, t, pc), t);
    Calls(s, At(s, t, pc), t, PhaseOf(s, pc));
  }

  lemma Calls(s: State, s': State, t: nat, phase: Spec.Phase)
    requires OneThread(s, s', t) && OthersSame(s, s', t) && s'.vals == s.vals && s'.served == s.served && s.pcs[t].Idle?
    requires PhaseOf(s', s'.pcs[t]) == phase && (phase.Putting? || phase.Getting?)
    ensures Refines(s, s', t)
  {
    Moves(s, s', t);
    assert Spec.Call(Abs(s), Abs(s'), t);
  }

  lemma ReturnRefines(s: State, s': State, t: nat)
    requires OneThread(s, s', t) && OthersSame(s, s', t) && s'.vals == s.vals && s'.served == s.served
    requires s.pcs[t].PutLen? || s.pcs[t].GetDone?
    requires s'.pcs[t].Idle?
    ensures Refines(s, s', t)
  {
    Moves(s, s', t);
    assert Spec.Return(Abs(s), Abs(s'), t);
  }

  lemma PutPopRefines(m: Mode, s: State, t: nat, v: Payload, slot: nat)
    requires Shape(m, s) && Placed(s) && Getters(m, s) && Putters(s)
    requires t < |s.pcs| && s.pcs[t] == PutPop(v, slot) && slot < |s.slots|
    ensures Refines(s, PutPopStep(s, t, v, slot), t)
  {
    var s' := PutPopStep(s, t, v, slot);
    if s.slots[slot] == NULL {
      SilentRefines(s, s', t);
    } else {
      PutPopFrame(m, s, t, v, slot);
      ExtendingRefines(m, s, s', t);
    }
  }

  lemma PutResetRefines(m: Mode, s: State, t: nat, v: Payload, item: Ptr)
    requires Shape(m, s) && Placed(s) && Getters(m, s) && Putters(s) && t < |s.pcs| && s.pcs[t] == PutReset(v, item)
    ensures Refines(s, PutResetStep(s, t, v, item), t)
  {
    PutResetHand(s, t, v, item);
    PutResetFrame(m, s, t, v, item);
    PutResetOthers(s, t, v, item);
    ExtendingRefines(m, s, PutResetStep(s, t, v, item), t);
  }

  lemma PutAllocRefines(m: Mode, s: State, s': State, t: nat, v: Payload)
    requires Shape(m, s) && Placed(s) && Getters(m, s) && Putters(s) && t < |s.pcs| && s.pcs[t] == PutAlloc(v)
    requires exists item: Ptr :: item != NULL && item !in s.heap && s' == PutAllocStep(s, t, v, item)
    ensures Refines(s, s', t)
  {
    var item: Ptr :| item != NULL && item !in s.heap && s' == PutAllocStep(s, t, v, item);
    PutAllocFrame(m, s, t, v, item);
    ExtendingRefines(m, s, s', t);
  }

  lemma PrepareRefines(m: Mode, s: State, s': State, t: nat)
    requires Inv(m, s) && t < |s.pcs| && Derefs(s.pcs[t]) <= s.heap.Keys && PrepareStep(s, s', t)
    ensures Refines(s, s', t)
  {
    var pc := s.pcs[t];
    if pc.PutPop? {
      PutPopRefines(m, s, t, pc.v, pc.slot);
    } else if pc.PutReset? {
      PutResetRefines(m, s, t, pc.v, pc.item);
    } else if pc.PutAlloc? {
      PutAllocRefines(m, s, s', t, pc.v);
    }
  }

  lemma PutNextRefines(m: Mode, s: State, t: nat, item: Ptr, oldhead: Ptr)
    requires Shape(m, s) && Placed(s) && Getters(m, s) && Putters(s)
    requires t < |s.pcs| && s.pcs[t] == PutNext(item, oldhead) && item in s.heap
    ensures Refines(s, PutNextStep(s, t, item, oldhead), t)
  {
    var s' := PutNextStep(s, t, item, oldhead);
    LinkingOk(s, t, item, oldhead);
    PutNextFrame(m, s, t, item, oldhead);
    PutNextOthers(s, t, item, oldhead);
    GrowsOthers(m, s, s', t);
    Stutters(s, s', t);
  }

  lemma PutLinkRefines(m: Mode, s: State, t: nat, item: Ptr, oldhead: Ptr)
    requires Shape(m, s) && Placed(s) && Ends(s) && Getters(m, s) && Putters(s)
    requires t < |s.pcs| && s.pcs[t] == PutLink(item, oldhead) && (oldhead != NULL ==> oldhead in s.heap)
    ensures Refines(s, PutLinkStep(s, t, item, oldhead), t)
  {
    LinkingOk(s, t, item, oldhead);
    PutLinkFirst(m, s, t, item, oldhead);
    PutLinkFrame(m, s, t, item, oldhead);
    PutLinkOthers(s, t, item, oldhead);
    PutLinkVisible(m, s, t, item, oldhead);
  }

  /** From here on the item can be taken. */
  lemma PutLinkVisible(m: Mode, s: State, t: nat, item: Ptr, oldhead: Ptr)
    requires Shape(m, s) && Getters(m, s) && Putters(s)
    requires t < |s.pcs| && s.pcs[t] == PutLink(item, oldhead) && (oldhead != NULL ==> oldhead in s.heap)
    requires Grows(s, PutLinkStep(s, t, item, oldhead)) && OthersKept(s, PutLinkStep(s, t, item, oldhead), t)
    ensures Refines(s, PutLinkStep(s, t, item, oldhead), t)
  {
    GrowsOthers(m, s, PutLinkStep(s, t, item, oldhead), t);
    LinkIs(s, t, item, oldhead);
  }

  lemma LinkIs(s: State, t: nat, item: Ptr, oldhead: Ptr)
    requires t < |s.pcs| && s.pcs[t] == PutLink(item, oldhead) && (oldhead != NULL ==> oldhead in s.heap)
    requires OthersSame(s, PutLinkStep(s, t, item, oldhead), t)
    ensures Refines(s, PutLinkStep(s, t, item, oldhead), t)
  {
    Moves(s, PutLinkStep(s, t, item, oldhead), t);
    assert Spec.Link(Abs(s), Abs(PutLinkStep(s, t, item, oldhead)), t);
  }

  lemma PublishRefines(m: Mode, s: State, s': State, t: nat)
    requires Inv(m, s) && t < |s.pcs| && Derefs(s.pcs[t]) <= s.heap.Keys && PublishStep(s, s', t)
    ensures Refines(s, s', t)
  {
    var pc := s.pcs[t];
    if pc.PutSwap? {
      PutSwapRefines(m, s, t, pc.item);
    } else if pc.PutNext? {
      PutNextRefines(m, s, t, pc.item, pc.oldhead);
    } else if pc.PutLink? {
      PutLinkRefines(m, s, t, pc.item, pc.oldhead);
    }
  }

  /** The linearization point of `put`. */
  lemma PutSwapRefines(m: Mode, s: State, t: nat, item: Ptr)
    requires Shape(m, s) && Placed(s) && Ends(s) && Getters(m, s) && Putters(s) && t < |s.pcs| && s.pcs[t] == PutSwap(item) && item in s.heap
    ensures Refines(s, PutSwapStep(s, t, item), t)
  {
    var s' := PutSwapStep(s, t, item);
    PutSwapHand(s, t, item);
    PutSwapFrame(m, s, t, item);
    PutSwapOthers(s, t, item);
    GrowsOthers(m, s, s', t);
    Moves(s, s', t);
    assert Spec.Enqueue(Abs(s), Abs(s'), t);
  }

  lemma ClaimRefines(m: Mode, s: State, s': State, t: nat)
    requires Inv(m, s) && t < |s.pcs| && Derefs(s.pcs[t]) <= s.heap.Keys && ClaimStep(s, s', t)
    ensures Refines(s, s', t)
  {
    var pc := s.pcs[t];
    if pc.GetSkipCas? {
      SkipCasRefines(m, s, t, pc.cur, pc.nlst);
    } else if pc.GetTry? {
      GetTryRefines(m, s, t, pc.cur, pc.first);
    } else if pc.GetAdvanceCas? {
      AdvanceCasRefines(m, s, t, pc.cur, pc.nlst);
    } else {
      GetMarkRefines(m, s, t, pc.cur, pc.v);
    }
  }

  lemma SkipCasRefines(m: Mode, s: State, t: nat, cur: Ptr, nlst: Ptr)
    requires Shape(m, s) && Getters(m, s) && Roles(m, s) && Putters(s) && t < |s.pcs| && s.pcs[t] == GetSkipCas(cur, nlst)
    ensures Refines(s, GetSkipCasStep(s, t, cur, nlst), t)
  {
    GetterHere(m, s, t);
    SkipCasLocal(m, s, t, cur, nlst);
    CasRefines(m, s, GetSkipCasStep(s, t, cur, nlst), t, cur, nlst);
  }

  lemma AdvanceCasRefines(m: Mode, s: State, t: nat, cur: Ptr, nlst: Ptr)
    requires Shape(m, s) && Getters(m, s) && Roles(m, s) && Putters(s) && t < |s.pcs| && s.pcs[t] == GetAdvanceCas(cur, nlst)
    ensures Refines(s, GetAdvanceCasStep(s, t, cur, nlst), t)
  {
    GetterHere(m, s, t);
    AdvanceCasLocal(m, s, t, cur, nlst);
    CasRefines(m, s, GetAdvanceCasStep(s, t, cur, nlst), t, cur, nlst);
  }

  lemma CasRefines(m: Mode, s: State, s': State, t: nat, cur: Ptr, nlst: Ptr)
    requires Shape(m, s) && Getters(m, s) && Putters(s) && CasStep(m, s, s', t, cur, nlst)
    requires PhaseOf(s, s'.pcs[t]) == PhaseOf(s, s.pcs[t])
    ensures Refines(s, s', t)
  {
    CasFrame(m, s, s', t, cur, nlst);
    ExtendingRefines(m, s, s', t);
  }

  /** The linearization point of a successful `get`: the claimed node is the oldest unclaimed one. */
  lemma GetTryRefines(m: Mode, s: State, t: nat, cur: Ptr, first: bool)
    requires Shape(m, s) && Placed(s) && PendingOk(s) && Nodes(s) && Getters(m, s) && Roles(m, s) && Putters(s)
    requires t < |s.pcs| && s.pcs[t] == GetTry(cur, first) && cur in s.heap
    ensures Refines(s, GetTryStep(s, t, cur, first), t)
  {
    GetterHere(m, s, t);
    ReachedNode(m, s, cur);
    if s.heap[cur].claimed {
      TryAgainRefines(s, t, cur, first);
    } else {
      ClaimFrame(m, s, t, cur, first);
      ClaimOthers(s, t, cur, first);
      GrowsOthers(m, s, GetTryStep(s, t, cur, first), t);
      BlockedIff(m, s);
      DequeueRefines(s, t, cur, first);
    }
  }

  lemma TryAgainRefines(s: State, t: nat, cur: Ptr, first: bool)
    requires t < |s.pcs| && s.pcs[t] == GetTry(cur, first) && cur in s.heap && s.heap[cur].claimed
    ensures Refines(s, GetTryStep(s, t, cur, first), t)
  {
    SilentRefines(s, GetTryStep(s, t, cur, first), t);
  }

  lemma DequeueRefines(s: State, t: nat, cur: Ptr, first: bool)
    requires t < |s.pcs| && s.pcs[t] == GetTry(cur, first) && cur in s.heap && !s.heap[cur].claimed
    requires OthersSame(s, GetTryStep(s, t, cur, first), t)
    requires Position(s, cur) == s.served && Spec.Available(Abs(s))
    ensures Refines(s, GetTryStep(s, t, cur, first), t)
  {
    Moves(s, GetTryStep(s, t, cur, first), t);
    assert Spec.Dequeue(Abs(s), Abs(GetTryStep(s, t, cur, first)), t);
  }

  lemma GetMarkRefines(m: Mode, s: State, t: nat, cur: Ptr, v: Payload)
    requires Shape(m, s) && Placed(s) && Getters(m, s) && Roles(m, s) && Putters(s)
    requires t < |s.pcs| && s.pcs[t] == GetMark(cur, v) && cur in s.heap
    ensures Refines(s, GetMarkStep(s, t, cur, v), t)
  {
    GetterHere(m, s, t);
    MarkFrame(m, s, t, cur, v);
    MarkOthers(s, t, cur, v);
    GrowsOthers(m, s, GetMarkStep(s, t, cur, v), t);
    MarkPhase(m, s, t, cur, v);
    Stutters(s, GetMarkStep(s, t, cur, v), t);
  }

  lemma MarkPhase(m: Mode, s: State, t: nat, cur: Ptr, v: Payload)
    requires t < |s.pcs| && s.pcs[t] == GetMark(cur, v) && cur in s.heap && GetterOk(m, s, GetMark(cur, v))
    ensures var s' := GetMarkStep(s, t, cur, v);
      OneThread(s, s', t) && s'.vals == s.vals && s'.served == s.served && PhaseOf(s', s'.pcs[t]) == PhaseOf(s, s.pcs[t])
  {
  }

  /** `taildealloc` is invisible: the other threads are producers, and their nodes are not touched. */
  lemma DeallocRefines(m: Mode, s: State, s': State, t: nat)
    requires Roles(m, s) && OneThread(s, s', t) && InDealloc(s.pcs[t]) && s'.vals == s.vals && s'.served == s.served
    requires PhaseOf(s', s'.pcs[t]) == Spec.Getting
    requires forall u :: 0 <= u < |s.pcs| && s.pcs[u].PutSwap? ==>
      (s.pcs[u].item in s'.heap <==> s.pcs[u].item in s.heap)
      && (s.pcs[u].item in s.heap ==> s'.heap[s.pcs[u].item].payload == s.heap[s.pcs[u].item].payload)
    requires forall u :: 0 <= u < |s.pcs| && (s.pcs[u].PutNext? || s.pcs[u].PutLink?) ==>
      Position(s', s.pcs[u].item) == Position(s, s.pcs[u].item)
    ensures Refines(s, s', t)
  {
    forall u | 0 <= u < |s.pcs| && u != t ensures PhaseOf(s', s.pcs[u]) == PhaseOf(s, s.pcs[u]) {
      assert !InGet(s.pcs[u]);
    }
    Stutters(s, s', t);
  }

  lemma RecycleRefines(m: Mode, s: State, s': State, t: nat)
    requires Inv(m, s) && t < |s.pcs| && Derefs(s.pcs[t]) <= s.heap.Keys && RecycleStep(s, s', t)
    ensures Refines(s, s', t)
  {
    var pc := s.pcs[t];
    if pc.DeSlot? {
      DeSlotRefines(m, s, t, pc.after, pc.cur, pc.ncur, pc.slot);
    } else if pc.DeFree? {
      DeFreeRefines(m, s, t, pc.after, pc.ncur, pc.was);
    } else if pc.DeNext? {
      DeNextRefines(m, s, t, pc.after);
    } else {
      DeEndRefines(m, s, t, pc.after);
    }
  }

  lemma DeNextRefines(m: Mode, s: State, t: nat, after: Ptr)
    requires Roles(m, s) && t < |s.pcs| && s.pcs[t] == DeNext(after) && after in s.heap
    ensures Refines(s, DeNextStep(s, t, after), t)
  {
    DeallocRefines(m, s, DeNextStep(s, t, after), t);
  }

  lemma DeEndRefines(m: Mode, s: State, t: nat, after: Ptr)
    requires Roles(m, s) && t < |s.pcs| && s.pcs[t] == DeEnd(after) && after in s.heap
    ensures Refines(s, DeEndStep(s, t, after), t)
  {
    DeallocRefines(m, s, DeEndStep(s, t, after), t);
  }

  lemma DeSlotRefines(m: Mode, s: State, t: nat, after: Ptr, cur: Ptr, ncur: Ptr, slot: nat)
    requires Shape(m, s) && Placed(s) && Putters(s) && Getters(m, s) && Roles(m, s)
    requires t < |s.pcs| && s.pcs[t] == DeSlot(after, cur, ncur, slot) && slot < |s.slots|
    ensures Refines(s, DeSlotStep(s, t, after, cur, ncur, slot), t)
  {
    DeSlotCur(m, s, t, after, cur, ncur, slot);
    LinkersStay(s);
    DeSlotPositions(s, t, after, cur, ncur, slot);
    DeSlotIs(m, s, t, after, cur, ncur, slot);
  }

  lemma DeSlotCur(m: Mode, s: State, t: nat, after: Ptr, cur: Ptr, ncur: Ptr, slot: nat)
    requires Shape(m, s) && ChainPlaced(s) && t < |s.pcs| && s.pcs[t] == DeSlot(after, cur, ncur, slot)
    requires Getters(m, s) && Roles(m, s)
    ensures cur in s.place && s.place[cur].Chain? && s.place[cur].at < s.keep
  {
    GetterHere(m, s, t);
    assert Live(s, s.cut - 1);
  }

  lemma DeSlotIs(m: Mode, s: State, t: nat, after: Ptr, cur: Ptr, ncur: Ptr, slot: nat)
    requires Roles(m, s) && t < |s.pcs| && s.pcs[t] == DeSlot(after, cur, ncur, slot) && slot < |s.slots|
    requires forall u :: 0 <= u < |s.pcs| && (s.pcs[u].PutNext? || s.pcs[u].PutLink?) ==>
      Position(DeSlotStep(s, t, after, cur, ncur, slot), s.pcs[u].item) == Position(s, s.pcs[u].item)
    ensures Refines(s, DeSlotStep(s, t, after, cur, ncur, slot), t)
  {
    DeallocRefines(m, s, DeSlotStep(s, t, after, cur, ncur, slot), t);
  }

  /** The nodes that producers are linking are in the part of the chain that stays. */
  lemma LinkersStay(s: State)
    requires Putters(s)
    ensures forall u :: 0 <= u < |s.pcs| && (s.pcs[u].PutNext? || s.pcs[u].PutLink?) ==> InChain(s, s.pcs[u].item)
  {
    forall u | 0 <= u < |s.pcs| && (s.pcs[u].PutNext? || s.pcs[u].PutLink?) ensures InChain(s, s.pcs[u].item) {
      assert PutterOk(s, u, s.pcs[u]);
    }
  }

  lemma DeSlotPositions(s: State, t: nat, after: Ptr, cur: Ptr, ncur: Ptr, slot: nat)
    requires t < |s.pcs| && s.pcs[t] == DeSlot(after, cur, ncur, slot) && slot < |s.slots| && SlotsPlaced(s)
    requires cur in s.place && s.place[cur].Chain? && s.place[cur].at < s.keep
    ensures forall p :: InChain(s, p) ==> Position(DeSlotStep(s, t, after, cur, ncur, slot), p) == Position(s, p)
  {
  }

  lemma DeFreeRefines(m: Mode, s: State, t: nat, after: Ptr, ncur: Ptr, was: Ptr)
    requires Placed(s) && Putters(s) && Getters(m, s) && Roles(m, s) && t < |s.pcs| && s.pcs[t] == DeFree(after, ncur, was)
    ensures Refines(s, DeFreeStep(s, t, after, ncur, was), t)
  {
    GetterHere(m, s, t);
    DeFreeHand(m, s, t, after, ncur, was);
    forall u | 0 <= u < |s.pcs| && s.pcs[u].PutSwap? ensures s.pcs[u].item != was {
      NotThatItem(s, t, u, was);
    }
    LinkersStay(s);
    DeallocRefines(m, s, DeFreeStep(s, t, after, ncur, was), t);
  }

  // ----- loads and counters -----

  /** Within one phase, unless the operation returns or finds that there is nothing to get. */
  lemma LoadPhase(m: Mode, s: State, pc: Pc)
    requires Loads(pc) && !pc.GetDone? && Derefs(pc) <= s.heap.Keys && Loaded(m, s, pc) != GetDone(None)
    requires pc.GetCopy? ==> Known(s, pc.cur)
    ensures PhaseOf(s, Loaded(m, s, pc)) == PhaseOf(s, pc)
  {
  }

  /** The loads at which a `get` may learn that there is nothing, and how many items it has then passed. */
  predicate Looks(pc: Pc) {
    pc.GetLst? || pc.GetSkip? || pc.GetNext?
  }

  function Passed(s: State, pc: Pc): nat {
    if pc.GetSkip? || pc.GetNext? then Position(s, pc.cur) + 1 else 0
  }

  /** The pointer that a look loads. */
  function Sought(s: State, pc: Pc): Ptr
    requires Derefs(pc) <= s.heap.Keys
  {
    if pc.GetSkip? || pc.GetNext? then s.heap[pc.cur].prev else s.lst
  }

  lemma LookIs(m: Mode, s: State, pc: Pc)
    requires Looks(pc) && Derefs(pc) <= s.heap.Keys
    ensures Loaded(m, s, pc) == GetDone(None) <==> Sought(s, pc) == NULL
  {
  }

  /** What a look tells, as a fact about its thread alone. */
  ghost predicate Tells(s: State, pc: Pc) {
    && Derefs(pc) <= s.heap.Keys
    && (Sought(s, pc) == NULL <==> Passed(s, pc) == s.served && Waiting(s))
  }

  lemma LstTells(m: Mode, s: State)
    requires Shape(m, s) && Ends(s)
    ensures Tells(s, GetLst)
  {
    NullLst(m, s);
  }

  lemma PrevTells(m: Mode, s: State, cur: Ptr)
    requires Shape(m, s) && Placed(s) && Nodes(s) && PendingOk(s) && Claimed(s, cur)
    ensures cur in s.heap && (s.heap[cur].prev == NULL <==> Position(s, cur) + 1 == s.served && Waiting(s))
  {
    ReachedNode(m, s, cur);
    NullPrev(m, s, cur);
  }

  lemma LookTells(m: Mode, s: State, t: nat)
    requires Shape(m, s) && Placed(s) && Nodes(s) && Ends(s) && Getters(m, s) && Roles(m, s) && t < |s.pcs|
    requires Looks(s.pcs[t])
    ensures Tells(s, s.pcs[t])
  {
    var pc := s.pcs[t];
    if pc.GetLst? {
      LstTells(m, s);
    } else {
      GetterHere(m, s, t);
      PrevTells(m, s, pc.cur);
    }
  }

  lemma MissLooks(m: Mode, s: State, pc: Pc)
    requires Loads(pc) && Derefs(pc) <= s.heap.Keys && Loaded(m, s, pc) == GetDone(None)
    ensures Looks(pc) && PhaseOf(s, pc) == Spec.Getting
  {
  }

  lemma LoadRefines(m: Mode, s: State, s': State, t: nat)
    requires Shape(m, s) && Placed(s) && Nodes(s) && Ends(s) && Putters(s) && Getters(m, s) && Roles(m, s)
    requires t < |s.pcs| && Derefs(s.pcs[t]) <= s.heap.Keys && LoadStep(m, s, s', t)
    ensures Refines(s, s', t)
  {
    var pc := s.pcs[t];
    ControlOthers(s, s', t);
    if pc.GetDone? {
      ReturnRefines(s, s', t);
    } else if Loaded(m, s, pc) == GetDone(None) {
      MissLooks(m, s, pc);
      LookTells(m, s, t);
      LookIs(m, s, pc);
      MissRefines(m, s, s', t);
    } else {
      GetterHere(m, s, t);
      if pc.GetCopy? { ReachedNode(m, s, pc.cur); }
      LoadPhase(m, s, pc);
      SilentRefines(s, s', t);
    }
  }

  lemma CountPhase(s: State, pc: Pc)
    requires Counts(pc) && !pc.PutLen?
    ensures PhaseOf(s, CountedPc(s, pc)) == PhaseOf(s, pc)
  {
  }

  lemma CountRefines(m: Mode, s: State, s': State, t: nat)
    requires Shape(m, s) && t < |s.pcs| && CountStep(s, s', t)
    ensures Refines(s, s', t)
  {
    CountedSame(s, s', t);
    ControlOthers(s, s', t);
    if s.pcs[t].PutLen? {
      ReturnRefines(s, s', t);
    } else {
      CountPhase(s, s.pcs[t]);
      SilentRefines(s, s', t);
    }
  }

  lemma StepRefines(m: Mode, s: State, s': State, t: nat)
    requires Inv(m, s) && Step(m, s, s', t)
    ensures Refines(s, s', t)
  {
    if CallStep(m, s, s', t) {
      CallRefines(m, s, s', t);
    } else if LoadStep(m, s, s', t) {
      LoadRefines(m, s, s', t);
    } else if CountStep(s, s', t) {
      CountRefines(m, s, s', t);
    } else if PrepareStep(s, s', t) {
      PrepareRefines(m, s, s', t);
    } else if PublishStep(s, s', t) {
      PublishRefines(m, s, s', t);
    } else if ClaimStep(s, s', t) {
      ClaimRefines(m, s, s', t);
    } else {
      RecycleRefines(m, s, s', t);
    }
  }

  lemma NextRefines(m: Mode, s: State, s': State)
    requires Inv(m, s) && Next(m, s, s')
    ensures Spec.MayFollow(Abs(s), Abs(s'))
  {
    var t: nat :| Step(m, s, s', t);
    StepRefines(m, s, s', t);
  }

  /** What a caller can see of a run. */
  function Seen(run: seq<State>): seq<Spec.State> {
    seq(|run|, i requires 0 <= i < |run| => Abs(run[i]))
  }

  lemma AdvanceSeen(m: Mode, run: seq<State>, i: nat)
    requires Run(m, run) && i + 1 < |run|
    ensures Spec.MayFollow(Abs(run[i]), Abs(run[i + 1]))
  {
    RunKeeps(m, run, i);
    assert Advances(m, run, i);
    NextRefines(m, run[i], run[i + 1]);
  }

  /**
   Linearizability, in both modes: along every run the queue starts as the empty atomic queue, and every step
   is a step of the atomic queue or invisible. So gets return the items in `ptr.swap` order, each item once, and
   a `get` returns nothing if the queue is empty or its oldest item is not linked yet, and only then.
   */
  lemma Linearizable(m: Mode, run: seq<State>)
    requires Run(m, run)
    ensures Spec.History(Seen(run))
  {
    var h := Seen(run);
    forall i | 0 <= i < |h| - 1 ensures Spec.Follows(h, i) {
      AdvanceSeen(m, run, i);
    }
  }

  /**
   A `get` answers nothing if and only if, at one of its looks, it has passed all taken items and there is none to get.
   The answer is honest, in that the queue is empty at that instant, if and only if the put of the oldest item that is
   left is not between its swap and its link.
   */
  lemma NoneIff(m: Mode, run: seq<State>, i: nat, t: nat)
    requires Run(m, run) && i < |run| && t < |run[i].pcs| && Looks(run[i].pcs[t])
    ensures Derefs(run[i].pcs[t]) <= run[i].heap.Keys
    ensures var s, pc := run[i], run[i].pcs[t];
      && (Loaded(m, s, pc) == GetDone(None) <==> Passed(s, pc) == s.served && Waiting(s))
      && (Loaded(m, s, pc) == GetDone(None) ==> (s.served == |s.order| <==> s.served !in s.pending))
  {
    RunKeeps(m, run, i);
    LookTells(m, run[i], t);
    LookIs(m, run[i], run[i].pcs[t]);
  }

  /** If a `get` finds nothing in a queue with items, some thread is between the swap and the link of the oldest of them. */
  lemma MissBlames(m: Mode, run: seq<State>, i: nat, t: nat)
    requires Run(m, run) && i < |run| && t < |run[i].pcs| && Looks(run[i].pcs[t]) && Derefs(run[i].pcs[t]) <= run[i].heap.Keys
    requires Loaded(m, run[i], run[i].pcs[t]) == GetDone(None) && run[i].served < |run[i].order|
    ensures exists u :: 0 <= u < |run[i].pcs| && Linking(run[i], u, run[i].served)
  {
    NoneIff(m, run, i, t);
    PendingLinks(m, run, i);
    assert Linking(run[i], run[i].pending[run[i].served], run[i].served);
  }

  lemma PendingLinks(m: Mode, run: seq<State>, i: nat)
    requires Run(m, run) && i < |run|
    ensures PendingOk(run[i])
  {
    RunKeeps(m, run, i);
  }

  /** The claims are a prefix of the swap order, and `lst` has not passed beyond them. */
  lemma ClaimsArePrefix(m: Mode, run: seq<State>, i: nat, at: nat)
    requires Run(m, run) && i < |run| && Live(run[i], at)
    ensures var s, p := run[i], run[i].order[at];
      && p in s.heap && at < |s.vals| && s.heap[p].payload == s.vals[at]
      && (s.heap[p].claimed <==> at < s.served)
      && (s.lst != NULL && at < Position(s, s.lst) ==> s.heap[p].claimed)
    ensures m.NoReuse? ==> forall k :: 0 <= k < |run[i].order| ==> Live(run[i], k)
  {
    RunKeeps(m, run, i);
    assert NodeAt(run[i], at);
  }

  /** `lst` only moves forward through the swap order. */
  lemma LstForward(m: Mode, run: seq<State>, i: nat)
    requires Run(m, run) && i + 1 < |run| && run[i].lst != NULL
    ensures run[i + 1].lst != NULL && Position(run[i], run[i].lst) <= Position(run[i + 1], run[i + 1].lst) <= run[i + 1].served
  {
    RunKeeps(m, run, i);
    AdvanceLst(m, run, i);
    RunServed(m, run, i + 1);
  }

  lemma AdvanceLst(m: Mode, run: seq<State>, i: nat)
    requires i + 1 < |run| && Advances(m, run, i) && Inv(m, run[i]) && run[i].lst != NULL
    ensures LstAdvances(run[i], run[i + 1])
  {
    NextLst(m, run[i], run[i + 1]);
  }

  lemma RunServed(m: Mode, run: seq<State>, i: nat)
    requires Run(m, run) && i < |run| && run[i].lst != NULL
    ensures Position(run[i], run[i].lst) <= run[i].served
  {
    RunKeeps(m, run, i);
  }

  lemma NextLst(m: Mode, s: State, s': State)
    requires Inv(m, s) && Next(m, s, s') && s.lst != NULL
    ensures LstAdvances(s, s')
  {
    var t: nat :| Step(m, s, s', t);
    LstIsApart(m, s, t);
    LstStep(m, s, s', t);
  }

  /** No operation moves the node that `lst` points to, and a swap of `lst` goes one position forward. */
  ghost predicate LstApart(s: State, pc: Pc) {
    match pc
    case PutPop(_, slot) => slot < |s.slots| ==> s.slots[slot] != s.lst
    case PutSwap(item) => item != s.lst
    case PutLink(_, oldhead) => oldhead != NULL
    case GetSkipCas(cur, nlst) => Follows(s, cur, nlst)
    case GetAdvanceCas(cur, nlst) => Follows(s, cur, nlst)
    case DeSlot(_, cur, _, slot) => cur != s.lst && (slot < |s.slots| ==> s.slots[slot] != s.lst)
    case DeFree(_, _, was) => was != s.lst
    case _ => true
  }

  lemma LstIsApart(m: Mode, s: State, t: nat)
    requires Shape(m, s) && Placed(s) && Ends(s) && Putters(s) && Getters(m, s) && Roles(m, s) && s.lst != NULL && t < |s.pcs|
    ensures LstApart(s, s.pcs[t])
  {
    GetterHere(m, s, t);
    var pc := s.pcs[t];
    if pc.PutSwap? {
      PutSwapHand(s, t, pc.item);
    } else if pc.PutLink? {
      LinkingOk(s, t, pc.item, pc.oldhead);
      PutLinkFirst(m, s, t, pc.item, pc.oldhead);
    } else if pc.DeSlot? {
      assert Live(s, s.cut - 1);
    } else if pc.DeFree? {
      DeFreeHand(m, s, t, pc.after, pc.ncur, pc.was);
    }
  }

  ghost predicate LstKnown(s: State, t: nat) {
    && s.lst != NULL && s.lst in s.heap && s.lst in s.place && s.place[s.lst].Chain? && s.heap.Keys == s.place.Keys
    && NULL !in s.heap && t < |s.pcs| && LstApart(s, s.pcs[t])
  }

  ghost predicate LstAdvances(s: State, s': State) {
    s'.lst != NULL && Position(s, s.lst) <= Position(s', s'.lst)
  }

  lemma LstStep(m: Mode, s: State, s': State, t: nat)
    requires LstKnown(s, t) && Step(m, s, s', t)
    ensures LstAdvances(s, s')
  {
    if PrepareStep(s, s', t) || PublishStep(s, s', t) {
      LstPut(s, s', t);
    } else if ClaimStep(s, s', t) {
      LstGet(s, s', t);
    } else if RecycleStep(s, s', t) {
      LstDealloc(s, s', t);
    } else if CountStep(s, s', t) {
      LstCount(s, s', t);
    }
  }

  lemma LstCount(s: State, s': State, t: nat)
    requires LstKnown(s, t) && CountStep(s, s', t)
    ensures LstAdvances(s, s')
  {
  }

  lemma LstPut(s: State, s': State, t: nat)
    requires LstKnown(s, t) && Derefs(s.pcs[t]) <= s.heap.Keys && (PrepareStep(s, s', t) || PublishStep(s, s', t))
    ensures LstAdvances(s, s')
  {
  }

  lemma LstGet(s: State, s': State, t: nat)
    requires LstKnown(s, t) && Derefs(s.pcs[t]) <= s.heap.Keys && ClaimStep(s, s', t)
    ensures LstAdvances(s, s')
  {
  }

  lemma LstDealloc(s: State, s': State, t: nat)
    requires LstKnown(s, t) && Derefs(s.pcs[t]) <= s.heap.Keys && RecycleStep(s, s', t)
    ensures LstAdvances(s, s')
  {
  }
}
