/** What the invariant of the link queue gives a user of it: memory safety, one owner per node, conservation. */
module LinkQueueTheorems {
  import opened Base
  import opened LinkQueueModel
  import opened LinkQueueInvariant
  import opened LinkQueueLoadSteps
  import opened LinkQueueSafety

  /** `p` is at this place, said of the memory and the swap order alone. */
  ghost predicate IsAt(s: State, p: Ptr, pl: Place) {
    && p != NULL
    && match pl
       case Hand(t) => t < |s.pcs| && Held(s.pcs[t]) == p
       case Chain(i) => Live(s, i) && s.order[i] == p
       case Cached(x) => x < |s.slots| && s.slots[x] == p
  }

  /** An address is allocated if and only if it is at some place, and it is never at two places. */
  lemma Ownership(m: Mode, run: seq<State>, i: nat, p: Ptr)
    requires Run(m, run) && i < |run|
    ensures p in run[i].heap <==> exists pl :: IsAt(run[i], p, pl)
    ensures forall pl, pl' :: IsAt(run[i], p, pl) && IsAt(run[i], p, pl') ==> pl == pl'
  {
    RunKeeps(m, run, i);
    PlaceIsUnique(m, run[i], p);
  }

  lemma PlaceIsUnique(m: Mode, s: State, p: Ptr)
    requires Shape(m, s) && Placed(s)
    ensures p in s.heap <==> exists pl :: IsAt(s, p, pl)
    ensures forall pl, pl' :: IsAt(s, p, pl) && IsAt(s, p, pl') ==> pl == pl'
  {
    forall pl | IsAt(s, p, pl) ensures p in s.place && s.place[p] == pl {
      match pl
      case Hand(t) =>
      case Chain(i) =>
      case Cached(x) =>
    }
    if p in s.heap {
      assert IsAt(s, p, s.place[p]);
    }
  }

  /**
   No operation ever dereferences a freed, cached or foreign node: what a thread dereferences next is allocated
   and is in its own hand or in the published chain. In particular the pending `(*oldhead).prev.store` of a
   producer always targets a node that is in the chain and will stay there: one not older than `lst`.
   */
  lemma MemorySafety(m: Mode, run: seq<State>, i: nat, t: nat)
    requires Run(m, run) && i < |run| && t < |run[i].pcs|
    ensures forall p :: p in Derefs(run[i].pcs[t]) ==>
      p in run[i].heap && (IsAt(run[i], p, Hand(t)) || exists at :: IsAt(run[i], p, Chain(at)))
    ensures run[i].pcs[t].PutLink? && run[i].pcs[t].oldhead != NULL ==> LinkTarget(run[i], run[i].pcs[t].oldhead)
  {
    RunKeeps(m, run, i);
    var s, pc := run[i], run[i].pcs[t];
    assert PutterOk(s, t, pc) && GetterOk(m, s, pc);
    if pc.PutReset? || pc.PutSwap? || pc.DeFree? {
      HandDerefs(m, s, t);
    } else {
      forall p | p in Derefs(pc) ensures p in s.heap && exists at :: IsAt(s, p, Chain(at)) {
        ChainDerefs(m, s, t, p);
      }
    }
    if pc.PutLink? && pc.oldhead != NULL { LinkTargetIs(m, s, t); }
  }

  /** The node is in the chain, to stay, and no node newer than it is claimed. */
  ghost predicate LinkTarget(s: State, oldhead: Ptr) {
    exists at: nat :: IsAt(s, oldhead, Chain(at)) && s.keep <= at && s.served <= at + 1
  }

  lemma LinkTargetIs(m: Mode, s: State, t: nat)
    requires Shape(m, s) && ChainPlaced(s) && PendingOk(s) && t < |s.pcs| && PutterOk(s, t, s.pcs[t])
    requires s.pcs[t].PutLink? && s.pcs[t].oldhead != NULL
    ensures LinkTarget(s, s.pcs[t].oldhead)
  {
    var oldhead := s.pcs[t].oldhead;
    assert IsAt(s, oldhead, Chain(s.place[oldhead].at));
  }

  lemma HandDerefs(m: Mode, s: State, t: nat)
    requires Shape(m, s) && HandsPlaced(s) && t < |s.pcs| && PutterOk(s, t, s.pcs[t]) && GetterOk(m, s, s.pcs[t])
    requires s.pcs[t].PutReset? || s.pcs[t].PutSwap? || s.pcs[t].DeFree?
    ensures forall p :: p in Derefs(s.pcs[t]) ==> p in s.heap && IsAt(s, p, Hand(t))
  {
    assert Held(s.pcs[t]) != NULL;
  }

  lemma ChainDerefs(m: Mode, s: State, t: nat, p: Ptr)
    requires Shape(m, s) && Placed(s) && t < |s.pcs| && PutterOk(s, t, s.pcs[t]) && GetterOk(m, s, s.pcs[t])
    requires p in Derefs(s.pcs[t]) && Held(s.pcs[t]) == NULL
    ensures p in s.heap && p != NULL && exists at :: IsAt(s, p, Chain(at))
  {
    if s.pcs[t].DeWalk? {
      assert Live(s, s.cut - 1);
      assert IsAt(s, p, Chain(s.cut - 1));
    } else {
      assert p in s.place && s.place[p].Chain?;
      assert IsAt(s, p, Chain(s.place[p].at));
    }
  }

  /** The guard of `Step` never bites: in every reachable state every thread has a next step. */
  lemma NeverStuck(m: Mode, run: seq<State>, i: nat, t: nat)
    requires Run(m, run) && i < |run| && t < |run[i].pcs|
    ensures exists s' :: Step(m, run[i], s', t)
  {
    RunKeeps(m, run, i);
    MemorySafety(m, run, i, t);
    assert PutterOk(run[i], t, run[i].pcs[t]) && GetterOk(m, run[i], run[i].pcs[t]);
    Enabled(m, run[i], t);
  }

  lemma Enabled(m: Mode, s: State, t: nat)
    requires t < |s.pcs| && Derefs(s.pcs[t]) <= s.heap.Keys
    requires s.pcs[t].PutSwap? ==> s.pcs[t].item in s.heap
    requires s.pcs[t].PutPop? || s.pcs[t].DeSlot? ==> s.pcs[t].slot < |s.slots|
    ensures exists s' :: Step(m, s, s', t)
  {
    var pc := s.pcs[t];
    if pc.Idle? {
      var v: Payload :| true;
      assert CallStep(m, s, At(s, t, PutPos(v)), t);
      assert Step(m, s, At(s, t, PutPos(v)), t);
    } else if Loads(pc) {
      assert Step(m, s, At(s, t, Loaded(m, s, pc)), t);
    } else if Counts(pc) {
      assert Step(m, s, At(Counted(s, pc), t, CountedPc(s, pc)), t);
    } else if InGet(pc) {
      GetEnabled(m, s, t);
    } else {
      PutEnabled(m, s, t);
    }
  }

  lemma PutEnabled(m: Mode, s: State, t: nat)
    requires t < |s.pcs| && Derefs(s.pcs[t]) <= s.heap.Keys && !InGet(s.pcs[t]) && !s.pcs[t].Idle? && !Counts(s.pcs[t])
    requires s.pcs[t].PutSwap? ==> s.pcs[t].item in s.heap
    requires s.pcs[t].PutPop? ==> s.pcs[t].slot < |s.slots|
    ensures exists s' :: Step(m, s, s', t)
  {
    var p := FreshNumber(s.heap.Keys);
    var s' := match s.pcs[t]
      case PutPop(v, slot) => PutPopStep(s, t, v, slot)
      case PutReset(v, item) => PutResetStep(s, t, v, item)
      case PutAlloc(v) => PutAllocStep(s, t, v, p)
      case PutSwap(item) => PutSwapStep(s, t, item)
      case PutNext(item, oldhead) => PutNextStep(s, t, item, oldhead)
      case PutLink(item, oldhead) => PutLinkStep(s, t, item, oldhead)
      case _ => s;
    assert PrepareStep(s, s', t) || PublishStep(s, s', t);
    assert Step(m, s, s', t);
  }

  lemma GetEnabled(m: Mode, s: State, t: nat)
    requires t < |s.pcs| && Derefs(s.pcs[t]) <= s.heap.Keys && InGet(s.pcs[t]) && !Loads(s.pcs[t]) && !Counts(s.pcs[t])
    requires s.pcs[t].DeSlot? ==> s.pcs[t].slot < |s.slots|
    ensures exists s' :: Step(m, s, s', t)
  {
    var s' := match s.pcs[t]
      case GetSkipCas(cur, nlst) => GetSkipCasStep(s, t, cur, nlst)
      case GetTry(cur, first) => GetTryStep(s, t, cur, first)
      case GetAdvanceCas(cur, nlst) => GetAdvanceCasStep(s, t, cur, nlst)
      case GetMark(cur, v) => GetMarkStep(s, t, cur, v)
      case DeNext(after) => DeNextStep(s, t, after)
      case DeSlot(after, cur, ncur, slot) => DeSlotStep(s, t, after, cur, ncur, slot)
      case DeFree(after, ncur, was) => DeFreeStep(s, t, after, ncur, was)
      case DeEnd(after) => DeEndStep(s, t, after)
      case _ => s;
    assert ClaimStep(s, s', t) || RecycleStep(s, s', t);
    assert Step(m, s, s', t);
  }

  ghost predicate Quiet(s: State) {
    forall t :: 0 <= t < |s.pcs| ==> s.pcs[t] == Idle
  }

  /**
   Once all operations have finished, every node ever allocated and not freed is in the chain or in one slot
   of the pointer cache, never in both: what `Drop` walks over is all there is.
   */
  lemma QuietConservation(m: Mode, run: seq<State>, i: nat)
    requires Run(m, run) && i < |run| && Quiet(run[i])
    ensures var s := run[i];
      && s.cut == s.keep && s.pending == map[]
      && (forall p :: p in s.heap <==>
            p != NULL && ((exists at :: s.lo <= at < |s.order| && s.order[at] == p) || p in s.slots))
      && (forall at :: s.lo <= at < |s.order| ==> s.order[at] !in s.slots)
      && (forall at, at' :: s.lo <= at < at' < |s.order| ==> s.order[at] != s.order[at'])
      && (forall x, x' :: 0 <= x < x' < |s.slots| && s.slots[x] != NULL ==> s.slots[x] != s.slots[x'])
  {
    RunKeeps(m, run, i);
    var s := run[i];
    QuietPlaces(m, s);
  }

  lemma QuietPlaces(m: Mode, s: State)
    requires Shape(m, s) && Placed(s) && PendingOk(s) && Quiet(s)
    ensures s.cut == s.keep && s.pending == map[]
    ensures forall p :: p in s.heap <==>
      p != NULL && ((exists at :: s.lo <= at < |s.order| && s.order[at] == p) || p in s.slots)
    ensures forall at :: s.lo <= at < |s.order| ==> s.order[at] !in s.slots
    ensures forall at, at' :: s.lo <= at < at' < |s.order| ==> s.order[at] != s.order[at']
    ensures forall x, x' :: 0 <= x < x' < |s.slots| && s.slots[x] != NULL ==> s.slots[x] != s.slots[x']
  {
    assert forall i :: i !in s.pending;
    assert forall at :: s.lo <= at < |s.order| ==> Live(s, at) && s.order[at] != NULL;
    forall p | p in s.heap ensures (exists at :: s.lo <= at < |s.order| && s.order[at] == p) || p in s.slots {
      assert !s.place[p].Hand?;
    }
  }

  /**
   The chain at rest is doubly linked from end to end: walking `next` from `ptr` visits it newest first and
   ends after the oldest node, and walking `prev` from the oldest visits it in swap order.
   */
  lemma QuietChain(m: Mode, run: seq<State>, i: nat, at: nat)
    requires Run(m, run) && i < |run| && Quiet(run[i]) && run[i].lo <= at < |run[i].order|
    ensures LinkedAt(run[i], at)
  {
    RunKeeps(m, run, i);
    QuietLink(m, run[i], at);
  }

  ghost predicate LinkedAt(s: State, at: nat)
    requires at < |s.order|
  {
    var p := s.order[at];
    && p in s.heap && at < |s.vals| && s.ptr == s.order[|s.order| - 1]
    && s.heap[p].next == (if at == s.lo then NULL else if at > 0 then s.order[at - 1] else NULL)
    && s.heap[p].prev == (if at + 1 == |s.order| then NULL else s.order[at + 1])
    && s.heap[p].payload == s.vals[at] && (s.heap[p].claimed <==> at < s.served)
  }

  lemma QuietLink(m: Mode, s: State, at: nat)
    requires Shape(m, s) && Placed(s) && Ends(s) && Nodes(s) && Quiet(s) && s.lo <= at < |s.order|
    ensures LinkedAt(s, at)
  {
    QuietPlaces(m, s);
    assert Live(s, at) && s.order[at] in s.heap;
    QuietNode(s, at);
  }

  lemma QuietNode(s: State, at: nat)
    requires Nodes(s) && Live(s, at) && s.order[at] in s.heap && s.pending == map[] && s.ptr == s.order[|s.order| - 1]
    ensures LinkedAt(s, at)
  {
    assert NodeAt(s, at);
  }
}
