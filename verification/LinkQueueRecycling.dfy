/** That drained nodes are recycled: what a `get` of the single consumer does to the old end of the chain. */
module LinkQueueRecycling {
  import opened Base
  import opened LinkQueueModel
  import opened LinkQueueInvariant
  import opened LinkQueueLoadSteps
  import opened LinkQueuePutSteps
  import opened LinkQueueGetSteps
  import opened LinkQueueDeallocSteps
  import opened LinkQueueSafety
  import opened LinkQueueTheorems
  import Refinement = LinkQueueRefinement

  // ----- the marks on claimed nodes -----

  /** The thread has claimed the node and not yet marked it. */
  predicate Marking(pc: Pc, p: Ptr) {
    (pc.GetSub? || pc.GetAdvance? || pc.GetAdvanceCas? || pc.GetCopy? || pc.GetMark?) && pc.cur == p
  }

  ghost predicate Unmarked(s: State, p: Ptr) {
    p in s.heap && s.heap[p].claimed && !s.heap[p].needrel
  }

  ghost predicate SomeMarks(s: State, p: Ptr) {
    exists t :: 0 <= t < |s.pcs| && Marking(s.pcs[t], p)
  }

  /** Every claimed node without a mark has a thread that is about to mark it. */
  ghost predicate Marked(s: State) {
    forall p :: Unmarked(s, p) ==> SomeMarks(s, p)
  }

  /** A step of thread `t` that leaves no claimed node without a mark and without a thread to mark it. */
  ghost predicate MarkStep(s: State, s': State, t: nat) {
    && OneThread(s, s', t)
    && (forall p :: Unmarked(s', p) ==> Unmarked(s, p) || Marking(s'.pcs[t], p))
    && (forall p :: Unmarked(s', p) && Marking(s.pcs[t], p) ==> Marking(s'.pcs[t], p))
  }

  lemma MarkStepKeeps(s: State, s': State, t: nat)
    requires Marked(s) && MarkStep(s, s', t)
    ensures Marked(s')
  {
    forall p | Unmarked(s', p) ensures SomeMarks(s', p) {
      if Marking(s'.pcs[t], p) {
      } else {
        var u :| 0 <= u < |s.pcs| && Marking(s.pcs[u], p);
        assert s'.pcs[u] == s.pcs[u];
      }
    }
  }

  lemma CallMarks(m: Mode, s: State, s': State, t: nat)
    requires t < |s.pcs| && CallStep(m, s, s', t)
    ensures MarkStep(s, s', t)
  {
  }

  lemma LoadMarks(m: Mode, s: State, s': State, t: nat)
    requires t < |s.pcs| && Derefs(s.pcs[t]) <= s.heap.Keys && LoadStep(m, s, s', t)
    ensures MarkStep(s, s', t)
  {
  }

  lemma CountMarks(s: State, s': State, t: nat)
    requires t < |s.pcs| && CountStep(s, s', t)
    ensures MarkStep(s, s', t)
  {
  }

  lemma PrepareMarks(s: State, s': State, t: nat)
    requires t < |s.pcs| && Derefs(s.pcs[t]) <= s.heap.Keys && PrepareStep(s, s', t)
    ensures MarkStep(s, s', t)
  {
  }

  lemma PublishMarks(s: State, s': State, t: nat)
    requires t < |s.pcs| && Derefs(s.pcs[t]) <= s.heap.Keys && PublishStep(s, s', t)
    ensures MarkStep(s, s', t)
  {
  }

  lemma ClaimMarks(s: State, s': State, t: nat)
    requires t < |s.pcs| && Derefs(s.pcs[t]) <= s.heap.Keys && ClaimStep(s, s', t)
    ensures MarkStep(s, s', t)
  {
  }

  lemma RecycleMarks(s: State, s': State, t: nat)
    requires t < |s.pcs| && Derefs(s.pcs[t]) <= s.heap.Keys && RecycleStep(s, s', t)
    ensures MarkStep(s, s', t)
  {
  }

  lemma StepMarks(m: Mode, s: State, s': State, t: nat)
    requires Step(m, s, s', t)
    ensures MarkStep(s, s', t)
  {
    if CallStep(m, s, s', t) {
      CallMarks(m, s, s', t);
    } else if LoadStep(m, s, s', t) {
      LoadMarks(m, s, s', t);
    } else if CountStep(s, s', t) {
      CountMarks(s, s', t);
    } else if PrepareStep(s, s', t) {
      PrepareMarks(s, s', t);
    } else if PublishStep(s, s', t) {
      PublishMarks(s, s', t);
    } else if ClaimStep(s, s', t) {
      ClaimMarks(s, s', t);
    } else {
      RecycleMarks(s, s', t);
    }
  }

  lemma NextMarks(m: Mode, s: State, s': State)
    requires Marked(s) && Next(m, s, s')
    ensures Marked(s')
  {
    var t: nat :| Step(m, s, s', t);
    StepMarks(m, s, s', t);
    MarkStepKeeps(s, s', t);
  }

  lemma {:induction false} RunMarked(m: Mode, run: seq<State>, i: nat)
    requires Run(m, run) && i < |run|
    ensures Marked(run[i])
  {
    if i > 0 {
      RunMarked(m, run, i - 1);
      assert Advances(m, run, i - 1);
      NextMarks(m, run[i - 1], run[i]);
    }
  }

  /** At rest every claimed node is marked. */
  lemma QuietMarks(m: Mode, run: seq<State>, i: nat, p: Ptr)
    requires Run(m, run) && i < |run| && Quiet(run[i]) && p in run[i].heap && run[i].heap[p].claimed
    ensures run[i].heap[p].needrel
  {
    RunMarked(m, run, i);
    NoneMarks(run[i], p);
  }

  lemma NoneMarks(s: State, p: Ptr)
    requires Quiet(s)
    ensures !SomeMarks(s, p)
  {
  }

  // ----- the guard -----

  /** The guard is taken exactly while the consumer is in `taildealloc`. */
  ghost predicate GuardOk(m: Mode, s: State) {
    m.Recycling? ==> (s.doingrel <==> m.consumer < |s.pcs| && InDealloc(s.pcs[m.consumer]))
  }

  /** What a step of thread `t` does to the guard. */
  ghost predicate GuardStep(s: State, s': State, t: nat) {
    && OneThread(s, s', t)
    && (InDealloc(s'.pcs[t]) <==> if s.pcs[t].TakeGuard? then !s.doingrel else InDealloc(s.pcs[t]) && !s.pcs[t].DeUnguard?)
    && s'.doingrel == (s.pcs[t].TakeGuard? || (s.doingrel && !s.pcs[t].DeUnguard?))
  }

  lemma LoadGuards(m: Mode, s: State, s': State, t: nat)
    requires t < |s.pcs| && Derefs(s.pcs[t]) <= s.heap.Keys && LoadStep(m, s, s', t)
    ensures GuardStep(s, s', t)
  {
  }

  lemma CallGuards(m: Mode, s: State, s': State, t: nat)
    requires t < |s.pcs| && CallStep(m, s, s', t)
    ensures GuardStep(s, s', t)
  {
  }

  lemma CountGuards(s: State, s': State, t: nat)
    requires t < |s.pcs| && CountStep(s, s', t)
    ensures GuardStep(s, s', t)
  {
  }

  lemma PrepareGuards(s: State, s': State, t: nat)
    requires t < |s.pcs| && Derefs(s.pcs[t]) <= s.heap.Keys && PrepareStep(s, s', t)
    ensures GuardStep(s, s', t)
  {
  }

  lemma PublishGuards(s: State, s': State, t: nat)
    requires t < |s.pcs| && Derefs(s.pcs[t]) <= s.heap.Keys && PublishStep(s, s', t)
    ensures GuardStep(s, s', t)
  {
  }

  lemma ClaimGuards(s: State, s': State, t: nat)
    requires t < |s.pcs| && Derefs(s.pcs[t]) <= s.heap.Keys && ClaimStep(s, s', t)
    ensures GuardStep(s, s', t)
  {
  }

  lemma RecycleGuards(s: State, s': State, t: nat)
    requires t < |s.pcs| && Derefs(s.pcs[t]) <= s.heap.Keys && RecycleStep(s, s', t)
    ensures GuardStep(s, s', t)
  {
  }

  lemma StepGuards(m: Mode, s: State, s': State, t: nat)
    requires Step(m, s, s', t)
    ensures GuardStep(s, s', t)
  {
    if CallStep(m, s, s', t) {
      CallGuards(m, s, s', t);
    } else if CountStep(s, s', t) {
      CountGuards(s, s', t);
    } else if LoadStep(m, s, s', t) {
      LoadGuards(m, s, s', t);
    } else if PrepareStep(s, s', t) {
      PrepareGuards(s, s', t);
    } else if PublishStep(s, s', t) {
      PublishGuards(s, s', t);
    } else if ClaimStep(s, s', t) {
      ClaimGuards(s, s', t);
    } else {
      RecycleGuards(s, s', t);
    }
  }

  lemma GuardKeeps(m: Mode, s: State, s': State, t: nat)
    requires GuardOk(m, s) && Roles(m, s) && GuardStep(s, s', t)
    ensures GuardOk(m, s')
  {
  }

  lemma NextGuards(m: Mode, s: State, s': State)
    requires GuardOk(m, s) && Roles(m, s) && Next(m, s, s')
    ensures GuardOk(m, s')
  {
    var t: nat :| Step(m, s, s', t);
    StepGuards(m, s, s', t);
    GuardKeeps(m, s, s', t);
  }

  lemma {:induction false} RunGuard(m: Mode, run: seq<State>, i: nat)
    requires Run(m, run) && i < |run|
    ensures GuardOk(m, run[i])
  {
    if i > 0 {
      RunGuard(m, run, i - 1);
      RunRoles(m, run, i - 1);
      assert Advances(m, run, i - 1);
      NextGuards(m, run[i - 1], run[i]);
    }
  }

  lemma RunRoles(m: Mode, run: seq<State>, i: nat)
    requires Run(m, run) && i < |run|
    ensures Roles(m, run[i])
  {
    RunKeeps(m, run, i);
  }

  // ----- the cursor of the cache -----

  /** A thread whose program counter changes has made the step. */
  lemma Moved(m: Mode, run: seq<State>, i: nat, t: nat)
    requires Run(m, run) && i + 1 < |run| && t < |run[i].pcs| == |run[i + 1].pcs| && run[i + 1].pcs[t] != run[i].pcs[t]
    ensures Step(m, run[i], run[i + 1], t)
  {
    assert Advances(m, run, i);
    var u: nat :| Step(m, run[i], run[i + 1], u);
    StepGuards(m, run[i], run[i + 1], u);
  }

  lemma BackAgain(pos: nat)
    requires pos < WORD
    ensures SubWord(AddWord(pos, 1), 1) == pos
  {
  }

  lemma CountMoves(s: State, s': State, t: nat)
    requires t < |s.pcs| && CountStep(s, s', t)
    ensures |s'.pcs| == |s.pcs|
    ensures s.pcs[t].DePush? ==> s'.pcs[t].DeSlot? && s'.pcs[t].slot == s.pos % SLOTS && s'.pos == AddWord(s.pos, 1)
    ensures s.pcs[t].PutPos? ==> s'.pcs[t].PutPop? && s'.pcs[t].slot == SubWord(s.pos, 1) % SLOTS
  {
  }

  lemma CursorStep(m: Mode, run: seq<State>, i: nat, t: nat)
    requires Run(m, run) && i + 1 < |run| && t < |run[i].pcs| == |run[i + 1].pcs| && run[i + 1].pcs[t] != run[i].pcs[t]
    requires run[i].pcs[t].DePush? || run[i].pcs[t].PutPos?
    ensures CountStep(run[i], run[i + 1], t)
  {
    Moved(m, run, i, t);
  }

  lemma PosIsWord(m: Mode, run: seq<State>, i: nat)
    requires Run(m, run) && i < |run|
    ensures run[i].pos < WORD
  {
    RunKeeps(m, run, i);
  }

  /** Last in, first out: if nobody moves the cursor in between, a put looks into the slot that was filled last. */
  lemma LastIn(m: Mode, run: seq<State>, i: nat, t: nat, j: nat, u: nat)
    requires Run(m, run) && i < j && j + 1 < |run| && run[j].pos == run[i + 1].pos
    requires t < |run[i].pcs| == |run[i + 1].pcs| && run[i].pcs[t].DePush? && run[i + 1].pcs[t] != run[i].pcs[t]
    requires u < |run[j].pcs| == |run[j + 1].pcs| && run[j].pcs[u].PutPos? && run[j + 1].pcs[u] != run[j].pcs[u]
    ensures run[i + 1].pcs[t].DeSlot? && run[j + 1].pcs[u].PutPop? && run[j + 1].pcs[u].slot == run[i + 1].pcs[t].slot
  {
    CursorStep(m, run, i, t);
    CursorStep(m, run, j, u);
    CountMoves(run[i], run[i + 1], t);
    CountMoves(run[j], run[j + 1], u);
    PosIsWord(m, run, i);
    BackAgain(run[i].pos);
  }

  lemma PopStep(s: State, s': State, t: nat)
    requires t < |s.pcs| && s.pcs[t].PutPop? && PrepareStep(s, s', t)
    ensures |s'.pcs| == |s.pcs| && s.pcs[t].slot < |s.slots| == |s'.slots| && s'.slots[s.pcs[t].slot] == NULL
    ensures var was := s.slots[s.pcs[t].slot];
      s'.pcs[t] == if was == NULL then PutAlloc(s.pcs[t].v) else PutReset(s.pcs[t].v, was)
  {
  }

  /** A put that finds a node in its slot takes it out and uses it; it allocates one only if the slot is empty. */
  lemma PutReuses(m: Mode, run: seq<State>, i: nat, t: nat)
    requires Run(m, run) && i + 1 < |run| && t < |run[i].pcs| == |run[i + 1].pcs| && run[i + 1].pcs[t] != run[i].pcs[t]
    requires run[i].pcs[t].PutPop?
    ensures var slot := run[i].pcs[t].slot;
      && slot < |run[i].slots| == |run[i + 1].slots| && run[i + 1].slots[slot] == NULL
      && (run[i].slots[slot] != NULL ==> run[i + 1].pcs[t].PutReset? && run[i + 1].pcs[t].item == run[i].slots[slot])
      && (run[i + 1].pcs[t].PutAlloc? <==> run[i].slots[slot] == NULL)
  {
    Moved(m, run, i, t);
    PopStep(run[i], run[i + 1], t);
  }

  // ----- a whole get of the single consumer -----

  /** The consumer calls `get` in step `a` and is back after step `b - 1`. */
  ghost predicate Get(run: seq<State>, a: nat, b: nat, t: nat) {
    && a + 1 < b < |run| && (forall x :: a <= x <= b ==> t < |run[x].pcs|)
    && run[a].pcs[t].Idle? && run[a + 1].pcs[t] == GetLst && run[b].pcs[t].Idle?
    && (forall x :: a < x < b ==> !run[x].pcs[t].Idle?)
  }

  /** The node `p`, at position `n`, is the drained `lst`, and everything older is yet to be recycled. */
  ghost predicate Drained(s: State, p: Ptr, n: nat) {
    s.lst == p && InChain(s, p) && s.place[p].at == n && p in s.heap && s.heap[p].needrel
  }

  /** How far the consumer is with recycling what is older than `p`. */
  ghost predicate Recycling(s: State, pc: Pc, p: Ptr, n: nat) {
    if pc.GetLst? then Drained(s, p, n) && !s.doingrel
    else if pc.GetNeedrel? || pc.TakeGuard? then pc.cur == p && Drained(s, p, n) && !s.doingrel
    else if pc.DeNext? then pc.after == p && InChain(s, p) && s.place[p].at == n
    else if InWalk(pc) then s.keep == n
    else s.lo == n
  }

  /** Nothing that matters to the consumer's recycling changes. */
  ghost predicate Calm(s: State, s': State, p: Ptr) {
    && s'.lo == s.lo && s'.keep == s.keep && s'.doingrel == s.doingrel
    && (s.lst != NULL ==> s'.lst == s.lst)
    && (InChain(s, p) && p in s.heap ==> InChain(s', p) && s'.place[p] == s.place[p] && p in s'.heap && s'.heap[p].needrel == s.heap[p].needrel)
  }

  lemma CalmRecycling(s: State, s': State, pc: Pc, p: Ptr, n: nat)
    requires Recycling(s, pc, p, n) && Calm(s, s', p) && p != NULL && s.heap.Keys == s.place.Keys
    ensures Recycling(s', pc, p, n)
  {
  }

  // ----- the steps of producers -----

  lemma LoadCalm(m: Mode, s: State, s': State, u: nat, p: Ptr)
    requires u < |s.pcs| && Derefs(s.pcs[u]) <= s.heap.Keys && (LoadStep(m, s, s', u) || CallStep(m, s, s', u))
    ensures Calm(s, s', p)
  {
  }

  lemma CountCalm(s: State, s': State, u: nat, p: Ptr)
    requires u < |s.pcs| && CountStep(s, s', u) && !InGet(s.pcs[u])
    ensures Calm(s, s', p)
  {
  }

  lemma PrepareCalm(m: Mode, s: State, s': State, u: nat, p: Ptr)
    requires Shape(m, s) && Placed(s) && Putters(s) && u < |s.pcs| && Derefs(s.pcs[u]) <= s.heap.Keys && PrepareStep(s, s', u)
    ensures Calm(s, s', p)
  {
    var pc := s.pcs[u];
    if pc.PutPop? {
      PopCalm(s, u, pc.v, pc.slot, p);
    } else if pc.PutReset? {
      PutResetHand(s, u, pc.v, pc.item);
    }
  }

  lemma PopCalm(s: State, u: nat, v: Payload, slot: nat, p: Ptr)
    requires SlotsPlaced(s) && u < |s.pcs| && slot < |s.slots|
    ensures Calm(s, PutPopStep(s, u, v, slot), p)
  {
  }

  lemma PublishCalm(m: Mode, s: State, s': State, u: nat, p: Ptr)
    requires Shape(m, s) && Placed(s) && Ends(s) && Putters(s)
    requires u < |s.pcs| && Derefs(s.pcs[u]) <= s.heap.Keys && PublishStep(s, s', u)
    ensures Calm(s, s', p)
  {
    var pc := s.pcs[u];
    if pc.PutSwap? {
      PutSwapHand(s, u, pc.item);
      SwapCalm(s, u, pc.item, p);
    } else {
      LinkingOk(s, u, pc.item, pc.oldhead);
      PutLinkFirst(m, s, u, pc.item, pc.oldhead);
      LinkCalm(s, s', u, p);
    }
  }

  lemma SwapCalm(s: State, u: nat, item: Ptr, p: Ptr)
    requires u < |s.pcs| && item in s.heap && item in s.place && s.place[item] == Hand(u)
    ensures Calm(s, PutSwapStep(s, u, item), p)
  {
  }

  lemma LinkCalm(s: State, s': State, u: nat, p: Ptr)
    requires u < |s.pcs| && Derefs(s.pcs[u]) <= s.heap.Keys && PublishStep(s, s', u)
    requires (s.pcs[u].PutNext? || s.pcs[u].PutLink?) && First(s, s.pcs[u].item, s.pcs[u].oldhead)
    ensures Calm(s, s', p)
  {
  }

  lemma StepCalm(m: Mode, s: State, s': State, u: nat, p: Ptr)
    requires Inv(m, s) && Step(m, s, s', u) && m.Recycling? && u != m.consumer
    ensures Calm(s, s', p)
  {
    assert !InGet(s.pcs[u]);
    if LoadStep(m, s, s', u) || CallStep(m, s, s', u) {
      LoadCalm(m, s, s', u, p);
    } else if CountStep(s, s', u) {
      CountCalm(s, s', u, p);
    } else if PrepareStep(s, s', u) {
      PrepareCalm(m, s, s', u, p);
    } else if PublishStep(s, s', u) {
      PublishCalm(m, s, s', u, p);
    }
  }

  // ----- the steps of the consumer -----

  lemma LoadRecycles(m: Mode, s: State, s': State, t: nat, p: Ptr, n: nat)
    requires m.Recycling? && p != NULL && t < |s.pcs| && Derefs(s.pcs[t]) <= s.heap.Keys && LoadStep(m, s, s', t) && InGet(s.pcs[t])
    requires Recycling(s, s.pcs[t], p, n)
    ensures t < |s'.pcs| && Recycling(s', s'.pcs[t], p, n) && (InGet(s'.pcs[t]) || s'.pcs[t].Idle?)
  {
  }

  lemma CountRecycles(m: Mode, s: State, s': State, t: nat, p: Ptr, n: nat)
    requires t < |s.pcs| && CountStep(s, s', t) && Recycling(s, s.pcs[t], p, n) && InGet(s.pcs[t])
    ensures t < |s'.pcs| && Recycling(s', s'.pcs[t], p, n) && InGet(s'.pcs[t])
  {
  }

  /** Past the recycling of this `get`, or not in a `get`. */
  predicate Late(pc: Pc) {
    !pc.GetLst? && !pc.GetNeedrel? && !pc.TakeGuard? && !pc.DeNext? && !InWalk(pc)
  }

  lemma ClaimLate(s: State, s': State, t: nat)
    requires t < |s.pcs| && Derefs(s.pcs[t]) <= s.heap.Keys && ClaimStep(s, s', t)
    ensures t < |s'.pcs| && Late(s.pcs[t]) && Late(s'.pcs[t]) && InGet(s'.pcs[t]) && s'.lo == s.lo
  {
    if s.pcs[t].GetTry? { TryLate(s, t, s.pcs[t].cur, s.pcs[t].first); }
  }

  lemma TryLate(s: State, t: nat, cur: Ptr, first: bool)
    requires t < |s.pcs| && s.pcs[t] == GetTry(cur, first) && cur in s.heap
    ensures var s' := GetTryStep(s, t, cur, first); Late(s'.pcs[t]) && InGet(s'.pcs[t]) && s'.lo == s.lo
  {
  }

  lemma NextWalks(s: State, t: nat, after: Ptr, p: Ptr, n: nat)
    requires t < |s.pcs| && s.pcs[t] == DeNext(after) && after in s.heap && Recycling(s, DeNext(after), p, n)
    ensures Recycling(DeNextStep(s, t, after), DeNextStep(s, t, after).pcs[t], p, n) && InGet(DeNextStep(s, t, after).pcs[t])
  {
  }

  lemma SlotWalks(s: State, t: nat, after: Ptr, cur: Ptr, ncur: Ptr, slot: nat, p: Ptr, n: nat)
    requires t < |s.pcs| && s.pcs[t] == DeSlot(after, cur, ncur, slot) && slot < |s.slots| && s.keep == n
    ensures var s' := DeSlotStep(s, t, after, cur, ncur, slot); s'.keep == n && InWalk(s'.pcs[t])
  {
  }

  lemma EndWalks(s: State, t: nat, after: Ptr, p: Ptr, n: nat)
    requires t < |s.pcs| && s.pcs[t] == DeEnd(after) && after in s.heap && s.keep == n
    ensures DeEndStep(s, t, after).pcs[t] == DeUnguard(after) && DeEndStep(s, t, after).lo == n
  {
  }

  lemma DeallocRecycles(s: State, s': State, t: nat, p: Ptr, n: nat)
    requires t < |s.pcs| && Derefs(s.pcs[t]) <= s.heap.Keys && RecycleStep(s, s', t) && Recycling(s, s.pcs[t], p, n)
    ensures t < |s'.pcs| && Recycling(s', s'.pcs[t], p, n) && InGet(s'.pcs[t])
  {
    var pc := s.pcs[t];
    if pc.DeNext? {
      NextWalks(s, t, pc.after, p, n);
    } else if pc.DeSlot? {
      SlotWalks(s, t, pc.after, pc.cur, pc.ncur, pc.slot, p, n);
    } else if pc.DeEnd? {
      EndWalks(s, t, pc.after, p, n);
    }
  }

  lemma ConsumerRecycles(m: Mode, s: State, s': State, t: nat, p: Ptr, n: nat)
    requires m.Recycling? && p != NULL && Step(m, s, s', t) && InGet(s.pcs[t]) && Recycling(s, s.pcs[t], p, n)
    ensures t < |s'.pcs| && Recycling(s', s'.pcs[t], p, n) && (InGet(s'.pcs[t]) || s'.pcs[t].Idle?)
  {
    if LoadStep(m, s, s', t) {
      LoadRecycles(m, s, s', t, p, n);
    } else if CountStep(s, s', t) {
      CountRecycles(m, s, s', t, p, n);
    } else if ClaimStep(s, s', t) {
      ClaimLate(s, s', t);
    } else {
      DeallocRecycles(s, s', t, p, n);
    }
  }

  lemma NextRecycles(m: Mode, s: State, s': State, p: Ptr, n: nat)
    requires Inv(m, s) && Next(m, s, s') && m.Recycling? && m.consumer < |s.pcs| && InGet(s.pcs[m.consumer]) && p != NULL
    requires Recycling(s, s.pcs[m.consumer], p, n)
    ensures m.consumer < |s'.pcs| && Recycling(s', s'.pcs[m.consumer], p, n)
    ensures InGet(s'.pcs[m.consumer]) || s'.pcs[m.consumer].Idle?
  {
    var u: nat :| Step(m, s, s', u);
    StepGuards(m, s, s', u);
    if u == m.consumer {
      ConsumerRecycles(m, s, s', u, p, n);
    } else {
      StepCalm(m, s, s', u, p);
      CalmRecycling(s, s', s.pcs[m.consumer], p, n);
    }
  }

  // ----- what a get recycles -----

  /** When a `get` starts with a claimed `lst`, the node is marked and the guard is free. */
  lemma StartsDrained(m: Mode, run: seq<State>, a: nat, b: nat)
    requires Run(m, run) && m.Recycling? && Get(run, a, b, m.consumer)
    requires run[a + 1].lst in run[a + 1].heap && run[a + 1].heap[run[a + 1].lst].claimed
    ensures var s := run[a + 1]; s.lst != NULL && s.lst in s.place && s.place[s.lst].Chain?
    ensures var s := run[a + 1]; Recycling(s, GetLst, s.lst, s.place[s.lst].at)
  {
    RunMarked(m, run, a + 1);
    RunGuard(m, run, a + 1);
    RunKeeps(m, run, a + 1);
    ConsumerMarks(m, run[a + 1]);
  }

  /** Outside of a get's second half, nobody is about to mark a node: only the consumer claims. */
  lemma ConsumerMarks(m: Mode, s: State)
    requires Inv(m, s) && Marked(s) && m.Recycling? && m.consumer < |s.pcs| && s.pcs[m.consumer] == GetLst && s.lst in s.heap
    ensures s.heap[s.lst].claimed ==> s.heap[s.lst].needrel
    ensures s.lst != NULL && InChain(s, s.lst)
  {
    NobodyMarks(m, s, s.lst);
  }

  lemma NobodyMarks(m: Mode, s: State, p: Ptr)
    requires Roles(m, s) && m.Recycling? && m.consumer < |s.pcs| && s.pcs[m.consumer] == GetLst
    ensures !SomeMarks(s, p)
  {
    forall t | 0 <= t < |s.pcs| ensures !Marking(s.pcs[t], p) {
      assert InGet(s.pcs[t]) ==> t == m.consumer;
    }
  }

  /** The consumer is in a `get` that recycles what is older than `p`, or has just returned from it. */
  ghost predicate InRecycling(m: Mode, s: State, p: Ptr, n: nat)
    requires m.Recycling?
  {
    && m.consumer < |s.pcs| && (InGet(s.pcs[m.consumer]) || s.pcs[m.consumer].Idle?)
    && Recycling(s, s.pcs[m.consumer], p, n)
  }

  lemma AdvanceRecycles(m: Mode, run: seq<State>, x: nat, p: Ptr, n: nat)
    requires Run(m, run) && m.Recycling? && x + 1 < |run| && p != NULL && InRecycling(m, run[x], p, n) && !run[x].pcs[m.consumer].Idle?
    ensures InRecycling(m, run[x + 1], p, n)
  {
    RunKeeps(m, run, x);
    assert Advances(m, run, x);
    NextRecycles(m, run[x], run[x + 1], p, n);
  }

  lemma {:induction false} GetRecycling(m: Mode, run: seq<State>, a: nat, b: nat, x: nat, p: Ptr, n: nat)
    requires Run(m, run) && m.Recycling? && Get(run, a, b, m.consumer) && a < x <= b && p != NULL && Recycling(run[a + 1], GetLst, p, n)
    ensures InRecycling(m, run[x], p, n)
  {
    if x > a + 1 {
      GetRecycling(m, run, a, b, x - 1, p, n);
      AdvanceRecycles(m, run, x - 1, p, n);
    }
  }

  /**
   A `get` that finds its `lst` drained recycles everything older than it: when it returns, the chain starts at that node, and
   all nodes before it have left for the pointer cache or been freed.
   */
  lemma GetRecycles(m: Mode, run: seq<State>, a: nat, b: nat)
    requires Run(m, run) && m.Recycling? && Get(run, a, b, m.consumer)
    requires run[a + 1].lst in run[a + 1].heap && run[a + 1].heap[run[a + 1].lst].claimed
    ensures run[b].lo == Position(run[a + 1], run[a + 1].lst)
    ensures forall p :: IsInChain(run[b], p) ==> Position(run[b], p) >= Position(run[a + 1], run[a + 1].lst)
  {
    StartsDrained(m, run, a, b);
    GetRecycling(m, run, a, b, b, run[a + 1].lst, run[a + 1].place[run[a + 1].lst].at);
    ChainFrom(m, run, b);
  }

  // ----- lst moves on -----

  ghost predicate Beyond(s: State, n: nat) {
    s.lst != NULL && Position(s, s.lst) > n
  }

  /** The node `p` is still `lst`, and there is a newer one behind it. */
  ghost predicate Behind(s: State, p: Ptr, n: nat) {
    s.lst == p && InChain(s, p) && s.place[p].at == n && p in s.heap && s.heap[p].prev != NULL
  }

  /** The consumer is on its way to move `lst` on from `p`. */
  ghost predicate Heading(s: State, pc: Pc, p: Ptr) {
    || pc.GetLst?
    || ((pc.GetNeedrel? || pc.TakeGuard? || pc.GetNeedrel2? || pc.GetSkip? || pc.GetSkipCas? || pc.GetSub? || pc.GetAdvance?
         || pc.GetAdvanceCas?) && pc.cur == p && (pc.GetSub? ==> pc.first))
    || (pc.GetTry? && pc.cur == p && pc.first && p in s.heap && !s.heap[p].claimed)
    || (InDealloc(pc) && pc.after == p)
  }

  ghost predicate Moving(s: State, pc: Pc, p: Ptr, n: nat) {
    Beyond(s, n) || (Behind(s, p, n) && Heading(s, pc, p))
  }

  /** What is marked is claimed, and while the consumer looks at its first node, also the other way round. */
  ghost predicate MarkTells(s: State, p: Ptr) {
    p in s.heap && (s.heap[p].needrel ==> s.heap[p].claimed) && (s.heap[p].claimed ==> s.heap[p].needrel)
  }

  lemma LoadHeads(m: Mode, s: State, s': State, t: nat, p: Ptr, n: nat)
    requires m.Recycling? && p != NULL && t < |s.pcs| && Derefs(s.pcs[t]) <= s.heap.Keys && LoadStep(m, s, s', t)
    requires Behind(s, p, n) && Heading(s, s.pcs[t], p) && (s.pcs[t].GetNeedrel2? ==> MarkTells(s, p))
    ensures t < |s'.pcs| && Behind(s', p, n) && Heading(s', s'.pcs[t], p)
  {
  }

  lemma CountHeads(s: State, s': State, t: nat, p: Ptr, n: nat)
    requires t < |s.pcs| && CountStep(s, s', t) && Behind(s, p, n) && Heading(s, s.pcs[t], p)
    ensures t < |s'.pcs| && Behind(s', p, n) && Heading(s', s'.pcs[t], p)
  {
  }

  lemma CasHeads(s: State, t: nat, p: Ptr, nlst: Ptr, n: nat)
    requires t < |s.pcs| && Behind(s, p, n) && Follows(s, p, nlst) && NULL !in s.place
    ensures s.pcs[t] == GetSkipCas(p, nlst) ==> Beyond(GetSkipCasStep(s, t, p, nlst), n)
    ensures s.pcs[t] == GetAdvanceCas(p, nlst) ==> Beyond(GetAdvanceCasStep(s, t, p, nlst), n)
  {
  }

  lemma ClaimHeads(s: State, s': State, t: nat, p: Ptr, n: nat)
    requires t < |s.pcs| && Derefs(s.pcs[t]) <= s.heap.Keys && ClaimStep(s, s', t) && NULL !in s.place
    requires Behind(s, p, n) && Heading(s, s.pcs[t], p) && Refinement.LstApart(s, s.pcs[t])
    ensures t < |s'.pcs| && Moving(s', s'.pcs[t], p, n)
  {
    var pc := s.pcs[t];
    if pc.GetTry? {
      TryHeads(s, t, p, n);
    } else {
      CasHeads(s, t, p, pc.nlst, n);
    }
  }

  lemma TryHeads(s: State, t: nat, p: Ptr, n: nat)
    requires t < |s.pcs| && s.pcs[t] == GetTry(p, true) && Behind(s, p, n) && Heading(s, s.pcs[t], p)
    ensures var s' := GetTryStep(s, t, p, true); Behind(s', p, n) && Heading(s', s'.pcs[t], p)
  {
  }

  lemma SlotHeads(s: State, t: nat, after: Ptr, cur: Ptr, ncur: Ptr, slot: nat, p: Ptr, n: nat)
    requires t < |s.pcs| && s.pcs[t] == DeSlot(after, cur, ncur, slot) && slot < |s.slots| && s.slots[slot] != p
    requires Behind(s, p, n) && after == p && cur != p
    ensures var s' := DeSlotStep(s, t, after, cur, ncur, slot); Behind(s', p, n) && Heading(s', s'.pcs[t], p)
  {
  }

  lemma FreeHeads(s: State, t: nat, after: Ptr, ncur: Ptr, was: Ptr, p: Ptr, n: nat)
    requires t < |s.pcs| && s.pcs[t] == DeFree(after, ncur, was) && Behind(s, p, n) && after == p && was != p
    ensures var s' := DeFreeStep(s, t, after, ncur, was); Behind(s', p, n) && Heading(s', s'.pcs[t], p)
  {
  }

  lemma NextHeads(s: State, t: nat, p: Ptr, n: nat)
    requires t < |s.pcs| && s.pcs[t] == DeNext(p) && Behind(s, p, n)
    ensures var s' := DeNextStep(s, t, p); Behind(s', p, n) && Heading(s', s'.pcs[t], p)
  {
  }

  lemma EndHeads(s: State, t: nat, p: Ptr, n: nat)
    requires t < |s.pcs| && s.pcs[t] == DeEnd(p) && Behind(s, p, n)
    ensures var s' := DeEndStep(s, t, p); Behind(s', p, n) && Heading(s', s'.pcs[t], p)
  {
  }

  lemma DeallocHeads(s: State, s': State, t: nat, p: Ptr, n: nat)
    requires t < |s.pcs| && Derefs(s.pcs[t]) <= s.heap.Keys && RecycleStep(s, s', t)
    requires Behind(s, p, n) && Heading(s, s.pcs[t], p) && Refinement.LstApart(s, s.pcs[t])
    ensures t < |s'.pcs| && Behind(s', p, n) && Heading(s', s'.pcs[t], p)
  {
    var pc := s.pcs[t];
    if pc.DeSlot? {
      SlotHeads(s, t, p, pc.cur, pc.ncur, pc.slot, p, n);
    } else if pc.DeFree? {
      FreeHeads(s, t, p, pc.ncur, pc.was, p, n);
    } else if pc.DeNext? {
      NextHeads(s, t, p, n);
    } else {
      EndHeads(s, t, p, n);
    }
  }

  lemma ConsumerHeads(m: Mode, s: State, s': State, t: nat, p: Ptr, n: nat)
    requires m.Recycling? && p != NULL && Step(m, s, s', t) && InGet(s.pcs[t]) && NULL !in s.place
    requires Refinement.LstApart(s, s.pcs[t])
    requires Behind(s, p, n) && Heading(s, s.pcs[t], p) && (s.pcs[t].GetNeedrel2? ==> MarkTells(s, p))
    ensures t < |s'.pcs| && Moving(s', s'.pcs[t], p, n)
  {
    if LoadStep(m, s, s', t) {
      LoadHeads(m, s, s', t, p, n);
    } else if CountStep(s, s', t) {
      CountHeads(s, s', t, p, n);
    } else if ClaimStep(s, s', t) {
      ClaimHeads(s, s', t, p, n);
    } else {
      DeallocHeads(s, s', t, p, n);
    }
  }

  /** Producers leave `lst` and its neighbour alone. */
  lemma OtherHeads(m: Mode, s: State, s': State, u: nat, pc: Pc, p: Ptr, n: nat)
    requires Inv(m, s) && Step(m, s, s', u) && m.Recycling? && u != m.consumer && p != NULL
    requires Behind(s, p, n) && Heading(s, pc, p)
    ensures Behind(s', p, n) && Heading(s', pc, p)
  {
    StepCalm(m, s, s', u, p);
    assert !InGet(s.pcs[u]);
    NeighbourStays(m, s, s', u, p);
  }

  lemma NeighbourStays(m: Mode, s: State, s': State, u: nat, p: Ptr)
    requires Shape(m, s) && Placed(s) && Ends(s) && Putters(s) && Step(m, s, s', u) && !InGet(s.pcs[u]) && InChain(s, p) && p in s.heap
    ensures p in s'.heap && (s.heap[p].prev != NULL ==> s'.heap[p].prev != NULL) && s'.heap[p].claimed == s.heap[p].claimed
  {
    if PrepareStep(s, s', u) {
      PrepareStays(s, s', u, p);
    } else if PublishStep(s, s', u) {
      PublishStays(m, s, s', u, p);
    } else {
      OthersStay(m, s, s', u);
    }
  }

  lemma OthersStay(m: Mode, s: State, s': State, u: nat)
    requires Step(m, s, s', u) && !InGet(s.pcs[u]) && !PrepareStep(s, s', u) && !PublishStep(s, s', u)
    ensures s'.heap == s.heap
  {
  }

  lemma PrepareStays(s: State, s': State, u: nat, p: Ptr)
    requires Placed(s) && Putters(s) && u < |s.pcs| && Derefs(s.pcs[u]) <= s.heap.Keys && PrepareStep(s, s', u)
    requires InChain(s, p) && p in s.heap
    ensures p in s'.heap && s'.heap[p] == s.heap[p]
  {
    if s.pcs[u].PutReset? { PutResetHand(s, u, s.pcs[u].v, s.pcs[u].item); }
  }

  lemma PublishStays(m: Mode, s: State, s': State, u: nat, p: Ptr)
    requires Shape(m, s) && Ends(s) && Putters(s) && u < |s.pcs| && Derefs(s.pcs[u]) <= s.heap.Keys && PublishStep(s, s', u) && p in s.heap
    ensures p in s'.heap && (s.heap[p].prev != NULL ==> s'.heap[p].prev != NULL) && s'.heap[p].claimed == s.heap[p].claimed
  {
    if !s.pcs[u].PutSwap? {
      LinkingOk(s, u, s.pcs[u].item, s.pcs[u].oldhead);
      PutLinkFirst(m, s, u, s.pcs[u].item, s.pcs[u].oldhead);
    }
  }

  // ----- a get that recycles nothing -----

  /** The consumer is in a `get` that started at the unmarked `lst`, `p`, or has returned from it, and the chain is as long as it was. */
  ghost predicate Sparing(m: Mode, s: State, p: Ptr, n: nat)
    requires m.Recycling?
  {
    && m.consumer < |s.pcs| && (InGet(s.pcs[m.consumer]) || s.pcs[m.consumer].Idle?) && s.lo == n
    && (s.pcs[m.consumer].GetLst? ==> s.lst == p && InChain(s, p) && p in s.heap && !s.heap[p].needrel)
    && (s.pcs[m.consumer].GetNeedrel? ==> s.pcs[m.consumer].cur == p && InChain(s, p) && p in s.heap && !s.heap[p].needrel)
    && (s.pcs[m.consumer].GetLst? || s.pcs[m.consumer].GetNeedrel? || Late(s.pcs[m.consumer]))
  }

  lemma LoadSpares(m: Mode, s: State, s': State, p: Ptr, n: nat)
    requires m.Recycling? && p != NULL && Sparing(m, s, p, n) && InGet(s.pcs[m.consumer])
    requires Derefs(s.pcs[m.consumer]) <= s.heap.Keys && LoadStep(m, s, s', m.consumer)
    ensures Sparing(m, s', p, n)
  {
  }

  lemma CountSpares(m: Mode, s: State, s': State, p: Ptr, n: nat)
    requires m.Recycling? && Sparing(m, s, p, n) && InGet(s.pcs[m.consumer]) && CountStep(s, s', m.consumer)
    ensures Sparing(m, s', p, n)
  {
  }

  lemma ConsumerSpares(m: Mode, s: State, s': State, p: Ptr, n: nat)
    requires m.Recycling? && p != NULL && Sparing(m, s, p, n) && InGet(s.pcs[m.consumer]) && Step(m, s, s', m.consumer)
    ensures Sparing(m, s', p, n)
  {
    if LoadStep(m, s, s', m.consumer) {
      LoadSpares(m, s, s', p, n);
    } else if CountStep(s, s', m.consumer) {
      CountSpares(m, s, s', p, n);
    } else {
      ClaimLate(s, s', m.consumer);
    }
  }

  lemma CalmSparing(m: Mode, s: State, s': State, p: Ptr, n: nat)
    requires m.Recycling? && p != NULL && Sparing(m, s, p, n) && Calm(s, s', p)
    requires m.consumer < |s'.pcs| && s'.pcs[m.consumer] == s.pcs[m.consumer]
    ensures Sparing(m, s', p, n)
  {
  }

  lemma AdvanceSpares(m: Mode, run: seq<State>, x: nat, p: Ptr, n: nat)
    requires Run(m, run) && m.Recycling? && x + 1 < |run| && p != NULL && Sparing(m, run[x], p, n) && !run[x].pcs[m.consumer].Idle?
    ensures Sparing(m, run[x + 1], p, n)
  {
    RunKeeps(m, run, x);
    assert Advances(m, run, x);
    NextSpares(m, run[x], run[x + 1], p, n);
  }

  lemma NextSpares(m: Mode, s: State, s': State, p: Ptr, n: nat)
    requires Inv(m, s) && Next(m, s, s') && m.Recycling? && p != NULL && Sparing(m, s, p, n) && InGet(s.pcs[m.consumer])
    ensures Sparing(m, s', p, n)
  {
    var u: nat :| Step(m, s, s', u);
    StepGuards(m, s, s', u);
    if u == m.consumer {
      ConsumerSpares(m, s, s', p, n);
    } else {
      StepCalm(m, s, s', u, p);
      CalmSparing(m, s, s', p, n);
    }
  }

  lemma {:induction false} GetSparing(m: Mode, run: seq<State>, a: nat, b: nat, x: nat, p: Ptr, n: nat)
    requires Run(m, run) && m.Recycling? && Get(run, a, b, m.consumer) && a < x <= b && p != NULL && Sparing(m, run[a + 1], p, n)
    ensures Sparing(m, run[x], p, n)
  {
    if x > a + 1 {
      GetSparing(m, run, a, b, x - 1, p, n);
      AdvanceSpares(m, run, x - 1, p, n);
    }
  }

  /** A `get` that finds an item at its `lst` recycles nothing: a queue that is never emptied keeps all its nodes. */
  lemma GetSpares(m: Mode, run: seq<State>, a: nat, b: nat)
    requires Run(m, run) && m.Recycling? && Get(run, a, b, m.consumer)
    requires run[a + 1].lst in run[a + 1].heap && !run[a + 1].heap[run[a + 1].lst].claimed
    ensures run[b].lo == run[a + 1].lo
  {
    StartsFull(m, run, a, b);
    GetSparing(m, run, a, b, b, run[a + 1].lst, run[a + 1].lo);
  }

  lemma StartsFull(m: Mode, run: seq<State>, a: nat, b: nat)
    requires Run(m, run) && m.Recycling? && Get(run, a, b, m.consumer)
    requires run[a + 1].lst in run[a + 1].heap && !run[a + 1].heap[run[a + 1].lst].claimed
    ensures run[a + 1].lst != NULL && Sparing(m, run[a + 1], run[a + 1].lst, run[a + 1].lo)
  {
    RunKeeps(m, run, a + 1);
    LstUnmarked(m, run[a + 1]);
  }

  lemma LstUnmarked(m: Mode, s: State)
    requires Shape(m, s) && Placed(s) && Ends(s) && Nodes(s) && s.lst in s.heap && !s.heap[s.lst].claimed
    ensures s.lst != NULL && InChain(s, s.lst) && !s.heap[s.lst].needrel
  {
    ReachedNode(m, s, s.lst);
  }

  lemma MarksTell(m: Mode, s: State, p: Ptr)
    requires Inv(m, s) && Marked(s) && m.Recycling? && m.consumer < |s.pcs| && s.pcs[m.consumer].GetNeedrel2? && p in s.heap && InChain(s, p)
    ensures MarkTells(s, p)
  {
    KnownMarks(m, s, p);
    if Unmarked(s, p) { NobodyMarksYet(m, s, p); }
  }

  lemma KnownMarks(m: Mode, s: State, p: Ptr)
    requires ChainPlaced(s) && Nodes(s) && p in s.heap && InChain(s, p)
    ensures s.heap[p].needrel ==> s.heap[p].claimed
  {
    assert Live(s, s.place[p].at) && NodeAt(s, s.place[p].at);
  }

  lemma NobodyMarksYet(m: Mode, s: State, p: Ptr)
    requires Roles(m, s) && m.Recycling? && m.consumer < |s.pcs| && s.pcs[m.consumer].GetNeedrel2?
    ensures !SomeMarks(s, p)
  {
    forall t | 0 <= t < |s.pcs| ensures !Marking(s.pcs[t], p) {
      assert InGet(s.pcs[t]) ==> t == m.consumer;
    }
  }

  lemma NextMoves(m: Mode, s: State, s': State, p: Ptr, n: nat)
    requires Inv(m, s) && Marked(s) && Next(m, s, s') && m.Recycling? && m.consumer < |s.pcs| && InGet(s.pcs[m.consumer]) && p != NULL
    requires Behind(s, p, n) && Heading(s, s.pcs[m.consumer], p)
    ensures m.consumer < |s'.pcs| && Moving(s', s'.pcs[m.consumer], p, n)
  {
    var u: nat :| Step(m, s, s', u);
    StepGuards(m, s, s', u);
    if u == m.consumer {
      if s.pcs[u].GetNeedrel2? { MarksTell(m, s, p); }
      Refinement.LstIsApart(m, s, u);
      ConsumerHeads(m, s, s', u, p, n);
    } else {
      OtherHeads(m, s, s', u, s.pcs[m.consumer], p, n);
    }
  }

  lemma AdvanceMoves(m: Mode, run: seq<State>, x: nat, p: Ptr, n: nat)
    requires Run(m, run) && m.Recycling? && x + 1 < |run| && m.consumer < |run[x].pcs| && p != NULL
    requires Moving(run[x], run[x].pcs[m.consumer], p, n)
    ensures m.consumer < |run[x + 1].pcs| && Moving(run[x + 1], run[x + 1].pcs[m.consumer], p, n)
  {
    assert Advances(m, run, x);
    if Beyond(run[x], n) {
      Refinement.LstForward(m, run, x);
      SameThreads(m, run[x], run[x + 1]);
    } else {
      RunKeeps(m, run, x);
      RunMarked(m, run, x);
      NextMoves(m, run[x], run[x + 1], p, n);
    }
  }

  lemma SameThreads(m: Mode, s: State, s': State)
    requires Next(m, s, s')
    ensures |s'.pcs| == |s.pcs|
  {
    var u: nat :| Step(m, s, s', u);
    StepGuards(m, s, s', u);
  }

  lemma {:induction false} GetMoves(m: Mode, run: seq<State>, a: nat, b: nat, x: nat, p: Ptr, n: nat)
    requires Run(m, run) && m.Recycling? && Get(run, a, b, m.consumer) && a < x <= b && p != NULL && Behind(run[a + 1], p, n)
    ensures Moving(run[x], run[x].pcs[m.consumer], p, n)
  {
    if x > a + 1 {
      GetMoves(m, run, a, b, x - 1, p, n);
      AdvanceMoves(m, run, x - 1, p, n);
    }
  }

  /** A `get` that starts where `lst` has a newer node behind it moves `lst` on, whether it takes the item there or finds it taken. */
  lemma GetAdvances(m: Mode, run: seq<State>, a: nat, b: nat)
    requires Run(m, run) && m.Recycling? && Get(run, a, b, m.consumer)
    requires run[a + 1].lst in run[a + 1].heap && run[a + 1].heap[run[a + 1].lst].prev != NULL
    ensures run[b].lst != NULL && Position(run[b], run[b].lst) > Position(run[a + 1], run[a + 1].lst)
  {
    LstInChain(m, run, a + 1);
    GetMoves(m, run, a, b, b, run[a + 1].lst, run[a + 1].place[run[a + 1].lst].at);
  }

  lemma LstInChain(m: Mode, run: seq<State>, i: nat)
    requires Run(m, run) && i < |run| && run[i].lst in run[i].heap
    ensures run[i].lst != NULL && InChain(run[i], run[i].lst)
  {
    RunKeeps(m, run, i);
  }

  lemma ChainFrom(m: Mode, run: seq<State>, i: nat)
    requires Run(m, run) && i < |run|
    ensures forall p :: IsInChain(run[i], p) ==> Position(run[i], p) >= run[i].lo
  {
    RunKeeps(m, run, i);
  }

  ghost predicate IsInChain(s: State, p: Ptr) {
    p in s.heap && p in s.place && s.place[p].Chain?
  }
}
