/** The invariant of `NativeQueue`, and what it promises: exactly-once FIFO, honest verdicts, no use after free. */
module NativeQueueProof {
  import opened Base
  import opened NativeQueue
  import Spec = AtomicQueue

  ghost predicate Live(s: State, i: int) {
    s.popped <= i < |s.order|
  }

  ghost predicate Shape(popper: nat, s: State) {
    && |s.vals| + 1 == |s.order| && s.popped < |s.order|
    && s.tail == s.order[s.popped] && s.head == s.order[|s.order| - 1]
    && NULL !in s.heap && s.heap.Keys == s.place.Keys
    && (forall t :: 0 <= t < |s.pcs| && (s.pcs[t].PopNext? || s.pcs[t].PopTake? || s.pcs[t].PopHead?) ==> t == popper)
  }

  ghost predicate Placed(s: State) {
    && (forall i {:trigger Live(s, i)} :: Live(s, i) ==> s.order[i] in s.place && s.place[s.order[i]] == Chain(i))
    && (forall p :: p in s.place && s.place[p].Chain? ==> Live(s, s.place[p].at) && s.order[s.place[p].at] == p)
    && (forall p :: p in s.place && s.place[p].Hand? ==>
          s.place[p].thread < |s.pcs| && s.pcs[s.place[p].thread] == PushSwap(p))
  }

  ghost predicate Nodes(s: State) {
    forall i {:trigger NodeAt(s, i)} :: Live(s, i) && s.order[i] in s.heap ==> NodeAt(s, i)
  }

  ghost predicate NodeAt(s: State, i: int)
    requires 0 <= i < |s.order| && s.order[i] in s.heap
  {
    && i <= |s.vals|
    && s.heap[s.order[i]].next == (if i + 1 < |s.order| && i + 1 !in s.pending then s.order[i + 1] else NULL)
    && s.heap[s.order[i]].value == (if i == s.popped || i == 0 then None else Some(s.vals[i - 1]))
  }

  ghost predicate Pending(s: State) {
    forall i :: i in s.pending ==>
      s.popped < i < |s.order| && s.pending[i] < |s.pcs| && Linking(s, s.pending[i], i)
  }

  ghost predicate Linking(s: State, t: nat, i: nat)
    requires t < |s.pcs| && i < |s.order|
  {
    s.pcs[t].PushLink? && s.pcs[t].n == s.order[i]
  }

  ghost predicate ThreadOk(s: State, t: nat, pc: Pc) {
    match pc
    case PushSwap(n) =>
      n in s.heap && n in s.place && s.place[n] == Hand(t) && s.heap[n].next == NULL && s.heap[n].value.Some?
    case PushLink(n, prev) =>
      && n in s.place && s.place[n].Chain? && s.place[n].at in s.pending && s.pending[s.place[n].at] == t
      && s.popped < s.place[n].at < |s.order| && prev == s.order[s.place[n].at - 1]
    case PopTake(next) => s.popped + 1 < |s.order| && s.popped + 1 !in s.pending && next == s.order[s.popped + 1]
    case _ => true
  }

  ghost predicate Threads(s: State) {
    forall t :: 0 <= t < |s.pcs| ==> ThreadOk(s, t, s.pcs[t])
  }

  ghost predicate Inv(popper: nat, s: State) {
    Shape(popper, s) && Placed(s) && Nodes(s) && Pending(s) && Threads(s)
  }

  lemma InitInv(popper: nat, s: State)
    requires Init(s)
    ensures Inv(popper, s)
  {
  }

  predicate InPush(pc: Pc) {
    pc.PushSwap? || pc.PushLink?
  }

  // ----- push allocates -----

  lemma AllocKeeps(popper: nat, s: State, t: nat, v: Payload, n: Ptr)
    requires Inv(popper, s) && t < |s.pcs| && s.pcs[t] == PushAlloc(v) && n != NULL && n !in s.heap
    ensures Inv(popper, AllocStep(s, t, v, n))
  {
    AllocShape(popper, s, t, v, n);
    AllocPlaced(popper, s, t, v, n);
    AllocNodes(popper, s, t, v, n);
    AllocPending(popper, s, t, v, n);
    AllocThreads(popper, s, t, v, n);
  }

  lemma AllocShape(popper: nat, s: State, t: nat, v: Payload, n: Ptr)
    requires Shape(popper, s)
    requires t < |s.pcs| && s.pcs[t] == PushAlloc(v) && n != NULL && n !in s.heap
    ensures Shape(popper, AllocStep(s, t, v, n))
  {
    var s' := AllocStep(s, t, v, n);
    assert s'.heap.Keys == s.heap.Keys + {n};
    assert s'.place.Keys == s.place.Keys + {n};
  }

  lemma AllocPlaced(popper: nat, s: State, t: nat, v: Payload, n: Ptr)
    requires Shape(popper, s) && Placed(s)
    requires t < |s.pcs| && s.pcs[t] == PushAlloc(v) && n != NULL && n !in s.heap
    ensures Placed(AllocStep(s, t, v, n))
  {
    var s' := AllocStep(s, t, v, n);
    assert forall i :: Live(s', i) <==> Live(s, i);
  }

  lemma AllocNodes(popper: nat, s: State, t: nat, v: Payload, n: Ptr)
    requires Shape(popper, s) && Placed(s) && Nodes(s)
    requires t < |s.pcs| && s.pcs[t] == PushAlloc(v) && n != NULL && n !in s.heap
    ensures Nodes(AllocStep(s, t, v, n))
  {
    var s' := AllocStep(s, t, v, n);
    forall i | Live(s', i) && s'.order[i] in s'.heap ensures NodeAt(s', i) {
      assert Live(s, i) && NodeAt(s, i);
    }
  }

  lemma AllocPending(popper: nat, s: State, t: nat, v: Payload, n: Ptr)
    requires Pending(s)
    requires t < |s.pcs| && s.pcs[t] == PushAlloc(v) && n != NULL && n !in s.heap
    ensures Pending(AllocStep(s, t, v, n))
  {
    var s' := AllocStep(s, t, v, n);
    forall i | i in s'.pending ensures s'.popped < i < |s'.order| && Linking(s', s'.pending[i], i) {
      assert Linking(s, s.pending[i], i);
    }
  }

  lemma AllocThreads(popper: nat, s: State, t: nat, v: Payload, n: Ptr)
    requires Shape(popper, s) && Threads(s)
    requires t < |s.pcs| && s.pcs[t] == PushAlloc(v) && n != NULL && n !in s.heap
    ensures Threads(AllocStep(s, t, v, n))
  {
    var s' := AllocStep(s, t, v, n);
    forall u | 0 <= u < |s'.pcs| ensures ThreadOk(s', u, s'.pcs[u]) {
      assert ThreadOk(s, u, s.pcs[u]);
    }
  }

  // ----- push swaps head -----

  lemma SwapKeeps(popper: nat, s: State, t: nat, n: Ptr)
    requires Inv(popper, s) && t < |s.pcs| && s.pcs[t] == PushSwap(n) && ThreadOk(s, t, s.pcs[t])
    ensures Inv(popper, SwapStep(s, t, n))
  {
    SwapShape(popper, s, t, n);
    SwapPlaced(popper, s, t, n);
    SwapNodes(popper, s, t, n);
    SwapPending(popper, s, t, n);
    SwapThreads(popper, s, t, n);
  }

  lemma SwapShape(popper: nat, s: State, t: nat, n: Ptr)
    requires Shape(popper, s)
    requires t < |s.pcs| && s.pcs[t] == PushSwap(n) && ThreadOk(s, t, s.pcs[t])
    ensures Shape(popper, SwapStep(s, t, n))
  {
    assert SwapStep(s, t, n).place.Keys == s.place.Keys;
  }

  lemma SwapPlaced(popper: nat, s: State, t: nat, n: Ptr)
    requires Shape(popper, s) && Placed(s)
    requires t < |s.pcs| && s.pcs[t] == PushSwap(n) && ThreadOk(s, t, s.pcs[t])
    ensures Placed(SwapStep(s, t, n))
  {
    var s' := SwapStep(s, t, n);
    assert forall i :: Live(s', i) <==> Live(s, i) || i == |s.order|;
  }

  lemma SwapNodes(popper: nat, s: State, t: nat, n: Ptr)
    requires Shape(popper, s) && Placed(s) && Nodes(s)
    requires t < |s.pcs| && s.pcs[t] == PushSwap(n) && ThreadOk(s, t, s.pcs[t])
    ensures Nodes(SwapStep(s, t, n))
  {
    var s' := SwapStep(s, t, n);
    forall i | Live(s', i) && s'.order[i] in s'.heap ensures NodeAt(s', i) {
      if i < |s.order| { assert Live(s, i) && NodeAt(s, i); }
    }
  }

  lemma SwapPending(popper: nat, s: State, t: nat, n: Ptr)
    requires Shape(popper, s) && Pending(s)
    requires t < |s.pcs| && s.pcs[t] == PushSwap(n) && ThreadOk(s, t, s.pcs[t])
    ensures Pending(SwapStep(s, t, n))
  {
    var s' := SwapStep(s, t, n);
    forall i | i in s'.pending ensures s'.popped < i < |s'.order| && Linking(s', s'.pending[i], i) {
      if i < |s.order| { assert Linking(s, s.pending[i], i); }
    }
  }

  lemma SwapThreads(popper: nat, s: State, t: nat, n: Ptr)
    requires Shape(popper, s) && Pending(s) && Threads(s)
    requires t < |s.pcs| && s.pcs[t] == PushSwap(n) && ThreadOk(s, t, s.pcs[t])
    ensures Threads(SwapStep(s, t, n))
  {
    var s' := SwapStep(s, t, n);
    forall u | 0 <= u < |s'.pcs| ensures ThreadOk(s', u, s'.pcs[u]) {
      assert ThreadOk(s, u, s.pcs[u]);
    }
  }

  // ----- push links its predecessor -----

  lemma LinkKeeps(popper: nat, s: State, t: nat, n: Ptr, prev: Ptr)
    requires Inv(popper, s) && t < |s.pcs| && s.pcs[t] == PushLink(n, prev) && prev in s.heap && ThreadOk(s, t, s.pcs[t])
    ensures Inv(popper, LinkStep(s, t, n, prev))
  {
    LinkShape(popper, s, t, n, prev);
    LinkPlaced(popper, s, t, n, prev);
    LinkNodes(popper, s, t, n, prev);
    LinkPending(popper, s, t, n, prev);
    LinkThreads(popper, s, t, n, prev);
  }

  lemma LinkShape(popper: nat, s: State, t: nat, n: Ptr, prev: Ptr)
    requires Shape(popper, s)
    requires t < |s.pcs| && s.pcs[t] == PushLink(n, prev) && prev in s.heap && ThreadOk(s, t, s.pcs[t])
    ensures Shape(popper, LinkStep(s, t, n, prev))
  {
    assert LinkStep(s, t, n, prev).heap.Keys == s.heap.Keys;
  }

  lemma LinkPlaced(popper: nat, s: State, t: nat, n: Ptr, prev: Ptr)
    requires Placed(s)
    requires t < |s.pcs| && s.pcs[t] == PushLink(n, prev) && prev in s.heap && ThreadOk(s, t, s.pcs[t])
    ensures Placed(LinkStep(s, t, n, prev))
  {
    var s' := LinkStep(s, t, n, prev);
    assert forall i :: Live(s', i) <==> Live(s, i);
  }

  lemma LinkNodes(popper: nat, s: State, t: nat, n: Ptr, prev: Ptr)
    requires Placed(s) && Nodes(s)
    requires t < |s.pcs| && s.pcs[t] == PushLink(n, prev) && prev in s.heap && ThreadOk(s, t, s.pcs[t])
    ensures Nodes(LinkStep(s, t, n, prev))
  {
    var s' := LinkStep(s, t, n, prev);
    assert Live(s, s.place[n].at) && Live(s, s.place[n].at - 1);
    forall i | Live(s', i) && s'.order[i] in s'.heap ensures NodeAt(s', i) {
      assert Live(s, i) && NodeAt(s, i);
      assert s.place[s.order[i]] == Chain(i);
    }
  }

  lemma LinkPending(popper: nat, s: State, t: nat, n: Ptr, prev: Ptr)
    requires Placed(s) && Pending(s)
    requires t < |s.pcs| && s.pcs[t] == PushLink(n, prev) && prev in s.heap && ThreadOk(s, t, s.pcs[t])
    ensures Pending(LinkStep(s, t, n, prev))
  {
    var s' := LinkStep(s, t, n, prev);
    forall i | i in s'.pending ensures s'.popped < i < |s'.order| && Linking(s', s'.pending[i], i) {
      assert Linking(s, s.pending[i], i);
      assert Live(s, i) && s.place[s.order[i]] == Chain(i);
    }
  }

  lemma LinkThreads(popper: nat, s: State, t: nat, n: Ptr, prev: Ptr)
    requires Placed(s) && Threads(s)
    requires t < |s.pcs| && s.pcs[t] == PushLink(n, prev) && prev in s.heap && ThreadOk(s, t, s.pcs[t])
    ensures Threads(LinkStep(s, t, n, prev))
  {
    var s' := LinkStep(s, t, n, prev);
    assert Live(s, s.place[n].at - 1) && s.place[prev] == Chain(s.place[n].at - 1);
    forall u | 0 <= u < |s'.pcs| ensures ThreadOk(s', u, s'.pcs[u]) {
      assert ThreadOk(s, u, s.pcs[u]);
    }
  }

  // ----- pop takes the next node and frees the old tail -----

  lemma TakeKeeps(popper: nat, s: State, t: nat, next: Ptr)
    requires Inv(popper, s) && t < |s.pcs| && s.pcs[t] == PopTake(next) && AssertsHold(s, next) && ThreadOk(s, t, s.pcs[t])
    ensures Inv(popper, TakeStep(s, t, next))
  {
    TakeShape(popper, s, t, next);
    TakePlaced(popper, s, t, next);
    TakeNodes(popper, s, t, next);
    TakePending(popper, s, t, next);
    TakeThreads(popper, s, t, next);
  }

  lemma TakeShape(popper: nat, s: State, t: nat, next: Ptr)
    requires Shape(popper, s) && Placed(s)
    requires t < |s.pcs| && s.pcs[t] == PopTake(next) && AssertsHold(s, next) && ThreadOk(s, t, s.pcs[t])
    ensures Shape(popper, TakeStep(s, t, next))
  {
    assert Live(s, s.popped) && Live(s, s.popped + 1);
  }

  lemma TakePlaced(popper: nat, s: State, t: nat, next: Ptr)
    requires Shape(popper, s) && Placed(s)
    requires t < |s.pcs| && s.pcs[t] == PopTake(next) && AssertsHold(s, next) && ThreadOk(s, t, s.pcs[t])
    ensures Placed(TakeStep(s, t, next))
  {
    var s' := TakeStep(s, t, next);
    assert forall i :: Live(s', i) <==> Live(s, i) && i != s.popped;
    assert Live(s, s.popped);
  }

  lemma TakeNodes(popper: nat, s: State, t: nat, next: Ptr)
    requires Shape(popper, s) && Placed(s) && Nodes(s)
    requires t < |s.pcs| && s.pcs[t] == PopTake(next) && AssertsHold(s, next) && ThreadOk(s, t, s.pcs[t])
    ensures Nodes(TakeStep(s, t, next))
  {
    var s' := TakeStep(s, t, next);
    assert Live(s, s.popped) && Live(s, s.popped + 1);
    forall i | Live(s', i) && s'.order[i] in s'.heap ensures NodeAt(s', i) {
      assert Live(s, i) && NodeAt(s, i);
      assert s.place[s.order[i]] == Chain(i);
    }
  }

  lemma TakePending(popper: nat, s: State, t: nat, next: Ptr)
    requires Pending(s)
    requires t < |s.pcs| && s.pcs[t] == PopTake(next) && AssertsHold(s, next) && ThreadOk(s, t, s.pcs[t])
    ensures Pending(TakeStep(s, t, next))
  {
    var s' := TakeStep(s, t, next);
    forall i | i in s'.pending ensures s'.popped < i < |s'.order| && Linking(s', s'.pending[i], i) {
      assert Linking(s, s.pending[i], i);
    }
  }

  lemma TakeThreads(popper: nat, s: State, t: nat, next: Ptr)
    requires Shape(popper, s) && Placed(s) && Threads(s)
    requires t < |s.pcs| && s.pcs[t] == PopTake(next) && AssertsHold(s, next) && ThreadOk(s, t, s.pcs[t])
    requires forall u :: 0 <= u < |s.pcs| && u != t ==> !s.pcs[u].PopTake?
    ensures Threads(TakeStep(s, t, next))
  {
    var s' := TakeStep(s, t, next);
    assert Live(s, s.popped) && Live(s, s.popped + 1);
    assert s.place[s.tail] == Chain(s.popped) && s.place[next] == Chain(s.popped + 1);
    forall u | 0 <= u < |s'.pcs| ensures ThreadOk(s', u, s'.pcs[u]) {
      assert ThreadOk(s, u, s.pcs[u]);
    }
  }

  // ----- steps that only load, call or return -----

  lemma ControlKeeps(popper: nat, s: State, t: nat, pc: Pc)
    requires Inv(popper, s) && t < |s.pcs| && !InPush(s.pcs[t]) && !InPush(pc) && ThreadOk(s, t, pc)
    requires pc.PopNext? || pc.PopTake? || pc.PopHead? ==> t == popper
    ensures Inv(popper, At(s, t, pc))
  {
    ControlShape(popper, s, t, pc);
    ControlPlaced(popper, s, t, pc);
    ControlNodes(popper, s, t, pc);
    ControlPending(popper, s, t, pc);
    ControlThreads(popper, s, t, pc);
  }

  lemma ControlShape(popper: nat, s: State, t: nat, pc: Pc)
    requires Shape(popper, s)
    requires t < |s.pcs| && !InPush(s.pcs[t]) && !InPush(pc) && ThreadOk(s, t, pc)
    requires pc.PopNext? || pc.PopTake? || pc.PopHead? ==> t == popper
    ensures Shape(popper, At(s, t, pc))
  {
  }

  lemma ControlPlaced(popper: nat, s: State, t: nat, pc: Pc)
    requires Placed(s)
    requires t < |s.pcs| && !InPush(s.pcs[t]) && !InPush(pc) && ThreadOk(s, t, pc)
    ensures Placed(At(s, t, pc))
  {
    var s' := At(s, t, pc);
    assert forall i :: Live(s', i) <==> Live(s, i);
  }

  lemma ControlNodes(popper: nat, s: State, t: nat, pc: Pc)
    requires Nodes(s)
    requires t < |s.pcs| && !InPush(s.pcs[t]) && !InPush(pc) && ThreadOk(s, t, pc)
    ensures Nodes(At(s, t, pc))
  {
    var s' := At(s, t, pc);
    forall i | Live(s', i) && s'.order[i] in s'.heap ensures NodeAt(s', i) {
      assert Live(s, i) && NodeAt(s, i);
    }
  }

  lemma ControlPending(popper: nat, s: State, t: nat, pc: Pc)
    requires Pending(s)
    requires t < |s.pcs| && !InPush(s.pcs[t]) && !InPush(pc) && ThreadOk(s, t, pc)
    ensures Pending(At(s, t, pc))
  {
    var s' := At(s, t, pc);
    forall i | i in s'.pending ensures s'.popped < i < |s'.order| && Linking(s', s'.pending[i], i) {
      assert Linking(s, s.pending[i], i);
    }
  }

  lemma ControlThreads(popper: nat, s: State, t: nat, pc: Pc)
    requires Threads(s)
    requires t < |s.pcs| && !InPush(s.pcs[t]) && !InPush(pc) && ThreadOk(s, t, pc)
    ensures Threads(At(s, t, pc))
  {
    var s' := At(s, t, pc);
    forall u | 0 <= u < |s'.pcs| ensures ThreadOk(s', u, s'.pcs[u]) {
      assert ThreadOk(s, u, s.pcs[u]);
    }
  }

  lemma PushKeeps(popper: nat, s: State, s': State, t: nat)
    requires Inv(popper, s) && Step(popper, s, s', t) && (s.pcs[t].PushAlloc? || s.pcs[t].PushSwap? || s.pcs[t].PushLink?)
    ensures Inv(popper, s')
  {
    assert ThreadOk(s, t, s.pcs[t]);
    match s.pcs[t]
    case PushAlloc(v) =>
      var n: Ptr :| n != NULL && n !in s.heap && s' == AllocStep(s, t, v, n);
      AllocKeeps(popper, s, t, v, n);
    case PushSwap(n) => SwapKeeps(popper, s, t, n);
    case PushLink(n, prev) => LinkKeeps(popper, s, t, n, prev);
  }

  lemma PopKeeps(popper: nat, s: State, s': State, t: nat)
    requires Inv(popper, s) && Step(popper, s, s', t) && (s.pcs[t].PopNext? || s.pcs[t].PopTake? || s.pcs[t].PopHead?)
    ensures Inv(popper, s')
  {
    assert ThreadOk(s, t, s.pcs[t]);
    match s.pcs[t]
    case PopNext => NextIs(popper, s, t); ControlKeeps(popper, s, t, s'.pcs[t]);
    case PopTake(next) => TakeKeeps(popper, s, t, next);
    case PopHead => ControlKeeps(popper, s, t, s'.pcs[t]);
  }

  lemma StepKeeps(popper: nat, s: State, s': State, t: nat)
    requires Inv(popper, s) && Step(popper, s, s', t)
    ensures Inv(popper, s')
  {
    if s.pcs[t].PushAlloc? || s.pcs[t].PushSwap? || s.pcs[t].PushLink? {
      PushKeeps(popper, s, s', t);
    } else if s.pcs[t].PopNext? || s.pcs[t].PopTake? || s.pcs[t].PopHead? {
      PopKeeps(popper, s, s', t);
    } else {
      ControlKeeps(popper, s, t, s'.pcs[t]);
    }
  }

  lemma NextIs(popper: nat, s: State, t: nat)
    requires Shape(popper, s) && Placed(s) && Nodes(s) && t < |s.pcs| && s.pcs[t] == PopNext && s.tail in s.heap
    ensures ThreadOk(s, t, NextStep(s, t).pcs[t])
    ensures NextStep(s, t).pcs[t].PopTake? <==> s.popped + 1 < |s.order| && s.popped + 1 !in s.pending
  {
    assert Live(s, s.popped) && NodeAt(s, s.popped);
    assert s.popped + 1 < |s.order| ==> Live(s, s.popped + 1) && s.order[s.popped + 1] in s.place;
  }

  lemma {:induction false} RunKeeps(popper: nat, run: seq<State>, i: nat)
    requires Run(popper, run) && i < |run|
    ensures Inv(popper, run[i])
  {
    if i == 0 {
      InitInv(popper, run[0]);
    } else {
      RunKeeps(popper, run, i - 1);
      assert Advances(popper, run, i - 1);
      var t: nat :| Step(popper, run[i - 1], run[i], t);
      StepKeeps(popper, run[i - 1], run[i], t);
    }
  }

  // ----- what a user gets -----

  /**
   In every reachable state: whatever a thread dereferences next is allocated, both asserts of a pop in progress
   hold, and a pusher's pending store goes to a node that the popper has not freed.
   */
  lemma Safe(popper: nat, run: seq<State>, i: nat, t: nat)
    requires Run(popper, run) && i < |run| && t < |run[i].pcs|
    ensures Derefs(run[i], run[i].pcs[t]) <= run[i].heap.Keys
    ensures run[i].pcs[t].PopTake? ==> AssertsHold(run[i], run[i].pcs[t].next)
    ensures run[i].pcs[t].PushLink? ==>
      exists at :: Live(run[i], at) && run[i].order[at] == run[i].pcs[t].prev && run[i].heap[run[i].pcs[t].prev].next == NULL
  {
    RunKeeps(popper, run, i);
    SafeHere(popper, run[i], t);
  }

  lemma SafeHere(popper: nat, s: State, t: nat)
    requires Inv(popper, s) && t < |s.pcs|
    ensures Derefs(s, s.pcs[t]) <= s.heap.Keys
    ensures s.pcs[t].PopTake? ==> AssertsHold(s, s.pcs[t].next)
    ensures s.pcs[t].PushLink? ==>
      exists at :: Live(s, at) && s.order[at] == s.pcs[t].prev && s.heap[s.pcs[t].prev].next == NULL
  {
    assert ThreadOk(s, t, s.pcs[t]);
    assert Live(s, s.popped) && NodeAt(s, s.popped);
    if s.pcs[t].PopTake? { assert Live(s, s.popped + 1) && NodeAt(s, s.popped + 1); }
    if s.pcs[t].PushLink? {
      var at := s.place[s.pcs[t].n].at - 1;
      assert Live(s, at) && NodeAt(s, at);
    }
  }

  /** Every thread in every reachable state has a next step: no operation fails. */
  lemma NeverStuck(popper: nat, run: seq<State>, i: nat, t: nat)
    requires Run(popper, run) && i < |run| && t < |run[i].pcs|
    ensures exists s' :: Step(popper, run[i], s', t)
  {
    RunKeeps(popper, run, i);
    SafeHere(popper, run[i], t);
    assert ThreadOk(run[i], t, run[i].pcs[t]);
    Enabled(popper, run[i], t);
  }

  lemma Enabled(popper: nat, s: State, t: nat)
    requires t < |s.pcs| && Derefs(s, s.pcs[t]) <= s.heap.Keys
    requires s.pcs[t].PopTake? ==> AssertsHold(s, s.pcs[t].next)
    requires s.pcs[t].PushSwap? ==> s.pcs[t].n in s.heap && s.heap[s.pcs[t].n].value.Some?
    ensures exists s' :: Step(popper, s, s', t)
  {
    var v: Payload :| true;
    var unused := FreshNumber(s.heap.Keys);
    var s' := match s.pcs[t]
      case Idle => At(s, t, PushAlloc(v))
      case PushAlloc(v) => AllocStep(s, t, v, unused)
      case PushSwap(n) => SwapStep(s, t, n)
      case PushLink(n, prev) => LinkStep(s, t, n, prev)
      case PushReturn => At(s, t, Idle)
      case PopNext => NextStep(s, t)
      case PopTake(next) => TakeStep(s, t, next)
      case PopHead => HeadStep(s, t)
      case PopReturn(_) => At(s, t, Idle);
    assert Step(popper, s, s', t);
  }

  /** Every allocated node is in the hand of exactly one pusher or at exactly one unpopped position. */
  lemma Conservation(popper: nat, run: seq<State>, i: nat, p: Ptr)
    requires Run(popper, run) && i < |run|
    ensures var s := run[i];
      p in s.heap <==> (exists at :: Live(s, at) && s.order[at] == p) || (exists t :: 0 <= t < |s.pcs| && s.pcs[t] == PushSwap(p))
    ensures forall at, at' :: Live(run[i], at) && Live(run[i], at') && run[i].order[at] == run[i].order[at'] ==> at == at'
    ensures forall at, t :: Live(run[i], at) && 0 <= t < |run[i].pcs| ==> run[i].pcs[t] != PushSwap(run[i].order[at])
    ensures forall t, u :: 0 <= t < |run[i].pcs| && 0 <= u < |run[i].pcs| && run[i].pcs[t] == run[i].pcs[u] == PushSwap(p) ==> t == u
  {
    RunKeeps(popper, run, i);
    var s := run[i];
    forall t | 0 <= t < |s.pcs| && s.pcs[t].PushSwap? ensures ThreadOk(s, t, s.pcs[t]) {}
    if p in s.heap { assert s.place[p].Chain? ==> Live(s, s.place[p].at); }
  }

  // ----- exactly-once FIFO -----

  /** The stub comes before the first value. */
  function Before(i: nat): nat {
    if i == 0 then 0 else i - 1
  }

  function PhaseOf(s: State, pc: Pc): Spec.Phase {
    match pc
    case Idle => Spec.Resting
    case PushAlloc(v) => Spec.Putting(v)
    case PushSwap(n) => if n in s.heap && s.heap[n].value.Some? then Spec.Putting(s.heap[n].value.value) else Spec.Resting
    case PushLink(n, _) => Spec.Put(Before(Position(s, n)))
    case PushReturn => Spec.Linked
    case PopNext => Spec.Getting
    case PopTake(_) => Spec.Getting
    case PopHead => Spec.Got(None)
    case PopReturn(r) => Spec.Got(if r.Data? then Some(r.v) else None)
  }

  function Abs(s: State): Spec.State {
    Spec.State(s.vals, s.popped, seq(|s.pcs|, t requires 0 <= t < |s.pcs| => PhaseOf(s, s.pcs[t])))
  }

  ghost predicate Others(s: State, s': State, t: nat) {
    && t < |s.pcs| == |s'.pcs| && s'.pcs == s.pcs[t := s'.pcs[t]]
    && (forall u :: 0 <= u < |s.pcs| && u != t ==> PhaseOf(s', s.pcs[u]) == PhaseOf(s, s.pcs[u]))
  }

  lemma Moves(s: State, s': State, t: nat)
    requires Others(s, s', t)
    ensures Spec.Move(Abs(s), Abs(s'), t, PhaseOf(s', s'.pcs[t])) && Abs(s).phases[t] == PhaseOf(s, s.pcs[t])
    ensures PhaseOf(s', s'.pcs[t]) == PhaseOf(s, s.pcs[t]) ==> Abs(s').phases == Abs(s).phases
  {
    assert Abs(s').phases == Abs(s).phases[t := PhaseOf(s', s'.pcs[t])];
  }

  /** The phase of another pusher only depends on the node in its hand, or on the position of the node it links. */
  lemma HandsUndisturbed(popper: nat, s: State, s': State, t: nat)
    requires Threads(s) && t < |s.pcs| == |s'.pcs| && s'.pcs == s.pcs[t := s'.pcs[t]]
    requires forall u :: 0 <= u < |s.pcs| && u != t && s.pcs[u].PushSwap? && s.pcs[u].n in s.heap ==>
      s.pcs[u].n in s'.heap && s'.heap[s.pcs[u].n].value == s.heap[s.pcs[u].n].value
    requires forall u :: 0 <= u < |s.pcs| && u != t && s.pcs[u].PushLink? ==> Position(s', s.pcs[u].n) == Position(s, s.pcs[u].n)
    ensures Others(s, s', t)
  {
    forall u | 0 <= u < |s.pcs| && u != t ensures PhaseOf(s', s.pcs[u]) == PhaseOf(s, s.pcs[u]) {
      assert ThreadOk(s, u, s.pcs[u]);
    }
  }

  lemma OthersUndisturbed(popper: nat, s: State, s': State, t: nat)
    requires Placed(s) && Shape(popper, s) && Threads(s) && Step(popper, s, s', t)
    ensures Others(s, s', t)
  {
    assert ThreadOk(s, t, s.pcs[t]);
    forall u | 0 <= u < |s.pcs| && u != t && s.pcs[u].PushSwap? && s.pcs[u].n in s.heap
      ensures s.pcs[u].n in s'.heap && s'.heap[s.pcs[u].n].value == s.heap[s.pcs[u].n].value
    {
      assert ThreadOk(s, u, s.pcs[u]);
      HandUndisturbed(popper, s, s', t, u, s.pcs[u].n);
    }
    forall u | 0 <= u < |s.pcs| && u != t && s.pcs[u].PushLink? ensures Position(s', s.pcs[u].n) == Position(s, s.pcs[u].n) {
      assert ThreadOk(s, u, s.pcs[u]);
      LinkUndisturbed(popper, s, s', t, s.pcs[u].n);
    }
    HandsUndisturbed(popper, s, s', t);
  }

  /** No step of another thread changes the value of a node in the hand of a pusher. */
  lemma HandUndisturbed(popper: nat, s: State, s': State, t: nat, u: nat, n: Ptr)
    requires Placed(s) && Shape(popper, s) && Step(popper, s, s', t) && ThreadOk(s, t, s.pcs[t])
    requires u != t && n in s.heap && n in s.place && s.place[n] == Hand(u)
    ensures n in s'.heap && s'.heap[n].value == s.heap[n].value
  {
    assert Live(s, s.popped);
    if s.pcs[t].PopTake? { assert Live(s, s.popped + 1); }
  }

  /** No step moves a node that is linked behind the tail. */
  lemma LinkUndisturbed(popper: nat, s: State, s': State, t: nat, n: Ptr)
    requires Placed(s) && Shape(popper, s) && Step(popper, s, s', t) && ThreadOk(s, t, s.pcs[t])
    requires n in s.place && s.place[n].Chain? && s.popped < s.place[n].at
    ensures Position(s', n) == Position(s, n)
  {
    assert Live(s, s.popped);
    if s.pcs[t].PopTake? { assert Live(s, s.popped + 1); }
  }

  /** The next value is there, and linked. */
  ghost predicate Ready(s: State) {
    s.popped < |s.vals| && s.popped + 1 !in s.pending
  }

  lemma AvailableIff(popper: nat, s: State)
    requires Shape(popper, s) && Placed(s) && Pending(s) && Threads(s)
    ensures Spec.Available(Abs(s)) <==> Ready(s)
  {
    var a := Abs(s);
    if s.popped + 1 in s.pending {
      var u := s.pending[s.popped + 1];
      assert Linking(s, u, s.popped + 1) && Live(s, s.popped + 1);
      assert a.phases[u] == Spec.Put(s.popped);
    }
    if u :| 0 <= u < |a.phases| && a.phases[u] == Spec.Put(a.taken) {
      assert ThreadOk(s, u, s.pcs[u]) && PhaseOf(s, s.pcs[u]) == Spec.Put(s.popped);
      assert s.popped + 1 in s.pending;
    }
  }

  /** A null `next` at the tail: the queue is empty at that instant, or the next push is between swap and link. */
  lemma NextRefines(popper: nat, s: State, t: nat)
    requires Inv(popper, s) && t < |s.pcs| && s.pcs[t] == PopNext && s.tail in s.heap
    requires Others(s, NextStep(s, t), t)
    ensures Spec.MayFollow(Abs(s), Abs(NextStep(s, t)))
  {
    var s' := NextStep(s, t);
    NextIs(popper, s, t);
    Moves(s, s', t);
    if s'.pcs[t].PopTake? {
      assert Abs(s') == Abs(s);
    } else {
      AvailableIff(popper, s);
      assert Spec.Miss(Abs(s), Abs(s'), t);
      assert Spec.Step(Abs(s), Abs(s'), t);
    }
  }

  lemma PushRefines(popper: nat, s: State, s': State, t: nat)
    requires Shape(popper, s) && Step(popper, s, s', t) && Others(s, s', t) && ThreadOk(s, t, s.pcs[t])
    requires s.pcs[t].PushAlloc? || s.pcs[t].PushSwap? || s.pcs[t].PushLink?
    ensures Spec.MayFollow(Abs(s), Abs(s'))
  {
    Moves(s, s', t);
    if s.pcs[t].PushSwap? {
      assert Spec.Enqueue(Abs(s), Abs(s'), t);
      assert Spec.Step(Abs(s), Abs(s'), t);
    } else if s.pcs[t].PushLink? {
      assert Spec.Link(Abs(s), Abs(s'), t);
      assert Spec.Step(Abs(s), Abs(s'), t);
    }
  }

  lemma CallRefines(popper: nat, s: State, s': State, t: nat)
    requires Step(popper, s, s', t) && Others(s, s', t)
    requires s.pcs[t].Idle? || s.pcs[t].PushReturn? || s.pcs[t].PopReturn? || s.pcs[t].PopHead?
    ensures Spec.MayFollow(Abs(s), Abs(s'))
  {
    Moves(s, s', t);
    if s.pcs[t].Idle? {
      assert Spec.Call(Abs(s), Abs(s'), t);
      assert Spec.Step(Abs(s), Abs(s'), t);
    } else if !s.pcs[t].PopHead? {
      assert Spec.Return(Abs(s), Abs(s'), t);
      assert Spec.Step(Abs(s), Abs(s'), t);
    }
  }

  lemma TakeRefines(popper: nat, s: State, t: nat, next: Ptr)
    requires Shape(popper, s) && Placed(s) && Nodes(s) && Pending(s) && Threads(s) && t < |s.pcs| && s.pcs[t] == PopTake(next)
    requires ThreadOk(s, t, s.pcs[t]) && AssertsHold(s, next) && Others(s, TakeStep(s, t, next), t)
    ensures Spec.MayFollow(Abs(s), Abs(TakeStep(s, t, next)))
  {
    var s' := TakeStep(s, t, next);
    Moves(s, s', t);
    assert Live(s, s.popped + 1) && NodeAt(s, s.popped + 1);
    AvailableIff(popper, s);
    assert Spec.Dequeue(Abs(s), Abs(s'), t);
    assert Spec.Step(Abs(s), Abs(s'), t);
  }

  /** Every step is a step of the atomic queue, or invisible. */
  lemma StepRefines(popper: nat, s: State, s': State, t: nat)
    requires Inv(popper, s) && Step(popper, s, s', t)
    ensures Spec.MayFollow(Abs(s), Abs(s'))
  {
    OthersUndisturbed(popper, s, s', t);
    assert ThreadOk(s, t, s.pcs[t]);
    if s.pcs[t].PopNext? {
      NextRefines(popper, s, t);
    } else if s.pcs[t].PopTake? {
      TakeRefines(popper, s, t, s.pcs[t].next);
    } else if s.pcs[t].PushAlloc? || s.pcs[t].PushSwap? || s.pcs[t].PushLink? {
      PushRefines(popper, s, s', t);
    } else {
      CallRefines(popper, s, s', t);
    }
  }

  /** What a caller can see of a run. */
  function Seen(run: seq<State>): seq<Spec.State> {
    seq(|run|, i requires 0 <= i < |run| => Abs(run[i]))
  }

  lemma AdvanceSeen(popper: nat, run: seq<State>, i: nat)
    requires Run(popper, run) && i + 1 < |run|
    ensures Spec.MayFollow(Abs(run[i]), Abs(run[i + 1]))
  {
    RunKeeps(popper, run, i);
    assert Advances(popper, run, i);
    var t: nat :| Step(popper, run[i], run[i + 1], t);
    StepRefines(popper, run[i], run[i + 1], t);
  }

  /** Pops return the pushed values in `head.swap` order, each exactly once, and `tail` is the node popped last. */
  lemma Linearizable(popper: nat, run: seq<State>)
    requires Run(popper, run)
    ensures Spec.History(Seen(run))
    ensures forall i :: 0 <= i < |run| ==> Spec.Valid(Abs(run[i])) && TailAt(run[i], Abs(run[i]).taken)
  {
    var h := Seen(run);
    forall i | 0 <= i < |h| - 1 ensures Spec.Follows(h, i) {
      AdvanceSeen(popper, run, i);
    }
    forall i | 0 <= i < |run| ensures Spec.Valid(Abs(run[i])) && TailAt(run[i], Abs(run[i]).taken) {
      RunKeeps(popper, run, i);
    }
  }

  ghost predicate TailAt(s: State, i: nat) {
    i < |s.order| && s.tail == s.order[i]
  }

  // ----- the verdicts of a pop -----

  /**
   A pop goes on to take a value if and only if there is a next one and its push is not between its swap and its link.
   Otherwise it has no value to give, and that is honest, in that all values are popped, exactly if no such push is at work.
   */
  lemma PopTells(popper: nat, run: seq<State>, i: nat, t: nat)
    requires Run(popper, run) && i < |run| && t < |run[i].pcs| && run[i].pcs[t].PopNext?
    ensures run[i].tail in run[i].heap
    ensures var s, pc := run[i], NextStep(run[i], t).pcs[t];
      && (pc.PopTake? <==> Ready(s)) && (pc == PopHead <==> !Ready(s))
      && (Ready(s) ==> s.popped + 1 < |s.order| && pc == PopTake(s.order[s.popped + 1]))
      && (!Ready(s) ==> (s.popped == |s.vals| <==> s.popped + 1 !in s.pending))
  {
    RunKeeps(popper, run, i);
    SafeHere(popper, run[i], t);
    NextIs(popper, run[i], t);
  }

  /** `head == tail` exactly when every value swapped in so far has been popped. */
  lemma HeadMeetsTail(popper: nat, run: seq<State>, i: nat)
    requires Run(popper, run) && i < |run|
    ensures run[i].head == run[i].tail <==> run[i].popped == |run[i].vals|
  {
    RunKeeps(popper, run, i);
    var s := run[i];
    assert Live(s, s.popped) && Live(s, |s.order| - 1);
  }

  lemma OneMoves(popper: nat, s: State, s': State, u: nat)
    requires Step(popper, s, s', u)
    ensures |s'.pcs| == |s.pcs| && s'.pcs == s.pcs[u := s'.pcs[u]]
  {
  }

  /** A thread whose program counter changed has made the step. */
  lemma Moved(popper: nat, run: seq<State>, i: nat, t: nat)
    requires Run(popper, run) && i + 1 < |run| && t < |run[i].pcs| == |run[i + 1].pcs| && run[i + 1].pcs[t] != run[i].pcs[t]
    ensures Step(popper, run[i], run[i + 1], t)
  {
    assert Advances(popper, run, i);
    var u: nat :| Step(popper, run[i], run[i + 1], u);
    OneMoves(popper, run[i], run[i + 1], u);
  }

  /** A pop that has found no next node answers `Empty` if and only if all values are popped, and `Inconsistent` otherwise. */
  lemma VerdictIff(popper: nat, run: seq<State>, i: nat, t: nat, r: Verdict)
    requires Run(popper, run) && i + 1 < |run| && t < |run[i].pcs| == |run[i + 1].pcs|
    requires run[i].pcs[t].PopHead? && run[i + 1].pcs[t] == PopReturn(r)
    ensures r == Empty <==> run[i].popped == |run[i].vals|
    ensures r == Inconsistent <==> run[i].popped < |run[i].vals|
    ensures run[i + 1].popped == run[i].popped && run[i + 1].vals == run[i].vals
  {
    Moved(popper, run, i, t);
    RunKeeps(popper, run, i);
    HeadMeetsTail(popper, run, i);
  }

  /** A pop that has found a next node answers with the oldest value that is not popped, and that value is then popped. */
  lemma DataIs(popper: nat, run: seq<State>, i: nat, t: nat, r: Verdict)
    requires Run(popper, run) && i + 1 < |run| && t < |run[i].pcs| == |run[i + 1].pcs|
    requires run[i].pcs[t].PopTake? && run[i + 1].pcs[t] == PopReturn(r)
    ensures run[i].popped < |run[i].vals| && r == Data(run[i].vals[run[i].popped])
    ensures run[i + 1].popped == run[i].popped + 1 && run[i + 1].vals == run[i].vals
  {
    Moved(popper, run, i, t);
    RunKeeps(popper, run, i);
    TakeIs(popper, run[i], t, run[i].pcs[t].next);
  }

  lemma TakeIs(popper: nat, s: State, t: nat, next: Ptr)
    requires Shape(popper, s) && Placed(s) && Nodes(s) && Threads(s) && t < |s.pcs| && s.pcs[t] == PopTake(next)
    ensures s.popped < |s.vals| && next in s.heap && s.heap[next].value == Some(s.vals[s.popped])
  {
    assert ThreadOk(s, t, s.pcs[t]);
    assert Live(s, s.popped + 1) && NodeAt(s, s.popped + 1);
  }

  ghost predicate Pushing(pc: Pc) {
    pc.PushAlloc? || pc.PushSwap? || pc.PushLink? || pc.PushReturn?
  }

  ghost predicate NoPush(s: State) {
    forall t :: 0 <= t < |s.pcs| ==> !Pushing(s.pcs[t])
  }

  lemma StillEmpty(popper: nat, s: State, s': State, t: nat)
    requires Inv(popper, s) && Next(popper, s, s') && NoPush(s) && t < |s.pcs| == |s'.pcs| && s'.pcs[t].PopHead?
    requires s.pcs[t].PopNext? || (s.pcs[t].PopHead? && s.popped == |s.vals|)
    ensures s'.popped == |s'.vals|
  {
    var u: nat :| Step(popper, s, s', u);
    assert ThreadOk(s, u, s.pcs[u]);
    assert forall i :: i !in s.pending;
    if u == t && s.pcs[t].PopNext? { NextIs(popper, s, t); }
  }

  /** One pop, from its `next` load at `i` to just before its `head` load at `j`, during which no push is in flight. */
  ghost predicate QuietPop(run: seq<State>, i: nat, j: nat, t: nat) {
    && i < j < |run|
    && (forall k :: i <= k <= j ==> NoPush(run[k]) && t < |run[k].pcs|)
    && run[i].pcs[t].PopNext?
    && (forall k :: i < k <= j ==> run[k].pcs[t].PopHead?)
  }

  /**
   If no push is in flight from the start of a pop until its `head` load, the pop cannot answer `Inconsistent`:
   when `head` is loaded every value is popped, so the answer is `Empty`.
   */
  lemma {:induction false} QuietPopIsEmpty(popper: nat, run: seq<State>, i: nat, j: nat, t: nat)
    requires Run(popper, run) && QuietPop(run, i, j, t)
    ensures run[j].popped == |run[j].vals| && HeadStep(run[j], t).pcs[t] == PopReturn(Empty)
    decreases j - i
  {
    RunKeeps(popper, run, j - 1);
    RunNext(popper, run, j);
    if j - 1 > i {
      QuietPopIsEmpty(popper, run, i, j - 1, t);
    }
    StillEmpty(popper, run[j - 1], run[j], t);
    HeadMeetsTail(popper, run, j);
  }

  lemma RunNext(popper: nat, run: seq<State>, j: nat)
    requires Run(popper, run) && 0 < j < |run|
    ensures Next(popper, run[j - 1], run[j]) && |run[j].pcs| == |run[j - 1].pcs|
  {
    assert Advances(popper, run, j - 1);
  }

  // ----- teardown -----

  ghost predicate AtRest(s: State) {
    forall t :: 0 <= t < |s.pcs| ==> s.pcs[t] == Idle
  }

  ghost predicate RestAt(memory: map<Ptr, Node>, chain: seq<Ptr>, i: int)
    requires 0 <= i < |chain|
  {
    chain[i] != NULL && chain[i] in memory && memory[chain[i]].next == if i + 1 < |chain| then chain[i + 1] else NULL
  }

  /** From `tail` along `next` lie these nodes, each once, and nothing else is allocated. */
  ghost predicate IsChain(memory: map<Ptr, Node>, tail: Ptr, chain: seq<Ptr>) {
    && chain != [] && tail == chain[0]
    && (forall i :: 0 <= i < |chain| ==> RestAt(memory, chain, i))
    && (forall p :: p in memory ==> p in chain)
    && (forall i, j :: 0 <= i < j < |chain| ==> chain[i] != chain[j])
  }

  /** Once all operations have finished, the unpopped nodes are all that is allocated, linked from `tail` in order. */
  lemma RestIsChain(popper: nat, run: seq<State>, i: nat)
    requires Run(popper, run) && i < |run| && AtRest(run[i])
    ensures run[i].popped < |run[i].order| && IsChain(run[i].heap, run[i].tail, run[i].order[run[i].popped..])
  {
    RunKeeps(popper, run, i);
    RestChain(popper, run[i]);
  }

  lemma RestChain(popper: nat, s: State)
    requires Shape(popper, s) && Placed(s) && Nodes(s) && Pending(s) && AtRest(s)
    ensures IsChain(s.heap, s.tail, s.order[s.popped..])
  {
    var chain := s.order[s.popped..];
    assert forall i :: i !in s.pending;
    forall i | 0 <= i < |chain| ensures RestAt(s.heap, chain, i) {
      assert Live(s, s.popped + i) && s.order[s.popped + i] in s.place;
      assert NodeAt(s, s.popped + i);
    }
    forall p | p in s.heap ensures p in chain {
      assert p in s.place && s.place[p].Chain? && Live(s, s.place[p].at);
      assert chain[s.place[p].at - s.popped] == p;
    }
    forall i, j | 0 <= i < j < |chain| ensures chain[i] != chain[j] {
      assert Live(s, s.popped + i) && Live(s, s.popped + j);
    }
  }

  function Members(chain: seq<Ptr>): set<Ptr> {
    set p | p in chain
  }

  lemma MembersNext(chain: seq<Ptr>, k: nat)
    requires k < |chain| && forall i, j :: 0 <= i < j < |chain| ==> chain[i] != chain[j]
    ensures Members(chain[k..]) - {chain[k]} == Members(chain[k + 1..])
  {
    assert chain[k..] == [chain[k]] + chain[k + 1..];
  }

  lemma ChainMembers(memory: map<Ptr, Node>, tail: Ptr, chain: seq<Ptr>)
    requires IsChain(memory, tail, chain)
    ensures memory.Keys == Members(chain[0..])
  {
    assert chain[0..] == chain;
    forall p | p in chain ensures p in memory {
      var i :| 0 <= i < |chain| && chain[i] == p;
      assert RestAt(memory, chain, i);
    }
  }

  /** `Drop`: frees each remaining node, and each only once, since it frees nothing that is not allocated. */
  method Drop(tail: Ptr, memory: map<Ptr, Node>, ghost chain: seq<Ptr>) returns (rest: map<Ptr, Node>)
    requires IsChain(memory, tail, chain)
    ensures rest == map[]
  {
    ChainMembers(memory, tail, chain);
    rest := memory;
    var cur := tail;
    ghost var k := 0;
    while cur != NULL
      invariant 0 <= k <= |chain| && cur == (if k < |chain| then chain[k] else NULL)
      invariant rest.Keys == Members(chain[k..])
      invariant forall p :: p in rest ==> p in memory && rest[p] == memory[p]
      decreases |chain| - k
    {
      assert RestAt(memory, chain, k) && cur in chain[k..];
      MembersNext(chain, k);
      var next := rest[cur].next;
      rest := rest - {cur};
      cur := next;
      k := k + 1;
    }
    assert k < |chain| ==> RestAt(memory, chain, k);
  }
}
