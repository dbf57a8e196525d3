/** `InfiniteLinkQueue::len`: what the wrapping counter says about the number of queued items. */
module LinkQueueLength {
  import opened Base
  import opened LinkQueueModel
  import opened LinkQueueInvariant
  import opened LinkQueueSafety
  import opened LinkQueueTheorems

  /** Items swapped in but not yet counted, less items claimed but not yet discounted. */
  function Credit(pc: Pc): int {
    match pc
    case PutNext(_, _) => 1
    case PutLink(_, _) => 1
    case PutLen => 1
    case GetSub(_, _) => -1
    case _ => 0
  }

  function Uncounted(): Pc -> int {
    (pc: Pc) => Credit(pc)
  }

  ghost predicate LenOk(s: State) {
    SameWord(s.len, |s.order| - s.served - Sum(s.pcs, Uncounted()))
  }

  lemma LenStep(m: Mode, s: State, s': State, t: nat)
    requires LenOk(s) && Step(m, s, s', t)
    ensures LenOk(s')
  {
    Moved(m, s, s', t);
    SumUpdate(s.pcs, t, s'.pcs[t], Uncounted());
    if s.pcs[t].PutLen? {
      SameWordAdd(s.len, |s.order| - s.served - Sum(s.pcs, Uncounted()), 1);
    } else if s.pcs[t].GetSub? {
      SameWordSub(s.len, |s.order| - s.served - Sum(s.pcs, Uncounted()), 1);
    }
  }

  /** Only the swap and the claim change the number of items, and both leave it to the same thread to count. */
  ghost predicate Tallies(s: State, s': State, t: nat) {
    && OneThread(s, s', t)
    && s'.len == (if s.pcs[t].PutLen? then AddWord(s.len, 1) else if s.pcs[t].GetSub? then SubWord(s.len, 1) else s.len)
    && |s'.order| - s'.served - Credit(s'.pcs[t]) == |s.order| - s.served - Credit(s.pcs[t])
         + (if s.pcs[t].PutLen? then 1 else if s.pcs[t].GetSub? then -1 else 0)
  }

  lemma Moved(m: Mode, s: State, s': State, t: nat)
    requires Step(m, s, s', t)
    ensures Tallies(s, s', t)
  {
    if CallStep(m, s, s', t) {
      MovedByCall(m, s, s', t);
    } else if LoadStep(m, s, s', t) {
      MovedByLoad(m, s, s', t);
    } else if CountStep(s, s', t) {
      MovedByCount(s, s', t);
    } else if PrepareStep(s, s', t) {
      MovedByPrepare(s, s', t);
    } else if PublishStep(s, s', t) {
      MovedByPublish(s, s', t);
    } else if ClaimStep(s, s', t) {
      MovedByClaim(s, s', t);
    } else {
      MovedByRecycle(s, s', t);
    }
  }

  lemma MovedByCall(m: Mode, s: State, s': State, t: nat)
    requires t < |s.pcs| && CallStep(m, s, s', t)
    ensures Tallies(s, s', t)
  {
  }

  lemma MovedByLoad(m: Mode, s: State, s': State, t: nat)
    requires t < |s.pcs| && Derefs(s.pcs[t]) <= s.heap.Keys && LoadStep(m, s, s', t)
    ensures Tallies(s, s', t)
  {
  }

  lemma MovedByCount(s: State, s': State, t: nat)
    requires t < |s.pcs| && CountStep(s, s', t)
    ensures Tallies(s, s', t)
  {
  }

  lemma MovedByPrepare(s: State, s': State, t: nat)
    requires t < |s.pcs| && Derefs(s.pcs[t]) <= s.heap.Keys && PrepareStep(s, s', t)
    ensures Tallies(s, s', t)
  {
  }

  lemma MovedByPublish(s: State, s': State, t: nat)
    requires t < |s.pcs| && Derefs(s.pcs[t]) <= s.heap.Keys && PublishStep(s, s', t)
    ensures Tallies(s, s', t)
  {
  }

  lemma MovedByClaim(s: State, s': State, t: nat)
    requires t < |s.pcs| && Derefs(s.pcs[t]) <= s.heap.Keys && ClaimStep(s, s', t)
    ensures Tallies(s, s', t)
  {
    if s.pcs[t].GetTry? { MovedByTry(s, t, s.pcs[t].cur, s.pcs[t].first); }
  }

  lemma MovedByTry(s: State, t: nat, cur: Ptr, first: bool)
    requires t < |s.pcs| && s.pcs[t] == GetTry(cur, first) && cur in s.heap
    ensures Tallies(s, GetTryStep(s, t, cur, first), t)
  {
  }

  lemma MovedByRecycle(s: State, s': State, t: nat)
    requires t < |s.pcs| && Derefs(s.pcs[t]) <= s.heap.Keys && RecycleStep(s, s', t)
    ensures Tallies(s, s', t)
  {
    var pc := s.pcs[t];
    if pc.DeSlot? {
      MovedBySlot(s, t, pc.after, pc.cur, pc.ncur, pc.slot);
    } else if pc.DeFree? {
      MovedByFree(s, t, pc.after, pc.ncur, pc.was);
    }
  }

  lemma MovedBySlot(s: State, t: nat, after: Ptr, cur: Ptr, ncur: Ptr, slot: nat)
    requires t < |s.pcs| && s.pcs[t] == DeSlot(after, cur, ncur, slot) && slot < |s.slots|
    ensures Tallies(s, DeSlotStep(s, t, after, cur, ncur, slot), t)
  {
  }

  lemma MovedByFree(s: State, t: nat, after: Ptr, ncur: Ptr, was: Ptr)
    requires t < |s.pcs| && s.pcs[t] == DeFree(after, ncur, was)
    ensures Tallies(s, DeFreeStep(s, t, after, ncur, was), t)
  {
  }

  lemma {:induction false} RunLen(m: Mode, run: seq<State>, i: nat)
    requires Run(m, run) && i < |run|
    ensures LenOk(run[i])
  {
    if i == 0 {
      SumZero(run[0].pcs, Uncounted());
    } else {
      RunLen(m, run, i - 1);
      assert Advances(m, run, i - 1);
      var t: nat :| Step(m, run[i - 1], run[i], t);
      LenStep(m, run[i - 1], run[i], t);
    }
  }

  /** At rest, `len` is the number of unclaimed items, modulo the word size. */
  lemma QuietLength(m: Mode, run: seq<State>, i: nat)
    requires Run(m, run) && i < |run| && Quiet(run[i])
    ensures run[i].len == (|run[i].order| - run[i].served) % WORD
  {
    RunLen(m, run, i);
    LenIsWord(m, run, i);
    RestLength(run[i]);
  }

  lemma LenIsWord(m: Mode, run: seq<State>, i: nat)
    requires Run(m, run) && i < |run|
    ensures run[i].len < WORD
  {
    RunKeeps(m, run, i);
  }

  lemma RestLength(s: State)
    requires LenOk(s) && s.len < WORD && Quiet(s)
    ensures s.len == (|s.order| - s.served) % WORD
  {
    SumZero(s.pcs, Uncounted());
  }
}
