/** The compare-and-swaps and the mark of `get` keep the invariant of the link queue. */
module LinkQueueGetSteps {
  import opened Base
  import opened LinkQueueModel
  import opened LinkQueueInvariant
  import opened LinkQueueLoadSteps

  // ----- the compare-and-swaps on lst -----

  lemma GetSkipCasKeeps(m: Mode, s: State, t: nat, cur: Ptr, nlst: Ptr)
    requires Inv(m, s) && t < |s.pcs| && s.pcs[t] == GetSkipCas(cur, nlst)
    ensures Inv(m, GetSkipCasStep(s, t, cur, nlst))
  {
    GetterHere(m, s, t);
    SkipCasLocal(m, s, t, cur, nlst);
    CasKeeps(m, s, GetSkipCasStep(s, t, cur, nlst), t, cur, nlst);
  }

  lemma GetAdvanceCasKeeps(m: Mode, s: State, t: nat, cur: Ptr, nlst: Ptr)
    requires Inv(m, s) && t < |s.pcs| && s.pcs[t] == GetAdvanceCas(cur, nlst)
    ensures Inv(m, GetAdvanceCasStep(s, t, cur, nlst))
  {
    GetterHere(m, s, t);
    AdvanceCasLocal(m, s, t, cur, nlst);
    CasKeeps(m, s, GetAdvanceCasStep(s, t, cur, nlst), t, cur, nlst);
  }

  ghost predicate CasStep(m: Mode, s: State, s': State, t: nat, cur: Ptr, nlst: Ptr) {
    && Local(m, s, s', t) && Claimed(s, cur) && Follows(s, cur, nlst)
    && NotLinking(s.pcs[t]) && Held(s'.pcs[t]) == Held(s.pcs[t]) && !InWalk(s.pcs[t])
    && s' == s.(lst := if s.lst == cur then nlst else s.lst, pcs := s'.pcs)
  }

  lemma CasFrame(m: Mode, s: State, s': State, t: nat, cur: Ptr, nlst: Ptr)
    requires Shape(m, s) && CasStep(m, s, s', t, cur, nlst)
    ensures Extends(s, s') && OthersKept(s, s', t) && SamePlaces(s, s') && Shape(m, s')
  {
  }

  lemma SkipCasLocal(m: Mode, s: State, t: nat, cur: Ptr, nlst: Ptr)
    requires t < |s.pcs| && s.pcs[t] == GetSkipCas(cur, nlst) && GetterOk(m, s, s.pcs[t]) && RoleOk(m, t, s.pcs[t])
    ensures CasStep(m, s, GetSkipCasStep(s, t, cur, nlst), t, cur, nlst)
  {
  }

  lemma AdvanceCasLocal(m: Mode, s: State, t: nat, cur: Ptr, nlst: Ptr)
    requires t < |s.pcs| && s.pcs[t] == GetAdvanceCas(cur, nlst) && GetterOk(m, s, s.pcs[t]) && RoleOk(m, t, s.pcs[t])
    ensures CasStep(m, s, GetAdvanceCasStep(s, t, cur, nlst), t, cur, nlst)
  {
  }

  lemma CasKeeps(m: Mode, s: State, s': State, t: nat, cur: Ptr, nlst: Ptr)
    requires Inv(m, s) && CasStep(m, s, s', t, cur, nlst)
    ensures Inv(m, s')
  {
    CasFrame(m, s, s', t, cur, nlst);
    ThreadsKeep(m, s, s', t);
    PlacedSame(s, s', t);
    CasNodes(m, s, s', t, cur, nlst);
    CasEnds(m, s, s', t, cur, nlst);
  }

  lemma CasNodes(m: Mode, s: State, s': State, t: nat, cur: Ptr, nlst: Ptr)
    requires Nodes(s) && CasStep(m, s, s', t, cur, nlst)
    ensures Nodes(s')
  {
    forall i | Live(s', i) && s'.order[i] in s'.heap ensures NodeAt(s', i) {
      assert Live(s, i) && NodeAt(s, i);
    }
  }

  lemma CasEnds(m: Mode, s: State, s': State, t: nat, cur: Ptr, nlst: Ptr)
    requires Shape(m, s) && Ends(s) && CasStep(m, s, s', t, cur, nlst) && Extends(s, s')
    ensures Ends(s')
  {
    if s.lst != NULL { ReachedKeeps(s, s', s.lst); }
    ReachedKeeps(s, s', nlst);
    forall i | i in s'.pending ensures s'.pending[i] < |s'.pcs| && i < |s'.order| && Linking(s', s'.pending[i], i) {
      assert Linking(s, s.pending[i], i);
    }
  }

  // ----- the claim -----

  lemma GetTryKeeps(m: Mode, s: State, t: nat, cur: Ptr, first: bool)
    requires Inv(m, s) && t < |s.pcs| && s.pcs[t] == GetTry(cur, first) && cur in s.heap
    ensures Inv(m, GetTryStep(s, t, cur, first))
  {
    GetterHere(m, s, t);
    ReachedNode(m, s, cur);
    if s.heap[cur].claimed {
      TryGoes(m, s, t, cur, first);
      ControlKeeps(m, s, GetTryStep(s, t, cur, first), t);
    } else {
      FreshClaimKeeps(m, s, t, cur, first);
    }
  }

  lemma TryGoes(m: Mode, s: State, t: nat, cur: Ptr, first: bool)
    requires t < |s.pcs| && cur in s.heap && s.heap[cur].claimed && Known(s, cur) && Reached(s, cur) && RoleOk(m, t, GetTry(cur, first))
    ensures Goes(m, s, t, GetTry(cur, first), GetNext(cur)) && GetTryStep(s, t, cur, first) == At(s, t, GetNext(cur))
  {
  }

  lemma FreshClaimKeeps(m: Mode, s: State, t: nat, cur: Ptr, first: bool)
    requires Inv(m, s) && t < |s.pcs| && s.pcs[t] == GetTry(cur, first) && cur in s.heap && !s.heap[cur].claimed
    requires Reached(s, cur) && s.place[cur].at == s.served && RoleOk(m, t, s.pcs[t])
    ensures Inv(m, GetTryStep(s, t, cur, first))
  {
    var s' := GetTryStep(s, t, cur, first);
    ClaimFrame(m, s, t, cur, first);
    ClaimOthers(s, t, cur, first);
    ClaimLocal(m, s, t, cur, first);
    ThreadsKeep(m, s, s', t);
    PlacedSame(s, s', t);
    ClaimNodes(s, t, cur, first);
    ClaimEnds(m, s, t, cur, first);
  }

  lemma ClaimFrame(m: Mode, s: State, t: nat, cur: Ptr, first: bool)
    requires Shape(m, s) && t < |s.pcs| && s.pcs[t] == GetTry(cur, first) && cur in s.heap && !s.heap[cur].claimed
    requires Reached(s, cur) && s.place[cur].at == s.served
    ensures var s' := GetTryStep(s, t, cur, first); Extends(s, s') && Shape(m, s') && SamePlaces(s, s')
  {
    assert GetTryStep(s, t, cur, first).heap.Keys == s.heap.Keys;
  }

  lemma ClaimLocal(m: Mode, s: State, t: nat, cur: Ptr, first: bool)
    requires t < |s.pcs| && s.pcs[t] == GetTry(cur, first) && cur in s.heap && !s.heap[cur].claimed
    requires Reached(s, cur) && s.place[cur].at == s.served && RoleOk(m, t, s.pcs[t])
    ensures var s' := GetTryStep(s, t, cur, first);
      Local(m, s, s', t) && Held(s'.pcs[t]) == Held(s.pcs[t]) && NotLinking(s.pcs[t])
  {
  }

  /** A node in the chain is not one that a thread prepares; it may be one that a thread links. */
  lemma ChainNotPrepared(s: State, u: nat, cur: Ptr)
    requires Placed(s) && Putters(s) && u < |s.pcs| && InChain(s, cur)
    ensures s.pcs[u].PutSwap? ==> s.pcs[u].item != cur
  {
    assert PutterOk(s, u, s.pcs[u]);
    if s.pcs[u].PutSwap? { assert Held(s.pcs[u]) == s.pcs[u].item; }
  }

  lemma ClaimOthers(s: State, t: nat, cur: Ptr, first: bool)
    requires Placed(s) && Putters(s) && t < |s.pcs| && s.pcs[t] == GetTry(cur, first) && cur in s.heap && InChain(s, cur)
    ensures OthersKept(s, GetTryStep(s, t, cur, first), t)
  {
    forall u | 0 <= u < |s.pcs| && s.pcs[u].PutSwap? ensures s.pcs[u].item != cur { ChainNotPrepared(s, u, cur); }
  }

  lemma ClaimNodes(s: State, t: nat, cur: Ptr, first: bool)
    requires Placed(s) && Nodes(s) && t < |s.pcs| && s.pcs[t] == GetTry(cur, first) && cur in s.heap && !s.heap[cur].claimed
    requires Reached(s, cur) && s.place[cur].at == s.served
    ensures Nodes(GetTryStep(s, t, cur, first))
  {
    var s' := GetTryStep(s, t, cur, first);
    forall i | Live(s', i) && s'.order[i] in s'.heap ensures NodeAt(s', i) {
      assert Live(s, i) && NodeAt(s, i);
      assert s.place[s.order[i]] == Chain(i);
    }
  }

  lemma ClaimEnds(m: Mode, s: State, t: nat, cur: Ptr, first: bool)
    requires Shape(m, s) && Ends(s) && t < |s.pcs| && s.pcs[t] == GetTry(cur, first) && cur in s.heap && !s.heap[cur].claimed
    requires Reached(s, cur) && s.place[cur].at == s.served
    requires Extends(s, GetTryStep(s, t, cur, first))
    ensures Ends(GetTryStep(s, t, cur, first))
  {
    var s' := GetTryStep(s, t, cur, first);
    if s.lst != NULL { ReachedKeeps(s, s', s.lst); }
    forall i | i in s'.pending
      ensures s'.served <= i < |s'.order| && s'.pending[i] < |s'.pcs| && Linking(s', s'.pending[i], i)
    {
      assert Linking(s, s.pending[i], i);
    }
  }

  // ----- the mark -----

  lemma GetMarkKeeps(m: Mode, s: State, t: nat, cur: Ptr, v: Payload)
    requires Inv(m, s) && t < |s.pcs| && s.pcs[t] == GetMark(cur, v) && cur in s.heap
    ensures Inv(m, GetMarkStep(s, t, cur, v))
  {
    GetterHere(m, s, t);
    var s' := GetMarkStep(s, t, cur, v);
    MarkFrame(m, s, t, cur, v);
    MarkOthers(s, t, cur, v);
    MarkLocal(m, s, t, cur, v);
    ThreadsKeep(m, s, s', t);
    PlacedSame(s, s', t);
    MarkNodes(s, t, cur, v);
    MarkEnds(m, s, t, cur, v);
  }

  lemma MarkFrame(m: Mode, s: State, t: nat, cur: Ptr, v: Payload)
    requires Shape(m, s) && t < |s.pcs| && s.pcs[t] == GetMark(cur, v) && cur in s.heap
    ensures var s' := GetMarkStep(s, t, cur, v); Extends(s, s') && Shape(m, s') && SamePlaces(s, s')
  {
    assert GetMarkStep(s, t, cur, v).heap.Keys == s.heap.Keys;
  }

  lemma MarkLocal(m: Mode, s: State, t: nat, cur: Ptr, v: Payload)
    requires t < |s.pcs| && s.pcs[t] == GetMark(cur, v) && cur in s.heap && RoleOk(m, t, s.pcs[t])
    ensures var s' := GetMarkStep(s, t, cur, v);
      Local(m, s, s', t) && Held(s'.pcs[t]) == Held(s.pcs[t]) && NotLinking(s.pcs[t])
  {
  }

  lemma MarkOthers(s: State, t: nat, cur: Ptr, v: Payload)
    requires Placed(s) && Putters(s) && t < |s.pcs| && s.pcs[t] == GetMark(cur, v) && cur in s.heap && InChain(s, cur)
    ensures OthersKept(s, GetMarkStep(s, t, cur, v), t)
  {
    forall u | 0 <= u < |s.pcs| && s.pcs[u].PutSwap? ensures s.pcs[u].item != cur { ChainNotPrepared(s, u, cur); }
  }

  lemma MarkNodes(s: State, t: nat, cur: Ptr, v: Payload)
    requires Placed(s) && Nodes(s) && t < |s.pcs| && s.pcs[t] == GetMark(cur, v) && cur in s.heap && Claimed(s, cur)
    ensures Nodes(GetMarkStep(s, t, cur, v))
  {
    var s' := GetMarkStep(s, t, cur, v);
    forall i | Live(s', i) && s'.order[i] in s'.heap ensures NodeAt(s', i) {
      assert Live(s, i) && NodeAt(s, i);
      assert s.place[s.order[i]] == Chain(i);
    }
  }

  lemma MarkEnds(m: Mode, s: State, t: nat, cur: Ptr, v: Payload)
    requires Ends(s) && t < |s.pcs| && s.pcs[t] == GetMark(cur, v) && cur in s.heap
    requires Extends(s, GetMarkStep(s, t, cur, v))
    ensures Ends(GetMarkStep(s, t, cur, v))
  {
    var s' := GetMarkStep(s, t, cur, v);
    if s.lst != NULL { ReachedKeeps(s, s', s.lst); }
    forall i | i in s'.pending ensures s'.pending[i] < |s'.pcs| && i < |s'.order| && Linking(s', s'.pending[i], i) {
      assert Linking(s, s.pending[i], i);
    }
  }
}
