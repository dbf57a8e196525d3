/** The operations of the link queue that only load, or touch no more than `pos`, `len` and `doingrel`, keep the invariant. */
module LinkQueueLoadSteps {
  import opened Base
  import opened LinkQueueModel
  import opened LinkQueueInvariant

  // ----- what a thread knows about the node it looks at -----

  lemma GetterHere(m: Mode, s: State, t: nat)
    requires Getters(m, s) && Roles(m, s) && t < |s.pcs|
    ensures GetterOk(m, s, s.pcs[t]) && RoleOk(m, t, s.pcs[t])
  {
  }

  /** `p` is where `place` says, and its record is what the invariant says. */
  ghost predicate Known(s: State, p: Ptr) {
    && p in s.heap && p in s.place && s.place[p].Chain? && s.place[p].at < |s.order| && s.order[s.place[p].at] == p
    && NodeAt(s, s.place[p].at)
  }

  lemma ReachedNode(m: Mode, s: State, p: Ptr)
    requires Shape(m, s) && Placed(s) && Nodes(s) && Reached(s, p)
    ensures Known(s, p)
  {
    assert Live(s, s.place[p].at);
  }

  /** A non-null `prev` of a claimed node is the next node of the swap order, and it is reached. */
  lemma PrevFollows(m: Mode, s: State, cur: Ptr)
    requires Shape(m, s) && Placed(s) && Nodes(s) && Claimed(s, cur) && cur in s.heap && s.heap[cur].prev != NULL
    ensures Follows(s, cur, s.heap[cur].prev)
  {
    ReachedNode(m, s, cur);
    NextPlaced(m, s, cur);
  }

  lemma NextPlaced(m: Mode, s: State, cur: Ptr)
    requires Shape(m, s) && Placed(s) && Claimed(s, cur) && Known(s, cur) && s.heap[cur].prev != NULL
    ensures Follows(s, cur, s.heap[cur].prev)
  {
    var i := s.place[cur].at + 1;
    assert i < |s.order| && i !in s.pending && s.heap[cur].prev == s.order[i];
    assert Live(s, i);
  }

  /** The record of the newest node still to be freed. */
  lemma RetiredNode(m: Mode, s: State)
    requires Shape(m, s) && Placed(s) && Nodes(s) && s.lo < s.cut
    ensures Known(s, s.order[s.cut - 1]) && s.place[s.order[s.cut - 1]] == Chain(s.cut - 1) && s.order[s.cut - 1] != NULL
  {
    assert Live(s, s.cut - 1);
  }

  // ----- where the loads lead -----

  lemma LookGoes(m: Mode, s: State, t: nat, pc: Pc)
    requires LstOk(s) && Derefs(pc) <= s.heap.Keys && GetterOk(m, s, pc) && RoleOk(m, t, pc)
    requires pc.GetLst? || pc.GetDone? || pc.GetCopy?
    requires pc.GetCopy? ==> Known(s, pc.cur)
    ensures Goes(m, s, t, pc, Loaded(m, s, pc))
  {
  }

  lemma FlagGoes(m: Mode, s: State, t: nat, pc: Pc)
    requires Derefs(pc) <= s.heap.Keys && GetterOk(m, s, pc) && RoleOk(m, t, pc)
    requires (pc.GetNeedrel? || pc.GetNeedrel2?) && Known(s, pc.cur)
    ensures Goes(m, s, t, pc, Loaded(m, s, pc))
  {
  }

  lemma SkipGoes(m: Mode, s: State, t: nat, cur: Ptr)
    requires cur in s.heap && GetterOk(m, s, GetSkip(cur)) && RoleOk(m, t, GetSkip(cur))
    requires s.heap[cur].prev != NULL ==> Follows(s, cur, s.heap[cur].prev)
    ensures Goes(m, s, t, GetSkip(cur), Loaded(m, s, GetSkip(cur)))
  {
  }

  lemma AdvanceGoes(m: Mode, s: State, t: nat, cur: Ptr)
    requires cur in s.heap && GetterOk(m, s, GetAdvance(cur)) && RoleOk(m, t, GetAdvance(cur))
    requires s.heap[cur].prev != NULL ==> Follows(s, cur, s.heap[cur].prev)
    ensures Goes(m, s, t, GetAdvance(cur), Loaded(m, s, GetAdvance(cur)))
  {
  }

  lemma NextGoes(m: Mode, s: State, t: nat, cur: Ptr)
    requires cur in s.heap && GetterOk(m, s, GetNext(cur)) && RoleOk(m, t, GetNext(cur))
    requires s.heap[cur].prev != NULL ==> Follows(s, cur, s.heap[cur].prev)
    ensures Goes(m, s, t, GetNext(cur), Loaded(m, s, GetNext(cur)))
  {
  }

  lemma PrevGoes(m: Mode, s: State, t: nat, pc: Pc)
    requires Derefs(pc) <= s.heap.Keys && GetterOk(m, s, pc) && RoleOk(m, t, pc)
    requires pc.GetSkip? || pc.GetAdvance? || pc.GetNext?
    requires s.heap[pc.cur].prev != NULL ==> Follows(s, pc.cur, s.heap[pc.cur].prev)
    ensures Goes(m, s, t, pc, Loaded(m, s, pc))
  {
    if pc.GetSkip? {
      SkipGoes(m, s, t, pc.cur);
    } else if pc.GetAdvance? {
      AdvanceGoes(m, s, t, pc.cur);
    } else {
      NextGoes(m, s, t, pc.cur);
    }
  }

  lemma WalkGoes(m: Mode, s: State, t: nat, pc: Pc)
    requires Derefs(pc) <= s.heap.Keys && GetterOk(m, s, pc) && RoleOk(m, t, pc) && pc.DeWalk?
    requires PendingOk(s) && s.lo <= s.cut <= s.keep <= s.served <= |s.order|
    requires s.lo < s.cut ==> Known(s, s.order[s.cut - 1]) && s.place[s.order[s.cut - 1]] == Chain(s.cut - 1) && s.order[s.cut - 1] != NULL
    ensures Goes(m, s, t, pc, Loaded(m, s, pc))
  {
  }

  lemma LoadGoes(m: Mode, s: State, t: nat)
    requires Shape(m, s) && Roles(m, s) && Placed(s) && LstOk(s) && PendingOk(s) && Nodes(s) && Getters(m, s)
    requires t < |s.pcs| && Loads(s.pcs[t]) && Derefs(s.pcs[t]) <= s.heap.Keys
    ensures Goes(m, s, t, s.pcs[t], Loaded(m, s, s.pcs[t]))
  {
    var pc := s.pcs[t];
    GetterHere(m, s, t);
    if pc.DeWalk? {
      if s.lo < s.cut { RetiredNode(m, s); }
      WalkGoes(m, s, t, pc);
    } else if pc.GetSkip? || pc.GetAdvance? || pc.GetNext? {
      if s.heap[pc.cur].prev != NULL { PrevFollows(m, s, pc.cur); }
      PrevGoes(m, s, t, pc);
    } else {
      if !pc.GetLst? && !pc.GetDone? { ReachedNode(m, s, pc.cur); }
      if pc.GetNeedrel? || pc.GetNeedrel2? { FlagGoes(m, s, t, pc); } else { LookGoes(m, s, t, pc); }
    }
  }

  lemma CountGoes(m: Mode, s: State, t: nat, pc: Pc)
    requires Counts(pc) && GetterOk(m, s, pc) && RoleOk(m, t, pc)
    ensures Goes(m, s, t, pc, CountedPc(s, pc))
  {
  }

  // ----- the steps -----

  lemma CallGoes(m: Mode, s: State, s': State, t: nat)
    requires t < |s.pcs| && CallStep(m, s, s', t)
    ensures OneThread(s, s', t) && s' == At(s, t, s'.pcs[t])
    ensures Goes(m, s, t, s.pcs[t], s'.pcs[t])
  {
    if v: Payload :| s' == At(s, t, PutPos(v)) {
      PutCallGoes(m, s, t, v);
    } else {
      GetCallGoes(m, s, t);
    }
  }

  lemma PutCallGoes(m: Mode, s: State, t: nat, v: Payload)
    ensures Goes(m, s, t, Idle, PutPos(v))
  {
  }

  lemma GetCallGoes(m: Mode, s: State, t: nat)
    requires MayGet(m, t)
    ensures Goes(m, s, t, Idle, GetLst)
  {
  }

  lemma CallKeeps(m: Mode, s: State, s': State, t: nat)
    requires Inv(m, s) && t < |s.pcs| && CallStep(m, s, s', t)
    ensures Inv(m, s')
  {
    CallGoes(m, s, s', t);
    ControlKeeps(m, s, s', t);
  }

  lemma LoadKeeps(m: Mode, s: State, s': State, t: nat)
    requires Inv(m, s) && t < |s.pcs| && Derefs(s.pcs[t]) <= s.heap.Keys && LoadStep(m, s, s', t)
    ensures Inv(m, s')
  {
    LoadGoes(m, s, t);
    ControlKeeps(m, s, s', t);
  }

  lemma CountKeeps(m: Mode, s: State, s': State, t: nat)
    requires Inv(m, s) && t < |s.pcs| && CountStep(s, s', t)
    ensures Inv(m, s')
  {
    GetterHere(m, s, t);
    CountGoes(m, s, t, s.pcs[t]);
    CountedSame(s, s', t);
    ControlKeeps(m, s, s', t);
  }

  lemma CountedSame(s: State, s': State, t: nat)
    requires t < |s.pcs| && CountStep(s, s', t) && s.pos < WORD && s.len < WORD
    ensures SameMemory(s, s') && s'.pos < WORD && s'.len < WORD
    ensures OneThread(s, s', t) && s'.pcs[t] == CountedPc(s, s.pcs[t])
  {
  }
}
