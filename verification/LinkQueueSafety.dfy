/** Every step of every thread keeps the invariant, hence every state of every run satisfies it. */
module LinkQueueSafety {
  import opened Base
  import opened LinkQueueModel
  import opened LinkQueueInvariant
  import opened LinkQueueLoadSteps
  import opened LinkQueuePutSteps
  import opened LinkQueueGetSteps
  import opened LinkQueueDeallocSteps

  lemma StepKeeps(m: Mode, s: State, s': State, t: nat)
    requires Inv(m, s) && Step(m, s, s', t)
    ensures Inv(m, s')
  {
    if CallStep(m, s, s', t) {
      CallKeeps(m, s, s', t);
    } else if LoadStep(m, s, s', t) {
      LoadKeeps(m, s, s', t);
    } else if CountStep(s, s', t) {
      CountKeeps(m, s, s', t);
    } else if PrepareStep(s, s', t) {
      PrepareKeeps(m, s, s', t);
    } else if PublishStep(s, s', t) {
      PublishKeeps(m, s, s', t);
    } else if ClaimStep(s, s', t) {
      ClaimKeeps(m, s, s', t);
    } else {
      RecycleKeeps(m, s, s', t);
    }
  }

  lemma PrepareKeeps(m: Mode, s: State, s': State, t: nat)
    requires Inv(m, s) && t < |s.pcs| && Derefs(s.pcs[t]) <= s.heap.Keys && PrepareStep(s, s', t)
    ensures Inv(m, s')
  {
    var pc := s.pcs[t];
    if pc.PutPop? {
      PutPopKeeps(m, s, t, pc.v, pc.slot);
    } else if pc.PutReset? {
      PutResetKeeps(m, s, t, pc.v, pc.item);
    } else {
      var item: Ptr :| item != NULL && item !in s.heap && s' == PutAllocStep(s, t, pc.v, item);
      PutAllocKeeps(m, s, t, pc.v, item);
    }
  }

  lemma PublishKeeps(m: Mode, s: State, s': State, t: nat)
    requires Inv(m, s) && t < |s.pcs| && Derefs(s.pcs[t]) <= s.heap.Keys && PublishStep(s, s', t)
    ensures Inv(m, s')
  {
    var pc := s.pcs[t];
    if pc.PutSwap? {
      PutSwapKeeps(m, s, t, pc.item);
    } else if pc.PutNext? {
      PutNextKeeps(m, s, t, pc.item, pc.oldhead);
    } else {
      PutLinkKeeps(m, s, t, pc.item, pc.oldhead);
    }
  }

  lemma ClaimKeeps(m: Mode, s: State, s': State, t: nat)
    requires Inv(m, s) && t < |s.pcs| && Derefs(s.pcs[t]) <= s.heap.Keys && ClaimStep(s, s', t)
    ensures Inv(m, s')
  {
    var pc := s.pcs[t];
    if pc.GetSkipCas? {
      GetSkipCasKeeps(m, s, t, pc.cur, pc.nlst);
    } else if pc.GetTry? {
      GetTryKeeps(m, s, t, pc.cur, pc.first);
    } else if pc.GetAdvanceCas? {
      GetAdvanceCasKeeps(m, s, t, pc.cur, pc.nlst);
    } else {
      GetMarkKeeps(m, s, t, pc.cur, pc.v);
    }
  }

  lemma RecycleKeeps(m: Mode, s: State, s': State, t: nat)
    requires Inv(m, s) && t < |s.pcs| && Derefs(s.pcs[t]) <= s.heap.Keys && RecycleStep(s, s', t)
    ensures Inv(m, s')
  {
    var pc := s.pcs[t];
    if pc.DeNext? {
      DeNextKeeps(m, s, t, pc.after);
    } else if pc.DeSlot? {
      DeSlotKeeps(m, s, t, pc.after, pc.cur, pc.ncur, pc.slot);
    } else if pc.DeFree? {
      DeFreeKeeps(m, s, t, pc.after, pc.ncur, pc.was);
    } else {
      DeEndKeeps(m, s, t, pc.after);
    }
  }

  lemma AdvanceKeepsInv(m: Mode, run: seq<State>, i: nat)
    requires i + 1 < |run| && Advances(m, run, i) && Inv(m, run[i])
    ensures Inv(m, run[i + 1])
  {
    var t: nat :| Step(m, run[i], run[i + 1], t);
    StepKeeps(m, run[i], run[i + 1], t);
  }

  lemma {:induction false} RunKeeps(m: Mode, run: seq<State>, i: nat)
    requires Run(m, run) && i < |run|
    ensures Inv(m, run[i])
  {
    if i == 0 {
      InitInv(m, run[0]);
    } else {
      RunKeeps(m, run, i - 1);
      AdvanceKeepsInv(m, run, i - 1);
    }
  }
}
