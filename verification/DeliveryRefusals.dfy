/** When the memory limit turns a sender away: exactly which states of an endpoint do, and when that is what the limit asks for. */
module DeliveryRefusals {
  import opened Base
  import opened Delivery
  import opened DeliveryLimits
  import opened Tallies

  /** The test in `give` (CheckMem) turns a sender away. */
  predicate Refuses(c: EpConfig, ep: Ep) {
    c.limitmemory > 0 && ep.used >= c.limitmemory
  }

  /** Messages taken but not yet subtracted outweigh those put but not yet added: the counter is below zero, and wraps. */
  predicate Below(queued: nat, T: Tally) {
    queued + T.taken < T.putting
  }

  /** What is queued, together with what is taken but not yet subtracted, is over the limit by all that is not yet added. */
  predicate Over(limit: nat, queued: nat, T: Tally) {
    queued + T.taken >= limit + T.putting
  }

  lemma RefusesIff(c: EpConfig, ep: Ep, T: Tally, n: nat, maxcap: nat)
    requires EpOk(c, ep, T, n, maxcap) && TallyFits(T, n, maxcap) && NoWrap(c, T, n, maxcap) && c.limitmemory > 0
    ensures Refuses(c, ep) <==> Below(QueuedBytes(ep.queue), T) || Over(c.limitmemory, QueuedBytes(ep.queue), T)
  {
    var a := QueuedBytes(ep.queue) - T.putting + T.taken;
    assert 0 <= a + WORD && a < WORD;
    assert a % WORD == if a >= 0 then a else a + WORD;
  }

  /**
   A sender is turned away by the memory limit if and only if the counter is below zero or the endpoint is over the limit.
   It can then be below its limit in both ways. If nobody is between put and add or between get and subtract, the test is
   the one that the limit asks for.
   */
  lemma RefusalIff(c: Config, run: seq<State>, i: nat, e: nat)
    requires Run(c, run) && i < |run| && e < |c.eps| && c.eps[e].limitmemory > 0
    requires NoWrap(c.eps[e], Count(run[i], e), |run[i].threads|, c.maxcap)
    ensures |run[i].eps| == |c.eps|
    ensures var L, T, Q := c.eps[e].limitmemory, Count(run[i], e), QueuedBytes(run[i].eps[e].queue);
      && (Refuses(c.eps[e], run[i].eps[e]) <==> Below(Q, T) || Over(L, Q, T))
      && (T.putting == T.taken ==> (Refuses(c.eps[e], run[i].eps[e]) <==> Q >= L))
  {
    RunKeeps(c, run, i);
    CountFits(c, run[i], e);
    RefusesIff(c.eps[e], run[i].eps[e], Count(run[i], e), |run[i].threads|, c.maxcap);
  }

  // ----- endpoints without non-blocking receives -----

  /** A receive that does not lock the mutex before it looks. */
  predicate Polling(pc: Pc, e: nat) {
    pc.Recv? && pc.e == e && pc.recv.RecvGet? && pc.how.Poll?
  }

  ghost predicate NoPoll(s: State, e: nat) {
    forall t :: 0 <= t < |s.threads| ==> !Polling(s.threads[t].pc, e)
  }

  /** The message that a sender is about to add is still queued. */
  predicate Backed(ep: Ep, pc: Pc, e: nat) {
    Adding(pc, e) ==> pc.m.cap <= QueuedBytes(ep.queue)
  }

  ghost predicate AllBacked(s: State, e: nat)
    requires e < |s.eps|
  {
    forall t :: 0 <= t < |s.threads| ==> Backed(s.eps[e], s.threads[t].pc, e)
  }

  /** A step of thread `t` that takes nothing out of the queue under the feet of a sender. */
  ghost predicate Spares(ep: Ep, t: nat, e: nat, r: (Ep, Pc)) {
    && WorksAt(r.1, e) && Backed(r.0, r.1, e)
    && (QueuedBytes(ep.queue) <= QueuedBytes(r.0.queue) || ep.lock == Some(t))
  }

  lemma GaveSpares(c: EpConfig, ep: Ep, t: nat, give: GivePoint, m: Msg, e: nat, todo: seq<nat>)
    ensures Spares(ep, t, e, Gave(c, ep, t, give, m, e, todo))
  {
    QueuedBytesPut(ep.queue, m);
  }

  lemma ReceivedSpares(ep: Ep, t: nat, recv: RecvPoint, e: nat, how: How, expired: bool)
    requires Mine(ep, t, Recv(recv, e, how), e) && !Polling(Recv(recv, e, how), e)
    ensures Spares(ep, t, e, Received(ep, t, recv, e, how, expired))
  {
  }

  lemma DidBacked(s: State, s': State, t: nat, x: nat, r: (Ep, Pc), e: nat)
    requires Locks(s) && e < |s.eps| && AllBacked(s, e) && Did(s, s', t, x, r) && WorksAt(r.1, x)
    requires x == e ==> Spares(s.eps[e], t, e, r)
    ensures e < |s'.eps| && AllBacked(s', e)
  {
    forall u | 0 <= u < |s'.threads| ensures Backed(s'.eps[e], s'.threads[u].pc, e) {
      assert Backed(s.eps[e], s.threads[u].pc, e) && Mine(s.eps[e], u, s.threads[u].pc, e);
    }
  }

  /** The endpoints are the same, and no further thread is about to add. */
  ghost predicate Idles(s: State, s': State, e: nat) {
    && s'.eps == s.eps && |s'.threads| == |s.threads|
    && (forall u :: 0 <= u < |s.threads| ==> s'.threads[u] == s.threads[u] || !Adding(s'.threads[u].pc, e))
  }

  lemma IdlesBacked(s: State, s': State, e: nat)
    requires e < |s.eps| && AllBacked(s, e) && Idles(s, s', e)
    ensures e < |s'.eps| && AllBacked(s', e)
  {
    forall u | 0 <= u < |s'.threads| ensures Backed(s'.eps[e], s'.threads[u].pc, e) {
      assert Backed(s.eps[e], s.threads[u].pc, e);
    }
  }

  lemma SendIdles(c: Config, s: State, s': State, t: nat, e: nat)
    requires t < |s.threads| && SendStep(c, s, s', t)
    ensures Idles(s, s', e)
  {
  }

  lemma CallIdles(c: Config, s: State, s': State, t: nat, e: nat)
    requires t < |s.threads| && (SendStep(c, s, s', t) || CallStep(s, s', t))
    ensures Idles(s, s', e)
  {
    if SendStep(c, s, s', t) { SendIdles(c, s, s', t, e); }
  }

  lemma OfferIdles(c: Config, s: State, t: nat, m: Msg, todo: seq<nat>, e: nat)
    requires t < |s.threads| && |s.eps| == |c.eps|
    ensures Idles(s, OfferStep(c, s, t, m, todo), e)
  {
  }

  lemma NotifyIdles(s: State, s': State, t: nat, m: Msg, x: nat, todo: seq<nat>, e: nat)
    requires t < |s.threads| && NotifyStep(s, s', t, m, x, todo)
    ensures Idles(s, s', e)
  {
  }

  lemma DupIdles(s: State, s': State, t: nat, x: nat, how: How, k: nat, m: Msg, e: nat)
    requires t < |s.threads| && TakenStep(s, s', t, TakenDup, x, how, k, m)
    ensures Idles(s, s', e)
  {
  }

  lemma GiveBacked(c: Config, s: State, s': State, t: nat, give: GivePoint, m: Msg, x: nat, todo: seq<nat>, e: nat)
    requires Locks(s) && e < |s.eps| == |c.eps| && AllBacked(s, e)
    requires t < |s.threads| && s.threads[t].pc == Give(give, m, x, todo) && GiveStep(c, s, s', t, give, m, x, todo)
    ensures e < |s'.eps| && AllBacked(s', e)
  {
    if give.GiveNotify? {
      NotifyIdles(s, s', t, m, x, todo, e);
      IdlesBacked(s, s', e);
    } else {
      GaveSpares(c.eps[x], s.eps[x], t, give, m, x, todo);
      DidBacked(s, s', t, x, Gave(c.eps[x], s.eps[x], t, give, m, x, todo), e);
    }
  }

  lemma RecvBacked(s: State, s': State, t: nat, recv: RecvPoint, x: nat, how: How, e: nat)
    requires Locks(s) && NoPoll(s, e) && e < |s.eps| && AllBacked(s, e)
    requires t < |s.threads| && s.threads[t].pc == Recv(recv, x, how) && RecvStep(s, s', t, recv, x, how)
    ensures e < |s'.eps| && AllBacked(s', e)
  {
    var expired: bool :| s' == Do(s, t, x, Received(s.eps[x], t, recv, x, how, expired));
    assert Mine(s.eps[x], t, s.threads[t].pc, x);
    if x == e { ReceivedSpares(s.eps[x], t, recv, x, how, expired); }
    DidBacked(s, s', t, x, Received(s.eps[x], t, recv, x, how, expired), e);
  }

  lemma TakenBacked(s: State, s': State, t: nat, taken: TakenPoint, x: nat, how: How, k: nat, m: Msg, e: nat)
    requires Locks(s) && e < |s.eps| && AllBacked(s, e) && t < |s.threads| && TakenStep(s, s', t, taken, x, how, k, m)
    ensures e < |s'.eps| && AllBacked(s', e)
  {
    if taken.TakenDup? {
      DupIdles(s, s', t, x, how, k, m, e);
      IdlesBacked(s, s', e);
    } else if taken.TakenSub? {
      DidBacked(s, s', t, x, Subtracted(s.eps[x], x, how, k, m), e);
    } else {
      var fate, pc' := MatchDid(s, s', t, x, how, k, m);
      DidBacked(s, s', t, x, (Fated(s.eps[x], k, fate), pc'), e);
    }
  }

  lemma NextBacked(c: Config, s: State, s': State, e: nat)
    requires Locks(s) && NoPoll(s, e) && e < |s.eps| == |c.eps| && AllBacked(s, e) && Next(c, s, s')
    ensures e < |s'.eps| && AllBacked(s', e)
  {
    if UserStep(s, s') {
      IdlesBacked(s, s', e);
    } else {
      var t: nat :| Step(c, s, s', t);
      StepBacked(c, s, s', t, e);
    }
  }

  lemma StepBacked(c: Config, s: State, s': State, t: nat, e: nat)
    requires Locks(s) && NoPoll(s, e) && e < |s.eps| && AllBacked(s, e) && Step(c, s, s', t)
    ensures e < |s'.eps| && AllBacked(s', e)
  {
    var pc := s.threads[t].pc;
    if pc.Idle? {
      CallIdles(c, s, s', t, e);
      IdlesBacked(s, s', e);
    } else if pc.Offer? {
      OfferIdles(c, s, t, pc.m, pc.todo, e);
      IdlesBacked(s, s', e);
    } else if pc.Give? {
      GiveBacked(c, s, s', t, pc.give, pc.m, pc.e, pc.todo, e);
    } else if pc.Recv? {
      RecvBacked(s, s', t, pc.recv, pc.e, pc.how, e);
    } else {
      TakenBacked(s, s', t, pc.taken, pc.e, pc.how, pc.k, pc.m, e);
    }
  }

  /** No thread has ever called the non-blocking `recv` of endpoint `e`. */
  ghost predicate NeverPolled(run: seq<State>, i: nat, e: nat)
    requires i < |run|
  {
    forall j :: 0 <= j <= i ==> NoPoll(run[j], e)
  }

  lemma {:induction false} RunBacked(c: Config, run: seq<State>, i: nat, e: nat)
    requires Run(c, run) && i < |run| && e < |c.eps| && NeverPolled(run, i, e)
    ensures e < |run[i].eps| && AllBacked(run[i], e)
  {
    if i > 0 {
      RunBacked(c, run, i - 1, e);
      RunKeeps(c, run, i - 1);
      assert Advances(c, run, i - 1) && NoPoll(run[i - 1], e);
      NextBacked(c, run[i - 1], run[i], e);
    }
  }

  lemma {:induction false} PuttingWithin(ws: seq<Tally>, bound: nat)
    requires forall t :: 0 <= t < |ws| ==> ws[t].putting <= bound
    requires forall t, u :: 0 <= t < u < |ws| ==> ws[t].putting == 0 || ws[u].putting == 0
    ensures Total(ws).putting <= bound
  {
    if ws != [] {
      if ws[0].putting > 0 { PuttingNone(ws[1..]); } else { PuttingWithin(ws[1..], bound); }
    }
  }

  lemma {:induction false} PuttingNone(ws: seq<Tally>)
    requires forall t :: 0 <= t < |ws| ==> ws[t].putting == 0
    ensures Total(ws).putting == 0
  {
    if ws != [] { PuttingNone(ws[1..]); }
  }

  lemma BackedTotal(s: State, e: nat)
    requires Locks(s) && e < |s.eps| && AllBacked(s, e)
    ensures Count(s, e).putting <= QueuedBytes(s.eps[e].queue)
  {
    var ws := Weights(s, e);
    forall t | 0 <= t < |ws| ensures ws[t].putting <= QueuedBytes(s.eps[e].queue) {
      assert Backed(s.eps[e], s.threads[t].pc, e);
    }
    forall t, u | 0 <= t < u < |ws| ensures ws[t].putting == 0 || ws[u].putting == 0 {
      assert Mine(s.eps[e], t, s.threads[t].pc, e) && Mine(s.eps[e], u, s.threads[u].pc, e);
    }
    PuttingWithin(ws, QueuedBytes(s.eps[e].queue));
  }

  /**
   Where nobody calls the non-blocking `recv`, the counter is never below zero, because put and add happen under the mutex
   that every receive takes first: a sender is turned away if and only if the endpoint is over the limit.
   */
  lemma BlockingRefusalIff(c: Config, run: seq<State>, i: nat, e: nat)
    requires Run(c, run) && i < |run| && e < |c.eps| && c.eps[e].limitmemory > 0 && NeverPolled(run, i, e)
    requires NoWrap(c.eps[e], Count(run[i], e), |run[i].threads|, c.maxcap)
    ensures |run[i].eps| == |c.eps|
    ensures Count(run[i], e).putting <= QueuedBytes(run[i].eps[e].queue)
    ensures Refuses(c.eps[e], run[i].eps[e])
      <==> Over(c.eps[e].limitmemory, QueuedBytes(run[i].eps[e].queue), Count(run[i], e))
  {
    RefusalIff(c, run, i, e);
    RunKeeps(c, run, i);
    RunBacked(c, run, i, e);
    BackedTotal(run[i], e);
  }
}
