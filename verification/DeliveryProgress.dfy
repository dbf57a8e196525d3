/** No operation of the delivery machine ever fails, and the mutex of an endpoint never blocks its owner. */
module DeliveryProgress {
  import opened Base
  import opened Routing
  import opened Delivery
  import Limits = DeliveryLimits
  import DeliveryContents

  // ----- whose the mutex is -----

  predicate InRange(pc: Pc, n: nat) {
    pc.Give? || pc.Recv? || pc.Taken? ==> pc.e < n
  }

  /** A mutex that is taken is held by a thread of the system. */
  ghost predicate Owned(s: State, e: nat)
    requires e < |s.eps|
  {
    s.eps[e].lock.Some? ==> s.eps[e].lock.value < |s.threads| && Limits.Holds(s.threads[s.eps[e].lock.value].pc, e)
  }

  ghost predicate Inv(s: State) {
    && (forall t :: 0 <= t < |s.threads| ==> InRange(s.threads[t].pc, |s.eps|))
    && (forall e :: 0 <= e < |s.eps| ==> Owned(s, e))
  }

  /** What a step of thread `t` at endpoint `e` does to the mutex. */
  ghost predicate MutexMoves(ep: Ep, t: nat, e: nat, r: (Ep, Pc)) {
    && WorksAt(r.1, e)
    && match r.0.lock
       case None => true
       case Some(u) => if u == t then Limits.Holds(r.1, e) else ep.lock == Some(u)
  }

  lemma GaveMoves(c: EpConfig, ep: Ep, t: nat, give: GivePoint, m: Msg, e: nat, todo: seq<nat>)
    requires ep.lock == Some(t) ==> Limits.Holds(Give(give, m, e, todo), e)
    ensures MutexMoves(ep, t, e, Gave(c, ep, t, give, m, e, todo))
  {
  }

  lemma ReceivedMoves(ep: Ep, t: nat, recv: RecvPoint, e: nat, how: How, expired: bool)
    requires ep.lock == Some(t) ==> Limits.Holds(Recv(recv, e, how), e)
    requires !recv.RecvGet? ==> !how.Poll?
    ensures MutexMoves(ep, t, e, Received(ep, t, recv, e, how, expired))
  {
  }

  lemma DidKeeps(s: State, s': State, t: nat, e: nat, r: (Ep, Pc))
    requires Inv(s) && Did(s, s', t, e, r) && WorksAt(s.threads[t].pc, e) && MutexMoves(s.eps[e], t, e, r)
    ensures Inv(s')
  {
    forall x | 0 <= x < |s'.eps| ensures Owned(s', x) {
      assert Owned(s, x);
    }
  }

  /** The endpoints are the same, and no thread lets go of a mutex. */
  ghost predicate Still(s: State, s': State) {
    && s'.eps == s.eps && |s'.threads| == |s.threads|
    && (forall u :: 0 <= u < |s.threads| ==> s'.threads[u] == s.threads[u] || Keeps(s.threads[u].pc, s'.threads[u].pc, |s.eps|))
  }

  ghost predicate Keeps(pc: Pc, pc': Pc, n: nat) {
    InRange(pc', n) && forall e: nat :: Limits.Holds(pc, e) ==> Limits.Holds(pc', e)
  }

  lemma StillKeeps(s: State, s': State)
    requires Inv(s) && Still(s, s')
    ensures Inv(s')
  {
    forall x | 0 <= x < |s'.eps| ensures Owned(s', x) {
      assert Owned(s, x);
    }
  }

  lemma NotifyStill(s: State, s': State, t: nat, m: Msg, e: nat, todo: seq<nat>)
    requires Inv(s) && t < |s.threads| && s.threads[t].pc == Give(GiveNotify, m, e, todo) && NotifyStep(s, s', t, m, e, todo)
    ensures Still(s, s')
  {
    assert Keeps(s.threads[t].pc, Offer(m, todo), |s.eps|);
  }

  lemma SendStill(c: Config, s: State, s': State, t: nat)
    requires t < |s.threads| && s.threads[t].pc.Idle? && SendStep(c, s, s', t)
    ensures Still(s, s')
  {
  }

  lemma CallStill(c: Config, s: State, s': State, t: nat)
    requires t < |s.threads| && s.threads[t].pc.Idle? && (SendStep(c, s, s', t) || CallStep(s, s', t))
    ensures Still(s, s')
  {
    if SendStep(c, s, s', t) { SendStill(c, s, s', t); }
  }

  lemma OfferStill(c: Config, s: State, t: nat, m: Msg, todo: seq<nat>)
    requires t < |s.threads| && |s.eps| == |c.eps| && s.threads[t].pc == Offer(m, todo)
    ensures Still(s, OfferStep(c, s, t, m, todo))
  {
  }

  lemma DupStill(s: State, s': State, t: nat, e: nat, how: How, k: nat, m: Msg)
    requires t < |s.threads| && s.threads[t].pc == Taken(TakenDup, e, how, k, m) && TakenStep(s, s', t, TakenDup, e, how, k, m)
    ensures Still(s, s')
  {
  }

  lemma GiveKeeps(c: Config, s: State, s': State, t: nat, give: GivePoint, m: Msg, e: nat, todo: seq<nat>)
    requires Inv(s) && t < |s.threads| && |s.eps| == |c.eps| && s.threads[t].pc == Give(give, m, e, todo)
    requires GiveStep(c, s, s', t, give, m, e, todo)
    ensures Inv(s')
  {
    if give.GiveNotify? {
      NotifyStill(s, s', t, m, e, todo);
      StillKeeps(s, s');
    } else {
      assert Owned(s, e);
      GaveMoves(c.eps[e], s.eps[e], t, give, m, e, todo);
      DidKeeps(s, s', t, e, Gave(c.eps[e], s.eps[e], t, give, m, e, todo));
    }
  }

  lemma RecvKeeps(s: State, s': State, t: nat, recv: RecvPoint, e: nat, how: How)
    requires Inv(s) && Limits.Locks(s) && t < |s.threads| && s.threads[t].pc == Recv(recv, e, how) && RecvStep(s, s', t, recv, e, how)
    ensures Inv(s')
  {
    var expired: bool :| s' == Do(s, t, e, Received(s.eps[e], t, recv, e, how, expired));
    assert Owned(s, e) && Limits.Mine(s.eps[e], t, s.threads[t].pc, e);
    ReceivedMoves(s.eps[e], t, recv, e, how, expired);
    DidKeeps(s, s', t, e, Received(s.eps[e], t, recv, e, how, expired));
  }

  lemma TakenKeeps(s: State, s': State, t: nat, taken: TakenPoint, e: nat, how: How, k: nat, m: Msg)
    requires Inv(s) && t < |s.threads| && s.threads[t].pc == Taken(taken, e, how, k, m) && TakenStep(s, s', t, taken, e, how, k, m)
    ensures Inv(s')
  {
    assert e < |s.eps| && Owned(s, e);
    if taken.TakenDup? {
      DupStill(s, s', t, e, how, k, m);
      StillKeeps(s, s');
    } else if taken.TakenSub? {
      DidKeeps(s, s', t, e, Subtracted(s.eps[e], e, how, k, m));
    } else {
      var fate, pc' := MatchDid(s, s', t, e, how, k, m);
      DidKeeps(s, s', t, e, (Fated(s.eps[e], k, fate), pc'));
    }
  }

  lemma NextKeeps(c: Config, s: State, s': State)
    requires Inv(s) && Limits.Locks(s) && Next(c, s, s')
    ensures Inv(s')
  {
    if UserStep(s, s') {
      StillKeeps(s, s');
    } else {
      var t: nat :| Step(c, s, s', t);
      StepKeeps(c, s, s', t);
    }
  }

  lemma StepKeeps(c: Config, s: State, s': State, t: nat)
    requires Inv(s) && Limits.Locks(s) && Step(c, s, s', t)
    ensures Inv(s')
  {
    var pc := s.threads[t].pc;
    if pc.Idle? {
      CallStill(c, s, s', t);
      StillKeeps(s, s');
    } else if pc.Offer? {
      OfferStill(c, s, t, pc.m, pc.todo);
      StillKeeps(s, s');
    } else if pc.Give? {
      GiveKeeps(c, s, s', t, pc.give, pc.m, pc.e, pc.todo);
    } else if pc.Recv? {
      RecvKeeps(s, s', t, pc.recv, pc.e, pc.how);
    } else {
      TakenKeeps(s, s', t, pc.taken, pc.e, pc.how, pc.k, pc.m);
    }
  }

  lemma {:induction false} RunKeeps(c: Config, run: seq<State>, i: nat)
    requires Run(c, run) && i < |run|
    ensures Inv(run[i])
  {
    if i > 0 {
      RunKeeps(c, run, i - 1);
      Limits.RunKeeps(c, run, i - 1);
      assert Advances(c, run, i - 1);
      NextKeeps(c, run[i - 1], run[i]);
    }
  }

  // ----- every thread can go on -----

  /** The thread is about to take the mutex of endpoint `e`. */
  predicate WaitsFor(pc: Pc, e: nat) {
    (pc.Give? && pc.e == e && pc.give.GiveLock?) || (pc.Recv? && pc.e == e && (pc.recv.RecvLock? || pc.recv.Woken?))
  }

  /** What the operation of a thread needs of its message and of the log. */
  ghost predicate Ready(s: State, pc: Pc) {
    && InRange(pc, |s.eps|)
    && (pc.Taken? ==> DeliveryContents.MsgOk(s, pc.m) && pc.k < |s.eps[pc.e].removed|)
  }

  lemma TakenEnabled(c: Config, s: State, t: nat, taken: TakenPoint, e: nat, how: How, k: nat, m: Msg)
    requires t < |s.threads| && |s.eps| == |c.eps| && s.threads[t].pc == Taken(taken, e, how, k, m) && Ready(s, s.threads[t].pc)
    ensures exists s' :: Step(c, s, s', t)
  {
    var copy := FreshNumber(s.buffers.Keys + s.owner.Keys);
    var s' := match taken
      case TakenDup => DupStep(s, t, e, how, k, m, copy)
      case TakenSub => Do(s, t, e, Subtracted(s.eps[e], e, how, k, m))
      case TakenMatch =>
        match m.body {
          case Raw(_, _) => RawStep(s, t, e, how, k, m, copy)
          case Sync(_, _) => SyncStep(s, t, e, how, k, m)
          case Clone(_) => Do(s, t, e, (Fated(s.eps[e], k, Returned(m)), Finish(e, how)))
        };
    assert Step(c, s, s', t);
  }

  lemma NotifyEnabled(s: State, t: nat, m: Msg, e: nat, todo: seq<nat>) returns (s': State)
    requires t < |s.threads|
    ensures NotifyStep(s, s', t, m, e, todo)
  {
    if u: nat :| SleepsAt(s, u, e) {
      s' := At(At(s, u, Recv(Woken, e, s.threads[u].pc.how)), t, Offer(m, todo));
    } else {
      s' := At(s, t, Offer(m, todo));
    }
  }

  lemma Enabled(c: Config, s: State, t: nat)
    requires t < |s.threads| && |s.eps| == |c.eps| && Ready(s, s.threads[t].pc) && !s.threads[t].pc.Idle?
    requires forall e :: 0 <= e < |s.eps| && WaitsFor(s.threads[t].pc, e) ==> s.eps[e].lock.None?
    ensures exists s' :: Step(c, s, s', t)
  {
    match s.threads[t].pc
    case Offer(m, todo) => assert Step(c, s, OfferStep(c, s, t, m, todo), t);
    case Give(give, m, e, todo) =>
      if give.GiveNotify? {
        var s' := NotifyEnabled(s, t, m, e, todo);
        assert Step(c, s, s', t);
      } else {
        assert Step(c, s, Do(s, t, e, Gave(c.eps[e], s.eps[e], t, give, m, e, todo)), t);
      }
    case Recv(recv, e, how) => assert Step(c, s, Do(s, t, e, Received(s.eps[e], t, recv, e, how, false)), t);
    case Taken(taken, e, how, k, m) => TakenEnabled(c, s, t, taken, e, how, k, m);
  }

  lemma RunReady(c: Config, run: seq<State>, i: nat, t: nat)
    requires Run(c, run) && i < |run| && t < |run[i].threads|
    ensures Ready(run[i], run[i].threads[t].pc) && |run[i].eps| == |c.eps|
  {
    RunKeeps(c, run, i);
    DeliveryContents.RunKeeps(c, run, i);
    var s, pc := run[i], run[i].threads[t].pc;
    if pc.Taken? {
      assert InRange(pc, |s.eps|) && DeliveryContents.HandOk(s, pc) && DeliveryContents.CarrierOk(s.eps[pc.e], t, pc, pc.e);
    }
  }

  /** A thread in the middle of a send or a receive can always go on, unless it waits for a mutex that is taken. */
  lemma NeverStuck(c: Config, run: seq<State>, i: nat, t: nat)
    requires Run(c, run) && i < |run| && t < |run[i].threads| && !run[i].threads[t].pc.Idle?
    requires forall e :: 0 <= e < |run[i].eps| && WaitsFor(run[i].threads[t].pc, e) ==> run[i].eps[e].lock.None?
    ensures exists s' :: Step(c, run[i], s', t)
  {
    RunReady(c, run, i, t);
    Enabled(c, run[i], t);
  }

  /** A mutex that is taken belongs to a thread that can go on: nobody sleeps with it or waits for another one. */
  lemma OwnerGoesOn(c: Config, run: seq<State>, i: nat, e: nat)
    requires Run(c, run) && i < |run| && e < |run[i].eps| && run[i].eps[e].lock.Some?
    ensures var t := run[i].eps[e].lock.value;
      t < |run[i].threads| && Limits.Holds(run[i].threads[t].pc, e) && exists s' :: Step(c, run[i], s', t)
  {
    RunKeeps(c, run, i);
    assert Owned(run[i], e);
    NeverStuck(c, run, i, run[i].eps[e].lock.value);
  }
}
