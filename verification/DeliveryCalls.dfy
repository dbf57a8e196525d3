/** What a whole call does, from the step that makes it to the step that returns: which threads move, and how receives end. */
module DeliveryCalls {
  import opened Base
  import opened Delivery
  import Contents = DeliveryContents
  import Limits = DeliveryLimits

  // ----- who moves -----

  /** Another thread's notification: the only way to move a thread that does not move itself. */
  predicate Woke(pc: Pc, pc': Pc) {
    pc.Recv? && pc.recv.Asleep? && pc' == Recv(Woken, pc.e, pc.how)
  }

  ghost predicate MovedBy(s: State, s': State, u: nat) {
    && |s'.threads| == |s.threads|
    && (forall t :: 0 <= t < |s.threads| && t != u ==>
          s'.threads[t].pc == s.threads[t].pc || Woke(s.threads[t].pc, s'.threads[t].pc))
  }

  lemma SendMoves(c: Config, s: State, s': State, u: nat)
    requires u < |s.threads| && SendStep(c, s, s', u)
    ensures MovedBy(s, s', u)
  {
  }

  lemma NotifyMoves(s: State, s': State, u: nat, m: Msg, e: nat, todo: seq<nat>)
    requires u < |s.threads| && NotifyStep(s, s', u, m, e, todo)
    ensures MovedBy(s, s', u)
  {
  }

  lemma TakenMoves(s: State, s': State, u: nat, taken: TakenPoint, e: nat, how: How, k: nat, m: Msg)
    requires u < |s.threads| && TakenStep(s, s', u, taken, e, how, k, m)
    ensures MovedBy(s, s', u)
  {
    if taken.TakenMatch? { var fate, pc := MatchDid(s, s', u, e, how, k, m); }
  }

  lemma StepMoves(c: Config, s: State, s': State, u: nat)
    requires Step(c, s, s', u)
    ensures MovedBy(s, s', u)
  {
    var pc := s.threads[u].pc;
    if pc.Idle? {
      if SendStep(c, s, s', u) { SendMoves(c, s, s', u); }
    } else if pc.Give? {
      if pc.give.GiveNotify? { NotifyMoves(s, s', u, pc.m, pc.e, pc.todo); }
    } else if pc.Taken? {
      TakenMoves(s, s', u, pc.taken, pc.e, pc.how, pc.k, pc.m);
    }
  }

  ghost predicate Has(run: seq<State>, i: nat, t: nat) {
    i < |run| && t < |run[i].threads|
  }

  function PcAt(run: seq<State>, i: nat, t: nat): Pc
    requires Has(run, i, t)
  {
    run[i].threads[t].pc
  }

  /** A thread whose program counter changes has made the step itself, or was woken. */
  lemma Moved(c: Config, run: seq<State>, i: nat, t: nat)
    requires Run(c, run) && i + 1 < |run| && t < |run[i].threads|
    ensures Has(run, i + 1, t) && |run[i + 1].threads| == |run[i].threads|
    ensures PcAt(run, i + 1, t) == PcAt(run, i, t) || Woke(PcAt(run, i, t), PcAt(run, i + 1, t)) || Step(c, run[i], run[i + 1], t)
  {
    assert Advances(c, run, i);
    if !UserStep(run[i], run[i + 1]) {
      var u: nat :| Step(c, run[i], run[i + 1], u);
      StepMoves(c, run[i], run[i + 1], u);
    }
  }

  // ----- the ways a receive goes on -----

  predicate Receiving(pc: Pc, e: nat, how: How) {
    (pc.Recv? || pc.Taken?) && pc.e == e && pc.how == how
  }

  predicate Looking(pc: Pc) {
    pc.Recv? && (pc.recv.RecvGet? || pc.recv.RecvGetWoken?)
  }

  /** Step `i`: thread `t` returns message number `k` of those removed from `e`, which it had in its hands. */
  ghost predicate Gives(run: seq<State>, i: nat, t: nat, e: nat, k: nat) {
    && i + 1 < |run| && Has(run, i, t) && PcAt(run, i, t).Taken? && PcAt(run, i, t).e == e && PcAt(run, i, t).k == k
    && e < |run[i].eps| && e < |run[i + 1].eps| && k < |run[i].eps[e].removed| && k < |run[i + 1].eps[e].removed|
    && run[i].eps[e].removed[k].fate == Transit(t) && run[i + 1].eps[e].removed[k].fate.Returned?
  }

  ghost predicate GivesSome(run: seq<State>, i: nat, t: nat, e: nat) {
    exists k: nat :: Gives(run, i, t, e, k)
  }

  /** Step `i`: thread `t` looks into the queue of `e`, and it is empty. */
  ghost predicate FindsNone(run: seq<State>, i: nat, t: nat, e: nat) {
    && i + 1 < |run| && Has(run, i, t) && Has(run, i + 1, t) && Looking(PcAt(run, i, t)) && PcAt(run, i, t).e == e
    && !Looking(PcAt(run, i + 1, t)) && e < |run[i].eps| && run[i].eps[e].queue == []
  }

  /** Step `i`: the timed wait of thread `t` at `e` ends by itself. */
  ghost predicate Expires(run: seq<State>, i: nat, t: nat, e: nat) {
    && i + 1 < |run| && Has(run, i, t) && Has(run, i + 1, t)
    && PcAt(run, i, t) == Recv(Asleep, e, Timed) && PcAt(run, i + 1, t) == Recv(Woken, e, Expired)
  }

  /** Where thread `t` can be after step `i` in a receive of kind `how`. */
  ghost predicate Goes(run: seq<State>, i: nat, t: nat, e: nat, how: How) {
    && Has(run, i + 1, t)
    && var pc' := PcAt(run, i + 1, t);
       || (Receiving(pc', e, how) && !(pc'.Recv? && pc'.recv.RecvUnlock?))
       || (how.Timed? && pc' == Recv(Woken, e, Expired) && Expires(run, i, t, e))
       || (!how.Poll? && pc' == Recv(RecvUnlock, e, how) && GivesSome(run, i, t, e))
       || (how.Expired? && pc' == Recv(RecvUnlock, e, how) && FindsNone(run, i, t, e))
       || (how.Poll? && pc' == Idle && (GivesSome(run, i, t, e) || FindsNone(run, i, t, e)))
  }

  lemma RecvGoes(c: Config, run: seq<State>, i: nat, t: nat, e: nat, how: How)
    requires i + 1 < |run| && Has(run, i, t) && PcAt(run, i, t).Recv? && Receiving(PcAt(run, i, t), e, how)
    requires !PcAt(run, i, t).recv.RecvUnlock? && RecvStep(run[i], run[i + 1], t, PcAt(run, i, t).recv, e, how)
    ensures Goes(run, i, t, e, how)
  {
    var s, s', recv := run[i], run[i + 1], PcAt(run, i, t).recv;
    var expired: bool :| s' == Do(s, t, e, Received(s.eps[e], t, recv, e, how, expired));
    assert PcAt(run, i + 1, t) == Received(s.eps[e], t, recv, e, how, expired).1;
    if Looking(PcAt(run, i, t)) && s.eps[e].queue == [] { assert !Looking(PcAt(run, i + 1, t)) ==> FindsNone(run, i, t, e); }
  }

  lemma TakenGoes(c: Config, run: seq<State>, i: nat, t: nat, e: nat, how: How)
    requires i + 1 < |run| && Has(run, i, t) && PcAt(run, i, t).Taken? && Receiving(PcAt(run, i, t), e, how)
    requires Step(c, run[i], run[i + 1], t) && e < |run[i].eps| && Contents.CarrierOk(run[i].eps[e], t, PcAt(run, i, t), e)
    ensures Goes(run, i, t, e, how)
  {
    var s, s', pc := run[i], run[i + 1], PcAt(run, i, t);
    if pc.taken.TakenMatch? { MatchGoes(c, run, i, t, e, how, pc.k, pc.m); }
  }

  lemma MatchGoes(c: Config, run: seq<State>, i: nat, t: nat, e: nat, how: How, k: nat, m: Msg)
    requires i + 1 < |run| && Has(run, i, t) && PcAt(run, i, t) == Taken(TakenMatch, e, how, k, m)
    requires e < |run[i].eps| && MatchStep(run[i], run[i + 1], t, e, how, k, m) && run[i].eps[e].removed[k].fate == Transit(t)
    ensures Goes(run, i, t, e, how)
  {
    var s, s' := run[i], run[i + 1];
    var fate, pc := MatchDid(s, s', t, e, how, k, m);
    if pc == Finish(e, how) {
      FinishGives(run, i, t, e, how, k, m);
      assert Gives(run, i, t, e, k);
    }
  }

  /** A receive finishes with a message only by returning it. */
  lemma FinishGives(run: seq<State>, i: nat, t: nat, e: nat, how: How, k: nat, m: Msg)
    requires i + 1 < |run| && Has(run, i, t) && PcAt(run, i, t) == Taken(TakenMatch, e, how, k, m)
    requires e < |run[i].eps| && MatchStep(run[i], run[i + 1], t, e, how, k, m) && run[i].eps[e].removed[k].fate == Transit(t)
    requires Has(run, i + 1, t) && PcAt(run, i + 1, t) == Finish(e, how)
    ensures Gives(run, i, t, e, k)
  {
  }

  lemma ReceiveGoes(c: Config, run: seq<State>, i: nat, t: nat, e: nat, how: How)
    requires Run(c, run) && i + 1 < |run| && Has(run, i, t) && Receiving(PcAt(run, i, t), e, how)
    requires !(PcAt(run, i, t).Recv? && PcAt(run, i, t).recv.RecvUnlock?)
    ensures Goes(run, i, t, e, how)
  {
    Moved(c, run, i, t);
    Contents.RunKeeps(c, run, i);
    if Step(c, run[i], run[i + 1], t) {
      if PcAt(run, i, t).Recv? {
        RecvGoes(c, run, i, t, e, how);
      } else {
        TakenGoes(c, run, i, t, e, how);
      }
    }
  }

  // ----- a whole receive -----

  /** Thread `t` calls a receive of kind `how` at `e` in step `a`, and is back after step `b - 1`. */
  ghost predicate Call(run: seq<State>, a: nat, b: nat, t: nat, e: nat, how: How) {
    && a + 1 < b < |run| && (forall x :: a <= x <= b ==> Has(run, x, t))
    && PcAt(run, a, t).Idle? && PcAt(run, b, t).Idle?
    && PcAt(run, a + 1, t).Recv? && Receiving(PcAt(run, a + 1, t), e, how) && !PcAt(run, a + 1, t).recv.RecvUnlock?
    && (forall x :: a < x < b ==> !PcAt(run, x, t).Idle?)
  }

  /** One of the waits since step `a` has expired. */
  ghost predicate Waited(run: seq<State>, a: nat, x: nat, t: nat, e: nat) {
    exists w: nat :: a < w < x && Expires(run, w, t, e)
  }

  /** Step `i` decided how the receive ends: with a message or, only after an expired wait, without. */
  ghost predicate Decides(run: seq<State>, a: nat, i: nat, t: nat, e: nat, how: How) {
    && a < i
    && (GivesSome(run, i, t, e) || (how.Timed? && FindsNone(run, i, t, e) && Waited(run, a, i, t, e)))
  }

  ghost predicate Unlocking(run: seq<State>, x: nat, t: nat) {
    Has(run, x, t) && PcAt(run, x, t).Recv? && PcAt(run, x, t).recv.RecvUnlock?
  }

  /** The receive was decided, and since then has only had to unlock. */
  ghost predicate Decided(run: seq<State>, a: nat, x: nat, t: nat, e: nat, how: How) {
    exists i: nat :: i < x && Decides(run, a, i, t, e, how) && forall y :: i < y <= x ==> Unlocking(run, y, t)
  }

  ghost predicate During(run: seq<State>, a: nat, x: nat, t: nat, e: nat, how: How) {
    && Has(run, x, t)
    && (Receiving(PcAt(run, x, t), e, how) || (how.Timed? && Receiving(PcAt(run, x, t), e, Expired) && Waited(run, a, x, t, e)))
    && (Unlocking(run, x, t) ==> !how.Poll? && Decided(run, a, x, t, e, how))
  }

  lemma WaitedOn(run: seq<State>, a: nat, x: nat, y: nat, t: nat, e: nat)
    requires Waited(run, a, x, t, e) && x <= y
    ensures Waited(run, a, y, t, e)
  {
    var w: nat :| a < w < x && Expires(run, w, t, e);
    assert a < w < y;
  }

  /** The end of a receive that never unlocks, or the next step of any other. */
  lemma DuringGoes(run: seq<State>, a: nat, x: nat, t: nat, e: nat, how: How, how': How)
    requires a < x && (how.Poll? || how.Forever? || how.Timed?) && Goes(run, x, t, e, how')
    requires how' == how || (how.Timed? && how'.Expired? && Waited(run, a, x, t, e))
    ensures During(run, a, x + 1, t, e, how) || (how.Poll? && PcAt(run, x + 1, t).Idle? && (GivesSome(run, x, t, e) || FindsNone(run, x, t, e)))
  {
    if how'.Expired? { WaitedOn(run, a, x, x + 1, t, e); }
    if Expires(run, x, t, e) { assert Waited(run, a, x + 1, t, e); }
    if Unlocking(run, x + 1, t) {
      assert Decides(run, a, x, t, e, how);
      assert Decided(run, a, x + 1, t, e, how);
    }
  }

  lemma DuringUnlock(c: Config, run: seq<State>, a: nat, x: nat, t: nat, e: nat, how: How)
    requires Run(c, run) && x + 1 < |run| && During(run, a, x, t, e, how) && Unlocking(run, x, t)
    ensures Has(run, x + 1, t) && (During(run, a, x + 1, t, e, how) || PcAt(run, x + 1, t).Idle?)
  {
    Moved(c, run, x, t);
    if PcAt(run, x + 1, t) == PcAt(run, x, t) {
      if PcAt(run, x, t).how.Expired? && how.Timed? { WaitedOn(run, a, x, x + 1, t, e); }
      var i: nat :| i < x && Decides(run, a, i, t, e, how) && forall y :: i < y <= x ==> Unlocking(run, y, t);
      assert forall y :: i < y <= x + 1 ==> Unlocking(run, y, t);
    }
  }

  lemma {:induction false} CallGoes(c: Config, run: seq<State>, a: nat, b: nat, t: nat, e: nat, how: How, x: nat)
    requires Run(c, run) && Call(run, a, b, t, e, how) && a < x < b && (how.Poll? || how.Forever? || how.Timed?)
    ensures During(run, a, x, t, e, how)
  {
    if x > a + 1 {
      CallGoes(c, run, a, b, t, e, how, x - 1);
      if Unlocking(run, x - 1, t) {
        DuringUnlock(c, run, a, x - 1, t, e, how);
      } else {
        ReceiveGoes(c, run, x - 1, t, e, PcAt(run, x - 1, t).how);
        DuringGoes(run, a, x - 1, t, e, how, PcAt(run, x - 1, t).how);
      }
    }
  }

  /** A non-blocking receive ends at the step that returns a message, or at the look that finds the queue empty. */
  lemma PollEnds(c: Config, run: seq<State>, a: nat, b: nat, t: nat, e: nat)
    requires Run(c, run) && Call(run, a, b, t, e, Poll)
    ensures FindsNone(run, b - 1, t, e) <==> !GivesSome(run, b - 1, t, e)
  {
    CallGoes(c, run, a, b, t, e, Poll, b - 1);
    ReceiveGoes(c, run, b - 1, t, e, Poll);
  }

  /** `recvorblockforever` comes back only with a message: just before it unlocks, it has returned one. */
  lemma ForeverEnds(c: Config, run: seq<State>, a: nat, b: nat, t: nat, e: nat) returns (i: nat, k: nat)
    requires Run(c, run) && Call(run, a, b, t, e, Forever)
    ensures a < i < b && Gives(run, i, t, e, k) && forall y :: i < y < b ==> Unlocking(run, y, t)
  {
    i := BlockingEnds(c, run, a, b, t, e, Forever);
    k :| Gives(run, i, t, e, k);
  }

  /** `recvorblock` comes back with a message, or after one of its waits has expired and its last look found nothing. */
  lemma TimedEnds(c: Config, run: seq<State>, a: nat, b: nat, t: nat, e: nat) returns (i: nat)
    requires Run(c, run) && Call(run, a, b, t, e, Timed)
    ensures a < i < b && forall y :: i < y < b ==> Unlocking(run, y, t)
    ensures GivesSome(run, i, t, e) || (FindsNone(run, i, t, e) && Waited(run, a, i, t, e))
    ensures FindsNone(run, i, t, e) <==> !GivesSome(run, i, t, e)
  {
    i := BlockingEnds(c, run, a, b, t, e, Timed);
  }

  lemma BlockingEnds(c: Config, run: seq<State>, a: nat, b: nat, t: nat, e: nat, how: How) returns (i: nat)
    requires Run(c, run) && Call(run, a, b, t, e, how) && (how.Forever? || how.Timed?)
    ensures i < b && Decides(run, a, i, t, e, how) && forall y :: i < y < b ==> Unlocking(run, y, t)
  {
    CallGoes(c, run, a, b, t, e, how, b - 1);
    if !Unlocking(run, b - 1, t) { ReceiveGoes(c, run, b - 1, t, e, PcAt(run, b - 1, t).how); }
    i :| i < b - 1 && Decides(run, a, i, t, e, how) && forall y :: i < y <= b - 1 ==> Unlocking(run, y, t);
  }

  /** A receive that throws a message away looks for another one. */
  lemma LooksAgain(c: Config, run: seq<State>, i: nat, t: nat)
    requires Run(c, run) && i + 1 < |run| && Has(run, i, t) && PcAt(run, i, t).Taken?
    requires var pc := PcAt(run, i, t);
      && pc.e < |run[i].eps| && pc.e < |run[i + 1].eps| && pc.k < |run[i + 1].eps[pc.e].removed| && run[i + 1].eps[pc.e].removed[pc.k].fate.Dropped?
    ensures Has(run, i + 1, t) && PcAt(run, i + 1, t) == Recv(RecvGet, PcAt(run, i, t).e, PcAt(run, i, t).how)
  {
    Moved(c, run, i, t);
    StillCarried(c, run, i + 1, t);
    CarriedHere(c, run, i, t);
    if Step(c, run[i], run[i + 1], t) { DropLooks(c, run[i], run[i + 1], t, PcAt(run, i, t)); }
  }

  /** A message that a receive has in its hands is in transit. */
  lemma CarriedHere(c: Config, run: seq<State>, i: nat, t: nat)
    requires Run(c, run) && Has(run, i, t) && PcAt(run, i, t).Taken? && PcAt(run, i, t).e < |run[i].eps|
    ensures var pc := PcAt(run, i, t);
      pc.k < |run[i].eps[pc.e].removed| && run[i].eps[pc.e].removed[pc.k].fate == Transit(t)
  {
    Contents.RunKeeps(c, run, i);
    assert Contents.CarrierOk(run[i].eps[PcAt(run, i, t).e], t, PcAt(run, i, t), PcAt(run, i, t).e);
  }

  lemma StillCarried(c: Config, run: seq<State>, i: nat, t: nat)
    requires Run(c, run) && Has(run, i, t)
    ensures forall e :: 0 <= e < |run[i].eps| && PcAt(run, i, t).Taken? && PcAt(run, i, t).e == e ==>
      PcAt(run, i, t).k < |run[i].eps[e].removed| && run[i].eps[e].removed[PcAt(run, i, t).k].fate.Transit?
  {
    if PcAt(run, i, t).Taken? && PcAt(run, i, t).e < |run[i].eps| { CarriedHere(c, run, i, t); }
  }

  lemma DropLooks(c: Config, s: State, s': State, t: nat, pc: Pc)
    requires Step(c, s, s', t) && s.threads[t].pc == pc && pc.Taken? && pc.e < |s.eps| && pc.k < |s.eps[pc.e].removed|
    requires s.eps[pc.e].removed[pc.k].fate.Transit?
    requires pc.e < |s'.eps| && pc.k < |s'.eps[pc.e].removed| && s'.eps[pc.e].removed[pc.k].fate.Dropped?
    ensures t < |s'.threads| && s'.threads[t].pc == Recv(RecvGet, pc.e, pc.how)
  {
    if pc.taken.TakenDup? {
      DupShape(s, s', t, pc.e, pc.how, pc.k, pc.m);
    } else if pc.taken.TakenMatch? {
      MatchLooks(s, s', t, pc.e, pc.how, pc.k, pc.m);
    }
  }

  lemma MatchLooks(s: State, s': State, t: nat, e: nat, how: How, k: nat, m: Msg)
    requires t < |s.threads| && e < |s.eps| && MatchStep(s, s', t, e, how, k, m)
    requires e < |s'.eps| && k < |s'.eps[e].removed| && s'.eps[e].removed[k].fate.Dropped?
    ensures t < |s'.threads| && s'.threads[t].pc == Recv(RecvGet, e, how)
  {
  }

  /** Only an empty queue sends a receive to sleep. */
  lemma SleepsOnEmpty(c: Config, run: seq<State>, i: nat, t: nat)
    requires Run(c, run) && Has(run, i, t) && PcAt(run, i, t).Recv? && PcAt(run, i, t).recv.RecvWait?
    requires PcAt(run, i, t).e < |run[i].eps|
    ensures run[i].eps[PcAt(run, i, t).e].queue == []
  {
    Limits.RunKeeps(c, run, i);
    assert Limits.Mine(run[i].eps[PcAt(run, i, t).e], t, PcAt(run, i, t), PcAt(run, i, t).e);
  }
}
