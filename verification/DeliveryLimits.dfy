/** One endpoint under concurrency: its mutex, its sleepers, its pending limit and its memory accounting. */
module DeliveryLimits {
  import opened Base
  import opened Routing
  import opened Delivery
  import opened Tallies

  // ----- what the threads are doing at an endpoint -----

  function One(b: bool): nat {
    if b then 1 else 0
  }

  predicate PastCheck(pc: Pc, e: nat) {
    pc.Give? && pc.e == e && (pc.give.CheckMem? || pc.give.GiveLock? || pc.give.GivePut?)
  }

  predicate PastBothChecks(pc: Pc, e: nat) {
    pc.Give? && pc.e == e && (pc.give.GiveLock? || pc.give.GivePut?)
  }

  predicate Adding(pc: Pc, e: nat) {
    pc.Give? && pc.e == e && pc.give.GiveAdd?
  }

  predicate Notifying(pc: Pc, e: nat) {
    pc.Give? && pc.e == e && (pc.give.GiveAdd? || pc.give.GiveUnlock? || pc.give.GiveNotify?)
  }

  predicate Sleeping(pc: Pc, e: nat) {
    pc.Recv? && pc.e == e && pc.recv.Asleep?
  }

  predicate YetToLook(pc: Pc, e: nat) {
    pc.Recv? && pc.e == e && (pc.recv.Woken? || pc.recv.RecvGetWoken?)
  }

  predicate YetToSubtract(pc: Pc, e: nat) {
    pc.Taken? && pc.e == e && (pc.taken.TakenDup? || pc.taken.TakenSub?)
  }

  function Weigh(th: Thread, e: nat): Tally {
    var pc := th.pc;
    Tally(One(th.giver), One(Notifying(pc, e)), One(Sleeping(pc, e)), One(YetToLook(pc, e)), One(PastCheck(pc, e)),
          if PastBothChecks(pc, e) then pc.m.cap else 0,
          if Adding(pc, e) then pc.m.cap else 0,
          if YetToSubtract(pc, e) then pc.m.cap else 0)
  }

  function Weights(s: State, e: nat): seq<Tally> {
    seq(|s.threads|, t requires 0 <= t < |s.threads| => Weigh(s.threads[t], e))
  }

  function Count(s: State, e: nat): Tally {
    Total(Weights(s, e))
  }

  /** Only givers give, and no message is too large. */
  ghost predicate ThreadFits(maxcap: nat, th: Thread) {
    && (th.pc.Offer? || th.pc.Give? ==> th.giver && th.pc.m.cap <= maxcap)
    && (th.pc.Taken? ==> th.pc.m.cap <= maxcap)
  }

  function QueuedBytes(q: seq<Msg>): nat {
    if q == [] then 0 else q[0].cap + QueuedBytes(q[1..])
  }

  lemma {:induction false} QueuedBytesPut(q: seq<Msg>, m: Msg)
    ensures QueuedBytes(q + [m]) == QueuedBytes(q) + m.cap
  {
    if q == [] {
      assert q + [m] == [m];
    } else {
      assert (q + [m])[1..] == q[1..] + [m];
      QueuedBytesPut(q[1..], m);
    }
  }

  // ----- the invariant -----

  /** A thread at `pc` holds the `waitmutex` of endpoint `e`. */
  predicate Holds(pc: Pc, e: nat) {
    || (pc.Give? && pc.e == e && (pc.give.GivePut? || pc.give.GiveAdd? || pc.give.GiveUnlock?))
    || (pc.Recv? && pc.e == e && (pc.recv.RecvWait? || pc.recv.RecvUnlock?))
    || (pc.Recv? && pc.e == e && (pc.recv.RecvGet? || pc.recv.RecvGetWoken?) && !pc.how.Poll?)
    || (pc.Taken? && pc.e == e && !pc.how.Poll?)
  }

  /** What thread `t` at `pc` relies on at endpoint `e`: its mutex, and an empty queue when it goes to sleep. */
  ghost predicate Mine(ep: Ep, t: nat, pc: Pc, e: nat) {
    && (Holds(pc, e) ==> ep.lock == Some(t))
    && (pc.Recv? && !pc.recv.RecvGet? ==> !pc.how.Poll?)
    && (pc.Recv? && pc.recv.RecvWait? && pc.e == e ==> ep.queue == [])
  }

  ghost predicate Locks(s: State) {
    forall t, e :: 0 <= t < |s.threads| && 0 <= e < |s.eps| ==> Mine(s.eps[e], t, s.threads[t].pc, e)
  }

  ghost predicate QueueFits(maxcap: nat, q: seq<Msg>) {
    forall i :: 0 <= i < |q| ==> q[i].cap <= maxcap
  }

  ghost predicate Caps(c: Config, s: State) {
    && |s.eps| == |c.eps|
    && (forall t :: 0 <= t < |s.threads| ==> ThreadFits(c.maxcap, s.threads[t]))
    && (forall e :: 0 <= e < |s.eps| ==> QueueFits(c.maxcap, s.eps[e].queue))
  }

  /** If a thread sleeps, there is one awake, about to notify or to look, for every queued message. */
  ghost predicate Watched(ep: Ep, T: Tally) {
    T.asleep > 0 ==> |ep.queue| <= T.notifying + T.woken
  }

  ghost predicate PendingWithin(c: EpConfig, ep: Ep, T: Tally) {
    c.limitpending > 0 ==> |ep.queue| + T.past <= c.limitpending - 1 + T.givers
  }

  ghost predicate Accounted(ep: Ep, T: Tally) {
    ep.used < WORD && SameWord(ep.used, QueuedBytes(ep.queue) - T.putting + T.taken)
  }

  /** The bytes that may ever be counted fit into a word, so the wrapping counter is not ambiguous. */
  ghost predicate NoWrap(c: EpConfig, T: Tally, n: nat, maxcap: nat) {
    c.limitmemory + T.givers * maxcap + n * maxcap <= WORD
  }

  ghost predicate MemoryWithin(c: EpConfig, ep: Ep, T: Tally, n: nat, maxcap: nat) {
    c.limitmemory > 0 && NoWrap(c, T, n, maxcap) ==>
      QueuedBytes(ep.queue) + T.pastBytes <= c.limitmemory - 1 + T.givers * maxcap
  }

  ghost predicate EpOk(c: EpConfig, ep: Ep, T: Tally, n: nat, maxcap: nat) {
    Watched(ep, T) && PendingWithin(c, ep, T) && Accounted(ep, T) && MemoryWithin(c, ep, T, n, maxcap)
  }

  ghost predicate EpsOk(c: Config, s: State) {
    |s.eps| == |c.eps| && forall e :: 0 <= e < |s.eps| ==> EpOk(c.eps[e], s.eps[e], Count(s, e), |s.threads|, c.maxcap)
  }

  ghost predicate Inv(c: Config, s: State) {
    Locks(s) && Caps(c, s) && EpsOk(c, s)
  }

  lemma EmptyOk(c: EpConfig, T: Tally, n: nat, maxcap: nat)
    requires T == Tally(T.givers, 0, 0, 0, 0, 0, 0, 0)
    ensures EpOk(c, Ep(None, 0, [], [], []), T, n, maxcap)
  {
    assert 0 <= T.givers * maxcap;
  }

  lemma IdleCount(s: State, e: nat)
    requires forall t :: 0 <= t < |s.threads| ==> s.threads[t].pc == Idle
    ensures Count(s, e) == Tally(Count(s, e).givers, 0, 0, 0, 0, 0, 0, 0)
  {
    var ws := Weights(s, e);
    forall t | 0 <= t < |ws| ensures ws[t] == Tally(ws[t].givers, 0, 0, 0, 0, 0, 0, 0) {
      assert s.threads[t].pc == Idle;
    }
    IdleTotal(ws);
  }

  lemma InitInv(c: Config, s: State)
    requires Init(c, s)
    ensures Inv(c, s)
  {
    forall e | 0 <= e < |s.eps| ensures EpOk(c.eps[e], s.eps[e], Count(s, e), |s.threads|, c.maxcap) {
      IdleCount(s, e);
      EmptyOk(c.eps[e], Count(s, e), |s.threads|, c.maxcap);
    }
  }

  // ----- one thread at one endpoint -----

  /** The mutex changes hands, and the queue grows, only by its holder. */
  ghost predicate Polite(ep: Ep, ep': Ep, t: nat) {
    && (ep'.lock != ep.lock ==> ep.lock == None || ep.lock == Some(t))
    && (|ep'.queue| > |ep.queue| ==> ep.lock == Some(t))
  }

  lemma GaveMine(c: EpConfig, ep: Ep, t: nat, give: GivePoint, m: Msg, e: nat, todo: seq<nat>)
    requires Mine(ep, t, Give(give, m, e, todo), e) && (give.GiveLock? ==> ep.lock.None?)
    ensures var r := Gave(c, ep, t, give, m, e, todo); Polite(ep, r.0, t) && Mine(r.0, t, r.1, e) && WorksAt(r.1, e)
  {
  }

  lemma ReceivedMine(ep: Ep, t: nat, recv: RecvPoint, e: nat, how: How, expired: bool)
    requires Mine(ep, t, Recv(recv, e, how), e) && (recv.RecvLock? || recv.Woken? ==> ep.lock.None?)
    ensures var r := Received(ep, t, recv, e, how, expired); Polite(ep, r.0, t) && Mine(r.0, t, r.1, e) && WorksAt(r.1, e)
  {
  }

  lemma GaveFits(maxcap: nat, c: EpConfig, ep: Ep, th: Thread, t: nat)
    requires th.pc.Give? && ThreadFits(maxcap, th) && QueueFits(maxcap, ep.queue)
    ensures var r := Gave(c, ep, t, th.pc.give, th.pc.m, th.pc.e, th.pc.todo);
      ThreadFits(maxcap, th.(pc := r.1)) && QueueFits(maxcap, r.0.queue)
  {
  }

  lemma ReceivedFits(maxcap: nat, ep: Ep, th: Thread, t: nat, expired: bool)
    requires th.pc.Recv? && QueueFits(maxcap, ep.queue)
    ensures var r := Received(ep, t, th.pc.recv, th.pc.e, th.pc.how, expired);
      ThreadFits(maxcap, th.(pc := r.1)) && QueueFits(maxcap, r.0.queue)
  {
  }

  /** The tally after thread `th` has become `th'`. */
  ghost predicate Retallied(T: Tally, T': Tally, th: Thread, th': Thread, e: nat) {
    Plus(T', Weigh(th, e)) == Plus(T, Weigh(th', e))
  }

  /** What `TotalFits` says about the tally of `n` threads. */
  ghost predicate TallyFits(T: Tally, n: nat, maxcap: nat) {
    T.past <= T.givers && T.pastBytes + T.putting <= T.givers * maxcap && T.taken <= n * maxcap
  }

  lemma GaveWatched(c: EpConfig, ep: Ep, th: Thread, t: nat, T: Tally, T': Tally)
    requires th.pc.Give? && !th.pc.give.GiveNotify? && Watched(ep, T)
    requires var r := Gave(c, ep, t, th.pc.give, th.pc.m, th.pc.e, th.pc.todo);
      Retallied(T, T', th, th.(pc := r.1), th.pc.e)
    ensures Watched(Gave(c, ep, t, th.pc.give, th.pc.m, th.pc.e, th.pc.todo).0, T')
  {
  }

  lemma GavePending(c: EpConfig, ep: Ep, th: Thread, t: nat, T: Tally, T': Tally)
    requires th.pc.Give? && !th.pc.give.GiveNotify? && PendingWithin(c, ep, T) && T'.past <= T'.givers
    requires var r := Gave(c, ep, t, th.pc.give, th.pc.m, th.pc.e, th.pc.todo);
      Retallied(T, T', th, th.(pc := r.1), th.pc.e)
    ensures PendingWithin(c, Gave(c, ep, t, th.pc.give, th.pc.m, th.pc.e, th.pc.todo).0, T')
  {
  }

  lemma GaveAccounted(c: EpConfig, ep: Ep, th: Thread, t: nat, T: Tally, T': Tally)
    requires th.pc.Give? && !th.pc.give.GiveNotify? && Accounted(ep, T)
    requires var r := Gave(c, ep, t, th.pc.give, th.pc.m, th.pc.e, th.pc.todo);
      Retallied(T, T', th, th.(pc := r.1), th.pc.e)
    ensures Accounted(Gave(c, ep, t, th.pc.give, th.pc.m, th.pc.e, th.pc.todo).0, T')
  {
    if th.pc.give.GivePut? { QueuedBytesPut(ep.queue, th.pc.m); }
    if th.pc.give.GiveAdd? { SameWordAdd(ep.used, QueuedBytes(ep.queue) - T.putting + T.taken, th.pc.m.cap); }
  }

  /** A passed memory check bounds the queued bytes: the counter is the true count, wrapped by less than a word. */
  lemma PassedCheck(c: EpConfig, ep: Ep, T: Tally, n: nat, maxcap: nat)
    requires Accounted(ep, T) && MemoryWithin(c, ep, T, n, maxcap) && TallyFits(T, n, maxcap) && NoWrap(c, T, n, maxcap)
    requires 0 < c.limitmemory && ep.used < c.limitmemory
    ensures QueuedBytes(ep.queue) <= c.limitmemory - 1 + T.putting
  {
    var a := QueuedBytes(ep.queue) - T.putting + T.taken;
    assert 0 <= a + WORD && a < WORD;
    assert a % WORD == if a >= 0 then a else a + WORD;
  }

  lemma GaveMemory(c: EpConfig, ep: Ep, th: Thread, t: nat, T: Tally, T': Tally, n: nat, maxcap: nat)
    requires th.pc.Give? && !th.pc.give.GiveNotify? && Accounted(ep, T) && MemoryWithin(c, ep, T, n, maxcap)
    requires TallyFits(T, n, maxcap) && TallyFits(T', n, maxcap)
    requires var r := Gave(c, ep, t, th.pc.give, th.pc.m, th.pc.e, th.pc.todo);
      Retallied(T, T', th, th.(pc := r.1), th.pc.e)
    ensures MemoryWithin(c, Gave(c, ep, t, th.pc.give, th.pc.m, th.pc.e, th.pc.todo).0, T', n, maxcap)
  {
    assert T'.givers == T.givers;
    if c.limitmemory > 0 && NoWrap(c, T, n, maxcap) {
      if th.pc.give.CheckMem? && ep.used < c.limitmemory { PassedCheck(c, ep, T, n, maxcap); }
      if th.pc.give.GivePut? { QueuedBytesPut(ep.queue, th.pc.m); }
    }
  }

  lemma ReceivedOk(c: EpConfig, ep: Ep, th: Thread, t: nat, expired: bool, T: Tally, T': Tally, n: nat, maxcap: nat)
    requires th.pc.Recv? && EpOk(c, ep, T, n, maxcap) && Mine(ep, t, th.pc, th.pc.e)
    requires var r := Received(ep, t, th.pc.recv, th.pc.e, th.pc.how, expired);
      Retallied(T, T', th, th.(pc := r.1), th.pc.e)
    ensures EpOk(c, Received(ep, t, th.pc.recv, th.pc.e, th.pc.how, expired).0, T', n, maxcap)
  {
    assert T'.givers == T.givers;
  }

  lemma SubtractedOk(c: EpConfig, ep: Ep, th: Thread, T: Tally, T': Tally, n: nat, maxcap: nat)
    requires th.pc.Taken? && th.pc.taken.TakenSub? && EpOk(c, ep, T, n, maxcap)
    requires var r := Subtracted(ep, th.pc.e, th.pc.how, th.pc.k, th.pc.m);
      Retallied(T, T', th, th.(pc := r.1), th.pc.e)
    ensures EpOk(c, Subtracted(ep, th.pc.e, th.pc.how, th.pc.k, th.pc.m).0, T', n, maxcap)
  {
    SameWordSub(ep.used, QueuedBytes(ep.queue) - T.putting + T.taken, th.pc.m.cap);
  }

  // ----- all threads at all endpoints -----

  lemma LocksDid(s: State, s': State, t: nat, e: nat, r: (Ep, Pc))
    requires Locks(s) && Did(s, s', t, e, r) && Polite(s.eps[e], r.0, t) && Mine(r.0, t, r.1, e) && WorksAt(r.1, e)
    ensures Locks(s')
  {
    forall u, x | 0 <= u < |s'.threads| && 0 <= x < |s'.eps| ensures Mine(s'.eps[x], u, s'.threads[u].pc, x) {
      assert Mine(s.eps[x], u, s.threads[u].pc, x);
    }
  }

  lemma CapsDid(c: Config, s: State, s': State, t: nat, e: nat, r: (Ep, Pc))
    requires Caps(c, s) && Did(s, s', t, e, r)
    requires ThreadFits(c.maxcap, s.threads[t].(pc := r.1)) && QueueFits(c.maxcap, r.0.queue)
    ensures Caps(c, s')
  {
  }

  lemma CountDid(s: State, s': State, t: nat, e: nat, r: (Ep, Pc), x: nat)
    requires Did(s, s', t, e, r)
    ensures Retallied(Count(s, x), Count(s', x), s.threads[t], s'.threads[t], x)
  {
    assert Weights(s', x) == Weights(s, x)[t := Weigh(s'.threads[t], x)];
    TotalUpdate(Weights(s, x), t, Weigh(s'.threads[t], x));
  }

  lemma CountElsewhere(s: State, s': State, t: nat, e: nat, r: (Ep, Pc), x: nat)
    requires Did(s, s', t, e, r) && WorksAt(s.threads[t].pc, e) && WorksAt(r.1, e) && x != e
    ensures Count(s', x) == Count(s, x)
  {
    CountDid(s, s', t, e, r, x);
  }

  lemma EpsDid(c: Config, s: State, s': State, t: nat, e: nat, r: (Ep, Pc))
    requires EpsOk(c, s) && Did(s, s', t, e, r) && WorksAt(s.threads[t].pc, e) && WorksAt(r.1, e)
    requires EpOk(c.eps[e], r.0, Count(s', e), |s.threads|, c.maxcap)
    ensures EpsOk(c, s')
  {
    forall x | 0 <= x < |s'.eps| ensures EpOk(c.eps[x], s'.eps[x], Count(s', x), |s'.threads|, c.maxcap) {
      if x != e { CountElsewhere(s, s', t, e, r, x); }
    }
  }

  lemma CountFits(c: Config, s: State, e: nat)
    requires Caps(c, s)
    ensures TallyFits(Count(s, e), |s.threads|, c.maxcap)
  {
    var ws := Weights(s, e);
    forall t | 0 <= t < |ws| ensures WeightFits(c.maxcap, ws[t]) {
      assert ThreadFits(c.maxcap, s.threads[t]);
    }
    TotalFits(c.maxcap, ws);
  }

  // ----- give keeps the invariant -----

  lemma GaveKeeps(c: Config, s: State, s': State, t: nat, give: GivePoint, m: Msg, e: nat, todo: seq<nat>)
    requires Inv(c, s) && t < |s.threads| && s.threads[t].pc == Give(give, m, e, todo) && e < |s.eps|
    requires !give.GiveNotify? && (give.GiveLock? ==> s.eps[e].lock.None?)
    requires Did(s, s', t, e, Gave(c.eps[e], s.eps[e], t, give, m, e, todo))
    ensures Inv(c, s')
  {
    var r := Gave(c.eps[e], s.eps[e], t, give, m, e, todo);
    assert Mine(s.eps[e], t, s.threads[t].pc, e);
    GaveMine(c.eps[e], s.eps[e], t, give, m, e, todo);
    LocksDid(s, s', t, e, r);
    GaveFits(c.maxcap, c.eps[e], s.eps[e], s.threads[t], t);
    CapsDid(c, s, s', t, e, r);
    GaveEp(c, s, s', t, give, m, e, todo);
    EpsDid(c, s, s', t, e, r);
  }

  lemma GaveEp(c: Config, s: State, s': State, t: nat, give: GivePoint, m: Msg, e: nat, todo: seq<nat>)
    requires EpsOk(c, s) && Caps(c, s) && Caps(c, s') && !give.GiveNotify?
    requires t < |s.threads| && s.threads[t].pc == Give(give, m, e, todo) && e < |s.eps|
    requires Did(s, s', t, e, Gave(c.eps[e], s.eps[e], t, give, m, e, todo))
    ensures EpOk(c.eps[e], Gave(c.eps[e], s.eps[e], t, give, m, e, todo).0, Count(s', e), |s.threads|, c.maxcap)
  {
    var r, th, T, T' := Gave(c.eps[e], s.eps[e], t, give, m, e, todo), s.threads[t], Count(s, e), Count(s', e);
    CountDid(s, s', t, e, r, e);
    CountFits(c, s, e);
    CountFits(c, s', e);
    GaveWatched(c.eps[e], s.eps[e], th, t, T, T');
    GavePending(c.eps[e], s.eps[e], th, t, T, T');
    GaveAccounted(c.eps[e], s.eps[e], th, t, T, T');
    GaveMemory(c.eps[e], s.eps[e], th, t, T, T', |s.threads|, c.maxcap);
  }

  lemma ReceivedKeeps(c: Config, s: State, s': State, t: nat, recv: RecvPoint, e: nat, how: How, expired: bool)
    requires Inv(c, s) && t < |s.threads| && s.threads[t].pc == Recv(recv, e, how) && e < |s.eps|
    requires recv.RecvLock? || recv.Woken? ==> s.eps[e].lock.None?
    requires Did(s, s', t, e, Received(s.eps[e], t, recv, e, how, expired))
    ensures Inv(c, s')
  {
    var r := Received(s.eps[e], t, recv, e, how, expired);
    assert Mine(s.eps[e], t, s.threads[t].pc, e);
    ReceivedMine(s.eps[e], t, recv, e, how, expired);
    LocksDid(s, s', t, e, r);
    ReceivedFits(c.maxcap, s.eps[e], s.threads[t], t, expired);
    CapsDid(c, s, s', t, e, r);
    CountDid(s, s', t, e, r, e);
    ReceivedOk(c.eps[e], s.eps[e], s.threads[t], t, expired, Count(s, e), Count(s', e), |s.threads|, c.maxcap);
    EpsDid(c, s, s', t, e, r);
  }

  lemma SubtractedKeeps(c: Config, s: State, s': State, t: nat, e: nat, how: How, k: nat, m: Msg)
    requires Inv(c, s) && t < |s.threads| && s.threads[t].pc == Taken(TakenSub, e, how, k, m) && e < |s.eps|
    requires Did(s, s', t, e, Subtracted(s.eps[e], e, how, k, m))
    ensures Inv(c, s')
  {
    var r := Subtracted(s.eps[e], e, how, k, m);
    assert Mine(s.eps[e], t, s.threads[t].pc, e);
    assert ThreadFits(c.maxcap, s.threads[t]);
    LocksDid(s, s', t, e, r);
    CapsDid(c, s, s', t, e, r);
    CountDid(s, s', t, e, r, e);
    SubtractedOk(c.eps[e], s.eps[e], s.threads[t], Count(s, e), Count(s', e), |s.threads|, c.maxcap);
    EpsDid(c, s, s', t, e, r);
  }

  // ----- steps that change no tally -----

  /** As far as the limits can tell, the endpoint is the same. */
  predicate SameEp(ep: Ep, ep': Ep) {
    ep'.lock == ep.lock && ep'.used == ep.used && ep'.queue == ep.queue
  }

  lemma QuietKeeps(c: Config, s: State, s': State, t: nat, e: nat, r: (Ep, Pc))
    requires Inv(c, s) && Did(s, s', t, e, r) && WorksAt(s.threads[t].pc, e) && WorksAt(r.1, e)
    requires SameEp(s.eps[e], r.0) && Mine(r.0, t, r.1, e) && ThreadFits(c.maxcap, s.threads[t].(pc := r.1))
    requires Weigh(s.threads[t].(pc := r.1), e) == Weigh(s.threads[t], e)
    ensures Inv(c, s')
  {
    LocksDid(s, s', t, e, r);
    CapsDid(c, s, s', t, e, r);
    CountDid(s, s', t, e, r, e);
    EpsDid(c, s, s', t, e, r);
  }

  lemma StillKeeps(c: Config, s: State, s': State)
    requires Inv(c, s) && s'.threads == s.threads && s'.eps == s.eps
    ensures Inv(c, s')
  {
    forall e | 0 <= e < |s.eps| ensures Count(s', e) == Count(s, e) {
      assert Weights(s', e) == Weights(s, e);
    }
  }

  /** A thread that has nothing to do with any endpoint before, and at most starts with one. */
  lemma AwayKeeps(c: Config, s: State, s': State, t: nat, pc: Pc)
    requires Inv(c, s) && t < |s.threads| && (s.threads[t].pc.Idle? || s.threads[t].pc.Offer?) && s'.eps == s.eps
    requires s'.threads == s.threads[t := s.threads[t].(pc := pc)] && ThreadFits(c.maxcap, s.threads[t].(pc := pc))
    requires pc.Idle? || pc.Offer? || (pc.Give? && pc.give.CheckLen?)
      || (pc.Recv? && (if pc.how.Poll? then pc.recv.RecvGet? else pc.recv.RecvLock?))
    ensures Inv(c, s')
  {
    forall u, x | 0 <= u < |s'.threads| && 0 <= x < |s'.eps| ensures Mine(s'.eps[x], u, s'.threads[u].pc, x) {
      assert Mine(s.eps[x], u, s.threads[u].pc, x);
    }
    forall e | 0 <= e < |s.eps| ensures Count(s', e) == Count(s, e) {
      assert Weights(s', e) == Weights(s, e);
    }
  }

  /** The notification: a sleeper, if there is one, wakes up, and then the giver goes on. */
  lemma WakeKeeps(c: Config, s: State, u: nat, e: nat, how: How)
    requires Inv(c, s) && u < |s.threads| && s.threads[u].pc == Recv(Asleep, e, how) && e < |s.eps|
    ensures Inv(c, Do(s, u, e, (s.eps[e], Recv(Woken, e, how))))
    ensures var T, T' := Count(s, e), Count(Do(s, u, e, (s.eps[e], Recv(Woken, e, how))), e);
      T'.asleep + 1 == T.asleep && T'.woken == T.woken + 1 && T'.notifying == T.notifying
  {
    var s' := Do(s, u, e, Received(s.eps[e], u, Asleep, e, how, false));
    ReceivedKeeps(c, s, s', u, Asleep, e, how, false);
    CountDid(s, s', u, e, (s.eps[e], Recv(Woken, e, how)), e);
  }

  lemma NotifiedKeeps(c: Config, s: State, s': State, t: nat, m: Msg, e: nat, todo: seq<nat>)
    requires Inv(c, s) && t < |s.threads| && s.threads[t].pc == Give(GiveNotify, m, e, todo) && e < |s.eps|
    requires Did(s, s', t, e, (s.eps[e], Offer(m, todo)))
    requires Count(s, e).asleep > 0 ==> |s.eps[e].queue| < Count(s, e).notifying + Count(s, e).woken
    ensures Inv(c, s')
  {
    var r := (s.eps[e], Offer(m, todo));
    assert Mine(s.eps[e], t, s.threads[t].pc, e);
    assert ThreadFits(c.maxcap, s.threads[t]);
    LocksDid(s, s', t, e, r);
    CapsDid(c, s, s', t, e, r);
    CountDid(s, s', t, e, r, e);
    EpsDid(c, s, s', t, e, r);
  }

  lemma NotifyKeeps(c: Config, s: State, s': State, t: nat, m: Msg, e: nat, todo: seq<nat>)
    requires Inv(c, s) && t < |s.threads| && s.threads[t].pc == Give(GiveNotify, m, e, todo) && e < |s.eps|
    requires NotifyStep(s, s', t, m, e, todo)
    ensures Inv(c, s')
  {
    assert s.eps == s.eps[e := s.eps[e]];
    if u: nat :| SleepsAt(s, u, e) && s' == At(At(s, u, Recv(Woken, e, s.threads[u].pc.how)), t, Offer(m, todo)) {
      WakeKeeps(c, s, u, e, s.threads[u].pc.how);
      NotifiedKeeps(c, Do(s, u, e, (s.eps[e], Recv(Woken, e, s.threads[u].pc.how))), s', t, m, e, todo);
    } else {
      NobodySleeps(s, e);
      NotifiedKeeps(c, s, s', t, m, e, todo);
    }
  }

  lemma NobodySleeps(s: State, e: nat)
    requires forall u: nat :: !SleepsAt(s, u, e)
    ensures Count(s, e).asleep == 0
  {
    var ws := Weights(s, e);
    forall t | 0 <= t < |ws| ensures ws[t].asleep == 0 {
      assert !SleepsAt(s, t, e);
    }
    NoneAsleep(ws);
  }

  // ----- every step, every run -----

  lemma CallKeeps(c: Config, s: State, s': State, t: nat)
    requires Inv(c, s) && t < |s.threads| && s.threads[t].pc.Idle? && CallStep(s, s', t)
    ensures Inv(c, s')
  {
    if e: nat :| e < |s.eps| && s' == At(s, t, Recv(RecvGet, e, Poll)) {
      AwayKeeps(c, s, s', t, Recv(RecvGet, e, Poll));
    } else {
      var e: nat, how: How :| e < |s.eps| && (how.Forever? || how.Timed?) && s' == At(s, t, Recv(RecvLock, e, how));
      AwayKeeps(c, s, s', t, Recv(RecvLock, e, how));
    }
  }

  lemma SendKeeps(c: Config, s: State, s': State, t: nat)
    requires Inv(c, s) && t < |s.threads| && s.threads[t].pc.Idle? && SendStep(c, s, s', t)
    ensures Inv(c, s')
  {
    SendIs(c, s, s', t);
    AwayKeeps(c, s, s', t, s'.threads[t].pc);
  }

  lemma SendIs(c: Config, s: State, s': State, t: nat)
    requires t < |s.threads| && SendStep(c, s, s', t)
    ensures Offers(c, s, s', t)
  {
    if h: Header, b: Buf, copy: Buf, todo: seq<nat> :|
      OfUser(s, b) && |s.buffers[b]| <= c.maxcap && s' == SendRawStep(s, t, h, b, copy, todo)
    {
      OfferIs(c, s, s', t, Msg(h, |s.buffers[b]|, Raw(copy, |s.sent|)), todo);
    } else if h: Header, cap: nat, body: Body, todo: seq<nat> :|
      cap <= c.maxcap && s'.eps == s.eps && s'.threads == At(s, t, Offer(Msg(h, cap, body), todo)).threads
    {
      OfferIs(c, s, s', t, Msg(h, cap, body), todo);
    }
  }

  /** Thread `t` has a message to offer that is not too large. */
  ghost predicate Offers(c: Config, s: State, s': State, t: nat)
    requires t < |s.threads|
  {
    && |s'.threads| == |s.threads| && s'.eps == s.eps && s.threads[t].giver
    && s'.threads == s.threads[t := s.threads[t].(pc := s'.threads[t].pc)]
    && s'.threads[t].pc.Offer? && s'.threads[t].pc.m.cap <= c.maxcap
  }

  lemma OfferIs(c: Config, s: State, s': State, t: nat, m: Msg, todo: seq<nat>)
    requires t < |s.threads| && s.threads[t].giver && m.cap <= c.maxcap
    requires s'.eps == s.eps && s'.threads == At(s, t, Offer(m, todo)).threads
    ensures Offers(c, s, s', t)
  {
  }

  lemma OfferKeeps(c: Config, s: State, t: nat, m: Msg, todo: seq<nat>)
    requires Inv(c, s) && t < |s.threads| && s.threads[t].pc == Offer(m, todo)
    ensures Inv(c, OfferStep(c, s, t, m, todo))
  {
    assert ThreadFits(c.maxcap, s.threads[t]);
    var s' := OfferStep(c, s, t, m, todo);
    AwayKeeps(c, s, s', t, s'.threads[t].pc);
  }

  lemma DupKeeps(c: Config, s: State, s': State, t: nat, e: nat, how: How, k: nat, m: Msg)
    requires Inv(c, s) && t < |s.threads| && s.threads[t].pc == Taken(TakenDup, e, how, k, m) && e < |s.eps|
    requires TakenStep(s, s', t, TakenDup, e, how, k, m)
    ensures Inv(c, s')
  {
    assert Mine(s.eps[e], t, s.threads[t].pc, e);
    assert ThreadFits(c.maxcap, s.threads[t]);
    assert s.eps == s.eps[e := s.eps[e]];
    QuietKeeps(c, s, s', t, e, (s.eps[e], s'.threads[t].pc));
  }

  lemma MatchKeeps(c: Config, s: State, s': State, t: nat, e: nat, how: How, k: nat, m: Msg)
    requires Inv(c, s) && t < |s.threads| && s.threads[t].pc == Taken(TakenMatch, e, how, k, m) && e < |s.eps|
    requires MatchStep(s, s', t, e, how, k, m)
    ensures Inv(c, s')
  {
    var fate, pc := MatchDid(s, s', t, e, how, k, m);
    assert Mine(s.eps[e], t, s.threads[t].pc, e);
    QuietKeeps(c, s, s', t, e, (Fated(s.eps[e], k, fate), pc));
  }

  lemma StepKeeps(c: Config, s: State, s': State, t: nat)
    requires Inv(c, s) && Step(c, s, s', t)
    ensures Inv(c, s')
  {
    match s.threads[t].pc
    case Idle => if SendStep(c, s, s', t) { SendKeeps(c, s, s', t); } else { CallKeeps(c, s, s', t); }
    case Offer(m, todo) => OfferKeeps(c, s, t, m, todo);
    case Give(give, m, e, todo) =>
      if give.GiveNotify? { NotifyKeeps(c, s, s', t, m, e, todo); } else { GaveKeeps(c, s, s', t, give, m, e, todo); }
    case Recv(recv, e, how) =>
      var expired: bool :| s' == Do(s, t, e, Received(s.eps[e], t, recv, e, how, expired));
      ReceivedKeeps(c, s, s', t, recv, e, how, expired);
    case Taken(taken, e, how, k, m) =>
      match taken {
        case TakenDup => DupKeeps(c, s, s', t, e, how, k, m);
        case TakenSub => SubtractedKeeps(c, s, s', t, e, how, k, m);
        case TakenMatch => MatchKeeps(c, s, s', t, e, how, k, m);
      }
  }

  lemma {:induction false} RunKeeps(c: Config, run: seq<State>, i: nat)
    requires Run(c, run) && i < |run|
    ensures Inv(c, run[i])
  {
    if i == 0 {
      InitInv(c, run[0]);
    } else {
      RunKeeps(c, run, i - 1);
      assert Advances(c, run, i - 1);
      if UserStep(run[i - 1], run[i]) {
        StillKeeps(c, run[i - 1], run[i]);
      } else {
        var t: nat :| Step(c, run[i - 1], run[i], t);
        StepKeeps(c, run[i - 1], run[i], t);
      }
    }
  }

  // ----- what every run keeps -----

  ghost predicate SomeoneSleeps(s: State, e: nat) {
    exists u: nat :: SleepsAt(s, u, e)
  }

  /** While a thread sleeps at an endpoint, every queued message has a thread awake that is about to notify or to look. */
  lemma NoLostWakeup(c: Config, run: seq<State>, i: nat, e: nat)
    requires Run(c, run) && i < |run| && e < |c.eps| && SomeoneSleeps(run[i], e)
    ensures |run[i].eps| == |c.eps|
    ensures |run[i].eps[e].queue| <= Count(run[i], e).notifying + Count(run[i], e).woken
  {
    RunKeeps(c, run, i);
    var u: nat :| SleepsAt(run[i], u, e);
    SomeAsleep(Weights(run[i], e), u);
    assert EpOk(c.eps[e], run[i].eps[e], Count(run[i], e), |run[i].threads|, c.maxcap);
  }

  /** No thread sleeps on while a message is waiting and nobody is on the way to wake it. */
  lemma SleepersSeeNothing(c: Config, run: seq<State>, i: nat, e: nat)
    requires Run(c, run) && i < |run| && e < |c.eps| && SomeoneSleeps(run[i], e)
    requires forall t :: 0 <= t < |run[i].threads| ==> !Notifying(run[i].threads[t].pc, e) && !YetToLook(run[i].threads[t].pc, e)
    ensures |run[i].eps| == |c.eps| && run[i].eps[e].queue == []
  {
    NoLostWakeup(c, run, i, e);
    NoneAwake(Weights(run[i], e));
  }

  /** At most one thread is between lock and unlock, or inside a blocking receive, at an endpoint. */
  lemma MutualExclusion(c: Config, run: seq<State>, i: nat, e: nat, t: nat, u: nat)
    requires Run(c, run) && i < |run| && e < |c.eps| && t < |run[i].threads| && u < |run[i].threads|
    requires Holds(run[i].threads[t].pc, e) && Holds(run[i].threads[u].pc, e)
    ensures t == u
  {
    RunKeeps(c, run, i);
    assert Mine(run[i].eps[e], t, run[i].threads[t].pc, e) && Mine(run[i].eps[e], u, run[i].threads[u].pc, e);
  }

  /** With T givers, a limit of N pending messages is exceeded by at most T - 1; a single giver keeps it exactly. */
  lemma PendingLimit(c: Config, run: seq<State>, i: nat, e: nat)
    requires Run(c, run) && i < |run| && e < |c.eps| && c.eps[e].limitpending > 0
    ensures |run[i].eps| == |c.eps|
    ensures var T := Count(run[i], e);
      && |run[i].eps[e].queue| + T.past <= c.eps[e].limitpending + T.givers - 1
      && (T.givers <= 1 ==> |run[i].eps[e].queue| <= c.eps[e].limitpending)
  {
    RunKeeps(c, run, i);
    assert EpOk(c.eps[e], run[i].eps[e], Count(run[i], e), |run[i].threads|, c.maxcap);
  }

  /** The counter is the number of queued bytes, less those not yet added, plus those not yet subtracted, as a word. */
  lemma MemoryCounter(c: Config, run: seq<State>, i: nat, e: nat)
    requires Run(c, run) && i < |run| && e < |c.eps|
    ensures |run[i].eps| == |c.eps|
    ensures var T := Count(run[i], e);
      run[i].eps[e].used == (QueuedBytes(run[i].eps[e].queue) - T.putting + T.taken) % WORD
  {
    RunKeeps(c, run, i);
    assert EpOk(c.eps[e], run[i].eps[e], Count(run[i], e), |run[i].threads|, c.maxcap);
  }

  /** With T givers and messages of at most C bytes, a limit of L bytes is exceeded by at most T * C - 1. */
  lemma MemoryLimit(c: Config, run: seq<State>, i: nat, e: nat)
    requires Run(c, run) && i < |run| && e < |c.eps| && c.eps[e].limitmemory > 0
    requires NoWrap(c.eps[e], Count(run[i], e), |run[i].threads|, c.maxcap)
    ensures |run[i].eps| == |c.eps|
    ensures QueuedBytes(run[i].eps[e].queue) <= c.eps[e].limitmemory - 1 + Count(run[i], e).givers * c.maxcap
  {
    RunKeeps(c, run, i);
    assert EpOk(c.eps[e], run[i].eps[e], Count(run[i], e), |run[i].threads|, c.maxcap);
  }
}
