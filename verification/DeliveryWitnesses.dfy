/** Runs that show how far the limits of an endpoint can be missed: the bounds of `DeliveryLimits` are attained, whatever the limit and the number of senders. */
module DeliveryWitnesses {
  import opened Base
  import opened Routing
  import opened Delivery
  import opened DeliveryLimits
  import opened DeliveryRefusals
  import opened Tallies
  import Calls = DeliveryCalls

  function Last(run: seq<State>): State
    requires run != []
  {
    run[|run| - 1]
  }

  lemma Extend(c: Config, run: seq<State>, s': State, t: nat) returns (run': seq<State>)
    requires Run(c, run) && Step(c, Last(run), s', t)
    ensures Run(c, run') && run' == run + [s'] && Last(run') == s'
  {
    run' := run + [s'];
    forall i | 0 <= i < |run'| - 1 ensures Advances(c, run', i) {
      if i < |run| - 1 { assert Advances(c, run, i); }
    }
  }

  /** One endpoint, and messages to it from a sender that is not the endpoint. */
  const NET := 100
  const HEADER := Header(NET, 2, LOCAL, ANY, false)

  function OneEndpoint(limitpending: nat, limitmemory: nat, maxcap: nat): Config {
    Config(NET, [EpConfig(Address(NET, 1), limitpending, limitmemory)], maxcap)
  }

  predicate IsOne(c: Config) {
    |c.eps| == 1 && c.sid == NET && c.eps[0].address == Address(NET, 1)
  }

  function ForIt(cap: nat, v: Payload): Msg {
    Msg(HEADER, cap, Clone(v))
  }

  function Start(n: nat): State {
    State(seq(n, _ => Busy(Idle)), [Ep(None, 0, [], [], [])], map[], map[], [], map[], map[])
  }

  /** The states of these runs differ in their threads and their only endpoint. */
  ghost predicate Is(run: seq<State>, threads: seq<Thread>, ep: Ep) {
    run != [] && Last(run).threads == threads && Last(run).eps == [ep]
  }

  function Busy(pc: Pc): Thread {
    Thread(true, pc)
  }

  /** Thread `t` sends a clone message up to its first check. */
  lemma Sends(c: Config, run: seq<State>, threads: seq<Thread>, ep: Ep, t: nat, cap: nat, v: Payload) returns (run': seq<State>)
    requires Run(c, run) && Is(run, threads, ep) && t < |threads| && threads[t] == Busy(Idle) && IsOne(c) && cap <= c.maxcap
    ensures Run(c, run') && Is(run', threads[t := Busy(Give(CheckLen, ForIt(cap, v), 0, []))], ep)
  {
    var s := Last(run);
    var s1 := At(s, t, Offer(ForIt(cap, v), [0]));
    assert SendStep(c, s, s1, t);
    run' := Extend(c, run, s1, t);
    var s2 := OfferStep(c, s1, t, ForIt(cap, v), [0]);
    assert [0][1..] == [];
    run' := Extend(c, run', s2, t);
  }

  /** Thread `t` takes one step of `give`. */
  lemma Gives(c: Config, run: seq<State>, threads: seq<Thread>, ep: Ep, t: nat, give: GivePoint, m: Msg, ep': Ep, pc': Pc)
    returns (run': seq<State>)
    requires Run(c, run) && Is(run, threads, ep) && t < |threads| && threads[t] == Busy(Give(give, m, 0, [])) && |c.eps| == 1
    requires !give.GiveNotify? && (give.GiveLock? ==> ep.lock.None?) && Gave(c.eps[0], ep, t, give, m, 0, []) == (ep', pc')
    ensures Run(c, run') && Is(run', threads[t := Busy(pc')], ep')
  {
    var s := Last(run);
    run' := Extend(c, run, Do(s, t, 0, Gave(c.eps[0], s.eps[0], t, give, m, 0, [])), t);
  }

  /** Neither check turns a message away. */
  predicate Open(c: EpConfig, ep: Ep) {
    (c.limitpending > 0 ==> |ep.queue| < c.limitpending) && !Refuses(c, ep)
  }

  /** Thread `t` sends a message that passes both checks. */
  lemma Passes(c: Config, run: seq<State>, threads: seq<Thread>, ep: Ep, t: nat, cap: nat, v: Payload) returns (run': seq<State>)
    requires Run(c, run) && Is(run, threads, ep) && t < |threads| && threads[t] == Busy(Idle) && IsOne(c) && cap <= c.maxcap
    requires Open(c.eps[0], ep)
    ensures Run(c, run') && Is(run', threads[t := Busy(Give(GiveLock, ForIt(cap, v), 0, []))], ep)
  {
    var m := ForIt(cap, v);
    run' := Sends(c, run, threads, ep, t, cap, v);
    run' := Gives(c, run', threads[t := Busy(Give(CheckLen, m, 0, []))], ep, t, CheckLen, m, ep, Give(CheckMem, m, 0, []));
    run' := Gives(c, run', threads[t := Busy(Give(CheckMem, m, 0, []))], ep, t, CheckMem, m, ep, Give(GiveLock, m, 0, []));
    assert threads[t := Busy(Give(CheckMem, m, 0, []))][t := Busy(Give(GiveLock, m, 0, []))] == threads[t := Busy(Give(GiveLock, m, 0, []))];
  }

  /** Thread `t`, past both checks, puts its message. */
  lemma Holds(c: Config, run: seq<State>, threads: seq<Thread>, ep: Ep, t: nat, m: Msg) returns (run': seq<State>)
    requires Run(c, run) && Is(run, threads, ep) && t < |threads| && threads[t] == Busy(Give(GiveLock, m, 0, [])) && |c.eps| == 1
    requires ep.lock.None?
    ensures Run(c, run')
    ensures Is(run', threads[t := Busy(Give(GiveAdd, m, 0, []))], Ep(Some(t), ep.used, ep.queue + [m], ep.puts + [m], ep.removed))
  {
    var locked := ep.(lock := Some(t));
    run' := Gives(c, run, threads, ep, t, GiveLock, m, locked, Give(GivePut, m, 0, []));
    var full := locked.(queue := ep.queue + [m], puts := ep.puts + [m]);
    run' := Gives(c, run', threads[t := Busy(Give(GivePut, m, 0, []))], locked, t, GivePut, m, full, Give(GiveAdd, m, 0, []));
  }

  function After(ep: Ep, m: Msg): Ep {
    Ep(None, AddWord(ep.used, m.cap), ep.queue + [m], ep.puts + [m], ep.removed)
  }

  /** And then it counts the message and lets go of the mutex. */
  lemma Puts(c: Config, run: seq<State>, threads: seq<Thread>, ep: Ep, t: nat, m: Msg) returns (run': seq<State>)
    requires Run(c, run) && Is(run, threads, ep) && t < |threads| && threads[t] == Busy(Give(GiveLock, m, 0, [])) && |c.eps| == 1
    requires ep.lock.None?
    ensures Run(c, run') && Is(run', threads[t := Busy(Give(GiveNotify, m, 0, []))], After(ep, m))
  {
    run' := Holds(c, run, threads, ep, t, m);
    var full := Ep(Some(t), ep.used, ep.queue + [m], ep.puts + [m], ep.removed);
    var counted := full.(used := AddWord(ep.used, m.cap));
    run' := Gives(c, run', threads[t := Busy(Give(GiveAdd, m, 0, []))], full, t, GiveAdd, m, counted, Give(GiveUnlock, m, 0, []));
    run' := Gives(c, run', threads[t := Busy(Give(GiveUnlock, m, 0, []))], counted, t, GiveUnlock, m, counted.(lock := None), Give(GiveNotify, m, 0, []));
  }

  ghost predicate NoneSleeps(threads: seq<Thread>) {
    forall t :: 0 <= t < |threads| ==> !threads[t].pc.Recv?
  }

  /** And then it notifies nobody and returns. */
  lemma Returns(c: Config, run: seq<State>, threads: seq<Thread>, ep: Ep, t: nat, m: Msg) returns (run': seq<State>)
    requires Run(c, run) && Is(run, threads, ep) && t < |threads| && threads[t] == Busy(Give(GiveNotify, m, 0, [])) && |c.eps| == 1
    requires NoneSleeps(threads)
    ensures Run(c, run') && Is(run', threads[t := Busy(Idle)], ep)
  {
    var s := Last(run);
    var s1 := At(s, t, Offer(m, []));
    assert NotifyStep(s, s1, t, m, 0, []);
    run' := Extend(c, run, s1, t);
    run' := Extend(c, run', OfferStep(c, s1, t, m, []), t);
  }

  // ----- many messages -----

  /** The endpoint holds `n` messages of `bytes` bytes, all of them counted. */
  predicate Holding(ep: Ep, n: nat, bytes: nat) {
    ep.lock.None? && |ep.queue| == n && QueuedBytes(ep.queue) == bytes && ep.used == bytes % WORD
  }

  lemma HoldingMore(ep: Ep, n: nat, bytes: nat, m: Msg)
    requires Holding(ep, n, bytes)
    ensures Holding(After(ep, m), n + 1, bytes + m.cap)
  {
    QueuedBytesPut(ep.queue, m);
  }

  /** Below its limits, an endpoint at rest turns nobody away. */
  predicate Room(c: EpConfig, n: nat, bytes: nat) {
    (c.limitpending > 0 ==> n < c.limitpending) && (c.limitmemory > 0 ==> bytes < c.limitmemory)
  }

  lemma RoomOpen(c: EpConfig, ep: Ep, n: nat, bytes: nat)
    requires Holding(ep, n, bytes) && Room(c, n, bytes)
    ensures Open(c, ep)
  {
    assert bytes % WORD <= bytes;
  }

  /** Thread 0 sends `n` messages of one byte, one after the other. */
  lemma {:induction false} Fills(c: Config, threads: seq<Thread>, n: nat, v: Payload) returns (run: seq<State>, ep: Ep)
    requires IsOne(c) && c.maxcap >= 1 && |threads| > 0 && threads == Start(|threads|).threads
    requires n > 0 ==> Room(c.eps[0], n - 1, n - 1)
    ensures Run(c, run) && Is(run, threads, ep) && Holding(ep, n, n)
  {
    if n == 0 {
      run, ep := [Start(|threads|)], Ep(None, 0, [], [], []);
    } else {
      run, ep := Fills(c, threads, n - 1, v);
      var m := ForIt(1, v);
      RoomOpen(c.eps[0], ep, n - 1, n - 1);
      run := Passes(c, run, threads, ep, 0, 1, v);
      run := Puts(c, run, threads[0 := Busy(Give(GiveLock, m, 0, []))], ep, 0, m);
      HoldingMore(ep, n - 1, n - 1, m);
      ep := After(ep, m);
      run := Returns(c, run, threads[0 := Busy(Give(GiveNotify, m, 0, []))], ep, 0, m);
      assert threads[0 := Busy(Idle)] == threads;
    }
  }

  /** The first `k` of `n` threads are at `pc`, the others at `pc'`. */
  function Split(n: nat, k: nat, pc: Pc, pc': Pc): (threads: seq<Thread>)
    ensures |threads| == n
  {
    seq(n, t requires 0 <= t < n => Busy(if t < k then pc else pc'))
  }

  lemma SplitNext(n: nat, k: nat, pc: Pc, pc': Pc)
    requires k < n
    ensures Split(n, k, pc, pc')[k] == Busy(pc') && Split(n, k, pc, pc')[k := Busy(pc)] == Split(n, k + 1, pc, pc')
  {
  }

  /** While there is room, `k` threads after another pass the checks. */
  lemma {:induction false} AllPass(c: Config, start: seq<State>, ep: Ep, n: nat, k: nat, cap: nat, v: Payload) returns (run: seq<State>)
    requires Run(c, start) && Is(start, Split(n, 0, Idle, Idle), ep) && IsOne(c) && cap <= c.maxcap && k <= n && Open(c.eps[0], ep)
    ensures Run(c, run) && Is(run, Split(n, k, Give(GiveLock, ForIt(cap, v), 0, []), Idle), ep)
  {
    var passed := Give(GiveLock, ForIt(cap, v), 0, []);
    if k == 0 {
      run := start;
      assert Split(n, 0, Idle, Idle) == Split(n, 0, passed, Idle);
    } else {
      run := AllPass(c, start, ep, n, k - 1, cap, v);
      SplitNext(n, k - 1, passed, Idle);
      run := Passes(c, run, Split(n, k - 1, passed, Idle), ep, k - 1, cap, v);
    }
  }

  /** And then they put their messages, with or without room. */
  lemma {:induction false} AllPut(c: Config, start: seq<State>, ep: Ep, n: nat, k: nat, m: Msg, had: nat, bytes: nat)
    returns (run: seq<State>, ep': Ep)
    requires Run(c, start) && Is(start, Split(n, n, Give(GiveLock, m, 0, []), Idle), ep) && |c.eps| == 1 && k <= n
    requires Holding(ep, had, bytes)
    ensures Run(c, run) && Is(run, Split(n, k, Give(GiveNotify, m, 0, []), Give(GiveLock, m, 0, [])), ep')
    ensures Holding(ep', had + k, bytes + k * m.cap)
  {
    var waiting, done := Give(GiveLock, m, 0, []), Give(GiveNotify, m, 0, []);
    if k == 0 {
      run, ep' := start, ep;
      assert Split(n, n, waiting, Idle) == Split(n, 0, done, waiting);
    } else {
      run, ep' := AllPut(c, start, ep, n, k - 1, m, had, bytes);
      SplitNext(n, k - 1, done, waiting);
      run := Puts(c, run, Split(n, k - 1, done, waiting), ep', k - 1, m);
      HoldingMore(ep', had + k - 1, bytes + (k - 1) * m.cap, m);
      assert k * m.cap == (k - 1) * m.cap + m.cap;
      ep' := After(ep', m);
    }
  }

  /** `n` senders find room for one message each at the same time, and all put theirs. */
  lemma Overshoots(c: Config, had: nat, n: nat, cap: nat) returns (run: seq<State>)
    requires IsOne(c) && 1 <= c.maxcap && cap <= c.maxcap && n > 0 && Room(c.eps[0], had, had)
    ensures Run(c, run) && |Last(run).eps| == 1 && |Last(run).threads| == Count(Last(run), 0).givers == n
    ensures |Last(run).eps[0].queue| == had + n && QueuedBytes(Last(run).eps[0].queue) == had + n * cap
  {
    var v: Payload :| true;
    var ep, ep';
    assert Start(n).threads == Split(n, 0, Idle, Idle);
    run, ep := Fills(c, Split(n, 0, Idle, Idle), had, v);
    RoomOpen(c.eps[0], ep, had, had);
    run := AllPass(c, run, ep, n, n, cap, v);
    run, ep' := AllPut(c, run, ep, n, n, ForIt(cap, v), had, had);
    SplitGives(Last(run), n, n, Give(GiveNotify, ForIt(cap, v), 0, []), Give(GiveLock, ForIt(cap, v), 0, []));
  }

  lemma SplitGives(s: State, n: nat, k: nat, pc: Pc, pc': Pc)
    requires s.threads == Split(n, k, pc, pc')
    ensures Count(s, 0).givers == n
  {
    var ws := Weights(s, 0);
    forall t | 0 <= t < |ws| ensures ws[t].givers == 1 {
      assert s.threads[t] == Busy(if t < k then pc else pc');
    }
    AllGive(ws);
  }

  lemma {:induction false} AllGive(ws: seq<Tally>)
    requires forall t :: 0 <= t < |ws| ==> ws[t].givers == 1
    ensures Total(ws).givers == |ws|
  {
    if ws != [] { AllGive(ws[1..]); }
  }

  // ----- the pending limit -----

  /** Whatever the limit N and the number T of senders, N + T - 1 messages can be queued. */
  lemma PendingOvershoot(N: nat, T: nat) returns (c: Config, run: seq<State>)
    requires N > 0 && T > 0
    ensures Run(c, run) && |c.eps| == |Last(run).eps| == 1 && c.eps[0].limitpending == N && Count(Last(run), 0).givers == T
    ensures |Last(run).eps[0].queue| == N + T - 1
  {
    c := OneEndpoint(N, 0, 1);
    run := Overshoots(c, N - 1, T, 1);
  }

  /** In every run, an endpoint with pending limit N and T senders never holds more than N messages. */
  ghost predicate PendingKept(N: nat, T: nat) {
    forall c: Config, run: seq<State>, i: nat, e: nat :: Reaches(c, run, i, e) && c.eps[e].limitpending == N && Count(run[i], e).givers == T ==> |run[i].eps[e].queue| <= N
  }

  ghost predicate Reaches(c: Config, run: seq<State>, i: nat, e: nat) {
    Run(c, run) && i < |run| && e < |c.eps| == |run[i].eps|
  }

  /** The pending limit is a limit exactly with no more than one sender. */
  lemma PendingKeptIff(N: nat, T: nat)
    requires N > 0
    ensures PendingKept(N, T) <==> T <= 1
  {
    if T <= 1 {
      forall c: Config, run: seq<State>, i: nat, e: nat | Reaches(c, run, i, e) && c.eps[e].limitpending == N && Count(run[i], e).givers == T
        ensures |run[i].eps[e].queue| <= N
      {
        PendingLimit(c, run, i, e);
      }
    } else {
      var c, run := PendingOvershoot(N, T);
      assert Reaches(c, run, |run| - 1, 0);
    }
  }

  // ----- the memory limit -----

  /** Whatever the limit L, the number T of senders and the size C of messages, L - 1 + T * C bytes can be queued. */
  lemma MemoryOvershoot(L: nat, T: nat, C: nat) returns (c: Config, run: seq<State>)
    requires L > 0 && T > 0 && C > 0
    ensures Run(c, run) && |c.eps| == |Last(run).eps| == 1 && c.eps[0].limitmemory == L && c.maxcap == C
    ensures |Last(run).threads| == Count(Last(run), 0).givers == T && QueuedBytes(Last(run).eps[0].queue) == L - 1 + T * C
  {
    c := OneEndpoint(0, L, C);
    run := Overshoots(c, L - 1, T, C);
  }

  /** In every run without ambiguous words, an endpoint with memory limit L, T senders and messages of at most C bytes never holds more than L bytes. */
  ghost predicate MemoryKept(L: nat, T: nat, C: nat) {
    forall c: Config, run: seq<State>, i: nat, e: nat :: Reaches(c, run, i, e) && MemoryCase(c, run[i], e, L, T, C) ==> QueuedBytes(run[i].eps[e].queue) <= L
  }

  ghost predicate MemoryCase(c: Config, s: State, e: nat, L: nat, T: nat, C: nat)
    requires e < |c.eps|
  {
    c.eps[e].limitmemory == L && c.maxcap == C && Count(s, e).givers == T && NoWrap(c.eps[e], Count(s, e), |s.threads|, C)
  }

  /** The memory limit is a limit exactly with no more than one sender of messages of one byte. */
  lemma MemoryKeptIff(L: nat, T: nat, C: nat)
    requires L > 0 && L + T * C + T * C <= WORD
    ensures MemoryKept(L, T, C) <==> T * C <= 1
  {
    if T * C <= 1 {
      forall c: Config, run: seq<State>, i: nat, e: nat | Reaches(c, run, i, e) && MemoryCase(c, run[i], e, L, T, C)
        ensures QueuedBytes(run[i].eps[e].queue) <= L
      {
        MemoryLimit(c, run, i, e);
      }
    } else {
      var c, run := MemoryOvershoot(L, T, C);
      assert Reaches(c, run, |run| - 1, 0) && MemoryCase(c, Last(run), 0, L, T, C);
    }
  }

  // ----- senders turned away from an empty queue -----

  /** Thread `t`, in the middle of a receive of kind `how`, takes the only queued message. */
  lemma Takes(c: Config, run: seq<State>, threads: seq<Thread>, ep: Ep, t: nat, how: How, m: Msg) returns (run': seq<State>)
    requires Run(c, run) && Is(run, threads, ep) && t < |threads| && threads[t] == Busy(Recv(RecvGet, 0, how)) && |c.eps| == 1
    requires ep.queue == [m] && ep.removed == []
    ensures Run(c, run')
    ensures Is(run', threads[t := Busy(Taken(TakenDup, 0, how, 0, m))], ep.(queue := [], removed := [Removed(m, Transit(t))]))
  {
    var s := Last(run);
    assert ep.queue[1..] == [] && ep.removed + [Removed(m, Transit(t))] == [Removed(m, Transit(t))];
    run' := Extend(c, run, Do(s, t, 0, Received(s.eps[0], t, RecvGet, 0, how, false)), t);
  }

  /** And then it subtracts its size. */
  lemma Subtracts(c: Config, run: seq<State>, threads: seq<Thread>, ep: Ep, t: nat, how: How, m: Msg) returns (run': seq<State>)
    requires Run(c, run) && Is(run, threads, ep) && t < |threads| && threads[t] == Busy(Taken(TakenDup, 0, how, 0, m)) && |c.eps| == 1
    requires m.body.Clone?
    ensures Run(c, run') && Is(run', threads[t := Busy(Taken(TakenMatch, 0, how, 0, m))], ep.(used := SubWord(ep.used, m.cap)))
  {
    var s := Last(run);
    var copy: Buf := FreshNumber(s.buffers.Keys + s.owner.Keys);
    var s' := DupStep(s, t, 0, how, 0, m, copy);
    run' := Extend(c, run, s', t);
    run' := Extend(c, run', Do(s', t, 0, Subtracted(s'.eps[0], 0, how, 0, m)), t);
  }

  /** Thread `t` calls the non-blocking `recv`. */
  lemma Polls(c: Config, run: seq<State>, threads: seq<Thread>, ep: Ep, t: nat) returns (run': seq<State>)
    requires Run(c, run) && Is(run, threads, ep) && t < |threads| && threads[t] == Busy(Idle) && |c.eps| == 1
    ensures Run(c, run') && Is(run', threads[t := Busy(Recv(RecvGet, 0, Poll))], ep)
  {
    var s := Last(run);
    var s1 := At(s, t, Recv(RecvGet, 0, Poll));
    assert CallStep(s, s1, t);
    run' := Extend(c, run, s1, t);
  }

  /** Thread `t` calls `recvorblockforever` and locks the mutex. */
  lemma Locks(c: Config, run: seq<State>, threads: seq<Thread>, ep: Ep, t: nat) returns (run': seq<State>)
    requires Run(c, run) && Is(run, threads, ep) && t < |threads| && threads[t] == Busy(Idle) && |c.eps| == 1 && ep.lock.None?
    ensures Run(c, run') && Is(run', threads[t := Busy(Recv(RecvGet, 0, Forever))], ep.(lock := Some(t)))
  {
    var s := Last(run);
    var s1 := At(s, t, Recv(RecvLock, 0, Forever));
    assert CallStep(s, s1, t);
    run' := Extend(c, run, s1, t);
    run' := Extend(c, run', Do(s1, t, 0, Received(s1.eps[0], t, RecvLock, 0, Forever, false)), t);
  }

  /** In this state the queue is empty, and thread `t` is about to be turned away by a memory limit of `limit`. */
  ghost predicate TurnedAway(c: Config, s: State, t: nat, limit: nat) {
    && |c.eps| == |s.eps| == 1 && c.eps[0].limitmemory == limit && s.eps[0].queue == [] && Refuses(c.eps[0], s.eps[0])
    && t < |s.threads| && s.threads[t].pc.Give? && s.threads[t].pc.give.CheckMem?
  }

  /** Thread `t` sends up to the memory check. */
  lemma Checks(c: Config, run: seq<State>, threads: seq<Thread>, ep: Ep, t: nat, cap: nat, v: Payload) returns (run': seq<State>)
    requires Run(c, run) && Is(run, threads, ep) && t < |threads| && threads[t] == Busy(Idle) && IsOne(c) && cap <= c.maxcap
    requires c.eps[0].limitpending == 0
    ensures Run(c, run') && Is(run', threads[t := Busy(Give(CheckMem, ForIt(cap, v), 0, []))], ep)
  {
    var m := ForIt(cap, v);
    run' := Sends(c, run, threads, ep, t, cap, v);
    run' := Gives(c, run', threads[t := Busy(Give(CheckLen, m, 0, []))], ep, t, CheckLen, m, ep, Give(CheckMem, m, 0, []));
    assert threads[t := Busy(Give(CheckLen, m, 0, []))][t := Busy(Give(CheckMem, m, 0, []))] == threads[t := Busy(Give(CheckMem, m, 0, []))];
  }

  /**
   The first way: a non-blocking receive takes a message before it is added, the counter wraps below zero, and a sender is
   turned away from the empty queue, whatever the limit is.
   */
  lemma TurnedAwayBelow(limit: nat) returns (c: Config, run: seq<State>)
    requires 0 < limit < WORD
    ensures Run(c, run) && |Last(run).threads| == 3 && TurnedAway(c, Last(run), 2, limit) && Last(run).eps[0].used == WORD - 1
  {
    c := OneEndpoint(0, limit, 1);
    var v: Payload :| true;
    var m := ForIt(1, v);
    assert [] + [m] == [m];
    var ths := [Busy(Idle), Busy(Idle), Busy(Idle)];
    run := [Start(3)];
    assert Is(run, ths, Ep(None, 0, [], [], []));
    run := Passes(c, run, ths, Ep(None, 0, [], [], []), 0, 1, v);
    ths := [Busy(Give(GiveLock, m, 0, [])), Busy(Idle), Busy(Idle)];
    run := Holds(c, run, ths, Ep(None, 0, [], [], []), 0, m);
    ths := [Busy(Give(GiveAdd, m, 0, [])), Busy(Idle), Busy(Idle)];
    run := TakenEarly(c, run, ths, Ep(Some(0), 0, [m], [m], []), 1, m);
    ths := [Busy(Give(GiveAdd, m, 0, [])), Busy(Taken(TakenMatch, 0, Poll, 0, m)), Busy(Idle)];
    run := Checks(c, run, ths, Ep(Some(0), WORD - 1, [], [m], [Removed(m, Transit(1))]), 2, 1, v);
  }

  /** Thread `t` receives, without blocking, a message of one byte that is not counted yet. */
  lemma TakenEarly(c: Config, run: seq<State>, threads: seq<Thread>, ep: Ep, t: nat, m: Msg) returns (run': seq<State>)
    requires Run(c, run) && Is(run, threads, ep) && t < |threads| && threads[t] == Busy(Idle) && |c.eps| == 1
    requires ep.queue == [m] && ep.removed == [] && ep.used == 0 && m.body.Clone? && m.cap == 1
    ensures Run(c, run')
    ensures Is(run', threads[t := Busy(Taken(TakenMatch, 0, Poll, 0, m))],
               ep.(queue := [], removed := [Removed(m, Transit(t))], used := WORD - 1))
  {
    run' := Polls(c, run, threads, ep, t);
    run' := Takes(c, run', threads[t := Busy(Recv(RecvGet, 0, Poll))], ep, t, Poll, m);
    run' := Subtracts(c, run', threads[t := Busy(Taken(TakenDup, 0, Poll, 0, m))], ep.(queue := [], removed := [Removed(m, Transit(t))]), t, Poll, m);
  }

  /**
   The second way: a blocking receive has taken a message as large as the limit and not yet subtracted it, and a sender is
   turned away from the empty queue, although the counter never wraps.
   */
  lemma TurnedAwayOver(limit: nat) returns (c: Config, run: seq<State>)
    requires 0 < limit < WORD
    ensures Run(c, run) && |Last(run).threads| == 2 && TurnedAway(c, Last(run), 0, limit) && Last(run).eps[0].used == limit
  {
    c := OneEndpoint(0, limit, limit);
    var v: Payload :| true;
    var m := ForIt(limit, v);
    assert [] + [m] == [m];
    var ths := [Busy(Idle), Busy(Idle)];
    run := [Start(2)];
    assert Is(run, ths, Ep(None, 0, [], [], []));
    run := Passes(c, run, ths, Ep(None, 0, [], [], []), 0, limit, v);
    run := Puts(c, run, [Busy(Give(GiveLock, m, 0, [])), Busy(Idle)], Ep(None, 0, [], [], []), 0, m);
    run := Returns(c, run, [Busy(Give(GiveNotify, m, 0, [])), Busy(Idle)], Ep(None, limit, [m], [m], []), 0, m);
    run := Locks(c, run, ths, Ep(None, limit, [m], [m], []), 1);
    run := Takes(c, run, [Busy(Idle), Busy(Recv(RecvGet, 0, Forever))], Ep(Some(1), limit, [m], [m], []), 1, Forever, m);
    run := Checks(c, run, [Busy(Idle), Busy(Taken(TakenDup, 0, Forever, 0, m))], Ep(Some(1), limit, [], [m], [Removed(m, Transit(1))]), 0, limit, v);
  }

  // ----- a receive that times out -----

  /** One thread at one endpoint that nobody sends to: its only state apart from the thread is the mutex. */
  function Alone(pc: Pc, lock: Option<nat>): State {
    State([Busy(pc)], [Ep(lock, 0, [], [], [])], map[], map[], [], map[], map[])
  }

  lemma Steps(c: Config, run: seq<State>, recv: RecvPoint, how: How, lock: Option<nat>, expired: bool, pc': Pc, lock': Option<nat>)
    returns (run': seq<State>)
    requires Run(c, run) && |c.eps| == 1 && Last(run) == Alone(Recv(recv, 0, how), lock) && (recv.RecvLock? || recv.Woken? ==> lock.None?)
    requires Received(Ep(lock, 0, [], [], []), 0, recv, 0, how, expired) == (Ep(lock', 0, [], [], []), pc')
    ensures Run(c, run') && run' == run + [Alone(pc', lock')]
  {
    var s' := Do(Last(run), 0, 0, Received(Last(run).eps[0], 0, recv, 0, how, expired));
    assert s'.threads == [Busy(pc')] && s'.eps == [Ep(lock', 0, [], [], [])];
    run' := Extend(c, run, s', 0);
  }

  /** The states of the receive until it sleeps. */
  function Asleep4(): seq<State> {
    [Alone(Idle, None), Alone(Recv(RecvLock, 0, Timed), None), Alone(Recv(RecvGet, 0, Timed), Some(0)),
     Alone(Recv(RecvWait, 0, Timed), Some(0)), Alone(Recv(Asleep, 0, Timed), None)]
  }

  lemma FallsAsleep(c: Config)
    requires c == OneEndpoint(0, 0, 0)
    ensures Run(c, Asleep4())
  {
    var run := [Alone(Idle, None)];
    var s1 := At(Last(run), 0, Recv(RecvLock, 0, Timed));
    assert CallStep(Last(run), s1, 0);
    run := Extend(c, run, s1, 0);
    assert s1 == Alone(Recv(RecvLock, 0, Timed), None);
    run := Steps(c, run, RecvLock, Timed, None, false, Recv(RecvGet, 0, Timed), Some(0));
    run := Steps(c, run, RecvGet, Timed, Some(0), false, Recv(RecvWait, 0, Timed), Some(0));
    run := Steps(c, run, RecvWait, Timed, Some(0), false, Recv(Asleep, 0, Timed), None);
    assert run == Asleep4();
  }

  function Expired4(): seq<State> {
    [Alone(Recv(Woken, 0, Expired), None), Alone(Recv(RecvGetWoken, 0, Expired), Some(0)),
     Alone(Recv(RecvUnlock, 0, Expired), Some(0)), Alone(Idle, None)]
  }

  lemma WakesUp(c: Config)
    requires c == OneEndpoint(0, 0, 0)
    ensures Run(c, Asleep4() + Expired4())
  {
    FallsAsleep(c);
    var run := Asleep4();
    run := Steps(c, run, Asleep, Timed, None, true, Recv(Woken, 0, Expired), None);
    run := Steps(c, run, Woken, Expired, None, false, Recv(RecvGetWoken, 0, Expired), Some(0));
    run := Steps(c, run, RecvGetWoken, Expired, Some(0), false, Recv(RecvUnlock, 0, Expired), Some(0));
    run := Steps(c, run, RecvUnlock, Expired, Some(0), false, Idle, None);
    assert run == Asleep4() + Expired4();
  }

  /** `recvorblock` does come back without a message: from an empty queue, once its wait has expired. */
  lemma TimesOut() returns (c: Config, run: seq<State>)
    ensures Run(c, run) && Calls.Call(run, 0, 8, 0, 0, Timed) && Calls.FindsNone(run, 6, 0, 0) && Calls.Expires(run, 4, 0, 0)
  {
    c := OneEndpoint(0, 0, 0);
    WakesUp(c);
    run := Asleep4() + Expired4();
    assert forall x :: 0 <= x <= 8 ==> Calls.Has(run, x, 0);
  }
}
