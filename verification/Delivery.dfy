/**
 Message delivery: threads that send to and receive from the endpoints of one net, one atomic operation or lock
 region at a time (`Net::send`, `Endpoint::give`, the `recv` family, `SyncMessage::takeasvalid`, `Message::dup`).
 */
module Delivery {
  import opened Base
  import opened Routing

  type Bytes = seq<Byte>
  type Buf = nat
  type Flag = nat

  /**
   `Raw` holds a shared buffer, `Sync` a value and its shared `valid` flag, `Clone` a value. Cloning a message shares
   the buffer or the flag. `id` is history: which `Net::send` took the content of the buffer.
   */
  datatype Body = Raw(buf: Buf, id: nat) | Sync(flag: Flag, sync: Payload) | Clone(value: Payload)

  datatype Msg = Msg(header: Header, cap: nat, body: Body)

  /** How a receive goes on when it finds no message. `Expired` is a timed receive whose wait has timed out. */
  datatype How = Poll | Forever | Timed | Expired

  /** Where a thread is in `give`. */
  datatype GivePoint =
    | CheckLen                 // limitpending
    | CheckMem                 // limitmemory
    | GiveLock                 // waitmutex.lock
    | GivePut                  // messages.put
    | GiveAdd                  // memoryused.fetch_add
    | GiveUnlock               // end of the lock region
    | GiveNotify               // wait.notify_one

  /** Where a thread is in `recv`, `recvorblock` or `recvorblockforever`, with no message in its hands. */
  datatype RecvPoint =
    | RecvLock                 // waitmutex.lock
    | RecvGet                  // messages.get
    | RecvGetWoken             // the first messages.get after waking up
    | RecvWait                 // wait: unlock and sleep in one step
    | Asleep
    | Woken                    // wait: lock again
    | RecvUnlock               // return

  /** Where a receiving thread is with a message that it took from the queue. */
  datatype TakenPoint =
    | TakenDup                 // dup_ifok
    | TakenSub                 // memoryused.fetch_sub
    | TakenMatch               // the second dup, or takeasvalid

  /**
   The next operation of a thread: `e` is the endpoint at work, `todo` are the endpoints still to be offered `m`, and
   `k` is the position of `m` among the messages removed from the queue (history).
   */
  datatype Pc =
    | Idle
    | Offer(m: Msg, todo: seq<nat>)                                  // give: the address test
    | Give(give: GivePoint, m: Msg, e: nat, todo: seq<nat>)
    | Recv(recv: RecvPoint, e: nat, how: How)
    | Taken(taken: TakenPoint, e: nat, how: How, k: nat, m: Msg)

  /** Where a message taken from a queue went. */
  datatype Fate = Transit(thread: nat) | Returned(out: Msg) | Dropped

  datatype Removed = Removed(m: Msg, fate: Fate)

  /** `puts` and `removed` are history: all messages ever put, and those taken out again, in order. */
  datatype Ep = Ep(lock: Option<nat>, used: nat, queue: seq<Msg>, puts: seq<Msg>, removed: seq<Removed>)

  datatype Owner = Sender | System(id: nat) | Receiver(e: nat, k: nat)

  datatype Thread = Thread(giver: bool, pc: Pc)

  /**
   `sent` (the buffer contents that `Net::send` took) and `winner` (which receive won a flag) are history. `owner` says who
   has handles of a buffer: users write to and send the buffers of senders and receivers, never those inside the system.
   Buffers are never reclaimed here.
   */
  datatype State = State(threads: seq<Thread>, eps: seq<Ep>, buffers: map<Buf, Bytes>, flags: map<Flag, bool>,
                         sent: seq<Bytes>, owner: map<Buf, Owner>, winner: map<Flag, (nat, nat)>)

  datatype EpConfig = EpConfig(address: Address, limitpending: nat, limitmemory: nat)

  /** What stays fixed during a run; no message is larger than `maxcap`. */
  datatype Config = Config(sid: nat, eps: seq<EpConfig>, maxcap: nat)

  ghost predicate Init(c: Config, s: State) {
    && (forall t :: 0 <= t < |s.threads| ==> s.threads[t].pc == Idle)
    && |s.eps| == |c.eps| && (forall e :: 0 <= e < |s.eps| ==> s.eps[e] == Ep(None, 0, [], [], []))
    && s.buffers == map[] && s.flags == map[] && s.sent == [] && s.owner == map[] && s.winner == map[]
  }

  function At(s: State, t: nat, pc: Pc): State
    requires t < |s.threads|
  {
    s.(threads := s.threads[t := s.threads[t].(pc := pc)])
  }

  /** Thread `t` works at endpoint `e`: the new endpoint and the next operation of the thread. */
  function Do(s: State, t: nat, e: nat, r: (Ep, Pc)): State
    requires t < |s.threads| && e < |s.eps|
  {
    s.(threads := s.threads[t := s.threads[t].(pc := r.1)], eps := s.eps[e := r.0])
  }

  // ----- what the users of the net do -----

  predicate OfUser(s: State, b: Buf) {
    b in s.buffers && b in s.owner && !s.owner[b].System?
  }

  function Allocate(s: State, b: Buf, bytes: Bytes): State {
    s.(buffers := s.buffers[b := bytes], owner := s.owner[b := Sender])
  }

  function Write(s: State, b: Buf, bytes: Bytes): State {
    s.(buffers := s.buffers[b := bytes])
  }

  /** A user allocates a buffer, or writes to one it holds. */
  ghost predicate UserStep(s: State, s': State) {
    || (exists b: Buf, bytes: Bytes :: b !in s.buffers && b !in s.owner && s' == Allocate(s, b, bytes))
    || (exists b: Buf, bytes: Bytes :: OfUser(s, b) && |bytes| == |s.buffers[b]| && s' == Write(s, b, bytes))
  }

  // ----- send -----

  function SendRawStep(s: State, t: nat, h: Header, b: Buf, copy: Buf, todo: seq<nat>): State
    requires t < |s.threads| && b in s.buffers
  {
    var id := |s.sent|;
    At(s.(buffers := s.buffers[copy := s.buffers[b]], owner := s.owner[copy := System(id)], sent := s.sent + [s.buffers[b]]),
       t, Offer(Msg(h, |s.buffers[b]|, Raw(copy, id)), todo))
  }

  function SendSyncStep(s: State, t: nat, h: Header, cap: nat, f: Flag, v: Payload, todo: seq<nat>): State
    requires t < |s.threads|
  {
    At(s.(flags := s.flags[f := true]), t, Offer(Msg(h, cap, Sync(f, v)), todo))
  }

  /** A receive has returned the sync message with this flag, so a user may send it on, taken as it is. */
  predicate Spent(s: State, f: Flag) {
    f in s.flags && !s.flags[f]
  }

  /** The call of `Net::send`, up to the copy of the endpoint list. */
  ghost predicate SendStep(c: Config, s: State, s': State, t: nat)
    requires t < |s.threads|
  {
    && s.threads[t].giver
    && (|| (exists h: Header, b: Buf, copy: Buf, todo: seq<nat> ::
              && OfUser(s, b) && |s.buffers[b]| <= c.maxcap && copy !in s.buffers && copy !in s.owner
              && s' == SendRawStep(s, t, h, b, copy, todo))
        || (exists h: Header, cap: nat, f: Flag, v: Payload, todo: seq<nat> ::
              cap <= c.maxcap && f !in s.flags && s' == SendSyncStep(s, t, h, cap, f, v, todo))
        || (exists h: Header, cap: nat, f: Flag, v: Payload, todo: seq<nat> ::
              cap <= c.maxcap && Spent(s, f) && s' == At(s, t, Offer(Msg(h, cap, Sync(f, v)), todo)))
        || (exists h: Header, cap: nat, v: Payload, todo: seq<nat> ::
              cap <= c.maxcap && s' == At(s, t, Offer(Msg(h, cap, Clone(v)), todo))))
  }

  // ----- give -----

  function OfferStep(c: Config, s: State, t: nat, m: Msg, todo: seq<nat>): State
    requires t < |s.threads| && |s.eps| == |c.eps|
  {
    if todo == [] then At(s, t, Idle)
    else if todo[0] < |s.eps| && Accepts(c.sid, c.eps[todo[0]].address, m.header) then
      At(s, t, Give(CheckLen, m, todo[0], todo[1..]))
    else At(s, t, Offer(m, todo[1..]))
  }

  /** `give` at endpoint `e`, except for whom the notification wakes. */
  function Gave(c: EpConfig, ep: Ep, t: nat, give: GivePoint, m: Msg, e: nat, todo: seq<nat>): (Ep, Pc) {
    match give
    case CheckLen =>
      (ep, if c.limitpending > 0 && |ep.queue| >= c.limitpending then Offer(m, todo) else Give(CheckMem, m, e, todo))
    case CheckMem =>
      (ep, if c.limitmemory > 0 && ep.used >= c.limitmemory then Offer(m, todo) else Give(GiveLock, m, e, todo))
    case GiveLock => (ep.(lock := Some(t)), Give(GivePut, m, e, todo))
    case GivePut => (ep.(queue := ep.queue + [m], puts := ep.puts + [m]), Give(GiveAdd, m, e, todo))
    case GiveAdd => (ep.(used := AddWord(ep.used, m.cap)), Give(GiveUnlock, m, e, todo))
    case GiveUnlock => (ep.(lock := None), Give(GiveNotify, m, e, todo))
    case GiveNotify => (ep, Offer(m, todo))
  }

  predicate SleepsAt(s: State, u: nat, e: nat) {
    u < |s.threads| && s.threads[u].pc.Recv? && s.threads[u].pc.recv.Asleep? && s.threads[u].pc.e == e
  }

  /** `notify_one` wakes any one sleeper of the endpoint, if there is one. */
  ghost predicate NotifyStep(s: State, s': State, t: nat, m: Msg, e: nat, todo: seq<nat>)
    requires t < |s.threads|
  {
    || (exists u: nat :: SleepsAt(s, u, e) && s' == At(At(s, u, Recv(Woken, e, s.threads[u].pc.how)), t, Offer(m, todo)))
    || ((forall u: nat :: !SleepsAt(s, u, e)) && s' == At(s, t, Offer(m, todo)))
  }

  ghost predicate GiveStep(c: Config, s: State, s': State, t: nat, give: GivePoint, m: Msg, e: nat, todo: seq<nat>)
    requires t < |s.threads| && |s.eps| == |c.eps|
  {
    && e < |s.eps|
    && (give.GiveLock? ==> s.eps[e].lock.None?)
    && if give.GiveNotify? then NotifyStep(s, s', t, m, e, todo)
       else s' == Do(s, t, e, Gave(c.eps[e], s.eps[e], t, give, m, e, todo))
  }

  // ----- receive -----

  /** What a receive does when the queue is empty. */
  function EmptyHanded(e: nat, how: How): Pc {
    match how
    case Poll => Idle
    case Expired => Recv(RecvUnlock, e, how)
    case _ => Recv(RecvWait, e, how)
  }

  /** What is left to do when a receive returns. */
  function Finish(e: nat, how: How): Pc {
    if how.Poll? then Idle else Recv(RecvUnlock, e, how)
  }

  /** A receive that has no message in its hands. `expired` says whether a timed wait wakes up by itself. */
  function Received(ep: Ep, t: nat, recv: RecvPoint, e: nat, how: How, expired: bool): (Ep, Pc) {
    match recv
    case RecvLock => (ep.(lock := Some(t)), Recv(RecvGet, e, how))
    case RecvGet => Gotten(ep, t, e, how)
    case RecvGetWoken => Gotten(ep, t, e, how)
    case RecvWait => (ep.(lock := None), Recv(Asleep, e, how))
    case Asleep => (ep, Recv(Woken, e, if expired && how.Timed? then Expired else how))
    case Woken => (ep.(lock := Some(t)), Recv(RecvGetWoken, e, how))
    case RecvUnlock => (ep.(lock := None), Idle)
  }

  function Gotten(ep: Ep, t: nat, e: nat, how: How): (Ep, Pc) {
    if ep.queue == [] then (ep, EmptyHanded(e, how))
    else
      (ep.(queue := ep.queue[1..], removed := ep.removed + [Removed(ep.queue[0], Transit(t))]),
       Taken(TakenDup, e, how, |ep.removed|, ep.queue[0]))
  }

  ghost predicate RecvStep(s: State, s': State, t: nat, recv: RecvPoint, e: nat, how: How)
    requires t < |s.threads|
  {
    && e < |s.eps|
    && (recv.RecvLock? || recv.Woken? ==> s.eps[e].lock.None?)
    && (exists expired: bool :: s' == Do(s, t, e, Received(s.eps[e], t, recv, e, how, expired)))
  }

  function Copied(m: Msg, copy: Buf): Msg
    requires m.body.Raw?
  {
    m.(body := m.body.(buf := copy))
  }

  /** The duplicate that `dup_ifok` makes of a raw message; any other message is passed on. */
  function DupStep(s: State, t: nat, e: nat, how: How, k: nat, m: Msg, copy: Buf): State
    requires t < |s.threads| && (m.body.Raw? ==> m.body.buf in s.buffers)
  {
    if m.body.Raw? then
      At(s.(buffers := s.buffers[copy := s.buffers[m.body.buf]], owner := s.owner[copy := System(m.body.id)]),
         t, Taken(TakenSub, e, how, k, Copied(m, copy)))
    else
      At(s, t, Taken(TakenSub, e, how, k, m))
  }

  function Subtracted(ep: Ep, e: nat, how: How, k: nat, m: Msg): (Ep, Pc) {
    (ep.(used := SubWord(ep.used, m.cap)), Taken(TakenMatch, e, how, k, m))
  }

  function Fated(ep: Ep, k: nat, fate: Fate): Ep
    requires k < |ep.removed|
  {
    ep.(removed := ep.removed[k := ep.removed[k].(fate := fate)])
  }

  function RawStep(s: State, t: nat, e: nat, how: How, k: nat, m: Msg, copy: Buf): State
    requires t < |s.threads| && e < |s.eps| && k < |s.eps[e].removed| && m.body.Raw? && m.body.buf in s.buffers
  {
    Do(s, t, e, (Fated(s.eps[e], k, Returned(Copied(m, copy))), Finish(e, how)))
      .(buffers := s.buffers[copy := s.buffers[m.body.buf]], owner := s.owner[copy := Receiver(e, k)])
  }

  /** `takeasvalid`: the first to take the flag returns the message, all others throw theirs away and look again. */
  function SyncStep(s: State, t: nat, e: nat, how: How, k: nat, m: Msg): State
    requires t < |s.threads| && e < |s.eps| && k < |s.eps[e].removed| && m.body.Sync? && m.body.flag in s.flags
  {
    var f := m.body.flag;
    if s.flags[f] then
      Do(s, t, e, (Fated(s.eps[e], k, Returned(m)), Finish(e, how)))
        .(flags := s.flags[f := false], winner := s.winner[f := (e, k)])
    else
      Do(s, t, e, (Fated(s.eps[e], k, Dropped), Recv(RecvGet, e, how)))
  }

  ghost predicate MatchStep(s: State, s': State, t: nat, e: nat, how: How, k: nat, m: Msg)
    requires t < |s.threads| && e < |s.eps|
  {
    && k < |s.eps[e].removed|
    && match m.body
       case Raw(b, id) =>
         b in s.buffers && (exists copy: Buf :: copy !in s.buffers && copy !in s.owner && s' == RawStep(s, t, e, how, k, m, copy))
       case Sync(f, _) => f in s.flags && s' == SyncStep(s, t, e, how, k, m)
       case Clone(_) => s' == Do(s, t, e, (Fated(s.eps[e], k, Returned(m)), Finish(e, how)))
  }

  /** A message on its way from the queue to the caller. */
  ghost predicate TakenStep(s: State, s': State, t: nat, taken: TakenPoint, e: nat, how: How, k: nat, m: Msg)
    requires t < |s.threads|
  {
    && e < |s.eps|
    && match taken
       case TakenDup =>
         && (m.body.Raw? ==> m.body.buf in s.buffers)
         && (exists copy: Buf :: copy !in s.buffers && copy !in s.owner && s' == DupStep(s, t, e, how, k, m, copy))
       case TakenSub => s' == Do(s, t, e, Subtracted(s.eps[e], e, how, k, m))
       case TakenMatch => MatchStep(s, s', t, e, how, k, m)
  }

  /** The call of a receive. */
  ghost predicate CallStep(s: State, s': State, t: nat)
    requires t < |s.threads|
  {
    || (exists e: nat :: e < |s.eps| && s' == At(s, t, Recv(RecvGet, e, Poll)))
    || (exists e: nat, how: How :: e < |s.eps| && (how.Forever? || how.Timed?) && s' == At(s, t, Recv(RecvLock, e, how)))
  }

  ghost predicate Step(c: Config, s: State, s': State, t: nat) {
    && t < |s.threads| && |s.eps| == |c.eps|
    && match s.threads[t].pc
       case Idle => SendStep(c, s, s', t) || CallStep(s, s', t)
       case Offer(m, todo) => s' == OfferStep(c, s, t, m, todo)
       case Give(give, m, e, todo) => GiveStep(c, s, s', t, give, m, e, todo)
       case Recv(recv, e, how) => RecvStep(s, s', t, recv, e, how)
       case Taken(taken, e, how, k, m) => TakenStep(s, s', t, taken, e, how, k, m)
  }

  ghost predicate Next(c: Config, s: State, s': State) {
    UserStep(s, s') || exists t: nat :: Step(c, s, s', t)
  }

  ghost predicate Advances(c: Config, run: seq<State>, i: int)
    requires 0 <= i < |run| - 1
  {
    Next(c, run[i], run[i + 1])
  }

  ghost predicate Run(c: Config, run: seq<State>) {
    && |run| > 0 && Init(c, run[0])
    && (forall i :: 0 <= i < |run| - 1 ==> Advances(c, run, i))
  }

  // ----- the shape of steps -----

  /** Thread `t` did `r` at endpoint `e`. */
  ghost predicate Did(s: State, s': State, t: nat, e: nat, r: (Ep, Pc)) {
    && t < |s.threads| && e < |s.eps|
    && s'.threads == s.threads[t := s.threads[t].(pc := r.1)] && s'.eps == s.eps[e := r.0]
  }

  predicate WorksAt(pc: Pc, e: nat) {
    (pc.Give? || pc.Recv? || pc.Taken?) ==> pc.e == e
  }

  lemma MatchDid(s: State, s': State, t: nat, e: nat, how: How, k: nat, m: Msg) returns (fate: Fate, pc: Pc)
    requires t < |s.threads| && e < |s.eps| && MatchStep(s, s', t, e, how, k, m)
    ensures pc == Finish(e, how) || pc == Recv(RecvGet, e, how)
    ensures Did(s, s', t, e, (Fated(s.eps[e], k, fate), pc)) && s'.sent == s.sent
  {
    match m.body
    case Raw(_, _) =>
      var copy: Buf :| copy !in s.buffers && copy !in s.owner && s' == RawStep(s, t, e, how, k, m, copy);
      fate, pc := Returned(Copied(m, copy)), Finish(e, how);
    case Sync(f, _) =>
      if s.flags[f] { fate, pc := Returned(m), Finish(e, how); } else { fate, pc := Dropped, Recv(RecvGet, e, how); }
    case Clone(_) => fate, pc := Returned(m), Finish(e, how);
  }

  /** No endpoint changes, and the log of sent contents at most grows. */
  ghost predicate NoEndpoint(s: State, s': State) {
    s'.eps == s.eps && s.sent <= s'.sent
  }

  lemma SendShape(c: Config, s: State, s': State, t: nat)
    requires t < |s.threads| && SendStep(c, s, s', t)
    ensures NoEndpoint(s, s')
  {
  }

  lemma NotifyShape(s: State, s': State, t: nat, m: Msg, e: nat, todo: seq<nat>)
    requires t < |s.threads| && NotifyStep(s, s', t, m, e, todo)
    ensures NoEndpoint(s, s')
  {
  }

  lemma DupShape(s: State, s': State, t: nat, e: nat, how: How, k: nat, m: Msg)
    requires t < |s.threads| && TakenStep(s, s', t, TakenDup, e, how, k, m)
    ensures NoEndpoint(s, s')
  {
  }

  /** The step of a thread in `give` or `recv`, before or after it has a message in its hands. */
  ghost predicate PlainStep(c: Config, s: State, s': State, t: nat)
    requires t < |s.threads|
  {
    var pc := s.threads[t].pc;
    && s'.sent == s.sent && (pc.Give? || pc.Recv? || pc.Taken?) && pc.e < |s.eps| == |c.eps|
    && (pc.Give? ==> Did(s, s', t, pc.e, Gave(c.eps[pc.e], s.eps[pc.e], t, pc.give, pc.m, pc.e, pc.todo)))
    && (pc.Recv? ==> exists expired: bool :: Did(s, s', t, pc.e, Received(s.eps[pc.e], t, pc.recv, pc.e, pc.how, expired)))
    && (pc.Taken? ==> Did(s, s', t, pc.e, Subtracted(s.eps[pc.e], pc.e, pc.how, pc.k, pc.m)))
  }

  /** The step that ends the way of the message with number `k`. */
  ghost predicate EndStep(s: State, s': State, t: nat)
    requires t < |s.threads|
  {
    var pc := s.threads[t].pc;
    && s'.sent == s.sent && pc.Taken? && pc.taken.TakenMatch? && pc.e < |s.eps|
    && MatchStep(s, s', t, pc.e, pc.how, pc.k, pc.m)
  }

  lemma StepShape(c: Config, s: State, s': State, t: nat)
    requires Step(c, s, s', t)
    ensures NoEndpoint(s, s') || PlainStep(c, s, s', t) || EndStep(s, s', t)
  {
    match s.threads[t].pc
    case Idle => if SendStep(c, s, s', t) { SendShape(c, s, s', t); }
    case Offer(_, _) =>
    case Give(give, m, e, todo) => if give.GiveNotify? { NotifyShape(s, s', t, m, e, todo); }
    case Recv(recv, e, how) =>
      var expired: bool :| s' == Do(s, t, e, Received(s.eps[e], t, recv, e, how, expired));
      assert Did(s, s', t, e, Received(s.eps[e], t, recv, e, how, expired));
    case Taken(taken, e, how, k, m) =>
      match taken {
        case TakenDup => DupShape(s, s', t, e, how, k, m);
        case TakenSub =>
        case TakenMatch => var fate, pc := MatchDid(s, s', t, e, how, k, m);
      }
  }
}
