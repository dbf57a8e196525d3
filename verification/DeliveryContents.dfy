/**
 What endpoints deliver: order and conservation of messages, one winner for every sync message, and raw messages
 that nobody else can touch.
 */
module DeliveryContents {
  import opened Base
  import opened Delivery
  import opened Routing

  // ----- one endpoint -----

  function Messages(removed: seq<Removed>): seq<Msg> {
    seq(|removed|, k requires 0 <= k < |removed| => removed[k].m)
  }

  /** The message that came out is the message that went in; a raw message comes out in a buffer of its own. */
  predicate SameMsg(m: Msg, out: Msg) {
    && out.header == m.header && out.cap == m.cap
    && if m.body.Raw? then out.body.Raw? && out.body.id == m.body.id else out.body == m.body
  }

  predicate FateOk(r: Removed) {
    match r.fate
    case Transit(_) => true
    case Returned(out) => SameMsg(r.m, out)
    case Dropped => r.m.body.Sync?
  }

  ghost predicate LogOk(ep: Ep) {
    && ep.puts == Messages(ep.removed) + ep.queue
    && (forall k :: 0 <= k < |ep.removed| ==> FateOk(ep.removed[k]))
  }

  /** Thread `t` at `pc` has its hands on a message of endpoint `e` exactly if the log says so. */
  ghost predicate CarrierOk(ep: Ep, t: nat, pc: Pc, e: nat) {
    && (pc.Taken? && pc.e == e ==>
          pc.k < |ep.removed| && ep.removed[pc.k].fate == Transit(t) && SameMsg(ep.removed[pc.k].m, pc.m))
    && (forall k :: 0 <= k < |ep.removed| && ep.removed[k].fate == Transit(t) ==> pc.Taken? && pc.e == e && pc.k == k)
  }

  /** Thread `t` may have taken further messages out; nothing else in the log changes. */
  ghost predicate Appends(ep: Ep, ep': Ep, t: nat) {
    && ep.removed <= ep'.removed
    && (forall k :: |ep.removed| <= k < |ep'.removed| ==> ep'.removed[k].fate == Transit(t))
  }

  lemma GaveLog(c: EpConfig, ep: Ep, t: nat, give: GivePoint, m: Msg, e: nat, todo: seq<nat>)
    requires LogOk(ep) && CarrierOk(ep, t, Give(give, m, e, todo), e)
    ensures var r := Gave(c, ep, t, give, m, e, todo);
      LogOk(r.0) && CarrierOk(r.0, t, r.1, e) && Appends(ep, r.0, t) && WorksAt(r.1, e)
  {
    var r := Gave(c, ep, t, give, m, e, todo);
    if give.GivePut? { assert r.0.puts == Messages(ep.removed) + (ep.queue + [m]); }
  }

  lemma ReceivedLog(ep: Ep, t: nat, recv: RecvPoint, e: nat, how: How, expired: bool)
    requires LogOk(ep) && CarrierOk(ep, t, Recv(recv, e, how), e)
    ensures var r := Received(ep, t, recv, e, how, expired);
      LogOk(r.0) && CarrierOk(r.0, t, r.1, e) && Appends(ep, r.0, t) && WorksAt(r.1, e)
  {
    if (recv.RecvGet? || recv.RecvGetWoken?) && ep.queue != [] { TakenLog(ep, t, e, how); }
  }

  lemma TakenLog(ep: Ep, t: nat, e: nat, how: How)
    requires LogOk(ep) && ep.queue != [] && forall k :: 0 <= k < |ep.removed| ==> ep.removed[k].fate != Transit(t)
    ensures var r := Gotten(ep, t, e, how); LogOk(r.0) && CarrierOk(r.0, t, r.1, e) && Appends(ep, r.0, t)
  {
    var r := Gotten(ep, t, e, how);
    assert ep.queue == [ep.queue[0]] + ep.queue[1..];
    assert Messages(r.0.removed) == Messages(ep.removed) + [ep.queue[0]];
  }

  lemma FatedLog(ep: Ep, t: nat, e: nat, how: How, k: nat, m: Msg, fate: Fate, pc: Pc)
    requires LogOk(ep) && CarrierOk(ep, t, Taken(TakenMatch, e, how, k, m), e) && k < |ep.removed|
    requires !fate.Transit? && FateOk(Removed(ep.removed[k].m, fate)) && !pc.Taken?
    ensures LogOk(Fated(ep, k, fate)) && CarrierOk(Fated(ep, k, fate), t, pc, e)
  {
    assert Messages(Fated(ep, k, fate).removed) == Messages(ep.removed);
  }

  // ----- messages, flags and buffers -----

  /** A message on its way: its flag exists, or its buffer is the system's own and holds what was sent. */
  ghost predicate MsgOk(s: State, m: Msg) {
    match m.body
    case Raw(b, id) =>
      && b in s.buffers && b in s.owner && s.owner[b] == System(id)
      && id < |s.sent| && s.buffers[b] == s.sent[id] && m.cap == |s.sent[id]|
    case Sync(f, _) => f in s.flags
    case Clone(_) => true
  }

  ghost predicate HandOk(s: State, pc: Pc) {
    pc.Offer? || pc.Give? || pc.Taken? ==> MsgOk(s, pc.m)
  }

  ghost predicate QueueOk(s: State, q: seq<Msg>) {
    forall i :: 0 <= i < |q| ==> MsgOk(s, q[i])
  }

  /** A returned message: a sync message has won its flag, a raw message is its receiver's. */
  ghost predicate ReturnOk(s: State, e: nat, k: nat, out: Msg) {
    match out.body
    case Raw(b, id) => b in s.owner && b in s.buffers && s.owner[b] == Receiver(e, k)
    case Sync(f, _) => f in s.winner && s.winner[f] == (e, k)
    case Clone(_) => true
  }

  ghost predicate SettledOk(s: State, e: nat, k: nat, r: Removed) {
    match r.fate
    case Transit(_) => true
    case Returned(out) => ReturnOk(s, e, k, out)
    case Dropped => r.m.body.Sync? ==> r.m.body.flag in s.winner
  }

  ghost predicate WonBy(s: State, f: Flag, e: nat, k: nat) {
    && e < |s.eps| && k < |s.eps[e].removed| && s.eps[e].removed[k].fate.Returned?
    && s.eps[e].removed[k].fate.out.body.Sync? && s.eps[e].removed[k].fate.out.body.flag == f
  }

  ghost predicate Logs(s: State) {
    forall e :: 0 <= e < |s.eps| ==> LogOk(s.eps[e])
  }

  ghost predicate Carriers(s: State) {
    && (forall t, e :: 0 <= t < |s.threads| && 0 <= e < |s.eps| ==> CarrierOk(s.eps[e], t, s.threads[t].pc, e))
    && (forall e :: 0 <= e < |s.eps| ==> InFlight(s.eps[e], |s.threads|))
  }

  ghost predicate InFlight(ep: Ep, n: nat) {
    forall k :: 0 <= k < |ep.removed| && ep.removed[k].fate.Transit? ==> ep.removed[k].fate.thread < n
  }

  ghost predicate Contents(s: State) {
    && (forall t :: 0 <= t < |s.threads| ==> HandOk(s, s.threads[t].pc))
    && (forall e :: 0 <= e < |s.eps| ==> QueueOk(s, s.eps[e].queue))
  }

  ghost predicate Settled(s: State) {
    forall e, k :: 0 <= e < |s.eps| && 0 <= k < |s.eps[e].removed| ==> SettledOk(s, e, k, s.eps[e].removed[k])
  }

  ghost predicate Flags(s: State) {
    && (forall f :: f in s.winner <==> f in s.flags && !s.flags[f])
    && (forall f :: f in s.winner ==> WonBy(s, f, s.winner[f].0, s.winner[f].1))
  }

  ghost predicate Inv(s: State) {
    Logs(s) && Carriers(s) && Contents(s) && Settled(s) && Flags(s)
  }

  lemma InitInv(c: Config, s: State)
    requires Init(c, s)
    ensures Inv(s)
  {
  }

  // ----- what a step leaves alone -----

  /** Buffers of the system keep their content, buffers of receivers their owner, and flags and sent contents stay known. */
  ghost predicate Respects(s: State, s': State) {
    && (forall b :: b in s.owner ==> b in s'.owner && s'.owner[b] == s.owner[b])
    && (forall b :: b in s.buffers ==> b in s'.buffers)
    && (forall b :: b in s.buffers && b in s.owner && s.owner[b].System? ==> s'.buffers[b] == s.buffers[b])
    && |s.sent| <= |s'.sent| && s'.sent[..|s.sent|] == s.sent
    && (forall f :: f in s.flags ==> f in s'.flags)
  }

  lemma MsgRespects(s: State, s': State, m: Msg)
    requires Respects(s, s') && MsgOk(s, m)
    ensures MsgOk(s', m)
  {
    if m.body.Raw? { assert s'.sent[m.body.id] == s.sent[m.body.id]; }
  }

  lemma ContentsHeld(s: State, s': State)
    requires Contents(s) && Respects(s, s')
    ensures forall t :: 0 <= t < |s.threads| ==> HandOk(s', s.threads[t].pc)
    ensures forall e :: 0 <= e < |s.eps| ==> QueueOk(s', s.eps[e].queue)
  {
    forall m | MsgOk(s, m) ensures MsgOk(s', m) { MsgRespects(s, s', m); }
    forall e | 0 <= e < |s.eps| ensures QueueOk(s', s.eps[e].queue) { assert QueueOk(s, s.eps[e].queue); }
  }

  /** Returned messages stay won and owned. */
  lemma SettledHeld(s: State, s': State, e: nat, k: nat, r: Removed)
    requires SettledOk(s, e, k, r) && Respects(s, s') && forall f :: f in s.winner ==> f in s'.winner && s'.winner[f] == s.winner[f]
    ensures SettledOk(s', e, k, r)
  {
  }

  ghost predicate SameStore(s: State, s': State) {
    s'.buffers == s.buffers && s'.owner == s.owner && s'.sent == s.sent && s'.flags == s.flags && s'.winner == s.winner
  }

  // ----- steps of a thread that may take messages out -----

  lemma AppendCarriers(s: State, s': State, t: nat, e: nat, r: (Ep, Pc))
    requires Carriers(s) && Did(s, s', t, e, r) && WorksAt(s.threads[t].pc, e) && WorksAt(r.1, e)
    requires Appends(s.eps[e], r.0, t) && CarrierOk(r.0, t, r.1, e)
    ensures Carriers(s')
  {
    forall u, x | 0 <= u < |s'.threads| && 0 <= x < |s'.eps| ensures CarrierOk(s'.eps[x], u, s'.threads[u].pc, x) {
      assert CarrierOk(s.eps[x], u, s.threads[u].pc, x);
    }
    forall x | 0 <= x < |s'.eps| ensures InFlight(s'.eps[x], |s'.threads|) {
      assert InFlight(s.eps[x], |s.threads|);
    }
  }

  lemma AppendContents(s: State, s': State, t: nat, e: nat, r: (Ep, Pc))
    requires Contents(s) && Did(s, s', t, e, r) && SameStore(s, s') && HandOk(s, r.1) && QueueOk(s, r.0.queue)
    ensures Contents(s')
  {
    ContentsHeld(s, s');
    assert forall m :: MsgOk(s, m) ==> MsgOk(s', m);
  }

  lemma AppendSettled(s: State, s': State, t: nat, e: nat, r: (Ep, Pc))
    requires Settled(s) && Did(s, s', t, e, r) && SameStore(s, s') && Appends(s.eps[e], r.0, t)
    ensures Settled(s')
  {
    forall x, k | 0 <= x < |s'.eps| && 0 <= k < |s'.eps[x].removed| ensures SettledOk(s', x, k, s'.eps[x].removed[k]) {
      if k < |s.eps[x].removed| { SettledHeld(s, s', x, k, s.eps[x].removed[k]); }
    }
  }

  lemma AppendFlags(s: State, s': State, t: nat, e: nat, r: (Ep, Pc))
    requires Flags(s) && Did(s, s', t, e, r) && SameStore(s, s') && Appends(s.eps[e], r.0, t)
    ensures Flags(s')
  {
    forall f | f in s'.winner ensures WonBy(s', f, s'.winner[f].0, s'.winner[f].1) {
      assert WonBy(s, f, s.winner[f].0, s.winner[f].1);
    }
  }

  lemma AppendKeeps(s: State, s': State, t: nat, e: nat, r: (Ep, Pc))
    requires Inv(s) && Did(s, s', t, e, r) && SameStore(s, s') && WorksAt(s.threads[t].pc, e) && WorksAt(r.1, e)
    requires LogOk(r.0) && Appends(s.eps[e], r.0, t) && CarrierOk(r.0, t, r.1, e)
    requires HandOk(s, r.1) && QueueOk(s, r.0.queue)
    ensures Inv(s')
  {
    AppendCarriers(s, s', t, e, r);
    AppendContents(s, s', t, e, r);
    AppendSettled(s, s', t, e, r);
    AppendFlags(s, s', t, e, r);
  }

  lemma GaveKeeps(c: Config, s: State, s': State, t: nat, give: GivePoint, m: Msg, e: nat, todo: seq<nat>)
    requires Inv(s) && t < |s.threads| && s.threads[t].pc == Give(give, m, e, todo) && e < |s.eps| == |c.eps|
    requires Did(s, s', t, e, Gave(c.eps[e], s.eps[e], t, give, m, e, todo)) && SameStore(s, s')
    ensures Inv(s')
  {
    assert CarrierOk(s.eps[e], t, s.threads[t].pc, e);
    assert HandOk(s, s.threads[t].pc);
    GaveLog(c.eps[e], s.eps[e], t, give, m, e, todo);
    AppendKeeps(s, s', t, e, Gave(c.eps[e], s.eps[e], t, give, m, e, todo));
  }

  lemma ReceivedKeeps(s: State, s': State, t: nat, recv: RecvPoint, e: nat, how: How, expired: bool)
    requires Inv(s) && t < |s.threads| && s.threads[t].pc == Recv(recv, e, how) && e < |s.eps|
    requires Did(s, s', t, e, Received(s.eps[e], t, recv, e, how, expired)) && SameStore(s, s')
    ensures Inv(s')
  {
    assert CarrierOk(s.eps[e], t, s.threads[t].pc, e);
    assert QueueOk(s, s.eps[e].queue);
    ReceivedLog(s.eps[e], t, recv, e, how, expired);
    AppendKeeps(s, s', t, e, Received(s.eps[e], t, recv, e, how, expired));
  }

  lemma SubtractedKeeps(s: State, s': State, t: nat, e: nat, how: How, k: nat, m: Msg)
    requires Inv(s) && t < |s.threads| && s.threads[t].pc == Taken(TakenSub, e, how, k, m) && e < |s.eps|
    requires Did(s, s', t, e, Subtracted(s.eps[e], e, how, k, m)) && SameStore(s, s')
    ensures Inv(s')
  {
    assert CarrierOk(s.eps[e], t, s.threads[t].pc, e);
    assert HandOk(s, s.threads[t].pc);
    AppendKeeps(s, s', t, e, Subtracted(s.eps[e], e, how, k, m));
  }

  // ----- steps that change no endpoint -----

  ghost predicate Stayed(s: State, s': State, t: nat, pc: Pc) {
    && t < |s.threads| && s'.threads == s.threads[t := s.threads[t].(pc := pc)] && s'.eps == s.eps
    && Respects(s, s') && s'.winner == s.winner
  }

  lemma StayKeeps(s: State, s': State, t: nat, pc: Pc)
    requires Inv(s) && Stayed(s, s', t, pc) && HandOk(s', pc)
    requires forall e :: 0 <= e < |s.eps| ==> CarrierOk(s.eps[e], t, pc, e)
    requires forall f :: f in s'.flags ==> if f in s.flags then s'.flags[f] == s.flags[f] else s'.flags[f]
    ensures Inv(s')
  {
    ContentsHeld(s, s');
    StayCarriers(s, s', t, pc);
    StaySettled(s, s', t, pc);
    StayFlags(s, s', t, pc);
  }

  lemma StayCarriers(s: State, s': State, t: nat, pc: Pc)
    requires Carriers(s) && Stayed(s, s', t, pc) && forall e :: 0 <= e < |s.eps| ==> CarrierOk(s.eps[e], t, pc, e)
    ensures Carriers(s')
  {
    forall u, x | 0 <= u < |s'.threads| && 0 <= x < |s'.eps| ensures CarrierOk(s'.eps[x], u, s'.threads[u].pc, x) {
      assert CarrierOk(s.eps[x], u, s.threads[u].pc, x);
    }
  }

  lemma StaySettled(s: State, s': State, t: nat, pc: Pc)
    requires Settled(s) && Stayed(s, s', t, pc)
    ensures Settled(s')
  {
    forall e, k | 0 <= e < |s'.eps| && 0 <= k < |s'.eps[e].removed| ensures SettledOk(s', e, k, s'.eps[e].removed[k]) {
      SettledHeld(s, s', e, k, s.eps[e].removed[k]);
    }
  }

  lemma StayFlags(s: State, s': State, t: nat, pc: Pc)
    requires Flags(s) && Stayed(s, s', t, pc)
    requires forall f :: f in s'.flags ==> if f in s.flags then s'.flags[f] == s.flags[f] else s'.flags[f]
    ensures Flags(s')
  {
    forall f | f in s'.winner ensures WonBy(s', f, s'.winner[f].0, s'.winner[f].1) {
      assert WonBy(s, f, s.winner[f].0, s.winner[f].1);
    }
  }

  /** A thread that leaves nothing behind at any endpoint may take up any message. */
  lemma FreshCarrier(s: State, t: nat, pc: Pc)
    requires Carriers(s) && t < |s.threads| && !s.threads[t].pc.Taken? && !pc.Taken?
    ensures forall e :: 0 <= e < |s.eps| ==> CarrierOk(s.eps[e], t, pc, e)
  {
    forall e | 0 <= e < |s.eps| ensures CarrierOk(s.eps[e], t, pc, e) {
      assert CarrierOk(s.eps[e], t, s.threads[t].pc, e);
    }
  }

  lemma SendRawKeeps(s: State, t: nat, h: Header, b: Buf, copy: Buf, todo: seq<nat>)
    requires Inv(s) && t < |s.threads| && s.threads[t].pc.Idle? && b in s.buffers && copy !in s.buffers && copy !in s.owner
    ensures Inv(SendRawStep(s, t, h, b, copy, todo))
  {
    var pc := Offer(Msg(h, |s.buffers[b]|, Raw(copy, |s.sent|)), todo);
    FreshCarrier(s, t, pc);
    StayKeeps(s, SendRawStep(s, t, h, b, copy, todo), t, pc);
  }

  lemma SendSyncKeeps(s: State, t: nat, h: Header, cap: nat, f: Flag, v: Payload, todo: seq<nat>)
    requires Inv(s) && t < |s.threads| && s.threads[t].pc.Idle? && f !in s.flags
    ensures Inv(SendSyncStep(s, t, h, cap, f, v, todo))
  {
    var pc := Offer(Msg(h, cap, Sync(f, v)), todo);
    FreshCarrier(s, t, pc);
    StayKeeps(s, SendSyncStep(s, t, h, cap, f, v, todo), t, pc);
  }

  lemma AwayKeeps(s: State, t: nat, pc: Pc)
    requires Inv(s) && t < |s.threads| && !s.threads[t].pc.Taken? && !pc.Taken? && HandOk(s, pc)
    ensures Inv(At(s, t, pc))
  {
    FreshCarrier(s, t, pc);
    StayKeeps(s, At(s, t, pc), t, pc);
  }

  lemma OfferKeeps(c: Config, s: State, t: nat, m: Msg, todo: seq<nat>)
    requires Inv(s) && t < |s.threads| && s.threads[t].pc == Offer(m, todo) && |s.eps| == |c.eps|
    ensures Inv(OfferStep(c, s, t, m, todo))
  {
    assert HandOk(s, s.threads[t].pc);
    AwayKeeps(s, t, Idle);
    if todo != [] {
      AwayKeeps(s, t, Offer(m, todo[1..]));
      AwayKeeps(s, t, Give(CheckLen, m, todo[0], todo[1..]));
    }
  }

  lemma DupKeeps(s: State, t: nat, e: nat, how: How, k: nat, m: Msg, copy: Buf)
    requires Inv(s) && t < |s.threads| && s.threads[t].pc == Taken(TakenDup, e, how, k, m) && e < |s.eps|
    requires (m.body.Raw? ==> m.body.buf in s.buffers) && copy !in s.buffers && copy !in s.owner
    ensures Inv(DupStep(s, t, e, how, k, m, copy))
  {
    var s' := DupStep(s, t, e, how, k, m, copy);
    var pc := Taken(TakenSub, e, how, k, if m.body.Raw? then Copied(m, copy) else m);
    assert HandOk(s, s.threads[t].pc);
    forall x | 0 <= x < |s.eps| ensures CarrierOk(s.eps[x], t, pc, x) {
      assert CarrierOk(s.eps[x], t, s.threads[t].pc, x);
    }
    StayKeeps(s, s', t, pc);
  }

  lemma NotifyKeeps(s: State, s': State, t: nat, m: Msg, e: nat, todo: seq<nat>)
    requires Inv(s) && t < |s.threads| && s.threads[t].pc == Give(GiveNotify, m, e, todo) && NotifyStep(s, s', t, m, e, todo)
    ensures Inv(s')
  {
    assert HandOk(s, s.threads[t].pc);
    if u: nat :| SleepsAt(s, u, e) && s' == At(At(s, u, Recv(Woken, e, s.threads[u].pc.how)), t, Offer(m, todo)) {
      AwayKeeps(s, u, Recv(Woken, e, s.threads[u].pc.how));
      AwayKeeps(At(s, u, Recv(Woken, e, s.threads[u].pc.how)), t, Offer(m, todo));
    } else {
      AwayKeeps(s, t, Offer(m, todo));
    }
  }

  lemma StoreKeeps(s: State, s': State)
    requires Inv(s) && Respects(s, s') && s'.threads == s.threads && s'.eps == s.eps
    requires s'.flags == s.flags && s'.winner == s.winner
    ensures Inv(s')
  {
    ContentsHeld(s, s');
    forall e, k | 0 <= e < |s'.eps| && 0 <= k < |s'.eps[e].removed| ensures SettledOk(s', e, k, s'.eps[e].removed[k]) {
      SettledHeld(s, s', e, k, s.eps[e].removed[k]);
    }
    forall f | f in s'.winner ensures WonBy(s', f, s'.winner[f].0, s'.winner[f].1) {
      assert WonBy(s, f, s.winner[f].0, s.winner[f].1);
    }
  }

  /** Whatever users do to their own buffers. */
  lemma UserKeeps(s: State, s': State)
    requires Inv(s) && UserStep(s, s')
    ensures Inv(s')
  {
    if b: Buf, bytes: Bytes :| b !in s.buffers && b !in s.owner && s' == Allocate(s, b, bytes) {
      AllocateKeeps(s, b, bytes);
    } else {
      var b: Buf, bytes: Bytes :| OfUser(s, b) && |bytes| == |s.buffers[b]| && s' == Write(s, b, bytes);
      WriteKeeps(s, b, bytes);
    }
  }

  lemma AllocateKeeps(s: State, b: Buf, bytes: Bytes)
    requires Inv(s) && b !in s.buffers && b !in s.owner
    ensures Inv(Allocate(s, b, bytes))
  {
    StoreKeeps(s, Allocate(s, b, bytes));
  }

  lemma WriteKeeps(s: State, b: Buf, bytes: Bytes)
    requires Inv(s) && OfUser(s, b)
    ensures Inv(Write(s, b, bytes))
  {
    StoreKeeps(s, Write(s, b, bytes));
  }

  // ----- the end of a receive -----

  lemma FatedCarriers(s: State, s': State, t: nat, e: nat, how: How, k: nat, m: Msg, fate: Fate, pc: Pc)
    requires Carriers(s) && t < |s.threads| && s.threads[t].pc == Taken(TakenMatch, e, how, k, m) && e < |s.eps|
    requires k < |s.eps[e].removed| && Did(s, s', t, e, (Fated(s.eps[e], k, fate), pc))
    requires !fate.Transit? && !pc.Taken? && CarrierOk(Fated(s.eps[e], k, fate), t, pc, e)
    ensures Carriers(s')
  {
    assert CarrierOk(s.eps[e], t, s.threads[t].pc, e);
    forall u, x | 0 <= u < |s'.threads| && 0 <= x < |s'.eps| ensures CarrierOk(s'.eps[x], u, s'.threads[u].pc, x) {
      assert CarrierOk(s.eps[x], u, s.threads[u].pc, x);
    }
    forall x | 0 <= x < |s'.eps| ensures InFlight(s'.eps[x], |s'.threads|) {
      assert InFlight(s.eps[x], |s.threads|);
    }
  }

  lemma FatedSettled(s: State, s': State, t: nat, e: nat, k: nat, fate: Fate, pc: Pc)
    requires Settled(s) && e < |s.eps| && k < |s.eps[e].removed| && Did(s, s', t, e, (Fated(s.eps[e], k, fate), pc))
    requires Respects(s, s') && forall f :: f in s.winner ==> f in s'.winner && s'.winner[f] == s.winner[f]
    requires SettledOk(s', e, k, s'.eps[e].removed[k])
    ensures Settled(s')
  {
    forall x, i | 0 <= x < |s'.eps| && 0 <= i < |s'.eps[x].removed| ensures SettledOk(s', x, i, s'.eps[x].removed[i]) {
      if x != e || i != k { SettledHeld(s, s', x, i, s.eps[x].removed[i]); }
    }
  }

  /** The flags change only when a sync message wins its own. */
  ghost predicate Wins(s: State, s': State, e: nat, k: nat, fate: Fate) {
    || (s'.winner == s.winner && s'.flags == s.flags)
    || (&& fate.Returned? && fate.out.body.Sync? && fate.out.body.flag in s.flags && fate.out.body.flag !in s.winner
        && s'.winner == s.winner[fate.out.body.flag := (e, k)] && s'.flags == s.flags[fate.out.body.flag := false])
  }

  /** The flags after the message at `k` has met its fate. */
  lemma FatedFlags(s: State, s': State, t: nat, e: nat, k: nat, fate: Fate, pc: Pc)
    requires Flags(s) && e < |s.eps| && k < |s.eps[e].removed| && Did(s, s', t, e, (Fated(s.eps[e], k, fate), pc))
    requires !s.eps[e].removed[k].fate.Returned?
    requires Wins(s, s', e, k, fate)
    ensures Flags(s')
  {
    forall f | f in s'.winner ensures WonBy(s', f, s'.winner[f].0, s'.winner[f].1) {
      if f in s.winner { assert WonBy(s, f, s.winner[f].0, s.winner[f].1); }
    }
  }

  lemma FatedLogs(s: State, s': State, t: nat, e: nat, how: How, k: nat, m: Msg, fate: Fate, pc: Pc)
    requires Logs(s) && Carriers(s) && t < |s.threads| && s.threads[t].pc == Taken(TakenMatch, e, how, k, m) && e < |s.eps|
    requires k < |s.eps[e].removed| && Did(s, s', t, e, (Fated(s.eps[e], k, fate), pc))
    requires !fate.Transit? && (pc.Idle? || pc.Recv?)
    requires fate.Returned? ==> SameMsg(m, fate.out)
    requires fate.Dropped? ==> m.body.Sync?
    ensures Logs(s') && CarrierOk(Fated(s.eps[e], k, fate), t, pc, e) && s.eps[e].removed[k].fate.Transit?
  {
    assert CarrierOk(s.eps[e], t, s.threads[t].pc, e);
    FatedLog(s.eps[e], t, e, how, k, m, fate, pc);
  }

  lemma FatedContents(s: State, s': State, t: nat, e: nat, k: nat, fate: Fate, pc: Pc)
    requires Contents(s) && Respects(s, s') && e < |s.eps| && k < |s.eps[e].removed|
    requires Did(s, s', t, e, (Fated(s.eps[e], k, fate), pc)) && (pc.Idle? || pc.Recv?)
    ensures Contents(s')
  {
    ContentsHeld(s, s');
  }

  lemma FatedKeeps(s: State, s': State, t: nat, e: nat, how: How, k: nat, m: Msg, fate: Fate, pc: Pc)
    requires Inv(s) && t < |s.threads| && s.threads[t].pc == Taken(TakenMatch, e, how, k, m) && e < |s.eps|
    requires k < |s.eps[e].removed| && Did(s, s', t, e, (Fated(s.eps[e], k, fate), pc))
    requires !fate.Transit? && (pc.Idle? || pc.Recv?) && Respects(s, s')
    requires fate.Returned? ==> SameMsg(m, fate.out)
    requires fate.Dropped? ==> m.body.Sync?
    requires SettledOk(s', e, k, s'.eps[e].removed[k])
    requires Wins(s, s', e, k, fate)
    ensures Inv(s')
  {
    FatedLogs(s, s', t, e, how, k, m, fate, pc);
    FatedCarriers(s, s', t, e, how, k, m, fate, pc);
    FatedContents(s, s', t, e, k, fate, pc);
    FatedSettled(s, s', t, e, k, fate, pc);
    FatedFlags(s, s', t, e, k, fate, pc);
  }

  lemma RawKeeps(s: State, t: nat, e: nat, how: How, k: nat, m: Msg, copy: Buf)
    requires Inv(s) && t < |s.threads| && s.threads[t].pc == Taken(TakenMatch, e, how, k, m) && e < |s.eps|
    requires k < |s.eps[e].removed| && m.body.Raw? && m.body.buf in s.buffers && copy !in s.buffers && copy !in s.owner
    ensures Inv(RawStep(s, t, e, how, k, m, copy))
  {
    FatedKeeps(s, RawStep(s, t, e, how, k, m, copy), t, e, how, k, m, Returned(Copied(m, copy)), Finish(e, how));
  }

  lemma SyncKeeps(s: State, t: nat, e: nat, how: How, k: nat, m: Msg)
    requires Inv(s) && t < |s.threads| && s.threads[t].pc == Taken(TakenMatch, e, how, k, m) && e < |s.eps|
    requires k < |s.eps[e].removed| && m.body.Sync? && m.body.flag in s.flags
    ensures Inv(SyncStep(s, t, e, how, k, m))
  {
    assert CarrierOk(s.eps[e], t, s.threads[t].pc, e);
    var s' := SyncStep(s, t, e, how, k, m);
    if s.flags[m.body.flag] {
      FatedKeeps(s, s', t, e, how, k, m, Returned(m), Finish(e, how));
    } else {
      FatedKeeps(s, s', t, e, how, k, m, Dropped, Recv(RecvGet, e, how));
    }
  }

  lemma CloneKeeps(s: State, s': State, t: nat, e: nat, how: How, k: nat, m: Msg)
    requires Inv(s) && t < |s.threads| && s.threads[t].pc == Taken(TakenMatch, e, how, k, m) && e < |s.eps|
    requires k < |s.eps[e].removed| && m.body.Clone? && s' == Do(s, t, e, (Fated(s.eps[e], k, Returned(m)), Finish(e, how)))
    ensures Inv(s')
  {
    FatedKeeps(s, s', t, e, how, k, m, Returned(m), Finish(e, how));
  }

  // ----- every step, every run -----

  lemma SendKeeps(c: Config, s: State, s': State, t: nat)
    requires Inv(s) && t < |s.threads| && s.threads[t].pc.Idle? && SendStep(c, s, s', t)
    ensures Inv(s')
  {
    if h: Header, b: Buf, copy: Buf, todo: seq<nat> :|
      OfUser(s, b) && copy !in s.buffers && copy !in s.owner && s' == SendRawStep(s, t, h, b, copy, todo)
    {
      SendRawKeeps(s, t, h, b, copy, todo);
    } else if h: Header, cap: nat, f: Flag, v: Payload, todo: seq<nat> :|
      f !in s.flags && s' == SendSyncStep(s, t, h, cap, f, v, todo)
    {
      SendSyncKeeps(s, t, h, cap, f, v, todo);
    } else if h: Header, cap: nat, f: Flag, v: Payload, todo: seq<nat> :|
      Spent(s, f) && s' == At(s, t, Offer(Msg(h, cap, Sync(f, v)), todo))
    {
      AwayKeeps(s, t, Offer(Msg(h, cap, Sync(f, v)), todo));
    } else {
      var h: Header, cap: nat, v: Payload, todo: seq<nat> :| s' == At(s, t, Offer(Msg(h, cap, Clone(v)), todo));
      AwayKeeps(s, t, Offer(Msg(h, cap, Clone(v)), todo));
    }
  }

  lemma CallKeeps(s: State, s': State, t: nat)
    requires Inv(s) && t < |s.threads| && s.threads[t].pc.Idle? && CallStep(s, s', t)
    ensures Inv(s')
  {
    var pc: Pc :| pc.Recv? && s' == At(s, t, pc);
    AwayKeeps(s, t, pc);
  }

  lemma MatchKeeps(s: State, s': State, t: nat, e: nat, how: How, k: nat, m: Msg)
    requires Inv(s) && t < |s.threads| && s.threads[t].pc == Taken(TakenMatch, e, how, k, m) && e < |s.eps|
    requires MatchStep(s, s', t, e, how, k, m)
    ensures Inv(s')
  {
    match m.body
    case Raw(_, _) =>
      var copy: Buf :| copy !in s.buffers && copy !in s.owner && s' == RawStep(s, t, e, how, k, m, copy);
      RawKeeps(s, t, e, how, k, m, copy);
    case Sync(_, _) => SyncKeeps(s, t, e, how, k, m);
    case Clone(_) => CloneKeeps(s, s', t, e, how, k, m);
  }

  lemma TakenKeeps(s: State, s': State, t: nat, taken: TakenPoint, e: nat, how: How, k: nat, m: Msg)
    requires Inv(s) && t < |s.threads| && s.threads[t].pc == Taken(taken, e, how, k, m)
    requires TakenStep(s, s', t, taken, e, how, k, m)
    ensures Inv(s')
  {
    match taken
    case TakenDup =>
      var copy: Buf :| copy !in s.buffers && copy !in s.owner && s' == DupStep(s, t, e, how, k, m, copy);
      DupKeeps(s, t, e, how, k, m, copy);
    case TakenSub => SubtractedKeeps(s, s', t, e, how, k, m);
    case TakenMatch => MatchKeeps(s, s', t, e, how, k, m);
  }

  lemma StepKeeps(c: Config, s: State, s': State, t: nat)
    requires Inv(s) && Step(c, s, s', t)
    ensures Inv(s')
  {
    match s.threads[t].pc
    case Idle => if SendStep(c, s, s', t) { SendKeeps(c, s, s', t); } else { CallKeeps(s, s', t); }
    case Offer(m, todo) => OfferKeeps(c, s, t, m, todo);
    case Give(give, m, e, todo) =>
      if give.GiveNotify? { NotifyKeeps(s, s', t, m, e, todo); } else { GaveKeeps(c, s, s', t, give, m, e, todo); }
    case Recv(recv, e, how) =>
      var expired: bool :| s' == Do(s, t, e, Received(s.eps[e], t, recv, e, how, expired));
      ReceivedKeeps(s, s', t, recv, e, how, expired);
    case Taken(taken, e, how, k, m) => TakenKeeps(s, s', t, taken, e, how, k, m);
  }

  lemma StepSizes(c: Config, s: State, s': State, t: nat)
    requires Step(c, s, s', t)
    ensures |s'.eps| == |s.eps| && s.sent <= s'.sent
  {
    StepShape(c, s, s', t);
    if EndStep(s, s', t) {
      var pc := s.threads[t].pc;
      var fate, pc' := MatchDid(s, s', t, pc.e, pc.how, pc.k, pc.m);
    }
  }

  lemma NextKeeps(c: Config, s: State, s': State)
    requires Inv(s) && |s.eps| == |c.eps| && Next(c, s, s')
    ensures Inv(s') && |s'.eps| == |c.eps|
  {
    if UserStep(s, s') {
      UserKeeps(s, s');
    } else {
      var t: nat :| Step(c, s, s', t);
      StepKeeps(c, s, s', t);
      StepSizes(c, s, s', t);
    }
  }

  lemma {:induction false} RunKeeps(c: Config, run: seq<State>, i: nat)
    requires Run(c, run) && i < |run|
    ensures Inv(run[i]) && |run[i].eps| == |c.eps|
  {
    if i == 0 {
      InitInv(c, run[0]);
    } else {
      RunKeeps(c, run, i - 1);
      assert Advances(c, run, i - 1);
      NextKeeps(c, run[i - 1], run[i]);
    }
  }
}
