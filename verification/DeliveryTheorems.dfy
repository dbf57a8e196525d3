/** What every run of the delivery machine promises about the messages it delivers. */
module DeliveryTheorems {
  import opened Base
  import opened Routing
  import opened Delivery
  import opened DeliveryContents

  // ----- order and conservation -----

  ghost predicate InHand(s: State, t: nat, e: nat, k: nat, m: Msg) {
    t < |s.threads| && s.threads[t].pc.Taken? && s.threads[t].pc.e == e && s.threads[t].pc.k == k && SameMsg(m, s.threads[t].pc.m)
  }

  /**
   What was put into an endpoint is what was taken out followed by what is still queued, in order. A message taken out
   is in the hands of one receive, or was returned as it was put, or was thrown away, and then it was a sync message.
   */
  lemma InOrder(c: Config, run: seq<State>, i: nat, e: nat)
    requires Run(c, run) && i < |run| && e < |c.eps|
    ensures |run[i].eps| == |c.eps|
    ensures var ep := run[i].eps[e];
      && ep.puts == Messages(ep.removed) + ep.queue
      && (forall k :: 0 <= k < |ep.removed| ==> FateOk(ep.removed[k]))
      && (forall k :: 0 <= k < |ep.removed| && ep.removed[k].fate.Transit? ==>
            InHand(run[i], ep.removed[k].fate.thread, e, k, ep.removed[k].m))
  {
    RunKeeps(c, run, i);
    var s, ep := run[i], run[i].eps[e];
    assert LogOk(ep);
    forall k | 0 <= k < |ep.removed| && ep.removed[k].fate.Transit?
      ensures InHand(s, ep.removed[k].fate.thread, e, k, ep.removed[k].m)
    {
      assert InFlight(ep, |s.threads|);
      var t := ep.removed[k].fate.thread;
      assert CarrierOk(ep, t, s.threads[t].pc, e);
    }
  }

  /** The log only grows, and the fate of a message that was returned or thrown away is final. */
  ghost predicate Evolves(ep: Ep, ep': Ep) {
    && ep.puts <= ep'.puts && |ep.removed| <= |ep'.removed|
    && (forall k :: 0 <= k < |ep.removed| ==>
          ep'.removed[k].m == ep.removed[k].m && (!ep.removed[k].fate.Transit? ==> ep'.removed[k].fate == ep.removed[k].fate))
  }

  lemma GaveEvolves(c: EpConfig, ep: Ep, t: nat, give: GivePoint, m: Msg, e: nat, todo: seq<nat>)
    ensures Evolves(ep, Gave(c, ep, t, give, m, e, todo).0)
  {
  }

  lemma FatedEvolves(ep: Ep, k: nat, fate: Fate)
    requires k < |ep.removed| && ep.removed[k].fate.Transit?
    ensures Evolves(ep, Fated(ep, k, fate))
  {
  }

  lemma DidEvolves(s: State, s': State, t: nat, x: nat, r: (Ep, Pc), e: nat)
    requires Did(s, s', t, x, r) && Evolves(s.eps[x], r.0) && e < |s.eps|
    ensures |s'.eps| == |s.eps| && Evolves(s.eps[e], s'.eps[e])
  {
  }

  lemma PlainEvolves(c: Config, s: State, s': State, t: nat, e: nat)
    requires t < |s.threads| && PlainStep(c, s, s', t) && e < |s.eps|
    ensures |s'.eps| == |s.eps| && Evolves(s.eps[e], s'.eps[e])
  {
    var pc := s.threads[t].pc;
    if pc.Give? {
      GaveEvolves(c.eps[pc.e], s.eps[pc.e], t, pc.give, pc.m, pc.e, pc.todo);
      DidEvolves(s, s', t, pc.e, Gave(c.eps[pc.e], s.eps[pc.e], t, pc.give, pc.m, pc.e, pc.todo), e);
    } else if pc.Recv? {
      var expired: bool :| Did(s, s', t, pc.e, Received(s.eps[pc.e], t, pc.recv, pc.e, pc.how, expired));
      DidEvolves(s, s', t, pc.e, Received(s.eps[pc.e], t, pc.recv, pc.e, pc.how, expired), e);
    } else {
      DidEvolves(s, s', t, pc.e, Subtracted(s.eps[pc.e], pc.e, pc.how, pc.k, pc.m), e);
    }
  }

  lemma StepEvolves(c: Config, s: State, s': State, t: nat, e: nat)
    requires Inv(s) && Step(c, s, s', t) && e < |s.eps| == |s'.eps|
    ensures Evolves(s.eps[e], s'.eps[e])
  {
    StepShape(c, s, s', t);
    if PlainStep(c, s, s', t) {
      PlainEvolves(c, s, s', t, e);
    } else if EndStep(s, s', t) {
      var pc := s.threads[t].pc;
      var fate, pc' := MatchDid(s, s', t, pc.e, pc.how, pc.k, pc.m);
      assert CarrierOk(s.eps[pc.e], t, pc, pc.e);
      FatedEvolves(s.eps[pc.e], pc.k, fate);
      DidEvolves(s, s', t, pc.e, (Fated(s.eps[pc.e], pc.k, fate), pc'), e);
    }
  }

  lemma NextEvolves(c: Config, s: State, s': State, e: nat)
    requires Inv(s) && Next(c, s, s') && e < |s.eps| == |s'.eps|
    ensures Evolves(s.eps[e], s'.eps[e])
  {
    if !UserStep(s, s') {
      var t: nat :| Step(c, s, s', t);
      StepEvolves(c, s, s', t, e);
    }
  }

  lemma EvolvesOn(ep: Ep, ep1: Ep, ep2: Ep)
    requires Evolves(ep, ep1) && Evolves(ep1, ep2)
    ensures Evolves(ep, ep2)
  {
    forall k | 0 <= k < |ep.removed|
      ensures ep2.removed[k].m == ep.removed[k].m && (!ep.removed[k].fate.Transit? ==> ep2.removed[k].fate == ep.removed[k].fate)
    {
      assert ep1.removed[k].m == ep.removed[k].m;
    }
  }

  ghost predicate SentGrows(s: State, s': State) {
    s.sent <= s'.sent
  }

  lemma NextSent(c: Config, s: State, s': State)
    requires Next(c, s, s')
    ensures SentGrows(s, s')
  {
    if !UserStep(s, s') {
      var t: nat :| Step(c, s, s', t);
      StepSizes(c, s, s', t);
    }
  }

  lemma RunEvolves(c: Config, run: seq<State>, j: nat, e: nat)
    requires Run(c, run) && 0 < j < |run| && e < |c.eps|
    ensures |run[j - 1].eps| == |run[j].eps| == |c.eps| && Evolves(run[j - 1].eps[e], run[j].eps[e])
    ensures SentGrows(run[j - 1], run[j])
  {
    RunKeeps(c, run, j - 1);
    RunKeeps(c, run, j);
    assert Advances(c, run, j - 1);
    NextEvolves(c, run[j - 1], run[j], e);
    NextSent(c, run[j - 1], run[j]);
  }

  lemma {:induction false} FatesAreFinal(c: Config, run: seq<State>, i: nat, j: nat, e: nat)
    requires Run(c, run) && i <= j < |run| && e < |c.eps|
    ensures |run[i].eps| == |run[j].eps| == |c.eps| && Evolves(run[i].eps[e], run[j].eps[e])
  {
    if i < j {
      FatesAreFinal(c, run, i, j - 1, e);
      RunEvolves(c, run, j, e);
      EvolvesOn(run[i].eps[e], run[j - 1].eps[e], run[j].eps[e]);
    } else {
      RunKeeps(c, run, i);
    }
  }

  // ----- sync messages -----

  /** Two receives never return the same sync message. */
  lemma AtMostOneReceives(c: Config, run: seq<State>, i: nat, f: Flag, e: nat, k: nat, e': nat, k': nat)
    requires Run(c, run) && i < |run| && WonBy(run[i], f, e, k) && WonBy(run[i], f, e', k')
    ensures e == e' && k == k'
  {
    RunKeeps(c, run, i);
    assert SettledOk(run[i], e, k, run[i].eps[e].removed[k]) && SettledOk(run[i], e', k', run[i].eps[e'].removed[k']);
  }

  ghost predicate Won(s: State, f: Flag) {
    exists e: nat, k: nat :: WonBy(s, f, e, k)
  }

  /** The flag of a sync message is false exactly when a receive has returned the message. */
  lemma FlagTellsWinner(c: Config, run: seq<State>, i: nat, f: Flag)
    requires Run(c, run) && i < |run| && f in run[i].flags
    ensures !run[i].flags[f] <==> Won(run[i], f)
  {
    RunKeeps(c, run, i);
    var s := run[i];
    if !s.flags[f] { assert WonBy(s, f, s.winner[f].0, s.winner[f].1); }
    forall e: nat, k: nat | WonBy(s, f, e, k) ensures !s.flags[f] {
      assert SettledOk(s, e, k, s.eps[e].removed[k]);
    }
  }

  /** A receive throws a message away only if it is a sync message that a receive has returned. */
  lemma DroppedWasWon(c: Config, run: seq<State>, i: nat, e: nat, k: nat)
    requires Run(c, run) && i < |run| && e < |run[i].eps| && k < |run[i].eps[e].removed| && run[i].eps[e].removed[k].fate.Dropped?
    ensures run[i].eps[e].removed[k].m.body.Sync? && Won(run[i], run[i].eps[e].removed[k].m.body.flag)
  {
    RunKeeps(c, run, i);
    var s, r := run[i], run[i].eps[e].removed[k];
    assert LogOk(s.eps[e]) && FateOk(r) && SettledOk(s, e, k, r);
    var f := r.m.body.flag;
    assert WonBy(s, f, s.winner[f].0, s.winner[f].1);
  }

  predicate IsFor(m: Msg, f: Flag) {
    m.body.Sync? && m.body.flag == f
  }

  /** No copy of the message is queued or in the hands of a receive any more. */
  ghost predicate Drained(s: State, f: Flag) {
    forall e :: 0 <= e < |s.eps| ==> EpDrained(s.eps[e], f)
  }

  ghost predicate EpDrained(ep: Ep, f: Flag) {
    && (forall q :: 0 <= q < |ep.queue| ==> !IsFor(ep.queue[q], f))
    && (forall k :: 0 <= k < |ep.removed| && ep.removed[k].fate.Transit? ==> !IsFor(ep.removed[k].m, f))
  }

  lemma PutIsSomewhere(ep: Ep, j: nat)
    requires LogOk(ep) && j < |ep.puts|
    ensures if j < |ep.removed| then ep.puts[j] == ep.removed[j].m
            else j - |ep.removed| < |ep.queue| && ep.puts[j] == ep.queue[j - |ep.removed|]
  {
  }

  /** A sync message that some endpoint accepted is returned by some receive once all copies are used up. */
  lemma ExactlyOneReceives(c: Config, run: seq<State>, i: nat, f: Flag, e: nat, j: nat)
    requires Run(c, run) && i < |run| && e < |c.eps| == |run[i].eps| && Drained(run[i], f)
    requires j < |run[i].eps[e].puts| && IsFor(run[i].eps[e].puts[j], f)
    ensures Won(run[i], f)
  {
    RunKeeps(c, run, i);
    var s, ep := run[i], run[i].eps[e];
    assert LogOk(ep) && EpDrained(ep, f);
    PutIsSomewhere(ep, j);
    if j < |ep.removed| {
      assert SettledOk(s, e, j, ep.removed[j]) && FateOk(ep.removed[j]);
      if ep.removed[j].fate.Dropped? {
        assert WonBy(s, f, s.winner[f].0, s.winner[f].1);
      } else {
        assert WonBy(s, f, e, j);
      }
    }
  }

  // ----- raw messages -----

  ghost predicate ReturnedIn(s: State, e: nat, k: nat, b: Buf) {
    && e < |s.eps| && k < |s.eps[e].removed| && s.eps[e].removed[k].fate.Returned?
    && s.eps[e].removed[k].fate.out.body.Raw? && s.eps[e].removed[k].fate.out.body.buf == b
  }

  predicate Uses(m: Msg, b: Buf) {
    m.body.Raw? && m.body.buf == b
  }

  /** The buffer of a returned raw message belongs to one receiver: no sender, no message on its way and no other receiver has it. */
  lemma ReturnedIsolated(c: Config, run: seq<State>, i: nat, e: nat, k: nat, b: Buf)
    requires Run(c, run) && i < |run| && ReturnedIn(run[i], e, k, b)
    ensures b in run[i].owner && run[i].owner[b] == Receiver(e, k)
    ensures forall x, q :: 0 <= x < |run[i].eps| && 0 <= q < |run[i].eps[x].queue| ==> !Uses(run[i].eps[x].queue[q], b)
    ensures forall t :: 0 <= t < |run[i].threads| && (run[i].threads[t].pc.Offer? || run[i].threads[t].pc.Give? || run[i].threads[t].pc.Taken?)
              ==> !Uses(run[i].threads[t].pc.m, b)
    ensures forall e': nat, k': nat :: ReturnedIn(run[i], e', k', b) ==> e' == e && k' == k
  {
    RunKeeps(c, run, i);
    var s := run[i];
    assert SettledOk(s, e, k, s.eps[e].removed[k]);
    forall x, q | 0 <= x < |s.eps| && 0 <= q < |s.eps[x].queue| ensures !Uses(s.eps[x].queue[q], b) {
      assert QueueOk(s, s.eps[x].queue);
    }
    forall t | 0 <= t < |s.threads| && (s.threads[t].pc.Offer? || s.threads[t].pc.Give? || s.threads[t].pc.Taken?)
      ensures !Uses(s.threads[t].pc.m, b)
    {
      assert HandOk(s, s.threads[t].pc);
    }
    forall e': nat, k': nat | ReturnedIn(s, e', k', b) ensures e' == e && k' == k {
      assert SettledOk(s, e', k', s.eps[e'].removed[k']);
    }
  }

  /** Until it is returned, a raw message holds what was sent, whatever senders and receivers do to their buffers. */
  lemma QueuedHoldsSnapshot(c: Config, run: seq<State>, i: nat, e: nat, q: nat)
    requires Run(c, run) && i < |run| && e < |run[i].eps| && q < |run[i].eps[e].queue| && run[i].eps[e].queue[q].body.Raw?
    ensures var s, m := run[i], run[i].eps[e].queue[q];
      m.body.buf in s.buffers && m.body.id < |s.sent| && s.buffers[m.body.buf] == s.sent[m.body.id] && m.cap == |s.sent[m.body.id]|
  {
    RunKeeps(c, run, i);
    assert QueueOk(run[i], run[i].eps[e].queue);
  }

  lemma {:induction false} SentStays(c: Config, run: seq<State>, i: nat, j: nat)
    requires Run(c, run) && i <= j < |run|
    ensures SentGrows(run[i], run[j])
  {
    if i < j {
      SentStays(c, run, i, j - 1);
      assert Advances(c, run, j - 1);
      NextSent(c, run[j - 1], run[j]);
    }
  }

  /** Step `i` of a run: thread `t` sends the user's buffer `b`, and the content gets the number `id`. */
  ghost predicate SendsAt(run: seq<State>, i: nat, t: nat, b: Buf, id: nat) {
    && i + 1 < |run| && t < |run[i].threads| && b in run[i].buffers && id == |run[i].sent|
    && (exists h: Header, copy: Buf, todo: seq<nat> :: run[i + 1] == SendRawStep(run[i], t, h, b, copy, todo))
  }

  /** Step `j` of a run: a receive at `e` returns the raw message it removed as number `k`, whose content is number `id`. */
  ghost predicate ReturnsAt(run: seq<State>, j: nat, e: nat, k: nat, b: Buf, id: nat) {
    && j + 1 < |run| && e < |run[j].eps| && k < |run[j].eps[e].removed| && run[j].eps[e].removed[k].fate.Transit?
    && ReturnedIn(run[j + 1], e, k, b) && run[j + 1].eps[e].removed[k].m.body.Raw? && run[j + 1].eps[e].removed[k].m.body.id == id
  }

  lemma ReturnHoldsSnapshot(c: Config, run: seq<State>, j: nat, e: nat, k: nat, b: Buf, id: nat)
    requires Run(c, run) && ReturnsAt(run, j, e, k, b, id)
    ensures id < |run[j].sent| && b in run[j + 1].buffers && run[j + 1].buffers[b] == run[j].sent[id]
  {
    RunKeeps(c, run, j);
    assert Advances(c, run, j);
    var s, s' := run[j], run[j + 1];
    assert !UserStep(s, s');
    var t: nat :| Step(c, s, s', t);
    ReturningStep(c, s, s', t, e, k, b, id);
  }

  lemma ReturningStep(c: Config, s: State, s': State, t: nat, e: nat, k: nat, b: Buf, id: nat)
    requires Inv(s) && Step(c, s, s', t) && e < |s.eps| && k < |s.eps[e].removed| && s.eps[e].removed[k].fate.Transit?
    requires ReturnedIn(s', e, k, b) && s'.eps[e].removed[k].m.body.Raw? && s'.eps[e].removed[k].m.body.id == id
    ensures id < |s.sent| && b in s'.buffers && s'.buffers[b] == s.sent[id]
  {
    StepShape(c, s, s', t);
    if PlainStep(c, s, s', t) { PlainReturnsNothing(c, s, s', t, e, k); }
    assert EndStep(s, s', t);
    EndReturns(s, s', t, e, k, b, id);
  }

  lemma PlainReturnsNothing(c: Config, s: State, s': State, t: nat, e: nat, k: nat)
    requires t < |s.threads| && PlainStep(c, s, s', t) && e < |s.eps| && k < |s.eps[e].removed|
    ensures |s'.eps| == |s.eps| && k < |s'.eps[e].removed| && s'.eps[e].removed[k].fate == s.eps[e].removed[k].fate
  {
    var pc := s.threads[t].pc;
    if pc.Give? { GaveSameFates(c.eps[pc.e], s.eps[pc.e], t, pc.give, pc.m, pc.e, pc.todo); }
  }

  lemma EndReturns(s: State, s': State, t: nat, e: nat, k: nat, b: Buf, id: nat)
    requires Inv(s) && t < |s.threads| && EndStep(s, s', t) && e < |s.eps| && k < |s.eps[e].removed| && s.eps[e].removed[k].fate.Transit?
    requires ReturnedIn(s', e, k, b) && s'.eps[e].removed[k].m.body.Raw? && s'.eps[e].removed[k].m.body.id == id
    ensures id < |s.sent| && b in s'.buffers && s'.buffers[b] == s.sent[id]
  {
    var pc := s.threads[t].pc;
    assert HandOk(s, pc);
    assert CarrierOk(s.eps[pc.e], t, pc, pc.e);
    var fate, pc' := MatchDid(s, s', t, pc.e, pc.how, pc.k, pc.m);
    assert pc.e == e && pc.k == k;
  }

  lemma GaveSameFates(c: EpConfig, ep: Ep, t: nat, give: GivePoint, m: Msg, e: nat, todo: seq<nat>)
    ensures Gave(c, ep, t, give, m, e, todo).0.removed == ep.removed
  {
  }

  /** End to end: a returned raw message holds exactly what the sender's buffer held when it was sent. */
  lemma RawSnapshot(c: Config, run: seq<State>, i: nat, t: nat, sender: Buf, id: nat, j: nat, e: nat, k: nat, receiver: Buf)
    requires Run(c, run) && SendsAt(run, i, t, sender, id) && i < j && ReturnsAt(run, j, e, k, receiver, id)
    ensures receiver in run[j + 1].buffers && run[j + 1].buffers[receiver] == run[i].buffers[sender]
  {
    ReturnHoldsSnapshot(c, run, j, e, k, receiver, id);
    SentStays(c, run, i + 1, j);
    assert run[i + 1].sent[id] == run[i].buffers[sender];
  }
}
