/** What a whole `Net::send` does: every endpoint of its list gets the message once, or does not want it, or is full. */
module DeliverySends {
  import opened Base
  import opened Routing
  import opened Delivery
  import opened DeliveryCalls

  /** Thread `t` starts to offer `m` to the endpoints of `list` in step `a`, and is back after step `b - 1`. */
  ghost predicate Send(run: seq<State>, a: nat, b: nat, t: nat, m: Msg, list: seq<nat>) {
    && a + 1 < b < |run| && (forall x :: a <= x <= b ==> Has(run, x, t))
    && PcAt(run, a, t).Idle? && PcAt(run, a + 1, t) == Offer(m, list) && PcAt(run, b, t).Idle?
    && (forall x :: a < x < b ==> !PcAt(run, x, t).Idle?)
  }

  // ----- what happens to one endpoint of the list -----

  /** The thread is about to offer the message to endpoint number `p` of the list. */
  predicate Offering(pc: Pc, m: Msg, list: seq<nat>, p: nat) {
    p <= |list| && pc == Offer(m, list[p..])
  }

  /** The thread is in `give` of endpoint number `p` of the list. */
  predicate Giving(pc: Pc, m: Msg, list: seq<nat>, p: nat) {
    p < |list| && pc.Give? && pc.m == m && pc.e == list[p] && pc.todo == list[p + 1..]
  }

  predicate Wants(c: Config, m: Msg, e: nat) {
    e < |c.eps| && Accepts(c.sid, c.eps[e].address, m.header)
  }

  /** Step `y`: the message is not for endpoint number `p`. */
  ghost predicate Skips(c: Config, run: seq<State>, y: nat, t: nat, m: Msg, list: seq<nat>, p: nat) {
    Has(run, y, t) && p < |list| && Offering(PcAt(run, y, t), m, list, p) && !Wants(c, m, list[p])
  }

  /** Step `y`: endpoint number `p` has as many messages as it may have. */
  ghost predicate Full(c: Config, run: seq<State>, y: nat, t: nat, m: Msg, list: seq<nat>, p: nat) {
    && Has(run, y, t) && Giving(PcAt(run, y, t), m, list, p) && PcAt(run, y, t).give.CheckLen?
    && list[p] < |c.eps| == |run[y].eps| && 0 < c.eps[list[p]].limitpending <= |run[y].eps[list[p]].queue|
  }

  /** Step `y`: endpoint number `p` counts as much memory as it may use. */
  ghost predicate Heavy(c: Config, run: seq<State>, y: nat, t: nat, m: Msg, list: seq<nat>, p: nat) {
    && Has(run, y, t) && Giving(PcAt(run, y, t), m, list, p) && PcAt(run, y, t).give.CheckMem?
    && list[p] < |c.eps| == |run[y].eps| && 0 < c.eps[list[p]].limitmemory <= run[y].eps[list[p]].used
  }

  /** Step `y`: endpoint number `p`, which wants it, gets the message, behind all others. */
  ghost predicate Puts(c: Config, run: seq<State>, y: nat, t: nat, m: Msg, list: seq<nat>, p: nat) {
    && y + 1 < |run| && Has(run, y, t) && Has(run, y + 1, t) && PcAt(run, y + 1, t) != PcAt(run, y, t)
    && Giving(PcAt(run, y, t), m, list, p) && Wants(c, m, list[p])
    && list[p] < |run[y].eps| == |run[y + 1].eps|
    && run[y + 1].eps[list[p]].puts == run[y].eps[list[p]].puts + [m]
    && run[y + 1].eps[list[p]].queue == run[y].eps[list[p]].queue + [m]
  }

  ghost predicate Settles(c: Config, run: seq<State>, y: nat, t: nat, m: Msg, list: seq<nat>, p: nat) {
    Skips(c, run, y, t, m, list, p) || Full(c, run, y, t, m, list, p) || Heavy(c, run, y, t, m, list, p) || Puts(c, run, y, t, m, list, p)
  }

  ghost predicate Settled(c: Config, run: seq<State>, a: nat, x: nat, t: nat, m: Msg, list: seq<nat>, p: nat) {
    exists y: nat :: a < y < x && Settles(c, run, y, t, m, list, p)
  }

  ghost predicate AllSettled(c: Config, run: seq<State>, a: nat, x: nat, t: nat, m: Msg, list: seq<nat>, p: nat) {
    forall q :: 0 <= q < p ==> Settled(c, run, a, x, t, m, list, q)
  }

  predicate Past(give: GivePoint) {
    give.GiveAdd? || give.GiveUnlock? || give.GiveNotify?
  }

  /** The send is at endpoint number `p`, and all before it are settled. */
  ghost predicate Reached(c: Config, run: seq<State>, a: nat, x: nat, t: nat, m: Msg, list: seq<nat>, p: nat) {
    && Has(run, x, t) && p <= |list|
    && AllSettled(c, run, a, x, t, m, list, p)
    && (|| Offering(PcAt(run, x, t), m, list, p)
        || (&& Giving(PcAt(run, x, t), m, list, p) && Wants(c, m, list[p])
            && (Past(PcAt(run, x, t).give) ==> Settled(c, run, a, x, t, m, list, p))))
  }

  lemma SettledOn(c: Config, run: seq<State>, a: nat, x: nat, x': nat, t: nat, m: Msg, list: seq<nat>, p: nat)
    requires Settled(c, run, a, x, t, m, list, p) && x <= x'
    ensures Settled(c, run, a, x', t, m, list, p)
  {
    var y: nat :| a < y < x && Settles(c, run, y, t, m, list, p);
    assert a < y < x';
  }

  lemma AllSettledOn(c: Config, run: seq<State>, a: nat, x: nat, x': nat, t: nat, m: Msg, list: seq<nat>, p: nat)
    requires AllSettled(c, run, a, x, t, m, list, p) && x <= x'
    ensures AllSettled(c, run, a, x', t, m, list, p)
  {
    forall q | 0 <= q < p ensures Settled(c, run, a, x', t, m, list, q) { SettledOn(c, run, a, x, x', t, m, list, q); }
  }

  // ----- step by step -----

  /** Either at the same endpoint, or at the next one with this one settled. */
  ghost predicate GoesOn(c: Config, run: seq<State>, x: nat, t: nat, m: Msg, list: seq<nat>, p: nat) {
    && Has(run, x + 1, t)
    && (|| (PcAt(run, x + 1, t).Idle? && p == |list|)
        || (Giving(PcAt(run, x + 1, t), m, list, p) && Wants(c, m, list[p])
            && (Past(PcAt(run, x + 1, t).give) ==> PastAt(run, x, t) || Puts(c, run, x, t, m, list, p)))
        || (p < |list| && Offering(PcAt(run, x + 1, t), m, list, p + 1) && (PastAt(run, x, t) || Settles(c, run, x, t, m, list, p))))
  }

  ghost predicate PastAt(run: seq<State>, x: nat, t: nat) {
    Has(run, x, t) && PcAt(run, x, t).Give? && Past(PcAt(run, x, t).give)
  }

  lemma OfferGoes(c: Config, run: seq<State>, x: nat, t: nat, m: Msg, list: seq<nat>, p: nat)
    requires x + 1 < |run| && Has(run, x, t) && Offering(PcAt(run, x, t), m, list, p) && |run[x].eps| == |c.eps|
    requires run[x + 1] == OfferStep(c, run[x], t, m, list[p..])
    ensures GoesOn(c, run, x, t, m, list, p)
  {
    if p < |list| { assert list[p..][0] == list[p] && list[p..][1..] == list[p + 1..]; }
  }

  lemma GiveGoes(c: Config, run: seq<State>, x: nat, t: nat, m: Msg, list: seq<nat>, p: nat)
    requires x + 1 < |run| && Has(run, x, t) && Giving(PcAt(run, x, t), m, list, p) && Wants(c, m, list[p])
    requires |run[x].eps| == |c.eps| && GiveStep(c, run[x], run[x + 1], t, PcAt(run, x, t).give, m, list[p], list[p + 1..])
    ensures GoesOn(c, run, x, t, m, list, p)
  {
    var s, s', give, e := run[x], run[x + 1], PcAt(run, x, t).give, list[p];
    if give.GiveNotify? {
      NotifyGoes(s, s', t, m, e, list[p + 1..]);
    } else {
      assert PcAt(run, x + 1, t) == Gave(c.eps[e], s.eps[e], t, give, m, e, list[p + 1..]).1;
      if give.GivePut? { assert Puts(c, run, x, t, m, list, p); }
      if give.CheckLen? && PcAt(run, x + 1, t).Offer? { assert Full(c, run, x, t, m, list, p); }
      if give.CheckMem? && PcAt(run, x + 1, t).Offer? { assert Heavy(c, run, x, t, m, list, p); }
    }
  }

  lemma NotifyGoes(s: State, s': State, t: nat, m: Msg, e: nat, todo: seq<nat>)
    requires t < |s.threads| && NotifyStep(s, s', t, m, e, todo)
    ensures |s'.threads| == |s.threads| && s'.threads[t].pc == Offer(m, todo)
  {
  }

  lemma ReachedGoes(c: Config, run: seq<State>, a: nat, x: nat, t: nat, m: Msg, list: seq<nat>, p: nat)
    requires a < x && Reached(c, run, a, x, t, m, list, p) && GoesOn(c, run, x, t, m, list, p)
    ensures || (PcAt(run, x + 1, t).Idle? && p == |list|) || Reached(c, run, a, x + 1, t, m, list, p)
            || Reached(c, run, a, x + 1, t, m, list, p + 1)
  {
    AllSettledOn(c, run, a, x, x + 1, t, m, list, p);
    if PastAt(run, x, t) {
      SettledOn(c, run, a, x, x + 1, t, m, list, p);
    } else if Settles(c, run, x, t, m, list, p) {
      assert Settled(c, run, a, x + 1, t, m, list, p);
    }
  }

  lemma {:induction false} SendGoes(c: Config, run: seq<State>, a: nat, b: nat, t: nat, m: Msg, list: seq<nat>, x: nat) returns (p: nat)
    requires Run(c, run) && Send(run, a, b, t, m, list) && a < x < b
    ensures Reached(c, run, a, x, t, m, list, p)
  {
    if x == a + 1 {
      p := 0;
      assert list[0..] == list;
    } else {
      p := SendGoes(c, run, a, b, t, m, list, x - 1);
      p := SendNext(c, run, a, x - 1, t, m, list, p);
    }
  }

  lemma SendNext(c: Config, run: seq<State>, a: nat, x: nat, t: nat, m: Msg, list: seq<nat>, p: nat) returns (p': nat)
    requires Run(c, run) && a < x && x + 1 < |run| && Reached(c, run, a, x, t, m, list, p)
    ensures Has(run, x + 1, t)
    ensures if PcAt(run, x + 1, t).Idle? then p == |list| else Reached(c, run, a, x + 1, t, m, list, p')
  {
    Moved(c, run, x, t);
    p' := p;
    if PcAt(run, x + 1, t) == PcAt(run, x, t) {
      AllSettledOn(c, run, a, x, x + 1, t, m, list, p);
      if PastAt(run, x, t) { SettledOn(c, run, a, x, x + 1, t, m, list, p); }
    } else {
      StepGoes(c, run, x, t, m, list, p);
      ReachedGoes(c, run, a, x, t, m, list, p);
      if !PcAt(run, x + 1, t).Idle? && !Reached(c, run, a, x + 1, t, m, list, p) { p' := p + 1; }
    }
  }

  lemma StepGoes(c: Config, run: seq<State>, x: nat, t: nat, m: Msg, list: seq<nat>, p: nat)
    requires x + 1 < |run| && Has(run, x, t) && Step(c, run[x], run[x + 1], t)
    requires Offering(PcAt(run, x, t), m, list, p) || (Giving(PcAt(run, x, t), m, list, p) && Wants(c, m, list[p]))
    ensures GoesOn(c, run, x, t, m, list, p)
  {
    if PcAt(run, x, t).Offer? {
      OfferGoes(c, run, x, t, m, list, p);
    } else {
      GiveGoes(c, run, x, t, m, list, p);
    }
  }

  // ----- the whole send -----

  /** When a send is over, every endpoint of its list has been settled: it got the message, did not want it, or was at a limit. */
  lemma SendReaches(c: Config, run: seq<State>, a: nat, b: nat, t: nat, m: Msg, list: seq<nat>, p: nat) returns (y: nat)
    requires Run(c, run) && Send(run, a, b, t, m, list) && p < |list|
    ensures a < y < b
    ensures Skips(c, run, y, t, m, list, p) || Full(c, run, y, t, m, list, p) || Heavy(c, run, y, t, m, list, p) || Puts(c, run, y, t, m, list, p)
    ensures !Wants(c, m, list[p]) ==> Skips(c, run, y, t, m, list, p)
  {
    var q := SendGoes(c, run, a, b, t, m, list, b - 1);
    var q' := SendNext(c, run, a, b - 1, t, m, list, q);
    assert Settled(c, run, a, b - 1, t, m, list, p);
    y :| a < y < b - 1 && Settles(c, run, y, t, m, list, p);
    if !Wants(c, m, list[p]) {
      var r := SendGoes(c, run, a, b, t, m, list, y);
      PlaceIs(PcAt(run, y, t), m, list, p, r);
    }
  }

  /** A thread is at one place of its list. */
  lemma PlaceIs(pc: Pc, m: Msg, list: seq<nat>, p: nat, q: nat)
    requires Offering(pc, m, list, p) || Giving(pc, m, list, p)
    requires Offering(pc, m, list, q) || Giving(pc, m, list, q)
    ensures p == q
  {
    assert |pc.todo| == if pc.Offer? then |list| - p else |list| - p - 1;
    assert |pc.todo| == if pc.Offer? then |list| - q else |list| - q - 1;
  }

  /** During a send its thread puts nothing but the message, and that only into endpoints of its list that want it. */
  lemma SendOnly(c: Config, run: seq<State>, a: nat, b: nat, t: nat, m: Msg, list: seq<nat>, x: nat, e: nat) returns (p: nat)
    requires Run(c, run) && Send(run, a, b, t, m, list) && a < x < b && Step(c, run[x], run[x + 1], t)
    requires e < |run[x].eps| == |run[x + 1].eps| && run[x + 1].eps[e].puts != run[x].eps[e].puts
    ensures p < |list| && list[p] == e && Puts(c, run, x, t, m, list, p)
  {
    p := SendGoes(c, run, a, b, t, m, list, x);
    var s, s', pc := run[x], run[x + 1], PcAt(run, x, t);
    if pc.Give? && pc.give.GiveNotify? { NotifyShape(s, s', t, m, pc.e, pc.todo); }
  }

  /** How much is left to do, which every step of the thread makes less. */
  function Left(pc: Pc): nat {
    match pc
    case Offer(_, todo) => 8 * |todo| + 1
    case Give(give, _, _, todo) => 8 * |todo| + Ahead(give)
    case _ => 0
  }

  function Ahead(give: GivePoint): nat {
    match give
    case CheckLen => 8
    case CheckMem => 7
    case GiveLock => 6
    case GivePut => 5
    case GiveAdd => 4
    case GiveUnlock => 3
    case GiveNotify => 2
  }

  lemma LessLeft(c: Config, s: State, s': State, t: nat)
    requires Step(c, s, s', t) && (s.threads[t].pc.Offer? || s.threads[t].pc.Give?)
    ensures |s'.threads| == |s.threads| && Left(s'.threads[t].pc) < Left(s.threads[t].pc)
  {
    var pc := s.threads[t].pc;
    if pc.Give? && pc.give.GiveNotify? { NotifyGoes(s, s', t, pc.m, pc.e, pc.todo); }
  }

  lemma {:induction false} LeftFalls(c: Config, run: seq<State>, a: nat, b: nat, t: nat, m: Msg, list: seq<nat>, x: nat, y: nat)
    requires Run(c, run) && Send(run, a, b, t, m, list) && a < x <= y < b
    ensures Left(PcAt(run, y, t)) <= Left(PcAt(run, x, t))
    ensures x < y && PcAt(run, x + 1, t) != PcAt(run, x, t) ==> Left(PcAt(run, y, t)) < Left(PcAt(run, x, t))
  {
    if x < y {
      LeftFalls(c, run, a, b, t, m, list, x, y - 1);
      var p := SendGoes(c, run, a, b, t, m, list, y - 1);
      Moved(c, run, y - 1, t);
      if PcAt(run, y, t) != PcAt(run, y - 1, t) { LessLeft(c, run[y - 1], run[y], t); }
    }
  }

  /** No endpoint of the list gets the message twice from one send. */
  lemma SendOnce(c: Config, run: seq<State>, a: nat, b: nat, t: nat, m: Msg, list: seq<nat>, p: nat, x: nat, y: nat)
    requires Run(c, run) && Send(run, a, b, t, m, list) && a < x < b && a < y < b
    requires Puts(c, run, x, t, m, list, p) && Puts(c, run, y, t, m, list, p)
    ensures x == y
  {
    PutsLeft(c, run, x, t, m, list, p);
    PutsLeft(c, run, y, t, m, list, p);
    if x < y {
      LeftFalls(c, run, a, b, t, m, list, x, y);
    } else if y < x {
      LeftFalls(c, run, a, b, t, m, list, y, x);
    }
  }

  lemma PutsLeft(c: Config, run: seq<State>, x: nat, t: nat, m: Msg, list: seq<nat>, p: nat)
    requires Run(c, run) && Puts(c, run, x, t, m, list, p)
    ensures Left(PcAt(run, x, t)) == 8 * (|list| - p - 1) + Ahead(GivePut)
  {
    Moved(c, run, x, t);
    var pc := PcAt(run, x, t);
    if pc.give.GiveNotify? { NotifyShape(run[x], run[x + 1], t, m, pc.e, pc.todo); }
  }
}
