/** Why an endpoint is taken off its net exactly once, by a thread that does not hold the net's mutex, when its last user has gone. */
module LifetimeProof {
  import opened Base
  import opened Lifetime

  // ----- what threads have in hand of an endpoint -----

  function ContHolds(k: Cont, e: nat): nat {
    match k
    case ToIdle => 0
    case ToSend(rest) => Times(rest, e)
    case ToUnlock(next) => ContHolds(next, e)
  }

  /** The handles of `e` that a thread owns and has not subtracted from `refcnt`. */
  function Holds(pc: Pc, e: nat): nat {
    match pc
    case SendClone(_, local) => Times(local, e)
    case SendUnlock(local) => Times(local, e)
    case SendDrop(local) => Times(local, e)
    case DropSub(x, k) => One(x == e) + ContHolds(k, e)
    case DropCas(_, k) => ContHolds(k, e)
    case DropLock(_, k) => ContHolds(k, e)
    case DropSearch(_, k) => ContHolds(k, e)
    case DropUnlock(k) => ContHolds(k, e)
    case _ => 0
  }

  function One(b: bool): nat {
    if b then 1 else 0
  }

  predicate Casing(pc: Pc, e: nat) {
    pc.DropCas? && pc.e == e
  }

  predicate Dropping(pc: Pc, e: nat) {
    (pc.DropLock? || pc.DropSearch?) && pc.e == e
  }

  function HoldsOf(e: nat): Pc -> int {
    pc => Holds(pc, e)
  }

  function CasingOf(e: nat): Pc -> int {
    pc => One(Casing(pc, e))
  }

  function DroppingOf(e: nat): Pc -> int {
    pc => One(Dropping(pc, e))
  }

  // ----- the invariant -----

  /** `held`, `casing` and `dropping` count, over all threads, handles, and threads about to swap or busy to unregister. */
  ghost predicate EpOk(ep: Ep, registered: bool, held: int, casing: int, dropping: int) {
    && ep.refcnt == ep.users + One(registered) + held && 0 <= held && 0 <= casing && ep.refcnt < WORD
    && (ep.users > 0 ==> registered && !ep.dropped && casing == 0)
    && (!registered ==> ep.dropped)
    && dropping == One(ep.dropped && registered)
    && (!ep.dropped && ep.refcnt == 1 ==> casing > 0)
  }

  ghost predicate EpOkIn(s: State, e: nat)
    requires e < |s.eps|
  {
    EpOk(s.eps[e], e in s.registry, Sum(s.pcs, HoldsOf(e)), Sum(s.pcs, CasingOf(e)), Sum(s.pcs, DroppingOf(e)))
  }

  ghost predicate EpsOk(s: State) {
    forall e :: 0 <= e < |s.eps| ==> EpOkIn(s, e)
  }

  ghost predicate Known(n: nat, l: seq<nat>) {
    forall i :: 0 <= i < |l| ==> l[i] < n
  }

  ghost predicate ContKnown(n: nat, k: Cont) {
    match k
    case ToIdle => true
    case ToSend(rest) => Known(n, rest)
    case ToUnlock(next) => ContKnown(n, next)
  }

  /** Every endpoint a thread refers to is one of the first `n`. */
  ghost predicate PcKnown(n: nat, pc: Pc) {
    match pc
    case SendClone(todo, local) => Known(n, todo) && Known(n, local)
    case SendUnlock(local) => Known(n, local)
    case SendDrop(local) => Known(n, local)
    case DropSub(e, k) => e < n && ContKnown(n, k)
    case DropCas(e, k) => e < n && ContKnown(n, k)
    case DropLock(e, k) => e < n && ContKnown(n, k)
    case DropSearch(e, k) => e < n && ContKnown(n, k)
    case DropUnlock(k) => ContKnown(n, k)
    case _ => true
  }

  predicate HasMutex(pc: Pc) {
    || pc.SendClone? || pc.SendUnlock? || pc.DropSearch? || pc.DropUnlock?
    || ((pc.DropSub? || pc.DropCas? || pc.DropLock?) && pc.k.ToUnlock?)
  }

  /**
   A drop inside `drop_endpoint` is of an endpoint whose `dropped` is set, so its swap fails and it never locks again.
   While the list is being copied it does not change.
   */
  ghost predicate PcOk(s: State, t: nat, pc: Pc) {
    && (HasMutex(pc) <==> s.lock == Some(t))
    && (pc.DropLock? || pc.DropSearch? || pc.DropUnlock? ==> !pc.k.ToUnlock?)
    && ((pc.DropSub? || pc.DropCas?) && pc.k.ToUnlock? ==> pc.e < |s.eps| && s.eps[pc.e].dropped && !pc.k.next.ToUnlock?)
    && (pc.SendClone? ==> forall i :: 0 <= i < |pc.todo| ==> pc.todo[i] in s.registry)
  }

  ghost predicate PcsOk(s: State) {
    forall t :: 0 <= t < |s.pcs| ==> PcKnown(|s.eps|, s.pcs[t]) && PcOk(s, t, s.pcs[t])
  }

  ghost predicate RegistryOk(s: State) {
    Known(|s.eps|, s.registry) && Distinct(s.registry)
  }

  ghost predicate Inv(s: State) {
    EpsOk(s) && PcsOk(s) && RegistryOk(s)
  }

  lemma InitInv(s: State)
    requires Init(s)
    ensures Inv(s)
  {
  }

  // ----- lists -----

  lemma {:induction false} TimesAppend(l: seq<nat>, x: nat, e: nat)
    ensures Times(l + [x], e) == Times(l, e) + One(x == e)
  {
    if l == [] {
      assert l + [x] == [x];
    } else {
      assert (l + [x])[1..] == l[1..] + [x];
      TimesAppend(l[1..], x, e);
    }
  }

  lemma {:induction false} TimesZero(l: seq<nat>, e: nat)
    requires e !in l
    ensures Times(l, e) == 0
  {
    if l != [] { TimesZero(l[1..], e); }
  }

  /** A list without repetitions has each element once, so `drop_endpoint` never panics. */
  lemma {:induction false} TimesDistinct(l: seq<nat>, e: nat)
    requires Distinct(l)
    ensures Times(l, e) <= 1
  {
    if l != [] {
      if l[0] == e { TimesZero(l[1..], e); } else { TimesDistinct(l[1..], e); }
    }
  }

  ghost predicate Distinct(l: seq<nat>) {
    forall i, j :: 0 <= i < j < |l| ==> l[i] != l[j]
  }

  lemma CutDistinct(l: seq<nat>, i: nat)
    requires Distinct(l) && i < |l|
    ensures Distinct(l[..i] + l[i + 1..])
  {
    var r := l[..i] + l[i + 1..];
    assert forall j :: 0 <= j < |r| ==> r[j] == if j < i then l[j] else l[j + 1];
  }

  lemma CutMembers(l: seq<nat>, i: nat, x: nat)
    requires Distinct(l) && i < |l|
    ensures x in l[..i] + l[i + 1..] <==> x in l && x != l[i]
  {
    assert l == l[..i] + [l[i]] + l[i + 1..];
  }

  lemma WithoutIs(l: seq<nat>, e: nat, x: nat)
    requires Distinct(l)
    ensures x in Without(l, e) <==> x in l && x != e
    ensures Distinct(Without(l, e))
  {
    var i := Find(l, e);
    if i < |l| {
      CutDistinct(l, i);
      CutMembers(l, i, x);
    }
  }

  // ----- one thread at one endpoint -----

  /** The counts after a thread went from `pc` to `pc'`. */
  ghost predicate Recount(held: int, held': int, casing: int, casing': int, dropping: int, dropping': int, pc: Pc, pc': Pc, e: nat) {
    && held' == held - Holds(pc, e) + Holds(pc', e)
    && casing' == casing - One(Casing(pc, e)) + One(Casing(pc', e))
    && dropping' == dropping - One(Dropping(pc, e)) + One(Dropping(pc', e))
  }

  lemma ResumeHolds(k: Cont, e: nat)
    ensures Holds(Resume(k), e) == ContHolds(k, e) && !Casing(Resume(k), e) && !Dropping(Resume(k), e)
  {
  }

  lemma SubbedOk(ep: Ep, e: nat, k: Cont, registered: bool, held: int, casing: int, dropping: int, held': int, casing': int, dropping': int)
    requires EpOk(ep, registered, held, casing, dropping) && Holds(DropSub(e, k), e) <= held
    requires Recount(held, held', casing, casing', dropping, dropping', DropSub(e, k), Subbed(ep, e, k).1, e)
    ensures EpOk(Subbed(ep, e, k).0, registered, held', casing', dropping')
  {
    ResumeHolds(k, e);
  }

  lemma SwappedOk(ep: Ep, e: nat, k: Cont, registered: bool, held: int, casing: int, dropping: int, held': int, casing': int, dropping': int)
    requires EpOk(ep, registered, held, casing, dropping) && 1 <= casing
    requires Recount(held, held', casing, casing', dropping, dropping', DropCas(e, k), Swapped(ep, e, k).1, e)
    ensures EpOk(Swapped(ep, e, k).0, registered, held', casing', dropping')
  {
    ResumeHolds(k, e);
  }

  // ----- all threads, all endpoints -----

  lemma CountsMove(s: State, s': State, t: nat, e: nat)
    requires t < |s.pcs| == |s'.pcs| && s'.pcs == s.pcs[t := s'.pcs[t]]
    ensures Recount(Sum(s.pcs, HoldsOf(e)), Sum(s'.pcs, HoldsOf(e)), Sum(s.pcs, CasingOf(e)), Sum(s'.pcs, CasingOf(e)),
                    Sum(s.pcs, DroppingOf(e)), Sum(s'.pcs, DroppingOf(e)), s.pcs[t], s'.pcs[t], e)
  {
    SumUpdate(s.pcs, t, s'.pcs[t], HoldsOf(e));
    SumUpdate(s.pcs, t, s'.pcs[t], CasingOf(e));
    SumUpdate(s.pcs, t, s'.pcs[t], DroppingOf(e));
  }

  lemma CountsCover(s: State, t: nat, e: nat)
    requires t < |s.pcs|
    ensures Holds(s.pcs[t], e) <= Sum(s.pcs, HoldsOf(e))
    ensures One(Casing(s.pcs[t], e)) <= Sum(s.pcs, CasingOf(e)) && One(Dropping(s.pcs[t], e)) <= Sum(s.pcs, DroppingOf(e))
  {
    SumAtLeast(s.pcs, HoldsOf(e), t);
    SumAtLeast(s.pcs, CasingOf(e), t);
    SumAtLeast(s.pcs, DroppingOf(e), t);
  }

  predicate SameAt(pc: Pc, pc': Pc, e: nat) {
    Holds(pc', e) == Holds(pc, e) && Casing(pc', e) == Casing(pc, e) && Dropping(pc', e) == Dropping(pc, e)
  }

  /** Only endpoint `e` and thread `t` change. */
  ghost predicate Did(s: State, s': State, t: nat, e: nat, r: (Ep, Pc)) {
    t < |s.pcs| && e < |s.eps| && s'.pcs == s.pcs[t := r.1] && s'.eps == s.eps[e := r.0]
  }

  lemma EpsDid(s: State, s': State, t: nat, e: nat, r: (Ep, Pc))
    requires EpsOk(s) && Did(s, s', t, e, r) && EpOkIn(s', e)
    requires forall x :: 0 <= x < |s.eps| && x != e ==> SameAt(s.pcs[t], r.1, x) && (x in s'.registry <==> x in s.registry)
    ensures EpsOk(s')
  {
    forall x | 0 <= x < |s'.eps| ensures EpOkIn(s', x) {
      if x != e {
        CountsMove(s, s', t, x);
        assert EpOkIn(s, x) && SameAt(s.pcs[t], r.1, x);
      }
    }
  }

  lemma PcsMove(s: State, s': State, t: nat)
    requires PcsOk(s) && t < |s.pcs| == |s'.pcs| && s'.pcs == s.pcs[t := s'.pcs[t]] && |s'.eps| == |s.eps|
    requires forall e :: 0 <= e < |s.eps| && s.eps[e].dropped ==> s'.eps[e].dropped
    requires s'.lock == s.lock || ((s.lock == None || s.lock == Some(t)) && (s'.lock == None || s'.lock == Some(t)))
    requires s'.registry == s.registry || s.lock == Some(t)
    requires PcKnown(|s'.eps|, s'.pcs[t]) && PcOk(s', t, s'.pcs[t])
    ensures PcsOk(s')
  {
    forall u | 0 <= u < |s'.pcs| ensures PcKnown(|s'.eps|, s'.pcs[u]) && PcOk(s', u, s'.pcs[u]) {
      assert PcKnown(|s.eps|, s.pcs[u]) && PcOk(s, u, s.pcs[u]);
    }
  }

  /** A step of thread `t` at endpoint `e` that leaves the list alone. */
  lemma DidKeeps(s: State, s': State, t: nat, e: nat, r: (Ep, Pc))
    requires Inv(s) && Did(s, s', t, e, r) && s'.registry == s.registry && EpOkIn(s', e)
    requires forall x :: 0 <= x < |s.eps| && x != e ==> SameAt(s.pcs[t], r.1, x)
    requires s.eps[e].dropped ==> r.0.dropped
    requires s'.lock == s.lock && PcKnown(|s.eps|, r.1) && PcOk(s', t, r.1)
    ensures Inv(s')
  {
    EpsDid(s, s', t, e, r);
    PcsMove(s, s', t);
  }

  /** A step that changes no endpoint and no handle. */
  lemma StayKeeps(s: State, s': State, t: nat, pc: Pc)
    requires Inv(s) && t < |s.pcs| && s'.pcs == s.pcs[t := pc] && s'.eps == s.eps && s'.registry == s.registry
    requires forall x :: 0 <= x < |s.eps| ==> SameAt(s.pcs[t], pc, x)
    requires s'.lock == s.lock || ((s.lock == None || s.lock == Some(t)) && (s'.lock == None || s'.lock == Some(t)))
    requires PcKnown(|s.eps|, pc) && PcOk(s', t, pc)
    ensures Inv(s')
  {
    forall x | 0 <= x < |s'.eps| ensures EpOkIn(s', x) {
      CountsMove(s, s', t, x);
      assert EpOkIn(s, x) && SameAt(s.pcs[t], pc, x);
    }
    PcsMove(s, s', t);
  }

  // ----- drop -----

  lemma SubKeeps(s: State, s': State, t: nat, e: nat, k: Cont)
    requires Inv(s) && t < |s.pcs| && s.pcs[t] == DropSub(e, k) && e < |s.eps| && s' == Do(s, t, e, Subbed(s.eps[e], e, k))
    ensures Inv(s')
  {
    var r := Subbed(s.eps[e], e, k);
    assert PcKnown(|s.eps|, s.pcs[t]) && PcOk(s, t, s.pcs[t]);
    assert EpOkIn(s, e);
    CountsMove(s, s', t, e);
    CountsCover(s, t, e);
    SubbedOk(s.eps[e], e, k, e in s.registry, Sum(s.pcs, HoldsOf(e)), Sum(s.pcs, CasingOf(e)), Sum(s.pcs, DroppingOf(e)),
             Sum(s'.pcs, HoldsOf(e)), Sum(s'.pcs, CasingOf(e)), Sum(s'.pcs, DroppingOf(e)));
    ResumeElsewhere(DropSub(e, k), r.1, e, k);
    DidKeeps(s, s', t, e, r);
  }

  lemma CasKeeps(s: State, s': State, t: nat, e: nat, k: Cont)
    requires Inv(s) && t < |s.pcs| && s.pcs[t] == DropCas(e, k) && e < |s.eps| && s' == Do(s, t, e, Swapped(s.eps[e], e, k))
    ensures Inv(s')
  {
    var r := Swapped(s.eps[e], e, k);
    assert PcKnown(|s.eps|, s.pcs[t]) && PcOk(s, t, s.pcs[t]);
    assert EpOkIn(s, e);
    CountsMove(s, s', t, e);
    CountsCover(s, t, e);
    SwappedOk(s.eps[e], e, k, e in s.registry, Sum(s.pcs, HoldsOf(e)), Sum(s.pcs, CasingOf(e)), Sum(s.pcs, DroppingOf(e)),
              Sum(s'.pcs, HoldsOf(e)), Sum(s'.pcs, CasingOf(e)), Sum(s'.pcs, DroppingOf(e)));
    ResumeElsewhere(DropCas(e, k), r.1, e, k);
    DidKeeps(s, s', t, e, r);
  }

  /** Working at `e` changes nothing that a thread has of any other endpoint. */
  lemma ResumeElsewhere(pc: Pc, pc': Pc, e: nat, k: Cont)
    requires pc == DropSub(e, k) || pc == DropCas(e, k)
    requires pc' == Resume(k) || pc' == DropCas(e, k) || pc' == DropLock(e, k)
    ensures forall x: nat :: x != e ==> SameAt(pc, pc', x)
  {
    forall x: nat | x != e ensures SameAt(pc, pc', x) { ResumeHolds(k, x); }
  }

  lemma LockKeeps(s: State, t: nat, e: nat, k: Cont)
    requires Inv(s) && t < |s.pcs| && s.pcs[t] == DropLock(e, k) && s.lock.None?
    ensures Inv(At(s.(lock := Some(t)), t, DropSearch(e, k)))
  {
    assert PcKnown(|s.eps|, s.pcs[t]) && PcOk(s, t, s.pcs[t]);
    StayKeeps(s, At(s.(lock := Some(t)), t, DropSearch(e, k)), t, DropSearch(e, k));
  }

  lemma UnlockKeeps(s: State, t: nat, k: Cont)
    requires Inv(s) && t < |s.pcs| && s.pcs[t] == DropUnlock(k)
    ensures Inv(At(s.(lock := None), t, Resume(k)))
  {
    assert PcKnown(|s.eps|, s.pcs[t]) && PcOk(s, t, s.pcs[t]);
    forall x: nat ensures SameAt(DropUnlock(k), Resume(k), x) { ResumeHolds(k, x); }
    StayKeeps(s, At(s.(lock := None), t, Resume(k)), t, Resume(k));
  }

  /** The search finds the endpoint, and the handle of the list passes to the thread. */
  lemma SearchKeeps(s: State, t: nat, e: nat, k: Cont)
    requires Inv(s) && t < |s.pcs| && s.pcs[t] == DropSearch(e, k)
    ensures e in s.registry && Inv(SearchStep(s, t, e, k))
  {
    assert PcKnown(|s.eps|, s.pcs[t]) && PcOk(s, t, s.pcs[t]);
    assert EpOkIn(s, e);
    CountsCover(s, t, e);
    var s' := SearchStep(s, t, e, k);
    forall x: nat ensures x in s'.registry <==> x in s.registry && x != e { WithoutIs(s.registry, e, x); }
    SearchRegistry(s, t, e, k);
    CountsMove(s, s', t, e);
    assert s.eps == s.eps[e := s.eps[e]];
    EpsDid(s, s', t, e, (s.eps[e], DropSub(e, ToUnlock(k))));
    PcsMove(s, s', t);
  }

  lemma SearchRegistry(s: State, t: nat, e: nat, k: Cont)
    requires RegistryOk(s) && t < |s.pcs|
    ensures RegistryOk(SearchStep(s, t, e, k))
  {
    WithoutIs(s.registry, e, e);
  }

  // ----- send -----

  lemma SendLockKeeps(s: State, t: nat)
    requires Inv(s) && t < |s.pcs| && s.pcs[t] == SendLock && s.lock.None?
    ensures Inv(At(s.(lock := Some(t)), t, SendClone(s.registry, [])))
  {
    StayKeeps(s, At(s.(lock := Some(t)), t, SendClone(s.registry, [])), t, SendClone(s.registry, []));
  }

  lemma SendCloneKeeps(s: State, s': State, t: nat, todo: seq<nat>, local: seq<nat>)
    requires Inv(s) && t < |s.pcs| && s.pcs[t] == SendClone(todo, local) && todo != [] && todo[0] < |s.eps|
    requires s.eps[todo[0]].refcnt + 1 < WORD
    requires s' == Do(s, t, todo[0], (Cloned(s.eps[todo[0]]), SendClone(todo[1..], local + [todo[0]])))
    ensures Inv(s')
  {
    var e := todo[0];
    assert PcKnown(|s.eps|, s.pcs[t]) && PcOk(s, t, s.pcs[t]);
    assert EpOkIn(s, e) && e in s.registry;
    forall x: nat ensures Times(local + [e], x) == Times(local, x) + One(e == x) { TimesAppend(local, e, x); }
    CountsMove(s, s', t, e);
    DidKeeps(s, s', t, e, (Cloned(s.eps[e]), SendClone(todo[1..], local + [e])));
  }

  lemma SendOnKeeps(s: State, s': State, t: nat)
    requires Inv(s) && t < |s.pcs| && (s.pcs[t].SendUnlock? || s.pcs[t].SendDrop? || (s.pcs[t].SendClone? && s.pcs[t].todo == []))
    requires SendStep(s, s', t)
    ensures Inv(s')
  {
    assert PcKnown(|s.eps|, s.pcs[t]) && PcOk(s, t, s.pcs[t]);
    StayKeeps(s, s', t, s'.pcs[t]);
  }

  // ----- calls -----

  lemma UserCloneKeeps(s: State, s': State, t: nat, e: nat)
    requires Inv(s) && t < |s.pcs| && s.pcs[t].Idle? && e < |s.eps| && s.eps[e].users > 0 && s.eps[e].refcnt + 1 < WORD
    requires s' == Do(s, t, e, (Cloned(s.eps[e]).(users := s.eps[e].users + 1), Idle))
    ensures Inv(s')
  {
    assert EpOkIn(s, e);
    CountsMove(s, s', t, e);
    DidKeeps(s, s', t, e, (Cloned(s.eps[e]).(users := s.eps[e].users + 1), Idle));
  }

  lemma UserDropKeeps(s: State, s': State, t: nat, e: nat)
    requires Inv(s) && t < |s.pcs| && s.pcs[t].Idle? && e < |s.eps| && s.eps[e].users > 0
    requires s' == Do(s, t, e, (s.eps[e].(users := s.eps[e].users - 1), DropSub(e, ToIdle)))
    ensures Inv(s')
  {
    assert EpOkIn(s, e);
    CountsMove(s, s', t, e);
    DidKeeps(s, s', t, e, (s.eps[e].(users := s.eps[e].users - 1), DropSub(e, ToIdle)));
  }

  lemma {:induction false} ContGrows(n: nat, k: Cont, e: nat)
    requires ContKnown(n, k) && n <= e
    ensures ContKnown(n + 1, k) && ContHolds(k, e) == 0
  {
    match k
    case ToIdle =>
    case ToSend(rest) => TimesZero(rest, e);
    case ToUnlock(next) => ContGrows(n, next, e);
  }

  /** Nobody has anything of an endpoint that does not exist yet. */
  lemma PcGrows(n: nat, pc: Pc)
    requires PcKnown(n, pc)
    ensures PcKnown(n + 1, pc) && Holds(pc, n) == 0 && !Casing(pc, n) && !Dropping(pc, n)
  {
    match pc
    case SendClone(_, local) => TimesZero(local, n);
    case SendUnlock(local) => TimesZero(local, n);
    case SendDrop(local) => TimesZero(local, n);
    case DropSub(_, k) => ContGrows(n, k, n);
    case DropCas(_, k) => ContGrows(n, k, n);
    case DropLock(_, k) => ContGrows(n, k, n);
    case DropSearch(_, k) => ContGrows(n, k, n);
    case DropUnlock(k) => ContGrows(n, k, n);
    case _ =>
  }

  lemma NewKeeps(s: State)
    requires Inv(s) && s.lock.None?
    ensures Inv(NewStep(s))
  {
    var n, s' := |s.eps|, NewStep(s);
    forall u | 0 <= u < |s.pcs| ensures PcKnown(n + 1, s.pcs[u]) && PcOk(s', u, s.pcs[u]) && Holds(s.pcs[u], n) == 0
      && !Casing(s.pcs[u], n) && !Dropping(s.pcs[u], n)
    {
      assert PcKnown(n, s.pcs[u]) && PcOk(s, u, s.pcs[u]);
      PcGrows(n, s.pcs[u]);
    }
    SumZero(s.pcs, HoldsOf(n));
    SumZero(s.pcs, CasingOf(n));
    SumZero(s.pcs, DroppingOf(n));
    forall e | 0 <= e < |s'.eps| ensures EpOkIn(s', e) {
      if e < n { assert EpOkIn(s, e); }
    }
  }

  lemma CallKeeps(s: State, s': State, t: nat)
    requires Inv(s) && t < |s.pcs| && s.pcs[t].Idle? && CallStep(s, s', t)
    ensures Inv(s')
  {
    if s.lock.None? && s' == NewStep(s) {
      NewKeeps(s);
    } else if s' == At(s, t, SendLock) {
      StayKeeps(s, s', t, SendLock);
    } else if e: nat :|
      e < |s.eps| && s.eps[e].users > 0 && s.eps[e].refcnt + 1 < WORD
      && s' == Do(s, t, e, (Cloned(s.eps[e]).(users := s.eps[e].users + 1), Idle))
    {
      UserCloneKeeps(s, s', t, e);
    } else {
      var e: nat :| e < |s.eps| && s.eps[e].users > 0
        && s' == Do(s, t, e, (s.eps[e].(users := s.eps[e].users - 1), DropSub(e, ToIdle)));
      UserDropKeeps(s, s', t, e);
    }
  }

  // ----- every step, every run -----

  lemma StepKeeps(s: State, s': State, t: nat)
    requires Inv(s) && Step(s, s', t)
    ensures Inv(s')
  {
    match s.pcs[t]
    case Idle => CallKeeps(s, s', t);
    case SendLock => SendLockKeeps(s, t);
    case SendClone(todo, local) =>
      if todo == [] { SendOnKeeps(s, s', t); } else { SendCloneKeeps(s, s', t, todo, local); }
    case SendUnlock(_) => SendOnKeeps(s, s', t);
    case SendDrop(_) => SendOnKeeps(s, s', t);
    case DropSub(e, k) => SubKeeps(s, s', t, e, k);
    case DropCas(e, k) => CasKeeps(s, s', t, e, k);
    case DropLock(e, k) => LockKeeps(s, t, e, k);
    case DropSearch(e, k) => SearchKeeps(s, t, e, k);
    case DropUnlock(k) => UnlockKeeps(s, t, k);
  }

  lemma NextKeeps(s: State, s': State)
    requires Inv(s) && Next(s, s')
    ensures Inv(s')
  {
    var t: nat :| Step(s, s', t);
    StepKeeps(s, s', t);
  }

  lemma {:induction false} RunKeeps(run: seq<State>, i: nat)
    requires Run(run) && i < |run|
    ensures Inv(run[i])
  {
    if i == 0 {
      InitInv(run[0]);
    } else {
      RunKeeps(run, i - 1);
      assert Advances(run, i - 1);
      NextKeeps(run[i - 1], run[i]);
    }
  }

  // ----- what every run keeps -----

  /** `refcnt` is the number of handles not yet dropped: the users', the list's, and those in the hands of threads. */
  lemma RefcntCounts(run: seq<State>, i: nat, e: nat)
    requires Run(run) && i < |run| && e < |run[i].eps|
    ensures run[i].eps[e].refcnt
      == run[i].eps[e].users + (if e in run[i].registry then 1 else 0) + Sum(run[i].pcs, HoldsOf(e))
  {
    RunKeeps(run, i);
    assert EpOkIn(run[i], e);
  }

  /** An endpoint that a user still holds is on its net, once. */
  lemma UsedIsRegistered(run: seq<State>, i: nat, e: nat)
    requires Run(run) && i < |run| && e < |run[i].eps| && run[i].eps[e].users > 0
    ensures e in run[i].registry && Times(run[i].registry, e) == 1 && !run[i].eps[e].dropped
  {
    RunKeeps(run, i);
    assert EpOkIn(run[i], e);
    TimesDistinct(run[i].registry, e);
    TimesSome(run[i].registry, e);
  }

  lemma {:induction false} TimesSome(l: seq<nat>, e: nat)
    requires e in l
    ensures Times(l, e) >= 1
  {
    if l[0] != e { TimesSome(l[1..], e); }
  }

  /** A thread that enters `drop_endpoint` never holds the net's mutex already, and the mutex has one owner. */
  lemma NoReentry(run: seq<State>, i: nat, t: nat, u: nat)
    requires Run(run) && i < |run| && t < |run[i].pcs| && u < |run[i].pcs|
    ensures run[i].pcs[t].DropLock? ==> run[i].lock != Some(t)
    ensures HasMutex(run[i].pcs[t]) && HasMutex(run[i].pcs[u]) ==> t == u
  {
    RunKeeps(run, i);
    assert PcOk(run[i], t, run[i].pcs[t]) && PcOk(run[i], u, run[i].pcs[u]);
  }

  predicate Waits(pc: Pc) {
    pc.SendLock? || pc.DropLock?
  }

  ghost predicate FewHandles(s: State) {
    forall e :: 0 <= e < |s.eps| ==> s.eps[e].refcnt + 1 < WORD
  }

  /** Every thread can go on, unless it waits for a mutex that is taken. */
  lemma NeverStuck(run: seq<State>, i: nat, t: nat)
    requires Run(run) && i < |run| && t < |run[i].pcs| && FewHandles(run[i])
    requires Waits(run[i].pcs[t]) ==> run[i].lock.None?
    ensures exists s' :: Step(run[i], s', t)
  {
    RunKeeps(run, i);
    var s := run[i];
    assert PcOk(s, t, s.pcs[t]) && PcKnown(|s.eps|, s.pcs[t]);
    if s.pcs[t].DropSearch? { TimesDistinct(s.registry, s.pcs[t].e); }
    Enabled(s, t);
  }

  lemma Enabled(s: State, t: nat)
    requires t < |s.pcs| && PcKnown(|s.eps|, s.pcs[t]) && FewHandles(s) && (Waits(s.pcs[t]) ==> s.lock.None?)
    requires s.pcs[t].DropSearch? ==> Times(s.registry, s.pcs[t].e) <= 1
    ensures exists s' :: Step(s, s', t)
  {
    var s' := match s.pcs[t]
      case Idle => At(s, t, SendLock)
      case SendLock => At(s.(lock := Some(t)), t, SendClone(s.registry, []))
      case SendClone(todo, local) =>
        if todo == [] then At(s, t, SendUnlock(local))
        else Do(s, t, todo[0], (Cloned(s.eps[todo[0]]), SendClone(todo[1..], local + [todo[0]])))
      case SendUnlock(local) => At(s.(lock := None), t, SendDrop(local))
      case SendDrop(local) => At(s, t, if local == [] then Idle else DropSub(local[0], ToSend(local[1..])))
      case DropSub(e, k) => Do(s, t, e, Subbed(s.eps[e], e, k))
      case DropCas(e, k) => Do(s, t, e, Swapped(s.eps[e], e, k))
      case DropLock(e, k) => At(s.(lock := Some(t)), t, DropSearch(e, k))
      case DropSearch(e, k) => SearchStep(s, t, e, k)
      case DropUnlock(k) => At(s.(lock := None), t, Resume(k));
    assert Step(s, s', t);
  }

  ghost predicate LockOk(s: State) {
    s.lock.Some? ==> s.lock.value < |s.pcs|
  }

  lemma StepLock(s: State, s': State, t: nat)
    requires LockOk(s) && Step(s, s', t)
    ensures LockOk(s')
  {
  }

  lemma {:induction false} RunLock(run: seq<State>, i: nat)
    requires Run(run) && i < |run|
    ensures LockOk(run[i])
  {
    if i > 0 {
      RunLock(run, i - 1);
      assert Advances(run, i - 1);
      var t: nat :| Step(run[i - 1], run[i], t);
      StepLock(run[i - 1], run[i], t);
    }
  }

  /** Whoever holds the mutex can go on and does not wait for it again, so nobody waits in vain. */
  lemma OwnerGoesOn(run: seq<State>, i: nat)
    requires Run(run) && i < |run| && run[i].lock.Some? && FewHandles(run[i])
    ensures var t := run[i].lock.value; t < |run[i].pcs| && HasMutex(run[i].pcs[t]) && exists s' :: Step(run[i], s', t)
  {
    RunKeeps(run, i);
    RunLock(run, i);
    var t := run[i].lock.value;
    assert PcOk(run[i], t, run[i].pcs[t]);
    NeverStuck(run, i, t);
  }

  // ----- the order of the list -----

  ghost predicate Ascending(l: seq<nat>) {
    forall i, j :: 0 <= i < j < |l| ==> l[i] < l[j]
  }

  lemma WithoutAscending(l: seq<nat>, e: nat)
    requires Ascending(l)
    ensures Ascending(Without(l, e))
  {
    var i, r := Find(l, e), Without(l, e);
    if i < |l| { assert forall j :: 0 <= j < |r| ==> r[j] == if j < i then l[j] else l[j + 1]; }
  }

  lemma StepAscending(s: State, s': State, u: nat)
    requires Ascending(s.registry) && Known(|s.eps|, s.registry) && Step(s, s', u)
    ensures Ascending(s'.registry)
  {
    if s.pcs[u].DropSearch? { WithoutAscending(s.registry, s.pcs[u].e); }
  }

  /** The list of a net, which is the order in which a send offers its message, is in the order of creation. */
  lemma {:induction false} ListInOrder(run: seq<State>, i: nat)
    requires Run(run) && i < |run|
    ensures Ascending(run[i].registry)
  {
    if i > 0 {
      ListInOrder(run, i - 1);
      RunKeeps(run, i - 1);
      assert Advances(run, i - 1);
      var u: nat :| Step(run[i - 1], run[i], u);
      StepAscending(run[i - 1], run[i], u);
    }
  }

  // ----- what a send copies -----

  /** What a send has copied, and what it has yet to copy, is the list of the net. */
  ghost predicate CopyOk(s: State, pc: Pc) {
    && (pc.SendClone? ==> pc.local + pc.todo == s.registry)
    && (pc.SendUnlock? ==> pc.local == s.registry)
  }

  ghost predicate CopiesOk(s: State) {
    forall t :: 0 <= t < |s.pcs| ==> CopyOk(s, s.pcs[t])
  }

  /** Thread `u` moved, and the list changed at most while nobody was copying it. */
  ghost predicate ListStep(s: State, s': State, u: nat) {
    && u < |s.pcs| && |s'.pcs| == |s.pcs| && s'.pcs == s.pcs[u := s'.pcs[u]] && CopyOk(s', s'.pcs[u])
    && (s'.registry == s.registry || s.lock.None? || HasMutex(s.pcs[u]))
  }

  lemma StepCopies(s: State, s': State, u: nat)
    requires u < |s.pcs| && CopyOk(s, s.pcs[u]) && Step(s, s', u)
    ensures ListStep(s, s', u)
  {
    if s.pcs[u].SendClone? && s.pcs[u].todo != [] {
      var todo, local := s.pcs[u].todo, s.pcs[u].local;
      assert local + [todo[0]] + todo[1..] == local + todo;
    }
  }

  lemma ListStepKeeps(s: State, s': State, u: nat)
    requires PcsOk(s) && CopiesOk(s) && ListStep(s, s', u)
    ensures CopiesOk(s')
  {
    forall t | 0 <= t < |s'.pcs| ensures CopyOk(s', s'.pcs[t]) {
      assert CopyOk(s, s.pcs[t]) && PcOk(s, t, s.pcs[t]) && PcOk(s, u, s.pcs[u]);
    }
  }

  lemma {:induction false} RunCopies(run: seq<State>, i: nat)
    requires Run(run) && i < |run|
    ensures CopiesOk(run[i])
  {
    if i > 0 {
      RunCopies(run, i - 1);
      RunKeeps(run, i - 1);
      assert Advances(run, i - 1);
      var u: nat :| Step(run[i - 1], run[i], u);
      StepCopies(run[i - 1], run[i], u);
      ListStepKeeps(run[i - 1], run[i], u);
    }
  }

  /**
   The list that a send goes through is the whole list of the net, in order, as it was while the send held the mutex; and
   each of its endpoints has a handle more until the send has dropped it.
   */
  lemma CopiesAll(run: seq<State>, i: nat, t: nat, local: seq<nat>)
    requires Run(run) && i + 1 < |run| && t < |run[i].pcs| == |run[i + 1].pcs|
    requires run[i].pcs[t].SendUnlock? && run[i + 1].pcs[t] == SendDrop(local)
    ensures local == run[i].registry
    ensures forall e :: Holds(run[i + 1].pcs[t], e) == Times(run[i].registry, e)
  {
    RunCopies(run, i);
    assert Advances(run, i);
    var u: nat :| Step(run[i], run[i + 1], u);
    assert CopyOk(run[i], run[i].pcs[t]) && CopyOk(run[i], run[i].pcs[u]);
    StepCopies(run[i], run[i + 1], u);
    if u == t { UnlockDrops(run[i], run[i + 1], t); }
  }

  lemma UnlockDrops(s: State, s': State, u: nat)
    requires u < |s.pcs| && s.pcs[u].SendUnlock? && Step(s, s', u)
    ensures |s'.pcs| == |s.pcs| && s'.pcs[u] == SendDrop(s.pcs[u].local)
  {
  }

  /** `drop_endpoint` always finds the endpoint, and finds it once: it cannot panic. */
  lemma SearchFinds(run: seq<State>, i: nat, t: nat)
    requires Run(run) && i < |run| && t < |run[i].pcs| && run[i].pcs[t].DropSearch?
    ensures Times(run[i].registry, run[i].pcs[t].e) == 1
  {
    RunKeeps(run, i);
    SearchKeeps(run[i], t, run[i].pcs[t].e, run[i].pcs[t].k);
    TimesDistinct(run[i].registry, run[i].pcs[t].e);
    TimesSome(run[i].registry, run[i].pcs[t].e);
  }

  ghost predicate Untouched(s: State, e: nat) {
    forall t :: 0 <= t < |s.pcs| ==> Holds(s.pcs[t], e) == 0 && !Casing(s.pcs[t], e) && !Dropping(s.pcs[t], e)
  }

  /** Once no user has a handle and no send or drop is under way, the endpoint is off its net and has no handle left. */
  lemma UnusedIsUnregistered(run: seq<State>, i: nat, e: nat)
    requires Run(run) && i < |run| && e < |run[i].eps| && run[i].eps[e].users == 0 && Untouched(run[i], e)
    ensures e !in run[i].registry && run[i].eps[e].refcnt == 0
  {
    RunKeeps(run, i);
    assert EpOkIn(run[i], e);
    SumZero(run[i].pcs, HoldsOf(e));
    SumZero(run[i].pcs, CasingOf(e));
    SumZero(run[i].pcs, DroppingOf(e));
  }
}
