/**
 The lifetime of endpoints: handles cloned and dropped by users, by the net's own list, and by sends that copy the
 list for a moment (`Clone` and `Drop` of `Endpoint`, `new_endpoint`, `send_internal`, `drop_endpoint`).
 */
module Lifetime {
  import opened Base

  /** `users` counts the handles that users own and can clone or drop; it is not stored anywhere in the program. */
  datatype Ep = Ep(refcnt: nat, dropped: bool, users: nat)

  /** What a thread does once the drop of a handle is finished. */
  datatype Cont =
    | ToIdle
    | ToSend(rest: seq<nat>)          // drop the other handles of the copied list
    | ToUnlock(next: Cont)            // the drop happened inside drop_endpoint, which still holds the net's mutex

  datatype Pc =
    | Idle
    | SendLock                                      // send_internal: lock the net
    | SendClone(todo: seq<nat>, local: seq<nat>)    // endpoints.clone(): refcnt.fetch_add, endpoint by endpoint
    | SendUnlock(local: seq<nat>)
    | SendDrop(local: seq<nat>)                     // offer the message, then drop the copied list
    | DropSub(e: nat, k: Cont)                      // refcnt.fetch_sub
    | DropCas(e: nat, k: Cont)                      // dropped.compare_and_swap(false, true)
    | DropLock(e: nat, k: Cont)                     // drop_endpoint: lock the net
    | DropSearch(e: nat, k: Cont)                   // drop_endpoint: search, remove
    | DropUnlock(k: Cont)

  /** `lock` is the mutex of the net and `registry` its list of endpoints. */
  datatype State = State(eps: seq<Ep>, registry: seq<nat>, lock: Option<nat>, pcs: seq<Pc>)

  ghost predicate Init(s: State) {
    s.eps == [] && s.registry == [] && s.lock == None && forall t :: 0 <= t < |s.pcs| ==> s.pcs[t] == Idle
  }

  function Times(s: seq<nat>, e: nat): nat {
    if s == [] then 0 else (if s[0] == e then 1 else 0) + Times(s[1..], e)
  }

  function Resume(k: Cont): Pc {
    match k
    case ToIdle => Idle
    case ToSend(rest) => SendDrop(rest)
    case ToUnlock(next) => DropUnlock(next)
  }

  // ----- one endpoint -----

  function Cloned(ep: Ep): Ep {
    ep.(refcnt := AddWord(ep.refcnt, 1))
  }

  /** `refcnt.fetch_sub(1) - 1`, and whether it leaves one handle. */
  function Subbed(ep: Ep, e: nat, k: Cont): (Ep, Pc) {
    var refcnt := SubWord(ep.refcnt, 1);
    (ep.(refcnt := refcnt), if refcnt == 1 then DropCas(e, k) else Resume(k))
  }

  function Swapped(ep: Ep, e: nat, k: Cont): (Ep, Pc) {
    (ep.(dropped := true), if ep.dropped then Resume(k) else DropLock(e, k))
  }

  // ----- steps -----

  function At(s: State, t: nat, pc: Pc): State
    requires t < |s.pcs|
  {
    s.(pcs := s.pcs[t := pc])
  }

  function Do(s: State, t: nat, e: nat, r: (Ep, Pc)): State
    requires t < |s.pcs| && e < |s.eps|
  {
    s.(eps := s.eps[e := r.0], pcs := s.pcs[t := r.1])
  }

  /** The position of an endpoint in the list. */
  function Find(registry: seq<nat>, e: nat): (i: nat)
    ensures i <= |registry| && (i < |registry| <==> e in registry) && (i < |registry| ==> registry[i] == e)
  {
    if registry == [] then 0 else if registry[0] == e then 0 else 1 + Find(registry[1..], e)
  }

  function Without(registry: seq<nat>, e: nat): seq<nat> {
    var i := Find(registry, e);
    if i < |registry| then registry[..i] + registry[i + 1..] else registry
  }

  /** The search of `drop_endpoint`. The removed handle is dropped while the mutex is still held. */
  function SearchStep(s: State, t: nat, e: nat, k: Cont): State
    requires t < |s.pcs|
  {
    if e in s.registry then
      At(s.(registry := Without(s.registry, e)), t, DropSub(e, ToUnlock(k)))
    else
      At(s, t, DropUnlock(k))
  }

  /** `new_endpoint`: one handle for the list, one for the caller. */
  function NewStep(s: State): State {
    s.(eps := s.eps + [Ep(2, false, 1)], registry := s.registry + [|s.eps|])
  }

  /** The calls of users. A handle needs memory, so there are never as many as a word can count. */
  ghost predicate CallStep(s: State, s': State, t: nat)
    requires t < |s.pcs|
  {
    || (s.lock.None? && s' == NewStep(s))
    || (exists e: nat :: e < |s.eps| && s.eps[e].users > 0 && s.eps[e].refcnt + 1 < WORD
          && s' == Do(s, t, e, (Cloned(s.eps[e]).(users := s.eps[e].users + 1), Idle)))
    || (exists e: nat :: e < |s.eps| && s.eps[e].users > 0
          && s' == Do(s, t, e, (s.eps[e].(users := s.eps[e].users - 1), DropSub(e, ToIdle))))
    || s' == At(s, t, SendLock)
  }

  ghost predicate SendStep(s: State, s': State, t: nat)
    requires t < |s.pcs|
  {
    match s.pcs[t]
    case SendLock => s.lock.None? && s' == At(s.(lock := Some(t)), t, SendClone(s.registry, []))
    case SendClone(todo, local) =>
      if todo == [] then s' == At(s, t, SendUnlock(local))
      else todo[0] < |s.eps| && s.eps[todo[0]].refcnt + 1 < WORD
           && s' == Do(s, t, todo[0], (Cloned(s.eps[todo[0]]), SendClone(todo[1..], local + [todo[0]])))
    case SendUnlock(local) => s' == At(s.(lock := None), t, SendDrop(local))
    case SendDrop(local) => s' == At(s, t, if local == [] then Idle else DropSub(local[0], ToSend(local[1..])))
    case _ => false
  }

  ghost predicate DropStep(s: State, s': State, t: nat)
    requires t < |s.pcs|
  {
    match s.pcs[t]
    case DropSub(e, k) => e < |s.eps| && s' == Do(s, t, e, Subbed(s.eps[e], e, k))
    case DropCas(e, k) => e < |s.eps| && s' == Do(s, t, e, Swapped(s.eps[e], e, k))
    case DropLock(e, k) => s.lock.None? && s' == At(s.(lock := Some(t)), t, DropSearch(e, k))
    case DropSearch(e, k) => Times(s.registry, e) <= 1 && s' == SearchStep(s, t, e, k)   // more than once: panic
    case DropUnlock(k) => s' == At(s.(lock := None), t, Resume(k))
    case _ => false
  }

  ghost predicate Step(s: State, s': State, t: nat) {
    t < |s.pcs| && ((s.pcs[t].Idle? && CallStep(s, s', t)) || SendStep(s, s', t) || DropStep(s, s', t))
  }

  ghost predicate Next(s: State, s': State) {
    exists t: nat :: Step(s, s', t)
  }

  ghost predicate Advances(run: seq<State>, i: int)
    requires 0 <= i < |run| - 1
  {
    Next(run[i], run[i + 1])
  }

  ghost predicate Run(run: seq<State>) {
    && |run| > 0 && Init(run[0])
    && (forall i :: 0 <= i < |run| - 1 ==> Advances(run, i))
  }
}
