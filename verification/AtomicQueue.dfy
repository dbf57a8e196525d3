/**
 The queue as its callers should see it: each `put` and each `get` takes effect at one instant between its
 call and its return. It knows nothing of nodes and claims. An item takes its place in the queue at the first of two
 operations of its put, and can be taken from the second on; a `get` takes the oldest item or, if that item cannot be
 taken yet, nothing.
 */
module AtomicQueue {
  import opened Base

  datatype Phase =
    | Resting
    | Putting(v: Payload)              // called, not yet in effect
    | Put(at: nat)                     // in effect: the item has its position, and nobody can take it yet
    | Linked                           // the item can be taken, and the put has not returned yet
    | Getting
    | Got(r: Option<Payload>)

  /** `all` lists every item ever put, in the order the puts took effect; the first `taken` are gone. */
  datatype State = State(all: seq<Payload>, taken: nat, phases: seq<Phase>)

  ghost predicate Valid(a: State) {
    a.taken <= |a.all|
  }

  function Contents(a: State): seq<Payload>
    requires a.taken <= |a.all|
  {
    a.all[a.taken..]
  }

  ghost predicate Move(a: State, a': State, t: nat, phase: Phase) {
    t < |a.phases| && a'.phases == a.phases[t := phase]
  }

  ghost predicate Call(a: State, a': State, t: nat) {
    && t < |a.phases| && a.phases[t].Resting? && a'.all == a.all && a'.taken == a.taken
    && ((exists v: Payload :: Move(a, a', t, Putting(v))) || Move(a, a', t, Getting))
  }

  ghost predicate Return(a: State, a': State, t: nat) {
    && t < |a.phases| && (a.phases[t].Linked? || a.phases[t].Got?) && a'.all == a.all && a'.taken == a.taken
    && Move(a, a', t, Resting)
  }

  ghost predicate Enqueue(a: State, a': State, t: nat) {
    && t < |a.phases| && a.phases[t].Putting?
    && a'.all == a.all + [a.phases[t].v] && a'.taken == a.taken && Move(a, a', t, Put(|a.all|))
  }

  ghost predicate Link(a: State, a': State, t: nat) {
    && t < |a.phases| && a.phases[t].Put? && a'.all == a.all && a'.taken == a.taken && Move(a, a', t, Linked)
  }

  /** The put of the oldest item has not linked it yet. */
  ghost predicate Blocked(a: State) {
    exists u :: 0 <= u < |a.phases| && a.phases[u] == Put(a.taken)
  }

  /** There is an oldest item, and it can be taken. */
  ghost predicate Available(a: State) {
    a.taken < |a.all| && !Blocked(a)
  }

  /** The oldest item leaves. */
  ghost predicate Dequeue(a: State, a': State, t: nat) {
    && t < |a.phases| && a.phases[t].Getting? && Available(a)
    && a'.all == a.all && a'.taken == a.taken + 1 && Move(a, a', t, Got(Some(a.all[a.taken])))
  }

  /** `get` finds nothing, because the queue is empty or its oldest item is not linked yet. */
  ghost predicate Miss(a: State, a': State, t: nat) {
    && t < |a.phases| && a.phases[t].Getting? && !Available(a)
    && a'.all == a.all && a'.taken == a.taken && Move(a, a', t, Got(None))
  }

  ghost predicate Step(a: State, a': State, t: nat) {
    Call(a, a', t) || Return(a, a', t) || Enqueue(a, a', t) || Link(a, a', t) || Dequeue(a, a', t) || Miss(a, a', t)
  }

  /** What a caller can see from one instant to the next. */
  ghost predicate MayFollow(a: State, a': State) {
    a' == a || exists t :: Step(a, a', t)
  }

  /** At the instant at which a `get` gets its answer, the answer is the oldest item, or nothing exactly if that is not available. */
  lemma AnswerIff(a: State, a': State, t: nat)
    requires Step(a, a', t) && a.phases[t].Getting?
    ensures a'.phases[t].Got?
    ensures a'.phases[t].r == if Available(a) then Some(a.all[a.taken]) else None
    ensures a'.taken == if Available(a) then a.taken + 1 else a.taken
  {
    if Miss(a, a', t) { assert a'.phases[t] == Got(None); } else { assert a'.phases[t] == Got(Some(a.all[a.taken])); }
  }

  ghost predicate Follows(h: seq<State>, i: int)
    requires 0 <= i < |h| - 1
  {
    MayFollow(h[i], h[i + 1])
  }

  /** What a caller can see from the creation of a queue on. */
  ghost predicate History(h: seq<State>) {
    && h != [] && h[0].all == [] && h[0].taken == 0
    && (forall i :: 0 <= i < |h| - 1 ==> Follows(h, i))
  }

  lemma {:induction false} Forward(h: seq<State>, i: nat, j: nat)
    requires History(h) && i <= j < |h|
    ensures h[i].all <= h[j].all && h[i].taken <= h[j].taken
  {
    if i < j {
      Forward(h, i, j - 1);
      assert Follows(h, j - 1);
    }
  }

  /** Two items that leave the queue one after the other are different items, and the first is the older one. */
  lemma OldestFirst(h: seq<State>, i: nat, j: nat, t: nat, u: nat)
    requires History(h) && i < j && j + 1 < |h| && Dequeue(h[i], h[i + 1], t) && Dequeue(h[j], h[j + 1], u)
    ensures h[i].taken < h[j].taken < |h[j].all|
    ensures h[i + 1].phases[t] == Got(Some(h[j].all[h[i].taken])) && h[j + 1].phases[u] == Got(Some(h[j].all[h[j].taken]))
  {
    Forward(h, i, j);
    Forward(h, i + 1, j);
  }
}
