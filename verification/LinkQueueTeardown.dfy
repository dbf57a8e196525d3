/** After a concurrent run of the link queue has come to rest, dropping it frees every node that is still allocated. */
module LinkQueueTeardown {
  import opened Base
  import opened LinkQueueModel
  import opened LinkQueueInvariant
  import opened LinkQueueSafety
  import opened LinkQueueTheorems
  import Q = SequentialQueue
  import opened QueueMemory

  /** The chain as teardown walks it. */
  function Remaining(s: State): seq<Ptr>
    requires s.lo <= |s.order|
  {
    s.order[s.lo..]
  }

  lemma QuietWalkable(s: State)
    requires s.lo <= |s.order| && NULL !in s.heap
    requires forall at: nat :: s.lo <= at < |s.order| ==> LinkedAt(s, at)
    requires forall at, at' :: s.lo <= at < at' < |s.order| ==> s.order[at] != s.order[at']
    ensures Q.Walkable(s.heap, Remaining(s))
  {
    var gone := Remaining(s);
    forall i | 0 <= i < |gone| ensures gone[i] in s.heap && Q.WalkAt(s.heap, gone, i) {
      assert LinkedAt(s, s.lo + i);
    }
  }

  lemma QuietOwned(s: State)
    requires s.lo <= |s.order| && NULL !in s.heap
    requires forall p :: p in s.heap <==> p != NULL && ((exists at :: s.lo <= at < |s.order| && s.order[at] == p) || p in s.slots)
    requires forall at :: s.lo <= at < |s.order| ==> s.order[at] !in s.slots && s.order[at] in s.heap
    ensures Q.Owned(s.heap, Remaining(s), s.slots)
  {
    forall p ensures p in Q.NodesOf(Remaining(s)) <==> exists at :: s.lo <= at < |s.order| && s.order[at] == p {
      if at :| s.lo <= at < |s.order| && s.order[at] == p { assert Remaining(s)[at - s.lo] == p; }
    }
  }

  /** What `SequentialQueue.InfiniteLinkQueue.Drop` asks for holds whenever all operations have finished, in either mode. */
  lemma QuietDroppable(m: Mode, run: seq<State>, i: nat)
    requires Run(m, run) && i < |run| && Quiet(run[i])
    ensures run[i].lo <= |run[i].order| && Q.Droppable(run[i].heap, run[i].slots, run[i].ptr, Remaining(run[i]))
    ensures Distinct(run[i].slots)
  {
    RunShape(m, run, i);
    QuietConservation(m, run, i);
    QuietLinks(m, run, i);
    QuietAll(run[i]);
  }

  lemma QuietLinks(m: Mode, run: seq<State>, i: nat)
    requires Run(m, run) && i < |run| && Quiet(run[i])
    ensures forall at: nat :: run[i].lo <= at < |run[i].order| ==> LinkedAt(run[i], at)
  {
    forall at: nat | run[i].lo <= at < |run[i].order| ensures LinkedAt(run[i], at) { QuietChain(m, run, i, at); }
  }

  lemma QuietAll(s: State)
    requires s.lo <= |s.order| && NULL !in s.heap && (s.lo == |s.order| ==> s.order == [])
    requires s.ptr == if s.order == [] then NULL else s.order[|s.order| - 1]
    requires forall p :: p in s.heap <==> p != NULL && ((exists at :: s.lo <= at < |s.order| && s.order[at] == p) || p in s.slots)
    requires forall at :: s.lo <= at < |s.order| ==> s.order[at] !in s.slots
    requires forall at, at' :: s.lo <= at < at' < |s.order| ==> s.order[at] != s.order[at']
    requires forall at: nat :: s.lo <= at < |s.order| ==> LinkedAt(s, at)
    ensures Q.Droppable(s.heap, s.slots, s.ptr, Remaining(s))
  {
    forall at | s.lo <= at < |s.order| ensures s.order[at] in s.heap { assert LinkedAt(s, at); }
    QuietWalkable(s);
    QuietOwned(s);
  }

  lemma RunShape(m: Mode, run: seq<State>, i: nat)
    requires Run(m, run) && i < |run|
    ensures run[i].lo <= |run[i].order| && NULL !in run[i].heap
    ensures run[i].ptr == if run[i].order == [] then NULL else run[i].order[|run[i].order| - 1]
    ensures run[i].lo == |run[i].order| ==> run[i].order == []
  {
    RunKeeps(m, run, i);
  }
}
