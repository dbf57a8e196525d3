/** The pipeline of tests/practicalengine.rs: a manager splits a request into chunks, workers process them, the manager puts the replies together. */
module ScatterGather {
  import opened Base
  import opened RawMessages

  datatype Work = Work(id: nat, data: seq<Byte>, offset: nat, length: nat)

  datatype WorkReply = WorkReply(id: nat, data: seq<Byte>, offset: nat)

  datatype Pending = Pending(epsid: nat, epid: nat, need: nat, totalsize: nat, work: seq<WorkReply>)

  datatype Answer =
    | Nothing
    | Finished(id: nat, data: seq<Byte>, dstsid: nat, dsteid: nat)
    | Crash                                       // an index out of bounds

  // ----- splitting -----

  /** Chunk `k` of `n` bytes for `corecnt` workers; the last one takes the slack. */
  function ChunkOffset(n: nat, corecnt: nat, k: nat): nat
    requires corecnt > 0
  {
    k * (n / corecnt)
  }

  function ChunkLength(n: nat, corecnt: nat, k: nat): nat
    requires corecnt > 0
  {
    if k == corecnt - 1 then n / corecnt + n % corecnt else n / corecnt
  }

  predicate InChunk(n: nat, corecnt: nat, k: nat, i: nat)
    requires corecnt > 0
  {
    ChunkOffset(n, corecnt, k) <= i < ChunkOffset(n, corecnt, k) + ChunkLength(n, corecnt, k)
  }

  method Split(id: nat, data: seq<Byte>, corecnt: nat) returns (works: seq<Work>)
    requires corecnt > 0
    ensures |works| == corecnt
    ensures forall k :: 0 <= k < corecnt ==>
      works[k] == Work(id, data, ChunkOffset(|data|, corecnt, k), ChunkLength(|data|, corecnt, k))
  {
    var chklen := |data| / corecnt;
    var slack := |data| % corecnt;
    works := [];
    for chkndx := 0 to corecnt - 1
      invariant |works| == chkndx
      invariant forall k :: 0 <= k < chkndx ==>
        works[k] == Work(id, data, ChunkOffset(|data|, corecnt, k), ChunkLength(|data|, corecnt, k))
    {
      works := works + [Work(id, data, chkndx * chklen, chklen)];
    }
    works := works + [Work(id, data, (corecnt - 1) * chklen, chklen + slack)];
  }

  lemma SplitProduct(c: nat, j: nat, k: nat)
    requires j <= k
    ensures k * c == j * c + (k - j) * c && j * c <= k * c
  {
    assert k * c == (j + (k - j)) * c;
    assert 0 <= (k - j) * c;
  }

  /** The chunks follow one another without gap, from the first byte to the last. */
  lemma ChunksAdjoin(n: nat, corecnt: nat, k: nat)
    requires k < corecnt
    ensures ChunkOffset(n, corecnt, 0) == 0
    ensures ChunkOffset(n, corecnt, k) + ChunkLength(n, corecnt, k)
      == if k == corecnt - 1 then n else ChunkOffset(n, corecnt, k + 1)
    ensures ChunkOffset(n, corecnt, k) + ChunkLength(n, corecnt, k) <= n
  {
    var c := n / corecnt;
    SplitProduct(c, k, k + 1);
    SplitProduct(c, k + 1, corecnt);
  }

  /** Every byte is in exactly one chunk. */
  lemma ChunksPartition(n: nat, corecnt: nat, i: nat) returns (k: nat)
    requires corecnt > 0 && i < n
    ensures k < corecnt && InChunk(n, corecnt, k, i)
    ensures forall k' :: 0 <= k' < corecnt && InChunk(n, corecnt, k', i) ==> k' == k
  {
    k := 0;
    while !InChunk(n, corecnt, k, i)
      invariant k < corecnt && ChunkOffset(n, corecnt, k) <= i
      decreases corecnt - k
    {
      ChunksAdjoin(n, corecnt, k);
      k := k + 1;
    }
    forall k' | 0 <= k' < corecnt && InChunk(n, corecnt, k', i) ensures k' == k {
      if k' < k { ChunksOrdered(n, corecnt, k', k); } else if k < k' { ChunksOrdered(n, corecnt, k, k'); }
    }
  }

  lemma ChunksOrdered(n: nat, corecnt: nat, k: nat, k': nat)
    requires k < k' < corecnt
    ensures ChunkOffset(n, corecnt, k) + ChunkLength(n, corecnt, k) <= ChunkOffset(n, corecnt, k')
  {
    var c := n / corecnt;
    SplitProduct(c, k, k + 1);
    SplitProduct(c, k + 1, k');
  }

  // ----- processing -----

  /** `((d * 2) >> 1 + 5) * 2` on bytes: the shift is by six, and both products wrap. */
  function Process(d: Byte): Byte {
    (d * 2 % 256) / 64 * 2 % 256
  }

  /** Twice the two bits below the highest one. */
  lemma ProcessIs(d: Byte)
    ensures Process(d) == 2 * (d % 128 / 32)
  {
  }

  function ProcessAll(data: seq<Byte>): (r: seq<Byte>)
    ensures |r| == |data|
  {
    seq(|data|, i requires 0 <= i < |data| => Process(data[i]))
  }

  /** A worker's answer to one chunk. */
  method Worker(w: Work) returns (r: WorkReply)
    requires w.offset + w.length <= |w.data|
    ensures r == WorkReply(w.id, ProcessAll(w.data[w.offset..w.offset + w.length]), w.offset)
  {
    var out: seq<Byte> := [];
    for i := 0 to w.length
      invariant |out| == i
      invariant forall k :: 0 <= k < i ==> out[k] == Process(w.data[w.offset + k])
    {
      out := out + [Process(w.data[i + w.offset])];
    }
    assert out == ProcessAll(w.data[w.offset..w.offset + w.length]);
    r := WorkReply(w.id, out, w.offset);
  }

  // ----- putting together -----

  /** Every byte of the reply has its place. */
  ghost predicate FitsIn(totalsize: nat, r: WorkReply) {
    r.data != [] ==> r.offset + |r.data| <= totalsize
  }

  ghost predicate AllFit(totalsize: nat, replies: seq<WorkReply>) {
    forall i :: 0 <= i < |replies| ==> FitsIn(totalsize, replies[i])
  }

  ghost function Over(f: seq<Byte>, r: WorkReply): (f': seq<Byte>)
    requires FitsIn(|f|, r)
    ensures |f'| == |f|
    ensures forall j :: 0 <= j < |f| ==> f'[j] == if r.offset <= j < r.offset + |r.data| then r.data[j - r.offset] else f[j]
  {
    if r.data == [] then f else Written(f, r.offset, r.data)
  }

  /** Zeros, with all replies written over them in order of arrival. */
  ghost function Assembled(totalsize: nat, replies: seq<WorkReply>): (r: seq<Byte>)
    requires AllFit(totalsize, replies)
    ensures |r| == totalsize
  {
    if replies == [] then seq(totalsize, _ => 0)
    else Over(Assembled(totalsize, replies[..|replies| - 1]), replies[|replies| - 1])
  }

  /** The two nested loops of the manager; they crash if a byte has no place. */
  method Assemble(totalsize: nat, replies: seq<WorkReply>) returns (f: array<Byte>, ok: bool)
    ensures fresh(f) && f.Length == totalsize
    ensures ok <==> AllFit(totalsize, replies)
    ensures ok ==> f[..] == Assembled(totalsize, replies)
  {
    ok := true;
    f := new Byte[totalsize](_ => 0);
    for n := 0 to |replies|
      invariant fresh(f) && ok
      invariant AllFit(totalsize, replies[..n])
      invariant f[..] == Assembled(totalsize, replies[..n])
    {
      var reply := replies[n];
      ghost var was := f[..];
      var i := 0;
      while i < |reply.data|
        invariant 0 <= i <= |reply.data| && fresh(f)
        invariant i > 0 ==> reply.offset + i <= totalsize
        invariant forall j :: 0 <= j < totalsize ==>
          f[j] == if reply.offset <= j < reply.offset + i then reply.data[j - reply.offset] else was[j]
      {
        if reply.offset + i >= totalsize {
          assert !FitsIn(totalsize, replies[n]);
          ok := false;
          return;
        }
        f[reply.offset + i] := reply.data[i];
        i := i + 1;
      }
      assert f[..] == Over(was, reply);
      assert replies[..n + 1][..n] == replies[..n];
    }
    assert replies[..|replies|] == replies;
  }

  /** The manager's table of requests in progress. */
  class Manager {
    var pending: map<nat, Pending>

    constructor ()
      ensures pending == map[]
    {
      pending := map[];
    }

    method OnRequest(id: nat, data: seq<Byte>, srcsid: nat, srceid: nat, corecnt: nat) returns (works: seq<Work>)
      requires corecnt > 0
      modifies this
      ensures pending == old(pending)[id := Pending(srcsid, srceid, corecnt, |data|, [])]
      ensures |works| == corecnt
      ensures forall k :: 0 <= k < corecnt ==>
        works[k] == Work(id, data, ChunkOffset(|data|, corecnt, k), ChunkLength(|data|, corecnt, k))
    {
      pending := pending[id := Pending(srcsid, srceid, corecnt, |data|, [])];
      works := Split(id, data, corecnt);
    }

    /** An answer once there are as many replies as there were chunks. */
    method OnReply(reply: WorkReply) returns (answer: Answer)
      modifies this
      ensures reply.id !in old(pending) ==> pending == old(pending) && answer == Nothing
      ensures reply.id in old(pending) ==> var p := old(pending)[reply.id];
        && pending == old(pending)[reply.id := p.(work := p.work + [reply])]
        && answer == (if |p.work| + 1 < p.need then Nothing
                      else if !AllFit(p.totalsize, p.work + [reply]) then Crash
                      else Finished(reply.id, Assembled(p.totalsize, p.work + [reply]), p.epsid, p.epid))
    {
      if reply.id !in pending { return Nothing; }
      var p := pending[reply.id];
      p := p.(work := p.work + [reply]);
      pending := pending[reply.id := p];
      if |p.work| < p.need { return Nothing; }
      var f, ok := Assemble(p.totalsize, p.work);
      return if ok then Finished(reply.id, f[..], p.epsid, p.epid) else Crash;
    }
  }

  // ----- any order of arrival -----

  /** A reply that says what the worker function makes of the bytes it covers. */
  ghost predicate Right(data: seq<Byte>, r: WorkReply) {
    r.offset + |r.data| <= |data| && r.data == ProcessAll(data[r.offset..r.offset + |r.data|])
  }

  predicate Covers(r: WorkReply, i: nat) {
    r.offset <= i < r.offset + |r.data|
  }

  ghost predicate Covered(replies: seq<WorkReply>, i: nat) {
    exists k :: 0 <= k < |replies| && Covers(replies[k], i)
  }

  lemma {:induction false} AssembledAt(data: seq<Byte>, replies: seq<WorkReply>, i: nat)
    requires i < |data| && forall k :: 0 <= k < |replies| ==> Right(data, replies[k])
    ensures AllFit(|data|, replies)
    ensures Covered(replies, i) ==> Assembled(|data|, replies)[i] == Process(data[i])
  {
    if replies != [] {
      var last, rest := replies[|replies| - 1], replies[..|replies| - 1];
      AssembledAt(data, rest, i);
      if Covers(last, i) {
        assert Right(data, last);
        assert last.data[i - last.offset] == Process(data[last.offset..last.offset + |last.data|][i - last.offset]);
      } else if Covered(replies, i) {
        var k :| 0 <= k < |replies| && Covers(replies[k], i);
        assert Covers(rest[k], i);
      }
    }
  }

  /** The reply of a worker to chunk `k`. */
  function ChunkReply(id: nat, data: seq<Byte>, corecnt: nat, k: nat): WorkReply
    requires k < corecnt
  {
    ChunksAdjoin(|data|, corecnt, k);
    var offset := ChunkOffset(|data|, corecnt, k);
    WorkReply(id, ProcessAll(data[offset..offset + ChunkLength(|data|, corecnt, k)]), offset)
  }

  /** `order` lists the chunks in order of arrival, each of them once. */
  ghost predicate IsOrder(order: seq<nat>, corecnt: nat) {
    && |order| == corecnt
    && (forall k :: 0 <= k < corecnt ==> k in order)
    && (forall j :: 0 <= j < |order| ==> order[j] < corecnt)
  }

  function Arrivals(id: nat, data: seq<Byte>, corecnt: nat, order: seq<nat>): seq<WorkReply>
    requires forall j :: 0 <= j < |order| ==> order[j] < corecnt
  {
    seq(|order|, j requires 0 <= j < |order| => ChunkReply(id, data, corecnt, order[j]))
  }

  lemma ArrivalsRight(id: nat, data: seq<Byte>, corecnt: nat, order: seq<nat>, j: nat)
    requires j < |order| && forall x :: 0 <= x < |order| ==> order[x] < corecnt
    ensures Right(data, Arrivals(id, data, corecnt, order)[j])
  {
    ChunksAdjoin(|data|, corecnt, order[j]);
  }

  lemma ByteCovered(id: nat, data: seq<Byte>, corecnt: nat, order: seq<nat>, i: nat)
    requires corecnt > 0 && IsOrder(order, corecnt) && i < |data|
    ensures Covered(Arrivals(id, data, corecnt, order), i)
  {
    var k := ChunksPartition(|data|, corecnt, i);
    ChunksAdjoin(|data|, corecnt, k);
    assert k in order;
    var j :| 0 <= j < |order| && order[j] == k;
    assert Covers(Arrivals(id, data, corecnt, order)[j], i);
  }

  /** Whatever the order in which the replies arrive, together they are the worker function over the original data. */
  lemma AnyOrder(id: nat, data: seq<Byte>, corecnt: nat, order: seq<nat>)
    requires corecnt > 0 && IsOrder(order, corecnt)
    ensures AllFit(|data|, Arrivals(id, data, corecnt, order))
    ensures Assembled(|data|, Arrivals(id, data, corecnt, order)) == ProcessAll(data)
  {
    var replies := Arrivals(id, data, corecnt, order);
    forall j | 0 <= j < |replies| ensures Right(data, replies[j]) {
      ArrivalsRight(id, data, corecnt, order, j);
    }
    forall i | 0 <= i < |data| ensures Assembled(|data|, replies)[i] == Process(data[i]) {
      ByteCovered(id, data, corecnt, order, i);
      AssembledAt(data, replies, i);
    }
  }

  // ----- many requests at a time -----

  datatype Request = Request(id: nat, data: seq<Byte>, srcsid: nat, srceid: nat)

  /** What reaches the manager: request number `r`, or the reply to chunk `k` of that request. */
  datatype Event = Ask(r: nat) | Back(r: nat, k: nat)

  /** Each request comes once, and each of its replies once, at any time after it. */
  ghost predicate SoundAt(events: seq<Event>, count: nat, corecnt: nat, i: int)
    requires 0 <= i < |events|
  {
    && events[i].r < count && events[i] !in events[..i]
    && (events[i].Back? ==> events[i].k < corecnt && Ask(events[i].r) in events[..i])
  }

  ghost predicate Sound(events: seq<Event>, count: nat, corecnt: nat) {
    forall i :: 0 <= i < |events| ==> SoundAt(events, count, corecnt, i)
  }

  ghost predicate Distinct(reqs: seq<Request>) {
    forall i, j :: 0 <= i < j < |reqs| ==> reqs[i].id != reqs[j].id
  }

  /** The chunks of request `r` that have come back, in order of arrival. */
  function Got(events: seq<Event>, r: nat): seq<nat> {
    if events == [] then []
    else
      var last, rest := events[|events| - 1], Got(events[..|events| - 1], r);
      if last.Back? && last.r == r then rest + [last.k] else rest
  }

  lemma GotNext(events: seq<Event>, i: nat, r: nat)
    requires i < |events|
    ensures Got(events[..i + 1], r) == Got(events[..i], r) + (if events[i].Back? && events[i].r == r then [events[i].k] else [])
  {
    assert events[..i + 1][..i] == events[..i];
  }

  /** Some of the chunks, each of them at most once. */
  ghost predicate Chunks(got: seq<nat>, corecnt: nat) {
    && (forall j :: 0 <= j < |got| ==> got[j] < corecnt)
    && (forall i, j :: 0 <= i < j < |got| ==> got[i] != got[j])
  }

  lemma {:induction false} GotChunks(events: seq<Event>, count: nat, corecnt: nat, i: nat, r: nat)
    requires Sound(events, count, corecnt) && i <= |events|
    ensures Chunks(Got(events[..i], r), corecnt)
    ensures forall k :: k in Got(events[..i], r) ==> Back(r, k) in events[..i]
  {
    if i > 0 {
      GotChunks(events, count, corecnt, i - 1, r);
      GotNext(events, i - 1, r);
      assert SoundAt(events, count, corecnt, i - 1);
    }
  }

  /** All chunks are there as soon as there are as many as there are chunks. */
  lemma {:induction false} ChunksFull(got: seq<nat>, n: nat)
    requires Chunks(got, n)
    ensures |got| <= n && (|got| == n ==> forall k :: 0 <= k < n ==> k in got)
  {
    if got != [] { assert got[0] < n; }
    if n > 0 {
      if j: nat :| j < |got| && got[j] == n - 1 {
        var rest := got[..j] + got[j + 1..];
        ChunksFull(rest, n - 1);
        assert forall k :: k in rest ==> k in got;
      } else {
        ChunksFull(got, n - 1);
      }
    }
  }

  lemma FullIsOrder(got: seq<nat>, corecnt: nat)
    requires Chunks(got, corecnt)
    ensures |got| <= corecnt && (|got| == corecnt ==> IsOrder(got, corecnt))
  {
    ChunksFull(got, corecnt);
  }

  /** The answer to a request, which is due as soon as all its chunks have come back. */
  function Expected(reqs: seq<Request>, corecnt: nat, events: seq<Event>, i: nat): Answer
    requires i < |events| && events[i].r < |reqs|
  {
    var q := reqs[events[i].r];
    if events[i].Back? && |Got(events[..i + 1], events[i].r)| == corecnt then Finished(q.id, ProcessAll(q.data), q.srcsid, q.srceid)
    else Nothing
  }

  /** The manager's entry of a request whose chunks `got` have come back. */
  ghost predicate Entry(pending: map<nat, Pending>, q: Request, corecnt: nat, got: seq<nat>) {
    && Chunks(got, corecnt) && q.id in pending
    && pending[q.id] == Pending(q.srcsid, q.srceid, corecnt, |q.data|, Arrivals(q.id, q.data, corecnt, got))
  }

  /** The chunks of a request, as they were handed out. */
  ghost predicate HandedOut(works: seq<Work>, q: Request, corecnt: nat) {
    && |works| == corecnt
    && (forall k :: 0 <= k < corecnt ==>
          works[k] == Work(q.id, q.data, ChunkOffset(|q.data|, corecnt, k), ChunkLength(|q.data|, corecnt, k)))
  }

  ghost predicate InProgress(pending: map<nat, Pending>, reqs: seq<Request>, corecnt: nat, events: seq<Event>, works: seq<seq<Work>>) {
    && |works| == |reqs|
    && (forall r: nat :: r < |reqs| && Ask(r) in events ==>
          Entry(pending, reqs[r], corecnt, Got(events, r)) && HandedOut(works[r], reqs[r], corecnt))
  }

  /** Nothing has come back of a request that has not come. */
  lemma {:induction false} NothingYet(events: seq<Event>, count: nat, corecnt: nat, i: nat, r: nat)
    requires Sound(events, count, corecnt) && i <= |events| && Ask(r) !in events[..i]
    ensures Got(events[..i], r) == []
  {
    if i > 0 {
      NothingYet(events, count, corecnt, i - 1, r);
      GotNext(events, i - 1, r);
      assert SoundAt(events, count, corecnt, i - 1);
    }
  }

  lemma AskKeeps(pending: map<nat, Pending>, reqs: seq<Request>, corecnt: nat, events: seq<Event>, i: nat, works: seq<seq<Work>>,
                 pending': map<nat, Pending>, works': seq<seq<Work>>)
    requires Sound(events, |reqs|, corecnt) && Distinct(reqs) && i < |events| && events[i].Ask? && events[i].r < |reqs|
    requires InProgress(pending, reqs, corecnt, events[..i], works)
    requires var q := reqs[events[i].r]; pending' == pending[q.id := Pending(q.srcsid, q.srceid, corecnt, |q.data|, [])]
    requires |works'| == |works| && HandedOut(works'[events[i].r], reqs[events[i].r], corecnt)
    requires forall r :: 0 <= r < |reqs| && r != events[i].r ==> works'[r] == works[r]
    ensures InProgress(pending', reqs, corecnt, events[..i + 1], works')
  {
    assert SoundAt(events, |reqs|, corecnt, i);
    NothingYet(events, |reqs|, corecnt, i, events[i].r);
    forall r: nat | r < |reqs| && Ask(r) in events[..i + 1]
      ensures Entry(pending', reqs[r], corecnt, Got(events[..i + 1], r)) && HandedOut(works'[r], reqs[r], corecnt)
    {
      GotNext(events, i, r);
      if r != events[i].r { assert Ask(r) in events[..i]; }
    }
  }

  lemma BackKeeps(pending: map<nat, Pending>, reqs: seq<Request>, corecnt: nat, events: seq<Event>, i: nat, works: seq<seq<Work>>,
                  pending': map<nat, Pending>)
    requires Sound(events, |reqs|, corecnt) && Distinct(reqs) && i < |events| && events[i].Back? && events[i].r < |reqs|
    requires InProgress(pending, reqs, corecnt, events[..i], works)
    requires forall id :: id != reqs[events[i].r].id ==> (id in pending' <==> id in pending) && (id in pending ==> pending'[id] == pending[id])
    requires Entry(pending', reqs[events[i].r], corecnt, Got(events[..i + 1], events[i].r))
    ensures InProgress(pending', reqs, corecnt, events[..i + 1], works)
  {
    forall r: nat | r < |reqs| && Ask(r) in events[..i + 1]
      ensures Entry(pending', reqs[r], corecnt, Got(events[..i + 1], r)) && HandedOut(works[r], reqs[r], corecnt)
    {
      GotNext(events, i, r);
      assert Ask(r) in events[..i];
    }
  }

  lemma ArrivalsNext(id: nat, data: seq<Byte>, corecnt: nat, got: seq<nat>, k: nat)
    requires (forall j :: 0 <= j < |got| ==> got[j] < corecnt) && k < corecnt
    ensures forall j :: 0 <= j < |got + [k]| ==> (got + [k])[j] < corecnt
    ensures Arrivals(id, data, corecnt, got) + [ChunkReply(id, data, corecnt, k)] == Arrivals(id, data, corecnt, got + [k])
  {
  }

  /** A worker processes chunk `k` of a request, and its reply reaches the manager. */
  method ProcessChunk(m: Manager, q: Request, corecnt: nat, ghost got: seq<nat>, work: Work, k: nat) returns (answer: Answer)
    requires Entry(m.pending, q, corecnt, got) && Chunks(got + [k], corecnt) && k < corecnt
    requires work == Work(q.id, q.data, ChunkOffset(|q.data|, corecnt, k), ChunkLength(|q.data|, corecnt, k))
    modifies m
    ensures Entry(m.pending, q, corecnt, got + [k]) && m.pending == old(m.pending)[q.id := m.pending[q.id]]
    ensures answer == if |got| + 1 == corecnt then Finished(q.id, ProcessAll(q.data), q.srcsid, q.srceid) else Nothing
  {
    ChunksAdjoin(|q.data|, corecnt, k);
    ArrivalsNext(q.id, q.data, corecnt, got, k);
    FullIsOrder(got + [k], corecnt);
    if |got| + 1 == corecnt { AnyOrder(q.id, q.data, corecnt, got + [k]); }
    var reply := Worker(work);
    assert reply == ChunkReply(q.id, q.data, corecnt, k);
    answer := m.OnReply(reply);
  }

  function Ids(reqs: seq<Request>): set<nat> {
    set r | 0 <= r < |reqs| :: reqs[r].id
  }

  /**
   Any number of requests with distinct identifiers, their chunks processed and their replies arriving in any order and
   interleaved in any way: the manager answers a request exactly at its last reply, with the worker function over the whole
   of its data, to whom it came from. Requests with other identifiers stay as they are.
   */
  method Pipeline(m: Manager, reqs: seq<Request>, corecnt: nat, events: seq<Event>) returns (answers: seq<Answer>)
    requires corecnt > 0 && Distinct(reqs) && Sound(events, |reqs|, corecnt)
    modifies m
    ensures |answers| == |events|
    ensures forall i :: 0 <= i < |events| ==> events[i].r < |reqs| && answers[i] == Expected(reqs, corecnt, events, i)
    ensures m.pending - Ids(reqs) == old(m.pending) - Ids(reqs)
  {
    answers := [];
    var works: seq<seq<Work>> := seq(|reqs|, _ => []);
    for i := 0 to |events|
      invariant |answers| == i && InProgress(m.pending, reqs, corecnt, events[..i], works)
      invariant forall j :: 0 <= j < i ==> events[j].r < |reqs| && answers[j] == Expected(reqs, corecnt, events, j)
      invariant m.pending - Ids(reqs) == old(m.pending) - Ids(reqs)
    {
      assert SoundAt(events, |reqs|, corecnt, i);
      var answer := Nothing;
      if events[i].Ask? {
        works := HandleAsk(m, reqs, corecnt, events, i, works);
      } else {
        answer := HandleBack(m, reqs, corecnt, events, i, works);
      }
      answers := answers + [answer];
    }
  }

  /** Writing the entry of one of these requests leaves the entries of all other identifiers alone. */
  lemma OthersStay(pending: map<nat, Pending>, reqs: seq<Request>, r: nat, entry: Pending)
    requires r < |reqs|
    ensures pending[reqs[r].id := entry] - Ids(reqs) == pending - Ids(reqs)
  {
    assert reqs[r].id in Ids(reqs);
  }

  method HandleAsk(m: Manager, reqs: seq<Request>, corecnt: nat, events: seq<Event>, i: nat, works: seq<seq<Work>>)
    returns (works': seq<seq<Work>>)
    requires corecnt > 0 && Distinct(reqs) && Sound(events, |reqs|, corecnt) && i < |events| && events[i].Ask? && events[i].r < |reqs|
    requires InProgress(m.pending, reqs, corecnt, events[..i], works)
    modifies m
    ensures InProgress(m.pending, reqs, corecnt, events[..i + 1], works') && Nothing == Expected(reqs, corecnt, events, i)
    ensures m.pending - Ids(reqs) == old(m.pending) - Ids(reqs)
  {
    assert SoundAt(events, |reqs|, corecnt, i);
    var r, q := events[i].r, reqs[events[i].r];
    var chunks := m.OnRequest(q.id, q.data, q.srcsid, q.srceid, corecnt);
    works' := works[r := chunks];
    AskKeeps(old(m.pending), reqs, corecnt, events, i, works, m.pending, works');
    OthersStay(old(m.pending), reqs, r, m.pending[q.id]);
  }

  method HandleBack(m: Manager, reqs: seq<Request>, corecnt: nat, events: seq<Event>, i: nat, works: seq<seq<Work>>)
    returns (answer: Answer)
    requires Distinct(reqs) && Sound(events, |reqs|, corecnt) && i < |events| && events[i].Back? && events[i].r < |reqs|
    requires InProgress(m.pending, reqs, corecnt, events[..i], works)
    modifies m
    ensures InProgress(m.pending, reqs, corecnt, events[..i + 1], works) && answer == Expected(reqs, corecnt, events, i)
    ensures m.pending - Ids(reqs) == old(m.pending) - Ids(reqs)
  {
    assert SoundAt(events, |reqs|, corecnt, i);
    var r, k := events[i].r, events[i].k;
    GotChunks(events, |reqs|, corecnt, i + 1, r);
    GotNext(events, i, r);
    answer := ProcessChunk(m, reqs[r], corecnt, Got(events[..i], r), works[r][k], k);
    BackKeeps(old(m.pending), reqs, corecnt, events, i, works, m.pending);
    OthersStay(old(m.pending), reqs, r, m.pending[reqs[r].id]);
  }

  /** A request all of whose replies have come has been answered once, and before that never. */
  lemma {:induction false} AnsweredOnce(events: seq<Event>, count: nat, corecnt: nat, n: nat, r: nat) returns (i: nat)
    requires corecnt > 0 && Sound(events, count, corecnt) && n <= |events| && |Got(events[..n], r)| == corecnt
    ensures i < n && Due(events, corecnt, i, r)
    ensures forall j: nat :: j < n && Due(events, corecnt, j, r) ==> j == i
  {
    GotNext(events, n - 1, r);
    if Due(events, corecnt, n - 1, r) {
      i := n - 1;
      forall j: nat | j < n && Due(events, corecnt, j, r) ensures j == i { if j < i { GotGrows(events, j + 1, i, r); } }
    } else {
      i := AnsweredOnce(events, count, corecnt, n - 1, r);
    }
  }

  /** Event `i` is the last reply to request `r`. */
  ghost predicate Due(events: seq<Event>, corecnt: nat, i: nat, r: nat)
    requires i < |events|
  {
    events[i].Back? && events[i].r == r && |Got(events[..i + 1], r)| == corecnt
  }

  lemma {:induction false} GotGrows(events: seq<Event>, i: nat, j: nat, r: nat)
    requires i <= j <= |events|
    ensures |Got(events[..i], r)| <= |Got(events[..j], r)|
  {
    if i < j {
      GotGrows(events, i, j - 1, r);
      GotNext(events, j - 1, r);
    }
  }
}
