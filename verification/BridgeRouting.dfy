/** Two nets joined by one bridge: which messages cross, who gets them, and which come back. */
module BridgeRouting {
  import opened Base
  import opened Routing
  import opened BridgeCodec

  datatype RawMsg = RawMsg(header: Header, body: seq<Byte>)

  /** The message does not come from this endpoint, or may loop. */
  predicate NotOwn(a: Address, h: Header) {
    h.canloop || h.srcsid != a.sid || h.srceid != a.eid
  }

  /** The message is for the system of this endpoint: for any, for the local one of the net, or by name. */
  predicate ForSystem(sid: nat, a: Address, h: Header) {
    h.dstsid == ANY || (h.dstsid == LOCAL && a.sid == sid) || (h.dstsid != LOCAL && h.dstsid == a.sid)
  }

  predicate ForEndpoint(a: Address, h: Header) {
    h.dsteid == ANY || h.dsteid == a.eid
  }

  /** The endpoint is one of those that the message is meant for. */
  predicate Meant(sid: nat, a: Address, h: Header) {
    NotOwn(a, h) && ForSystem(sid, a, h) && ForEndpoint(a, h)
  }

  /** The address test of `give` takes exactly the messages that are meant for the endpoint. */
  lemma AcceptsIff(sid: nat, a: Address, h: Header)
    ensures Accepts(sid, a, h) <==> Meant(sid, a, h)
  {
  }

  /** What one endpoint queues when a message is offered to it, without limits. */
  function Given(sid: nat, a: Address, m: RawMsg): seq<RawMsg> {
    if Meant(sid, a, m.header) then [m] else []
  }

  function Targets(sid: nat, eps: seq<Address>, h: Header): set<nat> {
    set i: nat | i < |eps| && Meant(sid, eps[i], h)
  }

  /** The loop of `send_internal` over the copied endpoint list. */
  method SendInternal(sid: nat, eps: seq<Address>, queues: array<seq<RawMsg>>, m: RawMsg) returns (ocnt: nat)
    requires queues.Length == |eps|
    modifies queues
    ensures forall i :: 0 <= i < |eps| ==> queues[i] == old(queues[i]) + Given(sid, eps[i], m)
    ensures ocnt == |Targets(sid, eps, m.header)|
  {
    ocnt := 0;
    for i := 0 to |eps|
      invariant ocnt == |Targets(sid, eps[..i], m.header)|
      invariant forall k :: 0 <= k < |eps| ==> queues[k] == old(queues[k]) + (if k < i then Given(sid, eps[k], m) else [])
    {
      TargetsNext(sid, eps, i, m.header);
      AcceptsIff(sid, eps[i], m.header);
      if Accepts(sid, eps[i], m.header) {
        queues[i] := queues[i] + [m];
        ocnt := ocnt + 1;
      }
    }
    assert eps[..|eps|] == eps;
  }

  lemma TargetsNext(sid: nat, eps: seq<Address>, i: nat, h: Header)
    requires i < |eps|
    ensures |Targets(sid, eps[..i + 1], h)| == |Targets(sid, eps[..i], h)| + (if Meant(sid, eps[i], h) then 1 else 0)
  {
    var before, after := Targets(sid, eps[..i], h), Targets(sid, eps[..i + 1], h);
    assert forall k: nat :: k < i ==> eps[..i + 1][k] == eps[..i][k];
    assert after == if Meant(sid, eps[i], h) then before + {i} else before;
  }

  /** Identifiers that are neither wildcards nor each other's. */
  ghost predicate TwoNets(a: nat, b: nat) {
    a != b && a != ANY && a != LOCAL && b != ANY && b != LOCAL
  }

  /** The net `sid`: endpoint `p` is the near end of a bridge to the net `far`, all others are ordinary. */
  ghost predicate Side(sid: nat, eps: seq<Address>, p: nat, far: nat) {
    p < |eps| && eps[p].sid == far && forall i :: 0 <= i < |eps| && i != p ==> eps[i].sid == sid
  }

  function ToFrame(m: RawMsg): Frame {
    Frame(m.header.srcsid, m.header.srceid, m.header.dstsid, m.header.dsteid, m.body)
  }

  /** A bridge does not carry `canloop`: the message on the far side starts with the default. */
  function FromFrame(f: Frame): RawMsg {
    RawMsg(Header(f.srcsid, f.srceid, f.dstsid, f.dsteid, false), f.body)
  }

  function Arrived(h: Header): Header {
    h.(canloop := false)
  }

  /** A message for the other net is taken by the bridge alone, and on the other side by all but the bridge. */
  lemma DirectedRoute(a: nat, epsA: seq<Address>, p: nat, b: nat, epsB: seq<Address>, q: nat, h: Header)
    requires TwoNets(a, b) && Side(a, epsA, p, b) && Side(b, epsB, q, a)
    requires h.srcsid == a && h.dstsid == b && h.dsteid == ANY
    ensures forall i :: 0 <= i < |epsA| ==> (Accepts(a, epsA[i], h) <==> i == p)
    ensures forall j :: 0 <= j < |epsB| ==> (Accepts(b, epsB[j], Arrived(h)) <==> j != q)
  {
  }

  /** A message for the local net never crosses, whatever else its header says. */
  lemma LocalStays(a: nat, epsA: seq<Address>, p: nat, b: nat, h: Header)
    requires TwoNets(a, b) && Side(a, epsA, p, b) && h.dstsid == LOCAL
    ensures !Accepts(a, epsA[p], h)
  {
  }

  /**
   A local message reaches the ordinary endpoints of its net that it names or that it leaves open, except the one it comes
   from unless it may loop, and never the bridge.
   */
  lemma LocalRoute(a: nat, epsA: seq<Address>, p: nat, b: nat, h: Header, i: nat)
    requires TwoNets(a, b) && Side(a, epsA, p, b) && h.srcsid == a && h.dstsid == LOCAL && i < |epsA|
    ensures Accepts(a, epsA[i], h)
      <==> i != p && (h.dsteid == ANY || h.dsteid == epsA[i].eid) && (h.canloop || h.srceid != epsA[i].eid)
  {
  }

  ghost predicate DistinctEids(eps: seq<Address>) {
    forall i, j :: 0 <= i < j < |eps| ==> eps[i].eid != eps[j].eid
  }

  /** `sendclonetype` and `sendsynctype`: a local broadcast is offered to all endpoints of the net but the sender and the bridge. */
  lemma BroadcastCount(a: nat, epsA: seq<Address>, p: nat, b: nat, h: Header, s: nat)
    requires TwoNets(a, b) && Side(a, epsA, p, b) && DistinctEids(epsA) && s < |epsA| && s != p
    requires h == Header(a, epsA[s].eid, LOCAL, ANY, false)
    ensures |Targets(a, epsA, h)| == |epsA| - 2 && s !in Targets(a, epsA, h)
  {
    assert Targets(a, epsA, h) == Below(|epsA|) - {s, p};
  }

  function Below(n: nat): (s: set<nat>)
    ensures |s| == n && forall i :: i in s <==> 0 <= i < n
  {
    if n == 0 then {} else Below(n - 1) + {n - 1}
  }

  /** A message that crossed is sent back by the far end of the bridge exactly if it was for any net and is not taken for its own. */
  lemma EchoedIff(a: nat, epsA: seq<Address>, p: nat, b: nat, epsB: seq<Address>, q: nat, h: Header)
    requires TwoNets(a, b) && Side(a, epsA, p, b) && Side(b, epsB, q, a) && h.srcsid == a && Accepts(a, epsA[p], h)
    ensures Accepts(b, epsB[q], Arrived(h))
      <==> h.dstsid == ANY && (h.dsteid == ANY || h.dsteid == epsB[q].eid) && h.srceid != epsB[q].eid
  {
  }

  // ----- lists of messages -----

  /** Of all messages sent in a net, those that an endpoint queues, in order. */
  function Queued(sid: nat, a: Address, ms: seq<RawMsg>): seq<RawMsg> {
    if ms == [] then [] else Queued(sid, a, ms[..|ms| - 1]) + Given(sid, a, ms[|ms| - 1])
  }

  lemma QueuedNext(sid: nat, a: Address, ms: seq<RawMsg>, k: nat)
    requires k < |ms|
    ensures Queued(sid, a, ms[..k + 1]) == Queued(sid, a, ms[..k]) + Given(sid, a, ms[k])
  {
    assert ms[..k + 1][..k] == ms[..k];
  }

  function Frames(ms: seq<RawMsg>): (fs: seq<Frame>)
    ensures |fs| == |ms|
  {
    seq(|ms|, i requires 0 <= i < |ms| => ToFrame(ms[i]))
  }

  /** What the far side makes of a message that crosses. */
  function Across(m: RawMsg): RawMsg {
    RawMsg(Arrived(m.header), m.body)
  }

  function Crossed(ms: seq<RawMsg>): (cs: seq<RawMsg>)
    ensures |cs| == |ms|
  {
    seq(|ms|, i requires 0 <= i < |ms| => Across(ms[i]))
  }

  ghost predicate CanCross(m: RawMsg) {
    Fits(ToFrame(m)) && |m.body| >= 1
  }

  ghost predicate AllCanCross(ms: seq<RawMsg>) {
    forall i :: 0 <= i < |ms| ==> CanCross(ms[i])
  }

  lemma {:induction false} QueuedCanCross(sid: nat, a: Address, ms: seq<RawMsg>)
    requires AllCanCross(ms)
    ensures AllCanCross(Queued(sid, a, ms))
  {
    if ms != [] {
      assert CanCross(ms[|ms| - 1]);
      QueuedCanCross(sid, a, ms[..|ms| - 1]);
    }
  }

  lemma {:induction false} ForwardedAll(fs: seq<Frame>)
    ensures Forwarded(Inbox(fs)) == fs
  {
    if fs != [] {
      assert Inbox(fs)[1..] == Inbox(fs[1..]);
      ForwardedAll(fs[1..]);
    }
  }

  function Inbox(fs: seq<Frame>): seq<Event> {
    seq(|fs|, i requires 0 <= i < |fs| => Event.Raw(fs[i]))
  }

  /** Messages sent one after the other. */
  method SendAll(sid: nat, eps: seq<Address>, queues: array<seq<RawMsg>>, ms: seq<RawMsg>)
    requires queues.Length == |eps|
    modifies queues
    ensures forall i :: 0 <= i < |eps| ==> queues[i] == old(queues[i]) + Queued(sid, eps[i], ms)
  {
    for k := 0 to |ms|
      invariant forall i :: 0 <= i < |eps| ==> queues[i] == old(queues[i]) + Queued(sid, eps[i], ms[..k])
    {
      forall i | 0 <= i < |eps| ensures Queued(sid, eps[i], ms[..k + 1]) == Queued(sid, eps[i], ms[..k]) + Given(sid, eps[i], ms[k]) {
        QueuedNext(sid, eps[i], ms, k);
      }
      var ocnt := SendInternal(sid, eps, queues, ms[k]);
    }
    assert ms[..|ms|] == ms;
  }

  /** The bridge: what is waiting at endpoint `p` of one net is sent in the other. */
  method Bridge(a: nat, queuesA: array<seq<RawMsg>>, p: nat, b: nat, epsB: seq<Address>, queuesB: array<seq<RawMsg>>)
    returns (wire: seq<Byte>)
    requires a < WORD && p < queuesA.Length && queuesB.Length == |epsB| && queuesA != queuesB && AllCanCross(queuesA[p])
    modifies queuesA, queuesB
    ensures wire == BigEndian(a, 8) + Encode(Frames(old(queuesA[p])))
    ensures forall i :: 0 <= i < queuesA.Length ==> queuesA[i] == if i == p then [] else old(queuesA[i])
    ensures forall j :: 0 <= j < |epsB| ==> queuesB[j] == old(queuesB[j]) + Queued(b, epsB[j], Crossed(old(queuesA[p])))
  {
    var out := queuesA[p];
    queuesA[p] := [];
    ForwardedAll(Frames(out));
    forall i | 0 <= i < |out| ensures Fits(Frames(out)[i]) && |Frames(out)[i].body| >= 1 { assert CanCross(out[i]); }
    var remote, sent;
    wire, remote, sent := Connect(a, Inbox(Frames(out)));
    var arrived := seq(|sent|, i requires 0 <= i < |sent| => FromFrame(sent[i]));
    assert arrived == Crossed(out);
    SendAll(b, epsB, queuesB, arrived);
  }

  /**
   Messages are sent in net `a`, behind whatever the near end of the bridge has still to carry over, and what has reached it
   is carried over and sent in net `b`.
   */
  method SendAcross(a: nat, epsA: seq<Address>, queuesA: array<seq<RawMsg>>, p: nat,
                    b: nat, epsB: seq<Address>, queuesB: array<seq<RawMsg>>, ms: seq<RawMsg>)
    returns (wire: seq<Byte>)
    requires a < WORD && p < |epsA| && queuesA.Length == |epsA| && queuesB.Length == |epsB| && queuesA != queuesB
    requires AllCanCross(queuesA[p]) && AllCanCross(ms)
    modifies queuesA, queuesB
    ensures wire == BigEndian(a, 8) + Encode(Frames(old(queuesA[p]) + Queued(a, epsA[p], ms)))
    ensures forall i :: 0 <= i < |epsA| ==> queuesA[i] == if i == p then [] else old(queuesA[i]) + Queued(a, epsA[i], ms)
    ensures forall j :: 0 <= j < |epsB| ==>
      queuesB[j] == old(queuesB[j]) + Queued(b, epsB[j], Crossed(old(queuesA[p]) + Queued(a, epsA[p], ms)))
  {
    QueuedCanCross(a, epsA[p], ms);
    SendAll(a, epsA, queuesA, ms);
    wire := Bridge(a, queuesA, p, b, epsB, queuesB);
  }

  /** From an endpoint of net `a`, to all endpoints of net `b` or to the local net. */
  predicate Addressed(a: nat, b: nat, h: Header) {
    h.srcsid == a && (h.dstsid == LOCAL || (h.dstsid == b && h.dsteid == ANY))
  }

  /** The messages for net `b`. */
  function Remote(b: nat, ms: seq<RawMsg>): seq<RawMsg> {
    if ms == [] then []
    else Remote(b, ms[..|ms| - 1]) + (if ms[|ms| - 1].header.dstsid == b then [ms[|ms| - 1]] else [])
  }

  /** The near end of the bridge takes the messages for net `b` and nothing else. */
  lemma {:induction false} NearTakes(a: nat, epsA: seq<Address>, p: nat, b: nat, ms: seq<RawMsg>)
    requires TwoNets(a, b) && Side(a, epsA, p, b) && forall i :: 0 <= i < |ms| ==> Addressed(a, b, ms[i].header)
    ensures Queued(a, epsA[p], ms) == Remote(b, ms)
  {
    if ms != [] {
      NearTakes(a, epsA, p, b, ms[..|ms| - 1]);
      assert Addressed(a, b, ms[|ms| - 1].header);
    }
  }

  /** The ordinary endpoints at home take the local messages for them and nothing else. */
  lemma {:induction false} HomeTakes(a: nat, epsA: seq<Address>, p: nat, b: nat, ms: seq<RawMsg>, i: nat)
    requires TwoNets(a, b) && Side(a, epsA, p, b) && i < |epsA| && i != p
    requires forall k :: 0 <= k < |ms| ==> Addressed(a, b, ms[k].header)
    ensures Queued(a, epsA[i], ms) == Locals(epsA[i], ms)
  {
    if ms != [] {
      HomeTakes(a, epsA, p, b, ms[..|ms| - 1], i);
      assert Addressed(a, b, ms[|ms| - 1].header);
    }
  }

  /** Of the messages sent in a net, the local ones that an ordinary endpoint gets. */
  function Locals(a: Address, ms: seq<RawMsg>): seq<RawMsg> {
    if ms == [] then []
    else
      var h := ms[|ms| - 1].header;
      Locals(a, ms[..|ms| - 1])
      + (if h.dstsid == LOCAL && (h.dsteid == ANY || h.dsteid == a.eid) && (h.canloop || h.srceid != a.eid) then [ms[|ms| - 1]] else [])
  }

  /** Messages from net `a` to all of net `b`. */
  predicate Directed(a: nat, b: nat, h: Header) {
    h.srcsid == a && h.dstsid == b && h.dsteid == ANY
  }

  lemma {:induction false} RemoteDirected(a: nat, b: nat, ms: seq<RawMsg>)
    requires TwoNets(a, b) && forall i :: 0 <= i < |ms| ==> Addressed(a, b, ms[i].header)
    ensures forall i :: 0 <= i < |Remote(b, ms)| ==> Directed(a, b, Remote(b, ms)[i].header)
  {
    if ms != [] {
      RemoteDirected(a, b, ms[..|ms| - 1]);
      assert Addressed(a, b, ms[|ms| - 1].header);
    }
  }

  /** Every ordinary endpoint of net `b` takes all that crosses, and the far end of the bridge nothing. */
  lemma {:induction false} FarTakes(a: nat, b: nat, epsB: seq<Address>, q: nat, ms: seq<RawMsg>, j: nat)
    requires TwoNets(a, b) && Side(b, epsB, q, a) && j < |epsB| && forall i :: 0 <= i < |ms| ==> Directed(a, b, ms[i].header)
    ensures Queued(b, epsB[j], Crossed(ms)) == if j == q then [] else Crossed(ms)
  {
    if ms != [] {
      FarTakes(a, b, epsB, q, ms[..|ms| - 1], j);
      CrossedLast(ms);
      FarGiven(a, b, epsB, q, ms[|ms| - 1], j);
    }
  }

  lemma CrossedLast(ms: seq<RawMsg>)
    requires ms != []
    ensures Crossed(ms)[..|ms| - 1] == Crossed(ms[..|ms| - 1]) && Crossed(ms)[|ms| - 1] == Across(ms[|ms| - 1])
    ensures Crossed(ms) == Crossed(ms[..|ms| - 1]) + [Across(ms[|ms| - 1])]
  {
  }

  lemma FarGiven(a: nat, b: nat, epsB: seq<Address>, q: nat, m: RawMsg, j: nat)
    requires TwoNets(a, b) && Side(b, epsB, q, a) && j < |epsB| && Directed(a, b, m.header)
    ensures Given(b, epsB[j], Across(m)) == if j == q then [] else [Across(m)]
  {
  }

  /**
   Of any list of such messages the bridge takes those for net `b` and nothing else, in order: a local one puts no byte on
   the wire. Over there every ordinary endpoint queues each of them once, in order, and the far end of the bridge none, so
   nothing comes back; and at home every ordinary endpoint queues the local ones for it and nothing else.
   */
  lemma ListRoute(a: nat, epsA: seq<Address>, p: nat, b: nat, epsB: seq<Address>, q: nat, ms: seq<RawMsg>)
    requires TwoNets(a, b) && Side(a, epsA, p, b) && Side(b, epsB, q, a)
    requires forall i :: 0 <= i < |ms| ==> Addressed(a, b, ms[i].header)
    ensures Queued(a, epsA[p], ms) == Remote(b, ms)
    ensures forall j :: 0 <= j < |epsB| ==> Queued(b, epsB[j], Crossed(Remote(b, ms))) == if j == q then [] else Crossed(Remote(b, ms))
    ensures forall i :: 0 <= i < |epsA| && i != p ==> Queued(a, epsA[i], ms) == Locals(epsA[i], ms)
  {
    NearTakes(a, epsA, p, b, ms);
    RemoteDirected(a, b, ms);
    forall j | 0 <= j < |epsB| ensures Queued(b, epsB[j], Crossed(Remote(b, ms))) == if j == q then [] else Crossed(Remote(b, ms)) {
      FarTakes(a, b, epsB, q, Remote(b, ms), j);
    }
    forall i | 0 <= i < |epsA| && i != p ensures Queued(a, epsA[i], ms) == Locals(epsA[i], ms) {
      HomeTakes(a, epsA, p, b, ms, i);
    }
  }

  /**
   From send to queues: a list of such messages is sent over an idle bridge. The wire carries those for net `b` and nothing
   else, every ordinary endpoint of net `b` queues each of them once, in order, and the far end of the bridge none of them;
   the ordinary endpoints of net `a` queue the local messages for them.
   */
  method SendAddressed(a: nat, epsA: seq<Address>, queuesA: array<seq<RawMsg>>, p: nat,
                       b: nat, epsB: seq<Address>, queuesB: array<seq<RawMsg>>, q: nat, ms: seq<RawMsg>)
    returns (wire: seq<Byte>)
    requires TwoNets(a, b) && Side(a, epsA, p, b) && Side(b, epsB, q, a) && a < WORD
    requires queuesA.Length == |epsA| && queuesB.Length == |epsB| && queuesA != queuesB && queuesA[p] == []
    requires AllCanCross(ms) && forall i :: 0 <= i < |ms| ==> Addressed(a, b, ms[i].header)
    modifies queuesA, queuesB
    ensures wire == BigEndian(a, 8) + Encode(Frames(Remote(b, ms)))
    ensures forall i :: 0 <= i < |epsA| && i != p ==> queuesA[i] == old(queuesA[i]) + Locals(epsA[i], ms)
    ensures forall j :: 0 <= j < |epsB| ==> queuesB[j] == old(queuesB[j]) + if j == q then [] else Crossed(Remote(b, ms))
  {
    ListRoute(a, epsA, p, b, epsB, q, ms);
    assert [] + Queued(a, epsA[p], ms) == Remote(b, ms);
    wire := SendAcross(a, epsA, queuesA, p, b, epsB, queuesB, ms);
  }
}
