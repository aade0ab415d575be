/** The per-peer multi-producer, single-consumer packet queue of queueing.c.

    An intrusive list threaded through `skb->prev` (called NEXT in the source), with a stub
    node embedded in the queue.  Producers push by exchanging `head` and then linking the
    node they displaced; the one consumer walks from `tail`.  The functions below are the
    atomic operations of the C code, one step each, under sequential consistency.  Loads and
    stores of `queue->tail`, which only the consumer touches, are merged with the atomic
    operation next to them. */
module PrevQueue {
  import opened Common
  import opened Words

  /** A list node: the queue's embedded stub, or a packet. */
  datatype Ptr = Stub | Skb(id: nat)

  /** Where a producer is inside `wg_prev_queue_enqueue`. */
  datatype Producer =
    | Reserved(skb: nat)              // count taken, about to clear NEXT(skb)
    | Cleared(skb: nat)               // about to exchange head
    | Exchanged(skb: nat, prev: Ptr)  // about to store NEXT(prev) = skb

  /** Where the consumer is inside `wg_prev_queue_dequeue`; `Ready` is outside, holding the
      value the last call returned. */
  datatype Consumer =
    | Ready(last: Option<nat>)
    | LoadSecond(t: Ptr)              // stub skipped, about to load NEXT(t)
    | AtHead(t: Ptr)                  // NEXT(t) was NULL, about to compare with head
    | StubClear(t: Ptr)               // about to store NEXT(stub) = NULL
    | StubXchg(t: Ptr)                // about to exchange head with the stub
    | StubLink(t: Ptr, prev: Ptr)     // about to store NEXT(prev) = stub
    | Reload(t: Ptr)                  // about to load NEXT(t) again
    | AtDec(skb: nat)                 // tail advanced past skb, about to decrement count

  /** The fields of `struct prev_queue`, the NEXT links, and everyone's program counter. */
  datatype Queue = Queue(
    head: Ptr,
    tail: Ptr,
    next: map<Ptr, Ptr>,              // absent means NULL
    count: int,
    producers: map<nat, Producer>,    // one entry per thread inside enqueue
    consumer: Consumer)

  /** Variables that record what happened.  The code has none of them; a step looks at `chain` only for
      what its thread knows by owning the packet, that it is not in the queue already; and it is
      never empty. */
  datatype History = History(
    chain: seq<Ptr>,      // the nodes from tail to head, in the order head was exchanged
    exchanged: seq<nat>,  // packets in the order of their head exchange
    taken: seq<nat>,      // packets in the order the consumer took them
    linker: map<nat, nat>,  // for each packet exchanged but not linked, the thread to link it
    excused: bool)        // during the current call, the queue was empty or a link was missing

  datatype State = State(q: Queue, h: History)

  function Next(q: Queue, p: Ptr): Option<Ptr> {
    if p in q.next then Some(q.next[p]) else None
  }

  /** The packets of a chain, without the stub. */
  function Packets(chain: seq<Ptr>): (r: seq<nat>)
    ensures |r| <= |chain|
  {
    if chain == [] then []
    else if chain[0].Skb? then [chain[0].id] + Packets(chain[1..])
    else Packets(chain[1..])
  }

  predicate LinkMissing(q: Queue) {
    exists t :: t in q.producers && q.producers[t].Exchanged?
  }

  /** Nothing to take, or some producer has exchanged the head and not linked yet. */
  predicate EmptyOrMissing(q: Queue, chain: seq<Ptr>) {
    Packets(chain) == [] || LinkMissing(q)
  }

  // ----- wg_prev_queue_init ------------------------------------------------------------

  function Init(): State {
    State(Queue(Stub, Stub, map[], 0, map[], Ready(None)), History([Stub], [], [], map[], true))
  }

  // ----- steps -------------------------------------------------------------------------

  datatype Step =
    | Reserve(tid: nat, skb: nat)
    | Clear(tid: nat)
    | Exchange(tid: nat)
    | Link(tid: nat)
    | Call
    | Consume       // the consumer's next atomic operation inside dequeue

  /** History after a step that leaves the chain alone. */
  function Note(s: State, q': Queue): State {
    State(q', s.h.(excused := s.h.excused || EmptyOrMissing(q', s.h.chain)))
  }

  /** The tail pointer moves past `t` to `n`: the consumer has taken `t`. */
  function Advance(s: State, n: Ptr, c: Consumer): State
    requires |s.h.chain| > 0
  {
    var t := s.h.chain[0];
    var chain' := s.h.chain[1..];
    var q' := s.q.(tail := n, consumer := c);
    State(q', s.h.(chain := chain',
                   taken := if t.Skb? then s.h.taken + [t.id] else s.h.taken,
                   excused := s.h.excused || EmptyOrMissing(q', chain')))
  }

  /** `atomic_add_unless(&queue->count, 1, MAX_QUEUED_PACKETS)` by a thread that owns skb. */
  predicate CanReserve(s: State, tid: nat, skb: nat) {
    && tid !in s.q.producers
    && Skb(skb) !in s.h.chain
    && (forall t :: t in s.q.producers ==> s.q.producers[t].skb != skb)
    && s.q.consumer != AtDec(skb)
  }

  function DoReserve(s: State, tid: nat, skb: nat): State {
    if s.q.count == MAX_QUEUED_PACKETS then s   // enqueue returns false
    else Note(s, s.q.(count := s.q.count + 1, producers := s.q.producers[tid := Reserved(skb)]))
  }

  function DoClear(s: State, tid: nat): State
    requires tid in s.q.producers && s.q.producers[tid].Reserved?
  {
    var skb := s.q.producers[tid].skb;
    Note(s, s.q.(next := s.q.next - {Skb(skb)}, producers := s.q.producers[tid := Cleared(skb)]))
  }

  function DoExchange(s: State, tid: nat): State
    requires tid in s.q.producers && s.q.producers[tid].Cleared?
  {
    var skb := s.q.producers[tid].skb;
    var q' := s.q.(head := Skb(skb), producers := s.q.producers[tid := Exchanged(skb, s.q.head)]);
    var chain' := s.h.chain + [Skb(skb)];
    State(q', s.h.(chain := chain', exchanged := s.h.exchanged + [skb], linker := s.h.linker[skb := tid],
                   excused := s.h.excused || EmptyOrMissing(q', chain')))
  }

  function DoLink(s: State, tid: nat): State
    requires tid in s.q.producers && s.q.producers[tid].Exchanged?
  {
    var p := s.q.producers[tid];
    Note(s.(h := s.h.(linker := s.h.linker - {p.skb})),
         s.q.(next := s.q.next[p.prev := Skb(p.skb)], producers := s.q.producers - {tid}))
  }

  function Return(s: State, r: Option<nat>): State {
    Note(s, s.q.(consumer := Ready(r)))
  }

  /** The two tests after NEXT(t) has been loaded as `n`, t not being the stub. */
  function Branch(s: State, t: Ptr, n: Option<Ptr>): State
    requires |s.h.chain| > 0 && t.Skb?
  {
    match n
    case Some(n) => Advance(s, n, AtDec(t.id))
    case None => Note(s, s.q.(consumer := AtHead(t)))
  }

  /** Entry to dequeue: reads tail and loads NEXT(tail). */
  function DoCall(s: State): State
    requires |s.h.chain| > 0
  {
    var s0 := s.(h := s.h.(excused := EmptyOrMissing(s.q, s.h.chain)));
    var t := s0.q.tail;
    match t
    case Stub =>
      (match Next(s0.q, t)
       case None => Return(s0, None)
       case Some(n) => Advance(s0, n, LoadSecond(n)))
    case Skb(_) => Branch(s0, t, Next(s0.q, t))
  }

  function DoConsume(s: State): State
    requires |s.h.chain| > 0 && !s.q.consumer.Ready?
    requires s.q.consumer.LoadSecond? ==> s.q.consumer.t.Skb?
    requires s.q.consumer.Reload? ==> s.q.consumer.t.Skb?
  {
    match s.q.consumer
    case LoadSecond(t) => Branch(s, t, Next(s.q, t))
    case AtHead(t) =>
      if t != s.q.head then Return(s, None) else Note(s, s.q.(consumer := StubClear(t)))
    case StubClear(t) => Note(s, s.q.(next := s.q.next - {Stub}, consumer := StubXchg(t)))
    case StubXchg(t) =>
      var q' := s.q.(head := Stub, consumer := StubLink(t, s.q.head));
      State(q', s.h.(chain := s.h.chain + [Stub],
                     excused := s.h.excused || EmptyOrMissing(q', s.h.chain + [Stub])))
    case StubLink(t, prev) => Note(s, s.q.(next := s.q.next[prev := Stub], consumer := Reload(t)))
    case Reload(t) =>
      (match Next(s.q, t)
       case Some(n) => Advance(s, n, AtDec(t.id))
       case None => Return(s, None))
    case AtDec(t) =>
      Note(s, s.q.(count := s.q.count - 1, consumer := Ready(Some(t))))
  }

  predicate Enabled(s: State, step: Step) {
    && |s.h.chain| > 0
    && match step
       case Reserve(tid, skb) => CanReserve(s, tid, skb)
       case Clear(tid) => tid in s.q.producers && s.q.producers[tid].Reserved?
       case Exchange(tid) => tid in s.q.producers && s.q.producers[tid].Cleared?
       case Link(tid) => tid in s.q.producers && s.q.producers[tid].Exchanged?
       case Call => s.q.consumer.Ready?
       case Consume =>
         && !s.q.consumer.Ready?
         && (s.q.consumer.LoadSecond? || s.q.consumer.Reload? ==> s.q.consumer.t.Skb?)
  }

  function Apply(s: State, step: Step): State
    requires Enabled(s, step)
  {
    match step
    case Reserve(tid, skb) => DoReserve(s, tid, skb)
    case Clear(tid) => DoClear(s, tid)
    case Exchange(tid) => DoExchange(s, tid)
    case Link(tid) => DoLink(s, tid)
    case Call => DoCall(s)
    case Consume => DoConsume(s)
  }

  // ----- the invariant -------------------------------------------------------------------

  /** The chain runs from tail to head without repeating a node. */
  predicate ChainOk(c: seq<Ptr>, head: Ptr, tail: Ptr) {
    && |c| > 0 && c[0] == tail && c[|c| - 1] == head
    && (forall i, j :: 0 <= i < j < |c| ==> c[i] != c[j])
  }

  /** The node has been exchanged into the chain but its predecessor does not point to it. */
  predicate Unlinked(linker: map<nat, nat>, con: Consumer, p: Ptr) {
    match p
    case Skb(id) => id in linker
    case Stub => con.StubLink?
  }

  /** Each node links to its successor unless the successor is still to be linked. */
  predicate LinksOk(c: seq<Ptr>, next: map<Ptr, Ptr>, linker: map<nat, nat>, con: Consumer) {
    && |c| > 0
    && c[|c| - 1] !in next
    && !Unlinked(linker, con, c[0])
    && (forall i :: 1 <= i < |c| ==>
          if Unlinked(linker, con, c[i]) then c[i - 1] !in next
          else c[i - 1] in next && next[c[i - 1]] == c[i])
  }

  /** Whoever still has to link a node remembers the right predecessor. */
  predicate PrevOk(c: seq<Ptr>, producers: map<nat, Producer>, linker: map<nat, nat>, con: Consumer) {
    && (forall i :: 1 <= i < |c| && c[i].Skb? && c[i].id in linker ==>
          && linker[c[i].id] in producers
          && producers[linker[c[i].id]] == Exchanged(c[i].id, c[i - 1]))
    && (forall i :: 1 <= i < |c| && c[i].Stub? && con.StubLink? ==> con.prev == c[i - 1])
  }

  /** A packet being enqueued belongs to one producer and joins the chain at the exchange. */
  predicate OwnersOk(c: seq<Ptr>, next: map<Ptr, Ptr>, producers: map<nat, Producer>, linker: map<nat, nat>) {
    && (forall t :: t in producers ==>
          var p := producers[t];
          && (p.Exchanged? ==> p.skb in linker && linker[p.skb] == t)
          && (!p.Exchanged? ==> Skb(p.skb) !in c)
          && (p.Cleared? ==> Skb(p.skb) !in next))
    && (forall k :: k in linker ==> Skb(k) in c && linker[k] in producers && producers[linker[k]].skb == k)
    && (forall t, u :: t in producers && u in producers && t != u ==> producers[t].skb != producers[u].skb)
  }

  /** What the consumer knows at each of its program points. */
  predicate ConsumerOk(c: seq<Ptr>, next: map<Ptr, Ptr>, producers: map<nat, Producer>, con: Consumer, excused: bool) {
    && |c| > 0
    && match con
       case Ready(_) => true
       case LoadSecond(t) => t.Skb? && c[0] == t
       case AtHead(t) => t.Skb? && c[0] == t && (excused || |c| == 1)
       case StubClear(t) => t.Skb? && c[0] == t && Stub !in c
       case StubXchg(t) => t.Skb? && c[0] == t && Stub !in c && Stub !in next
       case StubLink(t, prev) => t.Skb? && c[0] == t && Stub in c
       case Reload(t) => t.Skb? && c[0] == t && Stub in c
       case AtDec(skb) => Skb(skb) !in c && forall t :: t in producers ==> producers[t].skb != skb
  }

  /** The threads that have taken a place in `count` but are not in the chain yet. */
  function Waiting(producers: map<nat, Producer>): set<nat> {
    set t | t in producers && !producers[t].Exchanged?
  }

  /** `count` is exactly the packets queued, about to be queued or just taken. */
  predicate CountOk(q: Queue, queued: nat) {
    && q.count == queued + |Waiting(q.producers)| + (if q.consumer.AtDec? then 1 else 0)
    && q.count <= MAX_QUEUED_PACKETS
  }

  predicate Shape(q: Queue, c: seq<Ptr>, linker: map<nat, nat>, excused: bool) {
    && ChainOk(c, q.head, q.tail)
    && LinksOk(c, q.next, linker, q.consumer)
    && PrevOk(c, q.producers, linker, q.consumer)
    && OwnersOk(c, q.next, q.producers, linker)
    && ConsumerOk(c, q.next, q.producers, q.consumer, excused)
  }

  /** The shape of the list, the meaning of `count`, and: taken, then queued, is exactly the
      order of the head exchanges. */
  predicate Inv(s: State) {
    && Shape(s.q, s.h.chain, s.h.linker, s.h.excused)
    && CountOk(s.q, |Packets(s.h.chain)|)
    && s.h.exchanged == s.h.taken + Packets(s.h.chain)
  }

  // ----- packets of a chain ------------------------------------------------------------

  lemma {:induction false} PacketsAppend(c: seq<Ptr>, p: Ptr)
    ensures Packets(c + [p]) == Packets(c) + Packets([p])
  {
    if c == [] {
      assert c + [p] == [p];
    } else {
      PacketsAppend(c[1..], p);
      assert (c + [p])[1..] == c[1..] + [p] && (c + [p])[0] == c[0];
      var rest, last := Packets(c[1..]), Packets([p]);
      assert c[0].Skb? ==> [c[0].id] + (rest + last) == [c[0].id] + rest + last;
    }
  }

  lemma {:induction false} PacketsIn(c: seq<Ptr>)
    ensures forall id :: id in Packets(c) <==> Skb(id) in c
  {
    if c != [] {
      PacketsIn(c[1..]);
      assert c == [c[0]] + c[1..];
    }
  }

  // ----- producers ---------------------------------------------------------------------

  lemma ReserveKeepsInv(s: State, tid: nat, skb: nat)
    requires Inv(s) && Enabled(s, Reserve(tid, skb))
    ensures Inv(DoReserve(s, tid, skb))
  {
    if s.q.count != MAX_QUEUED_PACKETS {
      ReserveKeepsShape(s.q, s.h.chain, s.h.linker, s.h.excused, DoReserve(s, tid, skb).h.excused, tid, skb);
      ReserveKeepsCount(s.q, |Packets(s.h.chain)|, tid, skb);
    }
  }

  lemma ReserveKeepsCount(q: Queue, queued: nat, tid: nat, skb: nat)
    requires CountOk(q, queued) && tid !in q.producers && q.count != MAX_QUEUED_PACKETS
    ensures CountOk(q.(count := q.count + 1, producers := q.producers[tid := Reserved(skb)]), queued)
  {
    assert Waiting(q.producers[tid := Reserved(skb)]) == Waiting(q.producers) + {tid};
  }

  lemma ReserveKeepsShape(q: Queue, c: seq<Ptr>, linker: map<nat, nat>, excused: bool, excused': bool, tid: nat,
                          skb: nat)
    requires Shape(q, c, linker, excused) && (excused ==> excused') && tid !in q.producers && Skb(skb) !in c
             && q.consumer != AtDec(skb)
    requires forall t :: t in q.producers ==> q.producers[t].skb != skb
    ensures Shape(q.(count := q.count + 1, producers := q.producers[tid := Reserved(skb)]), c, linker, excused')
  {
  }

  lemma ClearKeepsInv(s: State, tid: nat)
    requires Inv(s) && Enabled(s, Clear(tid))
    ensures Inv(DoClear(s, tid))
  {
    var skb := s.q.producers[tid].skb;
    ClearKeepsShape(s.q, s.h.chain, s.h.linker, s.h.excused, DoClear(s, tid).h.excused, tid, skb);
    WaitingSame(s.q, DoClear(s, tid).q, |Packets(s.h.chain)|, tid);
  }

  /** A producer's step that neither joins nor leaves those who wait. */
  lemma WaitingSame(q: Queue, q': Queue, queued: nat, tid: nat)
    requires CountOk(q, queued) && q'.count == q.count && q'.consumer == q.consumer
    requires forall t :: t != tid ==> (t in q.producers <==> t in q'.producers)
    requires forall t :: t != tid && t in q.producers && t in q'.producers ==> q.producers[t] == q'.producers[t]
    requires tid in Waiting(q.producers) <==> tid in Waiting(q'.producers)
    ensures CountOk(q', queued)
  {
    assert Waiting(q'.producers) == Waiting(q.producers);
  }

  lemma ClearKeepsShape(q: Queue, c: seq<Ptr>, linker: map<nat, nat>, excused: bool, excused': bool, tid: nat, skb: nat)
    requires Shape(q, c, linker, excused) && (excused ==> excused') && tid in q.producers
             && q.producers[tid] == Reserved(skb)
    ensures Shape(q.(next := q.next - {Skb(skb)}, producers := q.producers[tid := Cleared(skb)]), c, linker, excused')
  {
    assert LinksOk(c, q.next - {Skb(skb)}, linker, q.consumer);
  }

  lemma ExchangeKeepsLinks(c: seq<Ptr>, next: map<Ptr, Ptr>, linker: map<nat, nat>, con: Consumer, tid: nat, skb: nat)
    requires LinksOk(c, next, linker, con) && skb !in linker && Skb(skb) !in c && Skb(skb) !in next
    ensures LinksOk(c + [Skb(skb)], next, linker[skb := tid], con)
  {
  }

  lemma ExchangeKeepsPrev(c: seq<Ptr>, producers: map<nat, Producer>, linker: map<nat, nat>, con: Consumer, tid: nat,
                          skb: nat)
    requires |c| > 0 && PrevOk(c, producers, linker, con) && skb !in linker && Skb(skb) !in c
    requires tid in producers && !producers[tid].Exchanged?
    ensures PrevOk(c + [Skb(skb)], producers[tid := Exchanged(skb, c[|c| - 1])], linker[skb := tid], con)
  {
  }

  lemma ExchangeKeepsOwners(c: seq<Ptr>, next: map<Ptr, Ptr>, producers: map<nat, Producer>, linker: map<nat, nat>,
                            tid: nat, skb: nat, prev: Ptr)
    requires OwnersOk(c, next, producers, linker) && tid in producers && producers[tid] == Cleared(skb)
             && skb !in linker
    ensures OwnersOk(c + [Skb(skb)], next, producers[tid := Exchanged(skb, prev)], linker[skb := tid])
  {
  }

  lemma ExchangeKeepsShape(q: Queue, c: seq<Ptr>, linker: map<nat, nat>, excused: bool, tid: nat, skb: nat)
    requires Shape(q, c, linker, excused) && tid in q.producers && q.producers[tid] == Cleared(skb)
    ensures Shape(q.(head := Skb(skb), producers := q.producers[tid := Exchanged(skb, q.head)]),
                  c + [Skb(skb)], linker[skb := tid], true)
  {
    assert skb !in linker;
    ExchangeKeepsLinks(c, q.next, linker, q.consumer, tid, skb);
    ExchangeKeepsPrev(c, q.producers, linker, q.consumer, tid, skb);
    ExchangeKeepsOwners(c, q.next, q.producers, linker, tid, skb, q.head);
    assert ChainOk(c + [Skb(skb)], Skb(skb), q.tail);
  }

  lemma ExchangeKeepsInv(s: State, tid: nat)
    requires Inv(s) && Enabled(s, Exchange(tid))
    ensures Inv(DoExchange(s, tid))
  {
    ExchangeKeepsCount(s, tid);
    ExchangeKeepsOrder(s.h.exchanged, s.h.taken, Packets(s.h.chain), s.q.producers[tid].skb);
    ExchangeShape(s, tid);
  }

  lemma ExchangeKeepsOrder(exchanged: seq<nat>, taken: seq<nat>, queued: seq<nat>, skb: nat)
    requires exchanged == taken + queued
    ensures exchanged + [skb] == taken + (queued + [skb])
  {
  }

  lemma ExchangeShape(s: State, tid: nat)
    requires Enabled(s, Exchange(tid)) && Shape(s.q, s.h.chain, s.h.linker, s.h.excused) && DoExchange(s, tid).h.excused
    ensures var s' := DoExchange(s, tid); Shape(s'.q, s'.h.chain, s'.h.linker, s'.h.excused)
  {
    ExchangeKeepsShape(s.q, s.h.chain, s.h.linker, s.h.excused, tid, s.q.producers[tid].skb);
  }

  lemma ExchangeKeepsCount(s: State, tid: nat)
    requires Enabled(s, Exchange(tid)) && CountOk(s.q, |Packets(s.h.chain)|)
    ensures CountOk(DoExchange(s, tid).q, |Packets(DoExchange(s, tid).h.chain)|)
    ensures Packets(DoExchange(s, tid).h.chain) == Packets(s.h.chain) + [s.q.producers[tid].skb]
    ensures DoExchange(s, tid).h.excused
  {
    var skb := s.q.producers[tid].skb;
    var q' := DoExchange(s, tid).q;
    PacketsAppend(s.h.chain, Skb(skb));
    assert Packets([Skb(skb)]) == [skb];
    assert Waiting(s.q.producers) == Waiting(q'.producers) + {tid};
    assert LinkMissing(q') by { assert tid in q'.producers; }
  }

  lemma LinkKeepsLinks(c: seq<Ptr>, next: map<Ptr, Ptr>, linker: map<nat, nat>, con: Consumer, head: Ptr, tail: Ptr,
                       k: nat)
    requires ChainOk(c, head, tail) && LinksOk(c, next, linker, con)
    requires 1 <= k < |c| && c[k].Skb? && c[k].id in linker
    ensures LinksOk(c, next[c[k - 1] := c[k]], linker - {c[k].id}, con)
  {
  }

  lemma LinkKeepsShape(q: Queue, c: seq<Ptr>, linker: map<nat, nat>, excused: bool, excused': bool, tid: nat)
    requires Shape(q, c, linker, excused) && (excused ==> excused') && tid in q.producers && q.producers[tid].Exchanged?
    ensures var p := q.producers[tid];
            Shape(q.(next := q.next[p.prev := Skb(p.skb)], producers := q.producers - {tid}), c, linker - {p.skb},
                  excused')
  {
    var p := q.producers[tid];
    var k :| 0 <= k < |c| && c[k] == Skb(p.skb);
    assert Unlinked(linker, q.consumer, c[k]) && k >= 1;
    assert p.prev == c[k - 1];
    LinkKeepsLinks(c, q.next, linker, q.consumer, q.head, q.tail, k);
    LinkKeepsOwners(c, q.next, q.producers, linker, q.consumer, tid);
    var p', next' := q.producers - {tid}, q.next[p.prev := Skb(p.skb)];
    assert ConsumerOk(c, next', p', q.consumer, excused') by {
      assert c[k - 1] in c;
    }
  }

  lemma LinkKeepsOwners(c: seq<Ptr>, next: map<Ptr, Ptr>, producers: map<nat, Producer>, linker: map<nat, nat>,
                        con: Consumer, tid: nat)
    requires OwnersOk(c, next, producers, linker) && PrevOk(c, producers, linker, con)
    requires tid in producers && producers[tid].Exchanged? && producers[tid].prev in c
    ensures OwnersOk(c, next[producers[tid].prev := Skb(producers[tid].skb)], producers - {tid},
                     linker - {producers[tid].skb})
    ensures PrevOk(c, producers - {tid}, linker - {producers[tid].skb}, con)
  {
  }

  lemma LinkKeepsInv(s: State, tid: nat)
    requires Inv(s) && Enabled(s, Link(tid))
    ensures Inv(DoLink(s, tid))
  {
    LinkKeepsShape(s.q, s.h.chain, s.h.linker, s.h.excused, DoLink(s, tid).h.excused, tid);
    WaitingSame(s.q, DoLink(s, tid).q, |Packets(s.h.chain)|, tid);
  }

  // ----- consumer ----------------------------------------------------------------------

  /** What a load of NEXT at the tail tells the consumer. */
  lemma LoadedNext(q: Queue, c: seq<Ptr>, linker: map<nat, nat>, excused: bool)
    requires Shape(q, c, linker, excused) && !q.consumer.StubLink?
    ensures c[0] in q.next ==> |c| > 1 && q.next[c[0]] == c[1]
    ensures c[0] !in q.next ==> |c| == 1 || LinkMissing(q)
  {
    if c[0] !in q.next && |c| > 1 {
      assert Unlinked(linker, q.consumer, c[1]);
      assert linker[c[1].id] in q.producers;
    }
  }

  /** Moving the tail past the first node of a chain whose link is in place. */
  lemma AdvanceKeepsShape(q: Queue, c: seq<Ptr>, linker: map<nat, nat>, excused: bool, n: Ptr, con: Consumer,
                          excused': bool)
    requires Shape(q, c, linker, excused) && !q.consumer.StubLink?
    requires c[0] in q.next && q.next[c[0]] == n
    requires if c[0].Skb? then con == AtDec(c[0].id) else con == LoadSecond(n)
    ensures Shape(q.(tail := n, consumer := con), c[1..], linker, excused')
    ensures |c| > 1 && n == c[1]
  {
  }

  lemma AdvanceKeepsInv(s: State, n: Ptr, con: Consumer)
    requires Inv(s) && !s.q.consumer.StubLink? && !s.q.consumer.AtDec?
    requires Next(s.q, s.h.chain[0]) == Some(n)
    requires if s.h.chain[0].Skb? then con == AtDec(s.h.chain[0].id) else con == LoadSecond(n)
    ensures Inv(Advance(s, n, con))
  {
    AdvanceKeepsShape(s.q, s.h.chain, s.h.linker, s.h.excused, n, con, Advance(s, n, con).h.excused);
    AdvanceKeepsOrder(s, n, con);
  }

  lemma AdvanceKeepsOrder(s: State, n: Ptr, con: Consumer)
    requires |s.h.chain| > 0 && con.AtDec? == s.h.chain[0].Skb? && !s.q.consumer.AtDec?
    requires CountOk(s.q, |Packets(s.h.chain)|) && s.h.exchanged == s.h.taken + Packets(s.h.chain)
    ensures CountOk(Advance(s, n, con).q, |Packets(s.h.chain[1..])|)
    ensures s.h.exchanged == Advance(s, n, con).h.taken + Packets(s.h.chain[1..])
  {
  }

  /** A step of the consumer that moves no pointer but its own program counter. */
  lemma QuietKeepsInv(s: State, s': State)
    requires Inv(s) && s'.q == s.q.(consumer := s'.q.consumer) && s'.h == s.h.(excused := s'.h.excused)
    requires !s.q.consumer.StubLink? && !s'.q.consumer.StubLink?
    requires !s.q.consumer.AtDec? && !s'.q.consumer.AtDec?
    requires ConsumerOk(s.h.chain, s.q.next, s.q.producers, s'.q.consumer, s'.h.excused)
    ensures Inv(s')
  {
  }

  /** Inside dequeue, a load of NEXT(tail) either takes the tail or leads to the next test. */
  lemma LoadKeepsInv(s: State, s': State, t: Ptr)
    requires Inv(s) && !s.q.consumer.StubLink? && !s.q.consumer.AtDec? && t == s.h.chain[0]
    requires match Next(s.q, t)
             case Some(n) => s' == Advance(s, n, if t.Skb? then AtDec(t.id) else LoadSecond(n))
             case None =>
               || (s' == Note(s, s.q.(consumer := AtHead(t))) && t.Skb?)
               || (s' == Return(s, None) && (t.Skb? ==> |s.h.chain| > 1))
    ensures Inv(s')
    ensures s'.q.consumer == Ready(None) ==> s'.h.excused
  {
    LoadedNext(s.q, s.h.chain, s.h.linker, s.h.excused);
    match Next(s.q, t)
    case Some(n) => AdvanceKeepsInv(s, n, if t.Skb? then AtDec(t.id) else LoadSecond(n));
    case None =>
      NoteExcuses(s, s'.q);
      QuietKeepsInv(s, s');
  }

  lemma NoteExcuses(s: State, q': Queue)
    requires q'.producers == s.q.producers
    ensures LinkMissing(s.q) || Packets(s.h.chain) == [] ==> Note(s, q').h.excused
  {
  }

  lemma CallKeepsInv(s: State)
    requires Inv(s) && Enabled(s, Call)
    ensures Inv(DoCall(s))
    ensures DoCall(s).q.consumer == Ready(None) ==> DoCall(s).h.excused
  {
    var s0 := s.(h := s.h.(excused := EmptyOrMissing(s.q, s.h.chain)));
    LoadKeepsInv(s0, DoCall(s), s.h.chain[0]);
  }

  lemma ConsumeKeepsInv(s: State)
    requires Inv(s) && Enabled(s, Consume)
    ensures Inv(DoConsume(s))
    ensures DoConsume(s).q.consumer == Ready(None) ==> DoConsume(s).h.excused
  {
    match s.q.consumer
    case LoadSecond(t) => LoadKeepsInv(s, DoConsume(s), t);
    case AtHead(t) =>
      assert t == s.q.head ==> |s.h.chain| == 1;
      QuietKeepsInv(s, DoConsume(s));
    case StubClear(t) => StubClearKeepsInv(s);
    case StubXchg(t) => StubXchgKeepsInv(s);
    case StubLink(t, prev) => StubLinkKeepsInv(s);
    case Reload(t) => LoadKeepsInv(s, DoConsume(s), t);
    case AtDec(t) =>
  }

  lemma StubClearKeepsInv(s: State)
    requires Inv(s) && s.q.consumer.StubClear?
    ensures Inv(DoConsume(s))
  {
  }

  lemma StubXchgKeepsShape(q: Queue, c: seq<Ptr>, linker: map<nat, nat>, excused: bool, excused': bool)
    requires Shape(q, c, linker, excused) && q.consumer.StubXchg?
    ensures Shape(q.(head := Stub, consumer := StubLink(q.consumer.t, q.head)), c + [Stub], linker, excused')
  {
  }

  lemma StubXchgKeepsInv(s: State)
    requires Inv(s) && s.q.consumer.StubXchg?
    ensures Inv(DoConsume(s))
  {
    StubXchgKeepsShape(s.q, s.h.chain, s.h.linker, s.h.excused, DoConsume(s).h.excused);
    PacketsAppend(s.h.chain, Stub);
    assert Packets([Stub]) == [];
    assert CountOk(DoConsume(s).q, |Packets(s.h.chain)|);
  }

  lemma StubLinkKeepsLinks(c: seq<Ptr>, next: map<Ptr, Ptr>, linker: map<nat, nat>, con: Consumer, con': Consumer,
                           k: nat)
    requires LinksOk(c, next, linker, con) && con.StubLink? && con'.Reload?
    requires forall i, j :: 0 <= i < j < |c| ==> c[i] != c[j]
    requires 1 <= k < |c| && c[k] == Stub
    ensures LinksOk(c, next[c[k - 1] := Stub], linker, con')
  {
  }

  lemma StubLinkKeepsInv(s: State)
    requires Inv(s) && s.q.consumer.StubLink?
    ensures Inv(DoConsume(s))
  {
    var c := s.h.chain;
    var k :| 0 <= k < |c| && c[k] == Stub;
    assert k >= 1 && s.q.consumer.prev == c[k - 1];
    StubLinkKeepsLinks(c, s.q.next, s.h.linker, s.q.consumer, DoConsume(s).q.consumer, k);
    assert c[k - 1] in c;
  }

  // ----- whole runs --------------------------------------------------------------------

  lemma StepKeepsInv(s: State, step: Step)
    requires Inv(s) && Enabled(s, step)
    ensures Inv(Apply(s, step))
    ensures step.Call? || step.Consume? ==>
              (Apply(s, step).q.consumer == Ready(None) ==> Apply(s, step).h.excused)
  {
    match step
    case Reserve(tid, skb) => ReserveKeepsInv(s, tid, skb);
    case Clear(tid) => ClearKeepsInv(s, tid);
    case Exchange(tid) => ExchangeKeepsInv(s, tid);
    case Link(tid) => LinkKeepsInv(s, tid);
    case Call => CallKeepsInv(s);
    case Consume => ConsumeKeepsInv(s);
  }

  /** A run: every step enabled where it is taken. */
  predicate Valid(steps: seq<Step>)
    decreases |steps|, 0
  {
    steps == [] || (Valid(steps[..|steps| - 1])
                    && Enabled(End(steps[..|steps| - 1]), steps[|steps| - 1]))
  }

  /** The state a run ends in. */
  function End(steps: seq<Step>): State
    requires Valid(steps)
    decreases |steps|, 1
  {
    if steps == [] then Init() else Apply(End(steps[..|steps| - 1]), steps[|steps| - 1])
  }

  lemma {:induction false} ReachableInv(steps: seq<Step>)
    requires Valid(steps)
    ensures Inv(End(steps))
  {
    if steps != [] {
      ReachableInv(steps[..|steps| - 1]);
      StepKeepsInv(End(steps[..|steps| - 1]), steps[|steps| - 1]);
    }
  }

  /** The packets that producers put at the head in the course of a run, in that order. */
  function Entered(steps: seq<Step>): seq<nat>
    requires Valid(steps)
  {
    if steps == [] then []
    else
      var n := |steps| - 1;
      var s := End(steps[..n]);
      Entered(steps[..n]) + if steps[n].Exchange? then [s.q.producers[steps[n].tid].skb] else []
  }

  /** The packets that calls of dequeue return in the course of a run, in that order. */
  function Returned(steps: seq<Step>): seq<nat>
    requires Valid(steps)
  {
    if steps == [] then []
    else
      var n := |steps| - 1;
      Returned(steps[..n]) + ReturnedBy(steps[n], End(steps).q.consumer)
  }

  /** A step of the consumer after which a packet is in its caller's hands. */
  function ReturnedBy(step: Step, after: Consumer): seq<nat> {
    if (step.Call? || step.Consume?) && after.Ready? && after.last.Some? then [after.last.value] else []
  }

  /** The packet that is off the list and about to be returned. */
  function InHand(consumer: Consumer): seq<nat> {
    if consumer.AtDec? then [consumer.skb] else []
  }

  /** What was taken before is what was returned and what is in hand; so it is after the step. */
  ghost predicate TakesOn(s: State, step: Step, s': State, returned: seq<nat>) {
    s.h.taken == returned + InHand(s.q.consumer) ==>
      s'.h.taken == returned + ReturnedBy(step, s'.q.consumer) + InHand(s'.q.consumer)
  }

  lemma ProducerTakes(s: State, step: Step, returned: seq<nat>)
    requires Enabled(s, step) && !step.Call? && !step.Consume?
    ensures TakesOn(s, step, Apply(s, step), returned)
  {
    assert returned + [] == returned;
  }

  lemma CallTakes(s: State, returned: seq<nat>)
    requires Enabled(s, Call) && s.h.chain[0] == s.q.tail
    ensures TakesOn(s, Call, DoCall(s), returned)
  {
    assert returned + [] == returned;
  }

  lemma ConsumeTakes(s: State, returned: seq<nat>)
    requires Enabled(s, Consume)
    requires s.q.consumer.LoadSecond? || s.q.consumer.Reload? ==> s.h.chain[0] == s.q.consumer.t
    ensures TakesOn(s, Consume, DoConsume(s), returned)
  {
    assert returned + [] == returned;
  }

  lemma StepTakes(s: State, step: Step, returned: seq<nat>)
    requires Inv(s) && Enabled(s, step)
    ensures TakesOn(s, step, Apply(s, step), returned)
  {
    if step.Call? {
      CallTakes(s, returned);
    } else if step.Consume? {
      ConsumeTakes(s, returned);
    } else {
      ProducerTakes(s, step, returned);
    }
  }

  lemma StepEnters(s: State, step: Step)
    requires Enabled(s, step)
    ensures Apply(s, step).h.exchanged ==
            s.h.exchanged + if step.Exchange? then [s.q.producers[step.tid].skb] else []
  {
  }

  /** The histories are what producers and consumer have really done. */
  lemma {:induction false} HistoriesAreTrue(steps: seq<Step>)
    requires Valid(steps)
    ensures End(steps).h.exchanged == Entered(steps)
    ensures End(steps).h.taken == Returned(steps) + InHand(End(steps).q.consumer)
    decreases |steps|
  {
    if steps != [] {
      var n := |steps| - 1;
      HistoriesAreTrue(steps[..n]);
      ReachableInv(steps[..n]);
      StepTakes(End(steps[..n]), steps[n], Returned(steps[..n]));
      StepEnters(End(steps[..n]), steps[n]);
    }
  }

  /** In every interleaving: what dequeue has returned, the packet it is about to return and what
      is queued are, in this order, exactly the packets put at the head; the stub is in the list
      at most once and the bound on `count` holds. */
  lemma FifoInEveryRun(steps: seq<Step>)
    requires Valid(steps)
    ensures var s := End(steps);
            && Entered(steps) == Returned(steps) + InHand(s.q.consumer) + Packets(s.h.chain)
            && Returned(steps) <= Entered(steps)
            && (forall i, j :: 0 <= i < j < |s.h.chain| ==> s.h.chain[i] != s.h.chain[j])
            && 0 <= s.q.count <= MAX_QUEUED_PACKETS
  {
    ReachableInv(steps);
    HistoriesAreTrue(steps);
  }

  /** The index of the last call of dequeue. */
  function LastCall(steps: seq<Step>): (k: nat)
    ensures k <= |steps|
  {
    if steps == [] then 0
    else if steps[|steps| - 1].Call? then |steps| - 1
    else LastCall(steps[..|steps| - 1])
  }

  predicate SeenBetween(steps: seq<Step>, from: nat) {
    exists k :: from <= k <= |steps| && SeenAt(steps, k)
  }

  predicate SeenAt(steps: seq<Step>, k: nat)
    requires k <= |steps|
  {
    Valid(steps[..k]) && EmptyOrMissing(End(steps[..k]).q, End(steps[..k]).h.chain)
  }

  lemma StepExcused(s: State, step: Step)
    requires Enabled(s, step) && Apply(s, step).h.excused
    ensures || EmptyOrMissing(Apply(s, step).q, Apply(s, step).h.chain)
            || (if step.Call? then EmptyOrMissing(s.q, s.h.chain) else s.h.excused)
  {
  }

  lemma SeenEarlier(steps: seq<Step>, n: nat, k: nat)
    requires k <= n <= |steps| && SeenAt(steps[..n], k)
    ensures SeenAt(steps, k)
  {
    assert steps[..n][..k] == steps[..k];
  }

  /** The history variable `excused` says what it is meant to say. */
  lemma {:induction false} ExcusedMeansSeen(steps: seq<Step>)
    requires Valid(steps) && End(steps).h.excused
    ensures SeenBetween(steps, LastCall(steps))
    decreases |steps|
  {
    var n := |steps|;
    assert steps[..n] == steps;
    if steps == [] {
      assert SeenAt(steps, 0);
    } else if !SeenAt(steps, n) {
      var pre := steps[..n - 1];
      StepExcused(End(pre), steps[n - 1]);
      if steps[n - 1].Call? {
        assert SeenAt(steps, n - 1);
      } else {
        ExcusedMeansSeen(pre);
        var k :| LastCall(pre) <= k <= |pre| && SeenAt(pre, k);
        SeenEarlier(steps, n - 1, k);
      }
    }
  }

  /** dequeue returns NULL only if, at some moment since it was called, the queue held no
      packet or some producer had exchanged the head and not linked yet. */
  lemma NullOnlyWhenExcused(steps: seq<Step>)
    requires Valid(steps) && steps != []
    requires steps[|steps| - 1].Call? || steps[|steps| - 1].Consume?
    requires End(steps).q.consumer == Ready(None)
    ensures SeenBetween(steps, LastCall(steps))
  {
    var pre := steps[..|steps| - 1];
    ReachableInv(pre);
    StepKeepsInv(End(pre), steps[|steps| - 1]);
    ExcusedMeansSeen(steps);
  }

  /** At the instant of a NULL return the same holds except in one case: NEXT(tail) was NULL,
      the head then moved, and the producer that moved it has linked already. */
  lemma NullAtReturn(s: State, step: Step)
    requires Inv(s) && Enabled(s, step) && (step.Call? || step.Consume?)
    requires Apply(s, step).q.consumer == Ready(None)
    ensures var s' := Apply(s, step);
            EmptyOrMissing(s'.q, s'.h.chain) <==> !(s.q.consumer.AtHead? && !LinkMissing(s.q))
  {
    var s' := Apply(s, step);
    assert LinkMissing(s'.q) <==> LinkMissing(s.q) by {
      assert s'.q.producers == s.q.producers;
      if LinkMissing(s.q) {
        var t :| t in s.q.producers && s.q.producers[t].Exchanged?;
        assert s'.q.producers[t].Exchanged?;
      }
    }
    if !s.q.consumer.AtHead? {
      LoadedNext(s.q, s.h.chain, s.h.linker, s.h.excused);
    }
  }

  // ----- NULL at the head comparison, by the schedule ------------------------------------

  /** The producers that have exchanged the head and not linked yet. */
  function Open(q: Queue): set<nat> {
    set t | t in q.producers && q.producers[t].Exchanged?
  }

  predicate ProducersOnly(w: seq<Step>) {
    forall i :: 0 <= i < |w| ==> !w[i].Call? && !w[i].Consume?
  }

  function Exchanges(w: seq<Step>): nat {
    if w == [] then 0 else Exchanges(w[..|w| - 1]) + if w[|w| - 1].Exchange? then 1 else 0
  }

  function Links(w: seq<Step>): nat {
    if w == [] then 0 else Links(w[..|w| - 1]) + if w[|w| - 1].Link? then 1 else 0
  }

  lemma OneApart<T>(a: set<T>, x: T)
    ensures |a| == |a - {x}| + if x in a then 1 else 0
  {
    if x in a {
      assert a == (a - {x}) + {x};
    } else {
      assert a == a - {x};
    }
  }

  /** A step of one thread opens or closes that thread's link only. */
  lemma OpenAfter(q: Queue, q': Queue, t: nat)
    requires forall u :: u != t ==> (u in q.producers <==> u in q'.producers)
    requires forall u :: u != t && u in q.producers && u in q'.producers ==> q.producers[u] == q'.producers[u]
    ensures |Open(q')| == |Open(q)| + (if t in Open(q') then 1 else 0) - (if t in Open(q) then 1 else 0)
  {
    assert Open(q') - {t} == Open(q) - {t};
    OneApart(Open(q), t);
    OneApart(Open(q'), t);
  }

  lemma ProducerStep(s: State, step: Step)
    requires Enabled(s, step) && !step.Call? && !step.Consume?
    ensures var s' := Apply(s, step);
            && s'.q.consumer == s.q.consumer
            && |Open(s'.q)| + (if step.Link? then 1 else 0) == |Open(s.q)| + (if step.Exchange? then 1 else 0)
            && (!step.Link? ==> s'.q.next.Keys <= s.q.next.Keys)
  {
    var s' := Apply(s, step);
    OpenAfter(s.q, s'.q, step.tid);
  }

  /** While the consumer rests, every exchange opens a link and every link closes one. */
  lemma {:induction false} WindowCounts(pre: seq<Step>, w: seq<Step>)
    requires Valid(pre + w) && ProducersOnly(w)
    ensures Valid(pre)
    ensures var s, s' := End(pre), End(pre + w);
            && s'.q.consumer == s.q.consumer
            && |Open(s'.q)| + Links(w) == |Open(s.q)| + Exchanges(w)
            && (Links(w) == 0 ==> s'.q.next.Keys <= s.q.next.Keys)
    decreases |w|
  {
    if w == [] {
      assert pre + w == pre;
    } else {
      var n := |w| - 1;
      assert (pre + w)[..|pre| + n] == pre + w[..n] && (pre + w)[|pre| + n] == w[n];
      WindowCounts(pre, w[..n]);
      ProducerStep(End(pre + w[..n]), w[n]);
    }
  }

  lemma OpenMeansMissing(q: Queue)
    ensures LinkMissing(q) <==> |Open(q)| > 0
  {
    if LinkMissing(q) {
      var t :| t in q.producers && q.producers[t].Exchanged?;
      assert t in Open(q);
    } else {
      assert Open(q) == {};
    }
  }

  /** The consumer gets to its head comparison only by loading a NULL. */
  lemma LoadedNull(s: State, step: Step)
    requires Enabled(s, step) && (step.Call? || step.Consume?) && Apply(s, step).q.consumer.AtHead?
    ensures Apply(s, step).q.consumer.t !in Apply(s, step).q.next
  {
  }

  /** Between loading NEXT(tail) as NULL in `pre` and comparing the head, producers take the steps
      `w`.  When the comparison returns NULL, the queue is empty or a link is missing at that
      instant exactly if fewer links than exchanges have completed; in particular if there was
      no link in between. */
  lemma NullBySchedule(pre: seq<Step>, w: seq<Step>)
    requires pre != [] && (pre[|pre| - 1].Call? || pre[|pre| - 1].Consume?)
    requires ProducersOnly(w) && Valid(pre + w) && Valid(pre) && End(pre).q.consumer.AtHead?
    requires Enabled(End(pre + w), Consume) && Apply(End(pre + w), Consume).q.consumer == Ready(None)
    ensures var s := Apply(End(pre + w), Consume);
            && (EmptyOrMissing(s.q, s.h.chain) <==> Links(w) < |Open(End(pre).q)| + Exchanges(w))
            && (Links(w) == 0 ==> EmptyOrMissing(s.q, s.h.chain))
  {
    var s := End(pre + w);
    WindowCounts(pre, w);
    ReachableInv(pre + w);
    NullAtReturn(s, Consume);
    OpenMeansMissing(s.q);
    if Links(w) == 0 {
      LoadedNull(End(pre[..|pre| - 1]), pre[|pre| - 1]);
      LoadedNext(s.q, s.h.chain, s.h.linker, s.h.excused);
    }
  }

  /** That case happens: two packets wait, fully linked, and dequeue still returns NULL. */
  lemma NullWithLinkedPackets() returns (steps: seq<Step>)
    ensures Valid(steps) && steps != [] && steps[|steps| - 1].Consume?
    ensures End(steps).q.consumer == Ready(None)
    ensures Packets(End(steps).h.chain) == [1, 2] && End(steps).q.producers == map[]
  {
    steps := EnqueueAlone([], 1);
    steps := Push(steps, Call);
    steps := Push(steps, Consume);
    assert End(steps).h.chain == [Skb(1)];
    steps := EnqueueAlone(steps, 2);
    steps := Push(steps, Consume);
    assert End(steps).h.chain == [Skb(1), Skb(2)];
  }

  /** One producer runs enqueue from start to end while nobody else moves. */
  lemma EnqueueAlone(steps: seq<Step>, skb: nat) returns (r: seq<Step>)
    requires Valid(steps) && End(steps).q.producers == map[] && End(steps).q.count < MAX_QUEUED_PACKETS
    requires |End(steps).h.chain| > 0 && Skb(skb) !in End(steps).h.chain
    requires End(steps).q.consumer != AtDec(skb) && End(steps).q.head != Skb(skb)
    ensures Valid(r)
    ensures var s, s' := End(steps), End(r);
            && s'.q == s.q.(head := Skb(skb), count := s.q.count + 1,
                            next := (s.q.next - {Skb(skb)})[s.q.head := Skb(skb)])
            && s'.h.chain == s.h.chain + [Skb(skb)]
  {
    r := Push(steps, Reserve(0, skb));
    r := Push(r, Clear(0));
    r := Push(r, Exchange(0));
    r := Push(r, Link(0));
    assert End(r).q.producers == map[];
  }

  lemma Push(steps: seq<Step>, step: Step) returns (r: seq<Step>)
    requires Valid(steps) && Enabled(End(steps), step)
    ensures r == steps + [step] && Valid(r) && End(r) == Apply(End(steps), step)
  {
    r := steps + [step];
    assert r[..|r| - 1] == steps;
  }

  // ----- the functions of queueing.c and queueing.h, run by one thread -------------------

  /** With nobody inside the queue every link of the chain is in place. */
  predicate Linked(c: seq<Ptr>, next: map<Ptr, Ptr>, head: Ptr, tail: Ptr) {
    && ChainOk(c, head, tail)
    && head !in next
    && (forall i {:trigger c[i]} :: 1 <= i < |c| ==> Points(next, c[i - 1], c[i]))
  }

  predicate Points(next: map<Ptr, Ptr>, p: Ptr, n: Ptr) {
    p in next && next[p] == n
  }

  /** Between calls of a single thread, the machine's invariant is exactly this. */
  lemma AloneMeansLinked(s: State)
    requires s.q.producers == map[] && s.q.consumer.Ready? && s.h.exchanged == s.h.taken + Packets(s.h.chain)
    ensures Inv(s) <==> Linked(s.h.chain, s.q.next, s.q.head, s.q.tail) && s.h.linker == map[]
                        && s.q.count == |Packets(s.h.chain)| <= MAX_QUEUED_PACKETS
  {
  }

  lemma LinkedAppend(c: seq<Ptr>, next: map<Ptr, Ptr>, head: Ptr, tail: Ptr, p: Ptr)
    requires Linked(c, next, head, tail) && p !in c
    ensures Linked(c + [p], (next - {p})[head := p], p, tail)
  {
    var c', n' := c + [p], (next - {p})[head := p];
    forall i | 1 <= i < |c'| ensures Points(n', c'[i - 1], c'[i]) {
      if i < |c| {
        assert Points(next, c[i - 1], c[i]);
        assert c[i - 1] != c[|c| - 1];
      }
    }
    assert forall i, j :: 0 <= i < j < |c'| ==> c'[i] != c'[j];
  }

  lemma LinkedTail(c: seq<Ptr>, next: map<Ptr, Ptr>, head: Ptr, tail: Ptr)
    requires Linked(c, next, head, tail) && |c| > 1
    ensures Linked(c[1..], next, head, c[1]) && Points(next, tail, c[1]) && tail !in c[1..]
  {
  }

  /** Alone, a missing NEXT(tail) means the tail is the head. */
  lemma LoadedAlone(c: seq<Ptr>, next: map<Ptr, Ptr>, head: Ptr, tail: Ptr)
    requires Linked(c, next, head, tail)
    ensures tail !in next ==> c == [tail] && tail == head
    ensures tail in next ==> |c| > 1 && next[tail] == c[1] && c[1] != tail
  {
    if |c| > 1 {
      assert Points(next, c[0], c[1]);
    } else {
      assert tail == head;
    }
  }

  /** `struct prev_queue`; each method is the C function of the same name. */
  class PrevQueue {
    var head: Ptr
    var tail: Ptr
    var next: map<Ptr, Ptr>
    var count: int
    var peeked: Option<nat>
    ghost var chain: seq<Ptr>

    ghost predicate Valid()
      reads this
    {
      && Linked(chain, next, head, tail)
      && count == |Packets(chain)| <= MAX_QUEUED_PACKETS
    }

    /** Packets the caller has not dropped yet, oldest first. */
    ghost function Contents(): seq<nat>
      reads this
    {
      (if peeked.Some? then [peeked.value] else []) + Packets(chain)
    }

    constructor ()
      ensures Valid() && Contents() == [] && peeked == None
    {
      head, tail, next, count, peeked := Stub, Stub, map[], 0, None;
      chain := [Stub];
    }

    /** `__wg_prev_queue_enqueue` */
    method Append(p: Ptr)
      requires Linked(chain, next, head, tail) && p !in chain
      modifies this`head, this`next, this`chain
      ensures Linked(chain, next, head, tail) && chain == old(chain) + [p]
    {
      LinkedAppend(chain, next, head, tail, p);
      next := next - {p};
      var prev := head;
      head := p;
      next := next[prev := p];
      chain := chain + [p];
    }

    /** `wg_prev_queue_enqueue` */
    method Enqueue(skb: nat) returns (ok: bool)
      requires Valid() && Skb(skb) !in chain
      modifies this`head, this`next, this`chain, this`count
      ensures Valid()
      ensures ok <==> |Packets(old(chain))| < MAX_QUEUED_PACKETS
      ensures Contents() == if ok then old(Contents()) + [skb] else old(Contents())
    {
      if count == MAX_QUEUED_PACKETS {
        return false;
      }
      count := count + 1;
      PacketsAppend(chain, Skb(skb));
      Append(Skb(skb));
      return true;
    }

    /** The statements `queue->tail = next; ...; return tail` of dequeue, without the count. */
    method Advance(n: Ptr) returns (t: Ptr)
      requires Linked(chain, next, head, tail) && Points(next, tail, n)
      modifies this`tail, this`chain
      ensures Linked(chain, next, head, tail) && t == old(tail) && tail == n && t !in chain
      ensures old(chain) == [t] + chain
      ensures Packets(old(chain)) == (if t.Skb? then [t.id] else []) + Packets(chain)
    {
      t := tail;
      LinkedTail(chain, next, head, tail);
      tail := n;
      chain := chain[1..];
    }

    /** `wg_prev_queue_dequeue` */
    method Dequeue() returns (r: Option<nat>)
      requires Valid()
      modifies this`head, this`tail, this`next, this`chain, this`count
      ensures Valid()
      ensures match r
              case Some(skb) => Packets(old(chain)) == [skb] + Packets(chain) && Skb(skb) !in chain
              case None => Packets(old(chain)) == [] && Packets(chain) == []
    {
      LoadedAlone(chain, next, head, tail);
      if tail == Stub {
        if tail !in next {
          return None;
        }
        var _ := Advance(next[tail]);
      }
      r := DequeueFirst();
    }

    /** The rest of dequeue, when the tail is not the stub. */
    method DequeueFirst() returns (r: Option<nat>)
      requires Valid() && tail.Skb?
      modifies this`head, this`tail, this`next, this`chain, this`count
      ensures Valid() && r.Some? && Packets(old(chain)) == [r.value] + Packets(chain) && Skb(r.value) !in chain
    {
      var t := tail;
      LoadedAlone(chain, next, head, tail);
      if t in next {
        var _ := Advance(next[t]);
        count := count - 1;
        return Some(t.id);
      }
      if t != head {
        return None;
      }
      r := DequeueLast(t);
    }

    /** The rest of dequeue, when the packet is the only node in the list. */
    method DequeueLast(t: Ptr) returns (r: Option<nat>)
      requires Linked(chain, next, head, tail) && t.Skb? && chain == [t] && tail == t && count == 1
      modifies this`head, this`tail, this`next, this`chain, this`count
      ensures Valid() && r == Some(t.id) && Packets(chain) == [] && Packets([t]) == [t.id] && Skb(t.id) !in chain
    {
      assert Packets([t]) == [t.id] && Packets([t, Stub]) == [t.id] && Packets([Stub]) == [];
      Append(Stub);
      assert chain == [t, Stub];
      LoadedAlone(chain, next, head, tail);
      var n := if t in next then Some(next[t]) else None;
      if n.Some? {
        var _ := Advance(n.value);
        assert chain == [Stub];
        count := count - 1;
        return Some(t.id);
      }
      assert false;
      return None;
    }

    /** `wg_prev_queue_peek` */
    method Peek() returns (r: Option<nat>)
      requires Valid()
      modifies this
      ensures Valid() && Contents() == old(Contents()) && peeked == r
      ensures r == if Contents() == [] then None else Some(Contents()[0])
    {
      if peeked.Some? {
        return peeked;
      }
      peeked := Dequeue();
      return peeked;
    }

    /** `wg_prev_queue_drop_peeked` */
    method DropPeeked()
      requires Valid() && peeked.Some?
      modifies this`peeked
      ensures Valid() && Contents() == old(Contents())[1..]
    {
      peeked := None;
    }
  }
}
