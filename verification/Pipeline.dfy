/** The packet pipeline around the per-peer queue: queueing.h, the workers of send.c and
    receive.c.

    A sender puts a packet (for sending, a batch of packets) on the peer's queue and then on
    the device's ring, and activates a crypto worker.  Crypto workers, one work item per CPU, take
    from the ring until it is empty and finish in any order.  One serial worker per peer (the
    transmit work item, or the NAPI poll function) delivers from the peer's queue; when receiving
    it asks the replay window first.  Every interleaving of these is a run below; the queue itself
    is the machine of module PrevQueue, one step per atomic operation. */
module Pipeline {
  import opened Common
  import opened Words
  import Q = PrevQueue
  import R = ReplayCounter

  /** `enum packet_state` */
  datatype PacketState = Uncrypted | Crypted | Dead

  /** How far the threads that handle one packet have come. */
  datatype Phase =
    | Enqueuing   // a producer is inside wg_prev_queue_enqueue
    | Ringing     // on the peer's queue, about to be put on the device's ring
    | InRing
    | Crypting    // taken from the ring by a crypto worker
    | Announcing  // state set, the serial worker not activated yet
    | Announced

  datatype Worker = Idle | AtPeek | InDequeue | AtState

  /** How a packet leaves: delivered; when receiving, refused by the replay window or without an
      endpoint; or dead. */
  datatype Exit = Sent(id: nat) | Replayed(id: nat) | Astray(id: nat) | Dropped(id: nat)

  /** What a crypto worker does: about to consume from the ring, or at work on a packet. */
  datatype Job = AtRing | On(id: nat)

  /** Packets in the ring whose sender has its crypto activation still to do, the CPUs whose work
      item is queued, and those whose work item runs. */
  datatype Crypto = Crypto(kicks: set<nat>, queued: set<nat>, running: map<nat, Job>)

  /** The keypair and the number of a received packet. */
  datatype Packet = Packet(keypair: nat, number: nat)

  /** The receiving side: the packets admitted and the replay window of each keypair. */
  datatype Receive = Receive(packets: map<nat, Packet>, windows: map<nat, set<int>>)

  function Window(windows: map<nat, set<int>>, k: nat): set<int> {
    if k in windows then windows[k] else {}
  }

  datatype State = State(
    qs: Q.State,
    peeked: Option<nat>,
    ring: seq<nat>,
    packetState: map<nat, PacketState>,
    pending: bool,          // an activation of the serial worker is queued
    worker: Worker,
    crypto: Crypto,
    receiving: bool,
    rx: Receive,
    phase: map<nat, Phase>, // where the threads that handle each packet are
    // what happened
    refused: set<nat>,      // freed by the sender: dead peer or full queue
    out: seq<Exit>)

  function Init(receiving: bool): State {
    State(Q.Init(), None, [], map[], false, Idle, Crypto({}, {}, map[]), receiving, Receive(map[], map[]), map[], {},
          [])
  }

  datatype Step =
    | Submit(id: nat, peerDead: bool, packet: Packet)
    | Produce(id: nat)            // the producer's next atomic operation on the queue
    | Push(id: nat, full: bool)   // ptr_ring_produce_bh
    | Kick(id: nat, cpu: nat)     // queue_work_on for a crypto worker
    | Stir(cpu: nat)              // the same by a sender to another peer
    | Begin(cpu: nat)             // a crypto work item begins to run
    | Pop(cpu: nat)               // ptr_ring_consume_bh; the worker returns when the ring is empty
    | Finish(cpu: nat, ok: bool)  // atomic_set_release(&state, CRYPTED or DEAD)
    | Report(cpu: nat)            // queue_work_on / napi_schedule by a crypto worker
    | Announce(id: nat)           // the same by the sender of a packet that found the ring full
    | Start                       // the serial worker begins to run
    | Work(reachable: bool)       // its next step; whether the packet's endpoint can be told
    | Yield                       // the NAPI budget is used up: it stays scheduled

  function QStep(s: State, step: Q.Step): Q.State
    requires Q.Enabled(s.qs, step)
  {
    Q.Apply(s.qs, step)
  }

  /** The queue operation the producer of `id` does next. */
  function ProducerStep(s: State, id: nat): Q.Step
    requires id in s.qs.q.producers
  {
    match s.qs.q.producers[id]
    case Reserved(_) => Q.Clear(id)
    case Cleared(_) => Q.Exchange(id)
    case Exchanged(_, _) => Q.Link(id)
  }

  /** A crypto worker has a packet that has come so far. */
  predicate Busy(s: State, cpu: nat, p: Phase) {
    && cpu in s.crypto.running && s.crypto.running[cpu].On?
    && s.crypto.running[cpu].id in s.phase && s.phase[s.crypto.running[cpu].id] == p
  }

  predicate Enabled(s: State, step: Step) {
    match step
    case Submit(id, _, _) =>
      id !in s.phase && id !in s.refused && Q.Enabled(s.qs, Q.Reserve(id, id))
    case Produce(id) =>
      id in s.qs.q.producers && id in s.phase && Q.Enabled(s.qs, ProducerStep(s, id))
    case Push(id, _) => id in s.phase && s.phase[id] == Ringing
    case Kick(id, _) => id in s.crypto.kicks
    case Stir(_) => true
    case Begin(cpu) => cpu in s.crypto.queued && cpu !in s.crypto.running
    case Pop(cpu) => cpu in s.crypto.running && s.crypto.running[cpu] == AtRing
    case Finish(cpu, _) => Busy(s, cpu, Crypting)
    case Report(cpu) => Busy(s, cpu, Announcing)
    case Announce(id) => id in s.phase && s.phase[id] == Announcing && On(id) !in s.crypto.running.Values
    case Start => s.pending && s.worker == Idle
    case Work(_) =>
      (match s.worker
       case Idle => false
       case AtPeek => s.peeked.Some? || Q.Enabled(s.qs, Q.Call)
       case InDequeue => s.qs.q.consumer.Ready? || Q.Enabled(s.qs, Q.Consume)
       case AtState =>
         s.peeked.Some? && s.peeked.value in s.packetState && s.peeked.value in s.rx.packets)
    case Yield => s.worker == AtPeek
  }

  /** `wg_packet_create_data` / `wg_packet_consume_data` up to the reservation in the queue. */
  function DoSubmit(s: State, id: nat, peerDead: bool, packet: Packet): State
    requires Enabled(s, Submit(id, peerDead, packet))
  {
    if peerDead || s.qs.q.count == MAX_QUEUED_PACKETS then
      s.(refused := s.refused + {id})
    else
      s.(qs := QStep(s, Q.Reserve(id, id)), packetState := s.packetState[id := Uncrypted],
         phase := s.phase[id := Enqueuing], rx := s.rx.(packets := s.rx.packets[id := packet]))
  }

  function DoProduce(s: State, id: nat): State
    requires Enabled(s, Produce(id))
  {
    s.(qs := QStep(s, ProducerStep(s, id)),
       phase := if s.qs.q.producers[id].Exchanged? then s.phase[id := Ringing] else s.phase)
  }

  /** A full ring is -EPIPE: the sender itself marks the packet dead.  Other peers share the
      ring, so it may be full at any time; `ring` holds this peer's packets. */
  function DoPush(s: State, id: nat, full: bool): State {
    if !full then
      s.(ring := s.ring + [id], phase := s.phase[id := InRing], crypto := s.crypto.(kicks := s.crypto.kicks + {id}))
    else
      s.(packetState := s.packetState[id := Dead], phase := s.phase[id := Announcing])
  }

  /** Work items are queued once, and run on one CPU at a time. */
  function DoQueue(s: State, kicks: set<nat>, cpu: nat): State {
    s.(crypto := s.crypto.(kicks := kicks, queued := s.crypto.queued + {cpu}))
  }

  function DoBegin(s: State, cpu: nat): State {
    s.(crypto := s.crypto.(queued := s.crypto.queued - {cpu}, running := s.crypto.running[cpu := AtRing]))
  }

  function DoPop(s: State, cpu: nat): State {
    if s.ring == [] then s.(crypto := s.crypto.(running := s.crypto.running - {cpu}))
    else
      s.(ring := s.ring[1..], phase := s.phase[s.ring[0] := Crypting],
         crypto := s.crypto.(running := s.crypto.running[cpu := On(s.ring[0])]))
  }

  function DoFinish(s: State, id: nat, ok: bool): State {
    s.(packetState := s.packetState[id := if ok then Crypted else Dead],
       phase := s.phase[id := Announcing])
  }

  function DoAnnounce(s: State, id: nat): State {
    s.(pending := true, phase := s.phase[id := Announced])
  }

  /** A crypto worker announces its packet and turns to the ring again. */
  function DoReport(s: State, cpu: nat, id: nat): State {
    DoAnnounce(s, id).(crypto := s.crypto.(running := s.crypto.running[cpu := AtRing]))
  }

  /** The loop of `wg_packet_tx_worker` and `wg_packet_rx_poll`. */
  function DoWork(s: State, reachable: bool): State
    requires Enabled(s, Work(reachable))
  {
    match s.worker
    case AtPeek =>
      if s.peeked.Some? then s.(worker := AtState)
      else Turned(s, QStep(s, Q.Call), InDequeue)
    case InDequeue =>
      (match s.qs.q.consumer
       case Ready(None) => s.(worker := Idle)
       case Ready(Some(id)) => s.(peeked := Some(id), worker := AtState)
       case _ => Turned(s, QStep(s, Q.Consume), InDequeue))
    case AtState =>
      var id := s.peeked.value;
      match s.packetState[id]
      case Uncrypted => s.(worker := Idle)
      case Crypted => Leaves(Noted(s, id), CryptedExit(s, id, reachable))
      case Dead => Leaves(s, Dropped(id))
  }

  /** The serial worker goes on with its queue at a new place. */
  function Turned(s: State, qs: Q.State, worker: Worker): State {
    s.(qs := qs, worker := worker)
  }

  /** When receiving, `counter_validate` has its say and then the endpoint. */
  function CryptedExit(s: State, id: nat, reachable: bool): Exit
    requires id in s.rx.packets
  {
    var p := s.rx.packets[id];
    if !s.receiving then Sent(id)
    else if !R.Accepts(Window(s.rx.windows, p.keypair), p.number) then Replayed(id)
    else if reachable then Sent(id) else Astray(id)
  }

  /** The window after a packet that has opened. */
  function Noted(s: State, id: nat): State
    requires id in s.rx.packets
  {
    var p := s.rx.packets[id];
    if !s.receiving then s
    else s.(rx := s.rx.(windows := s.rx.windows[p.keypair := R.After(Window(s.rx.windows, p.keypair), p.number)]))
  }

  /** The worker is done with the packet in hand. */
  function Leaves(s: State, e: Exit): State {
    s.(peeked := None, out := s.out + [e], worker := AtPeek)
  }

  function Apply(s: State, step: Step): State
    requires Enabled(s, step)
  {
    match step
    case Submit(id, dead, packet) => DoSubmit(s, id, dead, packet)
    case Produce(id) => DoProduce(s, id)
    case Push(id, full) => DoPush(s, id, full)
    case Kick(id, cpu) => DoQueue(s, s.crypto.kicks - {id}, cpu)
    case Stir(cpu) => DoQueue(s, s.crypto.kicks, cpu)
    case Begin(cpu) => DoBegin(s, cpu)
    case Pop(cpu) => DoPop(s, cpu)
    case Finish(cpu, ok) => DoFinish(s, s.crypto.running[cpu].id, ok)
    case Report(cpu) => DoReport(s, cpu, s.crypto.running[cpu].id)
    case Announce(id) => DoAnnounce(s, id)
    case Start => s.(pending := false, worker := AtPeek)
    case Work(reachable) => DoWork(s, reachable)
    case Yield => s.(pending := true, worker := Idle)
  }

  // ----- the invariant -------------------------------------------------------------------

  predicate Early(p: Phase) {
    p == Enqueuing || p == Ringing || p == InRing || p == Crypting
  }

  /** Every packet in the pipeline is followed from its producer to its announcement. */
  ghost predicate PhaseOk(producers: map<nat, Q.Producer>, phase: map<nat, Phase>,
                          packetState: map<nat, PacketState>, refused: set<nat>, chain: seq<Q.Ptr>)
  {
    && (forall id :: id in producers ==>
          id in phase && phase[id] == Enqueuing && producers[id].skb == id)
    && (forall id :: id in phase ==>
          && id in packetState
          && id !in refused
          && (packetState[id] == Uncrypted <==> Early(phase[id]))
          && (phase[id] == Enqueuing ==> id in producers))
    && (forall id :: Q.Skb(id) in chain ==> id in phase)
  }

  ghost predicate RingOk(ring: seq<nat>, phase: map<nat, Phase>) {
    && (forall i :: 0 <= i < |ring| ==> ring[i] in phase && phase[ring[i]] == InRing)
    && (forall i, j :: 0 <= i < j < |ring| ==> ring[i] != ring[j])
    && (forall id :: id in phase && phase[id] == InRing ==> id in ring)
  }

  function Ids(out: seq<Exit>): seq<nat> {
    seq(|out|, i requires 0 <= i < |out| => out[i].id)
  }

  /** The packet the serial worker has taken and not finished with. */
  function InHand(worker: Worker, peeked: Option<nat>, consumer: Q.Consumer): seq<nat> {
    if worker == InDequeue then
      (match consumer
       case AtDec(id) => [id]
       case Ready(Some(id)) => [id]
       case _ => [])
    else if peeked.Some? then [peeked.value] else []
  }

  ghost predicate HandOk(s: State) {
    && s.qs.h.taken == Ids(s.out) + InHand(s.worker, s.peeked, s.qs.q.consumer)
    && (s.worker != InDequeue ==> s.qs.q.consumer.Ready?)
    && (s.worker == InDequeue ==> s.peeked == None)
    && (s.worker == AtState ==> s.peeked.Some?)
    && (forall id :: id in InHand(s.worker, s.peeked, s.qs.q.consumer) ==> id in s.phase)
  }

  /** Each packet is exchanged into the queue once. */
  ghost predicate OnceOk(exchanged: seq<nat>, known: set<nat>, producers: map<nat, Q.Producer>) {
    && (forall i, j :: 0 <= i < j < |exchanged| ==> exchanged[i] != exchanged[j])
    && (forall id :: id in exchanged ==> id in known && (id in producers ==> producers[id].Exchanged?))
    && (forall id :: id in known && (id in producers ==> producers[id].Exchanged?) ==> id in exchanged)
  }

  /** A packet leaves the way its state says: DEAD ones are dropped, and no others. */
  ghost predicate ExitOk(out: seq<Exit>, phase: map<nat, Phase>, packetState: map<nat, PacketState>) {
    forall i :: 0 <= i < |out| ==>
      && out[i].id in phase && !Early(phase[out[i].id])
      && out[i].id in packetState
      && packetState[out[i].id] == if out[i].Dropped? then Dead else Crypted
  }

  ghost predicate Unannounced(s: State, id: nat) {
    id in s.phase && s.phase[id] != Announced && (Q.Skb(id) in s.qs.h.chain || s.peeked == Some(id))
  }

  /** An activation is queued, or there is nothing to deliver, or some packet in the queue
      still has its announcement to come. */
  ghost predicate Awake(s: State) {
    || s.pending
    || (s.peeked == None && forall id :: Q.Skb(id) !in s.qs.h.chain)
    || (exists id :: Unannounced(s, id))
  }

  ghost predicate WakeOk(s: State) {
    && (s.worker == Idle ==> Awake(s))
    && (s.worker == InDequeue && InHand(s.worker, s.peeked, s.qs.q.consumer) == [] && s.qs.h.excused ==> Awake(s))
    && (s.worker == InDequeue && s.qs.q.consumer == Q.Ready(None) ==> s.qs.h.excused)
  }

  ghost predicate Own(s: State) {
    && PhaseOk(s.qs.q.producers, s.phase, s.packetState, s.refused, s.qs.h.chain)
    && RingOk(s.ring, s.phase)
    && HandOk(s)
    && OnceOk(s.qs.h.exchanged, s.phase.Keys, s.qs.q.producers)
    && ExitOk(s.out, s.phase, s.packetState)
    && WakeOk(s)
  }

  /** A crypto worker at work has a packet of its own, a packet under way has its worker, and while
      there is something in the ring some worker is running, queued or about to be. */
  ghost predicate CryptoOk(ring: seq<nat>, phase: map<nat, Phase>, crypto: Crypto) {
    && (forall c :: c in crypto.running && crypto.running[c].On? ==> JobOk(phase, crypto.running[c].id))
    && (forall c, d :: c in crypto.running && d in crypto.running && c != d && crypto.running[c].On? ==>
          crypto.running[c] != crypto.running[d])
    && (forall id :: id in phase && phase[id] == Crypting ==> On(id) in crypto.running.Values)
    && (ring != [] ==> crypto.kicks != {} || crypto.queued != {} || crypto.running != map[])
  }

  predicate JobOk(phase: map<nat, Phase>, id: nat) {
    id in phase && (phase[id] == Crypting || phase[id] == Announcing)
  }

  /** The numbers of a keypair's packets that opened, in the order they were looked at. */
  function Numbers(out: seq<Exit>, packets: map<nat, Packet>, k: nat): seq<nat> {
    if out == [] then []
    else
      var n := |out| - 1;
      Numbers(out[..n], packets, k) +
      if !out[n].Dropped? && out[n].id in packets && packets[out[n].id].keypair == k then [packets[out[n].id].number]
      else []
  }

  /** The window let a packet pass exactly as the numbers before it demand. */
  ghost predicate VerdictAt(out: seq<Exit>, packets: map<nat, Packet>, i: nat)
    requires i < |out|
  {
    out[i].id in packets &&
    var p := packets[out[i].id];
    !out[i].Dropped? ==>
      (out[i].Replayed? <==> !R.Accepts(R.Accepted(Numbers(out[..i], packets, p.keypair)), p.number))
  }

  /** Every window is what the numbers so far make it. */
  ghost predicate WindowsOk(out: seq<Exit>, rx: Receive) {
    && (forall k: nat {:trigger Window(rx.windows, k)} ::
        Window(rx.windows, k) == R.Accepted(Numbers(out, rx.packets, k)))
    && (forall i :: 0 <= i < |out| ==> VerdictAt(out, rx.packets, i))
  }

  ghost predicate RxOk(s: State) {
    && s.rx.packets.Keys == s.phase.Keys
    && (s.receiving ==> WindowsOk(s.out, s.rx))
    && (!s.receiving ==> forall i :: 0 <= i < |s.out| ==> s.out[i].Sent? || s.out[i].Dropped?)
  }

  ghost predicate Inv(s: State) {
    Q.Inv(s.qs) && Own(s) && CryptoOk(s.ring, s.phase, s.crypto) && RxOk(s)
  }

  /** What the pipeline uses of the queue's invariant. */
  ghost predicate QueueFacts(qs: Q.State) {
    && (forall t :: t in qs.q.producers && qs.q.producers[t].Exchanged? ==> Q.Skb(qs.q.producers[t].skb) in qs.h.chain)
    && (forall t :: t in qs.q.producers && !qs.q.producers[t].Exchanged?
                    ==> Q.Skb(qs.q.producers[t].skb) !in qs.h.chain)
    && qs.h.exchanged == qs.h.taken + Q.Packets(qs.h.chain)
  }

  lemma QueueFactsHold(qs: Q.State)
    requires Q.Inv(qs)
    ensures QueueFacts(qs)
  {
  }

  // ----- each step keeps it --------------------------------------------------------------

  /** An empty queue, or a link missing, means the worker will be activated if need be. */
  lemma SeenMeansAwake(s: State)
    requires QueueFacts(s.qs) && s.peeked == None
    requires PhaseOk(s.qs.q.producers, s.phase, s.packetState, s.refused, s.qs.h.chain)
    requires Q.EmptyOrMissing(s.qs.q, s.qs.h.chain)
    ensures Awake(s)
  {
    Q.PacketsIn(s.qs.h.chain);
    if Q.LinkMissing(s.qs.q) {
      var t :| t in s.qs.q.producers && s.qs.q.producers[t].Exchanged?;
      assert Unannounced(s, t);
    }
  }

  /** Steps of other threads that add at most unannounced packets to the queue, or announce
      and set `pending`, do not put the worker to sleep. */
  lemma WakeStays(s: State, s': State)
    requires WakeOk(s) && QueueFacts(s'.qs)
    requires PhaseOk(s'.qs.q.producers, s'.phase, s'.packetState, s'.refused, s'.qs.h.chain)
    requires s'.worker == s.worker && s'.peeked == s.peeked && s'.qs.q.consumer == s.qs.q.consumer
    requires s.worker == InDequeue ==> s.peeked == None
    requires s.pending ==> s'.pending
    requires s'.qs.h.excused ==> s.qs.h.excused || Q.EmptyOrMissing(s'.qs.q, s'.qs.h.chain)
    requires s.qs.h.excused ==> s'.qs.h.excused
    requires s'.pending || forall id :: Q.Skb(id) in s'.qs.h.chain ==> Q.Skb(id) in s.qs.h.chain || Unannounced(s', id)
    requires s'.pending || forall id :: Unannounced(s, id) ==> Unannounced(s', id)
    ensures WakeOk(s')
  {
    if Awake(s) && !s'.pending {
      if exists id :: Unannounced(s, id) {
        var id :| Unannounced(s, id);
        assert Unannounced(s', id);
      } else if exists id :: Q.Skb(id) in s'.qs.h.chain {
        var id :| Q.Skb(id) in s'.qs.h.chain;
        assert Unannounced(s', id);
      }
      assert Awake(s');
    }
    if s.worker == InDequeue && s'.qs.h.excused && !s.qs.h.excused {
      SeenMeansAwake(s');
    }
  }

  /** The ring does not notice a phase that neither was nor becomes InRing. */
  lemma RingFrame(ring: seq<nat>, phase: map<nat, Phase>, id: nat, p: Phase)
    requires RingOk(ring, phase) && (id in phase ==> phase[id] != InRing) && p != InRing
    ensures RingOk(ring, phase[id := p])
  {
  }

  lemma RefuseKeepsOwn(s: State, id: nat)
    requires Own(s) && id !in s.phase
    ensures Own(s.(refused := s.refused + {id}))
  {
    var s' := s.(refused := s.refused + {id});
    assert forall k :: Unannounced(s, k) ==> Unannounced(s', k);
    assert Awake(s) ==> Awake(s');
  }

  lemma AdmitKeepsPhase(producers: map<nat, Q.Producer>, phase: map<nat, Phase>, packetState: map<nat, PacketState>,
                        refused: set<nat>, chain: seq<Q.Ptr>, id: nat)
    requires PhaseOk(producers, phase, packetState, refused, chain) && id !in phase && id !in refused
    ensures PhaseOk(producers[id := Q.Reserved(id)], phase[id := Enqueuing], packetState[id := Uncrypted], refused,
                    chain)
  {
  }

  lemma AdmitKeepsOnce(exchanged: seq<nat>, known: set<nat>, producers: map<nat, Q.Producer>, id: nat)
    requires OnceOk(exchanged, known, producers) && id !in known
    ensures OnceOk(exchanged, known + {id}, producers[id := Q.Reserved(id)])
  {
  }

  lemma AdmitKeepsOwn(s: State, id: nat, packet: Packet)
    requires Own(s) && Enabled(s, Submit(id, false, packet)) && s.qs.q.count != MAX_QUEUED_PACKETS
    requires QueueFacts(DoSubmit(s, id, false, packet).qs)
    ensures Own(DoSubmit(s, id, false, packet))
  {
    var s' := DoSubmit(s, id, false, packet);
    AdmitKeepsPhase(s.qs.q.producers, s.phase, s.packetState, s.refused, s.qs.h.chain, id);
    AdmitKeepsOnce(s.qs.h.exchanged, s.phase.Keys, s.qs.q.producers, id);
    assert s'.phase.Keys == s.phase.Keys + {id};
    RingFrame(s.ring, s.phase, id, Enqueuing);
    WakeStays(s, s');
  }

  lemma ClearKeepsOwn(s: State, id: nat)
    requires Own(s) && Enabled(s, Produce(id)) && s.qs.q.producers[id].Reserved?
    requires QueueFacts(DoProduce(s, id).qs)
    ensures Own(DoProduce(s, id))
  {
    WakeStays(s, DoProduce(s, id));
  }

  lemma OnceAppend(exchanged: seq<nat>, known: set<nat>, producers: map<nat, Q.Producer>, id: nat, prev: Q.Ptr)
    requires OnceOk(exchanged, known, producers) && id in known && id in producers && producers[id].Cleared?
    ensures OnceOk(exchanged + [id], known, producers[id := Q.Exchanged(id, prev)])
  {
  }

  lemma ExchangeKeepsOwn(s: State, id: nat)
    requires Own(s) && Enabled(s, Produce(id)) && s.qs.q.producers[id].Cleared?
    requires QueueFacts(DoProduce(s, id).qs)
    ensures Own(DoProduce(s, id))
  {
    var s' := DoProduce(s, id);
    OnceAppend(s.qs.h.exchanged, s.phase.Keys, s.qs.q.producers, id, s.qs.q.head);
    assert s'.qs.h.chain == s.qs.h.chain + [Q.Skb(id)];
    assert Unannounced(s', id);
    WakeStays(s, s');
  }

  lemma LinkKeepsPhase(producers: map<nat, Q.Producer>, phase: map<nat, Phase>, packetState: map<nat, PacketState>,
                       refused: set<nat>, chain: seq<Q.Ptr>, id: nat)
    requires PhaseOk(producers, phase, packetState, refused, chain) && id in producers
    ensures PhaseOk(producers - {id}, phase[id := Ringing], packetState, refused, chain)
  {
  }

  lemma LinkKeepsOnce(exchanged: seq<nat>, known: set<nat>, producers: map<nat, Q.Producer>, id: nat)
    requires OnceOk(exchanged, known, producers) && id in producers && producers[id].Exchanged?
    ensures OnceOk(exchanged, known, producers - {id})
  {
  }

  lemma LinkKeepsOwn(s: State, id: nat)
    requires Own(s) && Enabled(s, Produce(id)) && s.qs.q.producers[id].Exchanged?
    requires QueueFacts(DoProduce(s, id).qs)
    ensures Own(DoProduce(s, id))
  {
    var s' := DoProduce(s, id);
    assert s'.phase.Keys == s.phase.Keys;
    LinkKeepsPhase(s.qs.q.producers, s.phase, s.packetState, s.refused, s.qs.h.chain, id);
    LinkKeepsOnce(s.qs.h.exchanged, s.phase.Keys, s.qs.q.producers, id);
    RingFrame(s.ring, s.phase, id, Ringing);
    WakeStays(s, s');
  }

  lemma MoveKeepsPhase(producers: map<nat, Q.Producer>, phase: map<nat, Phase>, packetState: map<nat, PacketState>,
                       refused: set<nat>, chain: seq<Q.Ptr>, id: nat, p: Phase, st: PacketState)
    requires PhaseOk(producers, phase, packetState, refused, chain)
    requires id in phase && phase[id] != Enqueuing && p != Enqueuing && (st == Uncrypted <==> Early(p))
    ensures PhaseOk(producers, phase[id := p], packetState[id := st], refused, chain)
  {
  }

  lemma MoveKeepsExit(out: seq<Exit>, phase: map<nat, Phase>, packetState: map<nat, PacketState>, id: nat, p: Phase,
                      st: PacketState)
    requires ExitOk(out, phase, packetState) && id in phase && id in packetState
    requires Early(phase[id]) || (!Early(p) && st == packetState[id])
    ensures ExitOk(out, phase[id := p], packetState[id := st])
  {
  }

  /** A packet moves on outside the queue: its phase and perhaps its state change. */
  lemma MoveKeepsOwn(s: State, s': State, id: nat, p: Phase, st: PacketState)
    requires Own(s) && QueueFacts(s.qs)
    requires id in s.phase && s.phase[id] != Enqueuing && p != Enqueuing
    requires s'.qs == s.qs && s'.phase == s.phase[id := p] && s'.peeked == s.peeked && s'.worker == s.worker
    requires s'.out == s.out && s'.refused == s.refused && (s.pending ==> s'.pending)
    requires s'.packetState == s.packetState[id := st] && (st == Uncrypted <==> Early(p))
    requires Early(s.phase[id]) || (!Early(p) && st == s.packetState[id])
    requires RingOk(s'.ring, s'.phase)
    requires p == Announced ==> s'.pending
    ensures Own(s')
  {
    assert s'.phase.Keys == s.phase.Keys;
    MoveKeepsPhase(s.qs.q.producers, s.phase, s.packetState, s.refused, s.qs.h.chain, id, p, st);
    MoveKeepsExit(s.out, s.phase, s.packetState, id, p, st);
    WakeStays(s, s');
  }

  lemma RingPush(ring: seq<nat>, phase: map<nat, Phase>, id: nat)
    requires RingOk(ring, phase) && id in phase && phase[id] != InRing
    ensures RingOk(ring + [id], phase[id := InRing])
  {
  }

  lemma RingPop(ring: seq<nat>, phase: map<nat, Phase>)
    requires RingOk(ring, phase) && ring != []
    ensures RingOk(ring[1..], phase[ring[0] := Crypting])
  {
  }

  lemma PushKeepsOwn(s: State, id: nat, full: bool)
    requires Own(s) && Enabled(s, Push(id, full)) && QueueFacts(s.qs)
    ensures Own(DoPush(s, id, full))
  {
    var s' := DoPush(s, id, full);
    if !full {
      RingPush(s.ring, s.phase, id);
      assert s.packetState[id := Uncrypted] == s.packetState;
      MoveKeepsOwn(s, s', id, InRing, Uncrypted);
    } else {
      RingFrame(s.ring, s.phase, id, Announcing);
      MoveKeepsOwn(s, s', id, Announcing, Dead);
    }
  }

  lemma PopKeepsOwn(s: State, cpu: nat)
    requires Own(s) && Enabled(s, Pop(cpu)) && QueueFacts(s.qs)
    ensures Own(DoPop(s, cpu))
  {
    if s.ring == [] {
      CryptoAside(s, DoPop(s, cpu));
    } else {
      RingPop(s.ring, s.phase);
      assert s.packetState[s.ring[0] := Uncrypted] == s.packetState;
      MoveKeepsOwn(s, DoPop(s, cpu), s.ring[0], Crypting, Uncrypted);
    }
  }

  lemma FinishKeepsOwn(s: State, id: nat, ok: bool)
    requires Own(s) && id in s.phase && s.phase[id] == Crypting && QueueFacts(s.qs)
    ensures Own(DoFinish(s, id, ok))
  {
    RingFrame(s.ring, s.phase, id, Announcing);
    MoveKeepsOwn(s, DoFinish(s, id, ok), id, Announcing, if ok then Crypted else Dead);
  }

  lemma AnnounceKeepsOwn(s: State, s': State, id: nat)
    requires Own(s) && id in s.phase && s.phase[id] == Announcing && QueueFacts(s.qs)
    requires s' == DoAnnounce(s, id).(crypto := s'.crypto)
    ensures Own(s')
  {
    RingFrame(s.ring, s.phase, id, Announced);
    assert s.packetState[id := s.packetState[id]] == s.packetState;
    MoveKeepsOwn(s, s', id, Announced, s.packetState[id]);
  }

  /** The rest of the invariant does not look at the crypto workers. */
  lemma CryptoAside(s: State, s': State)
    requires Own(s) && s' == s.(crypto := s'.crypto)
    ensures Own(s')
  {
    assert forall id :: Unannounced(s, id) ==> Unannounced(s', id);
    assert Awake(s) ==> Awake(s');
  }

  // ----- the serial worker ---------------------------------------------------------------

  /** What the consumer's step does to the queue, as the pipeline sees it. */
  ghost predicate ConsumerEffect(a: Q.State, b: Q.State) {
    && b.q.producers == a.q.producers
    && b.h.exchanged == a.h.exchanged
    && (forall id :: Q.Skb(id) in b.h.chain ==> Q.Skb(id) in a.h.chain)
    && (b.q.consumer.AtDec? ==>
          a.h.chain != [] && a.h.chain[0] == Q.Skb(b.q.consumer.skb) && b.h.taken == a.h.taken + [b.q.consumer.skb])
    && (!b.q.consumer.AtDec? ==>
          b.h.taken == a.h.taken && forall id :: Q.Skb(id) in a.h.chain ==> Q.Skb(id) in b.h.chain)
  }

  lemma CallEffect(qs: Q.State)
    requires Q.Inv(qs) && Q.Enabled(qs, Q.Call)
    ensures ConsumerEffect(qs, Q.DoCall(qs))
    ensures Q.DoCall(qs).q.consumer.Ready? ==> Q.DoCall(qs).q.consumer == Q.Ready(None)
  {
  }

  /** A call that returns at once found an empty queue or a missing link. */
  lemma CallExcused(qs: Q.State)
    requires Q.Inv(qs) && Q.Enabled(qs, Q.Call)
    ensures Q.DoCall(qs).q.consumer.Ready? ==> Q.DoCall(qs).h.excused
    ensures Q.DoCall(qs).h.excused ==>
              Q.EmptyOrMissing(qs.q, qs.h.chain) || Q.EmptyOrMissing(Q.DoCall(qs).q, Q.DoCall(qs).h.chain)
  {
    Q.LoadedNext(qs.q, qs.h.chain, qs.h.linker, qs.h.excused);
  }

  lemma ConsumeEffect(qs: Q.State)
    requires Q.Enabled(qs, Q.Consume) && !qs.q.consumer.AtDec?
    requires qs.q.consumer.LoadSecond? || qs.q.consumer.Reload? ==> qs.h.chain[0] == qs.q.consumer.t
    ensures ConsumerEffect(qs, Q.DoConsume(qs))
    ensures Q.DoConsume(qs).q.consumer.Ready? ==> Q.DoConsume(qs).q.consumer == Q.Ready(None)
    ensures qs.h.excused ==> Q.DoConsume(qs).h.excused
    ensures Q.DoConsume(qs).h.excused ==>
              qs.h.excused || Q.EmptyOrMissing(Q.DoConsume(qs).q, Q.DoConsume(qs).h.chain)
  {
  }

  lemma TakeKeepsOwn(s: State, qs': Q.State)
    requires Own(s) && (s.worker == AtPeek || s.worker == InDequeue) && s.peeked == None
    requires InHand(s.worker, s.peeked, s.qs.q.consumer) == []
    requires ConsumerEffect(s.qs, qs') && qs'.q.consumer.AtDec?
    ensures Own(Turned(s, qs', InDequeue))
  {
  }

  lemma SearchKeepsOwn(s: State, qs': Q.State)
    requires Own(s) && (s.worker == AtPeek || s.worker == InDequeue) && s.peeked == None
    requires InHand(s.worker, s.peeked, s.qs.q.consumer) == []
    requires ConsumerEffect(s.qs, qs') && QueueFacts(qs')
    requires !qs'.q.consumer.AtDec? && (qs'.q.consumer.Ready? ==> qs'.q.consumer == Q.Ready(None) && qs'.h.excused)
    requires qs'.h.excused ==>
               || Q.EmptyOrMissing(qs'.q, qs'.h.chain)
               || Q.EmptyOrMissing(s.qs.q, s.qs.h.chain)
               || (s.worker == InDequeue && s.qs.h.excused)
    requires QueueFacts(s.qs)
    ensures Own(Turned(s, qs', InDequeue))
  {
    var s' := Turned(s, qs', InDequeue);
    if qs'.h.excused {
      if Q.EmptyOrMissing(qs'.q, qs'.h.chain) {
        SeenMeansAwake(s');
      } else {
        if Q.EmptyOrMissing(s.qs.q, s.qs.h.chain) {
          SeenMeansAwake(s);
        }
        SameQueueAwake(s, s');
      }
    }
  }

  lemma SameQueueAwake(s: State, s': State)
    requires Awake(s) && s'.phase == s.phase && s'.pending == s.pending && s'.peeked == s.peeked
    requires forall id :: Q.Skb(id) in s.qs.h.chain <==> Q.Skb(id) in s'.qs.h.chain
    ensures Awake(s')
  {
    if id :| Unannounced(s, id) {
      assert Unannounced(s', id);
    }
  }

  lemma CallKeepsOwn(s: State)
    requires Q.Inv(s.qs) && Own(s) && s.worker == AtPeek && s.peeked == None && Q.Enabled(s.qs, Q.Call)
    ensures Own(Turned(s, Q.DoCall(s.qs), InDequeue))
  {
    var qs' := Q.DoCall(s.qs);
    CallEffect(s.qs);
    CallExcused(s.qs);
    Q.CallKeepsInv(s.qs);
    QueueFactsHold(s.qs);
    QueueFactsHold(qs');
    if qs'.q.consumer.AtDec? {
      TakeKeepsOwn(s, qs');
    } else {
      SearchKeepsOwn(s, qs');
    }
  }

  lemma ConsumeKeepsOwn(s: State)
    requires Q.Enabled(s.qs, Q.Consume) && !s.qs.q.consumer.AtDec? && Q.Inv(s.qs) && Own(s) && s.worker == InDequeue
    ensures Own(Turned(s, Q.DoConsume(s.qs), InDequeue))
  {
    var qs' := Q.DoConsume(s.qs);
    ConsumeEffect(s.qs);
    Q.ConsumeKeepsInv(s.qs);
    QueueFactsHold(s.qs);
    QueueFactsHold(qs');
    if qs'.q.consumer.AtDec? {
      TakeKeepsOwn(s, qs');
    } else {
      SearchKeepsOwn(s, qs');
    }
  }

  /** `atomic_dec(&queue->count)` and the return: the packet stays in hand. */
  lemma ReturnKeepsOwn(s: State)
    requires Own(s) && s.worker == InDequeue && s.qs.q.consumer.AtDec? && Q.Enabled(s.qs, Q.Consume)
    ensures Own(Turned(s, Q.DoConsume(s.qs), InDequeue))
  {
  }

  lemma WorkKeepsOwn(s: State, reachable: bool)
    requires Q.Inv(s.qs) && Own(s) && Enabled(s, Work(reachable))
    ensures Own(DoWork(s, reachable))
  {
    match s.worker
    case AtPeek => if s.peeked == None { CallKeepsOwn(s); }
    case InDequeue =>
      if s.qs.q.consumer.Ready? {
        DequeueDone(s, reachable);
      } else if s.qs.q.consumer.AtDec? {
        ReturnKeepsOwn(s);
      } else {
        ConsumeKeepsOwn(s);
      }
    case AtState => ExitKeepsOwn(s, reachable);
  }

  lemma DequeueDone(s: State, reachable: bool)
    requires Own(s) && Enabled(s, Work(reachable)) && s.worker == InDequeue && s.qs.q.consumer.Ready?
    ensures Own(DoWork(s, reachable))
  {
    if s.qs.q.consumer == Q.Ready(None) {
      SameQueueAwake(s, DoWork(s, reachable));
    }
  }

  lemma ExitKeepsOwn(s: State, reachable: bool)
    requires Own(s) && Enabled(s, Work(reachable)) && s.worker == AtState
    ensures Own(DoWork(s, reachable))
  {
    var id := s.peeked.value;
    assert id in InHand(s.worker, s.peeked, s.qs.q.consumer);
    match s.packetState[id]
    case Uncrypted => assert Unannounced(DoWork(s, reachable), id);
    case Crypted => LeavesKeepsOwn(s, Noted(s, id), CryptedExit(s, id, reachable));
    case Dead => LeavesKeepsOwn(s, s, Dropped(id));
  }

  lemma LeavesKeepsOwn(s: State, t: State, e: Exit)
    requires Own(s) && t == s.(rx := t.rx) && s.worker == AtState && s.peeked == Some(e.id) && e.id in s.packetState
    requires s.packetState[e.id] == if e.Dropped? then Dead else Crypted
    ensures Own(Leaves(t, e))
  {
    assert e.id in InHand(s.worker, s.peeked, s.qs.q.consumer);
    assert Ids(s.out + [e]) == Ids(s.out) + [e.id];
  }

  lemma WorkKeepsQueue(s: State, reachable: bool)
    requires Q.Inv(s.qs) && Enabled(s, Work(reachable))
    ensures Q.Inv(DoWork(s, reachable).qs)
  {
    if s.worker == AtPeek && s.peeked == None {
      Q.CallKeepsInv(s.qs);
    } else if s.worker == InDequeue && !s.qs.q.consumer.Ready? {
      Q.ConsumeKeepsInv(s.qs);
    }
  }

  lemma ProduceKeepsOwn(s: State, id: nat)
    requires Q.Inv(s.qs) && Own(s) && Enabled(s, Produce(id))
    ensures Q.Inv(DoProduce(s, id).qs) && Own(DoProduce(s, id))
  {
    Q.StepKeepsInv(s.qs, ProducerStep(s, id));
    QueueFactsHold(DoProduce(s, id).qs);
    match s.qs.q.producers[id]
    case Reserved(_) => ClearKeepsOwn(s, id);
    case Cleared(_) => ExchangeKeepsOwn(s, id);
    case Exchanged(_, _) => LinkKeepsOwn(s, id);
  }

  lemma SubmitKeepsOwn(s: State, id: nat, dead: bool, packet: Packet)
    requires Q.Inv(s.qs) && Own(s) && Enabled(s, Submit(id, dead, packet))
    ensures Q.Inv(DoSubmit(s, id, dead, packet).qs) && Own(DoSubmit(s, id, dead, packet))
  {
    if dead || s.qs.q.count == MAX_QUEUED_PACKETS {
      RefuseKeepsOwn(s, id);
    } else {
      Q.ReserveKeepsInv(s.qs, id, id);
      QueueFactsHold(DoSubmit(s, id, false, packet).qs);
      AdmitKeepsOwn(s, id, packet);
    }
  }

  lemma StepKeepsOwn(s: State, step: Step)
    requires Inv(s) && Enabled(s, step)
    ensures Q.Inv(Apply(s, step).qs) && Own(Apply(s, step))
  {
    if step.Submit? {
      SubmitKeepsOwn(s, step.id, step.peerDead, step.packet);
    } else if step.Produce? {
      ProduceKeepsOwn(s, step.id);
    } else if step.Work? {
      WorkKeepsQueue(s, step.reachable);
      WorkKeepsOwn(s, step.reachable);
    } else {
      QueueFactsHold(s.qs);
      OutsideKeepsOwn(s, step);
    }
  }

  lemma StepKeepsInv(s: State, step: Step)
    requires Inv(s) && Enabled(s, step)
    ensures Inv(Apply(s, step)) && Apply(s, step).receiving == s.receiving
  {
    StepKeepsOwn(s, step);
    StepKeepsCrypto(s, step);
    StepKeepsRx(s, step);
  }

  /** The steps that do not touch the peer's queue. */
  lemma OutsideKeepsOwn(s: State, step: Step)
    requires Own(s) && QueueFacts(s.qs) && Enabled(s, step)
    requires !step.Submit? && !step.Produce? && !step.Work?
    ensures Own(Apply(s, step)) && Apply(s, step).qs == s.qs
  {
    match step
    case Push(id, full) => PushKeepsOwn(s, id, full);
    case Pop(cpu) => PopKeepsOwn(s, cpu);
    case Finish(cpu, ok) => FinishKeepsOwn(s, s.crypto.running[cpu].id, ok);
    case Report(cpu) => AnnounceKeepsOwn(s, Apply(s, step), s.crypto.running[cpu].id);
    case Announce(id) => AnnounceKeepsOwn(s, Apply(s, step), id);
    case Start => TurnKeepsOwn(s, Apply(s, step));
    case Yield => TurnKeepsOwn(s, Apply(s, step));
    case Kick(id, cpu) => CryptoAside(s, DoQueue(s, s.crypto.kicks - {id}, cpu));
    case Stir(cpu) => CryptoAside(s, DoQueue(s, s.crypto.kicks, cpu));
    case Begin(cpu) => CryptoAside(s, DoBegin(s, cpu));
  }

  /** The serial worker starts, or stops with an activation queued. */
  lemma TurnKeepsOwn(s: State, s': State)
    requires Own(s) && s' == s.(pending := s'.pending, worker := s'.worker)
    requires s.worker != InDequeue && s.worker != AtState
    requires s'.worker == AtPeek || (s'.worker == Idle && s'.pending)
    ensures Own(s')
  {
  }

  // ----- the crypto workers --------------------------------------------------------------

  /** A phase outside the crypto workers' hands changes. */
  lemma CryptoFrame(ring: seq<nat>, phase: map<nat, Phase>, crypto: Crypto, id: nat, p: Phase)
    requires CryptoOk(ring, phase, crypto) && p != Crypting
             && (id in phase ==> phase[id] != Crypting && phase[id] != Announcing)
    ensures CryptoOk(ring, phase[id := p], crypto)
  {
  }

  lemma PushKeepsCrypto(ring: seq<nat>, phase: map<nat, Phase>, crypto: Crypto, id: nat)
    requires CryptoOk(ring, phase, crypto) && id in phase && phase[id] == Ringing
    ensures CryptoOk(ring + [id], phase[id := InRing], crypto.(kicks := crypto.kicks + {id}))
  {
  }

  lemma PopKeepsCrypto(s: State, cpu: nat)
    requires RingOk(s.ring, s.phase) && CryptoOk(s.ring, s.phase, s.crypto) && Enabled(s, Pop(cpu))
    ensures CryptoOk(DoPop(s, cpu).ring, DoPop(s, cpu).phase, DoPop(s, cpu).crypto)
  {
    var s' := DoPop(s, cpu);
    var was, now := s.crypto.running, s'.crypto.running;
    assert s.ring != [] ==> now[cpu] == On(s.ring[0]);
    forall id | id in s'.phase && s'.phase[id] == Crypting ensures On(id) in now.Values {
      if s.ring == [] || id != s.ring[0] {
        assert On(id) in was.Values;
        var c :| c in was && was[c] == On(id);
        assert c != cpu && now[c] == On(id);
      }
    }
  }

  lemma FinishKeepsCrypto(s: State, cpu: nat, ok: bool)
    requires CryptoOk(s.ring, s.phase, s.crypto) && Enabled(s, Finish(cpu, ok))
    ensures CryptoOk(s.ring, s.phase[s.crypto.running[cpu].id := Announcing], s.crypto)
  {
  }

  lemma ReportKeepsCrypto(s: State, cpu: nat)
    requires CryptoOk(s.ring, s.phase, s.crypto) && Enabled(s, Report(cpu))
    ensures var id := s.crypto.running[cpu].id;
            CryptoOk(s.ring, s.phase[id := Announced], s.crypto.(running := s.crypto.running[cpu := AtRing]))
  {
    var was, now := s.crypto.running, s.crypto.running[cpu := AtRing];
    var phase' := s.phase[was[cpu].id := Announced];
    forall id | id in phase' && phase'[id] == Crypting ensures On(id) in now.Values {
      assert On(id) in was.Values;
      var c :| c in was && was[c] == On(id);
      assert now[c] == On(id);
    }
  }

  lemma BeginKeepsCrypto(s: State, cpu: nat)
    requires CryptoOk(s.ring, s.phase, s.crypto) && Enabled(s, Begin(cpu))
    ensures CryptoOk(s.ring, s.phase, DoBegin(s, cpu).crypto)
  {
    var was, now := s.crypto.running, DoBegin(s, cpu).crypto.running;
    forall id | id in s.phase && s.phase[id] == Crypting ensures On(id) in now.Values {
      assert On(id) in was.Values;
      var c :| c in was && was[c] == On(id);
      assert now[c] == On(id);
    }
    assert cpu in now;
  }

  /** The sender of a packet that found the ring full announces it; no crypto worker has it. */
  lemma AnnounceKeepsCrypto(s: State, id: nat)
    requires CryptoOk(s.ring, s.phase, s.crypto) && Enabled(s, Announce(id))
    ensures CryptoOk(s.ring, s.phase[id := Announced], s.crypto)
  {
    forall c | c in s.crypto.running && s.crypto.running[c].On? ensures s.crypto.running[c].id != id {
      assert s.crypto.running[c] in s.crypto.running.Values;
    }
  }

  lemma QueueKeepsCrypto(s: State, kicks: set<nat>, cpu: nat)
    requires CryptoOk(s.ring, s.phase, s.crypto)
    ensures CryptoOk(s.ring, s.phase, DoQueue(s, kicks, cpu).crypto)
  {
    assert cpu in DoQueue(s, kicks, cpu).crypto.queued;
  }

  predicate BySender(step: Step) {
    step.Submit? || step.Produce? || step.Push? || step.Announce?
  }

  lemma SenderKeepsCrypto(s: State, step: Step)
    requires PhaseOk(s.qs.q.producers, s.phase, s.packetState, s.refused, s.qs.h.chain)
    requires CryptoOk(s.ring, s.phase, s.crypto) && BySender(step) && Enabled(s, step)
    ensures var s' := Apply(s, step); CryptoOk(s'.ring, s'.phase, s'.crypto)
  {
    match step
    case Submit(id, _, _) => CryptoFrame(s.ring, s.phase, s.crypto, id, Enqueuing);
    case Produce(id) => CryptoFrame(s.ring, s.phase, s.crypto, id, Ringing);
    case Push(id, full) =>
      if full {
        CryptoFrame(s.ring, s.phase, s.crypto, id, Announcing);
      } else {
        PushKeepsCrypto(s.ring, s.phase, s.crypto, id);
      }
    case Announce(id) => AnnounceKeepsCrypto(s, id);
  }

  lemma WorkerKeepsCrypto(s: State, step: Step)
    requires RingOk(s.ring, s.phase) && CryptoOk(s.ring, s.phase, s.crypto) && !BySender(step) && Enabled(s, step)
    ensures var s' := Apply(s, step); CryptoOk(s'.ring, s'.phase, s'.crypto)
  {
    match step
    case Kick(id, cpu) => QueueKeepsCrypto(s, s.crypto.kicks - {id}, cpu);
    case Stir(cpu) => QueueKeepsCrypto(s, s.crypto.kicks, cpu);
    case Begin(cpu) => BeginKeepsCrypto(s, cpu);
    case Pop(cpu) => PopKeepsCrypto(s, cpu);
    case Finish(cpu, ok) => FinishKeepsCrypto(s, cpu, ok);
    case Report(cpu) => ReportKeepsCrypto(s, cpu);
    case Work(reachable) => WorkLeavesCrypto(s, reachable);
    case Start =>
    case Yield =>
  }

  lemma WorkLeavesCrypto(s: State, reachable: bool)
    requires Enabled(s, Work(reachable))
    ensures var s' := DoWork(s, reachable); s'.ring == s.ring && s'.phase == s.phase && s'.crypto == s.crypto
  {
    match s.worker
    case AtPeek =>
    case InDequeue =>
      if !s.qs.q.consumer.Ready? {
        assert DoWork(s, reachable) == Turned(s, QStep(s, Q.Consume), InDequeue);
      }
    case AtState =>
  }

  lemma StepKeepsCrypto(s: State, step: Step)
    requires Own(s) && CryptoOk(s.ring, s.phase, s.crypto) && Enabled(s, step)
    ensures var s' := Apply(s, step); CryptoOk(s'.ring, s'.phase, s'.crypto)
  {
    if BySender(step) {
      SenderKeepsCrypto(s, step);
    } else {
      WorkerKeepsCrypto(s, step);
    }
  }

  // ----- the replay windows --------------------------------------------------------------

  lemma {:induction false} NumbersSame(out: seq<Exit>, packets: map<nat, Packet>, id: nat, p: Packet, k: nat)
    requires forall i :: 0 <= i < |out| ==> out[i].id != id
    ensures Numbers(out, packets[id := p], k) == Numbers(out, packets, k)
    decreases |out|
  {
    if out != [] {
      NumbersSame(out[..|out| - 1], packets, id, p, k);
    }
  }

  lemma AdmitKeepsWindows(out: seq<Exit>, rx: Receive, id: nat, p: Packet)
    requires WindowsOk(out, rx) && forall i :: 0 <= i < |out| ==> out[i].id != id
    ensures WindowsOk(out, rx.(packets := rx.packets[id := p]))
  {
    var packets' := rx.packets[id := p];
    forall k: nat ensures Window(rx.windows, k) == R.Accepted(Numbers(out, packets', k)) {
      NumbersSame(out, rx.packets, id, p, k);
    }
    forall i | 0 <= i < |out| ensures VerdictAt(out, packets', i) {
      assert VerdictAt(out, rx.packets, i);
      NumbersSame(out[..i], rx.packets, id, p, rx.packets[out[i].id].keypair);
    }
  }

  lemma NumbersMore(out: seq<Exit>, e: Exit, packets: map<nat, Packet>, k: nat)
    requires e.id in packets
    ensures Numbers(out + [e], packets, k) ==
            if !e.Dropped? && packets[e.id].keypair == k then Numbers(out, packets, k) + [packets[e.id].number]
            else Numbers(out, packets, k)
  {
    assert (out + [e])[..|out|] == out;
    assert Numbers(out, packets, k) + [] == Numbers(out, packets, k);
  }

  lemma AcceptedMore(ns: seq<nat>, n: nat)
    ensures R.Accepted(ns + [n]) == R.After(R.Accepted(ns), n)
  {
    assert (ns + [n])[..|ns|] == ns;
  }

  lemma EarlierVerdicts(out: seq<Exit>, e: Exit, packets: map<nat, Packet>)
    requires forall i :: 0 <= i < |out| ==> VerdictAt(out, packets, i)
    ensures forall i :: 0 <= i < |out| ==> VerdictAt(out + [e], packets, i)
  {
    forall i | 0 <= i < |out| ensures VerdictAt(out + [e], packets, i) {
      assert VerdictAt(out, packets, i) && (out + [e])[..i] == out[..i];
    }
  }

  lemma DropKeepsWindows(out: seq<Exit>, rx: Receive, id: nat)
    requires WindowsOk(out, rx) && id in rx.packets
    ensures WindowsOk(out + [Dropped(id)], rx)
  {
    EarlierVerdicts(out, Dropped(id), rx.packets);
    forall k: nat ensures Window(rx.windows, k) == R.Accepted(Numbers(out + [Dropped(id)], rx.packets, k)) {
      assert Window(rx.windows, k) == R.Accepted(Numbers(out, rx.packets, k));
      NumbersMore(out, Dropped(id), rx.packets, k);
    }
  }

  lemma NoteKeepsWindows(out: seq<Exit>, rx: Receive, e: Exit)
    requires WindowsOk(out, rx) && e.id in rx.packets && !e.Dropped?
    requires var p := rx.packets[e.id]; e.Replayed? <==> !R.Accepts(Window(rx.windows, p.keypair), p.number)
    ensures var p := rx.packets[e.id];
            WindowsOk(out + [e], rx.(windows :=
                                     rx.windows[p.keypair := R.After(Window(rx.windows, p.keypair), p.number)]))
  {
    var p := rx.packets[e.id];
    var windows' := rx.windows[p.keypair := R.After(Window(rx.windows, p.keypair), p.number)];
    EarlierVerdicts(out, e, rx.packets);
    forall k: nat ensures Window(windows', k) == R.Accepted(Numbers(out + [e], rx.packets, k)) {
      assert Window(rx.windows, k) == R.Accepted(Numbers(out, rx.packets, k));
      NumbersMore(out, e, rx.packets, k);
      AcceptedMore(Numbers(out, rx.packets, k), p.number);
    }
    assert (out + [e])[..|out|] == out;
  }

  /** A packet admitted before is nowhere among those that have left. */
  lemma SubmitKeepsRx(s: State, id: nat, dead: bool, packet: Packet)
    requires ExitOk(s.out, s.phase, s.packetState) && RxOk(s) && Enabled(s, Submit(id, dead, packet))
    ensures RxOk(DoSubmit(s, id, dead, packet))
  {
    if s.receiving && !dead && s.qs.q.count != MAX_QUEUED_PACKETS {
      AdmitKeepsWindows(s.out, s.rx, id, packet);
    }
  }

  lemma LeavesKeepsRx(s: State, id: nat, reachable: bool)
    requires RxOk(s) && id in s.rx.packets
    ensures RxOk(Leaves(Noted(s, id), CryptedExit(s, id, reachable))) && RxOk(Leaves(s, Dropped(id)))
  {
    if s.receiving {
      NoteKeepsWindows(s.out, s.rx, CryptedExit(s, id, reachable));
      DropKeepsWindows(s.out, s.rx, id);
    }
  }

  lemma WorkKeepsRx(s: State, reachable: bool)
    requires RxOk(s) && Enabled(s, Work(reachable))
    ensures RxOk(DoWork(s, reachable))
  {
    if s.worker == AtState && s.packetState[s.peeked.value] != Uncrypted {
      LeavesKeepsRx(s, s.peeked.value, reachable);
    } else {
      RxAside(s, DoWork(s, reachable));
    }
  }

  /** Nobody else looks at the windows. */
  lemma RxAside(s: State, s': State)
    requires RxOk(s) && SameRx(s, s')
    ensures RxOk(s')
  {
  }

  ghost predicate SameRx(s: State, s': State) {
    s'.rx == s.rx && s'.out == s.out && s'.receiving == s.receiving && s'.phase.Keys == s.phase.Keys
  }

  lemma ProduceSameRx(s: State, id: nat)
    requires Enabled(s, Produce(id))
    ensures SameRx(s, DoProduce(s, id))
  {
  }

  lemma OutsideSameRx(s: State, step: Step)
    requires RingOk(s.ring, s.phase) && Enabled(s, step) && !step.Submit? && !step.Produce? && !step.Work?
    ensures SameRx(s, Apply(s, step))
  {
  }

  lemma StepKeepsRx(s: State, step: Step)
    requires RingOk(s.ring, s.phase) && ExitOk(s.out, s.phase, s.packetState) && RxOk(s) && Enabled(s, step)
    ensures RxOk(Apply(s, step)) && Apply(s, step).receiving == s.receiving
  {
    if step.Submit? {
      SubmitKeepsRx(s, step.id, step.peerDead, step.packet);
    } else if step.Work? {
      WorkKeepsRx(s, step.reachable);
    } else if step.Produce? {
      ProduceSameRx(s, step.id);
      RxAside(s, DoProduce(s, step.id));
    } else {
      OutsideSameRx(s, step);
      RxAside(s, Apply(s, step));
    }
  }

  // ----- whole runs --------------------------------------------------------------------

  predicate Valid(receiving: bool, steps: seq<Step>)
    decreases |steps|, 0
  {
    steps == [] || (Valid(receiving, steps[..|steps| - 1])
                    && Enabled(End(receiving, steps[..|steps| - 1]), steps[|steps| - 1]))
  }

  function End(receiving: bool, steps: seq<Step>): State
    requires Valid(receiving, steps)
    decreases |steps|, 1
  {
    if steps == [] then Init(receiving)
    else Apply(End(receiving, steps[..|steps| - 1]), steps[|steps| - 1])
  }

  lemma InitQueue()
    ensures Q.Inv(Q.Init())
  {
  }

  lemma InitOwn(receiving: bool)
    ensures Own(Init(receiving))
  {
    assert Init(receiving).qs.h.chain == [Q.Stub];
  }

  lemma InitRx(receiving: bool)
    ensures RxOk(Init(receiving))
  {
    assert R.Accepted([]) == {};
  }

  lemma InitInv(receiving: bool)
    ensures Inv(Init(receiving))
  {
    InitQueue();
    InitOwn(receiving);
    InitRx(receiving);
  }

  lemma {:induction false} ReachableInv(receiving: bool, steps: seq<Step>)
    requires Valid(receiving, steps)
    ensures Inv(End(receiving, steps)) && End(receiving, steps).receiving == receiving
    decreases |steps|
  {
    if steps == [] {
      InitInv(receiving);
    } else {
      ReachableInv(receiving, steps[..|steps| - 1]);
      StepKeepsInv(End(receiving, steps[..|steps| - 1]), steps[|steps| - 1]);
    }
  }

  /** In every schedule packets leave in the order they entered the peer's queue, each at
      most once; those that are DEAD are dropped, and when sending all others are delivered. */
  lemma DeliveredInOrder(receiving: bool, steps: seq<Step>)
    requires Valid(receiving, steps)
    ensures var s := End(receiving, steps);
            && Ids(s.out) <= s.qs.h.exchanged
            && (forall i, j :: 0 <= i < j < |s.out| ==> s.out[i].id != s.out[j].id)
            && (forall i :: 0 <= i < |s.out| ==>
                  s.out[i].id in s.packetState
                  && s.packetState[s.out[i].id] == (if s.out[i].Dropped? then Dead else Crypted)
                  && (!receiving ==> s.out[i].Sent? || s.out[i].Dropped?))
  {
    ReachableInv(receiving, steps);
    var s := End(receiving, steps);
    assert s.qs.h.taken <= s.qs.h.exchanged;
    forall i, j | 0 <= i < j < |s.out| ensures s.out[i].id != s.out[j].id {
      assert Ids(s.out)[i] == s.qs.h.exchanged[i] && Ids(s.out)[j] == s.qs.h.exchanged[j];
    }
  }

  // ----- what the receiver delivers ------------------------------------------------------

  lemma {:induction false} NumbersGrow(out: seq<Exit>, packets: map<nat, Packet>, k: nat, i: nat, j: nat)
    requires i <= j <= |out|
    ensures Numbers(out[..i], packets, k) <= Numbers(out[..j], packets, k)
    decreases j
  {
    if i < j {
      NumbersGrow(out, packets, k, i, j - 1);
      assert out[..j][..j - 1] == out[..j - 1];
    }
  }

  lemma AcceptedGrows(a: seq<nat>, b: seq<nat>)
    requires a <= b
    ensures R.Accepted(a) <= R.Accepted(b)
  {
    R.AcceptedBefore(b, |a|, |b|);
    assert b[..|a|] == a && b[..|b|] == b;
  }

  /** A number that was let pass is in the window from then on. */
  lemma PassedStays(out: seq<Exit>, packets: map<nat, Packet>, i: nat, j: nat)
    requires i < j <= |out| && VerdictAt(out, packets, i) && !out[i].Dropped? && !out[i].Replayed?
    ensures var p := packets[out[i].id]; p.number in R.Accepted(Numbers(out[..j], packets, p.keypair))
  {
    var p := packets[out[i].id];
    assert out[..i + 1] == out[..i] + [out[i]];
    NumbersMore(out[..i], out[i], packets, p.keypair);
    AcceptedMore(Numbers(out[..i], packets, p.keypair), p.number);
    NumbersGrow(out, packets, p.keypair, i + 1, j);
    AcceptedGrows(Numbers(out[..i + 1], packets, p.keypair), Numbers(out[..j], packets, p.keypair));
  }

  /** Packets of different keypairs or with different numbers. */
  predicate DifferentPackets(packets: map<nat, Packet>, x: nat, y: nat) {
    x in packets && y in packets && packets[x] != packets[y]
  }

  /** On the receiving side, in every schedule: the window decides on every packet that opened by
      the numbers of the same keypair that came before it in the queue, and no number of a keypair
      is delivered twice. */
  lemma ReceivedOnce(steps: seq<Step>)
    requires Valid(true, steps)
    ensures var s := End(true, steps);
            && (forall i :: 0 <= i < |s.out| ==> VerdictAt(s.out, s.rx.packets, i))
            && (forall i, j :: 0 <= i < j < |s.out| && s.out[i].Sent? && s.out[j].Sent? ==>
                  DifferentPackets(s.rx.packets, s.out[i].id, s.out[j].id))
  {
    ReachableInv(true, steps);
    var s := End(true, steps);
    assert forall i :: 0 <= i < |s.out| ==> VerdictAt(s.out, s.rx.packets, i);
    forall i, j | 0 <= i < j < |s.out| && s.out[i].Sent? && s.out[j].Sent?
      ensures DifferentPackets(s.rx.packets, s.out[i].id, s.out[j].id)
    {
      assert VerdictAt(s.out, s.rx.packets, i) && VerdictAt(s.out, s.rx.packets, j);
      PassedStays(s.out, s.rx.packets, i, j);
    }
  }

  // ----- at rest -------------------------------------------------------------------------

  /** While the ring holds a packet a crypto worker runs, is queued, or is about to be. */
  lemma RingIsServed(receiving: bool, steps: seq<Step>)
    requires Valid(receiving, steps) && End(receiving, steps).ring != []
    ensures End(receiving, steps).crypto != Crypto({}, {}, map[])
  {
    ReachableInv(receiving, steps);
  }

  /** No sender is inside the queue, on its way to the ring or about to activate anyone, and no work
      item, neither a crypto worker nor the serial worker, is running or queued. */
  ghost predicate Quiet(s: State) {
    && !s.pending && s.worker == Idle && s.crypto == Crypto({}, {}, map[])
    && (forall id :: id in s.phase ==> s.phase[id] != Enqueuing && s.phase[id] != Ringing && s.phase[id] != Announcing)
  }

  /** When everything has come to rest ring and queue are empty: every packet submitted was
      refused by the sender or has left, exactly once. */
  lemma QuietMeansEmpty(receiving: bool, steps: seq<Step>)
    requires Valid(receiving, steps) && Quiet(End(receiving, steps))
    ensures var s := End(receiving, steps);
            && s.ring == [] && s.peeked == None && Q.Packets(s.qs.h.chain) == []
            && Ids(s.out) == s.qs.h.exchanged
            && (forall id :: id in s.phase <==> id in Ids(s.out))
  {
    ReachableInv(receiving, steps);
    var s := End(receiving, steps);
    QueueFactsHold(s.qs);
    QuietState(s);
  }

  lemma QuietState(s: State)
    requires Own(s) && QueueFacts(s.qs) && CryptoOk(s.ring, s.phase, s.crypto) && Quiet(s)
    ensures s.ring == [] && s.peeked == None && Q.Packets(s.qs.h.chain) == [] && Ids(s.out) == s.qs.h.exchanged
    ensures forall id :: id in s.phase <==> id in Ids(s.out)
  {
    QuietPhases(s);
    Q.PacketsIn(s.qs.h.chain);
    assert forall id :: !Unannounced(s, id);
    assert Awake(s);
    EmptyWhenNone(Q.Packets(s.qs.h.chain));
    assert s.qs.q.producers == map[];
  }

  lemma QuietPhases(s: State)
    requires Quiet(s) && RingOk(s.ring, s.phase) && CryptoOk(s.ring, s.phase, s.crypto)
    ensures s.ring == [] && forall id :: id in s.phase ==> s.phase[id] == Announced
  {
  }
}
