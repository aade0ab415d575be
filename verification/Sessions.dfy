/** Sessions of noise.c: the handshake stages, the index table entry that passes from a
    handshake to a keypair, the three keypair slots of a peer, and the references that senders
    and queued packets hold, under every interleaving. */
module Sessions {
  import opened Common
  import N = Noise
  import R = ReplayCounter

  type Peer = nat
  type Kp = nat
  type Thread = nat

  // ----- slots ---------------------------------------------------------------------------

  /** `struct noise_keypairs` */
  datatype Slots = Slots(current: Option<Kp>, previous: Option<Kp>, next: Option<Kp>)

  predicate InSlots(x: Slots, k: Kp) {
    x.current == Some(k) || x.previous == Some(k) || x.next == Some(k)
  }

  /** No keypair is in two slots. */
  predicate Apart(x: Slots) {
    && (x.current.Some? ==> x.current != x.previous && x.current != x.next)
    && (x.previous.Some? ==> x.previous != x.next)
  }

  // ----- reference counts and the table's keypair entries --------------------------------

  /** Reference counts, how often each keypair has been released, and the keypairs whose entry
      is in the index table. */
  datatype Counts = Counts(refs: map<Kp, int>, released: map<Kp, nat>, listed: set<Kp>)

  predicate CountsOk(c: Counts) {
    c.refs.Keys == c.released.Keys
  }

  /** `wg_noise_keypair_put` */
  function Put(c: Counts, o: Option<Kp>, unreferenceNow: bool): (r: Counts)
    requires CountsOk(c)
    ensures CountsOk(r) && r.refs.Keys == c.refs.Keys
  {
    if o.None? || o.value !in c.refs then c
    else
      var k := o.value;
      var last := c.refs[k] == 1;
      Counts(c.refs[k := c.refs[k] - 1], if last then c.released[k := c.released[k] + 1] else c.released,
             if unreferenceNow || last then c.listed - {k} else c.listed)
  }

  /** `wg_noise_keypair_get`, on a keypair found */
  function Take(c: Counts, k: Kp): Counts
    requires k in c.refs
  {
    c.(refs := c.refs[k := c.refs[k] + 1])
  }

  /** `keypair_create` */
  function Create(c: Counts, k: Kp): Counts {
    c.(refs := c.refs[k := 1], released := c.released[k := 0])
  }

  // ----- the operations on slots ---------------------------------------------------------

  /** `add_new_keypair` */
  function AddNew(x: Slots, c: Counts, k: Kp, initiator: bool): (Slots, Counts)
    requires CountsOk(c)
  {
    if initiator then
      if x.next.Some? then (Slots(Some(k), x.next, None), Put(Put(c, x.current, true), x.previous, true))
      else (Slots(Some(k), x.current, None), Put(c, x.previous, true))
    else (Slots(x.current, None, Some(k)), Put(Put(c, x.next, true), x.previous, true))
  }

  /** `wg_noise_received_with_keypair`, past its first look */
  function Slide(x: Slots, c: Counts, k: Kp): (Slots, Counts)
    requires CountsOk(c)
  {
    if x.next != Some(k) then (x, c) else (Slots(Some(k), x.current, None), Put(c, x.previous, true))
  }

  /** `wg_noise_keypairs_clear` */
  function ClearAll(x: Slots, c: Counts): (Slots, Counts)
    requires CountsOk(c)
  {
    (Slots(None, None, None), Put(Put(Put(c, x.next, true), x.previous, true), x.current, true))
  }

  // ----- state ---------------------------------------------------------------------------

  /** Who a keypair belongs to, and who started its handshake. */
  datatype Kind = Kind(peer: Peer, initiator: bool)

  /** What holds a reference besides the slots: a worker, or a queued batch or packet. */
  datatype Holder = Worker(t: Thread) | Sent(id: nat) | Received(id: nat)

  /** Received packets: the numbers of those in the queue that opened under their keypair's key,
      those of them past the replay window, the numbers each keypair's window has accepted and,
      never read by a step, every number that ever opened under a keypair. */
  datatype Packets = Packets(crypted: map<Holder, nat>, validated: set<Holder>, accepted: map<Kp, set<int>>,
                             known: set<(Kp, int)>)

  function Accepted(a: map<Kp, set<int>>, k: Kp): set<int> {
    if k in a then a[k] else {}
  }

  /** The keypairs whose replay window has accepted some number. */
  function Confirmed(a: map<Kp, set<int>>): set<Kp> {
    set k | k in a && a[k] != {}
  }

  datatype State = State(
    stage: map<Peer, N.Stage>,
    listedHandshakes: set<Peer>,
    dead: set<Peer>,
    slots: map<Peer, Slots>,
    kinds: map<Kp, Kind>,
    counts: Counts,
    packets: Packets,
    peeks: map<Thread, Kp>,
    holds: map<Holder, Kp>,
    reading: map<Thread, Peer>)

  // ----- steps ---------------------------------------------------------------------------

  datatype Step =
    | CreateInitiation(p: Peer)
    | ConsumeInitiation(p: Peer)
    | CreateResponse(p: Peer)
    | ReadResponse(t: Thread, p: Peer)
    | CommitResponse(t: Thread)
    | BeginSession(p: Peer, k: Kp, created: bool)
    | ClearHandshake(p: Peer)
    | ClearKeypairs(p: Peer)
    | MakeDead(p: Peer)
    | PeekCurrent(t: Thread, p: Peer)
    | PeekIndex(t: Thread, k: Kp)
    | TakeRef(t: Thread)
    | Enqueue(t: Thread, h: Holder)
    | DropRef(h: Holder)
    | Decrypt(h: Holder, n: nat)
    | Validate(h: Holder)
    | Confirm(h: Holder)

  predicate Enabled(s: State, step: Step) {
    match step
    case CreateInitiation(p) => p in s.stage
    case ConsumeInitiation(p) => p in s.stage
    case CreateResponse(p) => p in s.stage && s.stage[p] == N.ConsumedInitiation
    case ReadResponse(t, p) => t !in s.reading && p in s.listedHandshakes && p in s.stage
      && s.stage[p] == N.CreatedInitiation
    case CommitResponse(t) => t in s.reading
    case BeginSession(p, k, _) => p in s.stage && s.stage[p] in {N.CreatedResponse, N.ConsumedResponse} && k !in s.kinds
    case ClearHandshake(p) => p in s.stage
    case ClearKeypairs(p) => p in s.slots
    case MakeDead(p) => p in s.stage
    case PeekCurrent(t, p) => t !in s.peeks && Worker(t) !in s.holds && p in s.slots && s.slots[p].current.Some?
    case PeekIndex(t, k) => t !in s.peeks && Worker(t) !in s.holds && k in s.counts.listed
    case TakeRef(t) => t in s.peeks
    case Enqueue(t, h) => Worker(t) in s.holds && !h.Worker? && h !in s.holds
    case DropRef(h) => h in s.holds
    case Decrypt(h, _) => h in s.holds && h.Received? && h !in s.packets.crypted
    case Validate(h) => h in s.holds && h in s.packets.crypted && h !in s.packets.validated
    case Confirm(h) => h in s.holds && h in s.packets.validated
  }

  predicate KeysOk(stage: map<Peer, N.Stage>, slots: map<Peer, Slots>, counts: Counts, kinds: map<Kp, Kind>) {
    stage.Keys == slots.Keys && CountsOk(counts) && kinds.Keys == counts.refs.Keys
  }

  predicate KindsIn(kinds: map<Kp, Kind>, slots: map<Peer, Slots>) {
    forall k :: k in kinds ==> kinds[k].peer in slots
  }

  predicate ReadingIn(reading: map<Thread, Peer>, stage: map<Peer, N.Stage>) {
    forall t :: t in reading ==> reading[t] in stage
  }

  predicate PeeksIn(peeks: map<Thread, Kp>, kinds: map<Kp, Kind>) {
    forall t :: t in peeks ==> peeks[t] in kinds
  }

  predicate HoldsIn(holds: map<Holder, Kp>, kinds: map<Kp, Kind>) {
    forall h :: h in holds ==> holds[h] in kinds
  }

  /** The maps speak of the same peers and keypairs. */
  predicate TypeOk(s: State) {
    && KeysOk(s.stage, s.slots, s.counts, s.kinds) && KindsIn(s.kinds, s.slots) && ReadingIn(s.reading, s.stage)
    && PeeksIn(s.peeks, s.kinds) && HoldsIn(s.holds, s.kinds)
  }

  /** `wg_noise_handshake_begin_session` for a live peer, its keypair created: the new keypair
      enters the slots and takes over the handshake's entry in the table, if it is there. */
  function Begun(s: State, p: Peer, k: Kp): State
    requires TypeOk(s) && p in s.stage
  {
    var initiator := s.stage[p] == N.ConsumedResponse;
    var (x, c) := AddNew(s.slots[p], Create(s.counts, k), k, initiator);
    s.(stage := s.stage[p := N.Zeroed], slots := s.slots[p := x], kinds := s.kinds[k := Kind(p, initiator)],
       counts := if p in s.listedHandshakes then c.(listed := c.listed + {k}) else c,
       listedHandshakes := s.listedHandshakes - {p})
  }

  function Emptied(s: State, p: Peer): State
    requires TypeOk(s) && p in s.slots
  {
    var (x, c) := ClearAll(s.slots[p], s.counts);
    s.(slots := s.slots[p := x], counts := c)
  }

  function Slid(s: State, k: Kp): State
    requires TypeOk(s) && k in s.kinds
  {
    var p := s.kinds[k].peer;
    var (x, c) := Slide(s.slots[p], s.counts, k);
    s.(slots := s.slots[p := x], counts := c)
  }

  /** `kref_get_unless_zero` on the keypair a thread has found. */
  function Got(s: State, t: Thread): State
    requires TypeOk(s) && t in s.peeks
  {
    var k := s.peeks[t];
    var s' := s.(peeks := s.peeks - {t});
    if s.counts.refs[k] == 0 then s' else s'.(counts := Take(s.counts, k), holds := s.holds[Worker(t) := k])
  }

  /** A packet has opened under its keypair's receiving key. */
  function Opened(a: Packets, h: Holder, k: Kp, n: nat): Packets {
    a.(crypted := a.crypted[h := n], known := a.known + {(k, n)})
  }

  /** `counter_validate` on the number of a packet that has opened */
  function Checked(a: Packets, h: Holder, k: Kp): Packets
    requires h in a.crypted
  {
    var before := Accepted(a.accepted, k);
    if R.Accepts(before, a.crypted[h])
    then a.(validated := a.validated + {h}, accepted := a.accepted[k := before + {a.crypted[h]}])
    else a
  }

  function Done(a: Packets, h: Holder): Packets {
    a.(crypted := a.crypted - {h}, validated := a.validated - {h})
  }

  function Dropped(s: State, h: Holder): State
    requires TypeOk(s) && h in s.holds
  {
    s.(counts := Put(s.counts, Some(s.holds[h]), false), holds := s.holds - {h}, packets := Done(s.packets, h))
  }

  /** The reference passes from the worker to what it queues. */
  function Moved(s: State, t: Thread, h: Holder): State
    requires Worker(t) in s.holds
  {
    s.(holds := (s.holds - {Worker(t)})[h := s.holds[Worker(t)]])
  }

  function Peeked(s: State, t: Thread, k: Kp): State {
    s.(peeks := s.peeks[t := k])
  }

  /** A change of a handshake's stage and table entry. */
  function Staged(s: State, p: Peer, stage: N.Stage, listed: set<Peer>): State {
    s.(stage := s.stage[p := stage], listedHandshakes := listed)
  }

  /** The stage is checked again before the response is committed. */
  function Committed(s: State, t: Thread): State
    requires TypeOk(s) && t in s.reading
  {
    var p := s.reading[t];
    var s' := s.(reading := s.reading - {t});
    if s.stage[p] == N.CreatedInitiation then Staged(s', p, N.ConsumedResponse, s.listedHandshakes) else s'
  }

  function Apply(s: State, step: Step): State
    requires TypeOk(s) && Enabled(s, step)
  {
    match step
    case CreateInitiation(p) => Staged(s, p, N.CreatedInitiation, s.listedHandshakes + {p})
    case ConsumeInitiation(p) => Staged(s, p, N.ConsumedInitiation, s.listedHandshakes)
    case CreateResponse(p) => Staged(s, p, N.CreatedResponse, s.listedHandshakes + {p})
    case ReadResponse(t, p) => s.(reading := s.reading[t := p])
    case CommitResponse(t) => Committed(s, t)
    case BeginSession(p, k, created) =>
      if !created then s
      else if p in s.dead then Staged(s, p, N.Zeroed, s.listedHandshakes)
      else Begun(s, p, k)
    case ClearHandshake(p) => Staged(s, p, N.Zeroed, s.listedHandshakes - {p})
    case ClearKeypairs(p) => Emptied(s, p)
    case MakeDead(p) => s.(dead := s.dead + {p})
    case PeekCurrent(t, p) => Peeked(s, t, s.slots[p].current.value)
    case PeekIndex(t, k) => Peeked(s, t, k)
    case TakeRef(t) => Got(s, t)
    case Enqueue(t, h) => Moved(s, t, h)
    case DropRef(h) => Dropped(s, h)
    case Decrypt(h, n) => s.(packets := Opened(s.packets, h, s.holds[h], n))
    case Validate(h) => s.(packets := Checked(s.packets, h, s.holds[h]))
    case Confirm(h) => Slid(s, s.holds[h])
  }

  // ----- invariant -----------------------------------------------------------------------

  predicate Waiting(stage: N.Stage) {
    stage in {N.CreatedInitiation, N.CreatedResponse, N.ConsumedResponse}
  }

  /** A handshake under way has its entry in the table. */
  predicate HandshakesOk(stage: map<Peer, N.Stage>, listed: set<Peer>) {
    forall p :: p in stage && Waiting(stage[p]) ==> p in listed
  }

  /** Slots hold their own peer's keypairs, all different; `next` waits for the initiator, and
      `current` is self-initiated or has carried an authenticated packet. */
  ghost predicate SlotsOf(x: Slots, p: Peer, kinds: map<Kp, Kind>, confirmed: set<Kp>) {
    && Apart(x) && (forall k :: InSlots(x, k) ==> k in kinds && kinds[k].peer == p)
    && (x.next.Some? ==> x.next.value in kinds && !kinds[x.next.value].initiator)
    && (x.current.Some? ==>
          x.current.value in kinds
          && (kinds[x.current.value].initiator || x.current.value in confirmed))
  }

  ghost predicate SlotsOk(slots: map<Peer, Slots>, kinds: map<Kp, Kind>, confirmed: set<Kp>) {
    forall p :: p in slots ==> SlotsOf(slots[p], p, kinds, confirmed)
  }

  predicate Slotted(slots: map<Peer, Slots>, kinds: map<Kp, Kind>, k: Kp) {
    k in kinds && kinds[k].peer in slots && InSlots(slots[kinds[k].peer], k)
  }

  predicate ListedAt(listed: set<Kp>, slots: map<Peer, Slots>, kinds: map<Kp, Kind>, k: Kp) {
    k in listed <==> Slotted(slots, kinds, k)
  }

  /** The keypair entries in the table are exactly the keypairs in slots. */
  ghost predicate ListedOk(listed: set<Kp>, slots: map<Peer, Slots>, kinds: map<Kp, Kind>) {
    forall k: Kp {:trigger ListedAt(listed, slots, kinds, k)} :: ListedAt(listed, slots, kinds, k)
  }

  function HoldersOf(holds: map<Holder, Kp>, k: Kp): set<Holder> {
    set h | h in holds && holds[h] == k
  }

  /** The count is the slot, if any, plus the other holders; at zero the keypair has been
      released, once. */
  predicate RefAt(c: Counts, slots: map<Peer, Slots>, kinds: map<Kp, Kind>, holds: map<Holder, Kp>, k: Kp)
    requires k in c.refs && k in c.released
  {
    && c.refs[k] == |HoldersOf(holds, k)| + (if Slotted(slots, kinds, k) then 1 else 0)
    && c.released[k] == (if c.refs[k] == 0 then 1 else 0)
  }

  predicate RefsOk(c: Counts, slots: map<Peer, Slots>, kinds: map<Kp, Kind>, holds: map<Holder, Kp>)
    requires CountsOk(c)
  {
    forall k {:trigger RefAt(c, slots, kinds, holds, k)} :: k in c.refs ==> RefAt(c, slots, kinds, holds, k)
  }

  /** A thread that has found a keypair holds none yet. */
  predicate PeeksOk(peeks: map<Thread, Kp>, holds: map<Holder, Kp>) {
    forall t :: t in peeks ==> Worker(t) !in holds
  }

  /** What a window has accepted has opened under its keypair's key, and so has every packet that
      is taken to have; a validated packet's number is among those accepted. */
  predicate PacketsOk(a: Packets, holds: map<Holder, Kp>) {
    && (forall h :: h in a.crypted ==> h in holds && h.Received? && (holds[h], a.crypted[h]) in a.known)
    && (forall h :: h in a.validated ==> h in a.crypted && h in holds && a.crypted[h] in Accepted(a.accepted, holds[h]))
    && (forall k :: k in a.accepted ==> WindowOk(a, k))
  }

  predicate WindowOk(a: Packets, k: Kp) {
    forall n :: n in Accepted(a.accepted, k) ==> (k, n) in a.known
  }

  ghost predicate Inv(s: State) {
    && TypeOk(s) && PeeksOk(s.peeks, s.holds) && HandshakesOk(s.stage, s.listedHandshakes)
    && SlotsOk(s.slots, s.kinds, Confirmed(s.packets.accepted)) && PacketsOk(s.packets, s.holds)
    && ListedOk(s.counts.listed, s.slots, s.kinds) && RefsOk(s.counts, s.slots, s.kinds, s.holds)
  }

  // ----- what the slot operations put ----------------------------------------------------

  predicate Gone(x: Slots, x': Slots, k: Kp) {
    InSlots(x, k) && !InSlots(x', k)
  }

  predicate EffectAt(x: Slots, c: Counts, x': Slots, c': Counts, k: Kp)
    requires CountsOk(c) && CountsOk(c') && k in c.refs && k in c'.refs
  {
    && c'.refs[k] == c.refs[k] - (if Gone(x, x', k) then 1 else 0)
    && c'.released[k] == c.released[k] + (if Gone(x, x', k) && c.refs[k] == 1 then 1 else 0)
  }

  /** Exactly the keypairs that leave the slots lose one reference and their table entry. */
  ghost predicate Effect(x: Slots, c: Counts, x': Slots, c': Counts) {
    && CountsOk(c) && CountsOk(c') && c.refs.Keys == c'.refs.Keys
    && (forall k :: k in c.refs ==> EffectAt(x, c, x', c', k))
    && (forall k: Kp :: k in c'.listed <==> k in c.listed && !Gone(x, x', k))
  }

  ghost predicate Known(x: Slots, c: Counts) {
    CountsOk(c) && Apart(x) && forall k :: InSlots(x, k) ==> k in c.refs
  }

  lemma PutIs(c: Counts, o: Option<Kp>, k: Kp)
    requires CountsOk(c) && (o.Some? ==> o.value in c.refs)
    ensures k in Put(c, o, true).listed <==> k in c.listed && o != Some(k)
    ensures k in c.refs ==>
              var c' := Put(c, o, true);
              && c'.refs[k] == c.refs[k] - (if o == Some(k) then 1 else 0)
              && c'.released[k] == c.released[k] + (if o == Some(k) && c.refs[k] == 1 then 1 else 0)
  {
  }

  /** Two different slots are put, one after the other. */
  lemma PutTwo(c: Counts, o: Option<Kp>, q: Option<Kp>, k: Kp)
    requires CountsOk(c) && (o.Some? ==> o.value in c.refs) && (q.Some? ==> q.value in c.refs) && (o.Some? ==> o != q)
    ensures var c' := Put(Put(c, o, true), q, true);
            && (k in c'.listed <==> k in c.listed && o != Some(k) && q != Some(k))
            && (k in c.refs ==>
                  && c'.refs[k] == c.refs[k] - (if o == Some(k) || q == Some(k) then 1 else 0)
                  && c'.released[k] == c.released[k]
                     + (if (o == Some(k) || q == Some(k)) && c.refs[k] == 1 then 1 else 0))
  {
  }

  lemma AddNewEffect(x: Slots, c: Counts, k: Kp, initiator: bool)
    requires Known(x, c) && !InSlots(x, k)
    ensures Effect(x, c, AddNew(x, c, k, initiator).0, AddNew(x, c, k, initiator).1)
  {
    var (x', c') := AddNew(x, c, k, initiator);
    forall j: Kp ensures (j in c'.listed <==> j in c.listed && !Gone(x, x', j))
      && (j in c.refs ==> EffectAt(x, c, x', c', j)) {
      if !initiator {
        PutTwo(c, x.next, x.previous, j);
      } else if x.next.Some? {
        PutTwo(c, x.current, x.previous, j);
      } else {
        PutIs(c, x.previous, j);
      }
    }
  }

  lemma SlideEffect(x: Slots, c: Counts, k: Kp)
    requires Known(x, c)
    ensures Effect(x, c, Slide(x, c, k).0, Slide(x, c, k).1)
  {
  }

  lemma ClearAllEffect(x: Slots, c: Counts)
    requires Known(x, c)
    ensures Effect(x, c, ClearAll(x, c).0, ClearAll(x, c).1)
  {
    var (x', c') := ClearAll(x, c);
    forall j: Kp ensures (j in c'.listed <==> j in c.listed && !Gone(x, x', j))
      && (j in c.refs ==> EffectAt(x, c, x', c', j)) {
      PutTwo(c, x.next, x.previous, j);
      PutIs(Put(Put(c, x.next, true), x.previous, true), x.current, j);
    }
  }

  // ----- steps on slots keep the counts --------------------------------------------------

  /** A keypair is in a slot afterwards if it was before and has not left, or is the new one. */
  predicate Became(slots: map<Peer, Slots>, slots': map<Peer, Slots>, kinds: map<Kp, Kind>, kinds': map<Kp, Kind>,
                   x: Slots, x': Slots, new': Option<Kp>, k: Kp) {
    Slotted(slots', kinds', k) <==> Some(k) == new' || (Slotted(slots, kinds, k) && !Gone(x, x', k))
  }

  lemma SlottedAfter(slots: map<Peer, Slots>, kinds: map<Kp, Kind>, confirmed: set<Kp>, p: Peer, x': Slots, k: Kp)
    requires p in slots && SlotsOf(slots[p], p, kinds, confirmed) && (InSlots(x', k) ==> InSlots(slots[p], k))
    ensures Became(slots, slots[p := x'], kinds, kinds, slots[p], x', None, k)
  {
  }

  lemma SlottedNew(slots: map<Peer, Slots>, kinds: map<Kp, Kind>, confirmed: set<Kp>, p: Peer, x': Slots, n: Kp,
                   kind: Kind, k: Kp)
    requires p in slots && SlotsOf(slots[p], p, kinds, confirmed) && n !in kinds && kind.peer == p && InSlots(x', n)
    requires k != n && InSlots(x', k) ==> InSlots(slots[p], k)
    ensures Became(slots, slots[p := x'], kinds, kinds[n := kind], slots[p], x', Some(n), k)
  {
  }

  /** No new keypair: what is in the slots only moves or leaves. */
  lemma SlotStep(slots: map<Peer, Slots>, kinds: map<Kp, Kind>, confirmed: set<Kp>, holds: map<Holder, Kp>, c: Counts,
                 p: Peer, x': Slots, c': Counts)
    requires p in slots && SlotsOf(slots[p], p, kinds, confirmed) && Effect(slots[p], c, x', c')
    requires RefsOk(c, slots, kinds, holds) && ListedOk(c.listed, slots, kinds)
    requires forall k :: InSlots(x', k) ==> InSlots(slots[p], k)
    ensures RefsOk(c', slots[p := x'], kinds, holds) && ListedOk(c'.listed, slots[p := x'], kinds)
  {
    var slots', x := slots[p := x'], slots[p];
    forall k: Kp ensures ListedAt(c'.listed, slots', kinds, k) {
      assert ListedAt(c.listed, slots, kinds, k);
      SlottedAfter(slots, kinds, confirmed, p, x', k);
    }
    forall k | k in c'.refs ensures RefAt(c', slots', kinds, holds, k) {
      assert RefAt(c, slots, kinds, holds, k) && EffectAt(x, c, x', c', k);
      SlottedAfter(slots, kinds, confirmed, p, x', k);
    }
  }

  /** A keypair has been created and put in a slot, and others have left. */
  lemma NewStep(slots: map<Peer, Slots>, kinds: map<Kp, Kind>, confirmed: set<Kp>, holds: map<Holder, Kp>, c: Counts,
                p: Peer, x': Slots, c': Counts, n: Kp, kind: Kind)
    requires p in slots && SlotsOf(slots[p], p, kinds, confirmed) && CountsOk(c) && n !in c.refs && n !in kinds
             && kind.peer == p
    requires Effect(slots[p], Create(c, n), x', c') && InSlots(x', n) && HoldersOf(holds, n) == {}
    requires RefsOk(c, slots, kinds, holds) && ListedOk(c.listed, slots, kinds)
    requires forall k :: k != n && InSlots(x', k) ==> InSlots(slots[p], k)
    ensures RefsOk(c', slots[p := x'], kinds[n := kind], holds)
    ensures ListedOk(c'.listed + {n}, slots[p := x'], kinds[n := kind])
  {
    var slots', kinds', x := slots[p := x'], kinds[n := kind], slots[p];
    forall k: Kp ensures ListedAt(c'.listed + {n}, slots', kinds', k) {
      assert ListedAt(c.listed, slots, kinds, k);
      SlottedNew(slots, kinds, confirmed, p, x', n, kind, k);
    }
    forall k | k in c'.refs ensures RefAt(c', slots', kinds', holds, k) {
      assert k != n ==> RefAt(c, slots, kinds, holds, k);
      assert EffectAt(x, Create(c, n), x', c', k);
      SlottedNew(slots, kinds, confirmed, p, x', n, kind, k);
    }
  }

  lemma SlotsElsewhere(slots: map<Peer, Slots>, kinds: map<Kp, Kind>, kinds': map<Kp, Kind>, confirmed: set<Kp>,
                       p: Peer, x': Slots)
    requires SlotsOk(slots, kinds, confirmed) && p in slots && SlotsOf(x', p, kinds', confirmed)
    requires forall k :: k in kinds ==> k in kinds' && kinds'[k] == kinds[k]
    ensures SlotsOk(slots[p := x'], kinds', confirmed)
  {
  }

  lemma EmptiedKeeps(s: State, p: Peer)
    requires Inv(s) && p in s.slots
    ensures Inv(Emptied(s, p))
  {
    var x := s.slots[p];
    assert SlotsOf(x, p, s.kinds, Confirmed(s.packets.accepted));
    ClearAllEffect(x, s.counts);
    var (x', c') := ClearAll(x, s.counts);
    SlotStep(s.slots, s.kinds, Confirmed(s.packets.accepted), s.holds, s.counts, p, x', c');
    SlotsElsewhere(s.slots, s.kinds, s.kinds, Confirmed(s.packets.accepted), p, x');
  }

  lemma SlidKeeps(s: State, k: Kp)
    requires Inv(s) && k in s.kinds && k in Confirmed(s.packets.accepted)
    ensures Inv(Slid(s, k))
  {
    var p := s.kinds[k].peer;
    var x := s.slots[p];
    assert SlotsOf(x, p, s.kinds, Confirmed(s.packets.accepted));
    SlideEffect(x, s.counts, k);
    var (x', c') := Slide(x, s.counts, k);
    SlotStep(s.slots, s.kinds, Confirmed(s.packets.accepted), s.holds, s.counts, p, x', c');
    SlotsElsewhere(s.slots, s.kinds, s.kinds, Confirmed(s.packets.accepted), p, x');
  }

  // ----- a new session -------------------------------------------------------------------

  lemma NewSlots(x: Slots, p: Peer, kinds: map<Kp, Kind>, confirmed: set<Kp>, c: Counts, k: Kp, initiator: bool)
    requires SlotsOf(x, p, kinds, confirmed) && k !in kinds && CountsOk(c)
    ensures SlotsOf(AddNew(x, c, k, initiator).0, p, kinds[k := Kind(p, initiator)], confirmed)
    ensures InSlots(AddNew(x, c, k, initiator).0, k)
    ensures forall j :: j != k && InSlots(AddNew(x, c, k, initiator).0, j) ==> InSlots(x, j)
  {
  }

  lemma NobodyHolds(holds: map<Holder, Kp>, kinds: map<Kp, Kind>, k: Kp)
    requires HoldsIn(holds, kinds) && k !in kinds
    ensures HoldersOf(holds, k) == {}
  {
  }

  lemma BegunTypes(s: State, p: Peer, k: Kp)
    requires Inv(s) && p in s.stage && Waiting(s.stage[p]) && k !in s.kinds
    ensures var s' := Begun(s, p, k);
            TypeOk(s') && PeeksOk(s'.peeks, s'.holds)
            && HandshakesOk(s'.stage, s'.listedHandshakes)
    ensures k in Begun(s, p, k).counts.listed
  {
    assert p in s.listedHandshakes;
  }

  lemma BegunSlots(s: State, p: Peer, k: Kp)
    requires Inv(s) && p in s.stage && Waiting(s.stage[p]) && k !in s.kinds
    ensures var s' := Begun(s, p, k);
            && CountsOk(s'.counts) && SlotsOk(s'.slots, s'.kinds, Confirmed(s'.packets.accepted))
            && ListedOk(s'.counts.listed, s'.slots, s'.kinds) && RefsOk(s'.counts, s'.slots, s'.kinds, s'.holds)
  {
    var x, c, initiator := s.slots[p], Create(s.counts, k), s.stage[p] == N.ConsumedResponse;
    assert SlotsOf(x, p, s.kinds, Confirmed(s.packets.accepted)) && p in s.listedHandshakes;
    AddNewEffect(x, c, k, initiator);
    NewSlots(x, p, s.kinds, Confirmed(s.packets.accepted), c, k, initiator);
    NobodyHolds(s.holds, s.kinds, k);
    var (x', c') := AddNew(x, c, k, initiator);
    var kinds' := s.kinds[k := Kind(p, initiator)];
    NewStep(s.slots, s.kinds, Confirmed(s.packets.accepted), s.holds, s.counts, p, x', c', k, Kind(p, initiator));
    SameRefs(c', c'.(listed := c'.listed + {k}), s.slots[p := x'], kinds', s.holds);
    SlotsElsewhere(s.slots, s.kinds, kinds', Confirmed(s.packets.accepted), p, x');
  }

  lemma SameRefs(c: Counts, c': Counts, slots: map<Peer, Slots>, kinds: map<Kp, Kind>, holds: map<Holder, Kp>)
    requires CountsOk(c) && RefsOk(c, slots, kinds, holds) && c' == c.(listed := c'.listed)
    ensures CountsOk(c') && RefsOk(c', slots, kinds, holds)
  {
    forall k | k in c'.refs ensures RefAt(c', slots, kinds, holds, k) {
      assert RefAt(c, slots, kinds, holds, k);
    }
  }

  lemma BegunKeeps(s: State, p: Peer, k: Kp)
    requires Inv(s) && p in s.stage && Waiting(s.stage[p]) && k !in s.kinds
    ensures Inv(Begun(s, p, k)) && k in Begun(s, p, k).counts.listed
  {
    BegunTypes(s, p, k);
    BegunSlots(s, p, k);
  }

  // ----- references that move ------------------------------------------------------------

  lemma HoldersAdd(holds: map<Holder, Kp>, h: Holder, k: Kp, j: Kp)
    requires h !in holds
    ensures |HoldersOf(holds[h := k], j)| == |HoldersOf(holds, j)| + (if j == k then 1 else 0)
  {
    var was, now := HoldersOf(holds, j), HoldersOf(holds[h := k], j);
    if j == k {
      assert now == was + {h};
    } else {
      assert now == was;
    }
  }

  lemma HoldersDrop(holds: map<Holder, Kp>, h: Holder, j: Kp)
    requires h in holds
    ensures |HoldersOf(holds - {h}, j)| == |HoldersOf(holds, j)| - (if j == holds[h] then 1 else 0)
  {
    var was, now := HoldersOf(holds, j), HoldersOf(holds - {h}, j);
    if j == holds[h] {
      assert was == now + {h};
    } else {
      assert now == was;
    }
  }

  lemma TakeRefs(c: Counts, slots: map<Peer, Slots>, kinds: map<Kp, Kind>, holds: map<Holder, Kp>, h: Holder, k: Kp)
    requires CountsOk(c) && RefsOk(c, slots, kinds, holds) && h !in holds && k in c.refs && c.refs[k] != 0
    ensures CountsOk(Take(c, k)) && RefsOk(Take(c, k), slots, kinds, holds[h := k])
  {
    var c', holds' := Take(c, k), holds[h := k];
    assert RefAt(c, slots, kinds, holds, k);
    forall j | j in c'.refs ensures RefAt(c', slots, kinds, holds', j) {
      assert RefAt(c, slots, kinds, holds, j);
      HoldersAdd(holds, h, k, j);
    }
  }

  lemma MoveRefs(c: Counts, slots: map<Peer, Slots>, kinds: map<Kp, Kind>, holds: map<Holder, Kp>, g: Holder, h: Holder)
    requires CountsOk(c) && RefsOk(c, slots, kinds, holds) && g in holds && h !in holds
    ensures RefsOk(c, slots, kinds, (holds - {g})[h := holds[g]])
  {
    var holds' := (holds - {g})[h := holds[g]];
    forall j | j in c.refs ensures RefAt(c, slots, kinds, holds', j) {
      assert RefAt(c, slots, kinds, holds, j);
      HoldersDrop(holds, g, j);
      HoldersAdd(holds - {g}, h, holds[g], j);
    }
  }

  lemma DropRefs(c: Counts, slots: map<Peer, Slots>, kinds: map<Kp, Kind>, holds: map<Holder, Kp>, h: Holder)
    requires CountsOk(c) && RefsOk(c, slots, kinds, holds) && ListedOk(c.listed, slots, kinds) && h in holds
             && holds[h] in c.refs
    ensures var c' := Put(c, Some(holds[h]), false);
            RefsOk(c', slots, kinds, holds - {h}) && ListedOk(c'.listed, slots, kinds)
  {
    var k, c', holds' := holds[h], Put(c, Some(holds[h]), false), holds - {h};
    assert h in HoldersOf(holds, k) && |HoldersOf(holds, k)| > 0;
    assert RefAt(c, slots, kinds, holds, k) && ListedAt(c.listed, slots, kinds, k);
    forall j | j in c'.refs ensures RefAt(c', slots, kinds, holds', j) {
      assert RefAt(c, slots, kinds, holds, j);
      HoldersDrop(holds, h, j);
    }
    forall j: Kp ensures ListedAt(c'.listed, slots, kinds, j) {
      assert ListedAt(c.listed, slots, kinds, j);
    }
  }

  /** Packets do not mind who else comes and goes. */
  lemma PacketsHeld(a: Packets, holds: map<Holder, Kp>, holds': map<Holder, Kp>)
    requires PacketsOk(a, holds) && forall h :: h in a.crypted && h in holds ==> h in holds' && holds'[h] == holds[h]
    ensures PacketsOk(a, holds')
  {
  }

  lemma DoneOk(a: Packets, holds: map<Holder, Kp>, h: Holder)
    requires PacketsOk(a, holds)
    ensures PacketsOk(Done(a, h), holds - {h})
  {
    forall k | k in a.accepted ensures WindowOk(Done(a, h), k) {
      assert WindowOk(a, k);
    }
  }

  lemma OpenedOk(a: Packets, holds: map<Holder, Kp>, h: Holder, n: nat)
    requires PacketsOk(a, holds) && h in holds && h.Received? && h !in a.crypted
    ensures PacketsOk(Opened(a, h, holds[h], n), holds)
  {
    forall k | k in a.accepted ensures WindowOk(Opened(a, h, holds[h], n), k) {
      assert WindowOk(a, k);
    }
  }

  /** Only holders, their counts and their packets change. */
  lemma HoldersKeep(s: State, peeks': map<Thread, Kp>, counts': Counts, holds': map<Holder, Kp>, packets': Packets)
    requires Inv(s) && CountsOk(counts') && counts'.refs.Keys == s.counts.refs.Keys
    requires PeeksIn(peeks', s.kinds) && HoldsIn(holds', s.kinds) && PeeksOk(peeks', holds')
             && PacketsOk(packets', holds')
    requires Confirmed(packets'.accepted) == Confirmed(s.packets.accepted)
    requires RefsOk(counts', s.slots, s.kinds, holds') && ListedOk(counts'.listed, s.slots, s.kinds)
    ensures Inv(s.(peeks := peeks', counts := counts', holds := holds', packets := packets'))
  {
  }

  lemma GotKeeps(s: State, t: Thread)
    requires Inv(s) && t in s.peeks
    ensures Inv(Got(s, t))
  {
    var k, peeks' := s.peeks[t], s.peeks - {t};
    if s.counts.refs[k] == 0 {
      HoldersKeep(s, peeks', s.counts, s.holds, s.packets);
    } else {
      var holds' := s.holds[Worker(t) := k];
      TakeRefs(s.counts, s.slots, s.kinds, s.holds, Worker(t), k);
      PacketsHeld(s.packets, s.holds, holds');
      HoldersKeep(s, peeks', Take(s.counts, k), holds', s.packets);
    }
  }

  lemma EnqueueKeeps(s: State, t: Thread, h: Holder)
    requires Inv(s) && Worker(t) in s.holds && !h.Worker? && h !in s.holds
    ensures Inv(Moved(s, t, h))
  {
    var holds' := (s.holds - {Worker(t)})[h := s.holds[Worker(t)]];
    MoveRefs(s.counts, s.slots, s.kinds, s.holds, Worker(t), h);
    PacketsHeld(s.packets, s.holds, holds');
    HoldersKeep(s, s.peeks, s.counts, holds', s.packets);
  }

  lemma DropRefKeeps(s: State, h: Holder)
    requires Inv(s) && h in s.holds
    ensures Inv(Dropped(s, h))
  {
    DropRefs(s.counts, s.slots, s.kinds, s.holds, h);
    DoneOk(s.packets, s.holds, h);
    HoldersKeep(s, s.peeks, Put(s.counts, Some(s.holds[h]), false), s.holds - {h}, Done(s.packets, h));
  }

  lemma DecryptKeeps(s: State, h: Holder, n: nat)
    requires Inv(s) && Enabled(s, Decrypt(h, n))
    ensures Inv(Apply(s, Decrypt(h, n)))
  {
    OpenedOk(s.packets, s.holds, h, n);
    HoldersKeep(s, s.peeks, s.counts, s.holds, Opened(s.packets, h, s.holds[h], n));
  }

  lemma CheckedOk(a: Packets, holds: map<Holder, Kp>, h: Holder)
    requires PacketsOk(a, holds) && h in holds && h in a.crypted
    ensures PacketsOk(Checked(a, h, holds[h]), holds)
    ensures Confirmed(a.accepted) <= Confirmed(Checked(a, h, holds[h]).accepted)
  {
    var a' := Checked(a, h, holds[h]);
    forall k | k in a'.accepted ensures WindowOk(a', k) {
      assert k in a.accepted ==> WindowOk(a, k);
    }
  }

  lemma ValidateKeeps(s: State, h: Holder)
    requires Inv(s) && Enabled(s, Validate(h))
    ensures Inv(Apply(s, Validate(h)))
  {
    var s', c := Apply(s, Validate(h)), Confirmed(s.packets.accepted);
    CheckedOk(s.packets, s.holds, h);
    forall p | p in s'.slots ensures SlotsOf(s'.slots[p], p, s'.kinds, Confirmed(s'.packets.accepted)) {
      assert SlotsOf(s.slots[p], p, s.kinds, c);
    }
  }

  lemma ValidatedConfirms(s: State, h: Holder)
    requires PacketsOk(s.packets, s.holds) && h in s.packets.validated
    ensures h in s.holds && s.holds[h] in Confirmed(s.packets.accepted)
  {
  }

  /** Only a stage and handshake entries change. */
  lemma StagedKeeps(s: State, p: Peer, stage: N.Stage, listed: set<Peer>)
    requires Inv(s) && p in s.stage && s.listedHandshakes - {p} <= listed && (Waiting(stage) ==> p in listed)
    ensures Inv(Staged(s, p, stage, listed))
  {
  }

  predicate OnHandshake(step: Step) {
    || step.CreateInitiation? || step.ConsumeInitiation? || step.CreateResponse? || step.ReadResponse?
    || step.CommitResponse? || step.ClearHandshake? || step.MakeDead? || step.BeginSession?
  }

  lemma HandshakeKeeps(s: State, step: Step)
    requires Inv(s) && OnHandshake(step) && Enabled(s, step)
             && (step.BeginSession? ==> !step.created || step.p in s.dead)
    ensures Inv(Apply(s, step))
  {
    match step
    case CreateInitiation(p) => StagedKeeps(s, p, N.CreatedInitiation, s.listedHandshakes + {p});
    case ConsumeInitiation(p) => StagedKeeps(s, p, N.ConsumedInitiation, s.listedHandshakes);
    case CreateResponse(p) => StagedKeeps(s, p, N.CreatedResponse, s.listedHandshakes + {p});
    case ReadResponse(t, p) => ReadingKeeps(s, s.reading[t := p]);
    case CommitResponse(t) => CommittedKeeps(s, t);
    case ClearHandshake(p) => StagedKeeps(s, p, N.Zeroed, s.listedHandshakes - {p});
    case MakeDead(p) =>
    case BeginSession(p, _, created) =>
      if created {
        StagedKeeps(s, p, N.Zeroed, s.listedHandshakes);
      }
  }

  lemma ReadingKeeps(s: State, reading: map<Thread, Peer>)
    requires Inv(s) && ReadingIn(reading, s.stage)
    ensures Inv(s.(reading := reading))
  {
  }

  lemma CommittedKeeps(s: State, t: Thread)
    requires Inv(s) && t in s.reading
    ensures Inv(Committed(s, t))
  {
    var p := s.reading[t];
    ReadingKeeps(s, s.reading - {t});
    if s.stage[p] == N.CreatedInitiation {
      StagedKeeps(s.(reading := s.reading - {t}), p, N.ConsumedResponse, s.listedHandshakes);
    }
  }

  lemma PeekedKeeps(s: State, t: Thread, k: Kp)
    requires Inv(s) && t !in s.peeks && Worker(t) !in s.holds && k in s.kinds
    ensures Inv(Peeked(s, t, k))
  {
  }

  lemma ReferenceKeeps(s: State, step: Step)
    requires Inv(s) && !OnHandshake(step) && Enabled(s, step)
    ensures Inv(Apply(s, step))
  {
    match step
    case ClearKeypairs(p) => EmptiedKeeps(s, p);
    case PeekCurrent(t, p) =>
      assert SlotsOf(s.slots[p], p, s.kinds, Confirmed(s.packets.accepted));
      PeekedKeeps(s, t, s.slots[p].current.value);
    case PeekIndex(t, k) =>
      assert ListedAt(s.counts.listed, s.slots, s.kinds, k);
      PeekedKeeps(s, t, k);
    case TakeRef(t) => GotKeeps(s, t);
    case Enqueue(t, h) => EnqueueKeeps(s, t, h);
    case DropRef(h) => DropRefKeeps(s, h);
    case Decrypt(h, n) => DecryptKeeps(s, h, n);
    case Validate(h) => ValidateKeeps(s, h);
    case Confirm(h) =>
      ValidatedConfirms(s, h);
      SlidKeeps(s, s.holds[h]);
  }

  lemma StepKeepsInv(s: State, step: Step)
    requires Inv(s) && Enabled(s, step)
    ensures Inv(Apply(s, step))
  {
    if !OnHandshake(step) {
      ReferenceKeeps(s, step);
    } else if step.BeginSession? && step.created && step.p !in s.dead {
      BegunKeeps(s, step.p, step.k);
    } else {
      HandshakeKeeps(s, step);
    }
  }

  // ----- runs ----------------------------------------------------------------------------

  function Init(peers: set<Peer>): State {
    State(map p | p in peers :: N.Zeroed, {}, {}, map p | p in peers :: Slots(None, None, None), map[],
          Counts(map[], map[], {}), Packets(map[], {}, map[], {}), map[], map[], map[])
  }

  ghost predicate Valid(peers: set<Peer>, steps: seq<Step>)
    decreases |steps|, 0
  {
    steps == [] || (Valid(peers, steps[..|steps| - 1]) && TypeOk(End(peers, steps[..|steps| - 1])) &&
                    Enabled(End(peers, steps[..|steps| - 1]), steps[|steps| - 1]))
  }

  ghost function End(peers: set<Peer>, steps: seq<Step>): State
    requires Valid(peers, steps)
    decreases |steps|, 1
  {
    if steps == [] then Init(peers) else Apply(End(peers, steps[..|steps| - 1]), steps[|steps| - 1])
  }

  lemma {:induction false} ReachableInv(peers: set<Peer>, steps: seq<Step>)
    requires Valid(peers, steps)
    ensures Inv(End(peers, steps))
    decreases |steps|
  {
    if steps != [] {
      ReachableInv(peers, steps[..|steps| - 1]);
      StepKeepsInv(End(peers, steps[..|steps| - 1]), steps[|steps| - 1]);
    }
  }

  /** In every run a handshake under way is in the index table, so a new session always takes
      over an entry there, and the keypairs in the table are exactly those in slots. */
  lemma TableFollowsSlots(peers: set<Peer>, steps: seq<Step>, p: Peer, k: Kp)
    requires Valid(peers, steps)
    ensures var s := End(peers, steps);
            && (p in s.stage && Waiting(s.stage[p]) ==> p in s.listedHandshakes)
            && (k in s.counts.listed <==> Slotted(s.slots, s.kinds, k))
            && TypeOk(s) && (p in s.stage && Waiting(s.stage[p]) && k !in s.kinds ==> k in Begun(s, p, k).counts.listed)
  {
    ReachableInv(peers, steps);
    var s := End(peers, steps);
    assert ListedAt(s.counts.listed, s.slots, s.kinds, k);
    if p in s.stage && Waiting(s.stage[p]) && k !in s.kinds {
      BegunKeeps(s, p, k);
    }
  }

  /** In every run the slots of a peer are different, `next` was started by the other side, and
      `current` was started here or its replay window has accepted a number; all it has accepted
      came in packets that opened under its key. */
  lemma SlotDiscipline(peers: set<Peer>, steps: seq<Step>, p: Peer)
    requires Valid(peers, steps) && p in End(peers, steps).slots
    ensures var s := End(peers, steps);
            var x := s.slots[p];
            && Apart(x) && (x.next.Some? ==> x.next.value in s.kinds && !s.kinds[x.next.value].initiator)
            && (x.current.Some? ==>
                  var k, a := x.current.value, s.packets;
                  && k in s.kinds && (s.kinds[k].initiator || Accepted(a.accepted, k) != {})
                  && (forall n :: n in Accepted(a.accepted, k) ==> (k, n) in a.known))
  {
    ReachableInv(peers, steps);
    var s := End(peers, steps);
    assert SlotsOf(s.slots[p], p, s.kinds, Confirmed(s.packets.accepted));
    if s.slots[p].current.Some? && s.slots[p].current.value in s.packets.accepted {
      assert WindowOk(s.packets, s.slots[p].current.value);
    }
  }

  /** In every run a keypair's count is its slot plus its other holders, and it has been released
      once if nothing holds it and not at all otherwise. */
  lemma ReleasedOnce(peers: set<Peer>, steps: seq<Step>, k: Kp)
    requires Valid(peers, steps)
    ensures var s := End(peers, steps);
            k in s.kinds ==>
              && k in s.counts.refs && k in s.counts.released
              && s.counts.refs[k] == |HoldersOf(s.holds, k)| + (if Slotted(s.slots, s.kinds, k) then 1 else 0)
              && s.counts.released[k] == (if HoldersOf(s.holds, k) == {} && !Slotted(s.slots, s.kinds, k) then 1 else 0)
  {
    ReachableInv(peers, steps);
    var s := End(peers, steps);
    assert k in s.kinds ==> RefAt(s.counts, s.slots, s.kinds, s.holds, k);
  }
}
