/** Every run of any number of devices and peers exchanging handshake messages over a network
    that delivers whatever it likes: what an initiator and a responder agree on when the one
    accepts what the other sealed. */
module NoiseRuns {
  import opened Common
  import opened Noise

  type Device = nat
  type Peer = nat
  type Thread = nat

  // ----- state ---------------------------------------------------------------------------

  /** What the first message contributed to a handshake's transcript. */
  datatype Transcript = Transcript(si: Point, sr: Point, ei: Point, sealedStatic: Term, sealedTime: Term)

  /** One side's view of a handshake it finished, with the seal that ends the response. */
  datatype Finished = Finished(si: Point, sr: Point, ei: Point, er: Point, psk: Term, transcript: Transcript,
                               sealed: Term, chainingKey: Term)

  /** A consumer between its reading and its writing half. */
  datatype Reading =
    | OfInitiation(peer: Peer, got: Opened, sender: nat, transcript: Transcript)
    | OfResponse(peer: Peer, copy: Handshake, read: Handshake, m: Response, transcript: Transcript)

  datatype State = State(
    identity: map<Device, nat>,
    owner: map<Peer, Device>,
    hs: map<Peer, Handshake>,
    heard: map<Peer, Transcript>,
    readings: map<Thread, Reading>,
    produced: set<Finished>,
    accepted: set<Finished>)

  function IdentityOf(identity: map<Device, nat>, d: Device): Option<nat> {
    if d in identity then Some(identity[d]) else None
  }

  /** The static public key of a peer's device. */
  function Self(identity: map<Device, nat>, owner: map<Peer, Device>, p: Peer): Point {
    if p in owner && owner[p] in identity then G(identity[owner[p]]) else Low(0)
  }

  // ----- steps ---------------------------------------------------------------------------

  datatype Step =
    | Initiate(p: Peer, e: nat, time: Term, index: nat)
    | ReadFirst(t: Thread, p: Peer, first: Initiation)
    | WriteFirst(t: Thread)
    | Respond(p: Peer, e: nat, index: nat)
    | ReadSecond(t: Thread, p: Peer, second: Response)
    | WriteSecond(t: Thread)
    | Finish(t: Thread)
    | Clear(p: Peer)
    | SetPsk(p: Peer, psk: Term)
    | SetIdentity(d: Device, secret: Option<nat>)

  predicate Enabled(s: State, step: Step) {
    match step
    case Initiate(p, e, _, _) => p in s.hs && e > 0
    case ReadFirst(t, p, m) =>
      t !in s.readings && p in s.hs && p in s.owner && s.owner[p] in s.identity
        && ReadInitiation(s.hs[p], s.identity[s.owner[p]], m).Some?
    case WriteFirst(t) => t in s.readings && s.readings[t].OfInitiation?
    case Respond(p, e, _) => p in s.hs && e > 0
    case ReadSecond(t, p, m) =>
      t !in s.readings && p in s.hs && p in s.owner && s.owner[p] in s.identity
        && ReadResponse(s.hs[p], s.identity[s.owner[p]], m).Some?
    case WriteSecond(t) => t in s.readings && s.readings[t].OfResponse?
    case Finish(t) => t in s.readings
    case Clear(p) => p in s.hs
    case SetPsk(p, _) => p in s.hs
    // the identity is locked against this while a consumer runs
    case SetIdentity(d, _) => forall t :: t in s.readings
                                          ==> s.readings[t].peer in s.owner && s.owner[s.readings[t].peer] != d
  }

  function WithIdentity(identity: map<Device, nat>, d: Device, secret: Option<nat>): map<Device, nat> {
    if secret.Some? then identity[d := secret.value] else identity - {d}
  }

  /** The seal and chaining key a responder ends with, as a record of its view. */
  function ResponderView(s: State, p: Peer, before: Handshake, after: Handshake, m: Response): Finished
    requires p in s.heard
  {
    Finished(before.remoteStatic, Self(s.identity, s.owner, p), before.remoteEphemeral, m.ephemeral, before.preshared,
             s.heard[p],
             m.sealedNothing, after.chainingKey)
  }

  function InitiatorView(s: State, r: Reading): Finished
    requires r.OfResponse?
  {
    Finished(Self(s.identity, s.owner, r.peer), r.copy.remoteStatic, G(r.copy.ephemeral), r.m.ephemeral,
             r.copy.preshared, r.transcript, r.m.sealedNothing, r.read.chainingKey)
  }

  predicate TypeOk(s: State) {
    s.owner.Keys == s.hs.Keys == s.heard.Keys && forall t :: t in s.readings ==> s.readings[t].peer in s.hs
  }

  /** The second half of consuming a response: nothing is written unless the stage is still the
      one read. */
  function SecondWritten(s: State, t: Thread): State
    requires TypeOk(s) && t in s.readings && s.readings[t].OfResponse?
  {
    var r := s.readings[t];
    var h := s.hs[r.peer];
    var s' := s.(hs := s.hs[r.peer := CommitResponse(h, r.read, r.m)], readings := s.readings - {t});
    if h.stage == CreatedInitiation then s'.(accepted := s.accepted + {InitiatorView(s, r)}) else s'
  }

  function Apply(s: State, step: Step): State
    requires TypeOk(s) && Enabled(s, step)
  {
    match step
    case Initiate(p, e, time, index) =>
      var id := IdentityOf(s.identity, s.owner[p]);
      var (h, m) := CreateInitiation(s.hs[p], id, e, time, index);
      if m.None? then s.(hs := s.hs[p := h])
      else s.(hs := s.hs[p := h],
              heard := s.heard[p := Transcript(Self(s.identity, s.owner, p), h.remoteStatic, G(e),
                                               m.value.sealedStatic, m.value.sealedTime)])
    case ReadFirst(t, p, m) =>
      var got := ReadInitiation(s.hs[p], s.identity[s.owner[p]], m).value;
      s.(readings := s.readings[t := OfInitiation(p, got, m.sender,
          Transcript(s.hs[p].remoteStatic, Self(s.identity, s.owner, p), m.ephemeral, m.sealedStatic, m.sealedTime))])
    case WriteFirst(t) =>
      var r := s.readings[t];
      s.(hs := s.hs[r.peer := CommitInitiation(s.hs[r.peer], r.got, r.sender)],
         heard := s.heard[r.peer := r.transcript],
         readings := s.readings - {t})
    case Respond(p, e, index) =>
      var (h, m) := CreateResponse(s.hs[p], e, index);
      if m.None? then s.(hs := s.hs[p := h])
      else s.(hs := s.hs[p := h], produced := s.produced + {ResponderView(s, p, s.hs[p], h, m.value)})
    case ReadSecond(t, p, m) =>
      var read := ReadResponse(s.hs[p], s.identity[s.owner[p]], m).value;
      s.(readings := s.readings[t := OfResponse(p, s.hs[p], read, m, s.heard[p])])
    case WriteSecond(t) => SecondWritten(s, t)
    case Finish(t) => s.(readings := s.readings - {t})
    case Clear(p) => s.(hs := s.hs[p := Cleared(s.hs[p])])
    case SetPsk(p, psk) => s.(hs := s.hs[p := s.hs[p].(preshared := psk)])
    case SetIdentity(d, secret) =>
      s.(identity := WithIdentity(s.identity, d, secret), hs := AllRestarted(s.owner, s.hs, d, secret))
  }

  // ----- transcripts ---------------------------------------------------------------------

  function HashOf(tr: Transcript): Term {
    Hash(Hash(Hash(Hash(INIT_HASH, Key(tr.sr)), Key(tr.ei)), tr.sealedStatic), tr.sealedTime)
  }

  /** The hash is that of the first message, with the initiator's static key under seal. */
  predicate Whole(hash: Term, tr: Transcript) {
    && hash == HashOf(tr) && tr.sealedStatic.Sealed? && tr.sealedStatic.plain == Key(tr.si)
    && tr.ei.G? && tr.si.G? && tr.sr.G?
  }

  /** An initiator that has sent its message has that message's transcript and its own keys. */
  predicate InitiatorOk(hash: Term, ephemeral: nat, remoteStatic: Point, self: Point, tr: Transcript) {
    Whole(hash, tr) && tr.si == self && tr.sr == remoteStatic && tr.ei == G(ephemeral)
  }

  /** A responder that has consumed a message has the transcript it heard and its own keys. */
  predicate ResponderOk(hash: Term, remoteEphemeral: Point, remoteStatic: Point, self: Point, tr: Transcript) {
    Whole(hash, tr) && tr.si == remoteStatic && tr.sr == self && tr.ei == remoteEphemeral
  }

  predicate HandshakeOk(h: Handshake, identity: Option<nat>, tr: Transcript) {
    && h.staticStatic == Precomputed(identity, h.remoteStatic)
    && (h.stage != Zeroed ==> h.remoteStatic.G? && identity.Some?)
    && (h.stage == CreatedInitiation ==> InitiatorOk(h.hash, h.ephemeral, h.remoteStatic, G(identity.value), tr))
    && (h.stage == ConsumedInitiation ==> ResponderOk(h.hash, h.remoteEphemeral, h.remoteStatic, G(identity.value), tr))
  }

  predicate ReadingOk(r: Reading, remoteStatic: Point, identity: Option<nat>) {
    && identity.Some?
    && match r
       case OfInitiation(_, got, _, tr) => ResponderOk(got.hash, got.ephemeral, remoteStatic, G(identity.value), tr)
       case OfResponse(_, copy, read, m, tr) =>
         && InitiatorOk(copy.hash, copy.ephemeral, copy.remoteStatic, G(identity.value), tr)
         && copy.remoteStatic == remoteStatic && ReadResponse(copy, identity.value, m) == Some(read)
  }

  /** From some transcript hash and chaining key on, the response's part of the handshake leads
      to this seal and this chaining key. */
  predicate Sealing(hash: Term, ck: Term, er: Point, ee: Term, se: Term, psk: Term, sealed: Term, ckEnd: Term) {
    var ck4 := Kdf(1, Kdf(1, Kdf(1, ck, Key(er)), ee), se);
    && ckEnd == Kdf(1, ck4, psk)
    && sealed == Sealed(Kdf(3, ck4, psk), Hash(Hash(hash, Key(er)), Kdf(2, ck4, psk)), Nothing)
  }

  ghost predicate ProducedOk(f: Finished) {
    exists hash, ck, ee, se ::
      Sealing(hash, ck, f.er, ee, se, f.psk, f.sealed, f.chainingKey)
        && ResponderOk(hash, f.ei, f.si, f.sr, f.transcript)
  }

  ghost predicate AcceptedOk(f: Finished) {
    f.ei.G? &&
    exists hash, ck, ee, se ::
      Sealing(hash, ck, f.er, ee, se, f.psk, f.sealed, f.chainingKey)
        && InitiatorOk(hash, f.ei.secret, f.sr, f.si, f.transcript)
  }

  /** Same statics, ephemerals, sealed time stamp and preshared key, and the same chaining key
      to derive the session keys from. */
  predicate Agree(a: Finished, r: Finished) {
    && a.si == r.si && a.sr == r.sr && a.ei == r.ei && a.er == r.er && a.psk == r.psk
    && a.transcript.sealedTime == r.transcript.sealedTime && a.chainingKey == r.chainingKey
  }

  /** Equal seals leave nothing to differ in. */
  lemma SealsAgree(a: Finished, r: Finished)
    requires AcceptedOk(a) && ProducedOk(r) && a.sealed == r.sealed
    ensures Agree(a, r)
  {
  }

  // ----- what the message functions do to transcripts ------------------------------------

  lemma InitiateOk(h: Handshake, identity: Option<nat>, e: nat, time: Term, index: nat, tr: Transcript)
    requires HandshakeOk(h, identity, tr) && e > 0
    ensures var (h', m) := CreateInitiation(h, identity, e, time, index);
            && (m.None? ==> HandshakeOk(h', identity, tr))
            && (m.Some? ==> identity.Some? && HandshakeOk(h', identity,
                                Transcript(G(identity.value), h.remoteStatic, G(e), m.value.sealedStatic,
                                           m.value.sealedTime)))
  {
  }

  lemma ReadFirstOk(h: Handshake, secret: nat, m: Initiation, p: Peer, tr: Transcript)
    requires HandshakeOk(h, Some(secret), tr) && ReadInitiation(h, secret, m).Some?
    ensures ReadingOk(OfInitiation(p, ReadInitiation(h, secret, m).value, m.sender,
                                   Transcript(h.remoteStatic, G(secret), m.ephemeral, m.sealedStatic, m.sealedTime)),
                      h.remoteStatic, Some(secret))
  {
  }

  lemma RespondOk(h: Handshake, identity: Option<nat>, e: nat, index: nat, tr: Transcript)
    requires HandshakeOk(h, identity, tr) && e > 0
    ensures var (h', m) := CreateResponse(h, e, index);
            && HandshakeOk(h', identity, tr)
            && (m.Some? ==> identity.Some? && ProducedOk(Finished(h.remoteStatic, G(identity.value), h.remoteEphemeral,
                                m.value.ephemeral, h.preshared, tr, m.value.sealedNothing, h'.chainingKey)))
  {
    var (h', m) := CreateResponse(h, e, index);
    if m.Some? {
      var ee, se := Shared(e, h.remoteEphemeral).value, Shared(e, h.remoteStatic).value;
      assert Sealing(h.hash, h.chainingKey, G(e), ee, se, h.preshared, m.value.sealedNothing, h'.chainingKey);
    }
  }

  lemma WriteSecondOk(r: Reading, remoteStatic: Point, secret: nat)
    requires r.OfResponse? && ReadingOk(r, remoteStatic, Some(secret))
    ensures AcceptedOk(Finished(G(secret), r.copy.remoteStatic, G(r.copy.ephemeral), r.m.ephemeral, r.copy.preshared,
                                r.transcript, r.m.sealedNothing, r.read.chainingKey))
  {
    var ee, se := Shared(r.copy.ephemeral, r.m.ephemeral).value, Shared(secret, r.m.ephemeral).value;
    var ck4 := Kdf(1, Kdf(1, Kdf(1, r.copy.chainingKey, Key(r.m.ephemeral)), ee), se);
    assert Sealing(r.copy.hash, r.copy.chainingKey, r.m.ephemeral, ee, se, r.copy.preshared, r.m.sealedNothing,
                   r.read.chainingKey);
  }

  // ----- invariant -----------------------------------------------------------------------

  predicate PeerOk(identity: map<Device, nat>, owner: map<Peer, Device>, hs: map<Peer, Handshake>,
                   heard: map<Peer, Transcript>, p: Peer)
    requires p in owner && p in hs && p in heard
  {
    HandshakeOk(hs[p], IdentityOf(identity, owner[p]), heard[p])
  }

  ghost predicate PeersOk(identity: map<Device, nat>, owner: map<Peer, Device>, hs: map<Peer, Handshake>,
                          heard: map<Peer, Transcript>) {
    && owner.Keys == hs.Keys == heard.Keys
    && forall p {:trigger PeerOk(identity, owner, hs, heard, p)} :: p in hs ==> PeerOk(identity, owner, hs, heard, p)
  }

  predicate ReadingAt(identity: map<Device, nat>, owner: map<Peer, Device>, hs: map<Peer, Handshake>, r: Reading) {
    r.peer in hs && r.peer in owner && ReadingOk(r, hs[r.peer].remoteStatic, IdentityOf(identity, owner[r.peer]))
  }

  ghost predicate ReadingsOk(identity: map<Device, nat>, owner: map<Peer, Device>, hs: map<Peer, Handshake>,
                             readings: map<Thread, Reading>) {
    forall t {:trigger readings[t]} :: t in readings ==> ReadingAt(identity, owner, hs, readings[t])
  }

  ghost predicate AllProduced(fs: set<Finished>) {
    forall f :: f in fs ==> ProducedOk(f)
  }

  ghost predicate AllAccepted(fs: set<Finished>) {
    forall f :: f in fs ==> AcceptedOk(f)
  }

  ghost predicate Inv(s: State) {
    && TypeOk(s) && PeersOk(s.identity, s.owner, s.hs, s.heard) && ReadingsOk(s.identity, s.owner, s.hs, s.readings)
    && AllProduced(s.produced) && AllAccepted(s.accepted)
  }

  /** Nothing has happened yet. */
  predicate Init(s: State) {
    && TypeOk(s) && s.readings == map[] && s.produced == {} && s.accepted == {}
    && forall p :: p in s.hs ==>
         s.hs[p].stage == Zeroed
           && s.hs[p].staticStatic == Precomputed(IdentityOf(s.identity, s.owner[p]), s.hs[p].remoteStatic)
  }

  /** One handshake changes, to one that is in order again. */
  lemma OnePeer(s: State, p: Peer, h: Handshake, tr: Transcript)
    requires Inv(s) && p in s.hs && h.remoteStatic == s.hs[p].remoteStatic
    requires HandshakeOk(h, IdentityOf(s.identity, s.owner[p]), tr)
    ensures PeersOk(s.identity, s.owner, s.hs[p := h], s.heard[p := tr])
    ensures ReadingsOk(s.identity, s.owner, s.hs[p := h], s.readings)
  {
    var hs, heard := s.hs[p := h], s.heard[p := tr];
    forall q | q in hs ensures PeerOk(s.identity, s.owner, hs, heard, q) {
      assert PeerOk(s.identity, s.owner, s.hs, s.heard, q);
    }
    forall t | t in s.readings ensures ReadingAt(s.identity, s.owner, hs, s.readings[t]) {
      assert ReadingAt(s.identity, s.owner, s.hs, s.readings[t]);
    }
  }

  lemma FewerReadings(s: State, t: Thread)
    requires Inv(s)
    ensures ReadingsOk(s.identity, s.owner, s.hs, s.readings - {t})
  {
  }

  lemma InitiateKeeps(s: State, step: Step)
    requires Inv(s) && step.Initiate? && Enabled(s, step)
    ensures Inv(Apply(s, step))
  {
    var p := step.p;
    assert PeerOk(s.identity, s.owner, s.hs, s.heard, p);
    InitiateOk(s.hs[p], IdentityOf(s.identity, s.owner[p]), step.e, step.time, step.index, s.heard[p]);
    var s' := Apply(s, step);
    assert s.heard[p := s.heard[p]] == s.heard;
    OnePeer(s, p, s'.hs[p], s'.heard[p]);
  }

  lemma RespondKeeps(s: State, step: Step)
    requires Inv(s) && step.Respond? && Enabled(s, step)
    ensures Inv(Apply(s, step))
  {
    var p := step.p;
    assert PeerOk(s.identity, s.owner, s.hs, s.heard, p);
    RespondOk(s.hs[p], IdentityOf(s.identity, s.owner[p]), step.e, step.index, s.heard[p]);
    var s' := Apply(s, step);
    assert s.heard[p := s.heard[p]] == s.heard;
    OnePeer(s, p, s'.hs[p], s.heard[p]);
  }

  lemma OneReading(s: State, t: Thread, r: Reading)
    requires Inv(s) && ReadingAt(s.identity, s.owner, s.hs, r)
    ensures ReadingsOk(s.identity, s.owner, s.hs, s.readings[t := r])
  {
  }

  lemma ReadKeeps(s: State, step: Step)
    requires Inv(s) && (step.ReadFirst? || step.ReadSecond?) && Enabled(s, step)
    ensures Inv(Apply(s, step))
  {
    var p := step.p;
    assert PeerOk(s.identity, s.owner, s.hs, s.heard, p);
    if step.ReadFirst? {
      ReadFirstOk(s.hs[p], s.identity[s.owner[p]], step.first, p, s.heard[p]);
    }
    OneReading(s, step.t, Apply(s, step).readings[step.t]);
  }

  /** A reading is over and its peer's handshake written. */
  lemma OneWritten(s: State, t: Thread, h: Handshake, tr: Transcript)
    requires Inv(s) && t in s.readings && h.remoteStatic == s.hs[s.readings[t].peer].remoteStatic
    requires HandshakeOk(h, IdentityOf(s.identity, s.owner[s.readings[t].peer]), tr)
    ensures var p := s.readings[t].peer;
            && PeersOk(s.identity, s.owner, s.hs[p := h], s.heard[p := tr])
            && ReadingsOk(s.identity, s.owner, s.hs[p := h], s.readings - {t})
  {
    var p := s.readings[t].peer;
    OnePeer(s, p, h, tr);
    FewerReadings(s.(hs := s.hs[p := h], heard := s.heard[p := tr]), t);
  }

  lemma WriteFirstKeeps(s: State, step: Step)
    requires Inv(s) && step.WriteFirst? && Enabled(s, step)
    ensures Inv(Apply(s, step))
  {
    var r := s.readings[step.t];
    assert ReadingAt(s.identity, s.owner, s.hs, r) && PeerOk(s.identity, s.owner, s.hs, s.heard, r.peer);
    OneWritten(s, step.t, CommitInitiation(s.hs[r.peer], r.got, r.sender), r.transcript);
  }

  lemma SecondAccepted(s: State, t: Thread)
    requires Inv(s) && t in s.readings && s.readings[t].OfResponse?
    ensures AllAccepted(SecondWritten(s, t).accepted)
  {
    var r := s.readings[t];
    assert ReadingAt(s.identity, s.owner, s.hs, r) && PeerOk(s.identity, s.owner, s.hs, s.heard, r.peer);
    WriteSecondOk(r, s.hs[r.peer].remoteStatic, s.identity[s.owner[r.peer]]);
  }

  lemma SecondPeers(s: State, t: Thread)
    requires Inv(s) && t in s.readings && s.readings[t].OfResponse?
    ensures var s' := SecondWritten(s, t);
            PeersOk(s'.identity, s'.owner, s'.hs, s'.heard) && ReadingsOk(s'.identity, s'.owner, s'.hs, s'.readings)
  {
    var r := s.readings[t];
    assert ReadingAt(s.identity, s.owner, s.hs, r) && PeerOk(s.identity, s.owner, s.hs, s.heard, r.peer);
    assert s.heard[r.peer := s.heard[r.peer]] == s.heard;
    OneWritten(s, t, CommitResponse(s.hs[r.peer], r.read, r.m), s.heard[r.peer]);
  }

  lemma WriteSecondKeeps(s: State, t: Thread)
    requires Inv(s) && t in s.readings && s.readings[t].OfResponse?
    ensures Inv(SecondWritten(s, t))
  {
    SecondAccepted(s, t);
    SecondPeers(s, t);
  }

  /** The handshakes of a device whose identity changes start over. */
  function Restarted(h: Handshake, secret: Option<nat>): Handshake {
    Cleared(h).(staticStatic := Precomputed(secret, h.remoteStatic))
  }

  function AllRestarted(owner: map<Peer, Device>, hs: map<Peer, Handshake>, d: Device,
                        secret: Option<nat>): map<Peer, Handshake>
    requires owner.Keys == hs.Keys
  {
    map p | p in hs :: if owner[p] == d then Restarted(hs[p], secret) else hs[p]
  }

  lemma RestartPeers(s: State, d: Device, secret: Option<nat>)
    requires Inv(s)
    ensures PeersOk(WithIdentity(s.identity, d, secret), s.owner, AllRestarted(s.owner, s.hs, d, secret), s.heard)
  {
    var identity', hs' := WithIdentity(s.identity, d, secret), AllRestarted(s.owner, s.hs, d, secret);
    forall q | q in hs' ensures PeerOk(identity', s.owner, hs', s.heard, q) {
      assert PeerOk(s.identity, s.owner, s.hs, s.heard, q);
    }
  }

  lemma RestartReadings(s: State, d: Device, secret: Option<nat>)
    requires Inv(s) && forall t :: t in s.readings ==> s.readings[t].peer in s.owner && s.owner[s.readings[t].peer] != d
    ensures ReadingsOk(WithIdentity(s.identity, d, secret), s.owner, AllRestarted(s.owner, s.hs, d, secret), s.readings)
  {
  }

  lemma SetIdentityKeeps(s: State, step: Step)
    requires Inv(s) && step.SetIdentity? && Enabled(s, step)
    ensures Inv(Apply(s, step))
  {
    RestartPeers(s, step.d, step.secret);
    RestartReadings(s, step.d, step.secret);
  }

  lemma SmallStepKeeps(s: State, step: Step)
    requires Inv(s) && (step.Clear? || step.SetPsk?) && Enabled(s, step)
    ensures Inv(Apply(s, step))
  {
    var p := step.p;
    assert PeerOk(s.identity, s.owner, s.hs, s.heard, p);
    assert s.heard[p := s.heard[p]] == s.heard;
    OnePeer(s, p, Apply(s, step).hs[p], s.heard[p]);
  }

  lemma StepKeepsInv(s: State, step: Step)
    requires Inv(s) && Enabled(s, step)
    ensures Inv(Apply(s, step))
  {
    match step
    case Initiate(_, _, _, _) => InitiateKeeps(s, step);
    case ReadFirst(_, _, _) => ReadKeeps(s, step);
    case WriteFirst(_) => WriteFirstKeeps(s, step);
    case Respond(_, _, _) => RespondKeeps(s, step);
    case ReadSecond(_, _, _) => ReadKeeps(s, step);
    case WriteSecond(t) => WriteSecondKeeps(s, t);
    case Finish(t) => FewerReadings(s, t);
    case Clear(_) => SmallStepKeeps(s, step);
    case SetPsk(_, _) => SmallStepKeeps(s, step);
    case SetIdentity(_, _) => SetIdentityKeeps(s, step);
  }

  // ----- runs ----------------------------------------------------------------------------

  predicate Valid(s: State, steps: seq<Step>)
    decreases |steps|, 0
  {
    TypeOk(s) && (steps == [] || (Valid(s, steps[..|steps| - 1]) && TypeOk(End(s, steps[..|steps| - 1])) &&
                                  Enabled(End(s, steps[..|steps| - 1]), steps[|steps| - 1])))
  }

  /** The state at the end of a run. */
  function End(s: State, steps: seq<Step>): State
    requires Valid(s, steps)
    decreases |steps|, 1
  {
    if steps == [] then s else Apply(End(s, steps[..|steps| - 1]), steps[|steps| - 1])
  }

  lemma {:induction false} ReachableInv(s: State, steps: seq<Step>)
    requires Init(s) && Valid(s, steps)
    ensures Inv(End(s, steps))
    decreases |steps|
  {
    if steps != [] {
      ReachableInv(s, steps[..|steps| - 1]);
      StepKeepsInv(End(s, steps[..|steps| - 1]), steps[|steps| - 1]);
    }
  }

  /** In every run, an initiator that accepted a response sealed by some responder agrees with
      that responder on everything but the indices, and their session keys are crosswise. */
  lemma Agreement(s: State, steps: seq<Step>, a: Finished, r: Finished)
    requires Init(s) && Valid(s, steps)
    requires a in End(s, steps).accepted && r in End(s, steps).produced && a.sealed == r.sealed
    ensures Agree(a, r)
    ensures forall ha: Handshake, hr: Handshake ::
              ha.stage == ConsumedResponse && ha.chainingKey == a.chainingKey && hr.stage == CreatedResponse
                && hr.chainingKey == r.chainingKey ==>
              Crosswise(SessionOf(ha).value, SessionOf(hr).value)
  {
    ReachableInv(s, steps);
    SealsAgree(a, r);
  }
}
