/** The handshake of noise.c in a symbolic algebra: hashing, key derivation and sealing are free
    constructors, and a Diffie-Hellman secret is an unordered pair of exponents.  The four
    message functions keep the order of the C code, with every early exit and what it has
    overwritten by then. */
module Noise {
  import opened Common

  // ----- terms ---------------------------------------------------------------------------

  /** A public key: the point of a secret, or one of the points on which curve25519 fails. */
  datatype Point = G(secret: nat) | Low(n: nat)

  datatype Term =
    | Bytes(n: nat)
    | Nothing
    | Key(point: Point)
    | Dh(x: nat, y: nat)
    | Hash(before: Term, data: Term)
    | Kdf(output: nat, chainingKey: Term, input: Term)
    | Sealed(key: Term, ad: Term, plain: Term)

  /** `handshake_init_chaining_key` and `handshake_init_hash` */
  const INIT_CHAINING_KEY := Bytes(0)
  const INIT_HASH := Bytes(1)

  /** `curve25519` */
  function Shared(secret: nat, p: Point): Option<Term> {
    match p
    case Low(_) => None
    case G(other) => Some(if secret <= other then Dh(secret, other) else Dh(other, secret))
  }

  /** `curve25519_generate_public` fails on the null secret only, which the clamping of
      `curve25519_generate_secret` never leaves. */
  function Public(secret: nat): Option<Point> {
    if secret == 0 then None else Some(G(secret))
  }

  lemma SharedCommutes(x: nat, y: nat)
    ensures Shared(x, G(y)) == Shared(y, G(x))
  {
  }

  /** `chacha20poly1305_decrypt` */
  function Open(key: Term, ad: Term, sealed: Term): Option<Term> {
    if sealed.Sealed? && sealed.key == key && sealed.ad == ad then Some(sealed.plain) else None
  }

  // ----- messages and the handshake object -----------------------------------------------

  datatype Initiation = Initiation(sender: nat, ephemeral: Point, sealedStatic: Term, sealedTime: Term)

  datatype Response = Response(sender: nat, receiver: nat, ephemeral: Point, sealedNothing: Term)

  datatype Stage = Zeroed | CreatedInitiation | ConsumedInitiation | CreatedResponse | ConsumedResponse

  /** `struct noise_handshake` */
  datatype Handshake = Handshake(
    stage: Stage,
    hash: Term,
    chainingKey: Term,
    ephemeral: nat,
    remoteEphemeral: Point,
    remoteIndex: nat,
    remoteStatic: Point,
    preshared: Term,
    staticStatic: Option<Term>)

  /** `handshake_zero` */
  function Cleared(h: Handshake): Handshake {
    h.(stage := Zeroed, hash := Nothing, chainingKey := Nothing, ephemeral := 0, remoteEphemeral := Low(0),
       remoteIndex := 0)
  }

  /** `mix_hash` */
  function MixHash(h: Handshake, data: Term): Handshake {
    h.(hash := Hash(h.hash, data))
  }

  /** The chaining-key half of `mix_dh`, `mix_precomputed_dh` and `message_ephemeral`. */
  function MixKey(h: Handshake, data: Term): Handshake {
    h.(chainingKey := Kdf(1, h.chainingKey, data))
  }

  /** `message_ephemeral` */
  function MixEphemeral(h: Handshake, e: Point): Handshake {
    MixKey(MixHash(h, Key(e)), Key(e))
  }

  /** `mix_psk`, but for the key it also yields. */
  function MixPsk(h: Handshake, psk: Term): Handshake {
    MixHash(MixKey(h, psk), Kdf(2, h.chainingKey, psk))
  }

  // ----- first message -------------------------------------------------------------------

  /** `wg_noise_handshake_create_initiation` with the ephemeral secret drawn, the time
      stamp and the index given out. */
  function CreateInitiation(h: Handshake, identity: Option<nat>, e: nat, time: Term, index: nat)
    : (Handshake, Option<Initiation>)
  {
    if identity.None? then (h, None)
    else
      var h1 := MixHash(h.(hash := INIT_HASH, chainingKey := INIT_CHAINING_KEY), Key(h.remoteStatic)).(ephemeral := e);
      if Public(e).None? then (h1, None)
      else
        var h2 := MixEphemeral(h1, G(e));
        var es := Shared(e, h.remoteStatic);
        if es.None? then (h2, None)
        else
          var h3 := MixKey(h2, es.value);
          var sealedStatic := Sealed(Kdf(2, h2.chainingKey, es.value), h3.hash, Key(G(identity.value)));
          var h4 := MixHash(h3, sealedStatic);
          if h.staticStatic.None? then (h4, None)
          else
            var h5 := MixKey(h4, h.staticStatic.value);
            var sealedTime := Sealed(Kdf(2, h4.chainingKey, h.staticStatic.value), h5.hash, time);
            (MixHash(h5, sealedTime).(stage := CreatedInitiation),
             Some(Initiation(index, G(e), sealedStatic, sealedTime)))
  }

  /** What `wg_noise_handshake_consume_initiation` has in hand when it writes to the peer. */
  datatype Opened = Opened(hash: Term, chainingKey: Term, ephemeral: Point, time: Term)

  /** Its first half: the initiator's static key, and where the transcript stands. */
  function OpenStatic(secret: nat, m: Initiation): Option<(Term, Term, Term)> {
    var es := Shared(secret, m.ephemeral);
    if es.None? then None
    else
      var hash := Hash(Hash(INIT_HASH, Key(G(secret))), Key(m.ephemeral));
      var ck := Kdf(1, INIT_CHAINING_KEY, Key(m.ephemeral));
      var s := Open(Kdf(2, ck, es.value), hash, m.sealedStatic);
      if s.None? then None else Some((s.value, Hash(hash, m.sealedStatic), Kdf(1, ck, es.value)))
  }

  /** All of it up to the replay and flood checks, for the peer found under that static key. */
  function ReadInitiation(h: Handshake, secret: nat, m: Initiation): Option<Opened> {
    var s := OpenStatic(secret, m);
    if s.None? || s.value.0 != Key(h.remoteStatic) || h.staticStatic.None? then None
    else
      var (_, hash, ck) := s.value;
      var t := Open(Kdf(2, ck, h.staticStatic.value), hash, m.sealedTime);
      if t.None? then None
      else Some(Opened(Hash(hash, m.sealedTime), Kdf(1, ck, h.staticStatic.value), m.ephemeral, t.value))
  }

  function CommitInitiation(h: Handshake, o: Opened, sender: nat): Handshake {
    h.(stage := ConsumedInitiation, hash := o.hash, chainingKey := o.chainingKey, remoteEphemeral := o.ephemeral,
       remoteIndex := sender)
  }

  // ----- second message ------------------------------------------------------------------

  /** `wg_noise_handshake_create_response` */
  function CreateResponse(h: Handshake, e: nat, index: nat): (Handshake, Option<Response>) {
    if h.stage != ConsumedInitiation then (h, None)
    else
      var h1 := h.(ephemeral := e);
      if Public(e).None? then (h1, None)
      else
        var h2 := MixEphemeral(h1, G(e));
        var ee := Shared(e, h.remoteEphemeral);
        if ee.None? then (h2, None)
        else
          var h3 := MixKey(h2, ee.value);
          var se := Shared(e, h.remoteStatic);
          if se.None? then (h3, None)
          else
            var h4 := MixKey(h3, se.value);
            var h5 := MixPsk(h4, h.preshared);
            var sealed := Sealed(Kdf(3, h4.chainingKey, h.preshared), h5.hash, Nothing);
            (MixHash(h5, sealed).(stage := CreatedResponse), Some(Response(index, h.remoteIndex, G(e), sealed)))
  }

  /** What `wg_noise_handshake_consume_response` computes from the copies it took of the
      handshake, up to its second look at the stage. */
  function ReadResponse(h: Handshake, secret: nat, m: Response): Option<Handshake> {
    if h.stage != CreatedInitiation then None
    else
      var h1 := MixEphemeral(h, m.ephemeral);
      var ee := Shared(h.ephemeral, m.ephemeral);
      var se := Shared(secret, m.ephemeral);
      if ee.None? || se.None? then None
      else
        var h2 := MixKey(MixKey(h1, ee.value), se.value);
        var h3 := MixPsk(h2, h.preshared);
        var plain := Open(Kdf(3, h2.chainingKey, h.preshared), h3.hash, m.sealedNothing);
        // the field has room for a tag alone
        if plain != Some(Nothing) then None else Some(MixHash(h3, m.sealedNothing))
  }

  /** Only the stage is compared again; transcript and keys come from the copies. */
  function CommitResponse(h: Handshake, read: Handshake, m: Response): Handshake {
    if h.stage != CreatedInitiation then h
    else h.(stage := ConsumedResponse, hash := read.hash, chainingKey := read.chainingKey,
            remoteEphemeral := m.ephemeral, remoteIndex := m.sender)
  }

  // ----- session keys --------------------------------------------------------------------

  datatype Session = Session(initiator: bool, sending: Term, receiving: Term, remoteIndex: nat)

  /** The keys `wg_noise_handshake_begin_session` derives. */
  function SessionOf(h: Handshake): Option<Session> {
    var k1, k2 := Kdf(1, h.chainingKey, Nothing), Kdf(2, h.chainingKey, Nothing);
    match h.stage
    case ConsumedResponse => Some(Session(true, k1, k2, h.remoteIndex))
    case CreatedResponse => Some(Session(false, k2, k1, h.remoteIndex))
    case _ => None
  }

  predicate Crosswise(a: Session, b: Session) {
    a.sending == b.receiving && a.receiving == b.sending && a.initiator != b.initiator
  }

  /** `wg_noise_precompute_static_static` */
  function Precomputed(identity: Option<nat>, remoteStatic: Point): Option<Term> {
    if identity.None? then None else Shared(identity.value, remoteStatic)
  }

  // ----- an undisturbed run --------------------------------------------------------------

  /** Two peers that know each other, whatever else their handshakes hold. */
  predicate Acquainted(a: Handshake, sa: nat, b: Handshake, sb: nat) {
    && a.remoteStatic == G(sb) && b.remoteStatic == G(sa) && a.preshared == b.preshared
    && a.staticStatic == Precomputed(Some(sa), G(sb)) && b.staticStatic == Precomputed(Some(sb), G(sa))
  }

  lemma HonestInitiation(a: Handshake, sa: nat, b: Handshake, sb: nat, ea: nat, time: Term, i: nat)
    requires Acquainted(a, sa, b, sb) && ea > 0
    ensures var (a1, m1) := CreateInitiation(a, Some(sa), ea, time, i);
            && m1.Some? && a1.stage == CreatedInitiation && a1.ephemeral == ea
            && a1.remoteStatic == a.remoteStatic && a1.preshared == a.preshared
            && ReadInitiation(b, sb, m1.value) == Some(Opened(a1.hash, a1.chainingKey, G(ea), time))
  {
  }

  lemma HonestResponse(a1: Handshake, sa: nat, b1: Handshake, ea: nat, eb: nat, i: nat)
    requires a1.stage == CreatedInitiation && b1.stage == ConsumedInitiation && a1.ephemeral == ea
    requires a1.hash == b1.hash && a1.chainingKey == b1.chainingKey && a1.preshared == b1.preshared
    requires b1.remoteEphemeral == G(ea) && b1.remoteStatic == G(sa) && eb > 0
    ensures var (b2, m2) := CreateResponse(b1, eb, i);
            && m2.Some? && b2.stage == CreatedResponse
            && ReadResponse(a1, sa, m2.value).Some?
            && var a2 := CommitResponse(a1, ReadResponse(a1, sa, m2.value).value, m2.value);
               && a2.stage == ConsumedResponse && a2.hash == b2.hash && a2.chainingKey == b2.chainingKey
               && a2.remoteIndex == i && b2.remoteIndex == b1.remoteIndex
  {
  }

  /** The four steps, undisturbed, leave both sides with the same transcript hash and chaining
      key, crosswise session keys, and each other's index. */
  lemma HonestRun(a: Handshake, sa: nat, b: Handshake, sb: nat, ea: nat, eb: nat, time: Term, ia: nat, ib: nat)
    requires Acquainted(a, sa, b, sb) && ea > 0 && eb > 0
    ensures var (a1, m1) := CreateInitiation(a, Some(sa), ea, time, ia);
            && m1.Some? && ReadInitiation(b, sb, m1.value).Some?
            && var b1 := CommitInitiation(b, ReadInitiation(b, sb, m1.value).value, m1.value.sender);
               var (b2, m2) := CreateResponse(b1, eb, ib);
               && m2.Some? && m2.value.receiver == ia && ReadResponse(a1, sa, m2.value).Some?
               && var a2 := CommitResponse(a1, ReadResponse(a1, sa, m2.value).value, m2.value);
                  && a2.hash == b2.hash && a2.chainingKey == b2.chainingKey
                  && SessionOf(a2).Some? && SessionOf(b2).Some? && Crosswise(SessionOf(a2).value, SessionOf(b2).value)
                  && SessionOf(a2).value.remoteIndex == ib && SessionOf(b2).value.remoteIndex == ia
  {
    HonestInitiation(a, sa, b, sb, ea, time, ia);
    var (a1, m1) := CreateInitiation(a, Some(sa), ea, time, ia);
    var b1 := CommitInitiation(b, ReadInitiation(b, sb, m1.value).value, m1.value.sender);
    HonestResponse(a1, sa, b1, ea, eb, ib);
  }
}
