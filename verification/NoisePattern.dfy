/** Message processing as the Noise Protocol Framework (revision 34) writes it, token by token:
    sections 5.2 and 5.3 for the symmetric state and the messages, section 7.5 for the IK
    pattern, section 9 for the preshared key.  The handshake of noise.c is proved to be the
    pattern IKpsk2 processed this way. */
module NoisePattern {
  import opened Common
  import opened Noise

  datatype Token = E | S | EE | ES | SE | SS | Psk

  /** Hash, chaining key and, once there is one, the cipher key; every key encrypts once, with
      nonce zero. */
  datatype Symmetric = Symmetric(h: Term, ck: Term, k: Option<Term>)

  /** One side: its static and ephemeral secrets and what it knows of the other side. */
  datatype Party = Party(initiator: bool, s: nat, e: nat, rs: Point, re: Point, psk: Term)

  // ----- section 5.2 ---------------------------------------------------------------------

  function MixKeyInto(y: Symmetric, input: Term): Symmetric {
    y.(ck := Kdf(1, y.ck, input), k := Some(Kdf(2, y.ck, input)))
  }

  function MixHashInto(y: Symmetric, data: Term): Symmetric {
    y.(h := Hash(y.h, data))
  }

  function MixKeyAndHash(y: Symmetric, input: Term): Symmetric {
    Symmetric(Hash(y.h, Kdf(2, y.ck, input)), Kdf(1, y.ck, input), Some(Kdf(3, y.ck, input)))
  }

  function EncryptAndHash(y: Symmetric, plain: Term): (Symmetric, Term) {
    var c := if y.k.Some? then Sealed(y.k.value, y.h, plain) else plain;
    (MixHashInto(y, c), c)
  }

  function DecryptAndHash(y: Symmetric, c: Term): Option<(Symmetric, Term)> {
    if y.k.None? then Some((MixHashInto(y, c), c))
    else
      var plain := Open(y.k.value, y.h, c);
      if plain.None? then None else Some((MixHashInto(y, c), plain.value))
  }

  // ----- section 5.3 ---------------------------------------------------------------------

  /** The exchange a token asks of a party. */
  function Exchanged(p: Party, token: Token): Option<Term>
    requires token in {EE, ES, SE, SS}
  {
    match token
    case EE => Shared(p.e, p.re)
    case ES => if p.initiator then Shared(p.e, p.rs) else Shared(p.s, p.re)
    case SE => if p.initiator then Shared(p.s, p.re) else Shared(p.e, p.rs)
    case SS => Shared(p.s, p.rs)
  }

  /** Writing a message: one field for `e`, for `s` and for the payload. */
  function Write(y: Symmetric, p: Party, tokens: seq<Token>, payload: Term): Option<(Symmetric, seq<Term>)>
    decreases |tokens|
  {
    if tokens == [] then
      var (y', c) := EncryptAndHash(y, payload);
      Some((y', [c]))
    else
      match tokens[0]
      case E =>
        // section 9.2: with a preshared key the ephemeral is mixed into the key, too
        var r := Write(MixKeyInto(MixHashInto(y, Key(G(p.e))), Key(G(p.e))), p, tokens[1..], payload);
        if r.None? then None else Some((r.value.0, [Key(G(p.e))] + r.value.1))
      case S =>
        var (y', c) := EncryptAndHash(y, Key(G(p.s)));
        var r := Write(y', p, tokens[1..], payload);
        if r.None? then None else Some((r.value.0, [c] + r.value.1))
      case Psk => Write(MixKeyAndHash(y, p.psk), p, tokens[1..], payload)
      case t =>
        var dh := Exchanged(p, t);
        if dh.None? then None else Write(MixKeyInto(y, dh.value), p, tokens[1..], payload)
  }

  /** Reading one: what was learned of the other side, and the payload. */
  function Read(y: Symmetric, p: Party, tokens: seq<Token>, fields: seq<Term>): Option<(Symmetric, Party, Term)>
    decreases |tokens|
  {
    if tokens == [] then
      if |fields| != 1 then None
      else
        var r := DecryptAndHash(y, fields[0]);
        if r.None? then None else Some((r.value.0, p, r.value.1))
    else
      match tokens[0]
      case E =>
        if fields == [] || !fields[0].Key? then None
        else Read(MixKeyInto(MixHashInto(y, fields[0]), fields[0]), p.(re := fields[0].point), tokens[1..], fields[1..])
      case S =>
        if fields == [] then None
        else
          var r := DecryptAndHash(y, fields[0]);
          if r.None? || !r.value.1.Key? then None
          else Read(r.value.0, p.(rs := r.value.1.point), tokens[1..], fields[1..])
      case Psk => Read(MixKeyAndHash(y, p.psk), p, tokens[1..], fields)
      case t =>
        var dh := Exchanged(p, t);
        if dh.None? then None else Read(MixKeyInto(y, dh.value), p, tokens[1..], fields)
  }

  // ----- section 7.5: IK, with psk2 ------------------------------------------------------

  const FIRST: seq<Token> := [E, ES, S, SS]
  const SECOND: seq<Token> := [E, EE, SE, Psk]

  /** The responder's static key is known beforehand. */
  function Start(responderStatic: Point): Symmetric {
    MixHashInto(Symmetric(INIT_HASH, INIT_CHAINING_KEY, None), Key(responderStatic))
  }

  /** A handshake and its device's secret as a party. */
  function PartyOf(h: Handshake, initiator: bool, s: nat): Party {
    Party(initiator, s, h.ephemeral, h.remoteStatic, h.remoteEphemeral, h.preshared)
  }

  /** The symmetric state a handshake stands at between messages. */
  function StateOf(h: Handshake, k: Option<Term>): Symmetric {
    Symmetric(h.hash, h.chainingKey, k)
  }

  /** `wg_noise_handshake_create_initiation` writes the first message of the pattern, or fails
      when the pattern does. */
  lemma InitiationIsFirst(h: Handshake, s: nat, e: nat, time: Term, index: nat)
    requires e > 0 && h.staticStatic == Precomputed(Some(s), h.remoteStatic)
    ensures var (h', m) := CreateInitiation(h, Some(s), e, time, index);
            var r := Write(Start(h.remoteStatic), PartyOf(h, true, s).(e := e), FIRST, time);
            && (m.Some? <==> r.Some?)
            && (m.Some? ==> StateOf(h', r.value.0.k) == r.value.0
                            && r.value.1 == [Key(m.value.ephemeral), m.value.sealedStatic, m.value.sealedTime])
  {
    var p := PartyOf(h, true, s).(e := e);
    var y1 := MixKeyInto(MixHashInto(Start(h.remoteStatic), Key(G(e))), Key(G(e)));
    assert FIRST[1..] == [ES, S, SS] && [ES, S, SS][1..] == [S, SS] && [S, SS][1..] == [SS] && [SS][1..] == [];
    var es, ss := Shared(e, h.remoteStatic), Shared(s, h.remoteStatic);
    if es.Some? {
      var y2 := MixKeyInto(y1, es.value);
      var (y3, c) := EncryptAndHash(y2, Key(G(s)));
      var y4 := MixKeyInto(y3, ss.value);
      var (y5, d) := EncryptAndHash(y4, time);
      assert Write(y4, p, [], time) == Some((y5, [d]));
      assert Write(y3, p, [SS], time) == Some((y5, [d]));
      assert Write(y2, p, [S, SS], time) == Some((y5, [c] + [d]));
      assert Write(y1, p, [ES, S, SS], time) == Some((y5, [c] + [d]));
      assert [Key(G(e))] + ([c] + [d]) == [Key(G(e)), c, d];
    } else {
      assert Write(y1, p, [ES, S, SS], time) == None;
    }
  }

  /** `wg_noise_handshake_create_response` writes the second message of the pattern, or fails
      when the pattern does. */
  lemma ResponseIsSecond(h: Handshake, s: nat, e: nat, index: nat, k: Option<Term>)
    requires e > 0 && h.stage == ConsumedInitiation
    ensures var (h', m) := CreateResponse(h, e, index);
            var r := Write(StateOf(h, k), PartyOf(h, false, s).(e := e), SECOND, Nothing);
            && (m.Some? <==> r.Some?)
            && (m.Some? ==>
                  StateOf(h', r.value.0.k) == r.value.0
                  && r.value.1 == [Key(m.value.ephemeral), m.value.sealedNothing])
  {
    var p := PartyOf(h, false, s).(e := e);
    var y1 := MixKeyInto(MixHashInto(StateOf(h, k), Key(G(e))), Key(G(e)));
    assert SECOND[1..] == [EE, SE, Psk] && [EE, SE, Psk][1..] == [SE, Psk] && [SE, Psk][1..] == [Psk]
           && [Psk][1..] == [];
    var ee, se := Shared(e, h.remoteEphemeral), Shared(e, h.remoteStatic);
    if ee.Some? && se.Some? {
      var y2 := MixKeyInto(y1, ee.value);
      var y3 := MixKeyInto(y2, se.value);
      var y4 := MixKeyAndHash(y3, h.preshared);
      var (y5, c) := EncryptAndHash(y4, Nothing);
      assert Write(y4, p, [], Nothing) == Some((y5, [c]));
      assert Write(y3, p, [Psk], Nothing) == Some((y5, [c]));
      assert Write(y2, p, [SE, Psk], Nothing) == Some((y5, [c]));
      assert Write(y1, p, [EE, SE, Psk], Nothing) == Some((y5, [c]));
      assert [Key(G(e))] + [c] == [Key(G(e)), c];
    } else if ee.Some? {
      assert Write(MixKeyInto(y1, ee.value), p, [SE, Psk], Nothing) == None;
    }
  }

  /** `wg_noise_handshake_consume_initiation`, up to its checks, reads the first message of the
      pattern and requires the static key in it to be the peer's. */
  lemma InitiationReadAsFirst(h: Handshake, s: nat, m: Initiation)
    requires h.staticStatic == Precomputed(Some(s), h.remoteStatic)
    ensures var o := ReadInitiation(h, s, m);
            var r := Read(Start(G(s)), PartyOf(h, false, s), FIRST, [Key(m.ephemeral), m.sealedStatic, m.sealedTime]);
            && (o.Some? <==> r.Some? && r.value.1.rs == h.remoteStatic)
            && (o.Some? ==> o.value == Opened(r.value.0.h, r.value.0.ck, r.value.1.re, r.value.2))
  {
    var fields := [Key(m.ephemeral), m.sealedStatic, m.sealedTime];
    var p := PartyOf(h, false, s).(re := m.ephemeral);
    var y1 := MixKeyInto(MixHashInto(Start(G(s)), Key(m.ephemeral)), Key(m.ephemeral));
    assert FIRST[1..] == [ES, S, SS] && [ES, S, SS][1..] == [S, SS] && [S, SS][1..] == [SS] && [SS][1..] == [];
    assert fields[1..] == [m.sealedStatic, m.sealedTime] && fields[1..][1..] == [m.sealedTime];
    var es := Shared(s, m.ephemeral);
    if es.Some? {
      var y2 := MixKeyInto(y1, es.value);
      assert Read(y1, p, [ES, S, SS], fields[1..]) == Read(y2, p, [S, SS], fields[1..]);
      var c := DecryptAndHash(y2, m.sealedStatic);
      if c.Some? && c.value.1.Key? {
        var q := p.(rs := c.value.1.point);
        assert Read(y2, p, [S, SS], fields[1..]) == Read(c.value.0, q, [SS], [m.sealedTime]);
        var ss := Shared(s, q.rs);
        assert ss.Some? ==>
                 Read(c.value.0, q, [SS], [m.sealedTime])
                 == Read(MixKeyInto(c.value.0, ss.value), q, [], [m.sealedTime]);
      } else {
        assert Read(y2, p, [S, SS], fields[1..]) == None;
      }
    } else {
      assert Read(y1, p, [ES, S, SS], fields[1..]) == None;
    }
  }

  /** `wg_noise_handshake_consume_response` reads the second message of the pattern, with
      nothing in it. */
  lemma ResponseReadAsSecond(h: Handshake, s: nat, m: Response, k: Option<Term>)
    requires h.stage == CreatedInitiation
    ensures var o := ReadResponse(h, s, m);
            var r := Read(StateOf(h, k), PartyOf(h, true, s), SECOND, [Key(m.ephemeral), m.sealedNothing]);
            && (o.Some? <==> r.Some? && r.value.2 == Nothing)
            && (o.Some? ==> StateOf(o.value, r.value.0.k) == r.value.0 && r.value.1.re == m.ephemeral)
  {
    var fields := [Key(m.ephemeral), m.sealedNothing];
    var p := PartyOf(h, true, s).(re := m.ephemeral);
    var y1 := MixKeyInto(MixHashInto(StateOf(h, k), Key(m.ephemeral)), Key(m.ephemeral));
    assert SECOND[1..] == [EE, SE, Psk] && [EE, SE, Psk][1..] == [SE, Psk] && [SE, Psk][1..] == [Psk]
           && [Psk][1..] == [];
    assert fields[1..] == [m.sealedNothing];
    var ee, se := Shared(h.ephemeral, m.ephemeral), Shared(s, m.ephemeral);
    if ee.Some? && se.Some? {
      var y2 := MixKeyInto(y1, ee.value);
      var y3 := MixKeyInto(y2, se.value);
      assert Read(y1, p, [EE, SE, Psk], [m.sealedNothing]) == Read(y2, p, [SE, Psk], [m.sealedNothing]);
      assert Read(y2, p, [SE, Psk], [m.sealedNothing]) == Read(y3, p, [Psk], [m.sealedNothing]);
      assert Read(y3, p, [Psk], [m.sealedNothing]) == Read(MixKeyAndHash(y3, h.preshared), p, [], [m.sealedNothing]);
    } else {
      assert Read(y1, p, [EE, SE, Psk], [m.sealedNothing]) == None;
    }
  }
}
