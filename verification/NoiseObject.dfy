/** `struct noise_handshake` as the object noise.c overwrites in place.  Each message function
    is proved to have the effect its value-level counterpart in module Noise gives it. */
module NoiseObject {
  import opened Common
  import opened Noise

  class HandshakeObject {
    var stage: Stage
    var hash: Term
    var chainingKey: Term
    var ephemeral: nat
    var remoteEphemeral: Point
    var remoteIndex: nat
    const remoteStatic: Point
    var preshared: Term
    var staticStatic: Option<Term>

    function View(): Handshake
      reads this
    {
      Handshake(stage, hash, chainingKey, ephemeral, remoteEphemeral, remoteIndex, remoteStatic, preshared,
                staticStatic)
    }

    /** `wg_noise_handshake_init` */
    constructor (identity: Option<nat>, remote: Point, psk: Option<Term>)
      ensures View() == Cleared(View()) && remoteStatic == remote && staticStatic == Precomputed(identity, remote)
      ensures preshared == if psk.Some? then psk.value else Nothing
    {
      stage, hash, chainingKey, ephemeral, remoteEphemeral, remoteIndex := Zeroed, Nothing, Nothing, 0, Low(0), 0;
      remoteStatic := remote;
      preshared := if psk.Some? then psk.value else Nothing;
      staticStatic := Precomputed(identity, remote);
    }

    method MixHashIn(data: Term)
      modifies this`hash
      ensures View() == MixHash(old(View()), data)
    {
      hash := Hash(hash, data);
    }

    /** `mix_dh`: nothing changes when the exchange fails; otherwise the key comes out of the
        chaining key as it was. */
    method MixDh(secret: nat, public: Point) returns (key: Option<Term>)
      modifies this`chainingKey
      ensures key.Some? <==> Shared(secret, public).Some?
      ensures key.None? ==> View() == old(View())
      ensures key.Some? ==> View() == MixKey(old(View()), Shared(secret, public).value) &&
                            key.value == Kdf(2, old(chainingKey), Shared(secret, public).value)
    {
      var dh := Shared(secret, public);
      if dh.None? {
        return None;
      }
      key := Some(Kdf(2, chainingKey, dh.value));
      chainingKey := Kdf(1, chainingKey, dh.value);
    }

    method MessageEphemeral(e: Point)
      modifies this`hash, this`chainingKey
      ensures View() == MixEphemeral(old(View()), e)
    {
      MixHashIn(Key(e));
      chainingKey := Kdf(1, chainingKey, Key(e));
    }

    /** `message_encrypt` */
    method MessageEncrypt(plain: Term, key: Term) returns (sealed: Term)
      modifies this`hash
      ensures sealed == Sealed(key, old(hash), plain) && View() == MixHash(old(View()), sealed)
    {
      sealed := Sealed(key, hash, plain);
      MixHashIn(sealed);
    }

    /** `wg_noise_handshake_create_initiation` */
    method Initiate(identity: Option<nat>, e: nat, time: Term, index: nat) returns (m: Option<Initiation>)
      modifies this
      ensures (View(), m) == CreateInitiation(old(View()), identity, e, time, index)
    {
      if identity.None? {
        return None;
      }
      hash, chainingKey := INIT_HASH, INIT_CHAINING_KEY;
      MixHashIn(Key(remoteStatic));
      ephemeral := e;
      if Public(e).None? {
        return None;
      }
      MessageEphemeral(G(e));
      var key := MixDh(e, remoteStatic);
      if key.None? {
        return None;
      }
      var sealedStatic := MessageEncrypt(Key(G(identity.value)), key.value);
      if staticStatic.None? {
        return None;
      }
      var timeKey := Kdf(2, chainingKey, staticStatic.value);
      chainingKey := Kdf(1, chainingKey, staticStatic.value);
      var sealedTime := MessageEncrypt(time, timeKey);
      stage := CreatedInitiation;
      return Some(Initiation(index, G(e), sealedStatic, sealedTime));
    }

    /** The writing part of `wg_noise_handshake_consume_initiation` */
    method AcceptInitiation(o: Opened, sender: nat)
      modifies this
      ensures View() == CommitInitiation(old(View()), o, sender)
    {
      remoteEphemeral := o.ephemeral;
      hash, chainingKey := o.hash, o.chainingKey;
      remoteIndex := sender;
      stage := ConsumedInitiation;
    }

    /** `wg_noise_handshake_create_response` */
    method Respond(e: nat, index: nat) returns (m: Option<Response>)
      modifies this
      ensures (View(), m) == CreateResponse(old(View()), e, index)
    {
      if stage != ConsumedInitiation {
        return None;
      }
      ephemeral := e;
      if Public(e).None? {
        return None;
      }
      MessageEphemeral(G(e));
      var ee := MixDh(e, remoteEphemeral);
      if ee.None? {
        return None;
      }
      var se := MixDh(e, remoteStatic);
      if se.None? {
        return None;
      }
      var key := Kdf(3, chainingKey, preshared);
      var extra := Kdf(2, chainingKey, preshared);
      chainingKey := Kdf(1, chainingKey, preshared);
      MixHashIn(extra);
      var sealed := MessageEncrypt(Nothing, key);
      stage := CreatedResponse;
      return Some(Response(index, remoteIndex, G(e), sealed));
    }

    /** The writing part of `wg_noise_handshake_consume_response` */
    method AcceptResponse(read: Handshake, m: Response) returns (ok: bool)
      modifies this
      ensures View() == CommitResponse(old(View()), read, m) && ok == (old(stage) == CreatedInitiation)
    {
      if stage != CreatedInitiation {
        return false;
      }
      remoteEphemeral := m.ephemeral;
      hash, chainingKey := read.hash, read.chainingKey;
      remoteIndex := m.sender;
      stage := ConsumedResponse;
      return true;
    }
  }

  /** Two fresh objects that exchange the two messages end with crosswise session keys. */
  method Exchange(sa: nat, sb: nat, psk: Option<Term>, ea: nat, eb: nat, time: Term, ia: nat, ib: nat)
    returns (a: Option<Session>, b: Option<Session>)
    requires ea > 0 && eb > 0
    ensures a.Some? && b.Some? && Crosswise(a.value, b.value) && a.value.remoteIndex == ib && b.value.remoteIndex == ia
  {
    var initiator := new HandshakeObject(Some(sa), G(sb), psk);
    var responder := new HandshakeObject(Some(sb), G(sa), psk);
    HonestRun(initiator.View(), sa, responder.View(), sb, ea, eb, time, ia, ib);
    var m1 := initiator.Initiate(Some(sa), ea, time, ia);
    var seen := ReadInitiation(responder.View(), sb, m1.value);
    responder.AcceptInitiation(seen.value, m1.value.sender);
    var m2 := responder.Respond(eb, ib);
    var read := ReadResponse(initiator.View(), sa, m2.value);
    var _ := initiator.AcceptResponse(read.value, m2.value);
    a, b := SessionOf(initiator.View()), SessionOf(responder.View());
  }
}
