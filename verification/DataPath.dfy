/** What happens to one packet between the tunnel device of the sender and that of the
    receiver: padding, header, initialization vector, seal, and on the other side header check,
    opening and trimming. */
module DataPath {
  import opened Common
  import opened Words

  const MESSAGE_PADDING_MULTIPLE: nat := 16
  const MESSAGE_DATA: nat := 4
  const HEADER_LEN: nat := 16
  const TAG_LEN: nat := 16
  const MESSAGE_MINIMUM_LENGTH: nat := HEADER_LEN + TAG_LEN

  type Bytes = seq<Byte>

  // ----- padding -------------------------------------------------------------------------

  /** `ALIGN(x, MESSAGE_PADDING_MULTIPLE)` on 32 bits */
  function Align(x: nat): nat {
    var y := (x + 15) % U32_SIZE;
    y - y % MESSAGE_PADDING_MULTIPLE
  }

  function Sub32(a: nat, b: nat): nat
    requires a < U32_SIZE && b < U32_SIZE
  {
    if a >= b then a - b else a + U32_SIZE - b
  }

  /** The length modulo the MTU that `calculate_skb_padding` works on */
  function LastUnit(len: nat, mtu: nat): nat {
    if mtu != 0 && len > mtu then len % mtu else len
  }

  /** `calculate_skb_padding` */
  function Padding(len: nat, mtu: nat): (r: nat)
    requires len < U32_SIZE && mtu < U32_SIZE
    ensures r < U32_SIZE
  {
    var lastUnit := LastUnit(len, mtu);
    if mtu == 0 then Sub32(Align(lastUnit), lastUnit)
    else Sub32(if mtu <= Align(lastUnit) then mtu else Align(lastUnit), lastUnit)
  }

  /** Padding is always less than 16 bytes.  It keeps the last unit within the MTU exactly when
      aligning its length does not pass 32 bits. */
  lemma PaddingIs(len: nat, mtu: nat)
    requires len < U32_SIZE && mtu < U32_SIZE
    ensures Padding(len, mtu) < MESSAGE_PADDING_MULTIPLE
    ensures mtu == 0 ==> (len + Padding(len, mtu)) % MESSAGE_PADDING_MULTIPLE == 0
    ensures mtu > 0 ==> (LastUnit(len, mtu) + Padding(len, mtu) <= mtu <==> LastUnit(len, mtu) <= U32_SIZE - 16)
  {
    var lastUnit := LastUnit(len, mtu);
    assert lastUnit < U32_SIZE;
    if lastUnit + 15 < U32_SIZE {
      assert lastUnit <= Align(lastUnit) < lastUnit + 16;
    } else {
      assert (lastUnit + 15) % U32_SIZE == lastUnit + 15 - U32_SIZE;
      assert Align(lastUnit) == 0;
    }
  }

  // ----- little-endian numbers -----------------------------------------------------------

  function Little(x: nat, n: nat): (r: Bytes)
    ensures |r| == n
  {
    if n == 0 then [] else [x % 256] + Little(x / 256, n - 1)
  }

  function Number(bytes: Bytes): nat {
    if bytes == [] then 0 else bytes[0] + 256 * Number(bytes[1..])
  }

  lemma {:induction false} LittleBack(x: nat, n: nat)
    requires x < Pow256(n)
    ensures Number(Little(x, n)) == x
    decreases n
  {
    if n > 0 {
      LittleBack(x / 256, n - 1);
      assert Little(x, n)[1..] == Little(x / 256, n - 1);
    }
  }

  // ----- initialization vector -----------------------------------------------------------

  function Zeroes(n: nat): (r: Bytes)
    ensures |r| == n
  {
    seq(n, _ => 0)
  }

  /** Four zero bytes and the counter, as both ends build it for AES-GCM; in the terms of
      section 8.2.1 of NIST SP 800-38D a fixed field and an invocation field. */
  function Iv(counter: nat): (iv: Bytes)
    ensures |iv| == 12
  {
    Zeroes(4) + Little(counter, 8)
  }

  lemma IvInjective(c: nat, d: nat)
    requires c < U64_SIZE && d < U64_SIZE && Iv(c) == Iv(d)
    ensures c == d
  {
    Pow256Is();
    LittleBack(c, 8);
    LittleBack(d, 8);
    assert Iv(c)[4..] == Little(c, 8) && Iv(d)[4..] == Little(d, 8);
  }

  // ----- ciphers -------------------------------------------------------------------------

  /** Both ciphers, by what sealing and opening do; ChaCha20Poly1305 takes the counter itself. */
  datatype Ciphers = Ciphers(
    chachaSeal: (Bytes, nat, Bytes) -> Bytes,
    chachaOpen: (Bytes, nat, Bytes) -> Option<Bytes>,
    gcmSeal: (Bytes, Bytes, Bytes) -> Bytes,
    gcmOpen: (Bytes, Bytes, Bytes) -> Option<Bytes>)

  ghost predicate Lawful(c: Ciphers) {
    && (forall k, n, p :: |c.chachaSeal(k, n, p)| == |p| + TAG_LEN
                          && c.chachaOpen(k, n, c.chachaSeal(k, n, p)) == Some(p))
    && (forall k, iv, p :: |c.gcmSeal(k, iv, p)| == |p| + TAG_LEN && c.gcmOpen(k, iv, c.gcmSeal(k, iv, p)) == Some(p))
  }

  function Seal(c: Ciphers, chacha: bool, key: Bytes, counter: nat, plain: Bytes): Bytes {
    if chacha then c.chachaSeal(key, counter, plain) else c.gcmSeal(key, Iv(counter), plain)
  }

  function Open(c: Ciphers, chacha: bool, key: Bytes, counter: nat, sealed: Bytes): Option<Bytes> {
    if chacha then c.chachaOpen(key, counter, sealed) else c.gcmOpen(key, Iv(counter), sealed)
  }

  // ----- sending -------------------------------------------------------------------------

  function Header(keyIndex: nat, counter: nat): (h: Bytes)
    ensures |h| == HEADER_LEN
  {
    Little(MESSAGE_DATA, 4) + Little(keyIndex, 4) + Little(counter, 8)
  }

  /** `encrypt_packet` */
  function Encapsulate(c: Ciphers, chacha: bool, key: Bytes, keyIndex: nat, counter: nat, mtu: nat,
                       packet: Bytes): Bytes
    requires |packet| < U32_SIZE && mtu < U32_SIZE
  {
    Header(keyIndex, counter) + Seal(c, chacha, key, counter, packet + Zeroes(Padding(|packet|, mtu)))
  }

  // ----- receiving -----------------------------------------------------------------------

  /** The data case of `validate_header_len` */
  predicate IsData(message: Bytes) {
    |message| >= MESSAGE_MINIMUM_LENGTH && Number(message[..4]) == MESSAGE_DATA
  }

  function KeyIndexOf(message: Bytes): nat
    requires IsData(message)
  {
    Number(message[4..8])
  }

  function CounterOf(message: Bytes): nat
    requires IsData(message)
  {
    Number(message[8..16])
  }

  const REJECT_AFTER_TIME: nat := 180

  /** A keypair's key for receiving, and the counter of its replay window. */
  datatype Receiving = Receiving(key: Bytes, isValid: bool, birthdate: nat, counter: nat)

  /** `(s64)x` */
  function Signed64(x: nat): int {
    if x % U64_SIZE < U64_SIZE / 2 then x % U64_SIZE else x % U64_SIZE - U64_SIZE
  }

  /** `wg_birthdate_has_expired` */
  predicate Expired(birthdate: nat, seconds: nat, now: nat) {
    Signed64(birthdate + seconds * NSEC_PER_SEC) <= Signed64(now)
  }

  predicate Usable(r: Receiving, now: nat) {
    r.isValid && !Expired(r.birthdate, REJECT_AFTER_TIME, now) && r.counter < REJECT_AFTER_MESSAGES
  }

  /** `decrypt_packet`: a key past its limits is marked as no longer valid. */
  function Decrypt(c: Ciphers, chacha: bool, r: Receiving, now: nat, message: Bytes): (Receiving, Option<Bytes>)
    requires IsData(message)
  {
    if !Usable(r, now) then (r.(isValid := false), None)
    else (r, Open(c, chacha, r.key, CounterOf(message), message[HEADER_LEN..]))
  }

  /** With a clock far from the end of 64 bits a key expires 180 seconds after its birth, and once
      it has been refused it stays refused. */
  lemma ExpiresOnce(c: Ciphers, chacha: bool, r: Receiving, now: nat, later: nat, m: Bytes, m': Bytes)
    requires now <= later < U64_SIZE / 2 && r.birthdate + REJECT_AFTER_TIME * NSEC_PER_SEC < U64_SIZE / 2 && IsData(m)
             && IsData(m')
    ensures Expired(r.birthdate, REJECT_AFTER_TIME, now) <==> r.birthdate + REJECT_AFTER_TIME * NSEC_PER_SEC <= now
    ensures !Usable(r, now) ==>
              Decrypt(c, chacha, r, now, m).1 == None
                && Decrypt(c, chacha, Decrypt(c, chacha, r, now, m).0, later, m').1 == None
    ensures Usable(r, later) ==> Usable(r, now)
  {
  }

  datatype Outcome = Deliver(packet: Bytes) | Keepalive | BadType | BadSize

  function Big16(bytes: Bytes, at: nat): nat
    requires at + 2 <= |bytes|
  {
    256 * (bytes[at] as nat) + (bytes[at + 1] as nat)
  }

  function Version(plain: Bytes): nat
    requires plain != []
  {
    plain[0] / 16
  }

  /** The size its own header gives a packet, if it is IPv4 or IPv6. */
  function SizeByHeader(plain: Bytes): Option<nat> {
    if |plain| >= 20 && Version(plain) == 4 then Some(Big16(plain, 2))
    else if |plain| >= 40 && Version(plain) == 6 then Some(Big16(plain, 4) + 40)
    else None
  }

  /** The trimming of `wg_packet_consume_data_done` */
  function Trim(plain: Bytes): Outcome {
    if plain == [] then Keepalive
    else
      match SizeByHeader(plain)
      case None => BadType
      case Some(len) =>
        if (Version(plain) == 4 && len < 20) || len > |plain| then BadSize else Deliver(plain[..len])
  }

  // ----- there and back ------------------------------------------------------------------

  /** The receiver finds the sender's key index and counter in the header. */
  lemma HeaderBack(keyIndex: nat, counter: nat, body: Bytes)
    requires keyIndex < U32_SIZE && counter < U64_SIZE && |body| >= TAG_LEN
    ensures var m := Header(keyIndex, counter) + body;
            IsData(m) && KeyIndexOf(m) == keyIndex && CounterOf(m) == counter && m[HEADER_LEN..] == body
  {
    var m := Header(keyIndex, counter) + body;
    Pow256Is();
    LittleBack(MESSAGE_DATA, 4);
    LittleBack(keyIndex, 4);
    LittleBack(counter, 8);
    assert m[..4] == Little(MESSAGE_DATA, 4) && m[4..8] == Little(keyIndex, 4) && m[8..16] == Little(counter, 8);
  }

  /** The receiver opens what the sender sealed, with either cipher, exactly while its key is
      within its limits; otherwise the key is no longer valid. */
  lemma OpensWhatWasSealed(c: Ciphers, chacha: bool, r: Receiving, now: nat, keyIndex: nat, counter: nat, mtu: nat,
                           packet: Bytes)
    requires Lawful(c) && keyIndex < U32_SIZE && counter < U64_SIZE && mtu < U32_SIZE && |packet| < U32_SIZE
    ensures var m := Encapsulate(c, chacha, r.key, keyIndex, counter, mtu, packet);
            && IsData(m) && KeyIndexOf(m) == keyIndex && CounterOf(m) == counter
            && Decrypt(c, chacha, r, now, m) ==
               if Usable(r, now) then (r, Some(packet + Zeroes(Padding(|packet|, mtu))))
               else (r.(isValid := false), None)
  {
    var plain := packet + Zeroes(Padding(|packet|, mtu));
    HeaderBack(keyIndex, counter, Seal(c, chacha, r.key, counter, plain));
  }

  /** Of a packet that is IPv4 or IPv6, padded, exactly those come out as they went in whose
      header gives their size. */
  lemma TrimUndoesPadding(packet: Bytes, n: nat)
    requires SizeByHeader(packet).Some?
    ensures Trim(packet + Zeroes(n)) == Deliver(packet) <==>
            SizeByHeader(packet) == Some(|packet|)
  {
  }

  /** Encapsulation followed by decapsulation is the identity on every IP packet whose header
      gives its size, for every MTU, counter and key index, and for both ciphers, exactly while
      the receiving key is within its limits. */
  lemma ThereAndBack(c: Ciphers, chacha: bool, r: Receiving, now: nat, keyIndex: nat, counter: nat, mtu: nat,
                     packet: Bytes)
    requires Lawful(c) && keyIndex < U32_SIZE && counter < U64_SIZE && mtu < U32_SIZE
    requires SizeByHeader(packet) == Some(|packet|)
    ensures var m := Encapsulate(c, chacha, r.key, keyIndex, counter, mtu, packet);
            && IsData(m)
            && var plain := Decrypt(c, chacha, r, now, m).1;
               && (plain.Some? <==> Usable(r, now))
               && (plain.Some? ==> Trim(plain.value) == Deliver(packet))
  {
    OpensWhatWasSealed(c, chacha, r, now, keyIndex, counter, mtu, packet);
    TrimUndoesPadding(packet, Padding(|packet|, mtu));
  }

  /** A message has the length of a keepalive exactly when nothing was sent in it, and then the
      receiver takes it for one. */
  lemma KeepaliveLength(c: Ciphers, chacha: bool, r: Receiving, now: nat, keyIndex: nat, counter: nat, mtu: nat,
                        packet: Bytes)
    requires Lawful(c) && keyIndex < U32_SIZE && counter < U64_SIZE && mtu < U32_SIZE && |packet| < U32_SIZE
    ensures var m := Encapsulate(c, chacha, r.key, keyIndex, counter, mtu, packet);
            && (|m| == MESSAGE_MINIMUM_LENGTH <==> packet == [])
            && (packet == [] && Usable(r, now) ==>
                  IsData(m) && Decrypt(c, chacha, r, now, m).1.Some?
                    && Trim(Decrypt(c, chacha, r, now, m).1.value) == Keepalive)
  {
    OpensWhatWasSealed(c, chacha, r, now, keyIndex, counter, mtu, packet);
    PaddingIs(|packet|, mtu);
  }
}
