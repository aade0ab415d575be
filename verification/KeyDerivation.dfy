/** `hmac`, `kdf` and the mixing functions of noise.c on byte buffers, with the aliasing their
    callers rely on, against HMAC (section 2 of RFC 2104) and HKDF (sections 2.2 and 2.3 of
    RFC 5869).  BLAKE2s is any function from byte strings to 32 bytes. */
module KeyDerivation {

  const HASH_LEN: nat := 32
  const BLOCK_LEN: nat := 64

  type Digest = s: seq<bv8> | |s| == 32 witness seq(32, _ => 0)

  type Blake = seq<bv8> -> Digest

  // ----- the standards -------------------------------------------------------------------

  function XorPad(block: seq<bv8>, pad: bv8): (r: seq<bv8>)
    ensures |r| == |block|
  {
    seq(|block|, i requires 0 <= i < |block| => block[i] ^ pad)
  }

  function Zeroes(n: nat): seq<bv8> {
    seq(n, _ => 0)
  }

  /** The key, hashed when it is longer than a block, filled up with zeroes. */
  function KeyBlock(blake: Blake, key: seq<bv8>): (r: seq<bv8>)
    ensures |r| == BLOCK_LEN
  {
    if |key| > BLOCK_LEN then blake(key) + Zeroes(BLOCK_LEN - HASH_LEN) else key + Zeroes(BLOCK_LEN - |key|)
  }

  /** HMAC of RFC 2104 */
  function Hmac(blake: Blake, key: seq<bv8>, text: seq<bv8>): Digest {
    var k := KeyBlock(blake, key);
    blake(XorPad(k, 0x5c) + blake(XorPad(k, 0x36) + text))
  }

  /** T(n) of HKDF-Expand in RFC 5869, with no info. */
  function Expand(blake: Blake, prk: seq<bv8>, n: nat): (r: seq<bv8>)
    requires n <= 255
    ensures n > 0 ==> |r| == HASH_LEN
  {
    if n == 0 then [] else Hmac(blake, prk, Expand(blake, prk, n - 1) + [n as bv8])
  }

  /** Block n of HKDF with the chaining key as salt. */
  function Hkdf(blake: Blake, chainingKey: seq<bv8>, data: seq<bv8>, n: nat): (r: seq<bv8>)
    requires 0 < n <= 255
    ensures |r| == HASH_LEN
  {
    Expand(blake, Hmac(blake, chainingKey, data), n)
  }

  // ----- hmac ----------------------------------------------------------------------------

  method CopyInto(dst: array<bv8>, src: seq<bv8>)
    requires |src| <= dst.Length
    modifies dst
    ensures dst[..] == src + old(dst[..])[|src|..]
  {
    for i := 0 to |src|
      invariant dst[..i] == src[..i] && dst[i..] == old(dst[i..])
    {
      dst[i] := src[i];
    }
  }

  /** `for (i = 0; i < BLAKE2S_BLOCK_SIZE; ++i) x_key[i] ^= pad` */
  method XorInto(a: array<bv8>, pad: bv8)
    modifies a
    ensures a[..] == XorPad(old(a[..]), pad)
  {
    for i := 0 to a.Length
      invariant forall j :: 0 <= j < i ==> a[j] == old(a[j]) ^ pad
      invariant forall j :: i <= j < a.Length ==> a[j] == old(a[j])
    {
      a[i] := a[i] ^ pad;
    }
  }

  lemma PadSwap(block: seq<bv8>)
    ensures XorPad(XorPad(block, 0x36), 0x5c ^ 0x36) == XorPad(block, 0x5c)
  {
  }

  /** `hmac`.  The output may be the buffer the input or the key is read from. */
  method HmacInto(blake: Blake, out: array<bv8>, input: array<bv8>, key: array<bv8>, inLen: nat, keyLen: nat)
    requires out.Length >= HASH_LEN && inLen <= input.Length && keyLen <= key.Length
    modifies out
    ensures out[..] == old(Hmac(blake, key[..keyLen], input[..inLen])) + old(out[..])[HASH_LEN..]
  {
    var xKey := new bv8[BLOCK_LEN](_ => 0);
    if keyLen > BLOCK_LEN {
      CopyInto(xKey, blake(key[..keyLen]));
    } else {
      CopyInto(xKey, key[..keyLen]);
    }
    ghost var k := KeyBlock(blake, key[..keyLen]);
    assert xKey[..] == k;
    XorInto(xKey, 0x36);
    var inner := blake(xKey[..] + input[..inLen]);
    XorInto(xKey, 0x5c ^ 0x36);
    PadSwap(k);
    var outer := blake(xKey[..] + inner);
    CopyInto(out, outer);
  }

  // ----- kdf -----------------------------------------------------------------------------

  /** A destination and how many bytes of it to fill; `Skip` is a NULL or a zero length. */
  datatype Dst = Skip | Into(buf: array<bv8>, len: nat)

  predicate DstOk(d: Dst) {
    d.Into? ==> 0 < d.len <= HASH_LEN && d.len <= d.buf.Length
  }

  ghost function Buffers(d: Dst): set<object> {
    if d.Into? then {d.buf} else {}
  }

  ghost predicate Filled(d: Dst, bytes: seq<bv8>, before: seq<bv8>)
    requires d.Into? && d.len <= |bytes|
    reads Buffers(d)
  {
    |before| == d.buf.Length && d.len <= |before| && d.buf[..] == bytes[..d.len] + before[d.len..]
  }

  ghost function Contents(d: Dst): seq<bv8>
    reads Buffers(d)
  {
    if d.Into? then d.buf[..] else []
  }

  /** One block: `output` is both what is hashed and where the block goes. */
  method Block(blake: Blake, output: array<bv8>, secret: array<bv8>, inLen: nat, dst: Dst)
    requires output.Length == HASH_LEN + 1 && secret.Length == HASH_LEN && inLen <= HASH_LEN + 1
    requires DstOk(dst) && dst.Into? && dst.buf != output && dst.buf != secret && output != secret
    modifies output, dst.buf
    ensures output[..HASH_LEN] == old(Hmac(blake, secret[..], output[..inLen]))
    ensures Filled(dst, old(Hmac(blake, secret[..], output[..inLen])), old(Contents(dst)))
  {
    assert secret[..HASH_LEN] == secret[..];
    HmacInto(blake, output, output, secret, inLen, HASH_LEN);
    CopyInto(dst.buf, output[..dst.len]);
  }

  /** `kdf`.  Any destination may be the chaining key or the data. */
  method Kdf(blake: Blake, first: Dst, second: Dst, third: Dst, data: array<bv8>, dataLen: nat, chainingKey: array<bv8>)
    requires DstOk(first) && DstOk(second) && DstOk(third) && dataLen <= data.Length && chainingKey.Length == HASH_LEN
    requires first.Into? && second.Into? ==> first.buf != second.buf
    requires first.Into? && third.Into? ==> first.buf != third.buf
    requires second.Into? && third.Into? ==> second.buf != third.buf
    requires (second.Into? ==> first.Into?) && (third.Into? ==> second.Into?)
    modifies Buffers(first), Buffers(second), Buffers(third)
    ensures first.Into? ==> Filled(first, old(Hkdf(blake, chainingKey[..], data[..dataLen], 1)), old(Contents(first)))
    ensures second.Into? ==> Filled(second, old(Hkdf(blake, chainingKey[..], data[..dataLen], 2)),
                                    old(Contents(second)))
    ensures third.Into? ==> Filled(third, old(Hkdf(blake, chainingKey[..], data[..dataLen], 3)), old(Contents(third)))
  {
    var output := new bv8[HASH_LEN + 1];
    var secret := new bv8[HASH_LEN];
    ghost var prk := Hmac(blake, chainingKey[..], data[..dataLen]);
    assert chainingKey[..HASH_LEN] == chainingKey[..];
    HmacInto(blake, secret, data, chainingKey, dataLen, HASH_LEN);
    assert secret[..] == prk;
    if first.Skip? {
      return;
    }
    output[0] := 1;
    assert Expand(blake, prk, 0) == [] && output[..1] == [] + [1 as bv8];
    assert Hmac(blake, secret[..], output[..1]) == Expand(blake, prk, 1);
    Block(blake, output, secret, 1, first);
    if second.Skip? {
      return;
    }
    NextBlock(blake, output, secret, second, 2, prk);
    if third.Skip? {
      return;
    }
    NextBlock(blake, output, secret, third, 3, prk);
  }

  /** `output[BLAKE2S_HASH_SIZE] = n`, then the block. */
  method NextBlock(blake: Blake, output: array<bv8>, secret: array<bv8>, dst: Dst, n: nat, ghost prk: seq<bv8>)
    requires output.Length == HASH_LEN + 1 && secret.Length == HASH_LEN && output != secret
    requires DstOk(dst) && dst.Into? && dst.buf != output && dst.buf != secret
    requires 1 < n <= 255 && secret[..] == prk && output[..HASH_LEN] == Expand(blake, prk, n - 1)
    modifies output, dst.buf
    ensures output[..HASH_LEN] == Expand(blake, prk, n)
    ensures Filled(dst, Expand(blake, prk, n), old(Contents(dst)))
  {
    output[HASH_LEN] := n as bv8;
    assert output[..HASH_LEN + 1] == Expand(blake, prk, n - 1) + [n as bv8];
    Block(blake, output, secret, HASH_LEN + 1, dst);
  }

  // ----- mixing into the chaining key and the hash ---------------------------------------

  /** `mix_hash` */
  method MixHash(blake: Blake, hash: array<bv8>, src: array<bv8>, srcLen: nat)
    requires hash.Length == HASH_LEN && srcLen <= src.Length
    modifies hash
    ensures hash[..] == old(blake(hash[..] + src[..srcLen]))
  {
    CopyInto(hash, blake(hash[..] + src[..srcLen]));
  }

  /** What `mix_dh` does once the exchange has succeeded: the chaining key is overwritten with
      the first block of HKDF under the chaining key as it was, the key, if there is one, gets the
      second. */
  method MixKey(blake: Blake, chainingKey: array<bv8>, key: array?<bv8>, dh: array<bv8>)
    requires chainingKey.Length == dh.Length == HASH_LEN && chainingKey != key
             && (key != null ==> key.Length == HASH_LEN)
    modifies chainingKey, key
    ensures chainingKey[..] == old(Hkdf(blake, chainingKey[..], dh[..], 1))
    ensures key != null ==> key[..] == old(Hkdf(blake, chainingKey[..], dh[..], 2))
  {
    assert dh[..HASH_LEN] == dh[..];
    if key == null {
      Kdf(blake, Into(chainingKey, HASH_LEN), Skip, Skip, dh, HASH_LEN, chainingKey);
    } else {
      Kdf(blake, Into(chainingKey, HASH_LEN), Into(key, HASH_LEN), Skip, dh, HASH_LEN, chainingKey);
    }
  }

  /** `message_ephemeral`; source and destination may be one buffer. */
  method MessageEphemeral(blake: Blake, dst: array<bv8>, src: array<bv8>, chainingKey: array<bv8>, hash: array<bv8>)
    requires dst.Length == src.Length == chainingKey.Length == hash.Length == HASH_LEN
    requires chainingKey != dst && chainingKey != src && chainingKey != hash && hash != dst && hash != src
    modifies dst, chainingKey, hash
    ensures dst[..] == old(src[..]) && src[..] == old(src[..])
    ensures hash[..] == old(blake(hash[..] + src[..]))
    ensures chainingKey[..] == old(Hkdf(blake, chainingKey[..], src[..], 1))
  {
    if dst != src {
      CopyInto(dst, src[..]);
    }
    assert src[..HASH_LEN] == src[..];
    MixHash(blake, hash, src, HASH_LEN);
    assert src[..HASH_LEN] == old(src[..]) && chainingKey[..] == old(chainingKey[..]);
    Kdf(blake, Into(chainingKey, HASH_LEN), Skip, Skip, src, HASH_LEN, chainingKey);
  }

  /** `mix_psk` */
  method MixPsk(blake: Blake, chainingKey: array<bv8>, hash: array<bv8>, key: array<bv8>, psk: array<bv8>)
    requires chainingKey.Length == hash.Length == key.Length == psk.Length == HASH_LEN
    requires chainingKey != hash && chainingKey != key && hash != key
    modifies chainingKey, hash, key
    ensures chainingKey[..] == old(Hkdf(blake, chainingKey[..], psk[..], 1))
    ensures hash[..] == old(blake(hash[..] + Hkdf(blake, chainingKey[..], psk[..], 2)))
    ensures key[..] == old(Hkdf(blake, chainingKey[..], psk[..], 3))
  {
    var tempHash := new bv8[HASH_LEN];
    ghost var extra := Hkdf(blake, chainingKey[..], psk[..], 2);
    assert psk[..HASH_LEN] == psk[..];
    Kdf(blake, Into(chainingKey, HASH_LEN), Into(tempHash, HASH_LEN), Into(key, HASH_LEN), psk, HASH_LEN, chainingKey);
    assert tempHash[..HASH_LEN] == extra && hash[..] == old(hash[..]);
    MixHash(blake, hash, tempHash, HASH_LEN);
  }

  /** `derive_keys`, without the time stamps and flags */
  method DeriveKeys(blake: Blake, first: array<bv8>, second: array<bv8>, chainingKey: array<bv8>)
    requires first.Length == second.Length == chainingKey.Length == HASH_LEN && first != second
    modifies first, second
    ensures first[..] == old(Hkdf(blake, chainingKey[..], [], 1))
            && second[..] == old(Hkdf(blake, chainingKey[..], [], 2))
  {
    var nothing := new bv8[0];
    assert nothing[..0] == [];
    Kdf(blake, Into(first, HASH_LEN), Into(second, HASH_LEN), Skip, nothing, 0, chainingKey);
  }
}
