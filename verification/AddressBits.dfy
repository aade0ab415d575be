/** Addresses as the bytes and machine words allowedips.c works on (on a little-endian
    machine), and the sequences of bits the trie model is written over. */
module AddressBits {
  import opened Trie

  /** Eight bits, bit 0 first. */
  type Octet = b: seq<bool> | |b| == 8 witness seq(8, _ => false)

  /** An unsigned word of any length, bit 0 first. */
  type Word = seq<bool>

  /** An address as bits, most significant first: the bytes in order, each from bit 7 down. */
  function BitsOf(bytes: seq<Octet>): (r: Bits)
    ensures |r| == 8 * |bytes|
  {
    seq(8 * |bytes|, k requires 0 <= k < 8 * |bytes| => bytes[k / 8][7 - k % 8])
  }

  // ----- words ---------------------------------------------------------------------------

  function Reversed<T>(s: seq<T>): (r: seq<T>)
    ensures |r| == |s| && forall i :: 0 <= i < |s| ==> r[i] == s[|s| - 1 - i]
  {
    seq(|s|, i requires 0 <= i < |s| => s[|s| - 1 - i])
  }

  /** `swap_endian` on a little-endian machine */
  function SwapEndian(src: seq<Octet>): (dst: seq<Octet>)
    requires |src| == 4 || |src| == 16
    ensures |dst| == |src|
  {
    if |src| == 4 then Reversed(src) else Reversed(src[..8]) + Reversed(src[8..])
  }

  lemma SwapTwice(src: seq<Octet>)
    requires |src| == 4 || |src| == 16
    ensures SwapEndian(SwapEndian(src)) == src
  {
  }

  /** Loading bytes as one word on a little-endian machine. */
  function Load(bytes: seq<Octet>): (w: Word)
    ensures |w| == 8 * |bytes|
  {
    seq(8 * |bytes|, k requires 0 <= k < 8 * |bytes| => bytes[k / 8][k % 8])
  }

  /** A word loaded from swapped bytes has the address's first bit on top. */
  lemma LoadSwapped(src: seq<Octet>)
    ensures Load(Reversed(src)) == Reversed(BitsOf(src))
  {
  }

  function Xor(a: Word, b: Word): (r: Word)
    requires |a| == |b|
    ensures |r| == |a|
  {
    seq(|a|, i requires 0 <= i < |a| => a[i] != b[i])
  }

  /** `fls` and `fls64`: one more than the position of the highest bit set, or 0. */
  function Fls(w: Word): (n: nat)
    ensures n <= |w| && (n > 0 ==> w[n - 1]) && forall i :: n <= i < |w| ==> !w[i]
  {
    if w == [] then 0 else if w[|w| - 1] then |w| else Fls(w[..|w| - 1])
  }

  /** The highest set bit of the difference marks the first bit that differs. */
  lemma FlsOfXor(a: Bits, b: Bits)
    requires |a| == |b|
    ensures Fls(Xor(Reversed(a), Reversed(b))) == |a| - CommonBits(a, b)
  {
    var w, c := Xor(Reversed(a), Reversed(b)), CommonBits(a, b);
    forall i | |a| - c <= i < |a| ensures !w[i] {
      assert a[..c][|a| - 1 - i] == b[..c][|a| - 1 - i];
    }
    assert c < |a| ==> w[|a| - 1 - c];
  }

  /** `fls128`, from the high and the low half */
  function Fls128(a: Word, b: Word): nat {
    if Fls(a) != 0 then Fls(a) + 64 else Fls(b)
  }

  lemma Fls128Is(a: Word, b: Word)
    requires |a| == |b| == 64
    ensures Fls128(a, b) == Fls(b + a)
  {
    var n := Fls(b + a);
    assert Fls(a) > 0 ==> (b + a)[Fls(a) + 63];
    assert forall i :: 64 <= i < 128 ==> (b + a)[i] == a[i - 64];
    assert forall i :: 0 <= i < 64 ==> (b + a)[i] == b[i];
    assert n > 64 ==> a[n - 65];
    assert Fls(b) > 0 ==> (b + a)[Fls(b) - 1];
  }

  /** `common_bits` on the words of two swapped addresses */
  function CommonBitsOfWords(node: seq<Octet>, key: seq<Octet>): int
    requires |node| == |key| && (|key| == 4 || |key| == 16)
  {
    if |key| == 4 then 32 - Fls(Xor(Load(node), Load(key)))
    else 128 - Fls128(Xor(Load(node[..8]), Load(key[..8])), Xor(Load(node[8..]), Load(key[8..])))
  }

  /** The two halves of a swapped address, low word first, are its bits from the last on. */
  lemma Halves(a: seq<Octet>)
    requires |a| == 16
    ensures Load(SwapEndian(a)[8..]) + Load(SwapEndian(a)[..8]) == Reversed(BitsOf(a))
  {
    var x, y := a[..8], a[8..];
    assert SwapEndian(a)[..8] == Reversed(x) && SwapEndian(a)[8..] == Reversed(y);
    LoadSwapped(x);
    LoadSwapped(y);
    BitsJoin(x, y);
    assert a == x + y;
    ReversedJoin(BitsOf(x), BitsOf(y));
  }

  lemma BitsJoin(x: seq<Octet>, y: seq<Octet>)
    ensures BitsOf(x + y) == BitsOf(x) + BitsOf(y)
  {
    forall k | 0 <= k < 8 * |x + y| ensures BitsOf(x + y)[k] == (BitsOf(x) + BitsOf(y))[k] {
      if k >= 8 * |x| {
        assert k == 8 * |x| + (k - 8 * |x|);
        assert k / 8 == |x| + (k - 8 * |x|) / 8 && k % 8 == (k - 8 * |x|) % 8;
      }
    }
  }

  lemma ReversedJoin<T>(x: seq<T>, y: seq<T>)
    ensures Reversed(x + y) == Reversed(y) + Reversed(x)
  {
  }

  lemma XorJoin(a: Word, b: Word, c: Word, d: Word)
    requires |a| == |c| && |b| == |d|
    ensures Xor(a, c) + Xor(b, d) == Xor(a + b, c + d)
  {
  }

  /** `common_bits` counts the leading bits two addresses share. */
  lemma CommonBitsIs(a: seq<Octet>, b: seq<Octet>)
    requires |a| == |b| && (|a| == 4 || |a| == 16)
    ensures CommonBitsOfWords(SwapEndian(a), SwapEndian(b)) == CommonBits(BitsOf(a), BitsOf(b))
  {
    FlsOfXor(BitsOf(a), BitsOf(b));
    if |a| == 4 {
      LoadSwapped(a);
      LoadSwapped(b);
    } else {
      var x, y := SwapEndian(a), SwapEndian(b);
      Halves(a);
      Halves(b);
      Fls128Is(Xor(Load(x[..8]), Load(y[..8])), Xor(Load(x[8..]), Load(y[8..])));
      XorJoin(Load(x[8..]), Load(x[..8]), Load(y[8..]), Load(y[..8]));
    }
  }

  // ----- choose --------------------------------------------------------------------------

  /** `a ^ m` for a mask of low ones: the low bits of `a` are mirrored. */
  function FlipLow(a: nat, ones: nat): nat {
    a - a % (ones + 1) + (ones - a % (ones + 1))
  }

  /** `bit_at_a` as `copy_and_assign_cidr` sets it; `bit_at_b` is 7 - cidr % 8. */
  function BitAtA(cidr: nat, bits: nat): int
    requires bits >= 8
  {
    FlipLow(cidr / 8, (bits / 8 - 1) % 8)
  }

  lemma BitAtAIs(cidr: nat, bits: nat)
    requires (bits == 32 || bits == 128) && cidr < bits
    ensures BitAtA(cidr, bits) == if bits == 32 then 3 - cidr / 8 else if cidr < 64 then 7 - cidr / 8 else 23 - cidr / 8
  {
  }

  /** `choose` picks the address's bit at the node's length. */
  lemma ChooseIs(src: seq<Octet>, cidr: nat)
    requires (|src| == 4 || |src| == 16) && cidr < 8 * |src|
    ensures var a := BitAtA(cidr, 8 * |src|);
            0 <= a < |src| && SwapEndian(src)[a][7 - cidr % 8] == BitsOf(src)[cidr]
  {
    BitAtAIs(cidr, 8 * |src|);
    WhichByte(cidr, |src|);
    SwappedAt(src, cidr / 8);
    BitAt(src, cidr);
  }

  lemma WhichByte(k: nat, n: nat)
    requires k < 8 * n
    ensures k / 8 < n && (k < 64 <==> k / 8 < 8)
  {
  }

  lemma BitAt(src: seq<Octet>, k: nat)
    requires k < 8 * |src|
    ensures k / 8 < |src| && BitsOf(src)[k] == src[k / 8][7 - k % 8]
  {
  }

  lemma SwappedAt(src: seq<Octet>, i: nat)
    requires (|src| == 4 || |src| == 16) && i < |src|
    ensures SwapEndian(src)[if |src| == 4 then 3 - i else if i < 8 then 7 - i else 23 - i] == src[i]
  {
  }

  // ----- reading a node back -------------------------------------------------------------

  /** `b & (~0U << n)` */
  function ClearLow(b: Octet, n: nat): Octet {
    seq(8, i requires 0 <= i < 8 => i >= n && b[i])
  }

  function ZeroByte(): Octet {
    seq(8, _ => false)
  }

  /** Byte i of an address cut off after cidr bits. */
  function CutByte(src: seq<Octet>, cidr: nat, i: nat): Octet
    requires i < |src|
  {
    if 8 * i >= cidr then ZeroByte() else if 8 * i + 8 <= cidr then src[i] else ClearLow(src[i], 8 * i + 8 - cidr)
  }

  lemma CutBytes(src: seq<Octet>, cidr: nat, ip: seq<Octet>)
    requires |ip| == |src| && cidr <= 8 * |src| && forall i :: 0 <= i < |src| ==> ip[i] == CutByte(src, cidr, i)
    ensures BitsOf(ip)[..cidr] == BitsOf(src)[..cidr] && forall k :: cidr <= k < 8 * |src| ==> !BitsOf(ip)[k]
  {
  }

  /** Whole bytes, then one cleared from below, then zeroes. */
  lemma CutDone(src: seq<Octet>, cidr: nat, t: seq<Octet>)
    requires cidr <= 8 * |src| && |t| == |src|
    requires forall i :: 0 <= i < |src| ==> t[i] == if i < (cidr + 7) / 8 then src[i] else ZeroByte()
    ensures var last := (cidr + 7) / 8 - 1;
            var ip := if cidr == 0 then t else t[last := ClearLow(t[last], (8 - cidr % 8) % 8)];
            forall i :: 0 <= i < |src| ==> ip[i] == CutByte(src, cidr, i)
  {
  }

  method Copy(dst: array<Octet>, src: seq<Octet>)
    requires |src| <= dst.Length
    modifies dst
    ensures dst[..|src|] == src
  {
    for i := 0 to |src|
      invariant dst[..i] == src[..i]
    {
      dst[i] := src[i];
    }
  }

  /** `memset(dst + from, 0, n - from)` */
  method Zero(dst: array<Octet>, from: nat, n: nat)
    requires from <= n <= dst.Length
    modifies dst
    ensures dst[..from] == old(dst[..from]) && forall j :: from <= j < n ==> dst[j] == ZeroByte()
  {
    for i := from to n
      invariant dst[..from] == old(dst[..from]) && forall j :: from <= j < i ==> dst[j] == ZeroByte()
    {
      dst[i] := ZeroByte();
    }
  }

  /** The bytes past the prefix become zero, and the bits past it in its last byte. */
  method CutInto(ip: array<Octet>, n: nat, cidr: nat)
    requires n <= ip.Length && cidr <= 8 * n
    modifies ip
    ensures forall i :: 0 <= i < n ==> ip[i] == CutByte(old(ip[..n]), cidr, i)
  {
    var cidrBytes := (cidr + 7) / 8;
    ghost var src := ip[..n];
    Zero(ip, cidrBytes, n);
    ghost var t := ip[..n];
    forall i | 0 <= i < n ensures t[i] == if i < cidrBytes then src[i] else ZeroByte() {
      assert i < cidrBytes ==> ip[..cidrBytes][i] == src[..cidrBytes][i];
    }
    CutDone(src, cidr, t);
    if cidr != 0 {
      ip[cidrBytes - 1] := ClearLow(ip[cidrBytes - 1], (8 - cidr % 8) % 8);
      assert ip[..n] == t[cidrBytes - 1 := ip[cidrBytes - 1]];
    }
    forall i | 0 <= i < n ensures ip[i] == CutByte(src, cidr, i) {
      assert ip[..n][i] == ip[i];
    }
  }

  /** `wg_allowedips_read_node`: for a node whose address is `src`, what it leaves in `ip` is
      the node's prefix followed by zeroes. */
  method ReadNode(bits: seq<Octet>, cidr: nat, ip: array<Octet>, ghost src: seq<Octet>)
    requires (|src| == 4 || |src| == 16) && bits == SwapEndian(src) && cidr <= 8 * |src| && ip.Length == 16
    modifies ip
    ensures BitsOf(ip[..|src|])[..cidr] == BitsOf(src)[..cidr]
    ensures forall k :: cidr <= k < 8 * |src| ==> !BitsOf(ip[..|src|])[k]
  {
    SwapTwice(src);
    Copy(ip, SwapEndian(bits));
    assert ip[..|src|] == src;
    CutInto(ip, |bits|, cidr);
    CutBytes(src, cidr, ip[..|src|]);
  }
}
