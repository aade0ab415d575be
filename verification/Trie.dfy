/** The allowed-IPs trie of allowedips.c: its memory, its invariant and what a lookup finds.

    Nodes live in an explicit memory so that every pointer store of the C code is a step of
    its own and every state a concurrent reader can see is a value.  Addresses are sequences
    of bits, most significant first; module AddressBits relates them to the bytes and words
    the C code works on. */
module Trie {
  import opened Common

  type Bits = seq<bool>
  type Peer = nat
  type Ptr = nat

  /** A stored rule: the family (by its address width) and the leading bits it fixes. */
  datatype Prefix = Prefix(width: nat, bits: Bits)

  type Rules = map<Prefix, Peer>

  /** The peer of the longest rule of length at most n that covers the address. */
  function Lpm(rules: Rules, key: Bits, n: nat): Option<Peer>
    requires n <= |key|
  {
    if Prefix(|key|, key[..n]) in rules then Some(rules[Prefix(|key|, key[..n])])
    else if n == 0 then None
    else Lpm(rules, key, n - 1)
  }

  function LongestMatch(rules: Rules, key: Bits): Option<Peer> {
    Lpm(rules, key, |key|)
  }

  // ----- memory --------------------------------------------------------------------------

  /** The address of a pointer to a node: `&table->root4`, `&table->root6` or
      `&node->bit[b]`.  `parent_bit_packed` holds one of these. */
  datatype Slot = Root(width: nat) | Child(parent: Ptr, bit: bool)

  /** `struct allowedips_node` without its two child pointers, which are cells of the memory. */
  datatype Node = Node(peer: Option<Peer>, cidr: nat, bits: Bits, parent: Slot)

  /** The nodes ever allocated and the pointers that are not NULL. */
  datatype Mem = Mem(nodes: map<Ptr, Node>, cells: map<Slot, Ptr>)

  function Get(m: Mem, s: Slot): Option<Ptr> {
    if s in m.cells then Some(m.cells[s]) else None
  }

  function CommonBits(a: Bits, b: Bits): (r: nat)
    ensures r <= |a| && r <= |b| && a[..r] == b[..r]
    ensures r < |a| && r < |b| ==> a[r] != b[r]
  {
    if a == [] || b == [] || a[0] != b[0] then 0
    else
      var r := 1 + CommonBits(a[1..], b[1..]);
      assert a[..r] == [a[0]] + a[1..][..r - 1];
      assert b[..r] == [b[0]] + b[1..][..r - 1];
      r
  }

  /** `prefix_matches` */
  predicate Matches(n: Node, key: Bits) {
    CommonBits(n.bits, key) >= n.cidr
  }

  lemma MatchesIsPrefix(n: Node, key: Bits)
    requires n.cidr <= |n.bits| == |key|
    ensures Matches(n, key) <==> n.bits[..n.cidr] == key[..n.cidr]
  {
  }

  /** Agreement on j bits is agreement on any i of them. */
  lemma Shorter(a: Bits, b: Bits, i: nat, j: nat)
    requires i <= j <= |a| && j <= |b| && a[..j] == b[..j]
    ensures a[..i] == b[..i] && (i < j ==> a[i] == b[i])
  {
  }

  // ----- invariant -----------------------------------------------------------------------

  function PrefixOf(n: Node): Prefix
    requires n.cidr <= |n.bits|
  {
    Prefix(|n.bits|, n.bits[..n.cidr])
  }

  predicate NodeOk(n: Node) {
    (|n.bits| == 32 || |n.bits| == 128) && n.cidr <= |n.bits|
  }

  /** What a cell points to exists, and is longer than the node the cell belongs to. */
  predicate CellOk(m: Mem, s: Slot)
    requires s in m.cells
  {
    var c := m.cells[s];
    && c in m.nodes
    && match s
       case Root(w) => |m.nodes[c].bits| == w
       case Child(p, _) =>
         p in m.nodes && |m.nodes[c].bits| == |m.nodes[p].bits| && m.nodes[p].cidr < m.nodes[c].cidr
  }

  /** Enough for a reader's walk: true of removed nodes too, which keep their pointers. */
  ghost predicate MemOk(m: Mem) {
    && (forall p :: p in m.nodes ==> NodeOk(m.nodes[p]))
    && (forall s {:trigger CellOk(m, s)} :: s in m.cells ==> CellOk(m, s))
  }

  /** The nodes in use, found by the prefix they stand for. */
  type Index = map<Prefix, Ptr>

  ghost predicate Live(m: Mem, index: Index, p: Ptr) {
    && p in m.nodes && NodeOk(m.nodes[p])
    && PrefixOf(m.nodes[p]) in index && index[PrefixOf(m.nodes[p])] == p
  }

  ghost predicate IndexOk(m: Mem, index: Index) {
    forall x :: x in index ==>
      index[x] in m.nodes && NodeOk(m.nodes[index[x]]) && PrefixOf(m.nodes[index[x]]) == x
  }

  /** `c` is below `n` on the side of bit `b`. */
  predicate Extends(n: Node, b: bool, c: Node) {
    && |c.bits| == |n.bits| && n.cidr < c.cidr <= |c.bits|
    && c.bits[..n.cidr] == n.bits[..n.cidr] && c.bits[n.cidr] == b
  }

  /** The slot is a root of the node's family, or a child pointer on the node's side of a
      shorter node in use. */
  ghost predicate Fits(m: Mem, index: Index, s: Slot, n: Node) {
    match s
    case Root(w) => w == |n.bits|
    case Child(q, b) => Live(m, index, q) && Extends(m.nodes[q], b, n)
  }

  /** The parent link of a node in use is the address of the one pointer that points to it. */
  ghost predicate UpAt(m: Mem, index: Index, p: Ptr)
    requires p in m.nodes
  {
    Get(m, m.nodes[p].parent) == Some(p) && Fits(m, index, m.nodes[p].parent, m.nodes[p])
  }

  /** A root, or a child pointer of a node in use. */
  ghost predicate Owned(m: Mem, index: Index, s: Slot) {
    s.Child? ==> Live(m, index, s.parent)
  }

  ghost predicate DownAt(m: Mem, index: Index, s: Slot)
    requires s in m.cells
  {
    Live(m, index, m.cells[s]) && m.nodes[m.cells[s]].parent == s
  }

  /** Child pointers and parent links are mutually inverse. */
  ghost predicate LinksOk(m: Mem, index: Index) {
    && (forall p {:trigger UpAt(m, index, p)} :: Live(m, index, p) ==> UpAt(m, index, p))
    && (forall s {:trigger DownAt(m, index, s)} :: s in m.cells && Owned(m, index, s) ==> DownAt(m, index, s))
  }

  ghost predicate TrieOk(m: Mem, index: Index) {
    MemOk(m) && IndexOk(m, index) && LinksOk(m, index)
  }

  /** A node with a peer or with two children. */
  predicate Dense(m: Mem, p: Ptr)
    requires p in m.nodes
  {
    m.nodes[p].peer.Some? || (Child(p, false) in m.cells && Child(p, true) in m.cells)
  }

  /** No peerless node with fewer than two children. */
  ghost predicate DenseOk(m: Mem, index: Index) {
    forall p :: Live(m, index, p) ==> Dense(m, p)
  }

  ghost function RulesOf(m: Mem, index: Index): Rules {
    map x | x in index && index[x] in m.nodes && m.nodes[index[x]].peer.Some? :: m.nodes[index[x]].peer.value
  }

  // ----- where a node's ancestors are ----------------------------------------------------

  /** The root is a prefix of every node in use of its family. */
  lemma {:induction false} RootAbove(m: Mem, index: Index, p: Ptr)
    requires TrieOk(m, index) && Live(m, index, p)
    ensures var w := |m.nodes[p].bits|;
            && Root(w) in m.cells && Live(m, index, m.cells[Root(w)])
            && var r := m.nodes[m.cells[Root(w)]];
               && |r.bits| == w && r.cidr <= m.nodes[p].cidr && r.bits[..r.cidr] == m.nodes[p].bits[..r.cidr]
    decreases m.nodes[p].cidr
  {
    assert UpAt(m, index, p);
    match m.nodes[p].parent
    case Root(_) =>
    case Child(q, b) =>
      RootAbove(m, index, q);
      var r := m.nodes[m.cells[Root(|m.nodes[p].bits|)]];
      Shorter(m.nodes[q].bits, m.nodes[p].bits, r.cidr, m.nodes[q].cidr);
  }

  /** If `n` is a proper prefix of `q`, then n's child on q's side is a prefix of q too. */
  lemma {:induction false} ChildToward(m: Mem, index: Index, n: Ptr, q: Ptr)
    requires TrieOk(m, index) && Live(m, index, n) && Live(m, index, q)
    requires |m.nodes[n].bits| == |m.nodes[q].bits| && m.nodes[n].cidr < m.nodes[q].cidr
    requires m.nodes[n].bits[..m.nodes[n].cidr] == m.nodes[q].bits[..m.nodes[n].cidr]
    ensures var c := Get(m, Child(n, m.nodes[q].bits[m.nodes[n].cidr]));
            && c.Some? && Live(m, index, c.value)
            && m.nodes[c.value].cidr <= m.nodes[q].cidr
            && |m.nodes[c.value].bits| == |m.nodes[q].bits|
            && m.nodes[c.value].bits[..m.nodes[c.value].cidr] == m.nodes[q].bits[..m.nodes[c.value].cidr]
    decreases m.nodes[n].cidr + m.nodes[q].cidr
  {
    var nn, nq := m.nodes[n], m.nodes[q];
    assert UpAt(m, index, q);
    match nq.parent
    case Root(_) =>
      RootAbove(m, index, n);
      assert false;
    case Child(r, b) =>
      var nr := m.nodes[r];
      if nr.cidr == nn.cidr {
        assert PrefixOf(nr) == PrefixOf(nn);
      } else if nr.cidr > nn.cidr {
        Shorter(nr.bits, nq.bits, nn.cidr, nr.cidr);
        ChildToward(m, index, n, r);
        Shorter(nr.bits, nq.bits, m.nodes[m.cells[Child(n, nr.bits[nn.cidr])]].cidr, nr.cidr);
      } else {
        Shorter(nn.bits, nq.bits, nr.cidr, nn.cidr);
        ChildToward(m, index, r, n);
        assert false;
      }
  }

  // ----- lookup --------------------------------------------------------------------------

  ghost predicate StartOk(m: Mem, p: Option<Ptr>, key: Bits) {
    p.Some? ==> p.value in m.nodes && |m.nodes[p.value].bits| == |key|
  }

  /** What the loop of `find_node` returns when started at p with nothing found yet. */
  ghost function Best(m: Mem, p: Option<Ptr>, key: Bits): (r: Option<Ptr>)
    requires MemOk(m) && StartOk(m, p, key)
    ensures r.Some? ==> r.value in m.nodes && m.nodes[r.value].peer.Some?
    decreases if p.Some? then |key| + 1 - m.nodes[p.value].cidr else 0
  {
    if p.None? || !Matches(m.nodes[p.value], key) then None
    else
      var n := m.nodes[p.value];
      var below := if n.cidr == |key| then None else BestAt(m, Child(p.value, key[n.cidr]), key);
      if below.Some? then below else if n.peer.Some? then p else None
  }

  /** The same, started at whatever slot s points to. */
  ghost function BestAt(m: Mem, s: Slot, key: Bits): (r: Option<Ptr>)
    requires MemOk(m)
    requires match s case Root(w) => w == |key|
                     case Child(p, _) => p in m.nodes && |m.nodes[p].bits| == |key| && m.nodes[p].cidr < |key|
    ensures r.Some? ==> r.value in m.nodes && m.nodes[r.value].peer.Some?
    decreases if s.Root? then |key| + 2 else |key| + 1 - m.nodes[s.parent].cidr, 0
  {
    assert s in m.cells ==> CellOk(m, s);
    Best(m, Get(m, s), key)
  }

  ghost function PeerAt(m: Mem, r: Option<Ptr>): Option<Peer> {
    if r.Some? && r.value in m.nodes then m.nodes[r.value].peer else None
  }

  /** The peer a reader finds in memory `m`. */
  ghost function Lookup(m: Mem, key: Bits): Option<Peer>
    requires MemOk(m)
  {
    PeerAt(m, BestAt(m, Root(|key|), key))
  }

  /** No rule of length n down to lo+1 covers the address: the search skips them. */
  lemma {:induction false} LpmSkip(rules: Rules, key: Bits, n: nat, lo: nat)
    requires lo <= n <= |key|
    requires forall k :: lo < k <= n ==> Prefix(|key|, key[..k]) !in rules
    ensures Lpm(rules, key, n) == Lpm(rules, key, lo)
    decreases n
  {
    if n > lo {
      assert Prefix(|key|, key[..n]) !in rules;
      LpmSkip(rules, key, n - 1, lo);
    }
  }

  ghost predicate NoRule(rules: Rules, key: Bits, lo: nat) {
    forall k :: lo <= k <= |key| ==> Prefix(|key|, key[..k]) !in rules
  }

  ghost predicate At(m: Mem, p: Ptr, key: Bits) {
    p in m.nodes && NodeOk(m.nodes[p]) && |m.nodes[p].bits| == |key|
      && m.nodes[p].bits[..m.nodes[p].cidr] == key[..m.nodes[p].cidr]
  }

  /** A node in use for a longer prefix of the key lies below the child on the key's side. */
  lemma NodeBetween(m: Mem, index: Index, p: Ptr, key: Bits, k: nat)
    requires TrieOk(m, index) && Live(m, index, p) && At(m, p, key)
    requires m.nodes[p].cidr < k <= |key| && Prefix(|key|, key[..k]) in index
    ensures var c := Get(m, Child(p, key[m.nodes[p].cidr]));
            c.Some? && At(m, c.value, key) && m.nodes[c.value].cidr <= k
  {
    var n := m.nodes[p];
    var q := index[Prefix(|key|, key[..k])];
    var nq := m.nodes[q];
    assert |PrefixOf(nq).bits| == k;
    Shorter(nq.bits, key, n.cidr, k);
    ChildToward(m, index, p, q);
    Shorter(nq.bits, key, m.nodes[m.cells[Child(p, key[n.cidr])]].cidr, k);
  }

  /** Below a matching node the walk finds the longest rule at least as long as the node. */
  lemma {:induction false} BestFromNode(m: Mem, index: Index, p: Ptr, key: Bits)
    requires TrieOk(m, index) && Live(m, index, p) && At(m, p, key)
    ensures var rules, r := RulesOf(m, index), Best(m, Some(p), key);
            && (r.Some? ==> PeerAt(m, r) == LongestMatch(rules, key))
            && (r.None? ==> NoRule(rules, key, m.nodes[p].cidr))
    decreases |key| - m.nodes[p].cidr
  {
    var n := m.nodes[p];
    var rules := RulesOf(m, index);
    MatchesIsPrefix(n, key);
    assert PrefixOf(n) == Prefix(|key|, key[..n.cidr]);
    if n.cidr == |key| {
      return;
    }
    BestBelow(m, index, p, key);
    if BestAt(m, Child(p, key[n.cidr]), key).None? && n.peer.Some? {
      LpmSkip(rules, key, |key|, n.cidr);
    }
  }

  lemma {:induction false} BestBelow(m: Mem, index: Index, p: Ptr, key: Bits)
    requires TrieOk(m, index) && Live(m, index, p) && At(m, p, key) && m.nodes[p].cidr < |key|
    ensures var rules, r := RulesOf(m, index), BestAt(m, Child(p, key[m.nodes[p].cidr]), key);
            && (r.Some? ==> PeerAt(m, r) == LongestMatch(rules, key))
            && (r.None? ==> NoRule(rules, key, m.nodes[p].cidr + 1))
    decreases |key| - m.nodes[p].cidr, 0
  {
    var n := m.nodes[p];
    var s := Child(p, key[n.cidr]);
    assert s in m.cells ==> CellOk(m, s) && DownAt(m, index, s);
    var deep := s in m.cells && Matches(m.nodes[m.cells[s]], key);
    if deep {
      MatchesIsPrefix(m.nodes[m.cells[s]], key);
      BestFromNode(m, index, m.cells[s], key);
    }
    forall k | n.cidr < k <= |key| && (deep ==> k < m.nodes[m.cells[s]].cidr)
      ensures Prefix(|key|, key[..k]) !in RulesOf(m, index)
    {
      if Prefix(|key|, key[..k]) in index {
        NodeBetween(m, index, p, key, k);
        MatchesIsPrefix(m.nodes[m.cells[s]], key);
      }
    }
  }

  lemma RootCovers(m: Mem, index: Index, key: Bits, k: nat)
    requires TrieOk(m, index) && k <= |key| && Prefix(|key|, key[..k]) in index
    ensures Root(|key|) in m.cells && At(m, m.cells[Root(|key|)], key) && m.nodes[m.cells[Root(|key|)]].cidr <= k
  {
    var q := index[Prefix(|key|, key[..k])];
    RootAbove(m, index, q);
    assert |PrefixOf(m.nodes[q]).bits| == k;
    Shorter(m.nodes[q].bits, key, m.nodes[m.cells[Root(|key|)]].cidr, k);
  }

  /** In a well-formed trie a lookup returns the peer of the longest rule that covers the
      address. */
  lemma LookupIsLongestMatch(m: Mem, index: Index, key: Bits)
    requires TrieOk(m, index)
    ensures Lookup(m, key) == LongestMatch(RulesOf(m, index), key)
  {
    var rules := RulesOf(m, index);
    var s := Root(|key|);
    assert s in m.cells ==> CellOk(m, s) && DownAt(m, index, s);
    assert BestAt(m, s, key) == Best(m, Get(m, s), key);
    if s in m.cells && Matches(m.nodes[m.cells[s]], key) {
      MatchesIsPrefix(m.nodes[m.cells[s]], key);
      BestFromNode(m, index, m.cells[s], key);
    }
    if BestAt(m, s, key) == None {
      forall k | 0 <= k <= |key| ensures Prefix(|key|, key[..k]) !in rules {
        if Prefix(|key|, key[..k]) in index {
          RootCovers(m, index, key, k);
          MatchesIsPrefix(m.nodes[m.cells[s]], key);
        }
      }
      assert Prefix(|key|, key[..0]) !in rules;
      LpmSkip(rules, key, |key|, 0);
    }
  }
}
