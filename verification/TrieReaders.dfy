/** Readers of the trie that keep the root they were given: `lookup` of allowedips.c takes the root
    pointer by value, so every attempt of a call starts at the node its caller has read. */
module TrieReaders {
  import opened Common
  import opened Trie
  import opened TrieStores
  import opened TrieUpdates
  import opened TrieRemovals
  import opened TrieTeardown

  // ----- one attempt ---------------------------------------------------------------------

  /** What one attempt meets: the memory it walks through, the memory in which it loads the peer of
      the node it has found, and the peers that can still be referenced. */
  datatype Attempt = Attempt(walk: Mem, load: Mem, alive: set<Peer>)

  ghost predicate AttemptOk(a: Attempt, root: Option<Ptr>, key: Bits) {
    && MemOk(a.walk) && StartOk(a.walk, root, key)
    && (Best(a.walk, root, key).Some? ==> Best(a.walk, root, key).value in a.load.nodes)
  }

  datatype Verdict = Decided(peer: Option<Peer>) | Again

  /** The call ends when nothing is found or the peer can be referenced. */
  ghost function VerdictOf(a: Attempt, root: Option<Ptr>, key: Bits): Verdict
    requires AttemptOk(a, root, key)
  {
    match Best(a.walk, root, key)
    case None => Decided(None)
    case Some(p) =>
      var peer := a.load.nodes[p].peer;
      if peer.Some? && peer.value in a.alive then Decided(peer) else Again
  }

  /** While the root read is the root, an undisturbed attempt finds the longest match, and ends the
      call unless that peer is gone. */
  lemma SameRoot(a: Attempt, rules: Rules, key: Bits)
    requires Shows(a.walk, rules) && a.load == a.walk
    ensures AttemptOk(a, Get(a.walk, Root(|key|)), key)
    ensures var p := LongestMatch(rules, key);
            VerdictOf(a, Get(a.walk, Root(|key|)), key) ==
            if p.Some? && p.value !in a.alive then Again else Decided(p)
  {
    assert ShowsAt(a.walk, rules, key);
    var s := Root(|key|);
    assert s in a.walk.cells ==> CellOk(a.walk, s);
    assert BestAt(a.walk, s, key) == Best(a.walk, Get(a.walk, s), key);
  }

  // ----- a root that has been overtaken --------------------------------------------------

  /** Every address of a family gets the answer of the rules. */
  ghost predicate AnswersAll(m: Mem, index: Index, root: Option<Ptr>, w: nat)
    requires MemOk(m) && (root.Some? ==> root.value in m.nodes && |m.nodes[root.value].bits| == w)
  {
    forall key: Bits {:trigger AnswersAt(m, index, root, key)} :: |key| == w ==> AnswersAt(m, index, root, key)
  }

  ghost predicate AnswersAt(m: Mem, index: Index, root: Option<Ptr>, key: Bits)
    requires MemOk(m) && StartOk(m, root, key)
  {
    PeerAt(m, Best(m, root, key)) == LongestMatch(RulesOf(m, index), key)
  }

  /** A rule that covers the address is enough for a match. */
  lemma {:induction false} LpmSome(rules: Rules, key: Bits, k: nat, n: nat)
    requires k <= n <= |key| && Prefix(|key|, key[..k]) in rules
    ensures Lpm(rules, key, n).Some?
    decreases n
  {
    if n > k {
      LpmSome(rules, key, k, n - 1);
    }
  }

  lemma RuleCovers(m: Mem, index: Index, q: Ptr, key: Bits)
    requires Live(m, index, q) && m.nodes[q].peer.Some? && At(m, q, key)
    ensures LongestMatch(RulesOf(m, index), key).Some?
  {
    assert PrefixOf(m.nodes[q]) == Prefix(|key|, key[..m.nodes[q].cidr]);
    LpmSome(RulesOf(m, index), key, m.nodes[q].cidr, |key|);
  }

  /** Beside a node that has a parent some address has a rule that the node does not lead to. */
  lemma RuleBeside(m: Mem, index: Index, r: Ptr) returns (key: Bits)
    requires TrieOk(m, index) && DenseOk(m, index) && Live(m, index, r) && m.nodes[r].parent.Child?
    ensures |key| == |m.nodes[r].bits| && !Matches(m.nodes[r], key) && LongestMatch(RulesOf(m, index), key).Some?
  {
    var n, p, b := m.nodes[r], m.nodes[r].parent.parent, m.nodes[r].parent.bit;
    assert UpAt(m, index, r) && Dense(m, p);
    var c := m.nodes[p].cidr;
    if m.nodes[p].peer.Some? {
      key := m.nodes[p].bits[c := !b];
      RuleCovers(m, index, p, key);
    } else {
      var s := Child(p, !b);
      assert CellOk(m, s) && DownAt(m, index, s) && UpAt(m, index, m.cells[s]);
      var q := RuleBelow(m, index, m.cells[s]);
      key := m.nodes[q].bits;
      Shorter(key, m.nodes[m.cells[s]].bits, c, m.nodes[m.cells[s]].cidr);
      RuleCovers(m, index, q, key);
    }
    assert key[c] != n.bits[c];
    MatchesIsPrefix(n, key);
    if n.bits[..n.cidr] == key[..n.cidr] {
      Shorter(n.bits, key, c, n.cidr);
    }
  }

  /** The same for a start that is NULL or in use. */
  lemma LiveRootExactly(m: Mem, index: Index, root: Option<Ptr>, w: nat)
    requires TrieOk(m, index) && DenseOk(m, index)
    requires root.Some? ==> Live(m, index, root.value) && |m.nodes[root.value].bits| == w
    ensures AnswersAll(m, index, root, w) <==> Get(m, Root(w)) == root
  {
    if Get(m, Root(w)) == root {
      forall key: Bits | |key| == w ensures AnswersAt(m, index, root, key) {
        LookupIsLongestMatch(m, index, key);
        assert BestAt(m, Root(w), key) == Best(m, root, key);
      }
    } else {
      var key := Missed(m, index, root, w);
      assert !AnswersAt(m, index, root, key);
    }
  }

  lemma Missed(m: Mem, index: Index, root: Option<Ptr>, w: nat) returns (key: Bits)
    requires TrieOk(m, index) && DenseOk(m, index) && Get(m, Root(w)) != root
    requires root.Some? ==> Live(m, index, root.value) && |m.nodes[root.value].bits| == w
    ensures |key| == w && Best(m, root, key) == None && LongestMatch(RulesOf(m, index), key).Some?
  {
    if root.Some? {
      assert UpAt(m, index, root.value);
      key := RuleBeside(m, index, root.value);
    } else {
      assert DownAt(m, index, Root(w)) && CellOk(m, Root(w));
      var q := RuleBelow(m, index, m.cells[Root(w)]);
      key := m.nodes[q].bits;
      RuleCovers(m, index, q, key);
    }
  }

  // ----- a root that has been taken out --------------------------------------------------

  /** In use, or taken out: then without a peer and with at most one child, which lies below it and
      is in use or taken out itself. */
  ghost predicate Spliced(m: Mem, index: Index, p: Ptr)
    requires MemOk(m)
    decreases if p in m.nodes then |m.nodes[p].bits| - m.nodes[p].cidr else 0
  {
    p in m.nodes && (!Live(m, index, p)
                     ==> OutOfUse(m, p) && (OnlyKid(m, p).Some? ==> Spliced(m, index, OnlyKid(m, p).value)))
  }

  ghost predicate OutOfUse(m: Mem, p: Ptr)
    requires MemOk(m) && p in m.nodes
    ensures OutOfUse(m, p) && OnlyKid(m, p).Some? ==>
              var c := OnlyKid(m, p).value;
              c in m.nodes && |m.nodes[c].bits| == |m.nodes[p].bits|
                && m.nodes[p].cidr < m.nodes[c].cidr <= |m.nodes[c].bits|
  {
    var b := Child(p, false) !in m.cells;
    assert Child(p, b) in m.cells ==> CellOk(m, Child(p, b));
    && m.nodes[p].peer == None && !BothKids(m, p)
    && (OnlyKid(m, p).Some? ==> Extends(m.nodes[p], b, m.nodes[OnlyKid(m, p).value]))
  }

  /** The first node in use that such a node leads to. */
  ghost function Lead(m: Mem, index: Index, p: Ptr): (r: Option<Ptr>)
    requires MemOk(m) && Spliced(m, index, p)
    ensures r.Some? ==> Live(m, index, r.value) && |m.nodes[r.value].bits| == |m.nodes[p].bits|
    decreases |m.nodes[p].bits| - m.nodes[p].cidr
  {
    if Live(m, index, p) then Some(p)
    else if OnlyKid(m, p).None? then None
    else Lead(m, index, OnlyKid(m, p).value)
  }

  /** A node taken out finds what its only child finds. */
  lemma PassesOn(m: Mem, p: Ptr, key: Bits)
    requires MemOk(m) && p in m.nodes && |m.nodes[p].bits| == |key| && OutOfUse(m, p)
    ensures Best(m, Some(p), key) == Best(m, OnlyKid(m, p), key)
  {
    var n, c := m.nodes[p], OnlyKid(m, p);
    MatchesIsPrefix(n, key);
    if c.Some? {
      MatchesIsPrefix(m.nodes[c.value], key);
      if Matches(m.nodes[c.value], key) {
        Shorter(m.nodes[c.value].bits, key, n.cidr, m.nodes[c.value].cidr);
      }
    }
    if n.cidr < |key| {
      var s := Child(p, key[n.cidr]);
      assert s in m.cells ==> CellOk(m, s);
      assert BestAt(m, s, key) == Best(m, Get(m, s), key);
    }
  }

  lemma {:induction false} LeadSame(m: Mem, index: Index, p: Ptr, key: Bits)
    requires MemOk(m) && Spliced(m, index, p) && |m.nodes[p].bits| == |key|
    ensures Best(m, Some(p), key) == Best(m, Lead(m, index, p), key)
    decreases |m.nodes[p].bits| - m.nodes[p].cidr
  {
    if !Live(m, index, p) {
      PassesOn(m, p, key);
      if OnlyKid(m, p).Some? {
        LeadSame(m, index, OnlyKid(m, p).value, key);
      }
    }
  }

  ghost function LeadOf(m: Mem, index: Index, root: Option<Ptr>): Option<Ptr>
    requires MemOk(m) && (root.Some? ==> Spliced(m, index, root.value))
  {
    if root.Some? then Lead(m, index, root.value) else None
  }

  /** A reader that starts at NULL, at a node in use or at one taken out since answers every address
      by the rules if and only if the first node in use it comes to is the root. */
  lemma RootExactly(m: Mem, index: Index, root: Option<Ptr>, w: nat)
    requires TrieOk(m, index) && DenseOk(m, index)
    requires root.Some? ==> Spliced(m, index, root.value) && |m.nodes[root.value].bits| == w
    ensures AnswersAll(m, index, root, w) <==> Get(m, Root(w)) == LeadOf(m, index, root)
  {
    var lead := LeadOf(m, index, root);
    forall key: Bits | |key| == w ensures AnswersAt(m, index, root, key) <==> AnswersAt(m, index, lead, key) {
      if root.Some? {
        LeadSame(m, index, root.value, key);
      }
    }
    LiveRootExactly(m, index, lead, w);
    if AnswersAll(m, index, root, w) {
      forall key: Bits | |key| == w ensures AnswersAt(m, index, lead, key) {
        assert AnswersAt(m, index, root, key);
      }
    }
    if AnswersAll(m, index, lead, w) {
      forall key: Bits | |key| == w ensures AnswersAt(m, index, root, key) {
        assert AnswersAt(m, index, lead, key);
      }
    }
  }

  /** Whatever such a reader finds is the longest match; only a NULL can be wrong. */
  lemma FoundIsLongest(m: Mem, index: Index, r: Ptr, key: Bits)
    requires TrieOk(m, index) && Spliced(m, index, r) && |m.nodes[r].bits| == |key|
    ensures var found := Best(m, Some(r), key);
            found.Some? ==> PeerAt(m, found) == LongestMatch(RulesOf(m, index), key)
  {
    LeadSame(m, index, r, key);
    var lead := Lead(m, index, r);
    if lead.Some? {
      MatchesIsPrefix(m.nodes[lead.value], key);
      if Matches(m.nodes[lead.value], key) {
        BestFromNode(m, index, lead.value, key);
      }
    }
  }

  // ----- and stays so --------------------------------------------------------------------

  predicate SameFields(n: Node, n': Node) {
    n'.cidr == n.cidr && n'.bits == n.bits
  }

  /** An update leaves alone what is out of use, and takes nodes out only in this way. */
  ghost predicate Gentle(m: Mem, index: Index, m': Mem, index': Index)
    requires MemOk(m')
  {
    && (forall q :: q in m.nodes ==> q in m'.nodes && SameFields(m.nodes[q], m'.nodes[q]))
    && (forall q :: q in m.nodes && !Live(m, index, q) ==>
          m'.nodes[q].peer == m.nodes[q].peer && forall b: bool :: Get(m', Child(q, b)) == Get(m, Child(q, b)))
    && (forall q :: Live(m, index, q) ==> Spliced(m', index', q))
  }

  lemma {:induction false} SplicedStays(m: Mem, index: Index, m': Mem, index': Index, p: Ptr)
    requires MemOk(m) && MemOk(m') && Gentle(m, index, m', index') && Spliced(m, index, p)
    ensures Spliced(m', index', p)
    decreases |m.nodes[p].bits| - m.nodes[p].cidr
  {
    if !Live(m, index, p) {
      var c := OnlyKid(m, p);
      assert Get(m', Child(p, false)) == Get(m, Child(p, false)) && Get(m', Child(p, true)) == Get(m, Child(p, true));
      assert OnlyKid(m', p) == c;
      if c.Some? {
        SplicedStays(m, index, m', index', c.value);
      }
    }
  }

  lemma LeafGentle(m: Mem, index: Index, p: Ptr, n: Node)
    requires TrieOk(m, index) && Fresh(m, index, p, n) && Get(m, n.parent) == None
    ensures MemOk(Leaf(m, p, n)) && Gentle(m, index, Leaf(m, p, n), index[PrefixOf(n) := p])
  {
    LeafStoreOk(m, index, p, n);
    FreshLive(m, Leaf(m, p, n), index, index[PrefixOf(n) := p], p, n);
  }

  lemma AboveGentle(m: Mem, index: Index, p: Ptr, n: Node, b: bool, d: Ptr)
    requires TrieOk(m, index) && Fresh(m, index, p, n) && Get(m, n.parent) == Some(d)
    requires Live(m, index, d) && Extends(n, b, m.nodes[d])
    ensures MemOk(Above(m, p, n, b, d)) && Gentle(m, index, Above(m, p, n, b, d), index[PrefixOf(n) := p])
  {
    var m', index' := Above(m, p, n, b, d), index[PrefixOf(n) := p];
    AboveStoreOk(m, index, p, n, b, d);
    FreshLive(m, m', index, index', p, n);
    forall q | q in m.nodes && !Live(m, index, q) ensures m'.nodes[q].peer == m.nodes[q].peer {
      assert q != p && q != d;
    }
    forall q, c: bool | q in m.nodes && !Live(m, index, q) ensures Get(m', Child(q, c)) == Get(m, Child(q, c)) {
      assert Child(q, c) != n.parent && q != p;
    }
  }

  lemma PeerGentle(m: Mem, index: Index, p: Ptr, v: Option<Peer>)
    requires TrieOk(m, index) && Live(m, index, p)
    ensures MemOk(SetPeer(m, p, v)) && Gentle(m, index, SetPeer(m, p, v), index)
  {
    PeerStoreOk(m, index, p, v);
  }

  lemma SplicedKid(m: Mem, index: Index, p: Ptr)
    requires TrieOk(m, index) && CanSplice(m, index, p)
    ensures var b := Child(p, false) !in m.cells;
            OnlyKid(m, p).Some? ==> Extends(m.nodes[p], b, m.nodes[OnlyKid(m, p).value]) && OnlyKid(m, p).value != p
  {
    var s := Child(p, Child(p, false) !in m.cells);
    if s in m.cells {
      assert DownAt(m, index, s) && UpAt(m, index, m.cells[s]);
    }
  }

  /** The node taken out keeps its pointer to the child that took its place. */
  lemma TakenOut(m: Mem, index: Index, p: Ptr)
    requires TrieOk(m, index) && CanSplice(m, index, p) && m.nodes[p].peer == None
    ensures MemOk(Splice(m, p)) && Spliced(Splice(m, p), index - {PrefixOf(m.nodes[p])}, p)
  {
    var m', c := Splice(m, p), OnlyKid(m, p);
    SpliceStoreOk(m, index, p);
    SplicedKid(m, index, p);
    assert UpAt(m, index, p);
    assert OnlyKid(m', p) == c;
  }

  lemma SpliceGentle(m: Mem, index: Index, p: Ptr)
    requires TrieOk(m, index) && CanSplice(m, index, p) && m.nodes[p].peer == None
    ensures MemOk(Splice(m, p)) && Gentle(m, index, Splice(m, p), index - {PrefixOf(m.nodes[p])})
  {
    var m', index' := Splice(m, p), index - {PrefixOf(m.nodes[p])};
    SpliceStoreOk(m, index, p);
    TakenOut(m, index, p);
    assert UpAt(m, index, p);
    forall q, b: bool | q in m.nodes && !Live(m, index, q) ensures Get(m', Child(q, b)) == Get(m, Child(q, b)) {
      assert Child(q, b) != m.nodes[p].parent;
    }
  }

  /** Every node in use or taken out before is so afterwards.  Folded like the table's invariant. */
  ghost predicate Keeps(m: Mem, index: Index, m': Mem, index': Index) {
    forall z {:trigger Opened(z)} :: Opened(z) ==>
      && MemOk(m) && MemOk(m')
      && forall p {:trigger Spliced(m', index', p)} :: Spliced(m, index, p) ==> KeptAt(m, m', index', p)
  }

  ghost predicate KeptAt(m: Mem, m': Mem, index': Index, p: Ptr)
    requires MemOk(m')
  {
    Spliced(m', index', p) && p in m.nodes && SameFields(m.nodes[p], m'.nodes[p])
  }

  lemma KeepsMeans(m: Mem, index: Index, m': Mem, index': Index, p: Ptr)
    requires Keeps(m, index, m', index')
    ensures MemOk(m) && MemOk(m') && (Spliced(m, index, p) ==> KeptAt(m, m', index', p))
  {
    assert Opened(true);
    assert Spliced(m, index, p) ==> KeptAt(m, m', index', p) by {
      var _ := Spliced(m', index', p);
    }
  }

  lemma GentleKeeps(m: Mem, index: Index, m': Mem, index': Index)
    requires MemOk(m) && MemOk(m') && Gentle(m, index, m', index')
    ensures Keeps(m, index, m', index')
  {
    forall p | Spliced(m, index, p) ensures KeptAt(m, m', index', p) {
      SplicedStays(m, index, m', index', p);
    }
  }

  lemma KeepsSame(m: Mem, index: Index)
    requires MemOk(m)
    ensures Keeps(m, index, m, index)
  {
  }

  lemma KeepsThen(m: Mem, index: Index, m': Mem, index': Index, m'': Mem, index'': Index)
    requires Keeps(m, index, m', index') && Keeps(m', index', m'', index'')
    ensures Keeps(m, index, m'', index'')
  {
    KeepsMeans(m, index, m', index', 0);
    KeepsMeans(m', index', m'', index'', 0);
    forall p | Spliced(m, index, p) ensures KeptAt(m, m'', index'', p) {
      KeepsMeans(m, index, m', index', p);
      KeepsMeans(m', index', m'', index'', p);
    }
  }

  // ----- through the updates of the table ------------------------------------------------

  lemma LeafKeeps(m: Mem, index: Index, lists: Lists, key: Bits, cidr: nat, peer: Peer, p: Ptr, parent: Option<Ptr>)
    requires TableOk(m, index, lists) && p !in m.nodes && Placed(m, index, key, cidr, parent)
    requires SlotFor(m, parent, key) !in m.cells
    ensures var a, s := NewNode(m, p, NodeFor(key, cidr, Some(peer))), SlotFor(m, parent, key);
            Keeps(m, index, Connect(a, s, p), Plus(index, Prefix(|key|, key[..cidr]), p))
  {
    var n, s := NodeFor(key, cidr, Some(peer)), SlotFor(m, parent, key);
    TableIs(m, index, lists);
    PlacedFits(m, index, key, parent, cidr, n.(parent := s));
    assert PrefixOf(n) == Prefix(|key|, key[..cidr]);
    LeafSame(m, p, n, s);
    LeafGentle(m, index, p, n.(parent := s));
    GentleKeeps(m, index, Leaf(m, p, n.(parent := s)), Plus(index, PrefixOf(n), p));
  }

  lemma AboveKeeps(m: Mem, index: Index, lists: Lists, key: Bits, cidr: nat, peer: Peer, p: Ptr, parent: Option<Ptr>,
                   d: Ptr)
    requires TableOk(m, index, lists) && p !in m.nodes && Placed(m, index, key, cidr, parent)
    requires Get(m, SlotFor(m, parent, key)) == Some(d) && CommonBits(m.nodes[d].bits, key) >= cidr
    ensures cidr < |m.nodes[d].bits|
    ensures var n, s, b := NodeFor(key, cidr, Some(peer)), SlotFor(m, parent, key), Child(p, m.nodes[d].bits[cidr]);
            Keeps(m, index, AboveMem(m, p, n, b, d, s), Plus(index, Prefix(|key|, key[..cidr]), p))
  {
    var n, s := NodeFor(key, cidr, Some(peer)), SlotFor(m, parent, key);
    TableIs(m, index, lists);
    AboveExtends(m, index, key, cidr, peer, parent, d);
    var bit := m.nodes[d].bits[cidr];
    AboveSame(m, p, n, bit, d, s);
    AboveGentle(m, index, p, n.(parent := s), bit, d);
    GentleKeeps(m, index, Above(m, p, n.(parent := s), bit, d), Plus(index, Prefix(|key|, key[..cidr]), p));
  }

  lemma SplitKeepsMem(m: Mem, index: Index, lists: Lists, r: Ptr, g: Node, b: bool, d: Ptr, p: Ptr, n: Node)
    requires TableParts(m, index, lists) && Fresh(m, index, r, g) && Get(m, g.parent) == Some(d) && g.peer == None
    requires Live(m, index, d) && Extends(g, b, m.nodes[d])
    requires p !in m.nodes && p != r && NodeOk(n) && PrefixOf(n) !in index && n.parent == Child(r, !b)
             && Extends(g, !b, n)
    ensures Keeps(m, index, Leaf(Above(m, r, g, b, d), p, n), TwoMore(index, PrefixOf(g), r, PrefixOf(n), p))
  {
    var m1, index1 := Above(m, r, g, b, d), Plus(index, PrefixOf(g), r);
    SplitMiddle(m, index, lists, r, g, b, d);
    assert |PrefixOf(g).bits| != |PrefixOf(n).bits|;
    AboveGentle(m, index, r, g, b, d);
    GentleKeeps(m, index, m1, index1);
    LeafGentle(m1, index1, p, n);
    GentleKeeps(m1, index1, Leaf(m1, p, n), Plus(index1, PrefixOf(n), p));
    KeepsThen(m, index, m1, index1, Leaf(m1, p, n), Plus(index1, PrefixOf(n), p));
  }

  lemma SplitKeeps(m: Mem, index: Index, lists: Lists, key: Bits, cidr: nat, peer: Peer, p: Ptr, r: Ptr,
                   parent: Option<Ptr>, d: Ptr)
    requires TableOk(m, index, lists) && p !in m.nodes && r !in m.nodes && p != r && Placed(m, index, key, cidr, parent)
    requires Get(m, SlotFor(m, parent, key)) == Some(d) && CommonBits(m.nodes[d].bits, key) < cidr
    ensures var s, k := SlotFor(m, parent, key), CommonBits(m.nodes[d].bits, key);
            var n, g, x := NodeFor(key, cidr, Some(peer)), NodeFor(key, k, None), Prefix(|key|, key[..cidr]);
            Keeps(m, index, SplitMem(m, p, n, r, g, key[k], d, s), TwoMore(index, Prefix(|key|, key[..k]), r, x, p))
  {
    var s, k := SlotFor(m, parent, key), CommonBits(m.nodes[d].bits, key);
    var n, g := NodeFor(key, cidr, Some(peer)), NodeFor(key, k, None);
    TableIs(m, index, lists);
    SplitExtends(m, index, key, cidr, peer, parent, d, r);
    assert s.Child? ==> s.parent != r by { assert CellOk(m, s); }
    SplitLast(m, p, n, r, g, key[k], d, s);
    SplitKeepsMem(m, index, lists, r, g.(parent := s), !key[k], d, p, n.(parent := Child(r, key[k])));
  }

  /** The stores of an insertion with a branch node have been made.  Folded like the table's invariant. */
  ghost predicate SplitMade(m: Mem, p: Ptr, n: Node, r: Ptr, g: Node, b: bool, d: Ptr, s: Slot, m': Mem,
                            trace: seq<Mem>)
    requires d in m.nodes
  {
    forall z {:trigger Opened(z)} :: Opened(z) ==>
      m' == SplitMem(m, p, n, r, g, b, d, s) && trace == SplitTrace(m, p, n, r, g, b, d, s)
  }

  lemma SplitMadeOk(m: Mem, index: Index, lists: Lists, key: Bits, cidr: nat, peer: Peer, p: Ptr, r: Ptr,
                    parent: Option<Ptr>, d: Ptr, m': Mem, trace: seq<Mem>)
    requires TableOk(m, index, lists) && p !in m.nodes && r !in m.nodes && p != r && Placed(m, index, key, cidr, parent)
    requires Get(m, SlotFor(m, parent, key)) == Some(d) && CommonBits(m.nodes[d].bits, key) < cidr
    requires var s, k := SlotFor(m, parent, key), CommonBits(m.nodes[d].bits, key);
             SplitMade(m, p, NodeFor(key, cidr, Some(peer)), r, NodeFor(key, k, None), key[k], d, s, m', trace)
    ensures var k, x := CommonBits(m.nodes[d].bits, key), Prefix(|key|, key[..cidr]);
            var index' := TwoMore(index, Prefix(|key|, key[..k]), r, x, p);
            Keeps(m, index, m', index') && Inserted(m, index, m', index', ListAddTail(lists, p, peer), trace, x, peer)
  {
    assert Opened(true);
    HangSplitOk(m, index, lists, key, cidr, peer, p, r, parent, d);
    SplitKeeps(m, index, lists, key, cidr, peer, p, r, parent, d);
  }

  lemma ExactKeeps(m: Mem, index: Index, lists: Lists, p: Ptr, v: Option<Peer>)
    requires TableOk(m, index, lists) && Live(m, index, p)
    ensures Keeps(m, index, SetPeer(m, p, v), index)
  {
    TableIs(m, index, lists);
    PeerGentle(m, index, p, v);
    GentleKeeps(m, index, SetPeer(m, p, v), index);
  }

  lemma SpliceKeeps(m: Mem, index: Index, lists: Lists, p: Ptr)
    requires Loose(m, index, lists, p) && !BothKids(m, p)
    ensures CanSplice(m, index, p) && Keeps(m, index, Splice(m, p), index - {PrefixOf(m.nodes[p])})
  {
    CanSpliceOk(m, index, lists, p);
    SpliceGentle(m, index, p);
    GentleKeeps(m, index, Splice(m, p), index - {PrefixOf(m.nodes[p])});
  }

  /** A round's last memory and index, by its splices. */
  lemma OneSplice(m: Mem, index: Index, p: Ptr)
    requires MemOk(m) && p in m.nodes && !BothKids(m, p) && Orphaned(m, p).None?
    ensures OnlyKid(m, p).Some? ==> OnlyKid(m, p).value in m.nodes
    ensures RoundEnd(m, p) == Splice(m, p) && RestIndex(m, index, p) == index - {PrefixOf(m.nodes[p])}
  {
    assert OnlyKid(m, p).Some? ==> CellOk(m, Child(p, Child(p, false) !in m.cells));
  }

  lemma TwoSplices(m: Mem, index: Index, p: Ptr, q: Ptr)
    requires MemOk(m) && p in m.nodes && !BothKids(m, p) && Orphaned(m, p) == Some(q)
    requires var m' := Splice(m, p);
             MemOk(m') && Get(m', Child(q, !m.nodes[p].parent.bit)) == OnlyKid(m', q)
    ensures var m', index' := Splice(m, p), index - {PrefixOf(m.nodes[p])};
            && q in m'.nodes && (OnlyKid(m', q).Some? ==> OnlyKid(m', q).value in m'.nodes)
            && RoundEnd(m, p) == Splice(m', q) && RestIndex(m, index, p) == index' - {PrefixOf(m'.nodes[q])}
  {
    var m' := Splice(m, p);
    assert OnlyKid(m', q).Some? ==> CellOk(m', Child(q, Child(q, false) !in m'.cells));
  }

  lemma RestKeepsTwo(m: Mem, index: Index, lists: Lists, p: Ptr)
    requires Loose(m, index, lists, p) && MemOk(m) && !BothKids(m, p) && Orphaned(m, p).Some?
    ensures Keeps(m, index, RoundEnd(m, p), RestIndex(m, index, p))
  {
    SpliceKeeps(m, index, lists, p);
    RemoveTwo(m, index, lists, p);
    var m', index', q := Splice(m, p), index - {PrefixOf(m.nodes[p])}, Orphaned(m, p).value;
    TwoSplices(m, index, p, q);
    SpliceKeeps(m', index', lists, q);
    KeepsThen(m, index, m', index', Splice(m', q), index' - {PrefixOf(m'.nodes[q])});
  }

  lemma RestKeeps(m: Mem, index: Index, lists: Lists, p: Ptr)
    requires Loose(m, index, lists, p) && MemOk(m)
    ensures Keeps(m, index, RoundEnd(m, p), RestIndex(m, index, p))
  {
    if BothKids(m, p) {
      KeepsSame(m, index);
    } else if Orphaned(m, p).Some? {
      RestKeepsTwo(m, index, lists, p);
    } else {
      SpliceKeeps(m, index, lists, p);
      OneSplice(m, index, p);
    }
  }

  lemma RoundKeeps(m: Mem, index: Index, lists: Lists, p: Ptr)
    requires TableOk(m, index, lists) && Live(m, index, p)
    ensures MemOk(SetPeer(m, p, None))
    ensures var m1 := SetPeer(m, p, None); Keeps(m, index, RoundEnd(m1, p), RestIndex(m1, index, p))
  {
    var m1 := SetPeer(m, p, None);
    ClearedOk(m, index, lists, p);
    ExactKeeps(m, index, lists, p, None);
    RestKeeps(m1, index, ListDel(lists, p), p);
    KeepsThen(m, index, m1, index, RoundEnd(m1, p), RestIndex(m1, index, p));
  }

  /** What a caller has read as the root is in use or taken out after the updates. */
  lemma OldRoot(m: Mem, index: Index, m': Mem, index': Index, w: nat)
    requires TrieOk(m, index) && Root(w) in m.cells && Keeps(m, index, m', index')
    ensures MemOk(m') && Spliced(m', index', m.cells[Root(w)]) && |m'.nodes[m.cells[Root(w)]].bits| == w
  {
    assert DownAt(m, index, Root(w)) && CellOk(m, Root(w));
    KeepsMeans(m, index, m', index', m.cells[Root(w)]);
  }

  // ----- a call that misses a rule -------------------------------------------------------

  function Zeroes(): Bits {
    seq(32, _ => false)
  }

  /** 0/8 for one peer, then 0/0 for another above it, then the first rule taken away again. */
  function First(a: Peer): Mem {
    Connect(NewNode(Mem(map[], map[]), 0, NodeFor(Zeroes(), 8, Some(a))), Root(32), 0)
  }

  function Second(a: Peer, b: Peer): Mem {
    AboveMem(First(a), 1, NodeFor(Zeroes(), 0, Some(b)), Child(1, false), 0, Root(32))
  }

  function Third(b: Peer): Mem {
    Mem(map[0 := Node(None, 8, Zeroes(), Child(1, false)), 1 := Node(Some(b), 0, Zeroes(), Root(32))],
        map[Root(32) := 1])
  }

  lemma FirstIs(a: Peer)
    ensures First(a) == Mem(map[0 := Node(Some(a), 8, Zeroes(), Root(32))], map[Root(32) := 0])
  {
  }

  lemma SecondIs(a: Peer, b: Peer)
    ensures Second(a, b) == Mem(map[0 := Node(Some(a), 8, Zeroes(), Child(1, false)),
                                    1 := Node(Some(b), 0, Zeroes(), Root(32))],
                                map[Root(32) := 1, Child(1, false) := 0])
  {
    FirstIs(a);
  }

  lemma ThirdIs(a: Peer, b: Peer)
    requires MemOk(SetPeer(Second(a, b), 0, None))
    ensures RoundEnd(SetPeer(Second(a, b), 0, None), 0) == Third(b)
  {
    SecondIs(a, b);
    var m := SetPeer(Second(a, b), 0, None);
    assert OnlyKid(m, 0) == None && Orphaned(m, 0) == None;
    assert RestTrace(m, 0) == [Put(m, Child(1, false), None)];
  }

  /** The rules by length, the index and the lists after the first two of these updates. */
  function Eight(): Prefix {
    Prefix(32, Zeroes()[..8])
  }

  function Whole(): Prefix {
    Prefix(32, Zeroes()[..0])
  }

  ghost function Index1(): Index {
    Plus(map[], Eight(), 0)
  }

  ghost function Index2(): Index {
    Plus(Index1(), Whole(), 1)
  }

  function Lists1(a: Peer): Lists {
    ListAddTail(map[], 0, a)
  }

  function Lists2(a: Peer, b: Peer): Lists {
    ListAddTail(Lists1(a), 1, b)
  }

  function Empty(): Mem {
    Mem(map[], map[])
  }

  function Trace1(a: Peer): seq<Mem> {
    LeafTrace(Empty(), 0, NodeFor(Zeroes(), 8, Some(a)), Root(32))
  }

  function Trace2(a: Peer, b: Peer): seq<Mem> {
    AboveTrace(First(a), 1, NodeFor(Zeroes(), 0, Some(b)), Child(1, false), 0, Root(32))
  }

  lemma FirstInserted(a: Peer)
    ensures Inserted(Empty(), map[], First(a), Index1(), Lists1(a), Trace1(a), Eight(), a)
  {
    TableIs(Empty(), map[], map[]);
    EmptyPlaced(Empty(), map[], map[], Zeroes(), 8);
    HangLeafOk(Empty(), map[], map[], Zeroes(), 8, a, 0, None);
  }

  lemma SecondPlaced(a: Peer)
    ensures Placed(First(a), Index1(), Zeroes(), 0, None) && First(a).cells == map[Root(32) := 0]
  {
    FirstIs(a);
    assert PrefixOf(First(a).nodes[0]) == Eight() && |Eight().bits| == 8 && |Whole().bits| == 0;
  }

  lemma SecondInserted(a: Peer, b: Peer)
    ensures Inserted(First(a), Index1(), Second(a, b), Index2(), Lists2(a, b), Trace2(a, b), Whole(), b)
  {
    assert TableOk(First(a), Index1(), Lists1(a)) by {
      FirstInserted(a);
      InsertedMeans(Empty(), map[], First(a), Index1(), Lists1(a), Trace1(a), Eight(), a);
    }
    SecondPlaced(a);
    HangAboveOk(First(a), Index1(), Lists1(a), Zeroes(), 0, b, 1, None, 0);
    assert First(a).nodes[0].bits[0] == false by { FirstIs(a); }
  }

  ghost function Index3(a: Peer, b: Peer): Index
    requires MemOk(SetPeer(Second(a, b), 0, None)) && 0 in Second(a, b).nodes
  {
    RestIndex(SetPeer(Second(a, b), 0, None), Index2(), 0)
  }

  lemma SecondRules(a: Peer, b: Peer)
    ensures TableOk(Second(a, b), Index2(), Lists2(a, b))
    ensures RulesOf(Second(a, b), Index2()) == map[Eight() := a][Whole() := b]
  {
    FirstInserted(a);
    InsertedMeans(Empty(), map[], First(a), Index1(), Lists1(a), Trace1(a), Eight(), a);
    assert RulesOf(Empty(), map[]) == map[];
    SecondInserted(a, b);
    InsertedMeans(First(a), Index1(), Second(a, b), Index2(), Lists2(a, b), Trace2(a, b), Whole(), b);
  }

  lemma TwoPrefixes()
    ensures Eight() != Whole() && |Eight().bits| == 8 && |Whole().bits| == 0
  {
  }

  lemma SecondNode(a: Peer, b: Peer)
    ensures Live(Second(a, b), Index2(), 0) && PrefixOf(Second(a, b).nodes[0]) == Eight()
  {
    SecondIs(a, b);
    TwoPrefixes();
  }

  lemma ThirdRemoved(a: Peer, b: Peer)
    ensures 0 in Second(a, b).nodes && MemOk(SetPeer(Second(a, b), 0, None))
    ensures var m1 := SetPeer(Second(a, b), 0, None);
            Removed(Second(a, b), Index2(), Third(b), Index3(a, b), ListDel(Lists2(a, b), 0), RoundTrace(m1, 0),
                    Eight())
  {
    SecondRules(a, b);
    SecondNode(a, b);
    RemoveOk(Second(a, b), Index2(), Lists2(a, b), 0);
    ThirdIs(a, b);
  }

  lemma OnlyWhole(b: Peer)
    ensures LongestMatch(map[Whole() := b], Zeroes()) == Some(b)
  {
    LpmSkip(map[Whole() := b], Zeroes(), 32, 0);
  }

  lemma ThirdRules(a: Peer, b: Peer)
    ensures 0 in Second(a, b).nodes && MemOk(SetPeer(Second(a, b), 0, None))
    ensures RulesOf(Third(b), Index3(a, b)) == RulesOf(Second(a, b), Index2()) - {Eight()} && MemOk(Third(b))
  {
    ThirdRemoved(a, b);
    var m1 := SetPeer(Second(a, b), 0, None);
    RemovedIs(Second(a, b), Index2(), Third(b), Index3(a, b), ListDel(Lists2(a, b), 0), RoundTrace(m1, 0), Eight());
    assert MemOk(Third(b)) by { TableIs(Third(b), Index3(a, b), ListDel(Lists2(a, b), 0)); }
  }

  lemma WithoutEight(a: Peer, b: Peer)
    ensures (map[Eight() := a][Whole() := b]) - {Eight()} == map[Whole() := b]
  {
    TwoPrefixes();
  }

  lemma ThirdShows(a: Peer, b: Peer)
    ensures 0 in Second(a, b).nodes && MemOk(SetPeer(Second(a, b), 0, None))
    ensures LongestMatch(RulesOf(Third(b), Index3(a, b)), Zeroes()) == Some(b) && MemOk(Third(b))
  {
    ThirdRules(a, b);
    SecondRules(a, b);
    WithoutEight(a, b);
    OnlyWhole(b);
  }

  /** A caller reads the root while there is the rule 0/8 only.  The rule 0/0 comes in above it, the
      walk finds 0/8, that rule is taken away, and the peer loaded is NULL: the call tries again from
      the node it was given and ends with NULL, although 0/0 covers the address all the while. */
  lemma RetryMisses(a: Peer, b: Peer, alive: set<Peer>)
    requires a != b
    ensures Inserted(Empty(), map[], First(a), Index1(), Lists1(a), Trace1(a), Eight(), a)
    ensures Inserted(First(a), Index1(), Second(a, b), Index2(), Lists2(a, b), Trace2(a, b), Whole(), b)
    ensures 0 in Second(a, b).nodes && MemOk(SetPeer(Second(a, b), 0, None))
    ensures Removed(Second(a, b), Index2(), Third(b), Index3(a, b), ListDel(Lists2(a, b), 0),
                    RoundTrace(SetPeer(Second(a, b), 0, None), 0), Eight())
    ensures var root, once, again := Get(First(a), Root(32)), Attempt(Second(a, b), Third(b), alive),
            Attempt(Third(b), Third(b), alive);
            && AttemptOk(once, root, Zeroes()) && VerdictOf(once, root, Zeroes()) == Again
            && AttemptOk(again, root, Zeroes()) && VerdictOf(again, root, Zeroes()) == Decided(None)
    ensures LongestMatch(RulesOf(Third(b), Index3(a, b)), Zeroes()) == Some(b)
  {
    FirstInserted(a);
    SecondInserted(a, b);
    ThirdRemoved(a, b);
    ThirdShows(a, b);
    FirstIs(a);
    SecondFinds(a, b);
    ThirdFinds(b);
  }

  /** A node without children can only find itself. */
  lemma NoKids(m: Mem, p: Ptr, key: Bits)
    requires MemOk(m) && StartOk(m, Some(p), key) && Child(p, false) !in m.cells && Child(p, true) !in m.cells
    ensures Best(m, Some(p), key) == if Matches(m.nodes[p], key) && m.nodes[p].peer.Some? then Some(p) else None
  {
    if m.nodes[p].cidr < |key| {
      var s := Child(p, key[m.nodes[p].cidr]);
      assert s !in m.cells;
      assert BestAt(m, s, key) == Best(m, None, key) == None;
    }
  }

  lemma SecondFinds(a: Peer, b: Peer)
    ensures MemOk(Second(a, b)) && StartOk(Second(a, b), Some(0), Zeroes())
            && Best(Second(a, b), Some(0), Zeroes()) == Some(0)
  {
    assert MemOk(Second(a, b)) by {
      SecondRules(a, b);
      TableIs(Second(a, b), Index2(), Lists2(a, b));
    }
    SecondIs(a, b);
    NoKids(Second(a, b), 0, Zeroes());
    MatchesIsPrefix(Second(a, b).nodes[0], Zeroes());
  }

  lemma ThirdFinds(b: Peer)
    requires MemOk(Third(b))
    ensures StartOk(Third(b), Some(0), Zeroes()) && Best(Third(b), Some(0), Zeroes()) == None
  {
    NoKids(Third(b), 0, Zeroes());
  }
}
