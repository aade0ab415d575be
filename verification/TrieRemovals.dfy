/** What the removals of allowedips.c leave behind: a node that loses its peer, the splicing of
    nodes that are no longer needed, and all of a peer's nodes. */
module TrieRemovals {
  import opened Common
  import opened Trie
  import opened TrieStores
  import opened TrieUpdates

  // ----- a node loses its peer -----------------------------------------------------------

  /** Dense everywhere but perhaps at p. */
  ghost predicate DenseExcept(m: Mem, index: Index, p: Ptr) {
    forall q :: Live(m, index, q) && q != p ==> Dense(m, q)
  }

  /** A table with a peerless node in it that may have to go. */
  ghost predicate Loose(m: Mem, index: Index, lists: Lists, p: Ptr) {
    && TrieOk(m, index) && ListsOk(m, index, lists) && DenseExcept(m, index, p)
    && Live(m, index, p) && m.nodes[p].peer == None
  }

  lemma DropAt(m: Mem, index: Index, lists: Lists, p: Ptr, k: Peer, q: Ptr)
    requires Live(m, index, p) && OwnAt(m, index, lists, k, q)
    ensures OwnAt(SetPeer(m, p, None), index, ListDel(lists, p), k, q)
  {
    ListDelIs(lists, p, k);
    WithoutIs(ListOf(lists, k), p);
  }

  lemma DropsDistinct(lists: Lists, p: Ptr)
    requires ListsDistinct(lists)
    ensures ListsDistinct(ListDel(lists, p))
  {
    forall k: Peer ensures Distinct(ListOf(ListDel(lists, p), k)) {
      ListDelIs(lists, p, k);
      WithoutIs(ListOf(lists, k), p);
    }
  }

  lemma ListsDrop(m: Mem, index: Index, lists: Lists, p: Ptr)
    requires ListsOk(m, index, lists) && Live(m, index, p)
    ensures ListsOk(SetPeer(m, p, None), index, ListDel(lists, p))
  {
    DropsDistinct(lists, p);
    DropsOwn(m, index, lists, p);
  }

  lemma DropsOwn(m: Mem, index: Index, lists: Lists, p: Ptr)
    requires ListsOwn(m, index, lists) && Live(m, index, p)
    ensures ListsOwn(SetPeer(m, p, None), index, ListDel(lists, p))
  {
    var m', lists' := SetPeer(m, p, None), ListDel(lists, p);
    forall k: Peer, q: Ptr ensures OwnAt(m', index, lists', k, q) {
      assert OwnAt(m, index, lists, k, q);
      DropAt(m, index, lists, p, k, q);
    }
  }

  lemma DropPeerOk(m: Mem, index: Index, lists: Lists, p: Ptr)
    requires TableParts(m, index, lists) && Live(m, index, p)
    ensures Loose(SetPeer(m, p, None), index, ListDel(lists, p), p)
    ensures RulesOf(SetPeer(m, p, None), index) == RulesOf(m, index) - {PrefixOf(m.nodes[p])}
  {
    PeerStoreOk(m, index, p, None);
    PeerStoreRules(m, index, p, None);
    ListsDrop(m, index, lists, p);
  }

  // ----- a peerless node is spliced out --------------------------------------------------

  lemma CanSpliceOk(m: Mem, index: Index, lists: Lists, p: Ptr)
    requires Loose(m, index, lists, p) && !(Child(p, false) in m.cells && Child(p, true) in m.cells)
    ensures CanSplice(m, index, p)
  {
    var s := Child(p, Child(p, false) !in m.cells);
    assert s in m.cells ==> DownAt(m, index, s);
  }

  lemma SpliceLists(m: Mem, m': Mem, index: Index, index': Index, lists: Lists, p: Ptr)
    requires ListsOk(m, index, lists) && Live(m, index, p) && m.nodes[p].peer == None
    requires forall q :: Live(m', index', q) <==> q != p && Live(m, index, q)
    requires forall q :: q in m.nodes ==> q in m'.nodes && m'.nodes[q].peer == m.nodes[q].peer
    ensures ListsOk(m', index', lists)
  {
    forall k: Peer, q: Ptr ensures OwnAt(m', index', lists, k, q) {
      assert OwnAt(m, index, lists, k, q);
    }
  }

  /** The node above, when it has neither a peer nor, any more, a child on this side. */
  function Orphaned(m: Mem, p: Ptr): Option<Ptr>
    requires p in m.nodes
  {
    var s := m.nodes[p].parent;
    if OnlyKid(m, p).None? && s.Child? && s.parent in m.nodes && m.nodes[s.parent].peer.None? then Some(s.parent)
    else None
  }

  lemma SpliceDense(m: Mem, index: Index, p: Ptr)
    requires TrieOk(m, index) && CanSplice(m, index, p) && DenseExcept(m, index, p)
    ensures var m', index', up := Splice(m, p), index - {PrefixOf(m.nodes[p])}, Orphaned(m, p);
            && (up.None? ==> DenseOk(m', index'))
            && (up.Some? ==>
                  && Live(m, index, up.value) && up.value != p && DenseExcept(m', index', up.value)
                  && Child(up.value, m.nodes[p].parent.bit) !in m'.cells
                     && Child(up.value, !m.nodes[p].parent.bit) in m'.cells)
  {
    var m', index' := Splice(m, p), index - {PrefixOf(m.nodes[p])};
    SpliceStoreOk(m, index, p);
    assert UpAt(m, index, p);
    forall q: Ptr | Live(m', index', q) && Some(q) != Orphaned(m, p) ensures Dense(m', q) {
      assert Dense(m, q);
    }
    if Orphaned(m, p).Some? {
      assert Dense(m, Orphaned(m, p).value);
    }
  }

  lemma SpliceOk(m: Mem, index: Index, lists: Lists, p: Ptr)
    requires Loose(m, index, lists, p) && CanSplice(m, index, p)
    ensures var m', index', up := Splice(m, p), index - {PrefixOf(m.nodes[p])}, Orphaned(m, p);
            && RulesOf(m', index') == RulesOf(m, index)
            && (up.None? ==> TableParts(m', index', lists))
            && (up.Some? ==>
                  && Loose(m', index', lists, up.value)
                  && Child(up.value, m.nodes[p].parent.bit) !in m'.cells
                     && Child(up.value, !m.nodes[p].parent.bit) in m'.cells)
  {
    var m', index' := Splice(m, p), index - {PrefixOf(m.nodes[p])};
    SpliceStoreOk(m, index, p);
    SpliceRules(m, index, p);
    SpliceDense(m, index, p);
    SpliceLists(m, m', index, index', lists, p);
  }

  // ----- one removal, store by store -----------------------------------------------------

  ghost predicate AllShow(seen: seq<Mem>, rules: Rules) {
    forall i :: 0 <= i < |seen| ==> Shows(seen[i], rules)
  }

  predicate BothKids(m: Mem, p: Ptr) {
    Child(p, false) in m.cells && Child(p, true) in m.cells
  }

  /** Node p makes way for c in slot s. */
  function ReplaceTrace(m: Mem, s: Slot, c: Option<Ptr>): seq<Mem>
    requires c.Some? ==> c.value in m.nodes
  {
    if c.Some? then [SetParent(m, c.value, s), Put(SetParent(m, c.value, s), s, c)] else [Put(m, s, c)]
  }

  /** The stores of one round of `wg_allowedips_remove_by_peer` after the peer is cleared. */
  ghost function RestTrace(m: Mem, p: Ptr): seq<Mem>
    requires MemOk(m) && p in m.nodes
  {
    if BothKids(m, p) then []
    else
      var s, c := m.nodes[p].parent, OnlyKid(m, p);
      assert c.Some? ==> CellOk(m, Child(p, Child(p, false) !in m.cells));
      var m' := Splice(m, p);
      if Orphaned(m, p).None? then ReplaceTrace(m, s, c)
      else
        var q := s.parent;
        var k := Get(m', Child(q, !s.bit));
        assert k.Some? ==> CellOk(m, Child(q, !s.bit));
        ReplaceTrace(m, s, c) + ReplaceTrace(m', m'.nodes[q].parent, k)
  }

  lemma ReplaceStores(m: Mem, s: Slot, c: Option<Ptr>)
    requires c.Some? ==> c.value in m.nodes
    ensures var t := ReplaceTrace(m, s, c); Stores(m, t, t[|t| - 1])
  {
    if c.Some? {
      ConnectStores(m, s, c.value);
    } else {
      OneStore(m, Point(s, None));
    }
  }

  lemma RestStores(m: Mem, p: Ptr)
    requires MemOk(m) && p in m.nodes
    ensures var t := RestTrace(m, p); Stores(m, t, if t == [] then m else t[|t| - 1])
  {
    if !BothKids(m, p) {
      var s, c := m.nodes[p].parent, OnlyKid(m, p);
      assert c.Some? ==> CellOk(m, Child(p, Child(p, false) !in m.cells));
      ReplaceStores(m, s, c);
      if Orphaned(m, p).Some? {
        var m', q := Splice(m, p), s.parent;
        var k := Get(m', Child(q, !s.bit));
        assert k.Some? ==> CellOk(m, Child(q, !s.bit));
        ReplaceStores(m', m'.nodes[q].parent, k);
        var t, u := ReplaceTrace(m, s, c), ReplaceTrace(m', m'.nodes[q].parent, k);
        StoresThen(m, t, m', u, u[|u| - 1]);
      }
    }
  }

  /** What is in use afterwards. */
  ghost function RestIndex(m: Mem, index: Index, p: Ptr): Index
    requires MemOk(m) && p in m.nodes
  {
    var index', up := index - {PrefixOf(m.nodes[p])}, Orphaned(m, p);
    if BothKids(m, p) then index
    else if up.None? then index' else index' - {PrefixOf(m.nodes[up.value])}
  }

  lemma SpliceTrace(m: Mem, index: Index, lists: Lists, p: Ptr)
    requires Loose(m, index, lists, p) && CanSplice(m, index, p)
    ensures AllShow(ReplaceTrace(m, m.nodes[p].parent, OnlyKid(m, p)), RulesOf(m, index))
    ensures var t := ReplaceTrace(m, m.nodes[p].parent, OnlyKid(m, p)); t[|t| - 1] == Splice(m, p)
  {
    SpliceOk(m, index, lists, p);
    TrieShows(Splice(m, p), index - {PrefixOf(m.nodes[p])});
    if OnlyKid(m, p).Some? {
      UnseenParent(m, index, m, OnlyKid(m, p).value, m.nodes[p].parent);
      UnseenShows(m, index, SetParent(m, OnlyKid(m, p).value, m.nodes[p].parent));
    }
  }

  lemma OtherKid(m: Mem, q: Ptr, b: bool)
    requires Child(q, b) !in m.cells && Child(q, !b) in m.cells
    ensures Get(m, Child(q, !b)) == OnlyKid(m, q) && !BothKids(m, q)
  {
  }

  ghost predicate Removed(m0: Mem, index0: Index, m: Mem, index: Index, lists: Lists, seen: seq<Mem>, x: Prefix) {
    forall z {:trigger Opened(z)} :: Opened(z) ==>
      && TableOk(m, index, lists) && RulesOf(m, index) == RulesOf(m0, index0) - {x}
      && AllShow(seen, RulesOf(m, index)) && Stores(m0, seen, m)
  }

  lemma RemovedIs(m0: Mem, index0: Index, m: Mem, index: Index, lists: Lists, seen: seq<Mem>, x: Prefix)
    ensures Removed(m0, index0, m, index, lists, seen, x) <==>
            && TableOk(m, index, lists) && RulesOf(m, index) == RulesOf(m0, index0) - {x}
            && AllShow(seen, RulesOf(m, index)) && Stores(m0, seen, m)
  {
    assert Opened(true);
  }

  lemma RemoveOne(m: Mem, index: Index, lists: Lists, p: Ptr)
    requires Loose(m, index, lists, p) && !BothKids(m, p)
    ensures CanSplice(m, index, p)
    ensures var t := ReplaceTrace(m, m.nodes[p].parent, OnlyKid(m, p));
            t[|t| - 1] == Splice(m, p) && AllShow(t, RulesOf(m, index))
    ensures Orphaned(m, p).None? ==> TableOk(Splice(m, p), index - {PrefixOf(m.nodes[p])}, lists)
    ensures RulesOf(Splice(m, p), index - {PrefixOf(m.nodes[p])}) == RulesOf(m, index)
  {
    CanSpliceOk(m, index, lists, p);
    SpliceTrace(m, index, lists, p);
    SpliceOk(m, index, lists, p);
    TableIs(Splice(m, p), index - {PrefixOf(m.nodes[p])}, lists);
  }

  lemma RemoveTwo(m: Mem, index: Index, lists: Lists, p: Ptr)
    requires Loose(m, index, lists, p) && !BothKids(m, p) && Orphaned(m, p).Some? && CanSplice(m, index, p)
    ensures var m', index', q := Splice(m, p), index - {PrefixOf(m.nodes[p])}, Orphaned(m, p).value;
            && Loose(m', index', lists, q) && !BothKids(m', q) && Orphaned(m', q) == None
            && Get(m', Child(q, !m.nodes[p].parent.bit)) == OnlyKid(m', q)
  {
    SpliceOk(m, index, lists, p);
    OtherKid(Splice(m, p), Orphaned(m, p).value, m.nodes[p].parent.bit);
  }

  /** The memory after a round's last store, and all its stores. */
  ghost function RoundEnd(m: Mem, p: Ptr): Mem
    requires MemOk(m) && p in m.nodes
  {
    var t := RestTrace(m, p);
    if t == [] then m else t[|t| - 1]
  }

  ghost function RoundTrace(m: Mem, p: Ptr): seq<Mem>
    requires MemOk(m) && p in m.nodes
  {
    [m] + RestTrace(m, p)
  }

  lemma RestTwo(m: Mem, index: Index, lists: Lists, p: Ptr)
    requires Loose(m, index, lists, p) && MemOk(m) && !BothKids(m, p) && Orphaned(m, p).Some?
    ensures TableOk(RoundEnd(m, p), RestIndex(m, index, p), lists)
    ensures RulesOf(RoundEnd(m, p), RestIndex(m, index, p)) == RulesOf(m, index)
            && AllShow(RestTrace(m, p), RulesOf(m, index))
  {
    RemoveOne(m, index, lists, p);
    RemoveTwo(m, index, lists, p);
    var m', q := Splice(m, p), Orphaned(m, p).value;
    RemoveOne(m', index - {PrefixOf(m.nodes[p])}, lists, q);
    AllShowJoin(ReplaceTrace(m, m.nodes[p].parent, OnlyKid(m, p)), ReplaceTrace(m', m'.nodes[q].parent, OnlyKid(m', q)),
                RulesOf(m, index));
  }

  lemma AllShowJoin(a: seq<Mem>, b: seq<Mem>, rules: Rules)
    requires AllShow(a, rules) && AllShow(b, rules)
    ensures AllShow(a + b, rules)
  {
  }

  lemma RemoveRest(m: Mem, index: Index, lists: Lists, p: Ptr)
    requires Loose(m, index, lists, p) && MemOk(m)
    ensures TableOk(RoundEnd(m, p), RestIndex(m, index, p), lists)
    ensures RulesOf(RoundEnd(m, p), RestIndex(m, index, p)) == RulesOf(m, index)
            && AllShow(RestTrace(m, p), RulesOf(m, index))
  {
    if BothKids(m, p) {
      TableIs(m, index, lists);
    } else if Orphaned(m, p).Some? {
      RestTwo(m, index, lists, p);
    } else {
      RemoveOne(m, index, lists, p);
    }
  }

  lemma RoundStores(m: Mem, p: Ptr)
    requires p in m.nodes && MemOk(SetPeer(m, p, None))
    ensures var m1 := SetPeer(m, p, None);
            Stores(m, RoundTrace(m1, p), RoundEnd(m1, p))
  {
    var m1 := SetPeer(m, p, None);
    OneStore(m, Own(p, None));
    RestStores(m1, p);
    StoresThen(m, [m1], m1, RestTrace(m1, p), RoundEnd(m1, p));
  }

  lemma ClearedOk(m: Mem, index: Index, lists: Lists, p: Ptr)
    requires TableOk(m, index, lists) && Live(m, index, p)
    ensures var m1 := SetPeer(m, p, None);
            && Loose(m1, index, ListDel(lists, p), p)
               && RulesOf(m1, index) == RulesOf(m, index) - {PrefixOf(m.nodes[p])}
            && Shows(m1, RulesOf(m1, index)) && MemOk(m1)
    ensures m.nodes[p].parent.Child? ==> m.nodes[p].parent.parent in m.nodes
  {
    TableIs(m, index, lists);
    assert UpAt(m, index, p);
    DropPeerOk(m, index, lists, p);
    TrieShows(SetPeer(m, p, None), index);
  }

  lemma RemoveOk(m: Mem, index: Index, lists: Lists, p: Ptr)
    requires TableOk(m, index, lists) && Live(m, index, p)
    ensures MemOk(SetPeer(m, p, None)) && (m.nodes[p].parent.Child? ==> m.nodes[p].parent.parent in m.nodes)
    ensures var m1 := SetPeer(m, p, None);
            Removed(m, index, RoundEnd(m1, p), RestIndex(m1, index, p), ListDel(lists, p), RoundTrace(m1, p),
                    PrefixOf(m.nodes[p]))
  {
    var m1 := SetPeer(m, p, None);
    ClearedOk(m, index, lists, p);
    RoundStores(m, p);
    RemoveRest(m1, index, ListDel(lists, p), p);
    RemovedIs(m, index, RoundEnd(m1, p), RestIndex(m1, index, p), ListDel(lists, p), RoundTrace(m1, p),
              PrefixOf(m.nodes[p]));
  }

  // ----- all of a peer's nodes -----------------------------------------------------------

  lemma WithoutFirst(s: seq<Ptr>)
    requires s != [] && Distinct(s)
    ensures Without(s, s[0]) == s[1..]
  {
    assert s[0] !in s[1..];
    WithoutAbsent(s[1..], s[0]);
  }

  /** The rules without those of one peer. */
  function RulesWithout(rules: Rules, peer: Peer): Rules {
    map x | x in rules && rules[x] != peer :: rules[x]
  }

  /** Some of the peer's rules are gone, and no other. */
  predicate Shrunk(rules: Rules, before: Rules, peer: Peer) {
    && (forall x :: x in rules ==> x in before && rules[x] == before[x])
    && (forall x :: x in before && before[x] != peer ==> x in rules)
  }

  lemma ShrunkMore(rules: Rules, x: Prefix, before: Rules, peer: Peer)
    requires Shrunk(rules, before, peer) && x in rules && rules[x] == peer
    ensures Shrunk(rules - {x}, before, peer)
  {
  }

  lemma RuleOfNode(m: Mem, index: Index, lists: Lists, peer: Peer, p: Ptr)
    requires TableOk(m, index, lists) && p in ListOf(lists, peer)
    ensures Live(m, index, p) && m.nodes[p].peer == Some(peer) && MemOk(m) && Distinct(ListOf(lists, peer))
    ensures var x := PrefixOf(m.nodes[p]); x in RulesOf(m, index) && RulesOf(m, index)[x] == peer
  {
    TableIs(m, index, lists);
    assert OwnAt(m, index, lists, peer, p);
  }

  lemma NoNodesNoRules(m: Mem, index: Index, lists: Lists, peer: Peer)
    requires TableOk(m, index, lists) && ListOf(lists, peer) == []
    ensures forall x :: x in RulesOf(m, index) ==> RulesOf(m, index)[x] != peer
  {
    TableIs(m, index, lists);
    forall x | x in RulesOf(m, index) ensures RulesOf(m, index)[x] != peer {
      var p := index[x];
      assert OwnAt(m, index, lists, peer, p);
    }
  }

  function Repeat(rules: Rules, n: nat): seq<Rules> {
    seq(n, _ => rules)
  }

  ghost predicate ShownAs(seen: seq<Mem>, shown: seq<Rules>, before: Rules, peer: Peer) {
    && |shown| == |seen|
    && forall i :: 0 <= i < |seen| ==> Shows(seen[i], shown[i]) && Shrunk(shown[i], before, peer)
  }

  lemma RoundShown(seen: seq<Mem>, shown: seq<Rules>, trace: seq<Mem>, rules: Rules, before: Rules, peer: Peer)
    requires ShownAs(seen, shown, before, peer) && AllShow(trace, rules) && Shrunk(rules, before, peer)
    ensures ShownAs(seen + trace, shown + Repeat(rules, |trace|), before, peer)
  {
  }
}
