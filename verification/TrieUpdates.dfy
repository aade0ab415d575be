/** What the insertions of allowedips.c leave behind: the table's invariant, the per-peer node
    lists, the stores of each case in order, and what readers see in between. */
module TrieUpdates {
  import opened Common
  import opened Trie
  import opened TrieStores

  // ----- per-peer node lists -------------------------------------------------------------

  type Lists = map<Peer, seq<Ptr>>

  function ListOf(lists: Lists, peer: Peer): seq<Ptr> {
    if peer in lists then lists[peer] else []
  }

  /** `list_del`: an intrusive list needs no search for the list a node is on. */
  function ListDel(lists: Lists, p: Ptr): Lists {
    map peer | peer in lists :: Without(lists[peer], p)
  }

  function ListAddTail(lists: Lists, p: Ptr, peer: Peer): Lists {
    lists[peer := ListOf(lists, peer) + [p]]
  }

  ghost predicate ListsDistinct(lists: Lists) {
    forall peer: Peer :: Distinct(ListOf(lists, peer))
  }

  /** A node is on a peer's list exactly if it is in use and belongs to the peer. */
  ghost predicate OwnAt(m: Mem, index: Index, lists: Lists, peer: Peer, p: Ptr) {
    p in ListOf(lists, peer) <==> Live(m, index, p) && m.nodes[p].peer == Some(peer)
  }

  ghost predicate ListsOwn(m: Mem, index: Index, lists: Lists) {
    forall peer: Peer, p: Ptr {:trigger OwnAt(m, index, lists, peer, p)} :: OwnAt(m, index, lists, peer, p)
  }

  /** A peer's list holds exactly the nodes that belong to it, each once. */
  ghost predicate ListsOk(m: Mem, index: Index, lists: Lists) {
    ListsDistinct(lists) && ListsOwn(m, index, lists)
  }

  function Plus(index: Index, x: Prefix, p: Ptr): Index {
    index[x := p]
  }

  // ----- what an insertion leaves behind -------------------------------------------------

  ghost predicate TableParts(m: Mem, index: Index, lists: Lists) {
    TrieOk(m, index) && DenseOk(m, index) && ListsOk(m, index, lists)
  }

  /** The table's invariant.  The quantifier over a dummy keeps it folded for the verifier;
      TableIs opens it. */
  ghost predicate TableOk(m: Mem, index: Index, lists: Lists) {
    forall z {:trigger Opened(z)} :: Opened(z) ==> TableParts(m, index, lists)
  }

  predicate Opened(z: bool) { true }

  lemma TableIs(m: Mem, index: Index, lists: Lists)
    ensures TableOk(m, index, lists) <==> TableParts(m, index, lists)
  {
    assert Opened(true);
  }

  /** What the invariant says of a pointer in use and of a node in use. */
  lemma ShapeOf(m: Mem, index: Index, lists: Lists, s: Slot, p: Ptr, peer: Peer)
    requires TableOk(m, index, lists)
    ensures s in m.cells && Owned(m, index, s) ==>
              var c := m.cells[s];
              && Live(m, index, c) && m.nodes[c].parent == s
              && (s.Child? ==>
                    m.nodes[s.parent].cidr < m.nodes[c].cidr
                    && Extends(m.nodes[s.parent], s.bit, m.nodes[c]))
    ensures Live(m, index, p) ==>
              && Get(m, m.nodes[p].parent) == Some(p)
              && Dense(m, p)
    ensures p in ListOf(lists, peer) <==> Live(m, index, p) && m.nodes[p].peer == Some(peer)
    ensures Distinct(ListOf(lists, peer))
  {
    TableIs(m, index, lists);
    assert OwnAt(m, index, lists, peer, p);
    if s in m.cells && Owned(m, index, s) {
      assert CellOk(m, s) && DownAt(m, index, s) && UpAt(m, index, m.cells[s]);
    }
    if Live(m, index, p) {
      assert UpAt(m, index, p) && Dense(m, p);
    }
  }

  /** A node for `peer` has come into use and sits at the end of the peer's list. */
  lemma ListsAdd(m: Mem, m': Mem, index: Index, index': Index, lists: Lists, p: Ptr, peer: Peer)
    requires ListsOk(m, index, lists) && !Live(m, index, p)
    requires forall q :: Live(m', index', q) <==> q == p || Live(m, index, q)
    requires p in m'.nodes && m'.nodes[p].peer == Some(peer)
    requires forall q :: Live(m, index, q) ==> q in m'.nodes && m'.nodes[q].peer == m.nodes[q].peer
    ensures ListsOk(m', index', ListAddTail(lists, p, peer))
  {
    var lists' := ListAddTail(lists, p, peer);
    assert OwnAt(m, index, lists, peer, p);
    forall k: Peer ensures Distinct(ListOf(lists', k)) {
      assert Distinct(ListOf(lists, k));
    }
    forall k: Peer, q: Ptr ensures OwnAt(m', index', lists', k, q) {
      assert OwnAt(m, index, lists, k, q);
    }
  }

  /** A node with a peer comes into use and no pointer goes away. */
  lemma DenseGrows(m: Mem, m': Mem, index: Index, index': Index, p: Ptr)
    requires DenseOk(m, index) && m.cells.Keys <= m'.cells.Keys && p in m'.nodes && m'.nodes[p].peer.Some?
    requires forall q :: Live(m', index', q) <==> q == p || Live(m, index, q)
    requires forall q :: Live(m, index, q) ==> q in m'.nodes && m'.nodes[q].peer == m.nodes[q].peer
    ensures DenseOk(m', index')
  {
  }

  lemma LeafInsertOk(m: Mem, index: Index, lists: Lists, p: Ptr, n: Node, peer: Peer)
    requires TableParts(m, index, lists) && Fresh(m, index, p, n) && Get(m, n.parent) == None && n.peer == Some(peer)
    ensures TableParts(Leaf(m, p, n), Plus(index, PrefixOf(n), p), ListAddTail(lists, p, peer))
    ensures RulesOf(Leaf(m, p, n), Plus(index, PrefixOf(n), p)) == RulesOf(m, index)[PrefixOf(n) := peer]
  {
    var m', index' := Leaf(m, p, n), Plus(index, PrefixOf(n), p);
    LeafStoreOk(m, index, p, n);
    FreshLive(m, m', index, index', p, n);
    ListsAdd(m, m', index, index', lists, p, peer);
    NewNodeRules(m, m', index, p, n);
    DenseGrows(m, m', index, index', p);
  }

  lemma AboveInsertOk(m: Mem, index: Index, lists: Lists, p: Ptr, n: Node, b: bool, d: Ptr, peer: Peer)
    requires TableParts(m, index, lists) && Fresh(m, index, p, n) && Get(m, n.parent) == Some(d) && n.peer == Some(peer)
    requires Live(m, index, d) && Extends(n, b, m.nodes[d])
    ensures TableParts(Above(m, p, n, b, d), Plus(index, PrefixOf(n), p), ListAddTail(lists, p, peer))
    ensures RulesOf(Above(m, p, n, b, d), Plus(index, PrefixOf(n), p)) == RulesOf(m, index)[PrefixOf(n) := peer]
  {
    var m', index' := Above(m, p, n, b, d), Plus(index, PrefixOf(n), p);
    AboveStoreOk(m, index, p, n, b, d);
    FreshLive(m, m', index, index', p, n);
    ListsAdd(m, m', index, index', lists, p, peer);
    NewNodeRules(m, m', index, p, n);
    DenseGrows(m, m', index, index', p);
  }

  /** Dense everywhere but at r, which has a child on side b only. */
  ghost predicate DenseBut(m: Mem, index: Index, r: Ptr, b: bool) {
    && Live(m, index, r) && Child(r, b) in m.cells
    && (forall q :: Live(m, index, q) && q != r ==> Dense(m, q))
  }

  lemma SplitMiddle(m: Mem, index: Index, lists: Lists, r: Ptr, g: Node, b: bool, d: Ptr)
    requires TableParts(m, index, lists) && Fresh(m, index, r, g) && Get(m, g.parent) == Some(d) && g.peer == None
    requires Live(m, index, d) && Extends(g, b, m.nodes[d])
    ensures var m1, index1 := Above(m, r, g, b, d), index[PrefixOf(g) := r];
            && TrieOk(m1, index1) && ListsOk(m1, index1, lists) && DenseBut(m1, index1, r, b)
            && RulesOf(m1, index1) == RulesOf(m, index) && Child(r, !b) !in m1.cells
  {
    var m1, index1 := Above(m, r, g, b, d), index[PrefixOf(g) := r];
    AboveStoreOk(m, index, r, g, b, d);
    FreshLive(m, m1, index, index1, r, g);
    NewNodeRules(m, m1, index, r, g);
    assert Child(r, !b) in m.cells ==> CellOk(m, Child(r, !b));
    ListsSame(m, m1, index, index1, lists, r);
  }

  function TwoMore(index: Index, x: Prefix, p: Ptr, y: Prefix, q: Ptr): Index {
    Plus(Plus(index, x, p), y, q)
  }

  /** A peerless node g splits the edge to d; the new node n hangs on its other side. */
  lemma SplitInsertOk(m: Mem, index: Index, lists: Lists, r: Ptr, g: Node, b: bool, d: Ptr, p: Ptr, n: Node, peer: Peer)
    requires TableParts(m, index, lists) && Fresh(m, index, r, g) && Get(m, g.parent) == Some(d) && g.peer == None
    requires Live(m, index, d) && Extends(g, b, m.nodes[d])
    requires p !in m.nodes && p != r && NodeOk(n) && PrefixOf(n) !in index
    requires n.peer == Some(peer) && n.parent == Child(r, !b) && Extends(g, !b, n)
    ensures var m', index' := Leaf(Above(m, r, g, b, d), p, n), TwoMore(index, PrefixOf(g), r, PrefixOf(n), p);
            && TableParts(m', index', ListAddTail(lists, p, peer))
            && RulesOf(m', index') == RulesOf(m, index)[PrefixOf(n) := peer]
  {
    var m1, index1 := Above(m, r, g, b, d), index[PrefixOf(g) := r];
    SplitMiddle(m, index, lists, r, g, b, d);
    assert |PrefixOf(g).bits| != |PrefixOf(n).bits|;
    SplitEnd(m1, index1, lists, r, b, p, n, peer);
  }

  lemma SplitEnd(m: Mem, index: Index, lists: Lists, r: Ptr, b: bool, p: Ptr, n: Node, peer: Peer)
    requires TrieOk(m, index) && ListsOk(m, index, lists) && DenseBut(m, index, r, b) && Child(r, !b) !in m.cells
    requires Fresh(m, index, p, n) && n.peer == Some(peer) && n.parent == Child(r, !b)
    ensures TableParts(Leaf(m, p, n), Plus(index, PrefixOf(n), p), ListAddTail(lists, p, peer))
    ensures RulesOf(Leaf(m, p, n), Plus(index, PrefixOf(n), p)) == RulesOf(m, index)[PrefixOf(n) := peer]
  {
    var m', index' := Leaf(m, p, n), Plus(index, PrefixOf(n), p);
    LeafStoreOk(m, index, p, n);
    FreshLive(m, m', index, index', p, n);
    ListsAdd(m, m', index, index', lists, p, peer);
    NewNodeRules(m, m', index, p, n);
    assert DenseOk(m', index');
  }

  lemma ListsSame(m: Mem, m': Mem, index: Index, index': Index, lists: Lists, r: Ptr)
    requires ListsOk(m, index, lists) && !Live(m, index, r) && r in m'.nodes && m'.nodes[r].peer == None
    requires forall q :: Live(m', index', q) <==> q == r || Live(m, index, q)
    requires forall q :: Live(m, index, q) ==> q in m'.nodes && m'.nodes[q].peer == m.nodes[q].peer
    ensures ListsOk(m', index', lists)
  {
    forall k: Peer, q: Ptr ensures OwnAt(m', index', lists, k, q) {
      assert OwnAt(m, index, lists, k, q);
    }
  }

  // ----- where a new node goes -----------------------------------------------------------

  function SlotFor(m: Mem, parent: Option<Ptr>, key: Bits): Slot
    requires parent.Some? ==> parent.value in m.nodes && m.nodes[parent.value].cidr < |key|
  {
    if parent.None? then Root(|key|) else Child(parent.value, key[m.nodes[parent.value].cidr])
  }

  /** `parent` is the last node in use on the key's path before length cidr, as
      `node_placement` leaves it. */
  ghost predicate Placed(m: Mem, index: Index, key: Bits, cidr: nat, parent: Option<Ptr>) {
    && (|key| == 32 || |key| == 128) && cidr <= |key|
    && Prefix(|key|, key[..cidr]) !in index
    && (parent.Some? ==> Live(m, index, parent.value) && At(m, parent.value, key) && m.nodes[parent.value].cidr < cidr)
    && var s := SlotFor(m, parent, key);
       s in m.cells ==>
         Live(m, index, m.cells[s]) && (m.nodes[m.cells[s]].cidr > cidr || !Matches(m.nodes[m.cells[s]], key))
  }

  lemma EmptyPlaced(m: Mem, index: Index, lists: Lists, key: Bits, cidr: nat)
    requires TableOk(m, index, lists) && Root(|key|) !in m.cells && (|key| == 32 || |key| == 128) && cidr <= |key|
    ensures Placed(m, index, key, cidr, None)
  {
    TableIs(m, index, lists);
    if Prefix(|key|, key[..cidr]) in index {
      RootCovers(m, index, key, cidr);
    }
  }

  /** Where the descent ends there is no node of exactly this prefix. */
  lemma NoExactNode(m: Mem, index: Index, key: Bits, cidr: nat, parent: Option<Ptr>)
    requires TrieOk(m, index) && cidr <= |key|
    requires parent.Some?
             ==> Live(m, index, parent.value) && At(m, parent.value, key) && m.nodes[parent.value].cidr < cidr
    requires var s := SlotFor(m, parent, key);
             s in m.cells ==>
               && Live(m, index, m.cells[s]) && |m.nodes[m.cells[s]].bits| == |key|
               && (m.nodes[m.cells[s]].cidr > cidr || !Matches(m.nodes[m.cells[s]], key))
    ensures Prefix(|key|, key[..cidr]) !in index
  {
    var s := SlotFor(m, parent, key);
    if Prefix(|key|, key[..cidr]) in index {
      if parent.None? {
        RootCovers(m, index, key, cidr);
      } else {
        NodeBetween(m, index, parent.value, key, cidr);
      }
      MatchesIsPrefix(m.nodes[m.cells[s]], key);
    }
  }

  /** What hangs in that slot agrees with the key beyond the parent, and no node in use stands
      between. */
  lemma PlacedDown(m: Mem, index: Index, key: Bits, cidr: nat, parent: Option<Ptr>)
    requires TrieOk(m, index) && Placed(m, index, key, cidr, parent) && SlotFor(m, parent, key) in m.cells
    ensures var d := m.nodes[m.cells[SlotFor(m, parent, key)]];
            var c := CommonBits(d.bits, key);
            && |d.bits| == |key| && (parent.Some? ==> m.nodes[parent.value].cidr < c)
            && (c >= cidr ==> d.cidr > cidr) && (c < cidr ==> c < d.cidr && Prefix(|key|, key[..c]) !in index)
  {
    var d := m.nodes[m.cells[SlotFor(m, parent, key)]];
    PlacedShares(m, index, key, cidr, parent);
    PlacedDiffers(m, index, key, cidr, parent);
    if CommonBits(d.bits, key) < cidr {
      NothingBetween(m, index, key, cidr, parent);
    }
  }

  /** What hangs at the place agrees with the key beyond the parent. */
  lemma PlacedShares(m: Mem, index: Index, key: Bits, cidr: nat, parent: Option<Ptr>)
    requires TrieOk(m, index) && Placed(m, index, key, cidr, parent) && SlotFor(m, parent, key) in m.cells
    ensures var d := m.nodes[m.cells[SlotFor(m, parent, key)]];
            |d.bits| == |key| && NodeOk(d) && (parent.Some? ==> m.nodes[parent.value].cidr < CommonBits(d.bits, key))
  {
    var s := SlotFor(m, parent, key);
    var d := m.nodes[m.cells[s]];
    assert CellOk(m, s) && DownAt(m, index, s) && UpAt(m, index, m.cells[s]);
    if parent.Some? {
      var q := m.nodes[parent.value];
      assert d.bits[..q.cidr] == key[..q.cidr] && d.bits[q.cidr] == key[q.cidr];
      AgreeBeyond(d.bits, key, q.cidr);
    }
  }

  lemma AgreeBeyond(a: Bits, b: Bits, k: nat)
    requires k < |a| && k < |b| && a[..k] == b[..k] && a[k] == b[k]
    ensures CommonBits(a, b) > k
  {
    forall i | 0 <= i < k ensures a[i] == b[i] {
      assert a[..k][i] == b[..k][i];
    }
  }

  lemma PlacedDiffers(m: Mem, index: Index, key: Bits, cidr: nat, parent: Option<Ptr>)
    requires Placed(m, index, key, cidr, parent) && SlotFor(m, parent, key) in m.cells
    requires var d := m.nodes[m.cells[SlotFor(m, parent, key)]]; |d.bits| == |key| && NodeOk(d)
    ensures var d := m.nodes[m.cells[SlotFor(m, parent, key)]];
            var c := CommonBits(d.bits, key);
            (c >= cidr ==> d.cidr > cidr) && (c < cidr ==> c < d.cidr)
  {
  }

  lemma NothingBetween(m: Mem, index: Index, key: Bits, cidr: nat, parent: Option<Ptr>)
    requires TrieOk(m, index) && Placed(m, index, key, cidr, parent) && SlotFor(m, parent, key) in m.cells
    requires var d := m.nodes[m.cells[SlotFor(m, parent, key)]];
             && |d.bits| == |key| && CommonBits(d.bits, key) < cidr && CommonBits(d.bits, key) < d.cidr
             && (parent.Some? ==> m.nodes[parent.value].cidr < CommonBits(d.bits, key))
    ensures var d := m.nodes[m.cells[SlotFor(m, parent, key)]];
            Prefix(|key|, key[..CommonBits(d.bits, key)]) !in index
  {
    var d := m.nodes[m.cells[SlotFor(m, parent, key)]];
    var c := CommonBits(d.bits, key);
    if Prefix(|key|, key[..c]) in index {
      if parent.None? {
        RootCovers(m, index, key, c);
      } else {
        NodeBetween(m, index, parent.value, key, c);
      }
    }
  }

  /** A node made of the key's bits fits the slot. */
  lemma PlacedFits(m: Mem, index: Index, key: Bits, parent: Option<Ptr>, c: nat, n: Node)
    requires parent.Some? ==> Live(m, index, parent.value) && At(m, parent.value, key) && m.nodes[parent.value].cidr < c
    requires n.bits == key && n.cidr == c <= |key|
    ensures Fits(m, index, SlotFor(m, parent, key), n)
  {
  }

  // ----- the stores of an insertion, in order --------------------------------------------

  /** Every memory in the list shows readers the rules of before or of after. */
  ghost predicate Published(seen: seq<Mem>, before: Rules, after: Rules) {
    forall i :: 0 <= i < |seen| ==> Shows(seen[i], before) || Shows(seen[i], after)
  }

  ghost predicate Quiet(m: Mem, index: Index, seen: seq<Mem>) {
    forall i :: 0 <= i < |seen| ==> Unseen(m, index, seen[i])
  }

  lemma QuietThenDone(m: Mem, index: Index, m': Mem, index': Index, seen: seq<Mem>)
    requires TrieOk(m, index) && TrieOk(m', index') && Quiet(m, index, seen)
    ensures Published(seen + [m'], RulesOf(m, index), RulesOf(m', index'))
  {
    forall i | 0 <= i < |seen| ensures Shows(seen[i], RulesOf(m, index)) {
      UnseenShows(m, index, seen[i]);
    }
    TrieShows(m', index');
  }

  /** `connect_node` */
  function Connect(m: Mem, s: Slot, p: Ptr): Mem
    requires p in m.nodes
  {
    Put(SetParent(m, p, s), s, Some(p))
  }

  /** The stores of `connect_node` */
  function ConnectTrace(m: Mem, s: Slot, p: Ptr): seq<Mem>
    requires p in m.nodes
  {
    [SetParent(m, p, s), Connect(m, s, p)]
  }

  /** The stores `seen` have led from m to a, and readers have noticed nothing. */
  ghost predicate Building(m: Mem, index: Index, seen: seq<Mem>, a: Mem) {
    forall z {:trigger Opened(z)} :: Opened(z) ==> Stores(m, seen, a) && Quiet(m, index, seen) && Unseen(m, index, a)
  }

  lemma BuildingIs(m: Mem, index: Index, seen: seq<Mem>, a: Mem)
    ensures Building(m, index, seen, a) <==> Stores(m, seen, a) && Quiet(m, index, seen) && Unseen(m, index, a)
  {
    assert Opened(true);
  }

  lemma BuildMore(m: Mem, index: Index, seen: seq<Mem>, a: Mem, more: seq<Mem>, a': Mem)
    requires Building(m, index, seen, a) && Stores(a, more, a') && Quiet(m, index, more) && Unseen(m, index, a')
    ensures Building(m, index, seen + more, a')
  {
    BuildingIs(m, index, seen, a);
    StoresThen(m, seen, a, more, a');
    BuildingIs(m, index, seen + more, a');
  }

  lemma BuildFirst(m: Mem, index: Index, p: Ptr, n: Node)
    requires TrieOk(m, index) && p !in m.nodes && NodeOk(n)
    ensures Building(m, index, [NewNode(m, p, n)], NewNode(m, p, n))
  {
    UnseenNew(m, index, m, p, n);
    OneStore(m, Create(p, n));
    BuildingIs(m, index, [NewNode(m, p, n)], NewNode(m, p, n));
  }

  lemma BuildNew(m: Mem, index: Index, seen: seq<Mem>, a: Mem, p: Ptr, n: Node)
    requires Building(m, index, seen, a) && p !in a.nodes && NodeOk(n)
    ensures Building(m, index, seen + [NewNode(a, p, n)], NewNode(a, p, n))
  {
    BuildingIs(m, index, seen, a);
    UnseenNew(m, index, a, p, n);
    OneStore(a, Create(p, n));
    BuildMore(m, index, seen, a, [NewNode(a, p, n)], NewNode(a, p, n));
  }

  /** Connecting below a node readers cannot reach yet. */
  lemma BuildBelow(m: Mem, index: Index, seen: seq<Mem>, a: Mem, p: Ptr, b: bool, d: Ptr)
    requires Building(m, index, seen, a) && !Live(m, index, p) && p in a.nodes && d in a.nodes && p != d
    requires |a.nodes[d].bits| == |a.nodes[p].bits| && a.nodes[p].cidr < a.nodes[d].cidr
    ensures Building(m, index, seen + ConnectTrace(a, Child(p, b), d), Connect(a, Child(p, b), d))
  {
    BuildingIs(m, index, seen, a);
    UnseenParent(m, index, a, d, Child(p, b));
    UnseenPut(m, index, SetParent(a, d, Child(p, b)), Child(p, b), d);
    ConnectStores(a, Child(p, b), d);
    BuildMore(m, index, seen, a, ConnectTrace(a, Child(p, b), d), Connect(a, Child(p, b), d));
  }

  lemma AboveSame(m: Mem, p: Ptr, n: Node, b: bool, d: Ptr, s: Slot)
    requires p !in m.nodes && d in m.nodes
    ensures Connect(Connect(NewNode(m, p, n), Child(p, b), d), s, p) == Above(m, p, n.(parent := s), b, d)
  {
  }

  lemma SplitSame(m: Mem, p: Ptr, n: Node, r: Ptr, g: Node, b: bool, d: Ptr, s: Slot)
    requires p !in m.nodes && r !in m.nodes && p != r && d in m.nodes && (s.Child? ==> s.parent != r)
    ensures Connect(Connect(Connect(NewNode(NewNode(m, p, n), r, g), Child(r, b), d), Child(r, !b), p), s, r)
            == Leaf(Above(m, r, g.(parent := s), b, d), p, n.(parent := Child(r, !b)))
  {
    SplitCells(m.cells, Child(r, b), d, Child(r, !b), p, s, r);
    var d' := m.nodes[d].(parent := Child(r, b));
    assert m.nodes[p := n][r := g][d := d'][p := n.(parent := Child(r, !b))][r := g.(parent := s)]
        == m.nodes[d := d'][r := g.(parent := s)][p := n.(parent := Child(r, !b))];
  }

  lemma SplitCells(cells: map<Slot, Ptr>, x: Slot, d: Ptr, y: Slot, p: Ptr, z: Slot, r: Ptr)
    requires x != y && y != z && x != z
    ensures cells[x := d][y := p][z := r] == cells[x := d][z := r][y := p]
  {
  }

  // ----- the three ways to hang a node, and the exact match ------------------------------

  /** An insertion of (key, cidr, peer) that began in m0 has succeeded. */
  ghost predicate Inserted(m0: Mem, index0: Index, m: Mem, index: Index, lists: Lists, seen: seq<Mem>, x: Prefix,
                           peer: Peer) {
    forall z {:trigger Opened(z)} :: Opened(z) ==>
      && TableOk(m, index, lists) && RulesOf(m, index) == RulesOf(m0, index0)[x := peer]
      && Published(seen, RulesOf(m0, index0), RulesOf(m, index)) && Stores(m0, seen, m)
  }

  /** The last connection publishes what was built. */
  lemma InsertedIntro(m0: Mem, index0: Index, built: seq<Mem>, a: Mem, s: Slot, p: Ptr, index: Index, lists: Lists,
                      x: Prefix, peer: Peer)
    requires TrieOk(m0, index0) && Building(m0, index0, built, a) && p in a.nodes
    requires TableOk(Connect(a, s, p), index, lists)
             && RulesOf(Connect(a, s, p), index) == RulesOf(m0, index0)[x := peer]
    ensures Inserted(m0, index0, Connect(a, s, p), index, lists, built + ConnectTrace(a, s, p), x, peer)
  {
    var m := Connect(a, s, p);
    PublishedAtLast(m0, index0, built, a, s, p, index, lists);
    StoresAtLast(m0, index0, built, a, s, p);
  }

  lemma PublishedAtLast(m0: Mem, index0: Index, built: seq<Mem>, a: Mem, s: Slot, p: Ptr, index: Index, lists: Lists)
    requires TrieOk(m0, index0) && Building(m0, index0, built, a) && p in a.nodes
             && TableOk(Connect(a, s, p), index, lists)
    ensures Published(built + ConnectTrace(a, s, p), RulesOf(m0, index0), RulesOf(Connect(a, s, p), index))
  {
    var m := Connect(a, s, p);
    QuietParent(m0, index0, built, a, s, p);
    assert TrieOk(m, index) by { TableIs(m, index, lists); }
    QuietThenDone(m0, index0, m, index, built + [SetParent(a, p, s)]);
    assert built + [SetParent(a, p, s)] + [m] == built + ConnectTrace(a, s, p);
  }

  lemma QuietParent(m0: Mem, index0: Index, built: seq<Mem>, a: Mem, s: Slot, p: Ptr)
    requires Building(m0, index0, built, a) && p in a.nodes
    ensures Quiet(m0, index0, built + [SetParent(a, p, s)])
  {
    BuildingIs(m0, index0, built, a);
    UnseenParent(m0, index0, a, p, s);
  }

  lemma StoresAtLast(m0: Mem, index0: Index, built: seq<Mem>, a: Mem, s: Slot, p: Ptr)
    requires Building(m0, index0, built, a) && p in a.nodes
    ensures Stores(m0, built + ConnectTrace(a, s, p), Connect(a, s, p))
  {
    BuildingIs(m0, index0, built, a);
    ConnectStores(a, s, p);
    StoresThen(m0, built, a, ConnectTrace(a, s, p), Connect(a, s, p));
  }

  lemma InsertedMeans(m0: Mem, index0: Index, m: Mem, index: Index, lists: Lists, seen: seq<Mem>, x: Prefix, peer: Peer)
    requires Inserted(m0, index0, m, index, lists, seen, x, peer)
    ensures TableOk(m, index, lists) && RulesOf(m, index) == RulesOf(m0, index0)[x := peer]
    ensures Published(seen, RulesOf(m0, index0), RulesOf(m, index)) && Stores(m0, seen, m)
  {
    assert Opened(true);
  }

  function NodeFor(key: Bits, cidr: nat, peer: Option<Peer>): Node {
    Node(peer, cidr, key, Root(0))
  }

  lemma LeafSealed(m: Mem, index: Index, lists: Lists, p: Ptr, n: Node, peer: Peer)
    requires TableParts(m, index, lists) && Fresh(m, index, p, n) && Get(m, n.parent) == None && n.peer == Some(peer)
    ensures TableOk(Leaf(m, p, n), Plus(index, PrefixOf(n), p), ListAddTail(lists, p, peer))
    ensures RulesOf(Leaf(m, p, n), Plus(index, PrefixOf(n), p)) == RulesOf(m, index)[PrefixOf(n) := peer]
  {
    LeafInsertOk(m, index, lists, p, n, peer);
    TableIs(Leaf(m, p, n), Plus(index, PrefixOf(n), p), ListAddTail(lists, p, peer));
  }

  /** The stores of `add` into an empty slot: the new node and its connection. */
  function LeafTrace(m: Mem, p: Ptr, n: Node, s: Slot): seq<Mem> {
    [NewNode(m, p, n)] + ConnectTrace(NewNode(m, p, n), s, p)
  }

  lemma LeafSame(m: Mem, p: Ptr, n: Node, s: Slot)
    requires NodeOk(n)
    ensures Connect(NewNode(m, p, n), s, p) == Leaf(m, p, n.(parent := s)) && PrefixOf(n.(parent := s)) == PrefixOf(n)
  {
  }

  lemma LeafDone(m: Mem, index: Index, lists: Lists, p: Ptr, n: Node, s: Slot, peer: Peer)
    requires TableParts(m, index, lists) && Fresh(m, index, p, n.(parent := s)) && NodeOk(n) && Get(m, s) == None
             && n.peer == Some(peer)
    ensures Inserted(m, index, Connect(NewNode(m, p, n), s, p), Plus(index, PrefixOf(n), p),
                     ListAddTail(lists, p, peer),
                     LeafTrace(m, p, n, s), PrefixOf(n), peer)
  {
    var a := NewNode(m, p, n);
    BuildFirst(m, index, p, n);
    LeafSealed(m, index, lists, p, n.(parent := s), peer);
    LeafSame(m, p, n, s);
    InsertedIntro(m, index, [a], a, s, p, Plus(index, PrefixOf(n), p), ListAddTail(lists, p, peer), PrefixOf(n), peer);
  }

  lemma HangLeafOk(m: Mem, index: Index, lists: Lists, key: Bits, cidr: nat, peer: Peer, p: Ptr, parent: Option<Ptr>)
    requires TableOk(m, index, lists) && p !in m.nodes && Placed(m, index, key, cidr, parent)
    requires SlotFor(m, parent, key) !in m.cells
    ensures var a, s, x := NewNode(m, p, NodeFor(key, cidr, Some(peer))), SlotFor(m, parent, key),
            Prefix(|key|, key[..cidr]);
            Inserted(m, index, Connect(a, s, p), Plus(index, x, p), ListAddTail(lists, p, peer),
                     LeafTrace(m, p, NodeFor(key, cidr, Some(peer)), s), x, peer)
  {
    var n, s := NodeFor(key, cidr, Some(peer)), SlotFor(m, parent, key);
    TableIs(m, index, lists);
    PlacedFits(m, index, key, parent, cidr, n.(parent := s));
    assert PrefixOf(n) == Prefix(|key|, key[..cidr]);
    LeafDone(m, index, lists, p, n, s, peer);
  }

  lemma AboveExtends(m: Mem, index: Index, key: Bits, cidr: nat, peer: Peer, parent: Option<Ptr>, d: Ptr)
    requires TrieOk(m, index) && Placed(m, index, key, cidr, parent)
    requires Get(m, SlotFor(m, parent, key)) == Some(d) && CommonBits(m.nodes[d].bits, key) >= cidr
    ensures var s := SlotFor(m, parent, key);
            var n := NodeFor(key, cidr, Some(peer));
            && cidr < |m.nodes[d].bits| && Live(m, index, d)
            && Extends(n, m.nodes[d].bits[cidr], m.nodes[d])
            && Fits(m, index, s, n.(parent := s)) && PrefixOf(n.(parent := s)) == Prefix(|key|, key[..cidr])
  {
    var s := SlotFor(m, parent, key);
    PlacedDown(m, index, key, cidr, parent);
    Shorter(m.nodes[d].bits, key, cidr, CommonBits(m.nodes[d].bits, key));
    PlacedFits(m, index, key, parent, cidr, NodeFor(key, cidr, Some(peer)).(parent := s));
  }

  /** The stores of `add` above an existing node: the new node takes what hung in its slot. */
  function AboveTrace(m: Mem, p: Ptr, n: Node, b: Slot, d: Ptr, s: Slot): seq<Mem>
    requires d in m.nodes
  {
    var a := NewNode(m, p, n);
    [a] + ConnectTrace(a, b, d) + ConnectTrace(Connect(a, b, d), s, p)
  }

  function AboveMem(m: Mem, p: Ptr, n: Node, b: Slot, d: Ptr, s: Slot): Mem
    requires d in m.nodes
  {
    Connect(Connect(NewNode(m, p, n), b, d), s, p)
  }

  lemma AboveSealed(m: Mem, index: Index, lists: Lists, p: Ptr, n: Node, b: bool, d: Ptr, peer: Peer)
    requires TableParts(m, index, lists) && Fresh(m, index, p, n) && Get(m, n.parent) == Some(d) && n.peer == Some(peer)
    requires Live(m, index, d) && Extends(n, b, m.nodes[d])
    ensures TableOk(Above(m, p, n, b, d), Plus(index, PrefixOf(n), p), ListAddTail(lists, p, peer))
    ensures RulesOf(Above(m, p, n, b, d), Plus(index, PrefixOf(n), p)) == RulesOf(m, index)[PrefixOf(n) := peer]
  {
    AboveInsertOk(m, index, lists, p, n, b, d, peer);
    TableIs(Above(m, p, n, b, d), Plus(index, PrefixOf(n), p), ListAddTail(lists, p, peer));
  }

  lemma AboveDone(m: Mem, index: Index, lists: Lists, p: Ptr, n: Node, bit: bool, d: Ptr, s: Slot, peer: Peer)
    requires TableParts(m, index, lists) && Fresh(m, index, p, n.(parent := s)) && NodeOk(n) && n.peer == Some(peer)
    requires Get(m, s) == Some(d) && Live(m, index, d) && Extends(n, bit, m.nodes[d])
    ensures Inserted(m, index, AboveMem(m, p, n, Child(p, bit), d, s), Plus(index, PrefixOf(n), p),
                     ListAddTail(lists, p, peer),
                     AboveTrace(m, p, n, Child(p, bit), d, s), PrefixOf(n), peer)
  {
    var a, b := NewNode(m, p, n), Child(p, bit);
    BuildFirst(m, index, p, n);
    BuildBelow(m, index, [a], a, p, bit, d);
    AboveSealed(m, index, lists, p, n.(parent := s), bit, d, peer);
    AboveSame(m, p, n, bit, d, s);
    assert PrefixOf(n.(parent := s)) == PrefixOf(n);
    InsertedIntro(m, index, [a] + ConnectTrace(a, b, d), Connect(a, b, d), s, p, Plus(index, PrefixOf(n), p),
                  ListAddTail(lists, p, peer), PrefixOf(n), peer);
  }

  lemma HangAboveOk(m: Mem, index: Index, lists: Lists, key: Bits, cidr: nat, peer: Peer, p: Ptr, parent: Option<Ptr>,
                    d: Ptr)
    requires TableOk(m, index, lists) && p !in m.nodes && Placed(m, index, key, cidr, parent)
    requires Get(m, SlotFor(m, parent, key)) == Some(d) && CommonBits(m.nodes[d].bits, key) >= cidr
    ensures var n, s, x := NodeFor(key, cidr, Some(peer)), SlotFor(m, parent, key), Prefix(|key|, key[..cidr]);
            && cidr < |m.nodes[d].bits|
            && var b := Child(p, m.nodes[d].bits[cidr]);
               Inserted(m, index, AboveMem(m, p, n, b, d, s), Plus(index, x, p), ListAddTail(lists, p, peer),
                        AboveTrace(m, p, n, b, d, s), x, peer)
  {
    var n, s := NodeFor(key, cidr, Some(peer)), SlotFor(m, parent, key);
    TableIs(m, index, lists);
    AboveExtends(m, index, key, cidr, peer, parent, d);
    assert PrefixOf(n) == Prefix(|key|, key[..cidr]);
    AboveDone(m, index, lists, p, n, m.nodes[d].bits[cidr], d, s, peer);
  }

  lemma SplitExtends(m: Mem, index: Index, key: Bits, cidr: nat, peer: Peer, parent: Option<Ptr>, d: Ptr, r: Ptr)
    requires TrieOk(m, index) && Placed(m, index, key, cidr, parent)
    requires Get(m, SlotFor(m, parent, key)) == Some(d) && CommonBits(m.nodes[d].bits, key) < cidr
    ensures var s, c := SlotFor(m, parent, key), CommonBits(m.nodes[d].bits, key);
            var g, n := NodeFor(key, c, None), NodeFor(key, cidr, Some(peer));
            && c < |m.nodes[d].bits| == |key| && Live(m, index, d) && m.nodes[d].bits[c] == !key[c]
            && Extends(g, !key[c], m.nodes[d]) && Extends(g, key[c], n)
               && Extends(g.(parent := s), key[c], n.(parent := Child(r, key[c])))
            && Fits(m, index, s, g.(parent := s))
            && PrefixOf(g.(parent := s)) == Prefix(|key|, key[..c]) && Prefix(|key|, key[..c]) !in index
            && PrefixOf(n.(parent := Child(r, key[c]))) == Prefix(|key|, key[..cidr])
  {
    var s, c := SlotFor(m, parent, key), CommonBits(m.nodes[d].bits, key);
    PlacedDown(m, index, key, cidr, parent);
    PlacedFits(m, index, key, parent, c, NodeFor(key, c, None).(parent := s));
  }

  /** The log after the last case of `add` once the new node p is there: the branch node and the
      three connections. */
  function BranchLog(seen: seq<Mem>, m: Mem, p: Ptr, r: Ptr, g: Node, b: bool, d: Ptr, s: Slot): seq<Mem>
    requires d in m.nodes && p in m.nodes
  {
    var a := NewNode(m, r, g);
    var c := Connect(a, Child(r, !b), d);
    var e := Connect(c, Child(r, b), p);
    seen + [a] + ConnectTrace(a, Child(r, !b), d) + ConnectTrace(c, Child(r, b), p) + ConnectTrace(e, s, r)
  }

  function BranchMem(m: Mem, p: Ptr, r: Ptr, g: Node, b: bool, d: Ptr, s: Slot): Mem
    requires d in m.nodes && p in m.nodes
  {
    Connect(Connect(Connect(NewNode(m, r, g), Child(r, !b), d), Child(r, b), p), s, r)
  }

  function SplitTrace(m: Mem, p: Ptr, n: Node, r: Ptr, g: Node, b: bool, d: Ptr, s: Slot): seq<Mem>
    requires d in m.nodes
  {
    BranchLog([NewNode(m, p, n)], NewNode(m, p, n), p, r, g, b, d, s)
  }

  function SplitMem(m: Mem, p: Ptr, n: Node, r: Ptr, g: Node, b: bool, d: Ptr, s: Slot): Mem
    requires d in m.nodes
  {
    BranchMem(NewNode(m, p, n), p, r, g, b, d, s)
  }

  lemma SplitLast(m: Mem, p: Ptr, n: Node, r: Ptr, g: Node, b: bool, d: Ptr, s: Slot)
    requires p !in m.nodes && r !in m.nodes && p != r && d in m.nodes && (s.Child? ==> s.parent != r)
    ensures SplitMem(m, p, n, r, g, b, d, s) == Leaf(Above(m, r, g.(parent := s), !b, d), p, n.(parent := Child(r, b)))
  {
    SplitSame(m, p, n, r, g, !b, d, s);
    assert !!b == b;
  }

  lemma SplitTable(m: Mem, index: Index, lists: Lists, p: Ptr, n: Node, r: Ptr, g: Node, b: bool, d: Ptr, s: Slot,
                   peer: Peer)
    requires TableParts(m, index, lists) && p !in m.nodes && r !in m.nodes && p != r
    requires Fresh(m, index, r, g.(parent := s)) && NodeOk(g) && NodeOk(n) && g.peer == None && n.peer == Some(peer)
    requires PrefixOf(n) !in index && Get(m, s) == Some(d) && Live(m, index, d)
    requires Extends(g, !b, m.nodes[d]) && Extends(g, b, n)
    ensures var m', index' := SplitMem(m, p, n, r, g, b, d, s), TwoMore(index, PrefixOf(g), r, PrefixOf(n), p);
            TableOk(m', index', ListAddTail(lists, p, peer))
              && RulesOf(m', index') == RulesOf(m, index)[PrefixOf(n) := peer]
  {
    var g', n' := g.(parent := s), n.(parent := Child(r, b));
    assert PrefixOf(g') == PrefixOf(g) && PrefixOf(n') == PrefixOf(n);
    assert s.Child? ==> s.parent != r by { assert CellOk(m, s); }
    SplitLast(m, p, n, r, g, b, d, s);
    SplitSealed(m, index, lists, r, g', !b, d, p, n', peer);
  }

  lemma SplitSealed(m: Mem, index: Index, lists: Lists, r: Ptr, g: Node, b: bool, d: Ptr, p: Ptr, n: Node, peer: Peer)
    requires TableParts(m, index, lists) && Fresh(m, index, r, g) && Get(m, g.parent) == Some(d) && g.peer == None
    requires Live(m, index, d) && Extends(g, b, m.nodes[d])
    requires p !in m.nodes && p != r && NodeOk(n) && PrefixOf(n) !in index
    requires n.peer == Some(peer) && n.parent == Child(r, !b) && Extends(g, !b, n)
    ensures var m', index' := Leaf(Above(m, r, g, b, d), p, n), TwoMore(index, PrefixOf(g), r, PrefixOf(n), p);
            TableOk(m', index', ListAddTail(lists, p, peer))
              && RulesOf(m', index') == RulesOf(m, index)[PrefixOf(n) := peer]
  {
    SplitInsertOk(m, index, lists, r, g, b, d, p, n, peer);
    TableIs(Leaf(Above(m, r, g, b, d), p, n), TwoMore(index, PrefixOf(g), r, PrefixOf(n), p),
            ListAddTail(lists, p, peer));
  }

  /** Everything but the last connection is out of the readers' sight. */
  lemma SplitBuilt(m: Mem, index: Index, p: Ptr, n: Node, r: Ptr, g: Node, b: bool, d: Ptr)
    requires TrieOk(m, index) && p !in m.nodes && r !in m.nodes && p != r && NodeOk(n) && NodeOk(g)
    requires d in m.nodes && Extends(g, !b, m.nodes[d]) && Extends(g, b, n)
    ensures var a := NewNode(NewNode(m, p, n), r, g);
            var c := Connect(a, Child(r, !b), d);
            Building(m, index, [NewNode(m, p, n)] + [a] + ConnectTrace(a, Child(r, !b), d)
                     + ConnectTrace(c, Child(r, b), p),
                     Connect(c, Child(r, b), p))
  {
    var a := NewNode(NewNode(m, p, n), r, g);
    var c := Connect(a, Child(r, !b), d);
    BuildFirst(m, index, p, n);
    BuildNew(m, index, [NewNode(m, p, n)], NewNode(m, p, n), r, g);
    BuildBelow(m, index, [NewNode(m, p, n)] + [a], a, r, !b, d);
    BuildBelow(m, index, [NewNode(m, p, n)] + [a] + ConnectTrace(a, Child(r, !b), d), c, r, b, p);
  }

  lemma SplitDone(m: Mem, index: Index, lists: Lists, p: Ptr, n: Node, r: Ptr, g: Node, b: bool, d: Ptr, s: Slot,
                  peer: Peer)
    requires TableParts(m, index, lists) && p !in m.nodes && r !in m.nodes && p != r
    requires Fresh(m, index, r, g.(parent := s)) && NodeOk(g) && NodeOk(n) && g.peer == None && n.peer == Some(peer)
    requires PrefixOf(n) !in index && Get(m, s) == Some(d) && Live(m, index, d)
    requires Extends(g, !b, m.nodes[d]) && Extends(g, b, n)
    ensures Inserted(m, index, SplitMem(m, p, n, r, g, b, d, s), TwoMore(index, PrefixOf(g), r, PrefixOf(n), p),
                     ListAddTail(lists, p, peer), SplitTrace(m, p, n, r, g, b, d, s), PrefixOf(n), peer)
  {
    var a := NewNode(NewNode(m, p, n), r, g);
    var c := Connect(a, Child(r, !b), d);
    var built := [NewNode(m, p, n)] + [a] + ConnectTrace(a, Child(r, !b), d) + ConnectTrace(c, Child(r, b), p);
    SplitTable(m, index, lists, p, n, r, g, b, d, s, peer);
    SplitBuilt(m, index, p, n, r, g, b, d);
    InsertedIntro(m, index, built, Connect(c, Child(r, b), p), s, r, TwoMore(index, PrefixOf(g), r, PrefixOf(n), p),
                  ListAddTail(lists, p, peer), PrefixOf(n), peer);
  }

  lemma HangSplitOk(m: Mem, index: Index, lists: Lists, key: Bits, cidr: nat, peer: Peer, p: Ptr, r: Ptr,
                    parent: Option<Ptr>, d: Ptr)
    requires TableOk(m, index, lists) && p !in m.nodes && r !in m.nodes && p != r && Placed(m, index, key, cidr, parent)
    requires Get(m, SlotFor(m, parent, key)) == Some(d) && CommonBits(m.nodes[d].bits, key) < cidr
    ensures var s, k := SlotFor(m, parent, key), CommonBits(m.nodes[d].bits, key);
            var n, g, x := NodeFor(key, cidr, Some(peer)), NodeFor(key, k, None), Prefix(|key|, key[..cidr]);
            Inserted(m, index, SplitMem(m, p, n, r, g, key[k], d, s), TwoMore(index, Prefix(|key|, key[..k]), r, x, p),
                     ListAddTail(lists, p, peer), SplitTrace(m, p, n, r, g, key[k], d, s), x, peer)
  {
    var s, k := SlotFor(m, parent, key), CommonBits(m.nodes[d].bits, key);
    var n, g := NodeFor(key, cidr, Some(peer)), NodeFor(key, k, None);
    TableIs(m, index, lists);
    SplitExtends(m, index, key, cidr, peer, parent, d, r);
    assert PrefixOf(n) == Prefix(|key|, key[..cidr]) && PrefixOf(g) == Prefix(|key|, key[..k]);
    SplitDone(m, index, lists, p, n, r, g, key[k], d, s, peer);
  }

  lemma ListDelIs(lists: Lists, p: Ptr, k: Peer)
    ensures ListOf(ListDel(lists, p), k) == Without(ListOf(lists, k), p)
  {
  }

  lemma MoveAt(m: Mem, index: Index, lists: Lists, p: Ptr, peer: Peer, k: Peer, q: Ptr)
    requires Live(m, index, p) && OwnAt(m, index, lists, k, q)
    ensures OwnAt(SetPeer(m, p, Some(peer)), index, ListAddTail(ListDel(lists, p), p, peer), k, q)
  {
    ListDelIs(lists, p, k);
    WithoutIs(ListOf(lists, k), p);
  }

  lemma MoveDistinct(lists: Lists, p: Ptr, peer: Peer, k: Peer)
    requires Distinct(ListOf(lists, k))
    ensures Distinct(ListOf(ListAddTail(ListDel(lists, p), p, peer), k))
  {
    ListDelIs(lists, p, k);
    WithoutIs(ListOf(lists, k), p);
    if k == peer {
      DistinctTail(Without(ListOf(lists, k), p), p);
    }
  }

  lemma ListsMove(m: Mem, index: Index, lists: Lists, p: Ptr, peer: Peer)
    requires ListsOk(m, index, lists) && Live(m, index, p)
    ensures ListsOk(SetPeer(m, p, Some(peer)), index, ListAddTail(ListDel(lists, p), p, peer))
  {
    MovesDistinct(lists, p, peer);
    MovesOwn(m, index, lists, p, peer);
  }

  lemma MovesDistinct(lists: Lists, p: Ptr, peer: Peer)
    requires ListsDistinct(lists)
    ensures ListsDistinct(ListAddTail(ListDel(lists, p), p, peer))
  {
    forall k: Peer ensures Distinct(ListOf(ListAddTail(ListDel(lists, p), p, peer), k)) {
      MoveDistinct(lists, p, peer, k);
    }
  }

  lemma MovesOwn(m: Mem, index: Index, lists: Lists, p: Ptr, peer: Peer)
    requires ListsOwn(m, index, lists) && Live(m, index, p)
    ensures ListsOwn(SetPeer(m, p, Some(peer)), index, ListAddTail(ListDel(lists, p), p, peer))
  {
    var m', lists' := SetPeer(m, p, Some(peer)), ListAddTail(ListDel(lists, p), p, peer);
    forall k: Peer, q: Ptr ensures OwnAt(m', index, lists', k, q) {
      assert OwnAt(m, index, lists, k, q);
      MoveAt(m, index, lists, p, peer, k, q);
    }
  }

  /** The node for the prefix is there: it changes hands and moves to the end of the list. */
  lemma ExactOk(m: Mem, index: Index, lists: Lists, p: Ptr, peer: Peer)
    requires TableOk(m, index, lists) && Live(m, index, p)
    ensures var m' := SetPeer(m, p, Some(peer));
            Inserted(m, index, m', index, ListAddTail(ListDel(lists, p), p, peer), [m'], PrefixOf(m.nodes[p]), peer)
  {
    var m', lists' := SetPeer(m, p, Some(peer)), ListAddTail(ListDel(lists, p), p, peer);
    TableIs(m, index, lists);
    PeerStoreOk(m, index, p, Some(peer));
    PeerStoreRules(m, index, p, Some(peer));
    ListsMove(m, index, lists, p, peer);
    assert DenseOk(m', index);
    TableIs(m', index, lists');
    OneStore(m, Own(p, Some(peer)));
    TrieShows(m', index);
  }

  // ----- when the second allocation fails ------------------------------------------------

  lemma ListsAlike(m: Mem, index: Index, lists: Lists, lists': Lists)
    requires ListsOk(m, index, lists) && forall k: Peer :: ListOf(lists', k) == ListOf(lists, k)
    ensures ListsOk(m, index, lists')
  {
    forall k: Peer, q: Ptr ensures OwnAt(m, index, lists', k, q) {
      assert OwnAt(m, index, lists, k, q);
    }
  }

  lemma GiveUpOk(m: Mem, index: Index, lists: Lists, p: Ptr, n: Node, peer: Peer)
    requires TableOk(m, index, lists) && p !in m.nodes && NodeOk(n)
    ensures FreeNode(NewNode(m, p, n), p) == m
    ensures forall k: Peer :: ListOf(ListDel(ListAddTail(lists, p, peer), p), k) == ListOf(lists, k)
    ensures TableOk(m, index, ListDel(ListAddTail(lists, p, peer), p))
    ensures Published([NewNode(m, p, n), m], RulesOf(m, index), RulesOf(m, index))
            && Stores(m, [NewNode(m, p, n), m], m)
  {
    var a, lists' := NewNode(m, p, n), ListDel(ListAddTail(lists, p, peer), p);
    TableIs(m, index, lists);
    assert FreeNode(a, p).nodes == m.nodes;
    forall k: Peer ensures p !in ListOf(lists, k) {
      assert OwnAt(m, index, lists, k, p);
    }
    forall k: Peer ensures ListOf(lists', k) == ListOf(lists, k) {
      DelUndoesAdd(lists, p, peer, k);
    }
    ListsAlike(m, index, lists, lists');
    TableIs(m, index, lists');
    UnseenNew(m, index, m, p, n);
    QuietThenDone(m, index, m, index, [a]);
    OneStore(m, Create(p, n));
    OneStore(a, Destroy(p));
    StoresThen(m, [a], a, [m], m);
    assert [a] + [m] == [a, m];
  }

  lemma DelUndoesAdd(lists: Lists, p: Ptr, peer: Peer, k: Peer)
    requires forall i: Peer :: p !in ListOf(lists, i)
    ensures ListOf(ListDel(ListAddTail(lists, p, peer), p), k) == ListOf(lists, k)
  {
    WithoutAbsent(ListOf(lists, k), p);
    WithoutLast(ListOf(lists, peer), p);
  }

  lemma {:induction false} WithoutAbsent(s: seq<Ptr>, p: Ptr)
    requires p !in s
    ensures Without(s, p) == s
  {
    if s != [] { WithoutAbsent(s[1..], p); }
  }

  lemma {:induction false} WithoutLast(s: seq<Ptr>, p: Ptr)
    requires p !in s
    ensures Without(s + [p], p) == s
  {
    if s != [] {
      WithoutLast(s[1..], p);
      assert (s + [p])[1..] == s[1..] + [p];
    }
  }
}
