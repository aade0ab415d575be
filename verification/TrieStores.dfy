/** The stores of allowedips.c and what each does to a well-formed trie and to its readers. */
module TrieStores {
  import opened Common
  import opened Trie

  /** A zeroed node, filled in before any pointer leads to it. */
  function NewNode(m: Mem, p: Ptr, n: Node): Mem {
    m.(nodes := m.nodes[p := n])
  }

  function SetParent(m: Mem, p: Ptr, s: Slot): Mem
    requires p in m.nodes
  {
    m.(nodes := m.nodes[p := m.nodes[p].(parent := s)])
  }

  function SetPeer(m: Mem, p: Ptr, v: Option<Peer>): Mem
    requires p in m.nodes
  {
    m.(nodes := m.nodes[p := m.nodes[p].(peer := v)])
  }

  /** `*s = c` */
  function Put(m: Mem, s: Slot, c: Option<Ptr>): Mem {
    m.(cells := if c.Some? then m.cells[s := c.value] else m.cells - {s})
  }

  /** `kmem_cache_free` of a node nothing points to. */
  function FreeNode(m: Mem, p: Ptr): Mem {
    m.(nodes := m.nodes - {p})
  }

  // ----- memories one store apart --------------------------------------------------------

  /** One store of the C code; a new node is filled in before it is stored anywhere. */
  datatype Write =
    | Create(p: Ptr, n: Node)
    | Reparent(p: Ptr, s: Slot)
    | Own(p: Ptr, v: Option<Peer>)
    | Point(s: Slot, c: Option<Ptr>)
    | Destroy(p: Ptr)

  predicate CanWrite(m: Mem, w: Write) {
    match w
    case Create(p, _) => p !in m.nodes
    case Reparent(p, _) => p in m.nodes
    case Own(p, _) => p in m.nodes
    case Point(_, _) => true
    case Destroy(p) => p in m.nodes
  }

  function Written(m: Mem, w: Write): Mem
    requires CanWrite(m, w)
  {
    match w
    case Create(p, n) => NewNode(m, p, n)
    case Reparent(p, s) => SetParent(m, p, s)
    case Own(p, v) => SetPeer(m, p, v)
    case Point(s, c) => Put(m, s, c)
    case Destroy(p) => FreeNode(m, p)
  }

  ghost predicate Store(m: Mem, m': Mem) {
    exists w :: CanWrite(m, w) && m' == Written(m, w)
  }

  /** The list holds every memory between m and m', one store after the other, m' last. */
  ghost predicate Stores(m: Mem, seen: seq<Mem>, m': Mem)
    decreases seen
  {
    if seen == [] then m' == m else Store(m, seen[0]) && Stores(seen[0], seen[1..], m')
  }

  lemma OneStore(m: Mem, w: Write)
    requires CanWrite(m, w)
    ensures Stores(m, [Written(m, w)], Written(m, w))
  {
    assert [Written(m, w)][1..] == [];
  }

  lemma {:induction false} StoresThen(m: Mem, a: seq<Mem>, m': Mem, b: seq<Mem>, m'': Mem)
    requires Stores(m, a, m') && Stores(m', b, m'')
    ensures Stores(m, a + b, m'')
    decreases a
  {
    if a == [] {
      assert a + b == b;
    } else {
      StoresThen(a[0], a[1..], m', b, m'');
      assert (a + b)[1..] == a[1..] + b;
    }
  }

  /** A parent link and a pointer. */
  lemma ConnectStores(m: Mem, s: Slot, p: Ptr)
    requires p in m.nodes
    ensures var a := SetParent(m, p, s);
            Stores(m, [a, Put(a, s, Some(p))], Put(a, s, Some(p)))
  {
    var a := SetParent(m, p, s);
    OneStore(m, Reparent(p, s));
    OneStore(a, Point(s, Some(p)));
    StoresThen(m, [a], a, [Put(a, s, Some(p))], Put(a, s, Some(p)));
    assert [a] + [Put(a, s, Some(p))] == [a, Put(a, s, Some(p))];
  }

  // ----- setting a peer ------------------------------------------------------------------

  lemma PeerStoreOk(m: Mem, index: Index, p: Ptr, v: Option<Peer>)
    requires TrieOk(m, index) && Live(m, index, p)
    ensures TrieOk(SetPeer(m, p, v), index)
    ensures forall q :: Live(SetPeer(m, p, v), index, q) <==> Live(m, index, q)
  {
    var m' := SetPeer(m, p, v);
    assert forall q :: Live(m', index, q) <==> Live(m, index, q);
    forall s | s in m'.cells ensures CellOk(m', s) {
      assert CellOk(m, s);
    }
    forall q | Live(m', index, q) ensures UpAt(m', index, q) {
      assert UpAt(m, index, q);
    }
    forall s | s in m'.cells && Owned(m', index, s) ensures DownAt(m', index, s) {
      assert DownAt(m, index, s);
    }
  }

  // ----- a new node in an empty slot -----------------------------------------------------

  ghost predicate Fresh(m: Mem, index: Index, p: Ptr, n: Node) {
    && p !in m.nodes && NodeOk(n) && PrefixOf(n) !in index && Fits(m, index, n.parent, n)
  }

  function Leaf(m: Mem, p: Ptr, n: Node): Mem {
    Put(NewNode(m, p, n), n.parent, Some(p))
  }

  /** After a node has come into use, the nodes in use are the old ones and it. */
  lemma FreshLive(m: Mem, m': Mem, index: Index, index': Index, p: Ptr, n: Node)
    requires IndexOk(m, index) && Fresh(m, index, p, n) && index' == index[PrefixOf(n) := p]
    requires m'.nodes.Keys == m.nodes.Keys + {p} && m'.nodes[p] == n
    requires forall q :: q in m.nodes ==> m'.nodes[q] == m.nodes[q].(parent := m'.nodes[q].parent)
    ensures IndexOk(m', index')
    ensures forall q :: Live(m', index', q) <==> q == p || Live(m, index, q)
  {
  }

  lemma LeafStoreOk(m: Mem, index: Index, p: Ptr, n: Node)
    requires TrieOk(m, index) && Fresh(m, index, p, n) && Get(m, n.parent) == None
    ensures TrieOk(Leaf(m, p, n), index[PrefixOf(n) := p])
  {
    var m', index' := Leaf(m, p, n), index[PrefixOf(n) := p];
    FreshLive(m, m', index, index', p, n);
    forall s | s in m'.cells ensures CellOk(m', s) {
      assert s in m.cells ==> CellOk(m, s);
    }
    forall q | Live(m', index', q) ensures UpAt(m', index', q) {
      assert q != p ==> UpAt(m, index, q);
    }
    forall s | s in m'.cells && Owned(m', index', s) ensures DownAt(m', index', s) {
      assert s in m.cells ==> CellOk(m, s);
      assert s in m.cells && Owned(m, index, s) ==> DownAt(m, index, s);
    }
  }

  // ----- a new node above an existing one ------------------------------------------------

  /** New node p takes over the slot n.parent; what hung there, d, becomes its child. */
  function Above(m: Mem, p: Ptr, n: Node, b: bool, d: Ptr): Mem
    requires d in m.nodes
  {
    Put(Put(NewNode(SetParent(m, d, Child(p, b)), p, n), Child(p, b), Some(d)), n.parent, Some(p))
  }

  lemma AboveUp(m: Mem, m': Mem, index: Index, index': Index, p: Ptr, n: Node, b: bool, d: Ptr, q: Ptr)
    requires Fresh(m, index, p, n) && d in m.nodes && m' == Above(m, p, n, b, d)
    requires Live(m', index', p) && Get(m, n.parent) == Some(d) && m.nodes[d].parent == n.parent
             && Extends(n, b, m.nodes[d])
    requires Live(m, index, q) && UpAt(m, index, q)
    requires forall r :: Live(m, index, r) ==> Live(m', index', r)
    ensures UpAt(m', index', q)
  {
  }

  lemma AboveCells(m: Mem, index: Index, p: Ptr, n: Node, b: bool, d: Ptr)
    requires MemOk(m) && Fresh(m, index, p, n) && Get(m, n.parent) == Some(d) && d in m.nodes
             && Extends(n, b, m.nodes[d])
    ensures MemOk(Above(m, p, n, b, d))
  {
    var m' := Above(m, p, n, b, d);
    assert CellOk(m, n.parent);
    forall s | s in m'.cells ensures CellOk(m', s) {
      assert s in m.cells ==> CellOk(m, s);
    }
  }

  lemma AboveDown(m: Mem, index: Index, p: Ptr, n: Node, b: bool, d: Ptr, s: Slot)
    requires MemOk(m) && Fresh(m, index, p, n) && Get(m, n.parent) == Some(d) && Live(m, index, d)
             && Extends(n, b, m.nodes[d])
    requires m.nodes[d].parent == n.parent && IndexOk(m, index)
    requires s in m.cells && Owned(m, index, s) ==> DownAt(m, index, s)
    requires var m', index' := Above(m, p, n, b, d), index[PrefixOf(n) := p];
             s in m'.cells && Owned(m', index', s)
    ensures DownAt(Above(m, p, n, b, d), index[PrefixOf(n) := p], s)
  {
    FreshLive(m, Above(m, p, n, b, d), index, index[PrefixOf(n) := p], p, n);
    assert s in m.cells ==> CellOk(m, s);
  }

  lemma AboveStoreOk(m: Mem, index: Index, p: Ptr, n: Node, b: bool, d: Ptr)
    requires TrieOk(m, index) && Fresh(m, index, p, n) && Get(m, n.parent) == Some(d)
    requires Live(m, index, d) && Extends(n, b, m.nodes[d])
    ensures TrieOk(Above(m, p, n, b, d), index[PrefixOf(n) := p])
  {
    var m', index' := Above(m, p, n, b, d), index[PrefixOf(n) := p];
    FreshLive(m, m', index, index', p, n);
    AboveCells(m, index, p, n, b, d);
    assert DownAt(m, index, n.parent);
    forall q | Live(m', index', q) ensures UpAt(m', index', q) {
      if q != p {
        assert UpAt(m, index, q);
        AboveUp(m, m', index, index', p, n, b, d, q);
      }
    }
    forall s | s in m'.cells && Owned(m', index', s) ensures DownAt(m', index', s) {
      assert s in m.cells && Owned(m, index, s) ==> DownAt(m, index, s);
      AboveDown(m, index, p, n, b, d, s);
    }
  }

  // ----- taking a node out ---------------------------------------------------------------

  /** `node->bit[!node->bit[0]]`: the only child, if there is at most one. */
  function OnlyKid(m: Mem, p: Ptr): Option<Ptr> {
    Get(m, Child(p, Child(p, false) !in m.cells))
  }

  /** Node p is replaced by its only child, or by nothing, in the slot it hangs from. */
  function Splice(m: Mem, p: Ptr): Mem
    requires p in m.nodes
    requires OnlyKid(m, p).Some? ==> OnlyKid(m, p).value in m.nodes
  {
    var s, c := m.nodes[p].parent, OnlyKid(m, p);
    Put(if c.Some? then SetParent(m, c.value, s) else m, s, c)
  }

  ghost predicate CanSplice(m: Mem, index: Index, p: Ptr) {
    && Live(m, index, p) && !(Child(p, false) in m.cells && Child(p, true) in m.cells)
    && (OnlyKid(m, p).Some? ==> Live(m, index, OnlyKid(m, p).value))
  }

  lemma SpliceLive(m: Mem, m': Mem, index: Index, p: Ptr)
    requires IndexOk(m, index) && Live(m, index, p) && m'.nodes.Keys == m.nodes.Keys
    requires forall q :: q in m.nodes ==> m'.nodes[q] == m.nodes[q].(parent := m'.nodes[q].parent)
    ensures IndexOk(m', index - {PrefixOf(m.nodes[p])})
    ensures forall q :: Live(m', index - {PrefixOf(m.nodes[p])}, q) <==> q != p && Live(m, index, q)
  {
  }

  lemma SpliceUp(m: Mem, index: Index, p: Ptr, q: Ptr)
    requires CanSplice(m, index, p) && UpAt(m, index, p)
    requires q != p && Live(m, index, q) && UpAt(m, index, q)
    requires OnlyKid(m, p).Some? ==>
               var c := OnlyKid(m, p).value;
               m.nodes[c].parent == Child(p, Child(p, false) !in m.cells)
                 && Fits(m, index, m.nodes[p].parent, m.nodes[c])
    requires forall r :: r != p && Live(m, index, r) ==> Live(Splice(m, p), index - {PrefixOf(m.nodes[p])}, r)
    ensures UpAt(Splice(m, p), index - {PrefixOf(m.nodes[p])}, q)
  {
  }

  lemma SpliceStoreOk(m: Mem, index: Index, p: Ptr)
    requires TrieOk(m, index) && CanSplice(m, index, p)
    ensures TrieOk(Splice(m, p), index - {PrefixOf(m.nodes[p])})
    ensures forall q :: Live(Splice(m, p), index - {PrefixOf(m.nodes[p])}, q) <==> q != p && Live(m, index, q)
  {
    var m', index' := Splice(m, p), index - {PrefixOf(m.nodes[p])};
    var c := OnlyKid(m, p);
    SpliceLive(m, m', index, p);
    assert UpAt(m, index, p) && CellOk(m, m.nodes[p].parent);
    if c.Some? {
      assert UpAt(m, index, c.value);
      var s := Child(p, Child(p, false) !in m.cells);
      assert DownAt(m, index, s) && CellOk(m, s);
      SpliceExtends(m, index, p, c.value);
    }
    forall s | s in m'.cells ensures CellOk(m', s) {
      assert s in m.cells ==> CellOk(m, s);
    }
    forall q | Live(m', index', q) ensures UpAt(m', index', q) {
      assert UpAt(m, index, q);
      SpliceUp(m, index, p, q);
    }
    forall s | s in m'.cells && Owned(m', index', s) ensures DownAt(m', index', s) {
      assert s in m.cells && Owned(m, index, s) ==> DownAt(m, index, s);
    }
  }

  lemma SpliceExtends(m: Mem, index: Index, p: Ptr, c: Ptr)
    requires p in m.nodes && c in m.nodes && NodeOk(m.nodes[p]) && NodeOk(m.nodes[c])
    requires Fits(m, index, m.nodes[p].parent, m.nodes[p]) && exists b :: Extends(m.nodes[p], b, m.nodes[c])
    ensures Fits(m, index, m.nodes[p].parent, m.nodes[c])
  {
  }

  // ----- what readers see ----------------------------------------------------------------

  ghost predicate ShowsAt(m: Mem, rules: Rules, key: Bits) {
    MemOk(m) && Lookup(m, key) == LongestMatch(rules, key)
  }

  /** Every lookup in `m` runs safely and gives the answer of the rule table. */
  ghost predicate Shows(m: Mem, rules: Rules) {
    forall key {:trigger ShowsAt(m, rules, key)} :: ShowsAt(m, rules, key)
  }

  lemma TrieShows(m: Mem, index: Index)
    requires TrieOk(m, index)
    ensures Shows(m, RulesOf(m, index))
  {
    forall key ensures ShowsAt(m, RulesOf(m, index), key) {
      LookupIsLongestMatch(m, index, key);
    }
  }

  /** Nothing a reader looks at changed in a node in use. */
  ghost predicate Unseen(m: Mem, index: Index, m': Mem) {
    && MemOk(m')
    && (forall p :: Live(m, index, p) ==> p in m'.nodes && m'.nodes[p] == m.nodes[p].(parent := m'.nodes[p].parent))
    && (forall s :: Owned(m, index, s) ==> Get(m', s) == Get(m, s))
  }

  lemma {:induction false} UnseenFrom(m: Mem, index: Index, m': Mem, p: Ptr, key: Bits)
    requires TrieOk(m, index) && Unseen(m, index, m') && Live(m, index, p) && |m.nodes[p].bits| == |key|
    ensures Best(m', Some(p), key) == Best(m, Some(p), key)
    ensures Best(m, Some(p), key).Some? ==> Live(m, index, Best(m, Some(p), key).value)
    decreases |key| - m.nodes[p].cidr
  {
    var n := m.nodes[p];
    if Matches(n, key) && n.cidr < |key| {
      var s := Child(p, key[n.cidr]);
      assert Owned(m, index, s);
      if s in m.cells {
        assert DownAt(m, index, s) && CellOk(m, s) && CellOk(m', s);
        UnseenFrom(m, index, m', m.cells[s], key);
      }
      assert BestAt(m', s, key) == BestAt(m, s, key) == Best(m, Get(m, s), key);
    }
  }

  lemma UnseenShows(m: Mem, index: Index, m': Mem)
    requires TrieOk(m, index) && Unseen(m, index, m')
    ensures Shows(m', RulesOf(m, index))
  {
    forall key ensures ShowsAt(m', RulesOf(m, index), key) {
      LookupIsLongestMatch(m, index, key);
      var s := Root(|key|);
      assert Owned(m, index, s);
      if s in m.cells {
        assert DownAt(m, index, s) && CellOk(m, s);
        UnseenFrom(m, index, m', m.cells[s], key);
      }
      assert BestAt(m', s, key) == BestAt(m, s, key) == Best(m, Get(m, s), key);
      var best := BestAt(m, s, key);
      if best.Some? {
        assert Live(m, index, best.value);
        assert PeerAt(m', best) == PeerAt(m, best);
      }
    }
  }

  // ----- stores readers do not notice ----------------------------------------------------

  lemma UnseenNew(m: Mem, index: Index, a: Mem, p: Ptr, n: Node)
    requires Unseen(m, index, a) && p !in a.nodes && NodeOk(n)
    ensures Unseen(m, index, NewNode(a, p, n))
  {
    var a' := NewNode(a, p, n);
    forall s | s in a'.cells ensures CellOk(a', s) {
      assert CellOk(a, s);
    }
  }

  lemma UnseenParent(m: Mem, index: Index, a: Mem, p: Ptr, s: Slot)
    requires Unseen(m, index, a) && p in a.nodes
    ensures Unseen(m, index, SetParent(a, p, s))
  {
    var a' := SetParent(a, p, s);
    forall s | s in a'.cells ensures CellOk(a', s) {
      assert CellOk(a, s);
    }
  }

  lemma UnseenPut(m: Mem, index: Index, a: Mem, s: Slot, c: Ptr)
    requires Unseen(m, index, a) && !Owned(m, index, s) && CellOk(Put(a, s, Some(c)), s)
    ensures Unseen(m, index, Put(a, s, Some(c)))
  {
    var a' := Put(a, s, Some(c));
    forall s | s in a'.cells ensures CellOk(a', s) {
      assert s in a.cells ==> CellOk(a, s);
    }
  }

  // ----- what the stores do to the rules -------------------------------------------------

  lemma PeerStoreRules(m: Mem, index: Index, p: Ptr, v: Option<Peer>)
    requires IndexOk(m, index) && Live(m, index, p)
    ensures var x := PrefixOf(m.nodes[p]);
            RulesOf(SetPeer(m, p, v), index) ==
            if v.Some? then RulesOf(m, index)[x := v.value] else RulesOf(m, index) - {x}
  {
  }

  lemma NewNodeRules(m: Mem, m': Mem, index: Index, p: Ptr, n: Node)
    requires IndexOk(m, index) && Fresh(m, index, p, n)
    requires m'.nodes.Keys == m.nodes.Keys + {p} && m'.nodes[p] == n
    requires forall q :: q in m.nodes ==> m'.nodes[q] == m.nodes[q].(parent := m'.nodes[q].parent)
    ensures RulesOf(m', index[PrefixOf(n) := p]) ==
            if n.peer.Some? then RulesOf(m, index)[PrefixOf(n) := n.peer.value] else RulesOf(m, index)
  {
  }

  lemma SpliceRules(m: Mem, index: Index, p: Ptr)
    requires TrieOk(m, index) && CanSplice(m, index, p) && m.nodes[p].peer == None
    ensures RulesOf(Splice(m, p), index - {PrefixOf(m.nodes[p])}) == RulesOf(m, index)
  {
  }
}
