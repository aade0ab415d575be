/** The stack walks with which allowedips.c tears a whole trie down. */
module TrieTeardown {
  import opened Common
  import opened Trie
  import opened TrieStores
  import opened TrieUpdates
  import opened TrieRemovals

  const MAX_ALLOWEDIPS_DEPTH: nat := 129

  // ----- the order in which the walks come by the nodes ----------------------------------

  ghost function Walk(m: Mem, p: Ptr): (r: seq<Ptr>)
    requires MemOk(m) && p in m.nodes
    ensures r != [] && r[0] == p && forall q :: q in r ==> q in m.nodes
    decreases |m.nodes[p].bits| - m.nodes[p].cidr
  {
    var l, r := Child(p, false), Child(p, true);
    assert (l in m.cells ==> CellOk(m, l)) && (r in m.cells ==> CellOk(m, r));
    [p] + (if r in m.cells then Walk(m, m.cells[r]) else []) + (if l in m.cells then Walk(m, m.cells[l]) else [])
  }

  ghost function WalkAt(m: Mem, s: Slot): seq<Ptr>
    requires MemOk(m)
  {
    assert s in m.cells ==> CellOk(m, s);
    if s in m.cells then Walk(m, m.cells[s]) else []
  }

  ghost predicate StackOk(m: Mem, stack: seq<Ptr>) {
    |stack| <= MAX_ALLOWEDIPS_DEPTH && forall i :: 0 <= i < |stack|
                                                   ==> stack[i] in m.nodes && m.nodes[stack[i]].cidr >= i
  }

  /** What is still to come when the stack holds these nodes. */
  ghost function Ahead(m: Mem, stack: seq<Ptr>): (r: seq<Ptr>)
    requires MemOk(m) && StackOk(m, stack)
    ensures forall q :: q in r ==> q in m.nodes
  {
    if stack == [] then [] else Walk(m, stack[|stack| - 1]) + Ahead(m, stack[..|stack| - 1])
  }

  function Pushed(m: Mem, stack: seq<Ptr>, s: Slot): seq<Ptr> {
    if s in m.cells then stack + [m.cells[s]] else stack
  }

  lemma PushOk(m: Mem, stack: seq<Ptr>, p: Ptr, b: bool)
    requires MemOk(m) && StackOk(m, stack) && p in m.nodes && |stack| <= m.nodes[p].cidr + 1
    ensures Child(p, b) in m.cells ==> |stack| < MAX_ALLOWEDIPS_DEPTH
    ensures StackOk(m, Pushed(m, stack, Child(p, b)))
    ensures Ahead(m, Pushed(m, stack, Child(p, b))) == WalkAt(m, Child(p, b)) + Ahead(m, stack)
  {
    var s := Child(p, b);
    if s in m.cells {
      assert CellOk(m, s);
      assert Pushed(m, stack, s)[..|stack|] == stack;
    }
  }

  /** Pushing the children of the popped node never lacks room, and leaves ahead what was
      ahead but for that node. */
  lemma PopAndPush(m: Mem, stack: seq<Ptr>, p: Ptr)
    requires MemOk(m) && StackOk(m, stack + [p])
    ensures p in m.nodes && StackOk(m, stack) && |stack| <= m.nodes[p].cidr
    ensures var s1 := Pushed(m, stack, Child(p, false));
            var s2 := Pushed(m, s1, Child(p, true));
            && StackOk(m, s1) && |s1| <= m.nodes[p].cidr + 1
            && StackOk(m, s2) && Ahead(m, stack + [p]) == [p] + Ahead(m, s2)
  {
    assert (stack + [p])[|stack|] == p && (stack + [p])[..|stack|] == stack;
    assert forall i :: 0 <= i < |stack| ==> (stack + [p])[i] == stack[i];
    var s1 := Pushed(m, stack, Child(p, false));
    PushOk(m, stack, p, false);
    PushOk(m, s1, p, true);
    AheadOf(p, WalkAt(m, Child(p, true)), WalkAt(m, Child(p, false)), Ahead(m, stack));
    assert Walk(m, p) == [p] + WalkAt(m, Child(p, true)) + WalkAt(m, Child(p, false));
  }

  lemma AheadAtFirst(m: Mem, p: Ptr)
    requires MemOk(m) && p in m.nodes
    ensures StackOk(m, [p]) && Ahead(m, [p]) == Walk(m, p)
  {
  }

  lemma AheadOf(p: Ptr, r: seq<Ptr>, l: seq<Ptr>, rest: seq<Ptr>)
    ensures [p] + r + l + rest == [p] + (r + (l + rest))
  {
  }

  // ----- every node in use of the family, once -------------------------------------------

  /** `q` is `p` or below it. */
  predicate Below(m: Mem, p: Ptr, q: Ptr)
    requires p in m.nodes && q in m.nodes
  {
    var a, b := m.nodes[p], m.nodes[q];
    |b.bits| == |a.bits| && a.cidr <= b.cidr && a.cidr <= |a.bits| && b.bits[..a.cidr] == a.bits[..a.cidr]
  }

  lemma {:induction false} WalkIsBelow(m: Mem, index: Index, p: Ptr)
    requires TrieOk(m, index) && Live(m, index, p)
    ensures forall q :: q in Walk(m, p) ==> Live(m, index, q) && Below(m, p, q)
    ensures Distinct(Walk(m, p))
    decreases |m.nodes[p].bits| - m.nodes[p].cidr
  {
    var l, r := WalkAt(m, Child(p, false)), WalkAt(m, Child(p, true));
    WalkSide(m, index, p, false);
    WalkSide(m, index, p, true);
    assert Walk(m, p) == [p] + r + l;
    forall q | q in Walk(m, p) ensures Live(m, index, q) && Below(m, p, q) {
      assert q == p || q in l || q in r;
    }
    DistinctJoin(r, l);
    DistinctJoin([p], r + l);
    assert [p] + (r + l) == [p] + r + l;
  }

  lemma {:induction false} WalkSide(m: Mem, index: Index, p: Ptr, b: bool)
    requires TrieOk(m, index) && Live(m, index, p)
    ensures forall q :: q in WalkAt(m, Child(p, b)) ==> Live(m, index, q) && Extends(m.nodes[p], b, m.nodes[q])
    ensures Distinct(WalkAt(m, Child(p, b)))
    decreases |m.nodes[p].bits| - m.nodes[p].cidr, 0
  {
    var s := Child(p, b);
    if s in m.cells {
      var c := m.cells[s];
      assert CellOk(m, s) && DownAt(m, index, s) && UpAt(m, index, c);
      WalkIsBelow(m, index, c);
      forall q | q in WalkAt(m, s) ensures Live(m, index, q) && Extends(m.nodes[p], b, m.nodes[q]) {
        Shorter(m.nodes[q].bits, m.nodes[c].bits, m.nodes[p].cidr, m.nodes[c].cidr);
      }
    }
  }

  lemma DistinctJoin(s: seq<Ptr>, t: seq<Ptr>)
    requires Distinct(s) && Distinct(t) && forall q :: q in s ==> q !in t
    ensures Distinct(s + t)
  {
    forall i, j | 0 <= i < j < |s + t| ensures (s + t)[i] != (s + t)[j] {
      assert i < |s| ==> s[i] in s;
      assert j >= |s| ==> t[j - |s|] in t;
    }
  }

  lemma {:induction false} WalkClosed(m: Mem, p: Ptr, q: Ptr, b: bool)
    requires MemOk(m) && p in m.nodes && q in Walk(m, p) && Child(q, b) in m.cells
    ensures m.cells[Child(q, b)] in Walk(m, p)
    decreases |m.nodes[p].bits| - m.nodes[p].cidr
  {
    var l, r := WalkAt(m, Child(p, false)), WalkAt(m, Child(p, true));
    assert Walk(m, p) == [p] + r + l;
    if q == p {
      assert Walk(m, m.cells[Child(q, b)])[0] == m.cells[Child(q, b)];
      assert m.cells[Child(q, b)] in (if b then r else l);
    } else {
      var side := Child(p, q !in l);
      assert q in WalkAt(m, side) && CellOk(m, side);
      WalkClosed(m, m.cells[side], q, b);
    }
  }

  lemma {:induction false} WalkMeetsAll(m: Mem, index: Index, q: Ptr)
    requires TrieOk(m, index) && Live(m, index, q)
    ensures q in WalkAt(m, Root(|m.nodes[q].bits|))
    decreases m.nodes[q].cidr
  {
    assert UpAt(m, index, q);
    match m.nodes[q].parent
    case Root(w) =>
      assert Walk(m, q)[0] == q;
    case Child(a, b) =>
      WalkMeetsAll(m, index, a);
      var s := Root(|m.nodes[q].bits|);
      assert CellOk(m, s);
      WalkClosed(m, m.cells[s], a, b);
  }

  /** The walk from a root comes by every node in use of that family exactly once. */
  lemma WalkIsFamily(m: Mem, index: Index, w: nat)
    requires TrieOk(m, index)
    ensures Distinct(WalkAt(m, Root(w)))
    ensures forall q :: q in WalkAt(m, Root(w)) <==> Live(m, index, q) && |m.nodes[q].bits| == w
  {
    var s := Root(w);
    if s in m.cells {
      assert CellOk(m, s) && DownAt(m, index, s);
      WalkIsBelow(m, index, m.cells[s]);
    }
    forall q | Live(m, index, q) && |m.nodes[q].bits| == w ensures q in WalkAt(m, s) {
      WalkMeetsAll(m, index, q);
    }
  }

  // ----- cutting a root off --------------------------------------------------------------

  function CutRoot(m: Mem, w: nat): Mem {
    Put(m, Root(w), None)
  }

  lemma CutStores(m: Mem, v: nat, w: nat)
    ensures Stores(m, [CutRoot(m, v), CutRoot(CutRoot(m, v), w)], CutRoot(CutRoot(m, v), w))
  {
    var m' := CutRoot(m, v);
    OneStore(m, Point(Root(v), None));
    OneStore(m', Point(Root(w), None));
    StoresThen(m, [m'], m', [CutRoot(m', w)], CutRoot(m', w));
    assert [m'] + [CutRoot(m', w)] == [m', CutRoot(m', w)];
  }

  ghost function OtherFamily(index: Index, w: nat): Index {
    map x | x in index && x.width != w :: index[x]
  }

  function RulesNotOf(rules: Rules, w: nat): Rules {
    map x | x in rules && x.width != w :: rules[x]
  }

  lemma CutLive(m: Mem, index: Index, w: nat, q: Ptr)
    ensures Live(CutRoot(m, w), OtherFamily(index, w), q) <==> Live(m, index, q) && |m.nodes[q].bits| != w
  {
  }

  lemma CutUp(m: Mem, index: Index, w: nat, q: Ptr)
    requires Live(m, index, q) && |m.nodes[q].bits| != w && UpAt(m, index, q)
    ensures UpAt(CutRoot(m, w), OtherFamily(index, w), q)
  {
  }

  lemma CutDown(m: Mem, index: Index, w: nat, s: Slot)
    requires s in CutRoot(m, w).cells && CellOk(m, s)
    requires Owned(CutRoot(m, w), OtherFamily(index, w), s) && (Owned(m, index, s) ==> DownAt(m, index, s))
    ensures DownAt(CutRoot(m, w), OtherFamily(index, w), s)
  {
  }

  lemma CutTrieOk(m: Mem, index: Index, w: nat)
    requires TrieOk(m, index)
    ensures TrieOk(CutRoot(m, w), OtherFamily(index, w))
  {
    var m', index' := CutRoot(m, w), OtherFamily(index, w);
    forall s | s in m'.cells ensures CellOk(m', s) {
      assert CellOk(m, s);
    }
    forall q | Live(m', index', q) ensures UpAt(m', index', q) {
      CutLive(m, index, w, q);
      assert UpAt(m, index, q);
      CutUp(m, index, w, q);
    }
    forall s | s in m'.cells && Owned(m', index', s) ensures DownAt(m', index', s) {
      assert CellOk(m, s) && (Owned(m, index, s) ==> DownAt(m, index, s));
      CutDown(m, index, w, s);
    }
  }

  lemma CutRules(m: Mem, index: Index, w: nat)
    ensures RulesOf(CutRoot(m, w), OtherFamily(index, w)) == RulesNotOf(RulesOf(m, index), w)
  {
  }

  /** Storing NULL in a root takes that family's rules away, and nothing else. */
  lemma CutOk(m: Mem, index: Index, w: nat)
    requires TrieOk(m, index)
    ensures TrieOk(CutRoot(m, w), OtherFamily(index, w))
    ensures RulesOf(CutRoot(m, w), OtherFamily(index, w)) == RulesNotOf(RulesOf(m, index), w)
    ensures Shows(CutRoot(m, w), RulesNotOf(RulesOf(m, index), w))
  {
    CutTrieOk(m, index, w);
    CutRules(m, index, w);
    TrieShows(CutRoot(m, w), OtherFamily(index, w));
  }

  lemma {:induction false} WalkCut(m: Mem, w: nat, p: Ptr)
    requires MemOk(m) && MemOk(CutRoot(m, w)) && p in m.nodes
    ensures Walk(CutRoot(m, w), p) == Walk(m, p)
    decreases |m.nodes[p].bits| - m.nodes[p].cidr
  {
    var l, r := Child(p, false), Child(p, true);
    if l in m.cells {
      assert CellOk(m, l);
      WalkCut(m, w, m.cells[l]);
    }
    if r in m.cells {
      assert CellOk(m, r);
      WalkCut(m, w, m.cells[r]);
    }
  }

  lemma {:induction false} DelAllCut(m: Mem, m': Mem, lists: Lists, walk: seq<Ptr>)
    requires m.nodes == m'.nodes && forall q :: q in walk ==> q in m.nodes
    ensures DelAll(m', lists, walk) == DelAll(m, lists, walk)
    decreases |walk|
  {
    if walk != [] {
      DelAllCut(m, m', if m.nodes[walk[0]].peer.Some? then ListDel(lists, walk[0]) else lists, walk[1..]);
    }
  }

  lemma TeardownMem(m: Mem, index: Index)
    requires TrieOk(m, index)
    ensures var m1 := CutRoot(m, 32);
            var m2 := CutRoot(m1, 128);
            && MemOk(m1) && TrieOk(m2, map[])
            && Shows(m1, RulesNotOf(RulesOf(m, index), 32)) && Shows(m2, map[])
  {
    var m1, index1 := CutRoot(m, 32), OtherFamily(index, 32);
    CutOk(m, index, 32);
    CutOk(m1, index1, 128);
    assert OtherFamily(index1, 128) == map[];
    assert RulesNotOf(RulesOf(m1, index1), 128) == map[];
  }

  /** Both roots are NULL, both families' nodes have left the lists. */
  lemma TeardownOk(m: Mem, index: Index, lists: Lists)
    requires TableOk(m, index, lists)
    ensures MemOk(m) && MemOk(CutRoot(m, 32)) && MemOk(CutRoot(CutRoot(m, 32), 128))
    ensures var m1 := CutRoot(m, 32);
            var m2, w4, w6 := CutRoot(m1, 128), WalkAt(m, Root(32)), WalkAt(m, Root(128));
            && (forall q :: q in w4 || q in w6 ==> q in m.nodes)
            && TableOk(m2, map[], DelAll(m, DelAll(m, lists, w4), w6))
            && Shows(m1, RulesNotOf(RulesOf(m, index), 32)) && Shows(m2, map[])
            && Distinct(w4 + w6) && (forall q :: q in w4 + w6 <==> Live(m, index, q))
  {
    TableIs(m, index, lists);
    TeardownMem(m, index);
    WalkIsFamily(m, index, 32);
    WalkIsFamily(m, index, 128);
    DistinctJoin(WalkAt(m, Root(32)), WalkAt(m, Root(128)));
    TeardownEmpty(m, CutRoot(CutRoot(m, 32), 128), index, lists);
  }

  lemma TeardownEmpty(m: Mem, m2: Mem, index: Index, lists: Lists)
    requires TableParts(m, index, lists) && TrieOk(m2, map[])
    requires forall q :: q in WalkAt(m, Root(32)) || q in WalkAt(m, Root(128)) ==> q in m.nodes
    requires forall q :: Live(m, index, q) ==> q in WalkAt(m, Root(32)) || q in WalkAt(m, Root(128))
    ensures TableOk(m2, map[], DelAll(m, DelAll(m, lists, WalkAt(m, Root(32))), WalkAt(m, Root(128))))
  {
    var w4, w6 := WalkAt(m, Root(32)), WalkAt(m, Root(128));
    var lists' := DelAll(m, DelAll(m, lists, w4), w6);
    forall k: Peer ensures ListOf(lists', k) == [] {
      forall q | q in ListOf(lists, k) ensures (q in w4 || q in w6) && m.nodes[q].peer.Some? {
        assert OwnAt(m, index, lists, k, q);
      }
      TeardownLists(m, lists, w4, w6, k);
    }
    TableIs(m2, map[], lists');
  }

  lemma TeardownLists(m: Mem, lists: Lists, w4: seq<Ptr>, w6: seq<Ptr>, k: Peer)
    requires forall q :: q in w4 || q in w6 ==> q in m.nodes
    requires forall q :: q in ListOf(lists, k) ==> (q in w4 || q in w6) && m.nodes[q].peer.Some?
    ensures ListOf(DelAll(m, DelAll(m, lists, w4), w6), k) == []
  {
    DelAllIs(m, lists, w4, k);
    DelAllIs(m, DelAll(m, lists, w4), w6, k);
    EmptyWhenNone(ListOf(DelAll(m, DelAll(m, lists, w4), w6), k));
  }

  lemma TeardownWalks(m: Mem, m2: Mem, lists: Lists)
    requires MemOk(m) && MemOk(CutRoot(m, 32)) && MemOk(m2) && m2 == CutRoot(CutRoot(m, 32), 128)
    ensures forall s :: s in m.cells ==> m.cells[s] in m.nodes && Walk(m2, m.cells[s]) == WalkAt(m, s)
    ensures var w4, w6 := WalkAt(m, Root(32)), WalkAt(m, Root(128));
            && (forall q :: q in w4 || q in w6 ==> q in m.nodes)
            && DelAll(m2, DelAll(m2, lists, w4), w6) == DelAll(m, DelAll(m, lists, w4), w6)
  {
    forall s | s in m.cells ensures m.cells[s] in m.nodes && Walk(m2, m.cells[s]) == WalkAt(m, s) {
      assert CellOk(m, s);
      WalkCut(m, 32, m.cells[s]);
      WalkCut(CutRoot(m, 32), 128, m.cells[s]);
    }
    var w4, w6 := WalkAt(m, Root(32)), WalkAt(m, Root(128));
    DelAllCut(m, m2, lists, w4);
    DelAllCut(m, m2, DelAll(m, lists, w4), w6);
  }

  // ----- taking the walk's nodes off the lists -------------------------------------------

  ghost function DelAll(m: Mem, lists: Lists, walk: seq<Ptr>): Lists
    requires forall q :: q in walk ==> q in m.nodes
  {
    if walk == [] then lists
    else DelAll(m, if m.nodes[walk[0]].peer.Some? then ListDel(lists, walk[0]) else lists, walk[1..])
  }

  lemma {:induction false} DelAllIs(m: Mem, lists: Lists, walk: seq<Ptr>, k: Peer)
    requires forall q :: q in walk ==> q in m.nodes
    ensures forall q :: q in ListOf(DelAll(m, lists, walk), k) <==>
                        q in ListOf(lists, k) && !(q in walk && m.nodes[q].peer.Some?)
  {
    if walk != [] {
      var p := walk[0];
      var lists' := if m.nodes[p].peer.Some? then ListDel(lists, p) else lists;
      ListDelIs(lists, p, k);
      WithoutIs(ListOf(lists, k), p);
      DelAllIs(m, lists', walk[1..], k);
      assert forall q :: q in walk <==> q == p || q in walk[1..];
    }
  }

  // ----- an empty rule table is an empty trie --------------------------------------------

  /** At or below every node in use there is one with a peer. */
  lemma {:induction false} RuleBelow(m: Mem, index: Index, p: Ptr) returns (q: Ptr)
    requires TrieOk(m, index) && DenseOk(m, index) && Live(m, index, p)
    ensures Live(m, index, q) && m.nodes[q].peer.Some? && PrefixOf(m.nodes[q]) in RulesOf(m, index)
    ensures var n, c := m.nodes[p], m.nodes[q];
            |c.bits| == |n.bits| && n.cidr <= c.cidr && c.bits[..n.cidr] == n.bits[..n.cidr]
    decreases |m.nodes[p].bits| - m.nodes[p].cidr
  {
    assert Dense(m, p);
    if m.nodes[p].peer.Some? {
      q := p;
    } else {
      var s := Child(p, false);
      var c := m.cells[s];
      assert CellOk(m, s) && DownAt(m, index, s) && UpAt(m, index, c);
      q := RuleBelow(m, index, c);
      Shorter(m.nodes[q].bits, m.nodes[c].bits, m.nodes[p].cidr, m.nodes[c].cidr);
    }
  }

  /** When the last rule is gone no node is left and both roots are NULL again. */
  lemma NoRulesNoNodes(m: Mem, index: Index, lists: Lists)
    requires TableOk(m, index, lists) && RulesOf(m, index) == map[]
    ensures index == map[] && forall w: nat :: Root(w) !in m.cells
  {
    TableIs(m, index, lists);
    if x :| x in index {
      var q := RuleBelow(m, index, index[x]);
    }
    forall w: nat ensures Root(w) !in m.cells {
      assert Root(w) in m.cells ==> DownAt(m, index, Root(w));
    }
  }

  lemma OneGone(walk: seq<Ptr>, n: nat, p: Ptr, ahead: seq<Ptr>)
    requires n <= |walk| && walk[n..] == [p] + ahead
    ensures n < |walk| && walk[..n + 1] == walk[..n] + [p] && walk[n + 1..] == ahead
  {
    assert walk[n..][0] == p && walk[n..][1..] == ahead;
  }
}
