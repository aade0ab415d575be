/** The allowed-IPs table of allowedips.c as a mutable object: insertion with node split,
    removal by peer with splicing, longest-prefix lookup and teardown. */
module AllowedIps {
  import opened Common
  import opened Trie
  import opened TrieStores
  import opened TrieUpdates
  import opened TrieRemovals
  import opened TrieTeardown
  import opened TrieReaders

  datatype Error = Ok | Invalid | NoMemory

  /** Nodes from `brk` on have not been given out yet. */
  ghost predicate NodesBelow(m: Mem, brk: Ptr) {
    forall p :: p in m.nodes ==> p < brk
  }

  /** `find_node` from a given node */
  method FindNode(mem: Mem, root: Option<Ptr>, key: Bits) returns (found: Option<Ptr>)
    requires MemOk(mem) && StartOk(mem, root, key)
    ensures found == Best(mem, root, key)
  {
    var node := root;
    found := None;
    while node.Some? && Matches(mem.nodes[node.value], key)
      invariant StartOk(mem, node, key)
      invariant Best(mem, root, key) == if Best(mem, node, key).Some? then Best(mem, node, key) else found
      decreases if node.Some? then |key| + 1 - mem.nodes[node.value].cidr else 0
    {
      var n := mem.nodes[node.value];
      if n.peer.Some? {
        found := node;
      }
      if n.cidr == |key| {
        break;
      }
      var s := Child(node.value, key[n.cidr]);
      assert s in mem.cells ==> CellOk(mem, s);
      node := Get(mem, s);
    }
  }

  /** `lookup` with its retries, all of which start at the root its caller has read: the first
      attempt that finds nothing, or a peer that can be referenced, decides. */
  method LookupAlive(root: Option<Ptr>, attempts: seq<Attempt>, key: Bits) returns (k: nat, peer: Option<Peer>)
    requires forall i :: 0 <= i < |attempts| ==> AttemptOk(attempts[i], root, key)
    ensures k <= |attempts| && (forall i :: 0 <= i < k ==> VerdictOf(attempts[i], root, key) == Again)
    ensures k < |attempts| ==> VerdictOf(attempts[k], root, key) == Decided(peer)
  {
    k, peer := 0, None;
    while k < |attempts|
      invariant k <= |attempts| && forall i :: 0 <= i < k ==> VerdictOf(attempts[i], root, key) == Again
    {
      var a := attempts[k];
      var node := FindNode(a.walk, root, key);
      if node.None? {
        return k, None;
      }
      peer := a.load.nodes[node.value].peer;
      if peer.Some? && peer.value in a.alive {
        return;
      }
      k := k + 1;
    }
  }

  /** `struct allowedips` with its node memory, the peers' lists and, for the statements about
      readers, every memory the last update has made visible. */
  class AllowedIps {
    var mem: Mem
    var lists: Lists
    var brk: Ptr
    var seqno: nat
    ghost var seen: seq<Mem>
    ghost var index: Index

    ghost predicate Valid()
      reads this`mem, this`index, this`lists, this`brk
    {
      && TableOk(mem, index, lists)
      && NodesBelow(mem, brk)
    }

    ghost function Rules(): Rules
      reads this`mem, this`index
    {
      RulesOf(mem, index)
    }

    /** `wg_allowedips_init` */
    constructor ()
      ensures Valid() && Rules() == map[] && seqno == 1
    {
      mem := Mem(map[], map[]);
      lists, brk, seqno, seen, index := map[], 0, 1, [], map[];
      new;
      TableIs(mem, index, lists);
    }

    /** One undisturbed attempt of `lookup`, from the root as it is: the peer of the longest rule that
        covers the address. */
    method Lookup(key: Bits) returns (peer: Option<Peer>)
      requires Valid()
      ensures peer == LongestMatch(Rules(), key)
    {
      TableIs(mem, index, lists);
      LookupIsLongestMatch(mem, index, key);
      assert Root(|key|) in mem.cells ==> CellOk(mem, Root(|key|));
      var node := FindNode(mem, Get(mem, Root(|key|)), key);
      peer := if node.Some? then mem.nodes[node.value].peer else None;
    }

    /** `node_placement`: the node for this very prefix, or the place for a new one. */
    method NodePlacement(key: Bits, cidr: nat) returns (exact: bool, parent: Option<Ptr>)
      requires Valid() && cidr <= |key| && (|key| == 32 || |key| == 128)
      ensures exact ==>
                parent.Some? && Live(mem, index, parent.value)
                && PrefixOf(mem.nodes[parent.value]) == Prefix(|key|, key[..cidr])
      ensures !exact ==> Placed(mem, index, key, cidr, parent)
    {
      var s := Root(|key|);
      var node := Get(mem, s);
      parent, exact := None, false;
      TableIs(mem, index, lists);
      assert s in mem.cells ==> CellOk(mem, s) && DownAt(mem, index, s);
      while node.Some? && mem.nodes[node.value].cidr <= cidr && Matches(mem.nodes[node.value], key)
        invariant node == Get(mem, s)
                  && (node.Some? ==> Live(mem, index, node.value) && |mem.nodes[node.value].bits| == |key|)
        invariant parent.None? ==> s == Root(|key|)
        invariant parent.Some? ==>
                    && Live(mem, index, parent.value) && At(mem, parent.value, key)
                    && mem.nodes[parent.value].cidr < cidr
                    && s == Child(parent.value, key[mem.nodes[parent.value].cidr])
        invariant !exact
        decreases if node.Some? then |key| + 1 - mem.nodes[node.value].cidr else 0
      {
        var n := mem.nodes[node.value];
        MatchesIsPrefix(n, key);
        parent := node;
        if n.cidr == cidr {
          exact := true;
          return;
        }
        s := Child(node.value, key[n.cidr]);
        assert s in mem.cells ==> CellOk(mem, s) && DownAt(mem, index, s);
        node := Get(mem, s);
      }
      NoExactNode(mem, index, key, cidr, parent);
    }

    /** A zeroed node is allocated and filled in; nothing points to it yet. */
    method Alloc(n: Node) returns (p: Ptr)
      requires NodesBelow(mem, brk)
      modifies this`mem, this`brk, this`seen
      ensures p == old(brk) && brk == p + 1 && p !in old(mem).nodes
      ensures mem == NewNode(old(mem), p, n) && seen == old(seen) + [mem] && NodesBelow(mem, brk)
    {
      p := brk;
      brk := brk + 1;
      mem := NewNode(mem, p, n);
      seen := seen + [mem];
    }

    /** `connect_node`: the parent link, then the pointer. */
    method ConnectNode(s: Slot, p: Ptr)
      requires p in mem.nodes && NodesBelow(mem, brk)
      modifies this`mem, this`seen
      ensures mem == Connect(old(mem), s, p) && seen == old(seen) + ConnectTrace(old(mem), s, p) && NodesBelow(mem, brk)
    {
      mem := SetParent(mem, p, s);
      seen := seen + [mem];
      mem := Put(mem, s, Some(p));
      seen := seen + [mem];
    }

    /** `add` when the slot for the new node is empty. */
    method AddLeaf(key: Bits, cidr: nat, peer: Peer, parent: Option<Ptr>)
      requires Valid() && seen == [] && Placed(mem, index, key, cidr, parent) && SlotFor(mem, parent, key) !in mem.cells
      modifies this`mem, this`lists, this`brk, this`seen, this`index
      ensures Inserted(old(mem), old(index), mem, index, lists, seen, Prefix(|key|, key[..cidr]), peer)
      ensures NodesBelow(mem, brk) && Keeps(old(mem), old(index), mem, index)
    {
      var n, s := NodeFor(key, cidr, Some(peer)), SlotFor(mem, parent, key);
      ghost var trace, x := LeafTrace(mem, brk, n, s), Prefix(|key|, key[..cidr]);
      ghost var m', index' := Connect(NewNode(mem, brk, n), s, brk), Plus(index, x, brk);
      ghost var lists' := ListAddTail(lists, brk, peer);
      assert Inserted(mem, index, m', index', lists', trace, x, peer) by {
        HangLeafOk(mem, index, lists, key, cidr, peer, brk, parent);
      }
      assert Keeps(mem, index, m', index') by {
        LeafKeeps(mem, index, lists, key, cidr, peer, brk, parent);
      }
      HangLeaf(n, s, peer);
      index := index';
    }

    /** The new node n is made and hung in the empty slot s. */
    method HangLeaf(n: Node, s: Slot, peer: Peer)
      requires NodesBelow(mem, brk) && seen == []
      modifies this`mem, this`lists, this`brk, this`seen
      ensures mem == Connect(NewNode(old(mem), old(brk), n), s, old(brk))
      ensures seen == LeafTrace(old(mem), old(brk), n, s)
      ensures lists == ListAddTail(old(lists), old(brk), peer) && NodesBelow(mem, brk)
    {
      var p := Alloc(n);
      assert seen == [mem];
      lists := ListAddTail(lists, p, peer);
      ConnectNode(s, p);
    }

    /** `add` when the new node goes between its parent and what hung there. */
    method AddAbove(key: Bits, cidr: nat, peer: Peer, parent: Option<Ptr>, d: Ptr)
      requires Valid() && seen == [] && Placed(mem, index, key, cidr, parent)
      requires Get(mem, SlotFor(mem, parent, key)) == Some(d) && CommonBits(mem.nodes[d].bits, key) >= cidr
      modifies this`mem, this`lists, this`brk, this`seen, this`index
      ensures Inserted(old(mem), old(index), mem, index, lists, seen, Prefix(|key|, key[..cidr]), peer)
      ensures NodesBelow(mem, brk) && Keeps(old(mem), old(index), mem, index)
    {
      assert cidr < |mem.nodes[d].bits| by {
        HangAboveOk(mem, index, lists, key, cidr, peer, brk, parent, d);
      }
      var n, s, b := NodeFor(key, cidr, Some(peer)), SlotFor(mem, parent, key), Child(brk, mem.nodes[d].bits[cidr]);
      ghost var trace, x := AboveTrace(mem, brk, n, b, d, s), Prefix(|key|, key[..cidr]);
      ghost var m', index' := AboveMem(mem, brk, n, b, d, s), Plus(index, x, brk);
      ghost var lists' := ListAddTail(lists, brk, peer);
      assert Inserted(mem, index, m', index', lists', trace, x, peer) by {
        HangAboveOk(mem, index, lists, key, cidr, peer, brk, parent, d);
      }
      assert Keeps(mem, index, m', index') by {
        AboveKeeps(mem, index, lists, key, cidr, peer, brk, parent, d);
      }
      var p := Alloc(n);
      lists := ListAddTail(lists, p, peer);
      ConnectNode(b, d);
      ConnectNode(s, p);
      index := index';
      assert mem == m' && seen == trace;
    }

    /** `add` when the new node and what hung there need a common branch node. */
    method AddSplit(key: Bits, cidr: nat, peer: Peer, parent: Option<Ptr>, d: Ptr)
      requires Valid() && seen == [] && Placed(mem, index, key, cidr, parent)
      requires Get(mem, SlotFor(mem, parent, key)) == Some(d) && CommonBits(mem.nodes[d].bits, key) < cidr
      modifies this`mem, this`lists, this`brk, this`seen, this`index
      ensures Inserted(old(mem), old(index), mem, index, lists, seen, Prefix(|key|, key[..cidr]), peer)
      ensures NodesBelow(mem, brk) && Keeps(old(mem), old(index), mem, index)
    {
      var s, k := SlotFor(mem, parent, key), CommonBits(mem.nodes[d].bits, key);
      var n, g := NodeFor(key, cidr, Some(peer)), NodeFor(key, k, None);
      ghost var x, p, r: Ptr := Prefix(|key|, key[..cidr]), brk, brk + 1;
      HangBoth(n, g, key[k], d, s, peer);
      SplitMadeOk(old(mem), index, old(lists), key, cidr, peer, p, r, parent, d, mem, seen);
      index := TwoMore(index, Prefix(|key|, key[..k]), r, x, p);
    }

    /** The new node n and the branch node g are made and hung. */
    method HangBoth(n: Node, g: Node, b: bool, d: Ptr, s: Slot, peer: Peer)
      requires d in mem.nodes && NodesBelow(mem, brk) && seen == []
      modifies this`mem, this`lists, this`brk, this`seen
      ensures SplitMade(old(mem), old(brk), n, old(brk) + 1, g, b, d, s, mem, seen)
      ensures lists == ListAddTail(old(lists), old(brk), peer) && NodesBelow(mem, brk)
    {
      var p := Alloc(n);
      assert seen == [mem];
      lists := ListAddTail(lists, p, peer);
      Branch(g, b, p, d, s);
    }

    /** The branch node g takes d on one side and p on the other, and d's old place. */
    method Branch(g: Node, b: bool, p: Ptr, d: Ptr, s: Slot)
      requires d in mem.nodes && p in mem.nodes && NodesBelow(mem, brk)
      modifies this`mem, this`brk, this`seen
      ensures seen == BranchLog(old(seen), old(mem), p, old(brk), g, b, d, s)
      ensures mem == BranchMem(old(mem), p, old(brk), g, b, d, s) && NodesBelow(mem, brk)
    {
      var r := Alloc(g);
      ConnectNode(Child(r, !b), d);
      ConnectNode(Child(r, b), p);
      ConnectNode(s, r);
    }

    /** `add` where the branch node cannot be allocated: the new node is given back. */
    method GiveUp(key: Bits, cidr: nat, peer: Peer)
      requires Valid() && seen == [] && NodeOk(NodeFor(key, cidr, Some(peer)))
      modifies this`mem, this`lists, this`brk, this`seen
      ensures Valid() && mem == old(mem) && forall k: Peer :: ListOf(lists, k) == old(ListOf(lists, k))
      ensures Published(seen, Rules(), Rules()) && Stores(old(mem), seen, mem)
    {
      ghost var n, m := NodeFor(key, cidr, Some(peer)), mem;
      GiveUpOk(mem, index, lists, brk, n, peer);
      var p := Alloc(NodeFor(key, cidr, Some(peer)));
      lists := ListAddTail(lists, p, peer);
      lists := ListDel(lists, p);
      mem := FreeNode(mem, p);
      seen := seen + [mem];
      assert seen == [NewNode(m, p, n), m];
    }

    /** `add`.  The flags say whether the two allocations succeed. */
    method Add(key: Bits, cidr: nat, peer: Option<Peer>, first: bool, second: bool) returns (err: Error)
      requires Valid() && (|key| == 32 || |key| == 128)
      modifies this`mem, this`lists, this`brk, this`seen, this`index
      ensures Valid()
      ensures err == Invalid <==> cidr > |key| || peer == None
      ensures err == Ok ==> Rules() == old(Rules())[Prefix(|key|, key[..cidr]) := peer.value]
      ensures err != Ok ==>
                mem == old(mem) && index == old(index)
                && forall k: Peer :: ListOf(lists, k) == old(ListOf(lists, k))
      ensures err == NoMemory ==> Prefix(|key|, key[..cidr]) !in old(Rules()) && !(first && second)
      ensures err != Invalid && Prefix(|key|, key[..cidr]) !in old(index) && !first ==> err == NoMemory
      ensures Published(seen, old(Rules()), Rules()) && Stores(old(mem), seen, mem)
      ensures Keeps(old(mem), old(index), mem, index)
    {
      seen := [];
      assert Keeps(mem, index, mem, index) by {
        TableIs(mem, index, lists);
        KeepsSame(mem, index);
      }
      if cidr > |key| || peer.None? {
        return Invalid;
      }
      ghost var x := Prefix(|key|, key[..cidr]);
      if Root(|key|) !in mem.cells {
        EmptyPlaced(mem, index, lists, key, cidr);
        if !first {
          return NoMemory;
        }
        AddLeaf(key, cidr, peer.value, None);
        InsertedMeans(old(mem), old(index), mem, index, lists, seen, x, peer.value);
        return Ok;
      }
      var exact, parent := NodePlacement(key, cidr);
      if exact {
        SetOwner(parent.value, peer.value);
        InsertedMeans(old(mem), old(index), mem, index, lists, seen, x, peer.value);
        return Ok;
      }
      if !first {
        return NoMemory;
      }
      var s := SlotFor(mem, parent, key);
      if s !in mem.cells {
        AddLeaf(key, cidr, peer.value, parent);
      } else if CommonBits(mem.nodes[mem.cells[s]].bits, key) >= cidr {
        AddAbove(key, cidr, peer.value, parent, mem.cells[s]);
      } else if second {
        AddSplit(key, cidr, peer.value, parent, mem.cells[s]);
      } else {
        GiveUp(key, cidr, peer.value);
        return NoMemory;
      }
      InsertedMeans(old(mem), old(index), mem, index, lists, seen, x, peer.value);
      return Ok;
    }

    /** `add` on an exact match. */
    method SetOwner(p: Ptr, peer: Peer)
      requires Valid() && seen == [] && Live(mem, index, p)
      modifies this`mem, this`lists, this`seen
      ensures Inserted(old(mem), index, mem, index, lists, seen, PrefixOf(old(mem).nodes[p]), peer)
      ensures mem.nodes.Keys == old(mem).nodes.Keys && Keeps(old(mem), index, mem, index)
    {
      ExactOk(mem, index, lists, p, peer);
      ExactKeeps(mem, index, lists, p, Some(peer));
      mem := SetPeer(mem, p, Some(peer));
      seen := seen + [mem];
      lists := ListAddTail(ListDel(lists, p), p, peer);
      assert seen == [mem];
    }

    /** `wg_allowedips_insert_v4` and `wg_allowedips_insert_v6`; the sequence number, which `add` does
        not look at, may as well advance afterwards. */
    method Insert(key: Bits, cidr: nat, peer: Option<Peer>, first: bool, second: bool) returns (err: Error)
      requires Valid() && (|key| == 32 || |key| == 128)
      modifies this`mem, this`lists, this`brk, this`seen, this`index, this`seqno
      ensures Valid() && seqno == old(seqno) + 1
      ensures err == Invalid <==> cidr > |key| || peer == None
      ensures err == Ok ==> Rules() == old(Rules())[Prefix(|key|, key[..cidr]) := peer.value]
      ensures err != Ok ==>
                mem == old(mem) && index == old(index)
                && forall k: Peer :: ListOf(lists, k) == old(ListOf(lists, k))
      ensures err == NoMemory ==> Prefix(|key|, key[..cidr]) !in old(Rules())
      ensures err != Invalid && Prefix(|key|, key[..cidr]) !in old(index) && !first ==> err == NoMemory
      ensures first && second ==> err != NoMemory
      ensures Published(seen, old(Rules()), Rules()) && Stores(old(mem), seen, mem)
      ensures Keeps(old(mem), old(index), mem, index)
    {
      err := Add(key, cidr, peer, first, second);
      seqno := seqno + 1;
    }

    /** `child->parent_bit_packed = ...; *slot = child` */
    method Replace(s: Slot, c: Option<Ptr>)
      requires c.Some? ==> c.value in mem.nodes
      modifies this`mem, this`seen
      ensures seen == old(seen) + ReplaceTrace(old(mem), s, c) && mem == seen[|seen| - 1]
      ensures mem.nodes.Keys == old(mem).nodes.Keys
    {
      if c.Some? {
        mem := SetParent(mem, c.value, s);
        seen := seen + [mem];
      }
      mem := Put(mem, s, c);
      seen := seen + [mem];
    }

    /** What one round does once the peer is cleared: the node goes unless it has two
        children, and a peerless parent that is left with one child goes too. */
    method Prune(p: Ptr)
      requires MemOk(mem) && p in mem.nodes
      requires mem.nodes[p].parent.Child? ==> mem.nodes[p].parent.parent in mem.nodes
      modifies this`mem, this`seen
      ensures seen == old(seen) + RestTrace(old(mem), p) && mem == RoundEnd(old(mem), p)
      ensures mem.nodes.Keys == old(mem).nodes.Keys
    {
      var s, c := mem.nodes[p].parent, OnlyKid(mem, p);
      if BothKids(mem, p) {
        return;
      }
      assert c.Some? ==> CellOk(mem, Child(p, Child(p, false) !in mem.cells));
      Replace(s, c);
      assert mem == Splice(old(mem), p);
      if c.None? && s.Child? && mem.nodes[s.parent].peer.None? {
        var k := Get(mem, Child(s.parent, !s.bit));
        assert k.Some? ==> CellOk(old(mem), Child(s.parent, !s.bit));
        Replace(mem.nodes[s.parent].parent, k);
      }
    }

    /** One round of `wg_allowedips_remove_by_peer`; `trace` is what it adds to `seen`. */
    method RemoveNode(p: Ptr) returns (ghost trace: seq<Mem>)
      requires Valid() && Live(mem, index, p)
      modifies this`mem, this`lists, this`seen, this`index
      ensures Valid() && Rules() == old(Rules()) - {PrefixOf(old(mem).nodes[p])}
      ensures lists == ListDel(old(lists), p)
      ensures seen == old(seen) + trace && AllShow(trace, Rules()) && Stores(old(mem), trace, mem)
      ensures Keeps(old(mem), old(index), mem, index)
    {
      ghost var x, m1 := PrefixOf(mem.nodes[p]), SetPeer(mem, p, None);
      RemoveOk(mem, index, lists, p);
      RoundKeeps(mem, index, lists, p);
      ghost var index' := RestIndex(m1, index, p);
      trace := RoundTrace(m1, p);
      lists := ListDel(lists, p);
      mem := SetPeer(mem, p, None);
      seen := seen + [mem];
      Prune(p);
      index := index';
      assert seen == old(seen) + trace;
      RemovedIs(old(mem), old(index), mem, index, lists, trace, x);
    }

    /** The rounds of `wg_allowedips_remove_by_peer`.  `shown` gives, for every memory readers could
        see on the way, the table they saw. */
    method RemoveNodes(peer: Peer) returns (ghost shown: seq<Rules>)
      requires Valid() && seen == []
      modifies this`mem, this`lists, this`seen, this`index
      ensures Valid() && Shrunk(Rules(), old(Rules()), peer) && ListOf(lists, peer) == []
      ensures ShownAs(seen, shown, old(Rules()), peer) && Stores(old(mem), seen, mem)
      ensures Keeps(old(mem), old(index), mem, index)
    {
      shown := [];
      assert Keeps(mem, index, mem, index) by {
        TableIs(mem, index, lists);
        KeepsSame(mem, index);
      }
      var nodes := ListOf(lists, peer);
      for i := 0 to |nodes|
        invariant Valid() && ListOf(lists, peer) == nodes[i..] && Shrunk(Rules(), old(Rules()), peer)
        invariant ShownAs(seen, shown, old(Rules()), peer) && Stores(old(mem), seen, mem)
        invariant Keeps(old(mem), old(index), mem, index)
      {
        ghost var before, m, i0, rules := seen, mem, index, Rules();
        RuleOfNode(mem, index, lists, peer, nodes[i]);
        WithoutFirst(nodes[i..]);
        ListDelIs(lists, nodes[i], peer);
        ghost var trace := RemoveNode(nodes[i]);
        ShrunkMore(rules, PrefixOf(m.nodes[nodes[i]]), old(Rules()), peer);
        RoundShown(before, shown, trace, Rules(), old(Rules()), peer);
        StoresThen(old(mem), before, m, trace, mem);
        KeepsThen(old(mem), old(index), m, i0, mem, index);
        shown := shown + Repeat(Rules(), |trace|);
      }
    }

    /** `wg_allowedips_remove_by_peer` */
    method RemoveByPeer(peer: Peer) returns (ghost shown: seq<Rules>)
      requires Valid()
      modifies this
      ensures Valid() && Rules() == RulesWithout(old(Rules()), peer) && ListOf(lists, peer) == []
      ensures seqno == old(seqno) + if old(ListOf(lists, peer)) == [] then 0 else 1
      ensures ShownAs(seen, shown, old(Rules()), peer) && Stores(old(mem), seen, mem)
      ensures Keeps(old(mem), old(index), mem, index)
    {
      seen, shown := [], [];
      assert Keeps(mem, index, mem, index) by {
        TableIs(mem, index, lists);
        KeepsSame(mem, index);
      }
      if ListOf(lists, peer) != [] {
        seqno := seqno + 1;
        shown := RemoveNodes(peer);
      }
      NoNodesNoRules(mem, index, lists, peer);
      assert Shrunk(Rules(), old(Rules()), peer);
    }

    /** `push_rcu` */
    method Push(stack: array<Ptr>, len: nat, s: Slot) returns (len': nat)
      requires len <= stack.Length && (s in mem.cells ==> len < stack.Length)
      modifies stack
      ensures len' <= stack.Length && stack[..len'] == Pushed(mem, old(stack[..len]), s)
    {
      len' := len;
      if s in mem.cells {
        stack[len] := mem.cells[s];
        len' := len + 1;
      }
    }

    /** The part both walks share: take a node off the stack and push its children. */
    method Pop(stack: array<Ptr>, len: nat) returns (node: Ptr, len': nat)
      requires MemOk(mem) && stack.Length == MAX_ALLOWEDIPS_DEPTH && 0 < len <= stack.Length
               && StackOk(mem, stack[..len])
      modifies stack
      ensures len' <= stack.Length && StackOk(mem, stack[..len'])
      ensures old(Ahead(mem, stack[..len])) == [node] + Ahead(mem, stack[..len'])
    {
      node, len' := stack[len - 1], len - 1;
      ghost var rest := stack[..len'];
      assert stack[..len] == rest + [node];
      PopAndPush(mem, rest, node);
      PushOk(mem, rest, node, false);
      len' := Push(stack, len', Child(node, false));
      PushOk(mem, stack[..len'], node, true);
      len' := Push(stack, len', Child(node, true));
    }

    /** `root_remove_peer_lists` */
    method RemovePeerLists(root: Ptr)
      requires MemOk(mem) && root in mem.nodes
      modifies this`lists
      ensures lists == DelAll(mem, old(lists), Walk(mem, root))
    {
      var stack := new Ptr[MAX_ALLOWEDIPS_DEPTH];
      stack[0] := root;
      var len: nat := 1;
      assert stack[..1] == [root];
      AheadAtFirst(mem, root);
      while len > 0
        invariant len <= stack.Length && StackOk(mem, stack[..len])
        invariant DelAll(mem, lists, Ahead(mem, stack[..len])) == DelAll(mem, old(lists), Walk(mem, root))
        decreases |Ahead(mem, stack[..len])|
      {
        ghost var before := Ahead(mem, stack[..len]);
        var node;
        node, len := Pop(stack, len);
        assert before[0] == node && before[1..] == Ahead(mem, stack[..len]);
        if mem.nodes[node].peer.Some? {
          lists := ListDel(lists, node);
        }
      }
    }

    /** `root_free_rcu`: the nodes given back, in order. */
    method RootFree(root: Ptr) returns (freed: seq<Ptr>)
      requires MemOk(mem) && root in mem.nodes
      ensures freed == Walk(mem, root)
    {
      var stack := new Ptr[MAX_ALLOWEDIPS_DEPTH];
      stack[0] := root;
      var len: nat := 1;
      freed := [];
      assert stack[..1] == [root];
      AheadAtFirst(mem, root);
      ghost var walk := Walk(mem, root);
      while len > 0
        invariant len <= stack.Length && StackOk(mem, stack[..len])
        invariant |freed| <= |walk| && freed == walk[..|freed|] && Ahead(mem, stack[..len]) == walk[|freed|..]
        decreases |walk| - |freed|
      {
        var node;
        node, len := Pop(stack, len);
        OneGone(walk, |freed|, node, Ahead(mem, stack[..len]));
        freed := freed + [node];
      }
    }

    /** What `wg_allowedips_free` does with one old root, with the deferred release. */
    method DropTrie(root: Option<Ptr>) returns (freed: seq<Ptr>)
      requires MemOk(mem) && (root.Some? ==> root.value in mem.nodes)
      modifies this`lists
      ensures freed == if root.Some? then Walk(mem, root.value) else []
      ensures lists == DelAll(mem, old(lists), freed)
    {
      freed := [];
      if root.Some? {
        RemovePeerLists(root.value);
        freed := RootFree(root.value);
      }
    }

    /** The stores of `wg_allowedips_free`. */
    method DropTries() returns (freed: seq<Ptr>)
      requires MemOk(mem) && MemOk(CutRoot(mem, 32)) && MemOk(CutRoot(CutRoot(mem, 32), 128))
      modifies this`mem, this`lists, this`seen
      ensures mem == CutRoot(CutRoot(old(mem), 32), 128) && seen == [CutRoot(old(mem), 32), mem]
      ensures freed == WalkAt(old(mem), Root(32)) + WalkAt(old(mem), Root(128))
      ensures (forall q :: q in WalkAt(old(mem), Root(32)) || q in WalkAt(old(mem), Root(128)) ==> q in old(mem).nodes)
      ensures lists == DelAll(old(mem), DelAll(old(mem), old(lists), WalkAt(old(mem), Root(32))),
                              WalkAt(old(mem), Root(128)))
    {
      ghost var m := mem;
      var old4, old6 := Get(mem, Root(32)), Get(mem, Root(128));
      mem := CutRoot(mem, 32);
      seen := [mem];
      mem := CutRoot(mem, 128);
      seen := seen + [mem];
      TeardownWalks(m, mem, lists);
      var freed4 := DropTrie(old4);
      assert freed4 == WalkAt(m, Root(32));
      var freed6 := DropTrie(old6);
      assert freed6 == WalkAt(m, Root(128));
      freed := freed4 + freed6;
    }

    /** `wg_allowedips_free` */
    method Free() returns (freed: seq<Ptr>)
      requires Valid()
      modifies this
      ensures Valid() && index == map[] && seqno == old(seqno) + 1
      ensures Distinct(freed) && forall q :: q in freed <==> Live(old(mem), old(index), q)
      ensures |seen| == 2 && Shows(seen[0], RulesNotOf(old(Rules()), 32)) && Shows(seen[1], map[])
      ensures Stores(old(mem), seen, mem)
    {
      TeardownOk(mem, index, lists);
      CutStores(mem, 32, 128);
      seqno := seqno + 1;
      freed := DropTries();
      index := map[];
    }
  }

  datatype Update =
    | Inserts(key: Bits, cidr: nat, peer: Option<Peer>, first: bool, second: bool)
    | Removes(owner: Peer)

  predicate UpdateOk(u: Update) {
    u.Inserts? ==> |u.key| == 32 || |u.key| == 128
  }

  /** A caller reads a root, and then come insertions and removals of any kind and number: what it
      holds is in use or taken out, and answers every address by the rules then in force exactly if
      the first node in use it leads to is the root. */
  method ReadThenUpdate(table: AllowedIps, updates: seq<Update>, w: nat) returns (root: Option<Ptr>)
    requires table.Valid() && forall i :: 0 <= i < |updates| ==> UpdateOk(updates[i])
    modifies table
    ensures table.Valid() && MemOk(table.mem) && root == old(Get(table.mem, Root(w)))
    ensures root.Some? ==> Spliced(table.mem, table.index, root.value) && |table.mem.nodes[root.value].bits| == w
    ensures AnswersAll(table.mem, table.index, root, w) <==>
            Get(table.mem, Root(w)) == LeadOf(table.mem, table.index, root)
  {
    root := Get(table.mem, Root(w));
    ghost var m, index := table.mem, table.index;
    assert TrieOk(m, index) by { TableIs(m, index, table.lists); }
    KeepsSame(m, index);
    for i := 0 to |updates|
      invariant table.Valid() && Keeps(m, index, table.mem, table.index)
    {
      ghost var m', index' := table.mem, table.index;
      match updates[i] {
        case Inserts(key, cidr, peer, first, second) =>
          var _ := table.Insert(key, cidr, peer, first, second);
        case Removes(owner) =>
          ghost var _ := table.RemoveByPeer(owner);
      }
      KeepsThen(m, index, m', index', table.mem, table.index);
    }
    TableIs(table.mem, table.index, table.lists);
    if root.Some? {
      OldRoot(m, index, table.mem, table.index, w);
    }
    RootExactly(table.mem, table.index, root, w);
  }
}
