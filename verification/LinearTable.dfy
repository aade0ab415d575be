/** The linear table of selftest/allowedips.c that serves as the trie's reference, and both of
    them driven side by side. */
module LinearTable {
  import opened Common
  import opened Trie
  import Removals = TrieRemovals
  import Table = AllowedIps

  // ----- rows ----------------------------------------------------------------------------

  /** `struct horrible_allowedips_node`: `ip_version` is the width of the address. */
  datatype Row = Row(ip: Bits, mask: Bits, value: Peer)

  /** `horrible_cidr_to_mask` */
  function Mask(cidr: nat, width: nat): Bits {
    seq(width, i => i < cidr)
  }

  function And(a: Bits, mask: Bits): Bits
    requires |a| == |mask|
  {
    seq(|a|, i requires 0 <= i < |a| => a[i] && mask[i])
  }

  function Weight(mask: Bits): (n: nat)
    ensures n <= |mask|
  {
    if mask == [] then 0 else Weight(mask[..|mask| - 1]) + if mask[|mask| - 1] then 1 else 0
  }

  /** `horrible_mask_to_cidr` undoes `horrible_cidr_to_mask`. */
  lemma {:induction false} WeightOfMask(cidr: nat, width: nat)
    ensures Weight(Mask(cidr, width)) == if cidr <= width then cidr else width
    decreases width
  {
    if width > 0 {
      assert Mask(cidr, width)[..width - 1] == Mask(cidr, width - 1);
      WeightOfMask(cidr, width - 1);
    }
  }

  predicate MaskedOk(ip: Bits, mask: Bits) {
    && |mask| == |ip| && mask == Mask(Weight(mask), |ip|)
    && forall i :: 0 <= i < |ip| && ip[i] ==> mask[i]
  }

  predicate RowOk(r: Row) {
    MaskedOk(r.ip, r.mask)
  }

  function PrefixUnder(ip: Bits, mask: Bits): Prefix {
    Prefix(|ip|, if |mask| == |ip| then ip[..Weight(mask)] else [])
  }

  function PrefixOfRow(r: Row): Prefix {
    PrefixUnder(r.ip, r.mask)
  }

  predicate Hits(r: Row, key: Bits)
    requires RowOk(r)
  {
    |r.ip| == |key| && And(key, r.mask) == r.ip
  }

  /** Comparing under the mask is comparing the leading bits. */
  lemma HitsIsPrefix(r: Row, key: Bits)
    requires RowOk(r)
    ensures Hits(r, key) <==> |r.ip| == |key| && PrefixOfRow(r) == Prefix(|key|, key[..Weight(r.mask)])
  {
  }

  lemma PrefixIsRow(r: Row, t: Row)
    requires RowOk(r) && RowOk(t)
    ensures PrefixOfRow(r) == PrefixOfRow(t) <==> r.ip == t.ip && r.mask == t.mask
  {
  }

  // ----- what a list of rows stands for --------------------------------------------------

  predicate Before(r: Row, t: Row) {
    Weight(r.mask) >= Weight(t.mask) && PrefixOfRow(r) != PrefixOfRow(t)
  }

  predicate Ordered(rows: seq<Row>) {
    forall i, j :: 0 <= i < j < |rows| ==> Before(rows[i], rows[j])
  }

  /** Longest masks first, no prefix twice. */
  predicate RowsOk(rows: seq<Row>) {
    && (forall i :: 0 <= i < |rows| ==> RowOk(rows[i]))
    && Ordered(rows)
  }

  predicate Agrees(r: Row, rules: Rules) {
    PrefixOfRow(r) in rules && rules[PrefixOfRow(r)] == r.value
  }

  predicate Has(rows: seq<Row>, x: Prefix) {
    exists i :: 0 <= i < |rows| && PrefixOfRow(rows[i]) == x
  }

  ghost predicate Means(rows: seq<Row>, rules: Rules) {
    && RowsOk(rows)
    && (forall i :: 0 <= i < |rows| ==> Agrees(rows[i], rules))
    && (forall x {:trigger Has(rows, x)} :: x in rules ==> Has(rows, x))
  }

  lemma {:induction false} LpmFound(rules: Rules, key: Bits, n: nat, k: nat)
    requires k <= n <= |key| && Prefix(|key|, key[..k]) in rules
    requires forall j :: k < j <= n ==> Prefix(|key|, key[..j]) !in rules
    ensures Lpm(rules, key, n) == Some(rules[Prefix(|key|, key[..k])])
  {
    if k < n { LpmFound(rules, key, n - 1, k); }
  }

  lemma {:induction false} LpmNone(rules: Rules, key: Bits, n: nat)
    requires n <= |key| && forall j :: 0 <= j <= n ==> Prefix(|key|, key[..j]) !in rules
    ensures Lpm(rules, key, n) == None
  {
    if 0 < n { LpmNone(rules, key, n - 1); }
  }

  /** A rule that covers the key is the prefix of a row the key hits. */
  lemma CoveringRow(rows: seq<Row>, rules: Rules, key: Bits, j: nat) returns (i: nat)
    requires Means(rows, rules) && j <= |key| && Prefix(|key|, key[..j]) in rules
    ensures i < |rows| && Hits(rows[i], key) && Weight(rows[i].mask) == j
  {
    assert Has(rows, Prefix(|key|, key[..j]));
    i :| 0 <= i < |rows| && PrefixOfRow(rows[i]) == Prefix(|key|, key[..j]);
    assert |rows[i].ip[..Weight(rows[i].mask)]| == |key[..j]|;
    HitsIsPrefix(rows[i], key);
  }

  /** The first row hit is the longest match. */
  lemma FirstHit(rows: seq<Row>, rules: Rules, key: Bits, i: nat)
    requires Means(rows, rules) && i < |rows| && Hits(rows[i], key)
    requires forall j :: 0 <= j < i ==> !Hits(rows[j], key)
    ensures LongestMatch(rules, key) == Some(rows[i].value)
  {
    var c := Weight(rows[i].mask);
    HitsIsPrefix(rows[i], key);
    forall j | c < j <= |key| ensures Prefix(|key|, key[..j]) !in rules {
      if Prefix(|key|, key[..j]) in rules {
        var k := CoveringRow(rows, rules, key, j);
      }
    }
    LpmFound(rules, key, |key|, c);
  }

  lemma NoHit(rows: seq<Row>, rules: Rules, key: Bits)
    requires Means(rows, rules) && forall j :: 0 <= j < |rows| ==> !Hits(rows[j], key)
    ensures LongestMatch(rules, key) == None
  {
    forall j | 0 <= j <= |key| ensures Prefix(|key|, key[..j]) !in rules {
      if Prefix(|key|, key[..j]) in rules {
        var k := CoveringRow(rows, rules, key, j);
      }
    }
    LpmNone(rules, key, |key|);
  }

  lemma OverwriteOk(rows: seq<Row>, rules: Rules, i: nat, value: Peer)
    requires Means(rows, rules) && i < |rows|
    ensures Means(rows[i := rows[i].(value := value)], rules[PrefixOfRow(rows[i]) := value])
  {
    var rows' := rows[i := rows[i].(value := value)];
    forall x | x in rules[PrefixOfRow(rows[i]) := value] ensures Has(rows', x) {
      assert Has(rows, x);
      var j :| 0 <= j < |rows| && PrefixOfRow(rows[j]) == x;
      assert PrefixOfRow(rows'[j]) == x;
    }
  }

  lemma BetweenOrdered(rows: seq<Row>, i: nat, r: Row)
    requires Ordered(rows) && i <= |rows|
    requires forall j :: 0 <= j < i ==> Before(rows[j], r)
    requires forall j :: i <= j < |rows| ==> Before(r, rows[j])
    ensures Ordered(rows[..i] + [r] + rows[i..])
  {
  }

  lemma InsertRowsOk(rows: seq<Row>, i: nat, r: Row)
    requires RowsOk(rows) && i <= |rows| && RowOk(r)
    requires forall j :: 0 <= j < |rows| ==> PrefixOfRow(rows[j]) != PrefixOfRow(r)
    requires forall j :: 0 <= j < i ==> Weight(rows[j].mask) > Weight(r.mask)
    requires i < |rows| ==> Weight(rows[i].mask) <= Weight(r.mask)
    ensures RowsOk(rows[..i] + [r] + rows[i..])
  {
    forall j | i <= j < |rows| ensures Before(r, rows[j]) {
      assert j > i ==> Before(rows[i], rows[j]);
    }
    BetweenOrdered(rows, i, r);
  }

  lemma InsertHas(rows: seq<Row>, i: nat, r: Row, x: Prefix)
    requires i <= |rows| && (Has(rows, x) || x == PrefixOfRow(r))
    ensures Has(rows[..i] + [r] + rows[i..], x)
  {
    var rows' := rows[..i] + [r] + rows[i..];
    if x == PrefixOfRow(r) {
      assert PrefixOfRow(rows'[i]) == x;
    } else {
      var j :| 0 <= j < |rows| && PrefixOfRow(rows[j]) == x;
      assert PrefixOfRow(rows'[if j < i then j else j + 1]) == x;
    }
  }

  lemma InsertOk(rows: seq<Row>, rules: Rules, i: nat, r: Row)
    requires Means(rows, rules) && i <= |rows| && RowsOk(rows[..i] + [r] + rows[i..])
    requires forall j :: 0 <= j < |rows| ==> PrefixOfRow(rows[j]) != PrefixOfRow(r)
    ensures Means(rows[..i] + [r] + rows[i..], rules[PrefixOfRow(r) := r.value])
  {
    var rows', rules' := rows[..i] + [r] + rows[i..], rules[PrefixOfRow(r) := r.value];
    forall j | 0 <= j < |rows'| ensures Agrees(rows'[j], rules') {
      if j < i {
        assert rows'[j] == rows[j];
      } else if j > i {
        assert rows'[j] == rows[j - 1];
      }
    }
    forall x | x in rules' ensures Has(rows', x) {
      assert x in rules ==> Has(rows, x);
      InsertHas(rows, i, r, x);
    }
  }

  lemma DropRowsOk(rows: seq<Row>, i: nat)
    requires RowsOk(rows) && i < |rows|
    ensures RowsOk(rows[..i] + rows[i + 1..])
  {
  }

  lemma DropHas(rows: seq<Row>, i: nat, x: Prefix)
    requires i < |rows| && Has(rows, x) && x != PrefixOfRow(rows[i])
    ensures Has(rows[..i] + rows[i + 1..], x)
  {
    var rows' := rows[..i] + rows[i + 1..];
    var j :| 0 <= j < |rows| && PrefixOfRow(rows[j]) == x;
    assert PrefixOfRow(rows'[if j < i then j else j - 1]) == x;
  }

  lemma DropOk(rows: seq<Row>, rules: Rules, i: nat)
    requires Means(rows, rules) && i < |rows|
    ensures Means(rows[..i] + rows[i + 1..], rules - {PrefixOfRow(rows[i])})
  {
    var rows', rules' := rows[..i] + rows[i + 1..], rules - {PrefixOfRow(rows[i])};
    DropRowsOk(rows, i);
    forall j | 0 <= j < |rows'| ensures Agrees(rows'[j], rules') {
      var k := if j < i then j else j + 1;
      assert rows'[j] == rows[k];
      assert if k < i then Before(rows[k], rows[i]) else Before(rows[i], rows[k]);
    }
    forall x | x in rules' ensures Has(rows', x) {
      assert Has(rows, x);
      DropHas(rows, i, x);
    }
  }

  lemma MaskedIp(key: Bits, cidr: nat, value: Peer)
    requires cidr <= |key|
    ensures var r := Row(And(key, Mask(cidr, |key|)), Mask(cidr, |key|), value);
            RowOk(r) && PrefixOfRow(r) == Prefix(|key|, key[..cidr]) && Weight(r.mask) == cidr
  {
    WeightOfMask(cidr, |key|);
    assert And(key, Mask(cidr, |key|))[..cidr] == key[..cidr];
  }

  // ----- the table -----------------------------------------------------------------------

  class LinearTable {
    var rows: seq<Row>
    ghost var rules: Rules

    ghost predicate Valid()
      reads this
    {
      Means(rows, rules)
    }

    /** `horrible_allowedips_init` */
    constructor ()
      ensures Valid() && rules == map[]
    {
      rows, rules := [], map[];
    }

    /** The first loop of `horrible_insert_ordered`: a row for the same network. */
    method Same(node: Row) returns (i: nat)
      requires Valid() && RowOk(node)
      ensures i <= |rows| && (i < |rows| ==> PrefixOfRow(rows[i]) == PrefixOfRow(node))
      ensures i == |rows| ==> forall j :: 0 <= j < |rows| ==> PrefixOfRow(rows[j]) != PrefixOfRow(node)
    {
      i := 0;
      while i < |rows|
        invariant i <= |rows| && forall j :: 0 <= j < i ==> PrefixOfRow(rows[j]) != PrefixOfRow(node)
      {
        PrefixIsRow(rows[i], node);
        if rows[i].mask == node.mask && rows[i].ip == node.ip {
          return;
        }
        i := i + 1;
      }
    }

    /** The second loop: the first row that is no longer. */
    method Where(node: Row) returns (where: nat)
      ensures where <= |rows| && (where < |rows| ==> Weight(rows[where].mask) <= Weight(node.mask))
      ensures forall j :: 0 <= j < where ==> Weight(rows[j].mask) > Weight(node.mask)
    {
      where := 0;
      while where < |rows| && Weight(rows[where].mask) > Weight(node.mask)
        invariant where <= |rows| && forall j :: 0 <= j < where ==> Weight(rows[j].mask) > Weight(node.mask)
      {
        where := where + 1;
      }
    }

    /** `horrible_insert_ordered`, on a row masked by the caller. */
    method InsertOrdered(node: Row)
      requires Valid() && RowOk(node)
      modifies this
      ensures Valid() && rules == old(rules)[PrefixOfRow(node) := node.value]
    {
      var i := Same(node);
      if i < |rows| {
        OverwriteOk(rows, rules, i, node.value);
        rows := rows[i := rows[i].(value := node.value)];
      } else {
        var where := Where(node);
        InsertRowsOk(rows, where, node);
        InsertOk(rows, rules, where, node);
        rows := rows[..where] + [node] + rows[where..];
      }
      rules := rules[PrefixOfRow(node) := node.value];
    }

    /** `horrible_allowedips_insert_v4` and `horrible_allowedips_insert_v6` */
    method Insert(key: Bits, cidr: nat, value: Peer)
      requires Valid() && cidr <= |key|
      modifies this
      ensures Valid() && rules == old(rules)[Prefix(|key|, key[..cidr]) := value]
    {
      MaskedIp(key, cidr, value);
      InsertOrdered(Row(And(key, Mask(cidr, |key|)), Mask(cidr, |key|), value));
    }

    /** `horrible_allowedips_lookup_v4` and `horrible_allowedips_lookup_v6` */
    method Lookup(key: Bits) returns (value: Option<Peer>)
      requires Valid()
      ensures value == LongestMatch(rules, key)
    {
      for i := 0 to |rows|
        invariant forall j :: 0 <= j < i ==> !Hits(rows[j], key)
      {
        if |rows[i].ip| == |key| && And(key, rows[i].mask) == rows[i].ip {
          FirstHit(rows, rules, key, i);
          return Some(rows[i].value);
        }
      }
      NoHit(rows, rules, key);
      return None;
    }

    /** `horrible_allowedips_free` */
    method Free()
      requires Valid()
      modifies this
      ensures Valid() && rules == map[]
    {
      while rows != []
        invariant RowsOk(rows)
        decreases |rows|
      {
        DropRowsOk(rows, 0);
        rows := rows[1..];
      }
      rules := map[];
    }

    /** `horrible_allowedips_remove_by_value` */
    method RemoveByValue(value: Peer)
      requires Valid()
      modifies this
      ensures Valid() && rules == Removals.RulesWithout(old(rules), value)
    {
      var i := 0;
      while i < |rows|
        invariant i <= |rows| && Valid() && Removals.Shrunk(rules, old(rules), value)
        invariant forall j :: 0 <= j < i ==> rows[j].value != value
        decreases |rows| - i
      {
        if rows[i].value == value {
          DropOk(rows, rules, i);
          rules := rules - {PrefixOfRow(rows[i])};
          rows := rows[..i] + rows[i + 1..];
        } else {
          i := i + 1;
        }
      }
      NoValueLeft(rows, rules, value);
    }
  }

  lemma NoValueLeft(rows: seq<Row>, rules: Rules, value: Peer)
    requires Means(rows, rules) && forall i :: 0 <= i < |rows| ==> rows[i].value != value
    ensures forall x :: x in rules ==> rules[x] != value
  {
    forall x | x in rules ensures rules[x] != value {
      assert Has(rows, x);
      var i :| 0 <= i < |rows| && PrefixOfRow(rows[i]) == x;
      assert Agrees(rows[i], rules);
    }
  }

  // ----- both tables, driven by the same history -----------------------------------------

  /** One action of the randomized test; the flags are the outcomes of the allocations. */
  datatype Op =
    | Insert(key: Bits, cidr: nat, peer: Option<Peer>, first: bool, second: bool)
    | Remove(gone: Peer)
    | FreeAll
    | Query(address: Bits)

  predicate OpOk(op: Op) {
    op.Insert? ==> |op.key| == 32 || |op.key| == 128
  }

  /** What one action may do to the rules, and what it answers. */
  predicate Follows(op: Op, before: Rules, after: Rules, answer: Option<Peer>) {
    match op
    case Insert(key, cidr, peer, first, second) =>
      && answer == None
      && (after == before || (cidr <= |key| && peer.Some? && after == before[Prefix(|key|, key[..cidr]) := peer.value]))
      && (cidr <= |key| && peer.Some? && first && second ==> after == before[Prefix(|key|, key[..cidr]) := peer.value])
    case Remove(gone) => answer == None && after == Removals.RulesWithout(before, gone)
    case FreeAll => answer == None && after == map[]
    case Query(address) => answer == LongestMatch(before, address) && after == before
  }

  /** Rules and answers follow the history from the empty table on. */
  predicate History(ops: seq<Op>, inForce: seq<Rules>, answers: seq<Option<Peer>>) {
    && |inForce| == |ops| + 1 && |answers| == |ops| && inForce[0] == map[]
    && forall i :: 0 <= i < |ops| ==> Follows(ops[i], inForce[i], inForce[i + 1], answers[i])
  }

  lemma HistoryGrows(ops: seq<Op>, inForce: seq<Rules>, answers: seq<Option<Peer>>, op: Op, after: Rules,
                     answer: Option<Peer>)
    requires History(ops, inForce, answers) && Follows(op, inForce[|ops|], after, answer)
    ensures History(ops + [op], inForce + [after], answers + [answer]) && (inForce + [after])[|ops| + 1] == after
  {
  }

  method Step(trie: Table.AllowedIps, list: LinearTable, op: Op) returns (a: Option<Peer>, b: Option<Peer>)
    requires trie.Valid() && list.Valid() && list.rules == trie.Rules() && OpOk(op)
    modifies trie, list
    ensures trie.Valid() && list.Valid() && list.rules == trie.Rules() && a == b
    ensures Follows(op, old(list.rules), list.rules, a)
  {
    a, b := None, None;
    match op
    case Insert(key, cidr, peer, first, second) =>
      var err := trie.Insert(key, cidr, peer, first, second);
      if err == Table.Ok {
        list.Insert(key, cidr, peer.value);
      }
    case Remove(gone) =>
      var _ := trie.RemoveByPeer(gone);
      list.RemoveByValue(gone);
    case FreeAll =>
      var _ := trie.Free();
      assert trie.Rules() == map[];
      list.Free();
    case Query(address) =>
      a := trie.Lookup(address);
      b := list.Lookup(address);
  }

  /** The trie and the linear table answer every query of every history alike, and both answer
      with the longest match of the rules then in force. */
  method SideBySide(ops: seq<Op>)
    returns (fromTrie: seq<Option<Peer>>, fromList: seq<Option<Peer>>, ghost inForce: seq<Rules>)
    requires forall i :: 0 <= i < |ops| ==> OpOk(ops[i])
    ensures fromTrie == fromList && History(ops, inForce, fromTrie)
  {
    var trie := new Table.AllowedIps();
    var list := new LinearTable();
    fromTrie, fromList, inForce := [], [], [map[]];
    for i := 0 to |ops|
      invariant trie.Valid() && list.Valid() && list.rules == trie.Rules() && fresh(trie) && fresh(list)
      invariant History(ops[..i], inForce, fromTrie) && fromTrie == fromList && inForce[i] == list.rules
    {
      var a, b := Step(trie, list, ops[i]);
      HistoryGrows(ops[..i], inForce, fromTrie, ops[i], list.rules, a);
      OneMore(ops, i);
      fromTrie, fromList, inForce := fromTrie + [a], fromList + [b], inForce + [list.rules];
    }
    assert ops[..|ops|] == ops;
  }
}
