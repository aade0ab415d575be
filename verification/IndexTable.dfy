/** The table of peerlookup.c that finds handshakes and keypairs by their index: chained
    buckets, indices drawn at random and tried first without and then with the lock. */
module IndexTable {
  import opened Common

  const BUCKETS: nat := 8192

  type Entry = nat
  type Thread = nat

  // ----- the table as a value ------------------------------------------------------------

  /** The chains, and the index field of every entry, whether it is in a chain or not. */
  datatype Table = Table(chains: seq<seq<Entry>>, index: map<Entry, nat>)

  function IndexOf(t: Table, e: Entry): nat {
    if e in t.index then t.index[e] else 0
  }

  /** `index_bucket` */
  function BucketOf(index: nat): (b: nat)
    ensures b < BUCKETS
  {
    index % BUCKETS
  }

  /** `hlist_unhashed`, negated */
  predicate Hashed(t: Table, e: Entry)
    requires |t.chains| == BUCKETS
  {
    e in t.chains[BucketOf(IndexOf(t, e))]
  }

  /** Everything in a chain belongs in that bucket. */
  predicate ChainOk(t: Table, b: nat)
    requires b < |t.chains|
  {
    Distinct(t.chains[b]) && forall e :: e in t.chains[b] ==> BucketOf(IndexOf(t, e)) == b
  }

  ghost predicate Unique(t: Table)
    requires |t.chains| == BUCKETS
  {
    forall d: Entry, e: Entry :: Hashed(t, d) && Hashed(t, e) && IndexOf(t, d) == IndexOf(t, e) ==> d == e
  }

  ghost predicate TableOk(t: Table) {
    && |t.chains| == BUCKETS && Unique(t)
    && forall b :: 0 <= b < BUCKETS ==> ChainOk(t, b)
  }

  // ----- the locked sections -------------------------------------------------------------

  /** `hlist_del_init_rcu` */
  function Unlinked(t: Table, e: Entry): Table
    requires |t.chains| == BUCKETS
  {
    var b := BucketOf(IndexOf(t, e));
    t.(chains := t.chains[b := Without(t.chains[b], e)])
  }

  /** Some entry in the bucket has that index. */
  predicate Taken(t: Table, index: nat)
    requires |t.chains| == BUCKETS
  {
    exists e :: e in t.chains[BucketOf(index)] && IndexOf(t, e) == index
  }

  /** The store to `entry->index`, not yet in the table */
  function Drawn(t: Table, e: Entry, index: nat): Table {
    t.(index := t.index[e := index])
  }

  /** `hlist_add_head_rcu` */
  function Added(t: Table, e: Entry): Table
    requires |t.chains| == BUCKETS
  {
    var b := BucketOf(IndexOf(t, e));
    t.(chains := t.chains[b := [e] + t.chains[b]])
  }

  function Swapped(chain: seq<Entry>, old': Entry, new': Entry): seq<Entry> {
    seq(|chain|, i requires 0 <= i < |chain| => if chain[i] == old' then new' else chain[i])
  }

  /** `wg_index_hashtable_replace` */
  function Replaced(t: Table, old': Entry, new': Entry): Table
    requires |t.chains| == BUCKETS
  {
    if !Hashed(t, old') then t
    else
      var b := BucketOf(IndexOf(t, old'));
      Table(t.chains[b := Swapped(t.chains[b], old', new')], t.index[new' := IndexOf(t, old')])
  }

  lemma UnlinkOk(t: Table, e: Entry)
    requires TableOk(t)
    ensures TableOk(Unlinked(t, e)) && !Hashed(Unlinked(t, e), e)
    ensures forall d: Entry :: d != e ==> (Hashed(Unlinked(t, e), d) <==> Hashed(t, d))
  {
    var t' := Unlinked(t, e);
    WithoutIs(t.chains[BucketOf(IndexOf(t, e))], e);
    assert forall d: Entry :: Hashed(t', d) <==> d != e && Hashed(t, d);
    forall b | 0 <= b < BUCKETS ensures ChainOk(t', b) {
      assert ChainOk(t, b);
    }
  }

  lemma DrawOk(t: Table, e: Entry, index: nat)
    requires TableOk(t) && !Hashed(t, e)
    ensures TableOk(Drawn(t, e, index)) && !Hashed(Drawn(t, e, index), e)
    ensures forall d: Entry :: d != e ==> (Hashed(Drawn(t, e, index), d) <==> Hashed(t, d))
  {
    var t' := Drawn(t, e, index);
    forall b | 0 <= b < BUCKETS ensures ChainOk(t', b) && e !in t.chains[b] {
      assert ChainOk(t, b);
    }
    assert forall d: Entry :: Hashed(t', d) <==> Hashed(t, d);
  }

  lemma AddOk(t: Table, e: Entry)
    requires TableOk(t) && !Hashed(t, e) && !Taken(t, IndexOf(t, e))
    ensures TableOk(Added(t, e)) && Hashed(Added(t, e), e)
    ensures forall d: Entry :: d != e ==> (Hashed(Added(t, e), d) <==> Hashed(t, d))
  {
    var t' := Added(t, e);
    assert forall d: Entry :: Hashed(t', d) <==> d == e || Hashed(t, d);
    forall b | 0 <= b < BUCKETS ensures ChainOk(t', b) {
      assert ChainOk(t, b);
    }
  }

  lemma ReplaceOk(t: Table, old': Entry, new': Entry)
    requires TableOk(t) && Hashed(t, old') && !Hashed(t, new')
    ensures TableOk(Replaced(t, old', new'))
    ensures Hashed(Replaced(t, old', new'), new') && !Hashed(Replaced(t, old', new'), old')
    ensures IndexOf(Replaced(t, old', new'), new') == IndexOf(t, old')
    ensures forall d: Entry :: d != old' && d != new' ==> (Hashed(Replaced(t, old', new'), d) <==> Hashed(t, d))
  {
    var t' := Replaced(t, old', new');
    var b := BucketOf(IndexOf(t, old'));
    assert ChainOk(t, b);
    SwapIs(t.chains[b], old', new');
    forall c | 0 <= c < BUCKETS ensures ChainOk(t', c) && new' !in t.chains[c] {
      assert ChainOk(t, c);
    }
    assert forall d: Entry :: Hashed(t', d) <==> d == new' || (d != old' && Hashed(t, d));
    assert forall d: Entry :: d != new' ==> IndexOf(t', d) == IndexOf(t, d);
  }

  lemma SwapIs(chain: seq<Entry>, old': Entry, new': Entry)
    requires Distinct(chain) && new' !in chain && old' in chain
    ensures Distinct(Swapped(chain, old', new'))
    ensures forall d :: d in Swapped(chain, old', new') <==> d == new' || (d in chain && d != old')
  {
    var r := Swapped(chain, old', new');
    forall d ensures d in r <==> d == new' || (d in chain && d != old') {
      if d in chain && d != old' {
        var i :| 0 <= i < |chain| && chain[i] == d;
        assert r[i] == d;
      }
      if d == new' {
        var i :| 0 <= i < |chain| && chain[i] == old';
        assert r[i] == new';
      }
    }
  }

  // ----- lookup --------------------------------------------------------------------------

  datatype Kind = HandshakeEntry | KeypairEntry

  type Peer = nat

  /** The type of every entry, its link to its peer, and the peers' reference counts. */
  datatype Owners = Owners(kind: map<Entry, Kind>, peer: map<Entry, Option<Peer>>, refs: map<Peer, nat>)

  /** The peer of an entry can still be referenced. */
  predicate Alive(o: Owners, e: Entry) {
    e in o.peer && o.peer[e].Some? && o.peer[e].value in o.refs && o.refs[o.peer[e].value] > 0
  }

  /** What lookup does with the entry it has found: it takes a reference to the peer, or finds the
      peer gone and forgets it. */
  function Referenced(o: Owners, e: Entry): Owners {
    if Alive(o, e) then o.(refs := o.refs[o.peer[e].value := o.refs[o.peer[e].value] + 1])
    else o.(peer := o.peer[e := None])
  }

  predicate Typed(o: Owners, mask: set<Kind>, e: Entry) {
    e in o.kind && o.kind[e] in mask
  }

  /** `wg_index_hashtable_lookup`: the entry under an index is the one whose index it is, of a type
      asked for and with a peer that is still there; that peer gains one reference, and no other
      count changes. */
  method Lookup(t: Table, o: Owners, mask: set<Kind>, index: nat) returns (found: Option<Entry>, o': Owners)
    requires TableOk(t)
    ensures forall e: Entry :: found == Some(e)
                               <==> Hashed(t, e) && IndexOf(t, e) == index && Typed(o, mask, e) && Alive(o, e)
    ensures found.Some? ==> o' == Referenced(o, found.value) && o'.peer == o.peer
    ensures found.None? ==> o'.refs == o.refs && forall e: Entry :: Alive(o', e) <==> Alive(o, e)
  {
    var entry := Scan(t, index);
    o' := o;
    if entry.None? || !Typed(o, mask, entry.value) {
      return None, o;
    }
    o' := Referenced(o, entry.value);
    found := if Alive(o, entry.value) then entry else None;
  }

  method Scan(t: Table, index: nat) returns (found: Option<Entry>)
    requires TableOk(t)
    ensures forall e: Entry :: found == Some(e) <==> Hashed(t, e) && IndexOf(t, e) == index
  {
    var chain := t.chains[BucketOf(index)];
    assert ChainOk(t, BucketOf(index));
    for i := 0 to |chain|
      invariant forall j :: 0 <= j < i ==> IndexOf(t, chain[j]) != index
    {
      if IndexOf(t, chain[i]) == index {
        return Some(chain[i]);
      }
    }
    return None;
  }

  // ----- the table as an object: what each holder of the lock does -----------------------

  class IndexHashtable {
    var chains: seq<seq<Entry>>
    var index: map<Entry, nat>

    function View(): Table
      reads this
    {
      Table(chains, index)
    }

    /** `wg_index_hashtable_alloc` */
    constructor ()
      ensures TableOk(View()) && forall e: Entry :: !Hashed(View(), e)
    {
      chains, index := seq(BUCKETS, _ => []), map[];
    }

    /** The scan both halves of `wg_index_hashtable_insert` make. */
    method IsTaken(i: nat) returns (taken: bool)
      requires |chains| == BUCKETS
      ensures taken == Taken(View(), i)
    {
      var chain := chains[BucketOf(i)];
      for k := 0 to |chain|
        invariant forall j :: 0 <= j < k ==> IndexOf(View(), chain[j]) != i
      {
        if (if chain[k] in index then index[chain[k]] else 0) == i {
          assert chain[k] in View().chains[BucketOf(i)] && IndexOf(View(), chain[k]) == i;
          return true;
        }
      }
      return false;
    }

    /** The locked second half: try the index the entry has drawn. */
    method TryInsert(e: Entry) returns (ok: bool)
      requires TableOk(View()) && !Hashed(View(), e)
      modifies this
      ensures TableOk(View()) && ok == !Taken(old(View()), IndexOf(old(View()), e))
      ensures View() == if ok then Added(old(View()), e) else old(View())
    {
      var i := if e in index then index[e] else 0;
      var taken := IsTaken(i);
      if taken {
        return false;
      }
      AddOk(View(), e);
      chains := chains[BucketOf(i) := [e] + chains[BucketOf(i)]];
      return true;
    }

    /** `wg_index_hashtable_replace`: the index passes to the new entry, in the same place. */
    method ReplaceEntry(old': Entry, new': Entry) returns (ok: bool)
      requires TableOk(View()) && !Hashed(View(), new')
      modifies this
      ensures TableOk(View()) && ok == Hashed(old(View()), old') && View() == Replaced(old(View()), old', new')
      ensures ok ==>
                Hashed(View(), new') && !Hashed(View(), old')
                && IndexOf(View(), new') == IndexOf(old(View()), old')
    {
      var i := if old' in index then index[old'] else 0;
      if old' !in chains[BucketOf(i)] {
        return false;
      }
      ReplaceOk(View(), old', new');
      index := index[new' := i];
      chains := chains[BucketOf(i) := Swapped(chains[BucketOf(i)], old', new')];
      return true;
    }

    /** `wg_index_hashtable_remove` */
    method RemoveEntry(e: Entry)
      requires TableOk(View())
      modifies this
      ensures TableOk(View()) && View() == Unlinked(old(View()), e) && !Hashed(View(), e)
    {
      UnlinkOk(View(), e);
      var b := BucketOf(if e in index then index[e] else 0);
      chains := chains[b := Without(chains[b], e)];
    }
  }

  // ----- interleavings -------------------------------------------------------------------

  /** An insertion under way, before or after an index looked free without the lock. */
  datatype Inserting = Searching(e: Entry) | Trying(e: Entry)

  datatype State = State(table: Table, threads: map<Thread, Inserting>)

  datatype Step =
    | Begin(t: Thread, e: Entry)
    | Draw(t: Thread, index: nat, looksTaken: bool)
    | TryInsert(t: Thread)
    | Replace(old': Entry, new': Entry)
    | Remove(e: Entry)

  /** Somebody is inserting the entry. */
  predicate Busy(threads: map<Thread, Inserting>, e: Entry) {
    exists t :: t in threads && threads[t].e == e
  }

  /** The handshake's lock keeps an entry from being inserted by two, or replaced or removed
      while it is being inserted; a keypair's entry is new when it takes a place. */
  predicate Enabled(s: State, step: Step) {
    |s.table.chains| == BUCKETS &&
    match step
    case Begin(t, e) => t !in s.threads && !Busy(s.threads, e)
    case Draw(t, _, _) => t in s.threads && s.threads[t].Searching?
    case TryInsert(t) => t in s.threads && s.threads[t].Trying?
    case Replace(old', new') => !Busy(s.threads, old') && !Busy(s.threads, new') && old' != new'
      && !Hashed(s.table, new')
    case Remove(e) => !Busy(s.threads, e)
  }

  function Apply(s: State, step: Step): State
    requires Enabled(s, step)
  {
    match step
    case Begin(t, e) => State(Unlinked(s.table, e), s.threads[t := Searching(e)])
    // the unlocked scan may see a stale chain: its outcome is anybody's guess
    case Draw(t, index, looksTaken) =>
      var e := s.threads[t].e;
      State(Drawn(s.table, e, index), s.threads[t := if looksTaken then Searching(e) else Trying(e)])
    case TryInsert(t) =>
      var e := s.threads[t].e;
      if Taken(s.table, IndexOf(s.table, e)) then s.(threads := s.threads[t := Searching(e)])
      else State(Added(s.table, e), s.threads - {t})
    case Replace(old', new') => s.(table := Replaced(s.table, old', new'))
    case Remove(e) => s.(table := Unlinked(s.table, e))
  }

  predicate OneEach(threads: map<Thread, Inserting>) {
    forall t, u :: t in threads && u in threads && threads[t].e == threads[u].e ==> t == u
  }

  predicate NoneHashed(table: Table, threads: map<Thread, Inserting>)
    requires |table.chains| == BUCKETS
  {
    forall t :: t in threads ==> !Hashed(table, threads[t].e)
  }

  ghost predicate Inv(s: State) {
    TableOk(s.table) && NoneHashed(s.table, s.threads) && OneEach(s.threads)
  }

  lemma BeginKeeps(s: State, step: Step)
    requires Inv(s) && step.Begin? && Enabled(s, step)
    ensures Inv(Apply(s, step))
  {
    UnlinkOk(s.table, step.e);
  }

  lemma DrawKeeps(s: State, step: Step)
    requires Inv(s) && step.Draw? && Enabled(s, step)
    ensures Inv(Apply(s, step))
  {
    DrawOk(s.table, s.threads[step.t].e, step.index);
  }

  lemma TryKeeps(s: State, step: Step)
    requires Inv(s) && step.TryInsert? && Enabled(s, step)
    ensures Inv(Apply(s, step))
  {
    if !Taken(s.table, IndexOf(s.table, s.threads[step.t].e)) {
      AddOk(s.table, s.threads[step.t].e);
    }
  }

  lemma ReplaceKeeps(s: State, step: Step)
    requires Inv(s) && step.Replace? && Enabled(s, step)
    ensures Inv(Apply(s, step))
  {
    if Hashed(s.table, step.old') {
      ReplaceOk(s.table, step.old', step.new');
    }
  }

  lemma StepKeepsInv(s: State, step: Step)
    requires Inv(s) && Enabled(s, step)
    ensures Inv(Apply(s, step))
  {
    match step
    case Begin(_, _) => BeginKeeps(s, step);
    case Draw(_, _, _) => DrawKeeps(s, step);
    case TryInsert(_) => TryKeeps(s, step);
    case Replace(_, _) => ReplaceKeeps(s, step);
    case Remove(e) => UnlinkOk(s.table, e);
  }

  function Init(): State {
    State(Table(seq(BUCKETS, _ => []), map[]), map[])
  }

  predicate Valid(steps: seq<Step>)
    decreases |steps|, 0
  {
    steps == [] || (Valid(steps[..|steps| - 1]) && Enabled(End(steps[..|steps| - 1]), steps[|steps| - 1]))
  }

  function End(steps: seq<Step>): State
    requires Valid(steps)
    decreases |steps|, 1
  {
    if steps == [] then Init() else Apply(End(steps[..|steps| - 1]), steps[|steps| - 1])
  }

  /** Under every interleaving no two entries share an index and each is in the bucket of its
      index. */
  lemma {:induction false} ReachableInv(steps: seq<Step>)
    requires Valid(steps)
    ensures Inv(End(steps))
    decreases |steps|
  {
    if steps != [] {
      ReachableInv(steps[..|steps| - 1]);
      StepKeepsInv(End(steps[..|steps| - 1]), steps[|steps| - 1]);
    }
  }

  /** No step changes the index of an entry that is in the table before and after it, and an
      entry that takes another's place takes its index. */
  lemma IndexStays(steps: seq<Step>, step: Step, e: Entry)
    requires Valid(steps) && Enabled(End(steps), step)
    ensures var s, s' := End(steps), Apply(End(steps), step);
            && TableOk(s.table) && TableOk(s'.table)
            && (Hashed(s.table, e) && Hashed(s'.table, e) ==> IndexOf(s'.table, e) == IndexOf(s.table, e))
            && (step.Replace? && Hashed(s.table, step.old') ==>
                  Hashed(s'.table, step.new') && IndexOf(s'.table, step.new') == IndexOf(s.table, step.old')
                    && !Hashed(s'.table, step.old'))
  {
    ReachableInv(steps);
    StepKeepsInv(End(steps), step);
    if step.Replace? && Hashed(End(steps).table, step.old') {
      ReplaceOk(End(steps).table, step.old', step.new');
    }
  }
}
