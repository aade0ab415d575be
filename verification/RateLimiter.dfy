/** The handshake rate limiter of ratelimiter.c: a bounded table of token buckets that drops
    idle ones, against one bucket per source that is never dropped. */
module RateLimiter {
  import opened Common
  import opened Words

  const PACKETS_BURSTABLE: nat := 5
  const PACKET_COST: nat := 50_000_000
  const TOKEN_MAX: nat := 250_000_000

  /** Clock readings are far from the end of 64 bits. */
  type Time = t: nat | t < 0x8000_0000_0000_0000

  /** Protocol, network and (at most) 64 bits of source address. */
  datatype Source = Source(v6: bool, net: nat, ip: nat)

  // ----- buckets -------------------------------------------------------------------------

  datatype Bucket = Bucket(tokens: nat, last: Time)

  function Min(a: nat, b: nat): nat {
    if a <= b then a else b
  }

  /** The tokens a bucket holds at a time not before its last use. */
  function Level(b: Bucket, now: Time): nat
    requires b.last <= now
  {
    Min(TOKEN_MAX, b.tokens + (now - b.last))
  }

  predicate Passes(b: Bucket, now: Time)
    requires b.last <= now
  {
    Level(b, now) >= PACKET_COST
  }

  function Used(b: Bucket, now: Time): Bucket
    requires b.last <= now
  {
    Bucket(if Passes(b, now) then Level(b, now) - PACKET_COST else Level(b, now), now)
  }

  /** A source not heard of has a full bucket. */
  function Full(now: Time): Bucket {
    Bucket(TOKEN_MAX, now)
  }

  // ----- the limiter as a map ------------------------------------------------------------

  type Size = n: nat | n > 0 witness 1

  type Buckets = map<Source, Bucket>

  /** The entries, the count of entries and pending releases, and the time of the last event. */
  datatype State = State(size: Size, hash: Source -> nat, live: Buckets, total: nat, time: Time)

  /** An arrival, with whether an entry can be allocated; one turn of the collector's loop over the
      lists, with the clock as read when the collection began; the release of an entry dropped before. */
  datatype Event =
    | Arrives(at: Time, src: Source, alloc: bool)
    | Sweeps(at: Time, slot: nat, read: Time)
    | Frees(at: Time)

  function SlotOf(h: Source -> nat, size: Size, src: Source): (i: nat)
    ensures i < size
  {
    h(src) % size
  }

  function MaxEntries(size: Size): nat {
    8 * size
  }

  ghost predicate Ok(s: State) {
    && |s.live| <= s.total <= MaxEntries(s.size)
    && forall src :: src in s.live ==> BucketOk(s.live[src], s.time)
  }

  predicate BucketOk(b: Bucket, time: Time) {
    b.last <= time && b.tokens <= TOKEN_MAX
  }

  function Start(size: Size, h: Source -> nat): State {
    State(size, h, map[], 0, 0)
  }

  ghost predicate Enabled(s: State, e: Event) {
    s.time <= e.at && (e.Sweeps? ==> e.slot < s.size && e.read <= e.at) && (e.Frees? ==> s.total > |s.live|)
  }

  /** No entry and no room for one. */
  ghost predicate Refuses(s: State, e: Event) {
    e.Arrives? && e.src !in s.live && (s.total == MaxEntries(s.size) || !e.alloc)
  }

  ghost predicate Answer(s: State, e: Event)
    requires Ok(s) && Enabled(s, e)
  {
    e.Arrives? && if e.src in s.live then Passes(s.live[e.src], e.at) else !Refuses(s, e)
  }

  /** `now - entry->last_time_ns > NSEC_PER_SEC` on unsigned 64 bits */
  predicate Stale(b: Bucket, now: Time) {
    (now + U64_SIZE - b.last) % U64_SIZE > NSEC_PER_SEC
  }

  /** When the clock was read before an entry was last used, the difference wraps. */
  lemma StaleIs(b: Bucket, now: Time)
    ensures Stale(b, now) <==> b.last > now || now - b.last > NSEC_PER_SEC
  {
  }

  ghost predicate Drops(s: State, e: Event, src: Source) {
    e.Sweeps? && src in s.live && SlotOf(s.hash, s.size, src) == e.slot && Stale(s.live[src], e.read)
  }

  ghost function Next(s: State, e: Event): (r: State)
    requires Ok(s) && Enabled(s, e)
    ensures Ok(r) && r.size == s.size && r.hash == s.hash && r.time == e.at
  {
    match e
    case Arrives(at, src, _) =>
      if Refuses(s, e) then s.(time := at)
      else if src in s.live then s.(live := s.live[src := Used(s.live[src], at)], time := at)
      else s.(live := s.live[src := Bucket(TOKEN_MAX - PACKET_COST, at)], total := s.total + 1, time := at)
    case Sweeps(at, _, _) =>
      var kept := map src | src in s.live && !Drops(s, e, src) :: s.live[src];
      Fewer(kept.Keys, s.live.Keys);
      s.(live := kept, time := at)
    case Frees(at) =>
      s.(total := s.total - 1, time := at)
  }

  lemma Fewer<T>(a: set<T>, b: set<T>)
    requires a <= b
    ensures |a| <= |b| && (a != b ==> |a| < |b|)
  {
    assert b == a + (b - a) && (a != b ==> b - a != {});
  }

  // ----- runs ----------------------------------------------------------------------------

  ghost predicate Possible(s: State, events: seq<Event>)
    requires Ok(s)
    decreases events
  {
    events != [] ==> Enabled(s, events[0]) && Possible(Next(s, events[0]), events[1..])
  }

  ghost function End(s: State, events: seq<Event>): (r: State)
    requires Ok(s) && Possible(s, events)
    ensures Ok(r)
    decreases events
  {
    if events == [] then s else End(Next(s, events[0]), events[1..])
  }

  ghost function Answers(s: State, events: seq<Event>): (answers: seq<bool>)
    requires Ok(s) && Possible(s, events)
    ensures |answers| == |events|
    decreases events
  {
    if events == [] then [] else [Answer(s, events[0])] + Answers(Next(s, events[0]), events[1..])
  }

  ghost function Refusals(s: State, events: seq<Event>): (refused: seq<bool>)
    requires Ok(s) && Possible(s, events)
    ensures |refused| == |events|
    decreases events
  {
    if events == [] then [] else [Refuses(s, events[0])] + Refusals(Next(s, events[0]), events[1..])
  }

  // ----- collections that change nothing -------------------------------------------------

  /** Every entry in the list that was used since the clock was read is full again. */
  ghost predicate Timely(s: State, e: Event)
    requires Ok(s) && Enabled(s, e)
  {
    e.Sweeps? ==>
      forall src :: src in s.live && SlotOf(s.hash, s.size, src) == e.slot && s.live[src].last > e.read ==>
        Level(s.live[src], e.at) == TOKEN_MAX
  }

  ghost predicate TimelyRun(s: State, events: seq<Event>)
    requires Ok(s) && Possible(s, events)
    decreases events
  {
    events != [] ==> Timely(s, events[0]) && TimelyRun(Next(s, events[0]), events[1..])
  }

  /** What a timely collection drops is full. */
  lemma DroppedIsFull(s: State, e: Event, src: Source)
    requires Ok(s) && Enabled(s, e) && Timely(s, e) && Drops(s, e, src)
    ensures Level(s.live[src], e.at) == TOKEN_MAX
  {
    StaleIs(s.live[src], e.read);
  }

  // ----- the rate ------------------------------------------------------------------------

  /** What a source can spend; no entry is as good as a full one. */
  ghost function Credit(s: State, src: Source, now: Time): nat
    requires Ok(s) && s.time <= now
  {
    if src in s.live then Level(s.live[src], now) else TOKEN_MAX
  }

  lemma CreditSpent(s: State, e: Event, src: Source)
    requires Ok(s) && Enabled(s, e) && Timely(s, e)
    ensures Credit(Next(s, e), src, e.at) + (if e.Arrives? && e.src == src && Answer(s, e) then PACKET_COST else 0)
            == Credit(s, src, e.at)
  {
    if Drops(s, e, src) {
      DroppedIsFull(s, e, src);
    }
  }

  lemma CreditGrows(s: State, src: Source, now: Time)
    requires Ok(s) && s.time <= now
    ensures Credit(s, src, now) <= Credit(s, src, s.time) + (now - s.time) && Credit(s, src, now) <= TOKEN_MAX
  {
  }

  /** How many packets of a source were let through among the events number i up to j. */
  function Through(events: seq<Event>, answers: seq<bool>, src: Source, i: nat, j: nat): nat
    requires |answers| == |events| && i <= j <= |events|
    decreases j - i
  {
    if i == j then 0
    else
      (if events[i].Arrives? && events[i].src == src && answers[i] then 1 else 0)
      + Through(events, answers, src, i + 1, j)
  }

  lemma {:induction false} ThroughTail(events: seq<Event>, answers: seq<bool>, src: Source, i: nat, j: nat)
    requires |answers| == |events| && 0 < i <= j <= |events|
    ensures Through(events, answers, src, i, j) == Through(events[1..], answers[1..], src, i - 1, j - 1)
    decreases j - i
  {
    if i < j {
      ThroughTail(events, answers, src, i + 1, j);
    }
  }

  /** From any state on, packets are paid for by what the source could spend and the time that
      has gone by. */
  lemma {:induction false} Spent(s: State, events: seq<Event>, src: Source, j: nat)
    requires Ok(s) && Possible(s, events) && TimelyRun(s, events) && 0 < j <= |events|
    ensures Through(events, Answers(s, events), src, 0, j) * PACKET_COST <= Credit(s, src, events[0].at)
            + (events[j - 1].at - events[0].at)
    decreases j
  {
    var s' := Next(s, events[0]);
    CreditSpent(s, events[0], src);
    ThroughTail(events, Answers(s, events), src, 1, j);
    assert Answers(s, events)[1..] == Answers(s', events[1..]);
    if j > 1 {
      Spent(s', events[1..], src, j - 1);
      CreditGrows(s', src, events[1].at);
    }
  }

  /** From any state on, whatever is collected in time, at most five packets of a source and one
      per 50 ms pass. */
  lemma RateBound(s: State, events: seq<Event>, src: Source, j: nat)
    requires Ok(s) && Possible(s, events) && TimelyRun(s, events) && 0 < j <= |events|
    ensures Through(events, Answers(s, events), src, 0, j) <= PACKETS_BURSTABLE
            + (events[j - 1].at - events[0].at) / PACKET_COST
  {
    Spent(s, events, src, j);
  }

  /** The same over any stretch of a run. */
  lemma {:induction false} SourceRate(s: State, events: seq<Event>, src: Source, i: nat, j: nat)
    requires Ok(s) && Possible(s, events) && TimelyRun(s, events) && i < j <= |events|
    ensures Through(events, Answers(s, events), src, i, j) <= PACKETS_BURSTABLE
            + (events[j - 1].at - events[i].at) / PACKET_COST
    decreases i
  {
    if i == 0 {
      RateBound(s, events, src, j);
    } else {
      var s' := Next(s, events[0]);
      assert Answers(s, events)[1..] == Answers(s', events[1..]);
      ThroughTail(events, Answers(s, events), src, i, j);
      SourceRate(s', events[1..], src, i - 1, j - 1);
    }
  }

  // ----- buckets that are never dropped --------------------------------------------------

  /** The bucket of a source in the unbounded table. */
  function Of(spec: Buckets, src: Source, now: Time): Bucket {
    if src in spec then spec[src] else Full(now)
  }

  ghost predicate SpecOk(spec: Buckets, time: Time) {
    forall src :: src in spec ==> spec[src].last <= time
  }

  ghost function NextSpec(s: State, spec: Buckets, e: Event): (r: Buckets)
    requires SpecOk(spec, s.time) && Enabled(s, e)
    ensures SpecOk(r, e.at)
  {
    if e.Arrives? && !Refuses(s, e) then spec[e.src := Used(Of(spec, e.src, e.at), e.at)] else spec
  }

  /** The answer is that of the unbounded table, but for want of room. */
  ghost predicate Agrees(s: State, spec: Buckets, e: Event)
    requires Ok(s) && SpecOk(spec, s.time) && Enabled(s, e)
  {
    e.Arrives? && !Refuses(s, e) ==> (Answer(s, e) <==> Passes(Of(spec, e.src, e.at), e.at))
  }

  ghost predicate AgreesRun(s: State, spec: Buckets, events: seq<Event>)
    requires Ok(s) && Possible(s, events) && SpecOk(spec, s.time)
    decreases events
  {
    events != [] ==>
      Agrees(s, spec, events[0]) && AgreesRun(Next(s, events[0]), NextSpec(s, spec, events[0]), events[1..])
  }

  /** A bucket and its absence from the table look the same. */
  ghost predicate MirrorsAt(s: State, spec: Buckets, src: Source) {
    if src in s.live then src in spec && spec[src] == s.live[src]
    else src in spec ==> spec[src].last <= s.time && Level(spec[src], s.time) == TOKEN_MAX
  }

  ghost predicate Mirrors(s: State, spec: Buckets) {
    SpecOk(spec, s.time) && forall src: Source :: MirrorsAt(s, spec, src)
  }

  lemma StepMirrors(s: State, spec: Buckets, e: Event)
    requires Ok(s) && Mirrors(s, spec) && Enabled(s, e) && Timely(s, e)
    ensures Agrees(s, spec, e) && Mirrors(Next(s, e), NextSpec(s, spec, e))
  {
    assert e.Arrives? ==> MirrorsAt(s, spec, e.src);
    forall src: Source ensures MirrorsAt(Next(s, e), NextSpec(s, spec, e), src) {
      assert MirrorsAt(s, spec, src);
      if Drops(s, e, src) {
        DroppedIsFull(s, e, src);
      }
    }
  }

  ghost function Unbounded(s: State, spec: Buckets, events: seq<Event>): Buckets
    requires Ok(s) && Possible(s, events) && SpecOk(spec, s.time)
    decreases events
  {
    if events == [] then spec else Unbounded(Next(s, events[0]), NextSpec(s, spec, events[0]), events[1..])
  }

  /** In a run whose collections are timely, every answer but a refusal for want of room is the
      unbounded table's. */
  lemma {:induction false} AsUnbounded(s: State, spec: Buckets, events: seq<Event>)
    requires Ok(s) && Mirrors(s, spec) && Possible(s, events) && TimelyRun(s, events)
    ensures AgreesRun(s, spec, events) && Mirrors(End(s, events), Unbounded(s, spec, events))
    decreases events
  {
    if events != [] {
      StepMirrors(s, spec, events[0]);
      AsUnbounded(Next(s, events[0]), NextSpec(s, spec, events[0]), events[1..]);
    }
  }

  // ----- a collection with an old clock reading ------------------------------------------

  /** Packets of one source at once. */
  function Packets(src: Source, at: Time, n: nat): seq<Event> {
    seq(n, _ => Arrives(at, src, true))
  }

  lemma PacketsMore(src: Source, at: Time, n: nat)
    requires n > 0
    ensures Packets(src, at, n)[0] == Arrives(at, src, true) && Packets(src, at, n)[1..] == Packets(src, at, n - 1)
  {
  }

  lemma {:induction false} PacketsPossible(s: State, src: Source, n: nat)
    requires Ok(s)
    ensures Possible(s, Packets(src, s.time, n)) && TimelyRun(s, Packets(src, s.time, n))
    decreases n
  {
    if n > 0 {
      PacketsMore(src, s.time, n);
      PacketsPossible(Next(s, Arrives(s.time, src, true)), src, n - 1);
    }
  }

  /** Packets that come at once are let through while the bucket pays for them, and the unbounded
      table agrees only if its bucket pays too. */
  lemma {:induction false} PacketsTell(s: State, spec: Buckets, src: Source, n: nat)
    requires Ok(s) && SpecOk(spec, s.time) && src in spec && Possible(s, Packets(src, s.time, n))
    requires if src in s.live then n * PACKET_COST <= Level(s.live[src], s.time)
             else n <= 5 && s.total < MaxEntries(s.size)
    requires AgreesRun(s, spec, Packets(src, s.time, n))
    ensures n * PACKET_COST <= Level(spec[src], s.time)
    decreases n
  {
    if n > 0 {
      var e := Arrives(s.time, src, true);
      PacketsMore(src, s.time, n);
      PacketsTell(Next(s, e), NextSpec(s, spec, e), src, n - 1);
    }
  }

  /** Dropping entries goes unnoticed, in every continuation with timely collections, exactly when
      every entry of the list used since the clock was read is full again. */
  lemma OldReading(s: State, spec: Buckets, e: Event)
    requires Ok(s) && Mirrors(s, spec) && Enabled(s, e) && e.Sweeps?
    ensures Timely(s, e) <==>
            forall more: seq<Event> :: Possible(Next(s, e), more) && TimelyRun(Next(s, e), more)
              ==> AgreesRun(Next(s, e), spec, more)
  {
    var s' := Next(s, e);
    if Timely(s, e) {
      StepMirrors(s, spec, e);
      forall more: seq<Event> | Possible(s', more) && TimelyRun(s', more) ensures AgreesRun(s', spec, more) {
        AsUnbounded(s', spec, more);
      }
    } else {
      var src :| src in s.live && SlotOf(s.hash, s.size, src) == e.slot && s.live[src].last > e.read
          && Level(s.live[src], e.at) != TOKEN_MAX;
      Noticed(s, spec, e, src);
    }
  }

  lemma DropPends(s: State, e: Event, src: Source)
    requires Ok(s) && Enabled(s, e) && Drops(s, e, src)
    ensures src !in Next(s, e).live && Next(s, e).total > |Next(s, e).live|
  {
    var kept := Next(s, e).live;
    assert src in s.live.Keys && src !in kept.Keys;
    Fewer(kept.Keys, s.live.Keys);
  }

  /** Once something is released, five packets at once tell. */
  lemma Noticed(s: State, spec: Buckets, e: Event, src: Source)
    requires Ok(s) && Mirrors(s, spec) && Enabled(s, e) && e.Sweeps? && src in s.live
    requires SlotOf(s.hash, s.size, src) == e.slot && s.live[src].last > e.read && Level(s.live[src], e.at) != TOKEN_MAX
    ensures var s', run := Next(s, e), [Frees(e.at)] + Packets(src, e.at, 5);
            Possible(s', run) && TimelyRun(s', run) && !AgreesRun(s', spec, run)
  {
    var s', run := Next(s, e), [Frees(e.at)] + Packets(src, e.at, 5);
    StaleIs(s.live[src], e.read);
    DropPends(s, e, src);
    var s'' := Next(s', run[0]);
    PacketsPossible(s'', src, 5);
    assert run[1..] == Packets(src, e.at, 5);
    if AgreesRun(s', spec, run) {
      assert MirrorsAt(s, spec, src);
      PacketsTell(s'', spec, src, 5);
    }
  }

  /** A new limiter after so many packets of one source at once. */
  ghost function Paid(size: Size, h: Source -> nat, src: Source, at: Time, k: nat): (s: State)
    requires k <= 5
    ensures Ok(s)
  {
    State(size, h,
          if k == 0 then map[] else map[src := Bucket(TOKEN_MAX - k * PACKET_COST, at)],
          if k == 0 then 0 else 1,
          if k == 0 then 0 else at)
  }

  lemma PaidNext(size: Size, h: Source -> nat, src: Source, at: Time, k: nat)
    requires k < 5
    ensures var s, e := Paid(size, h, src, at, k), Arrives(at, src, true);
            Enabled(s, e) && Next(s, e) == Paid(size, h, src, at, k + 1)
  {
  }

  /** Five packets of a new source leave it with nothing to spend. */
  lemma {:induction false} FiveSpend(size: Size, h: Source -> nat, src: Source, at: Time, k: nat)
    requires k <= 5
    ensures var s, run := Paid(size, h, src, at, k), Packets(src, at, 5 - k);
            Possible(s, run) && End(s, run) == Paid(size, h, src, at, 5)
    decreases 5 - k
  {
    if k < 5 {
      PacketsMore(src, at, 5 - k);
      PaidNext(size, h, src, at, k);
      FiveSpend(size, h, src, at, k + 1);
    }
  }

  /** Five packets of a new source, and a collection whose clock was read before them: a sixth
      packet at the same moment passes, but without the collection it does not. */
  lemma OldReadingForgets(size: Size, h: Source -> nat, src: Source, at: Time, read: Time)
    requires read < at
    ensures var five, sweep, sixth :=
              Packets(src, at, 5), Sweeps(at, SlotOf(h, size, src), read), Arrives(at, src, true);
            && Possible(Start(size, h), five)
            && var s := End(Start(size, h), five);
               && Enabled(s, sweep) && Enabled(s, sixth) && !Timely(s, sweep)
               && !Answer(s, sixth) && Answer(Next(s, sweep), sixth)
  {
    FiveSpend(size, h, src, at, 0);
    var s, sweep := Paid(size, h, src, at, 5), Sweeps(at, SlotOf(h, size, src), read);
    StaleIs(s.live[src], read);
    assert Drops(s, sweep, src);
  }

  // ----- the table of lists --------------------------------------------------------------

  datatype Entry = Entry(src: Source, bucket: Bucket)

  function Find(list: seq<Entry>, src: Source): Option<Bucket> {
    if list == [] then None else if list[0].src == src then Some(list[0].bucket) else Find(list[1..], src)
  }

  predicate Apart(list: seq<Entry>) {
    forall i, j :: 0 <= i < j < |list| ==> list[i].src != list[j].src
  }

  /** What one collection leaves of a list. */
  function Kept(list: seq<Entry>, now: Time): seq<Entry> {
    if list == [] then []
    else if Stale(list[0].bucket, now) then Kept(list[1..], now)
    else [list[0]] + Kept(list[1..], now)
  }

  lemma {:induction false} KeptHas(list: seq<Entry>, now: Time, e: Entry)
    ensures e in Kept(list, now) <==> e in list && !Stale(e.bucket, now)
  {
    if list != [] {
      KeptHas(list[1..], now, e);
      assert list == [list[0]] + list[1..];
    }
  }

  lemma {:induction false} KeptApart(list: seq<Entry>, now: Time)
    requires Apart(list)
    ensures Apart(Kept(list, now))
  {
    if list != [] {
      var rest := Kept(list[1..], now);
      KeptApart(list[1..], now);
      forall j | 0 <= j < |rest| ensures rest[j].src != list[0].src {
        KeptHas(list[1..], now, rest[j]);
        assert rest[j] in list[1..];
      }
    }
  }

  lemma {:induction false} FindIs(list: seq<Entry>, src: Source, b: Bucket)
    requires Apart(list)
    ensures Find(list, src) == Some(b) <==> Entry(src, b) in list
  {
    if list != [] {
      assert Apart(list[1..]) && list == [list[0]] + list[1..];
      FindIs(list[1..], src, b);
    }
  }

  lemma {:induction false} FindSet(list: seq<Entry>, i: nat, b: Bucket, src: Source)
    requires Apart(list) && i < |list|
    ensures Apart(list[i := list[i].(bucket := b)])
    ensures Find(list[i := list[i].(bucket := b)], src) == if src == list[i].src then Some(b) else Find(list, src)
    decreases i
  {
    var list' := list[i := list[i].(bucket := b)];
    assert forall j :: 0 <= j < |list| ==> list'[j].src == list[j].src;
    if i > 0 {
      assert Apart(list[1..]) && list'[1..] == list[1..][i - 1 := list[1..][i - 1].(bucket := b)];
      FindSet(list[1..], i - 1, b, src);
      assert list[0].src != list[i].src;
    } else {
      assert list'[1..] == list[1..];
    }
  }

  lemma FindHead(list: seq<Entry>, e: Entry, src: Source)
    requires Apart(list) && Find(list, e.src) == None
    ensures Apart([e] + list)
    ensures Find([e] + list, src) == if src == e.src then Some(e.bucket) else Find(list, src)
  {
    forall j | 0 <= j < |list| ensures list[j].src != e.src {
      FindIs(list, e.src, list[j].bucket);
    }
    assert ([e] + list)[1..] == list;
  }

  /** Collection never hides a source but by dropping its entry. */
  lemma FindKept(list: seq<Entry>, src: Source, now: Time)
    requires Apart(list)
    ensures var b := Find(list, src);
            Find(Kept(list, now), src) == if b.Some? && !Stale(b.value, now) then b else None
  {
    var b, c := Find(list, src), Find(Kept(list, now), src);
    KeptApart(list, now);
    if b.Some? {
      KeptHas(list, now, Entry(src, b.value));
      FindIs(list, src, b.value);
      FindIs(Kept(list, now), src, b.value);
    }
    if c.Some? {
      KeptHas(list, now, Entry(src, c.value));
      FindIs(Kept(list, now), src, c.value);
      FindIs(list, src, c.value);
    }
  }

  /** A list holds the entries of its slot, each source once. */
  ghost predicate ListOk(list: seq<Entry>, h: Source -> nat, size: Size, i: nat) {
    Apart(list) && forall e :: e in list ==> SlotOf(h, size, e.src) == i
  }

  function Lookup(live: Buckets, src: Source): Option<Bucket> {
    if src in live then Some(live[src]) else None
  }

  ghost predicate SourceOk(table: seq<seq<Entry>>, h: Source -> nat, live: Buckets, src: Source)
    requires |table| > 0
  {
    Find(table[SlotOf(h, |table|, src)], src) == Lookup(live, src)
  }

  /** The lists hold exactly the entries of the map. */
  ghost predicate TableOk(table: seq<seq<Entry>>, h: Source -> nat, live: Buckets) {
    && |table| > 0
    && (forall i :: 0 <= i < |table| ==> ListOk(table[i], h, |table|, i))
    && (forall src: Source {:trigger SourceOk(table, h, live, src)} :: SourceOk(table, h, live, src))
  }

  lemma SetOk(table: seq<seq<Entry>>, h: Source -> nat, live: Buckets, slot: nat, i: nat, b: Bucket)
    requires TableOk(table, h, live) && slot < |table| && i < |table[slot]|
    ensures var list := table[slot][i := table[slot][i].(bucket := b)];
            TableOk(table[slot := list], h, live[table[slot][i].src := b])
  {
    var src, list := table[slot][i].src, table[slot][i := table[slot][i].(bucket := b)];
    var table', live' := table[slot := list], live[src := b];
    assert ListOk(table[slot], h, |table|, slot) && table[slot][i] in table[slot];
    forall s: Source ensures SourceOk(table', h, live', s) && Apart(list) {
      assert SourceOk(table, h, live, s);
      FindSet(table[slot], i, b, s);
    }
    forall e | e in list ensures SlotOf(h, |table|, e.src) == slot {
      assert e in table[slot] || e.src == src;
    }
  }

  lemma AddOk(table: seq<seq<Entry>>, h: Source -> nat, live: Buckets, e: Entry)
    requires TableOk(table, h, live) && e.src !in live
    ensures var slot := SlotOf(h, |table|, e.src);
            TableOk(table[slot := [e] + table[slot]], h, live[e.src := e.bucket])
  {
    var slot := SlotOf(h, |table|, e.src);
    var table', live' := table[slot := [e] + table[slot]], live[e.src := e.bucket];
    assert ListOk(table[slot], h, |table|, slot) && SourceOk(table, h, live, e.src);
    forall s: Source ensures SourceOk(table', h, live', s) && Apart(table'[slot]) {
      assert SourceOk(table, h, live, s);
      FindHead(table[slot], e, s);
    }
    forall i | 0 <= i < |table'| ensures ListOk(table'[i], h, |table'|, i) {
      assert ListOk(table[i], h, |table|, i);
      FindHead(table[slot], e, e.src);
      assert forall x :: x in [e] + table[slot] ==> x == e || x in table[slot];
    }
  }

  lemma SweptOk(table: seq<seq<Entry>>, s: State, e: Event)
    requires TableOk(table, s.hash, s.live) && |table| == s.size && Ok(s) && Enabled(s, e) && e.Sweeps?
    ensures TableOk(table[e.slot := Kept(table[e.slot], e.read)], s.hash, Next(s, e).live)
  {
    var table', live' := table[e.slot := Kept(table[e.slot], e.read)], Next(s, e).live;
    assert ListOk(table[e.slot], s.hash, s.size, e.slot);
    KeptApart(table[e.slot], e.read);
    forall x | x in Kept(table[e.slot], e.read) ensures SlotOf(s.hash, s.size, x.src) == e.slot {
      KeptHas(table[e.slot], e.read, x);
    }
    forall src: Source ensures SourceOk(table', s.hash, live', src) {
      assert SourceOk(table, s.hash, s.live, src);
      FindKept(table[e.slot], src, e.read);
    }
  }

  lemma KeptNext(list: seq<Entry>, i: nat, now: Time)
    requires i < |list|
    ensures Kept(list[i..], now) == (if Stale(list[i].bucket, now) then [] else [list[i]]) + Kept(list[i + 1..], now)
  {
  }

  /** The inner loop of `wg_ratelimiter_gc_entries` */
  method Sweep(list: seq<Entry>, now: Time) returns (kept: seq<Entry>)
    ensures kept == Kept(list, now)
  {
    kept := [];
    assert list[0..] == list;
    for i := 0 to |list|
      invariant kept + Kept(list[i..], now) == Kept(list, now)
    {
      KeptNext(list, i, now);
      if (now + U64_SIZE - list[i].bucket.last) % U64_SIZE <= NSEC_PER_SEC {
        ghost var rest := Kept(list[i + 1..], now);
        assert kept + ([list[i]] + rest) == kept + [list[i]] + rest;
        kept := kept + [list[i]];
      }
    }
  }

  /** The search of `wg_ratelimiter_allow` along a list */
  method Position(list: seq<Entry>, src: Source) returns (i: nat)
    ensures i <= |list| && (i < |list| ==> list[i].src == src && Find(list, src) == Some(list[i].bucket))
    ensures i == |list| ==> Find(list, src) == None
  {
    i := 0;
    while i < |list| && list[i].src != src
      invariant i <= |list| && Find(list, src) == Find(list[i..], src)
    {
      i := i + 1;
    }
  }

  /** The entries a collection leaves, after all lists or the first i of them. */
  ghost function Fresh(live: Buckets, read: Time): Buckets {
    map src | src in live && !Stale(live[src], read) :: live[src]
  }

  ghost function FreshBelow(live: Buckets, h: Source -> nat, size: Size, read: Time, i: nat): Buckets {
    map src | src in live && !(SlotOf(h, size, src) < i && Stale(live[src], read)) :: live[src]
  }

  /** A whole collection with a clock read after the last use of every entry. */
  ghost predicate ReadLast(live: Buckets, read: Time) {
    forall src :: src in live ==> live[src].last <= read
  }

  lemma CollectedMirrors(s: State, spec: Buckets, read: Time, now: Time)
    requires Ok(s) && Mirrors(s, spec) && ReadLast(s.live, read) && s.time <= now && read <= now
    ensures Mirrors(s.(live := Fresh(s.live, read), time := now), spec)
  {
    var s' := s.(live := Fresh(s.live, read), time := now);
    forall src: Source ensures MirrorsAt(s', spec, src) {
      assert MirrorsAt(s, spec, src);
      if src in s.live {
        StaleIs(s.live[src], read);
      }
    }
  }

  lemma FreshNext(live: Buckets, s: State, e: Event)
    requires Ok(s) && Enabled(s, e) && e.Sweeps? && s.live == FreshBelow(live, s.hash, s.size, e.read, e.slot)
    ensures Next(s, e).live == FreshBelow(live, s.hash, s.size, e.read, e.slot + 1)
  {
  }

  class RateLimiter {
    const size: Size
    const hash: Source -> nat
    var table: seq<seq<Entry>>
    var total: nat
    ghost var live: Buckets
    ghost var time: Time

    ghost function Abs(): State
      reads this
    {
      State(size, hash, live, total, time)
    }

    ghost predicate Valid()
      reads this
    {
      |table| == size && TableOk(table, hash, live) && Ok(Abs())
    }

    /** `wg_ratelimiter_init` with a table of that size */
    constructor (tableSize: Size, h: Source -> nat)
      ensures Valid() && Abs() == Start(tableSize, h)
    {
      size, hash := tableSize, h;
      table := seq(tableSize, _ => []);
      total, live, time := 0, map[], 0;
    }

    /** `wg_ratelimiter_allow` for a source at a time; `alloc` says whether an entry can be
        allocated.  `refused` is set when there was no room for a new entry. */
    method Allow(src: Source, now: Time, alloc: bool) returns (ret: bool, refused: bool)
      requires Valid() && time <= now
      modifies this
      ensures Valid() && Abs() == Next(old(Abs()), Arrives(now, src, alloc))
      ensures ret == Answer(old(Abs()), Arrives(now, src, alloc))
      ensures refused == Refuses(old(Abs()), Arrives(now, src, alloc))
    {
      var slot := SlotOf(hash, size, src);
      assert SourceOk(table, hash, live, src);
      time := now;
      var i := Position(table[slot], src);
      if i < |table[slot]| {
        ret := Charge(src, slot, i, now);
        return ret, false;
      }
      if total + 1 > MaxEntries(size) || !alloc {
        return false, true;
      }
      Admit(src, slot, now);
      return true, false;
    }

    /** A source that has an entry pays from its bucket. */
    method Charge(src: Source, slot: nat, i: nat, now: Time) returns (ret: bool)
      requires Valid() && time == now && slot == SlotOf(hash, size, src) && i < |table[slot]|
               && table[slot][i].src == src
      requires src in live && live[src] == table[slot][i].bucket
      modifies this`table, this`live
      ensures Valid() && ret == Passes(old(live)[src], now) && live == old(live)[src := Used(old(live)[src], now)]
    {
      var b := table[slot][i].bucket;
      var tokens := Min(TOKEN_MAX, (b.tokens + now) - b.last);
      ret := tokens >= PACKET_COST;
      var b' := Bucket(if ret then tokens - PACKET_COST else tokens, now);
      SetOk(table, hash, live, slot, i, b');
      table := table[slot := table[slot][i := table[slot][i].(bucket := b')]];
      live := live[src := b'];
    }

    /** A source without an entry gets one and passes. */
    method Admit(src: Source, slot: nat, now: Time)
      requires Valid() && time == now && slot == SlotOf(hash, size, src) && src !in live && total < MaxEntries(size)
      modifies this`table, this`live, this`total
      ensures Valid() && total == old(total) + 1 && live == old(live)[src := Bucket(TOKEN_MAX - PACKET_COST, now)]
    {
      total := total + 1;
      var e := Entry(src, Bucket(TOKEN_MAX - PACKET_COST, now));
      AddOk(table, hash, live, e);
      table := table[slot := [e] + table[slot]];
      live := live[src := e.bucket];
    }

    /** One turn of the outer loop of `wg_ratelimiter_gc_entries`, under the lock */
    method SweepSlot(slot: nat, read: Time, ghost now: Time)
      requires Valid() && time <= now && slot < size && read <= now
      modifies this`table, this`live, this`time
      ensures Valid() && Abs() == Next(old(Abs()), Sweeps(now, slot, read))
    {
      SweptOk(table, Abs(), Sweeps(now, slot, read));
      var kept := Sweep(table[slot], read);
      table := table[slot := kept];
      live := Next(Abs(), Sweeps(now, slot, read)).live;
      time := now;
    }

    /** `wg_ratelimiter_gc_entries` undisturbed, with the clock as read at its beginning */
    method Collect(read: Time, ghost now: Time)
      requires Valid() && time <= now && read <= now
      modifies this`table, this`live, this`time
      ensures Valid() && time == now && live == Fresh(old(live), read) && total == old(total)
      ensures ReadLast(old(live), read) ==> forall spec: Buckets :: Mirrors(old(Abs()), spec) ==> Mirrors(Abs(), spec)
    {
      ghost var was := live;
      time := now;
      for i := 0 to size
        invariant Valid() && time == now && live == FreshBelow(was, hash, size, read, i)
      {
        FreshNext(was, Abs(), Sweeps(now, i, read));
        SweepSlot(i, read, now);
      }
      assert live == Fresh(was, read);
      if ReadLast(was, read) {
        forall spec: Buckets | Mirrors(old(Abs()), spec) ensures Mirrors(Abs(), spec) {
          CollectedMirrors(old(Abs()), spec, read, now);
        }
      }
    }

    /** `entry_free`, after a grace period */
    method Release(ghost now: Time)
      requires Valid() && time <= now && total > |live|
      modifies this`total, this`time
      ensures Valid() && Abs() == Next(old(Abs()), Frees(now))
    {
      total, time := total - 1, now;
    }
  }

  /** No source has more than five packets and one per 50 ms let through in any stretch. */
  ghost predicate RateKept(events: seq<Event>, answers: seq<bool>)
    requires |answers| == |events|
  {
    forall src: Source, i, j {:trigger Through(events, answers, src, i, j)} :: 0 <= i < j <= |events| ==>
      Through(events, answers, src, i, j) <= PACKETS_BURSTABLE + (events[j - 1].at - events[i].at) / PACKET_COST
  }

  lemma TimelyServes(s: State, events: seq<Event>)
    requires Ok(s) && Possible(s, events) && TimelyRun(s, events)
    ensures RateKept(events, Answers(s, events))
    ensures s.live == map[] ==> AgreesRun(s, map[], events)
  {
    forall src: Source, i, j | 0 <= i < j <= |events|
      ensures Through(events, Answers(s, events), src, i, j) <= PACKETS_BURSTABLE
              + (events[j - 1].at - events[i].at) / PACKET_COST
    {
      SourceRate(s, events, src, i, j);
    }
    if s.live == map[] {
      AsUnbounded(s, map[], events);
    }
  }

  method ServeOne(limiter: RateLimiter, e: Event) returns (ret: bool, no: bool)
    requires limiter.Valid() && Enabled(limiter.Abs(), e)
    modifies limiter
    ensures limiter.Valid() && limiter.Abs() == Next(old(limiter.Abs()), e)
    ensures ret == Answer(old(limiter.Abs()), e) && no == Refuses(old(limiter.Abs()), e)
  {
    ret, no := false, false;
    match e
    case Arrives(at, src, alloc) => ret, no := limiter.Allow(src, at, alloc);
    case Sweeps(at, slot, read) => limiter.SweepSlot(slot, read, at);
    case Frees(at) => limiter.Release(at);
  }

  method ServeFrom(limiter: RateLimiter, events: seq<Event>) returns (answers: seq<bool>, refused: seq<bool>)
    requires limiter.Valid() && Possible(limiter.Abs(), events)
    modifies limiter
    ensures limiter.Valid() && limiter.Abs() == End(old(limiter.Abs()), events)
    ensures answers == Answers(old(limiter.Abs()), events) && refused == Refusals(old(limiter.Abs()), events)
    decreases events
  {
    if events == [] {
      return [], [];
    }
    var ret, no := ServeOne(limiter, events[0]);
    answers, refused := ServeFrom(limiter, events[1..]);
    answers, refused := [ret] + answers, [no] + refused;
  }

  /** A new limiter answers and refuses as the map does, over every run; and when its collections
      are timely, answers as the unbounded table does but for want of room, and keeps the rate. */
  method Serve(size: Size, h: Source -> nat, events: seq<Event>) returns (answers: seq<bool>, refused: seq<bool>)
    requires Possible(Start(size, h), events)
    ensures answers == Answers(Start(size, h), events) && refused == Refusals(Start(size, h), events)
    ensures TimelyRun(Start(size, h), events) ==> AgreesRun(Start(size, h), map[], events) && RateKept(events, answers)
  {
    var limiter := new RateLimiter(size, h);
    answers, refused := ServeFrom(limiter, events);
    if TimelyRun(Start(size, h), events) {
      TimelyServes(Start(size, h), events);
    }
  }
}
