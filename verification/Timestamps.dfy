/** The time stamps of handshake initiations: their TAI64N encoding in noise.c, and the replay
    and flood checks of `wg_noise_handshake_consume_initiation`, whose check and commit take
    the handshake's lock separately. */
module Timestamps {
  import opened Words

  // ----- encoding ------------------------------------------------------------------------

  /** `struct timespec64` of a clock after 1970 */
  datatype Timespec = Timespec(sec: nat, nsec: nat)

  predicate TimespecOk(t: Timespec) {
    t.sec < 0x8000_0000_0000_0000 && t.nsec < NSEC_PER_SEC
  }

  /** NSEC_PER_SEC / INITIATIONS_PER_SECOND rounded down to a power of two: 2^24 ns */
  const GRAIN: nat := 0x100_0000

  function Rounded(t: Timespec): Timespec {
    t.(nsec := t.nsec - t.nsec % GRAIN)
  }

  function Pow2(k: nat): nat {
    if k == 0 then 1 else 2 * Pow2(k - 1)
  }

  lemma GrainIs()
    ensures GRAIN <= NSEC_PER_SEC / INITIATIONS_PER_SECOND < 2 * GRAIN && exists k :: GRAIN == Pow2(k)
  {
    assert Pow2(8) == 0x100;
    assert Pow2(16) == 0x1_0000;
    assert Pow2(24) == 0x100_0000;
  }

  function Nanoseconds(t: Timespec): nat {
    t.sec * NSEC_PER_SEC + t.nsec
  }

  /** The low n bytes of a number, most significant first. */
  function BigEndian(x: nat, n: nat): (r: seq<Byte>)
    ensures |r| == n
  {
    if n == 0 then [] else BigEndian(x / 256, n - 1) + [x % 256]
  }

  /** `tai64n_now` */
  function Stamp(t: Timespec): (r: seq<Byte>)
    ensures |r| == 12
  {
    BigEndian((0x4000_0000_0000_000a + t.sec) % U64_SIZE, 8) + BigEndian(Rounded(t).nsec, 4)
  }

  // ----- memcmp --------------------------------------------------------------------------

  /** The first byte that differs decides. */
  predicate Less(a: seq<Byte>, b: seq<Byte>)
    requires |a| == |b|
  {
    a != [] && (a[0] < b[0] || (a[0] == b[0] && Less(a[1..], b[1..])))
  }

  method Memcmp(a: seq<Byte>, b: seq<Byte>) returns (r: int)
    requires |a| == |b|
    ensures r < 0 <==> Less(a, b)
    ensures r > 0 <==> Less(b, a)
    ensures r == 0 <==> a == b
  {
    var i := 0;
    while i < |a|
      invariant i <= |a| && a[..i] == b[..i]
      invariant Less(a, b) == Less(a[i..], b[i..]) && Less(b, a) == Less(b[i..], a[i..])
    {
      if a[i] != b[i] {
        return a[i] as int - b[i] as int;
      }
      i := i + 1;
    }
    return 0;
  }

  lemma {:induction false} LessJoin(a: seq<Byte>, b: seq<Byte>, c: seq<Byte>, d: seq<Byte>)
    requires |a| == |b| && |c| == |d|
    ensures Less(a + c, b + d) <==> Less(a, b) || (a == b && Less(c, d))
  {
    if a == [] {
      assert a + c == c && b + d == d;
    } else {
      assert (a + c)[1..] == a[1..] + c && (b + d)[1..] == b[1..] + d;
      LessJoin(a[1..], b[1..], c, d);
      assert a == [a[0]] + a[1..] && b == [b[0]] + b[1..];
    }
  }

  /** Byte order on big-endian numbers is number order. */
  lemma {:induction false} BigEndianOrder(x: nat, y: nat, n: nat)
    requires x < Pow256(n) && y < Pow256(n)
    ensures Less(BigEndian(x, n), BigEndian(y, n)) <==> x < y
    ensures BigEndian(x, n) == BigEndian(y, n) <==> x == y
    decreases n
  {
    if n > 0 {
      BigEndianOrder(x / 256, y / 256, n - 1);
      var a, b := BigEndian(x / 256, n - 1), BigEndian(y / 256, n - 1);
      LessJoin(a, b, [x % 256], [y % 256]);
      assert (a + [x % 256])[..n - 1] == a && (b + [y % 256])[..n - 1] == b;
      assert (a + [x % 256])[n - 1] == x % 256 && (b + [y % 256])[n - 1] == y % 256;
      assert Less([x % 256], [y % 256]) <==> x % 256 < y % 256;
    }
  }

  /** Byte order on stamps is the order of the rounded times. */
  lemma StampOrder(s: Timespec, t: Timespec)
    requires TimespecOk(s) && TimespecOk(t)
    ensures Less(Stamp(s), Stamp(t)) <==> Nanoseconds(Rounded(s)) < Nanoseconds(Rounded(t))
    ensures Stamp(s) == Stamp(t) <==> Nanoseconds(Rounded(s)) == Nanoseconds(Rounded(t))
  {
    Pow256Is();
    var a, b := 0x4000_0000_0000_000a + s.sec, 0x4000_0000_0000_000a + t.sec;
    var x, y := Rounded(s).nsec, Rounded(t).nsec;
    BigEndianOrder(a, b, 8);
    BigEndianOrder(x, y, 4);
    JoinOrder(BigEndian(a, 8), BigEndian(b, 8), BigEndian(x, 4), BigEndian(y, 4));
    TimeOrder(Rounded(s), Rounded(t));
    StampIs(s);
    StampIs(t);
  }

  /** The seconds never reach past 64 bits. */
  lemma StampIs(t: Timespec)
    requires TimespecOk(t)
    ensures Stamp(t) == BigEndian(0x4000_0000_0000_000a + t.sec, 8) + BigEndian(Rounded(t).nsec, 4)
  {
  }

  lemma TimeOrder(s: Timespec, t: Timespec)
    requires TimespecOk(s) && TimespecOk(t)
    ensures Nanoseconds(s) < Nanoseconds(t) <==> s.sec < t.sec || (s.sec == t.sec && s.nsec < t.nsec)
    ensures Nanoseconds(s) == Nanoseconds(t) <==> s == t
  {
  }

  lemma JoinOrder(a: seq<Byte>, b: seq<Byte>, c: seq<Byte>, d: seq<Byte>)
    requires |a| == |b| && |c| == |d|
    ensures Less(a + c, b + d) <==> Less(a, b) || (a == b && Less(c, d))
    ensures a + c == b + d <==> a == b && c == d
  {
    LessJoin(a, b, c, d);
    assert (a + c)[..|a|] == a && (b + d)[..|a|] == b && (a + c)[|a|..] == c && (b + d)[|a|..] == d;
  }

  /** Stamps taken at least 20 ms apart are strictly increasing. */
  lemma StampsIncrease(s: Timespec, t: Timespec)
    requires TimespecOk(s) && TimespecOk(t) && Nanoseconds(s) + NSEC_PER_SEC / INITIATIONS_PER_SECOND <= Nanoseconds(t)
    ensures Less(Stamp(s), Stamp(t))
  {
    StampOrder(s, t);
  }

  // ----- check and commit ----------------------------------------------------------------

  const SPACING: nat := NSEC_PER_SEC / INITIATIONS_PER_SECOND

  /** A consumer that has passed the checks: its stamp (as a number, in byte order), when it
      checked, and how many had committed by then. */
  datatype Pending = Pending(stamp: nat, checked: nat, mark: nat)

  datatype Commit = Commit(stamp: nat, at: nat)

  /** `latest_timestamp` and `last_initiation_consumption`, the consumers in between, everything
      committed so far, and the coarse clock. */
  datatype State = State(latest: nat, last: nat, pending: map<nat, Pending>, log: seq<Commit>, clock: nat)

  function Init(): State {
    State(0, 0, map[], [], 0)
  }

  datatype Step =
    | Tick(now: nat)
    | Check(t: nat, stamp: nat)
    | Write(t: nat)

  predicate Passes(s: State, stamp: nat) {
    var replay := stamp <= s.latest;
    var flood := s.last + SPACING > s.clock;
    !replay && !flood
  }

  predicate Enabled(s: State, step: Step) {
    match step
    case Tick(now) => s.clock <= now
    case Check(t, stamp) => t !in s.pending && Passes(s, stamp)
    case Write(t) => t in s.pending
  }

  function Apply(s: State, step: Step): State
    requires Enabled(s, step)
  {
    match step
    case Tick(now) => s.(clock := now)
    case Check(t, stamp) => s.(pending := s.pending[t := Pending(stamp, s.clock, |s.log|)])
    case Write(t) =>
      var stamp := s.pending[t].stamp;
      s.(latest := if stamp > s.latest then stamp else s.latest,
         last := if s.last < s.clock then s.clock else s.last,
         pending := s.pending - {t},
         log := s.log + [Commit(stamp, s.clock)])
  }

  predicate Valid(steps: seq<Step>)
    decreases |steps|, 0
  {
    steps == [] || (Valid(steps[..|steps| - 1]) && Enabled(End(steps[..|steps| - 1]), steps[|steps| - 1]))
  }

  function End(steps: seq<Step>): State
    requires Valid(steps)
    decreases |steps|, 1
  {
    if steps == [] then Init() else Apply(End(steps[..|steps| - 1]), steps[|steps| - 1])
  }

  /** The latest stamp is the greatest committed, the last consumption the latest commit. */
  predicate Inv(s: State) {
    && s.last <= s.clock
    && (forall i :: 0 <= i < |s.log| ==> s.log[i].stamp <= s.latest && s.log[i].at <= s.last)
    && (s.latest > 0 ==> exists i :: 0 <= i < |s.log| && s.log[i].stamp == s.latest)
    && (forall t :: t in s.pending ==> PendingOk(s, s.pending[t]))
  }

  /** What had committed when a consumer checked was older than its stamp, and long enough ago. */
  predicate PendingOk(s: State, p: Pending) {
    && p.mark <= |s.log| && p.checked <= s.clock && p.stamp > 0
    && forall i :: 0 <= i < p.mark ==> s.log[i].stamp < p.stamp && s.log[i].at + SPACING <= p.checked
  }

  lemma StepKeepsInv(s: State, step: Step)
    requires Inv(s) && Enabled(s, step)
    ensures Inv(Apply(s, step))
    ensures s.latest <= Apply(s, step).latest && s.last <= Apply(s, step).last && s.log <= Apply(s, step).log
  {
    var s' := Apply(s, step);
    if s'.latest > 0 {
      if s'.latest == s.latest {
        var i :| 0 <= i < |s.log| && s.log[i].stamp == s.latest;
        assert s'.log[i].stamp == s'.latest;
      } else {
        assert s'.log[|s.log|].stamp == s'.latest;
      }
    }
  }

  lemma {:induction false} ReachableInv(steps: seq<Step>)
    requires Valid(steps)
    ensures Inv(End(steps))
    decreases |steps|
  {
    if steps != [] {
      ReachableInv(steps[..|steps| - 1]);
      StepKeepsInv(End(steps[..|steps| - 1]), steps[|steps| - 1]);
    }
  }

  /** Whatever interleaves with whatever, the stored stamp and consumption time never go back. */
  lemma {:induction false} NeverBack(steps: seq<Step>, i: nat)
    requires Valid(steps) && i <= |steps|
    ensures Valid(steps[..i]) && End(steps[..i]).latest <= End(steps).latest && End(steps[..i]).last <= End(steps).last
    decreases |steps|
  {
    var n := |steps| - 1;
    if i == |steps| {
      assert steps[..i] == steps;
    } else {
      assert steps[..n][..i] == steps[..i];
      NeverBack(steps[..n], i);
      ReachableInv(steps[..n]);
      StepKeepsInv(End(steps[..n]), steps[n]);
    }
  }

  /** A consumer commits a stamp that is newer than all before exactly when no other has
      committed one as new since its check. */
  lemma NewerExactly(steps: seq<Step>, t: nat)
    requires Valid(steps) && t in End(steps).pending
    ensures var s := End(steps);
            var p := s.pending[t];
            && p.mark <= |s.log|
            && (s.latest < p.stamp <==> forall i :: p.mark <= i < |s.log| ==> s.log[i].stamp < p.stamp)
  {
    ReachableInv(steps);
    var s := End(steps);
    var p := s.pending[t];
    assert PendingOk(s, p);
  }

  // ----- when a stamp is accepted twice, or too soon -------------------------------------

  predicate NoRepeat(log: seq<Commit>) {
    forall i, j :: 0 <= i < j < |log| ==> log[i].stamp != log[j].stamp
  }

  predicate Apart(log: seq<Commit>) {
    forall i, j :: 0 <= i < j < |log| ==> log[i].at + SPACING <= log[j].at
  }

  /** No other consumer has committed this one's stamp since this one's check. */
  predicate StampFree(s: State, p: Pending) {
    forall i :: 0 <= p.mark <= i < |s.log| ==> s.log[i].stamp != p.stamp
  }

  /** No other consumer has committed since this one's check and less than 20 ms ago. */
  predicate TimeFree(s: State, p: Pending) {
    forall i :: 0 <= p.mark <= i < |s.log| ==> s.log[i].at + SPACING <= s.clock
  }

  /** Only what was committed since a consumer's check can have its stamp or be too recent. */
  lemma SinceCheck(s: State, t: nat)
    requires Inv(s) && t in s.pending
    ensures var log := Apply(s, Write(t)).log;
            && (NoRepeat(log) <==> NoRepeat(s.log) && StampFree(s, s.pending[t]))
            && (Apart(log) <==> Apart(s.log) && TimeFree(s, s.pending[t]))
  {
    var n, p, log := |s.log|, s.pending[t], Apply(s, Write(t)).log;
    assert PendingOk(s, p);
    assert forall i :: 0 <= i < n ==> log[i] == s.log[i];
    assert log[n] == Commit(p.stamp, s.clock);
    if NoRepeat(log) {
      assert forall i :: 0 <= i < n ==> log[i].stamp != log[n].stamp;
    }
    if Apart(log) {
      assert forall i :: 0 <= i < n ==> log[i].at + SPACING <= log[n].at;
    }
  }

  /** At every commit of the run. */
  predicate StampsFree(steps: seq<Step>)
    requires Valid(steps)
    decreases |steps|
  {
    steps == [] ||
    var n := |steps| - 1;
    StampsFree(steps[..n]) && (steps[n].Write? ==> StampFree(End(steps[..n]), End(steps[..n]).pending[steps[n].t]))
  }

  predicate TimesFree(steps: seq<Step>)
    requires Valid(steps)
    decreases |steps|
  {
    steps == [] ||
    var n := |steps| - 1;
    TimesFree(steps[..n]) && (steps[n].Write? ==> TimeFree(End(steps[..n]), End(steps[..n]).pending[steps[n].t]))
  }

  /** In every run no stamp is accepted twice exactly if no commit finds its stamp committed
      since its check, and accepted initiations are 20 ms apart exactly if no commit finds
      another within 20 ms that was made since its check. */
  lemma {:induction false} AcceptedOnceExactly(steps: seq<Step>)
    requires Valid(steps)
    ensures NoRepeat(End(steps).log) <==> StampsFree(steps)
    ensures Apart(End(steps).log) <==> TimesFree(steps)
    decreases |steps|
  {
    if steps != [] {
      var n := |steps| - 1;
      AcceptedOnceExactly(steps[..n]);
      ReachableInv(steps[..n]);
      if steps[n].Write? {
        SinceCheck(End(steps[..n]), steps[n].t);
      }
    }
  }

  /** Check and commit run unbroken, as under one lock: no consumer checks while another is
      between its check and its commit. */
  predicate Unbroken(steps: seq<Step>)
    requires Valid(steps)
    decreases |steps|
  {
    steps == [] ||
    (Unbroken(steps[..|steps| - 1]) && (steps[|steps| - 1].Check? ==> End(steps[..|steps| - 1]).pending == map[]))
  }

  /** Nobody has committed since the only pending consumer checked. */
  predicate Alone(s: State) {
    forall t :: t in s.pending ==> s.pending[t].mark == |s.log| && s.pending.Keys == {t}
  }

  /** Each commit is newer than, and at least 20 ms after, all before it. */
  predicate Spaced(log: seq<Commit>) {
    forall i, j :: 0 <= i < j < |log| ==> log[i].stamp < log[j].stamp && log[i].at + SPACING <= log[j].at
  }

  /** Then no stamp is accepted twice and accepted initiations are 20 ms apart. */
  lemma {:induction false} SpacedWhenUnbroken(steps: seq<Step>)
    requires Valid(steps) && Unbroken(steps)
    ensures Alone(End(steps)) && Spaced(End(steps).log)
    decreases |steps|
  {
    if steps != [] {
      var n := |steps| - 1;
      SpacedWhenUnbroken(steps[..n]);
      ReachableInv(steps[..n]);
      if steps[n].Write? {
        assert PendingOk(End(steps[..n]), End(steps[..n]).pending[steps[n].t]);
      }
    }
  }

  lemma OneMoreStep(steps: seq<Step>, step: Step)
    requires Valid(steps) && Enabled(End(steps), step)
    ensures Valid(steps + [step]) && End(steps + [step]) == Apply(End(steps), step)
  {
  }

  /** Without that, the same stamp can be accepted twice. */
  lemma TwiceWhenInterleaved()
    ensures exists steps :: Valid(steps) && |End(steps).log| == 2 && End(steps).log[0] == End(steps).log[1]
  {
    OneMoreStep([], Tick(SPACING));
    var s1 := [] + [Tick(SPACING)];
    OneMoreStep(s1, Check(0, 7));
    var s2 := s1 + [Check(0, 7)];
    OneMoreStep(s2, Check(1, 7));
    var s3 := s2 + [Check(1, 7)];
    OneMoreStep(s3, Write(0));
    var s4 := s3 + [Write(0)];
    OneMoreStep(s4, Write(1));
    var s5 := s4 + [Write(1)];
    assert End(s5).log == [Commit(7, SPACING), Commit(7, SPACING)];
  }
}
