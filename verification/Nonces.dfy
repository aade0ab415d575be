/** How `wg_packet_send_staged_packets` gives nonces to packets under one keypair, with any
    number of senders interleaved: when the 64-bit sending counter can wrap, and when a nonce
    can be used twice. */
module Nonces {
  import opened Words

  // ----- state ---------------------------------------------------------------------------

  /** Nonces by ticket.  A packet is known by its ticket: how often the counter had been
      incremented, ever, when it got its nonce. */
  type Nonces = map<nat, nat>

  /** Where a sender is. */
  datatype Sender =
    | Idle
    | Assigning(tickets: Nonces, left: nat)
    | Failing

  /** `sending_counter` and `is_valid` of the keypair, the senders, the packets handed on to
      encryption, and how often the counter has been incremented. */
  datatype State = State(counter: nat, valid: bool, senders: seq<Sender>, handed: Nonces, count: nat)

  /** The nonce a ticket stands for. */
  function Nonce(ticket: nat): nat {
    ticket % U64_SIZE
  }

  function Init(n: nat): State {
    State(0, true, seq(n, _ => Idle), map[], 0)
  }

  // ----- steps ---------------------------------------------------------------------------

  datatype Step =
    | Begin(t: nat, packets: nat)
    | Expire(t: nat)
    | Assign(t: nat)
    | Hand(t: nat)
    | Invalidate(t: nat)
    | Outside

  predicate Enabled(s: State, step: Step) {
    match step
    case Begin(t, packets) => t < |s.senders| && s.senders[t].Idle? && s.valid && packets > 0
    case Expire(t) => t < |s.senders| && s.senders[t].Idle? && s.valid
    case Assign(t) => t < |s.senders| && s.senders[t].Assigning? && s.senders[t].left > 0
    case Hand(t) => t < |s.senders| && s.senders[t].Assigning? && s.senders[t].left == 0
    case Invalidate(t) => t < |s.senders| && s.senders[t].Failing?
    case Outside => true
  }

  function Apply(s: State, step: Step): State
    requires Enabled(s, step)
  {
    match step
    // is_valid was read as true
    case Begin(t, packets) => s.(senders := s.senders[t := Assigning(map[], packets)])
    // the key is too old
    case Expire(t) => s.(senders := s.senders[t := Failing])
    case Assign(t) =>
      var counter := (s.counter + 1) % U64_SIZE;
      var nonce := (counter + U64_SIZE - 1) % U64_SIZE;
      var s' := s.(counter := counter, count := s.count + 1);
      if nonce >= REJECT_AFTER_MESSAGES then s'.(senders := s.senders[t := Failing])
      else s'.(senders := s.senders[t := Assigning(s.senders[t].tickets[s.count := nonce], s.senders[t].left - 1)])
    case Hand(t) => s.(senders := s.senders[t := Idle], handed := s.handed + s.senders[t].tickets)
    case Invalidate(t) => s.(senders := s.senders[t := Idle], valid := false)
    // wg_noise_expire_current_peer_keypairs
    case Outside => s.(valid := false)
  }

  // ----- runs ----------------------------------------------------------------------------

  predicate Valid(n: nat, steps: seq<Step>)
    decreases |steps|, 0
  {
    steps == [] || (Valid(n, steps[..|steps| - 1]) && Enabled(End(n, steps[..|steps| - 1]), steps[|steps| - 1]))
  }

  function End(n: nat, steps: seq<Step>): State
    requires Valid(n, steps)
    decreases |steps|, 1
  {
    if steps == [] then Init(n) else Apply(End(n, steps[..|steps| - 1]), steps[|steps| - 1])
  }

  // ----- invariant -----------------------------------------------------------------------

  function FailingNow(senders: seq<Sender>): nat {
    if senders == [] then 0 else FailingNow(senders[..|senders| - 1]) + if senders[|senders| - 1].Failing? then 1 else 0
  }

  function AssigningNow(senders: seq<Sender>): nat {
    if senders == [] then 0
    else AssigningNow(senders[..|senders| - 1]) + if senders[|senders| - 1].Assigning? then 1 else 0
  }

  lemma {:induction false} CountsAfter(senders: seq<Sender>, t: nat, p: Sender)
    requires t < |senders|
    ensures FailingNow(senders[t := p]) ==
            FailingNow(senders) - (if senders[t].Failing? then 1 else 0) + (if p.Failing? then 1 else 0)
    ensures AssigningNow(senders[t := p]) ==
            AssigningNow(senders) - (if senders[t].Assigning? then 1 else 0) + (if p.Assigning? then 1 else 0)
  {
    var n := |senders| - 1;
    if t == n {
      assert senders[t := p][..n] == senders[..n];
    } else {
      assert senders[t := p][..n] == senders[..n][t := p];
      CountsAfter(senders[..n], t, p);
    }
  }

  lemma {:induction false} CountsBound(senders: seq<Sender>)
    ensures FailingNow(senders) + AssigningNow(senders) <= |senders|
  {
    if senders != [] {
      CountsBound(senders[..|senders| - 1]);
    }
  }

  lemma {:induction false} NoneAtFirst(n: nat)
    ensures FailingNow(seq(n, _ => Idle)) == 0 && AssigningNow(seq(n, _ => Idle)) == 0
  {
    if n > 0 {
      assert seq(n, _ => Idle)[..n - 1] == seq(n - 1, _ => Idle);
      NoneAtFirst(n - 1);
    }
  }

  /** While the key is valid every sender that overshot is still about to invalidate it; after
      that only those already assigning can still overshoot. */
  predicate OvershootOk(count: nat, valid: bool, senders: seq<Sender>) {
    && (valid ==> count <= REJECT_AFTER_MESSAGES + FailingNow(senders))
    && (!valid ==> count + AssigningNow(senders) <= REJECT_AFTER_MESSAGES + |senders|)
  }

  /** A packet's nonce is that of its ticket, and below the limit. */
  predicate TicketsOk(tickets: Nonces, count: nat) {
    forall k :: k in tickets ==> k < count && tickets[k] == Nonce(k) < REJECT_AFTER_MESSAGES
  }

  predicate Inv(s: State) {
    && s.counter == s.count % U64_SIZE
    && TicketsOk(s.handed, s.count)
    && (forall t :: 0 <= t < |s.senders| && s.senders[t].Assigning? ==> TicketsOk(s.senders[t].tickets, s.count))
  }

  lemma NextCounter(count: nat)
    ensures (count % U64_SIZE + 1) % U64_SIZE == (count + 1) % U64_SIZE
    ensures ((count + 1) % U64_SIZE + U64_SIZE - 1) % U64_SIZE == Nonce(count)
  {
  }

  lemma StepKeepsInv(s: State, step: Step)
    requires Inv(s) && Enabled(s, step)
    ensures Inv(Apply(s, step)) && |Apply(s, step).senders| == |s.senders|
  {
    NextCounter(s.count);
  }

  /** Few enough senders never get the counter past its end with one of them still assigning. */
  lemma NoneLeft(count: nat, valid: bool, senders: seq<Sender>)
    requires OvershootOk(count, valid, senders) && |senders| <= COUNTER_WINDOW_SIZE + 2
    ensures count <= REJECT_AFTER_MESSAGES + |senders| <= U64_SIZE
    ensures AssigningNow(senders) > 0 ==> count < U64_SIZE
  {
    CountsBound(senders);
  }

  lemma AssignKeepsOvershoot(s: State, t: nat)
    requires Inv(s) && Enabled(s, Assign(t)) && |s.senders| <= COUNTER_WINDOW_SIZE + 2
    requires OvershootOk(s.count, s.valid, s.senders)
    ensures var s' := Apply(s, Assign(t)); OvershootOk(s'.count, s'.valid, s'.senders)
  {
    var s' := Apply(s, Assign(t));
    NoneLeft(s.count, s.valid, s.senders);
    AssigningAt(s.senders, t);
    AssignIs(s, t);
    CountsAfter(s.senders, t, s'.senders[t]);
    CountsBound(s'.senders);
  }

  lemma {:induction false} AssigningAt(senders: seq<Sender>, t: nat)
    requires t < |senders| && senders[t].Assigning?
    ensures AssigningNow(senders) > 0
  {
    if t < |senders| - 1 {
      AssigningAt(senders[..|senders| - 1], t);
    }
  }

  lemma StepKeepsOvershoot(s: State, step: Step)
    requires Inv(s) && Enabled(s, step) && |s.senders| <= COUNTER_WINDOW_SIZE + 2
    requires OvershootOk(s.count, s.valid, s.senders)
    ensures var s' := Apply(s, step); OvershootOk(s'.count, s'.valid, s'.senders)
  {
    CountsBound(s.senders);
    match step
    case Assign(t) => AssignKeepsOvershoot(s, t);
    case Outside =>
    case Begin(t, packets) => CountsAfter(s.senders, t, Assigning(map[], packets));
    case Expire(t) => CountsAfter(s.senders, t, Failing);
    case Hand(t) => CountsAfter(s.senders, t, Idle);
    case Invalidate(t) => CountsAfter(s.senders, t, Idle);
  }

  lemma {:induction false} ReachableInv(n: nat, steps: seq<Step>)
    requires Valid(n, steps)
    ensures Inv(End(n, steps)) && |End(n, steps).senders| == n
    ensures n <= COUNTER_WINDOW_SIZE + 2
            ==> OvershootOk(End(n, steps).count, End(n, steps).valid, End(n, steps).senders)
    decreases |steps|
  {
    if steps == [] {
      NoneAtFirst(n);
    } else {
      var before, step := steps[..|steps| - 1], steps[|steps| - 1];
      ReachableInv(n, before);
      StepKeepsInv(End(n, before), step);
      if n <= COUNTER_WINDOW_SIZE + 2 {
        StepKeepsOvershoot(End(n, before), step);
      }
    }
  }

  // ----- a ticket is one packet's --------------------------------------------------------

  predicate TicketOfOne(s: State) {
    && (forall t :: 0 <= t < |s.senders| && s.senders[t].Assigning? ==> s.senders[t].tickets.Keys !! s.handed.Keys)
    && (forall t, u :: 0 <= t < u < |s.senders| && s.senders[t].Assigning? && s.senders[u].Assigning? ==>
          s.senders[t].tickets.Keys !! s.senders[u].tickets.Keys)
  }

  lemma StepKeepsTickets(s: State, step: Step)
    requires Inv(s) && TicketOfOne(s) && Enabled(s, step)
    ensures TicketOfOne(Apply(s, step))
  {
  }

  /** No ticket is ever held by two senders, or by a sender after its packet was handed on. */
  lemma {:induction false} TicketsStayApart(n: nat, steps: seq<Step>)
    requires Valid(n, steps)
    ensures TicketOfOne(End(n, steps))
    decreases |steps|
  {
    if steps != [] {
      var before := steps[..|steps| - 1];
      TicketsStayApart(n, before);
      ReachableInv(n, before);
      StepKeepsTickets(End(n, before), steps[|steps| - 1]);
    }
  }

  // ----- what holds in every run ---------------------------------------------------------

  /** Every nonce used is below the limit, however many senders there are, and is the number of
      the increment it came from, less one, cut to 64 bits. */
  lemma NoncesBelowLimit(n: nat, steps: seq<Step>, k: nat)
    requires Valid(n, steps) && k in End(n, steps).handed
    ensures End(n, steps).handed[k] < REJECT_AFTER_MESSAGES && End(n, steps).handed[k] == Nonce(k)
  {
    ReachableInv(n, steps);
  }

  ghost predicate CounterNeverWraps(n: nat) {
    forall steps :: Valid(n, steps) ==> End(n, steps).count < U64_SIZE
  }

  /** Two different packets handed on in a run have the same nonce. */
  predicate Repeats(n: nat, steps: seq<Step>, j: nat, k: nat) {
    && Valid(n, steps) && j in End(n, steps).handed && k in End(n, steps).handed
    && j != k && End(n, steps).handed[j] == End(n, steps).handed[k]
  }

  ghost predicate NoncesNeverRepeat(n: nat) {
    forall steps, j, k :: !Repeats(n, steps, j, k)
  }

  lemma FewSendersNoWrap(n: nat)
    requires n <= COUNTER_WINDOW_SIZE + 1
    ensures CounterNeverWraps(n)
  {
    forall steps | Valid(n, steps) ensures End(n, steps).count < U64_SIZE {
      ReachableInv(n, steps);
      NoneLeft(End(n, steps).count, End(n, steps).valid, End(n, steps).senders);
    }
  }

  lemma FewSendersNoRepeat(n: nat)
    requires n <= COUNTER_WINDOW_SIZE + 2
    ensures NoncesNeverRepeat(n)
  {
    forall steps, j, k ensures !Repeats(n, steps, j, k) {
      NoRepeatAt(n, steps, j, k);
    }
  }

  lemma NoRepeatAt(n: nat, steps: seq<Step>, j: nat, k: nat)
    requires n <= COUNTER_WINDOW_SIZE + 2
    ensures !Repeats(n, steps, j, k)
  {
    if Valid(n, steps) {
      var s := End(n, steps);
      ReachableInv(n, steps);
      NoneLeft(s.count, s.valid, s.senders);
      if j in s.handed && k in s.handed {
        NonceBelow(j);
        NonceBelow(k);
      }
    }
  }

  lemma NonceBelow(k: nat)
    requires k < U64_SIZE
    ensures Nonce(k) == k
  {
  }

  // ----- and with more senders -----------------------------------------------------------

  ghost predicate Reachable(n: nat, s: State) {
    exists steps :: Valid(n, steps) && End(n, steps) == s
  }

  lemma OneMoreStep(n: nat, s: State, step: Step)
    requires Reachable(n, s) && Enabled(s, step)
    ensures Reachable(n, Apply(s, step))
  {
    var steps :| Valid(n, steps) && End(n, steps) == s;
    var longer := steps + [step];
    assert longer[..|longer| - 1] == steps;
    assert Valid(n, longer) && End(n, longer) == Apply(s, step);
  }

  function AllIdle(n: nat): seq<Sender> {
    seq(n, _ => Idle)
  }

  function FirstTickets(k: nat): Nonces {
    if k == 0 then map[] else FirstTickets(k - 1)[k - 1 := k - 1]
  }

  lemma {:induction false} ZeroIsFirst(k: nat)
    requires k > 0
    ensures 0 in FirstTickets(k) && FirstTickets(k)[0] == 0
  {
    if k > 1 { ZeroIsFirst(k - 1); }
  }

  /** What giving a nonce does as long as the counter has not wrapped. */
  lemma AssignIs(s: State, t: nat)
    requires Enabled(s, Assign(t)) && s.counter == s.count < U64_SIZE
    ensures Apply(s, Assign(t)) ==
            State((s.count + 1) % U64_SIZE, s.valid,
                  s.senders[t := if s.count < REJECT_AFTER_MESSAGES
                                 then Assigning(s.senders[t].tickets[s.count := s.count], s.senders[t].left - 1)
                                 else Failing],
                  s.handed, s.count + 1)
  {
  }

  /** One sender alone can bring the counter to the limit, packet by packet. */
  lemma {:induction false} SendAlone(n: nat, k: nat)
    requires n > 0 && k <= REJECT_AFTER_MESSAGES
    ensures Reachable(n, State(k, true, AllIdle(n), FirstTickets(k), k))
    decreases k
  {
    if k == 0 {
      assert Valid(n, []) && End(n, []) == Init(n);
    } else {
      SendAlone(n, k - 1);
      var s := State(k - 1, true, AllIdle(n), FirstTickets(k - 1), k - 1);
      SendOne(n, s);
    }
  }

  lemma SendOneIs(n: nat, s: State)
    requires n > 0 && s.senders == AllIdle(n) && s.valid && s.counter == s.count < REJECT_AFTER_MESSAGES
    ensures var s1 := Apply(s, Begin(0, 1));
            && Enabled(s1, Assign(0))
            && var s2 := Apply(s1, Assign(0));
               && Enabled(s2, Hand(0))
               && Apply(s2, Hand(0)) == State(s.count + 1, true, AllIdle(n), s.handed[s.count := s.count], s.count + 1)
  {
  }

  lemma SendOne(n: nat, s: State)
    requires n > 0 && Reachable(n, s) && s.senders == AllIdle(n) && s.valid
             && s.counter == s.count < REJECT_AFTER_MESSAGES
    ensures Reachable(n, State(s.count + 1, true, AllIdle(n), s.handed[s.count := s.count], s.count + 1))
  {
    SendOneIs(n, s);
    var s1 := Apply(s, Begin(0, 1));
    OneMoreStep(n, s, Begin(0, 1));
    OneMoreStep(n, s1, Assign(0));
    OneMoreStep(n, Apply(s1, Assign(0)), Hand(0));
  }

  /** The first `m` of `n` senders have a packet each to give a nonce to. */
  function Poised(n: nat, m: nat): seq<Sender> {
    seq(n, i => if i < m then Assigning(map[], 1) else Idle)
  }

  lemma {:induction false} AllPoised(n: nat, m: nat)
    requires 0 < n && m <= n
    ensures var k := REJECT_AFTER_MESSAGES; Reachable(n, State(k, true, Poised(n, m), FirstTickets(k), k))
    decreases m
  {
    var k := REJECT_AFTER_MESSAGES;
    if m == 0 {
      SendAlone(n, k);
      assert Poised(n, 0) == AllIdle(n);
    } else {
      AllPoised(n, m - 1);
      var s := State(k, true, Poised(n, m - 1), FirstTickets(k), k);
      OneMoreStep(n, s, Begin(m - 1, 1));
      assert Poised(n, m - 1)[m - 1 := Assigning(map[], 1)] == Poised(n, m);
    }
  }

  /** The first `m` of them have overshot, the rest are still poised. */
  function Overshot(n: nat, m: nat): seq<Sender> {
    seq(n, i => if i < m then Failing else Assigning(map[], 1))
  }

  function OvershotState(n: nat, m: nat): State {
    var k := REJECT_AFTER_MESSAGES;
    State((k + m) % U64_SIZE, true, Overshot(n, m), FirstTickets(k), k + m)
  }

  lemma OvershootIs(n: nat, m: nat)
    requires 0 < m <= n && m <= COUNTER_WINDOW_SIZE + 2
    ensures Enabled(OvershotState(n, m - 1), Assign(m - 1))
    ensures Apply(OvershotState(n, m - 1), Assign(m - 1)) == OvershotState(n, m)
  {
  }

  lemma {:induction false} AllOvershoot(n: nat, m: nat)
    requires 0 < n && m <= n && m <= COUNTER_WINDOW_SIZE + 2
    ensures Reachable(n, OvershotState(n, m))
    decreases m
  {
    if m == 0 {
      AllPoised(n, n);
      assert Overshot(n, 0) == Poised(n, n);
    } else {
      AllOvershoot(n, m - 1);
      OvershootIs(n, m);
      OneMoreStep(n, OvershotState(n, m - 1), Assign(m - 1));
    }
  }

  lemma ManySendersWrap(n: nat)
    requires n >= COUNTER_WINDOW_SIZE + 2
    ensures !CounterNeverWraps(n)
  {
    var m := COUNTER_WINDOW_SIZE + 2;
    AllOvershoot(n, m);
    var steps :| Valid(n, steps) && End(n, steps) == OvershotState(n, m);
  }

  lemma RepeatIs(n: nat)
    requires n >= COUNTER_WINDOW_SIZE + 3
    ensures var m := COUNTER_WINDOW_SIZE + 2;
            var s := OvershotState(n, m);
            && Enabled(s, Assign(m)) && Enabled(Apply(s, Assign(m)), Hand(m))
            && Apply(Apply(s, Assign(m)), Hand(m)).handed == FirstTickets(REJECT_AFTER_MESSAGES)[U64_SIZE := 0]
  {
  }

  lemma RepeatReachable(n: nat) returns (s: State)
    requires n >= COUNTER_WINDOW_SIZE + 3
    ensures Reachable(n, s) && s.handed == FirstTickets(REJECT_AFTER_MESSAGES)[U64_SIZE := 0]
  {
    var m := COUNTER_WINDOW_SIZE + 2;
    s := OvershotState(n, m);
    AllOvershoot(n, m);
    RepeatIs(n);
    OneMoreStep(n, s, Assign(m));
    OneMoreStep(n, Apply(s, Assign(m)), Hand(m));
    s := Apply(Apply(s, Assign(m)), Hand(m));
  }

  /** One sender too many, and the nonce 0 is used again. */
  lemma ManySendersRepeat(n: nat)
    requires n >= COUNTER_WINDOW_SIZE + 3
    ensures !NoncesNeverRepeat(n)
  {
    var s := RepeatReachable(n);
    var steps :| Valid(n, steps) && End(n, steps) == s;
    ZeroIsFirst(REJECT_AFTER_MESSAGES);
    assert Repeats(n, steps, 0, U64_SIZE);
  }

  /** The sending counter never wraps exactly when at most COUNTER_WINDOW_SIZE + 1 senders can
      run at once; no nonce is used twice exactly when at most one more can. */
  lemma ExactBounds(n: nat)
    ensures CounterNeverWraps(n) <==> n <= COUNTER_WINDOW_SIZE + 1
    ensures NoncesNeverRepeat(n) <==> n <= COUNTER_WINDOW_SIZE + 2
  {
    if n <= COUNTER_WINDOW_SIZE + 1 {
      FewSendersNoWrap(n);
    } else {
      ManySendersWrap(n);
    }
    if n <= COUNTER_WINDOW_SIZE + 2 {
      FewSendersNoRepeat(n);
    } else {
      ManySendersRepeat(n);
    }
  }
}
