/** The sliding replay window of receive.c: the bitmap of RFC 6479, section 2, kept in 128
    words of 64 bits, against a plain set of the numbers accepted so far. */
module ReplayCounter {
  import opened Words

  /** COUNTER_BITS_TOTAL / BITS_PER_LONG */
  const WORDS: nat := 128

  /** An `unsigned long`, bit 0 first. */
  type Word = w: seq<bool> | |w| == 64 witness seq(64, _ => false)

  function Zero(): Word {
    seq(64, _ => false)
  }

  function Add64(a: nat, b: nat): nat {
    (a + b) % U64_SIZE
  }

  // ----- what the window is for ----------------------------------------------------------

  /** A number is accepted once, while it is no more than a window behind the greatest one
      accepted, and never from the reject limit on. */
  predicate Accepts(accepted: set<int>, n: nat) {
    n < REJECT_AFTER_MESSAGES && n !in accepted && forall m :: m in accepted ==> m <= n + COUNTER_WINDOW_SIZE
  }

  function After(accepted: set<int>, n: nat): set<int> {
    if Accepts(accepted, n) then accepted + {n} else accepted
  }

  /** The numbers accepted by the time `ns` have arrived. */
  function Accepted(ns: seq<nat>): set<int> {
    if ns == [] then {} else After(Accepted(ns[..|ns| - 1]), ns[|ns| - 1])
  }

  predicate Verdict(ns: seq<nat>, i: nat)
    requires i < |ns|
  {
    Accepts(Accepted(ns[..i]), ns[i])
  }

  lemma {:induction false} AcceptedBefore(ns: seq<nat>, i: nat, k: nat)
    requires i <= k <= |ns|
    ensures Accepted(ns[..i]) <= Accepted(ns[..k])
    decreases k
  {
    if i < k {
      assert ns[..k][..k - 1] == ns[..k - 1];
      AcceptedBefore(ns, i, k - 1);
    }
  }

  /** In no sequence of arrivals is a number accepted twice. */
  lemma AcceptedOnce(ns: seq<nat>, i: nat, k: nat)
    requires i < k < |ns| && ns[i] == ns[k] && Verdict(ns, i)
    ensures !Verdict(ns, k)
  {
    assert ns[..i + 1][..i] == ns[..i];
    assert ns[i] in Accepted(ns[..i + 1]);
    AcceptedBefore(ns, i + 1, k);
  }

  lemma {:induction false} AcceptedArrived(ns: seq<nat>, m: int) returns (i: nat)
    requires m in Accepted(ns)
    ensures i < |ns| && ns[i] == m && Verdict(ns, i)
  {
    var l := |ns| - 1;
    if m in Accepted(ns[..l]) {
      i := AcceptedArrived(ns[..l], m);
      assert ns[..l][..i] == ns[..i];
    } else {
      i := l;
    }
  }

  /** The first arrival of a number below the limit is accepted unless something more than a
      window ahead of it has been accepted before. */
  lemma FreshIsAccepted(ns: seq<nat>, k: nat)
    requires k < |ns| && ns[k] < REJECT_AFTER_MESSAGES && forall i :: 0 <= i < k ==> ns[i] != ns[k]
    ensures Verdict(ns, k) <==> forall i :: 0 <= i < k && Verdict(ns, i) ==> ns[i] <= ns[k] + COUNTER_WINDOW_SIZE
  {
    if ns[k] in Accepted(ns[..k]) {
      var i := AcceptedArrived(ns[..k], ns[k]);
    }
    if forall i :: 0 <= i < k && Verdict(ns, i) ==> ns[i] <= ns[k] + COUNTER_WINDOW_SIZE {
      forall m | m in Accepted(ns[..k]) ensures m <= ns[k] + COUNTER_WINDOW_SIZE {
        var i := AcceptedArrived(ns[..k], m);
        assert ns[..k][..i] == ns[..i] && Verdict(ns, i);
      }
    }
    if Verdict(ns, k) {
      forall i | 0 <= i < k && Verdict(ns, i) ensures ns[i] <= ns[k] + COUNTER_WINDOW_SIZE {
        assert ns[..i + 1][..i] == ns[..i];
        AcceptedBefore(ns, i + 1, k);
      }
    }
  }

  // ----- the bitmap ----------------------------------------------------------------------

  /** `counter` is one more than the greatest number accepted. */
  predicate TopOk(counter: nat, accepted: set<int>) {
    && counter <= REJECT_AFTER_MESSAGES && (counter > 0 ==> counter - 1 in accepted)
    && forall m :: m in accepted ==> 0 <= m < counter
  }

  /** Where word j of the endless bitmap is kept. */
  function At(words: seq<Word>, j: nat): Word
    requires |words| == WORDS
  {
    words[j % WORDS]
  }

  /** Word j of the endless bitmap is one of the 128 kept. */
  predicate Kept(top: nat, j: nat) {
    j <= top < j + WORDS
  }

  ghost predicate WordOk(word: Word, j: nat, accepted: set<int>) {
    forall b :: 0 <= b < 64 ==> (word[b] <==> 64 * j + b - 1 in accepted)
  }

  /** The words kept hold the recent past. */
  ghost predicate BitsOk(top: nat, words: seq<Word>, accepted: set<int>) {
    && |words| == WORDS
    && forall j: nat {:trigger Kept(top, j)} :: Kept(top, j) ==> WordOk(At(words, j), j, accepted)
  }

  lemma SameSlot(i: nat, j: nat)
    requires i < j < i + WORDS
    ensures i % WORDS != j % WORDS
  {
  }

  lemma SlotsRepeat(i: int, q: int)
    ensures (i - 128 * q) % 128 == i % 128
  {
  }

  /** Words (top, top + n] of the endless bitmap are zeroed, the other slots are not. */
  ghost predicate Cleared(words: seq<Word>, words': seq<Word>, top: nat, n: nat) {
    && |words| == |words'| == WORDS
    && (forall j: nat {:trigger At(words', j)} :: top < j <= top + n ==> At(words', j) == Zero())
    && (forall j: nat {:trigger At(words', j)} :: j <= top && top + n < j + WORDS ==> At(words', j) == At(words, j))
  }

  lemma ClearOne(words: seq<Word>, words': seq<Word>, top: nat, n: nat)
    requires Cleared(words, words', top, n) && n < WORDS
    ensures Cleared(words, words'[(top + n + 1) % WORDS := Zero()], top, n + 1)
  {
    var k := top + n + 1;
    var w := words'[k % WORDS := Zero()];
    forall j: nat | top < j <= k ensures At(w, j) == Zero() {
      assert j < k ==> At(words', j) == Zero();
      if j < k { SameSlot(j, k); }
    }
    forall j: nat | j <= top && k < j + WORDS ensures At(w, j) == At(words, j) {
      assert At(words', j) == At(words, j);
      SameSlot(j, k);
    }
  }

  lemma ClearAll(words: seq<Word>, words': seq<Word>, top: nat, j: nat)
    requires Cleared(words, words', top, WORDS)
    ensures At(words', j) == Zero()
  {
    var q := (j - top - 1) / WORDS;
    SlotsRepeat(j, q);
    assert At(words', j - WORDS * q) == Zero();
  }

  /** Moving the window up keeps the past that stays in it, and knows of nothing beyond. */
  lemma MoveUp(top: nat, top': nat, words: seq<Word>, words': seq<Word>, accepted: set<int>, counter: nat)
    requires BitsOk(top, words, accepted) && TopOk(counter, accepted) && top == counter / 64 && top <= top'
    requires Cleared(words, words', top, if top' - top < WORDS then top' - top else WORDS)
    ensures BitsOk(top', words', accepted)
  {
    forall j: nat | Kept(top', j) ensures WordOk(At(words', j), j, accepted) {
      if j <= top {
        assert Kept(top, j);
      } else if top' - top >= WORDS {
        ClearAll(words, words', top, j);
      }
    }
  }

  /** Setting the bit of a number just accepted. */
  lemma SetBit(top: nat, words: seq<Word>, accepted: set<int>, c: nat)
    requires BitsOk(top, words, accepted) && c > 0 && Kept(top, c / 64)
    ensures var k := c / 64 % WORDS;
            && (words[k][c % 64] <==> c - 1 in accepted)
            && BitsOk(top, words[k := words[k][c % 64 := true]], accepted + {c - 1})
  {
  }

  class ReplayCounter {
    var counter: nat
    const backtrack: array<Word>
    ghost var accepted: set<int>

    ghost predicate Valid()
      reads this, backtrack
    {
      backtrack.Length == WORDS && TopOk(counter, accepted) && BitsOk(counter / 64, backtrack[..], accepted)
    }

    /** A new keypair's counter is all zeroes. */
    constructor ()
      ensures Valid() && accepted == {} && fresh(backtrack)
    {
      counter, accepted := 0, {};
      backtrack := new Word[WORDS](_ => Zero());
    }

    /** The loop of `counter_validate` over the words the window moves into. */
    method Clear(indexCurrent: nat, top: nat)
      requires backtrack.Length == WORDS && top <= WORDS
      modifies backtrack
      ensures Cleared(old(backtrack[..]), backtrack[..], indexCurrent, top)
    {
      for i := 0 to top
        invariant Cleared(old(backtrack[..]), backtrack[..], indexCurrent, i)
      {
        ClearOne(old(backtrack[..]), backtrack[..], indexCurrent, i);
        backtrack[(indexCurrent + i + 1) % WORDS] := Zero();
      }
    }

    /** The window moves up to c when c is ahead of it. */
    method Advance(c: nat)
      requires Valid() && 0 < c <= REJECT_AFTER_MESSAGES
      modifies this`counter, backtrack
      ensures backtrack.Length == WORDS && counter == (if c > old(counter) then c else old(counter))
      ensures BitsOk(counter / 64, backtrack[..], accepted)
    {
      if c > counter {
        var index, indexCurrent := c / 64, counter / 64;
        ghost var words := backtrack[..];
        Clear(indexCurrent, if index - indexCurrent < WORDS then index - indexCurrent else WORDS);
        MoveUp(indexCurrent, index, words, backtrack[..], accepted, counter);
        counter := c;
      }
    }

    /** `test_and_set_bit`, negated */
    method TestAndSet(c: nat) returns (ret: bool)
      requires backtrack.Length == WORDS && BitsOk(counter / 64, backtrack[..], accepted) && c > 0
               && Kept(counter / 64, c / 64)
      modifies backtrack
      ensures ret == (c - 1 !in accepted) && BitsOk(counter / 64, backtrack[..], accepted + {c - 1})
    {
      SetBit(counter / 64, backtrack[..], accepted, c);
      var index := c / 64 % WORDS;
      ret := !backtrack[index][c % 64];
      ghost var words := backtrack[..];
      backtrack[index] := backtrack[index][c % 64 := true];
      assert backtrack[..] == words[index := words[index][c % 64 := true]];
    }

    /** `counter_validate` */
    method Validate(theirCounter: nat) returns (ret: bool)
      requires Valid() && theirCounter < U64_SIZE
      modifies this, backtrack
      ensures Valid() && ret == Accepts(old(accepted), theirCounter) && accepted == After(old(accepted), theirCounter)
    {
      if counter >= REJECT_AFTER_MESSAGES + 1 || theirCounter >= REJECT_AFTER_MESSAGES {
        return false;
      }
      var c := Add64(theirCounter, 1);
      if Add64(COUNTER_WINDOW_SIZE, c) < counter {
        assert counter - 1 in accepted;
        return false;
      }
      Advance(c);
      ret := TestAndSet(c);
      accepted := accepted + {c - 1};
    }
  }

  /** A fresh counter gives, for every sequence of arrivals, the verdicts of the plain set. */
  method ValidateAll(ns: seq<nat>) returns (rets: seq<bool>)
    requires forall i :: 0 <= i < |ns| ==> ns[i] < U64_SIZE
    ensures |rets| == |ns| && forall i :: 0 <= i < |ns| ==> rets[i] == Verdict(ns, i)
  {
    var counter := new ReplayCounter();
    rets := [];
    for k := 0 to |ns|
      invariant counter.Valid() && fresh(counter) && fresh(counter.backtrack) && counter.accepted == Accepted(ns[..k])
      invariant |rets| == k && forall i :: 0 <= i < k ==> rets[i] == Verdict(ns, i)
    {
      var ret := counter.Validate(ns[k]);
      rets := rets + [ret];
      assert ns[..k + 1][..k] == ns[..k];
    }
    assert ns[..|ns|] == ns;
  }
}
