/** `struct noise_keypairs` as the object noise.c updates under its lock: each operation stores
    slot by slot and puts keypair by keypair, and has the effect module Sessions gives it. */
module KeypairSlots {
  import opened Common
  import opened Sessions

  class Keypairs {
    var current: Option<Kp>
    var previous: Option<Kp>
    var next: Option<Kp>
    var counts: Counts

    function View(): Slots
      reads this
    {
      Slots(current, previous, next)
    }

    /** A peer's slots are empty at first. */
    constructor (c: Counts)
      ensures View() == Slots(None, None, None) && counts == c
    {
      current, previous, next, counts := None, None, None, c;
    }

    /** `wg_noise_keypair_put` of a keypair that leaves the slots */
    method PutNow(k: Option<Kp>)
      requires CountsOk(counts)
      modifies this`counts
      ensures counts == Put(old(counts), k, true)
    {
      if k.None? || k.value !in counts.refs {
        return;
      }
      var listed, refs, released := counts.listed - {k.value}, counts.refs, counts.released;
      refs := refs[k.value := refs[k.value] - 1];
      if refs[k.value] == 0 {
        released := released[k.value := released[k.value] + 1];
      }
      counts := Counts(refs, released, listed);
    }

    /** `add_new_keypair` */
    method AddNewKeypair(new': Kp, initiator: bool)
      requires CountsOk(counts)
      modifies this
      ensures (View(), counts) == AddNew(old(View()), old(counts), new', initiator)
    {
      var previousKeypair, nextKeypair, currentKeypair := previous, next, current;
      if initiator {
        if nextKeypair.Some? {
          next := None;
          previous := nextKeypair;
          PutNow(currentKeypair);
        } else {
          previous := currentKeypair;
        }
        PutNow(previousKeypair);
        current := Some(new');
      } else {
        next := Some(new');
        PutNow(nextKeypair);
        previous := None;
        PutNow(previousKeypair);
      }
    }

    /** `wg_noise_received_with_keypair`, with the lock held */
    method ReceivedWithKeypair(received: Kp) returns (isNew: bool)
      requires CountsOk(counts)
      modifies this
      ensures (View(), counts) == Slide(old(View()), old(counts), received) && isNew == (old(next) == Some(received))
    {
      if next != Some(received) {
        return false;
      }
      var oldKeypair := previous;
      previous := current;
      PutNow(oldKeypair);
      current := Some(received);
      next := None;
      return true;
    }

    /** `wg_noise_keypairs_clear` */
    method Clear()
      requires CountsOk(counts)
      modifies this
      ensures (View(), counts) == ClearAll(old(View()), old(counts))
    {
      var old' := next;
      next := None;
      PutNow(old');
      old' := previous;
      previous := None;
      PutNow(old');
      old' := current;
      current := None;
      PutNow(old');
    }
  }
}
