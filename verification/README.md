# Verified models of a WireGuard kernel module

This project models the algorithmic core of the AES-GCM WireGuard module in
`wireguard-5.15-aes/` and proves what that code is relied on for.  Everything is stated over
all inputs, all histories or all interleavings.

- **Allowed IPs.**  `Trie`, `TrieStores`, `TrieUpdates`, `TrieRemovals`, `TrieTeardown`,
  `TrieReaders` and `AllowedIps` model the path-compressed trie: an explicit memory of nodes and
  pointers, so that every store of the C code is a step and every memory a reader can meet is a
  value.
  `LinearTable` models the linear table of the self test and drives both through the same
  history.  `AddressBits` relates the bits the trie is written over to the swapped bytes and
  machine words of the C code.
- **Queue and pipeline.**  `PrevQueue` is the intrusive multi-producer queue, one step per
  atomic operation; `Pipeline` adds the crypto ring, the crypto workers, the one serial worker per
  peer and, when receiving, its replay windows.
- **Replay window.**  `ReplayCounter` is the bitmap against a set of accepted numbers.
- **Handshake and sessions.**  `Noise` is the handshake over symbolic terms, `NoisePattern`
  the Noise Protocol Framework's own token-by-token processing it is compared with,
  `NoiseObject` the object it overwrites in place, `NoiseRuns` any number of devices and peers
  with an arbitrary network, `KeyDerivation` the byte-level HMAC and HKDF, `Timestamps` the replay and flood
  checks.  `Sessions` is the state machine of stages, index table entries, keypair slots and
  reference counts, `KeypairSlots` the slots as an object, `IndexTable` the index table.
- **Data path.**  `Nonces` gives nonces to packets with concurrent senders, `DataPath` pads,
  seals, opens and trims one packet.
- **Rate limiter.**  `RateLimiter` is the bounded table of token buckets with collection, first as
  a map of entries with its runs, then as the lists of the C code that take the map's steps.

`Common` and `Words` hold shared types, list facts, constants and byte arithmetic.

State machines have `Enabled` and `Apply` for one atomic step, `Valid` and `End` for runs, an
invariant kept by every step, and theorems about `End` of every valid run.  Concurrency is
sequentially consistent.  In the trie six predicates (`TableOk`, `Building`, `Inserted`,
`Removed`, `Keeps`, `SplitMade`) are folded behind a quantifier over a dummy so that large proofs need not look
inside; `TableIs`, `BuildingIs`, `InsertedIntro`, `InsertedMeans`, `RemovedIs`, `GentleKeeps`,
`KeepsMeans` and `SplitMadeOk` open and close them.
The memories an update makes visible are logged in `seen`; `TrieStores.Stores` says that such a log
leads from one memory to another by single stores of the C code, with nothing left out.

Four properties one might expect turn out false of the code; each has a concrete run and the
exact condition under which it holds.

- `wg_prev_queue_dequeue` can return NULL although every packet in the queue is linked at that
  moment (`PrevQueue.NullWithLinkedPackets`).  `PrevQueue.NullAtReturn` singles out the one exit
  where this happens and `PrevQueue.NullBySchedule` the schedules that lead to it; over the whole
  call `PrevQueue.NullOnlyWhenExcused` holds.
- Two initiations checked before either is committed can both be accepted, with one time stamp
  and at one moment (`Timestamps.TwiceWhenInterleaved`); `Timestamps.AcceptedOnceExactly` says of
  every run when a stamp is accepted twice and when two initiations are accepted within 20 ms.
- `lookup` takes the root by value, so a call that tries again starts at the node its caller has
  read and can return NULL although a rule covers the address (`TrieReaders.RetryMisses`).
  `TrieReaders.FoundIsLongest` says that only a NULL can be wrong, and `TrieReaders.RootExactly`
  that all answers are right exactly while the first node in use the reader comes to is the root;
  `AllowedIps.ReadThenUpdate` carries this over any updates made since the root was read.
- The collector of the rate limiter, with a clock read before an entry was last used, drops
  that entry (`RateLimiter.OldReadingForgets`); `RateLimiter.OldReading` says when any later
  decision can show it.

In addition the sending counter wraps, and then a nonce repeats, once more senders than the
replay window allows for can run at once; `Nonces.ExactBounds` gives both bounds.

## Model

| member | source | states |
|---|---|---|
| PrevQueue.StepKeepsInv | wireguard-5.15-aes/queueing.c:66-106 | every atomic step of a producer or of the consumer keeps the chain, its links, the owners of missing links, `count` and the order; a NULL return is excused |
| PrevQueue.HistoriesAreTrue | wireguard-5.15-aes/queueing.c:66-106 | the history kept beside the queue is what the steps did: the packets whose head exchange was made, and those dequeue returned plus the one in its hand |
| PrevQueue.FifoInEveryRun | wireguard-5.15-aes/queueing.c:53-106 | in every interleaving the packets dequeue has returned, the one it is about to return and those in the queue are exactly the packets put at the head, in that order; no packet and no stub is in the chain twice, and `count` stays within 0..MAX_QUEUED_PACKETS |
| PrevQueue.ExcusedMeansSeen | wireguard-5.15-aes/queueing.c:80-106 | the history flag means that since the call some moment showed an empty queue or an exchanged but unlinked packet |
| PrevQueue.NullOnlyWhenExcused | wireguard-5.15-aes/queueing.c:80-106 | dequeue returns NULL only if at some moment of the call the queue was empty or a link was missing |
| PrevQueue.NullAtReturn | wireguard-5.15-aes/queueing.c:96-105 | at the instant of a NULL return the same holds if and only if the head comparison did not find a head moved by a producer that has linked since |
| PrevQueue.NullBySchedule | wireguard-5.15-aes/queueing.c:88-97 | by the schedule: when producers take any steps between the load of a NULL NEXT(tail) and the head comparison, a NULL return finds the queue empty or a link missing if and only if fewer links than exchanges have completed, in particular if there was no link in between |
| PrevQueue.NullWithLinkedPackets | wireguard-5.15-aes/queueing.c:96-97 | a run in which dequeue returns NULL with two fully linked packets queued |
| PrevQueue.EnqueueAlone | wireguard-5.15-aes/queueing.c:66-78 | undisturbed, the four producer steps append the packet and leave a fully linked chain |
| PrevQueue.AloneMeansLinked | wireguard-5.15-aes/queueing.c:53-106 | between calls of a single thread the machine's invariant is exactly that of the queue object |
| PrevQueue.PrevQueue.constructor | wireguard-5.15-aes/queueing.c:53-64 | a new queue is the stub alone |
| PrevQueue.PrevQueue.Enqueue | wireguard-5.15-aes/queueing.c:72-78 | refuses exactly at the bound, otherwise appends to the contents |
| PrevQueue.PrevQueue.Dequeue | wireguard-5.15-aes/queueing.c:80-106 | removes the oldest packet, or returns NULL exactly when there is none |
| PrevQueue.PrevQueue.Peek | wireguard-5.15-aes/queueing.h:145-151 | returns the oldest packet and leaves the contents |
| PrevQueue.PrevQueue.DropPeeked | wireguard-5.15-aes/queueing.h:154-157 | removes the peeked packet from the contents |
| Pipeline.StepKeepsInv | wireguard-5.15-aes/queueing.h:159-205 | every step of senders, ring, crypto workers and serial worker keeps the whole-pipeline invariant |
| Pipeline.ReachableInv | wireguard-5.15-aes/send.c:283-357 | the invariant holds in every reachable state |
| Pipeline.DeliveredInOrder | wireguard-5.15-aes/send.c:283-335 | for every schedule and every full ring, packets leave in enqueue order, each once; exactly the DEAD ones are dropped, and when sending all others are sent |
| Pipeline.ReceivedOnce | wireguard-5.15-aes/receive.c:461-513 | on the receiving side, for every schedule, the replay window decides on each packet that opened exactly by the numbers of its keypair before it in queue order, and no number of a keypair is delivered twice |
| Pipeline.RingIsServed | wireguard-5.15-aes/queueing.h:172-179 | while a packet is in the ring, a crypto worker is running, queued, or about to be queued by its sender |
| Pipeline.QuietMeansEmpty | wireguard-5.15-aes/receive.c:461-535 | when no sender is at work and no work item, crypto or serial, is running or queued, the ring and the peer's queue are empty and every packet admitted has left |
| Trie.MatchesIsPrefix | wireguard-5.15-aes/allowedips.c:99-109 | `prefix_matches` holds exactly when the leading bits up to the node's length agree |
| Trie.LookupIsLongestMatch | wireguard-5.15-aes/allowedips.c:111-147 | in a well-formed trie lookup returns the peer of the longest rule covering the address |
| TrieStores.UnseenShows | wireguard-5.15-aes/allowedips.c:169-173 | a memory that differs only where readers do not look shows them the same rules |
| TrieStores.LeafStoreOk | wireguard-5.15-aes/allowedips.c:169-173 | hanging a new node in an empty slot keeps the trie well formed |
| TrieStores.AboveStoreOk | wireguard-5.15-aes/allowedips.c:225-232 | putting a new node between a slot and what hung there keeps the trie well formed |
| TrieStores.SpliceStoreOk | wireguard-5.15-aes/allowedips.c:317-322 | replacing a node by its only child or by nothing keeps the trie well formed |
| TrieUpdates.BuildBelow | wireguard-5.15-aes/allowedips.c:169-173 | connecting below a node that readers cannot reach yet adds two single stores to those made, and readers still notice nothing |
| TrieUpdates.InsertedIntro | wireguard-5.15-aes/allowedips.c:169-173 | the connection that makes what was built reachable publishes the new rule in one store; nothing but the old or the new rules was ever seen |
| TrieRemovals.RestStores | wireguard-5.15-aes/allowedips.c:315-339 | the splicing stores of a removal round are single stores, one after the other |
| TrieUpdates.ShapeOf | wireguard-5.15-aes/allowedips.c:169-250 | lengths grow downward, child pointers and parent links are inverse, a peer's list is exactly its nodes, and no peerless node has fewer than two children |
| TrieUpdates.PlacedDown | wireguard-5.15-aes/allowedips.c:149-167 | what hangs at the place found for a new node branches from it beyond the parent, with no node in use in between |
| TrieUpdates.HangLeafOk | wireguard-5.15-aes/allowedips.c:189-221 | the stores of an insertion into an empty slot add exactly that rule; the memories in between are one store apart and each shows the rules of before or after |
| TrieUpdates.HangAboveOk | wireguard-5.15-aes/allowedips.c:222-232 | the same for an insertion above an existing node |
| TrieUpdates.HangSplitOk | wireguard-5.15-aes/allowedips.c:234-249 | the same for an insertion that needs a branch node |
| TrieUpdates.ExactOk | wireguard-5.15-aes/allowedips.c:199-203 | replacing the peer of an existing prefix changes that one rule in one store, and moves the node to the end of the new peer's list |
| TrieUpdates.GiveUpOk | wireguard-5.15-aes/allowedips.c:234-239 | when the second allocation fails, memory and lists are as before after two stores of which readers saw nothing |
| TrieRemovals.RemoveOk | wireguard-5.15-aes/allowedips.c:312-340 | one round of removal takes away exactly one rule and keeps the table's invariant; the memories on the way are one store apart and each shows the rules without it |
| TrieRemovals.SpliceDense | wireguard-5.15-aes/allowedips.c:325-339 | the parent is spliced out exactly when it would otherwise be a peerless node with one child |
| TrieTeardown.PopAndPush | wireguard-5.15-aes/allowedips.c:41-49 | the walk's stack never needs more than 129 slots, and popping a node leaves ahead everything but that node |
| TrieTeardown.WalkIsFamily | wireguard-5.15-aes/allowedips.c:56-80 | the walk from a root comes by every node in use of that family exactly once |
| TrieTeardown.CutOk | wireguard-5.15-aes/allowedips.c:263-264 | storing NULL in a root takes away exactly that family's rules |
| TrieTeardown.NoRulesNoNodes | wireguard-5.15-aes/allowedips.c:303-341 | when no rule is left no node is left and the roots are NULL |
| AllowedIps.AllowedIps.constructor | wireguard-5.15-aes/allowedips.c:252-256 | a new table is empty |
| AllowedIps.FindNode | wireguard-5.15-aes/allowedips.c:111-124 | from any starting node, the loop finds the deepest matching node with a peer |
| AllowedIps.AllowedIps.Lookup | wireguard-5.15-aes/allowedips.c:127-147 | an undisturbed attempt from the current root returns the longest match of the table's rules |
| AllowedIps.LookupAlive | wireguard-5.15-aes/allowedips.c:127-147 | with the retries, all from the root its caller has read: the first attempt decides that finds nothing or whose node still has a peer that can be referenced |
| TrieReaders.SameRoot | wireguard-5.15-aes/allowedips.c:127-147 | while the root read is the root, an undisturbed attempt ends with the longest match, or tries again exactly if that peer is gone |
| TrieReaders.FoundIsLongest | wireguard-5.15-aes/allowedips.c:111-147 | from any node in use or taken out since, whatever is found is the longest match; only a NULL can be wrong |
| TrieReaders.RootExactly | wireguard-5.15-aes/allowedips.c:355-375 | a reader that starts at NULL, at a node in use or at one taken out since answers every address by the rules if and only if the first node in use it comes to is the root |
| TrieReaders.TakenOut | wireguard-5.15-aes/allowedips.c:315-339 | a node spliced out keeps no peer and only the pointer to the child that took its place |
| TrieReaders.SpliceGentle | wireguard-5.15-aes/allowedips.c:315-339 | splicing leaves alone what is out of use already |
| TrieReaders.SplitKeeps | wireguard-5.15-aes/allowedips.c:234-249 | an insertion with a branch node leaves every node in use or taken out in this way |
| TrieReaders.RoundKeeps | wireguard-5.15-aes/allowedips.c:312-340 | so does a whole round of removal, with one or two nodes spliced out |
| TrieReaders.OldRoot | wireguard-5.15-aes/allowedips.c:355-375 | after any update that keeps what was in use or taken out so, a root read before is still in use or taken out, and of its width, so the equivalence applies to it |
| TrieReaders.RetryMisses | wireguard-5.15-aes/allowedips.c:138-144 | a run of two insertions and a removal in which a call with a retry returns NULL although a rule covers the address throughout |
| AllowedIps.AllowedIps.NodePlacement | wireguard-5.15-aes/allowedips.c:149-167 | finds the node of exactly this prefix, or the place where it belongs |
| AllowedIps.AllowedIps.ConnectNode | wireguard-5.15-aes/allowedips.c:169-173 | stores the parent link, then the pointer |
| AllowedIps.AllowedIps.AddLeaf | wireguard-5.15-aes/allowedips.c:189-221 | the insertion case of an empty slot, every store logged |
| AllowedIps.AllowedIps.AddAbove | wireguard-5.15-aes/allowedips.c:222-232 | the insertion case above an existing node, every store logged |
| AllowedIps.AllowedIps.AddSplit | wireguard-5.15-aes/allowedips.c:234-249 | the insertion case with a branch node, every store logged |
| AllowedIps.AllowedIps.GiveUp | wireguard-5.15-aes/allowedips.c:234-239 | the failed second allocation leaves the table unchanged, by two logged stores |
| AllowedIps.AllowedIps.SetOwner | wireguard-5.15-aes/allowedips.c:199-203 | the exact-match case, one logged store |
| AllowedIps.AllowedIps.Add | wireguard-5.15-aes/allowedips.c:181-250 | -EINVAL exactly for a bad length or no peer; otherwise the rule is set or, out of memory, nothing changed; the log leads from the old memory to the new one by single stores, and every memory in it shows the rules of before or after; a root read before stays in use or taken out |
| AllowedIps.AllowedIps.Insert | wireguard-5.15-aes/allowedips.c:281-301 | the same as `Add`, the peers' lists included, with the sequence number advanced |
| AllowedIps.AllowedIps.Prune | wireguard-5.15-aes/allowedips.c:315-339 | the splicing stores of one removal round, in order |
| AllowedIps.AllowedIps.RemoveNode | wireguard-5.15-aes/allowedips.c:312-340 | one round removes one rule; its stores, one by one, lead to the new memory and each shows the rules without it; a root read before stays in use or taken out |
| AllowedIps.AllowedIps.RemoveNodes | wireguard-5.15-aes/allowedips.c:312-340 | all rounds for one peer: its list ends empty, no other rule is touched, and every logged memory shows a table on the way |
| AllowedIps.AllowedIps.RemoveByPeer | wireguard-5.15-aes/allowedips.c:303-341 | removes exactly the peer's rules; the log leads by single stores to the new memory, and every memory in it shows a table that lacks some of those rules and no other; the sequence number moves only if there was a rule |
| AllowedIps.ReadThenUpdate | wireguard-5.15-aes/allowedips.c:355-375 | a reader that has read a root before any sequence of insertions and removals of the table answers every address by the rules if and only if the first node in use it comes to is the root |
| AllowedIps.AllowedIps.Push | wireguard-5.15-aes/allowedips.c:41-49 | pushes a child if there is one |
| AllowedIps.AllowedIps.RemovePeerLists | wireguard-5.15-aes/allowedips.c:69-80 | takes every node of the trie that has a peer off its list, within the fixed stack |
| AllowedIps.AllowedIps.RootFree | wireguard-5.15-aes/allowedips.c:56-67 | gives back the nodes of the trie, each once, within the fixed stack |
| AllowedIps.AllowedIps.Free | wireguard-5.15-aes/allowedips.c:258-279 | leaves a valid table with no node in use, so every list is empty; gives back exactly the nodes that were in use; its two stores show readers the rules of the other family, then none |
| LinearTable.WeightOfMask | wireguard-5.15-aes/selftest/allowedips.c:106-122 | counting the ones of a mask gives back its length |
| LinearTable.HitsIsPrefix | wireguard-5.15-aes/selftest/allowedips.c:137-150 | comparing under the mask is comparing the leading bits |
| LinearTable.FirstHit | wireguard-5.15-aes/selftest/allowedips.c:214-236 | the first matching row is the longest match |
| LinearTable.LinearTable.InsertOrdered | wireguard-5.15-aes/selftest/allowedips.c:152-178 | overwrites an equal network or inserts in order of length; sets exactly that rule |
| LinearTable.LinearTable.Insert | wireguard-5.15-aes/selftest/allowedips.c:180-212 | masks the address and sets the rule of its prefix |
| LinearTable.LinearTable.Lookup | wireguard-5.15-aes/selftest/allowedips.c:214-236 | returns the longest match of the rules |
| LinearTable.LinearTable.Free | wireguard-5.15-aes/selftest/allowedips.c:95-104 | leaves no rule |
| LinearTable.LinearTable.RemoveByValue | wireguard-5.15-aes/selftest/allowedips.c:239-252 | removes exactly the rules of that value |
| LinearTable.SideBySide | wireguard-5.15-aes/selftest/allowedips.c:254-423 | over every history of inserts, removals, frees and queries, trie and linear table give the same answers, the longest match of the rules then in force |
| AddressBits.CommonBitsIs | wireguard-5.15-aes/allowedips.c:82-97 | `common_bits` on the swapped words counts the leading bits two addresses share |
| AddressBits.ChooseIs | wireguard-5.15-aes/allowedips.c:23-39 | `choose` picks the address's bit at the node's length |
| AddressBits.SwapTwice | wireguard-5.15-aes/allowedips.c:13-21 | swapping twice is the identity |
| AddressBits.ReadNode | wireguard-5.15-aes/allowedips.c:343-353 | leaves the node's prefix and zeroes in the buffer |
| ReplayCounter.AcceptedOnce | wireguard-5.15-aes/receive.c:318-354 | in no sequence of arrivals is a number accepted twice |
| ReplayCounter.FreshIsAccepted | wireguard-5.15-aes/receive.c:318-354 | a first arrival below the limit is accepted exactly if nothing accepted is more than a window ahead |
| ReplayCounter.MoveUp | wireguard-5.15-aes/receive.c:336-344 | clearing the words moved into keeps the past that stays in the window |
| ReplayCounter.ReplayCounter.Validate | wireguard-5.15-aes/receive.c:318-354 | accepts exactly what the set of accepted numbers allows, with no wrap-around, and records it |
| ReplayCounter.ValidateAll | wireguard-5.15-aes/receive.c:318-354 | a fresh counter gives the set's verdict on every arrival of every sequence |
| Noise.SharedCommutes | wireguard-5.15-aes/noise.c:412-425 | both sides of an exchange compute the same secret |
| Noise.HonestRun | wireguard-5.15-aes/noise.c:524-902 | the four steps undisturbed leave equal hashes and chaining keys, crosswise session keys and each other's index, for any earlier state of the handshakes |
| NoisePattern.InitiationIsFirst | wireguard-5.15-aes/noise.c:524-589 | the initiation is the first message of the pattern IKpsk2 as sections 5, 7.5 and 9 of the Noise Protocol Framework process it, and fails exactly when that does |
| NoisePattern.ResponseIsSecond | wireguard-5.15-aes/noise.c:675-733 | the response is the second message of that pattern, and fails exactly when that does |
| NoisePattern.InitiationReadAsFirst | wireguard-5.15-aes/noise.c:591-638 | consuming an initiation is reading that first message and finding the peer's static key in it |
| NoisePattern.ResponseReadAsSecond | wireguard-5.15-aes/noise.c:735-791 | consuming a response is reading that second message with an empty payload |
| NoiseObject.HandshakeObject.constructor | wireguard-5.15-aes/noise.c:49-78 | a new handshake is zeroed and knows the peer |
| NoiseObject.HandshakeObject.MixDh | wireguard-5.15-aes/noise.c:412-425 | changes nothing on failure; otherwise key and chaining key come from the chaining key as it was |
| NoiseObject.HandshakeObject.Initiate | wireguard-5.15-aes/noise.c:524-589 | the in-place function has exactly the value-level effect, on every exit |
| NoiseObject.HandshakeObject.AcceptInitiation | wireguard-5.15-aes/noise.c:651-663 | the writes to the peer |
| NoiseObject.HandshakeObject.Respond | wireguard-5.15-aes/noise.c:675-733 | the in-place function has exactly the value-level effect, on every exit |
| NoiseObject.HandshakeObject.AcceptResponse | wireguard-5.15-aes/noise.c:794-807 | writes only if the stage is still the one read |
| NoiseObject.Exchange | wireguard-5.15-aes/noise.c:524-902 | two fresh objects that exchange the two messages end with crosswise keys |
| NoiseRuns.SealsAgree | wireguard-5.15-aes/noise.c:675-806 | equal seals on the response leave nothing in the two transcripts to differ in |
| NoiseRuns.StepKeepsInv | wireguard-5.15-aes/noise.c:524-822 | every step of any peer, with separate reading and writing halves of the consumers, keeps the invariant on transcripts |
| NoiseRuns.Agreement | wireguard-5.15-aes/noise.c:524-822 | in every run an initiator that accepts a response some responder sealed agrees with it on statics, ephemerals, sealed time stamp, preshared key and chaining key, and their session keys are crosswise |
| KeyDerivation.HmacInto | wireguard-5.15-aes/noise.c:313-346 | the loops compute HMAC of RFC 2104, also when the output is the input or key buffer |
| KeyDerivation.Kdf | wireguard-5.15-aes/noise.c:352-398 | the outputs are the first blocks of HKDF of RFC 5869, also when an output is the chaining key |
| KeyDerivation.MixHash | wireguard-5.15-aes/noise.c:440-448 | hashes the old hash followed by the data, in place |
| KeyDerivation.MixKey | wireguard-5.15-aes/noise.c:412-425 | chaining key and, where the caller wants it, key become the two blocks under the old chaining key |
| KeyDerivation.MessageEphemeral | wireguard-5.15-aes/noise.c:493-503 | the ephemeral is copied out, mixed into the hash and, by one block, into the chaining key |
| KeyDerivation.MixPsk | wireguard-5.15-aes/noise.c:450-460 | chaining key, hash and key from the three blocks under the old chaining key |
| KeyDerivation.DeriveKeys | wireguard-5.15-aes/noise.c:400-410 | the session keys are the two blocks over no data |
| Timestamps.StampOrder | wireguard-5.15-aes/noise.c:505-522 | byte order on stamps is the order of the rounded times |
| Timestamps.GrainIs | wireguard-5.15-aes/noise.c:516-517 | stamps are rounded to the largest power of two not above the 20 ms between initiations |
| Timestamps.StampsIncrease | wireguard-5.15-aes/noise.c:505-522 | stamps at least 20 ms apart are strictly increasing |
| Timestamps.Memcmp | wireguard-5.15-aes/noise.c:641-642 | the comparison's sign is the byte order |
| Timestamps.NeverBack | wireguard-5.15-aes/noise.c:640-662 | under every interleaving of checks and commits the stored stamp and consumption time never go back |
| Timestamps.NewerExactly | wireguard-5.15-aes/noise.c:640-662 | a commit carries a stamp newer than all before exactly when none as new was committed since its check |
| Timestamps.AcceptedOnceExactly | wireguard-5.15-aes/noise.c:640-662 | in every run no stamp is accepted twice if and only if no commit finds its stamp committed since its check, and accepted initiations are 20 ms apart if and only if no commit finds another within 20 ms made since its check |
| Timestamps.SpacedWhenUnbroken | wireguard-5.15-aes/noise.c:640-662 | with check and commit unbroken no stamp is accepted twice and accepted initiations are 20 ms apart |
| Timestamps.TwiceWhenInterleaved | wireguard-5.15-aes/noise.c:640-662 | interleaved, one stamp can be accepted twice |
| Sessions.StepKeepsInv | wireguard-5.15-aes/noise.c:80-299 | every step of handshakes, session starts, slot changes, senders and packets keeps the invariant |
| Sessions.TableFollowsSlots | wireguard-5.15-aes/noise.c:824-902 | a handshake under way is in the index table, a new session always takes over its entry, and the keypairs in the table are exactly those in slots |
| Sessions.SlotDiscipline | wireguard-5.15-aes/noise.c:206-299 | slots are pairwise different, `next` is a responder's keypair, `current` is self-initiated or its replay window has accepted a number, and everything accepted came in a packet that opened under its key |
| Sessions.ReleasedOnce | wireguard-5.15-aes/noise.c:125-157 | the reference count is the slot plus senders and queued packets; a keypair is released exactly once, and only when nothing holds it |
| Sessions.AddNewEffect | wireguard-5.15-aes/noise.c:206-259 | exactly the keypairs that leave the slots lose a reference and their entry |
| Sessions.SlideEffect | wireguard-5.15-aes/noise.c:276-296 | the same for the confirmation by a received packet |
| Sessions.ClearAllEffect | wireguard-5.15-aes/noise.c:159-185 | the same for clearing all slots |
| KeypairSlots.Keypairs.PutNow | wireguard-5.15-aes/noise.c:139-148 | one reference and the entry go; the last one releases |
| KeypairSlots.Keypairs.AddNewKeypair | wireguard-5.15-aes/noise.c:206-259 | the stores and puts have the effect used in the state machine |
| KeypairSlots.Keypairs.ReceivedWithKeypair | wireguard-5.15-aes/noise.c:261-299 | slides the slots exactly if the keypair is still the next one |
| KeypairSlots.Keypairs.Clear | wireguard-5.15-aes/noise.c:159-185 | empties the slots and puts each keypair once |
| IndexTable.Lookup | wireguard-5.15-aes/peerlookup.c:201-226 | finds an entry exactly if it is in the table under that index, of a type asked for and with a peer that can still be referenced; that peer gains one reference and no other count changes |
| IndexTable.ReachableInv | wireguard-5.15-aes/peerlookup.c:119-198 | under every interleaving of inserts, replaces and removes no two entries share an index and each is in its bucket |
| IndexTable.IndexStays | wireguard-5.15-aes/peerlookup.c:166-190 | an entry keeps its index while it is in the table, and a replaced entry's index passes to its successor |
| IndexTable.IndexHashtable.IsTaken | wireguard-5.15-aes/peerlookup.c:132-139 | the scan finds an entry exactly if the index is in use |
| IndexTable.IndexHashtable.TryInsert | wireguard-5.15-aes/peerlookup.c:144-159 | inserts exactly if the drawn index is free under the lock |
| IndexTable.IndexHashtable.ReplaceEntry | wireguard-5.15-aes/peerlookup.c:166-190 | succeeds exactly if the old entry is in the table; the new one takes its place and index |
| IndexTable.IndexHashtable.RemoveEntry | wireguard-5.15-aes/peerlookup.c:192-198 | takes the entry out and keeps the table's invariant |
| Nonces.NoncesBelowLimit | wireguard-5.15-aes/send.c:400-415 | every nonce computed and used is below the limit and is that of its place in the count, for any number of senders |
| Nonces.TicketsStayApart | wireguard-5.15-aes/send.c:400-415 | no two senders ever hold the same place in the count |
| Nonces.FewSendersNoWrap | wireguard-5.15-aes/send.c:368-440 | with at most COUNTER_WINDOW_SIZE + 1 senders the counter never wraps |
| Nonces.FewSendersNoRepeat | wireguard-5.15-aes/send.c:368-440 | with at most COUNTER_WINDOW_SIZE + 2 senders no nonce is used twice |
| Nonces.ExactBounds | wireguard-5.15-aes/send.c:368-440 | both bounds are exact |
| DataPath.PaddingIs | wireguard-5.15-aes/send.c:143-162 | padding is under 16 bytes and keeps the last unit within the MTU exactly if aligning it fits 32 bits |
| DataPath.IvInjective | wireguard-5.15-aes/send.c:229-233 | different counters give different initialization vectors |
| DataPath.HeaderBack | wireguard-5.15-aes/receive.c:37-54 | the receiver finds type, key index and counter as sent |
| DataPath.OpensWhatWasSealed | wireguard-5.15-aes/receive.c:251-315 | with either cipher the receiver rebuilds nonce or vector and opens the padded packet exactly while its key is valid, not expired and below the message limit; otherwise the key becomes invalid |
| DataPath.ExpiresOnce | wireguard-5.15-aes/receive.c:262-267 | a key expires 180 seconds after its birth, and once refused stays refused |
| DataPath.TrimUndoesPadding | wireguard-5.15-aes/receive.c:408-426 | a padded IP packet comes out as it went in exactly if its header gives its size |
| DataPath.ThereAndBack | wireguard-5.15-aes/send.c:164-240 | encapsulation and decapsulation are the identity on every IP packet whose header gives its size, exactly while the receiving key is within its limits |
| DataPath.KeepaliveLength | wireguard-5.15-aes/send.c:271-271 | a message has keepalive length exactly if nothing was sent in it |
| RateLimiter.RateLimiter.constructor | wireguard-5.15-aes/ratelimiter.c:158-187 | a new table is empty and bounded by eight entries per bucket |
| RateLimiter.RateLimiter.Allow | wireguard-5.15-aes/ratelimiter.c:84-156 | lists and counter take the step of a plain map of entries, with its answer; a packet is refused exactly if its source has no entry and the count is at its bound or the allocation fails |
| RateLimiter.RateLimiter.SweepSlot | wireguard-5.15-aes/ratelimiter.c:62-76 | one turn of the collection, with a clock read at any time before, takes the map's step: exactly the entries of that list whose wrapped age exceeds a second go |
| RateLimiter.RateLimiter.Collect | wireguard-5.15-aes/ratelimiter.c:55-82 | undisturbed and with any clock reading, drops exactly the entries whose wrapped age exceeds a second; with a clock read after every entry's last use the limiter stays like the never-dropped buckets |
| RateLimiter.RateLimiter.Release | wireguard-5.15-aes/ratelimiter.c:41-46 | the count goes down when a dropped entry is freed, and stays the entries plus what is still to be freed |
| RateLimiter.Serve | wireguard-5.15-aes/ratelimiter.c:41-156 | over every run of arrivals, collection turns and releases a new limiter answers and refuses exactly as the map; if the collections are timely (every entry of the list used since the clock was read is full again) its answers are those of never-dropped buckets but for the refusals, and keep the rate |
| RateLimiter.RateBound | wireguard-5.15-aes/ratelimiter.c:111-128 | from any state of the limiter on at most five packets of a source and one per 50 ms pass |
| RateLimiter.SourceRate | wireguard-5.15-aes/ratelimiter.c:34-39 | the same over any stretch of any run, on the limiter's own answers |
| RateLimiter.AsUnbounded | wireguard-5.15-aes/ratelimiter.c:55-156 | with timely collections every answer but a refusal is that of one bucket per source that is never dropped, and the two stay alike |
| RateLimiter.OldReading | wireguard-5.15-aes/ratelimiter.c:57-68 | a collection turn goes unnoticed in every continuation if and only if every entry of the list used since the clock was read is full again |
| RateLimiter.OldReadingForgets | wireguard-5.15-aes/ratelimiter.c:57-68 | a run: five packets of any new source, a collection turn with a clock read before them, and a sixth packet that passes at once, but would not without that turn |

## Left out

- Kernel crypto: BLAKE2s is any function to 32 bytes, curve25519 an unordered pair of exponents, the ciphers any pair with open after seal the identity; no secrecy claim is made.
- Weak memory and RCU grace periods: steps are sequentially consistent, removed nodes keep their fields, and the memory of a node is never given out again.
- AllowedIps.LookupAlive: the walk of an attempt meets one memory and the load of the peer another; which peers can still be referenced is given, since peer reference counts are not modelled beside the trie.
- AllowedIps.AllowedIps.Free: the deferred release of the nodes runs as part of the call; the order against other grace periods is not modelled.
- Linearizability of a whole traversal that overlaps several writes: the code does not promise it; what is proved is that every single store shows a reader that starts at the root then the rules of before or after, and what a reader with an older root finds.
- TrieReaders.OldRoot: covers insertions and removals; a root of a trie that `wg_allowedips_free` has cut off since keeps its old rules until the grace period ends.
- Packets as skbs: fragments, scatterlists, checksums, ECN and GSO; a packet is a byte sequence.
- DataPath.ThereAndBack: the check of the inner source address against the allowed IPs is not part of it.
- NoiseRuns.StepKeepsInv: lets the replay and flood checks of an initiation pass or fail at will, since `Timestamps` treats them; indices are carried but nothing is claimed about them.
- Noise.HonestRun: the ephemeral secrets are taken as non-null, which the clamping of `curve25519_generate_secret` ensures.
- Sessions.StepKeepsInv: treats `wg_noise_handshake_begin_session` as one step and leaves out AEAD handles, because the dead-peer branch frees a keypair without them.
- Sessions.StepKeepsInv: the final removal of a handshake's entry when a peer is freed is not modelled.
- IndexTable.ReachableInv: the retry loop of an insertion appears as steps; that it ends is only probable.
- RateLimiter.RateLimiter.Allow: is atomic, because two concurrent misses for one source can create duplicate entries; packets that are neither IPv4 nor IPv6, which are refused at once, and the teardown call that drops every entry are not modelled.
- Timers, cookies, netlink, device and socket code: plumbing and wall-clock behaviour.
- The root-level copies of the module and `wireguard-5.15.55/`: older or partial versions of the same algorithms.
