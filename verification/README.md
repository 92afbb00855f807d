# A model of the driver

This project models the parts of a WireGuard-style NT kernel driver in which something can go wrong that no
single function shows: protocols between threads, a trie that is read while it is changed, arithmetic on
limbs, and formats that are told apart by length. It proves what those parts keep, over every input, every
run and every interleaving of the steps that are modelled.

How the files belong together:

- `PrevQueue`, `PeerSerial` and the `Pipeline` files are the packet pipeline of a peer. `PrevQueue` is the
  queue with a stub node as a machine of exchanges and stores; `Pipeline` combines it with the serialiser, the
  crypt states and the worker threads; the other files prove one family of invariants each, and
  `PipelineRuns` has the theorems. `PipelineVerdicts` says which packets go up and which are freed, and
  `PipelineRounds` how much and in which order peers are served. `PtrRing` is the ring that hands packets to workers.
- The `AllowedIps` files are the trie of prefixes. `AllowedIps` and `AllowedIpsUpdates` prove search, insertion
  and removal against a plain map; `AllowedIpsTable` is the imperative form; `AllowedIpsReaders`,
  `AllowedIpsAtomic` and `AllowedIpsLookups` interleave a lookup with the stores of an update;
  `AllowedIpsWalks` bounds the stack walks, `AllowedIpsTight` reaches the bound, and `AllowedIpsBytes` reaches down to the bytes of an address.
- `Words`, `Poly1305`, `Poly1305Ctx`, `ChaCha20`, `ChaCha20Poly1305`, `Field25519`, `FieldElements` and
  `FieldInvert` are the portable arithmetic, against RFC 8439 and RFC 7748; `ChaCha20Vectors` and
  `ChaCha20Poly1305Vectors` prove published values.
- `NoiseHandshake`, `NoiseRuns` and `NoisePeer` are the handshake over symbolic cryptography, `NoisePattern` the
  proof that it is the one the Noise Protocol Framework defines, `NoiseWindow` the
  two sections in which an initiation is checked and stored; `Keypairs`, `KeypairMoves` and
  `KeypairSlots` are the three slots, the reference counts and the index table, and `KeypairWindow` is what can
  happen between the two locks that beginning a session takes.
- `Rcu`, `RcuEnds` and `RcuList` are the grace period, that it ends, and its callback list; `ReplayWindow` is the
  replay bitmap; `WireFormat`, `WireMessages`, `WireParsing` and `WireData` are the junk-prefixed messages.
- `Ratelimiter` is the token buckets as steps of callers, the sweep and the callbacks that free entries;
  `RatelimiterFits` has what every run keeps, `RatelimiterIdeal` and `RatelimiterSeen` when it answers as buckets
  that are never forgotten would, `RatelimiterExact` what such a bucket answers, `RatelimiterRate` the bound on the rate, `RatelimiterBursts` runs that exceed the
  burst, and `RatelimiterTable` the hash chains.

A file with a class holds the code in its own form, fields overwritten statement by statement, proved against
the functions of the file beside it; lemmas about those functions say what the code is for. Sources of
randomness, clocks, allocations and the results of foreign calls are parameters.

Where the code does not do what is said of it:

- A NULL from PrevQueueDequeue does not mean that the queue is empty or a producer is mid-link at the instant
  of the return, only that this was so at some instant of the call (`PrevQueue.NullAtReturn`,
  `PrevQueue.NullWithoutGap`).
- A grace period can end too early exactly if there is a processor on which the routine could not be queued,
  because its number or target could not be set (`Rcu.TooEarlyIff`).
- The limiter lets more than the burst through at one instant if two first packets overlap, if a sweep takes out an
  entry that a caller is about to draw on, or if a sweep read the clock before an entry's last use
  (`RatelimiterBursts.TwoFirstPackets`, `RatelimiterBursts.SweptWhileHeld`, `RatelimiterBursts.LateSweepForgets`).
  These are the only ways (`RatelimiterSeen.DisturbanceIff`), and each costs a bounded number of packets
  (`RatelimiterRate.RateBound`).
- One initiation is accepted twice if a second thread checks it before the first has stored it
  (`NoiseWindow.TwiceIff`).
- TotalEntries goes above its limit while callers have yet to undo their increment (`RatelimiterFits.TotalExceeds`).
- A handshake message is dropped if its first buffer does not hold all of it, a data message if its first buffer
  does not hold its headers, or if it is as long as a handshake total and its first buffer is shorter than that
  (`WireParsing.HandshakeParsedBack`, `WireParsing.DataParsedBack`).
- An index leads to a keypair that is in no slot exactly if NoiseKeypairsClear fell between AddNewKeypair and
  IndexHashtableReplace (`KeypairWindow.WindowIff`).

## Model

| member | source | states |
|---|---|---|
| PipelineRuns.ReleasedInOrder | driver/receive.c:376-465 | in every run of inserting threads and workers, what was released for a peer followed by what is peeked, on its way out or queued is exactly what entered by the head exchanges; nothing appears twice; everything released had its state stored as CRYPTED or DEAD; Count is at most 1024 |
| PipelineRuns.OneReleaser | driver/receive.c:428-465 | two threads are never in the release loop of the same peer |
| PipelineRuns.NotStranded | driver/queueing.h:67-85 | once nobody works on a peer's packets and all have left UNCRYPTED, everything that entered was released or the peer is on the serial list, whatever the interleaving of Requeue and ForceMore |
| PipelineRuns.RestReleasesAll | driver/receive.c:376-465 | when no thread is inside a call and no worker is signalled, every packet that entered a queue was released, and every packet offered entered its queue or was dropped at the limit |
| PipelineRuns.NobodyStuck | driver/receive.c:376-465 | in every reachable state each thread inside a call has a step it can make |
| PipelineService.OneServer | driver/queueing.h:44-104 | the busy mark lets one thread at a time serve a peer |
| PipelineRuns.LeftAlone | driver/queueing.h:67-85 | in every reachable state a peer that nobody serves, or whose server is about to retire it without asking for more, has an empty queue, or its Requeue flag is raised, or somebody is still to report one of its packets |
| PipelineWakeups.IdleWoken | driver/queueing.h:67-85 | one step of that invariant: from a state in which somebody is still to report, a step that leaves the peer to itself keeps it so |
| PipelineWakeups.NullQuits | driver/queueing.h:230-247 | a Dequeue that returns NULL with packets left overlaps somebody who will report one of them |
| PipelineWakeups.UncryptedQuits | driver/receive.c:385-392 | a head that is still UNCRYPTED is still to be reported by its worker |
| PipelineRefusals.RefusedAreDead | driver/receive.c:504-514 | when the ring refuses a chain, then in every continuation of the run the chain stays with the thread that offered it, each packet that thread has marked is DEAD and remains so, and when the marking is over every packet of the chain is |
| PipelineVerdicts.StateIff | driver/receive.c:440-515 | in every run, told from its steps: a packet is CRYPTED exactly if it was marked by a thread that had its chain from the ring and decrypted it; DEAD exactly if it was marked in any other way; UNCRYPTED exactly if it was offered and not marked |
| PipelineVerdicts.MarkedOnce | driver/receive.c:452-460 | no packet is marked twice |
| PipelineVerdicts.DeliveredInOrder | driver/receive.c:375-425 | of what was released for a peer, in the order of the head exchanges, exactly the packets that a worker decrypted and whose nonce CounterValidate accepts go up; all others, and no others, are freed |
| PipelineVerdicts.RestDelivers | driver/receive.c:375-425 | when no thread is inside a call and no worker is signalled, those packets of all that entered have gone up |
| PipelineRounds.RoundBounded | driver/receive.c:378-391 | between taking a peer off the serial list and retiring it, at most 256 packets of the peer are released, by whomever |
| PipelineRounds.ServedInOrder | driver/queueing.h:44-104 | in every run peers are served in the order in which they joined the serial list, and those that have not been are waiting on it |
| PeerSerial.PeerSerialList.EnqueueIfNotBusy | driver/queueing.h:44-65 | an idle peer goes to the end of the list; a busy one only has its Requeue flag raised, and only if asked |
| PeerSerial.PeerSerialList.MaybeRetire | driver/queueing.h:67-85 | the peer goes back to the end of the list exactly if more work is forced or Requeue was raised, and is idle otherwise |
| PeerSerial.PeerSerialList.Dequeue | driver/queueing.h:87-104 | the first of the list, or none; the peer taken stays busy |
| PrevQueue.RunIsFifo | driver/queueing.c:149-207 | in every run the packets got are those entered, in the order of the head exchanges, with what is left in the chain; Count is the contents plus producers between increment and exchange plus a packet on its way out, and at most 1024 |
| PrevQueue.NullIsExcused | driver/queueing.c:176-207 | a Dequeue call that returns NULL overlaps an instant at which the queue was empty or a producer was between its exchange and its link store |
| PrevQueue.NullAtReturn | driver/queueing.c:196-206 | at the instant of the return itself this holds exactly unless the call leaves through the comparison with Head and its producer has stored the link meanwhile |
| PrevQueue.NullWithoutGap | driver/queueing.c:196-197 | such a return is reachable, so the claim about the return instant is false as it stands |
| PrevQueue.ExchangeContents | driver/queueing.c:159-164 | the head exchange appends a packet to the abstract FIFO; the stub is never part of it |
| PrevQueue.AdvanceContents | driver/queueing.c:178-206 | moving Tail takes exactly the oldest packet |
| PtrRing.FirstInFirstOut | driver/containers.h:147-241 | producer and consumer stepping independently, slot store by slot store: consumed is a prefix of produced; Peek gives NULL exactly if all was consumed; Produce is refused exactly if live and stale slots fill the ring, and then at least Size - (Batch - 1) are live; a producer that found its slot free can still store |
| PtrRing.StaleSlots | driver/containers.h:207-226 | between two calls of the consumer the slots from ConsumerTail up to ConsumerHead, and no others, hold items already taken out |
| PtrRing.PtrRing.constructor | driver/containers.h:261-284 | an empty ring; the batch is 16 pointers, or 1 if that is more than half the ring |
| PtrRing.PtrRing.Produce | driver/containers.h:147-158 | appends to the contents, or is refused exactly when contents and stale slots fill the ring |
| PtrRing.PtrRing.Consume | driver/containers.h:228-241 | takes the oldest item, or NULL exactly if there is none |
| PtrRing.PtrRing.DiscardOne | driver/containers.h:207-226 | the slots from ConsumerTail up to the head become NULL exactly when a batch of them is there or the lap ends, no other slot changes, and both indices are where the source leaves them; the ring stays valid |
| AllowedIps.SearchIsRoute | driver/allowedips.c:132-145 | searching the trie gives what the plain map of prefixes gives |
| AllowedIps.RouteIsLongest | driver/allowedips.c:132-145 | the map's answer is the peer of a stored prefix of the address such that no longer one is stored, or none if none is |
| AllowedIpsTable.AllowedIpsTable.FindNode | driver/allowedips.c:132-145 | the loop finds the node of the search |
| AllowedIpsTable.AllowedIpsTable.Lookup | driver/allowedips.c:148-173 | the peer of the longest matching prefix, or none |
| AllowedIpsTable.AllowedIpsTable.NodePlacement | driver/allowedips.c:175-201 | the place found by the loop is the place of the search |
| AllowedIpsTable.AllowedIpsTable.Add | driver/allowedips.c:217-304 | exactly one entry of the map is set, or nothing changes at all: on a bad Cidr or peer, or when an allocation failed, a half-made node included; the trie stays linked and compact |
| AllowedIpsTable.AllowedIpsTable.RemoveNode | driver/allowedips.c:306-335 | exactly the node's prefix leaves the map, and the trie stays linked and compact |
| AllowedIpsTable.AllowedIpsTable.Remove | driver/allowedips.c:337-357 | the prefix leaves the map only if it carries this peer; the statuses say which case it was |
| AllowedIpsTable.AllowedIpsTable.RemoveByPeer | driver/allowedips.c:433-441 | all entries of the peer leave the map and all others stay |
| AllowedIpsUpdates.AddUpdates | driver/allowedips.c:217-304 | the stores of Add, done one after the other, turn a trie for a map into a trie for the updated map |
| AllowedIpsUpdates.RemoveUpdates | driver/allowedips.c:306-335 | the stores of RemoveNode turn a trie for a map into a trie for the map without the prefix |
| AllowedIpsUpdates.MatchesCommon | driver/allowedips.c:104-126 | comparing the common bits with Cidr decides whether a prefix matches |
| AllowedIpsReaders.LookupIsAtomic | driver/allowedips.c:132-173 | a lookup that walks upwards-ordered stores, read by read and store by store, answers as before or as after |
| AllowedIpsAtomic.UpdateIsAtomic | driver/allowedips.c:132-173 | three conditions on a sequence of stores under which no overlapping lookup can tell it from an atomic update |
| AllowedIpsLookups.AddIsAtomic | driver/allowedips.c:217-304 | a lookup interleaved with the stores of one Add answers as the map without the new entry or, if Add succeeds, as the map with it |
| AllowedIpsLookups.RemoveIsAtomic | driver/allowedips.c:306-335 | a lookup interleaved with the stores of one RemoveNode answers as the map with the prefix or without it |
| AllowedIpsLookups.UndoLookable | driver/allowedips.c:286-292 | a failed second allocation is invisible to lookups |
| AllowedIpsWalks.RootFreeRcu | driver/allowedips.c:75-88 | the stack walk frees every node of the trie exactly once, and the 129-entry stack is never left |
| AllowedIpsWalks.RootRemovePeerLists | driver/allowedips.c:90-102 | exactly the nodes of the trie leave their peers' lists |
| AllowedIpsWalks.StackBound | driver/allowedips.c:12 | the stack holds at most one entry for every length a prefix can have |
| AllowedIpsTight.StackIsTight | driver/allowedips.c:12 | the bound is reached: there is a trie of 128-bit prefixes for which the walk fills all 129 entries |
| AllowedIpsBytes.ChooseReads | driver/allowedips.c:28-51 | the byte and bit that were stored with a node select the bit of the key after its prefix, in the machine's byte order |
| AllowedIpsBytes.StoredWord32 | driver/allowedips.c:15-27 | the 32-bit word that the machine reads from the swapped bytes of an address is the number its bits spell, first bit highest |
| AllowedIpsBytes.StoredWord128 | driver/allowedips.c:15-27 | the same of the two 64-bit words of an IPv6 address |
| AllowedIpsBytes.CommonBits32 | driver/allowedips.c:104-114 | FindLastSet of the exclusive or of the words in memory counts the leading bits that two IPv4 addresses share |
| AllowedIpsBytes.CommonBits128 | driver/allowedips.c:104-114 | the same on the two words of IPv6 addresses |
| AllowedIpsBytes.ReadNode | driver/allowedips.c:443-455 | the address read back is the stored key, swapped back, with every bit after the prefix cleared |
| AllowedIpsBytes.SwapTwice | driver/allowedips.c:15-27 | swapping twice gives the address back |
| Poly1305.RoundVal | driver/crypto.c:607-683 | one block in 26-bit limbs: limb bounds are kept, nothing overflows 32 or 64 bits, and the state is (h + m) * r modulo 2^130 - 5 |
| Poly1305.ProductsBound | driver/crypto.c:647-672 | the five 64-bit sums and their carries are never truncated |
| Poly1305.InitVal | driver/crypto.c:583-604 | the masked limbs are the clamped key |
| Poly1305.FullCarryVal | driver/crypto.c:697-718 | after the full carry every limb, H1 included, is below 2^26 |
| Poly1305.SelectVal | driver/crypto.c:720-748 | the branch-free selection gives the residue below 2^130 - 5 |
| Poly1305.PackVal | driver/crypto.c:750-754 | the or-ed words are the low 128 bits |
| Poly1305.AddWordsVal | driver/crypto.c:756-764 | the pad is added modulo 2^128 |
| Poly1305Ctx.Poly1305Ctx.Update | driver/crypto.c:797-830 | whatever the chunks, the context has been fed their concatenation |
| Poly1305Ctx.Poly1305Ctx.Final | driver/crypto.c:833-848 | the tag of section 2.5 of RFC 8439 over everything fed |
| Poly1305Ctx.Poly1305Ctx.BlocksCore | driver/crypto.c:607-683 | the block loop is the evaluation of the polynomial, block by block |
| ChaCha20.ChaCha20Ctx.Crypt | driver/crypto.c:413-436 | the data xor-ed with the key stream; the counter has moved by the blocks used |
| ChaCha20.MixMix | driver/crypto.c:413-436 | xor-ing twice with the same stream gives the data back |
| ChaCha20Vectors.QuarterVector | driver/crypto.c:233-241 | the quarter round gives the values of section 2.1.1 of RFC 8439 |
| ChaCha20Vectors.ExampleBlock | driver/crypto.c:394-411 | the block function gives, on the state of section 2.3.2 of RFC 8439, the 64 bytes printed there |
| ChaCha20Vectors.ZeroVector | driver/crypto.c:302-317 | with zero key and nonce the state and its block are those of test vector 1 in appendix A.1 of RFC 8439 |
| ChaCha20Poly1305Vectors.SealedAs | driver/selftest/chacha20poly1305.c:84-91 | a published AEAD value with associated data, through the state, block 0 as tag key, block 1 for the message, padding, lengths and Poly1305 |
| ChaCha20Poly1305.MessageBlocks | driver/crypto.c:854-891 | byte i of a message is mixed from block 1 + i / 64, whose counter is that of the tag key's block only once the 32-bit counter has wrapped: never in the first 64 * (2^32 - 1) bytes |
| ChaCha20Poly1305.PolyKeyIs | driver/crypto.c:871-875 | the key of the tag is the first half of block 0 |
| ChaCha20Poly1305.OpenSeal | driver/crypto.c:854-943 | what was sealed opens to what it was |
| ChaCha20Poly1305.OpenIff | driver/crypto.c:895-943 | what opens to a message is exactly what sealing that message gives, so nothing forged or altered opens |
| ChaCha20Poly1305.Encrypt | driver/crypto.c:854-891 | the contiguous form is the AEAD of section 2.8 of RFC 8439 |
| ChaCha20Poly1305.Decrypt | driver/crypto.c:895-943 | succeeds exactly if the tag is right, and then gives the plaintext |
| ChaCha20Poly1305.EncryptMdl | driver/crypto.c:1060-1153 | over any chain of buffers and any start inside it: the same bytes as the contiguous form; it fails exactly if the chain is too short |
| ChaCha20Poly1305.DecryptMdl | driver/crypto.c:947-1056 | over any chain: succeeds exactly if the contiguous form opens, with the same plaintext, whether the tag lies in one buffer or in several |
| ChaCha20Poly1305.MixPiece | driver/crypto.c:960-1040 | the leftover key stream makes the result independent of where the buffers end |
| Field25519.MulVal | driver/crypto.c:2181-2341 | for all loose limbs no 64-bit sum overflows, the result is tight and is the product modulo 2^255 - 19 |
| Field25519.SqrIsMul | driver/crypto.c:2362-2472 | FeSqrImpl gives, limb for limb, what FeMulImpl gives on equal factors |
| FieldElements.AddVal | driver/crypto.c:2093-2125 | sums of tight elements are loose and represent the sum |
| FieldElements.SubVal | driver/crypto.c:2137-2169 | differences do not go below zero in any limb, are loose and represent the difference |
| FieldElements.FreezeVal | driver/crypto.c:1899-2023 | the canonical residue, in exact limbs |
| FieldElements.TobytesVal | driver/crypto.c:2026-2062 | the 32 bytes are the residue, least significant first |
| FieldElements.FrombytesVal | driver/crypto.c:1868-1897 | tight limbs that represent the number without its top bit |
| FieldElements.BytesRoundTrip | driver/crypto.c:1868-2062 | storing what was read gives the number modulo p; reading what was stored gives the residue |
| FieldInvert.FeLooseInvert | driver/crypto.c:2487-2535 | the chain of squarings and products raises to exactly p - 2 |
| Keypairs.SessionsFit | driver/noise.c:131-190 | over every run: a keypair's count is the slots holding it plus the gets outstanding; it is freed, once, exactly when that is nothing; the slots differ; an index leads only to the handshake or to a keypair in a slot; a responder's keypair is current only after a packet came with it |
| Keypairs.BeginKeeps | driver/noise.c:824-865 | beginning a session keeps all of that, leaves the slots as the comments promise, and gives the new keypair the handshake's index |
| Keypairs.ConfirmKeeps | driver/noise.c:270-306 | confirming a keypair keeps all of that, makes it current and the current one previous |
| Keypairs.ClearKeeps | driver/noise.c:164-190 | clearing the three slots keeps all of that |
| Keypairs.PutKeeps | driver/noise.c:131-153 | giving back a reference keeps all of that, the last one freeing the keypair |
| Keypairs.ReplaceKeeps | driver/peerlookup.c:172-197 | the new keypair is found at the handshake's index, and the handshake no longer |
| KeypairMoves.ConfirmMoves | driver/noise.c:270-306 | in every reachable state: the first packet under the next keypair makes it current and the current one previous; the old previous one alone loses its index and a reference; every other keypair keeps its index and its count |
| KeypairMoves.ClearMoves | driver/noise.c:164-190 | the keypairs in the slots, and no others, lose their index and a reference |
| KeypairMoves.BeginMoves | driver/noise.c:824-865 | a new keypair has one reference and the handshake's index; exactly those it displaces, by role and by whether one was waiting, are given up |
| KeypairWindow.WindowIff | driver/noise.c:847-858 | the two locked sections taken apart, with any gets, puts, confirmations and clears between them, after any run: the index leads to the new keypair; that keypair is in a slot, and everything above still holds, if and only if NoiseKeypairsClear did not fall between them |
| KeypairWindow.WindowClosed | driver/noise.c:847-858 | with nothing between them the two sections are the one step of sessions |
| KeypairSlots.PeerKeypairs.AddNewKeypair | driver/noise.c:215-268 | the statements, in their order, do what the step does |
| KeypairSlots.PeerKeypairs.AddAndReplace | driver/noise.c:847-858 | creating, adding and replacing together are the step; TRUE exactly if the handshake had an index |
| KeypairSlots.PeerKeypairs.NoiseReceivedWithKeypair | driver/noise.c:270-306 | TRUE exactly if the keypair was the next one; it is then current, the current one is previous, and only the old previous one is given up |
| KeypairSlots.PeerKeypairs.NoiseKeypairsClear | driver/noise.c:164-190 | no slot holds anything afterwards |
| KeypairSlots.PeerKeypairs.NoiseKeypairPut | driver/noise.c:144-153 | with UnreferenceNow the keypair leaves the index table even if references remain |
| KeypairSlots.PeerKeypairs.NoiseKeypairGet | driver/noise.c:155-162 | fails exactly on a keypair without references |
| KeypairSlots.PeerKeypairs.PutBack | driver/noise.c:131-153 | the last reference frees the keypair, and only the last |
| KeypairSlots.PeerKeypairs.IndexHashtableReplace | driver/peerlookup.c:172-197 | nothing happens if the old entry has no index |
| NoiseRuns.HandshakeAgrees | driver/noise.c:561-865 | an unmodified run leaves both sides with keypairs that send with what the other receives with, the initiator with the first output over the chaining key; each remote index leads, in the other's table, to the other's new keypair; both handshakes are zeroed |
| NoiseHandshake.InitiationAgreement | driver/noise.c:613-690 | an initiation whose timestamp was sealed by some handshake is accepted if and only if that handshake was for this device's key over the ephemeral and sealed key that arrived, the peer shares the static secret, the timestamp is newer and it is not too soon; then both have one transcript |
| NoiseWindow.TwiceIff | driver/noise.c:659-679 | the check and the store taken apart, with any other threads between them: an initiation that one thread has found new passes the check of another if and only if nothing as late has been stored, by the first either, and the last one stored is long enough ago |
| NoiseWindow.ConsumedIff | driver/noise.c:673-679 | with any threads between them, the time from which the next initiation is measured is that of the latest one stored |
| NoiseHandshake.ResponseAgreement | driver/noise.c:740-822 | a response sealed by some responder is accepted if and only if both had the same transcript, preshared key and public keys; then hashes and chaining keys are equal |
| NoiseHandshake.DhCommutes | driver/crypto.c:2735-2850 | the symbolic points agree in either order, by their construction as products of secrets |
| NoiseRuns.InitiationArrives | driver/noise.c:563-690 | an initiation between configured peers is accepted and gives both the same transcript |
| NoiseRuns.ResponseArrives | driver/noise.c:692-822 | the response to it is accepted |
| NoiseRuns.OnlyOwner | driver/peerlookup.c:211-241 | the receiver's index leads to the peer that was written to |
| NoiseRuns.OutputsApart | driver/noise.c:333-382 | no two of the three outputs are ever equal, for any chaining keys and inputs, and one output is the same only for the same chaining key and input |
| NoiseRuns.KeysMatchIff | driver/noise.c:383-394 | whenever two handshakes begin sessions, one sends with what the other receives with if and only if they had the same chaining key and opposite roles |
| NoiseRuns.SessionKeys | driver/noise.c:383-394 | as terms over the chaining key: the initiator sends with the first output of the key derivation and receives with the second, the responder the other way round; of the handshake only what outlives it is left |
| NoisePattern.InitiationIsNoise | driver/noise.c:561-611 | an initiation, its two ciphertexts, hash and chaining key are what the Noise framework defines for e, es, s, ss with the timestamp as payload |
| NoisePattern.ResponseIsNoise | driver/noise.c:692-738 | a response is what the framework defines for e, ee, se, psk without payload |
| NoisePattern.KeysAreSplit | driver/noise.c:561-865 | after an unmodified run both sides have the two outputs of Split over both messages of Noise_IKpsk2, the initiator sending with the first |
| NoisePattern.NoInitiation | driver/noise.c:561-611 | there is no initiation exactly without a static key, with a point of low order or with a zero static secret; the handshake has then not moved on |
| NoisePattern.NoResponse | driver/noise.c:692-738 | there is no response exactly without an initiation consumed before or over a point of low order |
| NoisePeer.AwgPeer.constructor | driver/noise.c:61-79 | a zeroed handshake; the static secret is absent if there is no identity or the point has low order |
| NoisePeer.AwgPeer.NoiseHandshakeCreateInitiation | driver/noise.c:561-611 | the statements in order give the message and the state of the specification, also when they stop half way |
| NoisePeer.AwgDevice.NoiseHandshakeConsumeInitiation | driver/noise.c:613-690 | only the peer whose initiation is accepted changes |
| NoisePeer.AwgPeer.NoiseHandshakeCreateResponse | driver/noise.c:692-738 | message and state of the specification; nothing happens in another state |
| NoisePeer.AwgDevice.NoiseHandshakeConsumeResponse | driver/noise.c:740-822 | the peer changes exactly if the response is accepted |
| NoisePeer.AwgPeer.NoiseHandshakeBeginSession | driver/noise.c:824-865 | fails without effect unless the handshake is complete and the keypair allocated; the handshake is zeroed even if the peer is going away; sending and receiving keys by role, as terms over the chaining key |
| NoisePeer.AwgPeer.NoiseHandshakeClear | driver/noise.c:93-101 | the handshake leaves the table and is zeroed |
| Rcu.GracePeriod | driver/rcu.c:28-99 | in every run a callback about to run, and a caller about to leave RcuSynchronize, finds no section open that was open when it came, except on a processor on which no routine could be queued |
| Rcu.TooEarlyIff | driver/rcu.c:38-43 | for any number of processors: a run in which the routine fails to be queued only on processors of a set can let a callback or a caller of RcuSynchronize go while a section open before it still is, if and only if the set has a processor in it |
| Rcu.CallbacksRunOnce | driver/rcu.c:65-124 | what ran is a prefix of what was posted, so each callback runs once, in order, and RcuBarrier returns after all earlier ones; when the thread has no work all have run |
| Rcu.NobodyStuck | driver/rcu.c:28-99 | while a callback has not run or a caller of RcuSynchronize waits, and no section is open, some step can be made: no event is lost |
| RcuEnds.AllRun | driver/rcu.c:28-99 | from every reachable state with no section open, without anything more handed in, the driver comes to an end within a bound that is given, and then every callback has run and every caller of RcuSynchronize has returned |
| Rcu.NeverQueuedTwice | driver/rcu.c:45-46 | the routine of a processor is never still queued or running from an earlier round, so KeInsertQueueDpc does not fail for that reason |
| RcuList.Cleanup.RcuCall | driver/rcu.c:102-113 | the store through Tail appends to the list, and work is pending |
| RcuList.Cleanup.Detach | driver/rcu.c:73-78 | the whole list is taken and the event cleared together |
| RcuList.Cleanup.RunAll | driver/rcu.c:80-96 | every callback of the list in order, each link read before its callback runs |
| ReplayWindow.ReplayCounter.CounterValidate | driver/receive.c:221-259 | accepts exactly what is below the limit, not older than the window and not accepted before; the counter is one more than the greatest accepted |
| ReplayWindow.ValidateAll | driver/receive.c:221-259 | over every sequence of messages: accepted exactly if below the limit, equal to none accepted before and no more than a window behind any of them |
| ReplayWindow.ReplayCounter.ClearWords | driver/receive.c:243-250 | the words moved over are cleared, going round, and the others stay |
| ReplayWindow.Limits | driver/messages.h:30-38 | neither sum wraps below the limit |
| ReplayWindow.AcceptableByCounter | driver/receive.c:234-239 | comparing with Counter alone decides whether a message is too old |
| RatelimiterIdeal.SweepsUnobservable | driver/ratelimiter.c:60-166 | callers on any number of threads, sweeps with any clock reading and grace periods, step by step: as long as no entry is filled while its address has one in the list or about to be, and none is taken out while a caller that found it has yet to draw or before it is full again, every packet of the address gets the answer of a bucket that is never forgotten |
| RatelimiterExact.VerdictIff | driver/ratelimiter.c:34-40 | what such a bucket answers, told without a bucket: packet i passes exactly if, with it, no stretch of packets up to it has more than five and one for every 50 ms |
| RatelimiterExact.AnsweredIff | driver/ratelimiter.c:60-166 | so in every run that does not disturb an address, packet i of it passes exactly in that case |
| RatelimiterSeen.DisturbanceIff | driver/ratelimiter.c:60-166 | that is exact, step by step: in every state that the address came to undisturbed, a step is one of these if and only if it, or some continuation without any, answers otherwise than that bucket |
| RatelimiterSeen.RunIff | driver/ratelimiter.c:60-166 | and of whole runs: a run has none of these steps if and only if at every point of it all answers so far, and all that any continuation without them could get, are those of the bucket |
| RatelimiterSeen.SweepSeenIff | driver/ratelimiter.c:60-86 | an entry that a sweep takes out can never be missed if and only if no caller has found it and not drawn on it yet, and it was last used before the sweep read the clock or is full again |
| RatelimiterRate.RateBound | driver/ratelimiter.c:34-40 | in any stretch of any run, of length d: of one address at most 5 + d / PACKET_COST packets pass, and one more for each draw on an entry that is not in front and each entry filled while there is another, and five for each entry put in front of another and each taken from the front before it is full |
| RatelimiterRate.RateHolds | driver/ratelimiter.c:34-40 | so at most 5 + d / PACKET_COST where nothing disturbs the address, whatever went before undisturbed |
| RatelimiterBursts.TwoFirstPackets | driver/ratelimiter.c:115-161 | six at one instant: two callers that overlap and find no entry both insert one |
| RatelimiterBursts.SweptWhileHeld | driver/ratelimiter.c:75-83 | six at one instant: a sweep with the present reading takes out a full entry that a caller has found |
| RatelimiterBursts.LateSweepForgets | driver/ratelimiter.c:66-79 | six at one instant: a sweep that read the clock before; without it the sixth is refused |
| RatelimiterBursts.NobodyNotices | driver/ratelimiter.c:115-161 | a disturbed run can still have all the right answers, if nobody comes to notice |
| Ratelimiter.StaleIff | driver/ratelimiter.c:75-84 | the comparison holds exactly for an entry idle for over a second or used after the sweep read the clock |
| RatelimiterFits.TotalWithin | driver/ratelimiter.c:42-57 | over every run TotalEntries is the entries allocated and not freed and the callers between increment and allocation or decrement; it is above its limit by at most the callers about to decrement it |
| RatelimiterFits.TotalExceeds | driver/ratelimiter.c:146-165 | and it does go above the limit, by any number |
| RatelimiterFits.NotFreed | driver/ratelimiter.c:42-57 | over every run what a caller has found, has still to look at or is about to insert has not been freed |
| RatelimiterFits.NobodyStuck | driver/ratelimiter.c:101-166 | in every reachable state each caller, or the sweep it waits for, has a next step |
| RatelimiterTable.FullRefuses | driver/ratelimiter.c:146-165 | an unknown address passes exactly if there is room and memory; a refusal changes nothing |
| RatelimiterTable.AloneIsCall | driver/ratelimiter.c:101-166 | a call that nobody interrupts, in one piece, is what the steps of one caller come to |
| RatelimiterTable.Table.RatelimiterAllow | driver/ratelimiter.c:101-166 | the hash chains and the counter do what such a call does |
| RatelimiterTable.Table.Find | driver/ratelimiter.c:115-143 | the walk over one chain finds the newest entry of the address, or none |
| RatelimiterTable.Table.EntryUninit | driver/ratelimiter.c:50-55 | exactly the entry leaves its chain, and is the last given to RcuCall |
| RatelimiterTable.Table.RatelimiterGcEntries | driver/ratelimiter.c:60-97 | a sweep that nobody interrupts leaves of the chains what is not stale, in its order, and gives all else to RcuCall once |
| WireFormat.Device.SetInterface | driver/ioctl.c:558-630 | the totals stay sound over any sequence of requests; they change exactly if what is asked can be had, and then to what is asked; a failure before the store leaves them alone |
| WireFormat.Device.constructor | driver/device.c:428-431 | a new device starts with sound totals |
| WireFormat.AcceptedIff | driver/ioctl.c:271-317 | a request passes exactly if its totals fit in 16 bits unwrapped, are pairwise distinct and the data prefix is at most 4096 |
| WireFormat.UnwrappedIff | driver/ioctl.c:301-307 | the comparison with the struct size detects exactly the wrapped sums |
| WireFormat.ValidatedIff | driver/ioctl.c:297-317 | the checks are exactly what the receive path relies on |
| WireFormat.ReportedIsRestored | driver/ioctl.c:159-179 | setting what was reported restores the sizes |
| WireFormat.JunkInRange | driver/send.c:37-46 | the multiply-shift neither wraps nor leaves the range |
| WireFormat.JunkReaches | driver/send.c:37-46 | every length in the range is drawn by some number |
| WireParsing.FrameHandshake | driver/send.c:62-99 | the datagram is random prefix and message, of the configured total length, with the message aligned |
| WireMessages.MessageArrives | driver/messages.h:113-139 | what the senders write, field by field with types 1, 2 and 3, is taken by the receiver for the message it is and read back field by field, if all of it is in the first buffer, and is dropped otherwise |
| WireParsing.HandshakeParsedBack | driver/receive.c:521-600 | a framed handshake message comes back with its kind and bytes if all of it is in the first buffer, and is dropped otherwise |
| WireParsing.DataParsedBack | driver/receive.c:600-621 | a framed data message comes back as data if and only if its headers are in the first buffer and its length is no handshake total, or is one, all of it is in the first buffer and that handshake's type does not stand where its header would be |
| WireParsing.Datagram.PrepareNetBufferListHeader | driver/receive.c:517-621 | the buffer is advanced in place as the classification says |
| WireData.DataArrives | driver/send.c:265-332 | a framed data message, over any chain of buffers, is found with its header if and only if its headers are in the first buffer and it does not collide; the receiver then reads the index and the nonce that were written, and what follows opens to the data and its padding |
| WireData.HeaderReads | driver/send.c:281-283 | the type, the index and the nonce that are read in a header are 4, the receiver's index and the nonce it was made for |
| WireData.ReceiveData | driver/receive.c:477-485 | parsing, looking up the keypair by the index read and decrypting over the chain: the data exactly in that case, if the index leads to a keypair with the sender's key that can be used, and nothing if it leads to none |
| WireData.DecryptPacket | driver/receive.c:188-219 | succeeds exactly if the key is valid, not expired and below its message limit and what follows opens with the nonce of the header; a key that is not is marked invalid |
| WireData.NetBuffer.EncryptPacket | driver/send.c:265-332 | prefix, header and the sealed padded data; type, index and nonce are where the receiver reads them; the buffers are as before; it fails exactly if they are too short |
| WireData.NetBuffer.FindLast | driver/send.c:290-302 | the buffer where the data ends and how much of it is needed |
| WireData.PaddingFits | driver/send.c:242-260 | the padding is at most 15 bytes and fills the last unit to the next multiple of 16, or to the MTU if that comes first |
| WireData.SendingKey.AssignNonces | driver/send.c:526-539 | one sender: consecutive nonces, none used before under the key, all below the limit; or the key is given up |
| WireData.NoncesApart | driver/send.c:526-539 | several senders whose increments of one counter interleave in any order: each gets increasing nonces and no two the same one |

## Left out

- api/, example/, setupapihost/, driver/nsi.c, driver/socket.c and the dispatch code: calls into foreign code.
- The AMD64 assembly paths of ChaCha20 and Poly1305; the portable branches are modelled.
- Weak memory ordering: interleavings are sequentially consistent, at the granularity of single interlocked operations, shared stores and locked sections.
- XChaCha20Poly1305, HChaCha20, BLAKE2s and SipHash; the handshake treats hashes as symbols.
- The Montgomery ladder, FeMul121666 and FeCswap; the field operations it is built from are modelled.
- Failures of mapping an MDL, and what secure zeroing and constant time are for.
- FieldInvert.FeLooseInvert: states the exponent; that the power is the inverse is Fermat's theorem, which is not proved.
- AllowedIpsTable.AllowedIpsTable.RemoveByPeer: a peer's list is a set of nodes; the order of its links is not modelled.
- AllowedIpsTable.AllowedIpsTable.Add: nodes live in a heap of maps from identities, one field a map, so that single stores can be interleaved with readers.
- AllowedIpsLookups.AddIsAtomic: one update at a time; a lookup that spans two updates need not match any one state, and the source promises nothing there.
- ChaCha20Poly1305.EncryptMdl: the start must lie inside the chain, as the callers guarantee; with a start at its end the source reads a NULL buffer.
- PipelineVerdicts.DeliveredInOrder: what CounterValidate answers is an outcome of the step, as decryption is (`ReplayWindow` has the answers); going up means being handed to PacketConsumeDataDone, whose own refusals are not modelled.
- WireData.ReceiveData: the index table searched is that of one peer.
- Keypairs.SessionsFit: each operation is one step, NoiseHandshakeBeginSession too (KeypairWindow takes its sections apart), and the index table is that of one peer; expiry of keys by time is not modelled.
- NoiseHandshake.DhCommutes: says it of symbolic points only; the ladder that computes an agreed point, and that it does not depend on the order, are not modelled.
- NoiseRuns.HandshakeAgrees: each handshake function is one step (NoiseWindow takes the sections of NoiseHandshakeConsumeInitiation apart); cookies, the two MACs and timers are not modelled.
- NoisePeer.AwgDevice.NoiseHandshakeConsumeResponse: the state is not changed between its two locked sections.
- Rcu.GracePeriod: processors are not added while the driver runs, and RcuUnload is not modelled.
- ReplayWindow.ReplayCounter.CounterValidate: words have 64 bits, as arithmetic.h defines BITS_PER_POINTER.
- RatelimiterIdeal.SweepsUnobservable: packets turned away for want of room or memory are not among the answers compared; the sweep of RatelimiterUnload is not modelled.
- RatelimiterTable.Table.RatelimiterAllow: no other thread comes between its sections; the interleaved form is Ratelimiter.
- WireFormat.Device.SetInterface: listen port, private key and peers are only whether they succeed.
- WireData.NetBuffer.EncryptPacket: the buffers of a packet are a value that the method replaces and restores, not linked MDLs.
- Statistics, timers, logging, teardown of worker threads, and SocketSendNblsToPeer.
