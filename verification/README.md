# A verification model of the bundle protocol agent

A Dafny model of the ns-3 bundle protocol module: the version 6 agent (RFC 5050)
with its bundle store, and the wire formats of versions 6 and 7. `dafny verify
dfyconfig.toml` checks everything.

## What is modelled

**The agent as a step machine.** `Bundles` and `Agent` state what `Send`,
`Forward`, `ProcessBundle`, `EnqueueForDeliveryToApplication`, `Deliver`,
`SendCustodySignal`, `Receive`, `ClaReady`, retransmission and expiry do to an
agent: its bundle objects, its ordered store, its event queue, its registrations
and routes. `BundleStore.dfy`, `BpAgent6.dfy` and `StaticRouting.dfy` hold the
classes that do it in place, loop by loop; each method is proved equal to its
specification through the abstraction `Abs()`.

`Network` runs any number of such agents over a channel that is the set of all
octet strings ever sent: an arrival takes any of them, any number of times, in
any order, and one that never arrives is lost. Arriving octets go through the
wire decoder. Two histories are kept: what was given to `Send` under each key
(source, timestamp, sequence number), and which octets of it reached an agent
where the destination is registered.

The results about runs, hardest first:

* `EndToEnd.ReceivedAsSent`: what `Receive` returns is what was given to `Send`.
* `CustodyRelease.CustodySafe`: custody ends only by expiry, by a local
  `Receive`, or when every octet has arrived.
* `CustodyTimers.TimersAgree`: no custody bundle is stranded or timed twice, and
  `SendKeepsTimers` says exactly which call of `Send` breaks that.
* `Faults.NoFault`: no step of such a run follows a cleared pointer or reads past
  the end of a record, if bundles have room for a custody signal; `SignalArrival`
  says exactly when one has.
* `Completeness.WholeIffExtending`: which orders of arrival reassemble, exactly,
  and `GapOrderExample`, one that does not; `OneBundleIffExtending` allows
  repeated fragments.
* `QueueOrder.DeliveredInOrder`: deliveries come by priority, time and sequence
  number at every agent, although the store's full order can be broken.
* `AckProgress.RoundsRelease` and `CustodyNetwork.RoundReleases`: when the stream
  of signals releases custody, and that it does through both agents and the channel.
* `Drain.ClaReadyDrains`, `AckProgress.RoundsToRelease`, `Accounting.BooksAgree`,
  `Tiling.ForwardTiles`.

`Integrity`, `CustodySafety`, `Custodial`, `Soundness` and `Gaps` hold the
invariants these rest on, step by step.

**The wire formats.** SDNVs (section 4.1 of RFC 5050), the version 6 primary
block with its dictionary (section 4.5.1 of RFC 5050) and its CBHE variant, the
payload block in its frame of six octets, custody signals, CBOR heads (section 3
of RFC 8949), the version 7 primary and canonical blocks (section 4.3 of RFC
9171) and the whole version 7 bundle. For each there is an encoding function, a
decoding function, a round trip with any octets behind it, and the buffer-writing
and iterator-reading methods proved equal to the two functions.

## How a run is restricted

* A *direct* run never reuses a key (two agents sending under one source, or 2^32
  ADUs in one second would), sends no agent its own ADUs for delivery, and brings
  no fragment to an agent that would have to relay it. `Tiling.RelayKeepsPlaces`
  says exactly which relayed bundles keep their place.
* A *disciplined* run is a direct one whose applications do not address the
  agents' own endpoints.
* A *prompt* run makes no call of `Send` of the kind `SendKeepsTimers` excludes;
  it may use any channel.
* `QueueOrder` asks for stored sequence numbers within half their range of each
  other, where the simulator's comparison is that of numbers
  (`Delivery.SequenceOrder`).

## Where the code and its documentation disagree

The code is followed.

* `bp/README.txt` says that fragments are not reassembled before delivery. They
  are, as far as each arrival extends a stored run at its head or tail.
* The same file says that offset and extent are not checked in custody signals.
  They are kept, and decide when custody is released.

## Model

| member | source | states |
|---|---|---|
| `EndToEnd.ReceivedAsSent` | bp/model/bp-agent-6.cc:184-285 | in every run over a direct channel, whatever is lost, duplicated or reordered and whatever the bundle sizes, the ADU a `Receive` returns for an endpoint is the very one an earlier step gave to `Send` for that endpoint, under the source, timestamp and sequence number of the bundle taken out |
| `EndToEnd.RunKeepsInv` | bp/model/bp-agent-6.cc:100-182 | in every state of such a run each stored bundle is its agent's own original or exactly the slice [offset, offset + size) of the original its header says, is taken for whole only when that slice is the whole, and every octet string on the channel decodes to such a slice |
| `EndToEnd.StepKeepsInv` | bp/model/bp-agent.cc:252-294 | one step of one agent, of the clock or of the configuration keeps that invariant: send, arrival, timer, adapter ready, receive |
| `EndToEnd.ReceiveIsWhole` | bp/model/bp-bundle-store.cc:89-106 | `Receive` takes out a bundle of an ADU sent to that endpoint and returns all of that ADU |
| `EndToEnd.LogIsHistory` | bp/model/bp-agent-6.cc:53-98 | what the history records under a key was given to `Send` under that key at an earlier step of the run |
| `Faults.NoFault` | bp/model/bp-agent-6.cc:184-248 | in runs whose applications do not address the agents' own endpoints, whose sending endpoints have texts of at most L octets and whose bundle sizes are at least L + 32, no step reads a record past its end, follows a pointer cleared by `DoDispose`, or forwards with bundle size 0 |
| `Faults.SignalArrival` | bp/model/bp-agent-6.cc:190-256 | the arrival at its agent of a packet of a custody signal is without fault if and only if the signal's record fits the sender's bundle size; otherwise every packet of it is a fragment, which is disposed of as a record and then coalesced |
| `CustodyRelease.CustodySafe` | bp/model/bp-agent-6.cc:205-225 | a step after which a bundle is no longer stored in custody is its expiry, a `Receive` on its own agent that takes it out, or an arrival after which every octet [0, aduLength) of it has reached an agent where its destination is registered, under any loss, duplication and reordering of fragments and signals |
| `CustodySafety.RunKeepsSafe` | bp/model/bp-agent-6.cc:318-343 | in every state of such a run the recorded range of every custodian, every fragment away from its origin and every signal stored or on the channel covers only octets that arrived, also after coalescing grew the fragment |
| `CustodySafety.AcknowledgeCovered` | bp/model/bp-agent-6.cc:211-220 | merging a range of arrived octets into a list of ranges of arrived octets leaves only ranges of arrived octets |
| `CustodyTimers.TimersAgree` | bp/model/bp-agent-6.cc:135-181 | in every state of every run, on any channel, without a `Send` of the kind `SendKeepsTimers` excludes: each stored bundle in custody either is forward-pending or has a live retransmission timer and not both, its timer is the only one it has, and no bundle outside a store has one |
| `CustodyTimers.SendKeepsTimers` | bp/model/bp-agent-6.cc:86-95 | the timers stay in order over a call of `Send` if and only if it is not asked to take custody of an already expired ADU that a ready adapter can take at once |
| `CustodyTimers.ExpiredCustodyExample` | bp/model/bp-agent-6.cc:140-147 | a concrete call of the excluded kind: the bundle is not stored and yet has a retransmission timer |
| `CustodyTimers.ExpiryAgrees` | bp/model/bp-bundle-store.cc:31-65 | in every state of every run a bundle is stored at most once and has a live expiry event exactly when it is stored with a non-zero lifetime |
| `QueueOrder.OneRangeThroughout` | bp/model/bp-agent-6.cc:211-220 | in every state of every run no bundle has more than one acknowledged range |
| `AckProgress.OneRange` | bp/model/bp-agent-6.cc:214-220 | a range merged into a list of at most one leaves exactly one |
| `AckProgress.FirstRound` | bp/model/bp-agent-6.cc:211-225 | from an empty list one in-order round of per-fragment signals releases custody |
| `AckProgress.RoundsToRelease` | bp/model/bp-agent-6.cc:211-225 | from a range that begins at fragment i custody is released after n in-order rounds if and only if n is at least max(1, i) |
| `AckProgress.HearIsSettled` | bp/model/bp-agent-6.cc:209-225 | the step those rounds repeat is what a signal does to a stored bundle, down to its disposal |
| `AckProgress.RoundsRelease` | bp/model/bp-agent-6.cc:153-170 | of a non-empty ADU below 2^32 octets, in-order rounds of the signals for the packets `Forward` makes, one round or any number, release custody from an empty list if and only if the ADU is larger than the bundle size |
| `CustodyNetwork.RoundReleases` | bp/model/bp-agent-6.cc:205-343 | in a run over a direct channel: consecutive steps take the fragments of an ADU off the channel where it is awaited, in the order they were sent, and the next ones take the custody signals handed over in answer off the channel at the custodian, in that order, as packets with administrative records that are decoded, parsed and processed; the custodian then no longer stores the bundle |
| `CustodyNetwork.AnswerAcknowledges` | bp/model/bp-agent-6.cc:311-343 | what a landing hands to the adapter, when its bundle still has the header and octets it came with, is the wire form of a custody signal for the custodian that acknowledges exactly that fragment |
| `CustodyNetwork.HeardAt` | bp/model/bp-agent-6.cc:184-225 | the arrival of such octets at the custodian turns its record of what was acknowledged into the one merged with that range, and drops the bundle when it is complete |
| `CustodyRound.InOrderReleases` | bp/model/bp-agent-6.cc:205-332 | through both agents: the fragments of an ADU arrive in the order they were sent, the signals made for them after coalescing are processed in that order, and the custodian then no longer stores the bundle |
| `CustodyRound.InOrderUnchanged` | bp/model/bp-agent-6.cc:303-327 | for fragments arriving in order the bundle a signal is made from, after coalescing, still has the header and the octets it came with |
| `CustodyRound.HeardAll` | bp/model/bp-agent-6.cc:208-225 | after any sequence of signals for the only stored bundle of its ADU, the bundle is still stored if and only if merging their ranges one by one never made the record [0, aduLength) |
| `CustodyRound.LandAnswers` | bp/model/bp-agent-6.cc:311-342 | the landing of a fragment with custody sends the signal made from its bundle after coalescing |
| `AckProgress.TileSignal` | bp/model/bp-agent-6.cc:318-332 | the signal made from a fragment's bundle as it arrived acknowledges exactly that fragment's octets |
| `AckProgress.WholeIsNeverReleased` | bp/model/bp-agent-6.cc:326 | the signal for a bundle that is not a fragment acknowledges [0, 0), so repeated any number of times it never releases a non-empty ADU |
| `Tiling.ForwardTiles` | bp/model/bp-agent-6.cc:153-170 | forwarding n octets with bundle size s > 0 emits ceil(n / s) non-empty packets; packet i carries the octets from i * s on, s of them but for the last, and its header says so; the fragment flag is set exactly when n > s; no other field changes; the payloads in a row are the ADU |
| `Tiling.TilesIsLeast` | bp/model/bp-agent-6.cc:156-159 | that number of packets is the least whose bundles can hold n octets |
| `Tiling.RelayKeepsPlaces` | bp/model/bp-agent-6.cc:154-163 | forwarding a slice keeps every packet's place in the original, whatever the original is, if and only if the slice begins at offset 0 and is either cut again or whole; every other relayed fragment is mislabelled |
| `Tiling.NotAtTheFront` | bp/model/bp-agent-6.cc:158 | a relayed slice that does not begin at offset 0 is mislabelled for some original |
| `Reassembly.Reassembles` | bp/model/bp-agent-6.cc:256-283 | if every fragment after the first extends the stored run at its head or tail and all have arrived, exactly one bundle of the ADU is stored, it is no fragment any more, and `Receive` returns the original ADU unless another one waits for the same endpoint |
| `Reassembly.OneRunThroughout` | bp/model/bp-agent-6.cc:256-283 | after every such arrival exactly one bundle of the ADU is stored and it holds what has arrived |
| `Reassembly.InOrder` | bp/model/bp-agent-6.cc:264-270 | the fragments `Forward` makes, arriving in order, extend the run each time and end as the whole ADU |
| `Reassembly.Reverse` | bp/model/bp-agent-6.cc:271-277 | so do the fragments in reverse order |
| `Completeness.WholeIffExtending` | bp/model/bp-agent-6.cc:256-283 | the fragments of an ADU, each octet in exactly one, land in any order, each once, at an agent that waits for it and whose store is sorted: the ADU ends stored whole, alone and unfragmented if and only if each fragment after the first extends the one stored run at its head or tail |
| `Completeness.OneBundleIffExtending` | bp/model/bp-agent-6.cc:256-283 | for any fragments of an ADU, repeated or not and in any order, landing at an agent that waits for it: after every landing exactly one bundle of the ADU is stored, with a run of its octets, if and only if each fragment after the first extends the run stored so far at its head or tail |
| `Completeness.LostComesBack` | bp/model/bp-agent-6.cc:264-270 | after a landing has closed a gap and lost the run behind it, a second landing of a fragment that begins there extends the run that was left |
| `Completeness.GapOrderExample` | bp/model/bp-agent-6.cc:264-274 | at an agent just started the fragments of a three-octet ADU arrive in the order first, third, second: `Receive` returns nothing, and only the first two octets are stored |
| `Gaps.BridgingLoses` | bp/model/bp-agent-6.cc:264-274 | whenever a landing closes the gap between two stored runs, the run in front grows by what arrived and the run behind is stored no more |
| `Gaps.LoopOutcome` | bp/model/bp-agent-6.cc:260-282 | in a sorted store the coalescing loop does two things at most: the run that ends where the new fragment begins takes it, then the new bundle takes the run that begins where it ends |
| `Gaps.LandSorted` | bp/model/bp-agent-6.cc:184-343 | a landing, with the custody signal it may send, keeps the store sorted |
| `Drain.ClaReadyDrains` | bp/model/bp-agent.cc:387-397 | through a ready adapter the snapshot is exactly the forward-pending stored bundles routed to it, each once; each is forwarded once although the store shrinks meanwhile; nothing else changes; afterwards no stored bundle routed to it is forward-pending |
| `Drain.ClaNotReady` | bp/model/bp-agent.cc:387-397 | called for an adapter that is not ready it sends nothing and the same bundles keep waiting |
| `Delivery.BeforeTotal` | bp/model/bp-bundle-store.h:38-54 | on bundles whose sequence numbers lie within half their range of each other the comparator never holds both ways, and holds one way between any two objects |
| `Delivery.BeforeTransitive` | bp/model/bp-bundle-store.h:38-54 | the comparator is transitive on bundles whose sequence numbers lie within half their range of each other |
| `Delivery.SequenceOrder` | bp/model/bp-bundle-store.h:46-47 | the comparison of two sequence numbers agrees with their order if and only if they are at most half the range apart |
| `Delivery.SequenceCycle` | bp/model/bp-bundle-store.h:46-47 | three sequence numbers further apart that the comparison puts in a circle |
| `Delivery.FirstIsLeast` | bp/model/bp-bundle-store.cc:89-106 | in a sorted store `GetAndRemoveBundle` takes the least of the bundles that qualify |
| `QueueOrder.DeliveredInOrder` | bp/model/bp-agent.cc:284-294 | at any agent in any state of any run whose stored sequence numbers lie within half their range of each other: with no arrivals in between, as many calls of `Receive` as there are whole bundles for an endpoint return each of their ADUs once, by priority and within one priority by timestamp and sequence number, take out those bundles and no other, and the next call returns nothing |
| `QueueOrder.RunOrderly` | bp/model/bp-bundle-store.h:38-54 | in every state of such a run no stored bundle stands behind one it precedes by priority, timestamp and sequence number, although `Forward` rewrites the offsets of stored bundles |
| `Delivery.ReceivedInStoreOrder` | bp/model/bp-bundle-store.cc:89-106 | repeated calls of `Receive` hand out the whole bundles for an endpoint in store order, each once |
| `Delivery.FoundIsItself` | bp/model/bp-bundle-store.cc:70 | among bundles with near sequence numbers and addresses of their own the comparator takes no two for the same |
| `Accounting.BooksAgree` | bp/model/bp-bundle-store.cc:31-77 | over every run of `Store`, `Remove`, `Expire` and `GetAndRemoveBundle` from an empty store, each bundle stored once: the byte counter is the sum of the stored ADU sizes, the high-water mark is the greatest size reached, and a bundle has a live expiry event exactly when it is stored with non-zero lifetime |
| `Accounting.RunSorted` | bp/model/bp-bundle-store.h:56 | over such a run the store stays sorted by the comparator while the stored sequence numbers stay within half their range |
| `Integrity.CoalesceOk` | bp/model/bp-agent-6.cc:261-282 | the coalescing loop keeps every bundle an exact slice, and clears a fragment flag only on the whole ADU |
| `Integrity.ForwardOk` | bp/model/bp-agent-6.cc:100-182 | `Forward` keeps the invariant and hands only exact slices to the adapter |
| `Soundness.StoreSound` | bp/model/bp-bundle-store.cc:31-51 | `Store` of a new bundle keeps the store, the bundles' event handles and the event queue in agreement |
| `Soundness.DropSound` | bp/model/bp-bundle-store.cc:67-77 | `Remove` followed by `DoDispose` keeps them in agreement, leaves no live event of the bundle and touches no other bundle |
| `Wire6.RoundTrip` | bp/model/bp-cla.cc:135-160 | for every header the agent builds (endpoints "scheme:ssp", block length below 2^28) the receiving adapter hands back every header field the agent reads, the lifetime in whole seconds, and exactly the slice that was sent |
| `Cla6.AddBlockHeader` | bp/model/bp-cla.cc:147 | the payload block's header lands in a frame of six octets in front of the payload |
| `Cla6.SendBundle` | bp/model/bp-cla.cc:135-160 | the packet is the encoded primary block, the framed payload header and the octets [offset, offset + length) of the ADU |
| `Cla6.DataRecv` | bp/model/bp-cla.cc:205-243 | both headers are taken off with the sizes they report, and what is left is the payload |
| `Header6.WireRoundTrip` | bp/model/bp-header-6.cc:75-208 | decoding an encoded primary block, with any octets behind it, restores every field (the lifetime in whole seconds) and stops exactly behind it, with and without CBHE |
| `Header6.EidsSurviveTheWire` | bp/model/bp-header-6.cc:198-202 | what every `Get*Eid` answers is the same after serialising and deserialising |
| `Header6.GetterGivesLastSet` | bp/model/bp-header-6.cc:285-443 | after any sequence of the four `Set*Eid` calls with NUL-free parts, and a dictionary below 65536 octets, each `Get*Eid` returns the endpoint last set for that role |
| `Header6.CbheReadsBack` | bp/model/bp-header-6.cc:285-307 | under CBHE a canonical "node.service" reads back if and only if both numbers are below 65536 |
| `Header6.PriorityReadsBack` | bp/model/bp-header-6.cc:232-239 | a priority reads back if and only if it avoids the bit the mask leaves out and no other priority bit was set before |
| `Header6.ReceptionReportIsAPriority` | bp/model/bp-header-6.h:171 | a request for a reception report reads as a bit of the priority, and setting that priority requests the report |
| `Header6.FragmentFlag` | bp/model/bp-header.cc:54-62 | setting or clearing the fragment flag is read back and changes neither the custody flag nor the priority |
| `Header6.CustodyFlag` | bp/model/bp-header-6.cc:210-219 | setting or clearing the custody flag is read back and changes neither the fragment flag nor the priority |
| `Header6.BpHeader6.SetFlag` | bp/model/bp-header-6.cc:210-230 | the flag's bits take the value and every other bit is as it was |
| `Header6.BpHeader6.SetPriority` | bp/model/bp-header-6.cc:232-239 | the priority's bits join those already set; the mask clears none |
| `Header6.PriorityKeepsFlags` | bp/model/bp-header-6.cc:232-239 | setting a priority changes neither the fragment nor the custody flag |
| `Header6.BpHeader6.SetEidFor` | bp/model/bp-header-6.cc:285-372 | both parts go NUL-terminated to the end of the dictionary and the role points at them, or under CBHE the two numbers are kept in 16 bits; no other role changes |
| `Header6.BpHeader6.SerializeAndGetSize` | bp/model/bp-header-6.cc:75-159 | writes the encoding at the iterator and nothing else; a dry run writes nothing and returns the same length |
| `Header6.BpHeader6.Deserialize` | bp/model/bp-header-6.cc:174-208 | the fields become what the decoder specification reads, and the size returned is the distance read |
| `BlockHeader6.ReadsBack` | bp/model/bp-block-header-6.cc:63-109 | both numbers of the payload block's header come back for every length of 32 bits, and the six octets are dropped |
| `BlockHeader6.PayloadSurvives` | bp/model/bp-block-header-6.cc:63-109 | every payload behind the header comes back unchanged if and only if both numbers fit into the five octets behind the block type |
| `BlockHeader6.ShortFieldsFit` | bp/model/bp-block-header-6.cc:63-67 | flags below 128 and a length below 2^28 fit |
| `BlockHeader6.BpBlockHeader6.Serialize` | bp/model/bp-block-header-6.cc:76-94 | writes the type and the two numbers, however many octets they take |
| `BlockHeader6.BpBlockHeader6.Deserialize` | bp/model/bp-block-header-6.cc:97-109 | reads the two numbers and reports six octets |
| `CustodySignal.RoundTrip` | bp/model/bp-custody-signal.h:45-84 | status, fragment offset and length, creation timestamp, sequence number and source come back for all values, whatever follows |
| `CustodySignal.RecordRoundTrip` | bp/model/bp-admin-record.h:42-50 | a signal sent as an administrative record, fragment flag or not, is read as that signal |
| `CustodySignal.CustodySignalHeader.Encode` | bp/model/bp-custody-signal.h:45-64 | the result is the status octet, six SDNVs and the source text |
| `CustodySignal.CustodySignalHeader.Deserialize` | bp/model/bp-custody-signal.h:72-84 | the fields become what the decoder specification reads, the time a thousandth of it, and the size returned is that of the header so read |
| `CustodySignal.SizeReturned` | bp/model/bp-custody-signal.h:66-84 | that size is the number of octets the sender wrote if and only if the time of the signal is below 128 seconds; otherwise it is less |
| `Sdnv.RoundTrip` | bp/model/sdnv.cc:41-102 | for every 64-bit number and any suffix, decoding the encoding gives the number and stops exactly behind it |
| `Sdnv.LengthIsMinimal` | bp/model/sdnv.cc:41-66 | n octets suffice if and only if the number has at most 7n bits |
| `Sdnv.AtMostTen` | bp/model/sdnv.cc:41-66 | a 64-bit number takes one to ten octets |
| `Sdnv.CanonicalWords` | bp/model/sdnv.cc:41-102 | re-encoding the value of a one-number word gives the word back if and only if it has no leading 0x80 octet |
| `Sdnv.ParseIsValue` | bp/model/sdnv.cc:69-102 | on any one-number word, canonical or not, decoding gives its value modulo 2^64 and consumes the word |
| `Sdnv.Encode` | bp/model/sdnv.cc:41-66 | the octets pushed least significant first and reversed in place are the number's encoding |
| `Sdnv.DecodeVector` | bp/model/sdnv.cc:69-85 | it returns the value, modulo 2^64, of the octets up to the first that ends a number, or of all if none does |
| `Sdnv.WordValue` | bp/model/sdnv.cc:69-102 | where a number can be read off the front, that value is the number |
| `Sdnv.EncodingIsOneNumber` | bp/model/sdnv.cc:41-66 | of an encoding exactly the last octet has its high bit clear |
| `Sdnv.DecodeIterator` | bp/model/sdnv.cc:87-102 | it returns the next number and leaves the iterator exactly behind it |
| `Endpoint.PartsAndUri` | bp/model/bp-endpoint-id.cc:32-127 | on a URI "scheme:ssp" both constructors agree, and scheme and ssp are what stands on either side of the first colon |
| `Endpoint.TakeApart` | bp/model/bp-endpoint-id.cc:32-66 | an endpoint built from non-empty parts of at most 1023 octets answers with those parts |
| `Decimal.ScanPrinted` | bp/model/bp-header.cc:224-244 | scanning "node.service" as printed gives both numbers back, below 2^31 |
| `Decimal.PrintScanned` | bp/model/bp-header.cc:224-244 | printing what was scanned from canonical decimal gives the text back |
| `Cbor.StrictIsImage` | bp/model/codec.h:173-212 | with minimal encoding required and 64-bit values, the decoder takes octets to (tag, number, rest) if and only if they are the encoder's output for that tag and number followed by that rest |
| `Cbor.LenientAgrees` | bp/model/codec.h:173-212 | whatever the strict decoder accepts the lenient one reads the same, on any trailing input |
| `Cbor.HeadRoundTrip` | bp/model/codec.h:130-212 | decoding an encoded head, strict or not and into any type wide enough, gives tag and number and stops exactly behind it |
| `Cbor.LengthIsLeast` | bp/model/codec.h:104-111 | a number gets the width n whose range [least needing n, 256^n) it lies in |
| `Cbor.UnsignedRoundTrip` | bp/model/codec.h:214-227 | `encodeUnsigned` and `decodeUnsigned` are inverse |
| `Cbor.IntegerRoundTrip` | bp/model/codec.h:244-273 | for every number from -2^64 to 2^64 - 1 and every width, `decodeInteger` into a signed type of that width undoes `encodeInteger` if and only if the type can hold the number |
| `Cbor.IntegerDecodes` | bp/model/codec.h:255-273 | what `decodeInteger` gives otherwise: the number converted to the type, and below -2^63 first raised by 2^64 |
| `Cbor.BytesRoundTrip` | bp/model/codec.h:301-321 | `encodeBytes` and `decodeBytes` are inverse, whatever follows |
| `Cbor.ArraySizeRoundTrip` | bp/model/codec.h:387-402 | `encodeArraySize` and `decodeArraySize` are inverse |
| `Cbor.Length` | bp/model/codec.h:104-111 | the loop finds how many octets the number needs behind its head, 0 when it fits into the head |
| `Cbor.EncodeTagAndValue` | bp/model/codec.h:130-171 | both switches, the second falling through, append exactly the head and return its length |
| `Cbor.PushNumber` | bp/model/codec.h:155-169 | the fallthrough switch pushes the number big-endian in the chosen width |
| `Cbor.DecodeTagAndValue` | bp/model/codec.h:173-212 | the fallthrough switch reads what the decoder specification says, returns the octets consumed, and fails exactly where that does |
| `Cbor.SwitchOn` | bp/model/codec.h:184-211 | the case entered by the head octet accumulates the octets announced and, when asked to, refuses a number that fits a narrower case |
| `Cbor.EncodeInteger` | bp/model/codec.h:244-253 | appends the encoding and returns its length |
| `Cbor.DecodeInteger` | bp/model/codec.h:255-273 | returns the converted number and the octets consumed, or fails exactly where the specification does |
| `Cbor.EncodeBytes` | bp/model/codec.h:301-306 | appends the byte string and returns its length |
| `Cbor.DecodeBytes` | bp/model/codec.h:308-321 | returns the byte string and the octets consumed, or fails exactly where the specification does |
| `Header7.DtnRoundTrip` | bp/model/bp-header-7.cc:287-330 | a dtn endpoint comes back with exactly its octets consumed if and only if it is not "none" |
| `Header7.DtnDecodes` | bp/model/bp-header-7.cc:319-327 | "none" comes back as "0" |
| `Header7.IpnRoundTrip` | bp/model/bp-header-7.cc:287-330 | an ipn endpoint in canonical decimal below 2^31 comes back through scan, two CBOR numbers and print |
| `Header7.LengthReported` | bp/model/bp-header-7.cc:287-305 | `EncodeEID` reports the octets it wrote if and only if they are fewer than 256 |
| `Header7.SizeIsReported` | bp/model/bp-header-7.cc:72-121 | the dry-run size is the number of octets written if and only if every encoded endpoint is shorter than 256 octets; otherwise it is less |
| `Header7.SetterSurvives` | bp/model/bp-header-7.cc:184-330 | an endpoint given to a setter comes back from the wire as given if and only if it is an ipn endpoint in canonical decimal or a dtn endpoint other than "dtn:none" |
| `Header7.SetterFaithful` | bp/model/bp-header-7.cc:184-234 | the code and ssp a setter keeps survive the wire if and only if it was given an ipn endpoint or an ssp other than "none" |
| `Header7.WireRoundTrip` | bp/model/bp-header-7.cc:72-165 | decoding an encoded primary block, whatever follows, restores version, flags, endpoints, timestamp, sequence, lifetime in whole milliseconds and, exactly when the flag is set, the fragment fields, and stops exactly behind it |
| `Header7.EncodeEID` | bp/model/bp-header-7.cc:287-305 | appends the endpoint's encoding and returns its length modulo 256 |
| `Header7.DecodeEID` | bp/model/bp-header-7.cc:307-330 | returns code, ssp and octets consumed, or fails exactly where the specification does |
| `Header7.BpHeader7.SerializeAndGetSize` | bp/model/bp-header-7.cc:72-108 | writes the encoding at the iterator and nothing else; a dry run writes nothing and returns the same size |
| `Header7.BpHeader7.Deserialize` | bp/model/bp-header-7.cc:123-165 | the fields become what the decoder specification reads and the size is the octets consumed, or it fails exactly where that does |
| `BlockHeader7.WireRoundTrip` | bp/model/bp-block-header-7.cc:106-168 | decoding an encoded canonical block with CRC type 0 restores its fields and stops exactly behind it |
| `BlockHeader7.BpBlockHeader7.SerializeAndGetSize` | bp/model/bp-block-header-7.cc:106-124 | writes the encoding; a dry run writes nothing and returns the same size |
| `BlockHeader7.BpBlockHeader7.Deserialize` | bp/model/bp-block-header-7.cc:146-168 | the fields become what the decoder specification reads |
| `Cla7.BundleRoundTrip` | bp/model/bp-cla.cc:260-347 | a bundle sent and received has every field of both headers back (lifetime in whole milliseconds, fragment fields exactly for a fragment) and exactly the slice of the ADU its header names |
| `Cla7.WriteHeaders` | bp/model/bp-cla.cc:266-278 | the buffer made from the dry-run sizes is filled exactly by the opening octet and the two headers |
| `Cla7.SerializeBundle` | bp/model/bp-cla.cc:260-309 | the packet is the opening octet, both headers, the payload slice as a byte string, and the closing octet |
| `Cla7.RemoveHeaders` | bp/model/bp-cla.cc:317-320 | each header is removed with the size it reports, or decoding fails |
| `Cla7.DeserializeBundle` | bp/model/bp-cla.cc:311-347 | headers and ADU are what the decoder specification reads, or decoding fails exactly where that does |
| `BundleObjects.Bundle6.ClearEvents` | bp/model/bp-bundle-6.cc:74-80 | of the event queue exactly the bundle's expiry event (if it has a lifetime) and retransmission timer (if it has custody) are gone |
| `BundleObjects.Bundle6.DoDispose` | bp/model/bp-bundle-6.cc:45-52 | ADU and ranges are dropped, the bundle's events cancelled, its other fields kept |
| `BundleObjects.BundleStore.Store` | bp/model/bp-bundle-store.cc:31-51 | the new world is that of the specification whose invariants are proved: an expired bundle is not stored, one with a lifetime gets its expiry event, the store is in order, both counters are up to date |
| `BundleObjects.BundleStore.InsertHere` | bp/model/bp-bundle-store.cc:46 | the bundle comes in front of the first one the comparator puts behind it |
| `BundleObjects.BundleStore.Remove` | bp/model/bp-bundle-store.cc:67-77 | the bundle's events are cancelled, and if stored it is taken out and its size taken off the counter |
| `BundleObjects.BundleStore.Expire` | bp/model/bp-bundle-store.cc:59-65 | removed, then disposed of |
| `BundleObjects.BundleStore.GetAndRemoveBundle` | bp/model/bp-bundle-store.cc:89-106 | returns the ADU of the first bundle for the endpoint, fragments passed over unless asked for, and takes it out; otherwise changes nothing |
| `BundleObjects.BundleStore.GetBundles` | bp/model/bp-bundle-store.cc:120-129 | returns exactly the stored bundles under the key, in store order; `GetBundle` is the first of them |
| `AgentObject.BpAgent6.constructor` | bp/model/bp-agent.cc:48-92 | an agent with an empty store and a bundle size of 512 |
| `AgentObject.BpAgent6.Register` | bp/model/bp-agent.cc:150-182 | adds the registration; a duplicate is the caller's fault |
| `AgentObject.BpAgent6.SetState` | bp/model/bp-agent.cc:184-224 | makes an existing registration passive or active, or returns -1 and changes nothing |
| `AgentObject.BpAgent6.Close` | bp/model/bp-agent.cc:232-250 | removes the registration, or returns -1 |
| `AgentObject.BpAgent6.OutgoingCla` | bp/model/bp-agent.cc:380-385 | the adapter of the next hop's own route, none for "dtn:none" |
| `AgentObject.BpAgent6.SendLoop` | bp/model/bp-agent-6.cc:156-170 | the loop over bytesLeft terminates and hands over exactly the packets `Tiling.ForwardTiles` is about |
| `AgentObject.BpAgent6.Forward` | bp/model/bp-agent-6.cc:100-182 | the agent and the packets sent become those of the specification, in both outcomes: retention bits, timer, loop, removal |
| `AgentObject.BpAgent6.Send` | bp/model/bp-agent-6.cc:53-98 | returns -1 and changes nothing for an unregistered source; otherwise builds the header, stores, forwards and returns 0 |
| `AgentObject.BpAgent6.MergeRange` | bp/model/bp-agent-6.cc:214-219 | the loop changes the ranges in place to the merged list of the specification |
| `AgentObject.BpAgent6.Settle` | bp/model/bp-agent-6.cc:211-225 | the range is recorded, and the bundle removed and disposed of exactly when that is [0, aduLength) |
| `AgentObject.BpAgent6.ProcessSignal` | bp/model/bp-agent-6.cc:202-232 | a successful signal settles the first stored bundle under its key; every other one changes nothing |
| `AgentObject.BpAgent6.Join` | bp/model/bp-agent-6.cc:266-270 | the front bundle holds both runs, the back one leaves the store, the flag is cleared exactly on the whole ADU |
| `AgentObject.BpAgent6.Match` | bp/model/bp-agent-6.cc:264-280 | one turn of the loop: joined at the tail, else at the head, else untouched |
| `AgentObject.BpAgent6.MatchAll` | bp/model/bp-agent-6.cc:256-283 | the loop over the snapshot, though the store changes under it |
| `AgentObject.BpAgent6.Enqueue` | bp/model/bp-agent-6.cc:184-285 | an administrative record is processed and dropped, a fragment coalesced, anything else left in the store |
| `AgentObject.BpAgent6.SendCustodySignal` | bp/model/bp-agent-6.cc:318-343 | a signal with the delivered bundle's place, size and key is sent to its custodian |
| `AgentObject.BpAgent6.Deliver` | bp/model/bp-agent-6.cc:287-316 | enqueued if the registration is active, then a signal is sent if custody is requested |
| `AgentObject.BpAgent6.Dispatch` | bp/model/bp-agent.cc:371-378 | delivered to a registered endpoint, otherwise forwarded |
| `AgentObject.BpAgent6.ProcessBundle` | bp/model/bp-agent.cc:252-282 | stored as dispatch-pending, then dispatched |
| `AgentObject.BpAgent6.Receive` | bp/model/bp-agent.cc:284-294 | returns what the store takes out and counts it |
| `AgentObject.BpAgent6.ForwardPendingBundles` | bp/model/bp-bundle-store.cc:131-139 | exactly the forward-pending bundles routed to the adapter, in store order |
| `AgentObject.BpAgent6.ForwardEach` | bp/model/bp-agent.cc:392-395 | every bundle of the snapshot is forwarded once although `Forward` changes the store |
| `AgentObject.BpAgent6.ClaReady` | bp/model/bp-agent.cc:387-397 | the agent and the packets become those `Drain.ClaReadyDrains` is about |
| `AgentObject.BpAgent6.Retransmit` | bp/model/bp-agent-6.cc:146 | the event that ran is gone and the bundle is forwarded |
| `AgentObject.BpAgent6.Expire` | bp/model/bp-bundle-store.cc:38 | the event that ran is gone and the bundle expires |
| `StaticRouting.FirstUpIs` | bp/model/bp-static-routing-agent.cc:82-101 | a look-up finds the first route that is up |
| `StaticRouting.NoneUpIs` | bp/model/bp-static-routing-agent.cc:82-101 | a look-up finds nothing if and only if no route is up |
| `StaticRouting.UpThenDown` | bp/model/bp-static-routing-agent.cc:103-128 | setting a route up makes its destination reachable; setting it down again gives the list as it was |
| `StaticRouting.BpStaticRoutingAgent.AddRoute` | bp/model/bp-static-routing-agent.cc:51-68 | the route is appended to its destination's list |
| `StaticRouting.BpStaticRoutingAgent.NextHopEid` | bp/model/bp-static-routing-agent.cc:82-91 | the next hop of the first route up, "dtn:none" without one |
| `StaticRouting.BpStaticRoutingAgent.NextHopCla` | bp/model/bp-static-routing-agent.cc:93-101 | the adapter of the first route up, none without one |
| `StaticRouting.BpStaticRoutingAgent.SetRoute` | bp/model/bp-static-routing-agent.cc:103-128 | the first matching route, and no other, is set up or down |

## Left out

* Sockets, the TCP and UDP adapters and their attributes, tracing, logging and
  helpers: an adapter is a number that is ready or not, and takes one packet per
  bundle.
* Flow statistics, aggregate custody signals and CTEB, and the version 7 agent,
  which the repository leaves unfinished.
* Version 7 endpoint getters and CRCs: CRC type 0 only.
* The ns-3 classes: a buffer is an array of octets, a packet a sequence of them,
  and pointers compare by an address given to each object. `Time::IsPositive` is
  taken to hold of zero, and sequence numbers to compare by the sign of their
  difference in 32 bits. Payload padding in the six-octet frame is zero.
- Cla6.DataRecv: requires a packet that does not end inside a header; reading past the end of a buffer is a fault of the simulation, not a result.
- CustodySignal.CustodySignalHeader.Deserialize: requires octets for every field, as above, and keeps whole seconds of the time.
- CustodySignal.RoundTrip: the time is the number on the wire; `CustodySignalHeader.Deserialize` and `SizeReturned` say what a header makes of it.
- Endpoint.PartsAndUri: for URIs with a colon and non-empty parts; the offsets the constructor gives a URI without a colon are modelled in `FromUri`, nothing is promised of them.
- Header7.EncodeEID: an ipn ssp must scan as two numbers below 2^31; what `sscanf` leaves undefined otherwise is not modelled.
- Cbor.EncodeInteger: not for the least number of a signed type, whose negation is undefined in the source.
- Cbor.SwitchOn: reading eight octets into a narrower type shifts past its width in the source, which is undefined; the model fails there.
- Cbor.DecodeBytes: into an empty string, as every caller does; likewise `Header7.DecodeEID`. A length of 2^63 or more passes the signed comparison of the source, which then inserts a range that runs backwards, undefined in C++; the model fails there.
- Completeness.WholeIffExtending: no other traffic reaches the agent between the landings, and every fragment arrives once; `OneBundleIffExtending` and `LostComesBack` are about repeated ones.
- CustodyNetwork.RoundReleases: no other traffic comes between the arrivals of a round.
- BundleObjects.BundleStore.Remove: takes the bundle out by identity. In a store in full order that is what `std::set::find` finds (`Delivery.FoundIsItself`); a bundle whose offset `Forward` has rewritten in the store may be missed by it, depending on the shape of the tree.
- Header7.SetterSurvives: the getters of version 7 are not implemented, so the scheme that comes back is the one the code on the wire stands for.
- Accounting.BooksAgree: bundles are not resized while stored, as coalescing and the removal of a record's header do; the counter starts at 0, which the source does not set.
- AgentObject.BpAgent6.Enqueue: when an administrative record is dropped, the whole ADU's size is taken off the byte counter; the source has stripped the record's headers by then.
- AgentObject.BpAgent6.Deliver: for a registered destination, the only one `Dispatch` calls it for.
- StaticRouting.BpStaticRoutingAgent.SetRoute: for a destination that has a list of routes; the source follows an end iterator otherwise.
- AgentObject.BpAgent6.Register: lifetimes of registrations and the adapters' sockets are not kept.
- AckProgress.WholeIsNeverReleased: no liveness of custody for bundles that are not fragments; they leave by expiry.
* The event queue holds what is pending, not when it runs, so an expiry or a
  retransmission may come at any time: the results hold for every timing. Event
  numbers do not run out.
* The retransmission interval, and reports other than custody signals, which the
  agent does not send.
* `Open`, `AddCla`, start and stop of the agent, `GetBundleADU` and `DebugDump`.
