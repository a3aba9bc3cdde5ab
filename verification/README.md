# Concord, modelled in Dafny

Concord is a packet protocol: clients send packets to targets on a server, the server answers them or relays them to other
clients, and an extension adds key exchange, transport sealing between client and server, and end-to-end sealing between
clients. This project models the parts where many pieces have to fit together, and proves what they guarantee over whole
runs.

`dafny verify dfyconfig.toml` verifies everything.

## How the model is laid out

| file | what it models |
|---|---|
| `Bytes.dfy` | bytes and UTF-8 |
| `Base64.dfy`, `Json.dfy` | the wire form of a packet: base64 text in a two-field JSON object, printed and parsed |
| `Packet.dfy` | the mutable packet, its shared metadata map and the packet pool, as classes over a value view |
| `Curve.dfy` | scalar multiplication as repeated addition in any commutative group; numbers and keys as text and bytes |
| `Crypto.dfy` | AES framing over an ideal cipher, key stores, the two transforms, the key-exchange callbacks, end-to-end sealing |
| `Pipeline.dfy` | data and packet pipelines |
| `Relay.dfy` | what the server does with one received packet and with one packet to send |
| `Protocol.dfy`, `Runs.dfy` | the whole system as a step protocol over an unreliable network, with restarts: steps, invariant, every step keeps it |
| `Guarantees.dfy`, `Histories.dfy` | what holds in every run: key agreement, which datagrams are recovered, which points are stored |
| `Steady.dfy`, `EndToEnd.dfy`, `Provenance.dfy` | transparency over runs, end-to-end relay, where relayed packets come from |
| `Exchanges.dfy`, `Scenarios.dfy`, `Stuck.dfy`, `Worlds.dfy` | exchanges from any state, runs from the first state, unsealable destinations, worlds that meet all laws |
| `Lifecycle.dfy`, `Outcomes.dfy`, `Leftovers.dfy`, `Conservation.dfy` | the server's routines, interleaved at locks and channels, with the pooled packets they hold, where the text in these comes from, and what becomes of what is enqueued |
| `Dispatch.dfy` | the client's table of outstanding requests under interleaved sends and receipts |
| `Throttle.dfy` | pacing, the rate it amounts to, and the reader's reused buffer |

The curve and the cipher are parameters. `Curve.Lawful` states the group laws and `Cipher.Ideal` the laws of an ideal
authenticated cipher: what was sealed opens, nothing else does, and sealed bytes are not a packet frame. `Protocol.Sound`
adds that what is sealed under another key does not open under a key that a client shares with the server. All of them
can be met together, with any JSON decoder: in `SomeWorld` by keys that have AES lengths and differ, in `ShortWorld` by keys
none of which has an AES length. What a theorem requires of a world beyond the laws (different values for different lives,
an AES length, or the lack of one) holds in one of these two. `ReadyToRelay` and `GetsStuck` are runs from the first state to
the states from which `SecureRelay` and `NothingReaches` go on.

Clocks, sockets, address resolution, random nonces, private scalars, the choice of pooled packet, the answers of a JSON
decoder for other layouts and the order of steps are inputs, so every statement holds for all of them.

A party is an address with a number of its life. `Restart` ends a life of a client or of the server: the next one starts
with no keys, no transforms, nothing queued and the next private scalar, while datagrams of earlier lives may still
arrive. A packet of a client has a destination, which the application sets, and which decides the key it is sealed under;
it is sent to the server all the same. The server opens a datagram in one step and answers it in a later one, with the keys
it has by then; anything may happen in between.

## What the code does that one might not expect

The model follows the code. Where the code differs from what its comments or documents say, or from what one would hope
for, the difference is a lemma, and where a run is claimed to exist it starts in the first state.

- A packet from the pool keeps the data text of its previous use until it is closed. Error packets are never closed, so
  they are sent with that text (`ErrorPktOnWire`), which is that of a frame decoded or a packet closed earlier, or was in
  the pool at the start (`EnqueuedText`); and a frame without a data member decodes to it (`DatalessFrameReadsPast`).
- A client does not look at the error marks of an answer. A request for the key of an unknown address is refused with an
  error packet, and what the client makes of it is decided by the text left over in it (`ClientExchange`): it stores a
  point if that text is a public key (`RefusalBecomesKey`), and its program ends if the text is an object without both
  coordinates, such as an earlier request of the same kind (`RefusalEndsClient`). For every run, `PeerPoint` says what a
  client's point for another client is, and `WhyEnded` why a client's program has ended.
- An exchange request with a key that lacks a coordinate ends the server's program (`OneReply`; in every interleaving,
  `Outcomes.EndsExactly`). The clients of the protocol send none (`ServerGoesOn`).
- On a client the transform goes by the packet's destination, and the packet is written to the server whatever that is.
  A packet addressed to another client whose key is held is sealed for that client, and the server cannot read it
  (`Misaddressed`; the exact condition is in `ToServer`, and in terms of destinations in `ToServerByDestination`).
- A new exchange replaces the stored key, and requests are not ordered. The server has the point of whichever life's
  request it answered last (`ServerPoint`), so a late request of an earlier life takes it back, and what the later life
  has sealed is then passed on unopened (`LateRequestRollsBack`; the exact conditions are in `ToServer`,
  `ToServerExactly`, `ToClient` and `ToClientExactly`).
- A shared value whose minimal byte form is not 16, 24 or 32 bytes long cannot seal. A packet to such a destination is
  replaced by an error packet to it, which fails in the same way, without end (`ChainOutcome`, `LegalShared`; with
  everything else going on, `NothingReaches`; a run that gets there, `GetsStuck`).
- The comment on the outgoing transform asks for quiet on the connection until the server has sent its answer to an
  exchange. That is not enough (`QuietUntilAnswerNotEnough`): the client must have taken the answer in and installed the
  transforms, and then it is enough (`TransparentRun`).
- The relay status does not stop a pipeline, although its description says so (`RelayGoesOn`), and adding transforms
  ignores the lock.
- `Clear` on a packet's writer clears the buffer and not the metadata, so configuring an exchange packet keeps metadata
  already there.
- A request is registered after it has been written, so its response can overtake it and end up with the miscellaneous
  packets (`ResponseOvertakes`).
- The throttle divides a second by the rate and truncates. The rate is kept exactly when it divides a second
  (`PromiseKept`); above one operation per nanosecond nothing is throttled (`Unthrottled`). The documented scale factor
  between 0 and 1 does not exist: the factor is a whole number.

## Model

| member | source | states |
|---|---|---|
| `Utf8.RoundTrip` | packet/json_packet.go:55-83 | every text survives being turned into wire bytes and back |
| `Utf8.Exactly` | packet/json_packet.go:67-73 | bytes are read as a text exactly if they are the bytes of that text: overlong forms and surrogates are refused |
| `Utf8.CharBytes` | packet/json_packet.go:55-64 | the bytes of a character: itself below 128, otherwise a first byte that tells how many there are and six bits in each of the others |
| `Base64.RoundTrip` | packet/json_packet.go:76-102 | decoding the base64 text of any byte string gives the byte string, with a decoder that skips line breaks and ignores unused bits |
| `Base64.EncodeIs` | packet/json_packet.go:98-103 | four symbols, as a number in base 64, are three bytes, as a number in base 256; pads stand exactly for the bytes missing at the end |
| `Base64.Accepts` | packet/json_packet.go:76-80 | what is refused, exactly: after line breaks are dropped, everything but whole groups of symbols with at most two pads at the end; and how many bytes the rest gives |
| `Base64.DecodeIs` | packet/json_packet.go:76-80 | each byte is the right one of the three that four symbols stand for, so the bits before a pad do not matter |
| `Base64.SkipsBreaks` | packet/json_packet.go:76-80 | dropping line breaks goes character by character, wherever they are |
| `Json.StringRoundTrip` | packet/json_packet.go:55-73 | a printed JSON string is read back exactly, whatever follows it |
| `Json.SurrogatePair` | packet/json_packet.go:67-73 | two escaped surrogates are read as the character they stand for |
| `Json.NoRawControl` | packet/json_packet.go:67-73 | a control character that is not escaped is refused in a string |
| `Json.ListingRoundTrip` | packet/json_packet.go:12-15 | listing a metadata map in key order and reading the entries back gives the map |
| `Json.ListingSorted` | packet/json_packet.go:55-64 | a listed map has all its entries, in strictly ascending order of the keys |
| `Json.KeyBeforeIs` | packet/json_packet.go:55-64 | that order is by the first character in which two keys differ |
| `Json.FrameIs` | packet/json_packet.go:12-15 | the layout of a frame: `{"m":{...},"d":"..."}` with the entries in order and every string escaped |
| `Json.RoundTrip` | packet/json_packet.go:55-83 | unmarshalling a marshalled frame gives its metadata and data text, for all of them |
| `Json.Injective` | packet/json_packet.go:55-64 | two packets that marshal alike have the same metadata and the same data text |
| `Json.LongerThanNonce` | core/crypto/aes_cipher.go:36-37 | every marshalled frame is longer than the 12 bytes a keyed receiver splits off |
| `PacketState.BufferIs` | packet/json_packet.go:85-95 | after any operations the buffer holds what was written since it was last reset, in order, after what it was reset to: nothing, or the data of a frame |
| `PacketState.TextIs` | packet/json_packet.go:98-103 | after any operations a packet sends the text committed last: when it was closed, one that decodes to what the buffer held then |
| `PacketState.MetaIs` | packet/metadata.go:18-28 | after any operations a metadata entry has the value set last, by an addition or a frame |
| `PacketState.DestIs` | packet/json_packet.go:29-33 | after any operations the destination is the one set last |
| `PacketState.RunsAgree` | packet/json_packet.go:67-103 | packets that differ only in their committed text stay so under all operations until one commits, and then agree |
| `PacketState.PoolTransparency` | packet/json_packet_creator.go:42-49 | whatever a packet's past, a recycled one behaves like a fresh one under all further use; it marshals alike if and only if something commits or its left-over text is empty |
| `PacketState.DatalessFrameReadsPast` | packet/json_packet.go:71-81 | a recycled packet that decodes a frame without data gets the data of its past, a fresh one gets none |
| `PacketState.Reception` | packet/json_packet.go:67-83 | what any frame becomes in a recycled packet: metadata merged over the empty reference, data decoded exactly when it is base64 |
| `PacketState.ErrorPktOnWire` | packet/json_packet_creator.go:51-57 | exactly the reference, status -1 and the message arrive; it marshals like a fresh one exactly when no text is left over, and decodes exactly when that text is base64 |
| `PacketState.WireRoundTrip` | packet/json_packet.go:55-103 | a closed packet arrives in any recycled packet with its data, and with its metadata if and only if it carries a reference |
| `Packet.KVMeta.constructor` | packet/metadata.go:11-16 | starts with an empty map of its own |
| `Packet.KVMeta.Add` | packet/metadata.go:18-22 | sets one key in the shared map |
| `Packet.KVMeta.SetMeta` | packet/metadata.go:30-34 | replaces the map object |
| `Packet.KVMeta.Clear` | packet/metadata.go:36-42 | deleting key by key empties the map and keeps the map object |
| `Packet.JSONPkt.constructor` | packet/json_packet_creator.go:16-25 | a fresh packet, whose accessor and wire frame share one map |
| `Packet.JSONPkt.SetDestination` | packet/json_packet.go:29-33 | changes the destination and nothing else |
| `Packet.JSONPkt.AddMeta` | packet/json_packet.go:43-47 | what is added through the accessor is what is marshalled, because the map is shared |
| `Packet.JSONPkt.Data` | packet/json_packet.go:49-53 | the written bytes, committed or not |
| `Packet.JSONPkt.MarshalTo` | packet/json_packet.go:55-64 | a decoder reads from the bytes the map seen through the accessor and the committed text, whatever was written since |
| `Packet.JSONPkt.Unmarshal` | packet/json_packet.go:67-83 | decoding merges into the existing map, which stays shared, also when a member has the wrong type or the data is not base64 |
| `Packet.JSONPkt.ClearBuffer` | packet/json_packet.go:85-89 | the buffer is empty; metadata and committed text stay |
| `Packet.JSONPkt.WriteBytes` | packet/json_packet.go:91-95 | appends to the buffer only |
| `Packet.JSONPkt.Commit` | packet/json_packet.go:98-103 | the committed text decodes to the buffer |
| `Packet.JSONPktCreator.constructor` | packet/json_packet_creator.go:12-30 | a pool of the given number of fresh packets that share nothing |
| `Packet.JSONPktCreator.Warmup` | packet/json_packet_creator.go:32-36 | adds exactly that many fresh packets |
| `Packet.JSONPktCreator.PutBack` | packet/json_packet_creator.go:38-40 | the packet joins the pool unchanged |
| `Packet.JSONPktCreator.NewPkt` | packet/json_packet_creator.go:42-49 | a packet that is no longer pooled and shares nothing with pooled ones, reset except for its committed text |
| `Packet.JSONPktCreator.NewErrPkt` | packet/json_packet_creator.go:51-57 | the same with exactly reference, status -1 and message as metadata, and not closed |
| `Curve.MulMul` | core/crypto/crypto.go:101-104 | multiplying by two scalars in turn is multiplying by their product, and multiplying by one changes nothing, from the group laws |
| `Curve.Agreement` | core/crypto/crypto.go:101-104 | what each side computes from its scalar and the other public point is the first coordinate of the base point times both scalars |
| `Curve.BigEndianRoundTrip` | core/crypto/crypto.go:164 | the key bytes of a shared value determine it and have no leading zero |
| `Curve.BigEndianLength` | core/crypto/crypto.go:164 | a value takes n bytes exactly between two powers of 256 |
| `Curve.NumberExactly` | core/crypto/crypto.go:31-36 | a number is read exactly where it stands as it would be printed, so without leading zeros |
| `Curve.KeyRoundTrip` | core/crypto/crypto.go:31-36 | a public key is sent as `{"x":...,"y":...}` with decimal coordinates, and read back as the same point |
| `Curve.AddrRoundTrip` | core/crypto/client.go:59-64 | the address in a client-key request is read back, if it needs no escaping |
| `Curve.AddrIsIncomplete` | core/crypto/crypto.go:31-36 | the text of an address request, read as a public key, is an object without coordinates, so it decodes without an error and is no point |
| `Curve.KeyIsNoAddr` | core/crypto/server.go:36-43 | a public key, read as an address request, names the empty address |
| `Cipher.DecryptOfEncrypt` | core/crypto/aes_cipher.go:11-43 | 12 bytes of nonce, then the sealed bytes, 16 longer than the data: what is sealed under a legal key opens to the same bytes and is not a frame |
| `Cipher.FrameDoesNotOpen` | core/crypto/aes_cipher.go:27-43 | a frame that was not sealed opens under no key |
| `Sealing.Transparent` | core/crypto/crypto.go:148-187 | a frame that left unsealed, or sealed under the receiver's key, is recovered exactly; sealed for a receiver with no key or another key it passes unchanged and cannot be decoded |
| `Sealing.MarkStays` | core/crypto/crypto.go:45-55 | over any history without a new store for the address, its keys stay and a sent mark is never taken back |
| `Sealing.LaterPacketSealed` | core/crypto/crypto.go:148-171 | of two packets to a keyed address that are not exempt, with no new store between them, the later is sealed under the stored key or refused for its length |
| `Crypto.Extension.constructor` | core/crypto/crypto.go:77-99 | no keys, and the printed public key of the scalar |
| `Crypto.Extension.SetKeyStore` | core/crypto/crypto.go:127-133 | a new store for one address, with the first coordinate of scalar times point, shared with no other address |
| `Crypto.Extension.Seal` | core/crypto/crypto.go:148-171 | the four branches of the outgoing transform, marking exactly one store in place |
| `Crypto.Extension.Open` | core/crypto/crypto.go:177-187 | the incoming transform, which passes on what it cannot open |
| `Crypto.Extension.KeyExchangeServer` | core/crypto/server.go:16-33 | the sender's key, in any layout a decoder accepts, is stored with the shared value and no sent mark, the own key answered; a malformed key changes nothing and is refused; one without both coordinates ends the program |
| `Crypto.Extension.KeyExchangeClient` | core/crypto/server.go:35-52 | the stored key of the named address, or which refusal |
| `Crypto.Extension.ProcessKeyExResp` | core/crypto/client.go:156-168 | the key in a response is stored as already sent; a response that is no key changes nothing; one without both coordinates ends the program |
| `Crypto.Extension.EncryptE2E` | core/crypto/client.go:84-133 | exactly with a key of an AES length, the buffer becomes nonce and sealed data, the committed text decodes to it, and nothing else changes; otherwise the packet is untouched |
| `Crypto.Extension.DecryptE2E` | core/crypto/client.go:101-152 | exactly if the data opens, the buffer becomes the opened data, the committed text decodes to it, and nothing else changes; otherwise the packet is untouched |
| `Crypto.E2ERoundTrip` | core/crypto/client.go:123-152 | sealing a packet for a peer and opening it there, between tables with the same value, gives buffer and committed data back and leaves the rest of the packet alone |
| `Crypto.Extension.ConfigureKeyExServerPkt` | core/crypto/client.go:70-75 | target and own key, over the metadata already there |
| `Crypto.Extension.ConfigureKeyExClientPkt` | core/crypto/client.go:59-64 | target and address, over the metadata already there |
| `Pipeline.RunsToFirstStop` | core/data_pipeline.go:45-54 | a pipeline executes exactly the stages up to the first that leaves status -1, 1 or 2, and that point is unique |
| `Pipeline.StatusDecides` | core/packet_pipeline.go:35-44 | after a stage that leaves -1, 1 or 2 nothing more runs, after any other status the rest does |
| `Pipeline.RunAppend` | core/packet_pipeline.go:35-44 | running one queue and then another is running both as one, unless the first stops |
| `Pipeline.SnapshotRun` | core/data_pipeline.go:35-54 | the queue a run works on is a prefix of every later queue, so what is added meanwhile does not change it |
| `Pipeline.DataPipeline.AddTransform` | core/data_pipeline.go:35-39 | appends to one queue, locked or not |
| `Pipeline.DataPipeline.Process` | core/data_pipeline.go:41-55 | the loop computes the recursive meaning; an error, with its text, exactly if the last stage run left -1 |
| `Pipeline.PacketPipeline.AddCallback` | core/packet_pipeline.go:22-26 | appends to one queue |
| `Pipeline.PacketPipeline.Process` | core/packet_pipeline.go:28-45 | the loop computes the recursive meaning; an error exactly for an unknown target or if the last callback run left -1 |
| `Relay.OneReply` | server/udp_server.go:140-179 | running the installed callbacks and acting on their status enqueues exactly one packet for every decoded packet, given field by field for each target and each refusal, with the key table it leaves; except that the program ends on an exchange request with a key without both coordinates |
| `Relay.ChainOutcome` | server/udp_server.go:185-207 | over any number of steps: one write and nothing re-enqueued, or, exactly for an unsealable destination, an error packet re-enqueued by every step and nothing written |
| `Relay.LegalShared` | core/crypto/aes_cipher.go:11-15 | the shared values that can seal are those of exactly 16, 24 or 32 bytes |
| `Relay.TableIsHistory` | core/crypto/crypto.go:127-142 | after any history the table holds, for each address, the key of its latest successful exchange and the first coordinate of scalar times that key; and the program still runs exactly if no request had a key without both coordinates |
| `Relay.DirectoryAnswers` | core/crypto/server.go:35-52 | a client-key request to a server that runs is answered with the key of the latest successful exchange, and refused exactly when there was none |
| `Runs.Recovers` | core/crypto/crypto.go:148-187 | a pipeline recovers the frame if and only if it left unsealed or the receiver's key for the sender is the one it was sealed under; otherwise the bytes pass unchanged and cannot be decoded; no datagram is too short to split |
| `Runs.StepKeeps` | server/udp_server.go:98-207 | every step of clients, server and network, restarts included and with opening and answering as two steps, keeps the invariant: what exchange requests and answers are, what is held to be answered, which values and points are stored, how each datagram was sealed |
| `Runs.RunKeeps` | server/udp_server.go:98-207 | so does every sequence of steps, with any loss, repetition and order |
| `Runs.ServerGoesOn` | core/crypto/server.go:16-33 | in every reachable state, nothing that the server is to answer ends its program: the keys that clients send have both coordinates |
| `Runs.StepGrows` | core/crypto/crypto.go:127-142 | no step takes back a sent datagram, what an exchange was for, or, within one life of the server, a stored key |
| `Guarantees.KeyAgreement` | core/crypto/crypto.go:101-104 | in every reachable state each stored shared value is the first coordinate of the owner's current scalar times the stored point, holders of each other's current points share that of the base point times both scalars, and points held by or for the server are of the right address |
| `Guarantees.ToServer` | core/crypto/crypto.go:148-187 | in every run the server recovers a datagram exactly if and only if it left unsealed or the value the server now holds for the sender is the one it was sealed under; otherwise nothing can be decoded |
| `Guarantees.ToClient` | core/crypto/crypto.go:148-187 | the same for clients and the keys their installed transforms use |
| `Guarantees.ToServerByDestination` | core/crypto/crypto.go:153-170 | a packet sealed against a point of its destination is recovered by a server that has the sender's point exactly if the destination is the server |
| `Guarantees.ToServerExactly` | core/crypto/server.go:25-28 | if different lives share different values: a packet sealed for the server is recovered exactly when the sender's point at sealing is the one stored at receipt and the server's is the one it was sealed against |
| `Guarantees.ToClientExactly` | core/crypto/client.go:162-166 | the same for packets sealed for a client |
| `Histories.ServerPoint` | core/crypto/server.go:25-28 | in every run the server's point for an address is that of the life whose request it answered last since its own start, and there is one exactly if there was such a request |
| `Histories.ClientPoint` | core/crypto/client.go:156-168 | in every run a client has a point for an address exactly if this life of it stored one, and it is the one that it stored last |
| `Histories.PeerPoint` | core/crypto/client.go:156-168 | in every run a client's point for another is the one in the answer it stored last; that answer was given to the request with its reference, and has the point the server had then (of the life it had heard last), or, if it had none, the one in the text left over in the error packet; so it is the current one exactly if that point is |
| `Histories.EndedExactly` | core/crypto/client.go:156-168 | in every run a client's program has ended exactly if this life of it took in an answer that is an object without both coordinates |
| `Histories.WhyEnded` | core/crypto/client.go:156-168 | in every run, what ended a client's program was the answer to a request of its own that the server refused, having no key for the address, and the text left over in the error packet |
| `Histories.TakenOnce` | core/crypto/client.go:178-201 | in every run no two steps take in answers with the same reference, however often the network repeats them |
| `Steady.StepInStep` | core/crypto/crypto.go:148-187 | a step that is not a new start, a late exchange message or a non-exempt emission during an exchange keeps client and server in step: who has whose current point, and that the server seals only for a client that can open |
| `Steady.TransparentRun` | core/crypto/crypto.go:148-187 | from any reachable state in which they are in step, over any such steps, every datagram between client and server is recovered by its receiver, in every branch of the transforms |
| `Steady.CompletedIsSteady` | core/crypto/crypto.go:155-163 | once an exchange is complete the server need not keep quiet: not starting anew is enough |
| `Steady.TameInStep` | core/crypto/client.go:32-52 | runs without new starts and with nothing but exempt emissions leave everyone in step |
| `EndToEnd.RelayHop` | server/udp_server.go:98-180 | answering a relay request, whatever else its metadata holds, enqueues exactly the packet to forward if the server could read the request when it opened it, else exactly a complaint to the sender, and changes nothing else; a request that is no longer held is not answered |
| `EndToEnd.EmitHop` | server/udp_server.go:185-207 | an emission takes the packet off the queue and sends exactly the packet; if the address does not resolve it sends nothing, and if it cannot be sealed it sends nothing and queues exactly a report |
| `EndToEnd.DeliverHop` | core/crypto/client.go:142-152 | a datagram with the forwarded packet yields source, reference and, opened, the payload exactly if the receiver runs and can read it |
| `EndToEnd.EndToEnd` | core/crypto/client.go:123-152 | sealing, sending, opening, answering, emitting and receiving with any steps in between, refused requests and restarts included: what the server enqueues, whether anything is sent, and that the receiver gets exactly the payload from the right source with the same reference if and only if it runs and can read the datagram |
| `EndToEnd.SecureRelay` | core/crypto/client.go:123-152 | once both have completed their exchanges and hold each other's current points, and unless one of them starts anew on the way, every payload is enqueued when answered, sent if emitted, and recovered exactly if the receiver runs, whatever the sent mark |
| `Provenance.RelayedIsGenuine` | server/udp_server.go:98-113 | in every run a packet that names a relay source was sent from that address, for that receiver, with that reference and data |
| `Exchanges.ServerExchange` | core/crypto/client.go:178-186 | from every reachable state a server exchange whose request reaches the server and whose answer is taken in leaves both sides with each other's current point and the first coordinate of the base point times both scalars, and in step |
| `Exchanges.ClientExchange` | core/crypto/client.go:193-201 | from every reachable state a client exchange whose answer leaves unsealed brings the point the server has; if it has none, the asker stores a point exactly if the left-over text is a key, ends exactly if it is an object without both coordinates, and is otherwise unchanged |
| `Worlds.SomeWorld` | core/crypto/crypto.go:28-29 | with any JSON decoder there are curve, cipher and scalars that meet all laws, give every two parties a key of an AES length, and keep the first two lives, and clients from the server, apart |
| `Worlds.ShortWorld` | core/crypto/crypto.go:28-29 | with any JSON decoder there are curve, cipher and scalars that meet all laws and give no two parties a key of an AES length |
| `Scenarios.ReadyToRelay` | core/crypto/client.go:32-52 | a run from the first state after which two clients have completed exchanges with the server and with each other |
| `Scenarios.RefusalBecomesKey` | core/crypto/client.go:156-168 | a run from the first state after which a client holds the server's point as that of an address the server does not know |
| `Scenarios.RefusalEndsClient` | core/crypto/client.go:156-201 | a run from the first state in which two requests are refused and the text of the first, left over in the second error packet, ends the program of the second asker |
| `Scenarios.Misaddressed` | client/udp_client.go:161-174 | a run from the first state in which a packet addressed to another client reaches the server, which cannot read it and answers that it is malformed |
| `Scenarios.LateRequestRollsBack` | core/crypto/server.go:25-28 | a run from the first state in which a late request of an earlier life replaces the point of the current one and makes a datagram unreadable that was readable before |
| `Scenarios.QuietUntilAnswerNotEnough` | core/crypto/crypto.go:155-163 | a run from the first state in which, with the answer to the exchange on its way and nothing sent before it, the second of two ordinary packets to the client cannot be decoded |
| `Scenarios.GetsStuck` | server/udp_server.go:185-207 | a run from the first state, if the value shared with a client has no AES length, after which the server cannot seal for the client and a packet to it waits |
| `Scenarios.StuckSomewhere` | server/udp_server.go:185-207 | there is a world in which that run exists |
| `Stuck.NothingReaches` | server/udp_server.go:185-207 | with any other steps in between, and until a new store is installed, nothing but exempt packets reaches a destination whose key cannot seal, and every other packet to it is reported on and queued again |
| `Lifecycle.PutBackPlaces` | server/udp_server.go:134-179 | a packet that is put back was not in the pool |
| `Outcomes.CallbackOk` | server/udp_server.go:140-179 | each callback, run on packets held by the routine, leaves the packet the sequential answer calls for, or ends the program |
| `Outcomes.PoolConservation` | server/udp_server.go:119-207 | in every interleaving each packet is in the pool or held once by one routine, is never put back twice, and is back when no routine is left |
| `Outcomes.OneReplyPerDatagram` | server/udp_server.go:119-180 | in every interleaving a finished incoming routine has enqueued exactly one packet, rightly addressed: the sequential answer with the keys the server had at two moments of the run, one for opening and a later one for answering; and its datagram was not one that ends the program |
| `Outcomes.OneOutcomePerPacket` | server/udp_server.go:185-207 | in every interleaving a finished outgoing routine has written its packet once, sealed with the keys the server had at a moment of the run and the nonce of a sealing step of it that found an address, or enqueued one error report, or met a sealing step that found no address |
| `Outcomes.KeysRefine` | core/crypto/crypto.go:127-171 | the key table of every interleaving is that of the sequential server after the callbacks and sealings of the run, in order, and the program has ended exactly if it has there |
| `Outcomes.TableInRun` | core/crypto/crypto.go:127-142 | in every interleaving that starts without keys, an address has an entry exactly if the callback of an exchange request from it has run, with the latest such key and the value shared with it |
| `Outcomes.EndsExactly` | core/crypto/server.go:16-33 | in every interleaving the server's program has ended exactly if a callback was run on a datagram that decodes to an exchange request with a key without both coordinates |
| `Outcomes.CanMove` | server/udp_server.go:119-207 | no routine is ever stuck while the program runs: it can take a step of its own, and has at most seven, or ends the program |
| `Leftovers.EnqueuedText` | packet/json_packet_creator.go:42-57 | in every interleaving the data text of every enqueued packet is empty, was in the pool at the start, or is that of a frame decoded or a packet closed earlier |
| `Conservation.QueueConserved` | server/udp_server.go:109-207 | in every interleaving the enqueued packets and the routines that process packets from the queue pair off one to one, each with the very packet: nothing enqueued is lost, sent twice or made up |
| `Dispatch.UDPClient.Register` | client/udp_client.go:153-157 | the table keeps refining the history, in which the registration now stands |
| `Dispatch.UDPClient.Lookup` | client/udp_client.go:205-207 | finds a channel if and only if it was registered under the reference and nothing happened to the reference since |
| `Dispatch.UDPClient.Forget` | client/udp_client.go:215-217 | the table keeps refining the history, in which no registration of the reference stands any more |
| `Dispatch.UDPClient.Play` | client/udp_client.go:126-219 | the object, driven through its locked regions in any order, goes through the states of the interleaving, so all that is proved of interleavings holds of it |
| `Dispatch.TableIsHistory` | client/udp_client.go:153-217 | a reference leads to a channel if and only if it was registered with it and neither registered again nor forgotten since |
| `Dispatch.DispatchSafety` | client/udp_client.go:191-219 | in every interleaving a finished receipt has looked up, delivered and forgotten, each once and in this order, and delivered on a response channel only if an earlier send registered that channel under its reference |
| `Dispatch.InOrder` | client/udp_client.go:126-219 | at any time a send has done a beginning of writing and registering, and a receipt a beginning of looking up, delivering where the lookup said, and forgetting; and all of it when it has ended |
| `Dispatch.UsedUp` | client/udp_client.go:202-217 | in every interleaving a finished receipt forgot its reference after its delivery, so no earlier registration stands, and any other receipt that found a channel found one registered later or looked it up before |
| `Dispatch.ReachesChannel` | client/udp_client.go:204-214 | a response reaches its channel exactly when the registration of its request stands at the lookup |
| `Dispatch.ResponseOvertakes` | client/udp_client.go:148-157 | a response looked up before its request is registered goes to the miscellaneous channel, and the registration stays behind |
| `Throttle.TimePerOpAntitone` | core/throttle/udp_throttle.go:71-83 | a higher rate never gets more time per operation |
| `Throttle.UDPThrottle.constructor` | core/throttle/udp_throttle.go:42-56 | the time per operation belongs to the rate, and nothing has begun |
| `Throttle.UDPThrottle.SetThroughput` | core/throttle/udp_throttle.go:71-76 | the rate is the new one and the time per operation a second divided by it, and the loop stays paced |
| `Throttle.UDPThrottle.ScaleThroughput` | core/throttle/udp_throttle.go:78-83 | the scaled rate, with wrap-around, and its time per operation; the product as long as that is a signed 64-bit number |
| `Throttle.UDPThrottle.RemainingTime` | core/throttle/udp_throttle.go:147-155 | operation and sleep together take at least the time per operation |
| `Throttle.UDPThrottle.Start` | core/throttle/udp_throttle.go:101-134 | an operation begins now, no earlier than the time per operation after the one before |
| `Throttle.UDPThrottle.ThrottleOperation` | core/throttle/udp_throttle.go:147-155 | after an operation the loop sleeps until the time per operation after its start, if that is still to come, and stays paced |
| `Throttle.UDPThrottle.Advance` | core/throttle/udp_throttle.go:101-155 | each step of the loop on the object is that step on its state |
| `Throttle.UDPThrottle.Play` | core/throttle/udp_throttle.go:101-155 | the object, driven through any operations, passing of time and changes of rate, goes through the states of the loop, so it stays paced |
| `Throttle.UDPThrottle.PlayWithin` | core/throttle/udp_throttle.go:71-155 | and every second holds at most the limit plus the excess of truncation, with all rates of the run at most the limit |
| `Throttle.RunPaced` | core/throttle/udp_throttle.go:101-155 | in every run of a loop, successive starts are at least the time per operation in force apart |
| `Throttle.PacedWindow` | core/throttle/udp_throttle.go:125-155 | a window holds at most its width divided by the smallest time per operation, rounded up, however the rate changes |
| `Throttle.SecondHolds` | core/throttle/udp_throttle.go:71-76 | what truncation adds to a rate in a second, and that it is nothing exactly for divisors of a second |
| `Throttle.RateInForce` | core/throttle/udp_throttle.go:71-83 | after any steps the rate is the one asked for last, times all the factors since, as long as that is a signed 64-bit number |
| `Throttle.RateBound` | core/throttle/udp_throttle.go:71-155 | with all rates that the run asks for at most a limit, every second holds at most the limit plus that excess |
| `Throttle.BoundReached` | core/throttle/udp_throttle.go:125-155 | some run reaches that number |
| `Throttle.PromiseKept` | core/throttle/udp_throttle.go:145-155 | no run exceeds its rate in any second if and only if the rate divides a second |
| `Throttle.Unthrottled` | core/throttle/udp_throttle.go:151-154 | above one operation per nanosecond any number of operations can start at once |
| `ReadBuffer.Reader.ReadOne` | core/throttle/udp_throttle.go:110-118 | reusing the buffer, a read queues as much of the beginning of its datagram as fits, and changes no queued packet |
| `ReadBuffer.Reader.ReadAll` | core/throttle/udp_throttle.go:101-123 | any number of reads are queued in order, each with the bytes it was read with |
| `ReadBuffer.Reader.ReadFrom` | core/throttle/udp_throttle.go:85-88 | packets are handed out in arrival order |

## Left out

- Sockets, address resolution, clocks, random nonces, private scalars and references: inputs of the steps. A client's socket write that fails hands the caller an error packet with left-over text; that is not modelled.
- The inside of AES, GCM and the P-256 curve: only the ideal cipher laws and the laws of a commutative group are used.
- General JSON: frames, keys and address requests are parsed in the layout in which they are printed, and any other answer of a JSON decoder is a parameter (`other`, `otherKey`, `otherAddr`); sealed bytes are taken not to be JSON at all. A frame whose metadata is null, and strings that are not valid Unicode, are outside the model.
- Relay.ChainOutcome: the chain runs by itself there; with other steps in between, `Stuck.NothingReaches` says what happens until a new store is installed.
- Public keys that are not on the curve: two coordinates are taken to be a point of the group.
- Refs that collide: in the protocol, the reference of an exchange is new, and applications do not reuse it or use the exchange targets by hand.
- Asking the server for the key of its own address, or of one that needs escaping in JSON: not a step of the protocol.
- Configuring one client object twice, which would install a second pair of transforms over the first: a restart makes a new object.
- Runs.Recovers: datagrams of fewer than 12 bytes from a keyed sender, on which the program fails, do not arise from the modelled clients.
- Interleaving inside the outgoing transform: reading and setting the sent mark are one step, although the program takes two locks for them.
- Packet.JSONPkt.Data: the returned bytes are a copy; in the program they share memory with the buffer until it is written to again.
- The pool discarding packets when memory is short, and the bound of 100 on the throttle's queues, which only delay or allocate.
- Lifecycle.PutBackPlaces: the server's routines are modelled as steps over numbered packets and not as methods on packet objects.
- The connection-oriented server, shutdown and cleanup, the generator of references and the example programs: not modelled.
