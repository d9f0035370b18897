# Order forwarding, verified

The service drains a database table of requested orders (the exchange book) into fixed-width messages for
the exchange. The packing client takes the next requested row, queues it in the exchange book and in the order
book, packs the order into structs that all orders share, and writes the resulting packet to a System V
message queue. A sending thread takes packets from the queue and writes them to a TCP socket. A receiving
thread reassembles length-prefixed responses from the same socket.

This project models that path in Dafny and proves what it does over whole runs. The layers, from the bottom:

* `Bytes`, `Text`, `Codec`: byte orders, the string operations in use, and an interpreter for record layouts.
* `Models`, `Layout`, `Wire`, `Structs`, `OrderConversion`, `TypeConversion`: the records, their bytes and staging,
  which field stands at which byte, the mutable structs, and the conversions on them.
* `Packing`, `OrderMeaning`, `PackingHistory`, `Contracts`: packing one order; what its fields say; what it leaves
  behind for later ones; which contracts the descriptor tells apart.
* `OrderBooks`, `PackClient`: both books with their queries and updates, and the packing client over them.
* `Outcomes`, `Draining`, `Rejections`, `BookAgreement`, `Progress`, `Packets`, `Repeats`, `Numbering`, `Downloads`:
  what a record comes to, and what every run does to the books and sends.
* `MessageQueue`, `Forwarding`, `Deframing`, `Receiving`: the queue, the sender as a machine of interleaved
  steps, and the receiver.
* `EndToEnd`: client, queue, sender and socket as one system.
* `Passwords`: generation and storage of exchange passwords.

Objects whose methods overwrite fields are classes, and each method is proved against a function of the old
state; the lemmas about those functions carry the properties, with the codes, offsets and limits written out. What
the environment decides (which statement fails, which of several equal rows a query returns, what a lookup answers,
how reads and writes are split, random numbers) is an argument, so every statement holds for all of it.

## What the code does that one might not expect

* Updates take effect at once. A failure after the first update leaves the row queued and its order not;
  `BookAgreement.BooksAgree` says this is the only way the books disagree, and exactly when they do.
* A row that is already processed, or not ordinary, makes the client succeed without doing anything. It is
  found again in every later turn, which sends the last packet again: `Draining.Stuck`,
  `Repeats.BlockerRepeatsThePacket`.
* The result of the packer is ignored, so an order that does not pack sends the packet of the order before:
  `Packets.FreshOrRepeated`. `Repeats.NoPacketTwice` says exactly when no packet goes out twice. Only a first order is
  different: the queue refuses message type 0, so a service that has just started stops instead, `Progress.StopsAtOnce`.
* A rejected row goes to the packer and into the queue all the same: `Rejections.RejectedWithoutToken`.
* An empty program address or source flag stops the program, since the packer takes its first byte.
* The padded algorithm id never equals the sentinel that its code compares it with.
* After a temporary write error the sender repeats bytes that the failed write had already sent. The usual
  delivery claim holds exactly when no such error occurs: `Forwarding.ByteConservation`, `Forwarding.MessageGarbled`.
* The receiver reads 24 bytes as the header although the header has 22 on the wire, so frames shorter than 24
  bytes take part of the next one: `Deframing.DeframeIsFaithful`, `Deframing.ShortFrameSwallows`.
* The kernel queue outlives the process and nothing flushes it, so a start may find messages of an earlier run, which
  go out first: `Forwarding.Opened`, `EndToEnd.WireCarriesTheLog`.
* Messages are written little-endian and read big-endian: `Layout.ReceiverView`, `Receiving.PackedOrdersAreAnswered`.
  The length field of a packet holds 16, so its own reader would wait for 4096 bytes: `Receiving.PacketDeclares`.

## Model

| member | source | states |
|---|---|---|
| `EndToEnd.WireCarriesTheLog` | internal/app/pack_clnt/cln_pack_clnt.go:238-313 | From whatever messages the persistent queue holds at the start, under every interleaving of the client's gate, record and write steps with the sender and partial socket writes: the queue never holds more than ten messages, or than it held at the start; the order payloads found in it and then the packets written are exactly wire, rest in hand and queue in this order if and only if no write failed for now after putting bytes of a message on the wire; each full 338-byte frame on the wire is then the packet of its turn |
| `EndToEnd.ReceiverFindsTheOrder` | internal/app/exchange_service/cln_esr_clnt.go:295-303 | From the books to the wire, behind whatever the queue held at the start: where no such write failed, the k-th full frame read big-endian, as the receive loop reads it, gives every scalar of the order moved in the k-th turn byte-reversed and every byte array as it is, and read little-endian every field itself, if that order packed; the order carries the columns that its exchange-book row and the order of that row had at the start |
| `EndToEnd.FrameSpellsTheOrder` | internal/app/packing_service/fo_exg_pack_lib.go:196-644 | From the books to the bytes, under every interleaving and behind any leftover queue: where no write failed after putting bytes on the wire, the k-th full frame has at each documented byte what the order moved in the k-th open turn calls for, if that order packed (side, volumes, prices, dates, contract, account, settlor, algorithm, PAN, flags, order and sequence number); that order has the columns of its row and of its order row at the start and what the queries of that very turn answered |
| `EndToEnd.ExcessComesFromResending` | internal/app/exchange_service/cln_esr_clnt.go:225-231 | In a run of the whole system, on an empty or a leftover queue, bytes are repeated if and only if some write failed for now, with a message in hand, after putting bytes on the wire |
| `EndToEnd.AlwaysJoined` | internal/app/pack_clnt/cln_pack_clnt.go:238-283 | In the interleaved system the client is always at a state of its own sequential run and the queue side at a state of its machine, and what went into the queue is what was found there and then the messages of the client's log |
| `EndToEnd.FrameAt` | internal/models/models.go:182-190 | The k-th 338 bytes of the sent stream are the k-th packet |
| `Draining.DrainOrder` | internal/app/pack_clnt/cln_pack_clnt.go:551-587 | Over every run, failing ones included, the rows that have left, that of the stopping turn too, left each once, by numbers that never go down, and no row still requested has a lower number; repeated numbers allowed |
| `Draining.StrictDrainOrder` | internal/app/pack_clnt/cln_pack_clnt.go:551-587 | With unique numbers the rows that have left, that of the stopping turn too, left in strictly increasing order and all rows still requested come after them |
| `Draining.DrainTerminates` | internal/app/pack_clnt/cln_pack_clnt.go:238-313 | Where nothing blocks, each completed turn lowers the number of requested rows by exactly one, and the loop stops at the latest in the turn after as many as there were |
| `Draining.CountConservation` | internal/app/pack_clnt/cln_pack_clnt.go:255-283 | Over every run no more rows leave than messages are written, plus one that the stopping turn may take; where nothing blocks also no fewer, whatever the packer returns |
| `Draining.LogNamesLeft` | internal/app/pack_clnt/cln_pack_clnt.go:371-397 | While the service runs, the rows that have left are exactly the moved rows of its log, each once; a stopped run has at most one more |
| `Draining.AlwaysOnlyMoved` | internal/app/pack_clnt/cln_pack_clnt.go:894-975 | Over every run a row of the exchange book is unchanged, or was requested, ordinary and not processed and is now queued, or queued then rejected with all other columns kept; an order is unchanged or queued |
| `Draining.RecordMoves` | internal/app/pack_clnt/cln_pack_clnt.go:346-516 | One record leaves both books as they are, or takes exactly the row that was due, whose order has its counter; the order is queued unless that very update is what failed |
| `Draining.NeverPastABlocker` | internal/app/pack_clnt/cln_pack_clnt.go:360-366 | A requested row that is already processed or not ordinary blocks the queue: no run ever touches it or a row of the scope with a higher number, repeated numbers allowed |
| `Draining.Stuck` | internal/app/pack_clnt/cln_pack_clnt.go:355-366 | Once the next row is one the client passes over, nothing changes any more and every completed turn sends the packet of the last successful pack again |
| `Draining.LogCountsTurns` | internal/app/pack_clnt/cln_pack_clnt.go:238-283 | While the service runs, every turn that passed the gate has written exactly one message |
| `Draining.LoadedMoves` | internal/app/pack_clnt/cln_pack_clnt.go:466-482 | The contract lookup rejects the row exactly when it succeeds with token 0, with message type 5304, zero jiffy and the reason appended to the trimmed remarks; in every other case it changes nothing |
| `Rejections.RecordEnds` | internal/app/pack_clnt/cln_pack_clnt.go:394-516 | A record that is moved ends queued at the time of its turn, or, if its lookup gave token 0, rejected with message type 5304, the time of the clock, no jiffy and the reason behind its trimmed remarks; all other columns are kept and its order is packed with that token |
| `Rejections.RejectedWithoutToken` | internal/app/pack_clnt/cln_pack_clnt.go:470-516 | While the service runs, every row that has left was logged in some turn and ends as that turn and the token of its order say: rejected if and only if the contract had no token, and either way a message was written |
| `Progress.DrainsExactlyTheRowsAhead` | internal/app/pack_clnt/cln_pack_clnt.go:346-516 | With unique numbers and keys and no failing statement, after enough turns through the gate, however often it was closed in between, the rows that have left are exactly the movable rows ahead of the first blocking row, if and only if there is at most one of them, a packet was there before, or the first order packs |
| `Progress.StopsAtOnce` | internal/app/pack_clnt/cln_pack_clnt.go:276-283 | A service that has just started and whose first order does not pack stops in the first turn that passes the gate and has written nothing, whatever would come later |
| `Progress.ClosedTurnsChangeNothing` | internal/app/pack_clnt/cln_pack_clnt.go:240-253 | A run ends in the state that its turns through the gate alone lead to |
| `Progress.DrainsUnlessBlocked` | internal/app/pack_clnt/cln_pack_clnt.go:355-371 | Under the same conditions the book is drained if and only if none of its requested rows is processed or not ordinary and its first order can be sent or is the only one |
| `BookAgreement.BooksAgree` | internal/app/pack_clnt/cln_pack_clnt.go:391-416 | At every point of every run at most one row of each order has left, and the two books agree on all rows that left (order queued, counter equal) if and only if every row whose second update failed, in whatever turn, agreed with its order before the run |
| `BookAgreement.BooksAgreeFromScratch` | internal/app/pack_clnt/cln_pack_clnt.go:408-416 | If no order was queued before the run, the books agree on all rows that left if and only if no second update failed |
| `BookAgreement.BooksAgreeWithoutFaults` | internal/app/pack_clnt/cln_pack_clnt.go:408-416 | Where no update of the order book fails, the books agree on every row that left |
| `BookAgreement.SecondUpdateSplitsTheBooks` | internal/app/pack_clnt/cln_pack_clnt.go:397-416 | A run of one row and one order whose second update fails: the row is queued, its order is not, nothing is sent |
| `BookAgreement.StoppedBySecondUpdate` | internal/app/pack_clnt/cln_pack_clnt.go:408-416 | The run stops in the update of the order book if and only if some turn gets as far as that update for some row and it fails |
| `BookAgreement.OrdersFollow` | internal/app/pack_clnt/cln_pack_clnt.go:1005-1033 | Exactly the orders of the rows that left are queued and all others are unchanged, but for the row whose order update failed: there is one such row in a run stopped by that update, and none in any other |
| `OrderBooks.NextRow` | internal/app/pack_clnt/cln_pack_clnt.go:551-602 | The fetching query finds a row if and only if one is requested in the scope; the row has the lowest number of the requested ones |
| `OrderBooks.FetchedRowNeedNotBeRequested` | internal/app/pack_clnt/cln_pack_clnt.go:580-588 | Only the inner query asks for requested rows: with a repeated number the fetched row can be one that is not |
| `OrderBooks.NextRowIsRequested` | internal/app/pack_clnt/cln_pack_clnt.go:580-588 | With unique numbers the fetched row is itself requested |
| `OrderBooks.UpdateOne` | internal/app/pack_clnt/cln_pack_clnt.go:916-927 | With unique reference and counter an update changes exactly one row |
| `OrderBooks.UpdateBookOutcomes` | internal/app/pack_clnt/cln_pack_clnt.go:894-975 | Exactly which updates of the exchange book are made, which rows they reach and which columns those get; a downloaded response like a recorded one is refused |
| `Packets.FreshOrRepeated` | internal/app/pack_clnt/cln_pack_clnt.go:480-516 | What the k-th message carries: the packet of the order moved in that turn if that order packs, and otherwise the packet of the message before it once more |
| `Packets.OnlyOrdersAreSent` | internal/app/pack_clnt/cln_pack_clnt.go:276-283 | A client that starts fresh sends only full order messages: the queue refuses the empty packet, so its first completed turn has packed an order |
| `Packets.CleanMessagesForget` | internal/app/packing_service/fo_exg_pack_lib.go:611-641 | In every run the 316 body bytes of a freshly packed clean order are those the order alone would give |
| `Packets.OrderNumbersAscend` | internal/app/packing_service/fo_exg_pack_lib.go:376 | The order numbers packed into the messages of a run never go down, and strictly go up where numbers are unique in the scope |
| `Repeats.NoPacketTwice` | internal/app/pack_clnt/cln_pack_clnt.go:480-516 | A client that starts fresh, with keys and numbers unique, sends no packet twice if and only if every message carries an order that was moved in its own turn and packed |
| `Repeats.FreshEntryCarriesNumber` | internal/app/packing_service/fo_exg_pack_lib.go:376 | The packet of a freshly packed order has its order number at one fixed place, which tells it from all others |
| `Repeats.BlockerRepeatsThePacket` | internal/app/pack_clnt/cln_pack_clnt.go:355-366 | A run that sends a packet twice: one row, and behind it one that the client passes over |
| `Numbering.MessagesAreNumbered` | util/TypeConversionUtil/type_conversion_util.go:69-108 | Where no draw fails, the messages of a run are numbered one after the other from the counter of the pipe and trade date, modulo 2147483647: each order that packs takes the next number and no other order takes one |
| `Outcomes.FetchedIsDue` | internal/app/pack_clnt/cln_pack_clnt.go:551-587 | A row is fetched if and only if one waits in the scope, and it has the lowest number of those that wait |
| `Outcomes.RecordOutcome` | internal/app/pack_clnt/cln_pack_clnt.go:346-517 | Exactly when a record is passed over, when it is moved and when it stops the program, with every status, flag, exchange code and failing statement written out; in all other cases it fails |
| `Outcomes.TurnOutcome` | internal/app/pack_clnt/cln_pack_clnt.go:238-313 | Exactly when a turn goes on, and that only a turn which passed the gate and goes on writes a message, namely the packet in memory |
| `Outcomes.DrawsForPackable` | internal/app/packing_service/fo_exg_pack_lib.go:583-590 | A sequence number is drawn exactly for a moved order that packs |
| `Packets.EntriesComeFromBooks` | internal/app/pack_clnt/cln_pack_clnt.go:604-626 | The k-th entry of a log is that of the k-th turn through the gate. If it moved a row, its order has the columns the exchange-book row had at the start (`V` sent as `T`, the program flag as its first character) and those of the order with its reference and counter (trimmed, `*` for NULL); its account is the client code and its settlor the participant code answered in that turn, and pipe, symbol, token, corporate-action level and customer type are those of the setting and that turn |
| `Downloads.JiffiesStayDistinct` | internal/app/pack_clnt/cln_pack_clnt.go:929-975 | Over any sequence of downloaded responses that name their row's own exchange and pipe, accepted or refused, non-zero jiffies stay pairwise distinct within each exchange and pipe |
| `Downloads.AcceptedKeepsDistinct` | internal/app/pack_clnt/cln_pack_clnt.go:952-973 | An accepted response keeps the jiffies distinct if and only if its jiffy is new to the pipe of the row it updates |
| `Downloads.ReplayIsRefused` | internal/app/pack_clnt/cln_pack_clnt.go:930-946 | Downloading an accepted response again is refused with the table unchanged if and only if there is a row it is for |
| `Downloads.RemarksOnlyGrow` | internal/app/pack_clnt/cln_pack_clnt.go:949-973 | Over any sequence of responses the right-trimmed remarks of the start stay a prefix of the remarks |
| `PackClient.ClnPackClntManager.ClnPackClnt` | internal/app/pack_clnt/cln_pack_clnt.go:232-318 | The loop does what the turn machine says, stops at its first failure, keeps the queue within ten messages and leaves in it the newest of the old and written messages |
| `PackClient.ClnPackClntManager.FnGetNxtRec` | internal/app/pack_clnt/cln_pack_clnt.go:346-517 | The state after one record, in every branch, is that of the specification, and the result tells success, failure and a stopped program apart |
| `PackClient.ClnPackClntManager.FnSeqToOmd` | internal/app/pack_clnt/cln_pack_clnt.go:546-667 | The record in hand is the row the query returns, and the program flag is `T` for a price improvement and else the address column or `NA` |
| `PackClient.ClnPackClntManager.FnRefToOrd` | internal/app/pack_clnt/cln_pack_clnt.go:696-860 | Order row and client codes of the reference, or failure when either query fails |
| `PackClient.ClnPackClntManager.FnUpdXchngbk` | internal/app/pack_clnt/cln_pack_clnt.go:894-986 | The book after a forwarding or response update keyed by reference and counter; downloads already recorded, failing statements and unknown operations change nothing |
| `PackClient.ClnPackClntManager.FnUpdOrdrbk` | internal/app/pack_clnt/cln_pack_clnt.go:1005-1033 | All orders with the reference get the status and nothing else changes; on failure nothing does |
| `PackClient.ClnPackClntManager.FnRjctRcrd` | internal/app/pack_clnt/cln_pack_clnt.go:1221-1273 | The row in hand is rejected, or nothing changes when clock or update fails |
| `PackClient.ClnPackClntManager.LoadContract` | internal/app/pack_clnt/cln_pack_clnt.go:446-492 | Only scopes whose trimmed exchange code is `NFO`, with a known contract, go on; a row without token is rejected and that is not a failure |
| `PackClient.ClnPackClntManager.QueueInBooks` | internal/app/pack_clnt/cln_pack_clnt.go:394-416 | Both books are queued, or the first only when the second update fails |
| `Forwarding.QueueBound` | util/MessageQueue/MessageQueue.go:224-239 | Under every interleaving queued messages plus writers past the gate never exceed nine plus the number of producers, or the messages found in the queue at the start if those were more |
| `Forwarding.QueueBoundIsTight` | internal/app/pack_clnt/cln_pack_clnt.go:240-280 | Checking and writing are separate steps: for every number of producers a run reaches that bound |
| `Forwarding.ByteConservation` | internal/app/exchange_service/cln_esr_clnt.go:121-178 | From any messages found in the queue, in every reachable state the order payloads found and accepted are wire, rest in hand and queue, in order, if and only if no step was a write that failed for now after putting bytes of the message in hand on the wire; the wire is then a prefix of them, also after a fatal error |
| `Forwarding.PayloadOfMessage` | internal/app/exchange_service/cln_esr_clnt.go:129-160 | Of a queued message the first 338 bytes are forwarded, if it is an order message, and else nothing |
| `Forwarding.CleanErrorsConserve` | internal/app/exchange_service/cln_esr_clnt.go:225-231 | If every temporary error reports no written bytes, nothing is lost, repeated or reordered in any run, of what was found in the queue neither |
| `Forwarding.MessageGarbled` | internal/app/exchange_service/cln_esr_clnt.go:225-231 | One temporary error after one byte is enough: for every order message there is a run in which its first byte is on the wire twice |
| `Forwarding.TransmitAccounts` | internal/app/exchange_service/cln_esr_clnt.go:221-254 | One message arrives unchanged, followed by its unsent rest, if and only if no write outcome is a temporary error with bytes written while the outcomes before it have neither finished nor ended the message |
| `Forwarding.ByteSentTwice` | internal/app/exchange_service/cln_esr_clnt.go:225-231 | Two bytes, a temporary error after the first one and a full write put the first byte on the wire twice |
| `Forwarding.TransmitIsARun` | internal/app/exchange_service/cln_esr_clnt.go:223-250 | The writing loop is a run of single socket steps with the same wire, rest and repeated bytes |
| `Forwarding.FnWriten` | internal/app/exchange_service/cln_esr_clnt.go:184-255 | The loop puts out exactly what the transmission of the message, cut to the given size, puts out, and succeeds exactly when it is done |
| `Forwarding.SendThrd` | internal/app/exchange_service/cln_esr_clnt.go:116-182 | The sending loop, whichever of its queue reads fail, is a run of the system; it drains the queue unless a write fails |
| `MessageQueue.RoundTrip` | util/MessageQueue/MessageQueue.go:62-206 | Whatever trails the over-long struct, the reader gets type and payload back if and only if the type is 2000, 5105 or 2320 as the struct is an order, log-on or log-off message, and type plus text fit its 400 bytes |
| `MessageQueue.MessageQueueManager.WriteToQueue` | util/MessageQueue/MessageQueue.go:62-135 | Appends the struct's bytes to the queue, or changes nothing when the kernel refuses |
| `MessageQueue.MessageQueueManager.ReadFromQueue` | util/MessageQueue/MessageQueue.go:137-209 | Removes the oldest message and returns what its type makes of it; an unknown type is lost; a failed call changes nothing |
| `MessageQueue.MessageQueueManager.ReceiveMessageFromQueue` | util/MessageQueue/message_queue.c:96-109 | The oldest message, type first, at the front of the buffer, or -1 with queue and buffer unchanged |
| `MessageQueue.MessageQueueManager.FnCanWriteToQueue` | util/MessageQueue/MessageQueue.go:224-239 | Passes exactly when the status can be read and fewer than ten messages wait |
| `MessageQueue.MessageQueueManager.FlushMessageQueue` | util/MessageQueue/message_queue.c:125-146 | Terminates whatever the interrupts and signals; returns 0 with the queue empty if and only if every message fits the buffer and no call breaks, or is followed by a signal, before one finds the queue empty; otherwise -1, and only messages from the front are gone |
| `Deframing.DeframeIsFaithful` | internal/app/exchange_service/cln_esr_clnt.go:334-364 | Frames that declare their own length come out one by one exactly as they went in if and only if every one of them has at least 24 bytes |
| `Deframing.ShortFrameSwallows` | internal/app/exchange_service/cln_esr_clnt.go:336-353 | A frame shorter than the padded header takes the start of the next frame with it |
| `Deframing.DeframeConserves` | internal/app/exchange_service/cln_esr_clnt.go:334-364 | For any stream the frames and the rest together are the stream |
| `Deframing.CutStreamYieldsPrefix` | internal/app/exchange_service/cln_esr_clnt.go:366-401 | A stream of long enough frames cut anywhere gives exactly the frames that lie wholly before the cut and never part of one |
| `Deframing.UsableWhenNonEmpty` | internal/app/exchange_service/cln_esr_clnt.go:377-393 | Split into non-empty reads in any way, the stream read is the stream sent |
| `Deframing.ReadXchngSocket` | internal/app/exchange_service/cln_esr_clnt.go:334-364 | One call consumes and returns exactly the next frame of the remaining stream, or fails when there is none |
| `Deframing.AnyChunkingIsFaithful` | internal/app/exchange_service/cln_esr_clnt.go:334-401 | However the bytes of self-describing frames are split into non-empty reads, the frames read are those frames if and only if each has at least 24 bytes |
| `Deframing.ReadFrames` | internal/app/exchange_service/cln_esr_clnt.go:261-267 | Repeated reading returns all frames of the stream up to the first failing read |
| `Deframing.ReadNBytes` | internal/app/exchange_service/cln_esr_clnt.go:366-401 | Returns and consumes exactly the next bytes, or fails exactly when fewer arrive |
| `Receiving.RcvThrd` | internal/app/exchange_service/cln_esr_clnt.go:257-332 | Decodes exactly the order-sized frames at the front of the stream and stops at the first of any other size; each response has every number of its frame read highest byte first and every array as it stands, at the documented bytes |
| `Receiving.DispatchFrame` | internal/app/exchange_service/cln_esr_clnt.go:273-323 | Only a frame of 338 bytes yields a response, which is that frame read highest byte first; the 300-byte sign-on response never fills its 308-byte struct |
| `Receiving.LeadingIsMaximal` | internal/app/exchange_service/cln_esr_clnt.go:273-323 | The frames decoded are the longest run of order-sized frames at the front |
| `Receiving.ResponseReadsFrame` | internal/app/exchange_service/cln_esr_clnt.go:295-301 | Each of the 62 fields of a response is the number or the array at its documented byte of the frame, numbers highest byte first |
| `Receiving.PackedOrdersAreAnswered` | internal/app/exchange_service/cln_esr_clnt.go:257-323 | Of a stream of packed orders that declare their length, split into non-empty reads in any way, the loop decodes every one, with each scalar byte-reversed and each array as it is |
| `Receiving.PacketDeclares` | internal/app/exchange_service/cln_esr_clnt.go:336-346 | A packed order is a frame to the reader if and only if its length field holds 338 with the two bytes exchanged |
| `Codec.DecodeEncode` | util/TypeConversionUtil/type_conversion_util.go:118-126 | Every list of well-formed fields, encoded in either byte order and followed by any bytes, decodes to itself |
| `Codec.EncodeInjective` | util/TypeConversionUtil/type_conversion_util.go:118-126 | Field lists of one layout with equal bytes are equal |
| `Codec.CrossEndianRead` | internal/app/exchange_service/cln_esr_clnt.go:295-301 | Reading big-endian what was written little-endian reverses the bytes of every scalar and leaves byte arrays alone |
| `Codec.SwapFieldTwice` | util/OrderConversion/order_conversion.go:17-51 | That reversal is an involution |
| `Layout.BodyFieldAt` | internal/models/models.go:288-359 | Each of the 64 fields of an order stands in the 316 encoded bytes at its documented offset, in either byte order |
| `Layout.PacketFieldAt` | internal/models/models.go:187-196 | In the 338-byte packet every body field stands 22 bytes further on, and the message number at offset 2; `Wire.PacketOnWire` names the fields |
| `Wire.PacketOnWire` | internal/models/models.go:288-359 | Each of the 67 named fields of network header, message header, order, contract descriptor and flags stands, low byte first, at its documented byte of the packet |
| `Models.FieldIsAtOffset` | util/TypeConversionUtil/type_conversion_util.go:118-126 | The encoding of any record has the encoding of each field at the sum of the sizes before it |
| `Layout.TwoStagesAreFlat` | internal/app/packing_service/fo_exg_pack_lib.go:611-631 | Encoding header, descriptor and flags into byte arrays and then the outer record gives the 316 bytes of the flat record |
| `Layout.BodyPlacement` | internal/models/models.go:209-286 | The body has 316 bytes with the header at 0, the descriptor at 58 and the flags at 164 |
| `Layout.PacketPlacement` | internal/app/packing_service/fo_exg_pack_lib.go:633-641 | The packet has 338 bytes: the network header and then the body |
| `Layout.ReceiverView` | internal/models/models.go:652-655 | The receiver's struct read little-endian recovers every packed field; read big-endian, as the receive loop does, it yields every scalar byte-reversed, and reversing again restores it |
| `OrderConversion.ConvertOrderReqResToNetworkOrder` | util/OrderConversion/order_conversion.go:77-110 | Whole-record conversion to network order preserves every field of request, header and descriptor |
| `OrderConversion.ConvertInt32ToNetworkOrder` | util/OrderConversion/order_conversion.go:29-39 | Putting and getting in the same byte order is the identity on every 32-bit value |
| `OrderConversion.ConvertFloat64ToNetworkOrder` | util/OrderConversion/order_conversion.go:65-75 | The identity on every 64-bit pattern, so also on floats as bits |
| `Packing.ExchngPackLibMaster.FnPackOrdnryOrdToNse` | internal/app/packing_service/fo_exg_pack_lib.go:116-648 | Succeeds exactly when the order is packable and a sequence number was issued; the counters, the queue packet and the two fields a later order can still see are those of the specification, also after a failure half-way |
| `OrderMeaning.BodySays` | internal/app/packing_service/fo_exg_pack_lib.go:196-504 | Every field of a packed order has the value its columns call for, codes written out: 1 exactly for a buy and 2 exactly for a sell, volumes left against the smaller quantity, good-till date, account and settlor in capitals, client indicator, algorithm by source flag, program flag or id, PAN, flags and constants |
| `OrderMeaning.DescriptorSays` | internal/app/packing_service/fo_exg_pack_lib.go:650-722 | Of every contract with a descriptor: the instrument name with its exact condition, the symbol, the expiry plus 315513000 seconds, strike -1 for futures and else the column, option type then exercise type in the code, X where there is none |
| `OrderMeaning.PackableExactly` | internal/app/packing_service/fo_exg_pack_lib.go:116-504 | Exactly which orders pack, each condition on a column written out |
| `OrderMeaning.PacketSays` | internal/app/packing_service/fo_exg_pack_lib.go:583-644 | The packet of an order that packs carries that order, and the issued number in its network header |
| `OrderMeaning.MemorySays` | internal/app/packing_service/fo_exg_pack_lib.go:196-504 | What any order leaves behind for the next one: the packet and the PAN only if it packs, the date as soon as it comes to it |
| `Packing.ExchngPackLibMaster.PackHeader` | internal/app/packing_service/fo_exg_pack_lib.go:198-222 | Fails exactly on a trader id that is no number; else every header field, time stamps included, has its value whatever it held before |
| `Text.AtoiReadsDecimal` | internal/app/packing_service/fo_exg_pack_lib.go:198-203 | A trader id is read from its decimal digits behind any zeros and an optional sign, if it fits 64 bits |
| `Text.AtoiReadsOnlyDecimal` | internal/app/packing_service/fo_exg_pack_lib.go:198-203 | Nothing else is read as a number |
| `Packing.ExchngPackLibMaster.FnOrstonseCntrctDesc` | internal/app/packing_service/fo_exg_pack_lib.go:650-722 | The descriptor of the contract, or failure exactly for a product, category or date that has none |
| `Packing.ExchngPackLibMaster.PackMiddle` | internal/app/packing_service/fo_exg_pack_lib.go:255-327 | Volumes, prices and dates; failure exactly for another request type, book type, side or order type, and the good-till date written by then stays |
| `Packing.ExchngPackLibMaster.PackTail` | internal/app/packing_service/fo_exg_pack_lib.go:365-504 | Broker, settlor, algorithm and PAN; a failure leaves the PAN of the order before |
| `Packing.ExchngPackLibMaster.Dispatch` | internal/app/packing_service/fo_exg_pack_lib.go:583-644 | The packed structs become the queue packet, staged as the flat layout, under the issued number |
| `Structs.StOrderFlags.PackOrderFlags` | internal/app/packing_service/fo_exg_pack_lib.go:329-363 | Stop-loss always, day exactly for `T`, immediate-or-cancel exactly for `I`, and no bit of the previous word |
| `Structs.StOrderFlags.SetFlag` | internal/models/models.go:436-438 | Sets the bits of the mask and no other, so that the flag reads as set |
| `Structs.StOrderFlags.ClearFlag` | internal/models/models.go:440-442 | Clears the bits of the mask and no other, so that the flag reads as not set |
| `PackingHistory.BodyHistoryIndependence` | internal/app/packing_service/fo_exg_pack_lib.go:196-504 | The 316 body bytes of a packable order are the same after any two histories of packer runs if and only if a `D` order's date parses and the PAN text fills its field |
| `PackingHistory.UncleanOrderShowsItsPast` | internal/app/packing_service/fo_exg_pack_lib.go:310-311 | For every order that fails that test there is a history that shows in its body |
| `PackingHistory.TrimmedPanFillsItsField` | internal/app/packing_service/fo_exg_pack_lib.go:473-479 | A trimmed PAN of at most ten characters always fills the field |
| `PackingHistory.AlgoSentinelNeverSeen` | internal/app/packing_service/fo_exg_pack_lib.go:428-440 | The padded algorithm id is never the sentinel `*` |
| `PackingHistory.OnlyKnownProgramFlagsPack` | internal/app/packing_service/fo_exg_pack_lib.go:410-441 | Outside the flags A, T, Z and G no order with an ordinary algorithm id packs |
| `Contracts.DescriptorInjective` | internal/app/packing_service/fo_exg_pack_lib.go:650-722 | Contracts with any strike have the same descriptor if and only if they are the same contract, or a stock future and the stock option with strike -1 and codes `X` |
| `Contracts.DescriptorBytesInjective` | internal/app/packing_service/fo_exg_pack_lib.go:618-621 | The same for the 28 bytes on the wire |
| `Contracts.NegativeStrikeCollides` | internal/app/packing_service/fo_exg_pack_lib.go:692-696 | Every stock future has such a twin, so the exception is real |
| `Contracts.NonNegativeStrikesTellApart` | internal/app/packing_service/fo_exg_pack_lib.go:692-696 | Without negative option strikes, equal bytes mean the same contract |
| `Contracts.PaddedSymbolInjective` | util/TypeConversionUtil/type_conversion_util.go:18-34 | Blank padding of upper-case symbols without trailing blanks can be undone |
| `TypeConversion.SequenceTable.GetResetSequence` | util/TypeConversionUtil/type_conversion_util.go:69-108 | One draw, including a missing row, an overflow and both database errors; other keys keep their counters |
| `TypeConversion.DrawOutcomes` | util/TypeConversionUtil/type_conversion_util.go:69-108 | A draw fails exactly if the update fails, or the reset that follows 2147483646; otherwise it gives the next number modulo 2147483647, and 0 where there is no row |
| `TypeConversion.DrawsClosedForm` | util/TypeConversionUtil/type_conversion_util.go:76-107 | The k-th number drawn is the start plus k modulo 2147483647, which is never issued; other pipes and dates keep their counters |
| `TypeConversion.DrawsRepeatOnlyAfterARound` | util/TypeConversionUtil/type_conversion_util.go:90-107 | Two draws give one number if and only if they are a whole number of rounds apart |
| `TypeConversion.CopyAndFormatSymbol` | util/TypeConversionUtil/type_conversion_util.go:18-34 | Upper case, cut to the width, padded with blanks, whatever the destination held |
| `Passwords.FngenerateNewPassword` | util/password_utils.go:20-62 | For any random choices on which it returns: seven characters, three capitals, one lower-case, one special and two digits in any order, different from the old password |
| `Passwords.ShuffleInPlace` | util/password_utils.go:73-80 | The shuffle is a permutation |
| `Passwords.Fnencrypt` | util/password_utils.go:82-92 | The shift of the runes by byte position, also for text that is not ASCII |
| `Passwords.Fndecrypt` | util/password_utils.go:94-104 | The opposite shift |
| `Passwords.RuneShifted` | util/password_utils.go:82-104 | Every UTF-8 rune is shifted as its low byte, by two at an even and by one at an odd byte position |
| `Passwords.BrokenByteShifted` | util/password_utils.go:82-104 | A byte at which no rune starts is shifted as the low byte of the replacement rune |
| `Passwords.DecryptEncrypt` | util/password_utils.go:82-104 | Decryption undoes encryption of an ASCII text if and only if it has no code above 125 at an even and above 126 at an odd position |
| `Passwords.GeneratedPasswordSurvivesStorage` | internal/app/exchange_connection/LogOnToTap.go:146-237 | A generated password encrypted, stored, trimmed and decrypted is itself again |

## Left out

- SQL text, connections, blank padding of CHAR columns and date conversion: references are held without blanks, columns
  hold what the queries compare and return, and an acknowledgement time is stored as given.
- Other writers of the two tables while the client runs: the books change only through the client.
- Runs longer than one process: the next one starts from the queue it finds, but the rest of a message that the sender
  had in hand when it ended is not followed.
- The transaction handle: reads and updates do not go through it, so begin and commit only decide whether the turn
  goes on.
- Parsing of RFC 3339 dates and of the acknowledgement number: the parsed value, or its absence, is an argument.
- MD5 and JSON: the digest is an arbitrary text of 32 characters.
- Upper case, trimming and number parsing outside ASCII, and digits separated by underscores.
- The `ToHostOrder` conversions: their code is that of `ToNetworkOrder`, so they are the same identity.
- The CTCL id, which the packer edits but never puts into the message.
- `Packing.ExchngPackLibMaster`: fixed-size byte arrays in structs are sequence values of their length, so aliasing
  through slices is not captured. The structs without effect on a later order are covered by `Valid` alone.
- `TypeConversion.CopyAndFormatSymbol`: returns the new content of the destination instead of writing through a slice.
- `Forwarding.SendThrd`: ends where the loop would block on an empty queue. Running out of write outcomes counts as a
  permanent error.
- `Deframing.ReadNBytes`: deadlines. The receive loop passes a timeout of zero, so none is ever set and the timeout
  branch is not taken; the kinds of read error are one, since the caller treats them alike.
- `Passwords.FnshuffleString`: a failing random source, which would stop the program there, gives no password.
- Quality of the random numbers and whether regeneration ends with probability one.
- Log-on and log-off flows beyond their queue messages: the same layouts and queue again, with no new property.
- `CopyAndFormatPassword`, the password log file, logging, configuration, containers, process start and the
  commented-out files.
- `Downloads.JiffiesStayDistinct`: needs responses that carry the exchange and pipe of their row;
  `Downloads.AcceptedKeepsDistinct` gives the exact condition without that.
- `Draining.StrictDrainOrder`: strict order and the exact set drained need numbers unique within the scope, which no
  constraint in the source enforces; `Draining.DrainOrder` holds without them.
- The length field of a packet, which the packer fills with the size of two addresses, is 16 as on a 64-bit platform.
