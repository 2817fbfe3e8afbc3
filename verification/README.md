# async-fcgi in Dafny

A model of the web-server side of FastCGI as async-fcgi implements it, and proofs about it. The protocol is
FastCGI 1.0: records (section 3.3), name-value pairs (section 3.4) and the application records (sections 5.1 to 5.5).

| file | what it models |
|---|---|
| Octets.dfy | bytes, big-endian numbers, lists of byte strings |
| BufVec.dfy | the buffer queue (`src/bufvec.rs`) |
| Records.dfy, Reader.dfy | headers, record bodies, the incremental and the whole-record parser (`src/fastcgi.rs`) |
| Automaton.dfy | a reference reader that takes one byte at a time |
| NameValue.dfy, NvBody.dfy | name-value pairs, and packing pairs into record bodies (`src/fastcgi.rs`) |
| Framing.dfy, Codec.dfy | cutting streams into records, and the writer (`src/codec.rs`) |
| Requests.dfy | the slab of requests, distribution of records to it, a byte-wise reference demultiplexer |
| Connection.dfy, Forwarding.dfy | the objects of `src/client/connection.rs`: shared connection, response bodies, sending, beginning a request |
| EndToEnd.dfy | from the peer's records over a network that cuts anywhere into the requests' buffers |
| Numbers.dfy | the bytes of the protocol in literal numbers, and what they do, without the functions that write and parse them |
| Client.dfy | one connection with all its requests as a transition system |
| Ownership.dfy, Delivery.dfy, Senders.dfy | the invariants of that system |
| Runs.dfy, Release.dfy | what follows for every reachable state: ownership, order, completeness, slots given back |
| Wakers.dfy | a body that waits has its waker stored, in every run |
| Link.dfy | the bytes of a connection: reader, read buffer, network and wire, with records in pieces of any size |
| Moves.dfy | the connection as it runs in bytes: moves, courses of events, and why each is a run of the transition system |
| Leaks.dfy, Rescues.dfy | which slots are lost, and how every other slot can still be given back, over courses of events in bytes |
| Histories.dfy | courses of events in bytes that show what the theorems speak of |

Code that updates state is a class or a method here and is proved against a function; what the code is for is then
proved about the function. A step of the transition system is one critical section under the connection's mutex (or a
step of the semaphore or of the peer), and uses the same functions as the methods: `Dispatch`, `NotifyAll`,
`PollSlot`, `PushBack`, `Abort`. In `Moves` the same happens in bytes: the peer writes padded records, the socket gives
out any first part of what has arrived, reports its end or fails, and a poll is `PollStep` on the bytes that the read
buffer holds. Every course of such events is a run of the transition system (`Moves.CourseIsRun`), so that what `Runs`
and `Release` say about reachable states holds for it; what can still happen is stated over courses of events only
(`Rescues.FreedUnlessDoomed`), since bytes that are already in the read buffer restrict it.

What the system takes for granted of its surroundings: the peer sends records for a request only between its begin
record and its end record, divided and padded as it likes; one read may bring any first part of what has arrived; a
connection that has been reported dead, and a transport that has failed a write, stay so until they are replaced; a
panic ends everything, so that no course of events goes on behind one. `forward` waits for the request body to be sent
and for the header of the response: the caller gets the response body only after both, and if sending fails, or the
caller gives up waiting, the response body is dropped.

## What the proofs found

Each of these is a property one would expect, that the code does not have, with the exact condition under which it
does.

- Four-byte lengths cannot be decoded: `param_length` reads a 32-bit number from a slice of three bytes, which panics.
  Decoding inverts encoding exactly on pairs whose parts have at most 127 bytes (`NameValue.WrittenDecoderLimits`);
  the decoder of section 3.4 inverts it on all pairs (`NameValue.PairsRoundTrip`).
- Draining a packed body never ends if a pair without a name has anything behind it, because the empty name is stored
  as an empty buffer (`NvBody.DrainStalls`). Packing and draining a list returns the list exactly if no body is clogged
  in this way and all pairs are short (`NvBody.UnpackReturnsPairs`).
- The handover from header parsing to the body pushes what is left over to the back of the buffer. The output keeps its
  order, whatever its bytes, exactly if nothing is left over or nothing was queued meanwhile (`Runs.HandoverOrder`); and
  that is the only reordering there is (`Runs.NoCrossTalk`). Two output records in one read are enough to swap them
  (`Histories.HandoverReorders`).
- A read buffer that holds only a part of a header, or only a part of late padding, makes the connection count as
  closed, for good, since those bytes hide the socket (`Connection.WhenClosed`, `Connection.ClosedStaysClosed`,
  `Connection.CutHeaderCloses`).
- An end record that arrives in two pieces panics, and so does one whose padding arrives after its body, since late
  padding brings an empty record of the same type. On acceptable records, padded or not, a cutting panics exactly if it
  does one of these (`Requests.DemuxCutIndependence`, `Requests.SplitEndPanics`, `EndToEnd.LatePaddingPanics`).
- Slots are lost. After every course of events in bytes a taken slot can still be given back by some further course
  exactly if none of ten reasons holds (`Rescues.FreedUnlessDoomed`), and each reason alone occurs
  (`Histories.EveryDoomHappens`). Three are final at once: the request was refused in the middle of its parameters; a
  write failed after its slot was taken; its body was dropped while the mutex was taken. Six are about requests that
  only their end record frees, because their body was dropped or forwarding them has failed: the connection is lost, or
  has been replaced; the end record came before; the read buffer holds a part of a header or of padding, which hides
  the socket; an end record was read without its padding, behind which nothing can be read; or nobody polls the
  connection any more. The last reason is about a request body that this transport does not take any more, when all IDs
  are taken and no other request can be freed. With `max_req_per_con` 1, dropping a single unfinished body blocks the
  connection for ever.
- A sender that goes on after its connection has been replaced writes to the new transport. What it writes there has an
  ID that has not begun on it, and is input, its end, or an abort; no other record comes before the begin of its ID
  (`Runs.StrayRecords`, `Histories.StrayInputHappens`).

## Model

| member | source | states |
|---|---|---|
| BufVec.DroppedIsFlat | src/bufvec.rs:39-56 | dropping bytes from the list of buffers drops the same bytes from the flat queue, and no empty buffer appears |
| BufVec.EmptyHeadStalls | src/bufvec.rs:33-36 | the chunk of a nonempty queue is empty exactly if an empty buffer is in front, and then consuming it changes nothing |
| BufVec.BufList.Push | src/bufvec.rs:16-19 | a buffer, empty or not, joins at the back |
| BufVec.BufList.Oldest | src/bufvec.rs:22-24 | the front buffer is taken off, None on an empty queue |
| BufVec.BufList.Remaining | src/bufvec.rs:29-31 | the sum over the buffers is the length of the flat queue |
| BufVec.BufList.Advance | src/bufvec.rs:39-56 | the loop leaves the queue with cnt bytes dropped, or empty |
| BufVec.BufList.CopyToBytes | src/fastcgi.rs:599-601 | copying chunk by chunk ends with exactly the first len bytes and leaves the others, or never ends, exactly if an empty buffer is reached before |
| Records.NewHeader | src/fastcgi.rs:305-317 | content and padding together are a multiple of eight, padding is below eight |
| Records.HeaderRoundTrip | src/fastcgi.rs:318-338 | a written header parses back to itself whatever follows it |
| Numbers.RecordInNumbers | src/codec.rs:100-131 | a written record byte by byte: version 1, the code of its type from 1 to 11, ID and length high byte first, padding to a multiple of eight, a zero, the payload |
| Numbers.HeaderInNumbers | src/fastcgi.rs:318-338 | the same for a record with any version and any padding, as a peer may write it |
| Numbers.FragmentInNumbers | src/fastcgi.rs:373-428 | what an idle reader makes of any bytes, from their numbers: which type, ID, content and padding, when it starves, and that only codes 1 to 11 are accepted |
| Numbers.BodiesInNumbers | src/fastcgi.rs:460-475 | which body is parsed for each type, with which content, and when parsing panics |
| Reader.ReaderProgress | src/fastcgi.rs:373-428 | a saved header always owes a byte, every delivery shrinks the data, and a starved reader is in one of three resting positions |
| Reader.RecordReader.Read | src/fastcgi.rs:373-428 | the method returns and saves what the specification of the next fragment says, including the late-padding and panic cases |
| Reader.ReadWhole | src/fastcgi.rs:438-458 | a record only if header, content and padding are all there; otherwise the data is untouched |
| Reader.WholeIsIncremental | src/fastcgi.rs:438-458 | where the whole-record parser succeeds, and only there, an idle incremental reader delivers a fragment and stays idle, and it is the same one |
| Reader.ParsersAgree | src/fastcgi.rs:373-458 | on every buffer the whole records are the first ones the incremental reader yields, and then both see the same bytes |
| Reader.ParsersAgreeOnRecords | src/fastcgi.rs:373-458 | on a buffer of complete records both parsers give the same list and consume everything |
| Automaton.NextRefines | src/fastcgi.rs:373-428 | one call of the batched reader does what the byte automaton does on the same bytes |
| Automaton.DrainRefines | src/client/connection.rs:797 | draining reports the automaton's tagged bytes and stops in the automaton's state |
| Automaton.CutIndependence | src/fastcgi.rs:384-427 | any two cuttings of a stream report the same tagged bytes, fail together, and leave the same saved header and unread bytes |
| Automaton.RecordsSurviveCutting | src/fastcgi.rs:373-428 | records cut anywhere arrive with all payload bytes in order, tagged as sent, and the reader ends idle |
| NameValue.PairLenIsSize | src/fastcgi.rs:275-287 | the computed size of a pair is the size of its encoding |
| NameValue.NVDrain.Next | src/fastcgi.rs:609-614 | the iterator yields the next pair as the decoder as written finds it, ends on empty data, or panics |
| Numbers.PairInNumbers | src/codec.rs:406-444 | a pair byte by byte: lengths below 128 in one byte, others in four with the top bit set, then name and value |
| NameValue.PairsRoundTrip | src/fastcgi.rs:240-254 | the decoder of section 3.4 inverts the encoder on every list of encodable pairs |
| NameValue.WrittenDecoderLimits | src/fastcgi.rs:262-274 | the decoder as written inverts it exactly on lists of short pairs and panics on all others |
| NameValue.WrittenDecoderSound | src/fastcgi.rs:262-274 | on any bytes, where the decoder as written succeeds it agrees with section 3.4 |
| NameValue.LongValuePanics | src/fastcgi.rs:265-268 | a pair with a value of 128 bytes panics as written and decodes as specified |
| NvBody.FitsOneBody | src/fastcgi.rs:540-558 | a pair fits exactly if the longer list is one record's body; then the later size checks cannot fail |
| NvBody.NVBody.Fits | src/fastcgi.rs:540-543 | whether the pair still fits the record |
| NvBody.NVBody.Add | src/fastcgi.rs:544-589 | refuses exactly the pairs that do not fit; otherwise the stored bytes and the length are those of the longer list |
| NvBody.NVBody.ToRecord | src/fastcgi.rs:519-539 | the header is the fresh header of a record with the encoded pairs; types that carry no pairs panic |
| NvBody.NVBody.Drain | src/fastcgi.rs:599-601 | the iterator holds exactly the encoded pairs and the body is left empty; draining never ends exactly if the body is clogged |
| NvBody.PackConserves | src/fastcgi.rs:629-637 | packing one more pair keeps every body within one record and conserves pairs and order |
| NvBody.PackAllConserves | src/fastcgi.rs:648-655 | packing a whole list keeps every body within one record and conserves pairs and order |
| NvBody.PackAllIsTight | src/fastcgi.rs:629-637 | no body is closed too early: the first pair of the next one would have made it too long |
| NvBody.NVBodyList.Add | src/fastcgi.rs:629-637 | the pair goes to the last body if it fits and to a new one otherwise |
| NvBody.NVBodyList.Extend | src/fastcgi.rs:648-655 | the loop packs the whole list behind what is held |
| NvBody.FromIter | src/fastcgi.rs:640-646 | a list made from pairs holds exactly these pairs in order, every body within one record |
| NvBody.DrainStalls | src/fastcgi.rs:599-601 | draining a body never ends exactly if a pair without a name has anything behind it |
| NvBody.DecodingReturnsPairs | src/fastcgi.rs:599-614 | decoding packed bodies in order returns the pairs; with the decoder as written exactly if all are short |
| NvBody.PackThenDrain | src/fastcgi.rs:599-655 | for every list of pairs that fit records: packed, each body within its record, and decoded body by body, it is the list again |
| NvBody.NVBodyList.DrainAll | src/fastcgi.rs:599-614 | draining body after body gives what unpacking the held pairs gives, hanging and panicking where it does |
| NvBody.UnpackReturnsPairs | src/fastcgi.rs:599-614 | and that is the packed list exactly if no body is clogged and all pairs are short |
| Framing.AppendTwice | src/codec.rs:178-203 | appending in two steps writes the same records and keeps the same rest as appending at once |
| Framing.CanonicalFraming | src/codec.rs:178-203 | however a payload is divided among the appends, the wire depends only on the whole |
| Framing.FramedStream | src/codec.rs:178-229 | a stream consists of full records, one padded rest if there is any, and an empty record, carrying the payload |
| Framing.StreamUnique | src/codec.rs:178-229 | that shape admits exactly one list of records |
| Framing.FramersAgree | src/codec.rs:288-322 | a stream and a flushed chunk followed by a flushed empty chunk are the same bytes, padding included |
| Framing.FlushCarries | src/codec.rs:288-322 | a flushed nonempty chunk is carried by nonempty records only |
| Framing.DeframeWire | src/codec.rs:178-322 | what is written as records is parsed back as those records, with nothing left |
| Framing.StreamRoundTrip | src/codec.rs:231-245 | payload to wire to any chunks to the incremental reader gives exactly the payload and an idle reader |
| Codec.FCGIWriter.WriteWholeBuf | src/codec.rs:91-98 | the loop writes the whole buffer, or a proper prefix of it exactly if the transport fails |
| Codec.FCGIWriter.EncodeBegin | src/codec.rs:102-113 | writes the 16 bytes of a begin record, given as numbers: role high byte first, flags, five zeros |
| Codec.FCGIWriter.EncodeAbort | src/codec.rs:114-118 | writes the eight bytes of an abort record, given as numbers |
| Codec.FCGIWriter.EncodeEnd | src/codec.rs:119-131 | writes the 16 bytes of an end record, given as numbers, with both statuses |
| Numbers.BeginDeframed | src/codec.rs:102-113 | the peer that parses a begin record finds its ID, role and flags, for every role and flags |
| Numbers.EndDeframed | src/codec.rs:119-131 | parsing a written end record gives back both statuses, or fails exactly on a status above 3 |
| Codec.FCGIWriter.EncodeKvp | src/codec.rs:158-172 | writes the encoded pairs as one stream |
| Codec.FCGIWriter.AppendToStream | src/codec.rs:178-203 | writes the full records of pending bytes and value and keeps the rest; on failure a proper prefix of them |
| Codec.FCGIWriter.EndStream | src/codec.rs:206-229 | writes the pending bytes padded, if any, and the empty record |
| Codec.FCGIWriter.EncodeData | src/codec.rs:231-245 | writes one whole stream |
| Codec.FCGIWriter.DataStream | src/codec.rs:248-283 | writes the stream of all good chunks, or its full records and an abort exactly if the body is too short |
| Codec.BodyOnWire | src/codec.rs:248-283 | a body that is long enough is on the wire as exactly one stream that carries its good chunks; a short one as full records of 65528 bytes that carry its start, with at most one record's content left over, and an abort |
| Codec.FCGIWriter.FlushDataChunk | src/codec.rs:288-322 | writes the records of the chunk and leaves the stream open |
| Codec.NameValuePairWriter.AddKv | src/codec.rs:406-444 | appends exactly the encoding of the pair to the stream |
| Codec.NameValuePairWriter.Extend | src/codec.rs:388-396 | appends the encodings of all pairs in order behind what is pending |
| Codec.NameValuePairWriter.Flush | src/codec.rs:379-385 | ends the stream |
| Codec.ParamsRoundTrip | src/codec.rs:406-444 | the peer that parses the records, joins their contents and decodes as specified gets the same pairs, straddling records or not |
| Codec.ShortBodiesLookShort | src/codec.rs:262-281 | the empty end record is on the wire exactly if the body has the announced length, an abort exactly if not |
| Numbers.OutputInNumbers | src/client/connection.rs:829-863 | an output record, given in numbers, puts exactly its content behind what is buffered for its request and takes the waker; nothing else changes |
| Numbers.IgnoredInNumbers | src/client/connection.rs:798-863 | error output, and output without content, of an aborted request or for nobody, change nothing |
| Numbers.EndingInNumbers | src/client/connection.rs:808-827 | an end record, given in numbers, ends its request, or frees the slot of an aborted one, and panics exactly if its status is above 3 |
| Requests.PollAnswers | src/client/connection.rs:740-769 | one poll of a slot: the oldest buffer, the end, or waiting with the waker stored, and when the slot is given up |
| Requests.LossEnds | src/client/connection.rs:777-790 | the loss of a connection takes every waker and ends every request that was not aborted |
| Requests.DropAborts | src/client/connection.rs:664-680 | dropping aborts the request and removes its waker; no other request changes |
| Requests.LeftGoesLast | src/client/connection.rs:485-491 | left-over bytes join behind everything that is buffered; no other request changes |
| Requests.DispatchRefines | src/client/connection.rs:797-865 | dispatching a record is dispatching its tagged bytes one by one, as the requests see it |
| Requests.DistributeRefines | src/client/connection.rs:791-866 | distributing bytes is the reference reader followed by the reference demultiplexer |
| Requests.DistributePanics | src/client/connection.rs:797-807 | on acceptable records, padded or not, a panic means exactly that the data ends inside a body that must be whole, or completes the padding of one delivered before |
| Requests.DemuxCutIndependence | src/client/connection.rs:791-866 | a cutting panics exactly if it cuts a whole body or separates it from the end of its padding; cuttings that do not panic leave the same buffered bytes, flags, vacancies, saved header and unread bytes |
| Requests.SplitEndPanics | src/fastcgi.rs:667-674 | an end record in one piece is accepted, the same one in two pieces panics |
| Requests.ClosedVerdict | src/client/connection.rs:637-652 | nothing is consumed exactly if the buffer holds part of a header or part of late padding |
| Connection.PollReports | src/client/connection.rs:605-656 | what a poll of the connection reports and leaves, from the socket, the saved header and the unread bytes |
| Connection.WhenClosed | src/client/connection.rs:605-656 | the connection is reported closed exactly at the end of the stream or with such a buffer |
| Connection.ClosedStaysClosed | src/client/connection.rs:616-654 | with bytes left over, every later poll finds the same state and reports closed again |
| Connection.CutHeaderCloses | src/client/connection.rs:649-651 | one byte of a header ends a request of a healthy connection |
| Connection.DistributeIsDispatch | src/client/connection.rs:797-865 | distributing bytes dispatches the records of the drained fragments in order |
| Connection.InnerConnection.ParseAndDistribute | src/client/connection.rs:791-866 | the loop has the effect of the distribution function on slab, reader and data |
| Connection.InnerConnection.DispatchRecord | src/client/connection.rs:798-864 | one record has the effect of the dispatch function |
| Connection.InnerConnection.NotifyEveryone | src/client/connection.rs:777-790 | every waker is taken, every request that was not aborted is ended |
| Connection.InnerConnection.PollResp | src/client/connection.rs:605-656 | one poll of the connection, with all its outcomes |
| Connection.FCGIBody.PollFrame | src/client/connection.rs:687-772 | one poll of a body: answer, slab, reader and done flag; pending under the lock leaves the waker of its slot set, with nothing buffered and no end; nothing changes when it is done or the mutex is taken |
| Connection.FCGIBody.Handover | src/client/connection.rs:482-519 | left-over bytes go to the back of the buffer and the body counts as returned |
| Connection.FCGIBody.Drop | src/client/connection.rs:664-680 | an unfinished body aborts its request if the lock is free |
| Connection.SendBody | src/client/connection.rs:408-455 | writes the chunks and then the end of the input or an abort, according to the wrapped count of missing bytes |
| Connection.StdInEndsWhenComplete | src/client/connection.rs:418-451 | the application sees the end of the input exactly if nothing is missing, and before it only nonempty input records carrying the chunks |
| Forwarding.Gateway.Acquire | src/client/connection.rs:242-247 | a permit is taken if there is one |
| Forwarding.Gateway.VacantEntry | src/client/connection.rs:271 | the entry is vacant, and new only if none is vacant |
| Forwarding.ReadyWhen | src/client/connection.rs:573-592 | from the bytes offered and the saved header: kept exactly if the poll was quiet or consumed something; replaced exactly if the transport connects and the stream has ended, nothing can be consumed, or the failure was "not connected"; given up exactly otherwise |
| Forwarding.Gateway.CheckAlive | src/client/connection.rs:259-269 | the same for the method, with the new transport and the idle reader it leaves |
| Forwarding.EntryInNumbers | src/client/connection.rs:248-271 | a vacant entry is taken, a new one only if none is vacant; it is empty, and no other entry changes |
| Forwarding.RoomAfterPoll | src/client/connection.rs:791-866 | reading the connection never takes the last vacant entry of a full slab |
| Forwarding.Gateway.Begin | src/client/connection.rs:257-403 | which slot is taken, when the permit comes back, the reader and the unread bytes behind it, and exactly which records, or which proper prefix of them, are written on which transport |
| Forwarding.Gateway.WriteOpening | src/client/connection.rs:275-403 | begin record, parameters, and their end, an abort, or also the end of the input |
| Numbers.OpeningInNumbers | src/client/connection.rs:275-280 | the first record of a request asks for role 1 with flag 1, byte by byte |
| EndToEnd.RecordsReachRequests | src/client/connection.rs:791-866 | good records, padded in any way and cut anywhere, reach the requests as their tagged bytes, unless a cut goes through an end record's body or brings its padding late |
| EndToEnd.ResponseArrives | src/client/connection.rs:797-865 | after a whole response, divided into output and error records and padded in any way, the request has exactly the output and its end, and no other request has changed |
| EndToEnd.LatePaddingPanics | src/fastcgi.rs:411-427 | a padded end record is accepted in one piece and panics when its padding comes later |
| EndToEnd.OwnWire | src/codec.rs:178-229 | what this crate writes is such a stream of padded records, carrying the same records |
| Link.DeliverIsDispatch | src/client/connection.rs:797-865 | distributing the fragments of a read is delivering the records in flight that they are |
| Link.NextPiece | src/fastcgi.rs:373-428 | each fragment the reader finds in a stream of records is a piece of the record it is in, and what is left of the stream is accounted for |
| Link.PeerWrites | src/client/connection.rs:605-656 | a record written by the peer, padded in any way, keeps the link between bytes and state |
| Link.PollSimulated | src/client/connection.rs:605-656 | a poll of the connection, whatever it finds in the bytes, is an event of the transition system, after steps of the peer that bring exactly the pieces read |
| Link.ReadWholeNet | src/client/connection.rs:791-866 | unless the read buffer holds bytes or an end record's padding is owed, one read of all that has arrived brings every message in order and leaves the reader idle |
| Moves.BodyPolled | src/client/connection.rs:687-772 | every poll of a body that does not panic is a move, and leaves the slab, the reader, the read buffer, the permits, the done flag and the output that the functions of the code say; a body that waits has its waker stored |
| Moves.RequestBegun | src/client/connection.rs:257-403 | beginning a request, with a complete or failed opening, on the connection that its check leaves, kept or replaced, is a move that leaves exactly this entry, phase, sender and wire |
| Moves.RequestRefused | src/client/connection.rs:259-266 | on a connection that its check finds unusable the permit comes back and everybody has been notified |
| Moves.PermitTaken | src/client/connection.rs:242-247 | taking a permit is a move that changes nothing else |
| Moves.HandedOverAs | src/client/connection.rs:482-519 | the handover is a move: what is left of the header's bytes goes behind what is queued, and nothing else changes |
| Moves.DroppedAs | src/client/connection.rs:664-680 | a living body can be dropped in every state: its request is aborted if the lock is free, its sender stops, and nothing else changes |
| Link.WriteSimulated | src/codec.rs:91-98 | what any write leaves on the wire, complete or not, is whole records and a part of the next |
| Moves.ChunkSentAs | src/client/connection.rs:418-432 | whatever a chunk of the request body leaves on the wire, there is a move that leaves these bytes and this sender |
| Moves.EndSentAs | src/client/connection.rs:435-451 | and for its end, or the abort |
| Moves.MoveSound | src/client/connection.rs:230-529 | every move of peer or client, in bytes, is steps of the transition system, and keeps the accounts and the link between bytes and state |
| Moves.CourseIsRun | src/client/connection.rs:230-529 | every course of events in bytes, from a new connection, leads to a reachable state of the transition system with the link kept |
| Ownership.CoreStep | src/client/connection.rs:230-529 | every step keeps slot ownership, the number of permits, and that a waker is stored exactly for a body that waits with nothing to read |
| Delivery.FlowStep | src/client/connection.rs:687-866 | every step keeps the accounts of output sent, in flight, distributed, taken, yielded and buffered |
| Senders.WireStep | src/client/connection.rs:257-455 | every step keeps what is on the wire attributable to its request and equal to the request's script |
| Senders.PeerSeesScripts | src/client/connection.rs:257-455 | for every begin record in the bytes, torn at the end or not, the records with its ID up to the next begin are the script of one request |
| Senders.ScriptConforms | src/client/connection.rs:275-451 | a script is a begin record, one parameter stream, nonempty input records, then the end, an abort, or nothing yet; of a refused request the start of its parameters and an abort; of a failed opening a proper prefix of it |
| Runs.RunKeeps | src/client/connection.rs:230-529 | all invariants hold after every run |
| Runs.SlotOwnership | src/client/connection.rs:722-728 | a live body always has a slot of its own and an ID in 1..=max; the missing-slot branch and a failing index are unreachable |
| Runs.PermitConservation | src/client/connection.rs:242-271 | permits, pending requests and slots add up to the limit, and a new entry is always below it |
| Runs.NoSleeperWithWork | src/client/connection.rs:764-766 | a stored waker means an empty buffer and a request that has not ended |
| Wakers.WakerMeansWaiting | src/client/connection.rs:764-766 | in every reachable state a slot has a waker exactly if its body was last answered "pending" and still nothing is buffered, ended or aborted; a living body that waits has its waker until output is queued or the request ends |
| Wakers.WakerStays | src/client/connection.rs:687-866 | from a poll that finds nothing until the next poll of that body, over every continuation, the waker stays exactly until there is something to read, an end, or an abort, and the slot is given up only behind a drop |
| Runs.NoCrossTalk | src/client/connection.rs:740-863 | the output of a request is a prefix of what was sent for it, with what the handover left over moved behind what it found queued, and nothing else changed |
| Runs.EndedBodyIsComplete | src/client/connection.rs:740-763 | a body that has ended has given out everything distributed, in that order, and on a living connection everything sent |
| Runs.IdReuse | src/client/connection.rs:271 | an ID is reused neither while a body with it lives nor while its end record is outstanding on the connection |
| Runs.SendersDemultiplex | src/client/connection.rs:257-455 | for every schedule of senders, with failing writes, the bytes on the wire parse, request by request, into the request's own begin, parameters and input |
| Runs.StrayRecords | src/client/connection.rs:418-451 | a record comes before any begin of its ID exactly if its request is of an earlier connection, and then it is input, its end, or an abort |
| Histories.StrayInputHappens | src/client/connection.rs:418-432 | a course of events after which the last thing on the wire is input for an ID that has not begun there |
| Runs.HandoverOrder | src/client/connection.rs:485-491 | in every reachable state the handover keeps the order of the output, whatever its bytes, exactly if nothing is left over or nothing is queued |
| Histories.HandoverReorders | src/client/connection.rs:482-491 | a course of events in bytes, with two output records in one read and a header of one line end, after which the body has been yielded in the wrong order |
| Release.EndedBodyFinishes | src/client/connection.rs:740-763 | whatever else happens, a returned body of an ended request yields one buffer for each of its polls and is done, its slot free, exactly with the last |
| Rescues.FreedUnlessDoomed | src/client/connection.rs:605-866 | after every course of events in bytes, a taken slot can still be given back by some further course exactly if none of the ten reasons holds |
| Leaks.DoomedForever | src/client/connection.rs:616-827 | whatever happens, in bytes, a doomed slot stays taken and doomed |
| Histories.EveryDoomHappens | src/client/connection.rs:257-455 | each of the ten reasons is the only one after some course of events in bytes |

## Left out

- Sockets, the asynchronous runtime, scheduling and real wakers: a waker is a flag, the transport takes any nonempty
  prefix or fails, and the network delivers arbitrary chunks. Polls that find the mutex taken do nothing.
- Capacity of byte buffers, of the read buffer too, and the uninitialised bytes in a header slot: only contents are
  modelled; the slot holds arbitrary bytes until the header is written into it.
- `src/httpparse.rs`: the header parser appears as its verdict at each poll, whether the header is complete, and as the
  number of bytes it consumes at the handover.
- The loop of `create_response`: it appears as the steps Poll and Handover, and as the method Handover.
- CGI variables and header strategies (`src/client/connection.rs:284-383`): the parameters are a given list of pairs.
- `src/client/con_pool.rs`, `src/stream.rs`, `src/lib.rs`, `src/server/mod.rs`, the examples, logging and formatting.
- `Record::append`, `STDINBody::new` and `BeginRequestBody::new`: used by tests of single records only.
- `Connection::close`: it ends everybody while the socket may still be read; no request can follow it.
- A transport that fails a write and takes bytes again later: it is taken to fail for good, as a broken socket does.
- Cancelling `forward` in the middle of a write, or before its request has begun. Where it waits for the request body or
  for the response it can be cancelled: that drops the response body.
- What a runtime that catches panics does with a connection afterwards.
- Header::parse and Header::write_into are functions on values here: their moving cursors are not modelled.
- FCGIRequest is a value in a sequence, as it is owned by the slab; its buffer is a sequence of byte strings with the
  meaning that BufVec gives it.
- Read: after a panic nothing is stated about the saved header, since a panic ends the model's connection.
- PollResp: after a panic nothing is stated about slab and reader, for the same reason.
- SendBody: its chunks are written one after the other; interleaving with other senders is the subject of the
  transition system. The count of missing bytes wraps as in a build without overflow checks; with them a body longer
  than announced panics instead.
- Acquire: waiting for a permit is a false answer here; in the transition system a request that waits takes no step.
- VacantEntry: which of several vacant entries a slab takes is its own choice; every proof holds for any choice.
- Begin: requires an entry below 65535, vacant or new, which PermitConservation provides, so that the ID cannot be
  truncated.
- Extend: requires every pair to fit a record, as the documentation of `add` does; a larger one panics.
- PollSimulated: requires that the poll does not panic; when it does is the subject of DemuxCutIndependence.
