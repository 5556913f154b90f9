# Verification of the onion circuit

A client builds a circuit over a chain of relays and sends a stream through it in fixed-size cells. Neither side ever
sends a nonce: each derives it from a base nonce, agreed on once per hop, and from local 64-bit counters, one per hop for
BEGIN/CONNECT, one for DATA going down, one for DATA coming up. A relay is not told from which side a DATA cell came; it
takes off its layer if that opens, and otherwise adds a layer and sends the cell up. Everything the system promises rests on
2·3·n counters staying in step over arbitrary interleavings. This project models that protocol and proves what it keeps.

## How the model is built

- **Layer 1, values.** `Nonces.dfy` (counters, the XOR loop), `Onion.dfy` (symbolic authenticated encryption and layers),
  `RelaySpec.dfy` (what one relay does with one cell of one circuit: `Handle`), `ClientSpec.dfy` (sending and opening).
- **Layer 2, the program's own shape.** `ConnState.dfy`, `Repository.dfy`, `RelayNode.dfy`, `RelayHandler.dfy` hold the
  relay's classes with their mutable counters, tables and loops; `ClientCircuit.dfy`, `Receiver.dfy`, `StreamId.dfy` the
  client's; `Selection.dfy` and `Build.dfy` the choice of relays and the EXTEND rounds; `Cells.dfy` the codec and the byte
  streams. Every method is proved against a function of layer 1, or against a function of its own module about which
  lemmas are then proved.
- **Layer 3, runs.** Three state machines whose runs are all interleavings.
  - `Chain.dfy`: one circuit, that is the client, n relays, a FIFO queue per link and direction, and the stream behind the
    exit. One step is one cell handled, one piece read or one request. The invariant is in `ChainInvariant.dfy` (with
    `ChainLinks.dfy`); `ChainFrames.dfy`, `ChainAbove*.dfy`, `ChainBelow.dfy` and `ChainEnds.dfy` show that each kind of
    step keeps it, `ChainRuns.dfy` carries it over runs. Results: `ChainTheorems.dfy` (delivery, drift),
    `ChainStranded.dfy`, `ChainLoss.dfy`, `ChainOneHop.dfy`, `ChainSizes.dfy` and `ChainFinal.dfy` (what is lost, and for how
    long), `ChainStream.dfy` (the upward loop and the END of a stream), `ChainTeardown.dfy`, `ChainNonces.dfy` (which nonces
    are used twice), `ChainWitness.dfy` (runs that exist). `ChainRelay.dfy` shows that the relays of a run are the relays of
    layer 2, from the EXTEND that makes the entry to the sweep that drops it, and `ChainClient.dfy` that its client is the
    client of layer 2.
  - `Sessions.dfy`: a client with any number of circuits over one id counter and one table of local connections.
  - `Wire.dfy`: the bytes coming up a chain of n relays while it is built and used.
  `Build.dfy` shows that a run of `Chain` starts exactly where a build ends, and `BuildRelay.dfy` that EXTEND in a build and on
  the wire is what the relay's handlers make of it.

## What was found

- **Prefixes hold without any half-duplex assumption.** In every run, with DATA flowing both ways in any order, the exit
  writes an in-order prefix of what the client sent and the client opens an in-order prefix of what the exit read
  (`ExitWritesPrefix`, `ClientReceivesPrefix`). What full duplex costs is completeness: a DATA cell from above that meets a
  relay which has already relayed one upwards is turned back and lost, and so is every later one (`DriftLaw`,
  `OvertakenStaysShut`; `FullDuplexLoses` is a run in which it happens).
- **What a run loses.** There are five ways to lose DATA, and a run loses none at all, in either direction, exactly if no step
  of it is one of them (`NoLossExactly`): a cell from above is overtaken at a middle relay, a cell coming up does not fit,
  the exit has no stream or no working connection for what it handles, DATA is put on a link whose reader has dropped the
  circuit or no longer listens, or a reader does so with DATA waiting. With the pieces read in budget the sizes drop out
  (`NoLossExactlyIfHalfDuplex`). What is stranded stays so (`StrandedForGood`), and once everybody who still reads has
  handled what there is, everything has been written, and everything opened, exactly if nothing is stranded
  (`WrittenUnlessStranded`, `ReceivedUnlessStranded`).
- **A failed dial.** With one relay the exit's DESTROY reaches the client, and what comes in the meantime is discarded. With two
  or more it takes the circuit from the exit's neighbour and goes no further up (`ExitTearsTwo`): the client is not told, and
  goes on sending into nothing. `FailedDialStrands` is such a run, half-duplex and with nothing refused by the exit.
- **One hop.** The two ends stay in step under any interleaving (`OneHopStaysInStep`), and the next upward cell opens exactly if
  no piece read up to the one that is due was over the budget (`OneHopOpensExactly`).
- **The first loss is final.** It uses up an upward number, so the client never opens the chunk of that number or a later
  one, however much is still sent (`LossIsFinal`). What comes to the client is a chunk under a layer of every relay or a cell
  some relay has turned back, never both, and the latter ends its receiving loop (`TurnsBack`, `PassedUpAsIs`,
  `TurnedBackEndsReceiving`).
- **One nonce, three counters.** The BEGIN/CONNECT counter, the DATA counter and the upward counter of a hop run over one key
  and one base nonce. The j-th request and the k-th DATA cell are sealed under the same key and nonce at every hop exactly if
  j and k agree modulo 2^64, and likewise the exit's j-th upward chunk: every run in which the client sends DATA uses each
  hop's key twice under one nonce (`RequestAndDataShareNonces`, `TalkingReusesNonces`, `UpwardSharesNonces`), which
  NIST SP 800-38D, section 8, rules out for AES-GCM. The symbolic encryption below does not see the damage; the model only
  records that it happens.
- **Size budget.** A cell that the client's encoder accepts is accepted by every relay on the way down. Upwards each hop adds
  16 bytes, so the binding bound is at the entry relay (`UpwardBudget`), and the client gets nothing from the first chunk on
  that exceeds it (`OverBudgetEndsTheStream`). The exit reads up to 508 bytes at a time, and anything over 492 is lost
  before it leaves the exit, since no encoding is shorter than its data (`FullReadIsLost`).
  A refused cell has used up its nonces (`ClientBudget`), which is why the client must not go on after a refusal.
- **Answers and cells share a link.** Nothing on the wire separates the answers to EXTEND, which the handler of EXTEND reads,
  from the cells, which a reader started later reads. That every reader finds what is meant for it, and stands where a frame
  begins, follows from the order in which the client builds and talks (`ServedAfterCells`, `WaiterFindsAnswer`,
  `ReaderOnBoundary`); the j-th answer the client reads is the one relay j wrote (`JthAnswerIsOfRelayJ`).
- **Repeated relays.** A build over a path that visits a relay twice never succeeds: EXTEND goes round in a circle
  (`BuildSucceedsIff`). The selection never produces such a path if relays have endpoints of their own.
- **A failed build is not torn down.** The client's 20 bytes never make a cell (`TeardownIsNoCell`), and the relays reached
  keep the circuit until their sweep (`FailureLeavesPrefix`).
- **END and DESTROY.** The sequence diagram of the repository's own README (lines 165-177) lets END travel up to the
  client; in the code a middle relay forwards END and DESTROY downwards whichever side they came from, so with two or more
  relays the client never sees one (`NoEndReachesTheClient`), with one it can (`OneHopEndReachesTheClient`). The model
  follows the code.
- **BEGIN and END reach the exit.** In every run the BEGIN that comes to the exit opens there, and the upward loop runs exactly
  from then until the local connection is read to its end (`BeginAtExit`, `LoopRunsExactly`). An END for the stream alone closes
  it along the whole chain (`EndClosesTheStream`).
- **The sweep leaves orphans.** It drops a circuit but not its streams: exactly if the circuit has an open stream, the stream
  table keeps entries of an unknown circuit (`SweepOrphans`), and a new circuit of the same id would inherit them (`Extend`).
- **One client table for all circuits.** The end of one circuit's receiving loop closes the local connections of every circuit
  (`LoopEndClosesEverything`). Short of that no circuit writes to another's connection: while fewer than 65535 ids have been
  handed out since the oldest live stream got its own, opening a stream overwrites no entry (`OpenOverwritesNothing`), and
  every application is given an in-order prefix of what its own circuit's exit read (`ApplicationGetsPrefix`).
- **Stream ids.** 0 never comes out as long as fewer than 2^32 - 65536 calls are between their addition and their store, and
  that bound is exact (`NeverZero`, `ZeroWithOneMore`). As long as no two calls wait at once the ids come out in order
  (`InOrderOneAtATime`) and two are the same exactly if a multiple of 65535 apart (`DistinctInWindow`); with two
  waiting at the wrap one id can be handed out twice (`OverlappingCallsRepeat`).

## Assumptions

- Encryption is symbolic: a sealed blob opens only under the same key and nonce and is 16 bytes longer than its content
  (AES-GCM, NIST SP 800-38D, sections 7.1 and 7.2). X25519 is a commutative shared-secret function that may refuse (RFC
  7748, section 6.1); key derivation is a function of the secret (RFC 5869, section 2). Hop keys of one circuit are
  pairwise distinct (`DistinctKeys`).
- The payload encoding is abstract: decoding gives back what was encoded, and its length is a function of stream id and data
  length, monotone in the latter and never less than it (`Sizes.Valid`).
- Handling one cell is one step; two goroutines do not interleave inside one relay's state for one circuit. The upward loop's
  taking of a nonce and its write are one step: the controller opens one stream per circuit.
- The client follows the controller's order: EXTENDs, one answer awaited at a time, then an optional CONNECT, then BEGIN, then
  DATA, then END.
- The invariant holds in every run, and so do the counters' laws, the requests, directions and teardown. The order of the
  DATA going down is stated while a relay's count of cells from below cannot have gone round: no relay has relayed 2^64
  cells upwards, or none has turned a cell back (`DownExact`, which every run without loss meets); the order of the chunks
  coming up while moreover the exit has read fewer than 2^64 of them or nothing was lost (`UpExact`). Nothing is
  proved about the order of DATA beyond these bounds.
- Stream ids are handed out one call at a time wherever sessions are concerned (`Sessions.dfy`): no two calls are between
  their addition and their store at once, which is what `InOrderOneAtATime` needs.

## Model

| member | source | states |
|---|---|---|
| Nonces.CounterNonce | shared/domain/entity/conn_state.go:46-58 | a derived nonce leaves the first four bytes of the base alone |
| Nonces.ModifyNonceWithSequence | shared/service/crypto_service.go:169-179 | the eight-step loop computes the counter nonce: the big-endian counter XORed into the last eight bytes |
| Nonces.XorBits | shared/service/crypto_service.go:174 | the mask is the exclusive or: a binary digit of the result is 1 if and only if the two digits differ |
| Nonces.NonceIsMaskedCounter | shared/domain/entity/conn_state.go:46-58 | the first use gives the base nonce itself; over an all-zero base the last eight bytes are the counter as a big-endian number; every other nonce differs from its base exactly in the digits that are 1 in that |
| Nonces.XorCancels | shared/domain/entity/conn_state.go:51-54 | applying a mask twice restores the number, so the derivation loses nothing |
| Nonces.CounterNonceInjective | shared/domain/entity/circuit.go:94-106 | over one base nonce two counter values give the same nonce if and only if they are equal |
| Nonces.NoncesOfOneCounterDistinct | shared/domain/entity/conn_state.go:61-73 | the nonces of one counter are pairwise distinct within any window of 2^64 uses |
| Onion.AESMultiSeal | shared/service/crypto_service.go:98-113 | refuses lists of different lengths; otherwise the loop from the last hop backwards builds the onion with hop 0 outermost |
| Onion.AESMultiOpen | shared/service/crypto_service.go:115-130 | refuses lists of different lengths; otherwise opens layer by layer from hop 0 and fails at the first that does not open |
| Onion.OpenExactlySealed | shared/service/crypto_service.go:98-130 | opening yields a plaintext if and only if the blob is the onion over it: multi-open inverts multi-seal and accepts nothing else |
| Onion.PeelPrefix | shared/service/crypto_service.go:98-130 | opening the first k layers leaves the onion of hops k to the last |
| Onion.SealedLength | shared/service/crypto_service.go:98-113 | n layers make a blob longer by 16n |
| Onion.SealIsLayers | cmd/client/usecase/send_data_usecase.go:74-97 | with all counters at j, what the client seals is the onion each relay expects as its j-th |
| Sockets.Network.ForwardCell | shared/service/cell_sender_service.go:57-71 | a cell goes out unless its payload exceeds 508 bytes or the connection is closed; a refusal writes nothing |
| ConnStates.ConnState.constructor | shared/domain/entity/conn_state.go:27-29 | a new state has all counters at 0 and is neither hidden nor served |
| ConnStates.ConnState.WithCounters | shared/domain/entity/conn_state.go:32-34 | carries over the begin and data counters, and starts the upward counter at 0 |
| ConnStates.ConnState.BeginNonce | shared/domain/entity/conn_state.go:46-58 | returns the nonce of the current begin counter and advances it by one, wrapping at 2^64 |
| ConnStates.ConnState.DataNonce | shared/domain/entity/conn_state.go:61-73 | the same for the downward data counter |
| ConnStates.ConnState.UpstreamDataNonce | shared/domain/entity/conn_state.go:76-88 | the same for the upward data counter |
| ConnStates.ConnState.EnsureServeDown | cmd/relay/handler/relay_handler.go:112-118 | a reader is started on the downward connection exactly if there is one and it is not served yet, so once and never again; afterwards it counts as served |
| ConnStates.ConnState.Close | shared/domain/entity/conn_state.go:115-122 | closes both links, if there are two, and nothing else |
| Repository.FlatAdd | cmd/relay/infrastructure/repository/conn_state_repository.go:92-102 | adding to the map of maps is adding to the flat (circuit, stream) table; no inner map becomes empty |
| Repository.FlatRemove | cmd/relay/infrastructure/repository/conn_state_repository.go:121-143 | removing from the map of maps is removing one key of the flat table; no inner map is left empty |
| Repository.NestedRefinesFlat | cmd/relay/infrastructure/repository/conn_state_repository.go:92-157 | after every sequence of stream operations the nested map is the flat table and has no empty inner map |
| Repository.RemovedMeansClosed | cmd/relay/infrastructure/repository/conn_state_repository.go:92-157 | every stream operation closes exactly the connections of the entries it takes out, and an entry stays as it is if and only if it is not taken out and no other connection is added under its very key |
| Repository.ConnStateRepository.Add | cmd/relay/infrastructure/repository/conn_state_repository.go:31-37 | stores the state as used now, and changes no other entry |
| Repository.ConnStateRepository.Find | cmd/relay/infrastructure/repository/conn_state_repository.go:39-50 | returns the entry if there is one and marks it, and only it, as used now |
| Repository.ConnStateRepository.Delete | cmd/relay/infrastructure/repository/conn_state_repository.go:52-70 | a known circuit goes with all its streams, and exactly its links and streams are closed; an unknown one changes nothing |
| Repository.ConnStateRepository.AddStream | cmd/relay/infrastructure/repository/conn_state_repository.go:92-102 | the flat table gains exactly this key |
| Repository.ConnStateRepository.GetStream | cmd/relay/infrastructure/repository/conn_state_repository.go:104-119 | finds exactly what the flat table holds |
| Repository.ConnStateRepository.RemoveStream | cmd/relay/infrastructure/repository/conn_state_repository.go:121-143 | the flat table loses exactly this key, whose connection is closed; an emptied inner map goes too |
| Repository.ConnStateRepository.DestroyAllStreams | cmd/relay/infrastructure/repository/conn_state_repository.go:145-157 | the circuit's streams go, and exactly their connections are closed |
| Repository.ConnStateRepository.Sweep | cmd/relay/infrastructure/repository/conn_state_repository.go:79-87 | one tick drops exactly the entries unused for longer than the time-to-live, closes their links, and leaves the streams |
| Expiry.IdleEntryIsSwept | cmd/relay/infrastructure/repository/conn_state_repository.go:72-88 | with every due tick served, an entry is gone once its last use is the time-to-live plus one ticker period ago, which is half the time-to-live but at least a second, in every run |
| Expiry.UsedEntryStays | cmd/relay/infrastructure/repository/conn_state_repository.go:72-88 | an entry used within the last time-to-live and not deleted is still there, in every run |
| RelayHandlers.RelayHandler.Data | cmd/relay/usecase/handle_data_usecase.go:36-106 | DATA at a middle, hidden or exit relay moves counters, tables and connections exactly as the specification of the circuit says |
| RelayHandlers.RelayHandler.TurnBack | cmd/relay/usecase/handle_data_usecase.go:48-69 | DATA that does not open is sealed under the next upward nonce and sent up, if there is a connection below; the nonce is used up even if the cell is refused |
| RelayHandlers.RelayHandler.Deliver | cmd/relay/usecase/handle_data_usecase.go:91-105 | at the exit plaintext is written to the stream's connection; an unknown stream is answered with DESTROY, a broken one also removed |
| RelayHandlers.RelayHandler.Begin | cmd/relay/usecase/handle_begin_usecase.go:37-91 | BEGIN at a middle, hidden or exit relay, including a failed dial and a refused acknowledgement |
| RelayWorld.StepBegin | cmd/relay/usecase/handle_begin_usecase.go:37-91 | BEGIN branch by branch: a nonce is used in any case; a hidden exit starts the upward loop whether or not the acknowledgement goes out, a plain one exactly if dial and acknowledgement succeed, and then has the stream; a failed dial is answered with DESTROY |
| ChainStream.BeginAtExit | cmd/relay/usecase/handle_begin_usecase.go:37-91 | in every run the BEGIN that comes to the exit opens, whatever DATA has gone by, and names the client's stream: a hidden exit, and a plain one whose dial succeeds, start the loop and acknowledge, any other sends DESTROY |
| ChainStream.LoopRunsExactly | cmd/relay/usecase/handle_begin_usecase.go:56-89 | in every run the upward loop runs if and only if a BEGIN has come to a hidden exit, or to a plain one whose dial succeeded, and the local connection has not been read to its end since |
| RelayHandlers.RelayHandler.ForwardUpstream | cmd/relay/usecase/handle_begin_usecase.go:93-123 | the loop sends each piece sealed under consecutive upward numbers, then removes the stream, sends END and closes the connection |
| RelayHandlers.RelayHandler.SendPiece | cmd/relay/usecase/handle_begin_usecase.go:97-109 | one turn of the loop as the whole relay sees it: one counter of one circuit moves, one cell goes out unless it does not fit |
| RelayHandlers.RelayHandler.EndLoop | cmd/relay/usecase/handle_begin_usecase.go:110-121 | the end of the loop as the whole relay sees it, also if the circuit is gone by then |
| RelayHandlers.RelayHandler.Connect | cmd/relay/usecase/handle_connect_usecase.go:38-95 | CONNECT is peeled and passed on by a middle relay |
| RelayWorld.StepConnectThrough | cmd/relay/usecase/handle_connect_usecase.go:38-51 | at a relay with a connection below CONNECT costs a begin nonce and starts the reader there even if its layer does not open, and otherwise goes on with one layer less |
| RelayHandlers.RelayHandler.ConnectExit | cmd/relay/usecase/handle_connect_usecase.go:52-95 | at the last relay CONNECT either fails with one begin nonce used, or swaps the state |
| RelayHandlers.RelayHandler.BecomeHidden | cmd/relay/usecase/handle_connect_usecase.go:84-95 | the new state object continues the begin and data counters, restarts the upward one, and replaces the table's entry |
| RelayHandlers.RelayHandler.EndStream | cmd/relay/usecase/handle_endstream_usecase.go:31-61 | END for one stream removes and closes that stream, END for stream 0 all of them and then the circuit with its links; either is passed downwards if there is a connection below, with the reader there started |
| RelayWorld.StepEnd | cmd/relay/usecase/handle_endstream_usecase.go:42-60 | END, whatever its stream id, goes out on the downward connection as it came, if there is one and it is open; one stream is closed, or with stream 0 the circuit, its links and all its streams |
| ChainStream.EndClosesTheStream | cmd/relay/usecase/handle_endstream_usecase.go:52-60 | whatever else goes on after the client's END for its stream, with or without the control END: at rest no relay that holds the circuit has the stream, as far down as the timer has dropped no entry |
| RelayHandlers.RelayHandler.Destroy | cmd/relay/usecase/handle_destroy_usecase.go:29-36 | DESTROY is passed downwards, then the circuit and all its streams are closed and forgotten |
| RelayWorld.StepDestroy | cmd/relay/usecase/handle_destroy_usecase.go:29-36 | DESTROY goes out on the downward connection, if it is open, and exactly the links and streams of the circuit are closed |
| RelayWorld.StepAck | cmd/relay/handler/relay_handler.go:94-95 | BEGIN_ACK goes up, if the link up is open, and nothing else changes |
| RelayWorld.ExtendIsAnswered | cmd/relay/usecase/handle_extend_usecase.go:43-104 | what EXTEND writes, event by event: CREATED on the connection it came on once the new circuit is stored; for a known circuit EXTEND below and then, if an answer comes, CREATED above; nothing where key exchange or dial fails |
| BuildRelay.ExtendIsHandled | cmd/relay/usecase/handle_extend_usecase.go:43-104 | at every relay EXTEND comes to, the handlers do what the model of the build says: the tables agree afterwards, the handler succeeds exactly if an answer goes up, and the answer is written exactly then |
| BuildRelay.WireExtendIsHandled | cmd/relay/usecase/handle_extend_usecase.go:43-104 | and what the model of the wire says: one answer on the link up for a new circuit, EXTEND on the link below and a wait for a known one |
| RelayHandlers.RelayHandler.Extend | cmd/relay/usecase/handle_extend_usecase.go:43-81 | EXTEND for an unknown circuit: refused key exchange and failed dial change nothing; otherwise the circuit enters the table in the fresh state, with the dialled next hop, and the answer goes up |
| RelayHandlers.RelayHandler.ForwardExtend | cmd/relay/usecase/handle_extend_usecase.go:83-104 | EXTEND for a known circuit is sent down, and the answer from below up; no connection below, a closed one, or no answer is an error, and nothing else changes |
| RelayHandlers.RelayHandler.HandleCell | cmd/relay/handler/relay_handler.go:78-109 | for every cell, EXTEND included, of every circuit, known or not, from either side: the whole relay, all tables included, moves as specified; the circuit, and no other, counts as used now |
| RelayHandlers.RelayHandler.ServeConn | cmd/relay/handler/relay_handler.go:55-75 | serving a connection is handling its cells one after the other up to the first frame that is none, and then closing it |
| RelayHandlers.ReadableUpTo | cmd/relay/handler/relay_handler.go:62-74 | what is handled are the cells before the first frame that is none, each as it came and in order |
| RelayHandlers.ServeKeeps | cmd/relay/handler/relay_handler.go:55-109 | whatever cells arrive on whatever connections, EXTEND included, and whenever upward loops end: the circuit and stream tables stay in agreement, no stream belongs to an unknown circuit, links and local connections stay apart |
| RelayHandlers.ArriveKeeps | cmd/relay/handler/relay_handler.go:78-109 | one cell, EXTEND included, keeps the tables in agreement and touches one circuit only |
| RelayHandlers.UnservedUntilWoken | cmd/relay/handler/relay_handler.go:91-118 | in every sequence of happenings a circuit's downward connection gets no reader before BEGIN, CONNECT, DATA or END has come for the circuit |
| RelayWorld.SweepOrphans | cmd/relay/infrastructure/repository/conn_state_repository.go:80-85 | the sweep leaves streams of unknown circuits if and only if it drops a circuit with an open stream |
| Circuits.Circuit.NewCircuit | shared/domain/entity/circuit.go:48-81 | refuses an empty or uneven list of hops, keys and nonces, and a missing RSA key; otherwise a circuit with all counters at 0 |
| Circuits.Circuit.HopBeginNonce | shared/domain/entity/circuit.go:94-106 | the hop's begin nonce, and only this hop's begin counter moves |
| Circuits.Circuit.HopDataNonce | shared/domain/entity/circuit.go:123-135 | the hop's downward data nonce, and only that counter moves |
| Circuits.Circuit.HopUpstreamDataNonce | shared/domain/entity/circuit.go:152-164 | the hop's upward data nonce, and only that counter moves |
| Circuits.Circuit.CloseStream | shared/domain/entity/circuit.go:212-218 | marks a known stream closed, and leaves an unknown one unknown |
| Circuits.Circuit.ActiveStreams | shared/domain/entity/circuit.go:220-230 | each stream that is not closed, exactly once |
| ClientUseCases.ClientNode.Send | cmd/client/usecase/send_data_usecase.go:42-122 | nothing moves for a stream that is not active; otherwise every hop's counter moves once, and the cell goes out exactly if it fits and the link is open |
| ClientUseCases.SendDraws | cmd/client/usecase/send_data_usecase.go:78-115 | BEGIN moves every begin counter by one and no other, DATA every data counter and no other; layer i is sealed with the key of hop i under its base nonce masked with its counter as it was; the cell goes out if and only if it fits |
| ClientUseCases.ConnectDraws | cmd/client/usecase/send_connect_usecase.go:48-79 | CONNECT moves every begin counter by one and no other, and seals the encoded target, or nothing if there is none, under them in the same way |
| ClientUseCases.ClientNode.Connect | cmd/client/usecase/send_connect_usecase.go:40-79 | CONNECT draws on the begin counters of all hops; an empty target means an empty payload |
| ClientUseCases.ClientNode.CloseStream | cmd/client/usecase/close_stream_usecase.go:38-81 | END for the stream, and END for stream 0 exactly if no other stream is active |
| ClientUseCases.ClientNode.DecryptOnionLayers | cmd/client/usecase/decrypt_cell_data_usecase.go:120-136 | opens hop by hop; the counters of the hops tried, including the one that failed, move |
| ClientSpec.OpensHopByHop | cmd/client/usecase/decrypt_cell_data_usecase.go:120-136 | opening succeeds if and only if every hop finds its layer under its next upward nonce; a hop's counter moves if and only if all hops before it found theirs |
| ChainClient.ClientFollowsRuns | cmd/client/handler/socks5_controller.go:160-304 | in every run a client that starts with the counters the build leaves, and does what its use cases and its receiving loop do, has the run's counters at every point, and an open stream until it closes it |
| ChainClient.SendingIsHandled | cmd/client/handler/socks5_controller.go:160-245 | the cells that CONNECT, BEGIN, DATA and closing put on the first link of the run are the ones the client writes, in order, and nothing else |
| ChainClient.ReceivingIsHandled | cmd/client/handler/socks5_controller.go:250-304 | a cell taken off the client's link in the run is what the receiving loop makes of it: what opens goes to the connection of its stream, and the loop goes on if and only if the run's client still listens |
| StreamIds.NeverZero | shared/domain/value_object/stream_id.go:14-21 | under every interleaving of additions and stores with at most 2^32 - 65537 calls waiting, 0 is never handed out |
| StreamIds.ZeroWithOneMore | shared/domain/value_object/stream_id.go:14-21 | a run with one more waiting call that hands out 0: the bound is exact |
| StreamIds.InOrderOneAtATime | shared/domain/value_object/stream_id.go:14-21 | under every interleaving in which at most one call waits between addition and store, the k-th id is k mod 65535 plus 1 |
| StreamIds.OverlappingCallsRepeat | shared/domain/value_object/stream_id.go:14-21 | a run with two waiting calls that hands out 1 twice: one is the exact bound |
| StreamIds.StreamCounter.NewStreamIDAuto | shared/domain/value_object/stream_id.go:14-21 | called one after the other, the k-th call returns k mod 65535 plus 1 |
| StreamIds.DistinctInWindow | shared/domain/value_object/stream_id.go:12-21 | under every such interleaving two ids are the same if and only if their calls are a multiple of 65535 apart |
| Receiving.StreamManager.Remove | shared/service/stream_manager_service.go:39-46 | closes and forgets the stream's connection, if there is one |
| Receiving.StreamManager.CloseAll | shared/service/stream_manager_service.go:48-55 | closes every registered connection and empties the table |
| Receiving.Controller.ReceiveOne | cmd/client/handler/socks5_controller.go:270-302 | the effect of one received cell on counters, table and connections, and whether the loop goes on |
| Receiving.Controller.RecvLoop | cmd/client/handler/socks5_controller.go:250-304 | the loop over all cells until it stops or the link ends |
| Receiving.OnlyToItsStream | cmd/client/handler/socks5_controller.go:285-301 | a registered connection gets exactly the plaintexts of its own stream, in order; any other connection gets nothing |
| Receiving.LoopEndClosesEverything | cmd/client/handler/socks5_controller.go:252-283 | when the loop of one circuit ends, every connection that was registered, of any circuit, is closed |
| Selection.SecureShuffle | cmd/client/usecase/build_circuit_usecase.go:267-277 | in place, equal to the sequence of swaps the draws pick; a rearrangement even if the random source fails halfway |
| Selection.ShuffledKeeps | cmd/client/usecase/build_circuit_usecase.go:267-277 | the swaps keep every element and its multiplicity |
| Selection.PickIsEven | cmd/client/usecase/build_circuit_usecase.go:273 | each of the first i + 1 positions is picked by 65536 / (i + 1) of the 65536 draws, rounded up for the first few positions and down for the others |
| Selection.EveryOrder | cmd/client/usecase/build_circuit_usecase.go:267-277 | for up to 65536 relays every order is the result of some draws |
| Selection.TakeOut | cmd/client/usecase/build_circuit_usecase.go:113-119 | finds the exit if it is in the list and removes its first occurrence, keeping the order |
| Selection.Select | cmd/client/usecase/build_circuit_usecase.go:91-142 | succeeds if and only if directory and random source allow it; the shortage check after the shuffle never fires |
| Selection.SelectedPath | cmd/client/usecase/build_circuit_usecase.go:132-142 | as many relays as asked for (3 by default), all online, pairwise different, the requested exit last |
| CircuitBuild.RelayMesh.HandleNew | cmd/relay/usecase/handle_extend_usecase.go:43-81 | a relay that does not know the circuit dials, stores its half of the key exchange and answers |
| CircuitBuild.RelayMesh.HandleExtend | cmd/relay/usecase/handle_extend_usecase.go:83-104 | EXTEND is handed down to the first relay that does not know the circuit, and the answer handed back |
| CircuitBuild.RelayMesh.Build | cmd/client/usecase/build_circuit_usecase.go:151-262 | needs an RSA key and a connection; the rounds fill keys and nonces hop by hop; a failed round, or a failed save at the end, ends the build with teardown and close |
| CircuitBuild.BuildHolds | cmd/client/usecase/build_circuit_usecase.go:185-247 | after round i relays 0 to i hold the circuit with the client's key and base nonce, each linked to the next, and no other entry of any relay has changed |
| CircuitBuild.BuildSucceedsIff | cmd/client/usecase/build_circuit_usecase.go:185-247 | with a fresh id on live relays the build succeeds if and only if no relay comes twice and every dial and key exchange works |
| CircuitBuild.BuildLeavesFresh | cmd/client/usecase/build_circuit_usecase.go:239-247 | after a successful build every hop's key and base nonce agree at both ends |
| CircuitBuild.FailureLeavesPrefix | cmd/client/usecase/build_circuit_usecase.go:203-226 | after a build that fails in round i exactly the relays before i still hold the circuit |
| BuiltChain.RunsStartWhereBuildsEnd | cmd/client/usecase/build_circuit_usecase.go:246-255 | a built circuit is in the initial state of the runs below |
| CircuitCreation.SelectedCircuitBuilds | cmd/client/usecase/build_circuit_usecase.go:91-247 | over selected relays with endpoints of their own, a build fails only by a dial or a key exchange |
| Cells.Encode | shared/domain/entity/cell.go:56-69 | 512 bytes of command, version, length, payload and padding, unless the payload exceeds 508 bytes or the random source fails |
| Cells.DecodesExactlyEncoded | shared/domain/entity/cell.go:56-96 | a 512-byte buffer decodes to a cell if and only if the cell is well formed and the buffer is its encoding with the buffer's tail as padding |
| Cells.DecodesIff | shared/domain/entity/cell.go:71-96 | byte by byte: a buffer decodes if and only if it has 512 bytes, a command from 1 to 8, version 1 and a big-endian length of at most 508 |
| Cells.RoundTrip | shared/domain/entity/cell.go:56-96 | decoding an encoded cell returns the cell, for every padding |
| Framing.Reader.ReadFull | shared/service/cell_reader_service.go:25-27 | however the bytes arrive, exactly the asked number is taken, or the stream ends |
| Framing.Reader.ReadCell | shared/service/cell_reader_service.go:23-43 | takes one 528-byte frame off the stream, or fails on a short or undecodable one |
| Framing.Reader.ReadCreated | shared/service/tcp_circuit_build_service.go:45-62 | takes one answer off the stream: 20 bytes of header, then as many as it says; an empty one is refused |
| Framing.Writer.ForwardCell | shared/service/cell_sender_service.go:57-71 | appends one 528-byte frame, or nothing if the cell cannot be encoded |
| Framing.Writer.SendCreated | shared/service/cell_sender_service.go:31-46 | appends header and payload; the length field is the length modulo 2^16 |
| Framing.Writer.RelayCreated | cmd/relay/usecase/handle_extend_usecase.go:91-103 | reads an answer from below and sends it up under its own header |
| Framing.CellFrameParses | shared/service/cell_reader_service.go:23-43 | the cell sent is the cell read, and the bytes after it are untouched |
| Framing.CreatedFrameParses | shared/service/tcp_circuit_build_service.go:45-62 | an answer comes back intact if and only if its payload has between 1 and 65535 bytes |
| Framing.ParsesCreatedIff | shared/service/tcp_circuit_build_service.go:45-62 | byte by byte: which strings a reader of answers accepts, what it takes off them, and what only the client checks |
| Framing.ParsesCellIff | shared/service/cell_reader_service.go:23-43 | which strings a reader of cells accepts, and what it takes off them |
| Framing.ReadLink | cmd/relay/usecase/handle_extend_usecase.go:91-103 | the loops of both readers over one link: k answers, then cells, whatever pieces the bytes come in; that k is the number of answers written is `Wire.AnswersThenCells` |
| Framing.LinkIsFaithful | shared/service/cell_reader_service.go:23-43 | read with k the number of answers written, the sequence of answers and cells is the one written |
| Framing.AnswerReachesClient | cmd/relay/usecase/handle_extend_usecase.go:83-104 | the payload the last relay sends is the one the client reads, through any number of relays |
| Framing.TeardownIsNoCell | shared/service/tcp_circuit_build_service.go:64-70 | the bytes of a teardown never make a cell |
| Wire.ServedAfterCells | cmd/relay/handler/relay_handler.go:112-118 | in every run of a chain of n relays, a reader of cells runs at a relay only once the client has stopped building and the relay has handled BEGIN, CONNECT, DATA or END |
| Wire.AnswersThenCells | cmd/relay/usecase/handle_extend_usecase.go:83-104 | in every run all bytes ever written on a link are answers first and then cells; answers and cells read are the first ones written; no cell is written while the client builds, and when it talks every answer written has been read |
| Wire.WaiterFindsAnswer | cmd/relay/usecase/handle_extend_usecase.go:91-102 | in every run a handler of EXTEND, or the client, that waits for an answer finds nothing on the link or exactly the next answer |
| Wire.ReaderOnBoundary | shared/service/cell_reader_service.go:23-43 | in every run a reader of cells stands where a frame begins, and reads next exactly the next cell written |
| Wire.JthAnswerIsOfRelayJ | cmd/client/usecase/build_circuit_usecase.go:220-241 | in every run the j-th answer the client reads is the payload relay j wrote for itself, handed up unchanged |
| Wire.RepliesAreWritten | cmd/relay/handler/relay_handler.go:91-109 | nothing of a relay's reply to a cell is missing from the wire: its new state, and the cell for the link up or down |
| ChainTheorems.ExitWritesPrefix | cmd/relay/usecase/handle_data_usecase.go:36-106 | in every run within `DownExact` the exit writes an in-order prefix of what the client sent |
| ChainTheorems.ClientReceivesPrefix | cmd/client/usecase/decrypt_cell_data_usecase.go:120-136 | in every run within `DownExact` and `UpExact` the client opens an in-order prefix of what the exit read |
| ChainTheorems.LinksCarryLayers | cmd/relay/usecase/handle_data_usecase.go:46-89 | in every run each downward link holds as many DATA cells as lie between the counts of its ends, each a chunk of the client's under the remaining layers, and within `DownExact` exactly the chunks in between; upwards the same while nothing is lost |
| ChainTheorems.DriftLaw | cmd/relay/usecase/handle_data_usecase.go:46-70 | in every run a relay's data counter is the DATA it handled from both sides, modulo 2^64; within `DownExact` the next DATA from above opens if and only if a multiple of 2^64 came from below; one that does not open is sealed again and sent up |
| ChainAbove.NextData | cmd/relay/usecase/handle_data_usecase.go:46-52 | the next DATA from above is one of the client's chunks under the remaining layers, within `DownExact` the next one, which opens if and only if the relay has handled a multiple of 2^64 DATA cells from below |
| ChainTheorems.OvertakenStaysShut | cmd/relay/usecase/handle_data_usecase.go:46-70 | once a relay has relayed DATA upwards, no DATA from above passes it again |
| ChainTheorems.RequestsStayInStep | cmd/relay/usecase/handle_connect_usecase.go:38-71 | whatever DATA flows, begin counters equal the BEGIN and CONNECT handled, the requests on each link are exactly those outstanding, and each that is due opens |
| ChainTheorems.ConnectPrecedesReading | cmd/relay/usecase/handle_connect_usecase.go:84-90 | whenever a CONNECT can still reset the exit's upward counter nothing has been read, written or received, so it agrees with the client's |
| ChainTheorems.UpwardLoopIsSteps | cmd/relay/usecase/handle_begin_usecase.go:93-123 | the relay's upward loop is a run of reading steps, with the same state and the same cells |
| ChainTheorems.DirectionIsSound | cmd/relay/usecase/handle_data_usecase.go:46-70 | in every reachable state a middle relay never opens a DATA cell that came from below |
| ChainLoss.ClientBudget | cmd/client/usecase/send_data_usecase.go:93-120 | the client's DATA cell goes out if and only if the chunk with 16 bytes per hop encodes to at most 508 bytes; the counters move either way |
| ChainLoss.UpwardBudget | cmd/relay/usecase/handle_data_usecase.go:54-69 | an upward chunk fits at every hop if and only if it fits at the entry relay |
| ChainLoss.NoLossExactly | cmd/relay/usecase/handle_data_usecase.go:46-106 | in every run, whatever is sent and read, whoever drops the circuit and when: no DATA handled is lost on the chain if and only if every middle relay handles all DATA from above before its first from below (but for multiples of 2^64) and every upward cell fits with the tag of every hop it comes to; none is discarded by the exit if and only if moreover it knows the stream and its connection takes bytes each time; and none is lost at all, up or down, if and only if moreover no step leaves DATA to a relay that has dropped the circuit or a client that has stopped listening |
| ChainLoss.NoLossExactlyIfHalfDuplex | cmd/relay/usecase/handle_data_usecase.go:46-106 | the same, stranding included, with every piece read in budget, where the condition on sizes drops out |
| ChainStranded.StrandedExactly | cmd/relay/handler/relay_handler.go:78-89 | in every run DATA is on a link without a reader if and only if some step put it there with the reader gone, or the reader (a relay by END 0, DESTROY or the sweep, the client by the end of its loop) went with DATA waiting |
| ChainStranded.StrandedForGood | cmd/relay/infrastructure/repository/conn_state_repository.go:52-88 | DATA stranded on a link, up or down, is stranded in every continuation |
| ChainLoss.WrittenUnlessStranded | cmd/relay/handler/relay_handler.go:78-89 | with nothing lost in handling, once every relay that holds the circuit has handled its DATA, the exit has written all that was sent if and only if none is stranded on the way down |
| ChainLoss.ReceivedUnlessStranded | cmd/client/handler/socks5_controller.go:250-283 | the same upwards, for what the exit read and the client opened |
| ChainWitness.FailedDialStrands | cmd/relay/usecase/handle_begin_usecase.go:74-80 | a run over two relays in which the exit's dial fails and the client, who is not told, sends a chunk to an entry relay that has dropped the circuit: half-duplex, all fitting, nothing discarded, nothing written |
| ChainLoss.FullReadIsLost | cmd/relay/usecase/handle_begin_usecase.go:95-109 | a piece of more than 492 bytes, so every full 508-byte buffer, is lost as it leaves the exit |
| ChainSizes.OverBudgetEndsTheStream | cmd/relay/usecase/handle_data_usecase.go:54-69 | in every run within `DownExact` and `UpExact` the client opens no chunk from the first one on that exceeds the budget with a tag for every hop |
| ChainLoss.OneHopStaysInStep | cmd/relay/usecase/handle_data_usecase.go:36-106 | on one hop, plain or hidden, under every interleaving: the exit's counters are what it was sent and has read, the next DATA opens there, what it writes is an in-order prefix; nothing is lost in handling if and only if every piece read is in budget, and then the client's counters are what it received and the next upward cell opens |
| ChainOneHop.OneHopOpensExactly | cmd/client/usecase/decrypt_cell_data_usecase.go:120-136 | on one hop, in every run with fewer than 2^64 pieces read: the next upward cell opens at a listening client if and only if no piece up to the one that is due was over budget, and then gives that piece; otherwise the loop ends |
| ChainLoss.NothingMissing | cmd/relay/usecase/handle_data_usecase.go:36-106 | while nothing is lost, chunks on the links plus chunks opened are the chunks sent, in both directions, and written if the exit discarded none; the next upward cell opens at the client |
| ChainLoss.DrainedMeansDelivered | cmd/relay/usecase/handle_data_usecase.go:91-105 | with nothing lost or discarded and the downward links empty of DATA, the exit has written everything, in order |
| ChainFinal.LossIsFinal | cmd/client/handler/socks5_controller.go:270-283 | after the first loss of DATA, at relay i after b upward chunks, the client never opens chunk b or a later one, in any continuation in which no counter goes round |
| ChainFinal.TurnsBack | cmd/relay/usecase/handle_data_usecase.go:46-69 | in every run DATA from above that does not open at a middle relay goes nowhere but back up, if it fits, with this relay's layer twice; within `DownExact` that happens if and only if it is overtaken |
| ChainFinal.PassedUpAsIs | cmd/relay/usecase/handle_data_usecase.go:48-69 | in every run a relay passes up DATA from below, if it fits, under one more layer, and what a relay below had turned back stays so, and nothing else becomes so |
| ChainFinal.TurnedBackEndsReceiving | cmd/client/handler/socks5_controller.go:270-276 | in every run within `DownExact` the DATA cell at the front of the client's link is a chunk the exit read under a layer of every relay if and only if it is not a cell turned back; one turned back gives the client nothing and ends its receiving loop |
| ChainWitness.FullDuplexLoses | cmd/relay/usecase/handle_data_usecase.go:48-69 | a run over two relays in which the exit reads first and the client's first chunk is turned back and lost |
| ChainNonces.RequestAndDataShareNonces | shared/domain/entity/conn_state.go:46-73 | in every run the j-th BEGIN or CONNECT and the k-th DATA the client seals have at every hop the same key, and the same nonce if and only if j and k agree modulo 2^64 |
| ChainNonces.TalkingReusesNonces | cmd/client/usecase/send_data_usecase.go:74-97 | every run in which the client sends DATA seals a request and a DATA cell under one key and nonce, at every hop |
| ChainNonces.UpwardSharesNonces | shared/domain/entity/conn_state.go:76-88 | the exit's next upward chunk is sealed under the nonce of the client's k-th DATA, and of its k-th request, if and only if it has read k chunks modulo 2^64 |
| ChainTeardown.CellsComeToRest | cmd/relay/handler/relay_handler.go:91-109 | without new input the number of handling steps is bounded: no cell circulates |
| ChainTeardown.TeardownIsComplete | cmd/relay/usecase/handle_endstream_usecase.go:42-50 | at rest, no relay below one that tore the circuit down holds it or a stream of it, as far down as the timer has dropped no entry on the way |
| ChainTeardown.ClosingClearsTheChain | cmd/client/usecase/close_stream_usecase.go:54-79 | closing the only stream clears the chain, whatever else is going on: at rest every relay down to which the timer has dropped no entry |
| ChainTeardown.NoEndReachesTheClient | cmd/relay/usecase/handle_endstream_usecase.go:56-60 | with two or more relays no END or DESTROY is ever on the link to the client |
| ChainTeardown.ExitTearsTwo | cmd/relay/usecase/handle_destroy_usecase.go:29-36 | until the client closes its stream no relay above the exit's neighbour tears the circuit down or has a cell waiting that says so: it holds the circuit exactly as long as it is not swept |
| ChainWitness.OneHopEndReachesTheClient | cmd/relay/usecase/handle_begin_usecase.go:110-119 | a run over one relay in which END is on the link to the client |
| Sessions.ApplicationGetsPrefix | cmd/client/handler/socks5_controller.go:162-304 | for any number of circuits over one id counter and one table, opened within the id window, in every interleaving: each application is given an in-order prefix of what its own circuit's exit read, and all that was opened as long as its entry stands |
| Sessions.TableIsApart | cmd/client/handler/socks5_controller.go:176-177 | in every such run no two entries of the table share a connection, every entry is its own session's, and a connection of no session is given nothing |
| Sessions.OpenOverwritesNothing | shared/domain/entity/circuit.go:203-216 | in every such run a stream opened within the window gets an id that is not in the table |
| ChainRelay.RelaysFollowRuns | cmd/relay/handler/relay_handler.go:78-109 | in every run every relay, plain or hidden, working or broken behind: if its tables match the freshly built circuit and its handlers, upward loop and sweep do with them what the steps say, its entry has the state of the run at every point |
| ChainRelay.FreshMatches | cmd/relay/usecase/handle_extend_usecase.go:62-80 | a relay that has answered EXTEND matches the freshly built circuit |
| ChainRelay.AboveIsHandled | cmd/relay/handler/relay_handler.go:78-109 | what the relay sends up, sends down or writes for a cell from above is what the run's step puts there, on the circuit's own connections |
| ChainRelay.BelowIsHandled | cmd/relay/handler/relay_handler.go:78-109 | the same for a cell from below |
| ChainRelay.LoopIsHandled | cmd/relay/usecase/handle_begin_usecase.go:93-123 | what the exit's upward loop writes, turn by turn and at its end, is what the run's steps put on its upward link |

## Left out

- Real cryptography, key objects, the byte format of the payload encoder: library code, replaced by the assumptions above.
- Sockets, deadlines, logging, environment variables and the `main` functions: dial results and read pieces are parameters.
- SOCKS5 negotiation, address resolution, the directory and hidden-service repositories: straight-line lookups with easy claims.
- The client's own copy of the connection-state repository: identical code, modelled once.
- The eight-step XOR loop stands three times in `Circuit` and in `ConnState`; it is modelled once, as `ModifyNonceWithSequence`.
- Key wiping, the peeking variants of the nonce methods, `GetMessageTypeNonce` and `IncrementCounter`: nothing in the flow calls them.
- `StreamState` objects are a flag in the circuit's stream map: the pointer that opening a stream returns is read for its id only.
- Goroutine races inside one state object: each cell is handled atomically.
- The second reader on a connection: after END a hidden exit would serve the service's bytes as cells; runs only record cells written to a hidden service (`stray`).
- BEGIN or CONNECT repeated on a circuit, and CONNECT after BEGIN: outside the controller's order; the relay's classes do cover them.
- Other streams of the same circuit: runs allow END for one of several streams, without the control END; the cells of the others are not in them.
- A write to a relay that is gone is modelled as a cell that stays on the link (`Stranded`); the run theorems let links fail only by a relay dropping the circuit.
- An upward loop whose circuit the sweep has dropped: it goes on reading, and every piece is lost at the closed link; in a run reading stops with the circuit.
- CircuitBuild.RelayMesh.HandleExtend: waits at most `patience` hops, which stands for the client's deadline; the bytes of the wait are in `Wire`, not here.
- Receiving.Controller.RecvLoop: one circuit's loop with the table to itself; with other circuits in between it is `Sessions`.
- Sessions: a circuit's part of a run may go on before its stream is opened only without BEGIN; a second stream on one circuit is outside the controller's order.
- Wire: a cell sent to a hidden service, expiry during a build, and links that break are left out; a build that gets no answer simply stops.
- Framing.ReadLink: the number of answers to read is a parameter; that it is the number of answers written holds in the runs of `Wire`.
- Framing.LinkIsFaithful: answers before cells is the hypothesis; that it holds on every link is `Wire.AnswersThenCells`.
- Framing.Reader.ReadCreated: the `strict` flag covers both readers of an answer; the rest of a header that was refused is left unread, as in the code.
- RelayHandlers.RelayHandler.ForwardUpstream: the pieces read are a parameter, and the loop is not interleaved with other handlers here; `ChainTheorems.UpwardLoopIsSteps` gives the interleaved form.
- `RelayCell`, relay statistics, time stamps, endpoints and `String` methods: trivial members.
