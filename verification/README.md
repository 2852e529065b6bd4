# Verification of an IRC client's state machines

Dafny models of the parts of the Cascade IRC client that carry state, protocol or arithmetic, with
proofs about all inputs, all runs or all reachable states. `dafny verify dfyconfig.toml` checks
everything.

## What is modelled

**Direct file transfers** (`dcc_*.dfy`). `DccManager` says, as functions on values, what each public
method, each control message and each worker report does to the whole state of a transfer manager;
`DccManagerClass` performs the same updates in place and is proved against these functions.
What the world decides arrives as arguments: file-system answers, listening sockets, delivery of
messages, fresh identifiers, ports and tokens, the iteration order of Go maps. On this rest

* `DccScheduler`: the sequential outgoing scheduler and the byte counters, over runs in which worker
  reports may come for any identifier at any time;
* `DccOutcomes`, `DccQueueOrder`: what becomes of each transfer, whom a message can affect, and the
  order in which uploads take their turn;
* `DccNet`, `DccAgreement`, `DccSenderMoves`, `DccResume*`: two managers joined by ordered message
  channels and by connections that carry bytes. The invariant says, among other things, that two
  workers of one attempt start at the same byte. `DccResume` draws the theorem about whole runs;
* `DccLanding`: what a RESUME or passive answer of any attempt does, and exactly when the data that
  follows is right;
* `DccStaleResume`, `DccStaleAnswer`, `DccLateResume`: concrete runs that show where the code fails,
  and `DccGoodResume`, one in which a resumed download completes;
* `DccProtocol`, `DccProtocolLaws`, `DccNames`: the text of control messages, with exact round trips;
* `DccWire`, `DccTextRuns`, `DccTextExamples`: runs in which messages cross as text. Every manager
  sends only what its peer reads back, so the theorem and the examples hold of the text protocol;
* `DccTransport`, `DccTransportExact`: the copy loops, for every fragmentation of reads and writes.

**Queues between threads**: the event bus (`event_bus*.dfy`), the user-meta forwarder in front of it
(`user_meta.dfy`), the ordered callback worker and the automatic-request worker
(`callback_dispatcher.dfy`, `outbound_dispatcher.dfy`). The locked sections are methods of classes;
their interleavings are transition systems with a place for each thread.

**Wire arithmetic and text**: the token bucket (`rate_limiter.dfy`), splitting of outbound messages
(`message_split*.dfy`, RFC 1459 section 2.3 and RFC 3629 section 3), channel modes
(`channel_modes*.dfy`), membership prefixes (`membership_prefixes.dfy`), MONITOR lists
(`monitor.dfy`), plugin frames (`plugin_chunks.dfy`).

**Connection attempts** (`connect_protocol.dfy`): the critical sections of `connectNetwork` against
each other and against the callbacks of the clients.

## Main results

* Two managers over text: `DccTextRuns.TextResumeIntegrity`, with `DccResume.ResumeIntegrity` and
  `DccTextRuns.SameRun` below it; `DccLanding.LandingResume`, `LandingOnQueued`, `LandingAnswer`,
  `OvertakenConnection` and `AnsweredConnection` say exactly what happens without its guard.
* One manager: `DccScheduler.SchedulerSafety` and `CounterSafety`, `DccQueueOrder.TurnsInQueueOrder`,
  `DccWire.WireSafety`; `DccOutcomes.FailureOutcome`, `InterruptedCanResume`, `MessageConcerns`.
* Control messages: `DccProtocolLaws.SendRoundTrip`, `ResumeRoundTrip`, `SendNormalForm`.
* Bytes: `DccTransport.TransferDelivers`, `DccTransportExact.SendOutcome`, `ReceiveOutcome`.
* Events: `EventBusRuns.BoundedOvertaking`, `IdleMeansDrained`; `EventBusAccounting.Balanced`,
  `IdleDeliveredAll`, `RunsSettle`; `UserMeta.LastEmissionWins`.
* Callbacks and requests: `CallbackDispatcher.RunsInOrder`, `StopDrains`;
  `OutboundDispatcher.StartsPaced` on `RateLimiter.WindowBound`, `RateLimiter.GapIsWorth`.
* Text: `ChannelModesLaws.RoundTrip`, `TwoSteps`; `ChannelModesEffects.ReadExactly`, `StoredAfter`;
  `MessageSplitLaws.SplitIsFaithful`, `SplitKeepsUtf8`, `SplitEmptyExactly`;
  `MessageSplitCuts.LineByLine`, `CutExactly`; `PluginChunks.SplitIsComplete`, `PackingIsOptimal`;
  `MembershipPrefixes.ApplyAll`, `SplitRecovers`; `Monitor.ArmedExactly`, `ArmedWithinLimit`.
* Connection attempts: `ConnectProtocol.OneAttemptPerNetwork`, `NeverReplacesLiveClient`,
  `LaterChecksNeverFire`, `StoppedForGood`, `SuccessStores`.

In the table below, rows that begin with "Bridge" tie a method that updates state, or a loop, to the
function these results are about; they say that the code computes it, and no more.

## What the proofs found

* Resume integrity does not hold of the code as it stands. `handleResumeRequest`
  (internal/dcc/manager.go:597) looks at no status and no attempt, and any passive record with port 0
  matches, so a RESUME for a withdrawn offer moves the offset of its repetition. The token of a
  passive attempt also stays in the record when the file is offered again in classic mode, so a late
  passive answer takes the classic attempt over. Both are proved by concrete runs. The theorem is
  proved for all runs in which every RESUME that would move the offset of a transfer waiting or under
  negotiation, and every passive answer that is matched, was sent for its current attempt:
  `DccNet.TimelyMessage` is that condition, which the code could check before it acts. Given it, and
  one outgoing record per file name, cancellation, retry, re-offer, failure and resumption may
  interleave in any way.
* The guard is exact message by message (`LandingResume`, `LandingOnQueued`, `LandingAnswer`): a
  message it refuses leaves two offsets that differ, unless they coincide by chance, and then some
  source is received wrongly (`ContinuesExactly`). From every state of the invariant the run goes on
  to show it: after the message, the connection and one byte, the file is a prefix of its source
  exactly if two bytes of the source are equal (`OvertakenConnection`, `AnsweredConnection`). Over
  whole runs the guard is sufficient but not necessary: after a stale message the transfer may still
  be withdrawn, fail or be retried from byte zero before it connects.
* A finished upload is not safe from a late RESUME: it stays Completed with a count that is too small
  (`LateResumeMovesCompletedCount`, and `LateResumeRun` for a run that gets there).
* A channel key without a value swallows the following limit when the stored mode string is parsed
  again (`EmptyKeyTakesLimit`; `BareKeyLosesLimit` gives the input); the exact condition is
  `ChannelModesLaws.Storable`.
* Two adjacent spaces can make `splitLine` emit an empty chunk, for every budget
  (`AdjacentSpacesCanEmpty`); `SplitEmptyExactly` says when.
* A plugin update over the target is refused only in first place; later it becomes a chunk of its own
  and is left to the final size check (`RefusedExactly`). Updates that fit the target always get
  through if the reserve is large enough (`RefusedForOneUpdate`).
* A manager repeats the token of a peer's offer as it came. One with a quote inside does not come back
  from the text; all other messages do (`WireSafety`).
* The second and third check of `connectNetwork` never fire (`LaterChecksNeverFire`).

## Model

| member | source | states |
|---|---|---|
| `DccScheduler.SchedulerSafety` | internal/dcc/manager.go:298-420 | In every reachable state an outgoing transfer is Negotiating or Transferring iff it holds the slot; a Queued one is in the queue, transfers are enabled and the slot is taken; the slot holder has a worker; while transfers are disabled nothing is active |
| `DccScheduler.CounterSafety` | internal/dcc/manager.go:704-762 | In every reachable state offsets and counts lie between 0 and the total, a Completed download counts its total, and status Resumable implies the flag |
| `DccScheduler.StepInv` | internal/dcc/manager.go:126-996 | Every public method, control message and worker report, for any identifier at any time (so also from workers whose context was replaced), keeps the invariant behind the two results above |
| `DccScheduler.StartNextOrder` | internal/dcc/manager.go:298-332 | One call of startNextOutgoing uses up a prefix of the queue, passes over exactly the entries that are stale or cannot begin, and announces the first that can with one message; if none can, the queue is empty and nothing was sent |
| `DccManager.StartNextBegins` | internal/dcc/manager.go:298-420 | Bridge: The recursion start, begin, fail, finish, advance, start again computes the same state as its unfolding; together with the methods of the class it terminates, each round taking an entry off the queue |
| `DccScheduler.IterationListsActive` | internal/dcc/manager.go:862-874 | What CancelAll collects lists every active transfer |
| `DccScheduler.CancelEachQuiets` | internal/dcc/manager.go:862-874 | With the gate shut, canceling what was collected leaves nothing active and starts nothing |
| `DccScheduler.RestoredInv` | internal/dcc/manager.go:95-118 | Restoring any stored records establishes the invariant |
| `DccScheduler.LateResumeMovesCompletedCount` | internal/dcc/manager.go:597-616 | A RESUME for a Completed upload leaves it Completed and moves its count, which still shows the whole file iff the request asked for the end |
| `DccLateResume.LateResumeRun` | internal/dcc/manager.go:597-616 | A run of one manager, from an empty one, that ends with a Completed upload of three bytes whose record counts one |
| `DccOutcomes.FailureOutcome` | internal/dcc/manager.go:766-806 | A transfer whose worker fails or is aborted ends Resumable, with the flag set, iff it is a download with bytes in a partial file that is still there; otherwise Canceled or Failed as its context says; the rest of the record stays, its worker is gone |
| `DccOutcomes.CancelOutcome` | internal/dcc/manager.go:823-860 | Cancel changes nothing iff the transfer is neither active nor resumable; else a download with bytes is Resumable and anything else Canceled, without worker |
| `DccOutcomes.RestartOutcome` | internal/dcc/manager.go:95-118 | After a restart every stored record is back: active downloads with bytes Resumable, other active ones Failed, the rest as stored; nothing runs |
| `DccOutcomes.InterruptedCanResume` | internal/dcc/manager.go:462-531 | A download whose worker failed with its partial file there can be accepted again, and the RESUME sent then asks for the rest of the file from its length on |
| `DccOutcomes.DoneOutcome` | internal/dcc/manager.go:740-762 | A worker that is done completes exactly a transfer in flight, with all bytes counted and no worker |
| `DccOutcomes.FlightOutcome` | internal/dcc/manager.go:691-738 | A connection puts exactly a transfer under negotiation or connecting in flight, and reports move the count of one in flight only |
| `DccOutcomes.QueueOutcome` | internal/dcc/manager.go:247-296 | Picked files are refused together iff transfers are off or one is not regular or has an unsafe name; otherwise each is an upload of all its bytes that waits, is under negotiation or failed to begin |
| `DccOutcomes.RetryOutcome` | internal/dcc/manager.go:876-900 | Retry is refused unless transfers are on and a failed or canceled upload still has its source; it then starts over from byte zero |
| `DccOutcomes.SettingsOutcome` | internal/dcc/manager.go:126-159 | New settings are refused iff they would turn transfers off with something under way and no permission to cancel; otherwise they hold |
| `DccOutcomes.HistoryOutcome` | internal/dcc/manager.go:808-960 | What is declined, discarded, removed and cleared, exactly |
| `DccOutcomes.AcceptOutcome` | internal/dcc/manager.go:462-531 | Accept connects iff transfers are on, the download is offered or resumable, the destination and the partial file will do, there is room, and the peer was asked or the connection begun; the record then starts from the length of the partial file |
| `DccOutcomes.HeadBegins` | internal/dcc/manager.go:298-420 | The head of the queue begins iff its offer can be made and delivered; then record, worker and the one message say passive or classic as the settings ask; otherwise it has failed and the rest of the queue goes on |
| `DccOutcomes.MessageConcerns` | internal/dcc/manager.go:187-245 | A control message changes only a record with its sender, on its network, about the file it names and of the kind it is for, in the fields it is for (apart from waiting uploads whose turn comes) |
| `DccOutcomes.SamePeerExactly` | internal/dcc/manager.go:222-225 | Two nicks are one peer iff they agree up to the case of ASCII letters |
| `DccOutcomes.SendFinds` | internal/dcc/manager.go:199-245 | A SEND is a passive answer iff an upload under negotiation awaits it; else an interrupted download of that file takes it over; else it is a new offer |
| `DccOutcomes.ResumeFinds` | internal/dcc/manager.go:597-616 | A RESUME that matches no upload changes nothing; if those it matches are long enough one is moved to its position and answered with the same port, token and position |
| `DccOutcomes.AcceptFinds` | internal/dcc/manager.go:618-637 | An ACCEPT that no download waits for changes nothing; otherwise one that waits for it begins with its saved offer |
| `DccQueueOrder.TurnsInQueueOrder` | internal/dcc/manager.go:247-332 | In every run the transfers that took the outgoing slot, followed by those that wait, are a subsequence of everything queued or retried, in that order |
| `DccQueueOrder.StepOrdered` | internal/dcc/manager.go:247-332 | The same for each step: what takes the slot and what then waits come in order from what waited and what the step queued |
| `DccManagerClass.Manager.Restore` | internal/dcc/manager.go:95-118 | Bridge: Active records become Resumable or Failed; the rest is kept |
| `DccManagerClass.Manager.StartNextOutgoing` | internal/dcc/manager.go:298-332 | Bridge: The whole new state is that of the scheduler function whose properties are proved; terminates |
| `DccManagerClass.Manager.BeginClassicOutgoing` | internal/dcc/manager.go:334-392 | Bridge: The whole new state, through each of its four failing exits |
| `DccManagerClass.Manager.BeginPassiveOutgoing` | internal/dcc/manager.go:394-420 | Bridge: The whole new state; the record keeps address "0", port 0 and the drawn token |
| `DccManagerClass.Manager.AdvanceOutgoing` | internal/dcc/manager.go:1023-1030 | Bridge: Frees the slot if this transfer holds it and starts the next |
| `DccManagerClass.Manager.FinishWithError` | internal/dcc/manager.go:764-806 | Bridge: The whole new state; an interrupted download with a partial file becomes Resumable; no status is checked first |
| `DccManagerClass.Manager.MarkTransferring` | internal/dcc/manager.go:691-702 | Bridge: Only a transfer under negotiation or connecting starts to transfer; the result tells |
| `DccManagerClass.Manager.Progress` | internal/dcc/manager.go:704-738 | Bridge: Counts move only while Transferring |
| `DccManagerClass.Manager.Complete` | internal/dcc/manager.go:740-762 | Bridge: Only a Transferring transfer completes; slot and worker are released and the next one starts |
| `DccManagerClass.Manager.Cancel` | internal/dcc/manager.go:823-860 | Bridge: The whole new state: the first queue entry removed, the record canceled or made resumable, the next one started; true iff the transfer was active or resumable |
| `DccManagerClass.Manager.CancelAll` | internal/dcc/manager.go:862-874 | Bridge: Cancels, one after the other, what was active when it began |
| `DccManagerClass.Manager.QueueOutgoing` | internal/dcc/manager.go:247-296 | Bridge: Refused, with nothing changed, iff transfers are off or some picked file is not regular or has an unsafe name; otherwise new records and queue entries in the order given, then the scheduler |
| `DccManagerClass.Manager.Retry` | internal/dcc/manager.go:876-900 | Bridge: A failed or canceled upload whose source is there is queued again from byte zero; the token of an earlier attempt stays |
| `DccManagerClass.Manager.UpdateSettings` | internal/dcc/manager.go:126-159 | Bridge: Refused iff it disables a busy manager without permission to cancel; otherwise the whole new state |
| `DccManagerClass.Manager.Close` | internal/dcc/manager.go:984-996 | Bridge: Shuts the gate before everything active is canceled |
| `DccManagerClass.Manager.HandleControl` | internal/dcc/manager.go:187-216 | Bridge: From the payload on: the whole new state for each command; nothing while disabled or if the payload does not parse |
| `DccManagerClass.Manager.HandlePassiveResponse` | internal/dcc/manager.go:422-460 | Bridge: Takes the first matching upload under negotiation, records the address and dials; tells whether there was one |
| `DccManagerClass.Manager.AddIncomingOffer` | internal/dcc/manager.go:218-245 | Bridge: An interrupted download of the same file and size takes the offer over, otherwise a new record is made |
| `DccManagerClass.Manager.HandleResumeRequest` | internal/dcc/manager.go:597-616 | Bridge: Moves the offset of the first matching record, whatever its status, and answers; true iff found, within the file and delivered |
| `DccManagerClass.Manager.HandleResumeAccept` | internal/dcc/manager.go:618-637 | Bridge: Begins the first matching download with its saved offer |
| `DccManagerClass.Manager.BeginReceive` | internal/dcc/manager.go:533-595 | Bridge: Registers the worker, and for a passive offer announces a listener; fails exactly when that cannot be done |
| `DccManagerClass.Manager.Accept` | internal/dcc/manager.go:462-531 | Bridge: The whole new state with all refusals; true iff the partial file is usable, there is room and the peer or listener was reached |
| `DccManagerClass.Manager.Decline` | internal/dcc/manager.go:808-821 | Bridge: Only an Offered transfer is declined |
| `DccManagerClass.Manager.DiscardPartial` | internal/dcc/manager.go:902-923 | Bridge: Forgets a resumable download and its offer |
| `DccManagerClass.Manager.RemoveHistory` | internal/dcc/manager.go:925-943 | Bridge: Forgets a record that is neither active nor resumable |
| `DccManagerClass.Manager.ClearHistory` | internal/dcc/manager.go:945-960 | Bridge: Forgets exactly the removable records |
| `DccResume.ResumeIntegrity` | internal/dcc/manager.go:462-531 | Two managers joined by message queues: in every run from consistent stored records, in which no stale RESUME or passive answer reaches a waiting transfer, every download holds a prefix of its source, and a Completed one holds the source |
| `DccResume.ConnectionsStartWhereFilesEnd` | internal/dcc/manager.go:639-677 | In such runs, whenever two workers can connect, both sides agree on file and offset, and the offset is the length of the partial file |
| `DccResume.NetStepInv` | internal/dcc/manager.go:597-677 | Every step of either side, of the channels and of the connections keeps the invariant of two managers |
| `DccLanding.LandingResume` | internal/dcc/manager.go:597-616 | A RESUME that lands on a transfer under negotiation, whatever attempt it was sent for: both offsets agree iff it asks for the length of the partial file, and the data is right for every source iff it does or no byte flows; every RESUME of the current attempt does |
| `DccLanding.LandingOnQueued` | internal/dcc/manager.go:298-420 | A RESUME that lands on a waiting transfer: the next announced attempt starts at its position, and a download from byte zero agrees with it iff the position was 0 |
| `DccLanding.LandingAnswer` | internal/dcc/manager.go:422-460 | A passive answer found for a transfer makes it dial the download that sent it and keeps its offset: both offsets agree iff the answer was sent for the current attempt or they coincide anyway, and the data is right for every source iff that holds or no byte flows |
| `DccLanding.ContinuesExactly` | internal/dcc/transport.go:38-72 | Data sent from one offset continues a partial file of another length rightly, for every source, exactly if the two are equal or nothing is left to send or to receive |
| `DccLanding.FirstByteDecides` | internal/dcc/manager.go:639-677 | Any two workers that can meet, in any state: connect, send one byte, receive it, and the file is still a prefix of its source iff the byte at the sender offset is the byte at the length of the file |
| `DccLanding.OvertakenConnection` | internal/dcc/manager.go:597-677 | In every state of the invariant in which two workers are about to connect: if a RESUME of any attempt is handled first and one byte then crosses, the file is still a prefix of its source iff the source holds the same byte at the position asked for and at the length of the file |
| `DccLanding.AnsweredConnection` | internal/dcc/manager.go:422-460 | The same for a passive answer of any attempt: the bytes compared are those at the offset the offering transfer had and at the length of the file |
| `DccGoodResume.TimelyResumeCompletes` | internal/dcc/manager.go:462-531 | Runs as in the theorem exist: a timely run from consistent records resumes an interrupted download and completes it |
| `DccStaleResume.StaleResumeRuinsDownload` | internal/dcc/manager.go:597-616 | The guard is needed: a concrete run in which a RESUME of a withdrawn passive offer leaves a Completed download that differs from its source |
| `DccStaleAnswer.StaleAnswerRuinsDownload` | internal/dcc/manager.go:422-460 | The guard is needed: a concrete run in which the answer to a withdrawn passive offer takes over a classic attempt and the download gets bytes its source does not begin with |
| `DccResumeSender.ToSenderKeepsInv` | internal/dcc/manager.go:422-460 | Handling a control message on the offering side keeps the invariant, given the guard |
| `DccResumeMessages.MessageToReceiver` | internal/dcc/manager.go:618-637 | Handling a control message on the downloading side keeps the invariant |
| `DccResumeBegin.AgreesByAnswer` | internal/dcc/manager.go:618-637 | The answer to a RESUME names the offset the current attempt of the same offer will start from |
| `DccResumeBegin.AgreesAtZero` | internal/dcc/manager.go:518-531 | A download that begins without a partial file agrees with any current attempt: nobody asked to resume it |
| `DccResumeBytes.MeetingAgrees` | internal/dcc/manager.go:639-677 | Workers that can meet belong to one attempt, for one file, at one offset |
| `DccResumeBytes.ReceiveDoneKeepsInv` | internal/dcc/manager.go:740-762 | A download that completes holds its whole source |
| `DccSenderMoves.SenderStepMoves` | internal/dcc/manager.go:247-420 | Whatever user and scheduler of the offering side do, at most one transfer is announced, from byte zero and under a new key, and every other one under negotiation keeps its record and worker |
| `DccTransport.WriteAll` | internal/dcc/transport.go:139-148 | Bridge: Loop proved against its specification for every pattern of partial writes |
| `DccTransport.SendFile` | internal/dcc/transport.go:13-74 | Bridge: Loop and checks proved against their specification for every fragmentation |
| `DccTransport.ReceiveFile` | internal/dcc/transport.go:76-133 | Bridge: Loop and checks proved against their specification for every fragmentation |
| `DccTransport.WritesInOrder` | internal/dcc/transport.go:139-148 | What reaches the writer is a prefix of the buffer, all of it on success |
| `DccTransport.SendExact` | internal/dcc/transport.go:46-72 | The wire carries a prefix of the source from the offset on, all of it on success; reported counts rise strictly |
| `DccTransport.ReceiveExact` | internal/dcc/transport.go:98-137 | Success leaves the old prefix and exactly the missing bytes; acknowledgements are the strictly rising cumulative counts modulo 2^32 and end with the total; failure leaves the old prefix and some of what arrived |
| `DccTransport.TransferDelivers` | internal/dcc/transport.go:13-133 | If the receiver reads what the sender wrote from the same offset, in any pieces, and holds the source up to it, success means it holds the source |
| `DccTransportExact.WriteOutcome` | internal/dcc/transport.go:139-148 | writeAll succeeds iff its calls take everything before one reports an error, and fails iff one does while bytes are left |
| `DccTransportExact.SendOutcome` | internal/dcc/transport.go:13-74 | sendFile succeeds iff offset and size are right and round after round moves data without cancellation or error until nothing is left; it fails iff they are wrong or, with something left, a round is canceled or meets a failing write or read |
| `DccTransportExact.ReceiveOutcome` | internal/dcc/transport.go:76-133 | receiveFile succeeds iff the partial file fits the offset, every round until nothing is missing keeps and acknowledges its data, and the final sync works; it fails iff one of these goes wrong |
| `DccTransportExact.TransferSucceeds` | internal/dcc/transport.go:13-133 | If the rounds of both sides are fine to the end, both succeed and the receiver holds the source |
| `DccProtocol.SplitFields` | internal/dcc/protocol.go:209-246 | Bridge: Loop proved against the scanner whose laws follow |
| `DccProtocolLaws.SendRoundTrip` | internal/dcc/protocol.go:35-173 | Parse inverts FormatSend exactly if the offer is one a SEND can mean (safe name, ports and sizes in range, passive form complete or address admitted) and its token has no space or quote |
| `DccProtocolLaws.ResumeRoundTrip` | internal/dcc/protocol.go:52-181 | Parse inverts FormatResume, for RESUME and ACCEPT, under the same kind of exact condition |
| `DccProtocolLaws.SendNormalForm` | internal/dcc/protocol.go:76-109 | Whatever form a SEND came in (quoted, plain or historic with spaces), printing and parsing again gives the same offer exactly if its token has no space or quote |
| `DccProtocolLaws.ParsedIsWellFormed` | internal/dcc/protocol.go:35-133 | Whatever Parse accepts has a safe name, numbers in range and a consistent passive flag |
| `DccProtocolLaws.AddressRoundTrip` | internal/dcc/protocol.go:135-165 | An IPv4 address printed as a decimal comes back as its four bytes exactly if it is admitted |
| `DccProtocolLaws.RefusedAddresses` | internal/dcc/protocol.go:135-155 | A decimal address is refused iff it is 0.0.0.0 or in 127.0.0.0/8, 169.254.0.0/16 or 224.0.0.0/4 |
| `DccProtocolLaws.OddToken` | internal/dcc/protocol.go:209-246 | A token with a space or quote never comes back as the one field after the others |
| `DccProtocolLaws.QuoteSpells` | internal/dcc/protocol.go:193-199 | A quoted safe name is one field with the name as content |
| `DccProtocolLaws.CommandInAnyCase` | internal/dcc/protocol.go:35-75 | The command words are recognised in any mixture of cases, and nothing else is |
| `DccProtocolLaws.CommandDecides` | internal/dcc/protocol.go:45-74 | What is read has the command its first word names; CHAT whatever follows; any other word is refused |
| `DccProtocolLaws.NumbersRead` | internal/dcc/protocol.go:201-216 | Digits with or without a sign are the number they spell if it is in range, a minus only in front of zero |
| `DccProtocolLaws.HistoricName` | internal/dcc/protocol.go:76-109 | A SEND whose unquoted name has spaces: the words before the numbers are the name, unless the last of them could be an address |
| `DccProtocolLaws.HistoricPassive` | internal/dcc/protocol.go:76-109 | The same with the token of a passive offer |
| `DccWire.StepSound` | internal/dcc/manager.go:126-996 | Every step keeps all names safe, all sizes and ports in range and all messages well-formed: names are checked when picked and when parsed, ports come from listeners, tokens are drawn |
| `DccWire.WireSafety` | internal/dcc/manager.go:187-637 | In every run of one manager, whatever its peers send: every record has a safe name, and every message it sent is parsed by the peer as exactly that message iff its token has no space or quote |
| `DccWire.WireSafetyStrict` | internal/dcc/manager.go:187-637 | If the tokens that arrived have no space or quote, every message sent in the run is parsed as exactly that message |
| `DccTextRuns.SameRun` | internal/dcc/manager.go:187-216 | Two managers that exchange text pass through the same states as two that exchange values; each kind of run is possible, and timely, iff the other is |
| `DccTextRuns.EveryMessageCrosses` | internal/dcc/manager.go:187-637 | In every run of two managers over text each message of either side is parsed by the other as exactly that message |
| `DccTextRuns.TextResumeIntegrity` | internal/dcc/manager.go:187-677 | Resume integrity of the text protocol, from the printed payloads on |
| `DccTextExamples.StaleResumeOverText` | internal/dcc/manager.go:597-616 | The run that ruins a download with a stale RESUME, over text |
| `DccTextExamples.StaleAnswerOverText` | internal/dcc/manager.go:422-460 | The run that ruins a download with a stale passive answer, over text |
| `DccTextExamples.GoodResumeOverText` | internal/dcc/manager.go:462-531 | The timely run that resumes and completes, over text |
| `EventBus.Bus.Send` | internal/events/bus.go:185-200 | Bridge: A channel send appends unless the queue is full |
| `EventBus.Bus.StoreLatest` | internal/events/bus.go:206-221 | Bridge: Last write wins, first write decides the turn; nothing after Close |
| `EventBus.Bus.PopLatest` | internal/events/bus.go:106-124 | Bridge: Takes the oldest key and its newest snapshot and tells whether more wait |
| `EventBus.StoredReplaces` | internal/events/bus.go:206-221 | Bridge: A store replaces one key, keeps the others and the order, and adds at most one entry |
| `EventBusRuns.StepInv` | internal/events/bus.go:77-130 | Every step of emitters, dispatcher and Close keeps the invariant |
| `EventBusRuns.LaneExact` | internal/events/bus.go:106-130 | latestOrder lists exactly the keys of latest, each once, in every reachable state |
| `EventBusRuns.DeliveredInOrder` | internal/events/bus.go:77-101 | Ordinary events are delivered in the order they entered the queue, none lost or repeated |
| `EventBusRuns.BoundedOvertaking` | internal/events/bus.go:77-101 | Between an ordinary event entering the queue and its delivery at most one snapshot is delivered, for every interleaving and every choice of select |
| `EventBusRuns.IdleMeansDrained` | internal/events/bus.go:206-226 | No wake-up is lost: a dispatcher that cannot move, with no wake-up on its way, has delivered everything |
| `EventBusRuns.NotIdleCanMove` | internal/events/bus.go:77-130 | Otherwise the dispatcher, or a thread that owes it a wake-up, can move |
| `EventBusAccounting.Balanced` | internal/events/bus.go:77-130 | Over whole runs: emitted events are with their emitters, were sent, or were given up, none of these before Close; what was sent is, in the order of the sends, what was delivered, is held, and waits |
| `EventBusAccounting.IdleDeliveredAll` | internal/events/bus.go:185-226 | On an idle open bus with no Emit under way every emitted event was delivered exactly as often as it was emitted |
| `EventBusAccounting.RunsSettle` | internal/events/bus.go:77-130 | A run has at most ten times as many steps as something was handed in, and two: given its turns the bus comes to rest |
| `EventBusAccounting.WhoWaits` | internal/events/bus.go:185-221 | An emitter waits exactly while the queue is full and the bus open; storing a snapshot never waits |
| `UserMeta.StepInv` | internal/irc/client.go:1443-1533 | Every step of the two coalescing stages keeps the invariant |
| `UserMeta.DeliversSubsequence` | internal/irc/client.go:1443-1533 | At every moment, what was delivered for a nick is a subsequence of what was emitted for it |
| `UserMeta.IdleMeansLastWriteWon` | internal/irc/client.go:1481-1513 | Once both stages are idle nothing waits in either, and the last snapshot delivered for a nick is the last one emitted |
| `UserMeta.LastEmissionWins` | internal/irc/client.go:1443-1533 | The two results above about what the steps of a run emit |
| `UserMeta.WorkShrinks` | internal/irc/client.go:1443-1533 | Every step that hands in nothing new brings the two stages nearer to rest |
| `RateLimiter.Limiter.constructor` | internal/irc/ratelimit.go:21-28 | Bridge: A full bucket with one token per window/burst |
| `RateLimiter.Limiter.Refill` | internal/irc/ratelimit.go:61-73 | Bridge: The whole new bucket, fractions of elapsed time dropped |
| `RateLimiter.Limiter.Wait` | internal/irc/ratelimit.go:31-58 | Bridge: Returns in the first round that finds a token, and the bucket is that after those rounds |
| `RateLimiter.WindowBound` | internal/irc/ratelimit.go:31-73 | Bridge: For every sequence of attempts by any callers, a window from s to t sees at most burst + (t-s)/interval + 1 grants, and the tokens stay between 0 and the burst |
| `RateLimiter.WindowBoundTight` | internal/irc/ratelimit.go:31-73 | Bridge: The one extra grant does occur |
| `RateLimiter.SleepIsExact` | internal/irc/ratelimit.go:41-57 | Bridge: After a failed round an attempt succeeds iff the next token is due, and the computed sleep lasts until then |
| `RateLimiter.GapIsWorth` | internal/irc/ratelimit.go:31-73 | Bridge: Of any number of attempts at one time the first min(burst, tokens left + full intervals since) succeed and the others fail |
| `RateLimiter.IdleMeansFullBurst` | internal/irc/ratelimit.go:61-73 | Bridge: A bucket left alone for burst intervals grants exactly a burst at once |
| `RateLimiter.GrantsCounted` | internal/irc/ratelimit.go:31-73 | Bridge: The history the window bound counts records these grants and no others |
| `CallbackDispatcher.Queue.Enqueue` | internal/irc/callback_dispatcher.go:44-56 | Bridge: Accepted iff not stopping, at the end of the queue |
| `CallbackDispatcher.Queue.StopAfterDrain` | internal/irc/callback_dispatcher.go:58-69 | Bridge: Only stops accepting; what was accepted stays queued |
| `CallbackDispatcher.Queue.Next` | internal/irc/callback_dispatcher.go:71-92 | Bridge: Takes the head, sleeps on an open empty queue, returns on a stopped empty one |
| `CallbackDispatcher.RunsInOrder` | internal/irc/callback_dispatcher.go:44-114 | Callbacks handed in before the stop run once each in that order, panics included; done closes only when all ran; the worker sleeps only when nothing waits |
| `CallbackDispatcher.BarrierWaits` | internal/irc/client.go:4638-4728 | The barrier of Connect opens exactly when the first connect callback has finished, hence after every callback accepted before it |
| `CallbackDispatcher.StopDrains` | internal/irc/callback_dispatcher.go:61-114 | After stopAfterDrain the worker can always move until done is closed, each move brings it closer and nobody pushes it back |
| `CallbackDispatcher.NeverBlocks` | internal/irc/callback_dispatcher.go:44-69 | Handing in and stopping never wait; accepted iff no stop came before |
| `OutboundDispatcher.Queue.StopNow` | internal/irc/outbound_request_dispatcher.go:55-67 | Bridge: Drops everything unsent |
| `OutboundDispatcher.Queue.Next` | internal/irc/outbound_request_dispatcher.go:69-87 | Bridge: Takes the head unless stopping |
| `OutboundDispatcher.StartsPrefix` | internal/irc/outbound_request_dispatcher.go:39-103 | Started requests are a prefix of those handed in before the stop, one for each start, and at most one starts after stopNow returned |
| `OutboundDispatcher.StartsPaced` | internal/irc/outbound_request_dispatcher.go:89-102 | Composed with the limiter, which other senders share: a window sees at most one start more than the bound on grants |
| `OutboundDispatcher.WorkerAdvances` | internal/irc/outbound_request_dispatcher.go:69-103 | The worker is never stuck: unless it sleeps or has ended it can move, every move but a round without a token takes it nearer, and asleep it has started everything handed in |
| `ChannelModes.ParseModeChanges` | internal/irc/modeparse.go:84-105 | Bridge: Loop proved against the reader |
| `ChannelModes.Render` | internal/irc/modeparse.go:203-217 | Bridge: The loops of String over sorted letters |
| `ChannelModes.Fold` | internal/irc/modeparse.go:222-241 | Bridge: The loop of applyChannelModes over its two maps |
| `ChannelModesLaws.RoundTrip` | internal/irc/modeparse.go:165-217 | Parsing a printed class-consistent state gives it back exactly if no parameter holds a space and, in letter order, no empty one precedes another |
| `ChannelModesLaws.TwoSteps` | internal/irc/modeparse.go:219-241 | Updating in two steps through the stored string agrees with one step for all further changes, exactly if the state between them is storable in that sense |
| `ChannelModesLaws.WordedUpdates` | internal/irc/modeparse.go:219-241 | With non-empty parameters free of spaces, as a canonical prior and ordinary changes have them, updates compose |
| `ChannelModesLaws.EmptyKeyTakesLimit` | internal/irc/modeparse.go:211-214 | A key without a value in front of a limit: after printing and parsing the limit has become the key |
| `ChannelModesLaws.BareKeyLosesLimit` | internal/irc/modeparse.go:222-241 | The input: +lk with one parameter, then -k. Through the stored string the limit loses its value; applied at once it keeps it |
| `ChannelModesLaws.ParsedConsistent` | internal/irc/modeparse.go:167-187 | Whatever string was stored, the state read from it is class-consistent |
| `ChannelModesEffects.ReadExactly` | internal/irc/modeparse.go:84-105 | Every letter becomes one change, in order, with the last sign in front of it, the kind of its class, and the parameter whose turn it is iff its class and sign want one and one is left |
| `ChannelModesEffects.FlagAfter` | internal/irc/modeparse.go:222-232 | After any changes a flag is set iff the last change naming it adds it, or none names it and it was set |
| `ChannelModesEffects.ParamAfter` | internal/irc/modeparse.go:222-241 | The same for parameters, which have the value of the last addition |
| `ChannelModesEffects.OtherChangesPass` | internal/irc/modeparse.go:219-241 | List and membership changes alter nothing |
| `ChannelModesEffects.StoredAfter` | internal/irc/modeparse.go:165-241 | The same rule for the stored string read again: always for what is set, and for the values if the state can be stored |
| `MessageSplit.LastRuneBoundary` | internal/irc/splitmsg.go:81-88 | Bridge: Loop proved against the boundary search |
| `MessageSplit.SplitLine` | internal/irc/splitmsg.go:56-76 | Bridge: Loop proved against the recursive split |
| `MessageSplit.SplitOutboundMessage` | internal/irc/splitmsg.go:37-49 | Bridge: Loop over lines proved against the split of the message |
| `MessageSplitLaws.SplitIsFaithful` | internal/irc/splitmsg.go:37-88 | Chunks stay within the floored budget, hold no CR or LF, and concatenate to the message once spaces and line breaks are erased from both |
| `MessageSplitLaws.SplitKeepsUtf8` | internal/irc/splitmsg.go:78-88 | Chunks of well-formed UTF-8 are well-formed |
| `MessageSplitLaws.SplitNonEmpty` | internal/irc/splitmsg.go:56-76 | No chunk is empty if no line has two adjacent spaces |
| `MessageSplitLaws.SplitEmptyExactly` | internal/irc/splitmsg.go:37-76 | A message yields an empty chunk exactly if some remainder of some line is over the budget and has its last space in reach behind nothing but spaces |
| `MessageSplitLaws.FirstChunkEmpty` | internal/irc/splitmsg.go:62-68 | A chunk is empty exactly when everything before the last space in reach is spaces |
| `MessageSplitLaws.AdjacentSpacesCanEmpty` | internal/irc/splitmsg.go:62-68 | For every budget from 4 on there is a line, with two adjacent spaces, that yields an empty chunk |
| `MessageSplitCuts.LineByLine` | internal/irc/splitmsg.go:37-49 | No chunk spans a line break: what stands between two breaks (CR LF is one) goes out in its own chunks, in order, unchanged if it fits and not at all if empty |
| `MessageSplitCuts.CutExactly` | internal/irc/splitmsg.go:56-76 | A cut with a space in reach: the chunk ends before the last one, the spaces around it go and nothing else; without one the line is cut at the boundary and nothing goes |
| `MessageSplitCuts.BoundaryExact` | internal/irc/splitmsg.go:78-88 | The boundary is the last character start within reach, the budget if there is none |
| `MessageSplitCuts.Utf8Exactly` | internal/irc/splitmsg.go:78-88 | What counts as well-formed is what encodes some sequence of scalar values (section 3 of RFC 3629) |
| `MessageSplitCuts.BudgetExact` | internal/irc/splitmsg.go:90-116 | Unless the limit leaves less than the minimum, a text fits when relayed iff it is no longer than the budget |
| `MessageSplitLaws.RelayedFits` | internal/irc/splitmsg.go:90-116 | The relayed PRIVMSG line fits the line limit whenever overhead and the minimal budget fit and the real user and host are no longer than assumed |
| `MessageSplitLaws.RelayedActionFits` | internal/irc/client.go:5013 | The same for actions, whose wrapping is taken off the budget |
| `PluginChunks.PluginEventNotifications` | internal/plugin/manager.go:156-202 | Bridge: Both loops proved against the packing |
| `PluginChunks.SplitIsComplete` | internal/plugin/manager.go:156-202 | Success: all frames within the limit; the event as it is, or non-empty batches whose updates concatenate in order to the original, numbered 1 to their count |
| `PluginChunks.RefusedExactly` | internal/plugin/manager.go:156-202 | Refusal, exactly: too large and nothing to split, or the first update alone over the target, or some batch over the limit |
| `PluginChunks.RefusedForOneUpdate` | internal/plugin/manager.go:160-202 | If the reserve covers what a batch adds, an event with updates is refused only if some single update is over the target |
| `PluginChunks.WholeExactly` | internal/plugin/manager.go:156-164 | An event goes out as it is, in one frame, iff it fits the limit |
| `PluginChunks.PackingIsOptimal` | internal/plugin/manager.go:167-190 | If every update fits the target alone, no order-preserving split into parts that fit has fewer parts, for any measure monotone under sub-lists |
| `ConnectProtocol.App.Mark` | app_connection.go:416-441 | Bridge: Forgets a stale client and marks the network; returns the client |
| `ConnectProtocol.App.Release` | app_connection.go:581-585 | Bridge: Releases the mark only |
| `ConnectProtocol.App.Store` | app_connection.go:565-569 | Bridge: Stores the client and releases the mark |
| `ConnectProtocol.StepInv` | app_connection.go:407-585 | Every step of attempts, clients and users keeps the invariant |
| `ConnectProtocol.OneAttemptPerNetwork` | app_connection.go:407-585 | At most one attempt per network is between marking and release; an attempt that marked closes its channel exactly once, on release |
| `ConnectProtocol.NeverReplacesLiveClient` | app_connection.go:415-436 | What an attempt removes or replaces in the map is abandoned and not connected, although flags change between look and action |
| `ConnectProtocol.LaterChecksNeverFire` | app_connection.go:454-465 | While an attempt is in progress no client is stored for its network, so the second and third check never reject |
| `ConnectProtocol.AbandonedForGood` | internal/irc/client.go:2221-2243 | abandoned is sticky and excludes connected in every later state |
| `ConnectProtocol.StoppedForGood` | internal/irc/client.go:4848-4873 | A client that an attempt tears down (stale, timed out or duplicate) is abandoned and not connected at the end of every continuation of the run |
| `ConnectProtocol.SuccessStores` | app_connection.go:540-585 | From every reachable state in which a Connect call can report success: the next three steps of the attempt store its client, release the network and close the channel |
| `ConnectProtocol.LastLookStores` | app_connection.go:540-585 | In every run, acting on the last look stores the client and ends the attempt |
| `ConnectProtocol.FirstLookDecides` | app_connection.go:407-441 | A first look ends the attempt iff the network is marked or its client connected; else it marks the network and takes the stale client out |
| `ConnectProtocol.AttemptGoesOn` | app_connection.go:443-560 | Between marking and success: the stale client is torn down, the second look leads on, every dial makes a new client, failures lead to the next server and after the last to the release |
| `MembershipPrefixes.ParsePrefix` | internal/irc/client.go:5599-5638 | Bridge: Loop and searches proved against the reading of PREFIX |
| `MembershipPrefixes.ParseWellFormed` | internal/irc/client.go:5599-5638 | A well-formed PREFIX yields its rank and one mode letter per prefix |
| `MembershipPrefixes.ApplyUserPrefix` | internal/irc/client.go:201-227 | Bridge: Exactly the prefixes then held, those of the rank first and in rank order; unchanged for an unknown letter |
| `MembershipPrefixes.ApplyAll` | internal/irc/client.go:198-227 | After any sequence of membership changes the stored string is the rank filtered by the prefixes held |
| `MembershipPrefixes.HeldInRankOrder` | internal/irc/client.go:198-227 | Stored prefixes stand in rank order, higher before lower |
| `MembershipPrefixes.HeldExactly` | internal/irc/client.go:198-227 | A prefix is held iff the last change that names its letter adds it |
| `MembershipPrefixes.SplitMembershipPrefixes` | internal/irc/client.go:241-247 | Bridge: Loop proved against the recursive split |
| `MembershipPrefixes.SplitRecovers` | internal/irc/client.go:234-247 | Stored prefixes followed by a nick are taken apart into just these exactly if the nick does not begin with a prefix character |
| `Monitor.CasefoldInPlace` | internal/irc/spec.go:30-59 | Bridge: The byte loop rewrites the slice to its folded form |
| `Monitor.FoldIdempotent` | internal/irc/spec.go:30-59 | A folded name is its own key |
| `Monitor.SameKeyExactly` | internal/irc/spec.go:30-59 | Two names have one key iff they agree up to case under the mapping, character by character |
| `Monitor.SendInitialMonitor` | internal/irc/client.go:4122-4184 | Bridge: The armed set and the lines are those of the truncated list |
| `Monitor.WantedExactly` | internal/irc/client.go:4134-4153 | The list before truncation holds each key once: every buddy, and every open correspondent who is not excluded |
| `Monitor.BuddiesFirst` | internal/irc/client.go:4134-4163 | If anybody is armed who is no buddy, every buddy is armed |
| `Monitor.LinesConcat` | internal/irc/client.go:4176-4184 | The lines name the armed list in order, one to twenty nicks each |
| `Monitor.Armed.Set` | internal/irc/client.go:4057-4115 | Bridge: The whole new armed set, and the line that goes out |
| `Monitor.ArmedWithinLimit` | internal/irc/client.go:4057-4163 | After connecting and any sequence of later requests the armed set is within a fixed positive limit |
| `Monitor.ArmedExactly` | internal/irc/client.go:4154-4175 | Exactly min(limit, number wanted) names are armed, the first of the list; all without a limit |
| `Monitor.SetExactly` | internal/irc/client.go:4057-4115 | Off always takes effect, on unless the limit is reached, and nobody else is affected |

## Left out

- DccManagerClass.Manager.Progress: the speed estimate and the throttling of progress events are not modelled (display only).
- DccManagerClass.Manager.Complete: the final rename of a partial file is taken as part of the worker's success.
- DccScheduler.StepInv: a method is one atomic step; races in the gaps where a method drops its lock are not modelled.
- DccResume.ResumeIntegrity: files flow in one direction between the two sides; only registered workers act (reports of replaced workers are covered by DccScheduler); a connection starts on both sides at once; the content of a source file does not change; one outgoing transfer per file name; ports and tokens are fresh per attempt; the offering user accepts no offers of the other side.
- DccResume.ConnectionsStartWhereFilesEnd: same conditions as DccResume.ResumeIntegrity.
- DccTextRuns.TextResumeIntegrity: same conditions as DccResume.ResumeIntegrity, and stored records with safe names; payloads are exchanged by these two managers only (one manager against any peer is DccWire.WireSafety).
- DccLanding.LandingResume: exact per message; no converse over whole runs, for the reason given above.
- DccProtocolLaws.SendRoundTrip: IPv6 and dotted textual addresses are whatever the standard library takes, given as a predicate whose texts contain no space and no quote; error texts are one value; text is Unicode characters, malformed UTF-8 is not modelled.
- DccProtocolLaws.AddressRoundTrip: FormatAddress from the four bytes on; reading the dotted text is the standard library's.
- DccTransport.SendFile: opening and inspecting the file come as its content; deadlines and the reading of acknowledgements on the sending side are not modelled.
- DccTransport.ReceiveFile: a script of reads and writes that ends while the loop would go on leaves it unfinished.
- EventBusRuns.BoundedOvertaking: delivery to all subscribers is one step; the subscriber lists are not modelled.
- UserMeta.IdleMeansLastWriteWon: holds while the bus is open and the forwarder runs; after Close snapshots are dropped, and only the subsequence result remains.
- UserMeta.StepInv: the forwarder's map and signal are modelled on values, as a transition system, not as a class; aliasing of stored snapshots is not modelled.
- RateLimiter.Limiter.Wait: the clock is an argument; a window shorter than one tick per token, for which the interval would be zero, is excluded by the constructor.
- CallbackDispatcher.BarrierWaits: one Connect call per client, as the application makes them.
- OutboundDispatcher.StartsPaced: the dispatcher always has a limiter.
- ChannelModesLaws.RoundTrip: letters are neither signs nor spaces, as ParseModeChanges yields them; sorting is the standard library's.
- MessageSplitLaws.SplitNonEmpty: one direction only; the exact condition is MessageSplitLaws.SplitEmptyExactly.
- MessageSplitLaws.RelayedFits: lengths in bytes; what the roster knows of user and host is an argument.
- PluginChunks.PackingIsOptimal: the length of a marshalled frame is any function monotone under sub-lists.
- ConnectProtocol.NeverReplacesLiveClient: DisconnectNetwork is one atomic step, so its delete after an unlocked wait (app_connection.go:1216) never hits another client; reconnect backoff and server lists are not modelled.
- MembershipPrefixes.ApplyUserPrefix: prefixes outside the rank come last in any order, as the map iteration of the source gives them.
- Monitor.Armed.Set: the server supports MONITOR; without it the source does nothing.
- Monitor.WantedExactly: names are compared by case folding; own nick and service nicks are a predicate.
- Texts for display: timestamps, error texts, status lines, event payloads and logging.
- Nick comparison of the transfer manager folds ASCII letters only; the source uses Unicode simple folding.
- int64 sizes and counts of the manager are unbounded integers between 0 and the total, which never leave the range of their inputs.
- Sockets, TLS, the IRC library, SQLite, the Wails front end, plugin processes, notifications, deep links, STS, extension and metadata registries: opaque or easy.
- Easy members of the modelled files: Snapshot, Get, Locate, ValidateSettings, classifyChanModes, parseExtban, channelNameMatches, numeric formatters, Subscribe, Unsubscribe, EmitSync.
