/** The transfer manager of internal/dcc/manager.go as a state machine on values: every public
    method and every worker completion is one function from state to state. What the outside
    world decides (file-system answers, listening sockets, delivery of control messages, fresh
    identifiers, the iteration order of Go maps) arrives as arguments. The class in
    dcc_manager_class.dfy performs the same updates in place and is proved against these
    functions. */
module DccManager {
  import opened DccTypes
  import opened DccNames

  datatype Mode = Automatic | Classic | Passive

  datatype Settings = Settings(enabled: bool, mode: Mode, advertised: string) {
    /** How the next outgoing transfer is negotiated. */
    predicate UsesPassive() {
      mode == Passive || (mode == Automatic && advertised == "")
    }
  }

  /** A control message handed to the IRC connection. */
  datatype Control = Control(networkID: int, peer: string, offer: Offer)

  /** The registered worker of a transfer (an entry of `cancels`), by what it waits for. */
  datatype Worker =
    | ListenSend(port: int)
    | AwaitPeer(token: string)
    | DialSend(port: int, token: string)
    | DialReceive(offer: Offer)
    | ListenReceive(port: int, offer: Offer)

  datatype State = State(
    settings: Settings,
    items: map<string, Transfer>,
    offers: map<string, Offer>,
    workers: map<string, Worker>,
    queue: seq<string>,
    active: string,
    sent: seq<Control>)

  /** Outcomes met while an outgoing transfer begins: whether a port could be opened and which,
      the formatted advertised address ("" when formatting fails), the passive token drawn, and
      whether the control message was delivered. */
  datatype Begin = Begin(listens: bool, port: int, address: string, token: string, delivered: bool)

  /** The outcomes each transfer would meet if it began during the current step. */
  type Env = string -> Begin

  function OfferOf(s: State, id: string): Offer {
    if id in s.offers then s.offers[id] else ZERO_OFFER
  }

  // ---------------------------------------------------------------- outgoing scheduler

  function Prepared(t: Transfer, settings: Settings, b: Begin): Transfer {
    if settings.UsesPassive() then
      t.(status := Negotiating, token := b.token, port := 0, address := "0")
    else if settings.advertised == "" || !b.listens || b.address == "" then
      t.(status := Negotiating)
    else
      t.(status := Negotiating, port := b.port, address := b.address)
  }

  predicate Refuses(settings: Settings, b: Begin) {
    !b.delivered
    || (!settings.UsesPassive() && (settings.advertised == "" || !b.listens || b.address == ""))
  }

  /** The offer announced for a prepared transfer: FormatSend's arguments. */
  function Announcement(t: Transfer, settings: Settings): Offer {
    if settings.UsesPassive() then
      Offer(Send, t.filename, "0", 0, t.totalBytes, 0, t.token, true)
    else
      Offer(Send, t.filename, t.address, t.port, t.totalBytes, 0, "", t.port == 0)
  }

  function SendWorker(t: Transfer, settings: Settings): Worker {
    if settings.UsesPassive() then AwaitPeer(t.token) else ListenSend(t.port)
  }

  /** A transfer whose negotiation began and whose offer was delivered. */
  function Launched(s: State, id: string, b: Begin): State
    requires id in s.items
  {
    var t := Prepared(s.items[id], s.settings, b);
    s.(items := s.items[id := t],
    workers := s.workers[id := SendWorker(t, s.settings)],
    sent := s.sent + [Control(t.networkID, t.peer, Announcement(t, s.settings))])
  }

  /** The record left by finishWithError. `partialExists` is the answer of the file system. */
  function FinishedItem(t: Transfer, canceled: bool, partialExists: bool): Transfer {
    var u := t.(status := if canceled then Canceled else Failed);
    if t.direction == Incoming && t.hasPartial && t.transferredBytes > 0 && partialExists then
      u.(status := Resumable, resumable := true)
    else u
  }

  /** finishWithError up to, and without, its call of advanceOutgoing. */
  function Finished(s: State, id: string, canceled: bool, partialExists: bool): State
    requires id in s.items
  {
    s.(items := s.items[id := FinishedItem(s.items[id], canceled, partialExists)],
    workers := s.workers - {id})
  }

  function Idled(s: State, id: string): State {
    if s.active == id then s.(active := "") else s
  }

  /** startNextOutgoing, with the mutual recursion through a failing begin unfolded. Every round
      takes one entry off the queue. */
  function StartNext(s: State, env: Env): State
    decreases |s.queue|
  {
    if s.active != "" || |s.queue| == 0 || !s.settings.enabled then s
    else
      var id := s.queue[0];
      var popped := s.(queue := s.queue[1..]);
      if id !in s.items || s.items[id].status != Queued then StartNext(popped, env)
      else
        var taken := popped.(active := id);
        if Refuses(s.settings, env(id)) then
          StartNext(Idled(Rejected(taken, id, env(id)), id), env)
        else
          Launched(taken, id, env(id))
  }

  /** A transfer that began and failed at once. */
  function Rejected(s: State, id: string, b: Begin): State
    requires id in s.items
    ensures Rejected(s, id, b).queue == s.queue
  {
    Finished(s.(items := s.items[id := Prepared(s.items[id], s.settings, b)]), id, false, false)
  }

  function Advance(s: State, id: string, env: Env): State {
    StartNext(Idled(s, id), env)
  }

  function FinishWithError(s: State, id: string, canceled: bool, partialExists: bool, env: Env): State {
    if id !in s.items then s
    else Advance(Finished(s, id, canceled, partialExists), id, env)
  }

  /** beginPassiveOutgoing. */
  function BegunPassive(s: State, id: string, env: Env): State {
    if id !in s.items || s.items[id].status != Negotiating then s
    else
      var t := s.items[id].(token := env(id).token, port := 0, address := "0");
      var prepared := s.(items := s.items[id := t]);
      if !env(id).delivered then FinishWithError(prepared, id, false, false, env)
      else
        prepared.(workers := s.workers[id := AwaitPeer(t.token)],
        sent := s.sent + [Control(t.networkID, t.peer, Offer(Send, t.filename, "0", 0, t.totalBytes, 0, t.token, true))])
  }

  /** beginClassicOutgoing. */
  function BegunClassic(s: State, id: string, env: Env): State {
    if id !in s.items || s.items[id].status != Negotiating then s
    else if s.settings.advertised == "" || !env(id).listens then FinishWithError(s, id, false, false, env)
    else if !s.settings.enabled then s
    else if env(id).address == "" then FinishWithError(s, id, false, false, env)
    else
      var t := s.items[id].(port := env(id).port, address := env(id).address);
      var prepared := s.(items := s.items[id := t]);
      if !env(id).delivered then FinishWithError(prepared, id, false, false, env)
      else
        prepared.(workers := s.workers[id := ListenSend(t.port)],
        sent := s.sent + [Control(t.networkID, t.peer, Offer(Send, t.filename, t.address, t.port, t.totalBytes, 0, "", t.port == 0))])
  }

  /** The unfolded StartNext is the source's recursion: take an entry, begin it, and let a failing
      begin finish, advance and start the next one. */
  lemma StartNextBegins(s: State, env: Env)
    requires s.active == "" && s.queue != [] && s.settings.enabled
    requires s.queue[0] in s.items && s.items[s.queue[0]].status == Queued
    ensures var id := s.queue[0];
            var taken := s.(queue := s.queue[1..], active := id, items := s.items[id := s.items[id].(status := Negotiating)]);
            StartNext(s, env) == (if s.settings.UsesPassive() then BegunPassive(taken, id, env) else BegunClassic(taken, id, env))
  {
    var id := s.queue[0];
    var b := env(id);
    var popped := s.(queue := s.queue[1..], active := id);
    var taken := popped.(items := s.items[id := s.items[id].(status := Negotiating)]);
    assert taken.items[id := Prepared(s.items[id], s.settings, b)] == s.items[id := Prepared(s.items[id], s.settings, b)];
    if Refuses(s.settings, b) {
      var prepared := popped.(items := s.items[id := Prepared(s.items[id], s.settings, b)]);
      assert StartNext(s, env) == FinishWithError(prepared, id, false, false, env);
      assert prepared.items[id] == Prepared(s.items[id], s.settings, b);
      if !s.settings.UsesPassive() && (s.settings.advertised == "" || !b.listens || b.address == "") {
        assert prepared == taken;
      }
    }
  }

  function MarkTransferring(s: State, id: string): State {
    if id in s.items && (s.items[id].status == Negotiating || s.items[id].status == Connecting) then
      s.(items := s.items[id := s.items[id].(status := Transferring)])
    else s
  }

  function Progress(s: State, id: string, transferred: int): State {
    if id in s.items && s.items[id].status == Transferring then
      s.(items := s.items[id := s.items[id].(transferredBytes := transferred)])
    else s
  }

  function CompletedItem(t: Transfer): Transfer {
    t.(status := Completed, transferredBytes := t.totalBytes, resumable := false,
    fileAvailable := t.direction == Incoming || t.fileAvailable)
  }

  function Complete(s: State, id: string, env: Env): State {
    if id in s.items && s.items[id].status == Transferring then
      Advance(s.(items := s.items[id := CompletedItem(s.items[id])], workers := s.workers - {id}), id, env)
    else s
  }

  /** The queue without the first occurrence of `id`. */
  function RemoveFirst(q: seq<string>, id: string): (r: seq<string>)
    ensures |r| <= |q|
    ensures forall x :: x in r ==> x in q
    ensures forall x :: x in q && x != id ==> x in r
    ensures id !in q ==> r == q
  {
    if q == [] then q
    else if q[0] == id then q[1..]
    else [q[0]] + RemoveFirst(q[1..], id)
  }

  predicate CanCancel(s: State, id: string) {
    id in s.items && (s.items[id].status.Active() || s.items[id].status == Resumable)
  }

  function CanceledItem(t: Transfer): Transfer {
    if t.direction == Incoming && t.hasPartial && t.transferredBytes > 0 then
      t.(status := Resumable, resumable := true)
    else
      t.(status := Canceled)
  }

  /** Cancel up to, and without, its call of advanceOutgoing. */
  function CanceledState(s: State, id: string): State
    requires id in s.items
  {
    s.(items := s.items[id := CanceledItem(s.items[id])],
    workers := s.workers - {id},
    queue := RemoveFirst(s.queue, id))
  }

  function Cancel(s: State, id: string, env: Env): State {
    if CanCancel(s, id) then Advance(CanceledState(s, id), id, env) else s
  }

  /** Cancel for every listed identifier in turn. CancelAll lists the active ones. */
  function CancelEach(s: State, ids: seq<string>, env: Env): State
    decreases |ids|
  {
    if ids == [] then s else CancelEach(Cancel(s, ids[0], env), ids[1..], env)
  }

  /** A file picked for sending: the fresh identifier it gets, its base name, whether it is there and
      a regular file, and its size. */
  datatype File = File(id: string, name: string, regular: bool, size: int)

  /** Every picked file can be announced. */
  predicate Selectable(files: seq<File>) {
    forall k :: 0 <= k < |files| ==> files[k].regular && SafeFilename(files[k].name)
  }

  function NewOutgoing(networkID: int, peer: string, f: File): Transfer {
    Transfer(networkID, peer, Outgoing, f.name, false, f.size, 0, Queued, "", 0, "", 0, true, false)
  }

  function Enqueued(s: State, networkID: int, peer: string, files: seq<File>): State
    decreases |files|
  {
    if files == [] then s
    else
      var f := files[0];
      Enqueued(s.(items := s.items[f.id := NewOutgoing(networkID, peer, f)], queue := s.queue + [f.id]),
               networkID, peer, files[1..])
  }

  function QueueOutgoing(s: State, networkID: int, peer: string, files: seq<File>, env: Env): State {
    if !s.settings.enabled || files == [] || !Selectable(files) then s
    else StartNext(Enqueued(s, networkID, peer, files), env)
  }

  predicate CanRetry(s: State, id: string, sourceAvailable: bool) {
    && s.settings.enabled
    && id in s.items
    && s.items[id].direction == Outgoing
    && (s.items[id].status == Failed || s.items[id].status == Canceled)
    && sourceAvailable
  }

  function Requeued(s: State, id: string): State
    requires id in s.items
  {
    s.(items := s.items[id := s.items[id].(status := Queued, transferredBytes := 0, resumeOffset := 0, resumable := false)],
    queue := s.queue + [id])
  }

  function Retry(s: State, id: string, sourceAvailable: bool, env: Env): State {
    if CanRetry(s, id, sourceAvailable) then StartNext(Requeued(s, id), env) else s
  }

  /** The active transfers in the order a map iteration meets them. */
  function ActiveIds(s: State, order: seq<string>): seq<string>
    decreases |order|
  {
    if order == [] then []
    else (if order[0] in s.items && s.items[order[0]].status.Active() then [order[0]] else []) + ActiveIds(s, order[1..])
  }

  /** UpdateSettings refuses to disable while anything is under way unless told to cancel it. */
  ghost predicate Busy(s: State) {
    |s.workers| > 0 || s.active != "" || |s.queue| > 0 || exists id :: id in s.items && s.items[id].status.Active()
  }

  ghost function UpdateSettings(s: State, settings: Settings, cancelActive: bool, ids: seq<string>, env: Env): State {
    if settings.enabled then s.(settings := settings)
    else if Busy(s) && !cancelActive then s
    else if cancelActive then CancelEach(s.(settings := settings), ids, env)
    else s.(settings := settings)
  }

  /** Close: the feature gate shuts before every active transfer is canceled. */
  function Close(s: State, ids: seq<string>, env: Env): State {
    CancelEach(s.(settings := s.settings.(enabled := false)), ids, env)
  }

  // ---------------------------------------------------------------- control messages

  /** The first identifier of an iteration over `items` that satisfies `p`; "" if there is none. */
  function FirstMatch(order: seq<string>, p: string -> bool): (id: string)
    ensures id != "" ==> id in order && p(id)
    ensures id == "" ==> forall x :: x in order && p(x) ==> x == ""
    decreases |order|
  {
    if order == [] then ""
    else if order[0] != "" && p(order[0]) then order[0]
    else FirstMatch(order[1..], p)
  }

  predicate IsPassiveReply(items: map<string, Transfer>, id: string, networkID: int, peer: string, o: Offer) {
    && id in items
    && var t := items[id];
    && t.direction == Outgoing
    && t.networkID == networkID
    && SamePeer(t.peer, peer)
    && t.token == o.token
    && t.filename == o.filename
    && t.status == Negotiating
  }

  function PassiveReplies(items: map<string, Transfer>, networkID: int, peer: string, o: Offer): string -> bool {
    x => IsPassiveReply(items, x, networkID, peer, o)
  }

  predicate IsResumeRequest(items: map<string, Transfer>, id: string, networkID: int, peer: string, o: Offer) {
    && id in items
    && var t := items[id];
    && t.direction == Outgoing
    && t.networkID == networkID
    && SamePeer(t.peer, peer)
    && t.filename == o.filename
    && (t.port == o.port || (o.token != "" && t.token == o.token))
  }

  function ResumeRequests(items: map<string, Transfer>, networkID: int, peer: string, o: Offer): string -> bool {
    x => IsResumeRequest(items, x, networkID, peer, o)
  }

  predicate IsResumeAccept(items: map<string, Transfer>, id: string, networkID: int, peer: string, o: Offer) {
    && id in items
    && var t := items[id];
    && t.direction == Incoming
    && t.networkID == networkID
    && SamePeer(t.peer, peer)
    && t.filename == o.filename
    && t.resumeOffset == o.position
    && t.status == Connecting
  }

  function ResumeAccepts(items: map<string, Transfer>, networkID: int, peer: string, o: Offer): string -> bool {
    x => IsResumeAccept(items, x, networkID, peer, o)
  }

  predicate IsReoffer(items: map<string, Transfer>, id: string, networkID: int, peer: string, o: Offer) {
    && id in items
    && var t := items[id];
    && t.direction == Incoming
    && t.status == Resumable
    && t.networkID == networkID
    && SamePeer(t.peer, peer)
    && t.filename == o.filename
    && t.totalBytes == o.size
  }

  function Reoffers(items: map<string, Transfer>, networkID: int, peer: string, o: Offer): string -> bool {
    x => IsReoffer(items, x, networkID, peer, o)
  }

  /** Outcomes met while a receiver opens its end of a connection, and whether its partial file
      still exists when that fails. */
  datatype ReceiveEnv = ReceiveEnv(listens: bool, port: int, address: string, delivered: bool, partialExists: bool)

  predicate ReceiveRefuses(s: State, offer: Offer, r: ReceiveEnv) {
    offer.passive && (s.settings.advertised == "" || !r.listens || r.address == "" || !r.delivered)
  }

  /** The SEND that answers a passive offer with the receiver's own address and port. */
  function PassiveAnswer(t: Transfer, offer: Offer, r: ReceiveEnv): Offer {
    Offer(Send, t.filename, r.address, r.port, t.totalBytes, 0, offer.token, r.port == 0)
  }

  /** beginReceive when it succeeds: a direct dial, or a listener announced to the peer. */
  function Receiving(s: State, id: string, offer: Offer, r: ReceiveEnv): State
    requires id in s.items
  {
    if offer.passive then
      var t := s.items[id];
      s.(workers := s.workers[id := ListenReceive(r.port, offer)],
      sent := s.sent + [Control(t.networkID, t.peer, PassiveAnswer(t, offer, r))])
    else
      s.(workers := s.workers[id := DialReceive(offer)])
  }

  function BeginReceive(s: State, id: string, offer: Offer, r: ReceiveEnv, env: Env): State
    requires id in s.items
  {
    if ReceiveRefuses(s, offer, r) then FinishWithError(s, id, false, r.partialExists, env)
    else Receiving(s, id, offer, r)
  }

  /** handlePassiveResponse once a waiting transfer is found: its worker dials the peer. */
  function PassiveReply(s: State, id: string, o: Offer): State
    requires id in s.items
  {
    s.(items := s.items[id := s.items[id].(address := o.address, port := o.port)],
    workers := s.workers[id := DialSend(o.port, o.token)])
  }

  function NewIncoming(networkID: int, peer: string, o: Offer): Transfer {
    Transfer(networkID, peer, Incoming, o.filename, false, o.size, 0, Offered, o.address, o.port, o.token, 0, false, false)
  }

  /** addIncomingOffer: an interrupted download of the same file takes the new offer over. */
  function AddIncoming(s: State, networkID: int, peer: string, o: Offer, order: seq<string>, newId: string): State {
    var id := FirstMatch(order, Reoffers(s.items, networkID, peer, o));
    if id != "" then
      s.(items := s.items[id := s.items[id].(address := o.address, port := o.port, token := o.token, status := Offered)],
      offers := s.offers[id := o])
    else
      s.(items := s.items[newId := NewIncoming(networkID, peer, o)], offers := s.offers[newId := o])
  }

  /** The answer to a RESUME repeats the port and token of the request. */
  function AcceptAnswer(t: Transfer, o: Offer): Offer {
    Offer(Accept, t.filename, "", o.port, 0, o.position, o.token, o.port == 0)
  }

  function Resumed(s: State, id: string, networkID: int, peer: string, o: Offer, delivered: bool): State
    requires id in s.items
  {
    var t := s.items[id].(resumeOffset := o.position, transferredBytes := o.position);
    s.(items := s.items[id := t],
    sent := if delivered then s.sent + [Control(networkID, peer, AcceptAnswer(t, o))] else s.sent)
  }

  /** handleResumeRequest: no status is checked, only the record found first. */
  function HandleResumeRequest(s: State, networkID: int, peer: string, o: Offer, order: seq<string>, delivered: bool): State {
    var id := FirstMatch(order, ResumeRequests(s.items, networkID, peer, o));
    if id == "" || o.position > s.items[id].totalBytes then s
    else Resumed(s, id, networkID, peer, o, delivered)
  }

  function HandleResumeAccept(s: State, networkID: int, peer: string, o: Offer, order: seq<string>, r: ReceiveEnv, env: Env): State {
    var id := FirstMatch(order, ResumeAccepts(s.items, networkID, peer, o));
    if id == "" then s else BeginReceive(s, id, OfferOf(s, id), r, env)
  }

  /** What the world decides while a control message is handled: the iteration order of the
      item map, a fresh identifier, delivery of the answer, and the receiver's outcomes. */
  datatype ControlEnv = ControlEnv(order: seq<string>, newId: string, delivered: bool, receive: ReceiveEnv, begin: Env)

  function HandleControl(s: State, networkID: int, peer: string, o: Offer, e: ControlEnv): State {
    if !s.settings.enabled then s
    else match o.command
      case Send =>
        var id := if o.token != "" && o.port > 0 then FirstMatch(e.order, PassiveReplies(s.items, networkID, peer, o)) else "";
        if id != "" then PassiveReply(s, id, o) else AddIncoming(s, networkID, peer, o, e.order, e.newId)
      case Resume => HandleResumeRequest(s, networkID, peer, o, e.order, e.delivered)
      case Accept => HandleResumeAccept(s, networkID, peer, o, e.order, e.receive, e.begin)
      case Chat => s
  }

  // ---------------------------------------------------------------- user actions on one transfer

  datatype Lstat = Absent | Exists | Unreadable
  datatype Partial = NoPartial | PartialFile(size: int, regular: bool)

  /** The file system and the peer as met by one call of Accept. `freeSpace` is negative when it
      could not be determined. */
  datatype AcceptEnv = AcceptEnv(
    destination: string,
    lstat: Lstat,
    directoryReady: bool,
    partial: Partial,
    freeSpace: int,
    delivered: bool,
    receive: ReceiveEnv)

  predicate CanAccept(s: State, id: string, e: AcceptEnv) {
    && s.settings.enabled
    && id in s.items
    && s.items[id].direction == Incoming
    && (s.items[id].status == Offered || s.items[id].status == Resumable)
    && e.destination != ""
    && (s.items[id].hasPartial || (e.lstat == Absent && e.directoryReady))
  }

  function OffsetOf(p: Partial): int {
    if p.PartialFile? then p.size else 0
  }

  predicate PartialUsable(t: Transfer, e: AcceptEnv) {
    && (e.partial.PartialFile? ==> e.partial.regular && e.partial.size <= t.totalBytes)
    && 0 <= e.freeSpace
    && t.totalBytes - OffsetOf(e.partial) <= e.freeSpace
  }

  function AcceptedItem(t: Transfer, offset: int): Transfer {
    t.(hasPartial := true, resumeOffset := offset, transferredBytes := offset, status := Connecting)
  }

  function ResumeQuestion(t: Transfer, offer: Offer, offset: int): Offer {
    Offer(Resume, t.filename, "", offer.port, 0, offset, offer.token, offer.port == 0)
  }

  /** Accept once the name of the partial file is settled. */
  function AcceptPartial(s: State, id: string, e: AcceptEnv, env: Env): State
    requires id in s.items
  {
    if !PartialUsable(s.items[id], e) then s
    else
      var offset := OffsetOf(e.partial);
      var t := AcceptedItem(s.items[id], offset);
      var offer := OfferOf(s, id);
      var connecting := s.(items := s.items[id := t]);
      if offset > 0 then
        if e.delivered then
          connecting.(sent := s.sent + [Control(t.networkID, t.peer, ResumeQuestion(t, offer, offset))])
        else FinishWithError(connecting, id, false, e.receive.partialExists, env)
      else BeginReceive(connecting, id, offer, e.receive, env)
  }

  function AcceptTransfer(s: State, id: string, e: AcceptEnv, env: Env): State {
    if !CanAccept(s, id, e) then s
    else AcceptPartial(s.(items := s.items[id := s.items[id].(hasPartial := true)]), id, e, env)
  }

  function Decline(s: State, id: string): State {
    if id in s.items && s.items[id].status == Offered then
      s.(items := s.items[id := s.items[id].(status := Declined)])
    else s
  }

  function DiscardPartial(s: State, id: string): State {
    if id in s.items && s.items[id].resumable && s.items[id].hasPartial then
      s.(items := s.items - {id}, offers := s.offers - {id})
    else s
  }

  predicate Removable(t: Transfer) {
    !t.status.Active() && !t.resumable
  }

  function RemoveHistory(s: State, id: string): State {
    if id in s.items && Removable(s.items[id]) then s.(items := s.items - {id}) else s
  }

  function ClearHistory(s: State): State {
    s.(items := map id | id in s.items && !Removable(s.items[id]) :: s.items[id])
  }

  /** Restore: what was under way when the application closed is failed or made resumable. */
  function RestoredItem(t: Transfer): Transfer {
    if !t.status.Active() then t
    else if t.direction == Incoming && t.hasPartial && t.transferredBytes > 0 then
      t.(status := Resumable, resumable := true)
    else t.(status := Failed)
  }

  datatype Stored = Stored(id: string, record: Transfer)

  function RestoreEach(items: map<string, Transfer>, stored: seq<Stored>): map<string, Transfer>
    decreases |stored|
  {
    if stored == [] then items
    else RestoreEach(items[stored[0].id := RestoredItem(stored[0].record)], stored[1..])
  }

  /** A new manager with the stored records put back. */
  function Restored(settings: Settings, stored: seq<Stored>): State {
    State(settings, RestoreEach(map[], stored), map[], map[], [], "", [])
  }
}
