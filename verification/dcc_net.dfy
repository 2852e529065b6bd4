/** Two transfer managers joined by two ordered message channels and by direct connections that
    carry bytes. One side offers files, the other downloads them and may resume interrupted
    downloads. All decisions are taken by the functions of module DccManager. */
module DccNet {
  import opened DccTypes
  import opened DccManager
  import Scheduler = DccScheduler

  type Bytes = seq<bv8>

  /** What a SEND offer and the messages answering it have in common. */
  datatype Key = Key(port: int, token: string)

  function KeyOfOffer(o: Offer): Key {
    Key(o.port, o.token)
  }

  /** The attempt a sender's worker belongs to. */
  function KeyOfWorker(w: Worker): Key {
    match w
    case ListenSend(port) => Key(port, "")
    case AwaitPeer(token) => Key(0, token)
    case DialSend(_, token) => Key(0, token)
    case DialReceive(offer) => KeyOfOffer(offer)
    case ListenReceive(_, offer) => KeyOfOffer(offer)
  }

  /** A direct connection: the sender reads `file` at `next`; `pipe` is written but not yet read. */
  datatype Conn = Conn(item: string, target: string, file: string, key: Key, next: nat, pipe: Bytes)

  /** `received` and `answered` count the messages of the sender and of the receiver that the other
      side has handled. `files` holds the bytes received so far for a transfer. The links name the
      connection a side is still working on. */
  datatype Net = Net(
    sender: State,
    receiver: State,
    received: nat,
    answered: nat,
    files: map<string, Bytes>,
    conns: seq<Conn>,
    outLink: map<string, nat>,
    inLink: map<string, nat>)

  /** Names under which the two sides know each other. */
  datatype Names = Names(senderNet: int, receiverNet: int, senderNick: string, receiverNick: string)

  datatype Step =
    | SenderStep(step: Scheduler.Step)
    | ReceiverStep(step: Scheduler.Step)
    | ToReceiver(answers: ControlEnv)
    | ToSender(answers: ControlEnv)
    | Connect(item: string, target: string)
    | SendChunk(item: string, count: nat)
    | SendDone(item: string, env: Env)
    | ReceiveChunk(target: string, count: nat)
    | ReceiveDone(target: string, env: Env)

  // ---------------------------------------------------------------- effects outside the managers

  /** A worker lives while its transfer is Transferring. */
  function Pruned(links: map<string, nat>, items: map<string, Transfer>): map<string, nat> {
    map id | id in links && id in items && items[id].status == Transferring :: links[id]
  }

  /** Stopping a download that cannot be resumed deletes its partial file. */
  predicate Deletes(before: Transfer, after: Transfer) {
    before.status != after.status && (after.status == Canceled || after.status == Failed) && !after.resumable
  }

  function Cleaned(files: map<string, Bytes>, before: map<string, Transfer>, after: map<string, Transfer>): map<string, Bytes> {
    map id | id in files && !(id in before && id in after && Deletes(before[id], after[id])) :: files[id]
  }

  function FilesAfter(n: Net, step: Scheduler.Step, after: State): map<string, Bytes> {
    if step.Discard? && step.id in n.receiver.items && step.id !in after.items then n.files - {step.id}
    else Cleaned(n.files, n.receiver.items, after.items)
  }

  function WithSender(n: Net, s: State): Net {
    n.(sender := s, outLink := Pruned(n.outLink, s.items))
  }

  function WithReceiver(n: Net, r: State, files: map<string, Bytes>): Net {
    n.(receiver := r, files := files, inLink := Pruned(n.inLink, r.items))
  }

  ghost function Apply(src: map<string, Bytes>, names: Names, n: Net, step: Step): Net
    requires Possible(src, n, step)
  {
    match step
    case SenderStep(st) => WithSender(n, Scheduler.Apply(n.sender, st))
    case ReceiverStep(st) =>
      var r := Scheduler.Apply(n.receiver, st);
      WithReceiver(n, r, FilesAfter(n, st, r))
    case ToReceiver(e) =>
      var r := HandleControl(n.receiver, names.receiverNet, names.senderNick, n.sender.sent[n.received].offer, e);
      WithReceiver(n, r, Cleaned(n.files, n.receiver.items, r.items)).(received := n.received + 1)
    case ToSender(e) =>
      WithSender(n, HandleControl(n.sender, names.senderNet, names.receiverNick, n.receiver.sent[n.answered].offer, e)).(answered := n.answered + 1)
    case Connect(o, i) =>
      var c := Conn(o, i, n.sender.items[o].filename, KeyOfWorker(n.sender.workers[o]), n.sender.items[o].resumeOffset, []);
      n.(sender := MarkTransferring(n.sender, o), receiver := MarkTransferring(n.receiver, i),
      files := if i in n.files then n.files else n.files[i := []],
      conns := n.conns + [c], outLink := n.outLink[o := |n.conns|], inLink := n.inLink[i := |n.conns|])
    case SendChunk(o, count) =>
      var c := n.conns[n.outLink[o]];
      var d := c.(next := c.next + count, pipe := c.pipe + src[c.file][c.next..c.next + count]);
      n.(sender := Progress(n.sender, o, d.next), conns := n.conns[n.outLink[o] := d])
    case SendDone(o, env) => WithSender(n, Complete(n.sender, o, env))
    case ReceiveChunk(i, count) =>
      var c := n.conns[n.inLink[i]];
      var got := n.files[i] + c.pipe[..count];
      n.(receiver := Progress(n.receiver, i, |got|), files := n.files[i := got],
      conns := n.conns[n.inLink[i] := c.(pipe := c.pipe[count..])])
    case ReceiveDone(i, env) => WithReceiver(n, Complete(n.receiver, i, env), n.files)
  }

  // ---------------------------------------------------------------- what the world may do

  /** Every port opened and every token drawn is new. */
  ghost predicate FreshBegins(s: State, env: Env) {
    && (forall x :: env(x).port > 0 && env(x).token != "")
    && (forall x, y :: x != y ==> env(x).port != env(y).port && env(x).token != env(y).token)
    && (forall x, k :: 0 <= k < |s.sent| && s.sent[k].offer.command == Send ==>
          s.sent[k].offer.port != env(x).port && s.sent[k].offer.token != env(x).token)
  }

  predicate FreshPort(r: State, e: ReceiveEnv) {
    e.port > 0 && forall k :: 0 <= k < |r.sent| && r.sent[k].offer.command == Send ==> r.sent[k].offer.port != e.port
  }

  /** One outgoing transfer per file name; a name stands for one source file. */
  predicate NewNames(src: map<string, Bytes>, s: State, files: seq<File>) {
    && (forall k :: 0 <= k < |files| ==> files[k].name in src && files[k].size == |src[files[k].name]|)
    && (forall k, id :: 0 <= k < |files| && id in s.items && s.items[id].direction == Outgoing ==> s.items[id].filename != files[k].name)
    && (forall j, k :: 0 <= j < k < |files| ==> files[j].name != files[k].name)
  }

  /** What the user of the offering side may do, and failures of its live workers. */
  ghost predicate SenderMay(src: map<string, Bytes>, s: State, step: Scheduler.Step) {
    match step
    case QueueFiles(_, _, files, env) => (Selectable(files) ==> NewNames(src, s, files)) && FreshBegins(s, env)
    case RetryItem(_, _, env) => FreshBegins(s, env)
    case CancelItem(_, env) => FreshBegins(s, env)
    case ChangeSettings(_, _, _, env) => FreshBegins(s, env)
    case CloseManager(_, env) => FreshBegins(s, env)
    case Forget(_) => true
    case ForgetAll => true
    case WorkerFailed(id, _, _, env) => id in s.workers && FreshBegins(s, env)
    case _ => false
  }

  /** What the file system shows of a download. */
  function PartialOf(files: map<string, Bytes>, id: string): Partial {
    if id in files then PartialFile(|files[id]|, true) else NoPartial
  }

  /** What the user of the downloading side may do, and failures of its live workers. */
  ghost predicate ReceiverMay(r: State, files: map<string, Bytes>, step: Scheduler.Step) {
    match step
    case AcceptItem(id, e, _) =>
      e.partial == PartialOf(files, id) && FreshPort(r, e.receive) && e.receive.partialExists == (id in files)
    case CancelItem(_, _) => true
    case DeclineItem(_) => true
    case Discard(_) => true
    case Forget(_) => true
    case ForgetAll => true
    case ChangeSettings(_, _, _, _) => true
    case CloseManager(_, _) => true
    case WorkerFailed(id, _, partialExists, _) => id in r.workers && partialExists == (id in files)
    case _ => false
  }

  /** The answer of the file system depends on the download that turns out to be meant. */
  ghost predicate AnswersFor(n: Net, names: Names, offer: Offer, e: ControlEnv) {
    && e.newId !in n.receiver.offers && e.newId !in n.receiver.workers && e.newId !in n.files && e.newId !in n.inLink
    && FreshPort(n.receiver, e.receive)
    && var id := FirstMatch(e.order, ResumeAccepts(n.receiver.items, names.receiverNet, names.senderNick, offer));
       (e.receive.partialExists <==> id in n.files)
  }

  predicate Meet(w: Worker, v: Worker) {
    || (w.ListenSend? && v.DialReceive? && w.port == v.offer.port)
    || (w.DialSend? && v.ListenReceive? && w.port == v.port)
  }

  ghost predicate PossibleNamed(src: map<string, Bytes>, names: Names, n: Net, step: Step) {
    && Possible(src, n, step)
    && match step
       case SenderStep(st) => Scheduler.Possible(n.sender, st)
       case ReceiverStep(st) => Scheduler.Possible(n.receiver, st)
       case ToReceiver(e) =>
         && Scheduler.Possible(n.receiver, Scheduler.Message(names.receiverNet, names.senderNick, n.sender.sent[n.received].offer, e))
         && AnswersFor(n, names, n.sender.sent[n.received].offer, e)
       case ToSender(e) =>
         && Scheduler.Possible(n.sender, Scheduler.Message(names.senderNet, names.receiverNick, n.receiver.sent[n.answered].offer, e))
         && FreshBegins(n.sender, e.begin)
       case SendDone(_, env) => FreshBegins(n.sender, env)
       case _ => true
  }

  ghost predicate Possible(src: map<string, Bytes>, n: Net, step: Step) {
    match step
    case SenderStep(st) => SenderMay(src, n.sender, st)
    case ReceiverStep(st) => ReceiverMay(n.receiver, n.files, st)
    case ToReceiver(_) => n.received < |n.sender.sent|
    case ToSender(_) => n.answered < |n.receiver.sent|
    case Connect(o, i) =>
      && o in n.sender.items && n.sender.items[o].status == Negotiating && o in n.sender.workers
      && i in n.receiver.items && n.receiver.items[i].status == Connecting && i in n.receiver.workers
      && Meet(n.sender.workers[o], n.receiver.workers[i])
      && 0 <= n.sender.items[o].resumeOffset
      && (if n.receiver.items[i].resumeOffset == 0 then i !in n.files
          else i in n.files && |n.files[i]| == n.receiver.items[i].resumeOffset)
    case SendChunk(o, count) =>
      && o in n.outLink && n.outLink[o] < |n.conns|
      && var c := n.conns[n.outLink[o]];
      && c.file in src && count > 0 && c.next + count <= |src[c.file]|
    case SendDone(o, _) =>
      && o in n.outLink && n.outLink[o] < |n.conns|
      && var c := n.conns[n.outLink[o]];
      && c.file in src && c.next == |src[c.file]|
    case ReceiveChunk(i, count) =>
      && i in n.inLink && n.inLink[i] < |n.conns| && i in n.files && i in n.receiver.items
      && 0 < count <= |n.conns[n.inLink[i]].pipe|
      && |n.files[i]| + count <= n.receiver.items[i].totalBytes
    case ReceiveDone(i, _) =>
      i in n.inLink && i in n.files && i in n.receiver.items && |n.files[i]| == n.receiver.items[i].totalBytes
  }

  // ---------------------------------------------------------------- stale control messages

  /** Transfer `id` is under negotiation and its worker belongs to the attempt `key`. */
  predicate CurrentAttempt(s: State, id: string, key: Key)
    requires id in s.items
  {
    s.items[id].status == Negotiating && id in s.workers && KeyOfWorker(s.workers[id]) == key
  }

  /** The condition the source does not check: a RESUME that would move the offset of a transfer
      waiting to begin or under negotiation, and a passive answer that is found for one, was sent for
      its current attempt. */
  predicate TimelyMessage(s: State, names: Names, m: Offer, order: seq<string>) {
    s.settings.enabled ==>
      match m.command
      case Resume =>
        var id := FirstMatch(order, ResumeRequests(s.items, names.senderNet, names.receiverNick, m));
        (id != "" && m.position <= s.items[id].totalBytes && m.position != s.items[id].resumeOffset
         && (s.items[id].status == Queued || s.items[id].status == Negotiating)) ==>
          CurrentAttempt(s, id, KeyOfOffer(m))
      case Send =>
        var id := FirstMatch(order, PassiveReplies(s.items, names.senderNet, names.receiverNick, m));
        m.token != "" && m.port > 0 && id != "" ==> CurrentAttempt(s, id, Key(0, m.token))
      case _ => true
  }

  predicate Timely(names: Names, n: Net, step: Step) {
    step.ToSender? && n.answered < |n.receiver.sent| ==>
      TimelyMessage(n.sender, names, n.receiver.sent[n.answered].offer, step.answers.order)
  }
}
