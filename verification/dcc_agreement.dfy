/** The invariant of two joined managers: whenever an offering worker and a downloading worker of
    the same attempt can meet, both sides agree where the data starts. */
module DccAgreement {
  import opened DccTypes
  import opened DccManager
  import opened DccNet
  import opened DccSenderMoves
  import Scheduler = DccScheduler

  function LengthOf(files: map<string, Bytes>, id: string): nat {
    if id in files then |files[id]| else 0
  }

  /** The offering side sends well-formed offers, each with its own key, and answers to RESUME. */
  ghost predicate Sends(src: map<string, Bytes>, s: State) {
    && (forall k :: 0 <= k < |s.sent| ==> WellFormedSend(src, s.sent[k].offer) || s.sent[k].offer.command == Accept)
    && (forall j, k :: 0 <= j < k < |s.sent| && s.sent[j].offer.command == Send && s.sent[k].offer.command == Send ==>
          KeyOfOffer(s.sent[j].offer) != KeyOfOffer(s.sent[k].offer))
  }

  /** A RESUME for attempt `key` at `position` was sent. */
  ghost predicate Asked(questions: seq<Control>, key: Key, position: int) {
    exists j :: 0 <= j < |questions| && questions[j].offer.command == Resume
                && KeyOfOffer(questions[j].offer) == key && questions[j].offer.position == position
  }

  predicate Unconnected(conns: seq<Conn>, key: Key) {
    forall c :: 0 <= c < |conns| ==> conns[c].key != key
  }

  /** Transfer `o` is under negotiation since its offer, message `k`: every later answer about its
      file belongs to this attempt and carries the offset the transfer will start from. */
  ghost predicate AttemptAt(s: State, questions: seq<Control>, conns: seq<Conn>, o: string, k: nat)
    requires o in s.items
  {
    && k < |s.sent|
    && o in s.workers
    && var m := s.sent[k].offer;
    && var key := KeyOfWorker(s.workers[o]);
    && m.command == Send
    && m.filename == s.items[o].filename
    && KeyOfOffer(m) == key
    && Unconnected(conns, key)
    && (s.items[o].resumeOffset == 0 || Asked(questions, key, s.items[o].resumeOffset))
    && (forall j :: k < j < |s.sent| && s.sent[j].offer.command == Accept && s.sent[j].offer.filename == m.filename ==>
          s.sent[j].offer.position == s.items[o].resumeOffset > 0)
  }

  ghost predicate Attempts(s: State, questions: seq<Control>, conns: seq<Conn>) {
    forall o :: o in s.items && s.items[o].status == Negotiating ==> exists k: nat :: AttemptAt(s, questions, conns, o, k)
  }

  predicate SendOf(s: State, k: nat, key: Key) {
    k < |s.sent| && s.sent[k].offer.command == Send && KeyOfOffer(s.sent[k].offer) == key
  }

  /** A connection reads a source file for an attempt that was announced. */
  ghost predicate Announced(src: map<string, Bytes>, s: State, c: Conn) {
    && c.file in src && c.next <= |src[c.file]|
    && exists k: nat :: SendOf(s, k, c.key)
  }

  ghost predicate Connections(src: map<string, Bytes>, s: State, conns: seq<Conn>) {
    forall c :: 0 <= c < |conns| ==> Announced(src, s, conns[c])
  }

  /** The records of the downloading side. */
  ghost predicate Downloads(src: map<string, Bytes>, r: State, files: map<string, Bytes>, inLink: map<string, nat>) {
    && r.queue == [] && r.active == ""
    && (forall i :: i in r.items ==>
          && r.items[i].direction == Incoming
          && r.items[i].filename in src
          && r.items[i].totalBytes == |src[r.items[i].filename]|)
    && (forall i :: i in r.items && r.items[i].status == Connecting ==>
          r.items[i].hasPartial && r.items[i].resumeOffset == LengthOf(files, i) && r.items[i].transferredBytes == LengthOf(files, i))
    && (forall i :: i in r.items && r.items[i].status == Transferring ==>
          r.items[i].hasPartial && i in inLink && i in files && r.items[i].transferredBytes == |files[i]|)
    && (forall i :: i in r.items && i in files && !r.items[i].resumable ==>
          r.items[i].status == Transferring || r.items[i].status == Completed)
    && (forall i :: i in inLink ==> i in r.items && r.items[i].status == Transferring)
    && (forall i :: i in r.items && i in r.workers ==> r.items[i].status == Connecting || r.items[i].status == Transferring)
  }

  /** Saved offers are handled messages of the sender; no two downloads share one. */
  ghost predicate Offers(s: State, r: State, received: nat) {
    && received <= |s.sent|
    && (forall i :: i in r.offers ==>
          exists k: nat :: k < received && SendOf(s, k, KeyOfOffer(r.offers[i])) && s.sent[k].offer == r.offers[i])
    && (forall i, j :: i in r.offers && j in r.offers && i != j ==> KeyOfOffer(r.offers[i]) != KeyOfOffer(r.offers[j]))
    && (forall i :: i in r.offers && i in r.items ==> r.offers[i].filename == r.items[i].filename)
  }

  /** A downloading worker works on the saved offer of its transfer. */
  ghost predicate Workers(r: State) {
    forall i :: i in r.workers && i in r.items ==>
      match r.workers[i]
      case DialReceive(o) => o == OfferOf(r, i)
      case ListenReceive(_, o) => o == OfferOf(r, i) && o.passive
      case _ => false
  }

  const NO_KEY := Key(0, "")

  /** Message `j` is a RESUME for an attempt that has not connected. */
  predicate OpenQuestion(r: State, conns: seq<Conn>, j: nat) {
    && j < |r.sent|
    && r.sent[j].offer.command == Resume
    && KeyOfOffer(r.sent[j].offer) != NO_KEY
    && Unconnected(conns, KeyOfOffer(r.sent[j].offer))
  }

  predicate AsksForward(r: State) {
    forall j: nat :: j < |r.sent| && r.sent[j].offer.command == Resume ==> r.sent[j].offer.position > 0
  }

  ghost predicate AsksLength(r: State, files: map<string, Bytes>, conns: seq<Conn>) {
    forall j: nat, i :: (OpenQuestion(r, conns, j) && i in r.items && i in r.offers
                         && KeyOfOffer(r.offers[i]) == KeyOfOffer(r.sent[j].offer)) ==>
      r.items[i].resumable && LengthOf(files, i) == r.sent[j].offer.position
  }

  ghost predicate AsksAlike(r: State, conns: seq<Conn>) {
    forall j: nat, k: nat :: (OpenQuestion(r, conns, j) && OpenQuestion(r, conns, k)
                              && KeyOfOffer(r.sent[j].offer) == KeyOfOffer(r.sent[k].offer)) ==>
      r.sent[j].offer.position == r.sent[k].offer.position
  }

  /** Until its attempt connects, a RESUME states the length of the partial file it was sent for. */
  ghost predicate Questions(r: State, files: map<string, Bytes>, conns: seq<Conn>) {
    AsksForward(r) && AsksLength(r, files, conns) && AsksAlike(r, conns)
  }

  /** RESUME is only sent for offers that were handled. */
  ghost predicate Asking(s: State, r: State, received: nat) {
    forall j: nat :: j < |r.sent| && r.sent[j].offer.command == Resume ==>
      KeyOfOffer(r.sent[j].offer) == NO_KEY || exists k: nat :: k < received && SendOf(s, k, KeyOfOffer(r.sent[j].offer))
  }

  predicate IsAnswer(r: State, j: nat, port: int, token: string) {
    j < |r.sent| && r.sent[j].offer.command == Send && r.sent[j].offer.port == port && r.sent[j].offer.token == token
  }

  /** Listening ports of the downloading side are distinct, so a port identifies an attempt. */
  ghost predicate Answers(s: State, r: State) {
    && (forall j :: 0 <= j < |r.sent| ==> r.sent[j].offer.command == Send || r.sent[j].offer.command == Resume)
    && (forall j, k :: 0 <= j < k < |r.sent| && r.sent[j].offer.command == Send && r.sent[k].offer.command == Send ==>
          r.sent[j].offer.port != r.sent[k].offer.port)
    && (forall i :: i in r.workers && i in r.items && r.workers[i].ListenReceive? ==>
          exists j: nat :: IsAnswer(r, j, r.workers[i].port, r.workers[i].offer.token))
    && (forall o :: o in s.workers && s.workers[o].DialSend? ==>
          exists j: nat :: IsAnswer(r, j, s.workers[o].port, s.workers[o].token))
  }

  /** The heart: two workers of one attempt start at the same byte. */
  ghost predicate Agreement(s: State, r: State) {
    forall o, i :: o in s.items && s.items[o].status == Negotiating && o in s.workers
                   && i in r.items && r.items[i].status == Connecting && i in r.workers && i in r.offers
                   && KeyOfWorker(s.workers[o]) == KeyOfOffer(r.offers[i]) ==>
      s.items[o].resumeOffset == r.items[i].resumeOffset
  }

  /** What a live connection has delivered plus what it still carries is what the sender read. */
  ghost predicate Flows(src: map<string, Bytes>, r: State, files: map<string, Bytes>, conns: seq<Conn>, inLink: map<string, nat>) {
    forall i :: i in inLink && i in r.items && i in files ==>
      && inLink[i] < |conns|
      && var c := conns[inLink[i]];
      && c.target == i
      && c.file == r.items[i].filename
      && c.file in src && c.next <= |src[c.file]|
      && files[i] + c.pipe == src[c.file][..c.next]
      && i in r.offers && KeyOfOffer(r.offers[i]) == c.key
  }

  ghost predicate SenderLinks(s: State, conns: seq<Conn>, outLink: map<string, nat>) {
    forall o :: o in outLink ==>
      && outLink[o] < |conns| && conns[outLink[o]].item == o
      && o in s.items && s.items[o].status == Transferring && s.items[o].direction == Outgoing
      && conns[outLink[o]].file == s.items[o].filename
  }

  predicate PrefixOf(a: Bytes, b: Bytes) {
    |a| <= |b| && a == b[..|a|]
  }

  /** Every download holds a prefix of its source; a completed one holds all of it. */
  ghost predicate Prefixes(src: map<string, Bytes>, r: State, files: map<string, Bytes>) {
    && (forall i :: i in files && i in r.items && r.items[i].filename in src ==> PrefixOf(files[i], src[r.items[i].filename]))
    && (forall i :: i in r.items && r.items[i].status == Completed ==>
          i in files && r.items[i].filename in src && files[i] == src[r.items[i].filename])
  }

  ghost predicate NetInv(src: map<string, Bytes>, n: Net) {
    && Scheduler.Inv(n.sender) && Scheduler.Inv(n.receiver)
    && Known(src, n.sender.items)
    && Sends(src, n.sender)
    && Attempts(n.sender, n.receiver.sent, n.conns)
    && Connections(src, n.sender, n.conns)
    && Downloads(src, n.receiver, n.files, n.inLink)
    && Offers(n.sender, n.receiver, n.received)
    && Workers(n.receiver)
    && Questions(n.receiver, n.files, n.conns)
    && Asking(n.sender, n.receiver, n.received)
    && Answers(n.sender, n.receiver)
    && Agreement(n.sender, n.receiver)
    && Flows(src, n.receiver, n.files, n.conns, n.inLink)
    && SenderLinks(n.sender, n.conns, n.outLink)
    && Prefixes(src, n.receiver, n.files)
    && n.answered <= |n.receiver.sent|
  }
}
