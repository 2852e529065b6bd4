/** Steps of the offering side keep the invariant of module DccAgreement. */
module DccResumeSender {
  import opened DccTypes
  import opened DccManager
  import opened DccNet
  import opened DccSenderMoves
  import opened DccAgreement
  import Scheduler = DccScheduler

  ghost predicate Extends(s: State, t: State) {
    |s.sent| <= |t.sent| && t.sent[..|s.sent|] == s.sent
  }

  lemma SendOfKept(s: State, t: State, k: nat, key: Key)
    requires Extends(s, t) && SendOf(s, k, key)
    ensures SendOf(t, k, key) && t.sent[k] == s.sent[k]
  {
    assert t.sent[k] == t.sent[..|s.sent|][k];
  }

  lemma ConnectionsKept(src: map<string, Bytes>, s: State, t: State, conns: seq<Conn>)
    requires Extends(s, t) && Connections(src, s, conns)
    ensures Connections(src, t, conns)
  {
    forall c | 0 <= c < |conns| ensures Announced(src, t, conns[c]) {
      assert Announced(src, s, conns[c]);
      var k: nat :| SendOf(s, k, conns[c].key);
      SendOfKept(s, t, k, conns[c].key);
      assert SendOf(t, k, conns[c].key);
    }
  }

  lemma AskingKept(n: Net, t: State)
    requires Extends(n.sender, t) && Asking(n.sender, n.receiver, n.received)
    ensures Asking(t, n.receiver, n.received)
  {
    forall j: nat | j < |n.receiver.sent| && n.receiver.sent[j].offer.command == Resume && KeyOfOffer(n.receiver.sent[j].offer) != NO_KEY
      ensures exists k: nat :: k < n.received && SendOf(t, k, KeyOfOffer(n.receiver.sent[j].offer))
    {
      var key := KeyOfOffer(n.receiver.sent[j].offer);
      var k: nat :| k < n.received && SendOf(n.sender, k, key);
      SendOfKept(n.sender, t, k, key);
      assert SendOf(t, k, key);
    }
  }

  /** Facts that mention the sender's messages survive when more are sent. */
  lemma ExtensionKeeps(src: map<string, Bytes>, n: Net, t: State)
    requires Extends(n.sender, t)
    requires Connections(src, n.sender, n.conns) && Offers(n.sender, n.receiver, n.received) && Asking(n.sender, n.receiver, n.received)
    ensures Connections(src, t, n.conns) && Offers(t, n.receiver, n.received) && Asking(t, n.receiver, n.received)
  {
    ConnectionsKept(src, n.sender, t, n.conns);
    AskingKept(n, t);
    forall i | i in n.receiver.offers
      ensures exists k: nat :: k < n.received && SendOf(t, k, KeyOfOffer(n.receiver.offers[i])) && t.sent[k].offer == n.receiver.offers[i]
    {
      var k: nat :| k < n.received && SendOf(n.sender, k, KeyOfOffer(n.receiver.offers[i])) && n.sender.sent[k].offer == n.receiver.offers[i];
      SendOfKept(n.sender, t, k, KeyOfOffer(n.receiver.offers[i]));
      assert k < n.received && SendOf(t, k, KeyOfOffer(n.receiver.offers[i])) && t.sent[k].offer == n.receiver.offers[i];
    }
  }

  lemma SendsExtended(src: map<string, Bytes>, s: State, t: State)
    requires Sends(src, s) && Announces(src, s, t)
    ensures Sends(src, t)
  {
    assert forall k :: 0 <= k < |s.sent| ==> t.sent[k] == t.sent[..|s.sent|][k] == s.sent[k];
  }

  lemma QuietAttempts(src: map<string, Bytes>, n: Net, t: State)
    requires Quiet(src, n.sender, t) && Attempts(n.sender, n.receiver.sent, n.conns)
    ensures Attempts(t, n.receiver.sent, n.conns)
  {
    forall o | o in t.items && t.items[o].status == Negotiating
      ensures exists k: nat :: AttemptAt(t, n.receiver.sent, n.conns, o, k)
    {
      var k: nat :| AttemptAt(n.sender, n.receiver.sent, n.conns, o, k);
      assert AttemptAt(t, n.receiver.sent, n.conns, o, k);
    }
  }

  lemma AnnouncedAttempts(src: map<string, Bytes>, n: Net, t: State)
    requires Announces(src, n.sender, t) && Connections(src, n.sender, n.conns)
    ensures Attempts(t, n.receiver.sent, n.conns)
  {
    var key := KeyOfWorker(t.workers[t.active]);
    forall c | 0 <= c < |n.conns| ensures n.conns[c].key != key {
      assert Announced(src, n.sender, n.conns[c]);
      var k: nat :| SendOf(n.sender, k, n.conns[c].key);
    }
    assert AttemptAt(t, n.receiver.sent, n.conns, t.active, |n.sender.sent|);
  }

  lemma AnnouncedAgreement(src: map<string, Bytes>, n: Net, t: State)
    requires Announces(src, n.sender, t) && Offers(n.sender, n.receiver, n.received)
    ensures Agreement(t, n.receiver)
  {
    forall i | i in n.receiver.offers ensures KeyOfOffer(n.receiver.offers[i]) != KeyOfWorker(t.workers[t.active]) {
      var k: nat :| k < n.received && SendOf(n.sender, k, KeyOfOffer(n.receiver.offers[i]));
    }
  }

  lemma MovesLinks(src: map<string, Bytes>, n: Net, t: State)
    requires Moves(src, n.sender, t) && SenderLinks(n.sender, n.conns, n.outLink)
    ensures SenderLinks(t, n.conns, Pruned(n.outLink, t.items))
  {
    assert StillMoving(n.sender, t);
    hide Moves;
  }

  lemma MovesFacts(src: map<string, Bytes>, n: Net, t: State)
    requires NetInv(src, n) && Moves(src, n.sender, t)
    ensures Extends(n.sender, t) && Known(src, t.items)
    ensures Sends(src, t) && Attempts(t, n.receiver.sent, n.conns) && Agreement(t, n.receiver)
  {
    if Quiet(src, n.sender, t) {
      QuietAttempts(src, n, t);
      QuietAgreement(src, n, t);
      hide Known, Downloads, Offers, Workers, Questions, Asking, Answers, Flows, SenderLinks, Prefixes, Scheduler.Inv, Agreement, Attempts;
      assert Sends(src, t);
    } else {
      AnnouncedAttempts(src, n, t);
      SendsExtended(src, n.sender, t);
      AnnouncedAgreement(src, n, t);
    }
  }

  lemma QuietAgreement(src: map<string, Bytes>, n: Net, t: State)
    requires Quiet(src, n.sender, t) && Agreement(n.sender, n.receiver)
    ensures Agreement(t, n.receiver)
  {
    hide Known, StillMoving;
  }

  /** Anything the offering user or scheduler does. */
  lemma MovesKeepInv(src: map<string, Bytes>, n: Net, t: State)
    requires NetInv(src, n) && Moves(src, n.sender, t) && Scheduler.Inv(t)
    ensures NetInv(src, WithSender(n, t))
  {
    MovesFacts(src, n, t);
    hide Scheduler.Inv, Known, Sends, Attempts, Connections, Downloads, Offers, Workers, Questions, Asking, Answers, Agreement, Flows, SenderLinks, Prefixes, Moves, Extends;
    ExtensionKeeps(src, n, t);
    MovesAnswers(src, n, t);
    MovesLinks(src, n, t);
  }

  lemma MovesAnswers(src: map<string, Bytes>, n: Net, t: State)
    requires Moves(src, n.sender, t) && Answers(n.sender, n.receiver)
    ensures Answers(t, n.receiver)
  {
    forall o | o in t.workers && t.workers[o].DialSend?
      ensures exists j: nat :: IsAnswer(n.receiver, j, t.workers[o].port, t.workers[o].token)
    {
      assert t.workers[o] == n.sender.workers[o];
    }
  }

  // ---------------------------------------------------------------- control messages to the sender

  /** A RESUME of the current attempt asks for the offset already agreed, if one was. */
  lemma CurrentQuestion(src: map<string, Bytes>, n: Net, o: string, k: nat)
    requires NetInv(src, n) && n.answered < |n.receiver.sent|
    requires o in n.sender.items && AttemptAt(n.sender, n.receiver.sent, n.conns, o, k)
    requires Sends(src, n.sender)
    requires var m := n.receiver.sent[n.answered].offer; m.command == Resume && KeyOfOffer(m) == KeyOfWorker(n.sender.workers[o])
    ensures KeyOfWorker(n.sender.workers[o]) != NO_KEY
    ensures n.receiver.sent[n.answered].offer.position > 0
    ensures n.sender.items[o].resumeOffset == 0 || n.sender.items[o].resumeOffset == n.receiver.sent[n.answered].offer.position
  {
    var key := KeyOfWorker(n.sender.workers[o]);
    assert WellFormedSend(src, n.sender.sent[k].offer);
    assert OpenQuestion(n.receiver, n.conns, n.answered);
    if n.sender.items[o].resumeOffset != 0 {
      var j :| 0 <= j < |n.receiver.sent| && n.receiver.sent[j].offer.command == Resume
               && KeyOfOffer(n.receiver.sent[j].offer) == key && n.receiver.sent[j].offer.position == n.sender.items[o].resumeOffset;
      assert OpenQuestion(n.receiver, n.conns, j);
    }
  }

  /** Moving the offset of `id` leaves every attempt in order: its own because the position was asked
      for, another one because it is about another file. */
  lemma ResumedAttempt(names: Names, s: State, questions: seq<Control>, conns: seq<Conn>, id: string, m: Offer, delivered: bool, o: string, k: nat)
    requires id in s.items && o in s.items && AttemptAt(s, questions, conns, o, k)
    requires o != id ==> s.items[o].filename != s.items[id].filename
    requires o == id ==> m.position > 0
    requires o == id && m.position != s.items[id].resumeOffset ==>
               s.items[id].resumeOffset == 0 && Asked(questions, KeyOfWorker(s.workers[o]), m.position)
    ensures AttemptAt(Resumed(s, id, names.senderNet, names.receiverNick, m, delivered), questions, conns, o, k)
  {
    hide Asked, Unconnected;
    var t := Resumed(s, id, names.senderNet, names.receiverNick, m, delivered);
    assert t.sent[k] == s.sent[k];
  }

  lemma ResumedAttempts(src: map<string, Bytes>, names: Names, n: Net, id: string, m: Offer, delivered: bool)
    requires NetInv(src, n) && n.answered < |n.receiver.sent| && m == n.receiver.sent[n.answered].offer && m.command == Resume
    requires id in n.sender.items && n.sender.items[id].direction == Outgoing && n.sender.items[id].filename == m.filename
    requires n.sender.items[id].status == Negotiating ==> CurrentAttempt(n.sender, id, KeyOfOffer(m)) || m.position == n.sender.items[id].resumeOffset
    ensures Attempts(Resumed(n.sender, id, names.senderNet, names.receiverNick, m, delivered), n.receiver.sent, n.conns)
  {
    var t := Resumed(n.sender, id, names.senderNet, names.receiverNick, m, delivered);
    assert AsksForward(n.receiver);
    hide Downloads, Offers, Workers, Asking, Answers, Agreement, Flows, SenderLinks, Prefixes, Connections, Questions;
    forall o | o in t.items && t.items[o].status == Negotiating
      ensures exists k: nat :: AttemptAt(t, n.receiver.sent, n.conns, o, k)
    {
      var k: nat :| AttemptAt(n.sender, n.receiver.sent, n.conns, o, k);
      if o == id {
        if m.position != n.sender.items[id].resumeOffset {
          CurrentQuestion(src, n, id, k);
        }
      } else {
        assert n.sender.items[o].direction == Outgoing;
      }
      hide Scheduler.Inv, Sends, AttemptAt;
      ResumedAttempt(names, n.sender, n.receiver.sent, n.conns, id, m, delivered, o, k);
    }
  }

  lemma ResumedAgreement(src: map<string, Bytes>, names: Names, n: Net, id: string, m: Offer, delivered: bool)
    requires NetInv(src, n) && n.answered < |n.receiver.sent| && m == n.receiver.sent[n.answered].offer && m.command == Resume
    requires id in n.sender.items
    requires n.sender.items[id].status == Negotiating ==> CurrentAttempt(n.sender, id, KeyOfOffer(m)) || m.position == n.sender.items[id].resumeOffset
    ensures Agreement(Resumed(n.sender, id, names.senderNet, names.receiverNick, m, delivered), n.receiver)
  {
    var t := Resumed(n.sender, id, names.senderNet, names.receiverNick, m, delivered);
    var r := n.receiver;
    forall o, i | o in t.items && t.items[o].status == Negotiating && o in t.workers
                  && i in r.items && r.items[i].status == Connecting && i in r.workers && i in r.offers
                  && KeyOfWorker(t.workers[o]) == KeyOfOffer(r.offers[i])
      ensures t.items[o].resumeOffset == r.items[i].resumeOffset
    {
      if o == id && CurrentAttempt(n.sender, id, KeyOfOffer(m)) {
        var k: nat :| AttemptAt(n.sender, r.sent, n.conns, o, k);
        CurrentQuestion(src, n, id, k);
        assert OpenQuestion(r, n.conns, n.answered);
        assert LengthOf(n.files, i) == m.position;
      }
    }
  }

  lemma ResumedSends(src: map<string, Bytes>, names: Names, s: State, id: string, m: Offer, delivered: bool)
    requires Sends(src, s) && id in s.items
    ensures Sends(src, Resumed(s, id, names.senderNet, names.receiverNick, m, delivered))
  {
    var t := Resumed(s, id, names.senderNet, names.receiverNick, m, delivered);
    assert forall k :: 0 <= k < |s.sent| ==> t.sent[k] == s.sent[k];
  }

  lemma ResumedLinks(names: Names, s: State, id: string, m: Offer, delivered: bool, conns: seq<Conn>, outLink: map<string, nat>)
    requires id in s.items && SenderLinks(s, conns, outLink)
    ensures var t := Resumed(s, id, names.senderNet, names.receiverNick, m, delivered);
            SenderLinks(t, conns, Pruned(outLink, t.items))
  {
  }

  lemma ResumedKnown(src: map<string, Bytes>, names: Names, s: State, id: string, m: Offer, delivered: bool)
    requires Known(src, s.items) && id in s.items && (s.items[id].status == Queued ==> m.position == s.items[id].resumeOffset)
    ensures Known(src, Resumed(s, id, names.senderNet, names.receiverNick, m, delivered).items)
  {
    var t := Resumed(s, id, names.senderNet, names.receiverNick, m, delivered);
    KnownUpdate(src, s.items, id, t.items[id]);
    hide Known;
  }

  lemma AnswersSender(s: State, t: State, r: State)
    requires Answers(s, r) && t.workers == s.workers
    ensures Answers(t, r)
  {
    forall o | o in t.workers && t.workers[o].DialSend?
      ensures exists j: nat :: IsAnswer(r, j, t.workers[o].port, t.workers[o].token)
    {
      assert s.workers[o].DialSend?;
    }
  }

  lemma ResumeKeepsInv(src: map<string, Bytes>, names: Names, n: Net, id: string, m: Offer, delivered: bool)
    requires NetInv(src, n) && n.answered < |n.receiver.sent| && m == n.receiver.sent[n.answered].offer && m.command == Resume
    requires id in n.sender.items && n.sender.items[id].direction == Outgoing && n.sender.items[id].filename == m.filename
    requires n.sender.items[id].status == Negotiating ==> CurrentAttempt(n.sender, id, KeyOfOffer(m)) || m.position == n.sender.items[id].resumeOffset
    requires n.sender.items[id].status == Queued ==> m.position == n.sender.items[id].resumeOffset
    requires Scheduler.Inv(Resumed(n.sender, id, names.senderNet, names.receiverNick, m, delivered))
    ensures NetInv(src, WithSender(n, Resumed(n.sender, id, names.senderNet, names.receiverNick, m, delivered)))
  {
    var t := Resumed(n.sender, id, names.senderNet, names.receiverNick, m, delivered);
    hide Scheduler.Inv, Known, Sends, Attempts, Connections, Downloads, Offers, Workers, Questions, Asking, Answers, Agreement, Flows, SenderLinks, Prefixes;
    assert Extends(n.sender, t);
    hide Extends;
    ResumedAttempts(src, names, n, id, m, delivered);
    ResumedAgreement(src, names, n, id, m, delivered);
    ResumedSends(src, names, n.sender, id, m, delivered);
    ResumedKnown(src, names, n.sender, id, m, delivered);
    ResumedLinks(names, n.sender, id, m, delivered, n.conns, n.outLink);
    AnswersSender(n.sender, t, n.receiver);
    hide Resumed, CurrentAttempt, Pruned;
    ExtensionKeeps(src, n, t);
  }

  lemma ReplyAttempts(n: Net, id: string, m: Offer)
    requires Attempts(n.sender, n.receiver.sent, n.conns)
    requires id in n.sender.items && CurrentAttempt(n.sender, id, Key(0, m.token))
    ensures Attempts(PassiveReply(n.sender, id, m), n.receiver.sent, n.conns)
  {
    var t := PassiveReply(n.sender, id, m);
    forall o | o in t.items && t.items[o].status == Negotiating
      ensures exists k: nat :: AttemptAt(t, n.receiver.sent, n.conns, o, k)
    {
      var k: nat :| AttemptAt(n.sender, n.receiver.sent, n.conns, o, k);
      assert AttemptAt(t, n.receiver.sent, n.conns, o, k);
    }
  }

  lemma ReplyAnswers(n: Net, id: string, m: Offer)
    requires Answers(n.sender, n.receiver) && n.answered < |n.receiver.sent|
    requires m == n.receiver.sent[n.answered].offer && m.command == Send && id in n.sender.items
    ensures Answers(PassiveReply(n.sender, id, m), n.receiver)
  {
    var t := PassiveReply(n.sender, id, m);
    assert IsAnswer(n.receiver, n.answered, m.port, m.token);
    forall o | o in t.workers && t.workers[o].DialSend?
      ensures exists j: nat :: IsAnswer(n.receiver, j, t.workers[o].port, t.workers[o].token)
    {
      if o != id {
        assert t.workers[o] == n.sender.workers[o];
      }
    }
  }

  lemma ReplyAgreement(n: Net, id: string, m: Offer)
    requires Agreement(n.sender, n.receiver)
    requires id in n.sender.items && CurrentAttempt(n.sender, id, Key(0, m.token))
    ensures Agreement(PassiveReply(n.sender, id, m), n.receiver)
  {
  }

  lemma ReplyLinks(s: State, id: string, m: Offer, conns: seq<Conn>, outLink: map<string, nat>)
    requires id in s.items && SenderLinks(s, conns, outLink)
    ensures SenderLinks(PassiveReply(s, id, m), conns, Pruned(outLink, PassiveReply(s, id, m).items))
  {
  }

  lemma ReplyKeepsInv(src: map<string, Bytes>, n: Net, id: string, m: Offer)
    requires NetInv(src, n) && n.answered < |n.receiver.sent| && m == n.receiver.sent[n.answered].offer && m.command == Send
    requires id in n.sender.items && CurrentAttempt(n.sender, id, Key(0, m.token))
    requires Scheduler.Inv(PassiveReply(n.sender, id, m))
    ensures NetInv(src, WithSender(n, PassiveReply(n.sender, id, m)))
  {
    hide Scheduler.Inv, Known, Attempts, Connections, Downloads, Offers, Workers, Questions, Asking, Answers, Agreement, Flows, SenderLinks, Prefixes;
    var t := PassiveReply(n.sender, id, m);
    KnownUpdate(src, n.sender.items, id, t.items[id]);
    ReplyAttempts(n, id, m);
    ReplyAnswers(n, id, m);
    ReplyAgreement(n, id, m);
    assert Extends(n.sender, t);
    ReplyLinks(n.sender, id, m, n.conns, n.outLink);
    assert Sends(src, t);
    hide Sends, Extends;
    ExtensionKeeps(src, n, t);
  }

  /** The same outgoing records, and incoming ones that changed are offered. */
  ghost predicate FilesOffer(s: State, t: State) {
    && t == s.(items := t.items, offers := t.offers)
    && (forall o :: o in s.items ==> o in t.items)
    && (forall o :: o in t.items ==>
          || (o in s.items && t.items[o] == s.items[o])
          || (t.items[o].direction == Incoming && t.items[o].status == Offered && (o in s.items ==> s.items[o].direction == Incoming)))
  }

  lemma OfferKnown(src: map<string, Bytes>, s: State, t: State)
    requires FilesOffer(s, t) && Known(src, s.items)
    ensures Known(src, t.items)
  {
    assert forall o :: o in t.items && t.items[o].direction == Outgoing ==> o in s.items && t.items[o] == s.items[o];
  }

  lemma OfferQuiet(src: map<string, Bytes>, n: Net, t: State)
    requires FilesOffer(n.sender, t) && Known(src, t.items) && Attempts(n.sender, n.receiver.sent, n.conns)
    ensures Quiet(src, n.sender, t)
  {
    hide Known;
    forall o | o in t.items && t.items[o].status == Negotiating
      ensures o in n.sender.items && n.sender.items[o] == t.items[o]
              && o in n.sender.workers && o in t.workers && t.workers[o] == n.sender.workers[o]
    {
      var k: nat :| AttemptAt(n.sender, n.receiver.sent, n.conns, o, k);
    }
  }

  /** An answer nobody waits for is filed as an incoming offer; outgoing transfers do not notice. */
  lemma StrayKeepsInv(src: map<string, Bytes>, n: Net, t: State)
    requires NetInv(src, n) && Scheduler.Inv(t) && FilesOffer(n.sender, t)
    ensures NetInv(src, WithSender(n, t))
  {
    hide Scheduler.Inv, Known, Sends, Attempts, Connections, Downloads, Offers, Workers, Questions, Asking, Answers, Agreement, Flows, SenderLinks, Prefixes, FilesOffer, Quiet;
    OfferKnown(src, n.sender, t);
    OfferQuiet(src, n, t);
    MovesKeepInv(src, n, t);
  }

  lemma ResumeMessageKeepsInv(src: map<string, Bytes>, names: Names, n: Net, m: Offer, e: ControlEnv)
    requires NetInv(src, n) && n.answered < |n.receiver.sent| && m == n.receiver.sent[n.answered].offer && m.command == Resume
    requires n.sender.settings.enabled && TimelyMessage(n.sender, names, m, e.order)
    requires Scheduler.Inv(HandleResumeRequest(n.sender, names.senderNet, names.receiverNick, m, e.order, e.delivered))
    ensures NetInv(src, WithSender(n, HandleResumeRequest(n.sender, names.senderNet, names.receiverNick, m, e.order, e.delivered)))
  {
    assert Pruned(n.outLink, n.sender.items) == n.outLink;
    var id := FirstMatch(e.order, ResumeRequests(n.sender.items, names.senderNet, names.receiverNick, m));
    if id != "" && m.position <= n.sender.items[id].totalBytes {
      ResumeKeepsInv(src, names, n, id, m, e.delivered);
    }
  }

  lemma AddIncomingTouches(s: State, networkID: int, peer: string, m: Offer, order: seq<string>, newId: string)
    requires newId !in s.items
    ensures FilesOffer(s, AddIncoming(s, networkID, peer, m, order, newId))
  {
  }

  lemma SendMessageKeepsInv(src: map<string, Bytes>, names: Names, n: Net, m: Offer, e: ControlEnv)
    requires NetInv(src, n) && n.answered < |n.receiver.sent| && m == n.receiver.sent[n.answered].offer && m.command == Send
    requires n.sender.settings.enabled && TimelyMessage(n.sender, names, m, e.order) && e.newId !in n.sender.items
    requires Scheduler.Inv(HandleControl(n.sender, names.senderNet, names.receiverNick, m, e))
    ensures NetInv(src, WithSender(n, HandleControl(n.sender, names.senderNet, names.receiverNick, m, e)))
  {
    var id := if m.token != "" && m.port > 0 then FirstMatch(e.order, PassiveReplies(n.sender.items, names.senderNet, names.receiverNick, m)) else "";
    if id != "" {
      ReplyKeepsInv(src, n, id, m);
    } else {
      hide NetInv, FilesOffer, AddIncoming;
      AddIncomingTouches(n.sender, names.senderNet, names.receiverNick, m, e.order, e.newId);
      StrayKeepsInv(src, n, AddIncoming(n.sender, names.senderNet, names.receiverNick, m, e.order, e.newId));
    }
  }

  lemma MessageSenderInv(src: map<string, Bytes>, names: Names, n: Net, m: Offer, e: ControlEnv)
    requires NetInv(src, n) && n.answered < |n.receiver.sent| && m == n.receiver.sent[n.answered].offer
    requires n.sender.settings.enabled && TimelyMessage(n.sender, names, m, e.order) && e.newId !in n.sender.items
    requires Scheduler.Inv(HandleControl(n.sender, names.senderNet, names.receiverNick, m, e))
    ensures NetInv(src, WithSender(n, HandleControl(n.sender, names.senderNet, names.receiverNick, m, e)))
  {
    assert m.command == Send || m.command == Resume;
    if m.command == Resume {
      ResumeMessageKeepsInv(src, names, n, m, e);
    } else {
      SendMessageKeepsInv(src, names, n, m, e);
    }
  }

  lemma DeliveredToSender(src: map<string, Bytes>, names: Names, n: Net, m: Offer, e: ControlEnv)
    requires NetInv(src, n) && n.answered < |n.receiver.sent| && m == n.receiver.sent[n.answered].offer
    requires n.sender.settings.enabled && TimelyMessage(n.sender, names, m, e.order)
    requires Scheduler.Possible(n.sender, Scheduler.Message(names.senderNet, names.receiverNick, m, e))
    ensures NetInv(src, WithSender(n, HandleControl(n.sender, names.senderNet, names.receiverNick, m, e)))
  {
    Scheduler.MessageInv(n.sender, names.senderNet, names.receiverNick, m, e);
    MessageSenderInv(src, names, n, m, e);
  }

  lemma IgnoredBySender(src: map<string, Bytes>, names: Names, n: Net, m: Offer, e: ControlEnv)
    requires NetInv(src, n) && !n.sender.settings.enabled
    ensures NetInv(src, WithSender(n, HandleControl(n.sender, names.senderNet, names.receiverNick, m, e)))
  {
    assert Pruned(n.outLink, n.sender.items) == n.outLink;
  }

  lemma ToSenderKeepsInv(src: map<string, Bytes>, names: Names, n: Net, e: ControlEnv)
    requires NetInv(src, n) && PossibleNamed(src, names, n, ToSender(e)) && Timely(names, n, ToSender(e))
    ensures NetInv(src, Apply(src, names, n, ToSender(e)))
  {
    hide Scheduler.Inv, Known, Sends, Attempts, Connections, Downloads, Offers, Workers, Questions, Asking, Answers, Agreement, Flows, SenderLinks, Prefixes;
    var m := n.receiver.sent[n.answered].offer;
    if n.sender.settings.enabled {
      DeliveredToSender(src, names, n, m, e);
    } else {
      IgnoredBySender(src, names, n, m, e);
    }
    CountMessage(src, WithSender(n, HandleControl(n.sender, names.senderNet, names.receiverNick, m, e)));
  }

  lemma CountMessage(src: map<string, Bytes>, n: Net)
    requires NetInv(src, n) && n.answered < |n.receiver.sent|
    ensures NetInv(src, n.(answered := n.answered + 1))
  {
  }

  lemma SenderStepKeepsInv(src: map<string, Bytes>, names: Names, n: Net, step: Scheduler.Step)
    requires NetInv(src, n) && PossibleNamed(src, names, n, SenderStep(step))
    ensures NetInv(src, Apply(src, names, n, SenderStep(step)))
  {
    SenderStepMoves(src, n.sender, step);
    Scheduler.StepInv(n.sender, step);
    MovesKeepInv(src, n, Scheduler.Apply(n.sender, step));
  }

  lemma SendDoneKeepsInv(src: map<string, Bytes>, names: Names, n: Net, o: string, env: Env)
    requires NetInv(src, n) && PossibleNamed(src, names, n, SendDone(o, env))
    ensures NetInv(src, Apply(src, names, n, SendDone(o, env)))
  {
    CompleteMoves(src, n.sender, o, env);
    Scheduler.CompleteInv(n.sender, o, env);
    MovesKeepInv(src, n, Complete(n.sender, o, env));
  }
}
