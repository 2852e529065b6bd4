/** The downloading side accepts an offer, files a new offer, or hears that resuming is agreed. */
module DccResumeMessages {
  import opened DccTypes
  import opened DccManager
  import opened DccNet
  import opened DccSenderMoves
  import opened DccAgreement
  import opened DccResumeReceiver
  import opened DccResumeSender
  import opened DccResumeSteps
  import opened DccResumeBegin
  import Scheduler = DccScheduler

  // ---------------------------------------------------------------- accepting an offer

  lemma NamedPartial(src: map<string, Bytes>, n: Net, id: string)
    requires NetInv(src, n) && n.receiver.settings.enabled
    requires id in n.receiver.items && (n.receiver.items[id].status == Offered || n.receiver.items[id].status == Resumable)
    ensures var q := n.receiver.(items := n.receiver.items[id := n.receiver.items[id].(hasPartial := true)]);
            NetInv(src, n.(receiver := q))
  {
    hide Known, Sends, Attempts, Connections, Offers, Workers, Questions, Asking, Answers, Agreement, Flows, SenderLinks, Prefixes;
    var r := n.receiver;
    var u := r.items[id].(hasPartial := true);
    var q := r.(items := r.items[id := u]);
    assert r.items[id].direction == Incoming;
    Scheduler.TouchedInv(r, id, u, r.workers, r.offers, r.sent);
    hide Scheduler.Inv;
    assert id !in r.workers;
    assert r.workers - {id} == r.workers;
    StoppedRests(r, id, u);
    NamedKeepsFiles(src, n, id, q);
    hide Downloads, Rests;
    RestingKeepsInv(src, n, q);
  }

  lemma NamedKeepsFiles(src: map<string, Bytes>, n: Net, id: string, q: State)
    requires Downloads(src, n.receiver, n.files, n.inLink)
    requires id in n.receiver.items && q == n.receiver.(items := n.receiver.items[id := n.receiver.items[id].(hasPartial := true)])
    ensures WithReceiver(n, q, Cleaned(n.files, n.receiver.items, q.items)) == n.(receiver := q)
  {
    assert Cleaned(n.files, n.receiver.items, q.items) == n.files;
    assert Pruned(n.inLink, q.items) == n.inLink;
  }

  lemma CleanedThroughNamed(files: map<string, Bytes>, items: map<string, Transfer>, id: string, after: map<string, Transfer>)
    requires id in items
    ensures Cleaned(files, items[id := items[id].(hasPartial := true)], after) == Cleaned(files, items, after)
  {
  }

  lemma AcceptTransferKeepsInv(src: map<string, Bytes>, n: Net, id: string, e: AcceptEnv, env: Env)
    requires NetInv(src, n) && CanAccept(n.receiver, id, e)
    requires e.partial == PartialOf(n.files, id) && FreshPort(n.receiver, e.receive) && e.receive.partialExists == (id in n.files)
    ensures var q := AcceptTransfer(n.receiver, id, e, env);
            NetInv(src, WithReceiver(n, q, Cleaned(n.files, n.receiver.items, q.items)))
  {
    NamedPartial(src, n, id);
    var named := n.(receiver := n.receiver.(items := n.receiver.items[id := n.receiver.items[id].(hasPartial := true)]));
    hide Scheduler.Inv, Known, Sends, Attempts, Connections, Downloads, Offers, Workers, Questions, Asking, Answers, Agreement, Flows, SenderLinks, Prefixes, AcceptPartial, NetInv;
    var q := AcceptPartial(named.receiver, id, e, env);
    AcceptedNet(src, named, id, e, env);
    CleanedThroughNamed(n.files, n.receiver.items, id, q.items);
  }

  lemma RefusedKeepsInv(src: map<string, Bytes>, n: Net, id: string, e: AcceptEnv, env: Env)
    requires NetInv(src, n) && !CanAccept(n.receiver, id, e)
    ensures var q := AcceptTransfer(n.receiver, id, e, env);
            NetInv(src, WithReceiver(n, q, Cleaned(n.files, n.receiver.items, q.items)))
  {
    KeepEverything(src, n);
    hide NetInv;
  }

  lemma AcceptKeepsInv(src: map<string, Bytes>, names: Names, n: Net, id: string, e: AcceptEnv, env: Env)
    requires NetInv(src, n) && ReceiverMay(n.receiver, n.files, Scheduler.AcceptItem(id, e, env))
    ensures var q := AcceptTransfer(n.receiver, id, e, env);
            NetInv(src, WithReceiver(n, q, FilesAfter(n, Scheduler.AcceptItem(id, e, env), q)))
  {
    hide NetInv, AcceptTransfer, CanAccept, Cleaned, FreshPort, PartialOf, WithReceiver;
    if CanAccept(n.receiver, id, e) {
      AcceptTransferKeepsInv(src, n, id, e, env);
    } else {
      RefusedKeepsInv(src, n, id, e, env);
    }
  }

  // ---------------------------------------------------------------- a new offer

  /** The record and the saved offer `m` that the next handled message leaves for `id`. */
  ghost predicate Files(src: map<string, Bytes>, n: Net, id: string, t: Transfer, m: Offer) {
    && n.received < |n.sender.sent| && m == n.sender.sent[n.received].offer && m.command == Send
    && t.direction == Incoming && t.status == Offered && t.filename == m.filename && t.totalBytes == m.size
    && id !in n.inLink && id !in n.receiver.workers
    && (if id in n.receiver.items then t.resumable && n.receiver.items[id].filename == m.filename
        else id !in n.files && id !in n.receiver.offers)
  }

  ghost function Filed(r: State, id: string, t: Transfer, m: Offer): State {
    r.(items := r.items[id := t], offers := r.offers[id := m])
  }

  lemma FiledDownloads(src: map<string, Bytes>, n: Net, id: string, t: Transfer, m: Offer)
    requires Files(src, n, id, t, m) && Downloads(src, n.receiver, n.files, n.inLink) && Sends(src, n.sender)
    ensures Downloads(src, Filed(n.receiver, id, t, m), n.files, n.inLink)
  {
    assert WellFormedSend(src, m);
  }

  lemma FiledOffers(src: map<string, Bytes>, n: Net, id: string, t: Transfer, m: Offer)
    requires Files(src, n, id, t, m) && Sends(src, n.sender) && Offers(n.sender, n.receiver, n.received)
    ensures Offers(n.sender, Filed(n.receiver, id, t, m), n.received + 1)
  {
    var q := Filed(n.receiver, id, t, m);
    assert SendOf(n.sender, n.received, KeyOfOffer(m));
    forall i | i in n.receiver.offers && i != id ensures KeyOfOffer(n.receiver.offers[i]) != KeyOfOffer(m) {
      var k: nat :| k < n.received && SendOf(n.sender, k, KeyOfOffer(n.receiver.offers[i])) && n.sender.sent[k].offer == n.receiver.offers[i];
    }
    forall i | i in q.offers
      ensures exists k: nat :: k < n.received + 1 && SendOf(n.sender, k, KeyOfOffer(q.offers[i])) && n.sender.sent[k].offer == q.offers[i]
    {
      if i != id {
        var k: nat :| k < n.received && SendOf(n.sender, k, KeyOfOffer(q.offers[i])) && n.sender.sent[k].offer == q.offers[i];
      }
    }
  }

  lemma FiledQuestions(src: map<string, Bytes>, n: Net, id: string, t: Transfer, m: Offer)
    requires Files(src, n, id, t, m) && Sends(src, n.sender)
    requires Questions(n.receiver, n.files, n.conns) && Asking(n.sender, n.receiver, n.received)
    ensures Questions(Filed(n.receiver, id, t, m), n.files, n.conns)
  {
    var r := n.receiver;
    var q := Filed(r, id, t, m);
    assert WellFormedSend(src, m);
    assert forall j: nat :: OpenQuestion(q, n.conns, j) ==> OpenQuestion(r, n.conns, j);
    forall j: nat | OpenQuestion(r, n.conns, j) ensures KeyOfOffer(r.sent[j].offer) != KeyOfOffer(m) {
      var k: nat :| k < n.received && SendOf(n.sender, k, KeyOfOffer(r.sent[j].offer));
      assert n.sender.sent[k].offer.command == Send;
    }
  }

  lemma FiledWorkers(src: map<string, Bytes>, n: Net, id: string, t: Transfer, m: Offer)
    requires Files(src, n, id, t, m) && Workers(n.receiver) && Agreement(n.sender, n.receiver) && Answers(n.sender, n.receiver)
    ensures var q := Filed(n.receiver, id, t, m);
            Workers(q) && Agreement(n.sender, q) && Answers(n.sender, q)
  {
    var r := n.receiver;
    var q := Filed(r, id, t, m);
    assert forall i :: i in q.items && i in q.workers ==> i != id && i in r.items && q.items[i] == r.items[i] && OfferOf(q, i) == OfferOf(r, i);
    forall i | i in q.workers && i in q.items && q.workers[i].ListenReceive?
      ensures exists j: nat :: IsAnswer(q, j, q.workers[i].port, q.workers[i].offer.token)
    {
      var j: nat :| IsAnswer(r, j, q.workers[i].port, q.workers[i].offer.token);
      assert IsAnswer(q, j, q.workers[i].port, q.workers[i].offer.token);
    }
    forall o | o in n.sender.workers && n.sender.workers[o].DialSend?
      ensures exists j: nat :: IsAnswer(q, j, n.sender.workers[o].port, n.sender.workers[o].token)
    {
      var j: nat :| IsAnswer(r, j, n.sender.workers[o].port, n.sender.workers[o].token);
      assert IsAnswer(q, j, n.sender.workers[o].port, n.sender.workers[o].token);
    }
  }

  lemma FiledBytes(src: map<string, Bytes>, n: Net, id: string, t: Transfer, m: Offer)
    requires Files(src, n, id, t, m) && Flows(src, n.receiver, n.files, n.conns, n.inLink) && Prefixes(src, n.receiver, n.files)
    ensures var q := Filed(n.receiver, id, t, m);
            Flows(src, q, n.files, n.conns, n.inLink) && Prefixes(src, q, n.files)
  {
    hide PrefixOf;
  }

  lemma FiledKeepsInv(src: map<string, Bytes>, n: Net, id: string, t: Transfer, m: Offer)
    requires NetInv(src, n) && Files(src, n, id, t, m) && Scheduler.Inv(Filed(n.receiver, id, t, m))
    ensures NetInv(src, n.(receiver := Filed(n.receiver, id, t, m), received := n.received + 1))
  {
    hide Scheduler.Inv, Known, Sends, Attempts, Connections, Downloads, Offers, Workers, Questions, Answers, Agreement, Flows, SenderLinks, Prefixes, Files;
    FiledDownloads(src, n, id, t, m);
    FiledOffers(src, n, id, t, m);
    FiledQuestions(src, n, id, t, m);
    FiledWorkers(src, n, id, t, m);
    FiledBytes(src, n, id, t, m);
    AskingLater(n.sender, n.receiver, n.received);
    assert Asking(n.sender, Filed(n.receiver, id, t, m), n.received + 1);
  }

  lemma AskingLater(s: State, r: State, received: nat)
    requires Asking(s, r, received)
    ensures Asking(s, r, received + 1)
  {
    forall j: nat | j < |r.sent| && r.sent[j].offer.command == Resume && KeyOfOffer(r.sent[j].offer) != NO_KEY
      ensures exists k: nat :: k < received + 1 && SendOf(s, k, KeyOfOffer(r.sent[j].offer))
    {
      var k: nat :| k < received && SendOf(s, k, KeyOfOffer(r.sent[j].offer));
    }
  }

  lemma NewOfferKeepsInv(src: map<string, Bytes>, names: Names, n: Net, e: ControlEnv)
    requires NetInv(src, n) && n.received < |n.sender.sent| && n.sender.sent[n.received].offer.command == Send
    requires n.receiver.settings.enabled && AnswersFor(n, names, n.sender.sent[n.received].offer, e)
    requires Scheduler.Possible(n.receiver, Scheduler.Message(names.receiverNet, names.senderNick, n.sender.sent[n.received].offer, e))
    ensures var q := HandleControl(n.receiver, names.receiverNet, names.senderNick, n.sender.sent[n.received].offer, e);
            NetInv(src, WithReceiver(n, q, Cleaned(n.files, n.receiver.items, q.items)).(received := n.received + 1))
  {
    var m := n.sender.sent[n.received].offer;
    var r := n.receiver;
    var q := HandleControl(r, names.receiverNet, names.senderNick, m, e);
    Scheduler.MessageInv(r, names.receiverNet, names.senderNick, m, e);
    assert WellFormedSend(src, m);
    assert q == AddIncoming(r, names.receiverNet, names.senderNick, m, e.order, e.newId);
    var id := FirstMatch(e.order, Reoffers(r.items, names.receiverNet, names.senderNick, m));
    if id != "" {
      var t := r.items[id].(address := m.address, port := m.port, token := m.token, status := Offered);
      ResumableIdle(src, n, id);
      assert Files(src, n, id, t, m);
      FiledNet(src, n, id, t, m, q);
    } else {
      var t := NewIncoming(names.receiverNet, names.senderNick, m);
      assert Files(src, n, e.newId, t, m);
      FiledNet(src, n, e.newId, t, m, q);
    }
  }

  lemma ResumableIdle(src: map<string, Bytes>, n: Net, id: string)
    requires Scheduler.Inv(n.receiver) && Downloads(src, n.receiver, n.files, n.inLink)
    requires id in n.receiver.items && n.receiver.items[id].status == Resumable
    ensures id !in n.inLink && id !in n.receiver.workers && n.receiver.items[id].resumable
  {
  }

  lemma FiledKeepsFiles(n: Net, id: string, t: Transfer, m: Offer)
    requires id !in n.inLink && t.status == Offered
    requires forall i :: i in n.inLink ==> i in n.receiver.items && n.receiver.items[i].status == Transferring
    ensures var q := Filed(n.receiver, id, t, m);
            WithReceiver(n, q, Cleaned(n.files, n.receiver.items, q.items)) == n.(receiver := q)
  {
    var q := Filed(n.receiver, id, t, m);
    assert Cleaned(n.files, n.receiver.items, q.items) == n.files;
    assert Pruned(n.inLink, q.items) == n.inLink;
  }

  lemma FiledNet(src: map<string, Bytes>, n: Net, id: string, t: Transfer, m: Offer, q: State)
    requires NetInv(src, n) && Files(src, n, id, t, m) && q == Filed(n.receiver, id, t, m) && Scheduler.Inv(q)
    ensures NetInv(src, WithReceiver(n, q, Cleaned(n.files, n.receiver.items, q.items)).(received := n.received + 1))
  {
    FiledKeepsFiles(n, id, t, m);
    hide NetInv, Files, Filed, WithReceiver;
    FiledKeepsInv(src, n, id, t, m);
  }

  // ---------------------------------------------------------------- resuming is agreed

  lemma AgreedNet(src: map<string, Bytes>, n: Net, id: string, e: ReceiveEnv, env: Env)
    requires NetInv(src, n) && id in n.receiver.items && n.receiver.items[id].status == Connecting
    requires AgreesFor(n.sender, n.receiver, id) && FreshPort(n.receiver, e) && (e.partialExists <==> id in n.files)
    ensures var q := BeginReceive(n.receiver, id, OfferOf(n.receiver, id), e, env);
            NetInv(src, WithReceiver(n, q, Cleaned(n.files, n.receiver.items, q.items)))
  {
    var r := n.receiver;
    var offer := OfferOf(r, id);
    Scheduler.BeginReceiveInv(r, id, offer, e, env);
    if ReceiveRefuses(r, offer, e) {
      FinishRests(r, id, false, e.partialExists, env);
      hide NetInv, AgreesFor;
      var q := FinishWithError(r, id, false, e.partialExists, env);
      RestingNet(src, n, q);
    } else {
      SameItemsKeepFiles(src, n, Receiving(r, id, offer, e));
      BeginKeepsInv(src, n, id, e);
      hide NetInv, AgreesFor;
    }
  }

  lemma RestingNet(src: map<string, Bytes>, n: Net, q: State)
    requires NetInv(src, n) && Scheduler.Inv(q) && Rests(n.receiver, q)
    ensures NetInv(src, WithReceiver(n, q, Cleaned(n.files, n.receiver.items, q.items)))
  {
    hide NetInv, Rests, Scheduler.Inv;
    RestingKeepsInv(src, n, q);
  }

  lemma SameItemsKeepFiles(src: map<string, Bytes>, n: Net, q: State)
    requires Downloads(src, n.receiver, n.files, n.inLink) && q.items == n.receiver.items
    ensures WithReceiver(n, q, Cleaned(n.files, n.receiver.items, q.items)) == n.(receiver := q)
  {
    assert Cleaned(n.files, n.receiver.items, q.items) == n.files;
    assert Pruned(n.inLink, q.items) == n.inLink;
  }

  lemma AgreedMessage(src: map<string, Bytes>, names: Names, n: Net, e: ControlEnv)
    requires NetInv(src, n) && n.received < |n.sender.sent| && n.sender.sent[n.received].offer.command == Accept
    requires AnswersFor(n, names, n.sender.sent[n.received].offer, e)
    ensures var q := HandleResumeAccept(n.receiver, names.receiverNet, names.senderNick, n.sender.sent[n.received].offer, e.order, e.receive, e.begin);
            NetInv(src, WithReceiver(n, q, Cleaned(n.files, n.receiver.items, q.items)))
  {
    var m := n.sender.sent[n.received].offer;
    var id := FirstMatch(e.order, ResumeAccepts(n.receiver.items, names.receiverNet, names.senderNick, m));
    if id != "" {
      AgreesByAnswer(src, n, id);
      hide NetInv, AgreesFor;
      AgreedNet(src, n, id, e.receive, e.begin);
    } else {
      hide NetInv;
      KeepEverything(src, n);
    }
  }

  lemma CountReceived(src: map<string, Bytes>, n: Net)
    requires NetInv(src, n) && n.received < |n.sender.sent|
    ensures NetInv(src, n.(received := n.received + 1))
  {
    AskingLater(n.sender, n.receiver, n.received);
    OffersLater(n.sender, n.receiver, n.received);
    hide Scheduler.Inv, Known, Sends, Attempts, Connections, Downloads, Offers, Workers, Questions, Asking, Answers, Agreement, Flows, SenderLinks, Prefixes;
  }

  lemma OffersLater(s: State, r: State, received: nat)
    requires Offers(s, r, received) && received < |s.sent|
    ensures Offers(s, r, received + 1)
  {
    forall i | i in r.offers
      ensures exists k: nat :: k < received + 1 && SendOf(s, k, KeyOfOffer(r.offers[i])) && s.sent[k].offer == r.offers[i]
    {
      var k: nat :| k < received && SendOf(s, k, KeyOfOffer(r.offers[i])) && s.sent[k].offer == r.offers[i];
    }
  }

  lemma CountedNet(src: map<string, Bytes>, n: Net, q: State)
    requires NetInv(src, WithReceiver(n, q, Cleaned(n.files, n.receiver.items, q.items))) && n.received < |n.sender.sent|
    ensures NetInv(src, WithReceiver(n, q, Cleaned(n.files, n.receiver.items, q.items)).(received := n.received + 1))
  {
    hide NetInv, Cleaned, Pruned;
    CountReceived(src, WithReceiver(n, q, Cleaned(n.files, n.receiver.items, q.items)));
  }

  lemma IgnoredMessage(src: map<string, Bytes>, names: Names, n: Net, m: Offer, e: ControlEnv)
    requires NetInv(src, n) && n.received < |n.sender.sent| && !n.receiver.settings.enabled
    ensures var q := HandleControl(n.receiver, names.receiverNet, names.senderNick, m, e);
            NetInv(src, WithReceiver(n, q, Cleaned(n.files, n.receiver.items, q.items)).(received := n.received + 1))
  {
    hide NetInv, Cleaned, WithReceiver;
    KeepEverything(src, n);
    CountedNet(src, n, n.receiver);
  }

  lemma AgreedCounted(src: map<string, Bytes>, names: Names, n: Net, m: Offer, e: ControlEnv)
    requires NetInv(src, n) && n.received < |n.sender.sent| && m == n.sender.sent[n.received].offer && m.command == Accept
    requires n.receiver.settings.enabled && AnswersFor(n, names, m, e)
    ensures var q := HandleControl(n.receiver, names.receiverNet, names.senderNick, m, e);
            NetInv(src, WithReceiver(n, q, Cleaned(n.files, n.receiver.items, q.items)).(received := n.received + 1))
  {
    hide NetInv, Cleaned, WithReceiver, AnswersFor, HandleResumeAccept;
    AgreedMessage(src, names, n, e);
    CountedNet(src, n, HandleControl(n.receiver, names.receiverNet, names.senderNick, m, e));
  }

  lemma OnlyOffersAndAnswers(src: map<string, Bytes>, n: Net)
    requires NetInv(src, n) && n.received < |n.sender.sent|
    ensures n.sender.sent[n.received].offer.command == Send || n.sender.sent[n.received].offer.command == Accept
  {
  }

  lemma MessageToReceiver(src: map<string, Bytes>, names: Names, n: Net, e: ControlEnv)
    requires NetInv(src, n) && n.received < |n.sender.sent| && AnswersFor(n, names, n.sender.sent[n.received].offer, e)
    requires Scheduler.Possible(n.receiver, Scheduler.Message(names.receiverNet, names.senderNick, n.sender.sent[n.received].offer, e))
    ensures var q := HandleControl(n.receiver, names.receiverNet, names.senderNick, n.sender.sent[n.received].offer, e);
            NetInv(src, WithReceiver(n, q, Cleaned(n.files, n.receiver.items, q.items)).(received := n.received + 1))
  {
    hide NetInv, HandleControl, WithReceiver, Cleaned, AnswersFor, Scheduler.Possible;
    var m := n.sender.sent[n.received].offer;
    OnlyOffersAndAnswers(src, n);
    if !n.receiver.settings.enabled {
      IgnoredMessage(src, names, n, m, e);
    } else if m.command == Send {
      NewOfferKeepsInv(src, names, n, e);
    } else {
      AgreedCounted(src, names, n, m, e);
    }
  }
}
