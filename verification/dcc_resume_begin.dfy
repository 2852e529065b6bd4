/** Steps that begin a download: the worker of an accepted offer and messages to the downloading
    side. This is where both sides come to agree on an offset. */
module DccResumeBegin {
  import opened DccTypes
  import opened DccManager
  import opened DccNet
  import opened DccSenderMoves
  import opened DccAgreement
  import opened DccResumeReceiver
  import opened DccResumeSender
  import opened DccResumeSteps
  import Scheduler = DccScheduler

  /** An offering transfer of the same attempt would start where this download ends. */
  ghost predicate AgreesFor(s: State, r: State, id: string)
    requires id in r.items
  {
    id in r.offers ==>
      forall o :: o in s.items && s.items[o].status == Negotiating && o in s.workers
                  && KeyOfWorker(s.workers[o]) == KeyOfOffer(r.offers[id]) ==>
        s.items[o].resumeOffset == r.items[id].resumeOffset
  }

  lemma BeginAnswers(n: Net, id: string, e: ReceiveEnv)
    requires Answers(n.sender, n.receiver) && id in n.receiver.items && FreshPort(n.receiver, e)
    ensures Answers(n.sender, Receiving(n.receiver, id, OfferOf(n.receiver, id), e))
  {
    var r := n.receiver;
    var offer := OfferOf(r, id);
    var q := Receiving(r, id, offer, e);
    assert forall j: nat :: j < |r.sent| ==> q.sent[j] == r.sent[j];
    if offer.passive {
      assert IsAnswer(q, |r.sent|, e.port, offer.token);
    }
    forall i | i in q.workers && i in q.items && q.workers[i].ListenReceive?
      ensures exists j: nat :: IsAnswer(q, j, q.workers[i].port, q.workers[i].offer.token)
    {
      if i != id {
        var j: nat :| IsAnswer(r, j, q.workers[i].port, q.workers[i].offer.token);
        assert IsAnswer(q, j, q.workers[i].port, q.workers[i].offer.token);
      }
    }
    forall o | o in n.sender.workers && n.sender.workers[o].DialSend?
      ensures exists j: nat :: IsAnswer(q, j, n.sender.workers[o].port, n.sender.workers[o].token)
    {
      var j: nat :| IsAnswer(r, j, n.sender.workers[o].port, n.sender.workers[o].token);
      assert IsAnswer(q, j, n.sender.workers[o].port, n.sender.workers[o].token);
    }
  }

  lemma BeginQuestions(n: Net, id: string, e: ReceiveEnv)
    requires Questions(n.receiver, n.files, n.conns) && Asking(n.sender, n.receiver, n.received) && id in n.receiver.items
    ensures var q := Receiving(n.receiver, id, OfferOf(n.receiver, id), e);
            Questions(q, n.files, n.conns) && Asking(n.sender, q, n.received)
  {
    var r := n.receiver;
    var q := Receiving(r, id, OfferOf(r, id), e);
    assert forall j: nat :: j < |r.sent| ==> q.sent[j] == r.sent[j];
    assert forall j: nat :: j < |q.sent| && q.sent[j].offer.command == Resume ==> j < |r.sent|;
    assert forall j: nat :: OpenQuestion(q, n.conns, j) ==> OpenQuestion(r, n.conns, j);
  }

  lemma BeginRecords(src: map<string, Bytes>, n: Net, id: string, e: ReceiveEnv)
    requires Downloads(src, n.receiver, n.files, n.inLink) && Workers(n.receiver) && Offers(n.sender, n.receiver, n.received)
    requires id in n.receiver.items && n.receiver.items[id].status == Connecting
    ensures var q := Receiving(n.receiver, id, OfferOf(n.receiver, id), e);
            Downloads(src, q, n.files, n.inLink) && Workers(q) && Offers(n.sender, q, n.received)
  {
    hide Downloads, Workers, Offers;
    BeginDownloads(src, n, id, OfferOf(n.receiver, id), e);
    BeginWorkers(n.receiver, id, e);
    OffersSame(n.sender, n.receiver, Receiving(n.receiver, id, OfferOf(n.receiver, id), e), n.received);
  }

  lemma BeginDownloads(src: map<string, Bytes>, n: Net, id: string, offer: Offer, e: ReceiveEnv)
    requires Downloads(src, n.receiver, n.files, n.inLink) && id in n.receiver.items && n.receiver.items[id].status == Connecting
    ensures Downloads(src, Receiving(n.receiver, id, offer, e), n.files, n.inLink)
  {
  }

  lemma BeginWorkers(r: State, id: string, e: ReceiveEnv)
    requires Workers(r) && id in r.items
    ensures Workers(Receiving(r, id, OfferOf(r, id), e))
  {
    assert forall i :: OfferOf(Receiving(r, id, OfferOf(r, id), e), i) == OfferOf(r, i);
  }

  lemma OffersSame(s: State, r: State, q: State, received: nat)
    requires Offers(s, r, received) && q.offers == r.offers && q.items == r.items
    ensures Offers(s, q, received)
  {
  }

  lemma BeginAgreement(n: Net, id: string, e: ReceiveEnv)
    requires Agreement(n.sender, n.receiver) && id in n.receiver.items && AgreesFor(n.sender, n.receiver, id)
    ensures Agreement(n.sender, Receiving(n.receiver, id, OfferOf(n.receiver, id), e))
  {
  }

  lemma BeginKeepsInv(src: map<string, Bytes>, n: Net, id: string, e: ReceiveEnv)
    requires NetInv(src, n) && id in n.receiver.items && n.receiver.items[id].status == Connecting
    requires AgreesFor(n.sender, n.receiver, id) && FreshPort(n.receiver, e)
    requires Scheduler.Inv(Receiving(n.receiver, id, OfferOf(n.receiver, id), e))
    ensures NetInv(src, n.(receiver := Receiving(n.receiver, id, OfferOf(n.receiver, id), e)))
  {
    hide Scheduler.Inv, Known, Sends, Attempts, Connections, Downloads, Offers, Workers, Questions, Asking, Answers, Agreement, Flows, SenderLinks, Prefixes;
    var q := Receiving(n.receiver, id, OfferOf(n.receiver, id), e);
    BeginAnswers(n, id, e);
    BeginQuestions(n, id, e);
    BeginRecords(src, n, id, e);
    BeginAgreement(n, id, e);
    FlowsSame(src, n.receiver, q, n.files, n.conns, n.inLink);
    assert |n.receiver.sent| <= |q.sent| && q.sent[..|n.receiver.sent|] == n.receiver.sent;
    AttemptsMonotone(n.sender, n.receiver.sent, q.sent, n.conns);
    assert q.items == n.receiver.items;
    PrefixesSame(src, n.receiver, q, n.files);
    hide Receiving;
  }

  lemma PrefixesSame(src: map<string, Bytes>, r: State, q: State, files: map<string, Bytes>)
    requires Prefixes(src, r, files) && q.items == r.items
    ensures Prefixes(src, q, files)
  {
    hide PrefixOf;
  }

  lemma AskedIsOpen(r: State, conns: seq<Conn>, key: Key, position: int)
    requires Asked(r.sent, key, position) && key != NO_KEY && Unconnected(conns, key)
    ensures exists j: nat :: OpenQuestion(r, conns, j) && KeyOfOffer(r.sent[j].offer) == key
  {
    var j :| 0 <= j < |r.sent| && r.sent[j].offer.command == Resume
             && KeyOfOffer(r.sent[j].offer) == key && r.sent[j].offer.position == position;
    assert OpenQuestion(r, conns, j);
  }

  /** A download without a partial file agrees with any fresh attempt: nobody asked to resume it. */
  lemma AgreesAtZero(src: map<string, Bytes>, n: Net, id: string)
    requires Sends(src, n.sender) && Attempts(n.sender, n.receiver.sent, n.conns) && Questions(n.receiver, n.files, n.conns)
    requires id in n.receiver.items && n.receiver.items[id].resumeOffset == 0 && LengthOf(n.files, id) == 0
    ensures AgreesFor(n.sender, n.receiver, id)
  {
    var s, r := n.sender, n.receiver;
    if id in r.offers {
      assert forall j: nat :: OpenQuestion(r, n.conns, j) ==> KeyOfOffer(r.sent[j].offer) != KeyOfOffer(r.offers[id]);
      forall o | o in s.items && s.items[o].status == Negotiating && o in s.workers
                 && KeyOfWorker(s.workers[o]) == KeyOfOffer(r.offers[id])
        ensures s.items[o].resumeOffset == 0
      {
        var k: nat :| AttemptAt(s, r.sent, n.conns, o, k);
        assert WellFormedSend(src, s.sent[k].offer);
        var key, position := KeyOfWorker(s.workers[o]), s.items[o].resumeOffset;
        if position != 0 {
          AskedIsOpen(r, n.conns, key, position);
        }
      }
    }
  }

  /** The answer to a RESUME is handled after the offer it belongs to, so it names the offset the
      current attempt will start from. */
  lemma AgreesByAnswer(src: map<string, Bytes>, n: Net, id: string)
    requires Sends(src, n.sender) && Attempts(n.sender, n.receiver.sent, n.conns) && Offers(n.sender, n.receiver, n.received)
    requires n.received < |n.sender.sent|
    requires var m := n.sender.sent[n.received].offer;
             && m.command == Accept && id in n.receiver.items
             && n.receiver.items[id].filename == m.filename && n.receiver.items[id].resumeOffset == m.position
    ensures AgreesFor(n.sender, n.receiver, id)
  {
    var s, r := n.sender, n.receiver;
    if id in r.offers {
      forall o | o in s.items && s.items[o].status == Negotiating && o in s.workers
                 && KeyOfWorker(s.workers[o]) == KeyOfOffer(r.offers[id])
        ensures s.items[o].resumeOffset == r.items[id].resumeOffset
      {
        var k: nat :| AttemptAt(s, r.sent, n.conns, o, k);
        var j: nat :| j < n.received && SendOf(s, j, KeyOfOffer(r.offers[id])) && s.sent[j].offer == r.offers[id];
        assert j == k;
      }
    }
  }

  // ---------------------------------------------------------------- accepting an offer

  lemma AcceptedNet(src: map<string, Bytes>, n: Net, id: string, e: AcceptEnv, env: Env)
    requires NetInv(src, n) && n.receiver.settings.enabled
    requires id in n.receiver.items && (n.receiver.items[id].status == Offered || n.receiver.items[id].status == Resumable)
    requires n.receiver.items[id].hasPartial
    requires e.partial == PartialOf(n.files, id) && FreshPort(n.receiver, e.receive) && e.receive.partialExists == (id in n.files)
    ensures var q := AcceptPartial(n.receiver, id, e, env);
            NetInv(src, WithReceiver(n, q, Cleaned(n.files, n.receiver.items, q.items)))
  {
    if PartialUsable(n.receiver.items[id], e) {
      AcceptedUsable(src, n, id, e, env);
    } else {
      hide NetInv, Cleaned, WithReceiver, FreshPort;
      KeepEverything(src, n);
    }
  }

  lemma AcceptedUsable(src: map<string, Bytes>, n: Net, id: string, e: AcceptEnv, env: Env)
    requires NetInv(src, n) && n.receiver.settings.enabled
    requires id in n.receiver.items && (n.receiver.items[id].status == Offered || n.receiver.items[id].status == Resumable)
    requires n.receiver.items[id].hasPartial && PartialUsable(n.receiver.items[id], e)
    requires e.partial == PartialOf(n.files, id) && FreshPort(n.receiver, e.receive) && e.receive.partialExists == (id in n.files)
    ensures var q := AcceptPartial(n.receiver, id, e, env);
            NetInv(src, WithReceiver(n, q, Cleaned(n.files, n.receiver.items, q.items)))
  {
    var r := n.receiver;
    var q := AcceptPartial(r, id, e, env);
    var offset := OffsetOf(e.partial);
    var connecting := ConnectingState(r, id, offset);
    UsableStates(src, n, id, e, env);
    ConnectingDownloads(src, n, id);
    hide Scheduler.Inv, Known, Sends, Attempts, Connections, Downloads, Offers, Workers, Questions, Asking, Answers, Agreement, Flows, SenderLinks, Prefixes;
    hide Cleaned, WithReceiver, FreshPort;
    if offset > 0 && e.delivered {
      ConnectingKeepsInv(src, n, id);
      AcceptAsks(src, n, id, q);
    } else if offset > 0 || ReceiveRefuses(connecting, OfferOf(r, id), e.receive) {
      AcceptFails(src, n, id, e.receive.partialExists, env);
    } else {
      ConnectingKeepsInv(src, n, id);
      AcceptBegins(src, n, id, e.receive);
    }
  }

  /** The scheduler's invariant on the way, and what AcceptPartial leads to. */
  lemma UsableStates(src: map<string, Bytes>, n: Net, id: string, e: AcceptEnv, env: Env)
    requires NetInv(src, n) && n.receiver.settings.enabled
    requires id in n.receiver.items && (n.receiver.items[id].status == Offered || n.receiver.items[id].status == Resumable)
    requires n.receiver.items[id].hasPartial && PartialUsable(n.receiver.items[id], e) && e.partial == PartialOf(n.files, id)
    ensures var r := n.receiver;
            var offset := LengthOf(n.files, id);
            var connecting := ConnectingState(r, id, offset);
            && offset == OffsetOf(e.partial)
            && Scheduler.Inv(connecting) && Scheduler.Inv(AcceptPartial(r, id, e, env))
            && AcceptPartial(r, id, e, env) == (
              if offset > 0 && e.delivered then AskingState(connecting, id)
              else if offset > 0 || ReceiveRefuses(connecting, OfferOf(r, id), e.receive) then
                FinishWithError(connecting, id, false, e.receive.partialExists, env)
              else Receiving(connecting, id, OfferOf(r, id), e.receive))
  {
    hide Known, Sends, Attempts, Connections, Offers, Workers, Questions, Asking, Answers, Agreement, Flows, SenderLinks, Prefixes;
    var r := n.receiver;
    assert r.items[id].direction == Incoming;
    hide Downloads;
    Scheduler.AcceptPartialInv(r, id, e, env);
    Scheduler.TouchedInv(r, id, AcceptedItem(r.items[id], OffsetOf(e.partial)), r.workers, r.offers, r.sent);
    hide Scheduler.Inv;
  }

  lemma KeepEverything(src: map<string, Bytes>, n: Net)
    requires NetInv(src, n)
    ensures NetInv(src, WithReceiver(n, n.receiver, Cleaned(n.files, n.receiver.items, n.receiver.items)))
  {
    SelfRests(n.receiver, n.receiver.settings);
    assert n.receiver.(settings := n.receiver.settings) == n.receiver;
    RestingKeepsInv(src, n, n.receiver);
  }

  /** No file is deleted and no link dropped when a download connects. */
  lemma ConnectingKeepsFiles(n: Net, id: string, q: State)
    requires id in n.receiver.items && n.receiver.items[id].status != Transferring
    requires forall i :: i in n.inLink ==> i in n.receiver.items && n.receiver.items[i].status == Transferring
    requires q.items == ConnectingState(n.receiver, id, LengthOf(n.files, id)).items
    ensures WithReceiver(n, q, Cleaned(n.files, n.receiver.items, q.items)) == n.(receiver := q)
  {
    assert Cleaned(n.files, n.receiver.items, q.items) == n.files;
    assert Pruned(n.inLink, q.items) == n.inLink;
  }

  lemma AcceptAsks(src: map<string, Bytes>, n: Net, id: string, q: State)
    requires id in n.receiver.items && (n.receiver.items[id].status == Offered || n.receiver.items[id].status == Resumable)
    requires Downloads(src, n.receiver, n.files, n.inLink) && LengthOf(n.files, id) > 0
    requires NetInv(src, n.(receiver := ConnectingState(n.receiver, id, LengthOf(n.files, id))))
    requires q == AskingState(ConnectingState(n.receiver, id, LengthOf(n.files, id)), id) && Scheduler.Inv(q)
    ensures NetInv(src, WithReceiver(n, q, Cleaned(n.files, n.receiver.items, q.items)))
  {
    ConnectingKeepsFiles(n, id, q);
    var c := n.(receiver := ConnectingState(n.receiver, id, LengthOf(n.files, id)));
    assert c.receiver.items[id].resumeOffset == LengthOf(n.files, id);
    hide Scheduler.Inv, Known, Sends, Attempts, Connections, Downloads, Offers, Workers, Questions, Asking, Answers, Agreement, Flows, SenderLinks, Prefixes;
    AskKeepsInv(src, c, id);
  }

  lemma AcceptBegins(src: map<string, Bytes>, n: Net, id: string, e: ReceiveEnv)
    requires id in n.receiver.items && (n.receiver.items[id].status == Offered || n.receiver.items[id].status == Resumable)
    requires Downloads(src, n.receiver, n.files, n.inLink) && LengthOf(n.files, id) == 0 && FreshPort(n.receiver, e)
    requires NetInv(src, n.(receiver := ConnectingState(n.receiver, id, 0)))
    requires Scheduler.Inv(Receiving(ConnectingState(n.receiver, id, 0), id, OfferOf(n.receiver, id), e))
    ensures var q := Receiving(ConnectingState(n.receiver, id, 0), id, OfferOf(n.receiver, id), e);
            NetInv(src, WithReceiver(n, q, Cleaned(n.files, n.receiver.items, q.items)))
  {
    hide Scheduler.Inv, Known, Sends, Attempts, Connections, Offers, Workers, Questions, Asking, Answers, Agreement, Flows, SenderLinks, Prefixes, AgreesFor;
    var c := n.(receiver := ConnectingState(n.receiver, id, 0));
    var q := Receiving(c.receiver, id, OfferOf(n.receiver, id), e);
    assert q.items == c.receiver.items;
    ConnectingKeepsFiles(n, id, q);
    AgreesAtZero(src, c, id);
    assert OfferOf(c.receiver, id) == OfferOf(n.receiver, id);
    hide Downloads;
    BeginKeepsInv(src, c, id, e);
  }

  lemma AcceptedRested(t: Transfer, length: int, partialExists: bool)
    requires t.status == Offered || t.status == Resumable
    ensures Rested(t, FinishedItem(AcceptedItem(t, length), false, partialExists))
  {
  }

  /** A download whose peer could not be reached falls back to where it was. */
  lemma FailedAcceptRests(r: State, id: string, length: int, partialExists: bool, env: Env)
    requires r.queue == [] && r.active == "" && id in r.items && (r.items[id].status == Offered || r.items[id].status == Resumable)
    ensures Rests(r, FinishWithError(ConnectingState(r, id, length), id, false, partialExists, env))
  {
    var c := ConnectingState(r, id, length);
    FinishRests(c, id, false, partialExists, env);
    var u := FinishedItem(c.items[id], false, partialExists);
    AcceptedRested(r.items[id], length, partialExists);
    StoppedRests(r, id, u);
    assert c.items[id := u] == r.items[id := u];
  }

  lemma AcceptFails(src: map<string, Bytes>, n: Net, id: string, partialExists: bool, env: Env)
    requires NetInv(src, n) && id in n.receiver.items && (n.receiver.items[id].status == Offered || n.receiver.items[id].status == Resumable)
    requires Scheduler.Inv(FinishWithError(ConnectingState(n.receiver, id, LengthOf(n.files, id)), id, false, partialExists, env))
    ensures var q := FinishWithError(ConnectingState(n.receiver, id, LengthOf(n.files, id)), id, false, partialExists, env);
            NetInv(src, WithReceiver(n, q, Cleaned(n.files, n.receiver.items, q.items)))
  {
    FailedAcceptRests(n.receiver, id, LengthOf(n.files, id), partialExists, env);
    var q := FinishWithError(ConnectingState(n.receiver, id, LengthOf(n.files, id)), id, false, partialExists, env);
    RestingKeepsInv(src, n, q);
  }

  lemma RestingKeepsInv(src: map<string, Bytes>, n: Net, q: State)
    requires NetInv(src, n) && Scheduler.Inv(q) && Rests(n.receiver, q)
    ensures NetInv(src, WithReceiver(n, q, Cleaned(n.files, n.receiver.items, q.items)))
  {
    CleanedKeeps(n.files, n.receiver, q);
    hide Rests, Keeps, Scheduler.Inv, Known, Sends, Attempts, Connections, Downloads, Offers, Workers, Questions, Asking, Answers, Agreement, Flows, SenderLinks, Prefixes;
    RestsKeepInv(src, n, q, Cleaned(n.files, n.receiver.items, q.items));
  }
}
