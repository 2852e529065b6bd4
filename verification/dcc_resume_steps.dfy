/** The remaining steps: the downloading user, messages to the downloading side, and the bytes. */
module DccResumeSteps {
  import opened DccTypes
  import opened DccManager
  import opened DccNet
  import opened DccSenderMoves
  import opened DccAgreement
  import opened DccResumeReceiver
  import opened DccResumeSender
  import Scheduler = DccScheduler

  // ---------------------------------------------------------------- stopping and forgetting downloads

  lemma CleanedKeeps(files: map<string, Bytes>, r: State, q: State)
    requires Rests(r, q)
    ensures Keeps(files, r, q, Cleaned(files, r.items, q.items))
  {
  }

  /** The downloading side queues nothing, so its scheduler never moves. */
  lemma NothingToAdvance(r: State, id: string, env: Env)
    requires r.queue == [] && r.active == ""
    ensures Advance(r, id, env) == r
  {
  }

  lemma StoppedRests(r: State, id: string, t: Transfer)
    requires id in r.items && Rested(r.items[id], t)
    ensures Rests(r, r.(items := r.items[id := t], workers := r.workers - {id}))
  {
  }

  lemma CanceledRested(t: Transfer, u: Transfer)
    requires (t == u || Rested(t, u)) && (u.status.Active() || u.status == Resumable)
    ensures Rested(t, CanceledItem(u))
  {
  }

  lemma CancelRests(r: State, q: State, id: string, env: Env)
    requires Rests(r, q) && q.queue == [] && q.active == ""
    ensures Rests(r, Cancel(q, id, env)) && Cancel(q, id, env).queue == [] && Cancel(q, id, env).active == ""
  {
    if CanCancel(q, id) {
      CanceledRested(r.items[id], q.items[id]);
      var c := q.(items := q.items[id := CanceledItem(q.items[id])], workers := q.workers - {id});
      NothingToAdvance(c, id, env);
      assert Cancel(q, id, env) == c;
      hide Rested, CanceledItem;
    }
  }

  lemma {:induction false} CancelEachRests(r: State, q: State, ids: seq<string>, env: Env)
    requires Rests(r, q) && q.queue == [] && q.active == ""
    ensures Rests(r, CancelEach(q, ids, env))
    decreases |ids|
  {
    hide Rests, Cancel;
    if ids != [] {
      CancelRests(r, q, ids[0], env);
      CancelEachRests(r, Cancel(q, ids[0], env), ids[1..], env);
    }
  }

  lemma FinishedRested(t: Transfer, canceled: bool, partialExists: bool)
    requires t.status != Canceled && t.status != Failed
    ensures Rested(t, FinishedItem(t, canceled, partialExists))
  {
  }

  lemma FinishRests(r: State, id: string, canceled: bool, partialExists: bool, env: Env)
    requires r.queue == [] && r.active == "" && id in r.items && r.items[id].status != Canceled && r.items[id].status != Failed
    ensures FinishWithError(r, id, canceled, partialExists, env)
            == r.(items := r.items[id := FinishedItem(r.items[id], canceled, partialExists)], workers := r.workers - {id})
    ensures Rests(r, FinishWithError(r, id, canceled, partialExists, env))
  {
    FinishedRested(r.items[id], canceled, partialExists);
    StoppedRests(r, id, FinishedItem(r.items[id], canceled, partialExists));
    NothingToAdvance(Finished(r, id, canceled, partialExists), id, env);
  }

  lemma SelfRests(r: State, settings: Settings)
    ensures Rests(r, r.(settings := settings))
  {
  }

  /** Every step of the downloading user except accepting an offer. */
  lemma ReceiverStepRests(src: map<string, Bytes>, n: Net, step: Scheduler.Step)
    requires Downloads(src, n.receiver, n.files, n.inLink)
    requires ReceiverMay(n.receiver, n.files, step) && !step.AcceptItem?
    ensures Rests(n.receiver, Scheduler.Apply(n.receiver, step))
  {
    var r := n.receiver;
    SelfRests(r, r.settings);
    assert r.(settings := r.settings) == r;
    match step
    case CancelItem(id, env) => CancelRests(r, r, id, env);
    case DeclineItem(id) =>
      if id in r.items && r.items[id].status == Offered {
        var t := r.items[id].(status := Declined);
        assert id !in r.workers;
        assert r.workers - {id} == r.workers;
        StoppedRests(r, id, t);
      }
    case Discard(id) =>
    case Forget(id) =>
    case ForgetAll =>
    case ChangeSettings(settings, cancelActive, ids, env) =>
      SelfRests(r, settings);
      if !settings.enabled && cancelActive {
        CancelEachRests(r, r.(settings := settings), ids, env);
      }
    case CloseManager(ids, env) =>
      SelfRests(r, r.settings.(enabled := false));
      CancelEachRests(r, r.(settings := r.settings.(enabled := false)), ids, env);
    case WorkerFailed(id, canceled, partialExists, env) =>
      if id in r.items {
        FinishRests(r, id, canceled, partialExists, env);
      }
  }

  lemma StoppingKeepsInv(src: map<string, Bytes>, names: Names, n: Net, step: Scheduler.Step)
    requires NetInv(src, n) && PossibleNamed(src, names, n, ReceiverStep(step)) && !step.AcceptItem?
    ensures NetInv(src, Apply(src, names, n, ReceiverStep(step)))
  {
    var q := Scheduler.Apply(n.receiver, step);
    ReceiverStepRests(src, n, step);
    Scheduler.StepInv(n.receiver, step);
    FilesKept(n, step, q);
    hide Rests, Keeps, Scheduler.Inv, Known, Sends, Attempts, Connections, Downloads, Offers, Workers, Questions, Asking, Answers, Agreement, Flows, SenderLinks, Prefixes;
    RestsKeepInv(src, n, q, FilesAfter(n, step, q));
  }

  lemma FilesKept(n: Net, step: Scheduler.Step, q: State)
    requires Rests(n.receiver, q) && q == Scheduler.Apply(n.receiver, step)
    ensures Keeps(n.files, n.receiver, q, FilesAfter(n, step, q))
  {
    CleanedKeeps(n.files, n.receiver, q);
  }

  // ---------------------------------------------------------------- accepting an offer

  /** A download that connects with the length of its partial file, before any message or worker. */
  ghost function ConnectingState(r: State, id: string, length: int): State
    requires id in r.items
  {
    r.(items := r.items[id := AcceptedItem(r.items[id], length)])
  }

  lemma ConnectingDownloads(src: map<string, Bytes>, n: Net, id: string)
    requires Downloads(src, n.receiver, n.files, n.inLink)
    requires id in n.receiver.items && (n.receiver.items[id].status == Offered || n.receiver.items[id].status == Resumable)
    ensures Downloads(src, ConnectingState(n.receiver, id, LengthOf(n.files, id)), n.files, n.inLink)
    ensures Pruned(n.inLink, ConnectingState(n.receiver, id, LengthOf(n.files, id)).items) == n.inLink
    ensures id !in n.receiver.workers
  {
    var r := n.receiver;
    var q := ConnectingState(r, id, LengthOf(n.files, id));
    EachDownload(src, r, n.files, n.inLink);
    assert DownloadOk(src, r, n.files, n.inLink, id);
    assert id !in n.inLink && q.items.Keys == r.items.Keys;
    assert Pruned(n.inLink, q.items) == n.inLink;
    hide Downloads, Pruned;
    assert DownloadOk(src, q, n.files, n.inLink, id);
    forall i | i in q.items && i != id ensures DownloadOk(src, q, n.files, n.inLink, i) {
      assert q.items[i] == r.items[i];
      assert DownloadOk(src, r, n.files, n.inLink, i);
    }
    hide DownloadOk;
    AllDownloads(src, q, n.files, n.inLink);
  }

  lemma ConnectingFlows(src: map<string, Bytes>, n: Net, id: string)
    requires Flows(src, n.receiver, n.files, n.conns, n.inLink) && id in n.receiver.items
    ensures Flows(src, ConnectingState(n.receiver, id, LengthOf(n.files, id)), n.files, n.conns, n.inLink)
  {
    var q := ConnectingState(n.receiver, id, LengthOf(n.files, id));
    hide Flows;
    assert q.items.Keys == n.receiver.items.Keys;
    FlowsSame(src, n.receiver, q, n.files, n.conns, n.inLink);
  }

  /** Flows only looks at file names and saved offers. */
  lemma FlowsSame(src: map<string, Bytes>, r: State, q: State, files: map<string, Bytes>, conns: seq<Conn>, inLink: map<string, nat>)
    requires Flows(src, r, files, conns, inLink) && q.offers == r.offers && q.items.Keys == r.items.Keys
    requires forall i :: i in r.items ==> q.items[i].filename == r.items[i].filename
    ensures Flows(src, q, files, conns, inLink)
  {
  }

  lemma ConnectingWorkers(n: Net, id: string)
    requires Workers(n.receiver) && Offers(n.sender, n.receiver, n.received)
    requires id in n.receiver.items && id !in n.receiver.workers
    ensures var r := ConnectingState(n.receiver, id, LengthOf(n.files, id));
            Workers(r) && Offers(n.sender, r, n.received)
  {
    var r := ConnectingState(n.receiver, id, LengthOf(n.files, id));
    assert forall i :: OfferOf(r, i) == OfferOf(n.receiver, i);
  }

  lemma ConnectingPrefixes(src: map<string, Bytes>, n: Net, id: string)
    requires Prefixes(src, n.receiver, n.files) && id in n.receiver.items
    ensures Prefixes(src, ConnectingState(n.receiver, id, LengthOf(n.files, id)), n.files)
  {
    hide PrefixOf;
  }

  lemma ConnectingQuestions(n: Net, id: string)
    requires Questions(n.receiver, n.files, n.conns) && Agreement(n.sender, n.receiver) && Answers(n.sender, n.receiver)
    requires id in n.receiver.items && id !in n.receiver.workers
    ensures var r := ConnectingState(n.receiver, id, LengthOf(n.files, id));
            Questions(r, n.files, n.conns) && Agreement(n.sender, r) && Answers(n.sender, r)
  {
    assert ConnectingState(n.receiver, id, LengthOf(n.files, id)).items.Keys == n.receiver.items.Keys;
    var r := ConnectingState(n.receiver, id, LengthOf(n.files, id));
    assert forall j: nat :: OpenQuestion(r, n.conns, j) ==> OpenQuestion(n.receiver, n.conns, j);
    AnswersSame(n.sender, n.receiver, r);
  }

  lemma AnswersSame(s: State, r: State, q: State)
    requires Answers(s, r) && q.sent == r.sent && q.workers == r.workers && q.items.Keys == r.items.Keys
    ensures Answers(s, q)
  {
    forall i | i in q.workers && i in q.items && q.workers[i].ListenReceive?
      ensures exists j: nat :: IsAnswer(q, j, q.workers[i].port, q.workers[i].offer.token)
    {
      var j: nat :| IsAnswer(r, j, q.workers[i].port, q.workers[i].offer.token);
      assert IsAnswer(q, j, q.workers[i].port, q.workers[i].offer.token);
    }
    forall o | o in s.workers && s.workers[o].DialSend?
      ensures exists j: nat :: IsAnswer(q, j, s.workers[o].port, s.workers[o].token)
    {
      var j: nat :| IsAnswer(r, j, s.workers[o].port, s.workers[o].token);
      assert IsAnswer(q, j, s.workers[o].port, s.workers[o].token);
    }
  }

  lemma ConnectingKeepsInv(src: map<string, Bytes>, n: Net, id: string)
    requires NetInv(src, n) && id in n.receiver.items
    requires n.receiver.items[id].status == Offered || n.receiver.items[id].status == Resumable
    requires Scheduler.Inv(ConnectingState(n.receiver, id, LengthOf(n.files, id)))
    ensures NetInv(src, n.(receiver := ConnectingState(n.receiver, id, LengthOf(n.files, id))))
  {
    ConnectingDownloads(src, n, id);
    ConnectingFlows(src, n, id);
    ConnectingWorkers(n, id);
    ConnectingPrefixes(src, n, id);
    ConnectingQuestions(n, id);
    hide Scheduler.Inv, Known, Sends, Attempts, Connections, Downloads, Offers, Workers, Questions, Answers, Agreement, Flows, SenderLinks, Prefixes;
    assert Asking(n.sender, ConnectingState(n.receiver, id, LengthOf(n.files, id)), n.received);
  }

  // ---------------------------------------------------------------- asking to resume

  ghost function AskingState(r: State, id: string): State
    requires id in r.items
  {
    var t := r.items[id];
    r.(sent := r.sent + [Control(t.networkID, t.peer, ResumeQuestion(t, OfferOf(r, id), t.resumeOffset))])
  }

  lemma AskedQuestions(src: map<string, Bytes>, n: Net, id: string)
    requires Questions(n.receiver, n.files, n.conns) && Offers(n.sender, n.receiver, n.received)
    requires id in n.receiver.items && n.receiver.items[id].resumable
    requires n.receiver.items[id].resumeOffset == LengthOf(n.files, id) > 0
    ensures Questions(AskingState(n.receiver, id), n.files, n.conns)
  {
    var r := n.receiver;
    var q := AskingState(r, id);
    var last := |r.sent|;
    AskedOpen(r, n.conns, id);
    hide Offers, OpenQuestion;
    AskedLength(n, id);
    AskedAlike(n, id);
    hide AsksLength, AsksAlike;
    assert AsksForward(q);
  }

  lemma AskedOpen(r: State, conns: seq<Conn>, id: string)
    requires id in r.items
    ensures var q := AskingState(r, id);
            && (forall j: nat :: j < |r.sent| ==> q.sent[j] == r.sent[j])
            && (forall j: nat :: j < |r.sent| && OpenQuestion(q, conns, j) ==> OpenQuestion(r, conns, j))
            && (forall j: nat :: OpenQuestion(q, conns, j) ==> j <= |r.sent|)
            && q.sent[|r.sent|].offer == ResumeQuestion(r.items[id], OfferOf(r, id), r.items[id].resumeOffset)
            && (OpenQuestion(q, conns, |r.sent|) ==> id in r.offers && KeyOfOffer(q.sent[|r.sent|].offer) == KeyOfOffer(r.offers[id]))
  {
  }

  lemma AskedLength(n: Net, id: string)
    requires AsksLength(n.receiver, n.files, n.conns) && Offers(n.sender, n.receiver, n.received)
    requires id in n.receiver.items && n.receiver.items[id].resumable && n.receiver.items[id].resumeOffset == LengthOf(n.files, id)
    ensures AsksLength(AskingState(n.receiver, id), n.files, n.conns)
  {
    var r := n.receiver;
    AskedOpen(r, n.conns, id);
    hide OpenQuestion;
    assert forall i, j :: i in r.offers && j in r.offers && i != j ==> KeyOfOffer(r.offers[i]) != KeyOfOffer(r.offers[j]);
    hide Offers;
  }

  lemma AskedAlike(n: Net, id: string)
    requires AsksAlike(n.receiver, n.conns) && AsksLength(n.receiver, n.files, n.conns)
    requires id in n.receiver.items && n.receiver.items[id].resumeOffset == LengthOf(n.files, id)
    ensures AsksAlike(AskingState(n.receiver, id), n.conns)
  {
    var r := n.receiver;
    AskedOpen(r, n.conns, id);
    hide OpenQuestion;
  }

  lemma AskedAnswers(n: Net, id: string)
    requires Answers(n.sender, n.receiver) && id in n.receiver.items
    ensures Answers(n.sender, AskingState(n.receiver, id))
  {
    var r := n.receiver;
    var q := AskingState(r, id);
    MoreMessages(n.sender, r, q);
  }

  /** Later messages of the downloading side do not disturb what its workers announced. */
  lemma MoreMessages(s: State, r: State, q: State)
    requires Answers(s, r) && |r.sent| < |q.sent| && q.sent[..|r.sent|] == r.sent && q.items.Keys == r.items.Keys && q.workers == r.workers
    requires forall j :: |r.sent| <= j < |q.sent| ==> q.sent[j].offer.command == Resume
    ensures Answers(s, q)
  {
    assert forall j :: 0 <= j < |r.sent| ==> q.sent[j] == q.sent[..|r.sent|][j] == r.sent[j];
    forall i | i in q.workers && i in q.items && q.workers[i].ListenReceive?
      ensures exists j: nat :: IsAnswer(q, j, q.workers[i].port, q.workers[i].offer.token)
    {
      var j: nat :| IsAnswer(r, j, q.workers[i].port, q.workers[i].offer.token);
      assert IsAnswer(q, j, q.workers[i].port, q.workers[i].offer.token);
    }
    forall o | o in s.workers && s.workers[o].DialSend?
      ensures exists j: nat :: IsAnswer(q, j, s.workers[o].port, s.workers[o].token)
    {
      var j: nat :| IsAnswer(r, j, s.workers[o].port, s.workers[o].token);
      assert IsAnswer(q, j, s.workers[o].port, s.workers[o].token);
    }
  }

  /** What was asked stays asked. */
  lemma AttemptsMonotone(s: State, asked: seq<Control>, more: seq<Control>, conns: seq<Conn>)
    requires Attempts(s, asked, conns) && |asked| <= |more| && more[..|asked|] == asked
    ensures Attempts(s, more, conns)
  {
    assert forall j :: 0 <= j < |asked| ==> more[j] == more[..|asked|][j] == asked[j];
    forall o | o in s.items && s.items[o].status == Negotiating ensures exists k: nat :: AttemptAt(s, more, conns, o, k) {
      var k: nat :| AttemptAt(s, asked, conns, o, k);
      if s.items[o].resumeOffset != 0 {
        assert Asked(asked, KeyOfWorker(s.workers[o]), s.items[o].resumeOffset);
        assert Asked(more, KeyOfWorker(s.workers[o]), s.items[o].resumeOffset);
      }
      assert AttemptAt(s, more, conns, o, k);
    }
  }

  lemma AskedAsking(src: map<string, Bytes>, n: Net, id: string)
    requires Asking(n.sender, n.receiver, n.received) && Offers(n.sender, n.receiver, n.received) && id in n.receiver.items
    ensures Asking(n.sender, AskingState(n.receiver, id), n.received)
  {
    var r := n.receiver;
    var q := AskingState(r, id);
    forall j: nat | j < |q.sent| && q.sent[j].offer.command == Resume && KeyOfOffer(q.sent[j].offer) != NO_KEY
      ensures exists k: nat :: k < n.received && SendOf(n.sender, k, KeyOfOffer(q.sent[j].offer))
    {
      if j < |r.sent| {
        assert q.sent[j] == r.sent[j];
      } else {
        assert id in r.offers;
        assert KeyOfOffer(q.sent[j].offer) == KeyOfOffer(r.offers[id]);
      }
    }
  }

  lemma AskKeepsInv(src: map<string, Bytes>, n: Net, id: string)
    requires NetInv(src, n) && id in n.receiver.items && n.receiver.items[id].status == Connecting
    requires n.receiver.items[id].resumeOffset > 0 && Scheduler.Inv(AskingState(n.receiver, id))
    ensures NetInv(src, n.(receiver := AskingState(n.receiver, id)))
  {
    var q := AskingState(n.receiver, id);
    AskedQuestions(src, n, id);
    AskedAnswers(n, id);
    AskedAsking(src, n, id);
    AttemptsMonotone(n.sender, n.receiver.sent, q.sent, n.conns);
    SameRecords(src, n, q);
    SamePrefixes(src, n, q);
    FlowsSame(src, n.receiver, q, n.files, n.conns, n.inLink);
    hide Scheduler.Inv, Known, Sends, Attempts, Connections, Downloads, Offers, Workers, Questions, Asking, Answers, Agreement, Flows, SenderLinks, Prefixes;
  }

  lemma SameRecords(src: map<string, Bytes>, n: Net, q: State)
    requires q == n.receiver.(sent := q.sent)
    requires Downloads(src, n.receiver, n.files, n.inLink) && Workers(n.receiver) && Offers(n.sender, n.receiver, n.received)
    ensures Downloads(src, q, n.files, n.inLink) && Workers(q) && Offers(n.sender, q, n.received)
  {
    assert forall i :: OfferOf(q, i) == OfferOf(n.receiver, i);
  }

  lemma SamePrefixes(src: map<string, Bytes>, n: Net, q: State)
    requires q == n.receiver.(sent := q.sent)
    requires Agreement(n.sender, n.receiver) && Prefixes(src, n.receiver, n.files)
    ensures Agreement(n.sender, q) && Prefixes(src, q, n.files)
  {
    hide PrefixOf;
  }
}
