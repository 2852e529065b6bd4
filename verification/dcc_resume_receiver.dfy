/** Steps of the downloading side keep the invariant of module DccAgreement. */
module DccResumeReceiver {
  import opened DccTypes
  import opened DccManager
  import opened DccNet
  import opened DccSenderMoves
  import opened DccAgreement
  import Scheduler = DccScheduler

  /** A download that is not under way: stopped, offered again, or waiting for the user. */
  predicate Rested(t: Transfer, u: Transfer) {
    && SameFile(t, u)
    && (u.status.Canceled? || u.status.Failed? || u.status.Resumable? || u.status.Declined? || u.status.Offered?)
    && (t.resumable ==> u.resumable)
    && (!u.resumable ==> Deletes(t, u) || (t.status != Transferring && t.status != Completed))
  }

  /** Downloads are stopped, declined or forgotten; nothing is sent and nothing begins. */
  ghost predicate Rests(r: State, q: State) {
    && q.sent == r.sent && q.queue == r.queue && q.active == r.active
    && (forall i :: i in q.items ==> i in r.items && (q.items[i] == r.items[i] || (Rested(r.items[i], q.items[i]) && i !in q.workers)))
    && (forall i :: i in q.workers ==> i in r.workers && q.workers[i] == r.workers[i])
    && (forall i :: i in q.offers ==> i in r.offers && q.offers[i] == r.offers[i])
    && (forall i :: i in q.items && i in r.offers ==> i in q.offers)
  }

  /** What remains of the partial files: all that belong to resumable or untouched downloads. */
  ghost predicate Keeps(files: map<string, Bytes>, r: State, q: State, left: map<string, Bytes>) {
    && (forall i :: i in left ==> i in files && left[i] == files[i])
    && (forall i :: i in q.items && i in r.items && i in files && (q.items[i] == r.items[i] || q.items[i].resumable) ==> i in left)
    && (forall i :: i in q.items && i in left && i in r.items && q.items[i] != r.items[i] && !q.items[i].resumable ==> !Deletes(r.items[i], q.items[i]))
  }

  lemma RestsDownloads(src: map<string, Bytes>, n: Net, q: State, left: map<string, Bytes>)
    requires Downloads(src, n.receiver, n.files, n.inLink) && Rests(n.receiver, q) && Keeps(n.files, n.receiver, q, left)
    ensures Downloads(src, q, left, Pruned(n.inLink, q.items))
  {
    var r := n.receiver;
    forall i | i in q.items ensures DownloadOk(src, q, left, Pruned(n.inLink, q.items), i) {
      assert DownloadOk(src, r, n.files, n.inLink, i);
    }
  }

  /** What Downloads says of one transfer. */
  ghost predicate DownloadOk(src: map<string, Bytes>, r: State, files: map<string, Bytes>, inLink: map<string, nat>, i: string)
    requires i in r.items
  {
    var t := r.items[i];
    && t.direction == Incoming && t.filename in src && t.totalBytes == |src[t.filename]|
    && (t.status == Connecting ==> t.hasPartial && t.resumeOffset == LengthOf(files, i) && t.transferredBytes == LengthOf(files, i))
    && (t.status == Transferring ==> t.hasPartial && i in inLink && i in files && t.transferredBytes == |files[i]|)
    && (i in files && !t.resumable ==> t.status == Transferring || t.status == Completed)
    && (i in r.workers ==> t.status == Connecting || t.status == Transferring)
  }

  lemma EachDownload(src: map<string, Bytes>, r: State, files: map<string, Bytes>, inLink: map<string, nat>)
    requires Downloads(src, r, files, inLink)
    ensures r.queue == [] && r.active == ""
    ensures forall i :: i in r.items ==> DownloadOk(src, r, files, inLink, i)
    ensures forall i :: i in inLink ==> i in r.items && r.items[i].status == Transferring
  {
  }

  lemma AllDownloads(src: map<string, Bytes>, r: State, files: map<string, Bytes>, inLink: map<string, nat>)
    requires r.queue == [] && r.active == ""
    requires forall i :: i in r.items ==> DownloadOk(src, r, files, inLink, i)
    requires forall i :: i in inLink ==> i in r.items && r.items[i].status == Transferring
    ensures Downloads(src, r, files, inLink)
  {
  }

  lemma RestsQuestions(n: Net, q: State, left: map<string, Bytes>)
    requires Questions(n.receiver, n.files, n.conns) && Rests(n.receiver, q) && Keeps(n.files, n.receiver, q, left)
    ensures Questions(q, left, n.conns)
  {
    var r := n.receiver;
    assert forall j: nat :: OpenQuestion(q, n.conns, j) ==> OpenQuestion(r, n.conns, j);
    forall j: nat, i | OpenQuestion(q, n.conns, j) && i in q.items && i in q.offers && KeyOfOffer(q.offers[i]) == KeyOfOffer(q.sent[j].offer)
      ensures q.items[i].resumable && LengthOf(left, i) == q.sent[j].offer.position
    {
      assert r.items[i].resumable && LengthOf(n.files, i) == r.sent[j].offer.position;
    }
  }

  lemma RestsAnswers(n: Net, q: State)
    requires Answers(n.sender, n.receiver) && Rests(n.receiver, q)
    ensures Answers(n.sender, q)
  {
    forall i | i in q.workers && i in q.items && q.workers[i].ListenReceive?
      ensures exists j: nat :: IsAnswer(q, j, q.workers[i].port, q.workers[i].offer.token)
    {
      var j: nat :| IsAnswer(n.receiver, j, q.workers[i].port, q.workers[i].offer.token);
      assert IsAnswer(q, j, q.workers[i].port, q.workers[i].offer.token);
    }
    forall o | o in n.sender.workers && n.sender.workers[o].DialSend?
      ensures exists j: nat :: IsAnswer(q, j, n.sender.workers[o].port, n.sender.workers[o].token)
    {
      var j: nat :| IsAnswer(n.receiver, j, n.sender.workers[o].port, n.sender.workers[o].token);
      assert IsAnswer(q, j, n.sender.workers[o].port, n.sender.workers[o].token);
    }
  }

  lemma RestsFlows(src: map<string, Bytes>, n: Net, q: State, left: map<string, Bytes>)
    requires Flows(src, n.receiver, n.files, n.conns, n.inLink) && Rests(n.receiver, q) && Keeps(n.files, n.receiver, q, left)
    ensures Flows(src, q, left, n.conns, Pruned(n.inLink, q.items))
  {
    assert forall i :: i in q.items && q.items[i] != n.receiver.items[i] ==> q.items[i].status != Transferring;
    hide Rested, Deletes;
  }

  lemma RestsKeepInv(src: map<string, Bytes>, n: Net, q: State, left: map<string, Bytes>)
    requires NetInv(src, n) && Scheduler.Inv(q) && Rests(n.receiver, q) && Keeps(n.files, n.receiver, q, left)
    ensures NetInv(src, WithReceiver(n, q, left))
  {
    RestsDownloads(src, n, q, left);
    RestsQuestions(n, q, left);
    RestsAnswers(n, q);
    RestsFlows(src, n, q, left);
    RestsOffers(n, q);
    assert Asking(n.sender, q, n.received);
    RestsWorkers(n, q);
    RestsPrefixes(src, n, q, left);
  }

  lemma RestsOffers(n: Net, q: State)
    requires Offers(n.sender, n.receiver, n.received) && Rests(n.receiver, q)
    ensures Offers(n.sender, q, n.received)
  {
  }

  lemma RestsWorkers(n: Net, q: State)
    requires Workers(n.receiver) && Agreement(n.sender, n.receiver) && Rests(n.receiver, q)
    ensures Workers(q) && Agreement(n.sender, q)
  {
    var r := n.receiver;
    assert forall i :: i in q.items && i in q.workers ==> q.items[i] == r.items[i] && i in r.workers && OfferOf(q, i) == OfferOf(r, i);
  }

  lemma RestsPrefixes(src: map<string, Bytes>, n: Net, q: State, left: map<string, Bytes>)
    requires Prefixes(src, n.receiver, n.files) && Rests(n.receiver, q) && Keeps(n.files, n.receiver, q, left)
    ensures Prefixes(src, q, left)
  {
    hide PrefixOf;
    assert forall i :: i in q.items && q.items[i].status == Completed ==> q.items[i] == n.receiver.items[i];
  }
}
