/** Steps that connect two workers and move bytes, and the theorem about whole runs. */
module DccResumeBytes {
  import opened DccTypes
  import opened DccManager
  import opened DccNet
  import opened DccSenderMoves
  import opened DccAgreement
  import opened DccResumeReceiver
  import opened DccResumeSender
  import opened DccResumeSteps
  import opened DccResumeMessages
  import Scheduler = DccScheduler

  // ---------------------------------------------------------------- connecting

  /** Workers that can meet belong to one attempt, for one file, and agree on the offset. */
  lemma MeetingAgrees(src: map<string, Bytes>, n: Net, o: string, i: string)
    requires NetInv(src, n) && Possible(src, n, Connect(o, i))
    ensures i in n.receiver.offers && KeyOfOffer(n.receiver.offers[i]) == KeyOfWorker(n.sender.workers[o])
    ensures n.sender.items[o].filename == n.receiver.items[i].filename
    ensures n.sender.items[o].resumeOffset == n.receiver.items[i].resumeOffset == LengthOf(n.files, i)
    ensures exists k: nat :: SendOf(n.sender, k, KeyOfWorker(n.sender.workers[o]))
  {
    var s, r := n.sender, n.receiver;
    var k: nat :| AttemptAt(s, r.sent, n.conns, o, k);
    assert WellFormedSend(src, s.sent[k].offer);
    assert SendOf(s, k, KeyOfWorker(s.workers[o]));
    MeetingKeys(src, n, o, i, k);
    var j: nat :| j < n.received && SendOf(s, j, KeyOfOffer(r.offers[i])) && s.sent[j].offer == r.offers[i];
    hide Scheduler.Inv, Known, Attempts, Connections, Workers, Questions, Asking, Answers, Flows, SenderLinks, Prefixes, Meet;
    assert j == k;
  }

  lemma MeetingKeys(src: map<string, Bytes>, n: Net, o: string, i: string, k: nat)
    requires o in n.sender.items && i in n.receiver.items && o in n.sender.workers && i in n.receiver.workers
    requires Workers(n.receiver) && Answers(n.sender, n.receiver) && Offers(n.sender, n.receiver, n.received) && Sends(src, n.sender)
    requires AttemptAt(n.sender, n.receiver.sent, n.conns, o, k) && WellFormedSend(src, n.sender.sent[k].offer)
    requires Meet(n.sender.workers[o], n.receiver.workers[i])
    ensures i in n.receiver.offers && KeyOfOffer(n.receiver.offers[i]) == KeyOfWorker(n.sender.workers[o])
  {
    var s, r := n.sender, n.receiver;
    var w, v := s.workers[o], r.workers[i];
    assert i in r.offers;
    var j: nat :| j < n.received && SendOf(s, j, KeyOfOffer(r.offers[i])) && s.sent[j].offer == r.offers[i];
    assert WellFormedSend(src, r.offers[i]);
    if w.DialSend? {
      var a: nat :| IsAnswer(r, a, w.port, w.token);
      var b: nat :| IsAnswer(r, b, v.port, v.offer.token);
      assert a == b;
    }
  }

  ghost function Connected(n: Net, o: string, i: string): Net
    requires o in n.sender.items && o in n.sender.workers && n.sender.items[o].resumeOffset >= 0
  {
    var c := Conn(o, i, n.sender.items[o].filename, KeyOfWorker(n.sender.workers[o]), n.sender.items[o].resumeOffset, []);
    n.(sender := MarkTransferring(n.sender, o), receiver := MarkTransferring(n.receiver, i),
    files := if i in n.files then n.files else n.files[i := []],
    conns := n.conns + [c], outLink := n.outLink[o := |n.conns|], inLink := n.inLink[i := |n.conns|])
  }

  lemma ConnectedSender(src: map<string, Bytes>, n: Net, o: string, i: string)
    requires Scheduler.Inv(n.sender) && Known(src, n.sender.items) && Sends(src, n.sender)
    requires o in n.sender.items && o in n.sender.workers && n.sender.items[o].status == Negotiating && n.sender.items[o].resumeOffset >= 0
    ensures var s := Connected(n, o, i).sender;
            && Scheduler.Inv(s) && Known(src, s.items) && Sends(src, s)
            && (forall x :: x in s.items ==> s.items[x].status != Negotiating)
  {
    var s := n.sender;
    Scheduler.StepInv(s, Scheduler.WorkerConnected(o));
    var u := s.items[o].(status := Transferring);
    KnownUpdate(src, s.items, o, u);
    assert forall x :: x in s.items && s.items[x].status == Negotiating ==> s.items[x].direction == Outgoing && x == s.active;
    hide Scheduler.Inv, Known;
  }

  lemma ConnectedLinks(n: Net, o: string, i: string)
    requires SenderLinks(n.sender, n.conns, n.outLink)
    requires o in n.sender.items && o in n.sender.workers && n.sender.items[o].status == Negotiating && n.sender.items[o].resumeOffset >= 0
    requires n.sender.items[o].direction == Outgoing
    ensures var m := Connected(n, o, i);
            SenderLinks(m.sender, m.conns, m.outLink)
  {
  }

  lemma ConnectedConns(src: map<string, Bytes>, n: Net, o: string, i: string)
    requires Connections(src, n.sender, n.conns)
    requires o in n.sender.items && o in n.sender.workers
    requires n.sender.items[o].filename in src && 0 <= n.sender.items[o].resumeOffset <= |src[n.sender.items[o].filename]|
    requires exists k: nat :: SendOf(n.sender, k, KeyOfWorker(n.sender.workers[o]))
    ensures Connections(src, n.sender, Connected(n, o, i).conns)
  {
    var m := Connected(n, o, i);
    assert Announced(src, n.sender, m.conns[|n.conns|]);
    hide Announced;
    assert forall c :: 0 <= c < |n.conns| ==> m.conns[c] == n.conns[c];
  }

  lemma ConnectedOffers(src: map<string, Bytes>, n: Net, t: State, r: State)
    requires Offers(n.sender, n.receiver, n.received) && Asking(n.sender, n.receiver, n.received)
    requires t.sent == n.sender.sent && r.sent == n.receiver.sent && r.offers == n.receiver.offers && r.items.Keys == n.receiver.items.Keys
    requires forall x :: x in r.items ==> r.items[x].filename == n.receiver.items[x].filename
    ensures Offers(t, r, n.received) && Asking(t, r, n.received)
  {
    forall i | i in r.offers
      ensures exists k: nat :: k < n.received && SendOf(t, k, KeyOfOffer(r.offers[i])) && t.sent[k].offer == r.offers[i]
    {
      var k: nat :| k < n.received && SendOf(n.sender, k, KeyOfOffer(r.offers[i])) && n.sender.sent[k].offer == r.offers[i];
      assert SendOf(t, k, KeyOfOffer(r.offers[i]));
    }
    forall j: nat | j < |r.sent| && r.sent[j].offer.command == Resume && KeyOfOffer(r.sent[j].offer) != NO_KEY
      ensures exists k: nat :: k < n.received && SendOf(t, k, KeyOfOffer(r.sent[j].offer))
    {
      var k: nat :| k < n.received && SendOf(n.sender, k, KeyOfOffer(r.sent[j].offer));
      assert SendOf(t, k, KeyOfOffer(r.sent[j].offer));
    }
  }

  lemma ConnectedReceiver(src: map<string, Bytes>, n: Net, i: string)
    requires Scheduler.Inv(n.receiver) && Workers(n.receiver)
    requires i in n.receiver.items && n.receiver.items[i].status == Connecting
    ensures var r := MarkTransferring(n.receiver, i);
            && Scheduler.Inv(r) && Workers(r) && r.items.Keys == n.receiver.items.Keys
            && (forall x :: x in r.items ==> r.items[x].filename == n.receiver.items[x].filename)
  {
    Scheduler.StepInv(n.receiver, Scheduler.WorkerConnected(i));
    hide Scheduler.Inv;
    assert forall x :: OfferOf(MarkTransferring(n.receiver, i), x) == OfferOf(n.receiver, x);
  }

  lemma ConnectedDownloads(src: map<string, Bytes>, n: Net, o: string, i: string)
    requires Downloads(src, n.receiver, n.files, n.inLink) && Possible(src, n, Connect(o, i))
    ensures var m := Connected(n, o, i);
            Downloads(src, m.receiver, m.files, m.inLink)
  {
    hide Meet;
    assert LengthOf(n.files, i) == n.receiver.items[i].resumeOffset;
    DownloadStarted(src, n, Connected(n, o, i), i);
  }

  lemma DownloadStarted(src: map<string, Bytes>, n: Net, m: Net, i: string)
    requires Downloads(src, n.receiver, n.files, n.inLink) && i in n.receiver.items && n.receiver.items[i].status == Connecting
    requires m.receiver == MarkTransferring(n.receiver, i)
    requires i in m.files && m.files == n.files[i := m.files[i]] && |m.files[i]| == LengthOf(n.files, i)
    requires i in m.inLink && m.inLink == n.inLink[i := m.inLink[i]]
    ensures Downloads(src, m.receiver, m.files, m.inLink)
  {
  }

  lemma ConnectedQuestions(src: map<string, Bytes>, n: Net, o: string, i: string)
    requires Questions(n.receiver, n.files, n.conns) && Possible(src, n, Connect(o, i))
    ensures Questions(Connected(n, o, i).receiver, Connected(n, o, i).files, Connected(n, o, i).conns)
  {
    var m := Connected(n, o, i);
    assert forall x :: LengthOf(m.files, x) == LengthOf(n.files, x);
    forall key | Unconnected(m.conns, key) ensures Unconnected(n.conns, key) {
      assert forall c :: 0 <= c < |n.conns| ==> m.conns[c] == n.conns[c];
    }
    assert forall j: nat :: OpenQuestion(m.receiver, m.conns, j) ==> OpenQuestion(n.receiver, n.conns, j);
  }

  lemma ConnectedFlows(src: map<string, Bytes>, n: Net, o: string, i: string)
    requires Flows(src, n.receiver, n.files, n.conns, n.inLink) && Prefixes(src, n.receiver, n.files) && i !in n.inLink
    requires Possible(src, n, Connect(o, i))
    requires i in n.receiver.offers && KeyOfOffer(n.receiver.offers[i]) == KeyOfWorker(n.sender.workers[o])
    requires n.sender.items[o].filename == n.receiver.items[i].filename && n.receiver.items[i].filename in src
    requires n.sender.items[o].resumeOffset == n.receiver.items[i].resumeOffset == LengthOf(n.files, i)
    ensures var m := Connected(n, o, i);
            Flows(src, m.receiver, m.files, m.conns, m.inLink) && Prefixes(src, m.receiver, m.files)
  {
    hide Meet;
    var m := Connected(n, o, i);
    var f := n.receiver.items[i].filename;
    assert PrefixOf(m.files[i], src[f]) && |m.files[i]| == n.sender.items[o].resumeOffset;
    hide Flows, Prefixes;
    assert m.files[i] + [] == src[f][..n.sender.items[o].resumeOffset];
    FlowsGrow(src, n, m, i);
    PrefixesGrow(src, n, m, i);
  }

  lemma FlowsGrow(src: map<string, Bytes>, n: Net, m: Net, i: string)
    requires Flows(src, n.receiver, n.files, n.conns, n.inLink) && i !in n.inLink
    requires m.inLink == n.inLink[i := |n.conns|] && |m.conns| == |n.conns| + 1 && m.conns[..|n.conns|] == n.conns
    requires m.receiver.offers == n.receiver.offers && m.receiver.items.Keys == n.receiver.items.Keys
    requires forall x :: x in n.receiver.items ==> m.receiver.items[x].filename == n.receiver.items[x].filename
    requires forall x :: x != i ==> (x in m.files <==> x in n.files)
    requires forall x :: x != i && x in n.files ==> m.files[x] == n.files[x]
    requires i in m.receiver.items && i in m.files && i in m.receiver.offers
    requires var c := m.conns[|n.conns|];
             && c.target == i && c.file == m.receiver.items[i].filename && c.file in src && c.next <= |src[c.file]|
             && m.files[i] + c.pipe == src[c.file][..c.next] && KeyOfOffer(m.receiver.offers[i]) == c.key
    ensures Flows(src, m.receiver, m.files, m.conns, m.inLink)
  {
    assert forall c :: 0 <= c < |n.conns| ==> m.conns[c] == m.conns[..|n.conns|][c] == n.conns[c];
  }

  lemma PrefixesGrow(src: map<string, Bytes>, n: Net, m: Net, i: string)
    requires Prefixes(src, n.receiver, n.files)
    requires i in n.receiver.items && n.receiver.items[i].status != Completed && n.receiver.items[i].filename in src
    requires i in m.receiver.items && m.receiver.items == n.receiver.items[i := m.receiver.items[i]]
    requires m.receiver.items[i].filename == n.receiver.items[i].filename && m.receiver.items[i].status != Completed
    requires forall x :: x != i ==> (x in m.files <==> x in n.files)
    requires forall x :: x != i && x in n.files ==> m.files[x] == n.files[x]
    requires i in m.files && PrefixOf(m.files[i], src[n.receiver.items[i].filename])
    ensures Prefixes(src, m.receiver, m.files)
  {
    hide PrefixOf;
  }

  lemma MeetingRecords(src: map<string, Bytes>, n: Net, o: string, i: string)
    requires NetInv(src, n) && Possible(src, n, Connect(o, i))
    ensures n.sender.items[o].direction == Outgoing && i !in n.inLink
    ensures n.sender.items[o].filename in src && n.sender.items[o].resumeOffset <= |src[n.sender.items[o].filename]|
    ensures n.receiver.items[i].filename in src
  {
    hide Sends, Attempts, Connections, Offers, Workers, Questions, Asking, Answers, Agreement, Flows, SenderLinks, Prefixes, Meet;
  }

  lemma ConnectKeepsInv(src: map<string, Bytes>, n: Net, o: string, i: string)
    requires NetInv(src, n) && Possible(src, n, Connect(o, i))
    ensures NetInv(src, Connected(n, o, i))
  {
    hide Scheduler.Inv, Known, Sends, Connections, Downloads, Offers, Workers, Questions, Asking, Answers, Flows, SenderLinks, Prefixes, Meet;
    MeetingAgrees(src, n, o, i);
    MeetingRecords(src, n, o, i);
    var m := Connected(n, o, i);
    ConnectedSender(src, n, o, i);
    ConnectedLinks(n, o, i);
    ConnectedConns(src, n, o, i);
    ConnectedReceiver(src, n, i);
    ConnectedOffers(src, n, m.sender, m.receiver);
    ConnectedDownloads(src, n, o, i);
    ConnectedQuestions(src, n, o, i);
    ConnectedFlows(src, n, o, i);
    AnswersSame(n.sender, n.receiver, m.receiver);
    ConnectedRest(src, n, o, i);
  }

  lemma ConnectedRest(src: map<string, Bytes>, n: Net, o: string, i: string)
    requires Possible(src, n, Connect(o, i))
    requires Connections(src, n.sender, Connected(n, o, i).conns) && Answers(n.sender, Connected(n, o, i).receiver)
    requires forall x :: x in Connected(n, o, i).sender.items ==> Connected(n, o, i).sender.items[x].status != Negotiating
    ensures var m := Connected(n, o, i);
            && Connections(src, m.sender, m.conns) && Answers(m.sender, m.receiver)
            && Attempts(m.sender, m.receiver.sent, m.conns) && Agreement(m.sender, m.receiver)
  {
    var m := Connected(n, o, i);
    hide Meet;
    assert m.sender.sent == n.sender.sent && m.sender.workers == n.sender.workers;
    AnswersSender(n.sender, m.sender, m.receiver);
    ConnectionsSender(src, n.sender, m.sender, m.conns);
    hide Connections, Answers;
  }

  lemma ConnectionsSender(src: map<string, Bytes>, s: State, t: State, conns: seq<Conn>)
    requires Connections(src, s, conns) && t.sent == s.sent
    ensures Connections(src, t, conns)
  {
    forall c | 0 <= c < |conns| ensures Announced(src, t, conns[c]) {
      assert Announced(src, s, conns[c]);
      var k: nat :| SendOf(s, k, conns[c].key);
      assert SendOf(t, k, conns[c].key);
    }
  }

  // ---------------------------------------------------------------- bytes

  /** The connection `c` carries more, or less, of the same stream. */
  predicate SameStream(c: Conn, d: Conn) {
    d.item == c.item && d.target == c.target && d.file == c.file && d.key == c.key
  }

  lemma SameKeys(src: map<string, Bytes>, s: State, r: State, files: map<string, Bytes>, conns: seq<Conn>, x: nat, d: Conn)
    requires x < |conns| && SameStream(conns[x], d) && d.file in src && d.next <= |src[d.file]|
    requires Attempts(s, r.sent, conns) && Connections(src, s, conns) && Questions(r, files, conns)
    ensures Attempts(s, r.sent, conns[x := d]) && Connections(src, s, conns[x := d]) && Questions(r, files, conns[x := d])
  {
    var more := conns[x := d];
    assert forall c :: 0 <= c < |conns| ==> SameStream(conns[c], more[c]);
    assert forall key :: Unconnected(more, key) <==> Unconnected(conns, key) by {
      forall key ensures Unconnected(more, key) <==> Unconnected(conns, key) {
        if Unconnected(more, key) {
          assert forall c :: 0 <= c < |conns| ==> more[c].key != key;
        }
      }
    }
    assert forall j: nat :: OpenQuestion(r, more, j) ==> OpenQuestion(r, conns, j);
    forall o | o in s.items && s.items[o].status == Negotiating ensures exists k: nat :: AttemptAt(s, r.sent, more, o, k) {
      var k: nat :| AttemptAt(s, r.sent, conns, o, k);
      assert AttemptAt(s, r.sent, more, o, k);
    }
    SameSends(src, s, conns, x, d);
  }

  lemma SameSends(src: map<string, Bytes>, s: State, conns: seq<Conn>, x: nat, d: Conn)
    requires x < |conns| && SameStream(conns[x], d) && d.file in src && d.next <= |src[d.file]| && Connections(src, s, conns)
    ensures Connections(src, s, conns[x := d])
  {
    assert Announced(src, s, conns[x]);
    assert Announced(src, s, d);
    hide Announced;
  }

  /** The sender's record changes only in its byte count. */
  lemma ProgressKeeps(src: map<string, Bytes>, n: Net, o: string, count: int)
    requires NetInv(src, n) && o in n.sender.items && n.sender.items[o].status == Transferring && 0 <= count <= n.sender.items[o].totalBytes
    ensures NetInv(src, n.(sender := Progress(n.sender, o, count)))
  {
    var s := n.sender;
    var u := s.items[o].(transferredBytes := count);
    var t := Progress(s, o, count);
    Scheduler.ProgressInv(s, o, count);
    KnownUpdate(src, s.items, o, u);
    assert Extends(s, t);
    ProgressParts(src, n, o, u);
    hide Scheduler.Inv, Known, Sends, Attempts, Connections, Downloads, Offers, Workers, Questions, Asking, Answers, Agreement, Flows, SenderLinks, Prefixes, Extends;
    ExtensionKeeps(src, n, t);
    AnswersSender(s, t, n.receiver);
  }

  lemma ProgressParts(src: map<string, Bytes>, n: Net, o: string, u: Transfer)
    requires o in n.sender.items && n.sender.items[o].status == Transferring && u.status == Transferring && SameFile(n.sender.items[o], u)
    requires Sends(src, n.sender) && Attempts(n.sender, n.receiver.sent, n.conns) && Agreement(n.sender, n.receiver) && SenderLinks(n.sender, n.conns, n.outLink)
    ensures var t := n.sender.(items := n.sender.items[o := u]);
            && Sends(src, t) && Attempts(t, n.receiver.sent, n.conns) && Agreement(t, n.receiver) && SenderLinks(t, n.conns, n.outLink)
  {
    var t := n.sender.(items := n.sender.items[o := u]);
    forall x | x in t.items && t.items[x].status == Negotiating ensures exists k: nat :: AttemptAt(t, n.receiver.sent, n.conns, x, k) {
      var k: nat :| AttemptAt(n.sender, n.receiver.sent, n.conns, x, k);
      assert AttemptAt(t, n.receiver.sent, n.conns, x, k);
    }
  }

  lemma ChunkFlows(src: map<string, Bytes>, r: State, files: map<string, Bytes>, conns: seq<Conn>, inLink: map<string, nat>, x: nat, count: nat)
    requires Flows(src, r, files, conns, inLink) && x < |conns|
    requires conns[x].file in src && conns[x].next + count <= |src[conns[x].file]|
    ensures var c := conns[x];
            Flows(src, r, files, conns[x := c.(next := c.next + count, pipe := c.pipe + src[c.file][c.next..c.next + count])], inLink)
  {
    var c := conns[x];
    var d := c.(next := c.next + count, pipe := c.pipe + src[c.file][c.next..c.next + count]);
    forall i | i in inLink && i in r.items && i in files && inLink[i] == x
      ensures files[i] + d.pipe == src[d.file][..d.next]
    {
      assert files[i] + d.pipe == (files[i] + c.pipe) + src[c.file][c.next..c.next + count];
      assert src[c.file][..c.next] + src[c.file][c.next..d.next] == src[c.file][..d.next];
    }
  }

  lemma SameLinks(s: State, conns: seq<Conn>, outLink: map<string, nat>, x: nat, d: Conn)
    requires SenderLinks(s, conns, outLink) && x < |conns| && SameStream(conns[x], d)
    ensures SenderLinks(s, conns[x := d], outLink)
  {
  }

  lemma StreamKeeps(src: map<string, Bytes>, n: Net, x: nat, count: nat)
    requires NetInv(src, n) && x < |n.conns|
    requires n.conns[x].file in src && n.conns[x].next + count <= |src[n.conns[x].file]|
    ensures var c := n.conns[x];
            NetInv(src, n.(conns := n.conns[x := c.(next := c.next + count, pipe := c.pipe + src[c.file][c.next..c.next + count])]))
  {
    hide Scheduler.Inv, Known, Sends, Attempts, Connections, Downloads, Offers, Workers, Questions, Asking, Answers, Agreement, Flows, SenderLinks, Prefixes;
    var c := n.conns[x];
    var d := c.(next := c.next + count, pipe := c.pipe + src[c.file][c.next..c.next + count]);
    SameKeys(src, n.sender, n.receiver, n.files, n.conns, x, d);
    SameLinks(n.sender, n.conns, n.outLink, x, d);
    ChunkFlows(src, n.receiver, n.files, n.conns, n.inLink, x, count);
  }

  lemma SendingItem(src: map<string, Bytes>, n: Net, o: string)
    requires NetInv(src, n) && o in n.outLink
    ensures o in n.sender.items && n.outLink[o] < |n.conns| && n.sender.items[o].status == Transferring
    ensures n.sender.items[o].filename == n.conns[n.outLink[o]].file
    ensures n.sender.items[o].filename in src && n.sender.items[o].totalBytes == |src[n.sender.items[o].filename]|
  {
  }

  lemma SendChunkKeepsInv(src: map<string, Bytes>, names: Names, n: Net, o: string, count: nat)
    requires NetInv(src, n) && Possible(src, n, SendChunk(o, count))
    ensures NetInv(src, Apply(src, names, n, SendChunk(o, count)))
  {
    hide NetInv;
    SendingItem(src, n, o);
    var next := n.conns[n.outLink[o]].next + count;
    ProgressKeeps(src, n, o, next);
    StreamKeeps(src, n.(sender := Progress(n.sender, o, next)), n.outLink[o], count);
  }

  // ---------------------------------------------------------------- receiving

  lemma ReceivingItem(src: map<string, Bytes>, n: Net, i: string)
    requires NetInv(src, n) && i in n.inLink
    ensures i in n.receiver.items && i in n.files && n.inLink[i] < |n.conns| && n.receiver.items[i].status == Transferring
    ensures n.receiver.items[i].transferredBytes == |n.files[i]| && n.receiver.items[i].filename in src
    ensures n.receiver.items[i].totalBytes == |src[n.receiver.items[i].filename]|
    ensures var c := n.conns[n.inLink[i]];
            && c.target == i && c.file == n.receiver.items[i].filename && c.next <= |src[c.file]|
            && n.files[i] + c.pipe == src[c.file][..c.next]
            && i in n.receiver.offers && KeyOfOffer(n.receiver.offers[i]) == c.key
  {
  }

  ghost function Took(n: Net, i: string, count: nat): Net
    requires i in n.inLink && n.inLink[i] < |n.conns| && i in n.files && count <= |n.conns[n.inLink[i]].pipe|
  {
    var c := n.conns[n.inLink[i]];
    var got := n.files[i] + c.pipe[..count];
    n.(receiver := Progress(n.receiver, i, |got|), files := n.files[i := got],
    conns := n.conns[n.inLink[i] := c.(pipe := c.pipe[count..])])
  }

  lemma TookFlows(src: map<string, Bytes>, n: Net, i: string, count: nat)
    requires Flows(src, n.receiver, n.files, n.conns, n.inLink) && Prefixes(src, n.receiver, n.files)
    requires i in n.inLink && n.inLink[i] < |n.conns| && i in n.files && count <= |n.conns[n.inLink[i]].pipe|
    requires i in n.receiver.items && n.receiver.items[i].status == Transferring && n.receiver.items[i].filename in src
    ensures var m := Took(n, i, count);
            Flows(src, m.receiver, m.files, m.conns, m.inLink) && Prefixes(src, m.receiver, m.files)
  {
    var m := Took(n, i, count);
    var x := n.inLink[i];
    var c := n.conns[x];
    assert m.files[i] + m.conns[x].pipe == n.files[i] + c.pipe;
    assert m.files[i] == (n.files[i] + c.pipe)[..|m.files[i]|];
    assert PrefixOf(m.files[i], src[c.file]);
    forall j | j in m.inLink && j in m.receiver.items && j in m.files && j != i ensures m.inLink[j] != x {
      assert n.conns[n.inLink[j]].target == j;
    }
    TookPrefixes(src, n, m, i);
  }

  lemma TookPrefixes(src: map<string, Bytes>, n: Net, m: Net, i: string)
    requires Prefixes(src, n.receiver, n.files) && i in n.receiver.items && n.receiver.items[i].status == Transferring
    requires i in m.receiver.items && m.receiver.items == n.receiver.items[i := m.receiver.items[i]]
    requires m.receiver.items[i].status == Transferring && m.receiver.items[i].filename == n.receiver.items[i].filename && m.receiver.items[i].filename in src
    requires i in m.files && m.files == n.files[i := m.files[i]] && PrefixOf(m.files[i], src[m.receiver.items[i].filename])
    ensures Prefixes(src, m.receiver, m.files)
  {
    hide PrefixOf;
  }

  lemma TookRecords(src: map<string, Bytes>, n: Net, i: string, count: nat)
    requires Downloads(src, n.receiver, n.files, n.inLink) && Workers(n.receiver) && Agreement(n.sender, n.receiver)
    requires i in n.inLink && n.inLink[i] < |n.conns| && i in n.files && count <= |n.conns[n.inLink[i]].pipe|
    ensures var m := Took(n, i, count);
            Downloads(src, m.receiver, m.files, m.inLink) && Workers(m.receiver) && Agreement(m.sender, m.receiver)
  {
    var m := Took(n, i, count);
    assert forall x :: OfferOf(m.receiver, x) == OfferOf(n.receiver, x);
  }

  /** The attempt of a connected download has no open question. */
  lemma TookQuestions(src: map<string, Bytes>, n: Net, m: Net, i: string, x: nat)
    requires Questions(n.receiver, n.files, n.conns) && x < |n.conns| && m.conns == n.conns
    requires i in n.receiver.items && i in n.receiver.offers && KeyOfOffer(n.receiver.offers[i]) == n.conns[x].key
    requires m.receiver.sent == n.receiver.sent && m.receiver.offers == n.receiver.offers
    requires m.receiver.items.Keys == n.receiver.items.Keys
    requires forall j :: j in n.receiver.items && j != i ==> m.receiver.items[j] == n.receiver.items[j]
    requires forall j :: j != i ==> LengthOf(m.files, j) == LengthOf(n.files, j)
    ensures Questions(m.receiver, m.files, m.conns)
  {
    assert forall j: nat :: OpenQuestion(m.receiver, m.conns, j) ==> OpenQuestion(n.receiver, n.conns, j);
    assert forall j: nat :: OpenQuestion(n.receiver, n.conns, j) ==> KeyOfOffer(n.receiver.sent[j].offer) != n.conns[x].key;
  }

  lemma TookKeepsInv(src: map<string, Bytes>, n: Net, i: string, count: nat)
    requires NetInv(src, n) && i in n.inLink && n.inLink[i] < |n.conns| && i in n.files && count <= |n.conns[n.inLink[i]].pipe|
    requires i in n.receiver.items && n.receiver.items[i].status == Transferring && n.receiver.items[i].filename in src
    requires var c := n.conns[n.inLink[i]];
             && c.file in src && c.next <= |src[c.file]| && i in n.receiver.offers && KeyOfOffer(n.receiver.offers[i]) == c.key
    requires Scheduler.Inv(Took(n, i, count).receiver)
    ensures NetInv(src, Took(n, i, count))
  {
    hide Scheduler.Inv, Known, Sends, Attempts, Connections, Downloads, Offers, Workers, Questions, Asking, Answers, Agreement, Flows, SenderLinks, Prefixes;
    var x := n.inLink[i];
    var m := Took(n, i, count);
    TookFlows(src, n, i, count);
    TookRecords(src, n, i, count);
    TookQuestions(src, n, m.(conns := n.conns), i, x);
    SameKeys(src, n.sender, m.receiver, m.files, n.conns, x, m.conns[x]);
    SameLinks(n.sender, n.conns, n.outLink, x, m.conns[x]);
    AnswersSame(n.sender, n.receiver, m.receiver);
    ConnectedOffers(src, n, m.sender, m.receiver);
  }

  lemma ReceiverInv(src: map<string, Bytes>, n: Net)
    requires NetInv(src, n)
    ensures Scheduler.Inv(n.receiver)
  {
  }

  lemma ChunkTaken(src: map<string, Bytes>, names: Names, n: Net, i: string, count: nat)
    requires Possible(src, n, ReceiveChunk(i, count))
    ensures i in n.inLink && n.inLink[i] < |n.conns| && i in n.files && i in n.receiver.items
    ensures count <= |n.conns[n.inLink[i]].pipe| && |n.files[i]| + count <= n.receiver.items[i].totalBytes
    ensures Apply(src, names, n, ReceiveChunk(i, count)) == Took(n, i, count)
    ensures Took(n, i, count).receiver == Progress(n.receiver, i, |n.files[i]| + count)
  {
  }

  lemma ReceiveChunkKeepsInv(src: map<string, Bytes>, names: Names, n: Net, i: string, count: nat)
    requires NetInv(src, n) && Possible(src, n, ReceiveChunk(i, count))
    ensures NetInv(src, Apply(src, names, n, ReceiveChunk(i, count)))
  {
    hide NetInv, Scheduler.Inv, Possible, Apply, Took, Progress;
    ChunkTaken(src, names, n, i, count);
    ReceivingItem(src, n, i);
    ReceiverInv(src, n);
    Scheduler.ProgressInv(n.receiver, i, |n.files[i]| + count);
    TookKeepsInv(src, n, i, count);
  }

  // ---------------------------------------------------------------- completing a download

  lemma CompletedReceiver(src: map<string, Bytes>, n: Net, i: string, env: Env)
    requires Downloads(src, n.receiver, n.files, n.inLink) && i in n.receiver.items && n.receiver.items[i].status == Transferring
    ensures Complete(n.receiver, i, env)
            == n.receiver.(items := n.receiver.items[i := CompletedItem(n.receiver.items[i])], workers := n.receiver.workers - {i})
  {
    NothingToAdvance(n.receiver.(items := n.receiver.items[i := CompletedItem(n.receiver.items[i])], workers := n.receiver.workers - {i}), i, env);
  }

  ghost function Finishing(n: Net, i: string): Net
    requires i in n.receiver.items
  {
    WithReceiver(n, n.receiver.(items := n.receiver.items[i := CompletedItem(n.receiver.items[i])], workers := n.receiver.workers - {i}), n.files)
  }

  lemma FinishingRecords(src: map<string, Bytes>, n: Net, i: string)
    requires Downloads(src, n.receiver, n.files, n.inLink) && Workers(n.receiver) && Agreement(n.sender, n.receiver)
    requires i in n.receiver.items && n.receiver.items[i].status == Transferring
    ensures var m := Finishing(n, i);
            Downloads(src, m.receiver, m.files, m.inLink) && Workers(m.receiver) && Agreement(m.sender, m.receiver)
  {
    var m := Finishing(n, i);
    assert forall x :: OfferOf(m.receiver, x) == OfferOf(n.receiver, x);
  }

  lemma FinishingAnswers(n: Net, i: string)
    requires Answers(n.sender, n.receiver) && i in n.receiver.items
    ensures Answers(n.sender, Finishing(n, i).receiver)
  {
    var q := Finishing(n, i).receiver;
    var r := n.receiver;
    AnswersSame(n.sender, r, r.(items := q.items));
    var t := r.(items := q.items);
    forall x | x in q.workers && x in q.items && q.workers[x].ListenReceive?
      ensures exists j: nat :: IsAnswer(q, j, q.workers[x].port, q.workers[x].offer.token)
    {
      var j: nat :| IsAnswer(t, j, q.workers[x].port, q.workers[x].offer.token);
      assert IsAnswer(q, j, q.workers[x].port, q.workers[x].offer.token);
    }
    forall o | o in n.sender.workers && n.sender.workers[o].DialSend?
      ensures exists j: nat :: IsAnswer(q, j, n.sender.workers[o].port, n.sender.workers[o].token)
    {
      var j: nat :| IsAnswer(t, j, n.sender.workers[o].port, n.sender.workers[o].token);
      assert IsAnswer(q, j, n.sender.workers[o].port, n.sender.workers[o].token);
    }
  }

  lemma FinishingBytes(src: map<string, Bytes>, n: Net, i: string)
    requires Flows(src, n.receiver, n.files, n.conns, n.inLink) && Prefixes(src, n.receiver, n.files)
    requires i in n.receiver.items && n.receiver.items[i].filename in src && i in n.files && |n.files[i]| == |src[n.receiver.items[i].filename]|
    ensures var m := Finishing(n, i);
            Flows(src, m.receiver, m.files, m.conns, m.inLink) && Prefixes(src, m.receiver, m.files)
  {
    var f := n.receiver.items[i].filename;
    assert n.files[i] == src[f];
    hide PrefixOf;
    var m := Finishing(n, i);
    assert i !in m.inLink;
    FlowsSame(src, n.receiver, m.receiver, n.files, n.conns, n.inLink);
    assert forall j :: j in m.inLink ==> j in n.inLink && m.inLink[j] == n.inLink[j];
  }

  lemma FinishingKeepsInv(src: map<string, Bytes>, n: Net, i: string)
    requires NetInv(src, n) && i in n.inLink && n.inLink[i] < |n.conns| && i in n.files
    requires i in n.receiver.items && n.receiver.items[i].status == Transferring && n.receiver.items[i].filename in src
    requires |n.files[i]| == |src[n.receiver.items[i].filename]|
    requires i in n.receiver.offers && KeyOfOffer(n.receiver.offers[i]) == n.conns[n.inLink[i]].key
    requires Scheduler.Inv(Finishing(n, i).receiver)
    ensures NetInv(src, Finishing(n, i))
  {
    hide Scheduler.Inv, Known, Sends, Attempts, Connections, Downloads, Offers, Workers, Questions, Asking, Answers, Agreement, Flows, SenderLinks, Prefixes;
    var m := Finishing(n, i);
    FinishingRecords(src, n, i);
    FinishingAnswers(n, i);
    FinishingBytes(src, n, i);
    TookQuestions(src, n, m, i, n.inLink[i]);
    ConnectedOffers(src, n, m.sender, m.receiver);
  }

  lemma ReceiveDoneKeepsInv(src: map<string, Bytes>, names: Names, n: Net, i: string, env: Env)
    requires NetInv(src, n) && Possible(src, n, ReceiveDone(i, env))
    ensures NetInv(src, Apply(src, names, n, ReceiveDone(i, env)))
  {
    ReceivingItem(src, n, i);
    CompletedReceiver(src, n, i, env);
    Scheduler.CompleteInv(n.receiver, i, env);
    hide NetInv, Scheduler.Inv, Complete;
    FinishingKeepsInv(src, n, i);
  }
}
