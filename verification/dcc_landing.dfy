/** What a RESUME or a passive answer does to the transfer it is found for, whatever attempt it was
    sent for: exactly when the data that follows is right. */
module DccLanding {
  import opened DccTypes
  import opened DccManager
  import opened DccNet
  import opened DccSenderMoves
  import opened DccAgreement
  import opened DccResumeSender
  import opened DccResumeBegin
  import opened DccResumeBytes
  import Scheduler = DccScheduler

  // ---------------------------------------------------------------- offsets and bytes

  /** `k` bytes of the source from `offset` on, behind its first `length` bytes, are a prefix of it, as
      far as both sides have `k` bytes to go. */
  predicate RightAfter(source: Bytes, offset: nat, length: nat, k: nat) {
    offset + k <= |source| && length + k <= |source| ==>
      PrefixOf(source[..length] + source[offset..offset + k], source)
  }

  /** Whatever the source holds, data from `offset` on continues a file of `length` bytes. */
  ghost predicate Continues(total: int, offset: int, length: int) {
    0 <= offset && 0 <= length && forall source: Bytes, k: nat :: |source| == total ==> RightAfter(source, offset, length, k)
  }

  lemma RightWhenAligned(source: Bytes, offset: nat, length: nat, k: nat)
    requires offset == length || offset == |source| || length == |source|
    ensures RightAfter(source, offset, length, k)
  {
    if offset + k <= |source| && length + k <= |source| {
      assert source[..length] + source[offset..offset + k] == source[..length + k];
    }
  }

  /** Offsets that differ do harm for some source, unless no byte flows at all. */
  lemma ContinuesExactly(total: int, offset: int, length: int)
    requires 0 <= offset <= total && 0 <= length <= total
    ensures Continues(total, offset, length) <==> offset == length || offset == total || length == total
  {
    if offset == length || offset == total || length == total {
      forall source: Bytes, k: nat | |source| == total ensures RightAfter(source, offset, length, k) {
        RightWhenAligned(source, offset, length, k);
      }
    } else {
      var source: Bytes := seq(total, j => if j == length then 1 else 0);
      OneMore(source[..length], source[offset], source);
      assert source[offset..offset + 1] == [source[offset]];
      assert !RightAfter(source, offset, length, 1);
    }
  }

  ghost function ConnectedTo(src: map<string, Bytes>, names: Names, n: Net, o: string, i: string): Net
    requires Possible(src, n, Connect(o, i))
  {
    Apply(src, names, n, Connect(o, i))
  }

  /** Two workers that can meet, in whatever state: once they connect, one byte can be sent and
      received, it is the byte of the source at the sender's offset, and the file remains a prefix of
      its source exactly if that is the byte at its own length. */
  lemma FirstByteDecides(src: map<string, Bytes>, names: Names, n: Net, o: string, i: string)
    requires Possible(src, n, Connect(o, i))
    requires n.sender.items[o].filename in src && n.sender.items[o].resumeOffset < |src[n.sender.items[o].filename]|
    requires n.receiver.items[i].filename in src && n.receiver.items[i].totalBytes == |src[n.receiver.items[i].filename]|
    requires LengthOf(n.files, i) < n.receiver.items[i].totalBytes
    requires i in n.files ==> PrefixOf(n.files[i], src[n.receiver.items[i].filename])
    ensures var a := ConnectedTo(src, names, n, o, i);
            && Possible(src, a, SendChunk(o, 1))
            && var b := Apply(src, names, a, SendChunk(o, 1));
            && Possible(src, b, ReceiveChunk(i, 1))
            && var c := Apply(src, names, b, ReceiveChunk(i, 1));
            && var here, there := src[n.receiver.items[i].filename], src[n.sender.items[o].filename];
            && i in c.files
            && c.files[i] == (if i in n.files then n.files[i] else []) + [there[n.sender.items[o].resumeOffset]]
            && (PrefixOf(c.files[i], here) <==> there[n.sender.items[o].resumeOffset] == here[LengthOf(n.files, i)])
  {
    var there, offset := src[n.sender.items[o].filename], n.sender.items[o].resumeOffset;
    var had: Bytes := if i in n.files then n.files[i] else [];
    Joined(src, names, n, o, i);
    var a := ConnectedTo(src, names, n, o, i);
    hide ConnectedTo;
    FirstByte(src, names, a, o, i, |n.conns|, there[offset], had);
    OneMore(had, there[offset], src[n.receiver.items[i].filename]);
  }

  lemma Joined(src: map<string, Bytes>, names: Names, n: Net, o: string, i: string)
    requires Possible(src, n, Connect(o, i))
    ensures var a := ConnectedTo(src, names, n, o, i);
            && o in a.outLink && i in a.inLink && a.outLink[o] == a.inLink[i] == |n.conns| < |a.conns|
            && a.conns[|n.conns|].next == n.sender.items[o].resumeOffset && a.conns[|n.conns|].pipe == []
            && a.conns[|n.conns|].file == n.sender.items[o].filename
            && i in a.files && a.files[i] == (if i in n.files then n.files[i] else [])
            && i in a.receiver.items && a.receiver.items[i].totalBytes == n.receiver.items[i].totalBytes
            && a.receiver.items[i].filename == n.receiver.items[i].filename
            && |a.files[i]| == LengthOf(n.files, i)
  {
  }

  /** One byte crosses a fresh connection. */
  lemma FirstByte(src: map<string, Bytes>, names: Names, a: Net, o: string, i: string, x: nat, byte: bv8, had: Bytes)
    requires o in a.outLink && i in a.inLink && a.outLink[o] == a.inLink[i] == x < |a.conns|
    requires var c := a.conns[x]; c.file in src && c.next < |src[c.file]| && src[c.file][c.next] == byte && c.pipe == []
    requires i in a.files && a.files[i] == had && i in a.receiver.items && |had| < a.receiver.items[i].totalBytes
    ensures Possible(src, a, SendChunk(o, 1))
    ensures var b := Apply(src, names, a, SendChunk(o, 1));
            && Possible(src, b, ReceiveChunk(i, 1))
            && var c := Apply(src, names, b, ReceiveChunk(i, 1));
            i in c.files && c.files[i] == had + [byte]
  {
    var c := a.conns[x];
    var b := Apply(src, names, a, SendChunk(o, 1));
    assert [] + src[c.file][c.next..c.next + 1] == [byte];
    assert b.conns[x].pipe == [byte];
    var one: Bytes := [byte];
    assert one[..1] == one;
  }

  lemma OneMore(had: Bytes, x: bv8, whole: Bytes)
    requires PrefixOf(had, whole) && |had| < |whole|
    ensures PrefixOf(had + [x], whole) <==> x == whole[|had|]
  {
    assert whole[..|had| + 1] == whole[..|had|] + [whole[|had|]];
    assert (had + [x])[|had|] == x && (whole[..|had|] + [whole[|had|]])[|had|] == whole[|had|];
  }

  // ---------------------------------------------------------------- RESUME

  ghost predicate LandsOn(names: Names, s: State, m: Offer, e: ControlEnv, o: string) {
    && s.settings.enabled && m.command == Command.Resume && o != ""
    && FirstMatch(e.order, ResumeRequests(s.items, names.senderNet, names.receiverNick, m)) == o
    && IsResumeRequest(s.items, o, names.senderNet, names.receiverNick, m)
    && 0 <= m.position <= s.items[o].totalBytes
  }

  /** The attempt of a transfer under negotiation and the download that works on its offer are for one
      file. */
  lemma SameFileBothSides(src: map<string, Bytes>, n: Net, o: string, i: string)
    requires Sends(src, n.sender) && Offers(n.sender, n.receiver, n.received) && Attempts(n.sender, n.receiver.sent, n.conns)
    requires o in n.sender.items && n.sender.items[o].status == Negotiating && o in n.sender.workers
    requires i in n.receiver.items && i in n.receiver.offers && KeyOfWorker(n.sender.workers[o]) == KeyOfOffer(n.receiver.offers[i])
    ensures n.sender.items[o].filename == n.receiver.items[i].filename
  {
    var k: nat :| AttemptAt(n.sender, n.receiver.sent, n.conns, o, k);
    var j: nat :| j < n.received && SendOf(n.sender, j, KeyOfOffer(n.receiver.offers[i])) && n.sender.sent[j].offer == n.receiver.offers[i];
    assert j == k;
  }

  lemma MovesOffset(names: Names, s: State, m: Offer, e: ControlEnv, o: string)
    requires LandsOn(names, s, m, e, o)
    ensures var t := HandleControl(s, names.senderNet, names.receiverNick, m, e);
            o in t.items && t.items[o] == s.items[o].(resumeOffset := m.position, transferredBytes := m.position)
  {
  }

  lemma OneFile(src: map<string, Bytes>, n: Net, o: string, i: string)
    requires NetInv(src, n)
    requires o in n.sender.items && n.sender.items[o].status == Negotiating && o in n.sender.workers
    requires i in n.receiver.items && i in n.receiver.offers && KeyOfWorker(n.sender.workers[o]) == KeyOfOffer(n.receiver.offers[i])
    ensures n.sender.items[o].filename == n.receiver.items[i].filename
  {
    hide Scheduler.Inv, Known, Connections, Downloads, Workers, Questions, Asking, Answers, Agreement, Flows, SenderLinks, Prefixes, Attempts, Offers, Sends;
    SameFileBothSides(src, n, o, i);
  }

  lemma CurrentAsksLength(src: map<string, Bytes>, n: Net, o: string, i: string)
    requires NetInv(src, n) && n.answered < |n.receiver.sent| && n.receiver.sent[n.answered].offer.command == Command.Resume
    requires o in n.sender.items && n.sender.items[o].status == Negotiating
    requires CurrentAttempt(n.sender, o, KeyOfOffer(n.receiver.sent[n.answered].offer))
    requires i in n.receiver.items && i in n.receiver.offers && KeyOfWorker(n.sender.workers[o]) == KeyOfOffer(n.receiver.offers[i])
    ensures n.receiver.sent[n.answered].offer.position == LengthOf(n.files, i)
  {
    var k: nat :| AttemptAt(n.sender, n.receiver.sent, n.conns, o, k);
    CurrentQuestion(src, n, o, k);
    assert OpenQuestion(n.receiver, n.conns, n.answered);
  }

  /** A RESUME that is found for a transfer under negotiation moves its offset, whatever attempt it was
      sent for. The data is right for every source exactly if it asks for the length of the partial
      file (or nothing is left to send or to receive), as every RESUME of the current attempt does. */
  lemma LandingResume(src: map<string, Bytes>, names: Names, n: Net, o: string, i: string, e: ControlEnv)
    requires NetInv(src, n) && n.answered < |n.receiver.sent| && LandsOn(names, n.sender, n.receiver.sent[n.answered].offer, e, o)
    requires n.sender.items[o].status == Negotiating && o in n.sender.workers
    requires i in n.receiver.items && i in n.receiver.offers && n.receiver.items[i].status == Connecting
    requires KeyOfWorker(n.sender.workers[o]) == KeyOfOffer(n.receiver.offers[i])
    ensures var m := n.receiver.sent[n.answered].offer;
            var s := HandleControl(n.sender, names.senderNet, names.receiverNick, m, e);
            var total, length := n.receiver.items[i].totalBytes, LengthOf(n.files, i);
            && n.receiver.items[i].resumeOffset == length <= total == n.sender.items[o].totalBytes
            && o in s.items && s.items[o].resumeOffset == m.position
            && (s.items[o].resumeOffset == n.receiver.items[i].resumeOffset <==> m.position == length)
            && (Continues(total, s.items[o].resumeOffset, length) <==> m.position == length || m.position == total || length == total)
            && (CurrentAttempt(n.sender, o, KeyOfOffer(m)) ==> m.position == length)
  {
    hide NetInv, Continues, HandleControl;
    var m := n.receiver.sent[n.answered].offer;
    MovesOffset(names, n.sender, m, e, o);
    OneFile(src, n, o, i);
    if CurrentAttempt(n.sender, o, KeyOfOffer(m)) {
      CurrentAsksLength(src, n, o, i);
    }
    TotalsAgree(src, n, o, i);
    ContinuesExactly(n.receiver.items[i].totalBytes, m.position, LengthOf(n.files, i));
  }

  /** From `n` the step is taken, the two workers connect, and one byte is sent and received. */
  ghost predicate OneByte(src: map<string, Bytes>, names: Names, n: Net, o: string, i: string, first: Step, c: Net) {
    && Possible(src, n, first)
    && ByteFlows(src, names, Apply(src, names, n, first), o, i, c)
  }

  ghost predicate ByteFlows(src: map<string, Bytes>, names: Names, n: Net, o: string, i: string, c: Net) {
    && Possible(src, n, Connect(o, i))
    && var a := ConnectedTo(src, names, n, o, i);
    && Possible(src, a, SendChunk(o, 1))
    && var b := Apply(src, names, a, SendChunk(o, 1));
    && Possible(src, b, ReceiveChunk(i, 1))
    && c == Apply(src, names, b, ReceiveChunk(i, 1))
  }

  lemma OneByteFlows(src: map<string, Bytes>, names: Names, n: Net, o: string, i: string, first: Step, c: Net)
    requires Possible(src, n, first) && ByteFlows(src, names, Apply(src, names, n, first), o, i, c)
    ensures OneByte(src, names, n, o, i, first, c)
  {
  }

  /** Two workers are about to connect when a RESUME is handled that is found for the sender's
      transfer; bytes are left to send and to receive. */
  ghost predicate Overtakes(src: map<string, Bytes>, names: Names, n: Net, o: string, i: string, e: ControlEnv) {
    && Possible(src, n, Connect(o, i))
    && n.answered < |n.receiver.sent| && LandsOn(names, n.sender, n.receiver.sent[n.answered].offer, e, o)
    && n.receiver.sent[n.answered].offer.position < n.sender.items[o].totalBytes
    && LengthOf(n.files, i) < n.receiver.items[i].totalBytes
  }

  /** In `c` the file of download `i` is a prefix of its source exactly if the source holds the same
      byte at `position` and at the length the file had in `n`. */
  ghost predicate DecidedBy(src: map<string, Bytes>, n: Net, i: string, position: int, c: Net) {
    && i in n.receiver.items && i in c.files
    && var f := n.receiver.items[i].filename;
    && f in src && 0 <= position < |src[f]| && LengthOf(n.files, i) < |src[f]|
    && (PrefixOf(c.files[i], src[f]) <==> src[f][position] == src[f][LengthOf(n.files, i)])
  }

  ghost function NextPosition(n: Net): int {
    if n.answered < |n.receiver.sent| then n.receiver.sent[n.answered].offer.position else 0
  }

  /** Whatever RESUME overtakes a connection that would have been right, one byte decides: the file is
      then a prefix of its source exactly if the source holds the same byte at the position of the
      RESUME and at the length of the file. */
  lemma OvertakenConnection(src: map<string, Bytes>, names: Names, n: Net, o: string, i: string, e: ControlEnv) returns (c: Net)
    requires NetInv(src, n) && Overtakes(src, names, n, o, i, e)
    ensures OneByte(src, names, n, o, i, ToSender(e), c)
    ensures DecidedBy(src, n, i, NextPosition(n), c)
  {
    hide NetInv, PrefixOf, Meet, OneByte, ByteFlows, Apply, LandsOn;
    ReadyToConnect(src, n, o, i);
    Overtaken(src, names, n, o, i, e);
    hide Possible, Overtakes;
    c := ByteAfter(src, names, Apply(src, names, n, ToSender(e)), o, i);
    OneByteFlows(src, names, n, o, i, ToSender(e), c);
  }

  /** The RESUME moves the sender's offset, and the workers can still meet. */
  lemma Overtaken(src: map<string, Bytes>, names: Names, n: Net, o: string, i: string, e: ControlEnv)
    requires Overtakes(src, names, n, o, i, e)
    ensures Possible(src, n, ToSender(e))
    ensures var t := Apply(src, names, n, ToSender(e));
            && t.receiver == n.receiver && t.files == n.files && Possible(src, t, Connect(o, i))
            && o in n.sender.items && o in t.sender.items
            && t.sender.items[o].filename == n.sender.items[o].filename
            && t.sender.items[o].resumeOffset == NextPosition(n) && 0 <= NextPosition(n) < n.sender.items[o].totalBytes
  {
    hide Meet;
    var m := n.receiver.sent[n.answered].offer;
    MovesOffset(names, n.sender, m, e, o);
    KeepsWorkers(names, n.sender, m, e);
    hide HandleControl;
    StillPossible(src, n, Apply(src, names, n, ToSender(e)), o, i);
  }

  lemma StillPossible(src: map<string, Bytes>, n: Net, t: Net, o: string, i: string)
    requires Possible(src, n, Connect(o, i)) && t.receiver == n.receiver && t.files == n.files
    requires o in t.sender.items && t.sender.items[o].status == Negotiating && 0 <= t.sender.items[o].resumeOffset
    requires t.sender.workers == n.sender.workers
    ensures Possible(src, t, Connect(o, i))
  {
    hide Meet;
  }

  lemma ByteAfter(src: map<string, Bytes>, names: Names, n: Net, o: string, i: string) returns (c: Net)
    requires Possible(src, n, Connect(o, i)) && o in n.sender.items && i in n.receiver.items
    requires var f := n.receiver.items[i].filename;
             && f == n.sender.items[o].filename && f in src && 0 <= n.sender.items[o].resumeOffset < |src[f]|
             && n.receiver.items[i].totalBytes == |src[f]| && LengthOf(n.files, i) < |src[f]|
             && (i in n.files ==> PrefixOf(n.files[i], src[f]))
    ensures ByteFlows(src, names, n, o, i, c)
    ensures var f := n.receiver.items[i].filename;
            i in c.files && (PrefixOf(c.files[i], src[f]) <==> src[f][n.sender.items[o].resumeOffset] == src[f][LengthOf(n.files, i)])
  {
    FirstByteDecides(src, names, n, o, i);
    hide Apply, PrefixOf, ConnectedTo;
    var a := ConnectedTo(src, names, n, o, i);
    var b := Apply(src, names, a, SendChunk(o, 1));
    c := Apply(src, names, b, ReceiveChunk(i, 1));
  }

  lemma KeepsWorkers(names: Names, s: State, m: Offer, e: ControlEnv)
    requires m.command == Command.Resume
    ensures HandleControl(s, names.senderNet, names.receiverNick, m, e).workers == s.workers
  {
  }

  lemma ReadyToConnect(src: map<string, Bytes>, n: Net, o: string, i: string)
    requires NetInv(src, n) && Possible(src, n, Connect(o, i))
    ensures var f := n.receiver.items[i].filename;
            && f == n.sender.items[o].filename && f in src
            && |src[f]| == n.receiver.items[i].totalBytes == n.sender.items[o].totalBytes
            && n.sender.items[o].resumeOffset == n.receiver.items[i].resumeOffset
            && (i in n.files ==> PrefixOf(n.files[i], src[f]))
  {
    hide Scheduler.Inv, Sends, Attempts, Connections, Offers, Workers, Questions, Asking, Answers, Agreement, Flows, SenderLinks, Meet, PrefixOf;
    MeetingAgrees(src, n, o, i);
    assert n.sender.items[o].direction == Outgoing by {
      Negotiates(n.sender, o);
    }
    hide Known, Downloads, Prefixes;
  }

  lemma Negotiates(s: State, o: string)
    requires Scheduler.Inv(s) && o in s.items && s.items[o].status == Negotiating
    ensures s.items[o].direction == Outgoing
  {
  }

  lemma TotalsAgree(src: map<string, Bytes>, n: Net, o: string, i: string)
    requires NetInv(src, n) && o in n.sender.items && n.sender.items[o].direction == Outgoing
    requires i in n.receiver.items && n.sender.items[o].filename == n.receiver.items[i].filename && n.receiver.items[i].status == Connecting
    ensures n.sender.items[o].totalBytes == n.receiver.items[i].totalBytes
    ensures n.receiver.items[i].resumeOffset == LengthOf(n.files, i) <= n.receiver.items[i].totalBytes
  {
  }

  // ---------------------------------------------------------------- RESUME for a waiting transfer

  /** Beginning a transfer leaves every offset where it is. */
  lemma {:induction false} StartNextKeepsOffsets(q: State, env: Env, o: string)
    requires o in q.items
    ensures o in StartNext(q, env).items && StartNext(q, env).items[o].resumeOffset == q.items[o].resumeOffset
    decreases |q.queue|
  {
    if q.active != "" || |q.queue| == 0 || !q.settings.enabled {
    } else {
      var id := q.queue[0];
      var popped := q.(queue := q.queue[1..]);
      if id !in q.items || q.items[id].status != Queued {
        StartNextKeepsOffsets(popped, env, o);
      } else if Refuses(q.settings, env(id)) {
        var r := Idled(Rejected(popped.(active := id), id, env(id)), id);
        assert o in r.items && r.items[o].resumeOffset == q.items[o].resumeOffset;
        StartNextKeepsOffsets(r, env, o);
      }
    }
  }

  /** A RESUME that is found for a transfer still waiting in the queue stays in its record: the next
      announcement begins at its position. A download that begins without a partial file agrees with
      that attempt, and gets right data for every source, exactly if the position was zero (or the
      whole file, when nothing is left to send). */
  lemma LandingOnQueued(names: Names, s: State, m: Offer, e: ControlEnv, o: string, q: State, env: Env, r: State, i: string)
    requires LandsOn(names, s, m, e, o) && s.items[o].status == Queued
    requires var t := HandleControl(s, names.senderNet, names.receiverNick, m, e);
             o in t.items && o in q.items && q.items[o] == t.items[o]
    requires Scheduler.Pending(q) && q.active == "" && StartNext(q, env).active == o
    requires i in r.items && i in r.offers && r.items[i].resumeOffset == 0
    requires o in StartNext(q, env).workers && KeyOfOffer(r.offers[i]) == KeyOfWorker(StartNext(q, env).workers[o])
    ensures var u := StartNext(q, env);
            && o in u.items && u.items[o].status == Negotiating && u.items[o].resumeOffset == m.position
            && (AgreesFor(u, r, i) <==> m.position == 0)
            && (Continues(s.items[o].totalBytes, u.items[o].resumeOffset, 0) <==> m.position == 0 || m.position == s.items[o].totalBytes)
  {
    var u := StartNext(q, env);
    StartNextKeepsOffsets(q, env, o);
    StartedNegotiates(q, env);
    ContinuesExactly(s.items[o].totalBytes, m.position, 0);
    Scheduler.StartNextInv(q, env);
    hide StartNext, Continues;
    assert forall x :: x in u.items && u.items[x].status == Negotiating ==> u.items[x].direction == Outgoing && x == o;
  }

  lemma {:induction false} StartedNegotiates(q: State, env: Env)
    requires q.active == "" && StartNext(q, env).active != ""
    ensures var u := StartNext(q, env); u.active in u.items && u.items[u.active].status == Negotiating
    decreases |q.queue|
  {
    if |q.queue| == 0 || !q.settings.enabled {
    } else {
      var id := q.queue[0];
      var popped := q.(queue := q.queue[1..]);
      if id !in q.items || q.items[id].status != Queued {
        StartedNegotiates(popped, env);
      } else if Refuses(q.settings, env(id)) {
        StartedNegotiates(Idled(Rejected(popped.(active := id), id, env(id)), id), env);
      }
    }
  }

  // ---------------------------------------------------------------- passive answers

  /** The download that listens where a passive answer points was made for the offer the answer names. */
  lemma AnswersItsOffer(src: map<string, Bytes>, n: Net, i: string)
    requires Sends(src, n.sender) && Offers(n.sender, n.receiver, n.received) && Workers(n.receiver) && Answers(n.sender, n.receiver)
    requires n.answered < |n.receiver.sent| && n.receiver.sent[n.answered].offer.command == Send
    requires i in n.receiver.items && i in n.receiver.workers && n.receiver.workers[i].ListenReceive?
    requires n.receiver.workers[i].port == n.receiver.sent[n.answered].offer.port
    ensures i in n.receiver.offers && KeyOfOffer(n.receiver.offers[i]) == Key(0, n.receiver.sent[n.answered].offer.token)
  {
    var r := n.receiver;
    var j: nat :| IsAnswer(r, j, r.workers[i].port, r.workers[i].offer.token);
    assert j == n.answered;
    assert i in r.offers;
    var k: nat :| k < n.received && SendOf(n.sender, k, KeyOfOffer(r.offers[i])) && n.sender.sent[k].offer == r.offers[i];
    assert WellFormedSend(src, r.offers[i]);
  }

  /** A passive answer makes the transfer it is found for dial the download that sent it, and leaves
      the offset alone. The data is right for every source exactly if the two offsets coincide (or
      nothing is left to send or to receive); they do if the answer was sent for the current attempt,
      which is exactly when the transfer keeps to that attempt. */
  lemma LandingAnswer(src: map<string, Bytes>, names: Names, n: Net, o: string, i: string, e: ControlEnv)
    requires NetInv(src, n) && n.answered < |n.receiver.sent| && n.sender.settings.enabled
    requires var m := n.receiver.sent[n.answered].offer;
             && m.command == Send && m.token != "" && m.port > 0 && o != ""
             && FirstMatch(e.order, PassiveReplies(n.sender.items, names.senderNet, names.receiverNick, m)) == o
             && IsPassiveReply(n.sender.items, o, names.senderNet, names.receiverNick, m)
             && i in n.receiver.items && n.receiver.items[i].status == Connecting
             && i in n.receiver.workers && n.receiver.workers[i].ListenReceive? && n.receiver.workers[i].port == m.port
    requires o in n.sender.workers && n.sender.items[o].filename == n.receiver.items[i].filename
    ensures var m := n.receiver.sent[n.answered].offer;
            var t := HandleControl(n.sender, names.senderNet, names.receiverNick, m, e);
            var total, length := n.receiver.items[i].totalBytes, LengthOf(n.files, i);
            && o in t.items && t.items[o].resumeOffset == n.sender.items[o].resumeOffset && 0 <= t.items[o].resumeOffset
            && o in t.workers && Meet(t.workers[o], n.receiver.workers[i])
            && (KeyOfWorker(t.workers[o]) == KeyOfWorker(n.sender.workers[o]) <==> CurrentAttempt(n.sender, o, Key(0, m.token)))
            && (t.items[o].resumeOffset == n.receiver.items[i].resumeOffset
                <==> CurrentAttempt(n.sender, o, Key(0, m.token)) || n.sender.items[o].resumeOffset == length)
            && (Continues(total, t.items[o].resumeOffset, length)
                <==> (|| CurrentAttempt(n.sender, o, Key(0, m.token)) || n.sender.items[o].resumeOffset == length
                      || n.sender.items[o].resumeOffset == total || length == total))
  {
    var m := n.receiver.sent[n.answered].offer;
    hide NetInv, Continues, HandleControl, PassiveReplies, FirstMatch, SamePeer;
    AnswerTaken(names, n.sender, m, e, o);
    AnswerFacts(src, n, o, i, m);
    TotalsAgree(src, n, o, i);
    hide Meet, CurrentAttempt, KeyOfWorker;
    AnswerLands(n.sender, n.receiver, o, i, m);
    ContinuesExactly(n.receiver.items[i].totalBytes, n.sender.items[o].resumeOffset, LengthOf(n.files, i));
  }

  /** The answer replaces the worker and leaves the offset. */
  lemma AnswerLands(s: State, r: State, o: string, i: string, m: Offer)
    requires o in s.items && o in s.workers && s.items[o].status == Negotiating
    requires i in r.workers && r.workers[i].ListenReceive? && r.workers[i].port == m.port
    ensures var t := PassiveReply(s, o, m);
            && o in t.items && t.items[o].resumeOffset == s.items[o].resumeOffset
            && o in t.workers && Meet(t.workers[o], r.workers[i])
            && (KeyOfWorker(t.workers[o]) == KeyOfWorker(s.workers[o]) <==> CurrentAttempt(s, o, Key(0, m.token)))
  {
  }

  lemma AnswerTaken(names: Names, s: State, m: Offer, e: ControlEnv, o: string)
    requires s.settings.enabled && m.command == Send && m.token != "" && m.port > 0 && o != "" && o in s.items
    requires FirstMatch(e.order, PassiveReplies(s.items, names.senderNet, names.receiverNick, m)) == o
    ensures HandleControl(s, names.senderNet, names.receiverNick, m, e) == PassiveReply(s, o, m)
  {
  }

  /** A passive answer is handled that is found for `o`, download `i` listens where it points and is for
      the same file, and bytes are left to send and to receive. */
  ghost predicate Calls(names: Names, n: Net, o: string, i: string, e: ControlEnv) {
    && n.answered < |n.receiver.sent| && n.sender.settings.enabled
    && var m := n.receiver.sent[n.answered].offer;
    && m.command == Send && m.token != "" && m.port > 0 && o != ""
    && FirstMatch(e.order, PassiveReplies(n.sender.items, names.senderNet, names.receiverNick, m)) == o
    && IsPassiveReply(n.sender.items, o, names.senderNet, names.receiverNick, m)
    && i in n.receiver.items && n.receiver.items[i].status == Connecting
    && i in n.receiver.workers && n.receiver.workers[i].ListenReceive? && n.receiver.workers[i].port == m.port
    && o in n.sender.workers && n.sender.items[o].filename == n.receiver.items[i].filename
    && 0 <= n.sender.items[o].resumeOffset < n.sender.items[o].totalBytes
    && (if n.receiver.items[i].resumeOffset == 0 then i !in n.files else i in n.files)
    && LengthOf(n.files, i) < n.receiver.items[i].totalBytes
  }

  function OffsetOfItem(s: State, o: string): int {
    if o in s.items then s.items[o].resumeOffset else 0
  }

  /** Whatever attempt a passive answer was sent for, one byte decides in the same way: the sender dials
      the download that sent it and reads on at the offset it had. */
  lemma AnsweredConnection(src: map<string, Bytes>, names: Names, n: Net, o: string, i: string, e: ControlEnv) returns (c: Net)
    requires NetInv(src, n) && Calls(names, n, o, i, e)
    ensures OneByte(src, names, n, o, i, ToSender(e), c)
    ensures DecidedBy(src, n, i, OffsetOfItem(n.sender, o), c)
  {
    hide NetInv, PrefixOf, Meet, OneByte, ByteFlows, Apply, IsPassiveReply, FirstMatch, PassiveReplies;
    CalledFile(src, n, i);
    TotalsOfCalls(src, names, n, o, i, e);
    Called(src, names, n, o, i, e);
    hide Possible, Calls;
    c := ByteAfter(src, names, Apply(src, names, n, ToSender(e)), o, i);
    OneByteFlows(src, names, n, o, i, ToSender(e), c);
  }

  lemma TotalsOfCalls(src: map<string, Bytes>, names: Names, n: Net, o: string, i: string, e: ControlEnv)
    requires NetInv(src, n) && Calls(names, n, o, i, e)
    ensures n.sender.items[o].totalBytes == n.receiver.items[i].totalBytes
    ensures n.receiver.items[i].resumeOffset == LengthOf(n.files, i)
  {
    hide NetInv, FirstMatch, PassiveReplies, LengthOf;
    TotalsAgree(src, n, o, i);
  }

  /** The files of a download under way. */
  lemma CalledFile(src: map<string, Bytes>, n: Net, i: string)
    requires NetInv(src, n) && i in n.receiver.items
    ensures var f := n.receiver.items[i].filename;
            f in src && |src[f]| == n.receiver.items[i].totalBytes && (i in n.files ==> PrefixOf(n.files[i], src[f]))
  {
    hide Scheduler.Inv, Known, Sends, Attempts, Connections, Offers, Workers, Questions, Asking, Answers, Agreement, Flows, SenderLinks, PrefixOf;
  }

  lemma Called(src: map<string, Bytes>, names: Names, n: Net, o: string, i: string, e: ControlEnv)
    requires Calls(names, n, o, i, e) && n.receiver.items[i].resumeOffset == LengthOf(n.files, i)
    ensures Possible(src, n, ToSender(e))
    ensures var t := Apply(src, names, n, ToSender(e));
            && t.receiver == n.receiver && t.files == n.files && Possible(src, t, Connect(o, i))
            && o in n.sender.items && o in t.sender.items
            && t.sender.items[o].filename == n.sender.items[o].filename
            && t.sender.items[o].resumeOffset == n.sender.items[o].resumeOffset
  {
    var m := n.receiver.sent[n.answered].offer;
    AnswerTaken(names, n.sender, m, e, o);
    AnswerLands(n.sender, n.receiver, o, i, m);
    hide HandleControl, FirstMatch, PassiveReplies, Meet;
  }

  lemma AnswerFacts(src: map<string, Bytes>, n: Net, o: string, i: string, m: Offer)
    requires NetInv(src, n) && n.answered < |n.receiver.sent| && m == n.receiver.sent[n.answered].offer && m.command == Send
    requires o in n.sender.items && n.sender.items[o].status == Negotiating && o in n.sender.workers
    requires i in n.receiver.items && n.receiver.items[i].status == Connecting
    requires i in n.receiver.workers && n.receiver.workers[i].ListenReceive? && n.receiver.workers[i].port == m.port
    ensures 0 <= n.sender.items[o].resumeOffset <= n.sender.items[o].totalBytes
    ensures CurrentAttempt(n.sender, o, Key(0, m.token)) ==> n.sender.items[o].resumeOffset == n.receiver.items[i].resumeOffset
  {
    assert Scheduler.CountersOk(n.sender.items[o]);
    hide Scheduler.Inv, Known, Attempts, Connections, Downloads, Questions, Asking, Flows, SenderLinks, Prefixes, Sends, Offers, Workers, Answers, Agreement;
    AnswersItsOffer(src, n, i);
    AnswerAgrees(n, o, i, m);
  }

  lemma AnswerAgrees(n: Net, o: string, i: string, m: Offer)
    requires Agreement(n.sender, n.receiver) && o in n.sender.items && n.sender.items[o].status == Negotiating && o in n.sender.workers
    requires i in n.receiver.items && n.receiver.items[i].status == Connecting && i in n.receiver.workers && i in n.receiver.offers
    requires KeyOfOffer(n.receiver.offers[i]) == Key(0, m.token)
    ensures CurrentAttempt(n.sender, o, Key(0, m.token)) ==> n.sender.items[o].resumeOffset == n.receiver.items[i].resumeOffset
  {
  }
}
