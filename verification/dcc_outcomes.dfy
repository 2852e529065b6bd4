/** What becomes of a transfer: how it ends, how it is interrupted and taken up again, and whom a control
    message can affect. Stated on the steps of module DccScheduler. */
module DccOutcomes {
  import opened DccTypes
  import opened DccNames
  import opened DccManager
  import Scheduler = DccScheduler

  /** The scheduler touches waiting transfers only, and no worker of another. */
  lemma {:induction false} StartNextLeaves(s: State, env: Env, x: string)
    requires x in s.items
    ensures var r := StartNext(s, env);
            && x in r.items && r.offers == s.offers && r.settings == s.settings
            && (s.items[x].status != Queued ==>
                  && r.items[x] == s.items[x]
                  && (x in r.workers <==> x in s.workers) && (x in s.workers ==> r.workers[x] == s.workers[x]))
    decreases |s.queue|
  {
    if s.active != "" || |s.queue| == 0 || !s.settings.enabled {
    } else {
      var id := s.queue[0];
      var popped := s.(queue := s.queue[1..]);
      if id !in s.items || s.items[id].status != Queued {
        StartNextLeaves(popped, env, x);
      } else if Refuses(s.settings, env(id)) {
        StartNextLeaves(Idled(Rejected(popped.(active := id), id, env(id)), id), env, x);
      }
    }
  }

  /** Nothing but status and flag of a record changed. */
  predicate OnlyEnds(t: Transfer, u: Transfer) {
    u == t.(status := u.status, resumable := u.resumable)
  }

  /** A download with bytes in its partial file. */
  predicate HasBytes(t: Transfer) {
    t.direction == Incoming && t.hasPartial && t.transferredBytes > 0
  }

  /** A transfer that fails or is aborted becomes Resumable exactly if it is a download with bytes in a
      partial file that is still there; otherwise it is Canceled or Failed. Its worker is gone. */
  lemma FailureOutcome(s: State, id: string, canceled: bool, partialExists: bool, env: Env)
    requires id in s.items
    ensures var r := Scheduler.Apply(s, Scheduler.WorkerFailed(id, canceled, partialExists, env));
            && id in r.items && id !in r.workers
            && var t, u := s.items[id], r.items[id];
            && OnlyEnds(t, u)
            && (u.status == Resumable <==> HasBytes(t) && partialExists)
            && (u.resumable <==> t.resumable || (HasBytes(t) && partialExists))
            && (u.status != Resumable ==> u.status == if canceled then Canceled else Failed)
  {
    StartNextLeaves(Idled(Finished(s, id, canceled, partialExists), id), env, id);
    hide StartNext;
  }

  /** Cancel: refused exactly for what is neither active nor resumable; a download with bytes becomes or
      stays Resumable, anything else is Canceled. */
  lemma CancelOutcome(s: State, id: string, env: Env)
    requires id in s.items
    ensures var r := Scheduler.Apply(s, Scheduler.CancelItem(id, env));
            && id in r.items
            && var t, u := s.items[id], r.items[id];
               if t.status.Active() || t.status == Resumable then
                 && id !in r.workers && OnlyEnds(t, u)
                 && u.status == (if HasBytes(t) then Resumable else Canceled)
                 && (u.resumable <==> t.resumable || HasBytes(t))
               else r == s
  {
    if CanCancel(s, id) {
      StartNextLeaves(Idled(CanceledState(s, id), id), env, id);
    }
    hide StartNext;
  }

  /** The last stored record of an identifier. */
  predicate LastStored(stored: seq<Stored>, id: string, k: nat) {
    k < |stored| && stored[k].id == id && forall j :: k < j < |stored| ==> stored[j].id != id
  }

  lemma {:induction false} RestoredEach(items: map<string, Transfer>, stored: seq<Stored>, id: string)
    ensures (forall k :: 0 <= k < |stored| ==> stored[k].id != id) ==>
              (id in RestoreEach(items, stored) <==> id in items) && (id in items ==> RestoreEach(items, stored)[id] == items[id])
    ensures forall k: nat :: LastStored(stored, id, k) ==> id in RestoreEach(items, stored) && RestoreEach(items, stored)[id] == RestoredItem(stored[k].record)
    decreases |stored|
  {
    if stored != [] {
      var rest := stored[1..];
      RestoredEach(items[stored[0].id := RestoredItem(stored[0].record)], rest, id);
      assert forall k :: 0 <= k < |rest| ==> rest[k] == stored[k + 1];
      forall k: nat | LastStored(stored, id, k) && k > 0 ensures LastStored(rest, id, k - 1) {
        assert forall j :: k - 1 < j < |rest| ==> rest[j] == stored[j + 1];
      }
    }
  }

  /** After a restart every stored record is back. What was active is Resumable exactly if it is a
      download with bytes, and Failed otherwise; what was at rest is as it was. Nothing runs. */
  lemma RestartOutcome(settings: Settings, stored: seq<Stored>, id: string, k: nat)
    requires LastStored(stored, id, k)
    ensures var s := Restored(settings, stored);
            && s.workers == map[] && s.queue == [] && s.active == "" && s.sent == []
            && id in s.items
            && var t, u := stored[k].record, s.items[id];
               if t.status.Active() then
                 && OnlyEnds(t, u)
                 && u.status == (if HasBytes(t) then Resumable else Failed)
                 && (u.resumable <==> t.resumable || HasBytes(t))
               else u == t
  {
    RestoredEach(map[], stored, id);
  }

  /** A worker that is done: the transfer is Completed with all its bytes counted, not resumable, without
      worker; a report about anything not in flight changes nothing. */
  lemma DoneOutcome(s: State, id: string, env: Env)
    requires id in s.items
    ensures var r := Scheduler.Apply(s, Scheduler.WorkerDone(id, env));
            if s.items[id].status == Transferring then
              && id in r.items && id !in r.workers
              && r.items[id].status == Completed && r.items[id].transferredBytes == s.items[id].totalBytes && !r.items[id].resumable
              && r.items[id].filename == s.items[id].filename && r.items[id].totalBytes == s.items[id].totalBytes
              && (r.items[id].fileAvailable <==> s.items[id].direction == Incoming || s.items[id].fileAvailable)
            else r == s
  {
    if s.items[id].status == Transferring {
      StartNextLeaves(Idled(s.(items := s.items[id := CompletedItem(s.items[id])], workers := s.workers - {id}), id), env, id);
    }
    hide StartNext;
  }

  /** A worker that has its connection: exactly a transfer under negotiation or connecting is then in
      flight. Its reports move the count of a transfer in flight and nothing else. */
  lemma FlightOutcome(s: State, id: string, count: int)
    requires id in s.items
    ensures var t := s.items[id];
            && Scheduler.Apply(s, Scheduler.WorkerConnected(id))
               == (if t.status == Negotiating || t.status == Connecting then s.(items := s.items[id := t.(status := Transferring)]) else s)
            && Scheduler.Apply(s, Scheduler.WorkerProgress(id, count))
               == (if t.status == Transferring then s.(items := s.items[id := t.(transferredBytes := count)]) else s)
  {
  }

  // ---------------------------------------------------------------- queueing

  /** A picked file as it is announced later: an upload of all its bytes, from the first on. */
  function Picked(networkID: int, peer: string, f: File): Transfer {
    Transfer(networkID, peer, Outgoing, f.name, false, f.size, 0, Queued, "", 0, "", 0, true, false)
  }

  lemma {:induction false} EnqueuedEach(s: State, networkID: int, peer: string, files: seq<File>, k: nat)
    requires k < |files| && Scheduler.FreshFiles(s, files)
    ensures var r := Enqueued(s, networkID, peer, files);
            && files[k].id in r.items && r.items[files[k].id] == Picked(networkID, peer, files[k])
            && r.settings == s.settings && r.active == s.active && r.sent == s.sent
            && forall x :: x in s.items ==> x in r.items && r.items[x] == s.items[x]
    decreases |files|
  {
    var f := files[0];
    var one := s.(items := s.items[f.id := NewOutgoing(networkID, peer, f)], queue := s.queue + [f.id]);
    assert Scheduler.FreshFiles(one, files[1..]) by {
      forall j | 0 <= j < |files[1..]| ensures files[1..][j].id !in one.items {
        assert files[1..][j] == files[j + 1];
      }
      assert forall i, j :: 0 <= i < j < |files[1..]| ==> files[1..][i] == files[i + 1] && files[1..][j] == files[j + 1];
    }
    if |files| > 1 {
      EnqueuedEach(one, networkID, peer, files[1..], if k > 0 then k - 1 else 0);
    } else {
      assert files[1..] == [];
    }
  }

  /** Picked files are refused together, with nothing changed, iff transfers are off or one of them is not
      a regular file or has an unsafe name. Otherwise each is an upload; those whose turn has not
      come wait with their whole length to go. */
  lemma QueueOutcome(s: State, networkID: int, peer: string, files: seq<File>, env: Env, k: nat)
    requires k < |files| && Scheduler.FreshFiles(s, files)
    ensures var r := Scheduler.Apply(s, Scheduler.QueueFiles(networkID, peer, files, env));
            if s.settings.enabled && forall j :: 0 <= j < |files| ==> files[j].regular && SafeFilename(files[j].name) then
              && files[k].id in r.items
              && var u := r.items[files[k].id];
              && (u.status == Queued ==> u == Picked(networkID, peer, files[k]))
              && Upload(Picked(networkID, peer, files[k]), u)
            else r == s
  {
    if s.settings.enabled && Selectable(files) {
      EnqueuedEach(s, networkID, peer, files, k);
      StartNextWaiting(Enqueued(s, networkID, peer, files), env, files[k].id);
    }
    hide StartNext, Enqueued, SafeFilename;
  }

  /** The same upload: only its status and how it is negotiated may differ. */
  predicate Upload(t: Transfer, u: Transfer) {
    u == t.(status := u.status, address := u.address, port := u.port, token := u.token)
    && (u.status == Queued || u.status == Negotiating || u.status == Failed)
  }

  lemma PreparedUpload(t: Transfer, settings: Settings, b: Begin)
    requires t.direction == Outgoing && t.status == Queued
    ensures var u := Prepared(t, settings, b);
            Upload(t, u) && u.status == Negotiating
    ensures var v := FinishedItem(Prepared(t, settings, b), false, false);
            Upload(t, v) && v.status == Failed
    ensures Upload(t, t)
  {
  }

  /** What the scheduler may do to a waiting upload. */
  lemma {:induction false} StartNextWaiting(s: State, env: Env, x: string)
    requires x in s.items && s.items[x].status == Queued && s.items[x].direction == Outgoing
    ensures var r := StartNext(s, env);
            && x in r.items && Upload(s.items[x], r.items[x])
            && (r.items[x].status == Queued ==> r.items[x] == s.items[x])
    decreases |s.queue|
  {
    hide Upload, Prepared, FinishedItem, Refuses;
    PreparedUpload(s.items[x], s.settings, env(x));
    if s.active != "" || |s.queue| == 0 || !s.settings.enabled {
    } else {
      var id := s.queue[0];
      var popped := s.(queue := s.queue[1..]);
      if id !in s.items || s.items[id].status != Queued {
        StartNextWaiting(popped, env, x);
      } else if Refuses(s.settings, env(id)) {
        var q := Idled(Rejected(popped.(active := id), id, env(id)), id);
        if x == id {
          StartNextLeaves(q, env, x);
        } else {
          StartNextWaiting(q, env, x);
        }
      }
    }
  }

  /** Retry is refused, with nothing changed, unless transfers are on, the upload failed or was canceled
      and its source is there. It then waits again, or has its turn, from byte zero. */
  lemma RetryOutcome(s: State, id: string, available: bool, env: Env)
    requires id in s.items
    ensures var t := s.items[id];
            var r := Scheduler.Apply(s, Scheduler.RetryItem(id, available, env));
            if s.settings.enabled && available && t.direction == Outgoing && (t.status == Failed || t.status == Canceled) then
              && id in r.items
              && Upload(t.(status := Queued, transferredBytes := 0, resumeOffset := 0, resumable := false), r.items[id])
            else r == s
  {
    if CanRetry(s, id, available) {
      StartNextWaiting(Requeued(s, id), env, id);
    }
    hide StartNext;
  }

  // ---------------------------------------------------------------- settings and history

  /** Something is under way. */
  ghost predicate UnderWay(s: State) {
    s.workers != map[] || s.active != "" || s.queue != [] || exists id :: id in s.items && s.items[id].status.Active()
  }

  lemma {:induction false} CancelEachSettings(s: State, ids: seq<string>, env: Env)
    requires !s.settings.enabled
    ensures CancelEach(s, ids, env).settings == s.settings
    decreases |ids|
  {
    if ids != [] {
      CancelEachSettings(Cancel(s, ids[0], env), ids[1..], env);
    }
  }

  /** New settings are refused, with nothing changed, iff they would turn transfers off under way without
      permission to cancel. Otherwise they hold, and without permission to cancel nothing else changes. */
  lemma SettingsOutcome(s: State, settings: Settings, cancelActive: bool, ids: seq<string>, env: Env)
    ensures var r := Scheduler.Apply(s, Scheduler.ChangeSettings(settings, cancelActive, ids, env));
            if !settings.enabled && !cancelActive && UnderWay(s) then r == s
            else
              && r.settings == settings
              && (settings.enabled || !cancelActive ==> r == s.(settings := settings))
  {
    assert |s.workers| > 0 <==> s.workers != map[];
    if !settings.enabled && cancelActive {
      CancelEachSettings(s.(settings := settings), ids, env);
    }
  }

  /** Declining and forgetting: only an offered download is declined; only a resumable one with a partial
      file is discarded, with its offer; only what is neither active nor resumable leaves the history. */
  lemma HistoryOutcome(s: State, id: string)
    requires id in s.items
    ensures var t := s.items[id];
            && Scheduler.Apply(s, Scheduler.DeclineItem(id))
               == (if t.status == Offered then s.(items := s.items[id := t.(status := Declined)]) else s)
            && Scheduler.Apply(s, Scheduler.Discard(id))
               == (if t.resumable && t.hasPartial then s.(items := s.items - {id}, offers := s.offers - {id}) else s)
            && Scheduler.Apply(s, Scheduler.Forget(id))
               == (if t.status.Active() || t.resumable then s else s.(items := s.items - {id}))
            && var r := Scheduler.Apply(s, Scheduler.ForgetAll);
            && r == s.(items := r.items) && r.items.Keys <= s.items.Keys
            && (id in r.items <==> t.status.Active() || t.resumable) && (id in r.items ==> r.items[id] == t)
  {
  }

  // ---------------------------------------------------------------- accepting

  /** The user may accept this transfer now. */
  predicate Acceptable(s: State, id: string, e: AcceptEnv) {
    && s.settings.enabled && id in s.items && e.destination != ""
    && var t := s.items[id];
    && t.direction == Incoming && (t.status == Offered || t.status == Resumable)
    && (t.hasPartial || (e.lstat == Absent && e.directoryReady))
  }

  function PartialSize(e: AcceptEnv): int {
    if e.partial.PartialFile? then e.partial.size else 0
  }

  /** The partial file is a regular one within the total, and there is room for the rest. */
  predicate RoomFor(t: Transfer, e: AcceptEnv) {
    && (e.partial.PartialFile? ==> e.partial.regular && e.partial.size <= t.totalBytes)
    && e.freeSpace >= 0 && e.freeSpace + PartialSize(e) >= t.totalBytes
  }

  /** The peer got the RESUME; or, from byte zero, the offer can be dialed or answered with a listener. */
  predicate PeerReached(s: State, offer: Offer, e: AcceptEnv) {
    if PartialSize(e) > 0 then e.delivered
    else !offer.passive || (s.settings.advertised != "" && e.receive.listens && e.receive.address != "" && e.receive.delivered)
  }

  /** The SEND that tells the peer where a download listens, under the token of its offer. */
  function ListenerAnnounced(t: Transfer, offer: Offer, v: ReceiveEnv): Control {
    Control(t.networkID, t.peer, Offer(Send, t.filename, v.address, v.port, t.totalBytes, 0, offer.token, v.port == 0))
  }

  /** Accept connects exactly if all of that holds; the transfer then starts from the length of the
      partial file, which the peer was asked for if it is not zero. */
  lemma AcceptOutcome(s: State, id: string, e: AcceptEnv, env: Env)
    requires id in s.items && s.items[id].status != Connecting
    ensures var r := Scheduler.Apply(s, Scheduler.AcceptItem(id, e, env));
            && id in r.items
            && var t, u, size := s.items[id], r.items[id], PartialSize(e);
            && var offer := if id in s.offers then s.offers[id] else ZERO_OFFER;
            && (u.status == Connecting <==> Acceptable(s, id, e) && RoomFor(t, e) && PeerReached(s, offer, e))
            && (u.status == Connecting ==>
                  && u == t.(status := Connecting, hasPartial := true, resumeOffset := size, transferredBytes := size)
                  && (size > 0 ==>
                        && r.workers == s.workers
                        && r.sent == s.sent + [Control(t.networkID, t.peer, Offer(Resume, t.filename, "", offer.port, 0, size, offer.token, offer.port == 0))])
                  && (size <= 0 ==>
                        && id in r.workers
                        && r.workers[id] == (if offer.passive then ListenReceive(e.receive.port, offer) else DialReceive(offer))
                        && r.sent == s.sent + (if offer.passive then [ListenerAnnounced(t, offer, e.receive)] else [])))
            && (!Acceptable(s, id, e) ==> r == s)
            && (Acceptable(s, id, e) && !RoomFor(t, e) ==> r == s.(items := s.items[id := t.(hasPartial := true)]))
  {
    if Acceptable(s, id, e) && RoomFor(s.items[id], e) {
      AcceptRoom(s, id, e, env);
    }
  }

  lemma AcceptRoom(s: State, id: string, e: AcceptEnv, env: Env)
    requires id in s.items && s.items[id].status != Connecting && Acceptable(s, id, e) && RoomFor(s.items[id], e)
    ensures var r := AcceptTransfer(s, id, e, env);
            && id in r.items
            && var t, u, size := s.items[id], r.items[id], PartialSize(e);
            && var offer := if id in s.offers then s.offers[id] else ZERO_OFFER;
            && (u.status == Connecting <==> PeerReached(s, offer, e))
            && (u.status == Connecting ==>
                  && u == t.(status := Connecting, hasPartial := true, resumeOffset := size, transferredBytes := size)
                  && (size > 0 ==>
                        && r.workers == s.workers
                        && r.sent == s.sent + [Control(t.networkID, t.peer, Offer(Resume, t.filename, "", offer.port, 0, size, offer.token, offer.port == 0))])
                  && (size <= 0 ==>
                        && id in r.workers
                        && r.workers[id] == (if offer.passive then ListenReceive(e.receive.port, offer) else DialReceive(offer))
                        && r.sent == s.sent + (if offer.passive then [ListenerAnnounced(t, offer, e.receive)] else [])))
  {
    var t := AcceptedItem(s.items[id].(hasPartial := true), PartialSize(e));
    var c := s.(items := s.items[id := t]);
    assert s.items[id := s.items[id].(hasPartial := true)][id := t] == s.items[id := t];
    StartNextLeaves(Idled(Finished(c, id, false, e.receive.partialExists), id), env, id);
    hide StartNext;
  }

  /** An interrupted download can be taken up again: when its worker fails and its partial file is
      there, accepting it asks the peer for exactly the bytes that are missing. */
  lemma InterruptedCanResume(s: State, id: string, canceled: bool, env: Env, e: AcceptEnv, later: Env)
    requires id in s.items && HasBytes(s.items[id]) && s.settings.enabled
    requires e.partial.PartialFile? && e.partial.size > 0 && RoomFor(s.items[id], e) && e.destination != "" && e.delivered
    ensures var r := Scheduler.Apply(s, Scheduler.WorkerFailed(id, canceled, true, env));
            var q := Scheduler.Apply(r, Scheduler.AcceptItem(id, e, later));
            var offer := if id in s.offers then s.offers[id] else ZERO_OFFER;
            && id in r.items && r.items[id].status == Resumable
            && id in q.items && q.items[id].status == Connecting && q.items[id].resumeOffset == e.partial.size
            && |q.sent| > 0
            && q.sent[|q.sent| - 1].offer == Offer(Resume, s.items[id].filename, "", offer.port, 0, e.partial.size, offer.token, offer.port == 0)
  {
    FailureOutcome(s, id, canceled, true, env);
    StartNextLeaves(Idled(Finished(s, id, canceled, true), id), env, id);
    var r := Scheduler.Apply(s, Scheduler.WorkerFailed(id, canceled, true, env));
    assert r.settings == s.settings && r.offers == s.offers;
    AcceptOutcome(r, id, e, later);
    hide StartNext, Scheduler.Apply;
  }

  // ---------------------------------------------------------------- whom a message can affect

  /** Two nicks are the same peer exactly if they agree up to the case of their letters a to z. */
  lemma SamePeerExactly(a: string, b: string)
    ensures SamePeer(a, b) <==>
            |a| == |b| && forall k :: 0 <= k < |a| ==>
              || a[k] == b[k]
              || ('A' <= a[k] <= 'Z' && b[k] as int == a[k] as int + 32)
              || ('A' <= b[k] <= 'Z' && a[k] as int == b[k] as int + 32)
  {
  }

  /** What a control message may do to a record it is about. */
  predicate Concerns(t: Transfer, u: Transfer, networkID: int, peer: string, o: Offer) {
    && t.networkID == networkID && SamePeer(t.peer, peer) && t.filename == o.filename
    && match o.command
       case Send =>
         || (t.direction == Outgoing && t.status == Negotiating && t.token == o.token && o.token != "" && o.port > 0
             && u == t.(address := o.address, port := o.port))
         || (t.direction == Incoming && t.status == Resumable && t.totalBytes == o.size
             && u == t.(status := Offered, address := o.address, port := o.port, token := o.token))
       case Resume =>
         && t.direction == Outgoing && (t.port == o.port || (o.token != "" && t.token == o.token)) && o.position <= t.totalBytes
         && u == t.(resumeOffset := o.position, transferredBytes := o.position)
       case Accept =>
         && t.direction == Incoming && t.status == Connecting && t.resumeOffset == o.position
         && OnlyEnds(t, u) && !u.status.Active()
       case Chat => false
  }

  /** A peer affects its own transfers only: whatever it sends, a record that changes (other than a
      waiting upload whose turn came) is one with this peer, on this network, about the file named,
      and of the kind the message is for; and while transfers are off nothing changes. */
  lemma MessageConcerns(s: State, networkID: int, peer: string, o: Offer, e: ControlEnv, id: string)
    requires id in s.items && e.newId !in s.items
    ensures var r := Scheduler.Apply(s, Scheduler.Message(networkID, peer, o, e));
            && id in r.items
            && (r.items[id] != s.items[id] && s.items[id].status != Queued ==>
                  s.settings.enabled && Concerns(s.items[id], r.items[id], networkID, peer, o))
            && (!s.settings.enabled ==> r == s)
  {
    if s.settings.enabled && o.command == Command.Accept {
      AcceptConcerns(s, networkID, peer, o, e, id);
    }
  }

  lemma AcceptConcerns(s: State, networkID: int, peer: string, o: Offer, e: ControlEnv, id: string)
    requires id in s.items && o.command == Command.Accept
    ensures var r := HandleResumeAccept(s, networkID, peer, o, e.order, e.receive, e.begin);
            && id in r.items
            && (r.items[id] != s.items[id] && s.items[id].status != Queued ==> Concerns(s.items[id], r.items[id], networkID, peer, o))
  {
    var found := FirstMatch(e.order, ResumeAccepts(s.items, networkID, peer, o));
    if found != "" {
      var q := Idled(Finished(s, found, false, e.receive.partialExists), found);
      StartNextLeaves(q, e.begin, id);
    }
    hide StartNext;
  }

  // ---------------------------------------------------------------- what a message finds

  /** A map iteration meets every record, and no identifier is empty. */
  predicate Iterates(s: State, order: seq<string>) {
    "" !in s.items && forall id :: id in s.items ==> id in order
  }

  /** An upload under negotiation that a passive answer with this offer is for. */
  predicate Awaits(t: Transfer, networkID: int, peer: string, o: Offer) {
    && t.direction == Outgoing && t.status == Negotiating && t.networkID == networkID && SamePeer(t.peer, peer)
    && t.token == o.token && t.filename == o.filename && o.token != "" && o.port > 0
  }

  /** An interrupted download that the offer is about. */
  predicate TakesOver(t: Transfer, networkID: int, peer: string, o: Offer) {
    && t.direction == Incoming && t.status == Resumable && t.networkID == networkID && SamePeer(t.peer, peer)
    && t.filename == o.filename && t.totalBytes == o.size
  }

  /** The record shows the offer and waits for the user. */
  predicate ShowsOffer(r: State, id: string, o: Offer) {
    && id in r.items && id in r.offers && r.offers[id] == o
    && var t := r.items[id];
    && t.direction == Incoming && t.status == Offered && t.filename == o.filename && t.totalBytes == o.size
    && t.address == o.address && t.port == o.port && t.token == o.token
  }

  /** A SEND is a passive answer if an upload awaits it, which then dials the peer; otherwise an
      interrupted download of the same file takes it over, with its bytes; otherwise it is a new offer
      from that peer, with none. */
  lemma SendFinds(s: State, networkID: int, peer: string, o: Offer, e: ControlEnv)
    requires s.settings.enabled && o.command == Send && Iterates(s, e.order) && e.newId !in s.items
    ensures var r := Scheduler.Apply(s, Scheduler.Message(networkID, peer, o, e));
            if exists id :: id in s.items && Awaits(s.items[id], networkID, peer, o) then
              exists id :: id in s.items && Awaits(s.items[id], networkID, peer, o) && id in r.workers && r.workers[id] == DialSend(o.port, o.token)
            else if exists id :: id in s.items && TakesOver(s.items[id], networkID, peer, o) then
              exists id :: id in s.items && TakesOver(s.items[id], networkID, peer, o) && ShowsOffer(r, id, o)
                           && r.items[id].transferredBytes == s.items[id].transferredBytes && r.items[id].resumable == s.items[id].resumable
            else
              && ShowsOffer(r, e.newId, o)
              && r.items[e.newId] == Transfer(networkID, peer, Incoming, o.filename, false, o.size, 0, Offered, o.address, o.port, o.token, 0, false, false)
  {
    var reply := if o.token != "" && o.port > 0 then FirstMatch(e.order, PassiveReplies(s.items, networkID, peer, o)) else "";
    var again := FirstMatch(e.order, Reoffers(s.items, networkID, peer, o));
    assert forall id :: id in s.items && Awaits(s.items[id], networkID, peer, o) ==> reply != "";
    assert forall id :: id in s.items && TakesOver(s.items[id], networkID, peer, o) ==> again != "";
    SendFiled(s, networkID, peer, o, e, reply, again);
    hide Scheduler.Apply, FirstMatch, SamePeer, Awaits, TakesOver, ShowsOffer;
  }

  lemma SendFiled(s: State, networkID: int, peer: string, o: Offer, e: ControlEnv, reply: string, again: string)
    requires s.settings.enabled && o.command == Send && e.newId !in s.items
    requires reply == if o.token != "" && o.port > 0 then FirstMatch(e.order, PassiveReplies(s.items, networkID, peer, o)) else ""
    requires again == FirstMatch(e.order, Reoffers(s.items, networkID, peer, o))
    ensures var r := Scheduler.Apply(s, Scheduler.Message(networkID, peer, o, e));
            if reply != "" then
              reply in s.items && Awaits(s.items[reply], networkID, peer, o) && reply in r.workers && r.workers[reply] == DialSend(o.port, o.token)
            else if again != "" then
              && again in s.items && TakesOver(s.items[again], networkID, peer, o) && ShowsOffer(r, again, o)
              && r.items[again].transferredBytes == s.items[again].transferredBytes && r.items[again].resumable == s.items[again].resumable
            else
              && ShowsOffer(r, e.newId, o)
              && r.items[e.newId] == Transfer(networkID, peer, Incoming, o.filename, false, o.size, 0, Offered, o.address, o.port, o.token, 0, false, false)
  {
    assert reply != "" ==> PassiveReplies(s.items, networkID, peer, o)(reply);
    assert again != "" ==> Reoffers(s.items, networkID, peer, o)(again);
    hide FirstMatch, SamePeer;
  }

  /** An upload that a RESUME can be found for. */
  predicate Asked(t: Transfer, networkID: int, peer: string, o: Offer) {
    && t.direction == Outgoing && t.networkID == networkID && SamePeer(t.peer, peer) && t.filename == o.filename
    && (t.port == o.port || (o.token != "" && t.token == o.token))
  }

  /** A RESUME nothing answers to changes nothing. If every upload it can be found for is long enough, one
      of them is moved to the position and an ACCEPT with the same port, token and position goes out,
      if it can be delivered. */
  lemma ResumeFinds(s: State, networkID: int, peer: string, o: Offer, e: ControlEnv)
    requires s.settings.enabled && o.command == Command.Resume && Iterates(s, e.order)
    ensures var r := Scheduler.Apply(s, Scheduler.Message(networkID, peer, o, e));
            && ((forall id :: id in s.items ==> !Asked(s.items[id], networkID, peer, o)) ==> r == s)
            && ((exists id :: id in s.items && Asked(s.items[id], networkID, peer, o))
                && (forall id :: id in s.items && Asked(s.items[id], networkID, peer, o) ==> o.position <= s.items[id].totalBytes) ==>
                  && (exists id :: id in s.items && Asked(s.items[id], networkID, peer, o)
                                   && r.items == s.items[id := s.items[id].(resumeOffset := o.position, transferredBytes := o.position)])
                  && r.sent == s.sent + (if e.delivered then
                                           [Control(networkID, peer, Offer(Accept, o.filename, "", o.port, 0, o.position, o.token, o.port == 0))]
                                         else []))
  {
    var id := FirstMatch(e.order, ResumeRequests(s.items, networkID, peer, o));
    assert forall x :: x in s.items ==> (Asked(s.items[x], networkID, peer, o) <==> ResumeRequests(s.items, networkID, peer, o)(x));
    hide SamePeer;
    if id != "" {
      assert Asked(s.items[id], networkID, peer, o);
    }
  }

  /** A download that an ACCEPT can be found for. */
  predicate Answered(t: Transfer, networkID: int, peer: string, o: Offer) {
    && t.direction == Incoming && t.status == Connecting && t.networkID == networkID && SamePeer(t.peer, peer)
    && t.filename == o.filename && t.resumeOffset == o.position
  }

  /** An ACCEPT nothing waits for changes nothing. Otherwise one of the downloads that wait for it begins
      with its saved offer, unless that is a passive one that cannot be answered. */
  lemma AcceptFinds(s: State, networkID: int, peer: string, o: Offer, e: ControlEnv)
    requires s.settings.enabled && o.command == Command.Accept && Iterates(s, e.order)
    ensures var r := Scheduler.Apply(s, Scheduler.Message(networkID, peer, o, e));
            && ((forall id :: id in s.items ==> !Answered(s.items[id], networkID, peer, o)) ==> r == s)
            && ((exists id :: id in s.items && Answered(s.items[id], networkID, peer, o)) ==>
                  exists id :: id in s.items && Answered(s.items[id], networkID, peer, o)
                               && var offer := if id in s.offers then s.offers[id] else ZERO_OFFER;
                               if !offer.passive then r == s.(workers := s.workers[id := DialReceive(offer)])
                               else if s.settings.advertised != "" && e.receive.listens && e.receive.address != "" && e.receive.delivered then
                                 && r.items == s.items && r.workers == s.workers[id := ListenReceive(e.receive.port, offer)]
                                 && r.sent == s.sent + [ListenerAnnounced(s.items[id], offer, e.receive)]
                               else id in r.items && !r.items[id].status.Active())
  {
    var id := FirstMatch(e.order, ResumeAccepts(s.items, networkID, peer, o));
    assert forall x :: x in s.items ==> (Answered(s.items[x], networkID, peer, o) <==> ResumeAccepts(s.items, networkID, peer, o)(x));
    hide FirstMatch, BeginReceive, Answered;
    if id != "" {
      assert Answered(s.items[id], networkID, peer, o);
      Begins(s, id, OfferOf(s, id), e.receive, e.begin);
    }
  }

  /** How a download begins: by dialing, by announcing a listener, or not at all. */
  lemma Begins(s: State, id: string, offer: Offer, v: ReceiveEnv, env: Env)
    requires id in s.items
    ensures var r := BeginReceive(s, id, offer, v, env);
            if !offer.passive then r == s.(workers := s.workers[id := DialReceive(offer)])
            else if s.settings.advertised != "" && v.listens && v.address != "" && v.delivered then
              && r.items == s.items && r.workers == s.workers[id := ListenReceive(v.port, offer)]
              && r.sent == s.sent + [ListenerAnnounced(s.items[id], offer, v)]
            else id in r.items && !r.items[id].status.Active()
  {
    StartNextLeaves(Idled(Finished(s, id, false, v.partialExists), id), env, id);
    hide StartNext;
  }

  // ---------------------------------------------------------------- beginning an upload

  /** Negotiation is passive if asked for, or automatic without an advertised address. */
  predicate Passively(settings: Settings) {
    settings.mode == Passive || (settings.mode == Automatic && settings.advertised == "")
  }

  /** The offer can be made: a listener and an address for a classic one, and a connection that takes
      the message. */
  predicate CanBegin(settings: Settings, b: Begin) {
    b.delivered && (Passively(settings) || (settings.advertised != "" && b.listens && b.address != ""))
  }

  /** The head of the queue begins exactly if it can: it takes the slot, its worker waits, and one offer
      goes out that says where the peer can connect, or that the peer is to listen. Otherwise it has
      failed, with no offer sent for it, and the next one has its turn. */
  lemma HeadBegins(s: State, env: Env)
    requires s.active == "" && s.settings.enabled && |s.queue| > 0
    requires s.queue[0] != "" && s.queue[0] in s.items && s.items[s.queue[0]].status == Queued
    ensures var id := s.queue[0];
            var t, b, r := s.items[id], env(id), StartNext(s, env);
            && id in r.items
            && if CanBegin(s.settings, b) then
                 var u := if Passively(s.settings) then t.(status := Negotiating, token := b.token, port := 0, address := "0")
                          else t.(status := Negotiating, port := b.port, address := b.address);
                 var offer := if Passively(s.settings) then Offer(Send, t.filename, "0", 0, t.totalBytes, 0, b.token, true)
                              else Offer(Send, t.filename, b.address, b.port, t.totalBytes, 0, "", b.port == 0);
                 r == s.(items := s.items[id := u], queue := s.queue[1..], active := id,
                         workers := s.workers[id := if Passively(s.settings) then AwaitPeer(b.token) else ListenSend(b.port)],
                         sent := s.sent + [Control(t.networkID, t.peer, offer)])
               else
                 exists q: State ::
                   && r == StartNext(q, env) && id in q.items && r.items[id] == q.items[id] && q.items[id].status == Failed
                   && q.queue == s.queue[1..] && q.active == "" && q.sent == s.sent && q.settings == s.settings
                   && forall x :: x in s.items && x != id ==> x in q.items && q.items[x] == s.items[x]
  {
    hide StartNext, Refuses;
    if CanBegin(s.settings, env(s.queue[0])) {
      HeadTakesTurn(s, env);
    } else {
      HeadFails(s, env);
    }
  }

  lemma HeadTakesTurn(s: State, env: Env)
    requires s.active == "" && s.settings.enabled && |s.queue| > 0
    requires s.queue[0] in s.items && s.items[s.queue[0]].status == Queued && CanBegin(s.settings, env(s.queue[0]))
    ensures var id := s.queue[0];
            var t, b := s.items[id], env(id);
            var u := if Passively(s.settings) then t.(status := Negotiating, token := b.token, port := 0, address := "0")
                     else t.(status := Negotiating, port := b.port, address := b.address);
            var offer := if Passively(s.settings) then Offer(Send, t.filename, "0", 0, t.totalBytes, 0, b.token, true)
                         else Offer(Send, t.filename, b.address, b.port, t.totalBytes, 0, "", b.port == 0);
            StartNext(s, env)
            == s.(items := s.items[id := u], queue := s.queue[1..], active := id,
                  workers := s.workers[id := if Passively(s.settings) then AwaitPeer(b.token) else ListenSend(b.port)],
                  sent := s.sent + [Control(t.networkID, t.peer, offer)])
  {
    var id := s.queue[0];
    assert !Refuses(s.settings, env(id));
    assert StartNext(s, env) == Launched(s.(queue := s.queue[1..], active := id), id, env(id));
    hide StartNext;
  }

  lemma HeadFails(s: State, env: Env)
    requires s.active == "" && s.settings.enabled && |s.queue| > 0
    requires s.queue[0] in s.items && s.items[s.queue[0]].status == Queued && !CanBegin(s.settings, env(s.queue[0]))
    ensures var id, r := s.queue[0], StartNext(s, env);
            exists q: State ::
              && r == StartNext(q, env) && id in q.items && id in r.items && r.items[id] == q.items[id] && q.items[id].status == Failed
              && q.queue == s.queue[1..] && q.active == "" && q.sent == s.sent && q.settings == s.settings
              && forall x :: x in s.items && x != id ==> x in q.items && q.items[x] == s.items[x]
  {
    var id := s.queue[0];
    var q := Idled(Rejected(s.(queue := s.queue[1..], active := id), id, env(id)), id);
    assert StartNext(s, env) == StartNext(q, env);
    StartNextLeaves(q, env, id);
    hide StartNext;
  }
}
