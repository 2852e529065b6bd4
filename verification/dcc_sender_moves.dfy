/** What any step of the offering side's user or scheduler can do to its outgoing transfers, as
    seen by the other side: at most one transfer is announced, with a fresh key and from byte zero;
    every other transfer under negotiation keeps its record and its worker. */
module DccSenderMoves {
  import opened DccTypes
  import opened DccManager
  import opened DccNet
  import Scheduler = DccScheduler

  ghost predicate Sourced(src: map<string, Bytes>, items: map<string, Transfer>) {
    forall o :: o in items && items[o].direction == Outgoing ==>
      items[o].filename in src && items[o].totalBytes == |src[items[o].filename]|
  }

  ghost predicate OnePerFile(items: map<string, Transfer>) {
    forall o, p :: o in items && p in items && items[o].direction == Outgoing && items[p].direction == Outgoing && o != p ==>
      items[o].filename != items[p].filename
  }

  ghost predicate WaitFromZero(items: map<string, Transfer>) {
    forall o :: o in items && items[o].status == Queued ==> items[o].resumeOffset == 0
  }

  ghost predicate Known(src: map<string, Bytes>, items: map<string, Transfer>) {
    Sourced(src, items) && OnePerFile(items) && WaitFromZero(items)
  }

  predicate SameFile(t: Transfer, u: Transfer) {
    t.direction == u.direction && t.filename == u.filename && t.totalBytes == u.totalBytes
  }

  lemma KnownUpdate(src: map<string, Bytes>, items: map<string, Transfer>, id: string, t: Transfer)
    requires Known(src, items) && id in items && SameFile(items[id], t)
    requires t.status == Queued ==> t.resumeOffset == 0
    ensures Known(src, items[id := t])
  {
    var r := items[id := t];
    assert forall o :: o in r && o != id ==> r[o] == items[o];
    assert OnePerFile(r) by {
      forall o, p | o in r && p in r && r[o].direction == Outgoing && r[p].direction == Outgoing && o != p
        ensures r[o].filename != r[p].filename
      {
        assert items[o].filename != items[p].filename;
      }
    }
  }

  /** Nothing is announced: transfers rest, wait from byte zero, or are as they were. */
  ghost predicate Quiet(src: map<string, Bytes>, s: State, t: State) {
    && t.sent == s.sent
    && Known(src, t.items)
    && (forall o :: o in t.items && t.items[o].status == Negotiating ==>
          o in s.items && s.items[o] == t.items[o] && o in s.workers && o in t.workers && t.workers[o] == s.workers[o])
    && (forall o :: o in t.workers ==> o in s.workers && t.workers[o] == s.workers[o])
    && StillMoving(s, t)
  }

  /** A transfer in flight is as it was. */
  ghost predicate StillMoving(s: State, t: State) {
    forall o :: o in t.items && t.items[o].status == Transferring ==> o in s.items && s.items[o] == t.items[o]
  }

  predicate WellFormedSend(src: map<string, Bytes>, m: Offer) {
    && m.command == Send
    && m.filename in src
    && m.size == |src[m.filename]|
    && ((m.port > 0 && m.token == "" && !m.passive) || (m.port == 0 && m.token != "" && m.passive))
  }

  predicate FreshKey(s: State, key: Key) {
    forall k :: 0 <= k < |s.sent| && s.sent[k].offer.command == Send ==> KeyOfOffer(s.sent[k].offer) != key
  }

  /** Exactly one transfer is announced. */
  ghost predicate Announces(src: map<string, Bytes>, s: State, t: State) {
    && Known(src, t.items)
    && |t.sent| == |s.sent| + 1 && t.sent[..|s.sent|] == s.sent
    && t.active in t.items && t.active in t.workers
    && t.items[t.active].direction == Outgoing
    && t.items[t.active].status == Negotiating
    && t.items[t.active].resumeOffset == 0
    && var m := t.sent[|s.sent|].offer;
    && WellFormedSend(src, m)
    && m.filename == t.items[t.active].filename
    && KeyOfOffer(m) == KeyOfWorker(t.workers[t.active])
    && FreshKey(s, KeyOfOffer(m))
    && !t.workers[t.active].DialSend?
    && (forall o :: o in t.items && t.items[o].status == Negotiating ==> o == t.active)
    && (forall o :: o in t.workers && o != t.active ==> o in s.workers && t.workers[o] == s.workers[o])
    && StillMoving(s, t)
  }

  ghost predicate Moves(src: map<string, Bytes>, s: State, t: State) {
    Quiet(src, s, t) || Announces(src, s, t)
  }

  lemma AnnouncementFresh(src: map<string, Bytes>, q: State, id: string, env: Env)
    requires Known(src, q.items) && FreshBegins(q, env)
    requires id in q.items && q.items[id].direction == Outgoing && !Refuses(q.settings, env(id))
    ensures var t := Prepared(q.items[id], q.settings, env(id));
            var m := Announcement(t, q.settings);
            WellFormedSend(src, m) && FreshKey(q, KeyOfOffer(m)) && KeyOfOffer(m) == KeyOfWorker(SendWorker(t, q.settings))
  {
    assert env(id).port > 0 && env(id).token != "";
  }

  lemma AnnouncedByParts(src: map<string, Bytes>, s: State, q: State, t: State, id: string, u: Transfer, w: Worker, c: Control)
    requires Quiet(src, s, q) && Known(src, t.items)
    requires forall o :: o in q.items ==> q.items[o].status != Negotiating
    requires id in q.items && u.direction == Outgoing && u.status == Negotiating && u.resumeOffset == 0
    requires t.items == q.items[id := u] && t.workers == q.workers[id := w] && t.sent == q.sent + [c] && t.active == id
    requires WellFormedSend(src, c.offer) && c.offer.filename == u.filename && FreshKey(q, KeyOfOffer(c.offer))
    requires KeyOfOffer(c.offer) == KeyOfWorker(w) && !w.DialSend?
    ensures Announces(src, s, t)
  {
    hide Known, WellFormedSend, KeyOfWorker;
    assert FreshKey(s, KeyOfOffer(c.offer));
    hide FreshKey, KeyOfOffer, StillMoving;
    StillMovingPatched(s, q, t, id, u);
    assert forall o :: o in t.items && o != id ==> t.items[o] == q.items[o];
    assert t.sent[|s.sent|] == c;
  }

  lemma StillMovingPatched(s: State, q: State, t: State, id: string, u: Transfer)
    requires StillMoving(s, q) && t.items == q.items[id := u] && u.status != Transferring
    ensures StillMoving(s, t)
  {
  }

  lemma LaunchAnnounces(src: map<string, Bytes>, s: State, q: State, id: string, env: Env)
    requires Quiet(src, s, q) && Scheduler.Pending(q) && FreshBegins(q, env)
    requires q.active == "" && q.queue != [] && q.queue[0] == id
    requires id in q.items && q.items[id].status == Queued && !Refuses(q.settings, env(id))
    ensures Announces(src, s, Launched(q.(queue := q.queue[1..], active := id), id, env(id)))
  {
    AnnouncementFresh(src, q, id, env);
    var u := Prepared(q.items[id], q.settings, env(id));
    var c := Control(u.networkID, u.peer, Announcement(u, q.settings));
    var t := Launched(q.(queue := q.queue[1..], active := id), id, env(id));
    RestingItems(q);
    KnownUpdate(src, q.items, id, u);
    hide Known, FreshBegins, Scheduler.Pending, OnePerFile, WellFormedSend, Quiet;
    AnnouncedByParts(src, s, q, t, id, u, SendWorker(u, q.settings), c);
  }

  lemma RestingItems(q: State)
    requires Scheduler.Pending(q) && q.active == ""
    ensures forall o :: o in q.items ==> q.items[o].status != Negotiating
    ensures forall o :: o in q.items && q.items[o].status == Queued ==> q.items[o].direction == Outgoing
  {
  }

  lemma QuietParts(src: map<string, Bytes>, s: State, q: State, r: State)
    requires Quiet(src, s, q) && r.items == q.items && r.workers == q.workers && r.sent == q.sent
    ensures Quiet(src, s, r)
  {
    hide Known;
  }

  lemma RejectedQuiet(src: map<string, Bytes>, s: State, q: State, id: string, b: Begin)
    requires Quiet(src, s, q) && q.queue != [] && q.queue[0] == id
    requires id in q.items && q.items[id].status == Queued && q.items[id].direction == Outgoing
    ensures Quiet(src, s, Idled(Rejected(q.(queue := q.queue[1..], active := id), id, b), id))
  {
    hide Quiet;
    var t := FinishedItem(Prepared(q.items[id], q.settings, b), false, false);
    var r := Idled(Rejected(q.(queue := q.queue[1..], active := id), id, b), id);
    ReplacedQuiet(src, s, q, id, t);
    assert r.items == q.items[id := t];
    QuietParts(src, s, q.(items := q.items[id := t], workers := q.workers - {id}), r);
  }

  lemma {:induction false} StartNextMoves(src: map<string, Bytes>, s: State, q: State, env: Env)
    requires Quiet(src, s, q) && Scheduler.Pending(q) && FreshBegins(q, env)
    ensures Moves(src, s, StartNext(q, env))
    decreases |q.queue|
  {
    hide Quiet, Announces;
    if q.active != "" || q.queue == [] || !q.settings.enabled {
    } else {
      var id := q.queue[0];
      var popped := q.(queue := q.queue[1..]);
      QuietParts(src, s, q, popped);
      assert forall x :: x in q.queue ==> x == id || x in popped.queue;
      if id !in q.items || q.items[id].status != Queued {
        StartNextMoves(src, s, popped, env);
      } else if Refuses(q.settings, env(id)) {
        Scheduler.RejectedTaken(q, id, env(id));
        var r := Idled(Rejected(popped.(active := id), id, env(id)), id);
        RejectedQuiet(src, s, q, id, env(id));
        StartNextMoves(src, s, r, env);
      } else {
        LaunchAnnounces(src, s, q, id, env);
      }
    }
  }

  /** Changing one record to one that is not in flight keeps a state quiet. */
  lemma PatchedQuiet(src: map<string, Bytes>, s: State, q: State, id: string, t: Transfer, r: State)
    requires Quiet(src, s, q) && r.sent == q.sent && r.items == q.items[id := t] && Known(src, r.items)
    requires t.status != Negotiating && t.status != Transferring
    requires forall o :: o in r.workers ==> o in q.workers && r.workers[o] == q.workers[o]
    requires forall o :: o in q.workers && o != id ==> o in r.workers
    ensures Quiet(src, s, r)
  {
    hide Known;
    forall o | o in r.items && r.items[o].status == Negotiating
      ensures o in s.items && s.items[o] == r.items[o] && o in s.workers && o in r.workers && r.workers[o] == s.workers[o]
    {
      assert r.items[o] == q.items[o];
    }
  }

  /** Replacing one record by an inactive one of the same file keeps a state quiet. */
  lemma ReplacedQuiet(src: map<string, Bytes>, s: State, q: State, id: string, t: Transfer)
    requires Quiet(src, s, q) && id in q.items
    requires t.status != Queued && t.status != Negotiating && t.status != Transferring && SameFile(q.items[id], t)
    ensures Quiet(src, s, q.(items := q.items[id := t], workers := q.workers - {id}))
  {
    KnownUpdate(src, q.items, id, t);
    hide Known, Quiet;
    PatchedQuiet(src, s, q, id, t, q.(items := q.items[id := t], workers := q.workers - {id}));
  }

  lemma QuietSelf(src: map<string, Bytes>, s: State)
    requires Scheduler.Inv(s) && Known(src, s.items)
    ensures Quiet(src, s, s)
  {
  }

  lemma ShutCancelQuiet(src: map<string, Bytes>, s: State, q: State, id: string, env: Env)
    requires Quiet(src, s, q) && !q.settings.enabled
    ensures Quiet(src, s, Cancel(q, id, env))
  {
    if CanCancel(q, id) {
      hide Quiet;
      var t := CanceledItem(q.items[id]);
      ReplacedQuiet(src, s, q, id, t);
      QuietParts(src, s, q.(items := q.items[id := t], workers := q.workers - {id}), Cancel(q, id, env));
    }
  }

  lemma {:induction false} CancelEachQuiet(src: map<string, Bytes>, s: State, q: State, ids: seq<string>, env: Env)
    requires Quiet(src, s, q) && Scheduler.Steady(q) && !q.settings.enabled
    ensures Quiet(src, s, CancelEach(q, ids, env))
    decreases |ids|
  {
    hide Quiet, Scheduler.Steady, Cancel;
    if ids != [] {
      ShutCancelQuiet(src, s, q, ids[0], env);
      Scheduler.ShutCancel(q, ids[0], env);
      CancelEachQuiet(src, s, Cancel(q, ids[0], env), ids[1..], env);
    }
  }

  lemma EnqueueOne(src: map<string, Bytes>, s: State, q: State, networkID: int, peer: string, f: File)
    requires Quiet(src, s, q) && f.id !in q.items && f.name in src && f.size == |src[f.name]|
    requires forall o :: o in q.items && q.items[o].direction == Outgoing ==> q.items[o].filename != f.name
    ensures Quiet(src, s, q.(items := q.items[f.id := NewOutgoing(networkID, peer, f)], queue := q.queue + [f.id]))
  {
    var t := NewOutgoing(networkID, peer, f);
    KnownExtended(src, q.items, f.id, t);
    hide Known, Quiet;
    PatchedQuiet(src, s, q, f.id, t, q.(items := q.items[f.id := t], queue := q.queue + [f.id]));
  }

  lemma KnownExtended(src: map<string, Bytes>, items: map<string, Transfer>, id: string, t: Transfer)
    requires Known(src, items) && id !in items && t.filename in src && t.totalBytes == |src[t.filename]| && t.resumeOffset == 0
    requires forall o :: o in items && items[o].direction == Outgoing ==> items[o].filename != t.filename
    ensures Known(src, items[id := t])
  {
    var r := items[id := t];
    assert forall o :: o in r && o != id ==> r[o] == items[o];
    assert OnePerFile(r);
    hide OnePerFile;
  }

  lemma {:induction false} EnqueuedQuiet(src: map<string, Bytes>, s: State, q: State, networkID: int, peer: string, files: seq<File>)
    requires Quiet(src, s, q) && Scheduler.FreshFiles(q, files) && NewNames(src, q, files)
    ensures Quiet(src, s, Enqueued(q, networkID, peer, files))
    decreases |files|
  {
    if files != [] {
      var f := files[0];
      var r := q.(items := q.items[f.id := NewOutgoing(networkID, peer, f)], queue := q.queue + [f.id]);
      EnqueueOne(src, s, q, networkID, peer, f);
      hide Quiet, Known;
      assert forall k :: 0 <= k < |files[1..]| ==> files[1..][k] == files[k + 1];
      assert forall o :: o in r.items && o != f.id ==> r.items[o] == q.items[o];
      EnqueuedQuiet(src, s, r, networkID, peer, files[1..]);
    }
  }

  /** The steps of the offering side. */
  lemma SenderStepMoves(src: map<string, Bytes>, s: State, step: Scheduler.Step)
    requires Scheduler.Inv(s) && Known(src, s.items) && Scheduler.Possible(s, step) && SenderMay(src, s, step)
    ensures Moves(src, s, Scheduler.Apply(s, step))
  {
    hide Quiet, Announces, Known, FreshBegins, NewNames, Scheduler.Inv;
    QuietSelf(src, s);
    match step
    case QueueFiles(n, peer, files, env) =>
      if s.settings.enabled && files != [] && Selectable(files) {
        QueueMoves(src, s, n, peer, files, env);
      }
    case RetryItem(id, available, env) =>
      if CanRetry(s, id, available) {
        RetryMoves(src, s, id, env);
      }
    case CancelItem(id, env) =>
      if CanCancel(s, id) {
        CancelQuiet(src, s, id, env);
      }
    case ChangeSettings(settings, cancelActive, ids, env) => SettingsQuiet(src, s, settings, cancelActive, ids, env);
    case CloseManager(ids, env) => CloseQuiet(src, s, ids, env);
    case Forget(id) => FewerQuiet(src, s, RemoveHistory(s, id));
    case ForgetAll => FewerQuiet(src, s, ClearHistory(s));
    case WorkerFailed(id, canceled, partialExists, env) =>
      if id in s.items {
        FailQuiet(src, s, id, canceled, partialExists, env);
      }
  }

  lemma CloseQuiet(src: map<string, Bytes>, s: State, ids: seq<string>, env: Env)
    requires Scheduler.Inv(s) && Known(src, s.items)
    ensures Quiet(src, s, Close(s, ids, env))
  {
    QuietSelf(src, s);
    var shut := s.(settings := s.settings.(enabled := false));
    QuietParts(src, s, s, shut);
    hide Quiet, Known;
    CancelEachQuiet(src, s, shut, ids, env);
  }

  lemma QueueMoves(src: map<string, Bytes>, s: State, n: int, peer: string, files: seq<File>, env: Env)
    requires Scheduler.Inv(s) && Known(src, s.items) && s.settings.enabled && FreshBegins(s, env)
    requires Scheduler.FreshFiles(s, files) && NewNames(src, s, files)
    ensures Moves(src, s, StartNext(Enqueued(s, n, peer, files), env))
  {
    QuietSelf(src, s);
    Scheduler.EnqueuedPending(s, n, peer, files);
    EnqueuedQuiet(src, s, s, n, peer, files);
    StartNextMoves(src, s, Enqueued(s, n, peer, files), env);
  }

  /** Forgetting records. */
  lemma FewerQuiet(src: map<string, Bytes>, s: State, t: State)
    requires Scheduler.Inv(s) && Known(src, s.items)
    requires t == s.(items := t.items)
    requires forall o :: o in t.items ==> o in s.items && t.items[o] == s.items[o]
    ensures Quiet(src, s, t)
  {
  }

  lemma RetryMoves(src: map<string, Bytes>, s: State, id: string, env: Env)
    requires Scheduler.Inv(s) && Known(src, s.items) && CanRetry(s, id, true) && FreshBegins(s, env)
    ensures Moves(src, s, StartNext(Requeued(s, id), env))
  {
    hide Known, Quiet, Announces;
    Scheduler.RequeuedPending(s, id);
    RequeuedQuiet(src, s, id);
    assert Requeued(s, id).sent == s.sent;
    hide Requeued, Scheduler.Pending, Scheduler.Inv;
    StartNextMoves(src, s, Requeued(s, id), env);
  }

  lemma RequeuedQuiet(src: map<string, Bytes>, s: State, id: string)
    requires Scheduler.Inv(s) && Known(src, s.items) && CanRetry(s, id, true)
    ensures Quiet(src, s, Requeued(s, id))
  {
    QuietSelf(src, s);
    var r := Requeued(s, id);
    KnownUpdate(src, s.items, id, r.items[id]);
    hide Known, Scheduler.Inv, Quiet;
    PatchedQuiet(src, s, s, id, r.items[id], r);
  }

  lemma SettingsQuiet(src: map<string, Bytes>, s: State, settings: Settings, cancelActive: bool, ids: seq<string>, env: Env)
    requires Scheduler.Inv(s) && Known(src, s.items)
    ensures Quiet(src, s, UpdateSettings(s, settings, cancelActive, ids, env))
  {
    QuietSelf(src, s);
    if !settings.enabled && cancelActive {
      CancelEachQuiet(src, s, s.(settings := settings), ids, env);
    }
  }

  lemma CancelQuiet(src: map<string, Bytes>, s: State, id: string, env: Env)
    requires Scheduler.Inv(s) && Known(src, s.items) && CanCancel(s, id) && FreshBegins(s, env)
    ensures Moves(src, s, Cancel(s, id, env))
  {
    hide Quiet, Known, Announces;
    QuietSelf(src, s);
    Scheduler.CanceledSteady(s, id);
    var t := CanceledItem(s.items[id]);
    ReplacedQuiet(src, s, s, id, t);
    var r := Idled(CanceledState(s, id), id);
    QuietParts(src, s, s.(items := s.items[id := t], workers := s.workers - {id}), r);
    assert Scheduler.DisabledQuiet(r);
    StartNextMoves(src, s, r, env);
  }

  lemma FailQuiet(src: map<string, Bytes>, s: State, id: string, canceled: bool, partialExists: bool, env: Env)
    requires Scheduler.Inv(s) && Known(src, s.items) && id in s.items && FreshBegins(s, env)
    ensures Moves(src, s, FinishWithError(s, id, canceled, partialExists, env))
  {
    hide Known, Quiet, Announces;
    QuietSelf(src, s);
    Scheduler.FinishedPending(s, id, canceled, partialExists);
    hide Scheduler.Inv, Scheduler.Pending;
    var t := FinishedItem(s.items[id], canceled, partialExists);
    var r := Idled(Finished(s, id, canceled, partialExists), id);
    ReplacedQuiet(src, s, s, id, t);
    QuietParts(src, s, s.(items := s.items[id := t], workers := s.workers - {id}), r);
    StartNextMoves(src, s, r, env);
  }

  lemma CompleteMoves(src: map<string, Bytes>, s: State, id: string, env: Env)
    requires Scheduler.Inv(s) && Known(src, s.items) && FreshBegins(s, env)
    ensures Moves(src, s, Complete(s, id, env))
  {
    hide Known, Quiet, Announces;
    QuietSelf(src, s);
    if id in s.items && s.items[id].status == Transferring {
      var t := CompletedItem(s.items[id]);
      Scheduler.ReplacedPending(s, id, t);
      hide Scheduler.Inv, Scheduler.Pending;
      ReplacedQuiet(src, s, s, id, t);
      var r := s.(items := s.items[id := t], workers := s.workers - {id});
      QuietParts(src, s, r, Idled(r, id));
      StartNextMoves(src, s, Idled(r, id), env);
    }
  }
}
