/** Safety of the transfer manager over whole runs: the sequential outgoing scheduler and the
    byte counters. Worker completions may be reported for any identifier at any time, so the
    results also cover workers whose context was replaced. */
module DccScheduler {
  import opened DccTypes
  import opened DccManager

  /** One atomic step: a public method, a control message, or the report of a worker. */
  datatype Step =
    | QueueFiles(networkID: int, peer: string, files: seq<File>, env: Env)
    | RetryItem(id: string, sourceAvailable: bool, env: Env)
    | CancelItem(id: string, env: Env)
    | ChangeSettings(settings: Settings, cancelActive: bool, ids: seq<string>, env: Env)
    | CloseManager(ids: seq<string>, env: Env)
    | Message(networkID: int, peer: string, offer: Offer, answers: ControlEnv)
    | AcceptItem(id: string, answer: AcceptEnv, env: Env)
    | DeclineItem(id: string)
    | Discard(id: string)
    | Forget(id: string)
    | ForgetAll
    | WorkerConnected(id: string)
    | WorkerProgress(id: string, transferred: int)
    | WorkerDone(id: string, env: Env)
    | WorkerFailed(id: string, canceled: bool, partialExists: bool, env: Env)

  ghost function Apply(s: State, step: Step): State {
    match step
    case QueueFiles(n, peer, files, env) => QueueOutgoing(s, n, peer, files, env)
    case RetryItem(id, available, env) => Retry(s, id, available, env)
    case CancelItem(id, env) => Cancel(s, id, env)
    case ChangeSettings(settings, cancelActive, ids, env) => UpdateSettings(s, settings, cancelActive, ids, env)
    case CloseManager(ids, env) => Close(s, ids, env)
    case Message(n, peer, offer, e) => HandleControl(s, n, peer, offer, e)
    case AcceptItem(id, e, env) => AcceptTransfer(s, id, e, env)
    case DeclineItem(id) => Decline(s, id)
    case Discard(id) => DiscardPartial(s, id)
    case Forget(id) => RemoveHistory(s, id)
    case ForgetAll => ClearHistory(s)
    case WorkerConnected(id) => MarkTransferring(s, id)
    case WorkerProgress(id, n) => Progress(s, id, n)
    case WorkerDone(id, env) => Complete(s, id, env)
    case WorkerFailed(id, canceled, exists_, env) => FinishWithError(s, id, canceled, exists_, env)
  }

  /** `ids` lists every active transfer: what CancelAll collects. */
  predicate ListsActive(s: State, ids: seq<string>) {
    forall id :: id in s.items && s.items[id].status.Active() ==> id in ids
  }

  /** CancelAll's collection is complete and lists nothing else. */
  lemma {:induction false} ActiveIdsExact(s: State, order: seq<string>, id: string)
    ensures id in ActiveIds(s, order) <==> id in order && id in s.items && s.items[id].status.Active()
    decreases |order|
  {
    if order != [] {
      ActiveIdsExact(s, order[1..], id);
      assert id in order <==> id == order[0] || id in order[1..];
    }
  }

  lemma IterationListsActive(s: State, order: seq<string>)
    requires forall id :: id in s.items ==> id in order
    ensures ListsActive(s, ActiveIds(s, order))
  {
    forall id | id in s.items && s.items[id].status.Active() ensures id in ActiveIds(s, order) {
      ActiveIdsExact(s, order, id);
    }
  }

  predicate FreshFiles(s: State, files: seq<File>) {
    && (forall k :: 0 <= k < |files| ==> files[k].id != "" && files[k].id !in s.items && 0 <= files[k].size)
    && (forall j, k :: 0 <= j < k < |files| ==> files[j].id != files[k].id)
  }

  /** What the world guarantees: identifiers are fresh, sizes and positions are not negative (Parse
      rejects them), a map is iterated completely, a worker reports counts up to the total. */
  ghost predicate Possible(s: State, step: Step) {
    match step
    case QueueFiles(_, _, files, _) => FreshFiles(s, files)
    case ChangeSettings(_, _, ids, _) => ListsActive(s, ids)
    case CloseManager(ids, _) => ListsActive(s, ids)
    case Message(_, _, offer, e) =>
      && 0 <= offer.size
      && 0 <= offer.position
      && e.newId != ""
      && e.newId !in s.items
      && (forall id :: id in s.items ==> id in e.order)
    case AcceptItem(_, e, _) => e.partial.PartialFile? ==> 0 <= e.partial.size
    case WorkerProgress(id, n) => id in s.items ==> 0 <= n <= s.items[id].totalBytes
    case _ => true
  }

  // ---------------------------------------------------------------- invariants

  predicate CountersOk(t: Transfer) {
    && 0 <= t.resumeOffset <= t.totalBytes
    && 0 <= t.transferredBytes <= t.totalBytes
  }

  /** Each direction has its own life cycle. */
  predicate ShapeOk(t: Transfer) {
    && (t.direction == Outgoing ==>
          !t.resumable && (t.status.Queued? || t.status.Negotiating? || t.status.Transferring? || t.status.Completed?
                           || t.status.Failed? || t.status.Canceled?))
    && (t.direction == Incoming ==> !t.status.Queued? && !t.status.Negotiating?)
    && (t.status == Resumable ==> t.resumable && t.hasPartial)
    && (t.direction == Incoming && t.status == Completed ==> t.transferredBytes == t.totalBytes)
  }

  ghost predicate ItemsOk(s: State) {
    "" !in s.items && forall id :: id in s.items ==> CountersOk(s.items[id]) && ShapeOk(s.items[id])
  }

  predicate Occupies(t: Transfer) {
    t.direction == Outgoing && (t.status == Negotiating || t.status == Transferring)
  }

  /** The slot is held by exactly the outgoing transfer under negotiation or in flight. */
  ghost predicate SlotOk(s: State) {
    && (forall id :: id in s.items ==> (Occupies(s.items[id]) <==> s.active == id))
    && (s.active != "" ==> s.active in s.items)
  }

  ghost predicate QueuedListed(s: State) {
    forall id :: id in s.items && s.items[id].status == Queued ==> id in s.queue
  }

  ghost predicate NothingQueued(s: State) {
    forall id :: id in s.items ==> s.items[id].status != Queued
  }

  /** While an outgoing transfer occupies the slot it has a registered worker. */
  ghost predicate Attended(s: State) {
    s.active != "" ==> s.active in s.workers
  }

  /** Holds between the locked sections of one method, while the queue may need advancing. */
  ghost predicate Steady(s: State) {
    ItemsOk(s) && SlotOk(s) && QueuedListed(s) && Attended(s)
  }

  /** The scheduler never idles over a waiting transfer. */
  ghost predicate Busyness(s: State) {
    s.active == "" && s.settings.enabled ==> NothingQueued(s)
  }

  ghost predicate DisabledQuiet(s: State) {
    !s.settings.enabled ==> forall id :: id in s.items ==> !s.items[id].status.Active()
  }

  ghost predicate Inv(s: State) {
    Steady(s) && Busyness(s) && DisabledQuiet(s)
  }

  /** Steady plus the gate: what startNextOutgoing needs to re-establish Inv. */
  ghost predicate Pending(s: State) {
    Steady(s) && DisabledQuiet(s)
  }

  // ---------------------------------------------------------------- the scheduler re-establishes the invariant

  lemma {:induction false} StartNextInv(s: State, env: Env)
    requires Pending(s)
    ensures Inv(StartNext(s, env))
    ensures StartNext(s, env).settings == s.settings
    ensures StartNext(s, env).items.Keys == s.items.Keys
    decreases |s.queue|
  {
    if s.active != "" || |s.queue| == 0 || !s.settings.enabled {
    } else {
      var id := s.queue[0];
      var popped := s.(queue := s.queue[1..]);
      assert forall x :: x in s.queue ==> x == id || x in popped.queue;
      if id !in s.items || s.items[id].status != Queued {
        StartNextInv(popped, env);
      } else {
        var taken := popped.(active := id);
        if Refuses(s.settings, env(id)) {
          RejectedTaken(s, id, env(id));
          StartNextInv(Idled(Rejected(taken, id, env(id)), id), env);
        } else {
          LaunchedTaken(s, id, env(id));
        }
      }
    }
  }

  ghost function Taken(s: State): State
    requires |s.queue| > 0
  {
    s.(queue := s.queue[1..], active := s.queue[0])
  }

  lemma RejectedTaken(s: State, id: string, b: Begin)
    requires Pending(s) && s.active == "" && s.settings.enabled && |s.queue| > 0 && s.queue[0] == id
    requires id in s.items && s.items[id].status == Queued
    ensures Pending(Idled(Rejected(Taken(s), id, b), id))
  {
    var r := Idled(Rejected(Taken(s), id, b), id);
    assert s.items[id].direction == Outgoing;
    assert r.items[id].status == Failed;
    assert forall x :: x in s.queue ==> x == id || x in r.queue;
    assert forall x :: x in r.items && x != id ==> r.items[x] == s.items[x];
  }

  lemma LaunchedTaken(s: State, id: string, b: Begin)
    requires Pending(s) && s.active == "" && s.settings.enabled && |s.queue| > 0 && s.queue[0] == id
    requires id in s.items && s.items[id].status == Queued
    ensures Inv(Launched(Taken(s), id, b))
  {
    var r := Launched(Taken(s), id, b);
    assert s.items[id].direction == Outgoing;
    assert r.items[id].status == Negotiating;
    assert forall x :: x in s.queue ==> x == id || x in r.queue;
    assert forall x :: x in r.items && x != id ==> r.items[x] == s.items[x];
  }

  /** A queue entry that startNextOutgoing passes over. */
  ghost predicate PassedOver(s: State, id: string, env: Env) {
    id !in s.items || s.items[id].status != Queued || Refuses(s.settings, env(id))
  }

  /** What one call of startNextOutgoing does to the queue: it consumes a prefix, passes over every
      entry that is stale or cannot begin, and starts the first one that can. */
  lemma {:induction false} StartNextOrder(s: State, env: Env)
    requires s.active == "" && s.settings.enabled && "" !in s.items
    ensures exists k: nat :: TookTurn(s, env, StartNext(s, env), k)
    decreases |s.queue|
  {
    var r := StartNext(s, env);
    if s.queue == [] {
      assert TookTurn(s, env, r, 0);
    } else if PassedOver(s, s.queue[0], env) {
      var next := Skipped(s, env);
      SkippedKeeps(s, env);
      hide PassedOver, Skipped, StartNext;
      StartNextOrder(next, env);
      var k: nat :| TookTurn(next, env, r, k);
      TurnAfterSkip(s, env, next, r, k);
    } else {
      assert TookTurn(s, env, r, 1);
    }
  }

  /** The first `k` entries were used up: all of them in vain, or all but the last, which holds the
      slot and was announced by one message. */
  ghost predicate TookTurn(s: State, env: Env, r: State, k: nat) {
    && k <= |s.queue|
    && r.queue == s.queue[k..]
    && if r.active == "" then
         && k == |s.queue|
         && r.sent == s.sent
         && forall j :: 0 <= j < k ==> PassedOver(s, s.queue[j], env)
       else
         && k > 0
         && r.active == s.queue[k - 1]
         && !PassedOver(s, r.active, env)
         && (forall j :: 0 <= j < k - 1 ==> PassedOver(s, s.queue[j], env))
         && |r.sent| == |s.sent| + 1 && r.sent[..|s.sent|] == s.sent
  }

  lemma TurnAfterSkip(s: State, env: Env, next: State, r: State, k: nat)
    requires s.queue != [] && PassedOver(s, s.queue[0], env) && next.queue == s.queue[1..] && next.sent == s.sent
    requires forall x :: PassedOver(next, x, env) <==> PassedOver(s, x, env)
    requires TookTurn(next, env, r, k)
    ensures TookTurn(s, env, r, k + 1)
  {
    hide PassedOver;
    assert s.queue[1..][k..] == s.queue[k + 1..];
    assert forall j :: 0 < j < |s.queue| ==> s.queue[j] == next.queue[j - 1];
  }

  /** The state after the head of the queue was passed over. */
  ghost function Skipped(s: State, env: Env): State
    requires s.queue != [] && PassedOver(s, s.queue[0], env)
  {
    var id := s.queue[0];
    var popped := s.(queue := s.queue[1..]);
    if id !in s.items || s.items[id].status != Queued then popped
    else Idled(Rejected(popped.(active := id), id, env(id)), id)
  }

  lemma SkippedKeeps(s: State, env: Env)
    requires s.active == "" && s.settings.enabled && "" !in s.items
    requires s.queue != [] && PassedOver(s, s.queue[0], env)
    ensures var n := Skipped(s, env);
            && n.queue == s.queue[1..] && n.active == "" && n.settings == s.settings && n.sent == s.sent && "" !in n.items
            && StartNext(s, env) == StartNext(n, env)
            && (forall x :: PassedOver(n, x, env) <==> PassedOver(s, x, env))
  {
    var n := Skipped(s, env);
    assert forall x :: x in s.items && x != s.queue[0] ==> x in n.items && n.items[x] == s.items[x];
  }

  lemma FinishedItemOk(t: Transfer, canceled: bool, partialExists: bool)
    requires CountersOk(t) && ShapeOk(t)
    ensures var u := FinishedItem(t, canceled, partialExists);
            CountersOk(u) && ShapeOk(u) && !u.status.Active() && u.direction == t.direction
  {
  }

  lemma FinishedPending(s: State, id: string, canceled: bool, partialExists: bool)
    requires Pending(s) && id in s.items
    ensures Pending(Idled(Finished(s, id, canceled, partialExists), id))
  {
    FinishedItemOk(s.items[id], canceled, partialExists);
    ReplacedPending(s, id, FinishedItem(s.items[id], canceled, partialExists));
  }

  /** Replacing one record by an inactive one and freeing its slot and worker. */
  lemma ReplacedSteady(s: State, id: string, t: Transfer)
    requires Steady(s) && id in s.items
    requires CountersOk(t) && ShapeOk(t) && !t.status.Active()
    ensures Steady(Idled(s.(items := s.items[id := t], workers := s.workers - {id}), id))
  {
    hide CountersOk, ShapeOk;
    var r := Idled(s.(items := s.items[id := t], workers := s.workers - {id}), id);
    assert forall x :: x in r.items && x != id ==> r.items[x] == s.items[x];
    assert !Occupies(r.items[id]);
  }

  lemma ReplacedPending(s: State, id: string, t: Transfer)
    requires Pending(s) && id in s.items
    requires CountersOk(t) && ShapeOk(t) && !t.status.Active()
    ensures Pending(Idled(s.(items := s.items[id := t], workers := s.workers - {id}), id))
  {
    ReplacedSteady(s, id, t);
    hide Steady, CountersOk, ShapeOk;
  }

  lemma FinishInv(s: State, id: string, canceled: bool, partialExists: bool, env: Env)
    requires Pending(s) && (id !in s.items ==> Busyness(s))
    ensures Inv(FinishWithError(s, id, canceled, partialExists, env))
  {
    if id in s.items {
      FinishedPending(s, id, canceled, partialExists);
      StartNextInv(Idled(Finished(s, id, canceled, partialExists), id), env);
    }
  }

  lemma CompleteInv(s: State, id: string, env: Env)
    requires Inv(s)
    ensures Inv(Complete(s, id, env))
  {
    if id in s.items && s.items[id].status == Transferring {
      var done := s.(items := s.items[id := CompletedItem(s.items[id])], workers := s.workers - {id});
      var r := Idled(done, id);
      assert forall x :: x in r.items && x != id ==> r.items[x] == s.items[x];
      StartNextInv(r, env);
    }
  }

  lemma CanceledItemOk(t: Transfer)
    requires CountersOk(t) && ShapeOk(t) && (t.status.Active() || t.status == Resumable)
    ensures var u := CanceledItem(t);
            CountersOk(u) && ShapeOk(u) && !u.status.Active() && u.direction == t.direction
  {
  }

  lemma CanceledSteady(s: State, id: string)
    requires Steady(s) && CanCancel(s, id)
    ensures Steady(Idled(CanceledState(s, id), id))
  {
    CanceledItemOk(s.items[id]);
    var t := CanceledItem(s.items[id]);
    hide CountersOk, ShapeOk, CanceledItem;
    ReplacedSteady(s, id, t);
    var r := Idled(s.(items := s.items[id := t], workers := s.workers - {id}), id);
    assert Idled(CanceledState(s, id), id) == r.(queue := RemoveFirst(s.queue, id));
    hide RemoveFirst, ItemsOk, SlotOk, Attended;
  }

  lemma CancelInv(s: State, id: string, env: Env)
    requires Inv(s)
    ensures Inv(Cancel(s, id, env))
  {
    if CanCancel(s, id) {
      CanceledSteady(s, id);
      var r := Idled(CanceledState(s, id), id);
      assert forall x :: x in r.items && x != id ==> r.items[x] == s.items[x];
      StartNextInv(r, env);
    }
  }

  lemma ShutCancel(s: State, id: string, env: Env)
    requires Steady(s) && !s.settings.enabled
    ensures var r := Cancel(s, id, env);
            && Steady(r) && r.settings == s.settings && r.items.Keys == s.items.Keys
            && (id in s.items ==> !r.items[id].status.Active())
            && (forall x :: x in s.items && x != id ==> r.items[x] == s.items[x])
  {
    if CanCancel(s, id) {
      assert CountersOk(s.items[id]) && ShapeOk(s.items[id]);
      CanceledSteady(s, id);
      CanceledItemOk(s.items[id]);
      hide Steady, CanceledItem, CountersOk, ShapeOk;
      assert Cancel(s, id, env) == Idled(CanceledState(s, id), id);
    }
  }

  /** With the gate shut, canceling the listed transfers leaves nothing active. */
  lemma {:induction false} CancelEachQuiets(s: State, ids: seq<string>, env: Env)
    requires Steady(s) && !s.settings.enabled && ListsActive(s, ids)
    ensures Inv(CancelEach(s, ids, env))
    decreases |ids|
  {
    hide Steady, Cancel, NothingQueued;
    if ids != [] {
      ShutCancel(s, ids[0], env);
      assert forall x :: x in ids ==> x == ids[0] || x in ids[1..];
      CancelEachQuiets(Cancel(s, ids[0], env), ids[1..], env);
    }
  }

  lemma {:induction false} EnqueuedPending(s: State, networkID: int, peer: string, files: seq<File>)
    requires Pending(s) && s.settings.enabled && FreshFiles(s, files)
    ensures Pending(Enqueued(s, networkID, peer, files))
    decreases |files|
  {
    if files == [] {
    } else {
      var f := files[0];
      var r := s.(items := s.items[f.id := NewOutgoing(networkID, peer, f)], queue := s.queue + [f.id]);
      assert forall x :: x in s.queue ==> x in r.queue;
      assert f.id == r.queue[|r.queue| - 1];
      assert s.active != f.id;
      assert forall x :: x in r.items && x != f.id ==> r.items[x] == s.items[x];
      assert FreshFiles(r, files[1..]) by {
        forall k | 0 <= k < |files[1..]| ensures files[1..][k].id !in r.items {
          assert files[1..][k] == files[k + 1];
        }
      }
      EnqueuedPending(r, networkID, peer, files[1..]);
    }
  }

  lemma RequeuedPending(s: State, id: string)
    requires Inv(s) && CanRetry(s, id, true)
    ensures Pending(Requeued(s, id))
  {
    var r := Requeued(s, id);
    assert forall x :: x in s.queue ==> x in r.queue;
    assert id == r.queue[|r.queue| - 1];
    assert forall x :: x in r.items && x != id ==> r.items[x] == s.items[x];
  }

  lemma BeginReceiveInv(s: State, id: string, offer: Offer, r: ReceiveEnv, env: Env)
    requires Pending(s) && Busyness(s) && id in s.items
    ensures Inv(BeginReceive(s, id, offer, r, env))
  {
    if ReceiveRefuses(s, offer, r) {
      FinishInv(s, id, false, r.partialExists, env);
    }
  }

  /** Replacing one incoming record, or one that keeps direction and status, keeps the invariant. */
  lemma TouchedInv(s: State, id: string, t: Transfer, workers: map<string, Worker>, offers: map<string, Offer>, sent: seq<Control>)
    requires Inv(s) && s.settings.enabled && id != ""
    requires s.workers.Keys <= workers.Keys
    requires CountersOk(t) && ShapeOk(t)
    requires t.direction == Incoming || (id in s.items && s.items[id].direction == Outgoing && s.items[id].status == t.status)
    requires t.direction == Incoming && id in s.items ==> s.items[id].direction == Incoming
    ensures Inv(s.(items := s.items[id := t], workers := workers, offers := offers, sent := sent))
  {
    var r := s.(items := s.items[id := t], workers := workers, offers := offers, sent := sent);
    assert forall x :: x in r.items && x != id ==> x in s.items && r.items[x] == s.items[x];
    assert r.items[id] == t;
  }

  lemma SendMessageInv(s: State, networkID: int, peer: string, o: Offer, e: ControlEnv)
    requires Inv(s) && s.settings.enabled && o.command == Send && Possible(s, Message(networkID, peer, o, e))
    ensures Inv(HandleControl(s, networkID, peer, o, e))
  {
    var id := if o.token != "" && o.port > 0 then FirstMatch(e.order, PassiveReplies(s.items, networkID, peer, o)) else "";
    if id != "" {
      TouchedInv(s, id, s.items[id].(address := o.address, port := o.port), s.workers[id := DialSend(o.port, o.token)], s.offers, s.sent);
    } else {
      AddIncomingInv(s, networkID, peer, o, e);
    }
  }

  lemma AddIncomingInv(s: State, networkID: int, peer: string, o: Offer, e: ControlEnv)
    requires Inv(s) && s.settings.enabled && Possible(s, Message(networkID, peer, o, e))
    ensures Inv(AddIncoming(s, networkID, peer, o, e.order, e.newId))
  {
    var id := FirstMatch(e.order, Reoffers(s.items, networkID, peer, o));
    if id != "" {
      TouchedInv(s, id, s.items[id].(address := o.address, port := o.port, token := o.token, status := Offered),
                 s.workers, s.offers[id := o], s.sent);
    } else {
      TouchedInv(s, e.newId, NewIncoming(networkID, peer, o), s.workers, s.offers[e.newId := o], s.sent);
    }
  }

  lemma ResumeMessageInv(s: State, networkID: int, peer: string, o: Offer, e: ControlEnv)
    requires Inv(s) && s.settings.enabled && Possible(s, Message(networkID, peer, o, e))
    ensures Inv(HandleResumeRequest(s, networkID, peer, o, e.order, e.delivered))
  {
    var id := FirstMatch(e.order, ResumeRequests(s.items, networkID, peer, o));
    if id != "" && o.position <= s.items[id].totalBytes {
      var t := s.items[id].(resumeOffset := o.position, transferredBytes := o.position);
      TouchedInv(s, id, t, s.workers, s.offers, Resumed(s, id, networkID, peer, o, e.delivered).sent);
    }
  }

  lemma MessageInv(s: State, networkID: int, peer: string, o: Offer, e: ControlEnv)
    requires Inv(s) && Possible(s, Message(networkID, peer, o, e))
    ensures Inv(HandleControl(s, networkID, peer, o, e))
  {
    if s.settings.enabled {
      match o.command
      case Send => SendMessageInv(s, networkID, peer, o, e);
      case Resume => ResumeMessageInv(s, networkID, peer, o, e);
      case Accept =>
        var id := FirstMatch(e.order, ResumeAccepts(s.items, networkID, peer, o));
        if id != "" {
          BeginReceiveInv(s, id, OfferOf(s, id), e.receive, e.begin);
        }
      case Chat =>
    }
  }

  lemma AcceptPartialInv(s: State, id: string, e: AcceptEnv, env: Env)
    requires Inv(s) && s.settings.enabled && id in s.items && s.items[id].direction == Incoming && s.items[id].hasPartial
    requires e.partial.PartialFile? ==> 0 <= e.partial.size
    ensures Inv(AcceptPartial(s, id, e, env))
  {
    if PartialUsable(s.items[id], e) {
      var offset := OffsetOf(e.partial);
      var t := AcceptedItem(s.items[id], offset);
      var connecting := s.(items := s.items[id := t]);
      TouchedInv(s, id, t, s.workers, s.offers, s.sent);
      hide Steady;
      if offset > 0 {
        if e.delivered {
          TouchedInv(connecting, id, t, s.workers, s.offers, s.sent + [Control(t.networkID, t.peer, ResumeQuestion(t, OfferOf(s, id), offset))]);
        } else {
          FinishInv(connecting, id, false, e.receive.partialExists, env);
        }
      } else {
        BeginReceiveInv(connecting, id, OfferOf(s, id), e.receive, env);
      }
    }
  }

  lemma AcceptInv(s: State, id: string, e: AcceptEnv, env: Env)
    requires Inv(s) && Possible(s, AcceptItem(id, e, env))
    ensures Inv(AcceptTransfer(s, id, e, env))
  {
    if CanAccept(s, id, e) {
      var t := s.items[id].(hasPartial := true);
      TouchedInv(s, id, t, s.workers, s.offers, s.sent);
      hide Steady;
      AcceptPartialInv(s.(items := s.items[id := t]), id, e, env);
    }
  }

  lemma SettingsInv(s: State, settings: Settings, cancelActive: bool, ids: seq<string>, env: Env)
    requires Inv(s) && ListsActive(s, ids)
    ensures Inv(UpdateSettings(s, settings, cancelActive, ids, env))
  {
    if settings.enabled {
      if !s.settings.enabled {
        assert forall x :: x in s.items ==> !s.items[x].status.Active();
      }
    } else if cancelActive {
      CancelEachQuiets(s.(settings := settings), ids, env);
    }
  }

  lemma QueueInv(s: State, networkID: int, peer: string, files: seq<File>, env: Env)
    requires Inv(s) && FreshFiles(s, files)
    ensures Inv(QueueOutgoing(s, networkID, peer, files, env))
  {
    if s.settings.enabled && files != [] && Selectable(files) {
      EnqueuedPending(s, networkID, peer, files);
      StartNextInv(Enqueued(s, networkID, peer, files), env);
    }
  }

  lemma RetryInv(s: State, id: string, available: bool, env: Env)
    requires Inv(s)
    ensures Inv(Retry(s, id, available, env))
  {
    if CanRetry(s, id, available) {
      RequeuedPending(s, id);
      StartNextInv(Requeued(s, id), env);
    }
  }

  lemma ForgetInv(s: State, r: State)
    requires Inv(s)
    requires r == s.(items := r.items, offers := r.offers)
    requires forall id :: id in r.items ==> id in s.items && r.items[id] == s.items[id]
    requires forall id :: id in s.items && s.items[id].direction == Outgoing && s.items[id].status.Active() ==> id in r.items
    ensures Inv(r)
  {
  }

  lemma WorkerReportInv(s: State, id: string, t: Transfer)
    requires Inv(s) && id in s.items && CountersOk(t) && ShapeOk(t) && t.direction == s.items[id].direction
    requires s.items[id].status == Negotiating || s.items[id].status == Connecting || s.items[id].status == Transferring
    requires t.status == Transferring
    ensures Inv(s.(items := s.items[id := t]))
  {
    var r := s.(items := s.items[id := t]);
    assert forall x :: x in r.items && x != id ==> r.items[x] == s.items[x];
  }

  lemma ProgressInv(s: State, id: string, transferred: int)
    requires Inv(s) && (id in s.items ==> 0 <= transferred <= s.items[id].totalBytes)
    ensures Inv(Progress(s, id, transferred))
  {
    if id in s.items && s.items[id].status == Transferring {
      WorkerReportInv(s, id, s.items[id].(transferredBytes := transferred));
    }
  }

  lemma DeclineInv(s: State, id: string)
    requires Inv(s)
    ensures Inv(Decline(s, id))
  {
    if id in s.items && s.items[id].status == Offered {
      var t := s.items[id].(status := Declined);
      assert CountersOk(t) && ShapeOk(t);
      hide CountersOk, ShapeOk;
      assert s.items[id].direction == Incoming;
      var r := s.(items := s.items[id := t]);
      assert forall x :: x in r.items && x != id ==> r.items[x] == s.items[x];
    }
  }

  /** Every step keeps the invariant. */
  lemma StepInv(s: State, step: Step)
    requires Inv(s) && Possible(s, step)
    ensures Inv(Apply(s, step))
  {
    match step
    case QueueFiles(n, peer, files, env) => QueueInv(s, n, peer, files, env);
    case RetryItem(id, available, env) => RetryInv(s, id, available, env);
    case CancelItem(id, env) => CancelInv(s, id, env);
    case ChangeSettings(settings, cancelActive, ids, env) => SettingsInv(s, settings, cancelActive, ids, env);
    case CloseManager(ids, env) => CancelEachQuiets(s.(settings := s.settings.(enabled := false)), ids, env);
    case Message(n, peer, offer, e) => MessageInv(s, n, peer, offer, e);
    case AcceptItem(id, e, env) => AcceptInv(s, id, e, env);
    case DeclineItem(id) => DeclineInv(s, id);
    case Discard(id) => ForgetInv(s, DiscardPartial(s, id));
    case Forget(id) => ForgetInv(s, RemoveHistory(s, id));
    case ForgetAll => ForgetInv(s, ClearHistory(s));
    case WorkerConnected(id) =>
      if MarkTransferring(s, id) != s {
        WorkerReportInv(s, id, s.items[id].(status := Transferring));
      }
    case WorkerProgress(id, n) => ProgressInv(s, id, n);
    case WorkerDone(id, env) => CompleteInv(s, id, env);
    case WorkerFailed(id, canceled, exists_, env) => FinishInv(s, id, canceled, exists_, env);
  }

  // ---------------------------------------------------------------- whole runs

  ghost function Run(s: State, steps: seq<Step>): State
    decreases |steps|
  {
    if steps == [] then s else Run(Apply(s, steps[0]), steps[1..])
  }

  ghost predicate PossibleRun(s: State, steps: seq<Step>)
    decreases |steps|
  {
    steps == [] || (Possible(s, steps[0]) && PossibleRun(Apply(s, steps[0]), steps[1..]))
  }

  /** Records a manager may find in storage when it starts. */
  ghost predicate Storable(stored: seq<Stored>) {
    forall k :: 0 <= k < |stored| ==>
      stored[k].id != "" && CountersOk(stored[k].record) && ShapeOk(stored[k].record)
  }

  ghost predicate AllAtRest(items: map<string, Transfer>) {
    "" !in items && forall id :: id in items ==> CountersOk(items[id]) && ShapeOk(items[id]) && !items[id].status.Active()
  }

  lemma {:induction false} RestoreEachAtRest(items: map<string, Transfer>, stored: seq<Stored>)
    requires AllAtRest(items) && Storable(stored)
    ensures AllAtRest(RestoreEach(items, stored))
    decreases |stored|
  {
    if stored != [] {
      RestoreEachAtRest(items[stored[0].id := RestoredItem(stored[0].record)], stored[1..]);
    }
  }

  lemma RestoredInv(settings: Settings, stored: seq<Stored>)
    requires Storable(stored)
    ensures Inv(Restored(settings, stored))
  {
    RestoreEachAtRest(map[], stored);
  }

  lemma {:induction false} RunInv(s: State, steps: seq<Step>)
    requires Inv(s) && PossibleRun(s, steps)
    ensures Inv(Run(s, steps))
    decreases |steps|
  {
    if steps != [] {
      StepInv(s, steps[0]);
      RunInv(Apply(s, steps[0]), steps[1..]);
    }
  }

  /** The scheduler in every reachable state: at most one outgoing transfer is under way and it is
      the one in the slot; nothing waits while the slot is free; nothing at all is active while
      transfers are turned off. */
  lemma SchedulerSafety(settings: Settings, stored: seq<Stored>, steps: seq<Step>)
    requires Storable(stored) && PossibleRun(Restored(settings, stored), steps)
    ensures var s := Run(Restored(settings, stored), steps);
            && (forall id :: id in s.items ==> (Occupies(s.items[id]) <==> s.active == id))
            && (forall id :: id in s.items && s.items[id].status == Queued ==>
                  id in s.queue && s.settings.enabled && s.active != "")
            && (s.active != "" ==> s.active in s.items && Occupies(s.items[s.active]) && s.active in s.workers)
            && (!s.settings.enabled ==> s.active == "" && forall id :: id in s.items ==> !s.items[id].status.Active())
  {
    RestoredInv(settings, stored);
    RunInv(Restored(settings, stored), steps);
  }

  /** Byte accounting in every reachable state. */
  lemma CounterSafety(settings: Settings, stored: seq<Stored>, steps: seq<Step>)
    requires Storable(stored) && PossibleRun(Restored(settings, stored), steps)
    ensures var s := Run(Restored(settings, stored), steps);
            forall id :: id in s.items ==>
              var t := s.items[id];
              && 0 <= t.resumeOffset <= t.totalBytes
              && 0 <= t.transferredBytes <= t.totalBytes
              && (t.direction == Incoming && t.status == Completed ==> t.transferredBytes == t.totalBytes)
              && (t.status == Resumable ==> t.resumable)
  {
    RestoredInv(settings, stored);
    RunInv(Restored(settings, stored), steps);
  }

  /** A finished upload is not safe from a late RESUME: handleResumeRequest looks at no status, so
      the record stays Completed while its byte count moves to the requested position. It still
      shows the whole file exactly when the request asked for the end of the file. */
  lemma LateResumeMovesCompletedCount(s: State, id: string, networkID: int, peer: string, o: Offer, e: ControlEnv)
    requires s.settings.enabled && o.command == Resume
    requires id != "" && FirstMatch(e.order, ResumeRequests(s.items, networkID, peer, o)) == id
    requires s.items[id].status == Completed && 0 <= o.position <= s.items[id].totalBytes
    ensures var r := HandleControl(s, networkID, peer, o, e);
            && r.items[id].status == Completed
            && (r.items[id].transferredBytes == r.items[id].totalBytes <==> o.position == s.items[id].totalBytes)
  {
  }
}
