/** Uploads take their turn: over whole runs the outgoing slot goes to transfers in the order in which
    they were queued. */
module DccQueueOrder {
  import opened DccTypes
  import opened DccNames
  import opened DccManager
  import opened Scheduler = DccScheduler

  // ---------------------------------------------------------------- subsequences

  predicate Subsequence(a: seq<string>, b: seq<string>)
    decreases |b|
  {
    a == [] || (b != [] && ((a[0] == b[0] && Subsequence(a[1..], b[1..])) || Subsequence(a, b[1..])))
  }

  lemma {:induction false} SubsequenceSelf(a: seq<string>)
    ensures Subsequence(a, a)
    decreases |a|
  {
    if a != [] {
      SubsequenceSelf(a[1..]);
    }
  }

  lemma {:induction false} SubsequenceTail(x: string, a: seq<string>, b: seq<string>)
    requires Subsequence([x] + a, b)
    ensures Subsequence(a, b)
    decreases |b|
  {
    assert ([x] + a)[1..] == a;
    if !(x == b[0] && Subsequence(a, b[1..])) {
      SubsequenceTail(x, a, b[1..]);
    }
  }

  lemma {:induction false} SubsequenceBehind(a: seq<string>, b: seq<string>, c: seq<string>, d: seq<string>)
    requires Subsequence(a, b) && Subsequence(c, d)
    ensures Subsequence(a + c, b + d)
    decreases |b|
  {
    if b == [] {
      assert a + c == c && b + d == d;
    } else {
      assert (b + d)[1..] == b[1..] + d;
      if a != [] && a[0] == b[0] && Subsequence(a[1..], b[1..]) {
        SubsequenceBehind(a[1..], b[1..], c, d);
        assert (a + c)[1..] == a[1..] + c;
      } else {
        SubsequenceBehind(a, b[1..], c, d);
      }
    }
  }

  lemma {:induction false} SubsequenceThrough(a: seq<string>, b: seq<string>, c: seq<string>)
    requires Subsequence(a, b) && Subsequence(b, c)
    ensures Subsequence(a, c)
    decreases |c|
  {
    if a != [] {
      if b[0] == c[0] && Subsequence(b[1..], c[1..]) {
        if a[0] == b[0] && Subsequence(a[1..], b[1..]) {
          SubsequenceThrough(a[1..], b[1..], c[1..]);
        } else {
          SubsequenceThrough(a, b[1..], c[1..]);
        }
      } else {
        SubsequenceThrough(a, b, c[1..]);
      }
    }
  }

  // ---------------------------------------------------------------- one step

  function Ids(files: seq<File>): seq<string> {
    seq(|files|, k requires 0 <= k < |files| => files[k].id)
  }

  /** What a step puts into the queue: the picked files in the order given, or the transfer retried. */
  function Queues(s: State, step: Step): seq<string> {
    match step
    case QueueFiles(_, _, files, _) =>
      if s.settings.enabled && forall k :: 0 <= k < |files| ==> files[k].regular && SafeFilename(files[k].name) then Ids(files) else []
    case RetryItem(id, available, _) =>
      if s.settings.enabled && available && id in s.items && s.items[id].direction == Outgoing
         && (s.items[id].status == Failed || s.items[id].status == Canceled) then [id]
      else []
    case _ => []
  }

  /** The transfer that takes the slot. */
  function Takes(s: State, r: State): seq<string> {
    if r.active != "" && r.active != s.active then [r.active] else []
  }

  ghost predicate Ordered(s: State, r: State, more: seq<string>) {
    Subsequence(Takes(s, r) + r.queue, s.queue + more)
  }

  lemma {:induction false} StartNextOrdered(q: State, env: Env)
    requires q.active == ""
    ensures var r := StartNext(q, env);
            Subsequence((if r.active != "" then [r.active] else []) + r.queue, q.queue)
    decreases |q.queue|
  {
    SubsequenceSelf(q.queue);
    if |q.queue| == 0 || !q.settings.enabled {
      assert [] + q.queue == q.queue;
    } else {
      var id := q.queue[0];
      var popped := q.(queue := q.queue[1..]);
      if id !in q.items || q.items[id].status != Queued {
        StartNextOrdered(popped, env);
      } else if Refuses(q.settings, env(id)) {
        StartNextOrdered(Idled(Rejected(popped.(active := id), id, env(id)), id), env);
      } else if id != "" {
        assert [id] + popped.queue == q.queue;
      } else {
        SubsequenceSelf(popped.queue);
        assert [] + popped.queue == popped.queue;
      }
    }
  }

  /** Any way of changing the queue that ends in the scheduler. */
  lemma Via(s: State, q: State, env: Env, more: seq<string>)
    requires Subsequence(q.queue, s.queue + more) && (q.active == s.active || q.active == "")
    ensures Ordered(s, StartNext(q, env), more)
  {
    var r := StartNext(q, env);
    if q.active != "" {
      assert [] + q.queue == q.queue;
    } else {
      StartNextOrdered(q, env);
      hide StartNext, Subsequence;
      SubsequenceThrough((if r.active != "" then [r.active] else []) + r.queue, q.queue, s.queue + more);
      if r.active != "" && r.active == s.active {
        SubsequenceTail(r.active, r.queue, s.queue + more);
        assert [] + r.queue == r.queue;
      }
    }
  }

  lemma Same(s: State, r: State)
    requires r.queue == s.queue && r.active == s.active
    ensures Ordered(s, r, [])
  {
    SubsequenceSelf(s.queue);
    assert [] + s.queue == s.queue && s.queue + [] == s.queue;
  }

  lemma ViaSame(s: State, q: State, env: Env)
    requires q.queue == s.queue && (q.active == s.active || q.active == "")
    ensures Ordered(s, StartNext(q, env), [])
  {
    SubsequenceSelf(s.queue);
    assert s.queue + [] == s.queue;
    Via(s, q, env, []);
  }

  lemma {:induction false} RemoveFirstIn(q: seq<string>, id: string)
    ensures Subsequence(RemoveFirst(q, id), q)
    decreases |q|
  {
    SubsequenceSelf(q);
    if q != [] {
      SubsequenceSelf(q[1..]);
      RemoveFirstIn(q[1..], id);
    }
  }

  lemma CancelOrdered(s: State, id: string, env: Env)
    ensures Ordered(s, Cancel(s, id, env), [])
  {
    if CanCancel(s, id) {
      RemoveFirstIn(s.queue, id);
      assert s.queue + [] == s.queue;
      Via(s, Idled(CanceledState(s, id), id), env, []);
    } else {
      Same(s, s);
    }
    hide StartNext, Subsequence;
  }

  /** With the gate shut nothing takes the slot. */
  lemma {:induction false} CancelEachOrdered(s: State, ids: seq<string>, env: Env)
    requires !s.settings.enabled
    ensures var r := CancelEach(s, ids, env);
            Subsequence(r.queue, s.queue) && (r.active == s.active || r.active == "")
    decreases |ids|
  {
    SubsequenceSelf(s.queue);
    if ids != [] {
      var c := Cancel(s, ids[0], env);
      if CanCancel(s, ids[0]) {
        RemoveFirstIn(s.queue, ids[0]);
      }
      CancelEachOrdered(c, ids[1..], env);
      SubsequenceThrough(CancelEach(c, ids[1..], env).queue, c.queue, s.queue);
    }
    hide Subsequence;
  }

  lemma ShutOrdered(s: State, r: State)
    requires Subsequence(r.queue, s.queue) && (r.active == s.active || r.active == "")
    ensures Ordered(s, r, [])
  {
    hide Subsequence;
    assert [] + r.queue == r.queue && s.queue + [] == s.queue;
  }

  lemma FinishOrdered(s: State, q: State, id: string, canceled: bool, partialExists: bool, env: Env)
    requires q.queue == s.queue && q.active == s.active
    ensures Ordered(s, FinishWithError(q, id, canceled, partialExists, env), [])
  {
    if id in q.items {
      ViaSame(s, Idled(Finished(q, id, canceled, partialExists), id), env);
    } else {
      Same(s, q);
    }
    hide StartNext, Ordered;
  }

  lemma BeginOrdered(s: State, q: State, id: string, offer: Offer, v: ReceiveEnv, env: Env)
    requires q.queue == s.queue && q.active == s.active && id in q.items
    ensures Ordered(s, BeginReceive(q, id, offer, v, env), [])
  {
    hide FinishWithError, Ordered;
    if ReceiveRefuses(q, offer, v) {
      FinishOrdered(s, q, id, false, v.partialExists, env);
    } else {
      Same(s, Receiving(q, id, offer, v));
    }
  }

  lemma MessageOrdered(s: State, networkID: int, peer: string, o: Offer, e: ControlEnv)
    ensures Ordered(s, HandleControl(s, networkID, peer, o, e), [])
  {
    hide BeginReceive, Ordered;
    var id := FirstMatch(e.order, ResumeAccepts(s.items, networkID, peer, o));
    if s.settings.enabled && o.command == Command.Accept && id != "" {
      BeginOrdered(s, s, id, OfferOf(s, id), e.receive, e.begin);
    } else {
      Same(s, HandleControl(s, networkID, peer, o, e));
    }
  }

  lemma AcceptOrdered(s: State, id: string, e: AcceptEnv, env: Env)
    ensures Ordered(s, AcceptTransfer(s, id, e, env), [])
  {
    hide BeginReceive, FinishWithError, Ordered;
    if CanAccept(s, id, e) && PartialUsable(s.items[id], e) {
      var named := s.(items := s.items[id := s.items[id].(hasPartial := true)]);
      var offset := OffsetOf(e.partial);
      var c := named.(items := named.items[id := AcceptedItem(named.items[id], offset)]);
      if offset > 0 && !e.delivered {
        FinishOrdered(s, c, id, false, e.receive.partialExists, env);
      } else if offset > 0 {
        Same(s, AcceptTransfer(s, id, e, env));
      } else {
        BeginOrdered(s, c, id, OfferOf(named, id), e.receive, env);
      }
    } else {
      Same(s, AcceptTransfer(s, id, e, env));
    }
  }

  lemma {:induction false} EnqueuedQueue(s: State, networkID: int, peer: string, files: seq<File>)
    ensures var r := Enqueued(s, networkID, peer, files);
            r.queue == s.queue + Ids(files) && r.active == s.active
    decreases |files|
  {
    if files == [] {
      assert s.queue + Ids(files) == s.queue;
    } else {
      var f := files[0];
      var one := s.(items := s.items[f.id := NewOutgoing(networkID, peer, f)], queue := s.queue + [f.id]);
      EnqueuedQueue(one, networkID, peer, files[1..]);
      assert Ids(files) == [f.id] + Ids(files[1..]);
      assert s.queue + [f.id] + Ids(files[1..]) == s.queue + ([f.id] + Ids(files[1..]));
    }
  }

  lemma QueueOrdered(s: State, step: Step)
    requires step.QueueFiles?
    ensures Ordered(s, Apply(s, step), Queues(s, step))
  {
    if s.settings.enabled && step.files != [] && Selectable(step.files) {
      EnqueuedQueue(s, step.networkID, step.peer, step.files);
      SubsequenceSelf(s.queue + Ids(step.files));
      Via(s, Enqueued(s, step.networkID, step.peer, step.files), step.env, Ids(step.files));
    } else {
      Same(s, s);
    }
    hide StartNext, Subsequence, Enqueued;
  }

  lemma RetryOrdered(s: State, step: Step)
    requires step.RetryItem?
    ensures Ordered(s, Apply(s, step), Queues(s, step))
  {
    if CanRetry(s, step.id, step.sourceAvailable) {
      SubsequenceSelf(s.queue + [step.id]);
      Via(s, Requeued(s, step.id), step.env, [step.id]);
    } else {
      Same(s, s);
    }
    hide StartNext, Subsequence;
  }

  lemma DoneOrdered(s: State, id: string, env: Env)
    ensures Ordered(s, Complete(s, id, env), [])
  {
    if id in s.items && s.items[id].status == Transferring {
      ViaSame(s, Idled(s.(items := s.items[id := CompletedItem(s.items[id])], workers := s.workers - {id}), id), env);
    } else {
      Same(s, s);
    }
    hide StartNext, Ordered;
  }

  lemma SettingsOrdered(s: State, settings: Settings, cancelActive: bool, ids: seq<string>, env: Env)
    ensures Ordered(s, UpdateSettings(s, settings, cancelActive, ids, env), [])
  {
    hide Ordered, CancelEach, Busy;
    if !settings.enabled && cancelActive {
      CancelEachOrdered(s.(settings := settings), ids, env);
      ShutOrdered(s, CancelEach(s.(settings := settings), ids, env));
    } else {
      Same(s, UpdateSettings(s, settings, cancelActive, ids, env));
    }
  }

  lemma CloseOrdered(s: State, ids: seq<string>, env: Env)
    ensures Ordered(s, Close(s, ids, env), [])
  {
    hide Ordered, CancelEach;
    var shut := s.(settings := s.settings.(enabled := false));
    CancelEachOrdered(shut, ids, env);
    ShutOrdered(s, CancelEach(shut, ids, env));
  }

  /** In every step, what takes the slot and what then waits come, in order, from what waited and what
      the step queued behind it. */
  lemma StepOrdered(s: State, step: Step)
    ensures Ordered(s, Apply(s, step), Queues(s, step))
  {
    hide Ordered, StartNext, HandleControl, AcceptTransfer, FinishWithError, Cancel, UpdateSettings, Close, Complete;
    match step
    case QueueFiles(_, _, _, _) => QueueOrdered(s, step);
    case RetryItem(_, _, _) => RetryOrdered(s, step);
    case CancelItem(id, env) => CancelOrdered(s, id, env);
    case ChangeSettings(settings, cancelActive, ids, env) => SettingsOrdered(s, settings, cancelActive, ids, env);
    case CloseManager(ids, env) => CloseOrdered(s, ids, env);
    case Message(n, peer, o, e) => MessageOrdered(s, n, peer, o, e);
    case AcceptItem(id, e, env) => AcceptOrdered(s, id, e, env);
    case WorkerDone(id, env) => DoneOrdered(s, id, env);
    case WorkerFailed(id, canceled, partialExists, env) => FinishOrdered(s, s, id, canceled, partialExists, env);
    case _ => Same(s, Apply(s, step));
  }

  // ---------------------------------------------------------------- whole runs

  /** Everything a run puts into the queue, in order. */
  ghost function Queuings(s: State, steps: seq<Step>): seq<string>
    decreases |steps|
  {
    if steps == [] then [] else Queues(s, steps[0]) + Queuings(Apply(s, steps[0]), steps[1..])
  }

  /** The transfers that take the slot in the course of a run, in order. */
  ghost function Turns(s: State, steps: seq<Step>): seq<string>
    decreases |steps|
  {
    if steps == [] then [] else Takes(s, Apply(s, steps[0])) + Turns(Apply(s, steps[0]), steps[1..])
  }

  lemma {:induction false} RunOrdered(s: State, steps: seq<Step>)
    ensures Subsequence(Turns(s, steps) + Run(s, steps).queue, s.queue + Queuings(s, steps))
    decreases |steps|
  {
    hide Subsequence, Apply, Queues, Takes;
    if steps == [] {
      SubsequenceSelf(s.queue);
      assert [] + s.queue == s.queue && s.queue + [] == s.queue;
    } else {
      var t := Apply(s, steps[0]);
      var taken, later, left := Takes(s, t), Turns(t, steps[1..]), Run(t, steps[1..]).queue;
      var added, more := Queues(s, steps[0]), Queuings(t, steps[1..]);
      StepOrdered(s, steps[0]);
      RunOrdered(t, steps[1..]);
      SubsequenceSelf(taken);
      SubsequenceSelf(more);
      SubsequenceBehind(taken, taken, later + left, t.queue + more);
      SubsequenceBehind(taken + t.queue, s.queue + added, more, more);
      assert taken + (t.queue + more) == taken + t.queue + more;
      SubsequenceThrough(taken + (later + left), taken + t.queue + more, s.queue + added + more);
      assert taken + (later + left) == taken + later + left;
      assert s.queue + added + more == s.queue + (added + more);
    }
  }

  /** First come, first served: in every run from stored records the transfers that took the slot,
      followed by those that wait, are a subsequence of what was queued, in the order of queueing. */
  lemma TurnsInQueueOrder(settings: Settings, stored: seq<Stored>, steps: seq<Step>)
    ensures var s := Restored(settings, stored);
            Subsequence(Turns(s, steps) + Run(s, steps).queue, Queuings(s, steps))
  {
    var s := Restored(settings, stored);
    RunOrdered(s, steps);
    assert [] + Queuings(s, steps) == Queuings(s, steps);
  }
}
