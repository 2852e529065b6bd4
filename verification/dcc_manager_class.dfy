/** internal/dcc/manager.go in its own form: one object whose methods update its maps, its queue
    and its slot in place. Every method is proved against the function of module DccManager that
    says what it does to the whole state, so the safety results of module DccScheduler hold of
    the object. A method runs as one atomic step. */
module DccManagerClass {
  import opened DccTypes
  import opened DccNames
  import M = DccManager
  import P = DccProtocol
  import W = DccWire

  class Manager {
    var settings: M.Settings
    var items: map<string, Transfer>
    var cancels: map<string, M.Worker>
    var offers: map<string, Offer>
    var outgoingQueue: seq<string>
    var outgoingActive: string
    var sent: seq<M.Control>

    ghost function View(): M.State
      reads this
    {
      M.State(settings, items, offers, cancels, outgoingQueue, outgoingActive, sent)
    }

    /** `order` is the order in which a range over `items` meets its keys. */
    ghost predicate Iterates(order: seq<string>)
      reads this
    {
      forall id :: id in items ==> id in order
    }

    constructor (settings: M.Settings)
      ensures View() == M.Restored(settings, [])
    {
      this.settings := settings;
      items, cancels, offers := map[], map[], map[];
      outgoingQueue, outgoingActive, sent := [], "", [];
    }

    method Restore(stored: seq<M.Stored>)
      modifies this
      ensures View() == old(View()).(items := M.RestoreEach(old(items), stored))
    {
      for i := 0 to |stored|
        invariant View() == old(View()).(items := items)
        invariant M.RestoreEach(items, stored[i..]) == M.RestoreEach(old(items), stored)
      {
        assert stored[i..][1..] == stored[i + 1..];
        var t := stored[i].record;
        if t.status.Active() {
          if t.direction == Incoming && t.hasPartial && t.transferredBytes > 0 {
            t := t.(status := Resumable, resumable := true);
          } else {
            t := t.(status := Failed);
          }
        }
        items := items[stored[i].id := t];
      }
      assert stored[|stored|..] == [];
    }

    // -------------------------------------------------------------- outgoing scheduler

    method StartNextOutgoing(env: M.Env)
      modifies this
      ensures View() == M.StartNext(old(View()), env)
      decreases |outgoingQueue|, 0
    {
      if outgoingActive != "" || |outgoingQueue| == 0 || !settings.enabled {
        return;
      }
      var id := outgoingQueue[0];
      if id in items && items[id].status == Queued {
        M.StartNextBegins(View(), env);
      }
      outgoingQueue := outgoingQueue[1..];
      if id !in items || items[id].status != Queued {
        StartNextOutgoing(env);
        return;
      }
      outgoingActive := id;
      items := items[id := items[id].(status := Negotiating)];
      if settings.UsesPassive() {
        BeginPassiveOutgoing(id, env);
        return;
      }
      BeginClassicOutgoing(id, env);
    }

    method BeginClassicOutgoing(id: string, env: M.Env)
      modifies this
      ensures View() == M.BegunClassic(old(View()), id, env)
      decreases |outgoingQueue|, 3
    {
      if id !in items || items[id].status != Negotiating {
        return;
      }
      var t := items[id];
      if settings.advertised == "" {
        FinishWithError(id, false, false, env);
        return;
      }
      var begun := env(id);
      if !begun.listens {
        FinishWithError(id, false, false, env);
        return;
      }
      if !settings.enabled {
        return;
      }
      if begun.address == "" {
        FinishWithError(id, false, false, env);
        return;
      }
      items := items[id := items[id].(port := begun.port, address := begun.address)];
      if !begun.delivered {
        FinishWithError(id, false, false, env);
        return;
      }
      sent := sent + [M.Control(t.networkID, t.peer, Offer(Send, t.filename, begun.address, begun.port, t.totalBytes, 0, "", begun.port == 0))];
      cancels := cancels[id := M.ListenSend(begun.port)];
    }

    method BeginPassiveOutgoing(id: string, env: M.Env)
      modifies this
      ensures View() == M.BegunPassive(old(View()), id, env)
      decreases |outgoingQueue|, 3
    {
      if id !in items || items[id].status != Negotiating {
        return;
      }
      var t := items[id].(token := env(id).token, port := 0, address := "0");
      items := items[id := t];
      if !env(id).delivered {
        FinishWithError(id, false, false, env);
        return;
      }
      sent := sent + [M.Control(t.networkID, t.peer, Offer(Send, t.filename, "0", 0, t.totalBytes, 0, t.token, true))];
      cancels := cancels[id := M.AwaitPeer(t.token)];
    }

    method AdvanceOutgoing(id: string, env: M.Env)
      modifies this
      ensures View() == M.Advance(old(View()), id, env)
      decreases |outgoingQueue|, 1
    {
      if outgoingActive == id {
        outgoingActive := "";
      }
      StartNextOutgoing(env);
    }

    /** finishWithError, and fail, which calls it with a context that was not canceled. */
    method FinishWithError(id: string, canceled: bool, partialExists: bool, env: M.Env)
      modifies this
      ensures View() == M.FinishWithError(old(View()), id, canceled, partialExists, env)
      decreases |outgoingQueue|, 2
    {
      if id !in items {
        return;
      }
      var t := items[id];
      if canceled {
        t := t.(status := Canceled);
      } else {
        t := t.(status := Failed);
      }
      if t.direction == Incoming && t.hasPartial && t.transferredBytes > 0 {
        if partialExists {
          t := t.(status := Resumable, resumable := true);
        }
      }
      items := items[id := t];
      cancels := cancels - {id};
      AdvanceOutgoing(id, env);
    }

    method MarkTransferring(id: string) returns (marked: bool)
      modifies this
      ensures View() == M.MarkTransferring(old(View()), id)
      ensures marked <==> id in old(items) && (old(items)[id].status == Negotiating || old(items)[id].status == Connecting)
    {
      if id in items && (items[id].status == Negotiating || items[id].status == Connecting) {
        items := items[id := items[id].(status := Transferring)];
        return true;
      }
      return false;
    }

    method Progress(id: string, transferred: int)
      modifies this
      ensures View() == M.Progress(old(View()), id, transferred)
    {
      if id !in items || items[id].status != Transferring {
        return;
      }
      items := items[id := items[id].(transferredBytes := transferred)];
    }

    method Complete(id: string, env: M.Env)
      modifies this
      ensures View() == M.Complete(old(View()), id, env)
    {
      if id !in items || items[id].status != Transferring {
        return;
      }
      var t := items[id].(status := Completed);
      t := t.(transferredBytes := t.totalBytes, resumable := false);
      if t.direction == Incoming {
        t := t.(fileAvailable := true);
      }
      items := items[id := t];
      cancels := cancels - {id};
      AdvanceOutgoing(id, env);
    }

    method Cancel(id: string, env: M.Env) returns (ok: bool)
      modifies this
      ensures View() == M.Cancel(old(View()), id, env)
      ensures ok == M.CanCancel(old(View()), id)
    {
      if id !in items || (!items[id].status.Active() && items[id].status != Resumable) {
        return false;
      }
      var i := 0;
      while i < |outgoingQueue|
        invariant 0 <= i <= |outgoingQueue|
        invariant View() == old(View())
        invariant id !in outgoingQueue[..i]
      {
        if outgoingQueue[i] == id {
          RemoveFirstAt(outgoingQueue, id, i);
          outgoingQueue := outgoingQueue[..i] + outgoingQueue[i + 1..];
          break;
        }
        i := i + 1;
      }
      var t := items[id].(status := Canceled);
      if t.direction == Incoming && t.hasPartial && t.transferredBytes > 0 {
        t := t.(status := Resumable, resumable := true);
      }
      items := items[id := t];
      cancels := cancels - {id};
      AdvanceOutgoing(id, env);
      return true;
    }

    static lemma {:induction false} RemoveFirstAt(q: seq<string>, id: string, i: nat)
      requires i < |q| && q[i] == id && id !in q[..i]
      ensures M.RemoveFirst(q, id) == q[..i] + q[i + 1..]
      decreases i
    {
      if i == 0 {
        assert q[..0] + q[1..] == q[1..];
      } else {
        assert q[0] in q[..i];
        assert q[1..][..i - 1] == q[..i][1..];
        RemoveFirstAt(q[1..], id, i - 1);
        assert [q[0]] + (q[1..][..i - 1] + q[1..][i..]) == q[..i] + q[i + 1..];
      }
    }

    method CollectActive(order: seq<string>) returns (ids: seq<string>)
      ensures ids == M.ActiveIds(View(), order)
    {
      ids := [];
      for i := 0 to |order|
        invariant ids + M.ActiveIds(View(), order[i..]) == M.ActiveIds(View(), order)
      {
        assert order[i..][1..] == order[i + 1..];
        if order[i] in items && items[order[i]].status.Active() {
          ids := ids + [order[i]];
        }
      }
      assert order[|order|..] == [];
    }

    method CancelAll(order: seq<string>, env: M.Env)
      modifies this
      ensures View() == M.CancelEach(old(View()), M.ActiveIds(old(View()), order), env)
    {
      var ids := CollectActive(order);
      var i := 0;
      while i < |ids|
        invariant 0 <= i <= |ids|
        invariant M.CancelEach(View(), ids[i..], env) == M.CancelEach(old(View()), ids, env)
      {
        assert ids[i..][0] == ids[i] && ids[i..][1..] == ids[i + 1..];
        var _ := Cancel(ids[i], env);
        i := i + 1;
      }
      assert ids[|ids|..] == [];
    }

    method QueueOutgoing(networkID: int, peer: string, files: seq<M.File>, env: M.Env) returns (ok: bool)
      modifies this
      ensures View() == M.QueueOutgoing(old(View()), networkID, peer, files, env)
      ensures ok <==> old(settings).enabled && M.Selectable(files)
    {
      if !settings.enabled {
        return false;
      }
      if |files| == 0 {
        return true;
      }
      for i := 0 to |files|
        invariant View() == old(View())
        invariant M.Selectable(files[..i])
      {
        if !files[i].regular || !SafeFilename(files[i].name) {
          return false;
        }
      }
      for i := 0 to |files|
        invariant M.Enqueued(View(), networkID, peer, files[i..]) == M.Enqueued(old(View()), networkID, peer, files)
      {
        assert files[i..][1..] == files[i + 1..];
        items := items[files[i].id := M.NewOutgoing(networkID, peer, files[i])];
        outgoingQueue := outgoingQueue + [files[i].id];
      }
      assert files[|files|..] == [];
      StartNextOutgoing(env);
      return true;
    }

    method Retry(id: string, sourceAvailable: bool, env: M.Env) returns (ok: bool)
      modifies this
      ensures View() == M.Retry(old(View()), id, sourceAvailable, env)
      ensures ok == M.CanRetry(old(View()), id, sourceAvailable)
    {
      if !settings.enabled {
        return false;
      }
      if id !in items || items[id].direction != Outgoing || (items[id].status != Failed && items[id].status != Canceled) {
        return false;
      }
      if !sourceAvailable {
        return false;
      }
      items := items[id := items[id].(status := Queued, transferredBytes := 0, resumeOffset := 0, resumable := false)];
      outgoingQueue := outgoingQueue + [id];
      StartNextOutgoing(env);
      return true;
    }

    method UpdateSettings(changed: M.Settings, cancelActive: bool, order: seq<string>, env: M.Env) returns (ok: bool)
      requires Iterates(order)
      modifies this
      ensures View() == M.UpdateSettings(old(View()), changed, cancelActive, M.ActiveIds(old(View()), order), env)
      ensures !ok <==> !changed.enabled && !cancelActive && M.Busy(old(View()))
    {
      if !changed.enabled {
        var busy := |cancels| > 0 || outgoingActive != "" || |outgoingQueue| > 0;
        if !busy {
          var i := 0;
          while i < |order| && !busy
            invariant 0 <= i <= |order|
            invariant View() == old(View())
            invariant busy ==> exists id :: id in items && items[id].status.Active()
            invariant !busy ==> forall j :: 0 <= j < i ==> order[j] !in items || !items[order[j]].status.Active()
          {
            if order[i] in items && items[order[i]].status.Active() {
              busy := true;
            }
            i := i + 1;
          }
        }
        assert busy <==> M.Busy(View());
        if busy && !cancelActive {
          return false;
        }
        if cancelActive {
          settings := changed;
          SameActive(old(View()), View(), order);
          CancelAll(order, env);
          return true;
        }
      }
      settings := changed;
      return true;
    }

    static lemma {:induction false} SameActive(s: M.State, r: M.State, order: seq<string>)
      requires s.items == r.items
      ensures M.ActiveIds(s, order) == M.ActiveIds(r, order)
      decreases |order|
    {
      if order != [] {
        SameActive(s, r, order[1..]);
      }
    }

    method Close(order: seq<string>, env: M.Env)
      requires Iterates(order)
      modifies this
      ensures View() == M.Close(old(View()), M.ActiveIds(old(View()), order), env)
    {
      settings := settings.(enabled := false);
      SameActive(old(View()), View(), order);
      CancelAll(order, env);
    }

    // -------------------------------------------------------------- control messages

    /** From the payload on; `ip` tells which textual addresses the standard library admits. */
    method HandleControl(ip: P.Texts, networkID: int, peer: string, payload: string, e: M.ControlEnv)
      modifies this
      ensures View() == W.HandlePayload(ip, old(View()), networkID, peer, payload, e)
    {
      if !settings.enabled {
        return;
      }
      var parsed := P.Parse(ip, payload);
      if parsed.Err? {
        return;
      }
      var offer := parsed.value;
      hide P.Parse;
      match offer.command {
        case Send =>
          if offer.token != "" && offer.port > 0 {
            var handled := HandlePassiveResponse(networkID, peer, offer, e.order);
            if handled {
              return;
            }
          }
          AddIncomingOffer(networkID, peer, offer, e.order, e.newId);
        case Resume =>
          var _ := HandleResumeRequest(networkID, peer, offer, e.order, e.delivered);
        case Accept =>
          var _ := HandleResumeAccept(networkID, peer, offer, e.order, e.receive, e.begin);
        case Chat =>
      }
    }

    /** The first key of the iteration whose record satisfies `p`; "" when there is none. */
    method FindItem(order: seq<string>, p: string -> bool) returns (id: string)
      ensures id == M.FirstMatch(order, p)
    {
      id := "";
      var i := 0;
      while i < |order| && id == ""
        invariant 0 <= i <= |order|
        invariant M.FirstMatch(order, p) == if id != "" then id else M.FirstMatch(order[i..], p)
      {
        assert order[i..][1..] == order[i + 1..];
        if order[i] != "" && p(order[i]) {
          id := order[i];
        }
        i := i + 1;
      }
      assert id == "" ==> order[i..] == [];
    }

    method HandlePassiveResponse(networkID: int, peer: string, offer: Offer, order: seq<string>) returns (handled: bool)
      modifies this
      ensures var s := old(View());
              var id := M.FirstMatch(order, M.PassiveReplies(s.items, networkID, peer, offer));
              && (handled <==> s.settings.enabled && id != "")
              && View() == if handled then M.PassiveReply(s, id, offer) else s
    {
      if !settings.enabled {
        return false;
      }
      var id := FindItem(order, M.PassiveReplies(items, networkID, peer, offer));
      if id == "" {
        return false;
      }
      items := items[id := items[id].(address := offer.address, port := offer.port)];
      cancels := cancels - {id};
      cancels := cancels[id := M.DialSend(offer.port, offer.token)];
      assert cancels == old(cancels)[id := M.DialSend(offer.port, offer.token)];
      return true;
    }

    method AddIncomingOffer(networkID: int, peer: string, offer: Offer, order: seq<string>, newId: string)
      modifies this
      ensures View() == M.AddIncoming(old(View()), networkID, peer, offer, order, newId)
    {
      var id := FindItem(order, M.Reoffers(items, networkID, peer, offer));
      if id != "" {
        var existing := items[id].(address := offer.address, port := offer.port, token := offer.token);
        items := items[id := existing.(status := Offered)];
        offers := offers[id := offer];
        return;
      }
      items := items[newId := M.NewIncoming(networkID, peer, offer)];
      offers := offers[newId := offer];
    }

    method HandleResumeRequest(networkID: int, peer: string, offer: Offer, order: seq<string>, delivered: bool) returns (ok: bool)
      modifies this
      ensures View() == M.HandleResumeRequest(old(View()), networkID, peer, offer, order, delivered)
      ensures var id := M.FirstMatch(order, M.ResumeRequests(old(items), networkID, peer, offer));
              ok <==> id != "" && offer.position <= old(items)[id].totalBytes && delivered
    {
      var id := FindItem(order, M.ResumeRequests(items, networkID, peer, offer));
      if id == "" {
        return false;
      }
      if offer.position > items[id].totalBytes {
        return false;
      }
      items := items[id := items[id].(resumeOffset := offer.position, transferredBytes := offer.position)];
      if delivered {
        sent := sent + [M.Control(networkID, peer, M.AcceptAnswer(items[id], offer))];
      }
      return delivered;
    }

    method HandleResumeAccept(networkID: int, peer: string, offer: Offer, order: seq<string>, r: M.ReceiveEnv, env: M.Env) returns (ok: bool)
      modifies this
      ensures View() == M.HandleResumeAccept(old(View()), networkID, peer, offer, order, r, env)
      ensures var id := M.FirstMatch(order, M.ResumeAccepts(old(items), networkID, peer, offer));
              ok <==> id != "" && !M.ReceiveRefuses(old(View()), M.OfferOf(old(View()), id), r)
    {
      var id := FindItem(order, M.ResumeAccepts(items, networkID, peer, offer));
      if id == "" {
        return false;
      }
      var saved := if id in offers then offers[id] else ZERO_OFFER;
      ok := BeginReceiveOrFail(id, saved, r, env);
    }

    method BeginReceiveOrFail(id: string, offer: Offer, r: M.ReceiveEnv, env: M.Env) returns (ok: bool)
      requires id in items
      modifies this
      ensures View() == M.BeginReceive(old(View()), id, offer, r, env)
      ensures ok <==> !M.ReceiveRefuses(old(View()), offer, r)
    {
      ok := BeginReceive(id, offer, r);
      if !ok {
        FinishWithError(id, false, r.partialExists, env);
        FinishForgetsWorker(old(View()), id, offer, r, env);
      }
    }

    /** beginReceive: the worker is registered before the passive listener may fail. */
    method BeginReceive(id: string, offer: Offer, r: M.ReceiveEnv) returns (ok: bool)
      requires id in items
      modifies this
      ensures ok == !M.ReceiveRefuses(old(View()), offer, r)
      ensures ok ==> View() == M.Receiving(old(View()), id, offer, r)
      ensures !ok ==> View() == old(View()).(workers := old(cancels)[id := M.ListenReceive(r.port, offer)])
    {
      if offer.passive {
        cancels := cancels[id := M.ListenReceive(r.port, offer)];
        if settings.advertised == "" || !r.listens || r.address == "" {
          return false;
        }
        if !r.delivered {
          return false;
        }
        sent := sent + [M.Control(items[id].networkID, items[id].peer, M.PassiveAnswer(items[id], offer, r))];
      } else {
        cancels := cancels[id := M.DialReceive(offer)];
      }
      return true;
    }

    /** The worker registered by a beginReceive that fails does not outlive it. */
    static lemma FinishForgetsWorker(s: M.State, id: string, offer: Offer, r: M.ReceiveEnv, env: M.Env)
      requires id in s.items
      ensures M.FinishWithError(s.(workers := s.workers[id := M.ListenReceive(r.port, offer)]), id, false, r.partialExists, env)
              == M.FinishWithError(s, id, false, r.partialExists, env)
    {
      assert s.workers[id := M.ListenReceive(r.port, offer)] - {id} == s.workers - {id};
    }

    // -------------------------------------------------------------- user actions on one transfer

    method Accept(id: string, e: M.AcceptEnv, env: M.Env) returns (ok: bool)
      modifies this
      ensures View() == M.AcceptTransfer(old(View()), id, e, env)
      ensures ok <==> M.CanAccept(old(View()), id, e) && Takes(old(View()), id, e)
    {
      hide M.FinishWithError, M.BeginReceive, M.StartNext, M.Advance;
      if !settings.enabled {
        return false;
      }
      if id !in items || items[id].direction != Incoming || (items[id].status != Offered && items[id].status != Resumable) {
        return false;
      }
      var offer := if id in offers then offers[id] else ZERO_OFFER;
      if e.destination == "" {
        return false;
      }
      var t := items[id];
      if !t.hasPartial {
        if e.lstat == M.Exists || e.lstat == M.Unreadable {
          return false;
        }
        if !e.directoryReady {
          return false;
        }
        t := t.(hasPartial := true);
      }
      items := items[id := t];
      ok := AcceptWithPartial(id, offer, e, env);
      assert old(items)[id := t][id := M.AcceptedItem(t, M.OffsetOf(e.partial))] == old(items)[id := M.AcceptedItem(old(items)[id], M.OffsetOf(e.partial))];
    }

    /** The partial file can be used, and the peer or the listener could be reached. */
    static predicate Takes(s: M.State, id: string, e: M.AcceptEnv)
      requires id in s.items
    {
      && M.PartialUsable(s.items[id], e)
      && if M.OffsetOf(e.partial) > 0 then e.delivered else !M.ReceiveRefuses(s, M.OfferOf(s, id), e.receive)
    }

    /** The second half of Accept, once the name of the partial file is settled. */
    method AcceptWithPartial(id: string, offer: Offer, e: M.AcceptEnv, env: M.Env) returns (ok: bool)
      requires id in items && items[id].hasPartial && offer == M.OfferOf(View(), id)
      modifies this
      ensures View() == M.AcceptPartial(old(View()), id, e, env)
      ensures ok <==> Takes(old(View()), id, e)
    {
      hide M.FinishWithError, M.BeginReceive, M.StartNext, M.Advance;
      var t := items[id];
      var offset := 0;
      if e.partial.PartialFile? {
        if !e.partial.regular {
          return false;
        }
        offset := e.partial.size;
        if offset > t.totalBytes {
          return false;
        }
      }
      if e.freeSpace < 0 || e.freeSpace < t.totalBytes - offset {
        return false;
      }
      t := t.(resumeOffset := offset, transferredBytes := offset, status := Connecting);
      items := items[id := t];
      if offset > 0 {
        if !e.delivered {
          FinishWithError(id, false, e.receive.partialExists, env);
          return false;
        }
        sent := sent + [M.Control(t.networkID, t.peer, M.ResumeQuestion(t, offer, offset))];
        return true;
      }
      ok := BeginReceiveOrFail(id, offer, e.receive, env);
    }

    method Decline(id: string) returns (ok: bool)
      modifies this
      ensures View() == M.Decline(old(View()), id)
      ensures ok <==> id in old(items) && old(items)[id].status == Offered
    {
      if id !in items || items[id].status != Offered {
        return false;
      }
      items := items[id := items[id].(status := Declined)];
      return true;
    }

    method DiscardPartial(id: string) returns (ok: bool)
      modifies this
      ensures View() == M.DiscardPartial(old(View()), id)
      ensures ok <==> id in old(items) && old(items)[id].resumable && old(items)[id].hasPartial
    {
      if id !in items || !items[id].resumable || !items[id].hasPartial {
        return false;
      }
      items := items - {id};
      offers := offers - {id};
      return true;
    }

    method RemoveHistory(id: string) returns (ok: bool)
      modifies this
      ensures View() == M.RemoveHistory(old(View()), id)
      ensures ok <==> id in old(items) && M.Removable(old(items)[id])
    {
      if id !in items || items[id].status.Active() || items[id].resumable {
        return false;
      }
      items := items - {id};
      return true;
    }

    method ClearHistory(order: seq<string>)
      requires Iterates(order)
      modifies this
      ensures View() == M.ClearHistory(old(View()))
    {
      for i := 0 to |order|
        invariant View() == old(View()).(items := items)
        invariant items == map id | id in old(items) && !(id in order[..i] && M.Removable(old(items)[id])) :: old(items)[id]
      {
        assert order[..i + 1] == order[..i] + [order[i]];
        if order[i] in items && !items[order[i]].status.Active() && !items[order[i]].resumable {
          items := items - {order[i]};
        }
      }
      assert order[..|order|] == order;
    }
  }
}
