/** Transfer managers and the text of their messages. What a manager sends is written out by FormatSend
    and FormatResume and parsed by its peer; here both directions are joined to the state machine, over
    whole runs and for any peer. */
module DccWire {
  import opened DccTypes
  import opened DccNames
  import opened DccManager
  import opened DccProtocol
  import opened DccProtocolLaws
  import Scheduler = DccScheduler

  function Write(m: Offer): string {
    if m.command == Send then FormatSend(m.filename, m.address, m.port, m.size, m.token)
    else FormatResume(m.command, m.filename, m.port, m.position, m.token)
  }

  /** HandleControl from the payload on: while transfers are disabled nothing is read, and a payload
      that does not parse changes nothing. */
  function HandlePayload(ip: Texts, s: State, networkID: int, peer: string, payload: string, e: ControlEnv): State {
    if !s.settings.enabled then s
    else match Parse(ip, payload)
      case Ok(o) => HandleControl(s, networkID, peer, o, e)
      case Err => s
  }

  // ---------------------------------------------------------------- what the world supplies

  /** Tokens are drawn as decimal numbers, listeners have ports, and an advertised address that passed
      the settings' validation is printed as a text the parser admits. */
  predicate SoundBegin(ip: Texts, b: Begin) {
    && b.token != "" && Bare(b.token)
    && (b.listens ==> 0 < b.port <= 65535)
    && (b.address != "" ==> ParseAddress(ip, b.address).Ok?)
  }

  ghost predicate SoundEnv(ip: Texts, env: Env) {
    forall x :: SoundBegin(ip, env(x))
  }

  predicate SoundReceive(ip: Texts, r: ReceiveEnv) {
    && (r.listens ==> 0 < r.port <= 65535)
    && (r.address != "" ==> ParseAddress(ip, r.address).Ok?)
  }

  /** The message was read from some payload; `strict` asks for a token without spaces and quotes. */
  ghost predicate Arrived(ip: Texts, strict: bool, o: Offer) {
    (exists payload :: Parse(ip, payload) == Ok(o)) && (strict ==> Bare(o.token))
  }

  ghost predicate SoundWorld(ip: Texts, strict: bool, step: Scheduler.Step) {
    match step
    case QueueFiles(_, _, files, env) => SoundEnv(ip, env) && forall k :: 0 <= k < |files| ==> 0 <= files[k].size <= MAX_INT64
    case RetryItem(_, _, env) => SoundEnv(ip, env)
    case CancelItem(_, env) => SoundEnv(ip, env)
    case ChangeSettings(_, _, _, env) => SoundEnv(ip, env)
    case CloseManager(_, env) => SoundEnv(ip, env)
    case Message(_, _, o, e) => Arrived(ip, strict, o) && SoundReceive(ip, e.receive) && SoundEnv(ip, e.begin)
    case AcceptItem(_, e, env) => SoundReceive(ip, e.receive) && SoundEnv(ip, env) && (e.partial.PartialFile? ==> 0 <= e.partial.size)
    case WorkerDone(_, env) => SoundEnv(ip, env)
    case WorkerFailed(_, _, _, env) => SoundEnv(ip, env)
    case _ => true
  }

  // ---------------------------------------------------------------- invariant

  predicate SoundItem(t: Transfer) {
    SafeFilename(t.filename) && 0 <= t.totalBytes <= MAX_INT64
  }

  predicate SoundOffer(ip: Texts, strict: bool, o: Offer) {
    SendWellFormed(ip, o) && (strict ==> Bare(o.token))
  }

  predicate SoundMessage(ip: Texts, strict: bool, m: Offer) {
    (SendWellFormed(ip, m) || ResumeWellFormed(m)) && (strict ==> Bare(m.token))
  }

  ghost predicate Sound(ip: Texts, strict: bool, s: State) {
    && (forall id :: id in s.items ==> SoundItem(s.items[id]))
    && (forall id :: id in s.offers ==> SoundOffer(ip, strict, s.offers[id]))
    && (forall k :: 0 <= k < |s.sent| ==> SoundMessage(ip, strict, s.sent[k].offer))
  }

  /** Records may come, go and change, but not their names and sizes. */
  lemma Reshaped(ip: Texts, strict: bool, s: State, t: State)
    requires Sound(ip, strict, s) && t.sent == s.sent
    requires forall id :: id in t.items ==> id in s.items && t.items[id].filename == s.items[id].filename && t.items[id].totalBytes == s.items[id].totalBytes
    requires forall id :: id in t.offers ==> id in s.offers && t.offers[id] == s.offers[id]
    ensures Sound(ip, strict, t)
  {
    hide SafeFilename, SoundOffer, SoundMessage;
    forall id | id in t.items ensures SoundItem(t.items[id]) {
      assert SoundItem(s.items[id]);
    }
  }

  lemma LaunchSound(ip: Texts, strict: bool, s: State, id: string, b: Begin)
    requires Sound(ip, strict, s) && id in s.items && SoundBegin(ip, b) && !Refuses(s.settings, b)
    ensures Sound(ip, strict, Launched(s, id, b))
  {
    var t := Prepared(s.items[id], s.settings, b);
    var m := Announcement(t, s.settings);
    assert SoundItem(s.items[id]);
    assert SoundMessage(ip, strict, m) by {
      hide SafeFilename, ParseAddress;
      assert Bare("");
    }
    hide SafeFilename, SoundMessage, SoundOffer;
    assert SoundItem(t);
  }

  lemma {:induction false} StartSound(ip: Texts, strict: bool, s: State, env: Env)
    requires Sound(ip, strict, s) && SoundEnv(ip, env)
    ensures Sound(ip, strict, StartNext(s, env))
    decreases |s.queue|
  {
    if s.active != "" || |s.queue| == 0 || !s.settings.enabled {
    } else {
      var id := s.queue[0];
      var popped := s.(queue := s.queue[1..]);
      if id !in s.items || s.items[id].status != Queued {
        StartSound(ip, strict, popped, env);
      } else if Refuses(s.settings, env(id)) {
        var r := Idled(Rejected(popped.(active := id), id, env(id)), id);
        Reshaped(ip, strict, s, r);
        hide Sound;
        StartSound(ip, strict, r, env);
      } else {
        assert SoundBegin(ip, env(id));
        LaunchSound(ip, strict, popped.(active := id), id, env(id));
      }
    }
  }

  lemma AdvanceSound(ip: Texts, strict: bool, s: State, id: string, env: Env)
    requires Sound(ip, strict, s) && SoundEnv(ip, env)
    ensures Sound(ip, strict, Advance(s, id, env))
  {
    Reshaped(ip, strict, s, Idled(s, id));
    hide Sound;
    StartSound(ip, strict, Idled(s, id), env);
  }

  lemma FinishSound(ip: Texts, strict: bool, s: State, id: string, canceled: bool, partialExists: bool, env: Env)
    requires Sound(ip, strict, s) && SoundEnv(ip, env)
    ensures Sound(ip, strict, FinishWithError(s, id, canceled, partialExists, env))
  {
    if id in s.items {
      var t := Finished(s, id, canceled, partialExists);
      Reshaped(ip, strict, s, t);
      hide Sound, Finished;
      AdvanceSound(ip, strict, t, id, env);
    }
  }

  lemma CancelSound(ip: Texts, strict: bool, s: State, id: string, env: Env)
    requires Sound(ip, strict, s) && SoundEnv(ip, env)
    ensures Sound(ip, strict, Cancel(s, id, env))
  {
    if CanCancel(s, id) {
      var t := CanceledState(s, id);
      Reshaped(ip, strict, s, t);
      hide Sound, CanceledState;
      AdvanceSound(ip, strict, t, id, env);
    }
  }

  lemma {:induction false} CancelEachSound(ip: Texts, strict: bool, s: State, ids: seq<string>, env: Env)
    requires Sound(ip, strict, s) && SoundEnv(ip, env)
    ensures Sound(ip, strict, CancelEach(s, ids, env))
    decreases |ids|
  {
    hide Sound, Cancel;
    if ids != [] {
      CancelSound(ip, strict, s, ids[0], env);
      CancelEachSound(ip, strict, Cancel(s, ids[0], env), ids[1..], env);
    }
  }

  lemma {:induction false} EnqueueSound(ip: Texts, strict: bool, s: State, networkID: int, peer: string, files: seq<File>)
    requires Sound(ip, strict, s) && Selectable(files) && forall k :: 0 <= k < |files| ==> 0 <= files[k].size <= MAX_INT64
    ensures Sound(ip, strict, Enqueued(s, networkID, peer, files))
    decreases |files|
  {
    if files != [] {
      var f := files[0];
      var t := s.(items := s.items[f.id := NewOutgoing(networkID, peer, f)], queue := s.queue + [f.id]);
      assert SoundItem(t.items[f.id]);
      hide SafeFilename, SoundOffer, SoundMessage, SoundItem;
      assert Sound(ip, strict, t);
      assert forall k :: 0 <= k < |files[1..]| ==> files[1..][k] == files[k + 1];
      hide Sound;
      EnqueueSound(ip, strict, t, networkID, peer, files[1..]);
    }
  }

  /** One message more. */
  lemma SendSound(ip: Texts, strict: bool, s: State, c: Control)
    requires Sound(ip, strict, s) && SoundMessage(ip, strict, c.offer)
    ensures Sound(ip, strict, s.(sent := s.sent + [c]))
  {
    hide SoundMessage, SoundOffer, SoundItem;
  }

  lemma ReceiveSound(ip: Texts, strict: bool, s: State, id: string, r: ReceiveEnv, env: Env)
    requires Sound(ip, strict, s) && SoundReceive(ip, r) && SoundEnv(ip, env) && id in s.items
    ensures Sound(ip, strict, BeginReceive(s, id, OfferOf(s, id), r, env))
  {
    var offer := OfferOf(s, id);
    if ReceiveRefuses(s, offer, r) {
      FinishSound(ip, strict, s, id, false, r.partialExists, env);
    } else if offer.passive {
      var m := PassiveAnswer(s.items[id], offer, r);
      assert SoundItem(s.items[id]) && SoundOffer(ip, strict, offer);
      assert SoundMessage(ip, strict, m) by {
        hide SafeFilename, ParseAddress;
      }
      SendSound(ip, strict, s, Control(s.items[id].networkID, s.items[id].peer, m));
    }
  }

  /** The ways out of Accept once it may go ahead. */
  lemma AcceptUnfolds(s: State, id: string, e: AcceptEnv, env: Env)
    requires CanAccept(s, id, e) && PartialUsable(s.items[id], e)
    ensures var offset := OffsetOf(e.partial);
            var t := AcceptedItem(s.items[id], offset);
            var c := s.(items := s.items[id := t]);
            AcceptTransfer(s, id, e, env) == (
              if offset > 0 && e.delivered then
                c.(sent := s.sent + [Control(t.networkID, t.peer, ResumeQuestion(t, OfferOf(s, id), offset))])
              else if offset > 0 then FinishWithError(c, id, false, e.receive.partialExists, env)
              else BeginReceive(c, id, OfferOf(s, id), e.receive, env))
  {
    hide FinishWithError, BeginReceive, ResumeQuestion;
    var t := AcceptedItem(s.items[id], OffsetOf(e.partial));
    assert s.items[id := s.items[id].(hasPartial := true)][id := t] == s.items[id := t];
  }

  lemma AcceptSound(ip: Texts, strict: bool, s: State, id: string, e: AcceptEnv, env: Env)
    requires Sound(ip, strict, s) && SoundReceive(ip, e.receive) && SoundEnv(ip, env) && (e.partial.PartialFile? ==> 0 <= e.partial.size)
    ensures Sound(ip, strict, AcceptTransfer(s, id, e, env))
  {
    hide FinishWithError, BeginReceive, Sound, SoundReceive, SoundEnv, SoundMessage, ResumeQuestion, AcceptPartial;
    if CanAccept(s, id, e) && PartialUsable(s.items[id], e) {
      AcceptUnfolds(s, id, e, env);
      UsablePartial(s.items[id], e);
      hide PartialUsable, AcceptTransfer;
      var offset := OffsetOf(e.partial);
      hide OffsetOf;
      var t := AcceptedItem(s.items[id], offset);
      var c := s.(items := s.items[id := t]);
      Reshaped(ip, strict, s, c);
      assert OfferOf(c, id) == OfferOf(s, id);
      if offset > 0 && e.delivered {
        QuestionSound(ip, strict, s, id, offset);
        SendSound(ip, strict, c, Control(t.networkID, t.peer, ResumeQuestion(t, OfferOf(s, id), offset)));
      } else if offset > 0 {
        FinishSound(ip, strict, c, id, false, e.receive.partialExists, env);
      } else {
        ReceiveSound(ip, strict, c, id, e.receive, env);
      }
    } else {
      AcceptRefusedSound(ip, strict, s, id, e, env);
    }
  }

  lemma AcceptRefusedSound(ip: Texts, strict: bool, s: State, id: string, e: AcceptEnv, env: Env)
    requires Sound(ip, strict, s) && !(CanAccept(s, id, e) && PartialUsable(s.items[id], e))
    ensures Sound(ip, strict, AcceptTransfer(s, id, e, env))
  {
    hide Sound, FinishWithError, BeginReceive;
    if CanAccept(s, id, e) {
      Reshaped(ip, strict, s, s.(items := s.items[id := s.items[id].(hasPartial := true)]));
    }
  }

  lemma UsablePartial(t: Transfer, e: AcceptEnv)
    requires PartialUsable(t, e) && (e.partial.PartialFile? ==> 0 <= e.partial.size)
    ensures 0 <= OffsetOf(e.partial) && (OffsetOf(e.partial) > 0 ==> OffsetOf(e.partial) <= t.totalBytes)
  {
  }

  lemma QuestionSound(ip: Texts, strict: bool, s: State, id: string, offset: int)
    requires Sound(ip, strict, s) && id in s.items && 0 <= offset <= s.items[id].totalBytes
    ensures SoundMessage(ip, strict, ResumeQuestion(AcceptedItem(s.items[id], offset), OfferOf(s, id), offset))
  {
    assert SoundItem(s.items[id]);
    if id in s.offers {
      assert SoundOffer(ip, strict, s.offers[id]);
    } else {
      assert Bare("");
    }
    hide SafeFilename, ParseAddress;
  }

  lemma MessageSound(ip: Texts, strict: bool, s: State, networkID: int, peer: string, o: Offer, e: ControlEnv)
    requires Sound(ip, strict, s) && Arrived(ip, strict, o) && SoundReceive(ip, e.receive) && SoundEnv(ip, e.begin)
    ensures Sound(ip, strict, HandleControl(s, networkID, peer, o, e))
  {
    var payload :| Parse(ip, payload) == Ok(o);
    ParsedIsWellFormed(ip, payload);
    hide Parse;
    if s.settings.enabled {
      match o.command
      case Send => SendMessageSound(ip, strict, s, networkID, peer, o, e);
      case Resume => RequestSound(ip, strict, s, networkID, peer, o, e.order, e.delivered);
      case Accept =>
        var id := FirstMatch(e.order, ResumeAccepts(s.items, networkID, peer, o));
        if id != "" {
          ReceiveSound(ip, strict, s, id, e.receive, e.begin);
        }
      case Chat =>
    }
  }

  lemma SendMessageSound(ip: Texts, strict: bool, s: State, networkID: int, peer: string, o: Offer, e: ControlEnv)
    requires Sound(ip, strict, s) && s.settings.enabled && SendWellFormed(ip, o) && (strict ==> Bare(o.token))
    ensures Sound(ip, strict, HandleControl(s, networkID, peer, o, e))
  {
    var id := if o.token != "" && o.port > 0 then FirstMatch(e.order, PassiveReplies(s.items, networkID, peer, o)) else "";
    if id != "" {
      Reshaped(ip, strict, s, PassiveReply(s, id, o));
    } else {
      AddSound(ip, strict, s, networkID, peer, o, e.order, e.newId);
    }
  }

  lemma AddSound(ip: Texts, strict: bool, s: State, networkID: int, peer: string, o: Offer, order: seq<string>, newId: string)
    requires Sound(ip, strict, s) && SendWellFormed(ip, o) && (strict ==> Bare(o.token))
    ensures Sound(ip, strict, AddIncoming(s, networkID, peer, o, order, newId))
  {
    assert SoundOffer(ip, strict, o) && SoundItem(NewIncoming(networkID, peer, o));
    hide SafeFilename, SendWellFormed, SoundOffer;
    var id := FirstMatch(order, Reoffers(s.items, networkID, peer, o));
    if id != "" {
      assert SoundItem(s.items[id]);
      FiledSound(ip, strict, s, id, s.items[id].(address := o.address, port := o.port, token := o.token, status := Offered), o);
    } else {
      FiledSound(ip, strict, s, newId, NewIncoming(networkID, peer, o), o);
    }
  }

  lemma FiledSound(ip: Texts, strict: bool, s: State, id: string, t: Transfer, o: Offer)
    requires Sound(ip, strict, s) && SoundItem(t) && SoundOffer(ip, strict, o)
    ensures Sound(ip, strict, s.(items := s.items[id := t], offers := s.offers[id := o]))
  {
    hide SoundItem, SoundOffer, SoundMessage;
  }

  lemma RequestSound(ip: Texts, strict: bool, s: State, networkID: int, peer: string, o: Offer, order: seq<string>, delivered: bool)
    requires Sound(ip, strict, s) && ResumeWellFormed(o) && (strict ==> Bare(o.token))
    ensures Sound(ip, strict, HandleResumeRequest(s, networkID, peer, o, order, delivered))
  {
    var id := FirstMatch(order, ResumeRequests(s.items, networkID, peer, o));
    if id != "" && o.position <= s.items[id].totalBytes {
      var t := s.items[id].(resumeOffset := o.position, transferredBytes := o.position);
      Reshaped(ip, strict, s, s.(items := s.items[id := t]));
      assert SoundItem(s.items[id]);
      assert SoundMessage(ip, strict, AcceptAnswer(t, o)) by {
        hide SafeFilename;
      }
      SendSound(ip, strict, s.(items := s.items[id := t]), Control(networkID, peer, AcceptAnswer(t, o)));
    }
  }

  lemma RequeuedSound(ip: Texts, strict: bool, s: State, id: string)
    requires Sound(ip, strict, s) && id in s.items
    ensures Sound(ip, strict, Requeued(s, id))
  {
    hide Sound;
    Reshaped(ip, strict, s, Requeued(s, id));
  }

  lemma DoneSound(ip: Texts, strict: bool, s: State, id: string, env: Env)
    requires Sound(ip, strict, s) && SoundEnv(ip, env)
    ensures Sound(ip, strict, Complete(s, id, env))
  {
    hide Sound, Advance;
    if id in s.items && s.items[id].status == Transferring {
      var t := s.(items := s.items[id := CompletedItem(s.items[id])], workers := s.workers - {id});
      Reshaped(ip, strict, s, t);
      AdvanceSound(ip, strict, t, id, env);
    }
  }

  lemma SettingsSound(ip: Texts, strict: bool, s: State, settings: Settings, cancelActive: bool, ids: seq<string>, env: Env)
    requires Sound(ip, strict, s) && SoundEnv(ip, env)
    ensures Sound(ip, strict, UpdateSettings(s, settings, cancelActive, ids, env))
  {
    hide Sound, CancelEach, Busy;
    Reshaped(ip, strict, s, s.(settings := settings));
    CancelEachSound(ip, strict, s.(settings := settings), ids, env);
  }

  /** Every step keeps names, sizes and messages sound, whatever else happens. */
  lemma StepSound(ip: Texts, strict: bool, s: State, step: Scheduler.Step)
    requires Sound(ip, strict, s) && SoundWorld(ip, strict, step)
    ensures Sound(ip, strict, Scheduler.Apply(s, step))
  {
    hide Sound, StartNext, Cancel, CancelEach, HandleControl, AcceptTransfer, FinishWithError, Advance, Complete, UpdateSettings, Requeued, SoundEnv, SoundReceive, Arrived;
    match step
    case QueueFiles(n, peer, files, env) =>
      if s.settings.enabled && files != [] && Selectable(files) {
        EnqueueSound(ip, strict, s, n, peer, files);
        StartSound(ip, strict, Enqueued(s, n, peer, files), env);
      }
    case RetryItem(id, available, env) =>
      if CanRetry(s, id, available) {
        RequeuedSound(ip, strict, s, id);
        StartSound(ip, strict, Requeued(s, id), env);
      }
    case CancelItem(id, env) => CancelSound(ip, strict, s, id, env);
    case ChangeSettings(settings, cancelActive, ids, env) =>
      SettingsSound(ip, strict, s, settings, cancelActive, ids, env);
    case CloseManager(ids, env) =>
      Reshaped(ip, strict, s, s.(settings := s.settings.(enabled := false)));
      CancelEachSound(ip, strict, s.(settings := s.settings.(enabled := false)), ids, env);
    case Message(n, peer, o, e) => MessageSound(ip, strict, s, n, peer, o, e);
    case AcceptItem(id, e, env) => AcceptSound(ip, strict, s, id, e, env);
    case WorkerDone(id, env) => DoneSound(ip, strict, s, id, env);
    case WorkerFailed(id, canceled, partialExists, env) => FinishSound(ip, strict, s, id, canceled, partialExists, env);
    case _ => RecordSound(ip, strict, s, step);
  }

  lemma RecordSound(ip: Texts, strict: bool, s: State, step: Scheduler.Step)
    requires Sound(ip, strict, s)
    requires step.DeclineItem? || step.Discard? || step.Forget? || step.ForgetAll? || step.WorkerConnected? || step.WorkerProgress?
    ensures Sound(ip, strict, Scheduler.Apply(s, step))
  {
    hide Sound;
    Reshaped(ip, strict, s, Scheduler.Apply(s, step));
  }

  // ---------------------------------------------------------------- one manager, any peer

  ghost predicate SoundSteps(ip: Texts, strict: bool, steps: seq<Scheduler.Step>) {
    forall k :: 0 <= k < |steps| ==> SoundWorld(ip, strict, steps[k])
  }

  lemma {:induction false} RunSound(ip: Texts, strict: bool, s: State, steps: seq<Scheduler.Step>)
    requires Sound(ip, strict, s) && SoundSteps(ip, strict, steps)
    ensures Sound(ip, strict, Scheduler.Run(s, steps))
    decreases |steps|
  {
    if steps != [] {
      StepSound(ip, strict, s, steps[0]);
      assert forall k :: 0 <= k < |steps[1..]| ==> steps[1..][k] == steps[k + 1];
      hide Sound, SoundWorld, Scheduler.Apply;
      RunSound(ip, strict, Scheduler.Apply(s, steps[0]), steps[1..]);
    }
  }

  ghost predicate SoundRecords(stored: seq<Stored>) {
    forall k :: 0 <= k < |stored| ==> SoundItem(stored[k].record)
  }

  lemma {:induction false} RestoreSound(items: map<string, Transfer>, stored: seq<Stored>)
    requires SoundRecords(stored) && forall id :: id in items ==> SoundItem(items[id])
    ensures forall id :: id in RestoreEach(items, stored) ==> SoundItem(RestoreEach(items, stored)[id])
    decreases |stored|
  {
    if stored != [] {
      hide SafeFilename;
      RestoreSound(items[stored[0].id := RestoredItem(stored[0].record)], stored[1..]);
    }
  }

  /** What a sound message becomes on the wire. */
  lemma MessageReadsBack(ip: Texts, strict: bool, m: Offer)
    requires PlainTexts(ip) && SoundMessage(ip, strict, m)
    ensures Parse(ip, Write(m)) == Ok(m) <==> Bare(m.token)
  {
    hide Parse, SafeFilename, ParseAddress;
    if m.command == Send {
      SendRoundTrip(ip, m);
    } else {
      ResumeRoundTrip(ip, m);
    }
  }

  /** In every run of one manager, with whatever peers: every record's name is safe, and every message it
      sent is read back by the peer as exactly that message, if and only if its token is bare. Tokens
      the manager draws are; one it repeats from a peer's offer may not be. */
  lemma WireSafety(ip: Texts, settings: Settings, stored: seq<Stored>, steps: seq<Scheduler.Step>)
    requires PlainTexts(ip) && SoundRecords(stored) && SoundSteps(ip, false, steps)
    ensures var s := Scheduler.Run(Restored(settings, stored), steps);
            && (forall id :: id in s.items ==> SafeFilename(s.items[id].filename))
            && (forall k :: 0 <= k < |s.sent| ==> (Parse(ip, Write(s.sent[k].offer)) == Ok(s.sent[k].offer) <==> Bare(s.sent[k].offer.token)))
  {
    RestoreSound(map[], stored);
    RunSound(ip, false, Restored(settings, stored), steps);
    var s := Scheduler.Run(Restored(settings, stored), steps);
    assert forall id :: id in s.items ==> SoundItem(s.items[id]);
    hide SafeFilename, SoundMessage, SoundOffer, Parse, Write;
    forall k | 0 <= k < |s.sent| ensures Parse(ip, Write(s.sent[k].offer)) == Ok(s.sent[k].offer) <==> Bare(s.sent[k].offer.token) {
      MessageReadsBack(ip, false, s.sent[k].offer);
    }
  }

  /** What arrived from peers with bare tokens keeps all tokens bare: then every message is read back. */
  lemma WireSafetyStrict(ip: Texts, settings: Settings, stored: seq<Stored>, steps: seq<Scheduler.Step>)
    requires PlainTexts(ip) && SoundRecords(stored) && SoundSteps(ip, true, steps)
    ensures var s := Scheduler.Run(Restored(settings, stored), steps);
            forall k :: 0 <= k < |s.sent| ==> Parse(ip, Write(s.sent[k].offer)) == Ok(s.sent[k].offer)
  {
    RestoreSound(map[], stored);
    RunSound(ip, true, Restored(settings, stored), steps);
    var s := Scheduler.Run(Restored(settings, stored), steps);
    hide SafeFilename, SoundOffer, Parse, Write;
    forall k | 0 <= k < |s.sent| ensures Parse(ip, Write(s.sent[k].offer)) == Ok(s.sent[k].offer) {
      MessageReadsBack(ip, true, s.sent[k].offer);
    }
  }
}
