/** Two managers that exchange text. The runs of module DccNet hand offers over as values; here every
    message is written out by its sender and parsed by its receiver. Both give the same states, so
    resume integrity holds of the text protocol. */
module DccTextRuns {
  import opened DccTypes
  import opened DccManager
  import opened DccNet
  import opened DccAgreement
  import opened DccProtocol
  import opened DccProtocolLaws
  import opened DccWire
  import opened DccResume
  import Scheduler = DccScheduler

  /** The world of one step of two managers: what module DccWire asks of each side's own steps. */
  ghost predicate SoundStep(ip: Texts, step: Step) {
    match step
    case SenderStep(st) => !st.Message? && SoundWorld(ip, true, st)
    case ReceiverStep(st) => !st.Message? && SoundWorld(ip, true, st)
    case ToReceiver(e) => SoundReceive(ip, e.receive) && SoundEnv(ip, e.begin)
    case ToSender(e) => SoundReceive(ip, e.receive) && SoundEnv(ip, e.begin)
    case SendDone(_, env) => SoundEnv(ip, env)
    case ReceiveDone(_, env) => SoundEnv(ip, env)
    case _ => true
  }

  ghost predicate BothSound(ip: Texts, n: Net) {
    Sound(ip, true, n.sender) && Sound(ip, true, n.receiver)
  }

  /** A message of one side is read by the other as it was meant. */
  lemma Crosses(ip: Texts, s: State, k: nat)
    requires PlainTexts(ip) && Sound(ip, true, s) && k < |s.sent|
    ensures Parse(ip, Write(s.sent[k].offer)) == Ok(s.sent[k].offer) && Arrived(ip, true, s.sent[k].offer)
  {
    assert SoundMessage(ip, true, s.sent[k].offer);
    hide SoundItem, SoundOffer, Parse, Write, SendWellFormed, ResumeWellFormed;
    MessageReadsBack(ip, true, s.sent[k].offer);
  }

  lemma NetStepSound(ip: Texts, src: map<string, Bytes>, names: Names, n: Net, step: Step)
    requires PlainTexts(ip) && BothSound(ip, n) && Possible(src, n, step) && SoundStep(ip, step)
    ensures BothSound(ip, Apply(src, names, n, step))
  {
    hide Sound, SoundEnv, SoundReceive, SoundWorld, HandleControl, Complete, Scheduler.Apply, Parse, Write, Arrived;
    match step
    case SenderStep(st) => StepSound(ip, true, n.sender, st);
    case ReceiverStep(st) => StepSound(ip, true, n.receiver, st);
    case ToReceiver(e) =>
      Crosses(ip, n.sender, n.received);
      MessageSound(ip, true, n.receiver, names.receiverNet, names.senderNick, n.sender.sent[n.received].offer, e);
    case ToSender(e) =>
      Crosses(ip, n.receiver, n.answered);
      MessageSound(ip, true, n.sender, names.senderNet, names.receiverNick, n.receiver.sent[n.answered].offer, e);
    case Connect(o, i) => ConnectSound(ip, n, o, i);
    case SendChunk(o, count) => ProgressSound(ip, n.sender, o, n.conns[n.outLink[o]].next + count);
    case SendDone(o, env) => DoneSound(ip, true, n.sender, o, env);
    case ReceiveChunk(i, count) => ProgressSound(ip, n.receiver, i, |n.files[i] + n.conns[n.inLink[i]].pipe[..count]|);
    case ReceiveDone(i, env) => DoneSound(ip, true, n.receiver, i, env);
  }

  lemma ConnectSound(ip: Texts, n: Net, o: string, i: string)
    requires BothSound(ip, n)
    ensures Sound(ip, true, MarkTransferring(n.sender, o)) && Sound(ip, true, MarkTransferring(n.receiver, i))
  {
    hide Sound;
    RecordSound(ip, true, n.sender, Scheduler.WorkerConnected(o));
    RecordSound(ip, true, n.receiver, Scheduler.WorkerConnected(i));
  }

  lemma ProgressSound(ip: Texts, s: State, id: string, count: int)
    requires Sound(ip, true, s)
    ensures Sound(ip, true, Progress(s, id, count))
  {
    hide Sound;
    RecordSound(ip, true, s, Scheduler.WorkerProgress(id, count));
  }

  // ---------------------------------------------------------------- runs over text

  /** A step in which messages cross as text. */
  ghost function ApplyText(ip: Texts, src: map<string, Bytes>, names: Names, n: Net, step: Step): Net
    requires Possible(src, n, step)
  {
    match step
    case ToReceiver(e) =>
      var r := HandlePayload(ip, n.receiver, names.receiverNet, names.senderNick, Write(n.sender.sent[n.received].offer), e);
      WithReceiver(n, r, Cleaned(n.files, n.receiver.items, r.items)).(received := n.received + 1)
    case ToSender(e) =>
      WithSender(n, HandlePayload(ip, n.sender, names.senderNet, names.receiverNick, Write(n.receiver.sent[n.answered].offer), e))
      .(answered := n.answered + 1)
    case _ => Apply(src, names, n, step)
  }

  lemma SameStep(ip: Texts, src: map<string, Bytes>, names: Names, n: Net, step: Step)
    requires PlainTexts(ip) && BothSound(ip, n) && Possible(src, n, step)
    ensures ApplyText(ip, src, names, n, step) == Apply(src, names, n, step)
  {
    hide Sound, HandleControl, Parse, Write, Arrived;
    if step.ToReceiver? {
      Crosses(ip, n.sender, n.received);
      Read(ip, n.receiver, names.receiverNet, names.senderNick, n.sender.sent[n.received].offer, step.answers);
    } else if step.ToSender? {
      Crosses(ip, n.receiver, n.answered);
      Read(ip, n.sender, names.senderNet, names.receiverNick, n.receiver.sent[n.answered].offer, step.answers);
    }
  }

  lemma Read(ip: Texts, s: State, networkID: int, peer: string, m: Offer, e: ControlEnv)
    requires Parse(ip, Write(m)) == Ok(m)
    ensures HandlePayload(ip, s, networkID, peer, Write(m), e) == HandleControl(s, networkID, peer, m, e)
  {
    hide Parse, Write;
  }

  ghost predicate PossibleTextRun(ip: Texts, src: map<string, Bytes>, names: Names, n: Net, steps: seq<Step>)
    decreases |steps|
  {
    steps == [] || (PossibleNamed(src, names, n, steps[0]) && PossibleTextRun(ip, src, names, ApplyText(ip, src, names, n, steps[0]), steps[1..]))
  }

  ghost function TextRun(ip: Texts, src: map<string, Bytes>, names: Names, n: Net, steps: seq<Step>): Net
    requires PossibleTextRun(ip, src, names, n, steps)
    decreases |steps|
  {
    if steps == [] then n else TextRun(ip, src, names, ApplyText(ip, src, names, n, steps[0]), steps[1..])
  }

  ghost predicate TimelyTextRun(ip: Texts, src: map<string, Bytes>, names: Names, n: Net, steps: seq<Step>)
    requires PossibleTextRun(ip, src, names, n, steps)
    decreases |steps|
  {
    steps == [] || (Timely(names, n, steps[0]) && TimelyTextRun(ip, src, names, ApplyText(ip, src, names, n, steps[0]), steps[1..]))
  }

  ghost predicate SoundRun(ip: Texts, steps: seq<Step>) {
    forall k :: 0 <= k < |steps| ==> SoundStep(ip, steps[k])
  }

  /** Text loses nothing: step by step both kinds of run pass through the same states. */
  lemma {:induction false} SameRun(ip: Texts, src: map<string, Bytes>, names: Names, n: Net, steps: seq<Step>)
    requires PlainTexts(ip) && BothSound(ip, n) && SoundRun(ip, steps)
    requires PossibleTextRun(ip, src, names, n, steps) || PossibleRun(src, names, n, steps)
    ensures PossibleTextRun(ip, src, names, n, steps) && PossibleRun(src, names, n, steps)
    ensures TextRun(ip, src, names, n, steps) == Run(src, names, n, steps)
    ensures TimelyTextRun(ip, src, names, n, steps) <==> TimelyRun(src, names, n, steps)
    ensures BothSound(ip, Run(src, names, n, steps))
    decreases |steps|
  {
    if steps != [] {
      hide BothSound, Possible, Apply, ApplyText, SoundStep, PlainTexts, Timely;
      SameStep(ip, src, names, n, steps[0]);
      NetStepSound(ip, src, names, n, steps[0]);
      assert forall k :: 0 <= k < |steps[1..]| ==> steps[1..][k] == steps[k + 1];
      SameRun(ip, src, names, Apply(src, names, n, steps[0]), steps[1..]);
    }
  }

  lemma StartsSound(ip: Texts, src: map<string, Bytes>, n: Net, offering: seq<Stored>, downloading: seq<Stored>)
    requires Starts(src, n, offering, downloading) && SoundRecords(offering) && SoundRecords(downloading)
    ensures BothSound(ip, n)
  {
    RestoreSound(map[], offering);
    RestoreSound(map[], downloading);
    hide SoundItem, SoundRecords, DownloadsStart, Scheduler.Storable, RestoreEach;
  }

  /** In every run of two managers from records with safe names, every message either side sent is read
      by the other side as exactly that message. */
  lemma EveryMessageCrosses(ip: Texts, src: map<string, Bytes>, names: Names, n: Net, offering: seq<Stored>, downloading: seq<Stored>, steps: seq<Step>)
    requires PlainTexts(ip) && Starts(src, n, offering, downloading) && SoundRecords(offering) && SoundRecords(downloading)
    requires SoundRun(ip, steps) && PossibleTextRun(ip, src, names, n, steps)
    ensures var m := TextRun(ip, src, names, n, steps);
            && (forall k :: 0 <= k < |m.sender.sent| ==> Parse(ip, Write(m.sender.sent[k].offer)) == Ok(m.sender.sent[k].offer))
            && (forall k :: 0 <= k < |m.receiver.sent| ==> Parse(ip, Write(m.receiver.sent[k].offer)) == Ok(m.receiver.sent[k].offer))
  {
    StartsSound(ip, src, n, offering, downloading);
    SameRun(ip, src, names, n, steps);
    var m := TextRun(ip, src, names, n, steps);
    hide Sound, Parse, Write, Starts, SoundRecords, SoundRun, TextRun, PossibleTextRun, Run, PossibleRun;
    forall k | 0 <= k < |m.sender.sent| ensures Parse(ip, Write(m.sender.sent[k].offer)) == Ok(m.sender.sent[k].offer) {
      Crosses(ip, m.sender, k);
    }
    forall k | 0 <= k < |m.receiver.sent| ensures Parse(ip, Write(m.receiver.sent[k].offer)) == Ok(m.receiver.sent[k].offer) {
      Crosses(ip, m.receiver, k);
    }
  }

  /** Resume integrity of the text protocol. */
  lemma TextResumeIntegrity(ip: Texts, src: map<string, Bytes>, names: Names, n: Net, offering: seq<Stored>, downloading: seq<Stored>, steps: seq<Step>)
    requires PlainTexts(ip) && Starts(src, n, offering, downloading) && SoundRecords(offering) && SoundRecords(downloading)
    requires SoundRun(ip, steps) && PossibleTextRun(ip, src, names, n, steps)
    requires TimelyTextRun(ip, src, names, n, steps)
    ensures var m := TextRun(ip, src, names, n, steps);
            forall i :: i in m.receiver.items ==>
              && m.receiver.items[i].filename in src
              && (i in m.files ==> PrefixOf(m.files[i], src[m.receiver.items[i].filename]))
              && (m.receiver.items[i].status == Completed ==> i in m.files && m.files[i] == src[m.receiver.items[i].filename])
  {
    StartsSound(ip, src, n, offering, downloading);
    SameRun(ip, src, names, n, steps);
    hide Starts, SoundRecords, SoundRun, TextRun, PossibleTextRun, Run, PossibleRun, TimelyRun, TimelyTextRun, BothSound, PlainTexts, PrefixOf;
    ResumeIntegrity(src, names, n, offering, downloading, steps);
  }
}
