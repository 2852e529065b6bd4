/** Resume integrity over whole runs of two joined managers. */
module DccResume {
  import opened DccTypes
  import opened DccManager
  import opened DccNet
  import opened DccSenderMoves
  import opened DccAgreement
  import opened DccResumeSender
  import opened DccResumeSteps
  import opened DccResumeMessages
  import opened DccResumeBytes
  import Scheduler = DccScheduler

  lemma ToReceiverKeepsInv(src: map<string, Bytes>, names: Names, n: Net, e: ControlEnv)
    requires NetInv(src, n) && PossibleNamed(src, names, n, ToReceiver(e))
    ensures NetInv(src, Apply(src, names, n, ToReceiver(e)))
  {
    hide NetInv, HandleControl, WithReceiver, Cleaned, AnswersFor, Scheduler.Possible;
    MessageToReceiver(src, names, n, e);
  }

  lemma ReceiverStepKeepsInv(src: map<string, Bytes>, names: Names, n: Net, step: Scheduler.Step)
    requires NetInv(src, n) && PossibleNamed(src, names, n, ReceiverStep(step))
    ensures NetInv(src, Apply(src, names, n, ReceiverStep(step)))
  {
    hide NetInv;
    if step.AcceptItem? {
      AcceptKeepsInv(src, names, n, step.id, step.answer, step.env);
    } else {
      StoppingKeepsInv(src, names, n, step);
    }
  }

  lemma ConnectStepKeepsInv(src: map<string, Bytes>, names: Names, n: Net, o: string, i: string)
    requires NetInv(src, n) && Possible(src, n, Connect(o, i))
    ensures NetInv(src, Apply(src, names, n, Connect(o, i)))
  {
    hide NetInv;
    ConnectKeepsInv(src, n, o, i);
  }

  /** Every step keeps the invariant, provided no stale message reaches a waiting transfer. */
  lemma NetStepInv(src: map<string, Bytes>, names: Names, n: Net, step: Step)
    requires NetInv(src, n) && PossibleNamed(src, names, n, step) && Timely(names, n, step)
    ensures NetInv(src, Apply(src, names, n, step))
  {
    hide NetInv, Scheduler.Possible, Timely, SenderMay, ReceiverMay, AnswersFor;
    match step
    case SenderStep(st) => SenderStepKeepsInv(src, names, n, st);
    case ReceiverStep(st) => ReceiverStepKeepsInv(src, names, n, st);
    case ToReceiver(e) => ToReceiverKeepsInv(src, names, n, e);
    case ToSender(e) => ToSenderKeepsInv(src, names, n, e);
    case Connect(o, i) => ConnectStepKeepsInv(src, names, n, o, i);
    case SendChunk(o, count) => SendChunkKeepsInv(src, names, n, o, count);
    case SendDone(o, env) => SendDoneKeepsInv(src, names, n, o, env);
    case ReceiveChunk(i, count) => ReceiveChunkKeepsInv(src, names, n, i, count);
    case ReceiveDone(i, env) => ReceiveDoneKeepsInv(src, names, n, i, env);
  }

  // ---------------------------------------------------------------- runs

  ghost predicate PossibleRun(src: map<string, Bytes>, names: Names, n: Net, steps: seq<Step>)
    decreases |steps|
  {
    steps == [] || (PossibleNamed(src, names, n, steps[0]) && PossibleRun(src, names, Apply(src, names, n, steps[0]), steps[1..]))
  }

  ghost function Run(src: map<string, Bytes>, names: Names, n: Net, steps: seq<Step>): Net
    requires PossibleRun(src, names, n, steps)
    decreases |steps|
  {
    if steps == [] then n else Run(src, names, Apply(src, names, n, steps[0]), steps[1..])
  }

  /** No RESUME and no passive answer of an abandoned attempt arrives at a waiting transfer. */
  ghost predicate TimelyRun(src: map<string, Bytes>, names: Names, n: Net, steps: seq<Step>)
    requires PossibleRun(src, names, n, steps)
    decreases |steps|
  {
    steps == [] || (Timely(names, n, steps[0]) && TimelyRun(src, names, Apply(src, names, n, steps[0]), steps[1..]))
  }

  ghost predicate DownloadsStart(src: map<string, Bytes>, n: Net) {
    forall i :: i in n.receiver.items ==>
      && n.receiver.items[i].direction == Incoming
      && n.receiver.items[i].filename in src
      && n.receiver.items[i].totalBytes == |src[n.receiver.items[i].filename]|
      && (i in n.files ==>
            && (n.receiver.items[i].resumable || n.receiver.items[i].status == Completed)
            && PrefixOf(n.files[i], src[n.receiver.items[i].filename]))
      && (n.receiver.items[i].status == Completed ==>
            i in n.files && n.files[i] == src[n.receiver.items[i].filename])
  }

  /** Two managers as they start: records restored from storage, nothing in transit, and every
      partial file a prefix of the source it was taken from. */
  ghost predicate Starts(src: map<string, Bytes>, n: Net, offering: seq<Stored>, downloading: seq<Stored>) {
    && Scheduler.Storable(offering) && Scheduler.Storable(downloading)
    && n == Net(Restored(n.sender.settings, offering), Restored(n.receiver.settings, downloading), 0, 0, n.files, [], map[], map[])
    && Sourced(src, n.sender.items) && OnePerFile(n.sender.items)
    && DownloadsStart(src, n)
  }

  lemma StartInv(src: map<string, Bytes>, n: Net, offering: seq<Stored>, downloading: seq<Stored>)
    requires Starts(src, n, offering, downloading)
    ensures NetInv(src, n)
  {
    Scheduler.RestoreEachAtRest(map[], offering);
    Scheduler.RestoreEachAtRest(map[], downloading);
    Scheduler.RestoredInv(n.sender.settings, offering);
    Scheduler.RestoredInv(n.receiver.settings, downloading);
    StartRecords(src, n);
    hide Scheduler.Inv, Scheduler.Storable, PrefixOf, Known, Downloads, Prefixes;
  }

  lemma StartRecords(src: map<string, Bytes>, n: Net)
    requires Scheduler.AllAtRest(n.sender.items) && Scheduler.AllAtRest(n.receiver.items)
    requires n.inLink == map[] && n.receiver.queue == [] && n.receiver.active == "" && n.receiver.workers == map[]
    requires Sourced(src, n.sender.items) && OnePerFile(n.sender.items) && DownloadsStart(src, n)
    ensures Known(src, n.sender.items) && Downloads(src, n.receiver, n.files, n.inLink) && Prefixes(src, n.receiver, n.files)
  {
    hide OnePerFile, PrefixOf;
  }

  lemma {:induction false} NetRunInv(src: map<string, Bytes>, names: Names, n: Net, steps: seq<Step>)
    requires NetInv(src, n) && PossibleRun(src, names, n, steps) && TimelyRun(src, names, n, steps)
    ensures NetInv(src, Run(src, names, n, steps))
    decreases |steps|
  {
    hide NetInv, Timely, Possible, Apply;
    if steps != [] {
      NetStepInv(src, names, n, steps[0]);
      NetRunInv(src, names, Apply(src, names, n, steps[0]), steps[1..]);
    }
  }

  /** Resume integrity. Through any number of cancellations, retries, failures, re-offers and
      resumptions, in any interleaving, a download always holds a prefix of its source file, and
      once it is Completed it holds the source file. */
  lemma ResumeIntegrity(src: map<string, Bytes>, names: Names, n: Net, offering: seq<Stored>,
                        downloading: seq<Stored>, steps: seq<Step>)
    requires Starts(src, n, offering, downloading)
    requires PossibleRun(src, names, n, steps) && TimelyRun(src, names, n, steps)
    ensures var m := Run(src, names, n, steps);
            forall i :: i in m.receiver.items ==>
              && m.receiver.items[i].filename in src
              && (i in m.files ==> PrefixOf(m.files[i], src[m.receiver.items[i].filename]))
              && (m.receiver.items[i].status == Completed ==> i in m.files && m.files[i] == src[m.receiver.items[i].filename])
  {
    StartInv(src, n, offering, downloading);
    NetRunInv(src, names, n, steps);
  }

  /** Whenever the two workers of one attempt can connect in such a run, the data starts exactly
      where the partial file ends. */
  lemma ConnectionsStartWhereFilesEnd(src: map<string, Bytes>, names: Names, n: Net, offering: seq<Stored>,
                                      downloading: seq<Stored>, steps: seq<Step>, o: string, i: string)
    requires Starts(src, n, offering, downloading)
    requires PossibleRun(src, names, n, steps) && TimelyRun(src, names, n, steps)
    requires Possible(src, Run(src, names, n, steps), Connect(o, i))
    ensures var m := Run(src, names, n, steps);
            && m.sender.items[o].filename == m.receiver.items[i].filename
            && m.sender.items[o].resumeOffset == m.receiver.items[i].resumeOffset == LengthOf(m.files, i)
  {
    StartInv(src, n, offering, downloading);
    NetRunInv(src, names, n, steps);
    MeetingAgrees(src, Run(src, names, n, steps), o, i);
  }
}
