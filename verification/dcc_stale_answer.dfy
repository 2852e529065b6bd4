/** A run in which a stale passive answer ruins a download. A passive offer is withdrawn and the
    file is offered again in classic mode; the record keeps the old token. The answer to the
    withdrawn offer then takes the classic attempt over, after a RESUME has moved its offset. */
module DccStaleAnswer {
  import opened DccTypes
  import opened DccManager
  import opened DccNet
  import opened DccAgreement
  import opened DccResume
  import opened DccExample
  import DccStaleResume
  import Scheduler = DccScheduler

  const CLASSIC := Settings(true, Classic, "b")

  /** The two downloads of module DccStaleResume, but the partial file of the first is gone. */
  const KEPT: map<string, Bytes> := map["k" := [1, 2]]
  const R0 := DccStaleResume.R0
  const R2 := DccStaleResume.R2

  const REPEATED := Offer(Send, "f", "a", PORT, 3, 0, "", false)
  const TWO_OFFERS := S3.sent + [Control(1, "r", REPEATED)]
  const QUESTION := Control(1, "s", Offer(Command.Resume, "f", "", PORT, 0, 2, "", false))
  const AGREEMENT := Control(1, "r", Offer(Command.Accept, "f", "", PORT, 0, 2, "", false))

  function Item(address: string, port: int, offset: int): Transfer {
    Up(Negotiating, "to", address, port, offset)
  }

  const S4 := S3.(settings := CLASSIC)
  const S5 := S4.(items := map["o" := Item("a", PORT, 0)], workers := map["o" := ListenSend(PORT)], active := "o", sent := TWO_OFFERS)
  const S9 := S5.(items := map["o" := Item("a", PORT, 2)], sent := TWO_OFFERS + [AGREEMENT])
  const S10 := S9.(items := map["o" := Item("a", 9, 2)], workers := map["o" := DialSend(9, "to")])

  function Second(status: Status): Transfer {
    Down(status, "", "a", 2).(port := PORT)
  }

  const SAVED := map["i" := Passively("to"), "k" := REPEATED]
  const I1 := Down(Offered, "to", "0", 1)
  const FROM_ZERO := Down(Connecting, "to", "0", 0)
  const R6 := Taking(I1, Second(Offered), SAVED, map[], [])
  const R7 := Taking(I1, Second(Connecting), SAVED, map[], [QUESTION])
  const R8 := Taking(FROM_ZERO, Second(Connecting), SAVED, map["i" := ListenReceive(9, Passively("to"))], [QUESTION, Reply("to")])

  function Calm(s: State, r: State, received: nat, answered: nat): Net {
    Net(s, r, received, answered, KEPT, [], map[], map[])
  }

  const MEETING := Calm(S10, R8, 2, 2)
  const STREAM := Conn("o", "i", "f", Key(0, "to"), 2, [])

  function Pouring(up: int, got: int, c: Conn, files: map<string, Bytes>): Net {
    MEETING.(sender := S10.(items := map["o" := Item("a", 9, 2).(status := Transferring, transferredBytes := up)]),
    receiver := R8.(items := map["i" := FROM_ZERO.(status := Transferring, transferredBytes := got), "k" := Second(Connecting)]),
    files := files, conns := [c], outLink := map["o" := 0], inLink := map["i" := 0])
  }

  const JOINED := Pouring(2, 0, STREAM, KEPT["i" := []])
  const POURED := Pouring(3, 0, STREAM.(next := 3, pipe := [3]), KEPT["i" := []])
  const SOAKED := Pouring(3, 1, STREAM.(next := 3, pipe := []), KEPT["i" := [3]])

  const TURNS_CLASSIC := SenderStep(Scheduler.ChangeSettings(CLASSIC, false, [], Outcomes('u')))
  const NOTHING := Accepting(0).(partial := NoPartial, receive := RECEIVES.(partialExists := false))
  const TAKES_NOTHING := ReceiverStep(Scheduler.AcceptItem("i", NOTHING, Outcomes('v')))
  const LATE := ToSender(Handling(["o"], LateOutcomes()))

  // ---------------------------------------------------------------- the steps

  lemma FirstOffer()
    ensures Leads(Calm(S1, R0, 0, 0), OFFERED, Calm(S1, R2, 1, 0))
  {
    var n := Calm(S1, R0, 0, 0);
    hide HandleControl;
    DccStaleResume.FirstOfferTaken();
    Answered(n, OFFERED.answers, Passively("to"), "");
    ReceiverHears(n, OFFERED.answers, Passively("to"), R2);
  }

  lemma TurnsClassic()
    ensures Leads(Calm(S3, R2, 1, 0), TURNS_CLASSIC, Calm(S4, R2, 1, 0))
  {
    OutcomesFresh(S3, 'u');
    hide FreshBegins;
    SenderActs(Calm(S3, R2, 1, 0), TURNS_CLASSIC.step, S4);
  }

  lemma Retried()
    ensures Retry(S4, "o", true, Outcomes('u')) == S5
  {
    assert [] + ["o"] == ["o"];
  }

  lemma RepeatsClassic()
    ensures Leads(Calm(S4, R2, 1, 0), REPEATS, Calm(S5, R2, 1, 0))
  {
    OutcomesFresh(S4, 'u');
    Retried();
    hide FreshBegins, Retry;
    SenderActs(Calm(S4, R2, 1, 0), REPEATS.step, S5);
  }

  lemma ClassicOfferTaken()
    ensures HandleControl(R2, 1, "s", REPEATED, OFFERED.answers) == R6
  {
    Pick(Reoffers(R2.items, 1, "s", REPEATED));
  }

  lemma ClassicOffer()
    ensures Leads(Calm(S5, R2, 1, 0), OFFERED, Calm(S5, R6, 2, 0))
  {
    var n := Calm(S5, R2, 1, 0);
    hide HandleControl;
    ClassicOfferTaken();
    Answered(n, OFFERED.answers, REPEATED, "");
    ReceiverHears(n, OFFERED.answers, REPEATED, R6);
  }

  lemma TakesClassic()
    ensures Leads(Calm(S5, R6, 2, 0), TAKES_K, Calm(S5, R7, 2, 0))
  {
    assert [] + [QUESTION] == [QUESTION];
    assert AcceptTransfer(R6, "k", Accepting(2), Outcomes('v')) == R7;
    hide AcceptTransfer;
    ReceiverActs(Calm(S5, R6, 2, 0), TAKES_K.step, R7);
  }

  lemma Listening()
    ensures AcceptTransfer(R7, "i", NOTHING, Outcomes('v')) == R8
  {
    assert [QUESTION] + [Reply("to")] == [QUESTION, Reply("to")];
  }

  lemma TakesFromZero()
    ensures Leads(Calm(S5, R7, 2, 0), TAKES_NOTHING, Calm(S5, R8, 2, 0))
  {
    Listening();
    hide AcceptTransfer;
    ReceiverActs(Calm(S5, R7, 2, 0), TAKES_NOTHING.step, R8);
  }

  lemma RequestHandled()
    ensures HandleControl(S5, 1, "r", QUESTION.offer, LATE.answers) == S9
  {
    Pick(ResumeRequests(S5.items, 1, "r", QUESTION.offer));
  }

  lemma Requested()
    ensures Leads(Calm(S5, R8, 2, 0), LATE, Calm(S9, R8, 2, 1))
  {
    LateFresh(S5);
    hide FreshBegins, HandleControl;
    RequestHandled();
    SenderHears(Calm(S5, R8, 2, 0), LATE.answers, QUESTION.offer, S9);
  }

  lemma StaleHandled()
    ensures HandleControl(S9, 1, "r", Reply("to").offer, LATE.answers) == S10
    ensures !TimelyMessage(S9, NAMES, Reply("to").offer, ["o"])
  {
    Pick(PassiveReplies(S9.items, 1, "r", Reply("to").offer));
  }

  /** The step the guard rules out. */
  lemma StaleReply()
    ensures Leads(Calm(S9, R8, 2, 1), LATE, MEETING) && !Timely(NAMES, Calm(S9, R8, 2, 1), LATE)
  {
    LateFresh(S9);
    hide FreshBegins, HandleControl, TimelyMessage;
    StaleHandled();
    SenderHears(Calm(S9, R8, 2, 1), LATE.answers, Reply("to").offer, S10);
  }

  lemma Joins()
    ensures Leads(MEETING, Connect("o", "i"), JOINED)
  {
    hide Leads;
    DccExample.Joins(MEETING, "o", "i", JOINED.sender, JOINED.receiver, STREAM);
  }

  lemma Pours()
    ensures Leads(JOINED, SendChunk("o", 1), POURED)
  {
    hide Leads;
    assert [] + SRC["f"][2..3] == [3];
    DccExample.Pours(JOINED, "o", 1, POURED.sender, STREAM, POURED.conns[0]);
  }

  lemma Soaks()
    ensures Leads(POURED, ReceiveChunk("i", 1), SOAKED)
  {
    var byte: Bytes := [3];
    hide Leads;
    assert byte[..1] == byte && byte[1..] == [] && [] + byte == byte;
    DccExample.Soaks(POURED, "i", SOAKED.receiver, POURED.conns[0], SOAKED.conns[0], byte);
    assert POURED.files["i" := byte] == SOAKED.files;
  }

  // ---------------------------------------------------------------- the run

  const LAST := [LATE] + ([LATE] + ([Connect("o", "i")] + ([SendChunk("o", 1)] + ([ReceiveChunk("i", 1)] + []))))
  const TAKING_BOTH := [TAKES_K] + ([TAKES_NOTHING] + LAST)
  const REPETITION := [TURNS_CLASSIC] + ([REPEATS] + ([OFFERED] + TAKING_BOTH))
  const STEPS := [QUEUES] + ([OFFERED] + ([WITHDRAWS] + REPETITION))

  ghost predicate RunsTo(n: Net, steps: seq<DccNet.Step>, m: Net) {
    PossibleRun(SRC, NAMES, n, steps) && Run(SRC, NAMES, n, steps) == m
  }

  lemma Prepend(n: Net, step: DccNet.Step, m: Net, rest: seq<DccNet.Step>, end: Net)
    requires Leads(n, step, m) && RunsTo(m, rest, end)
    ensures RunsTo(n, [step] + rest, end)
  {
    DccStaleResume.Prepend(n, step, m, rest);
  }

  lemma EndsWrong()
    ensures RunsTo(Calm(S5, R8, 2, 0), LAST, SOAKED)
  {
    assert RunsTo(SOAKED, [], SOAKED);
    hide Leads, RunsTo;
    var soak, pour := ReceiveChunk("i", 1), SendChunk("o", 1);
    Soaks();
    Prepend(POURED, soak, SOAKED, [], SOAKED);
    Pours();
    Prepend(JOINED, pour, POURED, [soak] + [], SOAKED);
    Joins();
    Prepend(MEETING, Connect("o", "i"), JOINED, [pour] + ([soak] + []), SOAKED);
    StaleReply();
    Prepend(Calm(S9, R8, 2, 1), LATE, MEETING, [Connect("o", "i")] + ([pour] + ([soak] + [])), SOAKED);
    Requested();
    Prepend(Calm(S5, R8, 2, 0), LATE, Calm(S9, R8, 2, 1), [LATE] + ([Connect("o", "i")] + ([pour] + ([soak] + []))), SOAKED);
  }

  lemma RepeatsWrong()
    ensures RunsTo(Calm(S3, R2, 1, 0), REPETITION, SOAKED)
  {
    hide Leads, RunsTo;
    EndsWrong();
    TakesFromZero();
    Prepend(Calm(S5, R7, 2, 0), TAKES_NOTHING, Calm(S5, R8, 2, 0), LAST, SOAKED);
    TakesClassic();
    Prepend(Calm(S5, R6, 2, 0), TAKES_K, Calm(S5, R7, 2, 0), [TAKES_NOTHING] + LAST, SOAKED);
    ClassicOffer();
    Prepend(Calm(S5, R2, 1, 0), OFFERED, Calm(S5, R6, 2, 0), TAKING_BOTH, SOAKED);
    RepeatsClassic();
    Prepend(Calm(S4, R2, 1, 0), REPEATS, Calm(S5, R2, 1, 0), [OFFERED] + TAKING_BOTH, SOAKED);
    TurnsClassic();
    Prepend(Calm(S3, R2, 1, 0), TURNS_CLASSIC, Calm(S4, R2, 1, 0), [REPEATS] + ([OFFERED] + TAKING_BOTH), SOAKED);
  }

  lemma RunsWrong()
    ensures RunsTo(Calm(S0, R0, 0, 0), STEPS, SOAKED)
  {
    hide Leads, RunsTo;
    RepeatsWrong();
    WithdrawsFrom(Calm(S1, R2, 1, 0));
    Prepend(Calm(S1, R2, 1, 0), WITHDRAWS, Calm(S3, R2, 1, 0), REPETITION, SOAKED);
    FirstOffer();
    Prepend(Calm(S1, R0, 0, 0), OFFERED, Calm(S1, R2, 1, 0), [WITHDRAWS] + REPETITION, SOAKED);
    QueuesFrom(Calm(S0, R0, 0, 0));
    Prepend(Calm(S0, R0, 0, 0), QUEUES, Calm(S1, R0, 0, 0), [OFFERED] + ([WITHDRAWS] + REPETITION), SOAKED);
  }

  lemma ProperStart()
    ensures Starts(SRC, Calm(S0, R0, 0, 0), [], DccStaleResume.RECORDS)
  {
    DccStaleResume.RecordsRestored();
    hide RestoreEach;
  }

  /** From a proper start, possible steps leave a download with bytes its source does not begin
      with: the data of the classic attempt went to the download of the passive one. */
  lemma StaleAnswerRuinsDownload()
    ensures Starts(SRC, Calm(S0, R0, 0, 0), [], DccStaleResume.RECORDS)
    ensures PossibleRun(SRC, NAMES, Calm(S0, R0, 0, 0), STEPS)
    ensures var m := Run(SRC, NAMES, Calm(S0, R0, 0, 0), STEPS);
            && "i" in m.receiver.items && m.receiver.items["i"].filename == "f" && "i" in m.files
            && !PrefixOf(m.files["i"], SRC["f"])
  {
    ProperStart();
    RunsWrong();
    hide Run, PossibleRun, Starts;
    var got: Bytes := [3];
    assert SOAKED.files["i"] == got;
    assert got[0] != SRC["f"][..1][0];
  }
}
