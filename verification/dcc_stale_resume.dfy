/** A run in which a stale RESUME ruins a download. Two interrupted downloads of one file hold
    different amounts. The first takes over an offer that is then withdrawn, the second takes over
    its repetition, and both ask to resume. Since handleResumeRequest matches any passive offer,
    the later and outdated request moves the offset of the repeated offer. */
module DccStaleResume {
  import opened DccTypes
  import opened DccManager
  import opened DccNet
  import opened DccAgreement
  import opened DccResume
  import opened DccExample
  import Scheduler = DccScheduler

  // ---------------------------------------------------------------- the states of the run

  const OFFERS := [Control(1, "r", Passively("to")), Control(1, "r", Passively("uo"))]
  const QUESTIONS := [Question("uo", 2), Question("to", 1)]

  const FILES: map<string, Bytes> := map["i" := [1], "k" := [1, 2]]

  const I0 := Down(Status.Resumable, "", "", 1)
  const K0 := Down(Status.Resumable, "", "", 2)
  const I1 := Down(Offered, "to", "0", 1)
  const K1 := Down(Offered, "uo", "0", 2)
  const I2 := Down(Connecting, "to", "0", 1)
  const K2 := Down(Connecting, "uo", "0", 2)
  const BOTH := map["i" := Passively("to"), "k" := Passively("uo")]
  const WAITING := map["o" := AwaitPeer("uo")]

  const S4 := Offering(map["o" := Up(Negotiating, "uo", "0", 0, 0)], WAITING, "o", OFFERS)
  const S8 := Offering(map["o" := Up(Negotiating, "uo", "0", 0, 2)], WAITING, "o", OFFERS + [Agreed("uo", 2)])
  const S9 := Offering(map["o" := Up(Negotiating, "uo", "0", 0, 1)], WAITING, "o", OFFERS + [Agreed("uo", 2)] + [Agreed("to", 1)])
  const S11 := S9.(items := map["o" := Up(Negotiating, "uo", "a", 9, 1)], workers := map["o" := DialSend(9, "uo")])

  const R0 := Taking(I0, K0, map[], map[], [])
  const R2 := Taking(I1, K0, map["i" := Passively("to")], map[], [])
  const R5 := Taking(I1, K1, BOTH, map[], [])
  const R6 := Taking(I1, K2, BOTH, map[], QUESTIONS[..1])
  const R7 := Taking(I2, K2, BOTH, map[], QUESTIONS)
  const R10 := Taking(I2, K2, BOTH, map["k" := ListenReceive(9, Passively("uo"))], QUESTIONS + [Reply("uo")])

  function Still(s: State, r: State, received: nat, answered: nat): Net {
    Net(s, r, received, answered, FILES, [], map[], map[])
  }

  const MEETING := Still(S11, R10, 3, 3)
  const STREAM := Conn("o", "k", "f", Key(0, "uo"), 1, [])
  const DONE := Down(Completed, "uo", "0", 2).(transferredBytes := 3, resumable := false, fileAvailable := true)
  const SENDING := Up(Transferring, "uo", "a", 9, 1)

  /** From the meeting of the two workers on. */
  function Flowing(up: Transfer, k: Transfer, c: Conn, files: map<string, Bytes>): Net {
    MEETING.(sender := S11.(items := map["o" := up]), receiver := R10.(items := map["i" := I2, "k" := k]), files := files,
    conns := [c], outLink := map["o" := 0], inLink := map["k" := 0])
  }

  const CONNECTED := Flowing(SENDING, Down(Transferring, "uo", "0", 2), STREAM, FILES)
  const SENT_ALL := Flowing(SENDING.(transferredBytes := 3), Down(Transferring, "uo", "0", 2), STREAM.(next := 3, pipe := [2, 3]), FILES)
  const TAKEN := Flowing(SENDING.(transferredBytes := 3), Down(Transferring, "uo", "0", 2).(transferredBytes := 3),
                         STREAM.(next := 3, pipe := [3]), FILES["k" := [1, 2, 2]])
  const FINISHED := Flowing(SENDING.(transferredBytes := 3), DONE, STREAM.(next := 3, pipe := [3]), FILES["k" := [1, 2, 2]])
                    .(inLink := map[], receiver := R10.(items := map["i" := I2, "k" := DONE], workers := map[]))

  // ---------------------------------------------------------------- the steps

  lemma FirstOfferTaken()
    ensures HandleControl(R0, 1, "s", Passively("to"), OFFERED.answers) == R2
  {
    Pick(Reoffers(R0.items, 1, "s", Passively("to")));
  }

  lemma FirstOffer()
    ensures Leads(Still(S1, R0, 0, 0), OFFERED, Still(S1, R2, 1, 0))
  {
    var n := Still(S1, R0, 0, 0);
    hide HandleControl;
    FirstOfferTaken();
    Answered(n, OFFERED.answers, Passively("to"), "");
    ReceiverHears(n, OFFERED.answers, Passively("to"), R2);
  }

  lemma Repeated()
    ensures Retry(S3, "o", true, Outcomes('u')) == S4
  {
    assert ['u'] + "o" == "uo" && [] + ["o"] == ["o"];
    assert S3.sent + [OFFERS[1]] == OFFERS;
  }

  lemma Repeats()
    ensures Leads(Still(S3, R2, 1, 0), REPEATS, Still(S4, R2, 1, 0))
  {
    OutcomesFresh(S3, 'u');
    Repeated();
    hide FreshBegins, Retry;
    SenderActs(Still(S3, R2, 1, 0), REPEATS.step, S4);
  }

  lemma SecondOfferTaken()
    ensures HandleControl(R2, 1, "s", Passively("uo"), OFFERED.answers) == R5
  {
    Pick(Reoffers(R2.items, 1, "s", Passively("uo")));
  }

  lemma SecondOffer()
    ensures Leads(Still(S4, R2, 1, 0), OFFERED, Still(S4, R5, 2, 0))
  {
    var n := Still(S4, R2, 1, 0);
    hide HandleControl;
    SecondOfferTaken();
    Answered(n, OFFERED.answers, Passively("uo"), "");
    ReceiverHears(n, OFFERED.answers, Passively("uo"), R5);
  }

  lemma TakesSecond()
    ensures Leads(Still(S4, R5, 2, 0), TAKES_K, Still(S4, R6, 2, 0))
  {
    assert [] + [QUESTIONS[0]] == QUESTIONS[..1];
    assert AcceptTransfer(R5, "k", Accepting(2), Outcomes('v')) == R6;
    hide AcceptTransfer;
    ReceiverActs(Still(S4, R5, 2, 0), TAKES_K.step, R6);
  }

  lemma TakesFirst()
    ensures Leads(Still(S4, R6, 2, 0), TAKES_I, Still(S4, R7, 2, 0))
  {
    assert QUESTIONS[..1] + [QUESTIONS[1]] == QUESTIONS;
    assert AcceptTransfer(R6, "i", Accepting(1), Outcomes('v')) == R7;
    hide AcceptTransfer;
    ReceiverActs(Still(S4, R6, 2, 0), TAKES_I.step, R7);
  }

  lemma CurrentHandled()
    ensures HandleControl(S4, 1, "r", QUESTIONS[0].offer, ASKED.answers) == S8
  {
    Pick(ResumeRequests(S4.items, 1, "r", QUESTIONS[0].offer));
  }

  lemma CurrentRequest()
    ensures Leads(Still(S4, R7, 2, 0), ASKED, Still(S8, R7, 2, 1))
  {
    OutcomesFresh(S4, 'v');
    hide FreshBegins, HandleControl;
    CurrentHandled();
    SenderHears(Still(S4, R7, 2, 0), ASKED.answers, QUESTIONS[0].offer, S8);
  }

  lemma StaleHandled()
    ensures HandleControl(S8, 1, "r", QUESTIONS[1].offer, ASKED.answers) == S9
    ensures !TimelyMessage(S8, NAMES, QUESTIONS[1].offer, ["o"])
  {
    Pick(ResumeRequests(S8.items, 1, "r", QUESTIONS[1].offer));
  }

  /** The step the guard rules out. */
  lemma StaleRequest()
    ensures Leads(Still(S8, R7, 2, 1), ASKED, Still(S9, R7, 2, 2)) && !Timely(NAMES, Still(S8, R7, 2, 1), ASKED)
  {
    OutcomesFresh(S8, 'v');
    hide FreshBegins, HandleControl, TimelyMessage;
    StaleHandled();
    SenderHears(Still(S8, R7, 2, 1), ASKED.answers, QUESTIONS[1].offer, S9);
  }

  lemma AgreementTaken()
    ensures HandleControl(R7, 1, "s", Agreed("uo", 2).offer, AGREED.answers) == R10
  {
    Pick(ResumeAccepts(R7.items, 1, "s", Agreed("uo", 2).offer));
  }

  lemma Agrees()
    ensures Leads(Still(S9, R7, 2, 2), AGREED, Still(S9, R10, 3, 2))
  {
    var n := Still(S9, R7, 2, 2);
    hide HandleControl;
    AgreementTaken();
    Answered(n, AGREED.answers, Agreed("uo", 2).offer, "k");
    ReceiverHears(n, AGREED.answers, Agreed("uo", 2).offer, R10);
  }

  lemma ReplyHandled()
    ensures HandleControl(S9, 1, "r", Reply("uo").offer, ASKED.answers) == S11
  {
    Pick(PassiveReplies(S9.items, 1, "r", Reply("uo").offer));
  }

  lemma Answers()
    ensures Leads(Still(S9, R10, 3, 2), ASKED, MEETING)
  {
    OutcomesFresh(S9, 'v');
    hide FreshBegins, HandleControl;
    ReplyHandled();
    SenderHears(Still(S9, R10, 3, 2), ASKED.answers, Reply("uo").offer, S11);
  }

  lemma Meets()
    ensures Leads(MEETING, Connect("o", "k"), CONNECTED)
  {
    hide Leads;
    Joins(MEETING, "o", "k", CONNECTED.sender, CONNECTED.receiver, STREAM);
  }

  lemma Flows()
    ensures Leads(CONNECTED, SendChunk("o", 2), SENT_ALL)
  {
    hide Leads;
    assert [] + SRC["f"][1..3] == [2, 3];
    Pours(CONNECTED, "o", 2, SENT_ALL.sender, STREAM, SENT_ALL.conns[0]);
  }

  lemma Arrives()
    ensures Leads(SENT_ALL, ReceiveChunk("k", 1), TAKEN)
  {
    var had: Bytes, pipe: Bytes := [1, 2], [2, 3];
    hide Leads;
    assert pipe[..1] == [2] && pipe[1..] == [3] && had + [2] == [1, 2, 2];
    Soaks(SENT_ALL, "k", TAKEN.receiver, SENT_ALL.conns[0], TAKEN.conns[0], [1, 2, 2]);
    assert SENT_ALL.files["k" := [1, 2, 2]] == TAKEN.files;
  }

  lemma Finishes()
    ensures Leads(TAKEN, ReceiveDone("k", Outcomes('v')), FINISHED)
  {
    hide Complete, Leads;
    DccExample.Finishes(TAKEN, "k", Outcomes('v'));
    assert TAKEN.receiver.workers - {"k"} == map[];
    assert TAKEN.receiver.items["k" := CompletedItem(TAKEN.receiver.items["k"])] == FINISHED.receiver.items;
  }

  // ---------------------------------------------------------------- the run

  lemma Prepend(n: Net, step: DccNet.Step, m: Net, rest: seq<DccNet.Step>)
    requires Leads(n, step, m) && PossibleRun(SRC, NAMES, m, rest)
    ensures PossibleRun(SRC, NAMES, n, [step] + rest)
    ensures Run(SRC, NAMES, n, [step] + rest) == Run(SRC, NAMES, m, rest)
  {
    assert ([step] + rest)[1..] == rest;
  }

  const ENDING := [Connect("o", "k")] + ([SendChunk("o", 2)] + ([ReceiveChunk("k", 1)] + ([ReceiveDone("k", Outcomes('v'))] + [])))
  const NEGOTIATION := [TAKES_K] + ([TAKES_I] + ([ASKED] + ([ASKED] + ([AGREED] + ([ASKED] + ENDING)))))
  const STEPS := [QUEUES] + ([OFFERED] + ([WITHDRAWS] + ([REPEATS] + ([OFFERED] + NEGOTIATION))))

  lemma EndsWrong()
    ensures PossibleRun(SRC, NAMES, MEETING, ENDING) && Run(SRC, NAMES, MEETING, ENDING) == FINISHED
  {
    hide Leads;
    var done := ReceiveDone("k", Outcomes('v'));
    Finishes();
    Prepend(TAKEN, done, FINISHED, []);
    Arrives();
    Prepend(SENT_ALL, ReceiveChunk("k", 1), TAKEN, [done] + []);
    Flows();
    Prepend(CONNECTED, SendChunk("o", 2), SENT_ALL, [ReceiveChunk("k", 1)] + ([done] + []));
    Meets();
    Prepend(MEETING, Connect("o", "k"), CONNECTED, [SendChunk("o", 2)] + ([ReceiveChunk("k", 1)] + ([done] + [])));
  }

  lemma NegotiatesWrong()
    ensures PossibleRun(SRC, NAMES, Still(S4, R5, 2, 0), NEGOTIATION) && Run(SRC, NAMES, Still(S4, R5, 2, 0), NEGOTIATION) == FINISHED
  {
    hide Leads;
    EndsWrong();
    Answers();
    Prepend(Still(S9, R10, 3, 2), ASKED, MEETING, ENDING);
    Agrees();
    Prepend(Still(S9, R7, 2, 2), AGREED, Still(S9, R10, 3, 2), [ASKED] + ENDING);
    StaleRequest();
    Prepend(Still(S8, R7, 2, 1), ASKED, Still(S9, R7, 2, 2), [AGREED] + ([ASKED] + ENDING));
    CurrentRequest();
    Prepend(Still(S4, R7, 2, 0), ASKED, Still(S8, R7, 2, 1), [ASKED] + ([AGREED] + ([ASKED] + ENDING)));
    TakesFirst();
    Prepend(Still(S4, R6, 2, 0), TAKES_I, Still(S4, R7, 2, 0), [ASKED] + ([ASKED] + ([AGREED] + ([ASKED] + ENDING))));
    TakesSecond();
    Prepend(Still(S4, R5, 2, 0), TAKES_K, Still(S4, R6, 2, 0), [TAKES_I] + ([ASKED] + ([ASKED] + ([AGREED] + ([ASKED] + ENDING)))));
  }

  lemma OffersWrong()
    ensures PossibleRun(SRC, NAMES, Still(S0, R0, 0, 0), STEPS) && Run(SRC, NAMES, Still(S0, R0, 0, 0), STEPS) == FINISHED
  {
    hide Leads;
    NegotiatesWrong();
    SecondOffer();
    Prepend(Still(S4, R2, 1, 0), OFFERED, Still(S4, R5, 2, 0), NEGOTIATION);
    Repeats();
    Prepend(Still(S3, R2, 1, 0), REPEATS, Still(S4, R2, 1, 0), [OFFERED] + NEGOTIATION);
    WithdrawsFrom(Still(S1, R2, 1, 0));
    Prepend(Still(S1, R2, 1, 0), WITHDRAWS, Still(S3, R2, 1, 0), [REPEATS] + ([OFFERED] + NEGOTIATION));
    FirstOffer();
    Prepend(Still(S1, R0, 0, 0), OFFERED, Still(S1, R2, 1, 0), [WITHDRAWS] + ([REPEATS] + ([OFFERED] + NEGOTIATION)));
    QueuesFrom(Still(S0, R0, 0, 0));
    Prepend(Still(S0, R0, 0, 0), QUEUES, Still(S1, R0, 0, 0), [OFFERED] + ([WITHDRAWS] + ([REPEATS] + ([OFFERED] + NEGOTIATION))));
  }

  const RECORDS := [Stored("i", I0), Stored("k", K0)]

  lemma RecordsRestored()
    ensures RestoreEach(map[], RECORDS) == map["i" := I0, "k" := K0] && RestoreEach(map[], []) == map[]
  {
    assert RECORDS[1..] == [RECORDS[1]] && RECORDS[1..][1..] == [];
    var one := map["i" := I0];
    assert RestoreEach(map["i" := I0, "k" := K0], []) == map["i" := I0, "k" := K0];
    assert RestoreEach(one, RECORDS[1..]) == RestoreEach(one["k" := K0], []);
    assert RestoreEach(map[], RECORDS) == RestoreEach(one, RECORDS[1..]);
  }

  lemma ProperStart()
    ensures Starts(SRC, Still(S0, R0, 0, 0), [], RECORDS)
  {
    RecordsRestored();
    hide RestoreEach;
  }

  /** From a proper start, possible steps lead to a Completed download that is not its source: only
      the guard of module DccNet is missing, and only at one step. */
  lemma StaleResumeRuinsDownload()
    ensures Starts(SRC, Still(S0, R0, 0, 0), [], RECORDS)
    ensures PossibleRun(SRC, NAMES, Still(S0, R0, 0, 0), STEPS)
    ensures var m := Run(SRC, NAMES, Still(S0, R0, 0, 0), STEPS);
            && "k" in m.receiver.items && m.receiver.items["k"].status == Completed && m.receiver.items["k"].filename == "f"
            && "k" in m.files && m.files["k"] == [1, 2, 2] && SRC["f"] == [1, 2, 3]
  {
    ProperStart();
    OffersWrong();
    hide Starts, Run, PossibleRun;
  }
}
