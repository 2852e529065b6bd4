/** The theorem of module DccResume is about runs that exist: here an interrupted download is resumed
    through a passive offer, without a stale message, and completes. */
module DccGoodResume {
  import opened DccTypes
  import opened DccManager
  import opened DccNet
  import opened DccAgreement
  import opened DccResume
  import opened DccExample
  import Scheduler = DccScheduler

  /** A failed download beside the interrupted one. */
  const IDLE := Transfer(1, "s", Incoming, "f", false, 3, 0, Status.Failed, "", 0, "", 0, false, false)
  const HALF := Down(Status.Resumable, "", "", 2)
  const BEFORE: map<string, Bytes> := map["k" := [1, 2]]

  const S4 := S1.(items := map["o" := Up(Negotiating, "to", "0", 0, 2)], sent := S1.sent + [Agreed("to", 2)])
  const S6 := S4.(items := map["o" := Up(Negotiating, "to", "a", 9, 2)], workers := map["o" := DialSend(9, "to")])

  const OFFER := map["k" := Passively("to")]
  const R0 := Taking(IDLE, HALF, map[], map[], [])
  const R2 := Taking(IDLE, Down(Offered, "to", "0", 2), OFFER, map[], [])
  const R3 := Taking(IDLE, Down(Connecting, "to", "0", 2), OFFER, map[], [Question("to", 2)])
  const R5 := Taking(IDLE, Down(Connecting, "to", "0", 2), OFFER, map["k" := ListenReceive(9, Passively("to"))], [Question("to", 2), Reply("to")])

  function Still(s: State, r: State, received: nat, answered: nat): Net {
    Net(s, r, received, answered, BEFORE, [], map[], map[])
  }

  const MEETING := Still(S6, R5, 2, 2)
  const STREAM := Conn("o", "k", "f", Key(0, "to"), 2, [])

  function Moving(up: int, got: int, c: Conn, files: map<string, Bytes>): Net {
    MEETING.(sender := S6.(items := map["o" := Up(Transferring, "to", "a", 9, 2).(transferredBytes := up)]),
    receiver := R5.(items := map["i" := IDLE, "k" := Down(Transferring, "to", "0", 2).(transferredBytes := got)]),
    files := files, conns := [c], outLink := map["o" := 0], inLink := map["k" := 0])
  }

  const JOINED := Moving(2, 2, STREAM, BEFORE)
  const SENT := Moving(3, 2, STREAM.(next := 3, pipe := [3]), BEFORE)
  const GOT := Moving(3, 3, STREAM.(next := 3, pipe := []), BEFORE["k" := [1, 2, 3]])
  const WHOLE := Down(Completed, "to", "0", 2).(transferredBytes := 3, resumable := false, fileAvailable := true)
  const RESUMED := GOT.(inLink := map[], receiver := R5.(items := map["i" := IDLE, "k" := WHOLE], workers := map[]))

  ghost predicate TimelyLeads(n: Net, step: DccNet.Step, m: Net) {
    Leads(n, step, m) && Timely(NAMES, n, step)
  }

  // ---------------------------------------------------------------- the steps

  lemma OfferTaken()
    ensures HandleControl(R0, 1, "s", Passively("to"), OFFERED.answers) == R2
  {
    Pick(Reoffers(R0.items, 1, "s", Passively("to")));
  }

  lemma Offers()
    ensures TimelyLeads(Still(S1, R0, 0, 0), OFFERED, Still(S1, R2, 1, 0))
  {
    var n := Still(S1, R0, 0, 0);
    hide HandleControl;
    OfferTaken();
    Answered(n, OFFERED.answers, Passively("to"), "");
    ReceiverHears(n, OFFERED.answers, Passively("to"), R2);
  }

  lemma Takes()
    ensures TimelyLeads(Still(S1, R2, 1, 0), TAKES_K, Still(S1, R3, 1, 0))
  {
    assert [] + [Question("to", 2)] == [Question("to", 2)];
    assert AcceptTransfer(R2, "k", Accepting(2), Outcomes('v')) == R3;
    hide AcceptTransfer;
    ReceiverActs(Still(S1, R2, 1, 0), TAKES_K.step, R3);
  }

  lemma RequestHandled()
    ensures HandleControl(S1, 1, "r", Question("to", 2).offer, ASKED.answers) == S4
    ensures TimelyMessage(S1, NAMES, Question("to", 2).offer, ["o"])
  {
    Pick(ResumeRequests(S1.items, 1, "r", Question("to", 2).offer));
  }

  lemma Requests()
    ensures TimelyLeads(Still(S1, R3, 1, 0), ASKED, Still(S4, R3, 1, 1))
  {
    OutcomesFresh(S1, 'v');
    hide FreshBegins, HandleControl, TimelyMessage;
    RequestHandled();
    SenderHears(Still(S1, R3, 1, 0), ASKED.answers, Question("to", 2).offer, S4);
  }

  lemma AgreementTaken()
    ensures HandleControl(R3, 1, "s", Agreed("to", 2).offer, AGREED.answers) == R5
  {
    Pick(ResumeAccepts(R3.items, 1, "s", Agreed("to", 2).offer));
    assert [Question("to", 2)] + [Reply("to")] == [Question("to", 2), Reply("to")];
  }

  lemma Agrees()
    ensures TimelyLeads(Still(S4, R3, 1, 1), AGREED, Still(S4, R5, 2, 1))
  {
    var n := Still(S4, R3, 1, 1);
    hide HandleControl;
    AgreementTaken();
    Answered(n, AGREED.answers, Agreed("to", 2).offer, "k");
    ReceiverHears(n, AGREED.answers, Agreed("to", 2).offer, R5);
  }

  lemma ReplyHandled()
    ensures HandleControl(S4, 1, "r", Reply("to").offer, ASKED.answers) == S6
    ensures TimelyMessage(S4, NAMES, Reply("to").offer, ["o"])
  {
    Pick(PassiveReplies(S4.items, 1, "r", Reply("to").offer));
  }

  lemma Replies()
    ensures TimelyLeads(Still(S4, R5, 2, 1), ASKED, MEETING)
  {
    OutcomesFresh(S4, 'v');
    hide FreshBegins, HandleControl, TimelyMessage;
    ReplyHandled();
    SenderHears(Still(S4, R5, 2, 1), ASKED.answers, Reply("to").offer, S6);
  }

  lemma Connects()
    ensures TimelyLeads(MEETING, Connect("o", "k"), JOINED)
  {
    hide Leads;
    Joins(MEETING, "o", "k", JOINED.sender, JOINED.receiver, STREAM);
  }

  lemma Sends()
    ensures TimelyLeads(JOINED, SendChunk("o", 1), SENT)
  {
    hide Leads;
    assert [] + SRC["f"][2..3] == [3];
    Pours(JOINED, "o", 1, SENT.sender, STREAM, SENT.conns[0]);
  }

  lemma Receives()
    ensures TimelyLeads(SENT, ReceiveChunk("k", 1), GOT)
  {
    var byte: Bytes, had: Bytes := [3], [1, 2];
    hide Leads;
    assert byte[..1] == byte && byte[1..] == [] && had + byte == [1, 2, 3];
    Soaks(SENT, "k", GOT.receiver, SENT.conns[0], GOT.conns[0], [1, 2, 3]);
    assert SENT.files["k" := [1, 2, 3]] == GOT.files;
  }

  lemma Completes()
    ensures TimelyLeads(GOT, ReceiveDone("k", Outcomes('v')), RESUMED)
  {
    hide Complete, Leads;
    Finishes(GOT, "k", Outcomes('v'));
    assert GOT.receiver.workers - {"k"} == map[];
    assert GOT.receiver.items["k" := CompletedItem(GOT.receiver.items["k"])] == RESUMED.receiver.items;
  }

  // ---------------------------------------------------------------- the run

  ghost predicate GoodRun(n: Net, steps: seq<DccNet.Step>) {
    PossibleRun(SRC, NAMES, n, steps) && TimelyRun(SRC, NAMES, n, steps) && Run(SRC, NAMES, n, steps) == RESUMED
  }

  lemma PrependTimely(n: Net, step: DccNet.Step, m: Net, rest: seq<DccNet.Step>)
    requires TimelyLeads(n, step, m) && GoodRun(m, rest)
    ensures GoodRun(n, [step] + rest)
  {
    assert ([step] + rest)[1..] == rest;
  }

  const MOVES := [Connect("o", "k")] + ([SendChunk("o", 1)] + ([ReceiveChunk("k", 1)] + ([ReceiveDone("k", Outcomes('v'))] + [])))
  const STEPS := [QUEUES] + ([OFFERED] + ([TAKES_K] + ([ASKED] + ([AGREED] + ([ASKED] + MOVES)))))

  lemma MovesWell()
    ensures GoodRun(MEETING, MOVES)
  {
    assert GoodRun(RESUMED, []);
    hide TimelyLeads, GoodRun;
    var done := ReceiveDone("k", Outcomes('v'));
    Completes();
    PrependTimely(GOT, done, RESUMED, []);
    Receives();
    PrependTimely(SENT, ReceiveChunk("k", 1), GOT, [done] + []);
    Sends();
    PrependTimely(JOINED, SendChunk("o", 1), SENT, [ReceiveChunk("k", 1)] + ([done] + []));
    Connects();
    PrependTimely(MEETING, Connect("o", "k"), JOINED, [SendChunk("o", 1)] + ([ReceiveChunk("k", 1)] + ([done] + [])));
  }

  lemma NegotiatesWell()
    ensures GoodRun(Still(S0, R0, 0, 0), STEPS)
  {
    QueuesFrom(Still(S0, R0, 0, 0));
    assert TimelyLeads(Still(S0, R0, 0, 0), QUEUES, Still(S1, R0, 0, 0));
    hide TimelyLeads, GoodRun;
    MovesWell();
    Replies();
    PrependTimely(Still(S4, R5, 2, 1), ASKED, MEETING, MOVES);
    Agrees();
    PrependTimely(Still(S4, R3, 1, 1), AGREED, Still(S4, R5, 2, 1), [ASKED] + MOVES);
    Requests();
    PrependTimely(Still(S1, R3, 1, 0), ASKED, Still(S4, R3, 1, 1), [AGREED] + ([ASKED] + MOVES));
    Takes();
    PrependTimely(Still(S1, R2, 1, 0), TAKES_K, Still(S1, R3, 1, 0), [ASKED] + ([AGREED] + ([ASKED] + MOVES)));
    Offers();
    PrependTimely(Still(S1, R0, 0, 0), OFFERED, Still(S1, R2, 1, 0), [TAKES_K] + ([ASKED] + ([AGREED] + ([ASKED] + MOVES))));
    PrependTimely(Still(S0, R0, 0, 0), QUEUES, Still(S1, R0, 0, 0), [OFFERED] + ([TAKES_K] + ([ASKED] + ([AGREED] + ([ASKED] + MOVES)))));
  }

  const RECORDS := [Stored("i", IDLE), Stored("k", HALF)]

  lemma ProperStart()
    ensures Starts(SRC, Still(S0, R0, 0, 0), [], RECORDS)
  {
    assert RECORDS[1..] == [RECORDS[1]] && RECORDS[1..][1..] == [];
    var one := map["i" := IDLE];
    assert RestoreEach(map["i" := IDLE, "k" := HALF], []) == map["i" := IDLE, "k" := HALF];
    assert RestoreEach(one, RECORDS[1..]) == RestoreEach(one["k" := HALF], []);
    assert RestoreEach(map[], RECORDS) == RestoreEach(one, RECORDS[1..]);
    assert RestoreEach(map[], []) == map[];
    hide RestoreEach;
  }

  /** A possible and timely run from a proper start that resumes a download and completes it. */
  lemma TimelyResumeCompletes()
    ensures Starts(SRC, Still(S0, R0, 0, 0), [], RECORDS)
    ensures PossibleRun(SRC, NAMES, Still(S0, R0, 0, 0), STEPS) && TimelyRun(SRC, NAMES, Still(S0, R0, 0, 0), STEPS)
    ensures var m := Run(SRC, NAMES, Still(S0, R0, 0, 0), STEPS);
            && "k" in m.receiver.items && m.receiver.items["k"].status == Completed
            && "k" in m.files && m.files["k"] == SRC["f"]
  {
    ProperStart();
    NegotiatesWell();
    hide Run, PossibleRun, TimelyRun, Starts;
  }
}
