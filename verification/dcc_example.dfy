/** Vocabulary of the example runs of two managers: a source file of three bytes, one upload "o", two
    downloads "i" and "k", and the steps such runs are made of. */
module DccExample {
  import opened DccTypes
  import opened DccNames
  import opened DccManager
  import opened DccNet
  import opened DccAgreement
  import opened DccResume
  import Scheduler = DccScheduler

  const SRC: map<string, Bytes> := map["f" := [1, 2, 3]]
  const NAMES := Names(1, 1, "s", "r")
  const ORDER := ["i", "k"]

  /** Distinct numbers for distinct identifiers. */
  function Code(x: string): (c: nat)
    ensures c > 0
  {
    if x == "" then 1 else 2 + x[0] as int + 0x110000 * Code(x[1..])
  }

  lemma {:induction false} CodeInjective(x: string, y: string)
    requires Code(x) == Code(y)
    ensures x == y
  {
    if x != "" && y != "" {
      DigitsUnique(x[0] as int, Code(x[1..]), y[0] as int, Code(y[1..]));
      CodeInjective(x[1..], y[1..]);
    }
  }

  lemma DigitsUnique(a: nat, p: nat, b: nat, q: nat)
    requires a < 0x110000 && b < 0x110000 && a + 0x110000 * p == b + 0x110000 * q
    ensures a == b && p == q
  {
  }

  const PORT := 5

  /** Only the upload of the example finds a free port. */
  function Port(x: string): int {
    if x == "o" then PORT else PORT + Code(x)
  }

  /** A token that begins with `letter`, another one for every identifier. */
  function Draw(letter: char, x: string): string {
    if x == "o" then [letter] + "o" else [letter] + "z" + seq(Code(x), _ => 'i')
  }

  lemma DrawInjective(letter: char, x: string, y: string)
    requires x != y
    ensures Draw(letter, x) != Draw(letter, y) && Port(x) != Port(y)
  {
    if x != "o" && y != "o" {
      if Code(x) == Code(y) {
        CodeInjective(x, y);
      }
      assert |Draw(letter, x)| == 2 + Code(x) && |Draw(letter, y)| == 2 + Code(y);
    } else {
      assert Draw(letter, x)[1] != Draw(letter, y)[1];
    }
  }

  function Outcomes(letter: char): Env {
    x => Begin(x == "o", Port(x), "a", Draw(letter, x), true)
  }

  /** Outcomes once the port is taken. */
  function LateOutcomes(): Env {
    x => Begin(false, PORT + Port(x), "a", Draw('v', x), true)
  }

  predicate Taken(s: State, highest: int, letter: char) {
    forall k :: 0 <= k < |s.sent| && s.sent[k].offer.command == Send ==>
      0 <= s.sent[k].offer.port <= highest && (s.sent[k].offer.token != "" ==> s.sent[k].offer.token[0] != letter)
  }

  lemma OutcomesFresh(s: State, letter: char)
    requires Taken(s, 0, letter)
    ensures FreshBegins(s, Outcomes(letter))
  {
    var env := Outcomes(letter);
    forall x, y | x != y ensures env(x).port != env(y).port && env(x).token != env(y).token {
      DrawInjective(letter, x, y);
    }
    assert forall x :: env(x).token[0] == letter;
  }

  lemma LateFresh(s: State)
    requires Taken(s, PORT, 'v')
    ensures FreshBegins(s, LateOutcomes())
  {
    var env := LateOutcomes();
    forall x, y | x != y ensures env(x).port != env(y).port && env(x).token != env(y).token {
      DrawInjective('v', x, y);
    }
    assert forall x :: env(x).token[0] == 'v';
  }

  lemma Pick(p: string -> bool)
    ensures FirstMatch(ORDER, p) == if p("i") then "i" else if p("k") then "k" else ""
    ensures FirstMatch(["o"], p) == if p("o") then "o" else ""
  {
    assert ORDER[1..] == ["k"] && ORDER[1..][1..] == [] && ["o"][1..] == [];
    assert FirstMatch([], p) == "";
  }

  // ---------------------------------------------------------------- records and messages

  function Up(status: Status, token: string, address: string, port: int, offset: int): Transfer {
    Transfer(1, "r", Outgoing, "f", false, 3, offset, status, address, port, token, offset, true, false)
  }

  function Down(status: Status, token: string, address: string, done: int): Transfer {
    Transfer(1, "s", Incoming, "f", true, 3, done, status, address, 0, token, done, false, true)
  }

  function Passively(token: string): Offer {
    Offer(Send, "f", "0", 0, 3, 0, token, true)
  }

  function Question(token: string, position: int): Control {
    Control(1, "s", Offer(Command.Resume, "f", "", 0, 0, position, token, true))
  }

  function Agreed(token: string, position: int): Control {
    Control(1, "r", Offer(Command.Accept, "f", "", 0, 0, position, token, true))
  }

  function Reply(token: string): Control {
    Control(1, "s", Offer(Send, "f", "a", 9, 3, 0, token, false))
  }

  function Offering(items: map<string, Transfer>, workers: map<string, Worker>, active: string, sent: seq<Control>): State {
    State(Settings(true, Passive, ""), items, map[], workers, [], active, sent)
  }

  function Taking(i: Transfer, k: Transfer, offers: map<string, Offer>, workers: map<string, Worker>, sent: seq<Control>): State {
    State(Settings(true, Automatic, "a"), map["i" := i, "k" := k], offers, workers, [], "", sent)
  }

  const RECEIVES := ReceiveEnv(true, 9, "a", true, true)

  function Handling(order: seq<string>, env: Env): ControlEnv {
    ControlEnv(order, "n", true, RECEIVES, env)
  }

  function Accepting(size: int): AcceptEnv {
    AcceptEnv("d", Absent, true, PartialFile(size, true), 10, true, RECEIVES)
  }

  const FILE := File("o", "f", true, 3)
  const QUEUES := SenderStep(Scheduler.QueueFiles(1, "r", [FILE], Outcomes('t')))
  const WITHDRAWS := SenderStep(Scheduler.CancelItem("o", Outcomes('u')))
  const REPEATS := SenderStep(Scheduler.RetryItem("o", true, Outcomes('u')))
  const OFFERED := ToReceiver(Handling(ORDER, Outcomes('v')).(receive := RECEIVES.(partialExists := false)))
  const AGREED := ToReceiver(Handling(ORDER, Outcomes('v')))
  const TAKES_K := ReceiverStep(Scheduler.AcceptItem("k", Accepting(2), Outcomes('v')))
  const TAKES_I := ReceiverStep(Scheduler.AcceptItem("i", Accepting(1), Outcomes('v')))
  const ASKED := ToSender(Handling(["o"], Outcomes('v')))

  // ---------------------------------------------------------------- single steps

  ghost predicate Leads(n: Net, step: DccNet.Step, m: Net) {
    PossibleNamed(SRC, NAMES, n, step) && Apply(SRC, NAMES, n, step) == m
  }

  lemma SenderActs(n: Net, st: Scheduler.Step, q: State)
    requires Scheduler.Possible(n.sender, st) && SenderMay(SRC, n.sender, st) && Scheduler.Apply(n.sender, st) == q && n.outLink == map[]
    ensures Leads(n, SenderStep(st), n.(sender := q))
  {
    hide Scheduler.Possible, SenderMay, Scheduler.Apply;
    assert Pruned(n.outLink, q.items) == map[];
  }

  lemma SenderHears(n: Net, e: ControlEnv, m: Offer, q: State)
    requires n.answered < |n.receiver.sent| && n.receiver.sent[n.answered].offer == m && 0 <= m.size && 0 <= m.position
    requires n.sender.items.Keys == {"o"} && e.order == ["o"] && e.newId == "n" && FreshBegins(n.sender, e.begin) && n.outLink == map[]
    requires HandleControl(n.sender, 1, "r", m, e) == q
    ensures Leads(n, ToSender(e), n.(sender := q, answered := n.answered + 1))
  {
    hide FreshBegins, HandleControl;
    assert Pruned(n.outLink, q.items) == map[];
    assert "n" !in {"o"};
    assert forall id :: id in n.sender.items ==> id in {"o"};
    assert Scheduler.Possible(n.sender, Scheduler.Message(1, "r", m, e));
  }

  ghost predicate KeepsFiles(n: Net, q: State) {
    n.inLink == map[] && forall id :: id in n.receiver.items && id in q.items ==> !Deletes(n.receiver.items[id], q.items[id])
  }

  lemma NothingLost(n: Net, q: State)
    requires KeepsFiles(n, q)
    ensures WithReceiver(n, q, Cleaned(n.files, n.receiver.items, q.items)) == n.(receiver := q)
  {
    assert Cleaned(n.files, n.receiver.items, q.items) == n.files;
    assert Pruned(n.inLink, q.items) == map[];
  }

  lemma ReceiverActs(n: Net, st: Scheduler.Step, q: State)
    requires st.AcceptItem? && Scheduler.Possible(n.receiver, st) && ReceiverMay(n.receiver, n.files, st)
    requires Scheduler.Apply(n.receiver, st) == q && KeepsFiles(n, q)
    ensures Leads(n, ReceiverStep(st), n.(receiver := q))
  {
    hide Scheduler.Possible, ReceiverMay, Scheduler.Apply;
    NothingLost(n, q);
    hide WithReceiver, Cleaned, KeepsFiles;
  }

  lemma MessagePossible(n: Net, e: ControlEnv, m: Offer)
    requires 0 <= m.size && 0 <= m.position && n.receiver.items.Keys == {"i", "k"} && e.order == ORDER && e.newId == "n"
    ensures Scheduler.Possible(n.receiver, Scheduler.Message(1, "s", m, e))
  {
    assert "n" !in {"i", "k"};
    assert forall id :: id in n.receiver.items ==> id in {"i", "k"};
  }

  lemma ReceiverHears(n: Net, e: ControlEnv, m: Offer, q: State)
    requires n.received < |n.sender.sent| && n.sender.sent[n.received].offer == m && 0 <= m.size && 0 <= m.position
    requires n.receiver.items.Keys == {"i", "k"} && e.order == ORDER && e.newId == "n" && AnswersFor(n, NAMES, m, e)
    requires HandleControl(n.receiver, 1, "s", m, e) == q && KeepsFiles(n, q)
    ensures Leads(n, ToReceiver(e), n.(receiver := q, received := n.received + 1))
  {
    MessagePossible(n, e, m);
    hide AnswersFor, HandleControl, Scheduler.Possible;
    NothingLost(n, q);
    hide WithReceiver, Cleaned, KeepsFiles;
  }

  /** A message is answered for when `id` is the download that is meant, "" for none. */
  lemma Answered(n: Net, e: ControlEnv, m: Offer, id: string)
    requires e.order == ORDER && e.newId == "n" && n.inLink == map[] && n.receiver.workers == map[]
    requires n.receiver.offers.Keys <= {"i", "k"} && n.files.Keys <= {"i", "k"} && FreshPort(n.receiver, e.receive)
    requires id == (if IsResumeAccept(n.receiver.items, "i", 1, "s", m) then "i" else if IsResumeAccept(n.receiver.items, "k", 1, "s", m) then "k" else "")
    requires e.receive.partialExists <==> id in n.files
    ensures AnswersFor(n, NAMES, m, e)
  {
    Pick(ResumeAccepts(n.receiver.items, 1, "s", m));
    hide FirstMatch, IsResumeAccept;
  }

  lemma Joins(n: Net, o: string, i: string, s: State, r: State, c: Conn)
    requires Possible(SRC, n, Connect(o, i)) && n.conns == [] && n.outLink == map[] && n.inLink == map[]
    requires MarkTransferring(n.sender, o) == s && MarkTransferring(n.receiver, i) == r
    requires c == Conn(o, i, n.sender.items[o].filename, KeyOfWorker(n.sender.workers[o]), n.sender.items[o].resumeOffset, [])
    ensures Leads(n, Connect(o, i), n.(sender := s, receiver := r, files := if i in n.files then n.files else n.files[i := []],
                                       conns := [c], outLink := map[o := 0], inLink := map[i := 0]))
  {
    hide MarkTransferring;
    assert n.conns + [c] == [c];
  }

  lemma Pours(n: Net, o: string, count: nat, s: State, c: Conn, d: Conn)
    requires n.conns == [c] && n.outLink == map[o := 0] && c.file in SRC && 0 < count && c.next + count <= |SRC[c.file]|
    requires d == c.(next := c.next + count, pipe := c.pipe + SRC[c.file][c.next..c.next + count]) && Progress(n.sender, o, d.next) == s
    ensures Leads(n, SendChunk(o, count), n.(sender := s, conns := [d]))
  {
    hide Progress;
    assert n.conns[0 := d] == [d];
  }

  lemma Soaks(n: Net, i: string, r: State, c: Conn, d: Conn, got: Bytes)
    requires n.conns == [c] && n.inLink == map[i := 0] && Possible(SRC, n, ReceiveChunk(i, 1))
    requires d == c.(pipe := c.pipe[1..]) && got == n.files[i] + c.pipe[..1] && Progress(n.receiver, i, |got|) == r
    ensures Leads(n, ReceiveChunk(i, 1), n.(receiver := r, files := n.files[i := got], conns := [d]))
  {
    hide Progress;
    assert n.conns[0 := d] == [d];
  }

  lemma Finishes(n: Net, i: string, env: Env)
    requires Possible(SRC, n, ReceiveDone(i, env)) && n.inLink.Keys == {i}
    requires n.receiver.items[i].status == Transferring && n.receiver.queue == [] && n.receiver.active == "" && i != ""
    ensures Leads(n, ReceiveDone(i, env), n.(
                  receiver := n.receiver.(items := n.receiver.items[i := CompletedItem(n.receiver.items[i])], workers := n.receiver.workers - {i}),
                  inLink := map[]))
  {
    var r := n.receiver.(items := n.receiver.items[i := CompletedItem(n.receiver.items[i])], workers := n.receiver.workers - {i});
    assert StartNext(r, env) == r;
    assert Complete(n.receiver, i, env) == r;
    hide Complete;
    assert Pruned(n.inLink, r.items) == map[];
  }

  // ---------------------------------------------------------------- the first steps

  const S0 := Offering(map[], map[], "", [])
  const S1 := Offering(map["o" := Up(Negotiating, "to", "0", 0, 0)], map["o" := AwaitPeer("to")], "o", [Control(1, "r", Passively("to"))])
  const S3 := Offering(map["o" := Up(Canceled, "to", "0", 0, 0)], map[], "", [Control(1, "r", Passively("to"))])

  lemma Queued(s: State)
    requires s == S0
    ensures QueueOutgoing(s, 1, "r", [FILE], Outcomes('t')) == S1
  {
    var files := [FILE];
    assert files[1..] == [];
    var one := S0.(items := S0.items["o" := NewOutgoing(1, "r", FILE)], queue := S0.queue + ["o"]);
    assert Enqueued(S0, 1, "r", files) == Enqueued(one, 1, "r", files[1..]) == one;
    assert [] + ["o"] == ["o"] && ['t'] + "o" == "to";
    assert "f"[0] == 'f' && "."[0] == '.' && |"f"| != |".."|;
    assert forall k :: 0 <= k < |"f"| ==> "f"[k] == 'f';
    assert SafeFilename("f");
  }

  lemma QueuesFrom(n: Net)
    requires n.sender == S0 && n.outLink == map[]
    ensures Leads(n, QUEUES, n.(sender := S1))
  {
    OutcomesFresh(S0, 't');
    Queued(S0);
    hide FreshBegins, QueueOutgoing, Selectable;
    SenderActs(n, QUEUES.step, S1);
  }

  lemma WithdrawsFrom(n: Net)
    requires n.sender == S1 && n.outLink == map[]
    ensures Leads(n, WITHDRAWS, n.(sender := S3))
  {
    OutcomesFresh(S1, 'u');
    assert Cancel(S1, "o", Outcomes('u')) == S3;
    hide FreshBegins, Cancel;
    SenderActs(n, WITHDRAWS.step, S3);
  }
}
