/** A run of one manager in which a finished upload loses its byte count: the RESUME of a peer arrives
    after the transfer is Completed and is answered all the same. */
module DccLateResume {
  import opened DccTypes
  import opened DccManager
  import opened DccExample
  import opened Scheduler = DccScheduler

  const ANSWER := Message(1, "r", Reply("to").offer, Handling(["o"], Outcomes('v')))
  const LATE := Message(1, "r", Question("to", 1).offer, Handling(["o"], Outcomes('v')))
  const FINISH := [WorkerConnected("o")] + ([WorkerDone("o", Outcomes('v'))] + ([LATE] + []))
  const STEPS := [QueueFiles(1, "r", [FILE], Outcomes('t'))] + ([ANSWER] + FINISH)

  const DIALS := S1.(items := map["o" := Up(Negotiating, "to", "a", 9, 0)], workers := map["o" := DialSend(9, "to")])
  const SENDS := DIALS.(items := map["o" := Up(Transferring, "to", "a", 9, 0)])
  const SENT := DIALS.(items := map["o" := Up(Completed, "to", "a", 9, 0).(transferredBytes := 3)], workers := map[], active := "")
  const MOVED := SENT.(items := map["o" := Up(Completed, "to", "a", 9, 1)], sent := S1.sent + [Agreed("to", 1)])

  lemma Begins()
    ensures Restored(S0.settings, []) == S0
    ensures var queue := QueueFiles(1, "r", [FILE], Outcomes('t')); Possible(S0, queue) && Apply(S0, queue) == S1
  {
    assert RestoreEach(map[], []) == map[];
    DccExample.Queued(S0);
  }

  lemma Answers()
    ensures Possible(S1, ANSWER) && Apply(S1, ANSWER) == DIALS
  {
    Pick(PassiveReplies(S1.items, 1, "r", Reply("to").offer));
  }

  lemma Completes()
    ensures Possible(DIALS, WorkerConnected("o")) && Possible(SENDS, WorkerDone("o", Outcomes('v')))
    ensures Apply(DIALS, WorkerConnected("o")) == SENDS && Apply(SENDS, WorkerDone("o", Outcomes('v'))) == SENT
  {
    assert SENDS.workers - {"o"} == map[];
  }

  lemma Late()
    ensures Possible(SENT, LATE) && Apply(SENT, LATE) == MOVED
  {
    Pick(ResumeRequests(SENT.items, 1, "r", Question("to", 1).offer));
  }

  lemma Prepend(s: State, step: Step, t: State, rest: seq<Step>)
    requires Possible(s, step) && Apply(s, step) == t && PossibleRun(t, rest)
    ensures PossibleRun(s, [step] + rest) && Run(s, [step] + rest) == Run(t, rest)
  {
    assert ([step] + rest)[1..] == rest;
  }

  /** The record says Completed, and one byte of three. */
  lemma LateResumeRun()
    ensures Restored(S0.settings, []) == S0 && PossibleRun(S0, STEPS)
    ensures var s := Run(S0, STEPS);
            "o" in s.items && s.items["o"].status == Completed && s.items["o"].totalBytes == 3 && s.items["o"].transferredBytes == 1
  {
    Begins();
    Answers();
    Completes();
    Late();
    var queue := QueueFiles(1, "r", [FILE], Outcomes('t'));
    assert PossibleRun(MOVED, []) && Run(MOVED, []) == MOVED;
    hide Possible, Apply, PossibleRun, Run, Restored;
    Prepend(SENT, LATE, MOVED, []);
    Prepend(SENDS, WorkerDone("o", Outcomes('v')), SENT, [LATE] + []);
    Prepend(DIALS, WorkerConnected("o"), SENDS, [WorkerDone("o", Outcomes('v'))] + ([LATE] + []));
    Prepend(S1, ANSWER, DIALS, FINISH);
    Prepend(S0, queue, S1, [ANSWER] + FINISH);
  }
}
