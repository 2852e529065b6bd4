/** The ordered application worker of internal/irc/callback_dispatcher.go, and the barrier that
    IRCClient.Connect waits on until the connect callback has run. */
module CallbackDispatcher {

  /** `registers` marks the connect callback, which ends by releasing the barrier. */
  datatype Work = Work(name: string, registers: bool)

  /** The queue object, changed under its mutex. */
  class Queue {
    var queue: seq<Work>
    var stopping: bool

    constructor ()
      ensures queue == [] && !stopping
    {
      queue, stopping := [], false;
    }

    /** enqueue: refused once shutdown began. */
    method Enqueue(work: Work) returns (accepted: bool)
      modifies this`queue
      ensures accepted == !stopping
      ensures queue == if accepted then old(queue) + [work] else old(queue)
    {
      if stopping {
        return false;
      }
      queue := queue + [work];
      return true;
    }

    method StopAfterDrain()
      modifies this`stopping
      ensures stopping
    {
      stopping := true;
    }

    /** The locked section of the worker's loop: the next work, or whether to sleep or to return. */
    method Next() returns (looked: Looked)
      modifies this`queue
      ensures looked == LookAt(old(queue), stopping)
      ensures queue == if looked.Take? then old(queue)[1..] else old(queue)
    {
      if |queue| == 0 && !stopping {
        return Sleep;
      }
      if |queue| == 0 && stopping {
        return Return;
      }
      var work := queue[0];
      queue := queue[1..];
      return Take(work);
    }
  }

  datatype Looked = Sleep | Return | Take(work: Work)

  function LookAt(queue: seq<Work>, stopping: bool): Looked {
    if queue != [] then Take(queue[0]) else if stopping then Return else Sleep
  }

  // ---------------------------------------------------------------- interleavings

  /** Where the worker stands; `Asleep` waits on the condition variable, `Closed` has closed `done`. */
  datatype Worker = Looks | Asleep | Running(work: Work) | Closed

  /** `accepted` and `finished` are history. `applied` is the barrier of Connect. */
  datatype State = State(
    queue: seq<Work>,
    stopping: bool,
    worker: Worker,
    accepted: seq<Work>,
    finished: seq<Work>,
    applied: bool)

  const INITIAL := State([], false, Looks, [], [], false)

  /** A callback may return or panic; the worker recovers from a panic. */
  datatype Step = Enqueues(work: Work) | Stops | Look | Finishes(panics: bool)

  predicate Possible(s: State, step: Step) {
    match step
    case Enqueues(_) => true
    case Stops => true
    case Look => s.worker.Looks?
    case Finishes(_) => s.worker.Running?
  }

  /** Signal and Broadcast wake the worker only if it sleeps. */
  function Woken(w: Worker): Worker {
    if w.Asleep? then Looks else w
  }

  function Apply(s: State, step: Step): State
    requires Possible(s, step)
  {
    match step
    case Enqueues(w) =>
      if s.stopping then s
      else s.(queue := s.queue + [w], accepted := s.accepted + [w], worker := Woken(s.worker))
    case Stops => s.(stopping := true, worker := Woken(s.worker))
    case Look =>
      (match LookAt(s.queue, s.stopping)
       case Sleep => s.(worker := Asleep)
       case Return => s.(worker := Closed)
       case Take(w) => s.(worker := Running(w), queue := s.queue[1..]))
    case Finishes(_) =>
      s.(worker := Looks, finished := s.finished + [s.worker.work], applied := s.applied || s.worker.work.registers)
  }

  function Hand(w: Worker): seq<Work> {
    if w.Running? then [w.work] else []
  }

  predicate AnyRegisters(s: seq<Work>) {
    exists k :: 0 <= k < |s| && s[k].registers
  }

  predicate Inv(s: State) {
    && s.accepted == s.finished + Hand(s.worker) + s.queue
    && (s.worker.Asleep? ==> s.queue == [] && !s.stopping)
    && (s.worker.Closed? ==> s.queue == [] && s.stopping)
    && (s.applied <==> AnyRegisters(s.finished))
  }

  lemma StepInv(s: State, step: Step)
    requires Inv(s) && Possible(s, step)
    ensures Inv(Apply(s, step))
  {
    var t := Apply(s, step);
    match step
    case Enqueues(w) =>
      assert (s.finished + Hand(s.worker) + s.queue) + [w] == s.finished + Hand(s.worker) + (s.queue + [w]);
    case Finishes(_) =>
      FinishRegisters(s.finished, s.worker.work);
      assert t.finished + Hand(t.worker) == s.finished + Hand(s.worker);
    case Look =>
      if s.queue != [] {
        assert s.queue == [s.queue[0]] + s.queue[1..];
      }
    case Stops =>
  }

  lemma FinishRegisters(s: seq<Work>, w: Work)
    ensures AnyRegisters(s + [w]) <==> AnyRegisters(s) || w.registers
  {
    if AnyRegisters(s) {
      var k :| 0 <= k < |s| && s[k].registers;
      assert (s + [w])[k].registers;
    }
    if w.registers {
      assert (s + [w])[|s|].registers;
    }
  }

  ghost predicate PossibleRun(s: State, steps: seq<Step>)
    decreases |steps|
  {
    steps == [] || (Possible(s, steps[0]) && PossibleRun(Apply(s, steps[0]), steps[1..]))
  }

  function Run(s: State, steps: seq<Step>): State
    requires PossibleRun(s, steps)
    decreases |steps|
  {
    if steps == [] then s else Run(Apply(s, steps[0]), steps[1..])
  }

  lemma {:induction false} RunInv(s: State, steps: seq<Step>)
    requires Inv(s) && PossibleRun(s, steps)
    ensures Inv(Run(s, steps))
    decreases |steps|
  {
    if steps != [] {
      StepInv(s, steps[0]);
      RunInv(Apply(s, steps[0]), steps[1..]);
    }
  }

  /** The work handed in before the first stop, in that order. */
  function HandedIn(steps: seq<Step>, stopping: bool): seq<Work> {
    if steps == [] || stopping then []
    else (if steps[0].Enqueues? then [steps[0].work] else []) + HandedIn(steps[1..], steps[0].Stops?)
  }

  lemma {:induction false} RunAccepts(s: State, steps: seq<Step>)
    requires PossibleRun(s, steps)
    ensures Run(s, steps).accepted == s.accepted + HandedIn(steps, s.stopping)
    decreases |steps|
  {
    if steps != [] {
      var t := Apply(s, steps[0]);
      RunAccepts(t, steps[1..]);
      assert t.accepted == s.accepted + (if steps[0].Enqueues? && !s.stopping then [steps[0].work] else []);
      if s.stopping {
        assert t.accepted == s.accepted && HandedIn(steps[1..], true) == [];
      } else {
        assert t.stopping == steps[0].Stops?;
        assert s.accepted + (if steps[0].Enqueues? then [steps[0].work] else []) + HandedIn(steps[1..], steps[0].Stops?)
            == s.accepted + HandedIn(steps, false);
      }
    }
  }

  /** Callbacks handed in before the stop run once each and in that order, whether or not they panic;
      `done` closes only when all of them ran, and nothing is accepted afterwards. */
  lemma RunsInOrder(steps: seq<Step>)
    requires PossibleRun(INITIAL, steps)
    ensures var s := Run(INITIAL, steps);
            && s.accepted == HandedIn(steps, false)
            && s.finished <= s.accepted
            && s.accepted == s.finished + Hand(s.worker) + s.queue
            && (s.worker.Closed? ==> s.finished == s.accepted && s.stopping)
            && (s.worker.Asleep? ==> s.finished == s.accepted && !s.stopping)
  {
    RunAccepts(INITIAL, steps);
    assert [] + HandedIn(steps, false) == HandedIn(steps, false);
    RunInv(INITIAL, steps);
  }

  /** The first connect callback among accepted work. */
  predicate FirstRegistering(s: seq<Work>, k: nat) {
    k < |s| && s[k].registers && forall j :: 0 <= j < k ==> !s[j].registers
  }

  lemma {:induction false} FirstExists(s: seq<Work>)
    requires AnyRegisters(s)
    ensures exists k: nat :: FirstRegistering(s, k)
    decreases |s|
  {
    var k :| 0 <= k < |s| && s[k].registers;
    if AnyRegisters(s[..k]) {
      FirstExists(s[..k]);
      var j: nat :| FirstRegistering(s[..k], j);
      assert forall i :: 0 <= i < k ==> s[..k][i] == s[i];
      assert FirstRegistering(s, j);
    } else {
      assert forall i :: 0 <= i < k ==> s[..k][i] == s[i];
      assert FirstRegistering(s, k);
    }
  }

  /** Connect passes its barrier exactly when the first connect callback has finished, which is after
      every callback accepted before it has finished. */
  lemma BarrierWaits(steps: seq<Step>)
    requires PossibleRun(INITIAL, steps)
    ensures var s := Run(INITIAL, steps);
            && (s.applied ==> exists k: nat :: FirstRegistering(s.accepted, k) && k < |s.finished| && s.finished[..k + 1] == s.accepted[..k + 1])
            && (forall k: nat :: FirstRegistering(s.accepted, k) && k < |s.finished| ==> s.applied)
  {
    RunInv(INITIAL, steps);
    var s := Run(INITIAL, steps);
    assert forall k :: 0 <= k < |s.finished| ==> s.finished[k] == s.accepted[k];
    if s.applied {
      FirstExists(s.finished);
      var k: nat :| FirstRegistering(s.finished, k);
      assert FirstRegistering(s.accepted, k);
      assert s.finished[..k + 1] == s.accepted[..k + 1];
    }
  }

  /** Steps the worker still has to take before it closes `done`, if no work arrives. */
  function Remaining(s: State): nat {
    match s.worker
    case Closed => 0
    case Asleep => 2 * |s.queue| + 2
    case Looks => 2 * |s.queue| + 1
    case Running(_) => 2 * |s.queue| + 2
  }

  /** After stopAfterDrain the worker is never stuck: it can always move until it has closed `done`,
      every move brings it closer, and nobody can push it back. */
  lemma StopDrains(s: State, step: Step)
    requires Inv(s) && s.stopping && Possible(s, step)
    ensures var t := Apply(s, step);
            && t.stopping && t.accepted == s.accepted
            && (if step.Look? || step.Finishes? then Remaining(t) < Remaining(s) else Remaining(t) <= Remaining(s))
    ensures Remaining(s) > 0 ==> Possible(s, Look) || Possible(s, Finishes(false))
    ensures Remaining(s) == 0 ==> s.worker.Closed? && s.finished == s.accepted
  {
  }

  /** Nobody who hands in work or stops the worker is ever kept waiting; work is accepted iff no stop came
      before. */
  lemma NeverBlocks(s: State, work: Work)
    ensures Possible(s, Enqueues(work)) && Possible(s, Stops)
    ensures var t := Apply(s, Enqueues(work));
            t.queue == (if s.stopping then s.queue else s.queue + [work]) && t.stopping == s.stopping
    ensures Apply(s, Stops).stopping && Apply(s, Stops).queue == s.queue
  {
  }
}
