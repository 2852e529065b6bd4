/** Automatic requests: internal/irc/outbound_request_dispatcher.go, paced by the token bucket that
    other senders of the connection share. */
module OutboundDispatcher {
  import opened RateLimiter

  datatype Request = Request(name: string, number: nat)

  datatype Looked = Sleep | Return | Take(request: Request)

  function LookAt(queue: seq<Request>, stopping: bool): Looked {
    if stopping then Return else if queue == [] then Sleep else Take(queue[0])
  }

  /** The queue object, changed under its mutex. */
  class Queue {
    var queue: seq<Request>
    var stopping: bool

    constructor ()
      ensures queue == [] && !stopping
    {
      queue, stopping := [], false;
    }

    method Enqueue(request: Request) returns (accepted: bool)
      modifies this`queue
      ensures accepted == !stopping
      ensures queue == if accepted then old(queue) + [request] else old(queue)
    {
      if stopping {
        return false;
      }
      queue := queue + [request];
      return true;
    }

    /** stopNow drops what was not sent. */
    method StopNow()
      modifies this
      ensures stopping && queue == []
    {
      stopping, queue := true, [];
    }

    method Next() returns (looked: Looked)
      modifies this`queue
      ensures looked == LookAt(old(queue), stopping)
      ensures queue == if looked.Take? then old(queue)[1..] else old(queue)
    {
      if |queue| == 0 && !stopping {
        return Sleep;
      }
      if stopping {
        return Return;
      }
      var request := queue[0];
      queue := queue[1..];
      return Take(request);
    }
  }

  // ---------------------------------------------------------------- interleavings

  /** `Pacing` waits in the limiter, `Checking` holds a token granted at `paid` and is about to look
      at `stopping` again, `Starting` looked and is about to run. */
  datatype Worker =
    | Looks
    | Asleep
    | Pacing(request: Request)
    | Checking(request: Request, paid: int)
    | Starting(request: Request, paid: int)
    | Closed

  /** History: accepted and started requests, when each started, how many started after stopNow. */
  datatype State = State(
    queue: seq<Request>,
    stopping: bool,
    worker: Worker,
    limiter: History,
    accepted: seq<Request>,
    started: seq<Request>,
    times: seq<int>,
    late: nat)

  function Initial(burst: int, window: int, now: int): State
    requires burst > 0
  {
    State([], false, Looks, New(burst, window, now), [], [], [], 0)
  }

  /** `PacesAt` is a round of the worker's Wait, `OtherTakesAt` one of any other sender. */
  datatype Step =
    | Enqueues(request: Request)
    | Stops
    | Look
    | PacesAt(time: int)
    | OtherTakesAt(time: int)
    | Check
    | StartsAt(time: int)

  predicate Possible(s: State, step: Step) {
    match step
    case Enqueues(_) => true
    case Stops => true
    case Look => s.worker.Looks?
    case PacesAt(time) => s.worker.Pacing? && s.limiter.now <= time
    case OtherTakesAt(time) => s.limiter.now <= time
    case Check => s.worker.Checking?
    case StartsAt(time) => s.worker.Starting? && s.limiter.now <= time
  }

  function Woken(w: Worker): Worker {
    if w.Asleep? then Looks else w
  }

  function Apply(s: State, step: Step): State
    requires s.limiter.bucket.interval > 0 && Possible(s, step)
  {
    match step
    case Enqueues(r) =>
      if s.stopping then s
      else s.(queue := s.queue + [r], accepted := s.accepted + [r], worker := Woken(s.worker))
    case Stops => s.(stopping := true, queue := [], worker := Woken(s.worker))
    case Look =>
      (match LookAt(s.queue, s.stopping)
       case Sleep => s.(worker := Asleep)
       case Return => s.(worker := Closed)
       case Take(r) => s.(worker := Pacing(r), queue := s.queue[1..]))
    case PacesAt(time) =>
      s.(limiter := Attempt(s.limiter, time),
      worker := if Grants(s.limiter.bucket, time) then Checking(s.worker.request, time) else s.worker)
    case OtherTakesAt(time) => s.(limiter := Attempt(s.limiter, time))
    case Check => if s.stopping then s.(worker := Closed) else s.(worker := Starting(s.worker.request, s.worker.paid))
    case StartsAt(time) =>
      s.(worker := Looks, limiter := s.limiter.(now := time), started := s.started + [s.worker.request],
      times := s.times + [time], late := if s.stopping then s.late + 1 else s.late)
  }

  function Hand(w: Worker): seq<Request> {
    if w.Pacing? || w.Checking? || w.Starting? then [w.request] else []
  }

  predicate Paid(w: Worker) {
    w.Checking? || w.Starting?
  }

  /** Requests start in order; only the one already past its last check can start late. */
  predicate Ordered(s: State) {
    && (!s.stopping ==> s.accepted == s.started + Hand(s.worker) + s.queue && s.late == 0)
    && (s.stopping ==> s.queue == [] && |s.started| <= |s.accepted| && s.started == s.accepted[..|s.started|])
    && (s.stopping && !s.worker.Closed? ==> |s.started + Hand(s.worker)| <= |s.accepted|
                                            && s.started + Hand(s.worker) == s.accepted[..|s.started + Hand(s.worker)|])
    && s.late + (if s.worker.Starting? then 1 else 0) <= 1
    && (s.worker.Asleep? ==> s.queue == [] && !s.stopping)
    && (s.worker.Closed? ==> s.stopping)
  }

  /** Every start but one within a window was paid for within it. */
  predicate Funded(s: State, from: int, to: int) {
    CountIn(s.times, from, to) + (if Paid(s.worker) && from <= s.worker.paid <= to then 1 else 0)
    <= CountIn(s.limiter.grants, from, to) + 1
  }

  ghost predicate Inv(s: State) {
    && Ordered(s)
    && RateLimiter.Inv(s.limiter)
    && (forall k :: 0 <= k < |s.times| ==> s.times[k] <= s.limiter.now)
    && (Paid(s.worker) ==> s.worker.paid <= s.limiter.now && forall k :: 0 <= k < |s.times| ==> s.times[k] <= s.worker.paid)
    && (forall from, to :: Funded(s, from, to))
  }

  lemma StepOrdered(s: State, step: Step)
    requires Ordered(s) && s.limiter.bucket.interval > 0 && Possible(s, step)
    ensures Ordered(Apply(s, step))
  {
    hide Attempt, Grants;
    match step
    case Stops => StopOrdered(s);
    case Enqueues(r) =>
      if !s.stopping {
        assert (s.started + Hand(s.worker) + s.queue) + [r] == s.started + Hand(s.worker) + (s.queue + [r]);
      }
    case Look =>
      if !s.stopping && s.queue != [] {
        assert s.queue == [s.queue[0]] + s.queue[1..];
      }
    case StartsAt(_) => assert s.started + Hand(s.worker) + [] == s.started + [s.worker.request];
    case _ =>
  }

  /** Dropping the queue leaves a prefix of what was accepted. */
  lemma StopOrdered(s: State)
    requires Ordered(s) && s.limiter.bucket.interval > 0
    ensures Ordered(Apply(s, Stops))
  {
    var had := s.started + Hand(s.worker);
    if !s.stopping {
      assert s.accepted == had + s.queue;
      assert s.accepted[..|had|] == had && s.accepted[..|s.started|] == s.started;
    }
  }

  lemma {:induction false} NoneBefore(times: seq<int>, s: int, t: int)
    requires forall k :: 0 <= k < |times| ==> times[k] < s
    ensures CountIn(times, s, t) == 0
    decreases |times|
  {
    if times != [] {
      NoneBefore(times[..|times| - 1], s, t);
    }
  }

  lemma StepFunded(s: State, step: Step, from: int, to: int)
    requires Inv(s) && Possible(s, step)
    ensures Funded(Apply(s, step), from, to)
  {
    assert Funded(s, from, to);
    match step
    case PacesAt(time) => CountMore(s.limiter.grants, time, from, to);
    case OtherTakesAt(time) => CountMore(s.limiter.grants, time, from, to);
    case StartsAt(time) =>
      CountMore(s.times, time, from, to);
      if s.worker.paid < from {
        NoneBefore(s.times, from, to);
      }
    case _ =>
  }

  lemma LaterInv(h: History, time: int)
    requires RateLimiter.Inv(h) && h.now <= time
    ensures RateLimiter.Inv(h.(now := time))
  {
    var l := h.(now := time);
    forall s ensures Account(l, s) {
      assert Account(h, s);
      CountUntil(h.grants, s, h.now, time);
    }
    forall s, t ensures Windowed(l, s, t) {
      assert Windowed(h, s, t);
    }
  }

  lemma StepLimiter(s: State, step: Step)
    requires RateLimiter.Inv(s.limiter) && Possible(s, step)
    ensures var h := Apply(s, step).limiter;
            && RateLimiter.Inv(h) && s.limiter.now <= h.now
            && h.bucket.maxBurst == s.limiter.bucket.maxBurst && h.bucket.interval == s.limiter.bucket.interval
  {
    match step
    case PacesAt(time) => AttemptInv(s.limiter, time);
    case OtherTakesAt(time) => AttemptInv(s.limiter, time);
    case StartsAt(time) => LaterInv(s.limiter, time);
    case _ =>
  }

  lemma StepInv(s: State, step: Step)
    requires Inv(s) && Possible(s, step)
    ensures Inv(Apply(s, step))
  {
    StepOrdered(s, step);
    StepLimiter(s, step);
    forall from, to ensures Funded(Apply(s, step), from, to) {
      StepFunded(s, step, from, to);
    }
    hide Ordered, Funded, RateLimiter.Inv;
  }

  ghost predicate PossibleRun(s: State, steps: seq<Step>)
    requires s.limiter.bucket.interval > 0
    decreases |steps|
  {
    steps == [] || (Possible(s, steps[0]) && PossibleRun(Apply(s, steps[0]), steps[1..]))
  }

  function Run(s: State, steps: seq<Step>): State
    requires s.limiter.bucket.interval > 0 && PossibleRun(s, steps)
    decreases |steps|
  {
    if steps == [] then s else Run(Apply(s, steps[0]), steps[1..])
  }

  lemma {:induction false} RunInv(s: State, steps: seq<Step>)
    requires Inv(s) && PossibleRun(s, steps)
    ensures var t := Run(s, steps);
            && Inv(t)
            && t.limiter.bucket.maxBurst == s.limiter.bucket.maxBurst && t.limiter.bucket.interval == s.limiter.bucket.interval
    decreases |steps|
  {
    if steps != [] {
      StepInv(s, steps[0]);
      StepLimiter(s, steps[0]);
      hide Ordered, Funded, RateLimiter.Inv;
      RunInv(Apply(s, steps[0]), steps[1..]);
    }
  }

  lemma InitialInv(burst: int, window: int, now: int)
    requires burst > 0 && window >= burst
    ensures Inv(Initial(burst, window, now))
  {
    NewInv(burst, window, now);
  }

  // ---------------------------------------------------------------- what the steps of a run say

  /** The requests handed in before the stop, in that order. */
  function HandedIn(steps: seq<Step>, stopping: bool): seq<Request> {
    if steps == [] || stopping then []
    else (if steps[0].Enqueues? then [steps[0].request] else []) + HandedIn(steps[1..], steps[0].Stops?)
  }

  /** When requests start. */
  function StartTimes(steps: seq<Step>): seq<int> {
    if steps == [] then [] else (if steps[0].StartsAt? then [steps[0].time] else []) + StartTimes(steps[1..])
  }

  /** How many start after the stop. */
  function LateStarts(steps: seq<Step>, stopping: bool): nat {
    if steps == [] then 0
    else (if steps[0].StartsAt? && stopping then 1 else 0) + LateStarts(steps[1..], stopping || steps[0].Stops?)
  }

  lemma StepHistory(s: State, step: Step)
    requires s.limiter.bucket.interval > 0 && Possible(s, step)
    ensures var t := Apply(s, step);
            && t.accepted == s.accepted + (if step.Enqueues? && !s.stopping then [step.request] else [])
            && t.times == s.times + (if step.StartsAt? then [step.time] else [])
            && |t.started| == |s.started| + (if step.StartsAt? then 1 else 0)
            && t.late == s.late + (if step.StartsAt? && s.stopping then 1 else 0)
            && (t.stopping <==> s.stopping || step.Stops?)
            && t.limiter.bucket.interval == s.limiter.bucket.interval
  {
  }

  lemma {:induction false} RunAccepts(s: State, steps: seq<Step>)
    requires s.limiter.bucket.interval > 0 && PossibleRun(s, steps)
    ensures Run(s, steps).accepted == s.accepted + HandedIn(steps, s.stopping)
    decreases |steps|
  {
    if steps == [] {
      assert s.accepted + [] == s.accepted;
    } else {
      var t, rest := Apply(s, steps[0]), steps[1..];
      StepHistory(s, steps[0]);
      RunAccepts(t, rest);
      hide Apply, Possible;
      var one: seq<Request> := if steps[0].Enqueues? && !s.stopping then [steps[0].request] else [];
      assert HandedIn(steps, s.stopping) == one + HandedIn(rest, t.stopping);
      hide HandedIn;
      assert s.accepted + one + HandedIn(rest, t.stopping) == s.accepted + (one + HandedIn(rest, t.stopping));
    }
  }

  lemma {:induction false} RunStarts(s: State, steps: seq<Step>)
    requires s.limiter.bucket.interval > 0 && PossibleRun(s, steps)
    ensures var t := Run(s, steps);
            && t.times == s.times + StartTimes(steps)
            && |t.started| == |s.started| + |StartTimes(steps)|
            && t.late == s.late + LateStarts(steps, s.stopping)
    decreases |steps|
  {
    if steps == [] {
      assert s.times + [] == s.times;
    } else {
      var t, rest := Apply(s, steps[0]), steps[1..];
      StepHistory(s, steps[0]);
      RunStarts(t, rest);
      hide Apply, Possible;
      var time: seq<int> := if steps[0].StartsAt? then [steps[0].time] else [];
      assert StartTimes(steps) == time + StartTimes(rest);
      assert LateStarts(steps, s.stopping) == (if steps[0].StartsAt? && s.stopping then 1 else 0) + LateStarts(rest, t.stopping);
      hide StartTimes, LateStarts;
      assert s.times + time + StartTimes(rest) == s.times + (time + StartTimes(rest));
    }
  }

  /** What was handed in before the stop is accepted, in that order. Started requests are a prefix of it,
      one for each start, and after stopNow returned at most one more starts: the one already past its
      last look at `stopping`. */
  lemma StartsPrefix(burst: int, window: int, now: int, steps: seq<Step>)
    requires burst > 0 && window >= burst && window / burst > 0 && PossibleRun(Initial(burst, window, now), steps)
    ensures var s := Run(Initial(burst, window, now), steps);
            && s.accepted == HandedIn(steps, false)
            && s.started <= s.accepted && |s.started| == |StartTimes(steps)|
            && LateStarts(steps, false) <= 1
  {
    InitialInv(burst, window, now);
    RunInv(Initial(burst, window, now), steps);
    RunAccepts(Initial(burst, window, now), steps);
    RunStarts(Initial(burst, window, now), steps);
    assert [] + HandedIn(steps, false) == HandedIn(steps, false);
    hide RateLimiter.Inv, Funded;
  }

  /** Pacing: however long requests queued up, however many senders share the bucket and however
      long a request takes to start after it was paid for, no window from `from` to `to` sees more
      than one start beyond the bound of the bucket. */
  lemma StartsPaced(burst: int, window: int, now: int, steps: seq<Step>, from: int, to: int)
    requires burst > 0 && window >= burst && window / burst > 0 && PossibleRun(Initial(burst, window, now), steps)
    requires from <= to
    ensures CountIn(StartTimes(steps), from, to) <= burst + (to - from) / (window / burst) + 2
  {
    InitialInv(burst, window, now);
    RunInv(Initial(burst, window, now), steps);
    RunAccepts(Initial(burst, window, now), steps);
    RunStarts(Initial(burst, window, now), steps);
    var s := Run(Initial(burst, window, now), steps);
    assert s.times == StartTimes(steps);
    assert Funded(s, from, to);
    assert Windowed(s.limiter, from, to);
  }

  /** Steps the worker still has to take until it sleeps or has ended, if nothing else arrives and every
      round of its limiter finds a token. */
  function Remaining(s: State): nat {
    match s.worker
    case Closed => 0
    case Asleep => 0
    case Looks => 4 * |s.queue| + 1
    case Pacing(_) => 4 * |s.queue| + 4
    case Checking(_, _) => 4 * |s.queue| + 3
    case Starting(_, _) => 4 * |s.queue| + 2
  }

  predicate WorkerStep(step: Step) {
    step.Look? || step.PacesAt? || step.Check? || step.StartsAt?
  }

  /** The worker is never stuck: unless it sleeps over an empty queue or has ended, it can move; each of
      its moves brings it nearer to that, except a round of the limiter without a token; one with a
      token always takes it on. Asleep, it has started everything that was accepted. */
  lemma WorkerAdvances(burst: int, window: int, now: int, steps: seq<Step>, step: Step, time: int)
    requires burst > 0 && window >= burst && window / burst > 0 && PossibleRun(Initial(burst, window, now), steps)
    ensures var s := Run(Initial(burst, window, now), steps);
            && (Remaining(s) > 0 && s.limiter.now <= time ==>
                  Possible(s, Look) || Possible(s, PacesAt(time)) || Possible(s, Check) || Possible(s, StartsAt(time)))
            && (s.limiter.bucket.interval > 0 && Possible(s, step) && WorkerStep(step) ==>
                  var t := Apply(s, step);
                  Remaining(t) < Remaining(s) || (step.PacesAt? && !Grants(s.limiter.bucket, step.time) && t.worker == s.worker))
            && (s.worker.Asleep? ==> s.started == HandedIn(steps, false))
  {
    InitialInv(burst, window, now);
    RunInv(Initial(burst, window, now), steps);
    RunAccepts(Initial(burst, window, now), steps);
    RunStarts(Initial(burst, window, now), steps);
    assert [] + HandedIn(steps, false) == HandedIn(steps, false);
    hide RateLimiter.Inv, Funded, Run, PossibleRun, HandedIn, StartTimes, LateStarts, Attempt;
  }

  /** Nobody who hands in a request, stops the worker or draws on the limiter is ever kept waiting. */
  lemma NeverBlocks(s: State, request: Request, time: int)
    requires s.limiter.bucket.interval > 0 && s.limiter.now <= time
    ensures Possible(s, Enqueues(request)) && Possible(s, Stops) && Possible(s, OtherTakesAt(time))
    ensures Apply(s, Enqueues(request)).queue == if s.stopping then s.queue else s.queue + [request]
    ensures Apply(s, Stops).stopping && Apply(s, Stops).queue == []
  {
  }
}
