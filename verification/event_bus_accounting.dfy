/** The books of the event bus over whole runs: what callers of Emit handed in against what the
    dispatcher delivered. Everything is said about the steps of a run, not about recorded history. */
module EventBusAccounting {
  import opened EventBus
  import opened EventBusRuns

  /** Events whose Emit passed its check. */
  function Emitted(steps: seq<Step>): multiset<Event> {
    if steps == [] then multiset{}
    else (if steps[0].EmitChecks? then multiset{steps[0].event} else multiset{}) + Emitted(steps[1..])
  }

  /** Events sent into the queue, in that order. */
  function SentBy(steps: seq<Step>): seq<Event> {
    if steps == [] then []
    else (if steps[0].EmitSends? then [steps[0].event] else []) + SentBy(steps[1..])
  }

  /** Events dropped because the bus closed. */
  function GivenUp(steps: seq<Step>): multiset<Event> {
    if steps == [] then multiset{}
    else (if steps[0].EmitGivesUp? then multiset{steps[0].event} else multiset{}) + GivenUp(steps[1..])
  }

  /** From `s` to `t` these events were emitted, sent in this order, and given up. */
  predicate Books(s: State, t: State, emitted: multiset<Event>, sent: seq<Event>, gone: multiset<Event>) {
    && t.enqueued == s.enqueued + sent
    && s.emitting + emitted == t.emitting + multiset(sent) + gone
    && (s.closed ==> t.closed)
    && (!t.closed ==> gone == multiset{})
  }

  lemma StepBooks(s: State, step: Step)
    requires LaneOk(s.lane) && Possible(s, step)
    ensures Books(s, Apply(s, step),
                  if step.EmitChecks? then multiset{step.event} else multiset{},
                  if step.EmitSends? then [step.event] else [],
                  if step.EmitGivesUp? then multiset{step.event} else multiset{})
  {
    var t := Apply(s, step);
    BooksKept(s, step);
    hide Apply, Possible, LaneOk;
    if step.EmitChecks? {
      assert s.emitting + multiset{step.event} == t.emitting;
    } else if step.EmitSends? {
      assert multiset([step.event]) == multiset{step.event};
      assert s.emitting == t.emitting + multiset{step.event};
    } else if step.EmitGivesUp? {
      assert s.emitting == t.emitting + multiset{step.event};
    }
    NoneMore(s.emitting);
    NoneMore(t.emitting);
    assert s.enqueued + [] == s.enqueued;
  }

  lemma NoneMore(m: multiset<Event>)
    ensures var none: seq<Event> := [];
            m + multiset(none) == m && m + multiset{} == m
  {
    var none: seq<Event> := [];
    assert multiset(none) == multiset{};
  }

  /** What a step does to the callers of Emit and to the record of sends. */
  lemma BooksKept(s: State, step: Step)
    requires LaneOk(s.lane) && Possible(s, step)
    ensures var t := Apply(s, step);
            && (s.closed ==> t.closed)
            && t.enqueued == (if step.EmitSends? then s.enqueued + [step.event] else s.enqueued)
            && t.emitting == (if step.EmitChecks? then s.emitting + multiset{step.event}
                              else if step.EmitSends? || step.EmitGivesUp? then s.emitting - multiset{step.event}
                              else s.emitting)
            && (step.EmitSends? || step.EmitGivesUp? ==> s.emitting[step.event] > 0)
            && (step.EmitGivesUp? ==> t.closed)
  {
    hide LaneOk, Pushed, Stored, Popped;
  }

  /** An account carried over into the next. */
  lemma Carried(s: State, u: State, t: State, came: multiset<Event>, sent: seq<Event>, gone: multiset<Event>,
                more: multiset<Event>, later: seq<Event>, lost: multiset<Event>)
    requires Books(s, u, came, sent, gone) && Books(u, t, more, later, lost)
    ensures Books(s, t, came + more, sent + later, gone + lost)
  {
    assert multiset(sent + later) == multiset(sent) + multiset(later);
    assert s.enqueued + sent + later == s.enqueued + (sent + later);
    assert s.emitting + (came + more) == (s.emitting + came) + more;
    assert t.emitting + (multiset(sent) + multiset(later)) + (gone + lost) == (t.emitting + multiset(later) + lost) + multiset(sent) + gone;
  }

  lemma {:induction false} RunBooks(s: State, steps: seq<Step>)
    requires Inv(s) && PossibleRun(s, steps)
    ensures Books(s, Run(s, steps), Emitted(steps), SentBy(steps), GivenUp(steps))
    decreases |steps|
  {
    hide Fifo, Awake, Overtaking, Apply, Books;
    if steps == [] {
      NoBooks(s);
    } else {
      var step, rest := steps[0], steps[1..];
      StepInv(s, step);
      StepBooks(s, step);
      RunBooks(Apply(s, step), rest);
      Carried(s, Apply(s, step), Run(s, steps),
              if step.EmitChecks? then multiset{step.event} else multiset{},
              if step.EmitSends? then [step.event] else [],
              if step.EmitGivesUp? then multiset{step.event} else multiset{},
              Emitted(rest), SentBy(rest), GivenUp(rest));
    }
  }

  lemma NoBooks(s: State)
    ensures Books(s, s, multiset{}, [], multiset{})
  {
  }

  /** The books balance at every moment: an emitted event is still with its emitter, was sent into the
      queue, or was given up, and nothing is given up while the bus is open. What was sent is what was
      delivered, what the dispatcher holds and what waits, in the order of the sends. */
  lemma Balanced(steps: seq<Step>)
    requires Inv(INITIAL) && PossibleRun(INITIAL, steps)
    ensures var s := Run(INITIAL, steps);
            && Emitted(steps) == s.emitting + multiset(SentBy(steps)) + GivenUp(steps)
            && (!s.closed ==> GivenUp(steps) == multiset{})
            && SentBy(steps) == Ordinaries(s.delivered) + Hand(s.place) + s.queue
  {
    RunBooks(INITIAL, steps);
    RunInv(INITIAL, steps);
    assert [] + SentBy(steps) == SentBy(steps);
    assert multiset{} + Emitted(steps) == Emitted(steps);
  }

  /** Once an open bus is idle and no caller is in the middle of Emit, every emitted event was delivered,
      as often as it was emitted, in the order in which the events were sent. */
  lemma IdleDeliveredAll(steps: seq<Step>)
    requires Inv(INITIAL) && PossibleRun(INITIAL, steps)
    requires var s := Run(INITIAL, steps); Idle(s) && s.emitting == multiset{}
    ensures var s := Run(INITIAL, steps);
            Ordinaries(s.delivered) == SentBy(steps) && multiset(Ordinaries(s.delivered)) == Emitted(steps)
  {
    Balanced(steps);
  }

  // ---------------------------------------------------------------- coming to rest

  function PlaceWork(p: Place): nat {
    match p
    case Stopped => 0
    case Select => 1
    case Check => 2
    case Popping => 3
    case Delivering(_) => 3
    case Rearm(_, _, more) => if more then 7 else 4
  }

  /** What is left to do if nothing new is emitted. */
  function Work(s: State): nat {
    4 * |s.emitting| + 3 * |s.queue| + 5 * |s.lane.order| + 4 * s.wakeups + (if s.ready then 3 else 0) + PlaceWork(s.place)
  }

  /** Somebody hands in something new, or the bus closes. */
  predicate FromOutside(step: Step) {
    step.EmitChecks? || step.LatestStores? || step.Closes?
  }

  /** Every other step brings the bus nearer to rest; the two that hand in add a bounded amount. */
  lemma WorkShrinks(s: State, step: Step)
    requires LaneOk(s.lane) && Possible(s, step)
    ensures !FromOutside(step) ==> Work(Apply(s, step)) < Work(s)
    ensures Work(Apply(s, step)) <= Work(s) + 9
  {
    if step.EmitChecks? || step.EmitSends? || step.EmitGivesUp? {
      EmitWork(s, step);
    } else if step.LatestStores? || step.Pops? {
      LaneWork(s, step);
    } else {
      hide LaneOk, Stored, Popped, Pushed;
    }
  }

  lemma EmitWork(s: State, step: Step)
    requires LaneOk(s.lane) && Possible(s, step) && (step.EmitChecks? || step.EmitSends? || step.EmitGivesUp?)
    ensures step.EmitChecks? || Work(Apply(s, step)) < Work(s)
    ensures Work(Apply(s, step)) <= Work(s) + 9
  {
    hide LaneOk, Stored, Popped;
    if !step.EmitChecks? {
      assert s.emitting == (s.emitting - multiset{step.event}) + multiset{step.event};
    }
  }

  lemma LaneWork(s: State, step: Step)
    requires LaneOk(s.lane) && Possible(s, step) && (step.LatestStores? || step.Pops?)
    ensures step.LatestStores? || Work(Apply(s, step)) < Work(s)
    ensures Work(Apply(s, step)) <= Work(s) + 9
  {
    hide LaneOk, Pushed;
  }

  function Handed(steps: seq<Step>): nat {
    if steps == [] then 0 else (if FromOutside(steps[0]) then 1 else 0) + Handed(steps[1..])
  }

  lemma {:induction false} RunWork(s: State, steps: seq<Step>)
    requires Inv(s) && PossibleRun(s, steps)
    ensures Work(Run(s, steps)) + |steps| <= Work(s) + 10 * Handed(steps)
    decreases |steps|
  {
    hide Fifo, Awake, Overtaking, Apply, Work;
    if steps != [] {
      StepInv(s, steps[0]);
      WorkShrinks(s, steps[0]);
      RunWork(Apply(s, steps[0]), steps[1..]);
    }
  }

  /** No run goes on forever by itself: it has at most ten times as many steps as something was handed in
      from outside, and two. Together with NotIdleCanMove: a dispatcher that is given its turns comes to
      rest, and then IdleDeliveredAll says that it delivered everything. */
  lemma RunsSettle(steps: seq<Step>)
    requires Inv(INITIAL) && PossibleRun(INITIAL, steps)
    ensures |steps| <= 10 * Handed(steps) + 2
  {
    RunWork(INITIAL, steps);
  }

  /** Callers of an open bus are never kept waiting at their check; a snapshot is stored at once, whatever
      the queue holds; an ordinary event is kept waiting exactly while the queue is full and the bus
      open. Once the bus is closed nothing new is taken. */
  lemma WhoWaits(s: State, e: Event, key: string)
    requires |s.queue| <= QUEUE_SIZE
    ensures Possible(s, EmitChecks(e)) <==> !s.closed
    ensures Possible(s, LatestStores(key, e)) <==> !s.closed && key != ""
    ensures Possible(s, Closes)
    ensures s.emitting[e] > 0 ==> (!Possible(s, EmitSends(e)) && !Possible(s, EmitGivesUp(e)) <==> |s.queue| == 1024 && !s.closed)
  {
  }
}
