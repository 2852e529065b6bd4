/** Every interleaving of emitters, the dispatcher loop and Close on one event bus. Wake-ups are
    sent outside the lock, so between a store and its wake-up any other step may happen. */
module EventBusRuns {
  import opened EventBus

  datatype Delivery = Ordinary(event: Event) | Snapshot(key: string, event: Event)

  /** Where dispatchLoop stands. */
  datatype Place =
    | Check                                            // the non-blocking look at the queue
    | Select                                           // the blocking choice
    | Popping                                          // took a wake-up, about to lock in popLatest
    | Rearm(key: string, event: Event, more: bool)     // popped, about to wake itself again
    | Delivering(item: Delivery)
    | Stopped

  /** `emitting` are calls of Emit past the closed check; `wakeups` counts calls of EmitLatest that
      stored but did not yet signal. The last four fields are history: ordinary events in the order
      they entered the queue, how much had been delivered when each entered and when each was
      delivered, and all deliveries. */
  datatype State = State(
    queue: seq<Event>,
    lane: Lane,
    ready: bool,
    closed: bool,
    emitting: multiset<Event>,
    wakeups: nat,
    place: Place,
    enqueued: seq<Event>,
    entered: seq<nat>,
    left: seq<nat>,
    delivered: seq<Delivery>)

  const INITIAL := State([], Lane(map[], []), false, false, multiset{}, 0, Check, [], [], [], [])

  datatype Step =
    | EmitChecks(event: Event)
    | EmitSends(event: Event)
    | EmitGivesUp(event: Event)
    | LatestStores(key: string, event: Event)
    | LatestWakes
    | Closes
    | Looks
    | TakesEvent
    | TakesWakeup
    | TakesDone
    | Pops
    | Rearms
    | Delivers

  predicate Possible(s: State, step: Step) {
    match step
    case EmitChecks(_) => !s.closed
    case EmitSends(e) => s.emitting[e] > 0 && |s.queue| < QUEUE_SIZE
    case EmitGivesUp(e) => s.emitting[e] > 0 && s.closed
    case LatestStores(key, _) => key != "" && !s.closed
    case LatestWakes => s.wakeups > 0
    case Closes => true
    case Looks => s.place.Check?
    case TakesEvent => s.place.Select? && s.queue != []
    case TakesWakeup => s.place.Select? && s.ready
    case TakesDone => s.place.Select? && s.closed
    case Pops => s.place.Popping?
    case Rearms => s.place.Rearm?
    case Delivers => s.place.Delivering?
  }

  function Dequeued(s: State): State
    requires s.queue != []
  {
    s.(queue := s.queue[1..], place := Delivering(Ordinary(s.queue[0])))
  }

  ghost function Apply(s: State, step: Step): State
    requires LaneOk(s.lane) && Possible(s, step)
  {
    match step
    case EmitChecks(e) => s.(emitting := s.emitting + multiset{e})
    case EmitSends(e) =>
      s.(emitting := s.emitting - multiset{e}, queue := Pushed(s.queue, e), enqueued := s.enqueued + [e], entered := s.entered + [|s.delivered|])
    case EmitGivesUp(e) => s.(emitting := s.emitting - multiset{e})
    case LatestStores(key, e) => s.(lane := Stored(s.lane, key, e), wakeups := s.wakeups + 1)
    case LatestWakes => s.(wakeups := s.wakeups - 1, ready := true)
    case Closes => s.(closed := true)
    case Looks => if s.queue != [] then Dequeued(s) else s.(place := Select)
    case TakesEvent => Dequeued(s)
    case TakesWakeup => s.(ready := false, place := Popping)
    case TakesDone => s.(place := Stopped)
    case Pops =>
      if s.lane.order == [] then s.(place := Check)
      else
        var key := s.lane.order[0];
        var rest := Popped(s.lane);
        s.(lane := rest, place := Rearm(key, s.lane.latest[key], rest.order != []))
    case Rearms => s.(ready := s.ready || s.place.more, place := Delivering(Snapshot(s.place.key, s.place.event)))
    case Delivers =>
      s.(place := Check, delivered := s.delivered + [s.place.item],
      left := if s.place.item.Ordinary? then s.left + [|s.delivered|] else s.left)
  }

  // ---------------------------------------------------------------- invariants

  function Ordinaries(d: seq<Delivery>): seq<Event> {
    if d == [] then []
    else Ordinaries(d[..|d| - 1]) + (if d[|d| - 1].Ordinary? then [d[|d| - 1].event] else [])
  }

  function Snapshots(d: seq<Delivery>): nat {
    if d == [] then 0 else Snapshots(d[..|d| - 1]) + (if d[|d| - 1].Snapshot? then 1 else 0)
  }

  lemma OrdinariesGrow(d: seq<Delivery>, x: Delivery)
    ensures Ordinaries(d + [x]) == Ordinaries(d) + (if x.Ordinary? then [x.event] else [])
  {
    assert (d + [x])[..|d|] == d;
  }

  lemma NoSnapshots()
    ensures Snapshots([]) == 0
  {
  }

  lemma SnapshotsGrow(d: seq<Delivery>, x: Delivery, k: nat)
    requires k <= |d|
    ensures Snapshots((d + [x])[k..]) == Snapshots(d[k..]) + (if x.Snapshot? then 1 else 0)
  {
    assert (d + [x])[k..] == d[k..] + [x];
    assert (d[k..] + [x])[..|d[k..]|] == d[k..];
  }

  /** The ordinary event the dispatcher holds. */
  function Hand(p: Place): seq<Event> {
    if p.Delivering? && p.item.Ordinary? then [p.item.event] else []
  }

  predicate Fifo(s: State) {
    && Ordinaries(s.delivered) + Hand(s.place) + s.queue == s.enqueued
    && |s.entered| == |s.enqueued|
    && |s.left| == |Ordinaries(s.delivered)|
    && |s.queue| <= QUEUE_SIZE
  }

  /** A snapshot in the lane has a wake-up on its way to the dispatcher. */
  predicate Awake(s: State) {
    s.lane.order != [] && s.place != Stopped ==>
      s.ready || s.wakeups > 0 || s.place.Popping? || (s.place.Rearm? && s.place.more)
  }

  /** The dispatcher may be about to deliver a snapshot. */
  predicate Yielding(p: Place) {
    p.Select? || p.Popping? || p.Rearm? || (p.Delivering? && p.item.Snapshot?)
  }

  /** Event `k` was delivered, as entry `left[k]`, after at most one snapshot. */
  predicate Overtaken(s: State, k: nat)
    requires k < |s.entered| && k < |s.left| && k < |s.enqueued|
  {
    && s.entered[k] <= s.left[k] < |s.delivered|
    && s.delivered[s.left[k]] == Ordinary(s.enqueued[k])
    && Snapshots(s.delivered[s.entered[k]..s.left[k]]) <= 1
  }

  /** Event `k` still waits, and at most `limit` snapshots were delivered meanwhile. */
  predicate Waits(s: State, k: nat, limit: nat)
    requires k < |s.entered|
  {
    s.entered[k] <= |s.delivered| && Snapshots(s.delivered[s.entered[k]..]) <= limit
  }

  function Limit(p: Place): nat {
    if Yielding(p) then 0 else 1
  }

  predicate Overtaking(s: State) {
    && |s.left| <= |s.entered| == |s.enqueued|
    && (forall k: nat :: k < |s.left| ==> Overtaken(s, k))
    && (forall k: nat :: |s.left| <= k < |s.entered| ==> Waits(s, k, Limit(s.place)))
  }

  ghost predicate Inv(s: State) {
    LaneOk(s.lane) && Fifo(s) && Awake(s) && Overtaking(s)
  }

  lemma FifoKept(s: State, step: Step)
    requires LaneOk(s.lane) && Fifo(s) && Possible(s, step)
    ensures Fifo(Apply(s, step))
  {
    hide Ordinaries;
    match step
    case EmitSends(e) =>
      var had := Ordinaries(s.delivered) + Hand(s.place);
      assert (had + s.queue) + [e] == had + (s.queue + [e]);
    case Delivers =>
      OrdinariesGrow(s.delivered, s.place.item);
      assert Ordinaries(s.delivered + [s.place.item]) == Ordinaries(s.delivered) + Hand(s.place);
    case Looks => if s.queue != [] { TakenFromQueue(s); }
    case TakesEvent => TakenFromQueue(s);
    case _ =>
  }

  lemma TakenFromQueue(s: State)
    requires Fifo(s) && s.queue != [] && Hand(s.place) == []
    ensures Fifo(Dequeued(s))
  {
    hide Ordinaries;
    assert s.queue == [s.queue[0]] + s.queue[1..];
  }

  lemma AwakeKept(s: State, step: Step)
    requires LaneOk(s.lane) && Awake(s) && Possible(s, step)
    ensures Awake(Apply(s, step)) && LaneOk(Apply(s, step).lane)
  {
  }

  lemma OvertakingKept(s: State, step: Step)
    requires LaneOk(s.lane) && Fifo(s) && Overtaking(s) && Possible(s, step)
    ensures Overtaking(Apply(s, step))
  {
    if step.Delivers? {
      if s.place.item.Ordinary? {
        EventDelivered(s);
      } else {
        SnapshotDelivered(s);
      }
    } else {
      NothingDelivered(s, step);
    }
  }

  lemma NothingDelivered(s: State, step: Step)
    requires LaneOk(s.lane) && Overtaking(s) && Possible(s, step) && !step.Delivers?
    requires step.Looks? ==> Fifo(s)
    ensures Overtaking(Apply(s, step))
  {
    hide Pushed, Ordinaries, Stored, Popped, LaneOk, Overtaken, Waits;
    assert step.Looks? && s.queue == [] ==> |s.entered| == |s.left|;
    assert |s.enqueued| == |s.entered|;
    hide Overtaking;
    Unchanged(s, Apply(s, step));
  }

  /** Without a delivery, at most a new event enters, and the dispatcher gets no nearer to a snapshot
      while events wait. */
  lemma Unchanged(s: State, t: State)
    requires Overtaking(s) && t.delivered == s.delivered && t.left == s.left
    requires (t.entered == s.entered && t.enqueued == s.enqueued)
             || (|t.enqueued| == |t.entered| && t.entered == s.entered + [|s.delivered|] && s.enqueued <= t.enqueued)
    requires Limit(s.place) <= Limit(t.place) || (|s.entered| == |s.left| && t.entered == s.entered)
    ensures Overtaking(t)
  {
    hide Snapshots, Overtaken, Waits;
    forall k: nat | k < |t.left| ensures Overtaken(t, k) {
      SameOvertaken(s, t, k);
    }
    forall k: nat | |t.left| <= k < |t.entered| ensures Waits(t, k, Limit(t.place)) {
      if k < |s.entered| {
        assert Waits(s, k, Limit(s.place));
        SameWaits(s, t, k, Limit(s.place));
      } else {
        JustEntered(t, k);
      }
    }
  }

  lemma SameOvertaken(s: State, t: State, k: nat)
    requires k < |s.left| <= |s.entered| == |s.enqueued| && Overtaken(s, k)
    requires t.delivered == s.delivered && t.left == s.left && s.entered <= t.entered && s.enqueued <= t.enqueued
    ensures Overtaken(t, k)
  {
    hide Snapshots;
  }

  lemma SameWaits(s: State, t: State, k: nat, limit: nat)
    requires k < |s.entered| && Waits(s, k, limit) && t.delivered == s.delivered && s.entered <= t.entered
    ensures Waits(t, k, limit)
    ensures limit <= Limit(t.place) ==> Waits(t, k, Limit(t.place))
  {
    hide Snapshots;
  }

  lemma JustEntered(t: State, k: nat)
    requires k < |t.entered| && t.entered[k] == |t.delivered|
    ensures Waits(t, k, Limit(t.place))
  {
    assert t.delivered[|t.delivered|..] == [];
    NoSnapshots();
  }

  lemma OldDelivery(s: State, t: State, k: nat)
    requires k < |s.left| <= |s.entered| == |s.enqueued| && Overtaken(s, k) && s.place.Delivering?
    requires t.delivered == s.delivered + [s.place.item] && t.entered == s.entered && t.enqueued == s.enqueued
    requires k < |t.left| && t.left[k] == s.left[k]
    ensures Overtaken(t, k)
  {
    assert t.delivered[s.entered[k]..s.left[k]] == s.delivered[s.entered[k]..s.left[k]];
  }

  /** The event just delivered waited for at most one snapshot. */
  lemma NewDelivery(s: State)
    requires Fifo(s) && Overtaking(s) && s.place.Delivering? && s.place.item.Ordinary? && LaneOk(s.lane)
    ensures |s.left| < |s.entered| && Overtaken(Apply(s, Delivers), |s.left|)
  {
    var n := |s.left|;
    HeldEvent(s);
    assert Waits(s, n, Limit(s.place));
    hide Ordinaries, Snapshots;
    assert (s.delivered + [s.place.item])[s.entered[n]..|s.delivered|] == s.delivered[s.entered[n]..];
  }

  /** An event that waits goes on waiting; a delivered snapshot counts. */
  lemma StillWaits(s: State, k: nat)
    requires Overtaking(s) && s.place.Delivering? && LaneOk(s.lane) && |s.left| <= k < |s.entered|
    ensures Waits(Apply(s, Delivers), k, 1)
  {
    assert Waits(s, k, Limit(s.place));
    SnapshotsGrow(s.delivered, s.place.item, s.entered[k]);
    hide Snapshots;
  }

  lemma EventDelivered(s: State)
    requires Fifo(s) && Overtaking(s) && s.place.Delivering? && s.place.item.Ordinary? && LaneOk(s.lane)
    ensures Overtaking(Apply(s, Delivers))
  {
    var t := Apply(s, Delivers);
    NewDelivery(s);
    hide Snapshots, Ordinaries, Fifo, Overtaken, Waits;
    forall k: nat | k < |s.left| ensures Overtaken(t, k) {
      OldDelivery(s, t, k);
    }
    forall k: nat | |t.left| <= k < |t.entered| ensures Waits(t, k, Limit(t.place)) {
      StillWaits(s, k);
    }
  }

  lemma HeldEvent(s: State)
    requires Fifo(s) && s.place.Delivering? && s.place.item.Ordinary?
    ensures |s.left| < |s.enqueued| && s.enqueued[|s.left|] == s.place.item.event
  {
  }

  lemma SnapshotDelivered(s: State)
    requires Overtaking(s) && s.place.Delivering? && s.place.item.Snapshot? && LaneOk(s.lane)
    ensures Overtaking(Apply(s, Delivers))
  {
    var t := Apply(s, Delivers);
    hide Snapshots, Overtaken, Waits;
    forall k: nat | k < |t.left| ensures Overtaken(t, k) {
      OldDelivery(s, t, k);
    }
    forall k: nat | |t.left| <= k < |t.entered| ensures Waits(t, k, Limit(t.place)) {
      StillWaits(s, k);
    }
  }

  /** Every step of every thread keeps the invariant. */
  lemma StepInv(s: State, step: Step)
    requires Inv(s) && Possible(s, step)
    ensures Inv(Apply(s, step))
  {
    FifoKept(s, step);
    AwakeKept(s, step);
    OvertakingKept(s, step);
  }

  // ---------------------------------------------------------------- runs

  ghost predicate PossibleRun(s: State, steps: seq<Step>)
    requires Inv(s)
    decreases |steps|
  {
    steps == [] || (Possible(s, steps[0]) && (StepInv(s, steps[0]); PossibleRun(Apply(s, steps[0]), steps[1..])))
  }

  ghost function Run(s: State, steps: seq<Step>): State
    requires Inv(s) && PossibleRun(s, steps)
    decreases |steps|
  {
    if steps == [] then s else (StepInv(s, steps[0]); Run(Apply(s, steps[0]), steps[1..]))
  }

  ghost predicate Reachable(s: State) {
    Inv(INITIAL) && exists steps :: PossibleRun(INITIAL, steps) && Run(INITIAL, steps) == s
  }

  lemma {:induction false} RunInv(s: State, steps: seq<Step>)
    requires Inv(s) && PossibleRun(s, steps)
    ensures Inv(Run(s, steps))
    decreases |steps|
  {
    hide Fifo, Awake, Overtaking, Apply;
    if steps != [] {
      StepInv(s, steps[0]);
      RunInv(Apply(s, steps[0]), steps[1..]);
    }
  }

  lemma ReachableInv(s: State)
    requires Reachable(s)
    ensures Inv(s)
  {
    hide Inv;
    var steps :| PossibleRun(INITIAL, steps) && Run(INITIAL, steps) == s;
    RunInv(INITIAL, steps);
  }

  /** Ordinary events are delivered in the order they entered the queue, none lost or repeated. */
  lemma DeliveredInOrder(s: State)
    requires Reachable(s)
    ensures Ordinaries(s.delivered) <= s.enqueued
    ensures s.enqueued == Ordinaries(s.delivered) + Hand(s.place) + s.queue
  {
    ReachableInv(s);
  }

  /** Between an ordinary event entering the queue and its delivery, at most one snapshot is
      delivered; the same bounds the wait so far of an event not yet delivered. */
  lemma BoundedOvertaking(s: State, k: nat)
    requires Reachable(s) && k < |s.enqueued|
    ensures k < |s.entered|
    ensures if k < |Ordinaries(s.delivered)| then k < |s.left| && Overtaken(s, k) else Waits(s, k, 1)
  {
    ReachableInv(s);
    hide Overtaken, Snapshots, Ordinaries;
    if k >= |s.left| {
      assert Waits(s, k, Limit(s.place));
    }
  }

  /** The lane lists exactly the keys it has a snapshot for, each once. */
  lemma LaneExact(s: State)
    requires Reachable(s)
    ensures Distinct(s.lane.order) && forall k :: k in s.lane.order <==> k in s.lane.latest
  {
    ReachableInv(s);
  }

  /** The dispatcher cannot move and no thread has a pending wake-up. */
  predicate Idle(s: State) {
    s.place.Select? && s.queue == [] && !s.ready && !s.closed && s.wakeups == 0
  }

  /** No wake-up is lost: an idle bus has delivered everything it was given. */
  lemma IdleMeansDrained(s: State)
    requires Reachable(s) && Idle(s)
    ensures s.lane == Lane(map[], []) && Ordinaries(s.delivered) == s.enqueued
  {
    ReachableInv(s);
    assert forall k :: k in s.lane.latest ==> k in s.lane.order;
    assert s.lane.latest == map[];
  }

  /** A bus that is not idle can move: the dispatcher, or a thread that owes it a wake-up. */
  lemma NotIdleCanMove(s: State)
    requires !Idle(s) && s.place != Stopped
    ensures exists step :: Possible(s, step) && (step.Looks? || step.TakesEvent? || step.TakesWakeup? || step.TakesDone?
                                                 || step.Pops? || step.Rearms? || step.Delivers? || step.LatestWakes?)
  {
    var step :=
      match s.place
      case Check => Looks
      case Select => if s.queue != [] then TakesEvent else if s.ready then TakesWakeup else if s.closed then TakesDone else LatestWakes
      case Popping => Pops
      case Rearm(_, _, _) => Rearms
      case Delivering(_) => Delivers
      case Stopped => Closes;
    assert Possible(s, step);
  }

  lemma InitialInv()
    ensures Inv(INITIAL)
  {
  }
}
