/** The user-meta forwarder of internal/irc/client.go in front of the bus: snapshots of a nick are
    coalesced once in `metaPending` and again in the lane of the bus. */
module UserMeta {
  import opened EventBus
  import Bus = EventBusRuns
  import Books = EventBusAccounting

  /** Where metaEmitLoop stands. */
  datatype Forwarder =
    | Waits
    | Drains
    | Publishes(nick: string, event: Event)
    | Halted

  datatype Sample = Sample(nick: string, event: Event)

  /** `pending` holds, for each nick, the event its newest snapshot will be published as; `signals`
      counts calls of emitUserMeta between their locked section and their wake-up; `emitted` is
      history. Snapshots of this client have keys that begin with `prefix`. */
  datatype Pipe = Pipe(
    bus: Bus.State,
    prefix: string,
    pending: map<string, Event>,
    signal: bool,
    signals: nat,
    forwarder: Forwarder,
    emitted: seq<Sample>)

  datatype Step =
    | BusMoves(step: Bus.Step)
    | Emits(nick: string, event: Event)
    | Signals
    | Wakes
    | Picks(nick: string)
    | FindsNothing
    | Stores
    | Halts

  predicate Begins(prefix: string, s: string) {
    |prefix| <= |s| && s[..|prefix|] == prefix
  }

  predicate Possible(p: Pipe, step: Step) {
    match step
    case BusMoves(b) => Bus.Possible(p.bus, b) && (b.LatestStores? ==> !Begins(p.prefix, b.key))
    case Emits(_, _) => true
    case Signals => p.signals > 0
    case Wakes => p.forwarder.Waits? && p.signal
    case Picks(nick) => p.forwarder.Drains? && nick in p.pending
    case FindsNothing => p.forwarder.Drains? && p.pending == map[]
    case Stores => p.forwarder.Publishes?
    case Halts => p.forwarder.Waits?
  }

  ghost function Apply(p: Pipe, step: Step): Pipe
    requires p.prefix != "" && LaneOk(p.bus.lane) && Possible(p, step)
  {
    match step
    case BusMoves(b) => p.(bus := Bus.Apply(p.bus, b))
    case Emits(nick, e) => p.(pending := p.pending[nick := e], signals := p.signals + 1, emitted := p.emitted + [Sample(nick, e)])
    case Signals => p.(signals := p.signals - 1, signal := true)
    case Wakes => p.(signal := false, forwarder := Drains)
    case Picks(nick) => p.(pending := p.pending - {nick}, forwarder := Publishes(nick, p.pending[nick]))
    case FindsNothing => p.(forwarder := Waits)
    case Stores =>
      var key := p.prefix + p.forwarder.nick;
      p.(forwarder := Drains,
      bus := if p.bus.closed then p.bus else Bus.Apply(p.bus, Bus.LatestStores(key, p.forwarder.event)))
    case Halts => p.(forwarder := Halted)
  }

  // ---------------------------------------------------------------- the snapshots of one nick

  function EmittedFor(h: seq<Sample>, nick: string): seq<Event> {
    if h == [] then []
    else EmittedFor(h[..|h| - 1], nick) + (if h[|h| - 1].nick == nick then [h[|h| - 1].event] else [])
  }

  function DeliveredFor(d: seq<Bus.Delivery>, key: string): seq<Event> {
    if d == [] then []
    else DeliveredFor(d[..|d| - 1], key)
         + (if d[|d| - 1].Snapshot? && d[|d| - 1].key == key then [d[|d| - 1].event] else [])
  }

  /** What the dispatcher holds for `key`. */
  function HandFor(place: Bus.Place, key: string): seq<Event> {
    match place
    case Rearm(k, e, _) => if k == key then [e] else []
    case Delivering(Snapshot(k, e)) => if k == key then [e] else []
    case _ => []
  }

  function LaneFor(l: Lane, key: string): seq<Event> {
    if key in l.latest then [l.latest[key]] else []
  }

  function ForwarderFor(f: Forwarder, nick: string): seq<Event> {
    if f.Publishes? && f.nick == nick then [f.event] else []
  }

  function PendingFor(pending: map<string, Event>, nick: string): seq<Event> {
    if nick in pending then [pending[nick]] else []
  }

  function PastLane(b: Bus.State, key: string): seq<Event> {
    DeliveredFor(b.delivered, key) + HandFor(b.place, key)
  }

  /** All snapshots of a nick that are delivered or under way, oldest first. */
  function Chain(p: Pipe, nick: string): seq<Event> {
    var key := p.prefix + nick;
    PastLane(p.bus, key) + LaneFor(p.bus.lane, key) + ForwarderFor(p.forwarder, nick) + PendingFor(p.pending, nick)
  }

  // ---------------------------------------------------------------- subsequences

  function Last(s: seq<Event>): Event
    requires s != []
  {
    s[|s| - 1]
  }

  function Init(s: seq<Event>): seq<Event>
    requires s != []
  {
    s[..|s| - 1]
  }

  predicate Subsequence(a: seq<Event>, b: seq<Event>)
    decreases |b|
  {
    a == [] || (b != [] && ((Last(a) == Last(b) && Subsequence(Init(a), Init(b))) || Subsequence(a, Init(b))))
  }

  lemma SubsequenceCases(a: seq<Event>, b: seq<Event>)
    requires a != [] && Subsequence(a, b)
    ensures b != [] && (Subsequence(a, Init(b)) || (Last(a) == Last(b) && Subsequence(Init(a), Init(b))))
  {
  }

  lemma SubsequenceBack(a: seq<Event>, b: seq<Event>)
    requires b != []
    ensures Subsequence(a, Init(b)) ==> Subsequence(a, b)
    ensures a != [] && Last(a) == Last(b) && Subsequence(Init(a), Init(b)) ==> Subsequence(a, b)
  {
  }

  lemma SubsequenceBoth(a: seq<Event>, b: seq<Event>, x: Event)
    requires Subsequence(a, b)
    ensures Subsequence(a + [x], b + [x])
  {
    assert Init(a + [x]) == a && Init(b + [x]) == b;
  }

  /** Leaving one element out. */
  lemma {:induction false} SubsequenceShorter(a: seq<Event>, x: Event, c: seq<Event>, b: seq<Event>)
    requires Subsequence(a + [x] + c, b)
    ensures Subsequence(a + c, b)
    decreases |b|
  {
    hide Subsequence;
    var s, short := a + [x] + c, a + c;
    SubsequenceCases(s, b);
    SubsequenceBack(short, b);
    if Subsequence(s, Init(b)) {
      SubsequenceShorter(a, x, c, Init(b));
    } else if c == [] {
      assert Init(s) == a == short;
    } else {
      assert Init(s) == a + [x] + Init(c) && Last(s) == Last(c);
      assert Init(short) == a + Init(c) && Last(short) == Last(c);
      SubsequenceShorter(a, x, Init(c), Init(b));
    }
  }

  /** Cutting the end off. */
  lemma {:induction false} SubsequencePrefix(a: seq<Event>, c: seq<Event>, b: seq<Event>)
    requires Subsequence(a + c, b)
    ensures Subsequence(a, b)
    decreases |c|
  {
    if c == [] {
      assert a + c == a;
    } else {
      assert a + c == a + Init(c) + [Last(c)] + [];
      SubsequenceShorter(a + Init(c), Last(c), [], b);
      assert a + Init(c) + [] == a + Init(c);
      SubsequencePrefix(a, Init(c), b);
    }
  }

  // ---------------------------------------------------------------- invariant

  /** Until the bus closes, the newest snapshot emitted is also the newest under way. */
  predicate Fresh(p: Pipe, nick: string) {
    var e := EmittedFor(p.emitted, nick);
    var c := Chain(p, nick);
    !p.bus.closed && e != [] ==> c != [] && Last(c) == Last(e)
  }

  predicate Ordered(p: Pipe, nick: string) {
    Subsequence(Chain(p, nick), EmittedFor(p.emitted, nick))
  }

  /** A pending snapshot has a wake-up on its way to the forwarder, or the forwarder is draining. */
  predicate Awake(p: Pipe) {
    p.pending != map[] && p.forwarder != Halted ==>
      p.signal || p.signals > 0 || p.forwarder.Drains? || p.forwarder.Publishes?
  }

  ghost predicate Inv(p: Pipe) {
    && p.prefix != ""
    && Bus.Inv(p.bus)
    && Awake(p)
    && forall nick :: Ordered(p, nick) && Fresh(p, nick)
  }

  lemma PopMovesChain(b: Bus.State, key: string)
    requires LaneOk(b.lane) && b.place.Popping?
    ensures var c := Bus.Apply(b, Bus.Pops);
            HandFor(c.place, key) + LaneFor(c.lane, key) == HandFor(b.place, key) + LaneFor(b.lane, key)
  {
  }

  lemma DeliveryMovesChain(b: Bus.State, key: string)
    requires LaneOk(b.lane) && b.place.Delivering?
    ensures PastLane(Bus.Apply(b, Bus.Delivers), key) == PastLane(b, key)
  {
    assert (b.delivered + [b.place.item])[..|b.delivered|] == b.delivered;
    assert DeliveredFor(b.delivered + [b.place.item], key) == DeliveredFor(b.delivered, key) + HandFor(b.place, key);
  }

  lemma BusMovesChain(b: Bus.State, step: Bus.Step, key: string)
    requires LaneOk(b.lane) && Bus.Possible(b, step) && (step.LatestStores? ==> step.key != key)
    ensures var c := Bus.Apply(b, step);
            PastLane(c, key) + LaneFor(c.lane, key) == PastLane(b, key) + LaneFor(b.lane, key)
  {
    hide DeliveredFor;
    var c := Bus.Apply(b, step);
    if step.Delivers? {
      DeliveryMovesChain(b, key);
    } else if step.Pops? {
      PopMovesChain(b, key);
      hide HandFor, LaneFor;
      assert c.delivered == b.delivered;
      var d := DeliveredFor(b.delivered, key);
      assert d + HandFor(b.place, key) + LaneFor(b.lane, key) == d + (HandFor(b.place, key) + LaneFor(b.lane, key));
      assert d + HandFor(c.place, key) + LaneFor(c.lane, key) == d + (HandFor(c.place, key) + LaneFor(c.lane, key));
    } else {
      assert c.delivered == b.delivered;
      assert HandFor(c.place, key) == HandFor(b.place, key) && LaneFor(c.lane, key) == LaneFor(b.lane, key);
    }
  }

  lemma StoreChain(b: Bus.State, key: string, e: Event)
    requires LaneOk(b.lane) && Bus.Possible(b, Bus.LatestStores(key, e))
    ensures var c := Bus.Apply(b, Bus.LatestStores(key, e));
            PastLane(c, key) == PastLane(b, key) && LaneFor(c.lane, key) == [e]
  {
  }

  lemma KeysDiffer(prefix: string, a: string, b: string)
    requires a != b
    ensures prefix + a != prefix + b
  {
    assert (prefix + a)[|prefix|..] == a && (prefix + b)[|prefix|..] == b;
  }

  /** A step that neither emits for `nick` nor publishes its snapshot leaves the chain alone. */
  lemma ChainSame(p: Pipe, step: Step, nick: string)
    requires p.prefix != "" && LaneOk(p.bus.lane) && Possible(p, step)
    requires !(step.Emits? && step.nick == nick) && !(step.Stores? && p.forwarder.nick == nick)
    ensures Chain(Apply(p, step), nick) == Chain(p, nick)
    ensures EmittedFor(Apply(p, step).emitted, nick) == EmittedFor(p.emitted, nick)
  {
    var q := Apply(p, step);
    var key := p.prefix + nick;
    match step
    case BusMoves(b) =>
      assert Begins(p.prefix, key);
      BusMovesChain(p.bus, b, key);
    case Emits(_, e) => assert q.emitted[..|p.emitted|] == p.emitted;
    case Stores =>
      if !p.bus.closed {
        KeysDiffer(p.prefix, nick, p.forwarder.nick);
        BusMovesChain(p.bus, Bus.LatestStores(p.prefix + p.forwarder.nick, p.forwarder.event), key);
      }
    case _ =>
  }

  lemma EmitChain(p: Pipe, nick: string, e: Event)
    requires Inv(p)
    ensures var q := Apply(p, Emits(nick, e)); Ordered(q, nick) && Fresh(q, nick)
  {
    var q := Apply(p, Emits(nick, e));
    var key := p.prefix + nick;
    var front := PastLane(p.bus, key) + LaneFor(p.bus.lane, key) + ForwarderFor(p.forwarder, nick);
    var was := EmittedFor(p.emitted, nick);
    assert q.emitted[..|p.emitted|] == p.emitted;
    assert EmittedFor(q.emitted, nick) == was + [e];
    assert Chain(q, nick) == front + [e];
    assert Ordered(p, nick);
    SubsequencePrefix(front, PendingFor(p.pending, nick), was);
    SubsequenceBoth(front, was, e);
  }

  lemma StoreKeeps(p: Pipe)
    requires LaneOk(p.bus.lane) && p.prefix != "" && p.forwarder.Publishes?
    requires Ordered(p, p.forwarder.nick) && Fresh(p, p.forwarder.nick)
    ensures var q := Apply(p, Stores); Ordered(q, p.forwarder.nick) && Fresh(q, p.forwarder.nick)
  {
    hide Subsequence, EmittedFor, PastLane;
    var q := Apply(p, Stores);
    var nick, e := p.forwarder.nick, p.forwarder.event;
    var key := p.prefix + nick;
    var was := EmittedFor(p.emitted, nick);
    var past, lane, pend := PastLane(p.bus, key), LaneFor(p.bus.lane, key), PendingFor(p.pending, nick);
    assert Chain(p, nick) == (past + lane) + [e] + pend;
    if p.bus.closed {
      SubsequenceShorter(past + lane, e, pend, was);
      assert past + lane + [] + pend == past + lane + pend;
    } else {
      StoreChain(p.bus, key, e);
      Replaced(past, lane, e, pend, was);
      assert past + [e] + [] + pend == past + [e] + pend;
      assert Chain(q, nick) == past + [e] + pend;
    }
  }

  /** A newer snapshot takes the place of the one in the lane. */
  lemma Replaced(past: seq<Event>, lane: seq<Event>, e: Event, pend: seq<Event>, was: seq<Event>)
    requires |lane| <= 1 && Subsequence((past + lane) + [e] + pend, was)
    ensures Subsequence(past + [e] + pend, was)
  {
    hide Subsequence;
    if lane == [] {
      assert past + lane == past;
    } else {
      assert (past + lane) + [e] + pend == past + [lane[0]] + ([e] + pend);
      SubsequenceShorter(past, lane[0], [e] + pend, was);
      assert past + ([e] + pend) == past + [e] + pend;
    }
  }

  lemma StepAwake(p: Pipe, step: Step)
    requires p.prefix != "" && Bus.Inv(p.bus) && Awake(p) && Possible(p, step)
    ensures Awake(Apply(p, step)) && Bus.Inv(Apply(p, step).bus)
  {
    match step
    case BusMoves(b) => Bus.StepInv(p.bus, b);
    case Stores =>
      if !p.bus.closed {
        Bus.StepInv(p.bus, Bus.LatestStores(p.prefix + p.forwarder.nick, p.forwarder.event));
      }
    case _ =>
  }

  lemma NeverReopens(p: Pipe, step: Step)
    requires p.prefix != "" && LaneOk(p.bus.lane) && Possible(p, step)
    ensures p.bus.closed ==> Apply(p, step).bus.closed
  {
  }

  lemma StepInv(p: Pipe, step: Step)
    requires Inv(p) && Possible(p, step)
    ensures Inv(Apply(p, step))
  {
    var q := Apply(p, step);
    StepAwake(p, step);
    NeverReopens(p, step);
    forall nick ensures Ordered(q, nick) && Fresh(q, nick) {
      assert Ordered(p, nick) && Fresh(p, nick);
      if step.Emits? && step.nick == nick {
        EmitChain(p, nick, step.event);
      } else if step.Stores? && p.forwarder.nick == nick {
        StoreKeeps(p);
      } else {
        ChainSame(p, step, nick);
      }
    }
  }

  // ---------------------------------------------------------------- runs

  function Initial(prefix: string): Pipe {
    Pipe(Bus.INITIAL, prefix, map[], false, 0, Waits, [])
  }

  ghost predicate PossibleRun(p: Pipe, steps: seq<Step>)
    requires Inv(p)
    decreases |steps|
  {
    steps == [] || (Possible(p, steps[0]) && (StepInv(p, steps[0]); PossibleRun(Apply(p, steps[0]), steps[1..])))
  }

  ghost function Run(p: Pipe, steps: seq<Step>): Pipe
    requires Inv(p) && PossibleRun(p, steps)
    decreases |steps|
  {
    if steps == [] then p else (StepInv(p, steps[0]); Run(Apply(p, steps[0]), steps[1..]))
  }

  lemma InitialInv(prefix: string)
    requires prefix != ""
    ensures Inv(Initial(prefix))
  {
  }

  lemma {:induction false} RunInv(p: Pipe, steps: seq<Step>)
    requires Inv(p) && PossibleRun(p, steps)
    ensures Inv(Run(p, steps)) && Run(p, steps).prefix == p.prefix
    decreases |steps|
  {
    if steps != [] {
      StepInv(p, steps[0]);
      RunInv(Apply(p, steps[0]), steps[1..]);
    }
  }

  ghost predicate Reachable(prefix: string, p: Pipe)
    requires prefix != ""
  {
    InitialInv(prefix);
    exists steps :: PossibleRun(Initial(prefix), steps) && Run(Initial(prefix), steps) == p
  }

  lemma ReachableInv(prefix: string, p: Pipe)
    requires prefix != "" && Reachable(prefix, p)
    ensures Inv(p) && p.prefix == prefix
  {
    InitialInv(prefix);
    var steps :| PossibleRun(Initial(prefix), steps) && Run(Initial(prefix), steps) == p;
    RunInv(Initial(prefix), steps);
  }

  /** What subscribers see of a nick is a subsequence of what was emitted for it, at every moment of
      every run. */
  lemma DeliversSubsequence(prefix: string, p: Pipe, nick: string)
    requires prefix != "" && Reachable(prefix, p)
    ensures Subsequence(DeliveredFor(p.bus.delivered, prefix + nick), EmittedFor(p.emitted, nick))
  {
    ReachableInv(prefix, p);
    assert Ordered(p, nick);
    hide Inv, Subsequence, Chain, EmittedFor, DeliveredFor;
    ChainBegins(p, nick);
    var seen := DeliveredFor(p.bus.delivered, prefix + nick);
    SubsequencePrefix(seen, Chain(p, nick)[|seen|..], EmittedFor(p.emitted, nick));
  }

  lemma ChainBegins(p: Pipe, nick: string)
    ensures var seen := DeliveredFor(p.bus.delivered, p.prefix + nick);
            |seen| <= |Chain(p, nick)| && Chain(p, nick) == seen + Chain(p, nick)[|seen|..]
  {
    hide DeliveredFor, HandFor, LaneFor, ForwarderFor, PendingFor;
    var key := p.prefix + nick;
    var seen := DeliveredFor(p.bus.delivered, key);
    assert PastLane(p.bus, key)[..|seen|] == seen;
  }

  /** Neither stage can move and no wake-up is on its way. */
  predicate Idle(p: Pipe) {
    Bus.Idle(p.bus) && p.forwarder.Waits? && !p.signal && p.signals == 0
  }

  /** Two-stage coalescing agrees with last-write-wins: once both stages are idle, the last snapshot
      delivered for each nick is the last one emitted for it. No wake-up is lost in either stage. */
  lemma IdleMeansLastWriteWon(prefix: string, p: Pipe, nick: string)
    requires prefix != "" && Reachable(prefix, p) && Idle(p)
    ensures p.pending == map[] && p.bus.lane == Lane(map[], [])
    ensures var seen := DeliveredFor(p.bus.delivered, prefix + nick);
            var said := EmittedFor(p.emitted, nick);
            said != [] ==> seen != [] && Last(seen) == Last(said)
  {
    ReachableInv(prefix, p);
    hide Reachable;
    NothingWaits(p);
    assert Fresh(p, nick);
    hide Inv, Idle;
    IdleChain(p, nick);
    hide Chain, DeliveredFor, EmittedFor;
  }

  lemma NothingWaits(p: Pipe)
    requires Inv(p) && Idle(p)
    ensures p.pending == map[] && p.bus.lane == Lane(map[], []) && p.bus.place.Select? && p.forwarder.Waits? && !p.bus.closed
  {
    hide Ordered, Fresh, Bus.Fifo, Bus.Overtaking;
    assert forall k :: k in p.bus.lane.latest ==> k in p.bus.lane.order;
    assert p.bus.lane.latest == map[];
  }

  lemma IdleChain(p: Pipe, nick: string)
    requires p.pending == map[] && p.bus.lane == Lane(map[], []) && p.bus.place.Select? && p.forwarder.Waits?
    ensures Chain(p, nick) == DeliveredFor(p.bus.delivered, p.prefix + nick)
  {
    hide DeliveredFor;
  }

  // ---------------------------------------------------------------- emissions as steps

  /** The snapshots that callers emit for a nick in the course of a run. */
  function EmitsFor(steps: seq<Step>, nick: string): seq<Event> {
    if steps == [] then []
    else (if steps[0].Emits? && steps[0].nick == nick then [steps[0].event] else []) + EmitsFor(steps[1..], nick)
  }

  lemma {:induction false} RunEmits(p: Pipe, steps: seq<Step>, nick: string)
    requires Inv(p) && PossibleRun(p, steps)
    ensures EmittedFor(Run(p, steps).emitted, nick) == EmittedFor(p.emitted, nick) + EmitsFor(steps, nick)
    decreases |steps|
  {
    hide EmittedFor, Fresh, Ordered, Awake, Bus.Fifo, Bus.Awake, Bus.Overtaking, Apply;
    if steps != [] {
      StepInv(p, steps[0]);
      StepEmits(p, steps[0], nick);
      RunEmits(Apply(p, steps[0]), steps[1..], nick);
      var one: seq<Event> := if steps[0].Emits? && steps[0].nick == nick then [steps[0].event] else [];
      var more := EmitsFor(steps[1..], nick);
      assert EmitsFor(steps, nick) == one + more;
      hide EmitsFor, Inv, Possible;
      assert EmittedFor(p.emitted, nick) + one + more == EmittedFor(p.emitted, nick) + (one + more);
    } else {
      assert EmittedFor(p.emitted, nick) + [] == EmittedFor(p.emitted, nick);
    }
  }

  lemma StepEmits(p: Pipe, step: Step, nick: string)
    requires p.prefix != "" && LaneOk(p.bus.lane) && Possible(p, step)
    ensures EmittedFor(Apply(p, step).emitted, nick)
         == EmittedFor(p.emitted, nick) + (if step.Emits? && step.nick == nick then [step.event] else [])
  {
    if step.Emits? {
      assert (p.emitted + [Sample(step.nick, step.event)])[..|p.emitted|] == p.emitted;
    }
  }

  /** Last write wins, over whole runs: at every moment subscribers have seen a subsequence of what the
      steps of the run emitted for a nick, and once both stages are idle they saw the last of it last. */
  lemma LastEmissionWins(prefix: string, steps: seq<Step>, nick: string)
    requires prefix != "" && Inv(Initial(prefix)) && PossibleRun(Initial(prefix), steps)
    ensures var p := Run(Initial(prefix), steps);
            var seen, said := DeliveredFor(p.bus.delivered, prefix + nick), EmitsFor(steps, nick);
            && Subsequence(seen, said)
            && (Idle(p) && said != [] ==> seen != [] && Last(seen) == Last(said))
  {
    var p := Run(Initial(prefix), steps);
    assert Reachable(prefix, p);
    RunEmits(Initial(prefix), steps, nick);
    hide Inv, Subsequence, DeliveredFor, EmitsFor, Run, PossibleRun, Reachable, Idle;
    assert EmittedFor([], nick) == [] && [] + EmitsFor(steps, nick) == EmitsFor(steps, nick);
    hide EmittedFor;
    DeliversSubsequence(prefix, p, nick);
    if Idle(p) {
      IdleMeansLastWriteWon(prefix, p, nick);
    }
  }

  // ---------------------------------------------------------------- coming to rest

  function ForwarderWork(f: Forwarder): nat {
    match f
    case Waits => 0
    case Halted => 0
    case Drains => 1
    case Publishes(_, _) => 11
  }

  /** What is left to do if nothing new is emitted. */
  function Work(p: Pipe): nat {
    Books.Work(p.bus) + 11 * |p.pending| + 3 * p.signals + (if p.signal then 2 else 0) + ForwarderWork(p.forwarder)
  }

  predicate FromOutside(step: Step) {
    step.Emits? || step.Halts? || (step.BusMoves? && Books.FromOutside(step.step))
  }

  lemma OneLess(pending: map<string, Event>, nick: string)
    requires nick in pending
    ensures |pending - {nick}| == |pending| - 1
  {
    assert pending.Keys == (pending - {nick}).Keys + {nick};
  }

  lemma OneMore(pending: map<string, Event>, nick: string, e: Event)
    ensures |pending[nick := e]| <= |pending| + 1
  {
    assert pending[nick := e].Keys == pending.Keys + {nick};
  }

  /** Every step of the two stages brings them nearer to rest. */
  lemma WorkShrinks(p: Pipe, step: Step)
    requires p.prefix != "" && LaneOk(p.bus.lane) && Possible(p, step)
    ensures !FromOutside(step) ==> Work(Apply(p, step)) < Work(p)
    ensures Work(Apply(p, step)) <= Work(p) + 14
  {
    hide Books.Work, LaneOk, Bus.Apply;
    match step
    case BusMoves(b) => Books.WorkShrinks(p.bus, b);
    case Stores => StoreShrinks(p);
    case Picks(nick) => OneLess(p.pending, nick);
    case Emits(nick, e) => OneMore(p.pending, nick, e);
    case _ =>
  }

  lemma StoreShrinks(p: Pipe)
    requires p.prefix != "" && LaneOk(p.bus.lane) && p.forwarder.Publishes?
    ensures Work(Apply(p, Stores)) < Work(p)
  {
    if !p.bus.closed {
      Books.WorkShrinks(p.bus, Bus.LatestStores(p.prefix + p.forwarder.nick, p.forwarder.event));
    }
    hide Books.Work, LaneOk, Bus.Apply;
  }
}
