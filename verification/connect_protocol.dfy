/** Connection attempts: the critical sections of connectNetwork in app_connection.go against each
    other, against the callbacks of the clients (onConnect, onDisconnect, signalQuit in
    internal/irc/client.go), and against a user who disconnects. A client changes its own flags under
    its own lock, so they may change while a section holds the lock of the application. */
module ConnectProtocol {

  /** `abandoned` is set by every teardown and never cleared. */
  datatype Client = Client(connected: bool, abandoned: bool)

  function Quit(c: Client): Client {
    Client(false, true)
  }

  /** onConnect: an abandoned client refuses. */
  function OnConnect(c: Client): Client {
    if c.abandoned then c else c.(connected := true)
  }

  /** The two maps of the application: the client stored for a network, and the attempt that marked
      the network as connecting. */
  datatype Maps = Maps(clients: map<int, nat>, connecting: map<int, nat>)

  function Marked(m: Maps, network: int, attempt: nat): Maps {
    Maps(m.clients - {network}, m.connecting[network := attempt])
  }

  function Released(m: Maps, network: int): Maps {
    m.(connecting := m.connecting - {network})
  }

  function Stored(m: Maps, network: int, client: nat): Maps {
    Maps(m.clients[network := client], m.connecting - {network})
  }

  /** The maps as the application holds them. Each method is one locked section after its checks. */
  class App {
    var ircClients: map<int, nat>
    var connectingNetworks: map<int, nat>

    ghost function View(): Maps
      reads this
    {
      Maps(ircClients, connectingNetworks)
    }

    /** Forgets a stale client and marks the network; `stale` is that client, -1 if there is none. */
    method Mark(network: int, attempt: nat) returns (stale: int)
      modifies this
      ensures View() == Marked(old(View()), network, attempt)
      ensures stale == if network in old(ircClients) then old(ircClients)[network] else -1
    {
      stale := -1;
      if network in ircClients {
        stale := ircClients[network];
        ircClients := ircClients - {network};
      }
      connectingNetworks := connectingNetworks[network := attempt];
    }

    method Release(network: int)
      modifies this`connectingNetworks
      ensures View() == Released(old(View()), network)
    {
      connectingNetworks := connectingNetworks - {network};
    }

    method Store(network: int, client: nat)
      modifies this
      ensures View() == Stored(old(View()), network, client)
    {
      ircClients := ircClients[network := client];
      connectingNetworks := connectingNetworks - {network};
    }
  }

  // ---------------------------------------------------------------- interleavings

  /** Where an attempt stands. A place that ends in `Looked` holds the application's lock: the attempt
      has looked at the flag of the stored client, `saw`, and is about to act on it. */
  datatype Place =
    | Begins
    | MarkLooked(saw: bool)
    | Marks(stale: int)
    | Cleans
    | RecheckLooked(saw: bool)
    | Ready
    | Dials(client: nat)
    | Succeeded(client: nat)
    | StoreLooked(client: nat, saw: bool)
    | Failed
    | Duplicate(client: nat)
    | Ended

  /** `marked` and `closed` are history: whether the attempt marked the network, and how often it
      closed its channel. */
  datatype Attempt = Attempt(network: int, place: Place, marked: bool, closed: nat)

  datatype State = State(clients: seq<Client>, maps: Maps, attempts: seq<Attempt>, lock: int)

  const INITIAL := State([], Maps(map[], map[]), [], -1)

  /** `more` tells whether another server is left to try. */
  datatype Step =
    | Starts(network: int)
    | Looks(attempt: nat)
    | Acts(attempt: nat)
    | StopsStale(attempt: nat)
    | DialsServer(attempt: nat)
    | ConnectReturns(attempt: nat, ok: bool, more: bool)
    | TimesOut(attempt: nat, more: bool)
    | StopsDuplicate(attempt: nat)
    | ClientConnects(client: nat)
    | ClientDrops(client: nat)
    | UserDisconnects(network: int)

  predicate Live(s: State, network: int) {
    network in s.maps.clients && s.maps.clients[network] < |s.clients| && s.clients[s.maps.clients[network]].connected
  }

  function At(s: State, a: nat): Place {
    if a < |s.attempts| then s.attempts[a].place else Ended
  }

  predicate Possible(s: State, step: Step) {
    match step
    case Starts(_) => true
    case Looks(a) => s.lock == -1 && (At(s, a).Begins? || At(s, a).Cleans? || At(s, a).Succeeded? || At(s, a).Failed?)
    case Acts(a) => s.lock == a && (At(s, a).MarkLooked? || At(s, a).RecheckLooked? || At(s, a).StoreLooked?)
    case StopsStale(a) => At(s, a).Marks?
    case DialsServer(a) => At(s, a).Ready?
    case ConnectReturns(a, ok, _) =>
      && At(s, a).Dials?
      && (ok ==> At(s, a).client < |s.clients| && s.clients[At(s, a).client].connected && !s.clients[At(s, a).client].abandoned)
    case TimesOut(a, _) => At(s, a).Dials?
    case StopsDuplicate(a) => At(s, a).Duplicate?
    case ClientConnects(c) => c < |s.clients|
    case ClientDrops(c) => c < |s.clients|
    case UserDisconnects(n) => s.lock == -1 && n in s.maps.clients
  }

  function Moved(s: State, a: nat, place: Place): State
    requires a < |s.attempts|
  {
    s.(attempts := s.attempts[a := s.attempts[a].(place := place)])
  }

  /** Releases the network, closes the channel and moves on. */
  function Let(s: State, a: nat, maps: Maps, place: Place): State
    requires a < |s.attempts|
  {
    s.(maps := maps, attempts := s.attempts[a := s.attempts[a].(place := place, closed := s.attempts[a].closed + 1)], lock := -1)
  }

  function WithClient(s: State, c: int, client: Client): State {
    if 0 <= c < |s.clients| then s.(clients := s.clients[c := client]) else s
  }

  function Stopped(s: State, c: int): State {
    if 0 <= c < |s.clients| then WithClient(s, c, Quit(s.clients[c])) else s
  }

  function Apply(s: State, step: Step): State
    requires Possible(s, step)
  {
    match step
    case Starts(n) => s.(attempts := s.attempts + [Attempt(n, Begins, false, 0)])
    case Looks(a) =>
      var n := s.attempts[a].network;
      (match s.attempts[a].place
       case Begins => if n in s.maps.connecting then Moved(s, a, Ended) else Moved(s, a, MarkLooked(Live(s, n))).(lock := a)
       case Cleans => Moved(s, a, RecheckLooked(Live(s, n))).(lock := a)
       case Succeeded(c) => Moved(s, a, StoreLooked(c, Live(s, n) && s.maps.clients[n] != c)).(lock := a)
       case _ => Let(s, a, Released(s.maps, n), Ended))
    case Acts(a) =>
      var n := s.attempts[a].network;
      (match s.attempts[a].place
       case MarkLooked(saw) =>
         if saw then Moved(s, a, Ended).(lock := -1)
         else
           var stale: int := if n in s.maps.clients then s.maps.clients[n] else -1;
           s.(maps := Marked(s.maps, n, a), attempts := s.attempts[a := s.attempts[a].(place := Marks(stale), marked := true)], lock := -1)
       case RecheckLooked(saw) => if saw then Let(s, a, Released(s.maps, n), Ended) else Moved(s, a, Ready).(lock := -1)
       case StoreLooked(c, saw) => if saw then Let(s, a, Released(s.maps, n), Duplicate(c)) else Let(s, a, Stored(s.maps, n, c), Ended)
       case _ => s)
    case StopsStale(a) => Moved(Stopped(s, s.attempts[a].place.stale), a, Cleans)
    case DialsServer(a) => Moved(s.(clients := s.clients + [Client(false, false)]), a, Dials(|s.clients|))
    case ConnectReturns(a, ok, more) =>
      Moved(s, a, if ok then Succeeded(s.attempts[a].place.client) else if more then Ready else Failed)
    case TimesOut(a, more) => Moved(Stopped(s, s.attempts[a].place.client), a, if more then Ready else Failed)
    case StopsDuplicate(a) => Moved(Stopped(s, s.attempts[a].place.client), a, Ended)
    case ClientConnects(c) => WithClient(s, c, OnConnect(s.clients[c]))
    case ClientDrops(c) => Stopped(s, c)
    case UserDisconnects(n) => Stopped(s, s.maps.clients[n]).(maps := s.maps.(clients := s.maps.clients - {n}))
  }

  // ---------------------------------------------------------------- invariant

  /** Between marking and release. */
  predicate InProgress(p: Place) {
    p.Marks? || p.Cleans? || p.RecheckLooked? || p.Ready? || p.Dials? || p.Succeeded? || p.StoreLooked? || p.Failed?
  }

  predicate Holds(p: Place) {
    p.MarkLooked? || p.RecheckLooked? || p.StoreLooked?
  }

  /** A client that a Connect call reported has been connected since, or is abandoned. */
  predicate Settled(s: State, c: nat) {
    c < |s.clients| && (s.clients[c].connected || s.clients[c].abandoned)
  }

  predicate AttemptOk(s: State, a: nat)
    requires a < |s.attempts|
  {
    var t := s.attempts[a];
    && (InProgress(t.place) <==> t.network in s.maps.connecting && s.maps.connecting[t.network] == a)
    && (Holds(t.place) <==> s.lock == a)
    && (t.place.MarkLooked? ==> t.network !in s.maps.connecting)
    && (InProgress(t.place) ==> t.marked && t.network !in s.maps.clients)
    && t.closed == (if t.marked && !InProgress(t.place) then 1 else 0)
    && (t.place.Begins? || t.place.MarkLooked? ==> !t.marked)
    && (t.place.RecheckLooked? || t.place.StoreLooked? ==> !t.place.saw)
    && (t.place.Succeeded? || t.place.StoreLooked? || t.place.Duplicate? ==> Settled(s, t.place.client))
    && (t.place.Dials? ==> t.place.client < |s.clients|)
    && (t.place.Marks? && t.place.stale != -1 ==> 0 <= t.place.stale < |s.clients| && s.clients[t.place.stale].abandoned)
    && (t.place.MarkLooked? && !t.place.saw && t.network in s.maps.clients ==>
          s.maps.clients[t.network] < |s.clients| && s.clients[s.maps.clients[t.network]].abandoned)
  }

  ghost predicate Inv(s: State) {
    && (forall a: nat :: a < |s.attempts| ==> AttemptOk(s, a))
    && (forall n :: n in s.maps.connecting ==> s.maps.connecting[n] < |s.attempts| && s.attempts[s.maps.connecting[n]].network == n)
    && (forall n :: n in s.maps.clients ==> Settled(s, s.maps.clients[n]))
    && (forall c :: 0 <= c < |s.clients| && s.clients[c].abandoned ==> !s.clients[c].connected)
    && -1 <= s.lock < |s.attempts|
  }

  /** Flags of clients only move one way: nothing forgets that a client is settled or abandoned. */
  ghost predicate Onward(s: State, t: State) {
    && |s.clients| <= |t.clients|
    && forall c :: 0 <= c < |s.clients| ==>
         && (s.clients[c].abandoned ==> t.clients[c].abandoned)
         && (s.clients[c].connected ==> t.clients[c].connected || t.clients[c].abandoned)
  }

  lemma StepOnward(s: State, step: Step)
    requires Possible(s, step)
    ensures Onward(s, Apply(s, step))
  {
  }

  /** The maps differ at most at `network`, where only attempt `a` may come or go as the marker. */
  ghost predicate LocalTo(m: Maps, k: Maps, network: int, a: nat) {
    && (forall n :: n != network ==> (n in k.connecting <==> n in m.connecting) && (n in m.connecting ==> k.connecting[n] == m.connecting[n]))
    && (forall n :: n != network ==> (n in k.clients <==> n in m.clients) && (n in m.clients ==> k.clients[n] == m.clients[n]))
    && (network in m.connecting ==> m.connecting[network] == a)
    && (network in k.connecting ==> k.connecting[network] == a)
  }

  /** Other attempts are as well off after a step of attempt `a` as before. */
  lemma OthersOk(s: State, t: State, a: nat, b: nat)
    requires a < |s.attempts| == |t.attempts| && b < |s.attempts| && b != a && AttemptOk(s, b) && t.attempts[b] == s.attempts[b]
    requires Onward(s, t) && (t.lock == b <==> s.lock == b)
    requires t.maps == s.maps || (s.lock != b && LocalTo(s.maps, t.maps, s.attempts[a].network, a))
    ensures AttemptOk(t, b)
  {
  }

  lemma MapsOk(s: State, t: State)
    requires Inv(s) && Onward(s, t) && |s.attempts| <= |t.attempts|
    requires t.maps == s.maps && (forall a :: 0 <= a < |s.attempts| ==> t.attempts[a].network == s.attempts[a].network)
    ensures forall n :: n in t.maps.connecting ==> t.maps.connecting[n] < |t.attempts| && t.attempts[t.maps.connecting[n]].network == n
    ensures forall n :: n in t.maps.clients ==> Settled(t, t.maps.clients[n])
  {
  }

  /** Steps that leave the attempts alone. */
  lemma FlagsOk(s: State, t: State)
    requires Inv(s) && Onward(s, t) && t.attempts == s.attempts && t.lock == s.lock && t.maps == s.maps
    requires forall c :: 0 <= c < |t.clients| && t.clients[c].abandoned ==> !t.clients[c].connected
    ensures Inv(t)
  {
    MapsOk(s, t);
    forall b: nat | b < |t.attempts| ensures AttemptOk(t, b) {
      assert AttemptOk(s, b);
    }
  }

  lemma StartOk(s: State, network: int)
    requires Inv(s)
    ensures Inv(Apply(s, Starts(network)))
  {
    var t := Apply(s, Starts(network));
    StepOnward(s, Starts(network));
    MapsOk(s, t);
    forall b: nat | b < |t.attempts| ensures AttemptOk(t, b) {
      if b < |s.attempts| {
        assert AttemptOk(s, b);
      }
    }
  }

  /** Steps of one attempt: its own record and the maps are checked, the rest follows. */
  lemma AttemptStepOk(s: State, t: State, a: nat)
    requires Inv(s) && Onward(s, t) && a < |s.attempts| == |t.attempts|
    requires forall b :: 0 <= b < |s.attempts| && b != a ==> t.attempts[b] == s.attempts[b]
    requires t.attempts[a].network == s.attempts[a].network && AttemptOk(t, a)
    requires s.lock == a || s.lock == t.lock || (s.lock == -1 && t.lock == a)
    requires t.lock == s.lock || t.lock == a || t.lock == -1
    requires t.maps == s.maps || ((s.lock == -1 || s.lock == a) && LocalTo(s.maps, t.maps, s.attempts[a].network, a))
    requires s.attempts[a].network in t.maps.clients ==> Settled(t, t.maps.clients[s.attempts[a].network])
    requires forall c :: 0 <= c < |t.clients| && t.clients[c].abandoned ==> !t.clients[c].connected
    ensures Inv(t)
  {
    forall b: nat | b < |t.attempts| ensures AttemptOk(t, b) {
      if b != a {
        assert AttemptOk(s, b);
        OthersOk(s, t, a, b);
      }
    }
    assert forall n :: n in t.maps.clients && n != s.attempts[a].network ==> n in s.maps.clients && Settled(s, s.maps.clients[n]);
  }

  lemma LookOk(s: State, a: nat)
    requires Inv(s) && Possible(s, Looks(a))
    ensures Inv(Apply(s, Looks(a)))
  {
    StepOnward(s, Looks(a));
    assert AttemptOk(s, a);
    AttemptStepOk(s, Apply(s, Looks(a)), a);
  }

  lemma ActOk(s: State, a: nat)
    requires Inv(s) && Possible(s, Acts(a))
    ensures Inv(Apply(s, Acts(a)))
  {
    StepOnward(s, Acts(a));
    assert AttemptOk(s, a);
    AttemptStepOk(s, Apply(s, Acts(a)), a);
  }

  lemma ConnectOk(s: State, a: nat, step: Step)
    requires Inv(s) && Possible(s, step)
    requires step == StopsStale(a) || step == DialsServer(a) || step == StopsDuplicate(a)
             || (step.ConnectReturns? && step.attempt == a) || (step.TimesOut? && step.attempt == a)
    ensures Inv(Apply(s, step))
  {
    StepOnward(s, step);
    assert AttemptOk(s, a);
    AttemptStepOk(s, Apply(s, step), a);
  }

  lemma UserOk(s: State, network: int)
    requires Inv(s) && Possible(s, UserDisconnects(network))
    ensures Inv(Apply(s, UserDisconnects(network)))
  {
    var t := Apply(s, UserDisconnects(network));
    StepOnward(s, UserDisconnects(network));
    forall b: nat | b < |t.attempts| ensures AttemptOk(t, b) {
      assert AttemptOk(s, b);
    }
  }

  /** Every step keeps the invariant. */
  lemma StepInv(s: State, step: Step)
    requires Inv(s) && Possible(s, step)
    ensures Inv(Apply(s, step))
  {
    match step
    case Starts(n) => StartOk(s, n);
    case Looks(a) => LookOk(s, a);
    case Acts(a) => ActOk(s, a);
    case StopsStale(a) => ConnectOk(s, a, step);
    case DialsServer(a) => ConnectOk(s, a, step);
    case ConnectReturns(a, _, _) => ConnectOk(s, a, step);
    case TimesOut(a, _) => ConnectOk(s, a, step);
    case StopsDuplicate(a) => ConnectOk(s, a, step);
    case ClientConnects(c) => StepOnward(s, step); FlagsOk(s, Apply(s, step));
    case ClientDrops(c) => StepOnward(s, step); FlagsOk(s, Apply(s, step));
    case UserDisconnects(n) => UserOk(s, n);
  }

  // ---------------------------------------------------------------- runs

  ghost predicate PossibleRun(s: State, steps: seq<Step>)
    decreases |steps|
  {
    steps == [] || (Possible(s, steps[0]) && PossibleRun(Apply(s, steps[0]), steps[1..]))
  }

  ghost function Run(s: State, steps: seq<Step>): State
    requires PossibleRun(s, steps)
    decreases |steps|
  {
    if steps == [] then s else Run(Apply(s, steps[0]), steps[1..])
  }

  lemma {:induction false} RunInv(s: State, steps: seq<Step>)
    requires Inv(s) && PossibleRun(s, steps)
    ensures Inv(Run(s, steps))
    decreases |steps|
  {
    hide Inv, Possible, Apply;
    if steps != [] {
      StepInv(s, steps[0]);
      RunInv(Apply(s, steps[0]), steps[1..]);
    }
  }

  lemma ReachableInv(steps: seq<Step>)
    requires PossibleRun(INITIAL, steps)
    ensures Inv(Run(INITIAL, steps))
  {
    RunInv(INITIAL, steps);
  }

  /** Under any interleaving at most one attempt per network is between marking and release; an attempt
      that marked closes its channel once and only on release, any other attempt never. */
  lemma OneAttemptPerNetwork(steps: seq<Step>, a: nat, b: nat)
    requires PossibleRun(INITIAL, steps)
    ensures var s := Run(INITIAL, steps);
            a < |s.attempts| && b < |s.attempts| ==>
              && (InProgress(s.attempts[a].place) && InProgress(s.attempts[b].place) && s.attempts[a].network == s.attempts[b].network ==> a == b)
              && s.attempts[a].closed == (if s.attempts[a].marked && !InProgress(s.attempts[a].place) then 1 else 0)
              && (s.attempts[a].place.Ended? && s.attempts[a].marked ==> s.attempts[a].closed == 1)
  {
    ReachableInv(steps);
    var s := Run(INITIAL, steps);
    if a < |s.attempts| && b < |s.attempts| {
      assert AttemptOk(s, a) && AttemptOk(s, b);
    }
  }

  /** Only the user's own disconnect takes a client that could still be connected out of the map. What
      an attempt removes or replaces is abandoned, although its flag was read before acting on it and
      the client may change at any time; and an attempt in progress meets no stored client at all. */
  lemma NeverReplacesLiveClient(steps: seq<Step>, step: Step, network: int)
    requires PossibleRun(INITIAL, steps) && Possible(Run(INITIAL, steps), step) && !step.UserDisconnects?
    ensures var s := Run(INITIAL, steps);
            var t := Apply(s, step);
            network in s.maps.clients && !(network in t.maps.clients && t.maps.clients[network] == s.maps.clients[network]) ==>
              && s.maps.clients[network] < |s.clients|
              && s.clients[s.maps.clients[network]].abandoned && !s.clients[s.maps.clients[network]].connected
  {
    ReachableInv(steps);
    var s := Run(INITIAL, steps);
    if step.Acts? {
      assert AttemptOk(s, step.attempt);
    }
  }

  /** The guards after the first one never fire: while an attempt is in progress nothing else stores a
      client for its network. */
  lemma LaterChecksNeverFire(steps: seq<Step>, a: nat)
    requires PossibleRun(INITIAL, steps)
    ensures var s := Run(INITIAL, steps);
            a < |s.attempts| && (s.attempts[a].place.RecheckLooked? || s.attempts[a].place.StoreLooked?) ==> !s.attempts[a].place.saw
  {
    ReachableInv(steps);
    var s := Run(INITIAL, steps);
    if a < |s.attempts| {
      assert AttemptOk(s, a);
    }
  }

  lemma {:induction false} RunOnward(s: State, steps: seq<Step>)
    requires PossibleRun(s, steps)
    ensures Onward(s, Run(s, steps))
    decreases |steps|
  {
    if steps != [] {
      var t := Apply(s, steps[0]);
      StepOnward(s, steps[0]);
      RunOnward(t, steps[1..]);
      var r := Run(t, steps[1..]);
      hide Apply, Run, Possible;
      forall c | 0 <= c < |s.clients| ensures s.clients[c].abandoned ==> r.clients[c].abandoned {
      }
    }
  }

  /** A client that was replaced, timed out or dropped never counts as connected again. */
  lemma AbandonedForGood(before: seq<Step>, after: seq<Step>, c: nat)
    requires PossibleRun(INITIAL, before) && PossibleRun(Run(INITIAL, before), after)
    requires var s := Run(INITIAL, before); c < |s.clients| && s.clients[c].abandoned
    ensures var t := Run(Run(INITIAL, before), after);
            c < |t.clients| && t.clients[c].abandoned && !t.clients[c].connected
  {
    ReachableInv(before);
    RunInv(Run(INITIAL, before), after);
    RunOnward(Run(INITIAL, before), after);
  }

  /** The client an attempt tears down in a step: the stale one, the one that timed out, or its own when
      another one was there first. */
  function StoppedBy(s: State, step: Step): int {
    match step
    case StopsStale(a) => if At(s, a).Marks? then At(s, a).stale else -1
    case TimesOut(a, _) => if At(s, a).Dials? then At(s, a).client else -1
    case StopsDuplicate(a) => if At(s, a).Duplicate? then At(s, a).client else -1
    case _ => -1
  }

  /** What an attempt tears down is never connected again, whatever its callbacks and other attempts do
      afterwards. */
  lemma StoppedForGood(before: seq<Step>, step: Step, after: seq<Step>)
    requires PossibleRun(INITIAL, before) && Possible(Run(INITIAL, before), step)
    requires PossibleRun(Apply(Run(INITIAL, before), step), after)
    requires StoppedBy(Run(INITIAL, before), step) != -1
    ensures var c := StoppedBy(Run(INITIAL, before), step);
            var t := Run(Apply(Run(INITIAL, before), step), after);
            0 <= c < |t.clients| && t.clients[c].abandoned && !t.clients[c].connected
  {
    ReachableInv(before);
    var s := Run(INITIAL, before);
    var t := Apply(s, step);
    StoppedKnown(s, step);
    StepInv(s, step);
    StepOnward(s, step);
    RunInv(t, after);
    RunOnward(t, after);
    hide Apply, Run, Possible;
  }

  lemma StoppedKnown(s: State, step: Step)
    requires Inv(s) && Possible(s, step) && StoppedBy(s, step) != -1
    ensures var c := StoppedBy(s, step);
            0 <= c < |s.clients| && c < |Apply(s, step).clients| && Apply(s, step).clients[c].abandoned
  {
    assert AttemptOk(s, step.attempt);
  }

  // ---------------------------------------------------------------- success

  /** A connected client that nobody tore down meanwhile is stored: in every reachable state in which a
      Connect call of an attempt can report success and the lock is free, the attempt's next three steps
      are possible, store its client, release the network and close its channel. */
  lemma SuccessStores(steps: seq<Step>, a: nat, more: bool)
    requires PossibleRun(INITIAL, steps) && Possible(Run(INITIAL, steps), ConnectReturns(a, true, more))
    requires Run(INITIAL, steps).lock == -1
    ensures var s := Run(INITIAL, steps);
            var t := Apply(s, ConnectReturns(a, true, more));
            && Possible(t, Looks(a))
            && Possible(Apply(t, Looks(a)), Acts(a))
            && var r := Apply(Apply(t, Looks(a)), Acts(a));
            && a < |s.attempts| == |r.attempts|
            && var n := s.attempts[a].network;
            && n in r.maps.clients && r.maps.clients[n] == At(s, a).client && r.clients[At(s, a).client].connected
            && n !in r.maps.connecting && r.attempts[a].place.Ended? && r.attempts[a].closed == 1
  {
    ReachableInv(steps);
    var s := Run(INITIAL, steps);
    assert AttemptOk(s, a);
  }

  /** In every run, whatever happened since the dial: acting on the last look stores the client and ends
      the attempt. */
  lemma LastLookStores(steps: seq<Step>, a: nat)
    requires PossibleRun(INITIAL, steps) && Possible(Run(INITIAL, steps), Acts(a)) && At(Run(INITIAL, steps), a).StoreLooked?
    ensures var s := Run(INITIAL, steps);
            var r := Apply(s, Acts(a));
            && a < |s.attempts| == |r.attempts|
            && var n := s.attempts[a].network;
            && n in r.maps.clients && r.maps.clients[n] == At(s, a).client
            && n !in r.maps.connecting && r.attempts[a].place.Ended? && r.attempts[a].closed == 1 && r.lock == -1
  {
    ReachableInv(steps);
    assert AttemptOk(Run(INITIAL, steps), a);
  }

  /** A first look that finds no live client marks the network; one that finds a live client, or the
      network marked already, ends the attempt and changes no map. */
  lemma FirstLookDecides(steps: seq<Step>, a: nat)
    requires PossibleRun(INITIAL, steps) && Possible(Run(INITIAL, steps), Looks(a)) && At(Run(INITIAL, steps), a).Begins?
    ensures var s := Run(INITIAL, steps);
            var t := Apply(s, Looks(a));
            var n := s.attempts[a].network;
            if n in s.maps.connecting then t.attempts[a].place.Ended? && t.maps == s.maps && t.lock == -1
            else
              && Possible(t, Acts(a))
              && var r := Apply(t, Acts(a));
              if n in s.maps.clients && s.maps.clients[n] < |s.clients| && s.clients[s.maps.clients[n]].connected then r.attempts[a].place.Ended? && r.maps == s.maps
              else r.attempts[a].place.Marks? && n in r.maps.connecting && r.maps.connecting[n] == a && n !in r.maps.clients
                   && r.attempts[a].place.stale == if n in s.maps.clients then s.maps.clients[n] else -1
  {
    ReachableInv(steps);
    assert AttemptOk(Run(INITIAL, steps), a);
  }

  /** The way of an attempt between marking and success, in every run: the stale client is torn down, the
      second look finds no live client and leads on, each dial makes a new client, a dial that fails or
      times out leads to the next server or, after the last, to the release of the network. */
  lemma AttemptGoesOn(steps: seq<Step>, step: Step, a: nat)
    requires PossibleRun(INITIAL, steps) && Possible(Run(INITIAL, steps), step) && a < |Run(INITIAL, steps).attempts|
    ensures var s := Run(INITIAL, steps);
            var t := Apply(s, step);
            var was := s.attempts[a];
            && |s.attempts| <= |t.attempts|
            && var now := t.attempts[a];
            && now.network == was.network
            && (step == StopsStale(a) ==> now.place == Cleans && t.maps == s.maps && (was.place.stale >= 0 ==> was.place.stale < |t.clients| && t.clients[was.place.stale] == Client(false, true)))
            && (step == Looks(a) && was.place.Cleans? ==>
                  Possible(t, Acts(a)) && Apply(t, Acts(a)).attempts[a].place == Ready && Apply(t, Acts(a)).maps == s.maps)
            && (step == DialsServer(a) ==> now.place == Dials(|s.clients|) && t.clients == s.clients + [Client(false, false)])
            && (step.ConnectReturns? && step.attempt == a ==>
                  now.place == if step.ok then Succeeded(was.place.client) else if step.more then Ready else Failed)
            && (step.TimesOut? && step.attempt == a ==>
                  now.place == (if step.more then Ready else Failed) && was.place.client < |t.clients|
                  && t.clients[was.place.client] == Client(false, true))
            && (step == Looks(a) && was.place.Failed? ==>
                  now.place == Ended && was.network !in t.maps.connecting && t.maps.clients == s.maps.clients && now.closed == 1)
  {
    ReachableInv(steps);
    assert AttemptOk(Run(INITIAL, steps), a);
    LaterChecksNeverFire(steps, a);
  }

  /** A user's request begins a new attempt for its network; the others do not notice. */
  lemma StartAdds(s: State, network: int)
    ensures Possible(s, Starts(network))
    ensures var t := Apply(s, Starts(network));
            && |t.attempts| == |s.attempts| + 1 && t.attempts[..|s.attempts|] == s.attempts
            && t.attempts[|s.attempts|].network == network && t.attempts[|s.attempts|].place == Begins
            && t.maps == s.maps && t.clients == s.clients && t.lock == s.lock
  {
  }
}
