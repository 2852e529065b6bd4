/** The event bus of internal/events/bus.go: an ordered queue of ordinary events beside a lane of
    coalesced snapshots. The functions below are the locked sections and channel operations of its
    methods; the class performs them in place. Their interleavings are studied in EventBusRuns. */
module EventBus {
  datatype Event = Event(kind: string, data: map<string, string>)

  const QUEUE_SIZE := 1024

  /** Snapshots waiting for delivery: the newest one for each key, keys in order of first arrival. */
  datatype Lane = Lane(latest: map<string, Event>, order: seq<string>)

  predicate Distinct(s: seq<string>) {
    forall i, j :: 0 <= i < j < |s| ==> s[i] != s[j]
  }

  /** `order` lists exactly the keys of `latest`, each once. */
  ghost predicate LaneOk(l: Lane) {
    Distinct(l.order) && forall k :: k in l.order <==> k in l.latest
  }

  /** The locked section of EmitLatest. */
  function Stored(l: Lane, key: string, e: Event): (r: Lane)
    ensures LaneOk(l) ==> LaneOk(r) && r.order != []
    ensures r.latest.Keys == l.latest.Keys + {key}
  {
    assert key in l.latest ==> key in l.order || !LaneOk(l);
    Lane(l.latest[key := e], if key in l.latest then l.order else l.order + [key])
  }

  /** The locked section of popLatest. */
  function Popped(l: Lane): (r: Lane)
    requires l.order != []
    ensures LaneOk(l) ==> LaneOk(r)
  {
    Lane(l.latest - {l.order[0]}, l.order[1..])
  }

  /** Last write wins, first write decides the turn. */
  lemma StoredReplaces(l: Lane, key: string, e: Event)
    requires LaneOk(l)
    ensures var r := Stored(l, key, e);
            && r.latest[key] == e
            && (forall k :: k != key ==> (k in r.latest <==> k in l.latest) && (k in l.latest ==> r.latest[k] == l.latest[k]))
            && l.order <= r.order && |r.order| <= |l.order| + 1
  {
  }

  /** A channel send: refused while the queue is full. */
  function Pushed(queue: seq<Event>, e: Event): seq<Event> {
    if |queue| < QUEUE_SIZE then queue + [e] else queue
  }

  class Bus {
    var queue: seq<Event>
    var latest: map<string, Event>
    var latestOrder: seq<string>
    var latestReady: bool
    var closed: bool

    ghost function Waiting(): Lane
      reads this
    {
      Lane(latest, latestOrder)
    }

    ghost predicate Valid()
      reads this
    {
      LaneOk(Waiting()) && |queue| <= QUEUE_SIZE
    }

    constructor ()
      ensures Valid() && queue == [] && Waiting() == Lane(map[], []) && !latestReady && !closed
    {
      queue, latest, latestOrder, latestReady, closed := [], map[], [], false, false;
    }

    /** The channel send of Emit; `sent` tells whether there was room. */
    method Send(event: Event) returns (sent: bool)
      requires Valid()
      modifies this`queue
      ensures Valid()
      ensures sent == (|old(queue)| < QUEUE_SIZE)
      ensures queue == Pushed(old(queue), event)
    {
      sent := |queue| < QUEUE_SIZE;
      if sent {
        queue := queue + [event];
      }
    }

    /** EmitLatest up to its wake-up; `stored` says that a wake-up must follow. */
    method StoreLatest(key: string, event: Event) returns (stored: bool)
      requires Valid()
      modifies this`latest, this`latestOrder
      ensures Valid()
      ensures stored == (key != "" && !closed)
      ensures Waiting() == if stored then Stored(old(Waiting()), key, event) else old(Waiting())
    {
      if key == "" || closed {
        return false;
      }
      if key !in latest {
        latestOrder := latestOrder + [key];
      }
      latest := latest[key := event];
      assert Waiting() == Stored(old(Waiting()), key, event);
      return true;
    }

    /** The non-blocking send on a one-slot channel. */
    method Wake()
      requires Valid()
      modifies this`latestReady
      ensures Valid() && latestReady
    {
      latestReady := true;
    }

    /** popLatest up to its own wake-up, which must follow when `more`. */
    method PopLatest() returns (event: Event, ok: bool, more: bool)
      requires Valid()
      modifies this`latest, this`latestOrder
      ensures Valid()
      ensures ok == (old(latestOrder) != [])
      ensures !ok ==> Waiting() == old(Waiting()) && !more
      ensures ok ==> Waiting() == Popped(old(Waiting())) && event == old(latest)[old(latestOrder)[0]] && more == (latestOrder != [])
    {
      if |latestOrder| == 0 {
        return Event("", map[]), false, false;
      }
      var key := latestOrder[0];
      latestOrder := latestOrder[1..];
      event := latest[key];
      latest := latest - {key};
      assert Waiting() == Popped(old(Waiting()));
      return event, true, |latestOrder| > 0;
    }

    method Close()
      requires Valid()
      modifies this`closed
      ensures Valid() && closed
    {
      closed := true;
    }
  }
}
