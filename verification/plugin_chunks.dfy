/** Splitting of large events into plugin frames: pluginEventNotifications of
    internal/plugin/manager.go. An update is opaque; the length of a marshalled frame is a function
    of what the frame holds. */
module PluginChunks {
  type Update = string

  const MAX_FRAME := 48 * 1024
  const OVERHEAD := 128
  const TARGET := MAX_FRAME - OVERHEAD

  /** `updates` of the event: some other value, or a list. */
  datatype Payload = NoList | Items(updates: seq<Update>)

  /** A frame carries the event's other fields unchanged. */
  datatype Frame = Whole(payload: Payload) | Batch(updates: seq<Update>, index: nat, total: nat)

  /** Length of the marshalled notification of a frame; a batch index of 0 stands for a candidate
      measured before the batch fields are added. */
  type Measure = Frame -> nat

  datatype Result = Frames(frames: seq<Frame>) | TooLarge

  function Size(m: Measure, updates: seq<Update>): nat {
    m(Batch(updates, 0, 0))
  }

  datatype Packed = Packed(chunks: seq<seq<Update>>) | Oversized

  /** The packing loop, from a current chunk on. */
  function Pack(m: Measure, current: seq<Update>, rest: seq<Update>): Packed
    decreases |rest|
  {
    if rest == [] then Packed(if current == [] then [] else [current])
    else if Size(m, current + [rest[0]]) <= TARGET then Pack(m, current + [rest[0]], rest[1..])
    else if current == [] then Oversized
    else
      match Pack(m, [rest[0]], rest[1..])
      case Packed(chunks) => Packed([current] + chunks)
      case Oversized => Oversized
  }

  function Batches(chunks: seq<seq<Update>>): seq<Frame> {
    seq(|chunks|, i requires 0 <= i < |chunks| => Batch(chunks[i], i + 1, |chunks|))
  }

  function Notifications(m: Measure, payload: Payload): Result {
    if m(Whole(payload)) <= MAX_FRAME then Frames([Whole(payload)])
    else if payload.NoList? || payload.updates == [] then TooLarge
    else
      match Pack(m, [], payload.updates)
      case Oversized => TooLarge
      case Packed(chunks) =>
        if exists i :: 0 <= i < |chunks| && m(Batches(chunks)[i]) > MAX_FRAME then TooLarge else Frames(Batches(chunks))
  }

  method PluginEventNotifications(m: Measure, payload: Payload) returns (r: Result)
    ensures r == Notifications(m, payload)
  {
    hide Pack, Batches;
    if m(Whole(payload)) <= MAX_FRAME {
      return Frames([Whole(payload)]);
    }
    if payload.NoList? || payload.updates == [] {
      return TooLarge;
    }
    var packed := PackUpdates(m, payload.updates);
    if packed.Oversized? {
      return TooLarge;
    }
    r := MakeFrames(m, packed.chunks);
  }

  /** The loop over the updates. */
  method PackUpdates(m: Measure, updates: seq<Update>) returns (p: Packed)
    ensures p == Pack(m, [], updates)
  {
    var chunks: seq<seq<Update>> := [];
    var current: seq<Update> := [];
    for i := 0 to |updates|
      invariant Pack(m, [], updates) == Behind(chunks, Pack(m, current, updates[i..]))
      invariant current == [] ==> i == 0 && chunks == []
    {
      assert updates[i..][0] == updates[i] && updates[i..][1..] == updates[i + 1..];
      var candidate := current + [updates[i]];
      if Size(m, candidate) <= TARGET {
        current := candidate;
      } else {
        if |current| == 0 {
          return Oversized;
        }
        BehindMore(chunks, current, Pack(m, [updates[i]], updates[i + 1..]));
        chunks := chunks + [current];
        current := [updates[i]];
      }
    }
    if |current| > 0 {
      chunks := chunks + [current];
    }
    return Packed(chunks);
  }

  /** The loop over the chunks. */
  method MakeFrames(m: Measure, chunks: seq<seq<Update>>) returns (r: Result)
    ensures r == if exists i :: 0 <= i < |chunks| && m(Batches(chunks)[i]) > MAX_FRAME then TooLarge else Frames(Batches(chunks))
  {
    var frames: seq<Frame> := [];
    for i := 0 to |chunks|
      invariant frames == Batches(chunks)[..i]
      invariant forall j :: 0 <= j < i ==> m(Batches(chunks)[j]) <= MAX_FRAME
    {
      var frame := Batch(chunks[i], i + 1, |chunks|);
      if m(frame) > MAX_FRAME {
        assert m(Batches(chunks)[i]) > MAX_FRAME;
        return TooLarge;
      }
      frames := frames + [frame];
    }
    return Frames(frames);
  }

  /** Chunks already closed in front of a packing. */
  function Behind(chunks: seq<seq<Update>>, p: Packed): Packed {
    match p
    case Packed(more) => Packed(chunks + more)
    case Oversized => Oversized
  }

  lemma BehindMore(chunks: seq<seq<Update>>, current: seq<Update>, p: Packed)
    ensures Behind(chunks, Behind([current], p)) == Behind(chunks + [current], p)
  {
    if p.Packed? {
      assert chunks + ([current] + p.chunks) == (chunks + [current]) + p.chunks;
    }
  }

  // ---------------------------------------------------------------- nothing lost, nothing reordered

  function Concat(chunks: seq<seq<Update>>): seq<Update> {
    if chunks == [] then [] else chunks[0] + Concat(chunks[1..])
  }

  lemma {:induction false} PackConcat(m: Measure, current: seq<Update>, rest: seq<Update>)
    ensures var p := Pack(m, current, rest);
            p.Packed? ==> Concat(p.chunks) == current + rest && forall k :: 0 <= k < |p.chunks| ==> p.chunks[k] != []
    decreases |rest|
  {
    if rest == [] {
      if current != [] {
        assert Concat([current]) == current + Concat([]);
      }
    } else {
      assert rest == [rest[0]] + rest[1..];
      if Size(m, current + [rest[0]]) <= TARGET {
        PackConcat(m, current + [rest[0]], rest[1..]);
        assert current + rest == (current + [rest[0]]) + rest[1..];
      } else if current != [] {
        PackConcat(m, [rest[0]], rest[1..]);
        var p := Pack(m, [rest[0]], rest[1..]);
        if p.Packed? {
          assert ([current] + p.chunks)[1..] == p.chunks;
        }
      }
    }
  }

  /** Only the very first update can make packing fail: a later one that is too large becomes a chunk
      of its own and is left to the final check. */
  lemma {:induction false} PackFails(m: Measure, current: seq<Update>, rest: seq<Update>)
    ensures Pack(m, current, rest).Oversized? <==> current == [] && rest != [] && Size(m, [rest[0]]) > TARGET
    decreases |rest|
  {
    if rest != [] {
      assert [] + [rest[0]] == [rest[0]];
      if Size(m, current + [rest[0]]) <= TARGET {
        PackFails(m, current + [rest[0]], rest[1..]);
      } else if current != [] {
        PackFails(m, [rest[0]], rest[1..]);
      }
    }
  }

  function UpdatesOf(frames: seq<Frame>): seq<seq<Update>> {
    seq(|frames|, i requires 0 <= i < |frames| => match frames[i] case Batch(u, _, _) => u case Whole(_) => [])
  }

  /** Success: every frame is within the limit, and either the event goes out as it is, or the batches
      hold its updates in order, are not empty and are numbered from 1 to their count. */
  lemma SplitIsComplete(m: Measure, payload: Payload)
    requires Notifications(m, payload).Frames?
    ensures var f := Notifications(m, payload).frames;
            && f != []
            && (forall i :: 0 <= i < |f| ==> m(f[i]) <= MAX_FRAME)
            && (f == [Whole(payload)]
                || (payload.Items?
                    && Concat(UpdatesOf(f)) == payload.updates
                    && forall i :: 0 <= i < |f| ==> f[i].Batch? && f[i].updates != [] && f[i].index == i + 1 && f[i].total == |f|))
  {
    if m(Whole(payload)) > MAX_FRAME {
      var chunks := Pack(m, [], payload.updates).chunks;
      PackConcat(m, [], payload.updates);
      assert UpdatesOf(Batches(chunks)) == chunks;
      assert [] + payload.updates == payload.updates;
      assert Concat(chunks) == payload.updates;
    }
  }

  /** Refusal, exactly: the event is too large as it is, and has no updates to split, or its first
      update alone is over the target, or some batch is over the limit. */
  lemma RefusedExactly(m: Measure, payload: Payload)
    ensures payload.Items? && payload.updates != [] && Size(m, [payload.updates[0]]) <= TARGET ==> Pack(m, [], payload.updates).Packed?
    ensures Notifications(m, payload).TooLarge? <==>
            && m(Whole(payload)) > MAX_FRAME
            && (|| payload.NoList? || payload.updates == []
                || Size(m, [payload.updates[0]]) > TARGET
                || var chunks := Pack(m, [], payload.updates).chunks;
                   exists i :: 0 <= i < |chunks| && m(Batches(chunks)[i]) > MAX_FRAME)
  {
    if payload.Items? {
      PackFails(m, [], payload.updates);
    }
  }

  /** The batch fields fit into the room reserved for them. */
  ghost predicate ReserveHolds(m: Measure) {
    forall u: seq<Update>, i: nat, n: nat :: m(Batch(u, i, n)) <= Size(m, u) + OVERHEAD
  }

  predicate MeetsOrSingle(m: Measure, chunk: seq<Update>) {
    Size(m, chunk) <= TARGET || |chunk| == 1
  }

  lemma {:induction false} PackMeetsOrSingle(m: Measure, current: seq<Update>, rest: seq<Update>)
    requires current != [] ==> MeetsOrSingle(m, current)
    ensures var p := Pack(m, current, rest);
            p.Packed? ==> forall k :: 0 <= k < |p.chunks| ==> MeetsOrSingle(m, p.chunks[k])
    decreases |rest|
  {
    if rest != [] {
      if Size(m, current + [rest[0]]) <= TARGET {
        PackMeetsOrSingle(m, current + [rest[0]], rest[1..]);
      } else if current != [] {
        PackMeetsOrSingle(m, [rest[0]], rest[1..]);
      }
    }
  }

  lemma {:induction false} PartOfConcat(chunks: seq<seq<Update>>, k: nat)
    requires k < |chunks| && |chunks[k]| == 1
    ensures chunks[k][0] in Concat(chunks)
    decreases k
  {
    if k > 0 {
      PartOfConcat(chunks[1..], k - 1);
    }
  }

  /** With the reserve large enough an event that holds updates is refused only on account of an update
      that is over the target all by itself: small updates always get through. */
  lemma RefusedForOneUpdate(m: Measure, payload: Payload)
    requires ReserveHolds(m) && payload.Items? && payload.updates != [] && Notifications(m, payload).TooLarge?
    ensures exists u :: u in payload.updates && Size(m, [u]) > TARGET
  {
    RefusedExactly(m, payload);
    if Size(m, [payload.updates[0]]) <= TARGET {
      var chunks := Pack(m, [], payload.updates).chunks;
      var i :| 0 <= i < |chunks| && m(Batches(chunks)[i]) > MAX_FRAME;
      PackMeetsOrSingle(m, [], payload.updates);
      assert MeetsOrSingle(m, chunks[i]);
      PackConcat(m, [], payload.updates);
      assert [] + payload.updates == payload.updates;
      PartOfConcat(chunks, i);
      assert chunks[i] == [chunks[i][0]];
    } else {
      assert payload.updates[0] in payload.updates;
    }
  }

  // ---------------------------------------------------------------- no split does with fewer

  /** A longer list of updates does not marshal to less. */
  ghost predicate Monotone(m: Measure) {
    forall a: seq<Update>, b: seq<Update>, c: seq<Update> :: Size(m, b) <= Size(m, a + b + c)
  }

  /** An order-preserving split of `updates` whose parts meet the target. */
  predicate Splits(m: Measure, parts: seq<seq<Update>>, updates: seq<Update>) {
    Concat(parts) == updates && forall k :: 0 <= k < |parts| ==> Size(m, parts[k]) <= TARGET
  }

  /** Any split of more than what is left needs at least as many parts as the packing makes. */
  lemma {:induction false} PackIsLeast(m: Measure, before: seq<Update>, current: seq<Update>, rest: seq<Update>, parts: seq<seq<Update>>)
    requires Monotone(m) && current != [] && Pack(m, current, rest).Packed?
    requires Splits(m, parts, before + current + rest)
    ensures |Pack(m, current, rest).chunks| <= |parts|
    decreases |rest|
  {
    assert parts != [];
    if rest != [] {
      var u, r := rest[0], rest[1..];
      assert rest == [u] + r;
      if Size(m, current + [u]) <= TARGET {
        assert before + current + rest == before + (current + [u]) + r;
        PackIsLeast(m, before, current + [u], r, parts);
      } else {
        var q := parts[0];
        FirstPartStops(m, before, current, u, r, parts);
        var left := (before + current)[|q|..];
        assert Concat(parts[1..]) == left + [u] + r by {
          assert q + Concat(parts[1..]) == before + current + ([u] + r);
          assert (before + current + ([u] + r))[|q|..] == left + ([u] + r);
        }
        PackIsLeast(m, left, [u], r, parts[1..]);
      }
    }
  }

  /** The first part of a split ends before the update that overflows the current chunk. */
  lemma FirstPartStops(m: Measure, before: seq<Update>, current: seq<Update>, u: Update, r: seq<Update>, parts: seq<seq<Update>>)
    requires Monotone(m) && parts != [] && Splits(m, parts, before + current + ([u] + r)) && Size(m, current + [u]) > TARGET
    ensures |parts[0]| <= |before| + |current|
  {
    Overlap(m, before, current + [u], r, parts[0], Concat(parts[1..]));
    assert before + current + ([u] + r) == before + (current + [u]) + r;
  }

  /** A front part long enough holds the middle. */
  lemma Overlap(m: Measure, before: seq<Update>, middle: seq<Update>, r: seq<Update>, q: seq<Update>, tail: seq<Update>)
    requires Monotone(m)
    ensures q + tail == before + middle + r && |q| >= |before| + |middle| ==> Size(m, middle) <= Size(m, q)
  {
    var n := |before| + |middle|;
    if q + tail == before + middle + r && |q| >= n {
      assert (q + tail)[..n] == (before + middle + r)[..n] == before + middle;
      assert q[..n] == (q + tail)[..n];
      assert q == before + middle + q[n..];
    }
  }

  lemma {:induction false} PackMeetsTarget(m: Measure, current: seq<Update>, rest: seq<Update>)
    requires current != [] ==> Size(m, current) <= TARGET
    requires forall k :: 0 <= k < |rest| ==> Size(m, [rest[k]]) <= TARGET
    ensures var p := Pack(m, current, rest);
            p.Packed? && forall k :: 0 <= k < |p.chunks| ==> Size(m, p.chunks[k]) <= TARGET
    decreases |rest|
  {
    if rest != [] {
      assert [] + [rest[0]] == [rest[0]];
      assert forall k :: 0 <= k < |rest[1..]| ==> rest[1..][k] == rest[k + 1];
      if Size(m, current + [rest[0]]) <= TARGET {
        PackMeetsTarget(m, current + [rest[0]], rest[1..]);
      } else {
        PackMeetsTarget(m, [rest[0]], rest[1..]);
      }
    }
  }

  /** If every update fits the target by itself, the greedy packing is a split into parts that fit it,
      and no order-preserving split into such parts has fewer. */
  lemma PackingIsOptimal(m: Measure, updates: seq<Update>, parts: seq<seq<Update>>)
    requires Monotone(m) && forall k :: 0 <= k < |updates| ==> Size(m, [updates[k]]) <= TARGET
    requires Splits(m, parts, updates)
    ensures var p := Pack(m, [], updates);
            p.Packed? && Splits(m, p.chunks, updates) && |p.chunks| <= |parts|
  {
    PackMeetsTarget(m, [], updates);
    PackConcat(m, [], updates);
    assert [] + updates == updates;
    if updates != [] {
      assert [] + [updates[0]] == [updates[0]];
      assert updates == [] + [updates[0]] + updates[1..];
      PackIsLeast(m, [], [updates[0]], updates[1..], parts);
    }
  }

  // ---------------------------------------------------------------- when nothing is split

  /** An event is sent as it is, in one frame and unbatched, exactly if it fits. */
  lemma WholeExactly(m: Measure, payload: Payload)
    ensures Notifications(m, payload) == Frames([Whole(payload)]) <==> m(Whole(payload)) <= MAX_FRAME
    ensures MAX_FRAME == 49152
  {
    if payload.Items? && Pack(m, [], payload.updates).Packed? {
      var frames := Batches(Pack(m, [], payload.updates).chunks);
      assert frames != [Whole(payload)] by {
        assert |frames| > 0 ==> frames[0].Batch?;
      }
    }
  }
}
