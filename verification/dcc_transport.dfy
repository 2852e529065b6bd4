/** The byte-copy loops of internal/dcc/transport.go. How the network and the file system fragment,
    delay and fail reads and writes is a script given to each call; a script that ends while a loop
    would still go on leaves it `Unfinished`. */
module DccTransport {
  type Byte = b: int | 0 <= b < 256
  type Bytes = seq<Byte>

  const BUFFER := 64 * 1024

  datatype Outcome = Done | Failed | Unfinished

  /** One Write call: how much it takes, and whether it reports an error. */
  datatype Write = Write(taken: nat, fails: bool)

  function Least(a: nat, b: nat): nat {
    if a < b then a else b
  }

  // ---------------------------------------------------------------- writeAll

  /** What reached the writer, how many calls were made, and how it ended. */
  datatype Sent = Sent(wire: Bytes, outcome: Outcome)

  function WrittenAll(wire: Bytes, b: Bytes, script: seq<Write>): Sent
    decreases |script|
  {
    if b == [] then Sent(wire, Done)
    else if script == [] then Sent(wire, Unfinished)
    else
      var n := Least(script[0].taken, |b|);
      if script[0].fails then Sent(wire + b[..n], Failed) else WrittenAll(wire + b[..n], b[n..], script[1..])
  }

  method WriteAll(b: Bytes, script: seq<Write>) returns (wire: Bytes, outcome: Outcome)
    ensures Sent(wire, outcome) == WrittenAll([], b, script)
  {
    wire := [];
    var rest := b;
    var i := 0;
    while |rest| > 0
      invariant 0 <= i <= |script|
      invariant WrittenAll(wire, rest, script[i..]) == WrittenAll([], b, script)
      decreases |script| - i
    {
      if i == |script| {
        return wire, Unfinished;
      }
      var n := Least(script[i].taken, |rest|);
      wire := wire + rest[..n];
      if script[i].fails {
        return wire, Failed;
      }
      assert script[i..][1..] == script[i + 1..];
      rest := rest[n..];
      i := i + 1;
    }
    return wire, Done;
  }

  // ---------------------------------------------------------------- sendFile

  /** One round of the sending loop: how much the file read yields, the writes, the read's error. */
  datatype SendRound = SendRound(canceled: bool, supplies: nat, writes: seq<Write>, fails: bool)

  /** Bytes on the wire, progress reported, end. */
  datatype Sending = Sending(wire: Bytes, progress: seq<nat>, outcome: Outcome)

  function Sends(source: Bytes, written: nat, wire: Bytes, progress: seq<nat>, rounds: seq<SendRound>): Sending
    requires written <= |source|
    decreases |rounds|
  {
    if written == |source| then Sending(wire, progress, Done)
    else if rounds == [] then Sending(wire, progress, Unfinished)
    else if rounds[0].canceled then Sending(wire, progress, Failed)
    else
      var r := rounds[0];
      var n := Least(r.supplies, Least(BUFFER, |source| - written));
      var w := WrittenAll([], source[written..written + n], r.writes);
      if w.outcome != Done then Sending(wire + w.wire, progress, w.outcome)
      else
        var reported := if n > 0 then progress + [written + n] else progress;
        if r.fails then Sending(wire + w.wire, reported, Failed)
        else Sends(source, written + n, wire + w.wire, reported, rounds[1..])
  }

  /** sendFile on a file that can be opened: offset and size are checked first. */
  function Send(source: Bytes, offset: int, total: int, rounds: seq<SendRound>): Sending {
    if offset < 0 || offset > |source| || |source| != total then Sending([], [], Failed)
    else Sends(source, offset, [], [], rounds)
  }

  method SendFile(source: Bytes, offset: int, total: int, rounds: seq<SendRound>) returns (s: Sending)
    ensures s == Send(source, offset, total, rounds)
  {
    if offset < 0 || offset > |source| {
      return Sending([], [], Failed);
    }
    if |source| != total {
      return Sending([], [], Failed);
    }
    var wire: Bytes := [];
    var progress: seq<nat> := [];
    var written: nat := offset;
    var i := 0;
    while written < total
      invariant written <= |source| && 0 <= i <= |rounds|
      invariant Sends(source, written, wire, progress, rounds[i..]) == Sends(source, offset, [], [], rounds)
      decreases |rounds| - i
    {
      if i == |rounds| {
        return Sending(wire, progress, Unfinished);
      }
      var r := rounds[i];
      if r.canceled {
        return Sending(wire, progress, Failed);
      }
      assert rounds[i..][1..] == rounds[i + 1..];
      var n := Least(r.supplies, Least(BUFFER, total - written));
      if n > 0 {
        var more, outcome := WriteAll(source[written..written + n], r.writes);
        wire := wire + more;
        if outcome != Done {
          return Sending(wire, progress, outcome);
        }
        written := written + n;
        progress := progress + [written];
      } else {
        assert source[written..written + n] == [] && wire + [] == wire;
      }
      if r.fails {
        return Sending(wire, progress, Failed);
      }
      i := i + 1;
    }
    return Sending(wire, progress, Done);
  }

  // ---------------------------------------------------------------- receiveFile

  /** One round of the receiving loop: what arrives, how much of it the file write keeps, the writes
      of the acknowledgement, the read's error. */
  datatype ReceiveRound = ReceiveRound(canceled: bool, arrives: Bytes, kept: nat, writes: seq<Write>, fails: bool)

  /** The partial file, acknowledgements completely written, progress reported, end. */
  datatype Receiving = Receiving(file: Bytes, acks: seq<Bytes>, progress: seq<nat>, outcome: Outcome)

  /** legacyAcknowledgement. */
  function Acknowledgement(received: nat): nat {
    received % 0x1_0000_0000
  }

  function BigEndian(n: nat): (b: Bytes)
    requires n < 0x1_0000_0000
    ensures |b| == 4
  {
    var i: int := n;
    [i / 0x100_0000, i / 0x1_0000 % 256, i / 256 % 256, i % 256]
  }

  function Ack(received: nat): Bytes {
    BigEndian(Acknowledgement(received))
  }

  function Receives(file: Bytes, total: nat, acks: seq<Bytes>, progress: seq<nat>, rounds: seq<ReceiveRound>, ends: bool): Receiving
    requires |file| <= total
    decreases |rounds|
  {
    if |file| == total then Receiving(file, acks, progress, if ends then Done else Failed)
    else if rounds == [] then Receiving(file, acks, progress, Unfinished)
    else if rounds[0].canceled then Receiving(file, acks, progress, Failed)
    else
      var r := rounds[0];
      var n := Least(|r.arrives|, Least(BUFFER, total - |file|));
      if n == 0 then
        if r.fails then Receiving(file, acks, progress, Failed) else Receives(file, total, acks, progress, rounds[1..], ends)
      else if r.kept < n then Receiving(file + r.arrives[..r.kept], acks, progress, Failed)
      else
        var more := file + r.arrives[..n];
        var w := WrittenAll([], Ack(|more|), r.writes);
        if w.outcome != Done then Receiving(more, acks, progress, w.outcome)
        else if r.fails then Receiving(more, acks + [Ack(|more|)], progress + [|more|], Failed)
        else Receives(more, total, acks + [Ack(|more|)], progress + [|more|], rounds[1..], ends)
  }

  /** receiveFile: `partial` is the file found, if any. `ends` tells whether the last look at the
      context and the final sync succeed. */
  function Receive(partial: Bytes, exists_: bool, offset: nat, total: nat, rounds: seq<ReceiveRound>, ends: bool): Receiving {
    if offset == 0 && exists_ then Receiving(partial, [], [], Failed)
    else
      var file := if exists_ then partial else [];
      if |file| != offset then Receiving(file, [], [], Failed)
      else if offset > total then Receiving(file, [], [], if ends then Done else Failed)
      else Receives(file, total, [], [], rounds, ends)
  }

  method ReceiveFile(partial: Bytes, exists_: bool, offset: nat, total: nat, rounds: seq<ReceiveRound>, ends: bool) returns (r: Receiving)
    ensures r == Receive(partial, exists_, offset, total, rounds, ends)
  {
    hide WrittenAll, BigEndian;
    if offset == 0 && exists_ {
      return Receiving(partial, [], [], Failed);
    }
    var file: Bytes := if exists_ then partial else [];
    if offset > 0 && |file| != offset {
      return Receiving(file, [], [], Failed);
    }
    ghost var found := file;
    var acks: seq<Bytes> := [];
    var progress: seq<nat> := [];
    var received := offset;
    var i := 0;
    while received < total
      invariant received == |file| && (offset <= total ==> received <= total) && (offset > total ==> file == found && acks == [] && progress == [])
      invariant 0 <= i <= |rounds|
      invariant offset <= total ==> Receives(file, total, acks, progress, rounds[i..], ends) == Receives(found, total, [], [], rounds, ends)
      decreases |rounds| - i
    {
      if i == |rounds| {
        return Receiving(file, acks, progress, Unfinished);
      }
      var round := rounds[i];
      if round.canceled {
        return Receiving(file, acks, progress, Failed);
      }
      assert rounds[i..][1..] == rounds[i + 1..];
      var n := Least(|round.arrives|, Least(BUFFER, total - received));
      if n > 0 {
        if round.kept < n {
          return Receiving(file + round.arrives[..round.kept], acks, progress, Failed);
        }
        file := file + round.arrives[..n];
        received := received + n;
        var wire, outcome := WriteAll(Ack(received), round.writes);
        if outcome != Done {
          return Receiving(file, acks, progress, outcome);
        }
        acks := acks + [Ack(received)];
        progress := progress + [received];
      }
      if round.fails {
        return Receiving(file, acks, progress, Failed);
      }
      i := i + 1;
    }
    return Receiving(file, acks, progress, if ends then Done else Failed);
  }

  // ---------------------------------------------------------------- what they guarantee

  predicate Begins(a: Bytes, b: Bytes) {
    |a| <= |b| && b[..|a|] == a
  }

  lemma {:induction false} WritesInOrder(wire: Bytes, b: Bytes, script: seq<Write>)
    ensures var s := WrittenAll(wire, b, script);
            && Begins(wire, s.wire) && Begins(s.wire, wire + b)
            && (s.outcome == Done ==> s.wire == wire + b)
    decreases |script|
  {
    if b != [] && script != [] && !script[0].fails {
      var n := Least(script[0].taken, |b|);
      WritesInOrder(wire + b[..n], b[n..], script[1..]);
      assert wire + b[..n] + b[n..] == wire + b;
    }
  }

  predicate Increasing(s: seq<nat>) {
    forall j, k :: 0 <= j < k < |s| ==> s[j] < s[k]
  }

  /** Counts lie above `low`, in strictly increasing order, and at most `high`. */
  predicate Counts(s: seq<nat>, low: nat, high: nat) {
    Increasing(s) && forall k :: 0 <= k < |s| ==> low < s[k] <= high
  }

  lemma CountsMore(s: seq<nat>, low: nat, high: nat, x: nat)
    requires Counts(s, low, high) && low <= high <= x
    ensures Counts(s, low, x)
    ensures high < x ==> Counts(s + [x], low, x)
  {
  }

  /** One piece more on the wire. */
  lemma PieceSent(source: Bytes, offset: nat, written: nat, n: nat, script: seq<Write>)
    requires offset <= written <= written + n <= |source|
    ensures var w := WrittenAll([], source[written..written + n], script);
            && |w.wire| <= n && (w.outcome == Done ==> |w.wire| == n)
            && source[offset..written] + w.wire == source[offset..written + |w.wire|]
  {
    hide WrittenAll;
    var piece := source[written..written + n];
    WritesInOrder([], piece, script);
    assert [] + piece == piece;
    var w := WrittenAll([], piece, script);
    assert w.wire == piece[..|w.wire|] == source[written..written + |w.wire|];
  }

  predicate SendOk(source: Bytes, offset: nat, s: Sending) {
    && offset <= |source|
    && Begins(s.wire, source[offset..])
    && (s.outcome == Done ==> s.wire == source[offset..])
    && Counts(s.progress, offset, |source|)
  }

  lemma PrefixOk(source: Bytes, offset: nat, written: nat, wire: Bytes, progress: seq<nat>, outcome: Outcome)
    requires offset <= written <= |source| && wire == source[offset..written] && Counts(progress, offset, |source|)
    requires outcome == Done ==> written == |source|
    ensures SendOk(source, offset, Sending(wire, progress, outcome))
  {
    hide Counts;
    assert source[offset..][..|wire|] == wire;
  }

  lemma {:induction false} SendsExactly(source: Bytes, offset: nat, written: nat, wire: Bytes, progress: seq<nat>, rounds: seq<SendRound>)
    requires offset <= written <= |source| && wire == source[offset..written] && Counts(progress, offset, written)
    ensures SendOk(source, offset, Sends(source, written, wire, progress, rounds))
    decreases |rounds|
  {
    hide SendOk, Counts, WrittenAll;
    CountsMore(progress, offset, written, |source|);
    if written == |source| || rounds == [] || rounds[0].canceled {
      PrefixOk(source, offset, written, wire, progress, Sends(source, written, wire, progress, rounds).outcome);
    } else {
      var r := rounds[0];
      var n := Least(r.supplies, Least(BUFFER, |source| - written));
      PieceSent(source, offset, written, n, r.writes);
      var w := WrittenAll([], source[written..written + n], r.writes);
      if w.outcome != Done {
        PrefixOk(source, offset, written + |w.wire|, wire + w.wire, progress, w.outcome);
      } else {
        var reported := if n > 0 then progress + [written + n] else progress;
        CountsMore(progress, offset, written, written + n);
        if r.fails {
          CountsMore(reported, offset, written + n, |source|);
          PrefixOk(source, offset, written + n, wire + w.wire, reported, Failed);
        } else {
          SendsExactly(source, offset, written + n, wire + w.wire, reported, rounds[1..]);
        }
      }
    }
  }

  /** Whatever the fragmentation, the wire carries a prefix of the source from the offset on, all of it
      if the call succeeds, and progress is reported in strictly increasing counts. */
  lemma SendExact(source: Bytes, offset: int, total: int, rounds: seq<SendRound>)
    ensures var s := Send(source, offset, total, rounds);
            && (s.outcome != Failed ==> 0 <= offset <= total == |source|)
            && (0 <= offset <= |source| ==>
                  && Begins(s.wire, source[offset..])
                  && (s.outcome == Done ==> s.wire == source[offset..])
                  && Counts(s.progress, offset, |source|))
  {
    if 0 <= offset <= |source| && |source| == total {
      SendsExactly(source, offset, offset, [], [], rounds);
    }
  }

  /** All bytes that arrive, in order. */
  function Arriving(rounds: seq<ReceiveRound>): Bytes {
    if rounds == [] then [] else rounds[0].arrives + Arriving(rounds[1..])
  }

  predicate Acknowledges(acks: seq<Bytes>, progress: seq<nat>) {
    |acks| == |progress| && forall k :: 0 <= k < |acks| ==> acks[k] == Ack(progress[k])
  }

  /** Reads return at most what was asked for. */
  predicate Reads(have: nat, total: nat, rounds: seq<ReceiveRound>)
    requires have <= total
    decreases |rounds|
  {
    rounds == [] || have == total
    || (|rounds[0].arrives| <= Least(BUFFER, total - have) && Reads(have + |rounds[0].arrives|, total, rounds[1..]))
  }

  /** `r` is a good end of a call that holds `file` and still meets `arriving`. */
  predicate ReceiveOk(low: nat, file: Bytes, total: nat, arriving: Bytes, r: Receiving) {
    && Begins(file, r.file) && Begins(r.file, file + arriving) && |r.file| <= total
    && (r.outcome == Done ==> |r.file| == total)
    && Counts(r.progress, low, total) && Acknowledges(r.acks, r.progress)
    && (r.outcome == Done && |file| < total ==> r.progress != [] && r.progress[|r.progress| - 1] == total)
  }

  /** What held after one more piece held before it. */
  lemma ReceiveOkBefore(low: nat, file: Bytes, total: nat, piece: Bytes, rest: Bytes, r: Receiving)
    requires ReceiveOk(low, file + piece, total, rest, r) && |file + piece| <= total
    requires |file + piece| == total && r.outcome == Done && |file| < total ==> r.progress != [] && r.progress[|r.progress| - 1] == total
    ensures ReceiveOk(low, file, total, piece + rest, r)
  {
    hide Counts, Acknowledges;
    assert file + piece + rest == file + (piece + rest);
    assert r.file[..|file|] == r.file[..|file + piece|][..|file|] == file;
  }

  lemma PartOk(low: nat, file: Bytes, total: nat, piece: Bytes, rest: Bytes, kept: nat, acks: seq<Bytes>, progress: seq<nat>, outcome: Outcome)
    requires kept <= |piece| && |file| + kept <= total && outcome != Done
    requires Counts(progress, low, total) && Acknowledges(acks, progress)
    ensures ReceiveOk(low, file, total, piece + rest, Receiving(file + piece[..kept], acks, progress, outcome))
  {
    hide Counts, Acknowledges;
    assert (file + (piece + rest))[..|file| + kept] == file + piece[..kept];
  }

  lemma AcknowledgesMore(acks: seq<Bytes>, progress: seq<nat>, x: nat)
    requires Acknowledges(acks, progress)
    ensures Acknowledges(acks + [Ack(x)], progress + [x])
  {
  }

  /** A call that already holds everything reports what it reported. */
  lemma NothingMissing(file: Bytes, total: nat, acks: seq<Bytes>, progress: seq<nat>, rounds: seq<ReceiveRound>, ends: bool)
    requires |file| == total
    ensures Receives(file, total, acks, progress, rounds, ends) == Receiving(file, acks, progress, if ends then Done else Failed)
  {
  }

  lemma {:induction false} ReceivesExactly(low: nat, file: Bytes, total: nat, acks: seq<Bytes>, progress: seq<nat>, rounds: seq<ReceiveRound>, ends: bool)
    requires low <= |file| <= total && Counts(progress, low, |file|) && Acknowledges(acks, progress) && Reads(|file|, total, rounds)
    ensures ReceiveOk(low, file, total, Arriving(rounds), Receives(file, total, acks, progress, rounds, ends))
    decreases |rounds|, 1
  {
    CountsMore(progress, low, |file|, total);
    if |file| == total || rounds == [] || rounds[0].canceled {
    } else {
      var r := rounds[0];
      var rest := Arriving(rounds[1..]);
      var more := file + r.arrives;
      assert r.arrives[..|r.arrives|] == r.arrives;
      hide ReceiveOk, Counts, Acknowledges, WrittenAll, Begins;
      if r.arrives == [] {
        assert more == file;
        if r.fails {
          PartOk(low, file, total, r.arrives, rest, 0, acks, progress, Failed);
        } else {
          ReceivesExactly(low, file, total, acks, progress, rounds[1..], ends);
          assert r.arrives + rest == rest;
        }
      } else if r.kept < |r.arrives| {
        PartOk(low, file, total, r.arrives, rest, r.kept, acks, progress, Failed);
      } else {
        CountsMore(progress, low, |file|, |more|);
        AcknowledgesMore(acks, progress, |more|);
        Arrived(low, file, total, acks, progress, rounds, ends);
      }
    }
  }

  lemma {:induction false} Arrived(low: nat, file: Bytes, total: nat, acks: seq<Bytes>, progress: seq<nat>, rounds: seq<ReceiveRound>, ends: bool)
    requires low <= |file| < total && rounds != [] && !rounds[0].canceled && Reads(|file|, total, rounds)
    requires var r := rounds[0];
             var more := |file| + |r.arrives|;
             && r.arrives != [] && r.kept >= |r.arrives|
             && Counts(progress, low, total) && Acknowledges(acks, progress)
             && Counts(progress + [more], low, more) && Acknowledges(acks + [Ack(more)], progress + [more])
    ensures ReceiveOk(low, file, total, Arriving(rounds), Receives(file, total, acks, progress, rounds, ends))
    decreases |rounds|, 0
  {
    var r := rounds[0];
    var rest := Arriving(rounds[1..]);
    var more := file + r.arrives;
    assert r.arrives[..|r.arrives|] == r.arrives;
    CountsMore(progress + [|more|], low, |more|, total);
    hide ReceiveOk, Counts, Acknowledges, WrittenAll, Begins;
    var w := WrittenAll([], Ack(|more|), r.writes);
    if w.outcome != Done {
      PartOk(low, file, total, r.arrives, rest, |r.arrives|, acks, progress, w.outcome);
    } else if r.fails {
      PartOk(low, file, total, r.arrives, rest, |r.arrives|, acks + [Ack(|more|)], progress + [|more|], Failed);
    } else {
      if |more| == total {
        NothingMissing(more, total, acks + [Ack(|more|)], progress + [|more|], rounds[1..], ends);
      }
      ReceivesExactly(low, more, total, acks + [Ack(|more|)], progress + [|more|], rounds[1..], ends);
      ReceiveOkBefore(low, file, total, r.arrives, rest, Receives(more, total, acks + [Ack(|more|)], progress + [|more|], rounds[1..], ends));
    }
  }

  /** For every fragmentation, success leaves the old prefix followed by exactly the missing bytes, and
      acknowledges strictly increasing cumulative counts modulo 2^32 that end with the total; failure
      leaves the old prefix followed by some of what arrived. */
  lemma ReceiveExact(partial: Bytes, offset: nat, total: nat, rounds: seq<ReceiveRound>, ends: bool)
    requires |partial| == offset <= total && Reads(offset, total, rounds)
    ensures var r := Receive(partial, offset > 0, offset, total, rounds, ends);
            && Begins(partial, r.file) && Begins(r.file, partial + Arriving(rounds)) && |r.file| <= total
            && (r.outcome == Done ==> |r.file| == total && r.file == (partial + Arriving(rounds))[..total])
            && Counts(r.progress, offset, total) && Acknowledges(r.acks, r.progress)
            && (r.outcome == Done && offset < total ==> r.progress != [] && r.progress[|r.progress| - 1] == total)
  {
    ReceivesExactly(offset, partial, total, [], [], rounds, ends);
  }

  /** End to end: if the receiver reads, in whatever pieces, what the sender wrote from the same offset,
      and holds the source up to that offset, then success on its side means it holds the source. */
  lemma TransferDelivers(source: Bytes, offset: nat, sending: seq<SendRound>, rounds: seq<ReceiveRound>, ends: bool)
    requires offset <= |source| && Reads(offset, |source|, rounds)
    requires Begins(Arriving(rounds), Send(source, offset, |source|, sending).wire)
    ensures var r := Receive(source[..offset], offset > 0, offset, |source|, rounds, ends);
            Begins(r.file, source) && (r.outcome == Done ==> r.file == source)
  {
    SendExact(source, offset, |source|, sending);
    ReceiveExact(source[..offset], offset, |source|, rounds, ends);
    hide Send, Receive, Counts, Acknowledges, Reads, Arriving;
    var arrived := Arriving(rounds);
    assert arrived == source[offset..][..|arrived|];
    assert source[..offset] + arrived == source[..offset + |arrived|];
  }
}
