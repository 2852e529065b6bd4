/** When the copy loops succeed and when they fail, exactly, for every pattern of reads and writes. */
module DccTransportExact {
  import opened DccTransport

  // ---------------------------------------------------------------- writing one buffer

  /** What the first `k` calls took, if none was cut short by the end of the buffer. */
  function Taken(script: seq<Write>, k: nat): nat
    requires k <= |script|
  {
    if k == 0 then 0 else Taken(script, k - 1) + script[k - 1].taken
  }

  predicate NoneFails(script: seq<Write>, k: nat)
    requires k <= |script|
  {
    forall j :: 0 <= j < k ==> !script[j].fails
  }

  /** Enough calls in a row report no error to take all `n` bytes. */
  ghost predicate Accepts(script: seq<Write>, n: nat) {
    exists k: nat :: k <= |script| && NoneFails(script, k) && Taken(script, k) >= n
  }

  /** A call reports an error while bytes are left. */
  ghost predicate Breaks(script: seq<Write>, n: nat) {
    exists k: nat :: k < |script| && NoneFails(script, k) && script[k].fails && Taken(script, k) < n
  }

  lemma {:induction false} TakenShift(script: seq<Write>, k: nat)
    requires script != [] && k < |script|
    ensures Taken(script, k + 1) == script[0].taken + Taken(script[1..], k)
    decreases k
  {
    if k > 0 {
      TakenShift(script, k - 1);
    } else {
      assert Taken(script, 0) == 0;
    }
  }

  lemma NoneFailsShift(script: seq<Write>, k: nat)
    requires script != [] && k < |script|
    ensures NoneFails(script, k + 1) <==> !script[0].fails && NoneFails(script[1..], k)
  {
    if !script[0].fails && NoneFails(script[1..], k) {
      forall j | 0 <= j < k + 1 ensures !script[j].fails {
        assert j > 0 ==> script[j] == script[1..][j - 1];
      }
    }
    if NoneFails(script, k + 1) {
      forall j | 0 <= j < k ensures !script[1..][j].fails {
        assert script[1..][j] == script[j + 1];
      }
    }
  }

  lemma AcceptsNext(script: seq<Write>, n: nat)
    requires script != [] && n > 0
    ensures Accepts(script, n) <==> !script[0].fails && Accepts(script[1..], if script[0].taken < n then n - script[0].taken else 0)
    ensures Breaks(script, n) <==>
            script[0].fails || (script[0].taken < n && Breaks(script[1..], n - script[0].taken))
  {
    var rest := script[1..];
    var left := if script[0].taken < n then n - script[0].taken else 0;
    if Accepts(script, n) {
      var k: nat :| k <= |script| && NoneFails(script, k) && Taken(script, k) >= n;
      TakenShift(script, k - 1);
      NoneFailsShift(script, k - 1);
      assert k - 1 <= |rest| && Taken(rest, k - 1) >= left;
    }
    if !script[0].fails && Accepts(rest, left) {
      var k: nat :| k <= |rest| && NoneFails(rest, k) && Taken(rest, k) >= left;
      TakenShift(script, k);
      NoneFailsShift(script, k);
      assert k + 1 <= |script|;
    }
    BreaksNext(script, n);
  }

  lemma BreaksNext(script: seq<Write>, n: nat)
    requires script != [] && n > 0
    ensures Breaks(script, n) <==>
            script[0].fails || (script[0].taken < n && Breaks(script[1..], n - script[0].taken))
  {
    var rest := script[1..];
    if Breaks(script, n) && !script[0].fails {
      var k: nat :| k < |script| && NoneFails(script, k) && script[k].fails && Taken(script, k) < n;
      TakenShift(script, k - 1);
      NoneFailsShift(script, k - 1);
      assert rest[k - 1] == script[k];
      assert Breaks(rest, n - script[0].taken);
    }
    if script[0].fails {
      assert NoneFails(script, 0) && Taken(script, 0) == 0;
    } else if script[0].taken < n && Breaks(rest, n - script[0].taken) {
      var k: nat :| k < |rest| && NoneFails(rest, k) && rest[k].fails && Taken(rest, k) < n - script[0].taken;
      TakenShift(script, k);
      NoneFailsShift(script, k);
      assert script[k + 1] == rest[k];
    }
  }

  lemma NothingToWrite(script: seq<Write>)
    ensures Accepts(script, 0) && !Breaks(script, 0)
  {
    assert NoneFails(script, 0) && Taken(script, 0) == 0;
  }

  lemma NobodyWrites(n: nat)
    requires n > 0
    ensures !Accepts([], n) && !Breaks([], n)
  {
  }

  /** writeAll succeeds exactly if the calls take everything before one reports an error, and fails
      exactly if an error is reported while something is left. */
  lemma {:induction false} WriteOutcome(wire: Bytes, b: Bytes, script: seq<Write>)
    ensures WrittenAll(wire, b, script).outcome == Done <==> Accepts(script, |b|)
    ensures WrittenAll(wire, b, script).outcome == Failed <==> Breaks(script, |b|)
    decreases |script|
  {
    hide Accepts, Breaks;
    if b == [] {
      NothingToWrite(script);
    } else if script == [] {
      NobodyWrites(|b|);
    } else {
      AcceptsNext(script, |b|);
      var n := Least(script[0].taken, |b|);
      if !script[0].fails {
        WriteOutcome(wire + b[..n], b[n..], script[1..]);
        NothingToWrite(script[1..]);
      }
    }
  }

  lemma AcceptsOrBreaks(script: seq<Write>, n: nat)
    ensures !(Accepts(script, n) && Breaks(script, n))
  {
    if Accepts(script, n) && Breaks(script, n) {
      var k: nat :| k <= |script| && NoneFails(script, k) && Taken(script, k) >= n;
      var j: nat :| j < |script| && NoneFails(script, j) && script[j].fails && Taken(script, j) < n;
      TakenGrows(script, k, j);
    }
  }

  lemma {:induction false} TakenGrows(script: seq<Write>, k: nat, j: nat)
    requires k <= j <= |script|
    ensures Taken(script, k) <= Taken(script, j)
    decreases j
  {
    if k < j {
      TakenGrows(script, k, j - 1);
    }
  }

  // ---------------------------------------------------------------- loops over rounds

  /** A loop that counts down: what a round moves with so many bytes to go, when a round is fine, and
      when it ends the loop with an error. */
  datatype Loop<!R> = Loop(moves: (R, nat) -> nat, fine: (R, nat) -> bool, bad: (R, nat) -> bool)

  function Minus(left: nat, moved: nat): nat {
    if moved < left then left - moved else 0
  }

  /** Bytes still to go after the first `k` rounds. */
  function Left<R>(l: Loop<R>, rounds: seq<R>, left: nat, k: nat): nat
    requires k <= |rounds|
    decreases k
  {
    if k == 0 then left
    else
      var before := Left(l, rounds, left, k - 1);
      Minus(before, l.moves(rounds[k - 1], before))
  }

  /** The first `k` rounds are fine, with bytes to go before each. */
  predicate RunsWell<R>(l: Loop<R>, rounds: seq<R>, left: nat, k: nat)
    requires k <= |rounds|
  {
    forall j :: 0 <= j < k ==> Left(l, rounds, left, j) > 0 && l.fine(rounds[j], Left(l, rounds, left, j))
  }

  /** Fine rounds move everything. */
  ghost predicate Reaches<R>(l: Loop<R>, rounds: seq<R>, left: nat) {
    exists k: nat :: k <= |rounds| && RunsWell(l, rounds, left, k) && Left(l, rounds, left, k) == 0
  }

  predicate StopsAt<R>(l: Loop<R>, rounds: seq<R>, left: nat, k: nat) {
    && k < |rounds| && RunsWell(l, rounds, left, k)
    && Left(l, rounds, left, k) > 0 && l.bad(rounds[k], Left(l, rounds, left, k))
  }

  /** After fine rounds, with something left, comes one that ends the loop. */
  ghost predicate Stops<R>(l: Loop<R>, rounds: seq<R>, left: nat) {
    exists k: nat :: StopsAt(l, rounds, left, k)
  }

  lemma {:induction false} LeftShift<R>(l: Loop<R>, rounds: seq<R>, left: nat, k: nat)
    requires rounds != [] && k < |rounds|
    ensures Left(l, rounds, left, k + 1) == Left(l, rounds[1..], Minus(left, l.moves(rounds[0], left)), k)
    decreases k
  {
    if k > 0 {
      LeftShift(l, rounds, left, k - 1);
      assert rounds[1..][k - 1] == rounds[k];
    } else {
      assert Left(l, rounds, left, 0) == left;
    }
  }

  lemma RunsWellShift<R>(l: Loop<R>, rounds: seq<R>, left: nat, k: nat)
    requires rounds != [] && k < |rounds|
    ensures RunsWell(l, rounds, left, k + 1) <==>
            left > 0 && l.fine(rounds[0], left) && RunsWell(l, rounds[1..], Minus(left, l.moves(rounds[0], left)), k)
  {
    var rest, less := rounds[1..], Minus(left, l.moves(rounds[0], left));
    assert Left(l, rounds, left, 0) == left;
    forall j: nat | j < k ensures Left(l, rounds, left, j + 1) == Left(l, rest, less, j) && rounds[j + 1] == rest[j] {
      LeftShift(l, rounds, left, j);
    }
    hide Left, Minus;
    if RunsWell(l, rounds, left, k + 1) {
      assert Left(l, rounds, left, 0) > 0 && l.fine(rounds[0], Left(l, rounds, left, 0));
      forall j: nat | j < k ensures Left(l, rest, less, j) > 0 && l.fine(rest[j], Left(l, rest, less, j)) {
        assert Left(l, rounds, left, j + 1) > 0 && l.fine(rounds[j + 1], Left(l, rounds, left, j + 1));
      }
    }
    if left > 0 && l.fine(rounds[0], left) && RunsWell(l, rest, less, k) {
      forall j: nat | j < k + 1 ensures Left(l, rounds, left, j) > 0 && l.fine(rounds[j], Left(l, rounds, left, j)) {
        if j > 0 {
          assert Left(l, rest, less, j - 1) > 0 && l.fine(rest[j - 1], Left(l, rest, less, j - 1));
          assert Left(l, rounds, left, (j - 1) + 1) == Left(l, rest, less, j - 1);
        }
      }
    }
  }

  lemma ReachesNext<R>(l: Loop<R>, rounds: seq<R>, left: nat)
    requires rounds != [] && left > 0
    ensures Reaches(l, rounds, left) <==>
            l.fine(rounds[0], left) && Reaches(l, rounds[1..], Minus(left, l.moves(rounds[0], left)))
  {
    hide RunsWell;
    var rest, less := rounds[1..], Minus(left, l.moves(rounds[0], left));
    if Reaches(l, rounds, left) {
      var k: nat :| k <= |rounds| && RunsWell(l, rounds, left, k) && Left(l, rounds, left, k) == 0;
      LeftShift(l, rounds, left, k - 1);
      RunsWellShift(l, rounds, left, k - 1);
      assert k - 1 <= |rest|;
    }
    if l.fine(rounds[0], left) && Reaches(l, rest, less) {
      var k: nat :| k <= |rest| && RunsWell(l, rest, less, k) && Left(l, rest, less, k) == 0;
      LeftShift(l, rounds, left, k);
      RunsWellShift(l, rounds, left, k);
      assert k + 1 <= |rounds|;
    }
  }

  lemma StopsShift<R>(l: Loop<R>, rounds: seq<R>, left: nat, k: nat)
    requires rounds != [] && left > 0
    ensures StopsAt(l, rounds, left, k + 1) <==>
            l.fine(rounds[0], left) && StopsAt(l, rounds[1..], Minus(left, l.moves(rounds[0], left)), k)
  {
    hide RunsWell;
    if k + 1 < |rounds| {
      LeftShift(l, rounds, left, k);
      RunsWellShift(l, rounds, left, k);
      assert rounds[1..][k] == rounds[k + 1];
    }
  }

  lemma StopsNext<R>(l: Loop<R>, rounds: seq<R>, left: nat)
    requires rounds != [] && left > 0
    ensures Stops(l, rounds, left) <==>
            l.bad(rounds[0], left) || (l.fine(rounds[0], left) && Stops(l, rounds[1..], Minus(left, l.moves(rounds[0], left))))
  {
    var rest, less := rounds[1..], Minus(left, l.moves(rounds[0], left));
    assert StopsAt(l, rounds, left, 0) <==> l.bad(rounds[0], left) by {
      assert Left(l, rounds, left, 0) == left;
    }
    hide StopsAt;
    if Stops(l, rounds, left) {
      var k: nat :| StopsAt(l, rounds, left, k);
      if k > 0 {
        StopsShift(l, rounds, left, k - 1);
      }
    }
    if l.fine(rounds[0], left) && Stops(l, rest, less) {
      var k: nat :| StopsAt(l, rest, less, k);
      StopsShift(l, rounds, left, k);
    }
  }

  lemma {:induction false} LeftZero<R>(l: Loop<R>, rounds: seq<R>, k: nat)
    requires k <= |rounds|
    ensures Left(l, rounds, 0, k) == 0
    decreases k
  {
    if k > 0 {
      LeftZero(l, rounds, k - 1);
    }
  }

  lemma NothingLeft<R>(l: Loop<R>, rounds: seq<R>)
    ensures Reaches(l, rounds, 0) && !Stops(l, rounds, 0)
  {
    assert RunsWell(l, rounds, 0, 0) && Left(l, rounds, 0, 0) == 0;
    forall k: nat | k < |rounds| ensures Left(l, rounds, 0, k) == 0 {
      LeftZero(l, rounds, k);
    }
  }

  lemma NoRounds<R>(l: Loop<R>, left: nat)
    requires left > 0
    ensures !Reaches(l, [], left) && !Stops(l, [], left)
  {
    assert Left(l, [], left, 0) == left;
  }

  /** How much of `offered` bytes one round moves: no more than fit the buffer or are to go. */
  function Moved(offered: nat, left: nat): nat {
    var room := if left < 65536 then left else 65536;
    if offered < room then offered else room
  }

  // ---------------------------------------------------------------- sending

  /** A round is fine without a cancellation or an error, if its writes take what was read. It is bad
      with a cancellation, a failing write, or a failing read once its data was written. */
  ghost function SendLoop(): Loop<SendRound> {
    Loop((r: SendRound, left: nat) => Moved(r.supplies, left),
         (r: SendRound, left: nat) => !r.canceled && !r.fails && Accepts(r.writes, Moved(r.supplies, left)),
         (r: SendRound, left: nat) =>
           var n := Moved(r.supplies, left);
           r.canceled || Breaks(r.writes, n) || (r.fails && Accepts(r.writes, n)))
  }

  lemma {:induction false} SendsOutcome(source: Bytes, written: nat, wire: Bytes, progress: seq<nat>, rounds: seq<SendRound>)
    requires written <= |source|
    ensures var s := Sends(source, written, wire, progress, rounds);
            && (s.outcome == Done <==> Reaches(SendLoop(), rounds, |source| - written))
            && (s.outcome == Failed <==> Stops(SendLoop(), rounds, |source| - written))
    decreases |rounds|
  {
    hide Accepts, Breaks, WrittenAll, Reaches, Stops;
    var left := |source| - written;
    if left == 0 {
      NothingLeft(SendLoop(), rounds);
    } else if rounds == [] {
      NoRounds(SendLoop(), left);
    } else {
      ReachesNext(SendLoop(), rounds, left);
      StopsNext(SendLoop(), rounds, left);
      var r := rounds[0];
      var n := Least(r.supplies, Least(BUFFER, left));
      assert n == Moved(r.supplies, left);
      hide Moved, Least;
      var w := WrittenAll([], source[written..written + n], r.writes);
      WriteOutcome([], source[written..written + n], r.writes);
      AcceptsOrBreaks(r.writes, n);
      if !r.canceled && w.outcome == Done && !r.fails {
        SendsOutcome(source, written + n, wire + w.wire, if n > 0 then progress + [written + n] else progress, rounds[1..]);
      }
    }
  }

  /** sendFile succeeds exactly if offset and size are right and round after round moves data without a
      cancellation or an error until nothing is left. It fails exactly if offset or size are wrong or,
      with something left, a round is canceled or meets a failing write or read. */
  lemma SendOutcome(source: Bytes, offset: int, total: int, rounds: seq<SendRound>)
    ensures Send(source, offset, total, rounds).outcome == Done <==>
            0 <= offset <= total == |source| && Reaches(SendLoop(), rounds, total - offset)
    ensures Send(source, offset, total, rounds).outcome == Failed <==>
            !(0 <= offset <= total == |source|) || Stops(SendLoop(), rounds, total - offset)
  {
    hide Reaches, Stops, Sends;
    if 0 <= offset <= |source| && |source| == total {
      SendsOutcome(source, offset, [], [], rounds);
    }
  }

  // ---------------------------------------------------------------- receiving

  /** A round is fine without a cancellation or an error, if what arrived was kept and its four bytes of
      acknowledgement were taken. It is bad with a cancellation, a short file write, a failing
      acknowledgement, or a failing read once its data was acknowledged. */
  ghost function ReceiveLoop(): Loop<ReceiveRound> {
    Loop((r: ReceiveRound, left: nat) => Moved(|r.arrives|, left),
         (r: ReceiveRound, left: nat) =>
           var n := Moved(|r.arrives|, left);
           !r.canceled && !r.fails && (n > 0 ==> r.kept >= n && Accepts(r.writes, 4)),
         (r: ReceiveRound, left: nat) =>
           var n := Moved(|r.arrives|, left);
           || r.canceled
           || (n > 0 && (r.kept < n || Breaks(r.writes, 4)))
           || (r.fails && (n > 0 ==> Accepts(r.writes, 4))))
  }

  lemma {:induction false} ReceivesOutcome(file: Bytes, total: nat, acks: seq<Bytes>, progress: seq<nat>, rounds: seq<ReceiveRound>, ends: bool)
    requires |file| <= total
    ensures var r := Receives(file, total, acks, progress, rounds, ends);
            && (r.outcome == Done <==> ends && Reaches(ReceiveLoop(), rounds, total - |file|))
            && (r.outcome == Failed <==>
                (!ends && Reaches(ReceiveLoop(), rounds, total - |file|)) || Stops(ReceiveLoop(), rounds, total - |file|))
    decreases |rounds|
  {
    hide Accepts, Breaks, WrittenAll, Reaches, Stops;
    var left := total - |file|;
    if left == 0 {
      NothingLeft(ReceiveLoop(), rounds);
    } else if rounds == [] {
      NoRounds(ReceiveLoop(), left);
    } else {
      ReachesNext(ReceiveLoop(), rounds, left);
      StopsNext(ReceiveLoop(), rounds, left);
      var r := rounds[0];
      var n := Least(|r.arrives|, Least(BUFFER, left));
      assert n == Moved(|r.arrives|, left);
      hide Moved, Least;
      var more := file + r.arrives[..n];
      var w := WrittenAll([], Ack(|more|), r.writes);
      WriteOutcome([], Ack(|more|), r.writes);
      AcceptsOrBreaks(r.writes, 4);
      hide Ack;
      if !r.canceled && !r.fails {
        if n == 0 {
          ReceivesOutcome(file, total, acks, progress, rounds[1..], ends);
        } else if r.kept >= n && w.outcome == Done {
          ReceivesOutcome(more, total, acks + [Ack(|more|)], progress + [|more|], rounds[1..], ends);
        }
      }
    }
  }

  /** receiveFile succeeds exactly if the partial file is as long as the offset (and absent for offset
      zero), the final sync works, and round after round keeps and acknowledges data without a
      cancellation or an error until nothing is missing. It fails exactly if the partial file is
      wrong, the final sync fails with everything there, or a round goes wrong before. */
  lemma ReceiveOutcome(partial: Bytes, exists_: bool, offset: nat, total: nat, rounds: seq<ReceiveRound>, ends: bool)
    ensures var found := if exists_ then |partial| == offset > 0 else offset == 0;
            var r := Receive(partial, exists_, offset, total, rounds, ends);
            && (r.outcome == Done <==> found && ends && Reaches(ReceiveLoop(), rounds, Minus(total, offset)))
            && (r.outcome == Failed <==>
                || !found
                || (!ends && Reaches(ReceiveLoop(), rounds, Minus(total, offset)))
                || Stops(ReceiveLoop(), rounds, Minus(total, offset)))
  {
    hide Reaches, Stops, Receives;
    NothingLeft(ReceiveLoop(), rounds);
    var file: Bytes := if exists_ then partial else [];
    if |file| == offset <= total && !(offset == 0 && exists_) {
      ReceivesOutcome(file, total, [], [], rounds, ends);
    }
  }

  /** End to end, the other way round: if the sender's rounds are fine until nothing is left, the receiver
      reads what was written, in whatever pieces, and its rounds are fine until nothing is missing,
      then both sides succeed and the receiver holds the source. */
  lemma TransferSucceeds(source: Bytes, offset: nat, sending: seq<SendRound>, rounds: seq<ReceiveRound>)
    requires offset <= |source| && Reaches(SendLoop(), sending, |source| - offset)
    requires Reads(offset, |source|, rounds) && Begins(Arriving(rounds), Send(source, offset, |source|, sending).wire)
    requires Reaches(ReceiveLoop(), rounds, |source| - offset)
    ensures Send(source, offset, |source|, sending).outcome == Done
    ensures var r := Receive(source[..offset], offset > 0, offset, |source|, rounds, true);
            r.outcome == Done && r.file == source
  {
    hide Reaches, Stops, Send, Receive, Reads, Arriving, SendLoop, ReceiveLoop;
    SendOutcome(source, offset, |source|, sending);
    ReceiveOutcome(source[..offset], offset > 0, offset, |source|, rounds, true);
    TransferDelivers(source, offset, sending, rounds, true);
  }
}
