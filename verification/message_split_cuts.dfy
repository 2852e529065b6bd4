/** Where messages are cut: at line breaks, then at the last space or character in reach of the budget,
    and how large the budget is. */
module MessageSplitCuts {
  import opened MessageSplit
  import opened MessageSplitLaws

  // ---------------------------------------------------------------- line breaks

  predicate IsBreak(b: Bytes) {
    b == [CR, LF] || b == [CR] || b == [LF]
  }

  function Assembled(lines: seq<Bytes>, breaks: seq<Bytes>): Bytes
    requires |lines| == |breaks| + 1
  {
    if breaks == [] then lines[0] else lines[0] + breaks[0] + Assembled(lines[1..], breaks[1..])
  }

  /** The message is these lines with these breaks between them: no line holds a CR or LF, and a CR
      directly followed by LF is one break. */
  predicate BrokenInto(message: Bytes, lines: seq<Bytes>, breaks: seq<Bytes>) {
    && |lines| == |breaks| + 1
    && Assembled(lines, breaks) == message
    && (forall k :: 0 <= k < |lines| ==> OneLine(lines[k]))
    && (forall k :: 0 <= k < |breaks| ==> IsBreak(breaks[k]))
    && (forall k :: 0 <= k < |breaks| - 1 ==> !(breaks[k] == [CR] && lines[k + 1] == [] && breaks[k + 1] == [LF]))
  }

  lemma OneByteMore(b: Byte, lines: seq<Bytes>, breaks: seq<Bytes>)
    requires |lines| == |breaks| + 1
    ensures Assembled([[b] + lines[0]] + lines[1..], breaks) == [b] + Assembled(lines, breaks)
  {
    var more := [[b] + lines[0]] + lines[1..];
    if breaks != [] {
      assert more[1..] == lines[1..];
      assert [b] + lines[0] + breaks[0] + Assembled(lines[1..], breaks[1..]) == [b] + (lines[0] + breaks[0] + Assembled(lines[1..], breaks[1..]));
    }
  }

  lemma OneBreakMore(b: Bytes, lines: seq<Bytes>, breaks: seq<Bytes>)
    requires |lines| == |breaks| + 1
    ensures Assembled([[]] + lines, [b] + breaks) == b + Assembled(lines, breaks)
  {
    var none: Bytes := [];
    assert ([none] + lines)[1..] == lines && ([b] + breaks)[1..] == breaks;
    assert none + b == b;
  }

  lemma BeginsWithBreak(lines: seq<Bytes>, breaks: seq<Bytes>)
    requires |lines| == |breaks| + 1 > 1 && lines[0] == [] && breaks[0] != []
    ensures Assembled(lines, breaks) != [] && Assembled(lines, breaks)[0] == breaks[0][0]
  {
    assert lines[0] + breaks[0] == breaks[0];
  }

  /** The message up to a break joins what the rest is broken into. */
  lemma BreakInFront(b: Bytes, rest: Bytes, lines: seq<Bytes>, breaks: seq<Bytes>)
    requires IsBreak(b) && BrokenInto(rest, lines, breaks) && (b == [CR] ==> rest == [] || rest[0] != LF)
    ensures BrokenInto(b + rest, [[]] + lines, [b] + breaks)
  {
    OneBreakMore(b, lines, breaks);
    var all, cuts := [[]] + lines, [b] + breaks;
    forall k | 0 <= k < |cuts| - 1 ensures !(cuts[k] == [CR] && all[k + 1] == [] && cuts[k + 1] == [LF]) {
      if k > 0 {
        assert cuts[k] == breaks[k - 1] && all[k + 1] == lines[k] && cuts[k + 1] == breaks[k];
      } else if lines[0] == [] {
        BeginsWithBreak(lines, breaks);
      }
    }
    assert forall k :: 0 < k < |all| ==> all[k] == lines[k - 1];
    assert forall k :: 0 < k < |cuts| ==> cuts[k] == breaks[k - 1];
    hide Assembled;
  }

  lemma ByteInFront(b: Byte, rest: Bytes, lines: seq<Bytes>, breaks: seq<Bytes>)
    requires b != CR && b != LF && BrokenInto(rest, lines, breaks)
    ensures BrokenInto([b] + rest, [[b] + lines[0]] + lines[1..], breaks)
  {
    OneByteMore(b, lines, breaks);
    var all := [[b] + lines[0]] + lines[1..];
    assert forall k :: 0 < k < |all| ==> all[k] == lines[k];
    hide Assembled;
  }

  /** The lines of a message are what stands between its line breaks. */
  lemma {:induction false} LinesBroken(message: Bytes) returns (breaks: seq<Bytes>)
    ensures BrokenInto(message, Lines(Normalised(message)), breaks)
    decreases |message|
  {
    if message == [] {
      breaks := [];
      assert Lines([]) == [[]];
    } else {
      var step: nat := if |message| >= 2 && message[0] == CR && message[1] == LF then 2 else 1;
      var rest := message[step..];
      assert message == message[..step] + rest;
      var later := LinesBroken(rest);
      var lines := Lines(Normalised(rest));
      if message[0] == CR || message[0] == LF {
        assert Normalised(message) == [LF] + Normalised(rest);
        assert Lines(Normalised(message)) == [[]] + lines by {
          assert Normalised(message)[1..] == Normalised(rest);
        }
        breaks := [message[..step]] + later;
        BreakInFront(message[..step], rest, lines, later);
      } else {
        assert Normalised(message) == [message[0]] + Normalised(rest);
        assert Lines(Normalised(message)) == [[message[0]] + lines[0]] + lines[1..] by {
          assert Normalised(message)[1..] == Normalised(rest);
        }
        breaks := later;
        ByteInFront(message[0], rest, lines, later);
      }
    }
  }

  /** These chunks are the line: the line itself if it fits, and else all of it but spaces. */
  predicate Holds(part: seq<Bytes>, line: Bytes, max: nat) {
    && Erased(Joined(part)) == Erased(line)
    && (line == [] ==> part == [])
    && (0 < |line| <= max ==> part == [line])
  }

  predicate LineAt(chunks: seq<Bytes>, line: Bytes, max: nat, begin: nat, end: nat) {
    begin <= end <= |chunks| && Holds(chunks[begin..end], line, max)
  }

  /** Positions among the chunks where each line begins and ends. */
  predicate CutsAt(chunks: seq<Bytes>, lines: seq<Bytes>, max: nat, cuts: seq<nat>) {
    && |cuts| == |lines| + 1 && cuts[0] == 0 && cuts[|lines|] == |chunks|
    && forall k {:trigger lines[k]} :: 0 <= k < |lines| ==> LineAt(chunks, lines[k], max, cuts[k], cuts[k + 1])
  }

  lemma {:induction false} ChunksLineByLine(lines: seq<Bytes>, max: nat) returns (cuts: seq<nat>)
    requires 0 < max
    ensures CutsAt(ChunksOf(lines, max), lines, max, cuts)
    decreases |lines|
  {
    if lines == [] {
      cuts := [0];
    } else {
      var n := |lines| - 1;
      var before := ChunksLineByLine(lines[..n], max);
      ChunksErased(lines[n], max);
      SmallLine(lines[n], max);
      assert Holds(Chunks(lines[n], max), lines[n], max);
      assert lines == lines[..n] + [lines[n]];
      hide Holds, Chunks;
      cuts := before + [|ChunksOf(lines, max)|];
      LineBehind(ChunksOf(lines[..n], max), Chunks(lines[n], max), lines[..n], lines[n], max, before);
    }
  }

  lemma LineBehind(front: seq<Bytes>, part: seq<Bytes>, lines: seq<Bytes>, line: Bytes, max: nat, cuts: seq<nat>)
    requires CutsAt(front, lines, max, cuts) && Holds(part, line, max)
    ensures CutsAt(front + part, lines + [line], max, cuts + [|front + part|])
  {
    hide Holds;
    var all, more := lines + [line], cuts + [|front + part|];
    assert (front + part)[|front|..] == part;
    forall k | 0 <= k < |all| ensures LineAt(front + part, all[k], max, more[k], more[k + 1]) {
      if k < |lines| {
        assert LineAt(front, lines[k], max, cuts[k], cuts[k + 1]);
        assert (front + part)[cuts[k]..cuts[k + 1]] == front[cuts[k]..cuts[k + 1]];
      } else {
        assert (front + part)[more[k]..more[k + 1]] == part;
      }
    }
  }

  lemma SmallLine(line: Bytes, max: nat)
    requires 0 < max
    ensures (line == [] ==> Chunks(line, max) == []) && (0 < |line| <= max ==> Chunks(line, max) == [line])
  {
  }

  /** Whole messages: the text between two line breaks goes out in its own messages, in order; a line
      that fits goes out as it is, an empty one not at all. */
  lemma LineByLine(message: Bytes, maxBytes: int) returns (lines: seq<Bytes>, breaks: seq<Bytes>, cuts: seq<nat>)
    ensures BrokenInto(message, lines, breaks)
    ensures CutsAt(Split(message, maxBytes), lines, Floor(maxBytes), cuts)
  {
    lines := Lines(Normalised(message));
    breaks := LinesBroken(message);
    cuts := ChunksLineByLine(lines, Floor(maxBytes));
  }

  // ---------------------------------------------------------------- inside a line

  /** A character begins at `k`, close enough to the budget. */
  predicate StartInReach(s: Bytes, max: nat, k: int) {
    0 < k <= max < |s| && max - k < UTF_MAX && RuneStart(s[k])
  }

  lemma {:induction false} BoundaryBack(s: Bytes, max: nat, i: nat)
    requires i <= max < |s| && 0 < max
    ensures var cut := BoundaryFrom(s, max, i);
            && ((exists k :: k <= i && StartInReach(s, max, k)) ==>
                  cut <= i && StartInReach(s, max, cut) && forall k :: cut < k <= i ==> !StartInReach(s, max, k))
            && ((forall k :: k <= i ==> !StartInReach(s, max, k)) ==> cut == max)
    decreases i
  {
    if i > 0 && max - i < UTF_MAX && !RuneStart(s[i]) {
      BoundaryBack(s, max, i - 1);
    }
    assert StartInReach(s, max, i) <==> i > 0 && max - i < UTF_MAX && RuneStart(s[i]);
  }

  /** The cut is at the last character that begins within reach, and at the budget if there is none. */
  lemma BoundaryExact(s: Bytes, max: nat)
    requires 0 < max < |s|
    ensures var cut := Boundary(s, max);
            if exists k :: StartInReach(s, max, k) then StartInReach(s, max, cut) && forall k :: cut < k ==> !StartInReach(s, max, k)
            else cut == max
  {
    BoundaryBack(s, max, max);
  }

  lemma {:induction false} TrimLeftFront(s: Bytes)
    ensures forall k :: 0 <= k < |s| - |TrimLeft(s)| ==> s[k] == SPACE
    ensures TrimLeft(s) != [] ==> TrimLeft(s)[0] != SPACE
    decreases |s|
  {
    if s != [] && s[0] == SPACE {
      TrimLeftFront(s[1..]);
    }
  }

  /** Where one cut falls. With a space before the cut (not in first place), the chunk is what stands
      before the last such space, the spaces around it disappear and nothing else; without one, the
      line is cut at the boundary and nothing disappears. */
  lemma CutExactly(line: Bytes, max: nat)
    requires 0 < max < |line|
    ensures var cut := Boundary(line, max);
            var c, r := FirstChunk(line, max).0, FirstChunk(line, max).1;
            if exists k :: 0 < k < cut && line[k] == SPACE then
              && |c| + |r| < |line| && c == line[..|c|] && r == line[|line| - |r|..]
              && (forall k :: |c| <= k < |line| - |r| ==> line[k] == SPACE)
              && (forall k :: |line| - |r| <= k < cut ==> line[k] != SPACE)
              && |c| < cut
              && (c != [] ==> c[|c| - 1] != SPACE) && (r != [] ==> r[0] != SPACE)
            else c == line[..cut] && r == line[cut..]
  {
    var cut := Boundary(line, max);
    var sp := LastSpace(line[..cut]);
    assert forall k :: 0 <= k < cut ==> line[..cut][k] == line[k];
    if sp > 0 {
      assert line[sp] == SPACE && forall k :: sp < k < cut ==> line[k] != SPACE;
      assert FirstChunk(line, max) == (TrimRight(line[..sp]), TrimLeft(line[sp + 1..]));
      hide TrimRight, TrimLeft, LastSpace, Boundary, FirstChunk;
      SpaceGone(line, sp);
    } else {
      assert FirstChunk(line, max) == (line[..cut], line[cut..]);
      assert forall k :: 0 < k < cut ==> line[k] != SPACE;
      hide TrimRight, TrimLeft, LastSpace, Boundary, FirstChunk;
    }
  }

  /** Trimming on both sides of a space. */
  lemma SpaceGone(line: Bytes, sp: nat)
    requires sp < |line| && line[sp] == SPACE
    ensures var c, r := TrimRight(line[..sp]), TrimLeft(line[sp + 1..]);
            && |c| <= sp && |r| < |line| - sp && c == line[..|c|] && r == line[|line| - |r|..]
            && (forall k :: |c| <= k < |line| - |r| ==> line[k] == SPACE)
            && (c != [] ==> c[|c| - 1] != SPACE) && (r != [] ==> r[0] != SPACE)
  {
    var left, right := line[..sp], line[sp + 1..];
    TrimRightPrefix(left);
    TrimRightEnds(left);
    TrimLeftSuffix(right);
    TrimLeftFront(right);
    hide TrimRight, TrimLeft;
    var c, r := TrimRight(left), TrimLeft(right);
    assert r == line[|line| - |r|..];
    forall k | |c| <= k < |line| - |r| ensures line[k] == SPACE {
      if k < sp {
        assert left[k] == line[k];
      } else if k > sp {
        assert right[k - sp - 1] == line[k];
      }
    }
  }

  // ---------------------------------------------------------------- the budget

  /** The budget is the largest that fits: unless the line limit leaves less than the minimum, a text is
      relayed within the limit, to a peer who sees the assumed user and host, iff it is no longer than
      the budget. */
  lemma BudgetExact(lineLen: int, host: nat, nick: Bytes, userHost: Bytes, target: Bytes, text: Bytes)
    requires |userHost| == if host != 0 then host else 75
    ensures var limit := if lineLen > 0 then lineLen else 512;
            var budget := MaxChunk(lineLen, |nick|, host, |target|);
            && budget >= 64
            && (|Relayed(nick, userHost, target, text)| - |text| + 64 <= limit ==>
                  (|Relayed(nick, userHost, target, text)| <= limit <==> |text| <= budget))
            && (|Relayed(nick, userHost, target, text)| - |text| + 64 > limit ==> budget == 64)
  {
  }

  // ---------------------------------------------------------------- what UTF-8 is

  /** A Unicode scalar value. */
  predicate Scalar(c: nat) {
    c <= 0x10FFFF && !(0xD800 <= c <= 0xDFFF)
  }

  function Encode(c: nat): Bytes
    requires Scalar(c)
  {
    if c < 0x80 then [c]
    else if c < 0x800 then [0xC0 + c / 0x40, 0x80 + c % 0x40]
    else if c < 0x1_0000 then [0xE0 + c / 0x1000, 0x80 + c / 0x40 % 0x40, 0x80 + c % 0x40]
    else [0xF0 + c / 0x4_0000, 0x80 + c / 0x1000 % 0x40, 0x80 + c / 0x40 % 0x40, 0x80 + c % 0x40]
  }

  function EncodeAll(cs: seq<nat>): Bytes
    requires Scalars(cs)
  {
    if cs == [] then [] else Encode(cs[0]) + EncodeAll(cs[1..])
  }

  lemma EncodedLength(c: nat, rest: Bytes)
    requires Scalar(c)
    ensures RuneLength(Encode(c) + rest) == |Encode(c)|
    ensures RuneStart(Encode(c)[0]) && forall k :: 0 < k < |Encode(c)| ==> !RuneStart(Encode(c)[k])
  {
    var s := Encode(c) + rest;
    assert s[0] == Encode(c)[0];
    if c >= 0x80 {
      assert s[1] == Encode(c)[1];
    }
    if 0x800 <= c {
      assert c / 0x40 / 0x40 == c / 0x1000;
    }
    if 0x1_0000 <= c {
      assert c / 0x1000 / 0x40 == c / 0x4_0000;
    }
  }

  /** The scalar value whose encoding stands in front. */
  lemma Decoded(s: Bytes) returns (c: nat)
    requires RuneLength(s) > 0
    ensures Scalar(c) && RuneLength(s) <= |s| && Encode(c) == s[..RuneLength(s)]
  {
    var n := RuneLength(s);
    if n == 1 {
      c := s[0];
    } else if n == 2 {
      c := Two(s[0] as int - 0xC0, s[1]);
    } else if n == 3 {
      c := DecodedThree(s);
    } else {
      c := DecodedFour(s);
    }
  }

  lemma DecodedThree(s: Bytes) returns (c: nat)
    requires RuneLength(s) == 3
    ensures Scalar(c) && 3 <= |s| && Encode(c) == s[..3]
  {
    var front := Two(s[0] as int - 0xE0, s[1]);
    c := Two(front, s[2]);
    hide Two;
    assert front == c / 0x40 && front / 0x40 == c / 0x1000;
  }

  lemma DecodedFour(s: Bytes) returns (c: nat)
    requires RuneLength(s) == 4
    ensures Scalar(c) && 4 <= |s| && Encode(c) == s[..4]
  {
    var front := Two(s[0] as int - 0xF0, s[1]);
    var middle := Two(front, s[2]);
    c := Two(middle, s[3]);
    hide Two;
    assert middle == c / 0x40 && front == c / 0x1000 && front / 0x40 == c / 0x4_0000;
  }

  /** Six bits more. */
  function Two(front: nat, last: Byte): (c: nat)
    requires Tail(last)
    ensures c / 0x40 == front && 0x80 + c % 0x40 == last
  {
    front * 0x40 + (last as int - 0x80)
  }

  predicate Scalars(cs: seq<nat>) {
    forall k :: 0 <= k < |cs| ==> Scalar(cs[k])
  }

  predicate Encodes(cs: seq<nat>, s: Bytes) {
    Scalars(cs) && EncodeAll(cs) == s
  }

  lemma EncodesMore(c: nat, cs: seq<nat>, s: Bytes)
    requires Scalar(c) && Encodes(cs, s)
    ensures Encodes([c] + cs, Encode(c) + s)
  {
    assert ([c] + cs)[1..] == cs;
  }

  lemma {:induction false} DecodesAll(s: Bytes) returns (cs: seq<nat>)
    requires Utf8(s)
    ensures Encodes(cs, s)
    decreases |s|
  {
    hide Utf8, RuneLength, Encode, Encodes, EncodeAll, Scalar, Scalars;
    if s == [] {
      cs := [];
      EncodesNothing();
    } else {
      Utf8Front(s);
      var n := RuneLength(s);
      var c := Decoded(s);
      var rest := DecodesAll(s[n..]);
      cs := [c] + rest;
      EncodesMore(c, rest, s[n..]);
      assert s[..n] + s[n..] == s;
    }
  }

  lemma EncodesNothing()
    ensures Encodes([], [])
  {
  }

  lemma Utf8Front(s: Bytes)
    requires Utf8(s) && s != []
    ensures 0 < RuneLength(s) <= |s| && Utf8(s[RuneLength(s)..])
  {
  }

  /** Well-formed text is what encodes some sequence of scalar values. */
  lemma Utf8Exactly(s: Bytes)
    ensures Utf8(s) <==> exists cs: seq<nat> :: Encodes(cs, s)
  {
    hide Utf8, Encodes, EncodeAll;
    if Utf8(s) {
      var cs := DecodesAll(s);
    } else if cs: seq<nat> :| Encodes(cs, s) {
      EncodesUtf8(cs, s);
    }
  }

  lemma EncodesUtf8(cs: seq<nat>, s: Bytes)
    requires Encodes(cs, s)
    ensures Utf8(s)
  {
    EncodedUtf8(cs);
  }

  lemma {:induction false} EncodedUtf8(cs: seq<nat>)
    requires Scalars(cs)
    ensures Utf8(EncodeAll(cs))
    decreases |cs|
  {
    if cs != [] {
      EncodedUtf8(cs[1..]);
      EncodedLength(cs[0], EncodeAll(cs[1..]));
      var s := EncodeAll(cs);
      assert s[|Encode(cs[0])|..] == EncodeAll(cs[1..]);
    }
  }
}
