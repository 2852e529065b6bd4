/** What every split of an outbound message guarantees. */
module MessageSplitLaws {
  import opened MessageSplit

  // ---------------------------------------------------------------- erasing separators

  predicate Separator(b: Byte) {
    b == SPACE || b == CR || b == LF
  }

  function Erased(s: Bytes): Bytes {
    if s == [] then [] else (if Separator(s[0]) then [] else [s[0]]) + Erased(s[1..])
  }

  function Joined(chunks: seq<Bytes>): Bytes {
    if chunks == [] then [] else chunks[0] + Joined(chunks[1..])
  }

  lemma {:induction false} ErasedAppend(a: Bytes, b: Bytes)
    ensures Erased(a + b) == Erased(a) + Erased(b)
    decreases |a|
  {
    if a == [] {
      assert a + b == b;
    } else {
      assert (a + b)[1..] == a[1..] + b;
      ErasedAppend(a[1..], b);
    }
  }

  lemma {:induction false} JoinedAppend(a: seq<Bytes>, b: seq<Bytes>)
    ensures Joined(a + b) == Joined(a) + Joined(b)
    decreases |a|
  {
    if a == [] {
      assert a + b == b;
    } else {
      assert (a + b)[1..] == a[1..] + b;
      JoinedAppend(a[1..], b);
    }
  }

  lemma {:induction false} TrimRightErased(s: Bytes)
    ensures Erased(TrimRight(s)) == Erased(s)
    decreases |s|
  {
    if s != [] && s[|s| - 1] == SPACE {
      var front := s[..|s| - 1];
      TrimRightErased(front);
      assert s == front + [SPACE];
      ErasedAppend(front, [SPACE]);
      assert Erased([SPACE]) == [];
    }
  }

  lemma {:induction false} TrimLeftErased(s: Bytes)
    ensures Erased(TrimLeft(s)) == Erased(s)
    decreases |s|
  {
    if s != [] && s[0] == SPACE {
      TrimLeftErased(s[1..]);
    }
  }

  lemma ErasedSeparator(b: Byte)
    ensures Separator(b) ==> Erased([b]) == []
    ensures !Separator(b) ==> Erased([b]) == [b]
  {
    assert [b][1..] == [];
    assert Erased([]) == [];
  }

  lemma SpaceErased(a: Bytes, c: Bytes)
    ensures Erased(a + [SPACE] + c) == Erased(a) + Erased(c)
  {
    hide Erased;
    ErasedAppend(a + [SPACE], c);
    ErasedAppend(a, [SPACE]);
    ErasedSeparator(SPACE);
    assert Erased(a) + [] == Erased(a);
  }

  lemma CutAtSpace(line: Bytes, sp: nat)
    requires sp < |line| && line[sp] == SPACE
    ensures Erased(TrimRight(line[..sp])) + Erased(TrimLeft(line[sp + 1..])) == Erased(line)
  {
    hide Erased, TrimRight, TrimLeft;
    var a, c := line[..sp], line[sp + 1..];
    TrimRightErased(a);
    TrimLeftErased(c);
    SpaceErased(a, c);
    assert line == a + [SPACE] + c;
  }

  lemma CutAnywhere(line: Bytes, cut: nat)
    requires cut <= |line|
    ensures Erased(line[..cut]) + Erased(line[cut..]) == Erased(line)
  {
    hide Erased;
    assert line == line[..cut] + line[cut..];
    ErasedAppend(line[..cut], line[cut..]);
  }

  lemma FirstChunkErased(line: Bytes, max: nat)
    requires 0 < max < |line|
    ensures Erased(FirstChunk(line, max).0) + Erased(FirstChunk(line, max).1) == Erased(line)
  {
    hide Erased, TrimRight, TrimLeft, Boundary;
    var cut := Boundary(line, max);
    var sp := LastSpace(line[..cut]);
    if sp > 0 {
      assert line[sp] == SPACE;
      CutAtSpace(line, sp);
    } else {
      CutAnywhere(line, cut);
    }
  }

  lemma {:induction false} ChunksErased(line: Bytes, max: nat)
    requires 0 < max
    ensures Erased(Joined(Chunks(line, max))) == Erased(line)
    decreases |line|
  {
    if |line| > max {
      var f := FirstChunk(line, max);
      FirstChunkErased(line, max);
      ChunksErased(f.1, max);
      assert ([f.0] + Chunks(f.1, max))[1..] == Chunks(f.1, max);
      ErasedAppend(f.0, Joined(Chunks(f.1, max)));
    } else if line != [] {
      assert Joined([line]) == line + Joined([]) == line;
    }
  }

  lemma {:induction false} ChunksOfErased(lines: seq<Bytes>, max: nat)
    requires 0 < max
    ensures Erased(Joined(ChunksOf(lines, max))) == Erased(Joined(lines))
    decreases |lines|
  {
    if lines != [] {
      var front, last := lines[..|lines| - 1], lines[|lines| - 1];
      ChunksOfErased(front, max);
      ChunksErased(last, max);
      JoinedAppend(ChunksOf(front, max), Chunks(last, max));
      ErasedAppend(Joined(ChunksOf(front, max)), Joined(Chunks(last, max)));
      assert lines == front + [last];
      JoinedAppend(front, [last]);
      assert Joined([last]) == last + Joined([]) == last;
      ErasedAppend(Joined(front), last);
    }
  }

  lemma {:induction false} LinesErased(s: Bytes)
    ensures Erased(Joined(Lines(s))) == Erased(s)
    decreases |s|
  {
    if s == [] {
      assert Joined([[]]) == [] + Joined([]);
    } else {
      LinesErased(s[1..]);
      var rest := Lines(s[1..]);
      assert s == [s[0]] + s[1..];
      ErasedAppend([s[0]], s[1..]);
      ErasedSeparator(s[0]);
      if s[0] == LF {
        JoinedFront([], rest);
        assert [] + Joined(rest) == Joined(rest) && [] + Erased(s[1..]) == Erased(s[1..]);
      } else {
        JoinedFront([s[0]] + rest[0], rest[1..]);
        JoinedFront(rest[0], rest[1..]);
        assert rest == [rest[0]] + rest[1..];
        hide Erased, Joined;
        assert Joined(Lines(s)) == [s[0]] + Joined(rest);
        ErasedAppend([s[0]], Joined(rest));
      }
      hide Erased, Joined;
    }
  }

  lemma JoinedFront(a: Bytes, rest: seq<Bytes>)
    ensures Joined([a] + rest) == a + Joined(rest)
  {
    assert ([a] + rest)[1..] == rest;
  }

  lemma {:induction false} NormalisedErased(s: Bytes)
    ensures Erased(Normalised(s)) == Erased(s)
    decreases |s|
  {
    if s != [] {
      if |s| >= 2 && s[0] == CR && s[1] == LF {
        NormalisedErased(s[2..]);
        assert s[1..][1..] == s[2..];
        assert ([LF] + Normalised(s[2..]))[1..] == Normalised(s[2..]);
      } else {
        NormalisedErased(s[1..]);
        var b: Byte := if s[0] == CR then LF else s[0];
        assert ([b] + Normalised(s[1..]))[1..] == Normalised(s[1..]);
      }
    }
  }

  // ---------------------------------------------------------------- every chunk

  ghost predicate Each(chunks: seq<Bytes>, p: Bytes -> bool) {
    forall k :: 0 <= k < |chunks| ==> p(chunks[k])
  }

  /** A property of lines that survives cutting holds of every chunk. */
  lemma {:induction false} EachChunk(line: Bytes, max: nat, p: Bytes -> bool, q: Bytes -> bool)
    requires 0 < max && p(line)
    requires forall l: Bytes :: p(l) && |l| > max ==> q(FirstChunk(l, max).0) && p(FirstChunk(l, max).1)
    requires forall l: Bytes :: p(l) && 0 < |l| <= max ==> q(l)
    ensures Each(Chunks(line, max), q)
    decreases |line|
  {
    if |line| > max {
      EachChunk(FirstChunk(line, max).1, max, p, q);
    }
  }

  lemma {:induction false} EachOfLines(lines: seq<Bytes>, max: nat, q: Bytes -> bool)
    requires 0 < max && forall k :: 0 <= k < |lines| ==> Each(Chunks(lines[k], max), q)
    ensures Each(ChunksOf(lines, max), q)
    decreases |lines|
  {
    if lines != [] {
      EachOfLines(lines[..|lines| - 1], max, q);
      assert Each(Chunks(lines[|lines| - 1], max), q);
    }
  }

  predicate OneLine(s: Bytes) {
    forall k :: 0 <= k < |s| ==> s[k] != CR && s[k] != LF
  }

  lemma {:induction false} TrimRightPrefix(s: Bytes)
    ensures |TrimRight(s)| <= |s| && TrimRight(s) == s[..|TrimRight(s)|]
    ensures forall k :: |TrimRight(s)| <= k < |s| ==> s[k] == SPACE
    decreases |s|
  {
    if s != [] && s[|s| - 1] == SPACE {
      TrimRightPrefix(s[..|s| - 1]);
    }
  }

  lemma {:induction false} TrimLeftSuffix(s: Bytes)
    ensures |TrimLeft(s)| <= |s| && TrimLeft(s) == s[|s| - |TrimLeft(s)|..]
    decreases |s|
  {
    if s != [] && s[0] == SPACE {
      TrimLeftSuffix(s[1..]);
    }
  }

  /** A first chunk is the front of the line and what is left is its end. */
  lemma FirstChunkParts(line: Bytes, max: nat)
    requires 0 < max < |line|
    ensures var f := FirstChunk(line, max);
            && |f.0| <= max && |f.1| < |line|
            && f.0 == line[..|f.0|] && f.1 == line[|line| - |f.1|..]
  {
    var cut := Boundary(line, max);
    var sp := LastSpace(line[..cut]);
    if sp > 0 {
      TrimRightPrefix(line[..sp]);
      TrimLeftSuffix(line[sp + 1..]);
    }
  }

  lemma {:induction false} LinesAreLines(s: Bytes)
    requires forall k :: 0 <= k < |s| ==> s[k] != CR
    ensures forall k :: 0 <= k < |Lines(s)| ==> OneLine(Lines(s)[k])
    decreases |s|
  {
    if s != [] {
      LinesAreLines(s[1..]);
    }
  }

  lemma {:induction false} NormalisedNoCr(s: Bytes)
    ensures forall k :: 0 <= k < |Normalised(s)| ==> Normalised(s)[k] != CR
    decreases |s|
  {
    if s != [] {
      if |s| >= 2 && s[0] == CR && s[1] == LF {
        NormalisedNoCr(s[2..]);
      } else {
        NormalisedNoCr(s[1..]);
      }
    }
  }

  /** Chunks stay within the budget, are single lines, and hold the message up to separators. */
  lemma SplitIsFaithful(message: Bytes, maxBytes: int)
    ensures forall k :: 0 <= k < |Split(message, maxBytes)| ==>
              |Split(message, maxBytes)[k]| <= Floor(maxBytes) && OneLine(Split(message, maxBytes)[k])
    ensures Erased(Joined(Split(message, maxBytes))) == Erased(message)
  {
    var max := Floor(maxBytes);
    var lines := Lines(Normalised(message));
    NormalisedNoCr(message);
    LinesAreLines(Normalised(message));
    forall k | 0 <= k < |lines| ensures Each(Chunks(lines[k], max), Fits(max)) {
      LineFits(lines[k], max);
    }
    EachOfLines(lines, max, Fits(max));
    ChunksOfErased(lines, max);
    LinesErased(Normalised(message));
    NormalisedErased(message);
    hide Erased, Joined, Lines, Normalised, ChunksOf, OneLine;
    assert forall k :: 0 <= k < |Split(message, maxBytes)| ==> Fits(max)(Split(message, maxBytes)[k]);
  }

  function Fits(max: nat): Bytes -> bool {
    (c: Bytes) => |c| <= max && OneLine(c)
  }

  lemma FirstChunkOneLine(line: Bytes, max: nat)
    requires 0 < max < |line| && OneLine(line)
    ensures var f := FirstChunk(line, max); |f.0| <= max && OneLine(f.0) && OneLine(f.1)
  {
    hide FirstChunk;
    FirstChunkParts(line, max);
    var n, m := |FirstChunk(line, max).0|, |FirstChunk(line, max).1|;
    OneLinePart(line, 0, n);
    assert line[0..n] == line[..n];
    OneLinePart(line, |line| - m, |line|);
    assert line[|line| - m..|line|] == line[|line| - m..];
    hide OneLine;
  }

  lemma OneLinePart(line: Bytes, i: nat, j: nat)
    requires OneLine(line) && i <= j <= |line|
    ensures OneLine(line[i..j])
  {
  }

  lemma LineFits(line: Bytes, max: nat)
    requires 0 < max && OneLine(line)
    ensures Each(Chunks(line, max), Fits(max))
  {
    hide FirstChunk, OneLine;
    forall l: Bytes | OneLine(l) && |l| > max ensures Fits(max)(FirstChunk(l, max).0) && OneLine(FirstChunk(l, max).1) {
      FirstChunkOneLine(l, max);
    }
    EachChunk(line, max, OneLine, Fits(max));
  }

  // ---------------------------------------------------------------- UTF-8 is never cut

  lemma RuneTails(s: Bytes, i: nat)
    requires i < RuneLength(s)
    ensures RuneLength(s) <= |s| && RuneLength(s) <= 4 && (RuneStart(s[i]) <==> i == 0)
  {
  }

  lemma RuneOfFront(s: Bytes, i: nat)
    requires RuneLength(s) <= i <= |s|
    ensures RuneLength(s[..i]) == RuneLength(s) || RuneLength(s) == 0
  {
  }

  /** Well-formed text may be cut wherever a character starts. */
  lemma {:induction false} CutUtf8(s: Bytes, i: nat)
    requires Utf8(s) && i <= |s| && (i < |s| ==> RuneStart(s[i]))
    ensures Utf8(s[..i]) && Utf8(s[i..])
    decreases |s|
  {
    if 0 < i {
      var n := RuneLength(s);
      if i < n {
        RuneTails(s, i);
        assert false;
      } else {
        CutUtf8(s[n..], i - n);
        RuneOfFront(s, i);
        assert s[..i][n..] == s[n..][..i - n];
        assert s[n..][i - n..] == s[i..];
      }
    } else {
      assert s[0..] == s;
    }
  }

  /** Among four neighbouring bytes of well-formed text one starts a character. */
  lemma {:induction false} StartNearby(s: Bytes, i: nat)
    requires Utf8(s) && i + 3 < |s|
    ensures exists k :: i <= k <= i + 3 && RuneStart(s[k])
    decreases |s|
  {
    var n := RuneLength(s);
    var t := s[n..];
    RuneTails(s, 0);
    assert Utf8(t);
    if i == 0 {
      assert RuneStart(s[0]);
    } else if i < n {
      StartsWithRune(t);
      assert s[n] == t[0];
    } else {
      StartNearby(t, i - n);
      var k :| i - n <= k <= i - n + 3 && RuneStart(t[k]);
      assert t[k] == s[n + k];
    }
  }

  lemma StartsWithRune(s: Bytes)
    requires Utf8(s) && s != []
    ensures RuneStart(s[0])
  {
    RuneTails(s, 0);
  }

  lemma {:induction false} BoundaryFinds(s: Bytes, max: nat, i: nat)
    requires UTF_MAX <= max < |s| && i <= max && max - i < UTF_MAX
    requires exists k :: max - 3 <= k <= i && RuneStart(s[k])
    ensures BoundaryFrom(s, max, i) <= i && RuneStart(s[BoundaryFrom(s, max, i)])
    decreases i
  {
    if !RuneStart(s[i]) {
      BoundaryFinds(s, max, i - 1);
    }
  }

  lemma {:induction false} TrimUtf8(s: Bytes)
    requires Utf8(s)
    ensures Utf8(TrimLeft(s)) && Utf8(TrimRight(s))
    decreases |s|
  {
    if s != [] && s[0] == SPACE {
      TrimUtf8(s[1..]);
    }
    if s != [] && s[|s| - 1] == SPACE {
      CutUtf8(s, |s| - 1);
      TrimUtf8(s[..|s| - 1]);
    }
  }

  lemma AfterSpace(s: Bytes)
    requires Utf8(s) && s != [] && s[0] == SPACE
    ensures Utf8(s[1..])
  {
  }

  lemma FirstChunkUtf8(line: Bytes, max: nat)
    requires UTF_MAX <= max < |line| && Utf8(line)
    ensures Utf8(FirstChunk(line, max).0) && Utf8(FirstChunk(line, max).1)
  {
    StartNearby(line, max - 3);
    BoundaryFinds(line, max, max);
    var cut := Boundary(line, max);
    CutUtf8(line, cut);
    var sp := LastSpace(line[..cut]);
    if sp > 0 {
      assert line[sp] == SPACE;
      CutUtf8(line, sp);
      AfterSpace(line[sp..]);
      assert line[sp..][1..] == line[sp + 1..];
      hide Utf8, Boundary, LastSpace;
      TrimUtf8(line[..sp]);
      TrimUtf8(line[sp + 1..]);
    }
  }

  lemma {:induction false} LinesUtf8(s: Bytes)
    requires Utf8(s)
    ensures forall k :: 0 <= k < |Lines(s)| ==> Utf8(Lines(s)[k])
    decreases |s|
  {
    if s != [] {
      var n := RuneLength(s);
      LinesUtf8(s[n..]);
      if s[0] != LF {
        LinesSkip(s, n);
        RuneBefore(s[..n], Lines(s[n..])[0], s);
      }
    }
  }

  lemma RuneBefore(rune: Bytes, more: Bytes, s: Bytes)
    requires Utf8(more) && 0 < RuneLength(s) <= |s| && rune == s[..RuneLength(s)]
    ensures Utf8(rune + more)
  {
    assert RuneLength(rune + more) == |rune|;
    assert (rune + more)[|rune|..] == more;
  }

  /** The first line goes on at least to the first line feed. */
  lemma {:induction false} LinesSkip(s: Bytes, n: nat)
    requires n <= |s| && (forall k :: 0 <= k < n ==> s[k] != LF)
    ensures Lines(s) == [s[..n] + Lines(s[n..])[0]] + Lines(s[n..])[1..]
    decreases n
  {
    var rest := Lines(s[n..]);
    if n == 0 {
      assert s[0..] == s && s[..0] + rest[0] == rest[0] && rest == [rest[0]] + rest[1..];
    } else {
      LinesSkip(s[1..], n - 1);
      assert s[1..][n - 1..] == s[n..];
      assert [s[0]] + (s[1..][..n - 1] + rest[0]) == s[..n] + rest[0];
    }
  }

  lemma {:induction false} NormalisedUtf8(s: Bytes)
    requires Utf8(s)
    ensures Utf8(Normalised(s))
    decreases |s|
  {
    if s != [] {
      var n := RuneLength(s);
      if n == 1 {
        NormalisedUtf8(s[1..]);
        if |s| >= 2 && s[0] == CR && s[1] == LF {
          assert RuneLength(s[1..]) == 1 && s[1..][1..] == s[2..];
          NormalisedUtf8(s[2..]);
          RuneBefore([LF], Normalised(s[2..]), [LF]);
        } else {
          var b: Byte := if s[0] == CR then LF else s[0];
          RuneBefore([b], Normalised(s[1..]), [b]);
        }
      } else {
        NormalisedUtf8(s[n..]);
        NormalisedSkip(s, n);
        RuneBefore(s[..n], Normalised(s[n..]), s);
      }
    }
  }

  lemma {:induction false} NormalisedSkip(s: Bytes, n: nat)
    requires n <= |s| && forall k :: 0 <= k < n ==> s[k] != CR
    ensures Normalised(s) == s[..n] + Normalised(s[n..])
    decreases n
  {
    if n == 0 {
      assert s[0..] == s;
    } else {
      NormalisedSkip(s[1..], n - 1);
      assert Normalised(s) == [s[0]] + Normalised(s[1..]);
      hide Normalised;
      assert s[1..][n - 1..] == s[n..];
      assert [s[0]] + s[1..][..n - 1] == s[..n];
      assert [s[0]] + (s[1..][..n - 1] + Normalised(s[n..])) == [s[0]] + s[1..][..n - 1] + Normalised(s[n..]);
    }
  }

  /** Well-formed text is only ever cut between characters. */
  lemma SplitKeepsUtf8(message: Bytes, maxBytes: int)
    requires Utf8(message)
    ensures forall k :: 0 <= k < |Split(message, maxBytes)| ==> Utf8(Split(message, maxBytes)[k])
  {
    var max := Floor(maxBytes);
    var lines := Lines(Normalised(message));
    NormalisedUtf8(message);
    LinesUtf8(Normalised(message));
    forall k | 0 <= k < |lines| ensures Each(Chunks(lines[k], max), Utf8) {
      LineUtf8(lines[k], max);
    }
    EachOfLines(lines, max, Utf8);
  }

  lemma LineUtf8(line: Bytes, max: nat)
    requires UTF_MAX <= max && Utf8(line)
    ensures Each(Chunks(line, max), Utf8)
  {
    hide FirstChunk, Utf8;
    forall l: Bytes | Utf8(l) && |l| > max ensures Utf8(FirstChunk(l, max).0) && Utf8(FirstChunk(l, max).1) {
      FirstChunkUtf8(l, max);
    }
    EachChunk(line, max, Utf8, Utf8);
  }

  // ---------------------------------------------------------------- empty chunks

  predicate SingleSpaced(s: Bytes) {
    forall k :: 0 <= k < |s| - 1 ==> s[k] != SPACE || s[k + 1] != SPACE
  }

  /** The one way to an empty chunk: everything before the last space in reach is spaces. */
  lemma FirstChunkEmpty(line: Bytes, max: nat)
    requires 0 < max < |line|
    ensures FirstChunk(line, max).0 == [] <==>
            var sp := LastSpace(line[..Boundary(line, max)]); sp > 0 && forall k :: 0 <= k < sp ==> line[k] == SPACE
  {
    var sp := LastSpace(line[..Boundary(line, max)]);
    if sp > 0 {
      TrimRightPrefix(line[..sp]);
      var kept := TrimRight(line[..sp]);
      if kept != [] {
        TrimRightEnds(line[..sp]);
        assert kept[|kept| - 1] == line[|kept| - 1];
      }
    }
  }

  lemma {:induction false} TrimRightEnds(s: Bytes)
    ensures TrimRight(s) != [] ==> TrimRight(s)[|TrimRight(s)| - 1] != SPACE
    decreases |s|
  {
    if s != [] && s[|s| - 1] == SPACE {
      TrimRightEnds(s[..|s| - 1]);
    }
  }

  lemma SingleSpacedChunk(line: Bytes, max: nat)
    requires 0 < max < |line| && SingleSpaced(line)
    ensures FirstChunk(line, max).0 != [] && SingleSpaced(FirstChunk(line, max).1)
  {
    hide FirstChunk, LastSpace, Boundary, SingleSpaced;
    FirstChunkEmpty(line, max);
    FirstChunkParts(line, max);
    SingleSpacedEnd(line, |FirstChunk(line, max).1|);
    var window := line[..Boundary(line, max)];
    var sp := LastSpace(window);
    if sp > 0 {
      assert window[sp] == line[sp];
      SpaceAfter(line, sp);
    }
  }

  lemma SingleSpacedEnd(line: Bytes, m: nat)
    requires SingleSpaced(line) && m <= |line|
    ensures SingleSpaced(line[|line| - m..])
  {
  }

  lemma SpaceAfter(line: Bytes, sp: nat)
    requires SingleSpaced(line) && 0 < sp < |line| && line[sp] == SPACE
    ensures line[sp - 1] != SPACE
  {
    assert line[sp - 1 + 1] == SPACE;
  }

  lemma LineNonEmpty(line: Bytes, max: nat)
    requires 0 < max && SingleSpaced(line)
    ensures Each(Chunks(line, max), NonEmpty)
  {
    hide FirstChunk, SingleSpaced;
    forall l: Bytes | SingleSpaced(l) && |l| > max ensures NonEmpty(FirstChunk(l, max).0) && SingleSpaced(FirstChunk(l, max).1) {
      SingleSpacedChunk(l, max);
    }
    EachChunk(line, max, SingleSpaced, NonEmpty);
  }

  predicate NonEmpty(c: Bytes) {
    c != []
  }

  /** No empty message is sent as long as no line has two adjacent spaces. */
  lemma SplitNonEmpty(message: Bytes, maxBytes: int)
    requires forall k :: 0 <= k < |Lines(Normalised(message))| ==> SingleSpaced(Lines(Normalised(message))[k])
    ensures forall k :: 0 <= k < |Split(message, maxBytes)| ==> Split(message, maxBytes)[k] != []
  {
    var max := Floor(maxBytes);
    var lines := Lines(Normalised(message));
    forall k | 0 <= k < |lines| ensures Each(Chunks(lines[k], max), NonEmpty) {
      LineNonEmpty(lines[k], max);
    }
    EachOfLines(lines, max, NonEmpty);
    assert forall k :: 0 <= k < |Split(message, maxBytes)| ==> NonEmpty(Split(message, maxBytes)[k]);
  }

  /** A line of letters with two adjacent spaces in it, placed by the budget. */
  function Spaced(max: nat): Bytes {
    Repeat(97, max) + [SPACE, SPACE] + Repeat(98, max)
  }

  function Repeat(b: Byte, n: nat): Bytes {
    seq(n, _ => b)
  }

  /** With any budget, two adjacent spaces produce an empty message somewhere: letters up to the budget,
      two spaces, and letters again give one. */
  lemma AdjacentSpacesCanEmpty(max: nat)
    requires UTF_MAX <= max
    ensures |Chunks(Spaced(max), max)| > 1 && Chunks(Spaced(max), max)[1] == []
  {
    var line := Spaced(max);
    HardCut(line, max);
    var rest := FirstChunk(line, max).1;
    assert rest == [SPACE, SPACE] + Repeat(98, max);
    SpaceCut(rest, max);
    FirstChunkEmpty(rest, max);
    assert Chunks(line, max) == [FirstChunk(line, max).0] + Chunks(rest, max);
    assert Chunks(rest, max) == [[]] + Chunks(FirstChunk(rest, max).1, max);
  }

  lemma HardCut(line: Bytes, max: nat)
    requires UTF_MAX <= max < |line| && RuneStart(line[max]) && forall k :: 0 <= k < max ==> line[k] != SPACE
    ensures FirstChunk(line, max) == (line[..max], line[max..])
  {
    assert Boundary(line, max) == max;
    NoSpace(line[..max]);
  }

  lemma {:induction false} NoSpace(s: Bytes)
    requires forall k :: 0 <= k < |s| ==> s[k] != SPACE
    ensures LastSpace(s) == -1
    decreases |s|
  {
    if s != [] {
      NoSpace(s[..|s| - 1]);
    }
  }

  lemma SpaceCut(rest: Bytes, max: nat)
    requires UTF_MAX <= max < |rest| && RuneStart(rest[max]) && rest[0] == rest[1] == SPACE && forall k :: 2 <= k < max ==> rest[k] != SPACE
    ensures LastSpace(rest[..Boundary(rest, max)]) == 1
  {
    assert Boundary(rest, max) == max;
    var window := rest[..max];
    assert window[1] == SPACE && forall k :: 2 <= k < |window| ==> window[k] != SPACE;
  }

  /** What is left of a line after each cut, the line itself first. */
  function Remainders(line: Bytes, max: nat): seq<Bytes>
    requires 0 < max
    decreases |line|
  {
    if |line| > max then (FirstChunkShorter(line, max); [line] + Remainders(FirstChunk(line, max).1, max)) else []
  }

  lemma FirstChunkShorter(line: Bytes, max: nat)
    requires 0 < max < |line|
    ensures |FirstChunk(line, max).1| < |line|
  {
    FirstChunkParts(line, max);
  }

  /** The last space in reach is behind nothing but spaces. */
  predicate OpensWithSpaces(line: Bytes, max: nat)
    requires 0 < max < |line|
  {
    var sp := LastSpace(line[..Boundary(line, max)]);
    sp > 0 && forall k :: 0 <= k < sp ==> line[k] == SPACE
  }

  ghost predicate SomeOpens(remainders: seq<Bytes>, max: nat)
    requires 0 < max
  {
    exists k :: 0 <= k < |remainders| && |remainders[k]| > max && OpensWithSpaces(remainders[k], max)
  }

  lemma {:induction false} LineEmptyExactly(line: Bytes, max: nat)
    requires 0 < max
    ensures [] in Chunks(line, max) <==> SomeOpens(Remainders(line, max), max)
    decreases |line|
  {
    if |line| > max {
      var f := FirstChunk(line, max);
      FirstChunkShorter(line, max);
      FirstChunkEmpty(line, max);
      LineEmptyExactly(f.1, max);
      var rest := Remainders(f.1, max);
      var all := Remainders(line, max);
      assert all == [line] + rest;
      hide FirstChunk, Remainders, OpensWithSpaces, LastSpace, Boundary;
      OpensFirst(line, rest, max);
    }
  }

  lemma OpensFirst(line: Bytes, rest: seq<Bytes>, max: nat)
    requires 0 < max < |line|
    ensures SomeOpens([line] + rest, max) <==> OpensWithSpaces(line, max) || SomeOpens(rest, max)
  {
    hide OpensWithSpaces;
    var all := [line] + rest;
    if SomeOpens(rest, max) {
      var k :| 0 <= k < |rest| && |rest[k]| > max && OpensWithSpaces(rest[k], max);
      assert all[k + 1] == rest[k];
    }
    if OpensWithSpaces(line, max) {
      assert all[0] == line;
    }
  }

  ghost predicate SomeLineOpens(lines: seq<Bytes>, max: nat)
    requires 0 < max
  {
    exists k :: 0 <= k < |lines| && SomeOpens(Remainders(lines[k], max), max)
  }

  lemma OneLineMore(front: seq<Bytes>, last: Bytes, max: nat)
    requires 0 < max
    ensures SomeLineOpens(front + [last], max) <==> SomeLineOpens(front, max) || SomeOpens(Remainders(last, max), max)
  {
    hide Remainders, SomeOpens;
    var all := front + [last];
    if SomeLineOpens(front, max) {
      var k :| 0 <= k < |front| && SomeOpens(Remainders(front[k], max), max);
      assert all[k] == front[k];
    }
    assert all[|front|] == last;
  }

  /** For whole messages: an empty message is sent exactly if somewhere on the way a remainder that is
      too long has its last space in reach behind nothing but spaces. */
  lemma {:induction false} LinesEmptyExactly(lines: seq<Bytes>, max: nat)
    requires 0 < max
    ensures [] in ChunksOf(lines, max) <==> SomeLineOpens(lines, max)
    decreases |lines|
  {
    if lines != [] {
      var n := |lines| - 1;
      LinesEmptyExactly(lines[..n], max);
      LineEmptyExactly(lines[n], max);
      OneLineMore(lines[..n], lines[n], max);
      assert lines == lines[..n] + [lines[n]];
      hide Remainders, SomeOpens, Chunks, SomeLineOpens;
    }
  }

  lemma SplitEmptyExactly(message: Bytes, maxBytes: int)
    ensures [] in Split(message, maxBytes) <==>
            SomeLineOpens(Lines(Normalised(message)), Floor(maxBytes))
  {
    LinesEmptyExactly(Lines(Normalised(message)), Floor(maxBytes));
  }

  // ---------------------------------------------------------------- the relayed line

  /** The line as other clients receive it. */
  function Relayed(nick: Bytes, userHost: Bytes, target: Bytes, text: Bytes): Bytes {
    var privmsg: Bytes := [80, 82, 73, 86, 77, 83, 71, SPACE];
    [58] + nick + [33] + userHost + [SPACE] + privmsg + target + [SPACE, 58] + text + [CR, LF]
  }

  /** Every chunk of a message fits the line limit once relayed, if the overhead leaves the minimal
      budget and the real user and host are no longer than assumed. */
  lemma RelayedFits(message: Bytes, lineLen: int, host: nat, nick: Bytes, userHost: Bytes, target: Bytes, k: nat)
    requires k < |Split(message, MaxChunk(lineLen, |nick|, host, |target|))|
    requires var assumed := if host != 0 then host else FALLBACK_USER_HOST;
             var limit := if lineLen > 0 then lineLen else DEFAULT_LINE;
             Overhead(|nick|, assumed, |target|) + MIN_CHUNK <= limit && |userHost| <= assumed
    ensures var chunk := Split(message, MaxChunk(lineLen, |nick|, host, |target|))[k];
            |Relayed(nick, userHost, target, chunk)| <= if lineLen > 0 then lineLen else DEFAULT_LINE
  {
    SplitIsFaithful(message, MaxChunk(lineLen, |nick|, host, |target|));
    hide Split;
  }

  const ACTION_OPEN: Bytes := [1, 65, 67, 84, 73, 79, 78, SPACE]
  const ACTION_CLOSE: Bytes := [1]

  /** The same for actions, whose wrapping is taken off the budget first. */
  lemma RelayedActionFits(message: Bytes, lineLen: int, host: nat, nick: Bytes, userHost: Bytes, target: Bytes, k: nat)
    requires k < |Split(message, MaxChunk(lineLen, |nick|, host, |target|) - 9)|
    requires var assumed := if host != 0 then host else FALLBACK_USER_HOST;
             var limit := if lineLen > 0 then lineLen else DEFAULT_LINE;
             Overhead(|nick|, assumed, |target|) + MIN_CHUNK <= limit && |userHost| <= assumed
    ensures var chunk := Split(message, MaxChunk(lineLen, |nick|, host, |target|) - 9)[k];
            |Relayed(nick, userHost, target, ACTION_OPEN + chunk + ACTION_CLOSE)| <= if lineLen > 0 then lineLen else DEFAULT_LINE
  {
    SplitIsFaithful(message, MaxChunk(lineLen, |nick|, host, |target|) - 9);
    hide Split;
  }
}
