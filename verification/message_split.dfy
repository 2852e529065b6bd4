/** Splitting of outbound messages: internal/irc/splitmsg.go. Messages are bytes; UTF-8 is defined as
    in section 3 of RFC 3629, the line limit is that of section 2.3 of RFC 1459. */
module MessageSplit {
  type Byte = b: int | 0 <= b < 256
  type Bytes = seq<Byte>

  const SPACE: Byte := 32
  const CR: Byte := 13
  const LF: Byte := 10
  const UTF_MAX := 4

  // ---------------------------------------------------------------- UTF-8

  predicate RuneStart(b: Byte) {
    b < 0x80 || b >= 0xC0
  }

  predicate Tail(b: Byte) {
    0x80 <= b <= 0xBF
  }

  /** Length of the well-formed character at the front, 0 if there is none. */
  function RuneLength(s: Bytes): nat {
    if s == [] then 0
    else if s[0] < 0x80 then 1
    else if 0xC2 <= s[0] <= 0xDF then (if |s| >= 2 && Tail(s[1]) then 2 else 0)
    else if 0xE0 <= s[0] <= 0xEF then
      if |s| >= 3 && Tail(s[1]) && Tail(s[2]) && (s[0] == 0xE0 ==> s[1] >= 0xA0) && (s[0] == 0xED ==> s[1] <= 0x9F) then 3 else 0
    else if 0xF0 <= s[0] <= 0xF4 then
      if |s| >= 4 && Tail(s[1]) && Tail(s[2]) && Tail(s[3]) && (s[0] == 0xF0 ==> s[1] >= 0x90) && (s[0] == 0xF4 ==> s[1] <= 0x8F) then 4 else 0
    else 0
  }

  predicate Utf8(s: Bytes)
    decreases |s|
  {
    s == [] || (0 < RuneLength(s) <= |s| && Utf8(s[RuneLength(s)..]))
  }

  // ---------------------------------------------------------------- one line

  /** Position of the last character boundary at or before `i`, looking back as far as one character
      can reach; `max` if there is none. */
  function BoundaryFrom(s: Bytes, max: nat, i: nat): nat
    requires i <= max < |s|
  {
    if i > 0 && max - i < UTF_MAX then (if RuneStart(s[i]) then i else BoundaryFrom(s, max, i - 1)) else max
  }

  function Boundary(s: Bytes, max: nat): (cut: nat)
    requires 0 < max < |s|
    ensures 0 < cut <= max
  {
    BoundaryIsPositive(s, max, max);
    BoundaryFrom(s, max, max)
  }

  lemma BoundaryIsPositive(s: Bytes, max: nat, i: nat)
    requires i <= max < |s| && 0 < max
    ensures 0 < BoundaryFrom(s, max, i) <= max
  {
    if i > 0 && max - i < UTF_MAX && !RuneStart(s[i]) {
      BoundaryIsPositive(s, max, i - 1);
    }
  }

  method LastRuneBoundary(s: Bytes, max: nat) returns (cut: nat)
    requires 0 < max < |s|
    ensures cut == Boundary(s, max)
  {
    var i := max;
    while i > 0 && max - i < UTF_MAX
      invariant i <= max
      invariant BoundaryFrom(s, max, max) == BoundaryFrom(s, max, i)
    {
      if RuneStart(s[i]) {
        return i;
      }
      i := i - 1;
    }
    return max;
  }

  function LastSpace(s: Bytes): (k: int)
    ensures -1 <= k < |s|
    ensures k >= 0 ==> s[k] == SPACE
    ensures forall j :: k < j < |s| ==> s[j] != SPACE
  {
    if s == [] then -1 else if s[|s| - 1] == SPACE then |s| - 1 else LastSpace(s[..|s| - 1])
  }

  function TrimRight(s: Bytes): (r: Bytes)
    ensures |r| <= |s|
  {
    if s != [] && s[|s| - 1] == SPACE then TrimRight(s[..|s| - 1]) else s
  }

  function TrimLeft(s: Bytes): (r: Bytes)
    ensures |r| <= |s|
  {
    if s != [] && s[0] == SPACE then TrimLeft(s[1..]) else s
  }

  /** The first chunk of a line that is too long, and what is left of the line. */
  function FirstChunk(line: Bytes, max: nat): (Bytes, Bytes)
    requires 0 < max < |line|
  {
    var cut := Boundary(line, max);
    var sp := LastSpace(line[..cut]);
    if sp > 0 then (TrimRight(line[..sp]), TrimLeft(line[sp + 1..])) else (line[..cut], line[cut..])
  }

  function Chunks(line: Bytes, max: nat): seq<Bytes>
    requires 0 < max
    decreases |line|
  {
    if |line| > max then [FirstChunk(line, max).0] + Chunks(FirstChunk(line, max).1, max)
    else if line != [] then [line]
    else []
  }

  function Floor(maxBytes: int): nat {
    if maxBytes < UTF_MAX then UTF_MAX else maxBytes
  }

  method SplitLine(line: Bytes, maxBytes: int) returns (chunks: seq<Bytes>)
    ensures chunks == Chunks(line, Floor(maxBytes))
  {
    var max: nat := Floor(maxBytes);
    var rest := line;
    chunks := [];
    while |rest| > max
      invariant chunks + Chunks(rest, max) == Chunks(line, max)
      decreases |rest|
    {
      var cut := LastRuneBoundary(rest, max);
      var sp := LastSpace(rest[..cut]);
      var chunk: Bytes;
      ghost var was := rest;
      if sp > 0 {
        chunk := TrimRight(rest[..sp]);
        rest := TrimLeft(rest[sp + 1..]);
      } else {
        chunk := rest[..cut];
        rest := rest[cut..];
      }
      Regroup(chunks, was, max, chunk, rest);
      chunks := chunks + [chunk];
    }
    if rest != [] {
      chunks := chunks + [rest];
    }
  }

  lemma Regroup(chunks: seq<Bytes>, line: Bytes, max: nat, chunk: Bytes, rest: Bytes)
    requires 0 < max < |line| && FirstChunk(line, max) == (chunk, rest)
    ensures chunks + Chunks(line, max) == (chunks + [chunk]) + Chunks(rest, max)
  {
    hide FirstChunk;
    assert Chunks(line, max) == [chunk] + Chunks(rest, max);
    hide Chunks;
  }

  // ---------------------------------------------------------------- whole messages

  /** CR LF and lone CR become LF. */
  function Normalised(s: Bytes): Bytes
    decreases |s|
  {
    if s == [] then []
    else if |s| >= 2 && s[0] == CR && s[1] == LF then [LF] + Normalised(s[2..])
    else [if s[0] == CR then LF else s[0]] + Normalised(s[1..])
  }

  function Lines(s: Bytes): (r: seq<Bytes>)
    ensures r != []
  {
    if s == [] then [[]]
    else
      var rest := Lines(s[1..]);
      if s[0] == LF then [[]] + rest else [[s[0]] + rest[0]] + rest[1..]
  }

  function ChunksOf(lines: seq<Bytes>, max: nat): seq<Bytes>
    requires 0 < max
  {
    if lines == [] then [] else ChunksOf(lines[..|lines| - 1], max) + Chunks(lines[|lines| - 1], max)
  }

  function Split(message: Bytes, maxBytes: int): seq<Bytes> {
    ChunksOf(Lines(Normalised(message)), Floor(maxBytes))
  }

  method SplitOutboundMessage(message: Bytes, maxBytes: int) returns (chunks: seq<Bytes>)
    ensures chunks == Split(message, maxBytes)
  {
    var lines := Lines(Normalised(message));
    chunks := [];
    for i := 0 to |lines|
      invariant chunks == ChunksOf(lines[..i], Floor(maxBytes))
    {
      assert lines[..i + 1][..i] == lines[..i];
      if lines[i] != [] {
        var more := SplitLine(lines[i], maxBytes);
        chunks := chunks + more;
      }
    }
    assert lines[..|lines|] == lines;
  }

  // ---------------------------------------------------------------- the budget

  const FALLBACK_USER_HOST := 11 + 1 + 63
  const MIN_CHUNK := 64
  const DEFAULT_LINE := 512

  /** Overhead of the line as relayed: `:nick!user@host PRIVMSG target :` and CR LF. */
  function Overhead(nick: nat, userHost: nat, target: nat): nat {
    1 + nick + 1 + userHost + 1 + 8 + target + 2 + 2
  }

  /** maxMessageChunk. `lineLen` is what the server advertised, `host` what the roster knows; 0 if
      unknown. */
  function MaxChunk(lineLen: int, nick: nat, host: nat, target: nat): int {
    var line := if lineLen > 0 then lineLen else DEFAULT_LINE;
    var budget := line - Overhead(nick, if host != 0 then host else FALLBACK_USER_HOST, target);
    if budget < MIN_CHUNK then MIN_CHUNK else budget
  }
}
