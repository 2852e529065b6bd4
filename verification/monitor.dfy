/** Presence monitoring: sendInitialMonitor, MonitorSet and desiredMonitorState of
    internal/irc/client.go, on the case folding of internal/irc/spec.go. */
module Monitor {

  // ---------------------------------------------------------------- case folding

  datatype Mapping = Ascii | Rfc1459 | Strict | Unknown

  function FoldByte(m: Mapping, c: char): char {
    if 'A' <= c <= 'Z' then (c as int + 32) as char
    else if (m == Rfc1459 || m == Strict) && c == '[' then '{'
    else if (m == Rfc1459 || m == Strict) && c == ']' then '}'
    else if (m == Rfc1459 || m == Strict) && c == '\\' then '|'
    else if m == Rfc1459 && c == '~' then '^'
    else c
  }

  function Fold(m: Mapping, s: string): (r: string)
    ensures |r| == |s| && forall k :: 0 <= k < |s| ==> r[k] == FoldByte(m, s[k])
  {
    seq(|s|, k requires 0 <= k < |s| => FoldByte(m, s[k]))
  }

  /** The loop of casefold over its byte slice. */
  method CasefoldInPlace(m: Mapping, b: array<char>)
    modifies b
    ensures b[..] == Fold(m, old(b[..]))
  {
    for i := 0 to b.Length
      invariant forall k :: 0 <= k < i ==> b[k] == FoldByte(m, old(b[k]))
      invariant forall k :: i <= k < b.Length ==> b[k] == old(b[k])
    {
      var c := b[i];
      if 'A' <= c <= 'Z' {
        b[i] := (c as int + 32) as char;
      } else if (m == Rfc1459 || m == Strict) && c == '[' {
        b[i] := '{';
      } else if (m == Rfc1459 || m == Strict) && c == ']' {
        b[i] := '}';
      } else if (m == Rfc1459 || m == Strict) && c == '\\' {
        b[i] := '|';
      } else if m == Rfc1459 && c == '~' {
        b[i] := '^';
      }
    }
  }

  /** A folded name is its own key, so names can be looked up by keys of keys. */
  lemma FoldIdempotent(m: Mapping, s: string)
    ensures Fold(m, Fold(m, s)) == Fold(m, s)
  {
    assert forall k :: 0 <= k < |s| ==> FoldByte(m, FoldByte(m, s[k])) == FoldByte(m, s[k]);
  }

  // ---------------------------------------------------------------- the initial list

  /** `excluded` holds of the user's own nick and of service nicks. */
  predicate Desired(nick: string, excluded: string -> bool, isBuddy: bool, hasOpenPM: bool) {
    isBuddy || (hasOpenPM && !excluded(nick))
  }

  function Keys(m: Mapping, nicks: seq<string>): set<string> {
    set k | 0 <= k < |nicks| :: Fold(m, nicks[k])
  }

  function Added(m: Mapping, excluded: string -> bool, list: seq<string>, nick: string, isBuddy: bool): seq<string> {
    if Fold(m, nick) in Keys(m, list) || !Desired(nick, excluded, isBuddy, !isBuddy) then list else list + [nick]
  }

  /** The list after all of `nicks`, in order. */
  function AddedAll(m: Mapping, excluded: string -> bool, list: seq<string>, nicks: seq<string>, isBuddy: bool): seq<string> {
    if nicks == [] then list
    else Added(m, excluded, AddedAll(m, excluded, list, nicks[..|nicks| - 1], isBuddy), nicks[|nicks| - 1], isBuddy)
  }

  function Wanted(m: Mapping, excluded: string -> bool, buddies: seq<string>, open: seq<string>): seq<string> {
    AddedAll(m, excluded, AddedAll(m, excluded, [], buddies, true), open, false)
  }

  function Limited(list: seq<string>, limit: int): seq<string> {
    if limit > 0 && |list| > limit then list[..limit] else list
  }

  const CHUNK := 20

  /** The lists of the MONITOR lines. */
  function Lines(list: seq<string>): seq<seq<string>>
    decreases |list|
  {
    if list == [] then []
    else if |list| <= CHUNK then [list]
    else [list[..CHUNK]] + Lines(list[CHUNK..])
  }

  method SendInitialMonitor(m: Mapping, excluded: string -> bool, buddies: seq<string>, open: seq<string>, limit: int)
    returns (armed: set<string>, lines: seq<seq<string>>)
    ensures var list := Limited(Wanted(m, excluded, buddies, open), limit);
            armed == Keys(m, list) && lines == Lines(list)
  {
    hide AddedAll, Lines, Fold;
    var list, seen := AddEach(m, excluded, [], {}, buddies, true);
    list, seen := AddEach(m, excluded, list, seen, open, false);
    if limit > 0 && |list| > limit {
      list := list[..limit];
    }
    armed := {};
    for i := 0 to |list|
      invariant armed == Keys(m, list[..i])
    {
      assert list[..i + 1] == list[..i] + [list[i]];
      KeysMore(m, list[..i], list[i]);
      armed := armed + {Fold(m, list[i])};
    }
    assert list[..|list|] == list;
    lines := CutLines(list);
  }

  method AddEach(m: Mapping, excluded: string -> bool, list: seq<string>, seen: set<string>, nicks: seq<string>, isBuddy: bool)
    returns (all: seq<string>, keys: set<string>)
    requires seen == Keys(m, list)
    ensures all == AddedAll(m, excluded, list, nicks, isBuddy) && keys == Keys(m, all)
  {
    all, keys := list, seen;
    for i := 0 to |nicks|
      invariant all == AddedAll(m, excluded, list, nicks[..i], isBuddy) && keys == Keys(m, all)
    {
      assert nicks[..i + 1][..i] == nicks[..i];
      var key := Fold(m, nicks[i]);
      if key !in keys && Desired(nicks[i], excluded, isBuddy, !isBuddy) {
        KeysMore(m, all, nicks[i]);
        keys := keys + {key};
        all := all + [nicks[i]];
      }
    }
    assert nicks[..|nicks|] == nicks;
  }

  method CutLines(list: seq<string>) returns (lines: seq<seq<string>>)
    ensures lines == Lines(list)
  {
    lines := [];
    var i := 0;
    while i < |list|
      invariant 0 <= i <= |list|
      invariant lines + Lines(list[i..]) == Lines(list)
    {
      var end := i + CHUNK;
      if end > |list| {
        end := |list|;
      }
      LineCut(list, lines, i, end);
      lines := lines + [list[i..end]];
      i := end;
    }
  }

  /** One line more. */
  lemma LineCut(list: seq<string>, lines: seq<seq<string>>, i: nat, end: nat)
    requires i < end <= |list| && end == if i + CHUNK > |list| then |list| else i + CHUNK
    ensures lines + Lines(list[i..]) == (lines + [list[i..end]]) + Lines(list[end..])
  {
    var rest := list[i..];
    if end == |list| {
      assert list[end..] == [] && Lines([]) == [];
      assert rest == list[i..end];
      assert Lines(rest) == [rest];
    } else {
      assert rest[..CHUNK] == list[i..end] && rest[CHUNK..] == list[end..];
    }
    assert Lines(rest) == [list[i..end]] + Lines(list[end..]);
    hide Lines;
  }

  lemma KeysMore(m: Mapping, list: seq<string>, nick: string)
    ensures Keys(m, list + [nick]) == Keys(m, list) + {Fold(m, nick)}
  {
    var more := list + [nick];
    forall x ensures x in Keys(m, more) <==> x in Keys(m, list) + {Fold(m, nick)} {
      if x in Keys(m, list) {
        var k :| 0 <= k < |list| && Fold(m, list[k]) == x;
        assert more[k] == list[k];
      }
      if x == Fold(m, nick) {
        assert more[|list|] == nick;
      }
    }
  }

  predicate DistinctKeys(m: Mapping, list: seq<string>) {
    forall i, j :: 0 <= i < j < |list| ==> Fold(m, list[i]) != Fold(m, list[j])
  }

  /** Adding keeps what is there and adds new keys at the end. */
  lemma {:induction false} AddedAllAppends(m: Mapping, excluded: string -> bool, list: seq<string>, nicks: seq<string>, isBuddy: bool)
    requires DistinctKeys(m, list)
    ensures var all := AddedAll(m, excluded, list, nicks, isBuddy);
            DistinctKeys(m, all) && |list| <= |all| && all[..|list|] == list
    decreases |nicks|
  {
    if nicks != [] {
      var n := |nicks| - 1;
      AddedAllAppends(m, excluded, list, nicks[..n], isBuddy);
      var before := AddedAll(m, excluded, list, nicks[..n], isBuddy);
      if Fold(m, nicks[n]) !in Keys(m, before) {
        DistinctMore(m, before, nicks[n]);
      }
      hide DistinctKeys, Keys, Fold;
    }
  }

  lemma DistinctMore(m: Mapping, list: seq<string>, nick: string)
    requires DistinctKeys(m, list) && Fold(m, nick) !in Keys(m, list)
    ensures DistinctKeys(m, list + [nick])
  {
    hide Fold;
    assert forall k :: 0 <= k < |list| ==> Fold(m, list[k]) in Keys(m, list);
  }

  /** Somebody in the list has this key and is to be monitored. */
  predicate Names(m: Mapping, excluded: string -> bool, nicks: seq<string>, isBuddy: bool, key: string) {
    exists k :: 0 <= k < |nicks| && Fold(m, nicks[k]) == key && Desired(nicks[k], excluded, isBuddy, !isBuddy)
  }

  lemma NamesMore(m: Mapping, excluded: string -> bool, nicks: seq<string>, last: string, isBuddy: bool, key: string)
    ensures Names(m, excluded, nicks + [last], isBuddy, key) <==>
            Names(m, excluded, nicks, isBuddy, key) || (Fold(m, last) == key && Desired(last, excluded, isBuddy, !isBuddy))
  {
    var all := nicks + [last];
    if Names(m, excluded, nicks, isBuddy, key) {
      var k :| 0 <= k < |nicks| && Fold(m, nicks[k]) == key && Desired(nicks[k], excluded, isBuddy, !isBuddy);
      assert all[k] == nicks[k];
    }
    assert all[|nicks|] == last;
  }

  /** Adding covers exactly the keys that are there or wanted. */
  lemma {:induction false} AddedAllCovers(m: Mapping, excluded: string -> bool, list: seq<string>, nicks: seq<string>, isBuddy: bool, key: string)
    ensures key in Keys(m, AddedAll(m, excluded, list, nicks, isBuddy)) <==>
            key in Keys(m, list) || Names(m, excluded, nicks, isBuddy, key)
    decreases |nicks|
  {
    if nicks != [] {
      var n := |nicks| - 1;
      AddedAllCovers(m, excluded, list, nicks[..n], isBuddy, key);
      var before := AddedAll(m, excluded, list, nicks[..n], isBuddy);
      KeysMore(m, before, nicks[n]);
      NamesMore(m, excluded, nicks[..n], nicks[n], isBuddy, key);
      assert nicks == nicks[..n] + [nicks[n]];
      hide Names, Fold, Keys;
    }
  }

  /** What is wanted, exactly: each key once; buddies, then correspondents who are not excluded. */
  lemma WantedExactly(m: Mapping, excluded: string -> bool, buddies: seq<string>, open: seq<string>, key: string)
    ensures var list := Wanted(m, excluded, buddies, open);
            && DistinctKeys(m, list)
            && (key in Keys(m, list) <==>
                || (exists k :: 0 <= k < |buddies| && Fold(m, buddies[k]) == key)
                || (exists k :: 0 <= k < |open| && Fold(m, open[k]) == key && !excluded(open[k])))
  {
    var first := AddedAll(m, excluded, [], buddies, true);
    AddedAllAppends(m, excluded, [], buddies, true);
    AddedAllAppends(m, excluded, first, open, false);
    AddedAllCovers(m, excluded, [], buddies, true, key);
    AddedAllCovers(m, excluded, first, open, false, key);
    hide AddedAll, Fold;
    assert Names(m, excluded, buddies, true, key) <==> exists k :: 0 <= k < |buddies| && Fold(m, buddies[k]) == key;
    assert Names(m, excluded, open, false, key) <==> exists k :: 0 <= k < |open| && Fold(m, open[k]) == key && !excluded(open[k]);
  }

  /** The part of the list before the correspondents names buddies only. */
  lemma FirstAreBuddies(m: Mapping, excluded: string -> bool, buddies: seq<string>, k: nat)
    requires k < |AddedAll(m, excluded, [], buddies, true)|
    ensures Fold(m, AddedAll(m, excluded, [], buddies, true)[k]) in Keys(m, buddies)
  {
    var first := AddedAll(m, excluded, [], buddies, true);
    var key := Fold(m, first[k]);
    assert key in Keys(m, first);
    AddedAllCovers(m, excluded, [], buddies, true, key);
    var b :| 0 <= b < |buddies| && Fold(m, buddies[b]) == key;
  }

  /** Buddies win the slots: if anybody is armed who is no buddy, every buddy is armed. */
  lemma BuddiesFirst(m: Mapping, excluded: string -> bool, buddies: seq<string>, open: seq<string>, limit: int, k: nat, j: nat)
    requires var armed := Limited(Wanted(m, excluded, buddies, open), limit);
             k < |armed| && Fold(m, armed[k]) !in Keys(m, buddies)
    requires j < |buddies|
    ensures Fold(m, buddies[j]) in Keys(m, Limited(Wanted(m, excluded, buddies, open), limit))
  {
    var first := AddedAll(m, excluded, [], buddies, true);
    var list := Wanted(m, excluded, buddies, open);
    var armed := Limited(list, limit);
    AddedAllAppends(m, excluded, [], buddies, true);
    AddedAllAppends(m, excluded, first, open, false);
    AddedAllCovers(m, excluded, [], buddies, true, Fold(m, buddies[j]));
    assert Desired(buddies[j], excluded, true, false);
    hide AddedAll, Fold;
    assert forall i :: 0 <= i < |first| && i < |armed| ==> armed[i] == list[..|first|][i] == first[i];
    if k < |first| {
      FirstAreBuddies(m, excluded, buddies, k);
    }
    assert |first| <= k;
    var i :| 0 <= i < |first| && Fold(m, first[i]) == Fold(m, buddies[j]);
    assert armed[i] == first[i];
  }

  function Concat(lines: seq<seq<string>>): seq<string> {
    if lines == [] then [] else lines[0] + Concat(lines[1..])
  }

  /** The lines name the whole list in order, at most twenty nicks each. */
  lemma {:induction false} LinesConcat(list: seq<string>)
    ensures Concat(Lines(list)) == list
    ensures forall k :: 0 <= k < |Lines(list)| ==> 0 < |Lines(list)[k]| <= CHUNK
    decreases |list|
  {
    if |list| > CHUNK {
      LinesConcat(list[CHUNK..]);
      assert ([list[..CHUNK]] + Lines(list[CHUNK..]))[1..] == Lines(list[CHUNK..]);
    } else if list != [] {
      assert Concat([list]) == list + Concat([]);
    }
  }

  // ---------------------------------------------------------------- later changes

  class Armed {
    var armed: set<string>
    const limit: int
    const mapping: Mapping

    ghost predicate Valid()
      reads this
    {
      limit > 0 ==> |armed| <= limit
    }

    constructor (m: Mapping, limit: int)
      ensures armed == {} && this.limit == limit && mapping == m && Valid()
    {
      armed, this.limit, mapping := {}, limit, m;
    }

    /** MonitorSet; `sent` is the line that goes out: +1 adds, -1 removes, 0 nothing. */
    method Set(nick: string, on: bool) returns (sent: int)
      requires Valid()
      modifies this`armed
      ensures Valid()
      ensures armed == SetTo(old(armed), Fold(mapping, nick), nick, on, limit)
      ensures sent == if armed == old(armed) then 0 else if on then 1 else -1
    {
      if nick == "" {
        return 0;
      }
      var key := Fold(mapping, nick);
      var isArmed := key in armed;
      var atLimit := limit > 0 && |armed| >= limit;
      if on == isArmed {
        return 0;
      }
      if on {
        if atLimit {
          return 0;
        }
        armed := armed + {key};
        assert key in armed && key !in old(armed);
        return 1;
      }
      armed := armed - {key};
      assert key !in armed && key in old(armed);
      assert old(armed) == armed + {key};
      return -1;
    }
  }

  function SetTo(armed: set<string>, key: string, nick: string, on: bool, limit: int): set<string> {
    if nick == "" then armed
    else if !on then armed - {key}
    else if limit > 0 && |armed| >= limit then armed
    else armed + {key}
  }

  datatype Request = Request(nick: string, on: bool)

  function SetAll(m: Mapping, armed: set<string>, requests: seq<Request>, limit: int): set<string> {
    if requests == [] then armed
    else
      var r := requests[|requests| - 1];
      SetTo(SetAll(m, armed, requests[..|requests| - 1], limit), Fold(m, r.nick), r.nick, r.on, limit)
  }

  lemma SizeUnderLimit(armed: set<string>, key: string, limit: int)
    requires limit > 0 && |armed| <= limit
    ensures |armed - {key}| <= limit && (|armed| < limit ==> |armed + {key}| <= limit)
  {
    if key in armed {
      assert armed == (armed - {key}) + {key};
      assert armed + {key} == armed;
    } else {
      assert armed - {key} == armed;
    }
  }

  /** After connecting and any number of later changes the armed set is within the server's limit. */
  lemma {:induction false} ArmedWithinLimit(m: Mapping, excluded: string -> bool, buddies: seq<string>, open: seq<string>, limit: int, requests: seq<Request>)
    requires limit > 0
    ensures |SetAll(m, Keys(m, Limited(Wanted(m, excluded, buddies, open), limit)), requests, limit)| <= limit
    decreases |requests|
  {
    if requests == [] {
      KeysAtMost(m, Limited(Wanted(m, excluded, buddies, open), limit));
    } else {
      ArmedWithinLimit(m, excluded, buddies, open, limit, requests[..|requests| - 1]);
      var r := requests[|requests| - 1];
      SizeUnderLimit(SetAll(m, Keys(m, Limited(Wanted(m, excluded, buddies, open), limit)), requests[..|requests| - 1], limit), Fold(m, r.nick), limit);
    }
  }

  lemma {:induction false} KeysAtMost(m: Mapping, list: seq<string>)
    ensures |Keys(m, list)| <= |list|
    decreases |list|
  {
    if list == [] {
      assert Keys(m, list) == {};
    } else {
      var n := |list| - 1;
      KeysAtMost(m, list[..n]);
      assert list == list[..n] + [list[n]];
      KeysMore(m, list[..n], list[n]);
    }
  }

  // ---------------------------------------------------------------- exactly who is armed

  lemma {:induction false} KeysCount(m: Mapping, list: seq<string>)
    requires DistinctKeys(m, list)
    ensures |Keys(m, list)| == |list|
    decreases |list|
  {
    if list == [] {
      assert Keys(m, list) == {};
    } else {
      var n := |list| - 1;
      KeysCount(m, list[..n]);
      assert list == list[..n] + [list[n]];
      KeysMore(m, list[..n], list[n]);
      assert Fold(m, list[n]) !in Keys(m, list[..n]);
    }
  }

  /** As many are armed as the limit allows: the first of the wanted list, all of it without a limit. */
  lemma ArmedExactly(m: Mapping, excluded: string -> bool, buddies: seq<string>, open: seq<string>, limit: int)
    ensures var list := Wanted(m, excluded, buddies, open);
            var n := if 0 < limit < |list| then limit else |list|;
            Limited(list, limit) == list[..n] && |Keys(m, Limited(list, limit))| == n
  {
    var first := AddedAll(m, excluded, [], buddies, true);
    AddedAllAppends(m, excluded, [], buddies, true);
    AddedAllAppends(m, excluded, first, open, false);
    KeysCount(m, Limited(Wanted(m, excluded, buddies, open), limit));
    hide AddedAll, Fold;
  }

  /** A later request: off always takes effect; on does, for a name, unless the limit is reached; nobody
      else is affected. */
  lemma SetExactly(armed: set<string>, key: string, nick: string, on: bool, limit: int, other: string)
    ensures var r := SetTo(armed, key, nick, on, limit);
            && (nick != "" && !on ==> key !in r)
            && (nick != "" && on ==> (key in r <==> key in armed || limit <= 0 || |armed| < limit))
            && (nick == "" ==> (key in r <==> key in armed))
            && (other != key ==> (other in r <==> other in armed))
  {
  }

  /** `y` is the lower-case form of `x`: letters, and the brackets that some servers count as letters. */
  predicate LowerOf(m: Mapping, x: char, y: char) {
    || ('A' <= x <= 'Z' && y as int == x as int + 32)
    || ((m == Rfc1459 || m == Strict) && ((x == '[' && y == '{') || (x == ']' && y == '}') || (x == '\\' && y == '|')))
    || (m == Rfc1459 && x == '~' && y == '^')
  }

  /** Two names have one key exactly if they agree up to case, character by character. */
  lemma SameKeyExactly(m: Mapping, a: string, b: string)
    ensures Fold(m, a) == Fold(m, b) <==>
            |a| == |b| && forall k :: 0 <= k < |a| ==> a[k] == b[k] || LowerOf(m, a[k], b[k]) || LowerOf(m, b[k], a[k])
  {
    forall x: char, y: char ensures FoldByte(m, x) == FoldByte(m, y) <==> x == y || LowerOf(m, x, y) || LowerOf(m, y, x) {
    }
    if Fold(m, a) == Fold(m, b) {
      forall k | 0 <= k < |a| ensures FoldByte(m, a[k]) == FoldByte(m, b[k]) {
        assert Fold(m, a)[k] == Fold(m, b)[k];
      }
    }
  }
}
