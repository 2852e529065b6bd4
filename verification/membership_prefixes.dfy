/** Membership prefixes of channel users: parsePREFIX, applyUserPrefix and splitMembershipPrefixes of
    internal/irc/client.go. A user's prefixes are stored as a string, highest privilege first. */
module MembershipPrefixes {

  /** What PREFIX tells: prefix characters by rank, and the mode letter each stands for. */
  datatype Prefixes = Prefixes(rank: seq<char>, letters: map<char, char>)

  function Find(s: string, c: char): (k: int)
    ensures -1 <= k < |s|
    ensures k >= 0 ==> s[k] == c && c !in s[..k]
    ensures k < 0 ==> c !in s
  {
    if s == "" then -1
    else if s[0] == c then 0
    else
      var k := Find(s[1..], c);
      assert k >= 0 ==> s[..k + 1] == [s[0]] + s[1..][..k];
      if k < 0 then -1 else k + 1
  }

  /** Prefix characters paired with mode letters, left to right; a later pair replaces an earlier one. */
  function Paired(modes: string, chars: string): map<char, char> {
    var n := if |modes| < |chars| then |modes| else |chars|;
    if n == 0 then map[] else Paired(modes[..n - 1], chars[..n - 1])[chars[n - 1] := modes[n - 1]]
  }

  /** parsePREFIX together with prefixRank. */
  function Parse(value: string): Prefixes {
    var close := Find(value, ')');
    var rank := if close >= 0 then value[close + 1..] else "";
    var left := Find(value, '(');
    if left < 0 then Prefixes(rank, map[])
    else
      var right := Find(value[left..], ')');
      if right < 0 then Prefixes(rank, map[])
      else Prefixes(rank, Paired(value[left + 1..left + right], value[left + right + 1..]))
  }

  method ParsePrefix(value: string) returns (p: Prefixes)
    ensures p == Parse(value)
  {
    hide Find, Paired;
    var close := Find(value, ')');
    var rank := if close >= 0 then value[close + 1..] else "";
    var left := Find(value, '(');
    if left < 0 {
      return Prefixes(rank, map[]);
    }
    var tail := value[left..];
    var right := Find(tail, ')');
    if right < 0 {
      return Prefixes(rank, map[]);
    }
    var modes, chars := value[left + 1..left + right], value[left + right + 1..];
    var letters := Pair(modes, chars);
    return Prefixes(rank, letters);
  }

  method Pair(modes: string, chars: string) returns (letters: map<char, char>)
    ensures letters == Paired(modes, chars)
  {
    letters := map[];
    var i := 0;
    while i < |modes| && i < |chars|
      invariant 0 <= i <= |modes| && i <= |chars|
      invariant letters == Paired(modes[..i], chars[..i])
    {
      assert modes[..i + 1][..i] == modes[..i] && chars[..i + 1][..i] == chars[..i];
      letters := letters[chars[i] := modes[i]];
      i := i + 1;
    }
    PairedShorter(modes, chars, i);
  }

  lemma PairedShorter(modes: string, chars: string, n: nat)
    requires n == if |modes| < |chars| then |modes| else |chars|
    ensures Paired(modes, chars) == Paired(modes[..n], chars[..n])
  {
    if n > 0 {
      assert modes[..n][..n - 1] == modes[..n - 1] && chars[..n][..n - 1] == chars[..n - 1];
    }
  }

  /** The characters of the rank that are held, in rank order, each once. */
  function Held(rank: seq<char>, present: set<char>): string {
    if rank == [] then ""
    else
      var front, c := rank[..|rank| - 1], rank[|rank| - 1];
      Held(front, present) + (if c in present && c !in front then [c] else [])
  }

  /** applyUserPrefix. `c` is the prefix found for the mode letter, if there is one. */
  method ApplyUserPrefix(p: Prefixes, current: string, letter: char, add: bool, c: char) returns (r: string)
    requires (c in p.letters && p.letters[c] == letter) || forall x :: x in p.letters ==> p.letters[x] != letter
    ensures !(c in p.letters && p.letters[c] == letter) ==> r == current
    ensures c in p.letters && p.letters[c] == letter ==>
              var present := if add then (set x | x in current) + {c} else (set x | x in current) - {c};
              && Held(p.rank, present) <= r
              && (forall x :: x in r <==> x in present)
              && |r| == |Held(p.rank, present)| + |present - (set x | x in p.rank)|
  {
    if !(c in p.letters && p.letters[c] == letter) {
      return current;
    }
    var present := set x | x in current;
    if add {
      present := present + {c};
    } else {
      present := present - {c};
    }
    var ranked, rest := KeepRanked(p.rank, present);
    r := AppendExotic(ranked, rest);
    forall x ensures x in ranked <==> x in p.rank && x in present {
      HeldContent(p.rank, present, x);
    }
  }

  /** First loop: held characters by rank; the others remain. */
  method KeepRanked(rank: seq<char>, held: set<char>) returns (r: string, rest: set<char>)
    ensures r == Held(rank, held) && rest == held - (set x | x in rank)
  {
    rest := held;
    r := "";
    for i := 0 to |rank|
      invariant r == Held(rank[..i], held)
      invariant rest == held - (set x | x in rank[..i])
    {
      var x := rank[i];
      assert rank[..i + 1][..i] == rank[..i];
      assert rank[..i + 1] == rank[..i] + [x];
      if x in rest {
        r := r + [x];
        rest := rest - {x};
      }
    }
    assert rank[..|rank|] == rank;
  }

  /** Second loop: the remaining characters in any order. */
  method AppendExotic(ranked: string, exotic: set<char>) returns (r: string)
    ensures ranked <= r && |r| == |ranked| + |exotic|
    ensures forall x :: x in r <==> x in ranked || x in exotic
  {
    var rest := exotic;
    r := ranked;
    while rest != {}
      invariant ranked <= r && rest <= exotic && |r| == |ranked| + |exotic - rest|
      invariant forall x :: x in r <==> x in ranked || (x in exotic && x !in rest)
      decreases |rest|
    {
      var x :| x in rest;
      assert exotic - (rest - {x}) == (exotic - rest) + {x};
      r := r + [x];
      rest := rest - {x};
    }
    assert exotic - rest == exotic;
  }

  /** splitMembershipPrefixes: prefixes and bare nick. */
  method SplitMembershipPrefixes(entry: string, valid: string) returns (modes: string, nick: string)
    ensures (modes, nick) == Split(entry, valid)
  {
    var i := 0;
    assert entry[0..] == entry && "" + Split(entry, valid).0 == Split(entry, valid).0;
    while i < |entry| && entry[i] in valid
      invariant i <= |entry|
      invariant Split(entry, valid) == (entry[..i] + Split(entry[i..], valid).0, Split(entry[i..], valid).1)
    {
      var more := Split(entry[i + 1..], valid).0;
      assert entry[i..][1..] == entry[i + 1..];
      assert entry[..i] + ([entry[i]] + more) == entry[..i + 1] + more;
      i := i + 1;
    }
    assert entry[..i] + "" == entry[..i];
    return entry[..i], entry[i..];
  }

  function Split(entry: string, valid: string): (string, string) {
    if entry != "" && entry[0] in valid then ([entry[0]] + Split(entry[1..], valid).0, Split(entry[1..], valid).1)
    else ("", entry)
  }

  // ---------------------------------------------------------------- well-formed PREFIX

  predicate Distinct(s: seq<char>) {
    forall i, j :: 0 <= i < j < |s| ==> s[i] != s[j]
  }

  predicate WellFormed(modes: string, chars: string) {
    |modes| == |chars| && Distinct(modes) && Distinct(chars) && '(' !in modes && ')' !in modes
  }

  lemma {:induction false} PairedAt(modes: string, chars: string, c: char)
    requires |modes| == |chars| && Distinct(chars)
    ensures c in Paired(modes, chars) <==> c in chars
    ensures forall k :: 0 <= k < |chars| ==> chars[k] in Paired(modes, chars) && Paired(modes, chars)[chars[k]] == modes[k]
    decreases |chars|
  {
    if chars != "" {
      var n := |chars| - 1;
      PairedAt(modes[..n], chars[..n], c);
      assert chars == chars[..n] + [chars[n]];
      forall k | 0 <= k < n ensures chars[k] in Paired(modes, chars) && Paired(modes, chars)[chars[k]] == modes[k] {
        assert chars[..n][k] == chars[k] && modes[..n][k] == modes[k];
      }
    }
  }

  /** A well-formed PREFIX is read as what it says: the rank, and one mode letter for each prefix. */
  lemma ParseWellFormed(modes: string, chars: string)
    requires WellFormed(modes, chars)
    ensures var p := Parse("(" + modes + ")" + chars);
            && p.rank == chars
            && (forall c :: c in p.letters <==> c in chars)
            && forall k :: 0 <= k < |chars| ==> p.letters[chars[k]] == modes[k]
  {
    var value := "(" + modes + ")" + chars;
    FirstAt(value, ')', |modes| + 1);
    FirstAt(value, '(', 0);
    assert value[0..] == value;
    assert value[1..|modes| + 1] == modes && value[|modes| + 2..] == chars;
    forall c ensures c in Paired(modes, chars) <==> c in chars {
      PairedAt(modes, chars, c);
    }
    PairedAt(modes, chars, ' ');
  }

  lemma {:induction false} FirstAt(s: string, c: char, k: nat)
    requires k < |s| && s[k] == c && forall j :: 0 <= j < k ==> s[j] != c
    ensures Find(s, c) == k
  {
    if k > 0 {
      FirstAt(s[1..], c, k - 1);
    }
  }

  // ---------------------------------------------------------------- any sequence of changes

  datatype Change = Change(add: bool, letter: char)

  /** The prefix of a mode letter in a well-formed PREFIX. */
  function PrefixOf(modes: string, chars: string, letter: char): (c: set<char>)
    requires |modes| == |chars|
  {
    set k | 0 <= k < |modes| && modes[k] == letter :: chars[k]
  }

  /** The set of prefixes held after a sequence of membership changes. */
  function HeldAfter(modes: string, chars: string, changes: seq<Change>): set<char>
    requires |modes| == |chars|
  {
    if changes == [] then {}
    else
      var ch := changes[|changes| - 1];
      var held := HeldAfter(modes, chars, changes[..|changes| - 1]);
      var c := PrefixOf(modes, chars, ch.letter);
      if ch.add then held + c else held - c
  }

  lemma {:induction false} HeldContent(rank: seq<char>, present: set<char>, x: char)
    ensures x in Held(rank, present) <==> x in rank && x in present
    decreases |rank|
  {
    if rank != [] {
      HeldContent(rank[..|rank| - 1], present, x);
      assert rank == rank[..|rank| - 1] + [rank[|rank| - 1]];
    }
  }

  lemma {:induction false} HeldAfterRanked(modes: string, chars: string, changes: seq<Change>)
    requires |modes| == |chars|
    ensures forall x :: x in HeldAfter(modes, chars, changes) ==> x in chars
    decreases |changes|
  {
    if changes != [] {
      HeldAfterRanked(modes, chars, changes[..|changes| - 1]);
    }
  }

  /** Membership changes one after the other, each on the string the previous one stored: the string is
      always the rank filtered by the prefixes then held. */
  method ApplyAll(modes: string, chars: string, changes: seq<Change>) returns (stored: string)
    requires WellFormed(modes, chars)
    ensures stored == Held(chars, HeldAfter(modes, chars, changes))
  {
    var p := ParsePrefix("(" + modes + ")" + chars);
    ParseWellFormed(modes, chars);
    stored := "";
    HeldNone(chars);
    for i := 0 to |changes|
      invariant stored == Held(chars, HeldAfter(modes, chars, changes[..i]))
    {
      var ch := changes[i];
      assert changes[..i + 1][..i] == changes[..i];
      ghost var held := HeldAfter(modes, chars, changes[..i]);
      HeldAfterRanked(modes, chars, changes[..i]);
      ghost var before := stored;
      var k := Find(modes, ch.letter);
      var c := if k >= 0 then chars[k] else ' ';
      LetterUnknown(modes, chars, p, ch.letter, k);
      stored := ApplyUserPrefix(p, stored, ch.letter, ch.add, c);
      StoredIsHeld(modes, chars, held, before, ch, k, stored);
    }
    assert changes[..|changes|] == changes;
  }

  lemma {:induction false} HeldNone(rank: seq<char>)
    ensures Held(rank, {}) == ""
    decreases |rank|
  {
    if rank != [] {
      HeldNone(rank[..|rank| - 1]);
    }
  }

  lemma LetterUnknown(modes: string, chars: string, p: Prefixes, letter: char, k: int)
    requires WellFormed(modes, chars) && k == Find(modes, letter)
    requires (forall c :: c in p.letters <==> c in chars) && forall j :: 0 <= j < |chars| ==> p.letters[chars[j]] == modes[j]
    ensures k < 0 ==> forall x :: x in p.letters ==> p.letters[x] != letter
    ensures PrefixOf(modes, chars, letter) == if k >= 0 then {chars[k]} else {}
  {
    if k < 0 {
      forall x | x in p.letters ensures p.letters[x] != letter {
        var j :| 0 <= j < |chars| && chars[j] == x;
        assert modes[j] in modes;
      }
    }
    forall j | 0 <= j < |modes| && modes[j] == letter ensures j == k {
      assert modes[j] in modes;
    }
  }

  lemma StoredIsHeld(modes: string, chars: string, held: set<char>, before: string, ch: Change, k: int, after: string)
    requires WellFormed(modes, chars) && (forall x :: x in held ==> x in chars) && before == Held(chars, held) && k == Find(modes, ch.letter)
    requires PrefixOf(modes, chars, ch.letter) == if k >= 0 then {chars[k]} else {}
    requires k < 0 ==> after == before
    requires k >= 0 ==>
               var present := if ch.add then (set x | x in before) + {chars[k]} else (set x | x in before) - {chars[k]};
               Held(chars, present) <= after && |after| == |Held(chars, present)| + |present - (set x | x in chars)|
    ensures after == Held(chars, if ch.add then held + PrefixOf(modes, chars, ch.letter) else held - PrefixOf(modes, chars, ch.letter))
  {
    forall x ensures x in before <==> x in held {
      HeldContent(chars, held, x);
    }
    assert (set x | x in before) == held;
    if k >= 0 {
      var present := if ch.add then held + {chars[k]} else held - {chars[k]};
      assert present - (set x | x in chars) == {};
    } else {
      assert held + {} == held && held - {} == held;
    }
  }

  lemma {:induction false} SplitPeels(front: string, nick: string, valid: string)
    requires forall k :: 0 <= k < |front| ==> front[k] in valid
    ensures Split(front + nick, valid) == (front + Split(nick, valid).0, Split(nick, valid).1)
    decreases |front|
  {
    if front == "" {
      assert front + nick == nick && front + Split(nick, valid).0 == Split(nick, valid).0;
    } else {
      assert (front + nick)[1..] == front[1..] + nick;
      SplitPeels(front[1..], nick, valid);
      assert [front[0]] + (front[1..] + Split(nick, valid).0) == front + Split(nick, valid).0;
    }
  }

  /** A NAMES entry made of stored prefixes and a nick is taken apart into just these, exactly if the
      nick does not begin with a prefix character. */
  lemma SplitRecovers(chars: string, held: set<char>, nick: string)
    ensures Split(Held(chars, held) + nick, chars) == (Held(chars, held), nick) <==> nick == "" || nick[0] !in chars
  {
    var front := Held(chars, held);
    forall k | 0 <= k < |front| ensures front[k] in chars {
      HeldContent(chars, held, front[k]);
    }
    SplitPeels(front, nick, chars);
    if nick == "" || nick[0] !in chars {
      assert front + "" == front;
    } else {
      SplitLength(nick[1..], chars);
    }
  }

  lemma {:induction false} SplitLength(entry: string, valid: string)
    ensures |Split(entry, valid).0| + |Split(entry, valid).1| == |entry|
    decreases |entry|
  {
    if entry != "" && entry[0] in valid {
      SplitLength(entry[1..], valid);
    }
  }

  /** Stored prefixes stand in rank order: whatever comes first ranks higher. */
  lemma {:induction false} HeldInRankOrder(rank: seq<char>, present: set<char>, i: nat, j: nat)
    requires i < j < |Held(rank, present)|
    ensures 0 <= Find(rank, Held(rank, present)[i]) < Find(rank, Held(rank, present)[j])
    decreases |rank|
  {
    var n := |rank| - 1;
    var front, c := rank[..n], rank[n];
    var held := Held(front, present);
    assert rank == front + [c];
    HeldContent(front, present, held[i]);
    SameFirst(front, c, held[i]);
    if j < |held| {
      HeldInRankOrder(front, present, i, j);
      HeldContent(front, present, held[j]);
      SameFirst(front, c, held[j]);
    } else {
      FirstAt(rank, c, n);
    }
  }

  lemma SameFirst(front: seq<char>, c: char, x: char)
    requires x in front
    ensures Find(front + [c], x) == Find(front, x) >= 0
  {
    var k := Find(front, x);
    assert forall j :: 0 <= j < k ==> front[j] in front[..k];
    FirstAt(front + [c], x, k);
  }

  /** Change `k` is the last one that names the letter. */
  predicate LastNaming(changes: seq<Change>, letter: char, k: nat) {
    k < |changes| && changes[k].letter == letter && forall j :: k < j < |changes| ==> changes[j].letter != letter
  }

  /** A prefix is held iff the last change that names its mode letter adds it. */
  lemma {:induction false} HeldExactly(modes: string, chars: string, changes: seq<Change>, p: nat)
    requires WellFormed(modes, chars) && p < |chars|
    ensures chars[p] in HeldAfter(modes, chars, changes) <==> exists k: nat :: LastNaming(changes, modes[p], k) && changes[k].add
    decreases |changes|
  {
    if changes != [] {
      var n := |changes| - 1;
      HeldExactly(modes, chars, changes[..n], p);
      if changes[n].letter == modes[p] {
        assert LastNaming(changes, modes[p], n);
        assert forall k: nat :: LastNaming(changes, modes[p], k) ==> k == n;
      } else {
        assert forall k: nat :: LastNaming(changes, modes[p], k) <==> LastNaming(changes[..n], modes[p], k);
      }
    }
  }
}
