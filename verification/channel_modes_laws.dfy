/** When a stored mode string can be trusted: parsing what was printed, and updating in two steps. */
module ChannelModesLaws {
  import opened ChannelModes
  import opened Unicode

  predicate LetterOk(m: char) {
    m != '+' && m != '-' && !IsSpace(m)
  }

  /** Flags and parameters are of the letters the server's grammar gives them. */
  ghost predicate Consistent(st: State, cls: Classes) {
    && (forall m :: m in st.flags ==> LetterOk(m) && cls.KindOf(m) == Flag)
    && (forall m :: m in st.params ==> LetterOk(m) && (cls.KindOf(m) == Param || cls.KindOf(m) == SetParam))
  }

  predicate Solid(s: string) {
    forall k :: 0 <= k < |s| ==> !IsSpace(s[k])
  }

  // ---------------------------------------------------------------- words

  lemma {:induction false} CutSolid(front: string, s: string)
    requires Solid(s)
    ensures CutUp(front + s) == Cut(CutUp(front).words, CutUp(front).last + s)
    decreases |s|
  {
    if s == "" {
      assert front + s == front;
    } else {
      assert (front + s)[..|front + s| - 1] == front + s[..|s| - 1];
      CutSolid(front, s[..|s| - 1]);
      assert s[..|s| - 1] + [s[|s| - 1]] == s;
    }
  }

  lemma CutSpace(front: string)
    ensures CutUp(front + " ") == Cut(Words(front), "")
  {
    assert (front + " ")[..|front|] == front;
  }

  /** The parameters that are printed, in order. */
  function Given(letters: seq<char>, params: map<char, string>): seq<string> {
    if letters == [] then []
    else
      var m := letters[|letters| - 1];
      Given(letters[..|letters| - 1], params) + (if m in params && params[m] != "" then [params[m]] else [])
  }

  lemma OneMoreWord(front: string, p: string)
    requires Solid(p) && p != ""
    ensures Words(front + " " + p) == Words(front) + [p]
  {
    CutSpace(front);
    CutSolid(front + " ", p);
    hide CutUp;
    assert "" + p == p;
  }

  lemma FirstWordAlone(head: string)
    requires head != "" && Solid(head)
    ensures Words(head) == [head]
  {
    CutSolid("", head);
    assert "" + head == head;
  }

  lemma {:induction false} TextWords(head: string, letters: seq<char>, params: map<char, string>)
    requires head != "" && Solid(head) && forall m :: m in params ==> Solid(params[m])
    ensures Words(head + ParamText(letters, params)) == [head] + Given(letters, params)
    decreases |letters|
  {
    hide Words;
    if letters == [] {
      assert head + "" == head;
      FirstWordAlone(head);
    } else {
      var m := letters[|letters| - 1];
      var before := ParamText(letters[..|letters| - 1], params);
      TextWords(head, letters[..|letters| - 1], params);
      if m in params && params[m] != "" {
        assert head + (before + (" " + params[m])) == (head + before) + " " + params[m];
        OneMoreWord(head + before, params[m]);
        assert [head] + (Given(letters[..|letters| - 1], params) + [params[m]]) == [head] + Given(letters[..|letters| - 1], params) + [params[m]];
      } else {
        assert before + "" == before && Given(letters, params) == Given(letters[..|letters| - 1], params);
      }
    }
  }

  /** Words hold no spaces and are not empty. */
  lemma {:induction false} WordsSolid(s: string)
    ensures var c := CutUp(s); Solid(c.last) && forall k :: 0 <= k < |c.words| ==> c.words[k] != "" && Solid(c.words[k])
    decreases |s|
  {
    if s != "" {
      WordsSolid(s[..|s| - 1]);
    }
  }

  // ---------------------------------------------------------------- reading sorted letters

  predicate Takes(m: char, cls: Classes) {
    cls.KindOf(m) == Param || cls.KindOf(m) == SetParam
  }

  /** How many of the letters take a parameter. */
  function Rank(letters: seq<char>, cls: Classes): nat {
    if letters == [] then 0
    else Rank(letters[..|letters| - 1], cls) + (if Takes(letters[|letters| - 1], cls) then 1 else 0)
  }

  function Supplied(fields: seq<string>, r: nat): string {
    if r < |fields| then fields[r] else ""
  }

  /** The state that reading the letters gives, letter by letter. */
  function ReadState(letters: seq<char>, fields: seq<string>, cls: Classes): State {
    if letters == [] then EMPTY
    else
      var st := ReadState(letters[..|letters| - 1], fields, cls);
      var m := letters[|letters| - 1];
      if Takes(m, cls) then st.(params := st.params[m := Supplied(fields, Rank(letters[..|letters| - 1], cls))])
      else st.(flags := st.flags + {m})
  }

  predicate Stored(letters: seq<char>, cls: Classes) {
    forall k :: 0 <= k < |letters| ==> LetterOk(letters[k]) && (Takes(letters[k], cls) || cls.KindOf(letters[k]) == Flag)
  }

  lemma {:induction false} ReadLetters(letters: seq<char>, fields: seq<string>, cls: Classes)
    requires Stored(letters, cls)
    ensures var r := Read("+" + letters, fields, cls);
            && r.add
            && r.used == (if Rank(letters, cls) <= |fields| then Rank(letters, cls) else |fields|)
            && Collected(r.changes) == ReadState(letters, fields, cls)
    decreases |letters|
  {
    if letters == [] {
      assert "+"[..0] == "";
      assert "+" + letters == "+";
    } else {
      var front, m := letters[..|letters| - 1], letters[|letters| - 1];
      ReadLetters(front, fields, cls);
      assert ("+" + letters)[..|letters|] == "+" + front;
      assert ("+" + letters)[|letters|] == m;
      var was := Read("+" + front, fields, cls);
      assert Read("+" + letters, fields, cls) == ReadLetter(was, m, fields, cls);
      assert LetterOk(m);
      NoteNext(was, m, fields, cls, Rank(front, cls));
      hide Read, ReadLetter, Collected, LetterOk, Supplied;
    }
  }

  /** One more letter, set, with the parameter of its rank. */
  lemma NoteNext(was: Reader, m: char, fields: seq<string>, cls: Classes, rank: nat)
    requires LetterOk(m) && (Takes(m, cls) || cls.KindOf(m) == Flag)
    requires was.add && was.used == if rank <= |fields| then rank else |fields|
    ensures var now := ReadLetter(was, m, fields, cls);
            var st := Collected(was.changes);
            && now.add
            && now.used == (if Takes(m, cls) && rank < |fields| then was.used + 1 else was.used)
            && Collected(now.changes) == (if Takes(m, cls) then st.(params := st.params[m := Supplied(fields, rank)]) else st.(flags := st.flags + {m}))
  {
    var now := ReadLetter(was, m, fields, cls);
    var ch := now.changes[|now.changes| - 1];
    assert now.changes[..|now.changes| - 1] == was.changes;
    assert Collected(now.changes) == Noted(Collected(was.changes), ch);
    hide Collected;
  }

  // ---------------------------------------------------------------- padding

  /** The parameters of the letters that take one, in order, empty ones included. */
  function Values(letters: seq<char>, params: map<char, string>, cls: Classes): seq<string> {
    if letters == [] then []
    else
      var m := letters[|letters| - 1];
      Values(letters[..|letters| - 1], params, cls) + (if Takes(m, cls) then [if m in params then params[m] else ""] else [])
  }

  function NonEmpty(v: seq<string>): seq<string> {
    if v == [] then []
    else NonEmpty(v[..|v| - 1]) + (if v[|v| - 1] != "" then [v[|v| - 1]] else [])
  }

  /** No empty parameter precedes another one. */
  predicate Packed(v: seq<string>) {
    forall i, j :: 0 <= i < j < |v| && v[i] == "" ==> v[j] == ""
  }

  lemma {:induction false} NonEmptyCount(v: seq<string>)
    ensures |NonEmpty(v)| <= |v|
    ensures forall i :: 0 <= i < |NonEmpty(v)| ==> NonEmpty(v)[i] != ""
    ensures (forall i :: 0 <= i < |v| ==> v[i] != "") ==> NonEmpty(v) == v
    decreases |v|
  {
    if v != [] {
      var front := v[..|v| - 1];
      NonEmptyCount(front);
      assert forall i :: 0 <= i < |front| ==> front[i] == v[i];
      assert v == front + [v[|v| - 1]];
    }
  }

  lemma {:induction false} NonEmptyPacked(v: seq<string>)
    requires Packed(v)
    ensures |NonEmpty(v)| <= |v| && NonEmpty(v) == v[..|NonEmpty(v)|]
    ensures forall i :: |NonEmpty(v)| <= i < |v| ==> v[i] == ""
    decreases |v|
  {
    if v != [] {
      var n := |v| - 1;
      if v[n] != "" {
        assert forall i :: 0 <= i < n ==> v[i] != "";
        NonEmptyCount(v);
      } else {
        NonEmptyPacked(v[..n]);
        hide Packed;
        assert NonEmpty(v) == NonEmpty(v[..n]);
        assert forall i :: 0 <= i < n ==> v[..n][i] == v[i];
      }
    }
  }

  /** Reading the printed parameters back in order restores all of them exactly if they are packed. */
  lemma PaddingRestores(v: seq<string>)
    ensures (forall r: nat :: r < |v| ==> Supplied(NonEmpty(v), r) == v[r]) <==> Packed(v)
  {
    NonEmptyCount(v);
    if Packed(v) {
      NonEmptyPacked(v);
    }
    if forall r: nat :: r < |v| ==> Supplied(NonEmpty(v), r) == v[r] {
      forall i, j | 0 <= i < j < |v| && v[i] == "" ensures v[j] == "" {
        assert Supplied(NonEmpty(v), i) == v[i];
        assert Supplied(NonEmpty(v), j) == v[j];
      }
    }
  }

  lemma {:induction false} GivenIsNonEmpty(letters: seq<char>, params: map<char, string>, cls: Classes)
    requires forall k :: 0 <= k < |letters| ==> (letters[k] in params <==> Takes(letters[k], cls))
    ensures Given(letters, params) == NonEmpty(Values(letters, params, cls))
    ensures |Values(letters, params, cls)| == Rank(letters, cls)
    decreases |letters|
  {
    if letters != [] {
      var front, m := letters[..|letters| - 1], letters[|letters| - 1];
      GivenIsNonEmpty(front, params, cls);
      var v, w := Values(front, params, cls), Values(letters, params, cls);
      assert v + [] == v && Given(front, params) + [] == Given(front, params);
      if Takes(m, cls) {
        assert letters[|letters| - 1] in params;
        assert w == v + [params[m]];
        assert w[..|w| - 1] == v && w[|w| - 1] == params[m];
      }
    }
  }

  /** The value of rank `r` belongs to the letter of rank `r`. */
  lemma {:induction false} ValueAt(letters: seq<char>, params: map<char, string>, cls: Classes, k: nat)
    requires k < |letters| && Takes(letters[k], cls) && letters[k] in params
    ensures Rank(letters[..k], cls) < |Values(letters, params, cls)|
    ensures Values(letters, params, cls)[Rank(letters[..k], cls)] == params[letters[k]]
    decreases |letters|
  {
    var n := |letters| - 1;
    ValuesCount(letters[..n], params, cls);
    if k < n {
      assert letters[..n][..k] == letters[..k];
      ValueAt(letters[..n], params, cls, k);
    }
  }

  lemma {:induction false} ValuesCount(letters: seq<char>, params: map<char, string>, cls: Classes)
    ensures |Values(letters, params, cls)| == Rank(letters, cls)
    decreases |letters|
  {
    if letters != [] {
      ValuesCount(letters[..|letters| - 1], params, cls);
    }
  }

  lemma {:induction false} LetterOfRank(letters: seq<char>, cls: Classes, r: nat) returns (k: nat)
    requires r < Rank(letters, cls)
    ensures k < |letters| && Takes(letters[k], cls) && Rank(letters[..k], cls) == r
    decreases |letters|
  {
    var n := |letters| - 1;
    if r < Rank(letters[..n], cls) {
      k := LetterOfRank(letters[..n], cls, r);
      assert letters[..n][..k] == letters[..k];
    } else {
      k := n;
    }
  }

  predicate Rising(letters: seq<char>) {
    forall i, j :: 0 <= i < j < |letters| ==> letters[i] < letters[j]
  }

  lemma {:induction false} ReadKeys(letters: seq<char>, fields: seq<string>, cls: Classes, m: char)
    ensures m in ReadState(letters, fields, cls).flags <==> m in letters && !Takes(m, cls)
    ensures m in ReadState(letters, fields, cls).params <==> m in letters && Takes(m, cls)
    decreases |letters|
  {
    if letters != [] {
      var n := |letters| - 1;
      ReadKeys(letters[..n], fields, cls, m);
      assert letters == letters[..n] + [letters[n]];
      hide Rank, Supplied;
    }
  }

  /** What reading distinct letters leaves for each of them. */
  lemma {:induction false} ReadParam(letters: seq<char>, fields: seq<string>, cls: Classes, k: nat)
    requires Rising(letters) && k < |letters| && Takes(letters[k], cls)
    ensures letters[k] in ReadState(letters, fields, cls).params
    ensures ReadState(letters, fields, cls).params[letters[k]] == Supplied(fields, Rank(letters[..k], cls))
    decreases |letters|
  {
    hide Rank, Supplied;
    var n := |letters| - 1;
    if k < n {
      assert letters[..n][..k] == letters[..k];
      ReadParam(letters[..n], fields, cls, k);
    }
  }

  // ---------------------------------------------------------------- the round trip

  lemma LettersOf(st: State, cls: Classes)
    requires Consistent(st, cls)
    ensures var l := Letters(st);
            && Stored(l, cls) && Rising(l)
            && (forall m :: m in l <==> m in st.flags || m in st.params)
            && (forall k :: 0 <= k < |l| ==> (l[k] in st.params <==> Takes(l[k], cls)))
            && (st.flags + st.params.Keys == {} <==> l == [])
  {
    var l := Letters(st);
    if st.flags + st.params.Keys != {} {
      var m :| m in st.flags + st.params.Keys;
      assert m in l;
    }
    assert forall k :: 0 <= k < |l| ==> l[k] in l;
  }

  /** No parameter holds a space, and in letter order no empty one comes before another. */
  ghost predicate Storable(st: State, cls: Classes) {
    && (forall m :: m in st.params ==> Solid(st.params[m]))
    && Packed(Values(Letters(st), st.params, cls))
  }

  /** Parsing a printed state reads its letters against the printed parameters. */
  lemma PrintedReads(st: State, cls: Classes)
    requires Consistent(st, cls) && forall m :: m in st.params ==> Solid(st.params[m])
    ensures Parsed(Printed(st), cls) == ReadState(Letters(st), NonEmpty(Values(Letters(st), st.params, cls)), cls)
  {
    var l := Letters(st);
    LettersOf(st, cls);
    if l == [] {
      assert CutUp("") == Cut([], "");
    } else {
      var head := "+" + l;
      assert Solid(head);
      TextWords(head, l, st.params);
      var fields := [head] + Given(l, st.params);
      assert Words(Printed(st)) == fields && fields[0] == head && fields[1..] == Given(l, st.params);
      assert head[0] == '+';
      ReadLetters(l, fields[1..], cls);
      GivenIsNonEmpty(l, st.params, cls);
    }
  }

  /** A consistent state that came back has only parameters that fit into words. */
  lemma {:induction false} ReadSolid(modes: string, fields: seq<string>, cls: Classes)
    requires forall k :: 0 <= k < |fields| ==> Solid(fields[k])
    ensures forall k :: 0 <= k < |Read(modes, fields, cls).changes| ==> Solid(Read(modes, fields, cls).changes[k].param)
    decreases |modes|
  {
    if modes != "" {
      ReadSolid(modes[..|modes| - 1], fields, cls);
    }
  }

  lemma {:induction false} CollectedSolid(changes: seq<Change>, m: char)
    requires forall k :: 0 <= k < |changes| ==> Solid(changes[k].param)
    ensures m in Collected(changes).params ==> Solid(Collected(changes).params[m])
    decreases |changes|
  {
    if changes != [] {
      CollectedSolid(changes[..|changes| - 1], m);
    }
  }

  lemma ParsedSolid(s: string, cls: Classes, m: char)
    ensures m in Parsed(s, cls).params ==> Solid(Parsed(s, cls).params[m])
  {
    WordsSolid(s);
    var fields := Words(s);
    if fields != [] {
      var modes := if fields[0] != "" && (fields[0][0] == '+' || fields[0][0] == '-') then fields[0] else "+" + fields[0];
      ReadSolid(modes, fields[1..], cls);
      CollectedSolid(Read(modes, fields[1..], cls).changes, m);
    }
  }

  ghost function ReadBack(st: State, cls: Classes): State {
    ReadState(Letters(st), NonEmpty(Values(Letters(st), st.params, cls)), cls)
  }

  lemma SameKeys(st: State, cls: Classes, fields: seq<string>)
    requires Consistent(st, cls)
    ensures var back := ReadState(Letters(st), fields, cls);
            back.flags == st.flags && back.params.Keys == st.params.Keys
  {
    var l := Letters(st);
    var back := ReadState(l, fields, cls);
    LettersOf(st, cls);
    hide ReadState, Letters;
    forall m ensures (m in back.flags <==> m in st.flags) && (m in back.params <==> m in st.params) {
      ReadKeys(l, fields, cls, m);
    }
  }

  lemma ParamOfRank(st: State, cls: Classes, k: nat)
    requires Consistent(st, cls) && k < |Letters(st)| && Letters(st)[k] in st.params
    ensures var v := Values(Letters(st), st.params, cls);
            var r := Rank(Letters(st)[..k], cls);
            && r < |v| && v[r] == st.params[Letters(st)[k]]
            && Letters(st)[k] in ReadBack(st, cls).params
            && ReadBack(st, cls).params[Letters(st)[k]] == Supplied(NonEmpty(v), r)
  {
    var l := Letters(st);
    LettersOf(st, cls);
    hide NonEmpty, ReadState, Letters;
    ReadParam(l, NonEmpty(Values(l, st.params, cls)), cls, k);
    ValueAt(l, st.params, cls, k);
  }

  lemma RanksRestored(st: State, cls: Classes)
    requires Consistent(st, cls) && ReadBack(st, cls) == st
    ensures var v := Values(Letters(st), st.params, cls);
            forall r: nat :: r < |v| ==> Supplied(NonEmpty(v), r) == v[r]
  {
    var l := Letters(st);
    var v := Values(l, st.params, cls);
    LettersOf(st, cls);
    ValuesCount(l, st.params, cls);
    hide Supplied, NonEmpty, ReadBack, Letters, Values, Consistent;
    forall r: nat | r < |v| ensures Supplied(NonEmpty(v), r) == v[r] {
      var k := LetterOfRank(l, cls, r);
      ParamOfRank(st, cls, k);
    }
  }

  lemma ParamRestored(st: State, cls: Classes, m: char)
    requires Consistent(st, cls) && m in st.params
    requires var v := Values(Letters(st), st.params, cls);
             forall r: nat :: r < |v| ==> Supplied(NonEmpty(v), r) == v[r]
    ensures m in ReadBack(st, cls).params && ReadBack(st, cls).params[m] == st.params[m]
  {
    var l := Letters(st);
    LettersOf(st, cls);
    hide Supplied, NonEmpty, ReadBack, Letters, Values, Consistent;
    assert m in l;
    var k: nat :| k < |l| && l[k] == m;
    ParamOfRank(st, cls, k);
  }

  /** All letters get their own parameter back exactly if the ranks do. */
  lemma RestoredByRank(st: State, cls: Classes)
    requires Consistent(st, cls)
    ensures var v := Values(Letters(st), st.params, cls);
            ReadBack(st, cls) == st <==> forall r: nat :: r < |v| ==> Supplied(NonEmpty(v), r) == v[r]
  {
    var v := Values(Letters(st), st.params, cls);
    var back := ReadBack(st, cls);
    SameKeys(st, cls, NonEmpty(v));
    hide Supplied, NonEmpty, ReadBack, Letters, Values, Consistent;
    if back == st {
      RanksRestored(st, cls);
    }
    if forall r: nat :: r < |v| ==> Supplied(NonEmpty(v), r) == v[r] {
      forall m | m in st.params ensures back.params[m] == st.params[m] {
        ParamRestored(st, cls, m);
      }
      assert back.params == st.params;
    }
  }

  /** The stored string gives the state back exactly if the state is storable. */
  lemma RoundTrip(st: State, cls: Classes)
    requires Consistent(st, cls)
    ensures Parsed(Printed(st), cls) == st <==> Storable(st, cls)
  {
    if Parsed(Printed(st), cls) == st {
      forall m | m in st.params ensures Solid(st.params[m]) {
        ParsedSolid(Printed(st), cls, m);
      }
    }
    if forall m :: m in st.params ==> Solid(st.params[m]) {
      PrintedReads(st, cls);
      RestoredByRank(st, cls);
      PaddingRestores(Values(Letters(st), st.params, cls));
    }
  }

  // ---------------------------------------------------------------- updating in two steps

  /** Changes as ParseModeChanges makes them: the kind is the letter's. */
  predicate Classified(changes: seq<Change>, cls: Classes) {
    forall k :: 0 <= k < |changes| ==> LetterOk(changes[k].mode) && changes[k].kind == cls.KindOf(changes[k].mode)
  }

  lemma {:induction false} FoldedConsistent(st: State, changes: seq<Change>, cls: Classes)
    requires Consistent(st, cls) && Classified(changes, cls)
    ensures Consistent(Folded(st, changes), cls)
    decreases |changes|
  {
    if changes != [] {
      FoldedConsistent(st, changes[..|changes| - 1], cls);
    }
  }

  lemma {:induction false} FoldedAppend(st: State, a: seq<Change>, b: seq<Change>)
    ensures Folded(st, a + b) == Folded(Folded(st, a), b)
    decreases |b|
  {
    if b == [] {
      assert a + b == a;
    } else {
      assert (a + b)[..|a + b| - 1] == a + b[..|b| - 1];
      FoldedAppend(st, a, b[..|b| - 1]);
    }
  }

  lemma {:induction false} ReadClassified(modes: string, fields: seq<string>, cls: Classes)
    requires Solid(modes)
    ensures Classified(Read(modes, fields, cls).changes, cls)
    decreases |modes|
  {
    if modes != "" {
      ReadClassified(modes[..|modes| - 1], fields, cls);
    }
  }

  lemma {:induction false} CollectedConsistent(changes: seq<Change>, cls: Classes)
    requires Classified(changes, cls)
    ensures Consistent(Collected(changes), cls)
    decreases |changes|
  {
    if changes != [] {
      CollectedConsistent(changes[..|changes| - 1], cls);
    }
  }

  /** Whatever string was stored, what is read from it is consistent. */
  lemma ParsedConsistent(s: string, cls: Classes)
    ensures Consistent(Parsed(s, cls), cls)
  {
    WordsSolid(s);
    var fields := Words(s);
    if fields != [] {
      var modes := if fields[0] != "" && (fields[0][0] == '+' || fields[0][0] == '-') then fields[0] else "+" + fields[0];
      assert Solid(modes);
      ReadClassified(modes, fields[1..], cls);
      CollectedConsistent(Read(modes, fields[1..], cls).changes, cls);
    }
  }

  /** Clears every parameter but that of `m`. */
  function Clearing(letters: seq<char>, m: char, cls: Classes): seq<Change> {
    if letters == [] then []
    else
      var c := letters[|letters| - 1];
      Clearing(letters[..|letters| - 1], m, cls) + (if Takes(c, cls) && c != m then [Change(false, c, "", cls.KindOf(c))] else [])
  }

  lemma {:induction false} ClearingClassified(letters: seq<char>, m: char, cls: Classes)
    requires forall k :: 0 <= k < |letters| ==> LetterOk(letters[k])
    ensures Classified(Clearing(letters, m, cls), cls)
    decreases |letters|
  {
    if letters != [] {
      ClearingClassified(letters[..|letters| - 1], m, cls);
    }
  }

  /** `r` is `st` without the parameters of the listed letters, except that of `m`; seen at `c`. */
  predicate Cleared(st: State, r: State, letters: seq<char>, m: char, cls: Classes, c: char) {
    && r.flags == st.flags
    && (c in r.params <==> c in st.params && !(c in letters && Takes(c, cls) && c != m))
    && (c in r.params ==> r.params[c] == st.params[c])
  }

  lemma ClearedNext(st: State, r: State, front: seq<char>, last: char, m: char, cls: Classes, c: char)
    requires Cleared(st, r, front, m, cls, c)
    ensures Takes(last, cls) && last != m ==> Cleared(st, Changed(r, Change(false, last, "", cls.KindOf(last))), front + [last], m, cls, c)
    ensures !(Takes(last, cls) && last != m) ==> Cleared(st, r, front + [last], m, cls, c)
  {
    assert c in front + [last] <==> c in front || c == last;
  }

  lemma {:induction false} ClearingLeaves(st: State, letters: seq<char>, m: char, cls: Classes, c: char)
    ensures Cleared(st, Folded(st, Clearing(letters, m, cls)), letters, m, cls, c)
    decreases |letters|
  {
    if letters != [] {
      var front, last := letters[..|letters| - 1], letters[|letters| - 1];
      ClearingLeaves(st, front, m, cls, c);
      assert letters == front + [last];
      var was, now := Clearing(front, m, cls), Clearing(letters, m, cls);
      ClearedNext(st, Folded(st, was), front, last, m, cls, c);
      hide Cleared;
      if Takes(last, cls) && last != m {
        var ch := Change(false, last, "", cls.KindOf(last));
        assert now == was + [ch];
        assert (was + [ch])[..|was|] == was;
      } else {
        assert now == was;
      }
    }
  }

  lemma {:induction false} NoParam(letters: seq<char>, params: map<char, string>)
    requires forall k :: 0 <= k < |letters| ==> letters[k] !in params
    ensures ParamText(letters, params) == ""
    decreases |letters|
  {
    if letters != [] {
      assert letters[|letters| - 1] !in params;
      NoParam(letters[..|letters| - 1], params);
    }
  }

  /** A state in which only one letter has a parameter prints it at the end. */
  lemma {:induction false} OneParam(letters: seq<char>, params: map<char, string>, k: nat)
    requires k < |letters| && letters[k] in params && forall j :: 0 <= j < |letters| && j != k ==> letters[j] !in params
    ensures ParamText(letters, params) == if params[letters[k]] != "" then " " + params[letters[k]] else ""
    decreases |letters|
  {
    var n := |letters| - 1;
    if k < n {
      assert letters[n] !in params;
      OneParam(letters[..n], params, k);
    } else {
      NoParam(letters[..n], params);
    }
  }

  lemma PositionIn(s: set<char>, m: char) returns (k: nat)
    requires m in s
    ensures k < |Sorted(s)| && Sorted(s)[k] == m && forall j :: 0 <= j < |Sorted(s)| && j != k ==> Sorted(s)[j] != m
  {
    var l := Sorted(s);
    assert m in l;
    k :| 0 <= k < |l| && l[k] == m;
    forall j | 0 <= j < |l| && j != k ensures l[j] != m {
      assert if j < k then l[j] < l[k] else l[k] < l[j];
    }
  }

  lemma OnlyParam(x: State, m: char, v: string)
    requires x.params == map[m := v]
    ensures Printed(x) == "+" + Sorted(x.flags + {m}) + (if v != "" then " " + v else "")
  {
    assert x.params.Keys == {m};
    hide Sorted;
    var k := PositionIn(x.flags + {m}, m);
    OneParam(Letters(x), x.params, k);
    hide ParamText;
  }

  lemma ClearedTo(a: State, m: char, letters: seq<char>, cls: Classes)
    requires m in a.params && forall c :: c in a.params ==> c in letters && Takes(c, cls)
    ensures Folded(a, Clearing(letters, m, cls)) == State(a.flags, map[m := a.params[m]])
  {
    var r := Folded(a, Clearing(letters, m, cls));
    ClearingLeaves(a, letters, m, cls, m);
    forall c ensures (c in r.params <==> c == m) {
      ClearingLeaves(a, letters, m, cls, c);
    }
    assert r.params == map[m := a.params[m]];
  }

  /** Two states that differ in a parameter can be told apart by what they print after the same
      changes. */
  lemma TellApart(a: State, b: State, m: char, cls: Classes) returns (changes: seq<Change>)
    requires Consistent(a, cls)
    requires a.flags == b.flags && a.params.Keys == b.params.Keys && m in a.params && a.params[m] != b.params[m]
    ensures Classified(changes, cls) && Printed(Folded(a, changes)) != Printed(Folded(b, changes))
  {
    var l := Letters(a);
    LettersOf(a, cls);
    changes := Clearing(l, m, cls);
    ClearingClassified(l, m, cls);
    assert forall c :: c in b.params ==> c in a.params;
    ClearedTo(a, m, l, cls);
    ClearedTo(b, m, l, cls);
    var v, w := a.params[m], b.params[m];
    OnlyParam(State(a.flags, map[m := v]), m, v);
    OnlyParam(State(a.flags, map[m := w]), m, w);
    var head := "+" + Sorted(a.flags + {m});
    SuffixTells(head, v, w);
  }

  lemma SuffixTells(head: string, v: string, w: string)
    requires v != w
    ensures head + (if v != "" then " " + v else "") != head + (if w != "" then " " + w else "")
  {
    var x, y := (if v != "" then " " + v else ""), (if w != "" then " " + w else "");
    if v != "" && w != "" {
      assert x[1..] == v && y[1..] == w;
    }
    assert (head + x)[|head|..] == x && (head + y)[|head|..] == y;
  }

  // ---------------------------------------------------------------- what an unstorable state turns into

  lemma {:induction false} CutGrows(front: string, s: string)
    ensures var c, d := CutUp(front), CutUp(front + s);
            |c.words| <= |d.words| && d.words[..|c.words|] == c.words
    decreases |s|
  {
    if s == "" {
      assert front + s == front;
    } else {
      assert (front + s)[..|front + s| - 1] == front + s[..|s| - 1];
      CutGrows(front, s[..|s| - 1]);
    }
  }

  /** The letters stay the first word, whatever the parameters hold. */
  lemma {:induction false} FirstWord(head: string, letters: seq<char>, params: map<char, string>)
    requires head != "" && Solid(head)
    ensures var w := Words(head + ParamText(letters, params)); w != [] && w[0] == head
    decreases |letters|
  {
    if letters == [] {
      assert head + "" == head && "" + head == head;
      CutSolid("", head);
    } else {
      var m := letters[|letters| - 1];
      var front := head + ParamText(letters[..|letters| - 1], params);
      FirstWord(head, letters[..|letters| - 1], params);
      if m in params && params[m] != "" {
        assert head + ParamText(letters, params) == (front + " ") + params[m];
        CutSpace(front);
        CutGrows(front + " ", params[m]);
      } else {
        assert head + ParamText(letters, params) == front;
      }
    }
  }

  lemma ComesBackWithSameKeys(st: State, cls: Classes)
    requires Consistent(st, cls)
    ensures var back := Parsed(Printed(st), cls);
            back.flags == st.flags && back.params.Keys == st.params.Keys
  {
    var l := Letters(st);
    LettersOf(st, cls);
    if l == [] {
      assert CutUp("") == Cut([], "");
    } else {
      var head := "+" + l;
      assert Solid(head);
      FirstWord(head, l, st.params);
      var fields := Words(Printed(st))[1..];
      assert head[0] == '+';
      ReadLetters(l, fields, cls);
      SameKeys(st, cls, fields);
      hide Words, Letters, Text, ReadState, Read, Collected;
    }
  }

  /** An update in two steps, through the stored string, always agrees with the update in one step,
      exactly if the state between them is storable: no parameter with a space in it, and no empty
      parameter before another one. */
  lemma TwoSteps(prior: string, first: seq<Change>, cls: Classes)
    requires Classified(first, cls)
    ensures (forall second :: Classified(second, cls) ==>
               Applied(Applied(prior, first, cls), second, cls) == Applied(prior, first + second, cls))
            <==> Storable(Folded(Parsed(prior, cls), first), cls)
  {
    var st := Folded(Parsed(prior, cls), first);
    var back := Parsed(Printed(st), cls);
    ParsedConsistent(prior, cls);
    FoldedConsistent(Parsed(prior, cls), first, cls);
    ParsedConsistent(Printed(st), cls);
    RoundTrip(st, cls);
    hide Consistent, Storable, Printed, Parsed, Folded, Classified;
    forall second ensures Applied(prior, first + second, cls) == Printed(Folded(st, second)) {
      FoldedAppend(Parsed(prior, cls), first, second);
    }
    if back != st {
      var second := Separates(st, cls);
      assert Applied(Applied(prior, first, cls), second, cls) == Printed(Folded(back, second));
    }
  }

  /** A state that does not come back is told apart from what comes back. */
  lemma Separates(st: State, cls: Classes) returns (changes: seq<Change>)
    requires Consistent(st, cls) && Parsed(Printed(st), cls) != st
    ensures Classified(changes, cls) && Printed(Folded(Parsed(Printed(st), cls), changes)) != Printed(Folded(st, changes))
  {
    var back := Parsed(Printed(st), cls);
    ComesBackWithSameKeys(st, cls);
    hide Parsed, Printed, Folded;
    SameMaps(st.params, back.params);
    var m :| m in st.params && st.params[m] != back.params[m];
    changes := TellApart(st, back, m, cls);
  }

  lemma SameMaps(a: map<char, string>, b: map<char, string>)
    requires a.Keys == b.Keys
    ensures a == b <==> forall m :: m in a ==> a[m] == b[m]
  {
    assert forall m :: m in a <==> m in b;
    if forall m :: m in a ==> a[m] == b[m] {
      assert a == b;
    }
  }

  // ---------------------------------------------------------------- ordinary updates are safe

  lemma {:induction false} ValuesNonEmpty(letters: seq<char>, params: map<char, string>, cls: Classes)
    requires forall k :: 0 <= k < |letters| && Takes(letters[k], cls) ==> letters[k] in params && params[letters[k]] != ""
    ensures forall r :: 0 <= r < |Values(letters, params, cls)| ==> Values(letters, params, cls)[r] != ""
    decreases |letters|
  {
    if letters != [] {
      ValuesNonEmpty(letters[..|letters| - 1], params, cls);
    }
  }

  /** Every parameter is a word. */
  ghost predicate Worded(st: State) {
    forall m :: m in st.params ==> Solid(st.params[m]) && st.params[m] != ""
  }

  lemma WordedStorable(st: State, cls: Classes)
    requires Consistent(st, cls) && Worded(st)
    ensures Storable(st, cls)
  {
    LettersOf(st, cls);
    ValuesNonEmpty(Letters(st), st.params, cls);
  }

  lemma {:induction false} FoldedWorded(st: State, changes: seq<Change>)
    requires Worded(st) && forall k :: 0 <= k < |changes| && changes[k].add ==> Solid(changes[k].param) && (changes[k].param != "" || changes[k].kind == Flag)
    ensures Worded(Folded(st, changes))
    decreases |changes|
  {
    if changes != [] {
      FoldedWorded(st, changes[..|changes| - 1]);
    }
  }

  /** As long as every parameter that is set is a word, updates may be applied in any number of steps
      through the stored string. */
  lemma WordedUpdates(st: State, first: seq<Change>, second: seq<Change>, cls: Classes)
    requires Consistent(st, cls) && Worded(st) && Classified(first, cls) && Classified(second, cls)
    requires forall k :: 0 <= k < |first| && first[k].add ==> Solid(first[k].param) && (first[k].param != "" || first[k].kind == Flag)
    ensures Applied(Applied(Printed(st), first, cls), second, cls) == Applied(Printed(st), first + second, cls)
  {
    WordedStorable(st, cls);
    RoundTrip(st, cls);
    FoldedConsistent(st, first, cls);
    FoldedWorded(st, first);
    WordedStorable(Folded(st, first), cls);
    TwoSteps(Printed(st), first, cls);
  }

  const CLASSIC := Classes({'b'}, {'k'}, {'l'}, {'o', 'v'})
  const BARE_KEY := map['k' := "", 'l' := "5"]

  /** The input that does it: a limit with a value, then a key without one. After that the stored
      string can no longer be updated: clearing the key clears the limit's value instead. */
  lemma BareKeyLosesLimit()
    ensures var changes := Read("+lk", ["5"], CLASSIC).changes;
            var cleared := Read("-k", ["5"], CLASSIC).changes;
            && Applied("", changes, CLASSIC) == "+kl 5"
            && Applied(Applied("", changes, CLASSIC), cleared, CLASSIC) == "+" + Sorted({'l'})
            && Applied("", changes + cleared, CLASSIC) == "+" + Sorted({'l'}) + " 5"
  {
    var changes := Read("+lk", ["5"], CLASSIC).changes;
    var cleared := Read("-k", ["5"], CLASSIC).changes;
    hide Printed, Parsed, Folded, Read, Sorted, Consistent;
    ReadLK();
    FoldLK();
    FoldedAppend(EMPTY, changes, cleared);
    EmptyKeyTakesLimit();
    ParsedNothing();
    OnlyParam(State({}, map['l' := ""]), 'l', "");
    OnlyParam(State({}, map['l' := "5"]), 'l', "5");
    assert {} + {'l'} == {'l'};
  }

  lemma ParsedNothing()
    ensures Parsed("", CLASSIC) == EMPTY
  {
    assert CutUp("") == Cut([], "");
  }

  lemma ReadLK()
    ensures Read("+lk", ["5"], CLASSIC).changes == [Change(true, 'l', "5", SetParam), Change(true, 'k', "", Param)]
    ensures Read("-k", ["5"], CLASSIC).changes == [Change(false, 'k', "5", Param)]
  {
    assert "+lk"[..2] == "+l" && "+l"[..1] == "+" && "+"[..0] == "" && "-k"[..1] == "-" && "-"[..0] == "";
    assert Read("", ["5"], CLASSIC) == Reader([], true, 0);
    assert Read("+", ["5"], CLASSIC) == Reader([], true, 0);
    assert Read("+l", ["5"], CLASSIC) == Reader([Change(true, 'l', "5", SetParam)], true, 1);
    assert Read("-", ["5"], CLASSIC) == Reader([], false, 0);
  }

  lemma FoldLK()
    ensures Folded(EMPTY, [Change(true, 'l', "5", SetParam), Change(true, 'k', "", Param)]) == State({}, BARE_KEY)
    ensures Folded(State({}, map['k' := "5", 'l' := ""]), [Change(false, 'k', "5", Param)]) == State({}, map['l' := ""])
    ensures Folded(State({}, BARE_KEY), [Change(false, 'k', "5", Param)]) == State({}, map['l' := "5"])
  {
    var l, k, c := Change(true, 'l', "5", SetParam), Change(true, 'k', "", Param), Change(false, 'k', "5", Param);
    assert [l, k][..1] == [l] && [l][..0] == [] && [c][..0] == [];
    assert Folded(EMPTY, []) == EMPTY && Folded(EMPTY, [l]) == State({}, map['l' := "5"]);
    assert map['k' := "5", 'l' := ""] - {'k'} == map['l' := ""] && BARE_KEY - {'k'} == map['l' := "5"];
    assert Folded(State({}, map['k' := "5", 'l' := ""]), []) == State({}, map['k' := "5", 'l' := ""]);
    assert Folded(State({}, BARE_KEY), []) == State({}, BARE_KEY);
  }

  /** A key without a value in front of a limit: after printing and parsing, the limit has become the
      key. */
  lemma EmptyKeyTakesLimit()
    ensures var st := State({}, BARE_KEY);
            && Consistent(st, CLASSIC) && Printed(st) == "+kl 5"
            && Parsed(Printed(st), CLASSIC) == State({}, map['k' := "5", 'l' := ""])
  {
    var st := State({}, BARE_KEY);
    LettersKL();
    PrintKL();
    ReadKL();
    hide Letters, ParamText, ReadState, Parsed, NonEmpty, Values, Rank, Consistent;
    PrintedReads(st, CLASSIC);
  }

  lemma LettersKL()
    ensures Consistent(State({}, BARE_KEY), CLASSIC) && Letters(State({}, BARE_KEY)) == ['k', 'l']
  {
    var st := State({}, BARE_KEY);
    assert Consistent(st, CLASSIC);
    LettersOf(st, CLASSIC);
    TwoLetters(Letters(st), 'k', 'l');
  }

  lemma PrintKL()
    ensures ParamText(['k', 'l'], BARE_KEY) == " 5"
  {
    var l := ['k', 'l'];
    assert l[..1] == ['k'] && l[..1][..0] == [];
    assert ParamText([], BARE_KEY) == "" && ParamText(['k'], BARE_KEY) == "";
  }

  lemma OneLetterMore(front: seq<char>, m: char, fields: seq<string>, cls: Classes)
    ensures Rank(front + [m], cls) == Rank(front, cls) + if Takes(m, cls) then 1 else 0
    ensures var st := ReadState(front, fields, cls);
            ReadState(front + [m], fields, cls)
            == if Takes(m, cls) then st.(params := st.params[m := Supplied(fields, Rank(front, cls))]) else st.(flags := st.flags + {m})
  {
    assert (front + [m])[..|front|] == front;
  }

  lemma ReadKL()
    ensures ReadState(['k', 'l'], NonEmpty(Values(['k', 'l'], BARE_KEY, CLASSIC)), CLASSIC) == State({}, map['k' := "5", 'l' := ""])
  {
    assert Rank([], CLASSIC) == 0 && ReadState([], ["5"], CLASSIC) == EMPTY;
    hide NonEmpty, Values, Rank, ReadState;
    ValuesKL();
    OneLetterMore([], 'k', ["5"], CLASSIC);
    OneLetterMore(['k'], 'l', ["5"], CLASSIC);
    assert [] + ['k'] == ['k'] && ['k'] + ['l'] == ['k', 'l'];
  }

  lemma ValuesKL()
    ensures NonEmpty(Values(['k', 'l'], BARE_KEY, CLASSIC)) == ["5"]
  {
    var l := ['k', 'l'];
    assert l[..1] == ['k'] && ['k'][..0] == [];
    assert Values([], BARE_KEY, CLASSIC) == [] && Values(['k'], BARE_KEY, CLASSIC) == [""] && Values(l, BARE_KEY, CLASSIC) == ["", "5"];
    assert ["", "5"][..1] == [""] && [""][..0] == [];
    assert NonEmpty([]) == [] && NonEmpty([""]) == [] && NonEmpty(["", "5"]) == ["5"];
  }

  lemma TwoLetters(l: seq<char>, a: char, b: char)
    requires Rising(l) && a < b && forall c :: c in l <==> c == a || c == b
    ensures l == [a, b]
  {
    assert a in l && b in l;
    var i :| 0 <= i < |l| && l[i] == a;
    var j :| 0 <= j < |l| && l[j] == b;
    forall k | 0 <= k < |l| ensures l[k] == a || l[k] == b {
      assert l[k] in l;
    }
    assert i < j;
    assert l[0] <= l[i] && l[j] <= l[|l| - 1];
    assert i == 0 && l[1] == b && j == 1;
    assert l[|l| - 1] == b;
  }
}
