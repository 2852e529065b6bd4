/** What mode changes do, letter by letter: how a mode string is read, and what is set once a list of
    changes was applied. */
module ChannelModesEffects {
  import opened ChannelModes
  import opened ChannelModesLaws

  // ---------------------------------------------------------------- reading a mode string

  predicate IsSign(c: char) {
    c == '+' || c == '-'
  }

  /** Positions of the letters. */
  function LetterPlaces(modes: string): seq<nat> {
    if modes == "" then []
    else
      var n := |modes| - 1;
      LetterPlaces(modes[..n]) + (if IsSign(modes[n]) then [] else [n])
  }

  /** The sign in force before position `i`: the last one in front of it, plus if there is none. */
  predicate Adds(modes: string, i: nat)
    requires i <= |modes|
  {
    i == 0 || (if IsSign(modes[i - 1]) then modes[i - 1] == '+' else Adds(modes, i - 1))
  }

  /** Memberships, lists and keys always take a parameter, limits when set, flags never. */
  predicate WantsParam(m: char, add: bool, cls: Classes) {
    m in cls.prefix || m in cls.list || m in cls.param || (m in cls.setParam && add)
  }

  /** How many of the first `k` changes want a parameter. */
  function Wanting(changes: seq<Change>, k: nat, cls: Classes): nat
    requires k <= |changes|
  {
    if k == 0 then 0 else Wanting(changes, k - 1, cls) + (if WantsParam(changes[k - 1].mode, changes[k - 1].add, cls) then 1 else 0)
  }

  /** The `k`-th change is the `k`-th letter with the sign in force, its kind, and the next parameter in
      turn, if it wants one and one is left. */
  predicate ReadAs(modes: string, params: seq<string>, cls: Classes, changes: seq<Change>, k: nat)
    requires k < |changes| && |LetterPlaces(modes)| == |changes|
  {
    var i, ch := LetterPlaces(modes)[k], changes[k];
    && i < |modes| && ch.mode == modes[i] && ch.add == Adds(modes, i)
    && (ch.kind == Prefix <==> ch.mode in cls.prefix)
    && (ch.kind == List <==> ch.mode in cls.list && ch.mode !in cls.prefix)
    && (ch.kind == Flag <==> ch.mode !in cls.prefix + cls.list + cls.param + cls.setParam)
    && (ch.kind == Param <==> ch.mode in cls.param && ch.mode !in cls.prefix + cls.list)
    && ch.param == (if WantsParam(ch.mode, ch.add, cls) && Wanting(changes, k, cls) < |params| then params[Wanting(changes, k, cls)] else "")
  }

  lemma {:induction false} WantingPrefix(a: seq<Change>, b: seq<Change>, k: nat, cls: Classes)
    requires k <= |a| && a <= b
    ensures Wanting(a, k, cls) == Wanting(b, k, cls)
    decreases k
  {
    if k > 0 {
      WantingPrefix(a, b, k - 1, cls);
    }
  }

  lemma {:induction false} AddsPrefix(modes: string, n: nat, i: nat)
    requires i <= n <= |modes|
    ensures Adds(modes[..n], i) == Adds(modes, i)
    decreases i
  {
    if i > 0 {
      AddsPrefix(modes, n, i - 1);
    }
  }

  predicate AllRead(modes: string, params: seq<string>, cls: Classes, changes: seq<Change>) {
    |LetterPlaces(modes)| == |changes| && forall k :: 0 <= k < |changes| ==> ReadAs(modes, params, cls, changes, k)
  }

  /** Parameters used up once `changes` were read. */
  function Used(changes: seq<Change>, params: seq<string>, cls: Classes): nat {
    var wanting := Wanting(changes, |changes|, cls);
    if wanting < |params| then wanting else |params|
  }

  /** What the loop's variables stand for. */
  predicate ReaderOk(modes: string, params: seq<string>, cls: Classes, r: Reader) {
    r.add == Adds(modes, |modes|) && r.used == Used(r.changes, params, cls) && AllRead(modes, params, cls, r.changes)
  }

  lemma {:induction false} ReadsLetters(modes: string, params: seq<string>, cls: Classes)
    ensures ReaderOk(modes, params, cls, Read(modes, params, cls))
    decreases |modes|
  {
    if modes != "" {
      var n := |modes| - 1;
      ReadsLetters(modes[..n], params, cls);
      AddsPrefix(modes, n, n);
      OneMore(modes, params, cls, Read(modes[..n], params, cls));
    }
  }

  /** What was read stays read. */
  lemma StillRead(modes: string, params: seq<string>, cls: Classes, was: seq<Change>, now: seq<Change>, k: nat)
    requires modes != "" && was <= now && k < |was| && |LetterPlaces(modes[..|modes| - 1])| == |was| && |LetterPlaces(modes)| == |now|
    requires ReadAs(modes[..|modes| - 1], params, cls, was, k)
    ensures ReadAs(modes, params, cls, now, k)
  {
    var n := |modes| - 1;
    WantingPrefix(was, now, k, cls);
    assert LetterPlaces(modes)[k] == LetterPlaces(modes[..n])[k];
    AddsPrefix(modes, n, LetterPlaces(modes)[k]);
  }

  lemma AllStillRead(modes: string, params: seq<string>, cls: Classes, was: seq<Change>, now: seq<Change>)
    requires modes != "" && was <= now && AllRead(modes[..|modes| - 1], params, cls, was) && |LetterPlaces(modes)| == |now|
    ensures forall k :: 0 <= k < |was| ==> ReadAs(modes, params, cls, now, k)
  {
    hide ReadAs, LetterPlaces;
    forall k | 0 <= k < |was| ensures ReadAs(modes, params, cls, now, k) {
      assert ReadAs(modes[..|modes| - 1], params, cls, was, k);
      StillRead(modes, params, cls, was, now, k);
    }
  }

  lemma OneMore(modes: string, params: seq<string>, cls: Classes, was: Reader)
    requires modes != "" && ReaderOk(modes[..|modes| - 1], params, cls, was) && was.add == Adds(modes, |modes| - 1)
    ensures ReaderOk(modes, params, cls, ReadLetter(was, modes[|modes| - 1], params, cls))
  {
    hide Used, LetterPlaces, Adds, AllRead, ReadAs;
    AllReadCounts(modes[..|modes| - 1], params, cls, was.changes);
    if IsSign(modes[|modes| - 1]) {
      SignRead(modes);
      AllReadOn(modes, params, cls, was.changes, was.changes);
    } else {
      NewlyRead(modes, params, cls, was);
      var r := ReadLetter(was, modes[|modes| - 1], params, cls);
      hide ReadLetter;
      AllReadOn(modes, params, cls, was.changes, r.changes);
    }
  }

  lemma AllReadCounts(modes: string, params: seq<string>, cls: Classes, changes: seq<Change>)
    requires AllRead(modes, params, cls, changes)
    ensures |LetterPlaces(modes)| == |changes|
  {
  }

  lemma AllReadOn(modes: string, params: seq<string>, cls: Classes, was: seq<Change>, now: seq<Change>)
    requires modes != "" && was <= now && |LetterPlaces(modes)| == |now| <= |was| + 1
    requires AllRead(modes[..|modes| - 1], params, cls, was)
    requires |now| == |was| + 1 ==> ReadAs(modes, params, cls, now, |was|)
    ensures AllRead(modes, params, cls, now)
  {
    AllStillRead(modes, params, cls, was, now);
    hide ReadAs, LetterPlaces;
  }

  lemma SignRead(modes: string)
    requires modes != "" && IsSign(modes[|modes| - 1])
    ensures LetterPlaces(modes) == LetterPlaces(modes[..|modes| - 1])
    ensures (Adds(modes, |modes|) <==> modes[|modes| - 1] == '+')
  {
  }

  lemma NewlyRead(modes: string, params: seq<string>, cls: Classes, was: Reader)
    requires modes != "" && !IsSign(modes[|modes| - 1]) && was.add == Adds(modes, |modes| - 1)
    requires |LetterPlaces(modes[..|modes| - 1])| == |was.changes| && was.used == Used(was.changes, params, cls)
    ensures var r := ReadLetter(was, modes[|modes| - 1], params, cls);
            && |r.changes| == |was.changes| + 1 == |LetterPlaces(modes)| && was.changes <= r.changes
            && r.add == Adds(modes, |modes|)
            && ReadAs(modes, params, cls, r.changes, |was.changes|)
            && r.used == Used(r.changes, params, cls)
  {
    WantingPrefix(was.changes, ReadLetter(was, modes[|modes| - 1], params, cls).changes, |was.changes|, cls);
  }

  /** Every letter of a mode string becomes one change, in order, with the sign in force and the
      parameter that is its turn. */
  lemma ReadExactly(modes: string, params: seq<string>, cls: Classes, k: nat)
    ensures |Read(modes, params, cls).changes| == |LetterPlaces(modes)|
    ensures k < |LetterPlaces(modes)| ==> ReadAs(modes, params, cls, Read(modes, params, cls).changes, k)
  {
    ReadsLetters(modes, params, cls);
  }

  /** The places of letters are all of them, in order. */
  lemma {:induction false} PlacesExactly(modes: string)
    ensures forall i :: i in LetterPlaces(modes) <==> 0 <= i < |modes| && !IsSign(modes[i])
    ensures forall j, k :: 0 <= j < k < |LetterPlaces(modes)| ==> LetterPlaces(modes)[j] < LetterPlaces(modes)[k]
    decreases |modes|
  {
    if modes != "" {
      var n := |modes| - 1;
      PlacesExactly(modes[..n]);
      var front := LetterPlaces(modes[..n]);
      assert forall j :: 0 <= j < |front| ==> front[j] in front;
    }
  }

  // ---------------------------------------------------------------- applying changes

  predicate NamesFlag(ch: Change, m: char) {
    ch.mode == m && ch.kind == Flag
  }

  predicate NamesParam(ch: Change, m: char) {
    ch.mode == m && (ch.kind == Param || ch.kind == SetParam)
  }

  /** Change `k` is the last that names the flag, or the parameter, `m`. */
  predicate LastFlag(changes: seq<Change>, m: char, k: nat) {
    k < |changes| && NamesFlag(changes[k], m) && forall j :: k < j < |changes| ==> !NamesFlag(changes[j], m)
  }

  predicate LastParam(changes: seq<Change>, m: char, k: nat) {
    k < |changes| && NamesParam(changes[k], m) && forall j :: k < j < |changes| ==> !NamesParam(changes[j], m)
  }

  lemma LastFlagNext(changes: seq<Change>, m: char)
    requires changes != []
    ensures var n := |changes| - 1;
            forall k: nat :: LastFlag(changes, m, k) <==> if NamesFlag(changes[n], m) then k == n else LastFlag(changes[..n], m, k)
  {
  }

  lemma LastParamNext(changes: seq<Change>, m: char)
    requires changes != []
    ensures var n := |changes| - 1;
            forall k: nat :: LastParam(changes, m, k) <==> if NamesParam(changes[n], m) then k == n else LastParam(changes[..n], m, k)
  {
  }

  /** After any changes a flag is set iff the last change that names it adds it, or none names it and it
      was set. */
  lemma {:induction false} FlagAfter(st: State, changes: seq<Change>, m: char)
    ensures m in Folded(st, changes).flags <==>
            if exists k: nat :: LastFlag(changes, m, k) then exists k: nat :: LastFlag(changes, m, k) && changes[k].add
            else m in st.flags
    decreases |changes|
  {
    if changes != [] {
      var n := |changes| - 1;
      var front := changes[..n];
      FlagAfter(st, front, m);
      assert changes == front + [changes[n]];
      LastFlagNext(changes, m);
      assert NamesFlag(changes[n], m) ==> LastFlag(changes, m, n);
      hide LastFlag;
    }
  }

  /** The same for parameters: present with the parameter of the last change that adds it. */
  lemma {:induction false} ParamAfter(st: State, changes: seq<Change>, m: char)
    ensures var r := Folded(st, changes);
            && (m in r.params <==>
                if exists k: nat :: LastParam(changes, m, k) then exists k: nat :: LastParam(changes, m, k) && changes[k].add
                else m in st.params)
            && (forall k: nat :: LastParam(changes, m, k) && changes[k].add ==> m in r.params && r.params[m] == changes[k].param)
            && (!(exists k: nat :: LastParam(changes, m, k)) && m in st.params ==> m in r.params && r.params[m] == st.params[m])
    decreases |changes|
  {
    if changes != [] {
      var n := |changes| - 1;
      var front := changes[..n];
      ParamAfter(st, front, m);
      assert changes == front + [changes[n]];
      LastParamNext(changes, m);
      assert NamesParam(changes[n], m) ==> LastParam(changes, m, n);
      hide LastParam;
    }
  }

  /** A letter has a last change exactly if some change names it. */
  lemma {:induction false} NamedHasLast(changes: seq<Change>, m: char)
    ensures (exists k: nat :: LastFlag(changes, m, k)) <==> exists ch :: ch in changes && NamesFlag(ch, m)
    ensures (exists k: nat :: LastParam(changes, m, k)) <==> exists ch :: ch in changes && NamesParam(ch, m)
    decreases |changes|
  {
    if changes != [] {
      var n := |changes| - 1;
      NamedHasLast(changes[..n], m);
      LastFlagNext(changes, m);
      LastParamNext(changes, m);
      assert NamesFlag(changes[n], m) ==> LastFlag(changes, m, n);
      assert NamesParam(changes[n], m) ==> LastParam(changes, m, n);
      assert changes == changes[..n] + [changes[n]];
      hide LastFlag, LastParam, NamesFlag, NamesParam;
    }
  }

  /** List and membership changes alter nothing. */
  lemma {:induction false} OtherChangesPass(st: State, changes: seq<Change>)
    requires forall k :: 0 <= k < |changes| ==> changes[k].kind == List || changes[k].kind == Prefix
    ensures Folded(st, changes) == st
    decreases |changes|
  {
    if changes != [] {
      OtherChangesPass(st, changes[..|changes| - 1]);
    }
  }

  /** The stored string after an update, read again: the same rule for what is set, whatever the
      parameters; their values are those of the last additions if the state reached can be stored. */
  lemma StoredAfter(prior: string, changes: seq<Change>, cls: Classes, m: char)
    requires Classified(changes, cls)
    ensures var was, now := Parsed(prior, cls), Parsed(Applied(prior, changes, cls), cls);
            && (m in now.flags <==>
                if exists k: nat :: LastFlag(changes, m, k) then exists k: nat :: LastFlag(changes, m, k) && changes[k].add
                else m in was.flags)
            && (m in now.params <==>
                if exists k: nat :: LastParam(changes, m, k) then exists k: nat :: LastParam(changes, m, k) && changes[k].add
                else m in was.params)
            && (Storable(Folded(was, changes), cls) ==>
                  forall k: nat :: LastParam(changes, m, k) && changes[k].add ==> m in now.params && now.params[m] == changes[k].param)
  {
    var was := Parsed(prior, cls);
    ParsedConsistent(prior, cls);
    FoldedConsistent(was, changes, cls);
    FlagAfter(was, changes, m);
    ParamAfter(was, changes, m);
    var st := Folded(was, changes);
    hide Consistent, Storable, Printed, Parsed, Folded, Classified, LastFlag, LastParam;
    RoundTrip(st, cls);
    if Parsed(Printed(st), cls) != st {
      ComesBackWithSameKeys(st, cls);
    }
    assert m in st.params <==> m in st.params.Keys;
  }
}
