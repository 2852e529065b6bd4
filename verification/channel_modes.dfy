/** Channel modes as internal/irc/modeparse.go keeps them: a string is the stored state and is parsed
    again for every update. */
module ChannelModes {
  import opened Unicode

  datatype Kind = Flag | List | Param | SetParam | Prefix

  /** A server's grammar: the letters of CHANMODES types A, B and C, and of PREFIX. Every other
      letter is a flag. */
  datatype Classes = Classes(list: set<char>, param: set<char>, setParam: set<char>, prefix: set<char>) {
    function KindOf(m: char): Kind {
      if m in prefix then Prefix
      else if m in list then List
      else if m in param then Param
      else if m in setParam then SetParam
      else Flag
    }
  }

  predicate ConsumesParam(k: Kind, add: bool) {
    match k
    case List => true
    case Param => true
    case Prefix => true
    case SetParam => add
    case Flag => false
  }

  datatype Change = Change(add: bool, mode: char, param: string, kind: Kind)

  /** Where ParseModeChanges stands. */
  datatype Reader = Reader(changes: seq<Change>, add: bool, used: nat)

  function ReadLetter(r: Reader, m: char, params: seq<string>, cls: Classes): Reader {
    if m == '+' then r.(add := true)
    else if m == '-' then r.(add := false)
    else
      var kind := cls.KindOf(m);
      var takes := ConsumesParam(kind, r.add) && r.used < |params|;
      Reader(r.changes + [Change(r.add, m, if takes then params[r.used] else "", kind)], r.add, if takes then r.used + 1 else r.used)
  }

  function Read(modes: string, params: seq<string>, cls: Classes): Reader {
    if modes == "" then Reader([], true, 0)
    else ReadLetter(Read(modes[..|modes| - 1], params, cls), modes[|modes| - 1], params, cls)
  }

  method ParseModeChanges(modes: string, params: seq<string>, cls: Classes) returns (changes: seq<Change>)
    ensures changes == Read(modes, params, cls).changes
  {
    changes := [];
    var add := true;
    var pi: nat := 0;
    for i := 0 to |modes|
      invariant Reader(changes, add, pi) == Read(modes[..i], params, cls)
    {
      var m := modes[i];
      assert modes[..i + 1][..i] == modes[..i] && modes[..i + 1][i] == m;
      if m == '+' {
        add := true;
      } else if m == '-' {
        add := false;
      } else {
        var kind := cls.KindOf(m);
        var param := "";
        if ConsumesParam(kind, add) && pi < |params| {
          param := params[pi];
          pi := pi + 1;
        }
        changes := changes + [Change(add, m, param, kind)];
      }
    }
    assert modes[..|modes|] == modes;
  }

  // ---------------------------------------------------------------- the state

  /** ChannelModeState: flags that are set, and parameters of the modes that take one. */
  datatype State = State(flags: set<char>, params: map<char, string>)

  const EMPTY := State({}, map[])

  /** strings.Fields: complete words and the one still being read. */
  datatype Cut = Cut(words: seq<string>, last: string)

  function Closed(c: Cut): seq<string> {
    if c.last == "" then c.words else c.words + [c.last]
  }

  function CutUp(s: string): Cut {
    if s == "" then Cut([], "")
    else
      var c := CutUp(s[..|s| - 1]);
      if IsSpace(s[|s| - 1]) then Cut(Closed(c), "") else Cut(c.words, c.last + [s[|s| - 1]])
  }

  function Words(s: string): seq<string> {
    Closed(CutUp(s))
  }

  /** What a change read from a stored string contributes; its sign is ignored. */
  function Noted(st: State, ch: Change): State {
    match ch.kind
    case Flag => st.(flags := st.flags + {ch.mode})
    case Param => st.(params := st.params[ch.mode := ch.param])
    case SetParam => st.(params := st.params[ch.mode := ch.param])
    case _ => st
  }

  function Collected(changes: seq<Change>): State {
    if changes == [] then EMPTY else Noted(Collected(changes[..|changes| - 1]), changes[|changes| - 1])
  }

  /** parseChannelModeState. */
  function Parsed(s: string, cls: Classes): State {
    var fields := Words(s);
    if fields == [] then EMPTY
    else
      var modes := if fields[0] != "" && (fields[0][0] == '+' || fields[0][0] == '-') then fields[0] else "+" + fields[0];
      Collected(Read(modes, fields[1..], cls).changes)
  }

  ghost function Least(s: set<char>): (m: char)
    requires s != {}
    ensures m in s && forall c :: c in s ==> m <= c
  {
    var m :| m in s;
    if s == {m} then m
    else
      var n := Least(s - {m});
      assert forall c :: c in s ==> c == m || c in s - {m};
      if m <= n then m else n
  }

  /** The letters of a set in order. */
  ghost function Sorted(s: set<char>): (r: seq<char>)
    ensures forall i, j :: 0 <= i < j < |r| ==> r[i] < r[j]
    ensures forall c :: c in s <==> c in r
  {
    if s == {} then [] else [Least(s)] + Sorted(s - {Least(s)})
  }

  function ParamText(letters: seq<char>, params: map<char, string>): string {
    if letters == [] then ""
    else
      var m := letters[|letters| - 1];
      ParamText(letters[..|letters| - 1], params) + (if m in params && params[m] != "" then " " + params[m] else "")
  }

  function Text(letters: seq<char>, params: map<char, string>): string {
    if letters == [] then "" else "+" + letters + ParamText(letters, params)
  }

  ghost function Letters(st: State): seq<char> {
    Sorted(st.flags + st.params.Keys)
  }

  /** ChannelModeState.String. */
  ghost function Printed(st: State): string {
    Text(Letters(st), st.params)
  }

  /** The loops of String, once the letters are sorted. */
  method Render(letters: seq<char>, params: map<char, string>) returns (s: string)
    ensures s == Text(letters, params)
  {
    if |letters| == 0 {
      return "";
    }
    s := "+";
    for i := 0 to |letters|
      invariant s == "+" + letters[..i]
    {
      s := s + [letters[i]];
      assert letters[..i + 1] == letters[..i] + [letters[i]];
    }
    assert letters[..|letters|] == letters;
    for i := 0 to |letters|
      invariant s == "+" + letters + ParamText(letters[..i], params)
    {
      var m := letters[i];
      assert letters[..i + 1][..i] == letters[..i];
      if m in params && params[m] != "" {
        s := s + " " + params[m];
      }
    }
  }

  function Changed(st: State, ch: Change): State {
    match ch.kind
    case Flag => if ch.add then st.(flags := st.flags + {ch.mode}) else st.(flags := st.flags - {ch.mode})
    case List => st
    case Prefix => st
    case _ => if ch.add then st.(params := st.params[ch.mode := ch.param]) else st.(params := st.params - {ch.mode})
  }

  function Folded(st: State, changes: seq<Change>): State {
    if changes == [] then st else Changed(Folded(st, changes[..|changes| - 1]), changes[|changes| - 1])
  }

  /** applyChannelModes. */
  ghost function Applied(prior: string, changes: seq<Change>, cls: Classes): string {
    Printed(Folded(Parsed(prior, cls), changes))
  }

  /** The loop of applyChannelModes over its two maps. */
  method Fold(st: State, changes: seq<Change>) returns (r: State)
    ensures r == Folded(st, changes)
  {
    var flags, params := st.flags, st.params;
    for i := 0 to |changes|
      invariant State(flags, params) == Folded(st, changes[..i])
    {
      var ch := changes[i];
      assert changes[..i + 1][..i] == changes[..i];
      match ch.kind {
        case Flag =>
          if ch.add {
            flags := flags + {ch.mode};
          } else {
            flags := flags - {ch.mode};
          }
        case Param =>
          if ch.add {
            params := params[ch.mode := ch.param];
          } else {
            params := params - {ch.mode};
          }
        case SetParam =>
          if ch.add {
            params := params[ch.mode := ch.param];
          } else {
            params := params - {ch.mode};
          }
        case _ =>
      }
    }
    assert changes[..|changes|] == changes;
    return State(flags, params);
  }
}
