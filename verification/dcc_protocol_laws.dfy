/** Round trips and normal form of the DCC control messages. */
module DccProtocolLaws {
  import opened DccTypes
  import opened DccNames
  import opened DccProtocol
  import opened Unicode

  // ---------------------------------------------------------------- decimal numbers

  lemma {:induction false} DecimalValue(n: nat)
    ensures AllDigits(Decimal(n)) && Value(Decimal(n)) == n && |Decimal(n)| > 0
    decreases n
  {
    var d := Decimal(n);
    if n >= 10 {
      DecimalValue(n / 10);
      assert d[..|d| - 1] == Decimal(n / 10);
    } else {
      assert d[..0] == "";
    }
  }

  lemma DigitsBare(s: string)
    requires AllDigits(s)
    ensures Bare(s)
  {
  }

  lemma PortRoundTrip(n: int)
    ensures ParsePort(FormatInt(n)) == if 0 <= n <= 65535 then Ok(n) else Err
    ensures ParseCount(FormatInt(n)) == if 0 <= n <= MAX_INT64 then Ok(n) else Err
    ensures n >= 0 ==> AllDigits(FormatInt(n))
  {
    DecimalValue(if n < 0 then -n else n);
    if n < 0 {
      assert FormatInt(n)[1..] == Decimal(-n);
    } else {
      assert IsDigit(Decimal(n)[0]);
    }
  }

  // ---------------------------------------------------------------- addresses

  lemma BigEndianRoundTrip(b: seq<Byte>)
    requires |b| == 4
    ensures BigEndian(b) < 0x1_0000_0000 && PutBigEndian(BigEndian(b)) == b
  {
    var n: int := BigEndian(b);
    assert n / 256 == (b[0] as int * 256 + b[1] as int) * 256 + b[2] as int && n % 256 == b[3];
    assert n / 0x1_0000 == n / 256 / 256 && n / 0x100_0000 == n / 256 / 256 / 256;
    assert PutBigEndian(n)[0] == b[0] && PutBigEndian(n)[1] == b[1] && PutBigEndian(n)[2] == b[2] && PutBigEndian(n)[3] == b[3];
  }

  /** An advertised IPv4 address comes back as the same four bytes, exactly if it is admitted. */
  lemma AddressRoundTrip(ip: Texts, b: seq<Byte>)
    requires |b| == 4
    ensures ParseAddress(ip, FormatV4(b)) == if Admitted(b) then Ok(V4(b)) else Err
  {
    BigEndianRoundTrip(b);
    DecimalValue(BigEndian(b));
  }

  // ---------------------------------------------------------------- the scanner

  lemma {:induction false} ScanAppend(sc: Scan, a: string, b: string)
    ensures Scanned(sc, a + b) == Scanned(Scanned(sc, a), b)
    decreases |b|
  {
    if b == "" {
      assert a + b == a;
    } else {
      assert (a + b)[..|a + b| - 1] == a + b[..|b| - 1];
      ScanAppend(sc, a, b[..|b| - 1]);
    }
  }

  lemma ScanOne(sc: Scan, c: char)
    ensures Scanned(sc, [c]) == Next(sc, c)
  {
    assert [c][..0] == "";
    assert Scanned(sc, "") == sc;
  }

  function Clean(fields: seq<string>): Scan {
    Scan(fields, "", false, false, false)
  }

  function Held(fields: seq<string>, value: string): Scan {
    Scan(fields, value, false, false, true)
  }

  /** Read from a clean state, `text` is one field with content `value`. */
  ghost predicate Spells(text: string, value: string) {
    && (forall fields :: Scanned(Clean(fields), text) == Held(fields, value))
    && text != "" && !IsSpace(text[0]) && !IsSpace(text[|text| - 1])
  }

  lemma {:induction false} BareScan(fields: seq<string>, s: string)
    requires Bare(s)
    ensures Scanned(Clean(fields), s) == if s == "" then Clean(fields) else Held(fields, s)
    decreases |s|
  {
    if s != "" {
      BareScan(fields, s[..|s| - 1]);
      assert s[..|s| - 1] + [s[|s| - 1]] == s;
    }
  }

  lemma BareSpells(s: string)
    requires Bare(s) && s != ""
    ensures Spells(s, s)
  {
    forall fields ensures Scanned(Clean(fields), s) == Held(fields, s) {
      BareScan(fields, s);
    }
  }

  lemma {:induction false} EscapedScan(fields: seq<string>, s: string)
    requires forall k :: 0 <= k < |s| ==> s[k] != '\\'
    ensures Scanned(Scan(fields, "", true, false, true), EscapeQuotes(s)) == Scan(fields, s, true, false, true)
    decreases |s|
  {
    if s != "" {
      var front, c := s[..|s| - 1], s[|s| - 1];
      EscapedScan(fields, front);
      var step := if c == '"' then "\\\"" else [c];
      assert EscapeQuotes(s) == EscapeQuotes(front) + step;
      hide Scanned, Next, EscapeQuotes;
      assert front + [c] == s;
      ScanAppend(Scan(fields, "", true, false, true), EscapeQuotes(front), step);
      EscapedStep(fields, front, c);
    }
  }

  /** Inside quotes an escaped quote, or any other character, is added to the field. */
  lemma EscapedStep(fields: seq<string>, held: string, c: char)
    requires c != '\\'
    ensures Scanned(Scan(fields, held, true, false, true), if c == '"' then "\\\"" else [c])
         == Scan(fields, held + [c], true, false, true)
  {
    var sc := Scan(fields, held, true, false, true);
    hide Scanned;
    if c == '"' {
      ScanAppend(sc, "\\", "\"");
      assert "\\\"" == "\\" + "\"";
      ScanOne(sc, '\\');
      ScanOne(Scan(fields, held, true, true, true), '"');
    } else {
      ScanOne(sc, c);
    }
  }

  lemma {:induction false} AfterSlashSame(s: string)
    requires forall k :: 0 <= k < |s| ==> s[k] != '/'
    ensures AfterSlash(s) == s
    decreases |s|
  {
    if s != "" {
      AfterSlashSame(s[..|s| - 1]);
    }
  }

  lemma QuoteSpells(name: string)
    requires SafeFilename(name)
    ensures Spells(QuoteFilename(name), name)
  {
    assert StripSlashes(name) == name;
    AfterSlashSame(name);
    assert Base(name) == name;
    if Bare(name) {
      BareSpells(name);
    } else {
      var inner := EscapeQuotes(name);
      forall fields ensures Scanned(Clean(fields), "\"" + inner + "\"") == Held(fields, name) {
        ScanAppend(Clean(fields), "\"" + inner, "\"");
        ScanAppend(Clean(fields), "\"", inner);
        ScanOne(Clean(fields), '"');
        EscapedScan(fields, name);
        ScanOne(Scan(fields, name, true, false, true), '"');
      }
    }
  }

  /** Each text spells the value at its place. */
  ghost predicate Spell(texts: seq<string>, values: seq<string>) {
    |texts| == |values| > 0 && forall k :: 0 <= k < |texts| ==> Spells(texts[k], values[k])
  }

  /** A space ends the field that is held, and the next text is the next field. */
  lemma NextField(front: string, done: seq<string>, last: string, text: string, value: string)
    requires Scanned(START, front) == Held(done, last) && Spells(text, value)
    ensures Scanned(START, front + " ") == Clean(done + [last])
    ensures Scanned(START, front + " " + text) == Held(done + [last], value)
  {
    assert Scanned(Clean(done + [last]), text) == Held(done + [last], value);
    hide Scanned, Spells;
    ScanAppend(START, front, " ");
    ScanOne(Held(done, last), ' ');
    ScanAppend(START, front + " ", text);
  }

  lemma FirstField(text: string, value: string)
    requires Spells(text, value)
    ensures Scanned(START, text) == Held([], value)
  {
    assert START == Clean([]);
  }

  lemma {:induction false} JoinScan(texts: seq<string>, values: seq<string>)
    requires Spell(texts, values)
    ensures Scanned(START, Join(texts)) == Held(values[..|values| - 1], values[|values| - 1])
    decreases |texts|
  {
    var n := |texts| - 1;
    assert Spells(texts[n], values[n]);
    hide Scanned, Spells, IsSpace;
    if n == 0 {
      assert values[..0] == [];
      FirstField(texts[0], values[0]);
    } else {
      JoinScan(texts[..n], values[..n]);
      assert values[..n] == values[..n][..n - 1] + [values[n - 1]];
      NextField(Join(texts[..n]), values[..n][..n - 1], values[n - 1], texts[n], values[n]);
    }
  }

  lemma {:induction false} JoinEnds(texts: seq<string>, values: seq<string>)
    requires Spell(texts, values)
    ensures Join(texts) != "" && !IsSpace(Join(texts)[0]) && !IsSpace(Join(texts)[|Join(texts)| - 1])
    decreases |texts|
  {
    var n := |texts| - 1;
    assert Spells(texts[n], values[n]);
    hide IsSpace, Scanned;
    if n > 0 {
      JoinEnds(texts[..n], values[..n]);
    }
  }

  lemma TrimSame(s: string)
    requires s != "" && !IsSpace(s[0]) && !IsSpace(s[|s| - 1])
    ensures TrimSpace(s) == s
  {
  }

  lemma JoinFields(texts: seq<string>, values: seq<string>)
    requires Spell(texts, values)
    ensures Fields(TrimSpace(Join(texts))) == Ok(values)
  {
    JoinScan(texts, values);
    JoinEnds(texts, values);
    hide Scanned, Spell, Join;
    TrimSame(Join(texts));
    assert values[..|values| - 1] + [values[|values| - 1]] == values;
  }

  // ---------------------------------------------------------------- what the parser accepts

  /** No textual address contains a space or a quote. */
  ghost predicate PlainTexts(ip: Texts) {
    forall s :: ip(s) ==> s != "" && Bare(s)
  }

  predicate SendWellFormed(ip: Texts, o: Offer) {
    && o.command == Send
    && SafeFilename(o.filename)
    && 0 <= o.port <= 65535
    && 0 <= o.size <= MAX_INT64
    && o.position == 0
    && o.passive == (o.port == 0)
    && if o.passive then o.address == "0" && o.token != "" else ParseAddress(ip, o.address).Ok?
  }

  predicate ResumeWellFormed(o: Offer) {
    && (o.command == Resume || o.command == Accept)
    && SafeFilename(o.filename)
    && o.address == ""
    && 0 <= o.port <= 65535
    && o.size == 0
    && 0 <= o.position <= MAX_INT64
    && o.passive == (o.port == 0)
  }

  lemma ParsedIsWellFormed(ip: Texts, payload: string)
    ensures var r := Parse(ip, payload);
            r.Ok? ==> SendWellFormed(ip, r.value) || ResumeWellFormed(r.value) || r.value == Offer(Chat, "", "", 0, 0, 0, "", false)
  {
    hide Fields, TrimSpace, Join;
  }

  lemma {:induction false} TrimBracketsBare(s: string)
    requires Bare(TrimBrackets(s)) && TrimBrackets(s) != ""
    ensures Bare(s) && s != ""
    decreases |s|
  {
    if s != "" && (s[0] == '[' || s[0] == ']') {
      TrimBracketsBare(s[1..]);
      assert forall k :: 0 < k < |s| ==> s[k] == s[1..][k - 1];
    } else if s != "" && (s[|s| - 1] == '[' || s[|s| - 1] == ']') {
      TrimBracketsBare(s[..|s| - 1]);
      assert forall k :: 0 <= k < |s| - 1 ==> s[k] == s[..|s| - 1][k];
    }
  }

  lemma AddressBare(ip: Texts, raw: string)
    requires PlainTexts(ip) && ParseAddress(ip, raw).Ok?
    ensures Bare(raw) && raw != ""
  {
    if ParseUint32(raw).Err? {
      TrimBracketsBare(raw);
    }
  }

  // ---------------------------------------------------------------- the printed fields

  function SendTexts(o: Offer): seq<string> {
    ["SEND", QuoteFilename(o.filename), o.address, FormatInt(o.port), FormatInt(o.size)]
  }

  function SendValues(o: Offer): seq<string> {
    ["SEND", o.filename, o.address, FormatInt(o.port), FormatInt(o.size)]
  }

  lemma NumberSpells(n: int)
    requires n >= 0
    ensures Spells(FormatInt(n), FormatInt(n))
  {
    DecimalValue(n);
    DigitsBare(FormatInt(n));
    BareSpells(FormatInt(n));
  }

  lemma SendSpells(ip: Texts, o: Offer)
    requires PlainTexts(ip) && SendWellFormed(ip, o)
    ensures Spell(SendTexts(o), SendValues(o))
  {
    hide Spells, SafeFilename, IsSpace;
    SendSpellsEach(ip, o);
  }

  lemma WordSpells(c: Command)
    ensures Spells(Word(c), Word(c))
  {
    BareSpells(Word(c));
  }

  lemma AddressSpells(ip: Texts, o: Offer)
    requires PlainTexts(ip) && SendWellFormed(ip, o)
    ensures Spells(o.address, o.address)
  {
    if !o.passive {
      AddressBare(ip, o.address);
    }
    BareSpells(o.address);
  }

  lemma SendSpellsEach(ip: Texts, o: Offer)
    requires PlainTexts(ip) && SendWellFormed(ip, o)
    ensures forall k :: 0 <= k < 5 ==> Spells(SendTexts(o)[k], SendValues(o)[k])
  {
    AddressSpells(ip, o);
    hide Spells, Bare, ParseAddress, QuoteFilename, FormatInt, PlainTexts;
    WordSpells(Send);
    QuoteSpells(o.filename);
    NumberSpells(o.port);
    NumberSpells(o.size);
  }

  function ResumeTexts(o: Offer): seq<string> {
    [Word(o.command), QuoteFilename(o.filename), FormatInt(o.port), FormatInt(o.position)]
  }

  function ResumeValues(o: Offer): seq<string> {
    [Word(o.command), o.filename, FormatInt(o.port), FormatInt(o.position)]
  }

  lemma ResumeSpells(o: Offer)
    requires ResumeWellFormed(o)
    ensures Spell(ResumeTexts(o), ResumeValues(o))
  {
    hide Spells, QuoteFilename, FormatInt;
    WordSpells(o.command);
    QuoteSpells(o.filename);
    NumberSpells(o.port);
    NumberSpells(o.position);
  }

  /** The printed command words are upper case already. */
  lemma WordUpper(c: Command)
    ensures ToUpper(Word(c)) == Word(c)
  {
  }

  /** Parsing the fields that were printed, with a token of at least no fields. */
  lemma SendFieldsParse(ip: Texts, o: Offer)
    requires SendWellFormed(ip, o)
    ensures ParseFields(ip, WithToken(SendValues(o), o.token)) == Ok(o)
    ensures o.token != "" ==> ParseFields(ip, SendValues(o)) != Ok(o)
  {
    WordUpper(Send);
    PortRoundTrip(o.port);
    PortRoundTrip(o.size);
    hide ParsePort, ParseCount, FormatInt, ToUpper, ParseAddress;
  }

  lemma ResumeFieldsParse(ip: Texts, o: Offer)
    requires ResumeWellFormed(o)
    ensures ParseFields(ip, WithToken(ResumeValues(o), o.token)) == Ok(o)
    ensures o.token != "" ==> ParseFields(ip, ResumeValues(o)) != Ok(o)
  {
    WordUpper(o.command);
    PortRoundTrip(o.port);
    PortRoundTrip(o.position);
    hide ParsePort, ParseCount, FormatInt, ToUpper;
  }

  lemma TokenSpells(texts: seq<string>, values: seq<string>, token: string)
    requires Spell(texts, values) && Bare(token)
    ensures Spell(WithToken(texts, token), WithToken(values, token))
  {
    if token != "" {
      BareSpells(token);
      hide Spells;
      assert texts + [token] == WithToken(texts, token);
    }
  }

  // ---------------------------------------------------------------- tokens that do not come back

  function TotalLength(fields: seq<string>): nat {
    if fields == [] then 0 else TotalLength(fields[..|fields| - 1]) + |fields[|fields| - 1]|
  }

  lemma TotalMore(fields: seq<string>, x: string)
    ensures TotalLength(fields + [x]) == TotalLength(fields) + |x|
  {
    assert (fields + [x])[..|fields|] == fields;
  }

  /** Everything a scan has kept. */
  function Kept(sc: Scan): nat {
    TotalLength(sc.fields) + |sc.buffer|
  }

  /** What a scan of `s` behind `fields` has kept. */
  predicate KeepsOk(fields: seq<string>, s: string, sc: Scan) {
    && |fields| <= |sc.fields| && sc.fields[..|fields|] == fields
    && (!sc.have ==> sc.buffer == "")
    && Kept(sc) <= TotalLength(fields) + |s|
    && (sc.escaped || sc.inQuote ==> Kept(sc) < TotalLength(fields) + |s|)
    && (Kept(sc) == TotalLength(fields) + |s| ==> Bare(s))
  }

  lemma NextKeeps(fields: seq<string>, s: string, sc: Scan, c: char)
    requires KeepsOk(fields, s, sc)
    ensures KeepsOk(fields, s + [c], Next(sc, c))
  {
    var all := s + [c];
    if sc.have {
      TotalMore(sc.fields, sc.buffer);
    }
    hide TotalLength;
    assert Bare(s) && !IsSpace(c) && c != '"' ==> Bare(all);
  }

  /** A scan keeps at most the characters it reads, and all of them only if none is a separator or a
      quote. Fields already complete stay. */
  lemma {:induction false} ScanKeeps(fields: seq<string>, s: string)
    ensures KeepsOk(fields, s, Scanned(Clean(fields), s))
    decreases |s|
  {
    if s != "" {
      ScanKeeps(fields, s[..|s| - 1]);
      NextKeeps(fields, s[..|s| - 1], Scanned(Clean(fields), s[..|s| - 1]), s[|s| - 1]);
      assert s[..|s| - 1] + [s[|s| - 1]] == s;
      hide KeepsOk;
    }
  }

  /** The fields after `values` that a token yields give it back exactly if it is bare. */
  lemma LastFieldIsToken(values: seq<string>, text: string, token: string)
    requires |text| <= |token|
    ensures var sc := Scanned(Clean(values), text);
            Flushed(sc).fields == values + [token] && !sc.escaped && !sc.inQuote ==> text == token && Bare(token)
  {
    var sc := Scanned(Clean(values), text);
    ScanKeeps(values, text);
    if Flushed(sc).fields == values + [token] && !sc.escaped && !sc.inQuote {
      TotalMore(values, token);
      if sc.have {
        TotalMore(sc.fields, sc.buffer);
      }
      assert Kept(sc) == TotalLength(Flushed(sc).fields);
      assert Kept(sc) == TotalLength(values) + |token|;
      BareScan(values, text);
      assert (values + [text])[|values|] == text;
      assert (values + [token])[|values|] == token;
    }
  }

  lemma {:induction false} TrimRightParts(s: string)
    ensures |TrimRight(s)| <= |s| && s[..|TrimRight(s)|] == TrimRight(s) && Blank(s[|TrimRight(s)|..])
    ensures TrimRight(s) != "" ==> !IsSpace(TrimRight(s)[|TrimRight(s)| - 1])
    decreases |s|
  {
    if s != "" && IsSpace(s[|s| - 1]) {
      var t := TrimRight(s);
      TrimRightParts(s[..|s| - 1]);
      assert s[|t|..] == s[..|s| - 1][|t|..] + [s[|s| - 1]];
    } else {
      assert s[|s|..] == "";
    }
  }

  lemma {:induction false} TrimRightIs(front: string, back: string)
    requires front != "" && !IsSpace(front[|front| - 1]) && Blank(back)
    ensures TrimRight(front + back) == front
    decreases |back|
  {
    if back == "" {
      assert front + back == front;
    } else {
      assert (front + back)[..|front + back| - 1] == front + back[..|back| - 1];
      TrimRightIs(front, back[..|back| - 1]);
    }
  }

  /** Trimming a printed message whose token is `token`: either the token is blank and disappears, or
      it loses its trailing spaces. */
  lemma TrimToken(front: string, token: string)
    requires front != "" && !IsSpace(front[0]) && !IsSpace(front[|front| - 1])
    ensures TrimSpace(front + " " + token) == if TrimRight(token) == "" then front else front + " " + TrimRight(token)
  {
    var kept := TrimRight(token);
    TrimRightParts(token);
    var back := token[|kept|..];
    hide TrimRight, TrimLeft, TrimSpace, IsSpace;
    assert token == kept + back;
    if kept == "" {
      assert token == back;
      TrimBlankToken(front, back);
    } else {
      TrimKeptToken(front, kept, back);
    }
  }

  lemma TrimBlankToken(front: string, back: string)
    requires front != "" && !IsSpace(front[0]) && !IsSpace(front[|front| - 1]) && Blank(back)
    ensures TrimSpace(front + " " + back) == front
  {
    SpacesMore(back);
    hide TrimRight, TrimLeft, IsSpace;
    assert front + " " + back == front + (" " + back);
    TrimRightIs(front, " " + back);
    TrimLeftSame(front);
  }

  lemma TrimKeptToken(front: string, kept: string, back: string)
    requires front != "" && !IsSpace(front[0]) && Blank(back)
    requires kept != "" && !IsSpace(kept[|kept| - 1])
    ensures TrimSpace(front + " " + (kept + back)) == front + " " + kept
  {
    hide TrimRight, TrimLeft, IsSpace;
    var whole := front + " " + kept;
    assert front + " " + (kept + back) == whole + back;
    TrimRightIs(whole, back);
    TrimLeftSame(whole);
  }

  lemma SpacesMore(back: string)
    requires Blank(back)
    ensures Blank(" " + back)
  {
  }

  lemma TrimLeftSame(s: string)
    requires s != "" && !IsSpace(s[0])
    ensures TrimLeft(s) == s
  {
  }

  /** A token with a separator or a quote never comes back as the one field after `values`. */
  lemma OddToken(texts: seq<string>, values: seq<string>, token: string, r: seq<string>)
    requires Spell(texts, values) && !Bare(token)
    requires Fields(TrimSpace(Join(texts + [token]))) == Ok(r)
    ensures r == values || (|r| > |values| && r[..|values|] == values && r != values + [token])
  {
    var front := Join(texts);
    assert (texts + [token])[..|texts|] == texts;
    JoinEnds(texts, values);
    TrimToken(front, token);
    var kept := TrimRight(token);
    TrimRightParts(token);
    assert Join(texts + [token]) == front + " " + token;
    hide Scanned, TrimSpace, TrimRight, Join, Bare, Spell;
    if kept == "" {
      JoinFields(texts, values);
      TrimSame(front);
    } else {
      JoinThenSpace(texts, values);
      ScanAppend(START, front + " ", kept);
      OddKept(values, kept, token);
    }
  }

  lemma OddKept(values: seq<string>, kept: string, token: string)
    requires kept != "" && !IsSpace(kept[|kept| - 1]) && |kept| <= |token| && !Bare(token)
    ensures var sc := Scanned(Clean(values), kept);
            var r := Flushed(sc).fields;
            !sc.escaped && !sc.inQuote ==> |r| > |values| && r[..|values|] == values && r != values + [token]
  {
    hide Scanned, Bare;
    ScanKeeps(values, kept);
    LastFieldIsToken(values, kept, token);
    KeptSomething(values, kept);
  }

  lemma JoinThenSpace(texts: seq<string>, values: seq<string>)
    requires Spell(texts, values)
    ensures Scanned(START, Join(texts) + " ") == Clean(values)
  {
    hide Scanned, Spells, Join;
    var n := |values| - 1;
    JoinScan(texts, values);
    hide Spell;
    assert values == values[..n] + [values[n]];
    ScanAppend(START, Join(texts), " ");
    ScanOne(Held(values[..n], values[n]), ' ');
  }

  /** Text that is not blank yields a field or leaves the scanner in the middle of one. */
  lemma {:induction false} KeptSomething(values: seq<string>, s: string)
    requires s != "" && !IsSpace(s[|s| - 1])
    ensures var sc := Scanned(Clean(values), s); sc.have || sc.escaped || sc.inQuote || |sc.fields| > |values|
  {
    ScanKeeps(values, s[..|s| - 1]);
  }

  lemma {:induction false} JoinLonger(parts: seq<string>)
    requires |parts| >= 1
    ensures |Join(parts)| >= |parts[0]| + |parts| - 1
    decreases |parts|
  {
    if |parts| > 1 {
      JoinLonger(parts[..|parts| - 1]);
    }
  }

  lemma FromRightDiffers(ip: Texts, fields: seq<string>, tail: nat, o: Offer)
    requires 3 <= tail <= 4 && |fields| - tail >= 3 && fields[1] == o.filename
    ensures MakeFromRight(ip, fields, tail) != Ok(o)
  {
    var name := fields[1..|fields| - tail];
    JoinLonger(name);
    assert name[0] == fields[1];
    hide Join;
  }

  /** With other fields after the printed ones the message means another offer, or none. */
  lemma OtherSendFields(ip: Texts, o: Offer, r: seq<string>)
    requires SendWellFormed(ip, o) && |r| > 5 && r[..5] == SendValues(o) && r != SendValues(o) + [o.token]
    ensures ParseFields(ip, r) != Ok(o)
  {
    WordUpper(Send);
    assert r[0] == r[..5][0] && r[1] == r[..5][1];
    if |r| == 6 {
      assert r == SendValues(o) + [r[5]];
      assert Join(r[1..2]) == r[1];
      FromRightDiffers(ip, r, 3, o);
      hide ParsePort, ParseCount, FormatInt, ToUpper, ParseAddress, Join;
      assert MakeFromRight(ip, r, 4) != Ok(o);
    } else {
      FromRightDiffers(ip, r, 4, o);
      FromRightDiffers(ip, r, 3, o);
      hide MakeFromRight, ToUpper;
    }
  }

  lemma OtherResumeFields(ip: Texts, o: Offer, r: seq<string>)
    requires ResumeWellFormed(o) && |r| > 4 && r[..4] == ResumeValues(o) && r != ResumeValues(o) + [o.token]
    ensures ParseFields(ip, r) != Ok(o)
  {
    WordUpper(o.command);
    assert r[0] == r[..4][0];
    if |r| == 5 {
      assert r == ResumeValues(o) + [r[4]];
    }
    hide ToUpper, ParsePort, ParseCount, SafeFilename;
  }

  // ---------------------------------------------------------------- main results

  /** A printed SEND reads back as the same offer exactly if the offer is one a SEND can mean and its
      token holds no space and no quote. File names may hold both. */
  lemma SendRoundTrip(ip: Texts, o: Offer)
    requires PlainTexts(ip) && o.command == Send
    ensures Parse(ip, FormatSend(o.filename, o.address, o.port, o.size, o.token)) == Ok(o)
            <==> SendWellFormed(ip, o) && Bare(o.token)
  {
    var payload := FormatSend(o.filename, o.address, o.port, o.size, o.token);
    ParsedIsWellFormed(ip, payload);
    hide Parse;
    if SendWellFormed(ip, o) {
      SendSpells(ip, o);
      SendFieldsParse(ip, o);
      hide Spell, SendWellFormed, ParseFields;
      SendReads(ip, o);
    }
  }

  lemma SendReads(ip: Texts, o: Offer)
    requires SendWellFormed(ip, o) && Spell(SendTexts(o), SendValues(o))
    requires ParseFields(ip, WithToken(SendValues(o), o.token)) == Ok(o)
    requires o.token != "" ==> ParseFields(ip, SendValues(o)) != Ok(o)
    ensures Parse(ip, FormatSend(o.filename, o.address, o.port, o.size, o.token)) == Ok(o) <==> Bare(o.token)
  {
    hide Spell, SendWellFormed, ParseFields, Fields, TrimSpace, Join;
    assert FormatSend(o.filename, o.address, o.port, o.size, o.token) == Join(WithToken(SendTexts(o), o.token));
    if Bare(o.token) {
      TokenSpells(SendTexts(o), SendValues(o), o.token);
      JoinFields(WithToken(SendTexts(o), o.token), WithToken(SendValues(o), o.token));
    } else {
      var read := Fields(TrimSpace(Join(SendTexts(o) + [o.token])));
      if read.Ok? {
        OddToken(SendTexts(o), SendValues(o), o.token, read.value);
        if read.value != SendValues(o) {
          OtherSendFields(ip, o, read.value);
        }
      }
    }
  }

  /** The same for RESUME and ACCEPT. */
  lemma ResumeRoundTrip(ip: Texts, o: Offer)
    requires o.command == Resume || o.command == Accept
    ensures Parse(ip, FormatResume(o.command, o.filename, o.port, o.position, o.token)) == Ok(o)
            <==> ResumeWellFormed(o) && Bare(o.token)
  {
    var payload := FormatResume(o.command, o.filename, o.port, o.position, o.token);
    ParsedIsWellFormed(ip, payload);
    hide Parse;
    if ResumeWellFormed(o) {
      ResumeSpells(o);
      ResumeFieldsParse(ip, o);
      hide Spell, ResumeWellFormed, ParseFields;
      ResumeReads(ip, o);
    }
  }

  lemma ResumeReads(ip: Texts, o: Offer)
    requires ResumeWellFormed(o) && Spell(ResumeTexts(o), ResumeValues(o))
    requires ParseFields(ip, WithToken(ResumeValues(o), o.token)) == Ok(o)
    requires o.token != "" ==> ParseFields(ip, ResumeValues(o)) != Ok(o)
    ensures Parse(ip, FormatResume(o.command, o.filename, o.port, o.position, o.token)) == Ok(o) <==> Bare(o.token)
  {
    hide Spell, ResumeWellFormed, ParseFields, Fields, TrimSpace, Join;
    assert FormatResume(o.command, o.filename, o.port, o.position, o.token) == Join(WithToken(ResumeTexts(o), o.token));
    if Bare(o.token) {
      TokenSpells(ResumeTexts(o), ResumeValues(o), o.token);
      JoinFields(WithToken(ResumeTexts(o), o.token), WithToken(ResumeValues(o), o.token));
    } else {
      var read := Fields(TrimSpace(Join(ResumeTexts(o) + [o.token])));
      if read.Ok? {
        OddToken(ResumeTexts(o), ResumeValues(o), o.token, read.value);
        if read.value != ResumeValues(o) {
          OtherResumeFields(ip, o, read.value);
        }
      }
    }
  }

  /** Normal form: whatever form a SEND arrived in (quoted, plain, or the historic one with spaces),
      printing what it meant and parsing again gives the same offer, exactly if its token is bare. */
  lemma SendNormalForm(ip: Texts, payload: string)
    requires PlainTexts(ip) && Parse(ip, payload).Ok? && Parse(ip, payload).value.command == Send
    ensures var o := Parse(ip, payload).value;
            Parse(ip, FormatSend(o.filename, o.address, o.port, o.size, o.token)) == Ok(o) <==> Bare(o.token)
  {
    ParsedIsWellFormed(ip, payload);
    SendRoundTrip(ip, Parse(ip, payload).value);
  }

  // ---------------------------------------------------------------- refused addresses

  /** A decimal address is refused exactly if it is 0.0.0.0 or lies in 127.0.0.0/8, 169.254.0.0/16 or
      224.0.0.0/4. */
  lemma RefusedAddresses(ip: Texts, n: nat)
    requires n <= 0xFFFF_FFFF
    ensures ParseAddress(ip, Decimal(n)).Err? <==>
            n == 0 || 0x7F00_0000 <= n <= 0x7FFF_FFFF || 0xA9FE_0000 <= n <= 0xA9FE_FFFF || 0xE000_0000 <= n <= 0xEFFF_FFFF
  {
    DecimalValue(n);
    FirstByte(n);
    FirstWord(n);
    AllZero(n);
    hide Decimal, Value, IsDigit, AllDigits, PutBigEndian;
  }

  lemma FirstByte(n: nat)
    requires n <= 0xFFFF_FFFF
    ensures PutBigEndian(n)[0] == 127 <==> 0x7F00_0000 <= n <= 0x7FFF_FFFF
    ensures 224 <= PutBigEndian(n)[0] <= 239 <==> 0xE000_0000 <= n <= 0xEFFF_FFFF
  {
  }

  lemma FirstWord(n: nat)
    requires n <= 0xFFFF_FFFF
    ensures PutBigEndian(n)[0] == 169 && PutBigEndian(n)[1] == 254 <==> 0xA9FE_0000 <= n <= 0xA9FE_FFFF
  {
    var c := n / 0x1_0000;
    assert c / 256 == n / 0x100_0000;
    assert c == c / 256 * 256 + c % 256;
  }

  lemma AllZero(n: nat)
    requires n <= 0xFFFF_FFFF
    ensures PutBigEndian(n) == [0, 0, 0, 0] <==> n == 0
  {
    var a, c := n / 256, n / 0x1_0000;
    assert a / 256 == c && c / 256 == n / 0x100_0000;
    var b := PutBigEndian(n);
    assert b[0] == c / 256 && b[1] == c % 256 && b[2] == a % 256 && b[3] == n % 256;
    if b == [0, 0, 0, 0] {
      assert b[0] == 0 && b[1] == 0 && b[2] == 0 && b[3] == 0;
    }
  }

  // ---------------------------------------------------------------- command words

  /** `c` is the upper-case letter `u` in some case; the long s counts as an S. */
  predicate SomeCase(c: char, u: char) {
    c == u || ('A' <= u <= 'Z' && c as int == u as int + 32) || (u == 'S' && c as int == 0x17F)
  }

  /** A command is recognised in any mixture of cases, and nothing else is. */
  lemma CommandInAnyCase(w: string, c: Command)
    ensures ToUpper(w) == Word(c) <==> |w| == |Word(c)| && forall k :: 0 <= k < |w| ==> SomeCase(w[k], Word(c)[k])
    ensures Word(c) == (match c case Send => "SEND" case Resume => "RESUME" case Accept => "ACCEPT" case Chat => "CHAT")
  {
    forall x: char, u: char | 'A' <= u <= 'Z' ensures Upper(x) == u <==> SomeCase(x, u) {
    }
    assert forall k :: 0 <= k < |Word(c)| ==> 'A' <= Word(c)[k] <= 'Z';
    if ToUpper(w) == Word(c) {
      assert forall k :: 0 <= k < |w| ==> Upper(w[k]) == ToUpper(w)[k];
    }
  }

  // ---------------------------------------------------------------- which texts are numbers

  /** Digits with a sign or without are the number they spell, if it is in range; a minus is accepted in
      front of zero only. */
  lemma NumbersRead(d: string)
    requires AllDigits(d)
    ensures ParsePort(d) == ParsePort("+" + d) == if Value(d) <= 65535 then Ok(Value(d)) else Err
    ensures ParsePort("-" + d) == if Value(d) == 0 then Ok(0) else Err
    ensures ParseCount(d) == ParseCount("+" + d) == if Value(d) <= 0x7FFF_FFFF_FFFF_FFFF then Ok(Value(d)) else Err
    ensures ParseCount("-" + d) == if Value(d) == 0 then Ok(0) else Err
  {
    assert ("+" + d)[1..] == d && ("-" + d)[1..] == d;
    assert IsDigit(d[0]);
    hide Value;
  }

  /** Nothing else is a number. */
  lemma OnlyNumbersRead(s: string)
    requires ParsePort(s).Ok? || ParseCount(s).Ok?
    ensures AllDigits(s) || (s != "" && (s[0] == '+' || s[0] == '-') && AllDigits(s[1..]))
  {
    hide Value;
  }

  predicate IsBracket(c: char) {
    c == '[' || c == ']'
  }

  /** Trimming takes brackets off both ends, all of them, and nothing else. */
  lemma {:induction false} BracketsTrimmed(s: string) returns (i: nat, j: nat)
    ensures i <= j <= |s| && TrimBrackets(s) == s[i..j]
    ensures forall k :: 0 <= k < i || j <= k < |s| ==> IsBracket(s[k])
    ensures i < j ==> !IsBracket(s[i]) && !IsBracket(s[j - 1])
    decreases |s|
  {
    if s != "" && IsBracket(s[0]) {
      var x, y := BracketsTrimmed(s[1..]);
      i, j := x + 1, y + 1;
    } else if s != "" && IsBracket(s[|s| - 1]) {
      i, j := BracketsTrimmed(s[..|s| - 1]);
    } else {
      i, j := 0, |s|;
      assert s[0..|s|] == s;
    }
  }

  // ---------------------------------------------------------------- the historic form

  lemma NoSuchAddress(ip: Texts, name: string, address: string, port: string, size: string, token: string)
    requires ParseAddress(ip, address).Err? && address != "0"
    ensures MakeSendOffer(ip, name, address, port, size, token).Err?
  {
    hide SafeFilename, ParseAddress, ParsePort, ParseCount;
  }

  /** Which of the three readings of a long SEND counts. */
  lemma LongSend(ip: Texts, fields: seq<string>)
    requires |fields| >= 6 && (|fields| == 6 ==> MakeSendOffer(ip, fields[1], fields[2], fields[3], fields[4], fields[5]).Err?)
    ensures ParseSend(ip, fields) == if MakeFromRight(ip, fields, 4).Ok? then MakeFromRight(ip, fields, 4) else MakeFromRight(ip, fields, 3)
  {
    hide MakeSendOffer, MakeFromRight;
  }

  /** A name with spaces sent without quotes: the words before the numbers are the name, unless the last
      of them could itself be an address. */
  lemma HistoricName(ip: Texts, words: seq<string>, address: string, port: string, size: string)
    requires |words| >= 2
    requires ParseAddress(ip, words[|words| - 1]).Err? && words[|words| - 1] != "0"
    ensures ParseSend(ip, ["SEND"] + words + [address, port, size]) == MakeSendOffer(ip, Join(words), address, port, size, "")
  {
    hide Join, ParseAddress, ParseSend, MakeSendOffer;
    var n := |words|;
    var fields := ["SEND"] + words + [address, port, size];
    assert fields[n] == words[n - 1] && fields[n + 1] == address && fields[n + 2] == port && fields[n + 3] == size;
    assert fields[1..n + 1] == words;
    if n == 2 {
      NoSuchAddress(ip, fields[1], fields[2], fields[3], fields[4], fields[5]);
    }
    NoSuchAddress(ip, Join(fields[1..n]), fields[n], fields[n + 1], fields[n + 2], fields[n + 3]);
    assert MakeFromRight(ip, fields, 4).Err?;
    LongSend(ip, fields);
  }

  /** The same with the token of a passive offer: address 0, port 0 and a token at the end. */
  lemma HistoricPassive(ip: Texts, words: seq<string>, size: string, token: string)
    requires |words| >= 2 && token != "" && SafeFilename(Join(words)) && ParseCount(size).Ok?
    ensures ParseSend(ip, ["SEND"] + words + ["0", "0", size, token])
         == Ok(Offer(Send, Join(words), "0", 0, ParseCount(size).value, 0, token, true))
  {
    hide Join, SafeFilename, ParseAddress, ParseSend, ParsePort, ParseCount;
    var n := |words|;
    var fields := ["SEND"] + words + ["0", "0", size, token];
    assert fields[n + 1] == "0" && fields[n + 2] == "0" && fields[n + 3] == size && fields[n + 4] == token;
    assert fields[1..n + 1] == words;
    assert ParsePort("0") == Ok(0) by {
      PortRoundTrip(0);
      assert FormatInt(0) == "0";
    }
    assert MakeFromRight(ip, fields, 4) == Ok(Offer(Send, Join(words), "0", 0, ParseCount(size).value, 0, token, true));
    hide MakeSendOffer, MakeFromRight;
    LongSend(ip, fields);
  }

  /** What is read has the command its first word names; CHAT is read whatever follows; any other word, or
      none, is refused. */
  lemma CommandDecides(ip: Texts, fields: seq<string>)
    ensures ParseFields(ip, fields).Ok? ==> fields != [] && ToUpper(fields[0]) == Word(ParseFields(ip, fields).value.command)
    ensures fields != [] && ToUpper(fields[0]) == "CHAT" ==> ParseFields(ip, fields).Ok?
  {
    hide MakeSendOffer, SafeFilename, ParsePort, ParseCount, ToUpper;
    if fields != [] && ToUpper(fields[0]) == "SEND" && ParseSend(ip, fields).Ok? {
      SendsAreSends(ip, fields);
    }
  }

  lemma SendsAreSends(ip: Texts, fields: seq<string>)
    requires ParseSend(ip, fields).Ok?
    ensures ParseSend(ip, fields).value.command == Send
  {
    hide SafeFilename, ParsePort, ParseCount, ParseAddress, Join;
  }
}
