/** The control messages of internal/dcc/protocol.go: a parser that unquotes fields and accepts a
    historic unquoted form, and the printers. Text is a sequence of Unicode characters. */
module DccProtocol {
  import opened DccTypes
  import opened DccNames
  import opened Unicode

  datatype Result<T> = Ok(value: T) | Err

  // ---------------------------------------------------------------- characters

  predicate IsDigit(c: char) {
    '0' <= c <= '9'
  }

  /** Upper-casing, as far as it can yield a command word: the long s is upper-cased to S. */
  function Upper(c: char): char {
    if 'a' <= c <= 'z' then (c as int - 32) as char else if c as int == 0x17F then 'S' else c
  }

  function ToUpper(s: string): string {
    seq(|s|, i requires 0 <= i < |s| => Upper(s[i]))
  }

  function TrimLeft(s: string): string {
    if s != "" && IsSpace(s[0]) then TrimLeft(s[1..]) else s
  }

  function TrimRight(s: string): string {
    if s != "" && IsSpace(s[|s| - 1]) then TrimRight(s[..|s| - 1]) else s
  }

  function TrimSpace(s: string): string {
    TrimLeft(TrimRight(s))
  }

  predicate Blank(s: string) {
    forall k :: 0 <= k < |s| ==> IsSpace(s[k])
  }

  // ---------------------------------------------------------------- fields

  /** The scanner's variables. */
  datatype Scan = Scan(fields: seq<string>, buffer: string, inQuote: bool, escaped: bool, have: bool)

  const START := Scan([], "", false, false, false)

  function Flushed(sc: Scan): Scan {
    if sc.have then Scan(sc.fields + [sc.buffer], "", sc.inQuote, sc.escaped, false) else sc
  }

  function Next(sc: Scan, c: char): Scan {
    if sc.escaped then sc.(buffer := sc.buffer + [c], escaped := false, have := true)
    else if sc.inQuote && c == '\\' then sc.(escaped := true)
    else if c == '"' then sc.(inQuote := !sc.inQuote, have := true)
    else if IsSpace(c) && !sc.inQuote then Flushed(sc)
    else sc.(buffer := sc.buffer + [c], have := true)
  }

  function Scanned(sc: Scan, s: string): Scan
    decreases |s|
  {
    if s == "" then sc else Next(Scanned(sc, s[..|s| - 1]), s[|s| - 1])
  }

  function Fields(s: string): Result<seq<string>> {
    var sc := Scanned(START, s);
    if sc.escaped || sc.inQuote then Err else Ok(Flushed(sc).fields)
  }

  /** splitFields. */
  method SplitFields(s: string) returns (r: Result<seq<string>>)
    ensures r == Fields(s)
  {
    var fields: seq<string> := [];
    var b := "";
    var inQuote, escaped, have := false, false, false;
    for i := 0 to |s|
      invariant Scan(fields, b, inQuote, escaped, have) == Scanned(START, s[..i])
    {
      var c := s[i];
      assert s[..i + 1][..i] == s[..i] && s[..i + 1][i] == c;
      if escaped {
        b := b + [c];
        escaped, have := false, true;
      } else if inQuote && c == '\\' {
        escaped := true;
      } else if c == '"' {
        inQuote, have := !inQuote, true;
      } else if IsSpace(c) && !inQuote {
        if have {
          fields, b, have := fields + [b], "", false;
        }
      } else {
        b, have := b + [c], true;
      }
    }
    assert s[..|s|] == s;
    if escaped || inQuote {
      return Err;
    }
    if have {
      fields := fields + [b];
    }
    return Ok(fields);
  }

  // ---------------------------------------------------------------- numbers

  predicate AllDigits(s: string) {
    s != "" && forall k :: 0 <= k < |s| ==> IsDigit(s[k])
  }

  function Value(s: string): nat
    requires forall k :: 0 <= k < |s| ==> IsDigit(s[k])
  {
    if s == "" then 0
    else
      assert IsDigit(s[|s| - 1]);
      10 * Value(s[..|s| - 1]) + (s[|s| - 1] - '0') as int
  }

  function Decimal(n: nat): string {
    var last := [('0' as int + n % 10) as char];
    if n < 10 then last else Decimal(n / 10) + last
  }

  function FormatInt(n: int): string {
    if n < 0 then "-" + Decimal(-n) else Decimal(n)
  }

  const MAX_INT64 := 0x7FFF_FFFF_FFFF_FFFF

  /** strconv.ParseInt with base 10 and 64 bits; Atoi is the same on a 64-bit machine. */
  function ParseInt(s: string): Result<int> {
    if s != "" && (s[0] == '-' || s[0] == '+') then
      if !AllDigits(s[1..]) then Err
      else
        var n: int := Value(s[1..]);
        if s[0] == '-' then (if n <= MAX_INT64 + 1 then Ok(-n) else Err)
        else if n <= MAX_INT64 then Ok(n) else Err
    else if AllDigits(s) && Value(s) <= MAX_INT64 then Ok(Value(s)) else Err
  }

  /** strconv.ParseUint with base 10 and 32 bits: no sign. */
  function ParseUint32(s: string): Result<int> {
    if AllDigits(s) && Value(s) < 0x1_0000_0000 then Ok(Value(s)) else Err
  }

  function ParsePort(s: string): Result<int> {
    match ParseInt(s)
    case Ok(n) => if 0 <= n <= 65535 then Ok(n) else Err
    case Err => Err
  }

  function ParseCount(s: string): Result<int> {
    match ParseInt(s)
    case Ok(n) => if n >= 0 then Ok(n) else Err
    case Err => Err
  }

  // ---------------------------------------------------------------- addresses

  type Byte = b: int | 0 <= b < 256

  function BigEndian(b: seq<Byte>): nat
    requires |b| == 4
  {
    ((b[0] as int * 256 + b[1] as int) * 256 + b[2] as int) * 256 + b[3] as int
  }

  function PutBigEndian(n: int): (b: seq<Byte>)
    requires 0 <= n < 0x1_0000_0000
    ensures |b| == 4
  {
    [n / 0x100_0000, n / 0x1_0000 % 256, n / 256 % 256, n % 256]
  }

  /** validateRemoteIP on four bytes: not 0.0.0.0, loopback, multicast, or link-local. */
  predicate Admitted(b: seq<Byte>)
    requires |b| == 4
  {
    b != [0, 0, 0, 0] && b[0] != 127 && !(224 <= b[0] <= 239) && !(b[0] == 169 && b[1] == 254)
  }

  /** Which texts, freed of brackets, the standard library takes as an admitted textual address. */
  type Texts = string -> bool

  function TrimBrackets(s: string): string
    decreases |s|
  {
    if s != "" && (s[0] == '[' || s[0] == ']') then TrimBrackets(s[1..])
    else if s != "" && (s[|s| - 1] == '[' || s[|s| - 1] == ']') then TrimBrackets(s[..|s| - 1])
    else s
  }

  datatype Address = V4(bytes: seq<Byte>) | Textual(text: string)

  function ParseAddress(ip: Texts, raw: string): Result<Address> {
    match ParseUint32(raw)
    case Ok(n) => if Admitted(PutBigEndian(n)) then Ok(V4(PutBigEndian(n))) else Err
    case Err => if ip(TrimBrackets(raw)) then Ok(Textual(TrimBrackets(raw))) else Err
  }

  /** FormatAddress on an IPv4 address. */
  function FormatV4(b: seq<Byte>): string
    requires |b| == 4
  {
    Decimal(BigEndian(b))
  }

  // ---------------------------------------------------------------- file names

  function StripSlashes(s: string): string {
    if s != "" && s[|s| - 1] == '/' then StripSlashes(s[..|s| - 1]) else s
  }

  function AfterSlash(s: string): string {
    if s == "" || s[|s| - 1] == '/' then "" else AfterSlash(s[..|s| - 1]) + [s[|s| - 1]]
  }

  /** filepath.Base. */
  function Base(s: string): string {
    if s == "" then "." else if StripSlashes(s) == "" then "/" else AfterSlash(StripSlashes(s))
  }

  function EscapeQuotes(s: string): string {
    if s == "" then ""
    else EscapeQuotes(s[..|s| - 1]) + (if s[|s| - 1] == '"' then "\\\"" else [s[|s| - 1]])
  }

  predicate Bare(s: string) {
    forall k :: 0 <= k < |s| ==> !IsSpace(s[k]) && s[k] != '"'
  }

  function QuoteFilename(name: string): string {
    var n := Base(name);
    if Bare(n) then n else "\"" + EscapeQuotes(n) + "\""
  }

  // ---------------------------------------------------------------- printing and parsing

  function Join(parts: seq<string>): string {
    if parts == [] then "" else if |parts| == 1 then parts[0]
    else Join(parts[..|parts| - 1]) + " " + parts[|parts| - 1]
  }

  function WithToken(parts: seq<string>, token: string): seq<string> {
    if token == "" then parts else parts + [token]
  }

  function FormatSend(filename: string, address: string, port: int, size: int, token: string): string {
    Join(WithToken(["SEND", QuoteFilename(filename), address, FormatInt(port), FormatInt(size)], token))
  }

  function Word(c: Command): string {
    match c
    case Send => "SEND"
    case Resume => "RESUME"
    case Accept => "ACCEPT"
    case Chat => "CHAT"
  }

  function FormatResume(command: Command, filename: string, port: int, position: int, token: string): string {
    Join(WithToken([Word(command), QuoteFilename(filename), FormatInt(port), FormatInt(position)], token))
  }

  function MakeSendOffer(ip: Texts, filename: string, address: string, port: string, size: string, token: string): Result<Offer> {
    if !SafeFilename(filename) || ParsePort(port).Err? || ParseCount(size).Err? then Err
    else
      var p := ParsePort(port).value;
      var offer := Offer(Send, filename, address, p, ParseCount(size).value, 0, token, p == 0);
      if p == 0 then (if token == "" || address != "0" then Err else Ok(offer))
      else if ParseAddress(ip, address).Err? then Err
      else Ok(offer)
  }

  /** The historic form: the numeric tail is read from the right, the rest is the name. */
  function MakeFromRight(ip: Texts, fields: seq<string>, tail: nat): Result<Offer>
    requires 3 <= tail <= 4
  {
    var start := |fields| - tail;
    if start > 1 then
      MakeSendOffer(ip, Join(fields[1..start]), fields[start], fields[start + 1], fields[start + 2],
                    if tail == 4 then fields[start + 3] else "")
    else Err
  }

  function ParseSend(ip: Texts, fields: seq<string>): Result<Offer> {
    if |fields| < 5 then Err
    else
      var quoted := if |fields| <= 6 then
                      MakeSendOffer(ip, fields[1], fields[2], fields[3], fields[4], if |fields| == 6 then fields[5] else "")
                    else Err;
      if quoted.Ok? then quoted
      else if |fields| >= 6 then
        var passive := MakeFromRight(ip, fields, 4);
        if passive.Ok? then passive else MakeFromRight(ip, fields, 3)
      else Err
  }

  function ParseResume(command: Command, fields: seq<string>): Result<Offer> {
    if |fields| < 4 || |fields| > 5 || !SafeFilename(fields[1]) || ParsePort(fields[2]).Err? || ParseCount(fields[3]).Err? then Err
    else
      var port := ParsePort(fields[2]).value;
      Ok(Offer(command, fields[1], "", port, 0, ParseCount(fields[3]).value, if |fields| == 5 then fields[4] else "", port == 0))
  }

  function ParseFields(ip: Texts, fields: seq<string>): Result<Offer> {
    if fields == [] then Err
    else
      var command := ToUpper(fields[0]);
      if command == "SEND" then ParseSend(ip, fields)
      else if command == "RESUME" then ParseResume(Resume, fields)
      else if command == "ACCEPT" then ParseResume(Accept, fields)
      else if command == "CHAT" then Ok(Offer(Chat, "", "", 0, 0, 0, "", false))
      else Err
  }

  function Parse(ip: Texts, payload: string): Result<Offer> {
    match Fields(TrimSpace(payload))
    case Ok(fields) => ParseFields(ip, fields)
    case Err => Err
  }
}
