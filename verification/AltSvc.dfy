/**
 * Alternative services (section 3 of RFC 7838): what each step of the field value parser makes of the rest
 * of its input, as functions from what is left to a result and what is left then.
 */
module AltSvc {
  import opened Bytes

  /** One advertised alternative. `maxAge` is a signed 64-bit count of seconds. */
  datatype AltService = AltService(protocol: string, host: string, port: string, maxAge: int, persist: bool)

  datatype Field = Clear | Services(services: seq<AltService>)

  datatype Read<+T> = Read(value: T, rest: string)

  const DEFAULT_MAX_AGE: int := 86400

  // --- Characters ---

  predicate IsTchar(c: char)
  {
    'a' <= c <= 'z' || 'A' <= c <= 'Z' || IsDigit(c) || IsSpecial(c)
  }

  predicate IsSpecial(c: char)
  {
    || c == '!' || c == '#' || c == '$' || c == '%' || c == '&' || c == '\'' || c == '*' || c == '+'
    || c == '-' || c == '.' || c == '^' || c == '_' || c == '`' || c == '|' || c == '~'
  }

  lemma Separators()
    ensures !IsTchar(',') && !IsTchar('"') && !IsTchar(';') && !IsTchar('=') && !IsTchar(' ')
  {
  }

  predicate IsDigit(c: char) { '0' <= c <= '9' }

  predicate IsOws(c: char) { c == ' ' || c == '\t' }

  function HexValue(c: char): Option<nat>
  {
    if IsDigit(c) then Some(c as int - '0' as int)
    else if 'a' <= c <= 'f' then Some(c as int - 'a' as int + 10)
    else if 'A' <= c <= 'F' then Some(c as int - 'A' as int + 10)
    else None
  }

  predicate IsEscape(s: string)
  {
    |s| > 2 && s[0] == '%' && HexValue(s[1]).Some? && HexValue(s[2]).Some?
  }

  function Escaped(s: string): char
    requires IsEscape(s)
  {
    (16 * HexValue(s[1]).value + HexValue(s[2]).value) as char
  }

  /** Undoes percent-encoding; a "%" that begins no escape stands for itself. */
  function PctDecode(s: string): string
  {
    if s == [] then []
    else if IsEscape(s) then [Escaped(s)] + PctDecode(s[3..])
    else [s[0]] + PctDecode(s[1..])
  }

  // --- Numbers ---

  predicate AllDigits(s: string) { forall i :: 0 <= i < |s| ==> IsDigit(s[i]) }

  function Value(s: string): nat
    requires AllDigits(s)
  {
    if s == [] then 0 else 10 * Value(s[..|s| - 1]) + (s[|s| - 1] as int - '0' as int)
  }

  /** An unsigned 64-bit decimal, and nothing else. */
  function Seconds(s: string): Option<nat>
  {
    if s != [] && AllDigits(s) && Value(s) < 0x1_0000_0000_0000_0000 then Some(Value(s)) else None
  }

  /** The unsigned count as the signed one it is kept in. */
  function Signed(n: nat): int
  {
    if n < 0x8000_0000_0000_0000 then n else n - 0x1_0000_0000_0000_0000
  }

  // --- The authority ---

  /** Where `c` first occurs, or the length. */
  function Find(s: string, c: char): (i: nat)
    ensures i <= |s| && (i < |s| ==> s[i] == c) && (forall j :: 0 <= j < i ==> s[j] != c)
  {
    if s == [] || s[0] == c then 0 else 1 + Find(s[1..], c)
  }

  /** Where `c` last occurs. */
  function FindLast(s: string, c: char): (i: Option<nat>)
    ensures i.Some? ==> i.value < |s| && s[i.value] == c && (forall j :: i.value < j < |s| ==> s[j] != c)
    ensures i.None? ==> c !in s
  {
    if s == [] then None
    else if s[|s| - 1] == c then Some(|s| - 1)
    else FindLast(s[..|s| - 1], c)
  }

  predicate IsLiteral(authority: string) { authority != [] && authority[0] == '[' }

  /** The colon in front of the port; for a literal, it is looked for behind the closing bracket. */
  function PortColon(authority: string): (i: Option<nat>)
    ensures i.Some? ==> i.value < |authority| && authority[i.value] == ':'
    ensures i.Some? && IsLiteral(authority) ==> i.value >= 2
  {
    if IsLiteral(authority) then
      var bracket := Find(authority, ']');
      var colon := bracket + Find(authority[bracket..], ':');
      if bracket == |authority| || colon == |authority| then None else Some(colon)
    else FindLast(authority, ':')
  }

  /** Host and port; the brackets of a literal are taken off. */
  function SplitAuthority(authority: string): Option<(string, string)>
  {
    match PortColon(authority)
    case None => None
    case Some(colon) =>
      var port := authority[colon + 1..];
      if port == [] || !AllDigits(port) then None
      else if IsLiteral(authority) then Some((authority[1..colon - 1], port))
      else Some((authority[..colon], port))
  }

  // --- The steps of the parser ---

  function SkipOws(s: string): (rest: string)
    ensures |rest| <= |s| && (rest != [] ==> !IsOws(rest[0]))
  {
    if s != [] && IsOws(s[0]) then SkipOws(s[1..]) else s
  }

  predicate NextIs(s: string, c: char) { s != [] && s[0] == c }

  function Token(s: string): (r: Read<string>)
    ensures s == r.value + r.rest && (r.rest != [] ==> !IsTchar(r.rest[0]))
  {
    if s != [] && IsTchar(s[0]) then
      var r := Token(s[1..]);
      Read([s[0]] + r.value, r.rest)
    else Read([], s)
  }

  /** Behind the opening quote: up to the closing one, with the backslash escapes resolved. */
  function Unquote(s: string): (r: Read<Option<string>>)
    ensures |r.rest| <= |s| && (r.value.None? ==> r.rest == [])
  {
    if s == [] then Read(None, [])
    else if s[0] == '"' then Read(Some([]), s[1..])
    else
      var escape := s[0] == '\\' && |s| > 1;
      var r := Unquote(if escape then s[2..] else s[1..]);
      if r.value.None? then r
      else Read(Some([if escape then s[1] else s[0]] + r.value.value), r.rest)
  }

  function QuotedString(s: string): (r: Read<Option<string>>)
    ensures |r.rest| <= |s|
  {
    if NextIs(s, '"') then Unquote(s[1..]) else Read(None, s)
  }

  function TokenOrQuotedString(s: string): (r: Read<Option<string>>)
    ensures |r.rest| <= |s|
  {
    if NextIs(s, '"') then QuotedString(s)
    else
      var t := Token(s);
      Read(if t.value == [] then None else Some(t.value), t.rest)
  }

  /** What one parameter does to the service; only the first of a name counts, and only the names we know. */
  function WithParameter(a: AltService, seenMa: bool, seenPersist: bool, name: string, value: string): AltService
  {
    if name == "ma" && !seenMa then
      if Seconds(value).Some? then a.(maxAge := Signed(Seconds(value).value)) else a
    else if name == "persist" && !seenPersist then a.(persist := value == "1")
    else a
  }

  /** One parameter behind its semicolon: a name, and a value. */
  function Parameter(s: string): (r: Read<Option<(string, string)>>)
    ensures |r.rest| <= |s|
  {
    var name := Token(SkipOws(s));
    if name.value == [] || !NextIs(name.rest, '=') then Read(None, name.rest)
    else
      var value := TokenOrQuotedString(name.rest[1..]);
      if value.value.None? then Read(None, value.rest) else Read(Some((name.value, value.value.value)), value.rest)
  }

  function Parameters(s: string, a: AltService, seenMa: bool, seenPersist: bool): (r: Read<Option<AltService>>)
    ensures |r.rest| <= |s|
    decreases |s|
  {
    var s1 := SkipOws(s);
    if !NextIs(s1, ';') then Read(Some(a), s1)
    else
      var p := Parameter(s1[1..]);
      if p.value.None? then Read(None, p.rest)
      else
        var (name, value) := p.value.value;
        Parameters(p.rest, WithParameter(a, seenMa, seenPersist, name, value),
                   seenMa || name == "ma", seenPersist || name == "persist")
  }

  /** An alternative without its parameters. */
  function Alternative(s: string): (r: Read<Option<AltService>>)
    ensures |r.rest| <= |s|
  {
    var protocol := Token(s);
    if protocol.value == [] || !NextIs(protocol.rest, '=') then Read(None, protocol.rest)
    else
      var authority := QuotedString(protocol.rest[1..]);
      if authority.value.None? then Read(None, authority.rest)
      else
        match SplitAuthority(authority.value.value)
        case None => Read(None, authority.rest)
        case Some((host, port)) =>
          Read(Some(AltService(PctDecode(protocol.value), host, port, DEFAULT_MAX_AGE, false)), authority.rest)
  }

  function AltValue(s: string): (r: Read<Option<AltService>>)
    ensures |r.rest| <= |s|
  {
    var a := Alternative(s);
    if a.value.None? then a else Parameters(a.rest, a.value.value, false, false)
  }

  /** How far it is to the next comma outside quotes, or to the end. */
  function CommaAt(s: string, quoted: bool): (n: nat)
    ensures n <= |s|
    decreases |s|
  {
    if s == [] then 0
    else if !quoted then if s[0] == ',' then 0 else 1 + CommaAt(s[1..], s[0] == '"')
    else if s[0] == '\\' && |s| > 1 then 2 + CommaAt(s[2..], true)
    else 1 + CommaAt(s[1..], s[0] != '"')
  }

  /** Past the comma behind `s`, if there is one. */
  function SkipElement(s: string): (rest: string)
    ensures |rest| <= |s| && (s != [] ==> |rest| < |s|)
  {
    var n := CommaAt(s, false);
    if n == |s| then [] else s[n + 1..]
  }

  /** Behind an alternative: a comma or the end, or else the rest of the element goes. */
  function Following(s: string): (rest: string)
    ensures |rest| <= |s| && (s != [] ==> |rest| < |s|)
  {
    if NextIs(s, ',') then s[1..] else SkipElement(s)
  }

  /** All alternatives that can be read, in order. */
  function List(s: string): seq<AltService>
    decreases |s|
  {
    var s1 := SkipOws(s);
    if s1 == [] then []
    else if s1[0] == ',' then List(s1[1..])
    else
      var a := AltValue(s1);
      if a.value.None? then List(SkipElement(a.rest))
      else
        [a.value.value] + List(Following(SkipOws(a.rest)))
  }

  function TrimEnd(s: string): string
  {
    if s != [] && IsOws(s[|s| - 1]) then TrimEnd(s[..|s| - 1]) else s
  }

  /** The field value: "clear" and nothing else, or a list. */
  function Parse(value: string): Field
  {
    if TrimEnd(SkipOws(value)) == "clear" then Clear else Services(List(value))
  }
}
