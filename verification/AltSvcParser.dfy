/** The parser itself, a position that moves through the field value, proved against the functions of AltSvc. */
module AltSvcParser {
  import opened Bytes
  import opened AltSvc

  method DecodePct(text: string) returns (out: string)
    ensures out == PctDecode(text)
  {
    out := "";
    var i := 0;
    while i < |text|
      invariant i <= |text|
      invariant out + PctDecode(text[i..]) == PctDecode(text)
    {
      ghost var rest := text[i..];
      assert |rest| > 2 ==> rest[1] == text[i + 1] && rest[2] == text[i + 2];
      if i + 2 < |text| && text[i] == '%' && HexValue(text[i + 1]).Some? && HexValue(text[i + 2]).Some? {
        assert rest[3..] == text[i + 3..];
        Associates(out, [Escaped(rest)], PctDecode(rest[3..]));
        out := out + [(16 * HexValue(text[i + 1]).value + HexValue(text[i + 2]).value) as char];
        i := i + 3;
      } else {
        assert rest[1..] == text[i + 1..];
        Associates(out, [text[i]], PctDecode(rest[1..]));
        out := out + [text[i]];
        i := i + 1;
      }
    }
  }

  class Parser {
    const input: string
    var pos: nat

    ghost predicate Valid()
      reads this
    {
      pos <= |input|
    }

    ghost function Rest(): string
      reads this
      requires Valid()
    {
      input[pos..]
    }

    constructor (text: string)
      ensures Valid() && input == text && Rest() == text
    {
      input, pos := text, 0;
    }

    predicate Next(c: char)
      reads this
      requires Valid()
      ensures Next(c) == NextIs(Rest(), c)
    {
      pos < |input| && input[pos] == c
    }

    method Consume(c: char) returns (ok: bool)
      requires Valid()
      modifies this
      ensures Valid() && ok == NextIs(old(Rest()), c)
      ensures Rest() == if ok then old(Rest())[1..] else old(Rest())
    {
      ok := Next(c);
      if ok {
        pos := pos + 1;
      }
    }

    method Blanks()
      requires Valid()
      modifies this
      ensures Valid() && Rest() == SkipOws(old(Rest()))
    {
      while pos < |input| && IsOws(input[pos])
        invariant Valid() && SkipOws(Rest()) == SkipOws(old(Rest()))
      {
        assert Rest()[1..] == input[pos + 1..];
        pos := pos + 1;
      }
    }

    method ReadToken() returns (t: string)
      requires Valid()
      modifies this
      ensures Valid() && Read(t, Rest()) == Token(old(Rest()))
    {
      var start := pos;
      while pos < |input| && IsTchar(input[pos])
        invariant Valid() && start <= pos && TokenEnd(input, start) == TokenEnd(input, pos)
      {
        pos := pos + 1;
      }
      TokenUpTo(input, start);
      t := input[start..pos];
    }

    method ReadQuotedString() returns (v: Option<string>)
      requires Valid()
      modifies this
      ensures Valid() && Read(v, Rest()) == QuotedString(old(Rest()))
    {
      var open := Consume('"');
      if !open { return None; }
      v := ReadToQuote();
    }

    /** Up to the closing quote, with the backslash escapes resolved. */
    method ReadToQuote() returns (v: Option<string>)
      requires Valid()
      modifies this
      ensures Valid() && Read(v, Rest()) == Unquote(old(Rest()))
    {
      UnquoteUpTo(input, pos);
      v, pos := Scan(input, pos);
    }

    method ReadTokenOrQuotedString() returns (v: Option<string>)
      requires Valid()
      modifies this
      ensures Valid() && Read(v, Rest()) == TokenOrQuotedString(old(Rest()))
    {
      if Next('"') {
        v := ReadQuotedString();
      } else {
        var t := ReadToken();
        v := if t == "" then None else Some(t);
      }
    }

    method Resynchronise()
      requires Valid()
      modifies this
      ensures Valid() && Rest() == SkipElement(old(Rest()))
    {
      var quoted := false;
      ghost var start := pos;
      while pos < |input|
        invariant Valid() && start <= pos
        invariant start + CommaAt(old(Rest()), false) == pos + CommaAt(Rest(), quoted)
        decreases |input| - pos
      {
        ghost var now := Rest();
        var c := input[pos];
        pos := pos + 1;
        assert now[1..] == Rest();
        if !quoted {
          if c == ',' {
            assert CommaAt(old(Rest()), false) == pos - 1 - start;
            assert old(Rest())[pos - start..] == Rest();
            return;
          }
          quoted := c == '"';
        } else if c == '\\' && pos < |input| {
          assert now[2..] == input[pos + 1..];
          pos := pos + 1;
        } else if c == '"' {
          quoted := false;
        }
      }
    }

    /** One parameter behind its semicolon. */
    method ReadParameter() returns (p: Option<(string, string)>)
      requires Valid()
      modifies this
      ensures Valid() && Read(p, Rest()) == Parameter(old(Rest()))
    {
      Blanks();
      var name := ReadToken();
      if name == "" { return None; }
      var ok := Consume('=');
      if !ok { return None; }
      var value := ReadTokenOrQuotedString();
      p := if value.None? then None else Some((name, value.value));
    }

    method ReadAlternative() returns (a: Option<AltService>)
      requires Valid()
      modifies this
      ensures Valid() && Read(a, Rest()) == Alternative(old(Rest()))
    {
      var protocol := ReadToken();
      if protocol == "" { return None; }
      var ok := Consume('=');
      if !ok { return None; }
      var authority := ReadQuotedString();
      if authority.None? { return None; }
      var split := SplitAuthority(authority.value);
      if split.None? { return None; }
      var name := DecodePct(protocol);
      a := Some(AltService(name, split.value.0, split.value.1, DEFAULT_MAX_AGE, false));
    }

    /** One alternative and the parameters that go with it. */
    method ReadAltValue() returns (r: Option<AltService>)
      requires Valid()
      modifies this
      ensures Valid() && Read(r, Rest()) == AltValue(old(Rest()))
    {
      r := ReadAlternative();
      if r.Some? {
        r := ReadParameters(r.value);
      }
    }

    method ReadParameters(bare: AltService) returns (r: Option<AltService>)
      requires Valid()
      modifies this
      ensures Valid() && Read(r, Rest()) == Parameters(old(Rest()), bare, false, false)
    {
      var a, haveMaxAge, havePersist := bare, false, false;
      ghost var all := Parameters(Rest(), bare, false, false);
      while true
        invariant Valid() && Parameters(Rest(), a, haveMaxAge, havePersist) == all
        decreases |Rest()|
      {
        Blanks();
        var more := Consume(';');
        if !more { return Some(a); }
        var p := ReadParameter();
        if p.None? { return None; }
        a := WithParameter(a, haveMaxAge, havePersist, p.value.0, p.value.1);
        haveMaxAge := haveMaxAge || p.value.0 == "ma";
        havePersist := havePersist || p.value.0 == "persist";
      }
    }

    /** An element that is not empty: its alternative, if it has one, and on past the comma behind it. */
    method ReadElement() returns (a: Option<AltService>)
      requires Valid() && Rest() != [] && SkipOws(Rest()) == Rest() && !NextIs(Rest(), ',')
      modifies this
      ensures Valid() && |Rest()| < |old(Rest())|
      ensures List(old(Rest())) == (if a.Some? then [a.value] else []) + List(Rest())
    {
      a := ReadAltValue();
      if a.Some? {
        Blanks();
        if pos == |input| { return; }
        var comma := Consume(',');
        if comma { return; }
      }
      Resynchronise();
    }

    /** The next element, empty or not, unless the end has been reached. */
    method NextElement() returns (more: bool, found: seq<AltService>)
      requires Valid()
      modifies this
      ensures Valid() && (more ==> |Rest()| < |old(Rest())|)
      ensures List(old(Rest())) == found + if more then List(Rest()) else []
    {
      Blanks();
      ListSkips(old(Rest()));
      more, found := pos < |input|, [];
      if !more { return; }
      var comma := Consume(',');
      if comma { return; }
      var a := ReadElement();
      if a.Some? {
        found := [a.value];
      }
    }

    method ReadList() returns (services: seq<AltService>)
      requires Valid()
      modifies this
      ensures services == List(old(Rest()))
    {
      ghost var all := List(Rest());
      var more := true;
      services := [];
      while more
        invariant Valid() && services + (if more then List(Rest()) else []) == all
        decreases more, |Rest()|
      {
        var found;
        more, found := NextElement();
        Associates(services, found, if more then List(Rest()) else []);
        services := services + found;
      }
    }
  }

  /** Leading blanks make no difference to a list. */
  lemma ListSkips(s: string)
    ensures List(s) == List(SkipOws(s))
    ensures SkipOws(SkipOws(s)) == SkipOws(s)
    ensures NextIs(SkipOws(s), ',') ==> List(s) == List(SkipOws(s)[1..])
    ensures SkipOws(s) == [] ==> List(s) == []
  {
    assert SkipOws(SkipOws(s)) == SkipOws(s);
  }

  /** Where the token that begins at `i` ends. */
  function TokenEnd(s: string, i: nat): (e: nat)
    requires i <= |s|
    ensures i <= e <= |s|
    decreases |s| - i
  {
    if i < |s| && IsTchar(s[i]) then TokenEnd(s, i + 1) else i
  }

  lemma {:induction false} TokenUpTo(s: string, i: nat)
    requires i <= |s|
    ensures var e := TokenEnd(s, i); Token(s[i..]) == Read(s[i..e], s[e..])
    decreases |s| - i
  {
    if i < |s| && IsTchar(s[i]) {
      TokenUpTo(s, i + 1);
      assert s[i..][1..] == s[i + 1..];
      assert [s[i]] + s[i + 1..TokenEnd(s, i)] == s[i..TokenEnd(s, i)];
    } else {
      assert s[i..i] == [];
    }
  }

  /** The loop over a quoted string, from position `i` to where it leaves it. */
  method Scan(s: string, i: nat) returns (v: Option<string>, pos: nat)
    requires i <= |s|
    ensures (v, pos) == UnquoteAt(s, i)
  {
    var result := "";
    pos := i;
    AheadNothing(UnquoteAt(s, i));
    while pos < |s|
      invariant i <= pos <= |s| && UnquoteAt(s, i) == Ahead(result, UnquoteAt(s, pos))
      decreases |s| - pos
    {
      AheadNext(s, pos, result);
      var c := s[pos];
      pos := pos + 1;
      if c == '"' { return Some(result), pos; }
      if c == '\\' && pos < |s| {
        c := s[pos];
        pos := pos + 1;
      }
      result := result + [c];
    }
    v := None;
  }

  function CharEnd(s: string, i: nat): (e: nat)
    requires i < |s|
    ensures i < e <= |s|
  {
    if s[i] == '\\' && i + 1 < |s| then i + 2 else i + 1
  }

  /** The inside of the quoted string from `i` on, and where it is left. */
  function UnquoteAt(s: string, i: nat): (r: (Option<string>, nat))
    requires i <= |s|
    ensures i <= r.1 <= |s|
    decreases |s| - i
  {
    if i == |s| then (None, i)
    else if s[i] == '"' then (Some([]), i + 1)
    else
      var next := CharEnd(s, i);
      Ahead([s[next - 1]], UnquoteAt(s, next))
  }

  function Ahead(sofar: string, r: (Option<string>, nat)): (t: (Option<string>, nat))
    ensures t.1 == r.1
  {
    if r.0.None? then r else (Some(sofar + r.0.value), r.1)
  }

  lemma AheadNothing(r: (Option<string>, nat))
    ensures Ahead("", r) == r
  {
    if r.0.Some? {
      assert "" + r.0.value == r.0.value;
    }
  }

  lemma AheadNext(s: string, i: nat, sofar: string)
    requires i < |s|
    ensures s[i] == '"' ==> Ahead(sofar, UnquoteAt(s, i)) == (Some(sofar), i + 1)
    ensures s[i] != '"' ==>
      var next := CharEnd(s, i);
      Ahead(sofar, UnquoteAt(s, i)) == Ahead(sofar + [s[next - 1]], UnquoteAt(s, next))
  {
    assert sofar + [] == sofar;
    var next := CharEnd(s, i);
    if UnquoteAt(s, next).0.Some? {
      Associates(sofar, [s[next - 1]], UnquoteAt(s, next).0.value);
    }
  }

  lemma {:induction false} UnquoteUpTo(s: string, i: nat)
    requires i <= |s|
    ensures var r := UnquoteAt(s, i); Unquote(s[i..]) == Read(r.0, s[r.1..])
    decreases |s| - i
  {
    if i < |s| && s[i] != '"' {
      var next := CharEnd(s, i);
      UnquoteUpTo(s, next);
      assert s[i..][next - i..] == s[next..] && s[i..][next - i - 1] == s[next - 1];
    } else if i < |s| {
      assert s[i..][1..] == s[i + 1..];
    }
  }

  method Trim(value: string) returns (t: string)
    ensures t == TrimEnd(SkipOws(value))
  {
    var first, last := 0, |value|;
    while first < last && IsOws(value[first])
      invariant first <= last == |value| && SkipOws(value[first..]) == SkipOws(value[0..])
    {
      SkipsAt(value, first);
      first := first + 1;
    }
    SkipsAt(value, first);
    assert value[0..] == value && value[first..last] == value[first..];
    while first < last && IsOws(value[last - 1])
      invariant first <= last <= |value| && TrimEnd(value[first..last]) == TrimEnd(SkipOws(value))
    {
      TrimsAt(value, first, last);
      last := last - 1;
    }
    TrimsAt(value, first, last);
    t := value[first..last];
  }

  lemma SkipsAt(s: string, i: nat)
    requires i <= |s|
    ensures i < |s| && IsOws(s[i]) ==> SkipOws(s[i..]) == SkipOws(s[i + 1..])
    ensures i == |s| || !IsOws(s[i]) ==> SkipOws(s[i..]) == s[i..]
  {
    if i < |s| {
      assert s[i..][0] == s[i] && s[i..][1..] == s[i + 1..];
    }
  }

  lemma TrimsAt(s: string, i: nat, j: nat)
    requires i <= j <= |s|
    ensures i < j && IsOws(s[j - 1]) ==> TrimEnd(s[i..j]) == TrimEnd(s[i..j - 1])
    ensures i == j || !IsOws(s[j - 1]) ==> TrimEnd(s[i..j]) == s[i..j]
  {
    if i < j {
      var now := s[i..j];
      assert now[|now| - 1] == s[j - 1] && now[..|now| - 1] == s[i..j - 1];
    }
  }

  method ParseAltSvc(value: string) returns (field: Field)
    ensures field == Parse(value)
  {
    var trimmed := Trim(value);
    if trimmed == "clear" { return Clear; }
    var parser := new Parser(value);
    var services := parser.ReadList();
    field := Services(services);
  }
}
