/**
 * Which texts are alternatives, and what each of them says: a name, a quoted authority, and parameters with blanks
 * around their semicolons and values in either form. The parser accepts those and nothing else.
 */
module AltSvcAccepts {
  import opened Bytes
  import opened AltSvc
  import opened AltSvcSplit
  import opened AltSvcPrint
  import opened AltSvcGrammar

  // --- Texts ---

  /** A value the way it stands there. */
  datatype Spelling = Plain(token: string) | Quoted(inside: string)

  datatype Param = Param(before: string, between: string, name: string, value: Spelling)

  datatype Alt = Alt(protocol: string, authority: string, params: seq<Param>)

  predicate Name(s: string) { s != [] && forall i :: 0 <= i < |s| ==> IsTchar(s[i]) }

  /** Between quotes: no bare quote, and something behind every backslash. */
  predicate Inside(s: string)
  {
    s == [] || if s[0] == '\\' then |s| >= 2 && Inside(s[2..]) else s[0] != '"' && Inside(s[1..])
  }

  /** What it stands for: a backslash gives way to what it precedes. */
  function Meant(s: string): string
    requires Inside(s)
  {
    if s == [] then [] else if s[0] == '\\' then [s[1]] + Meant(s[2..]) else [s[0]] + Meant(s[1..])
  }

  predicate ValueOk(v: Spelling) { match v case Plain(t) => Name(t) case Quoted(s) => Inside(s) }

  function Said(v: Spelling): string
    requires ValueOk(v)
  {
    match v case Plain(t) => t case Quoted(s) => Meant(s)
  }

  function Spelt(v: Spelling): string { match v case Plain(t) => t case Quoted(s) => "\"" + (s + "\"") }

  predicate ParamOk(p: Param) { Blanks(p.before) && Blanks(p.between) && Name(p.name) && ValueOk(p.value) }

  /** Behind its semicolon. */
  function ParamText(p: Param): string { p.between + (p.name + ("=" + Spelt(p.value))) }

  predicate ParamsOk(params: seq<Param>) { params == [] || (ParamOk(params[0]) && ParamsOk(params[1..])) }

  function ParamsText(params: seq<Param>): string
  {
    if params == [] then "" else params[0].before + (";" + (ParamText(params[0]) + ParamsText(params[1..])))
  }

  predicate AltOk(x: Alt)
  {
    Name(x.protocol) && Inside(x.authority) && ParamsOk(x.params) && SplitAuthority(Meant(x.authority)).Some?
  }

  function AltText(x: Alt): string
  {
    x.protocol + ("=\"" + (x.authority + ("\"" + ParamsText(x.params))))
  }

  // --- What they say ---

  /** The first parameter of that name. */
  function First(params: seq<Param>, name: string): Option<string>
    requires ParamsOk(params)
  {
    if params == [] then None
    else if params[0].name == name then Some(Said(params[0].value))
    else First(params[1..], name)
  }

  /** Seconds, if it is a number of at most 64 bits, as the signed number of as many; else what it was. */
  function MaxAge(ma: Option<string>, was: int): int
  {
    match ma
    case None => was
    case Some(v) =>
      if v == [] || !AllDigits(v) || Value(v) > 18446744073709551615 then was
      else if Value(v) > 9223372036854775807 then Value(v) - 18446744073709551616
      else Value(v)
  }

  /** Without a number of seconds, an alternative is good for a day. */
  function Says(x: Alt): AltService
    requires AltOk(x)
  {
    var (host, port) := SplitAuthority(Meant(x.authority)).value;
    AltService(PctDecode(x.protocol), host, port, MaxAge(First(x.params, "ma"), 86400),
               First(x.params, "persist") == Some("1"))
  }

  // --- Quoted strings ---

  lemma {:induction false} InsideRead(s: string, rest: string)
    requires Inside(s)
    ensures Unquote(s + ("\"" + rest)) == Read(Some(Meant(s)), rest)
  {
    var t := s + ("\"" + rest);
    if s == [] {
      assert t == "\"" + rest && t[1..] == rest;
    } else if s[0] == '\\' {
      assert t[2..] == s[2..] + ("\"" + rest) && t[0] == s[0] && t[1] == s[1];
      InsideRead(s[2..], rest);
    } else {
      assert t[1..] == s[1..] + ("\"" + rest) && t[0] == s[0];
      InsideRead(s[1..], rest);
    }
  }

  lemma {:induction false} InsideYields(t: string) returns (s: string)
    requires Unquote(t).value.Some?
    ensures Inside(s) && Unquote(t).value.value == Meant(s) && t == s + ("\"" + Unquote(t).rest)
  {
    if t[0] == '"' {
      s := [];
      assert t == "\"" + t[1..];
    } else if t[0] == '\\' && |t| > 1 {
      var r := InsideYields(t[2..]);
      s := t[..2] + r;
      assert s[2..] == r;
    } else {
      assert t[0] != '\\';
      var r := InsideYields(t[1..]);
      s := [t[0]] + r;
      assert s[1..] == r;
    }
  }

  // --- Parameters ---

  /** A text may end here: what follows does not go on with a token. */
  predicate StopsToken(rest: string) { rest == [] || !IsTchar(rest[0]) }

  lemma BlanksThen(blanks: string, rest: string)
    requires Blanks(blanks)
    ensures SkipOws(blanks + rest) == SkipOws(rest)
  {
    if blanks == [] {
      assert blanks + rest == rest;
    } else {
      assert (blanks + rest)[0] == blanks[0] && (blanks + rest)[1..] == blanks[1..] + rest;
      BlanksThen(blanks[1..], rest);
    }
  }

  lemma SpeltRead(v: Spelling, rest: string)
    requires ValueOk(v) && (v.Plain? ==> StopsToken(rest))
    ensures TokenOrQuotedString(Spelt(v) + rest) == Read(Some(Said(v)), rest)
  {
    match v
    case Plain(t) => ValueRead(t, rest);
    case Quoted(q) =>
      var s := q + ("\"" + rest);
      InsideRead(q, rest);
      assert Spelt(v) + rest == "\"" + s && ("\"" + s)[1..] == s;
  }

  lemma SpeltYields(s: string) returns (v: Spelling)
    requires TokenOrQuotedString(s).value.Some?
    ensures ValueOk(v) && Said(v) == TokenOrQuotedString(s).value.value
    ensures s == Spelt(v) + TokenOrQuotedString(s).rest && (v.Plain? ==> StopsToken(TokenOrQuotedString(s).rest))
  {
    if NextIs(s, '"') {
      var q := InsideYields(s[1..]);
      v := Quoted(q);
      assert s == "\"" + s[1..];
    } else {
      v := Plain(Token(s).value);
      TokenIsName(s);
    }
  }

  lemma {:induction false} TokenIsName(s: string)
    ensures forall i :: 0 <= i < |Token(s).value| ==> IsTchar(Token(s).value[i])
  {
    if s != [] && IsTchar(s[0]) {
      TokenIsName(s[1..]);
    }
  }

  lemma ParamRead(p: Param, rest: string)
    requires ParamOk(p) && (p.value.Plain? ==> StopsToken(rest))
    ensures Parameter(ParamText(p) + rest) == Read(Some((p.name, Said(p.value))), rest)
  {
    Separators();
    var value := Spelt(p.value) + rest;
    var s := p.name + ("=" + value);
    assert ParamText(p) + rest == p.between + s;
    BlanksThen(p.between, s);
    assert s[0] == p.name[0] && IsTchar(s[0]) && SkipOws(s) == s;
    TokenRead(p.name, "=" + value);
    assert ("=" + value)[1..] == value;
    SpeltRead(p.value, rest);
  }

  lemma NameAndValue(t: string) returns (v: Spelling)
    requires Token(t).value != [] && NextIs(Token(t).rest, '=')
    requires TokenOrQuotedString(Token(t).rest[1..]).value.Some?
    ensures var value := TokenOrQuotedString(Token(t).rest[1..]);
      && Name(Token(t).value) && ValueOk(v) && Said(v) == value.value.value && (v.Plain? ==> StopsToken(value.rest))
      && t == Token(t).value + ("=" + (Spelt(v) + value.rest))
  {
    var name := Token(t);
    TokenIsName(t);
    v := SpeltYields(name.rest[1..]);
    assert name.rest == "=" + name.rest[1..];
  }

  /** What a text that is a parameter looks like, apart from the blanks before its semicolon. */
  lemma ParamYields(s: string) returns (p: Param)
    requires Parameter(s).value.Some?
    ensures ParamOk(p) && p.before == [] && Parameter(s).value.value == (p.name, Said(p.value))
    ensures s == ParamText(p) + Parameter(s).rest && (p.value.Plain? ==> StopsToken(Parameter(s).rest))
  {
    var i := SkipsBlanks(s);
    var v := NameAndValue(s[i..]);
    p := Param([], s[..i], Token(s[i..]).value, v);
    assert s == s[..i] + s[i..];
    Regroup(s[..i], p.name, Spelt(v), Parameter(s).rest);
  }

  /** And with them. */
  lemma ParamYieldsAt(s: string) returns (before: string, p: Param)
    requires NextIs(SkipOws(s), ';') && Parameter(SkipOws(s)[1..]).value.Some?
    ensures var r := Parameter(SkipOws(s)[1..]);
      && Blanks(before) && ParamOk(p) && r.value.value == (p.name, Said(p.value))
      && s == before + (";" + (ParamText(p) + r.rest)) && (p.value.Plain? ==> StopsToken(r.rest))
  {
    var i := SkipsBlanks(s);
    var s1 := SkipOws(s);
    before := s[..i];
    p := ParamYields(s1[1..]);
    assert s == s[..i] + s1 && s1 == ";" + s1[1..];
  }

  lemma Regroup(blanks: string, name: string, value: string, rest: string)
    ensures (blanks + (name + ("=" + value))) + rest == blanks + (name + ("=" + (value + rest)))
  {
    assert ("=" + value) + rest == "=" + (value + rest);
    Associates(name, "=" + value, rest);
  }

  lemma RegroupMore(blanks: string, param: string, more: string, tail: string)
    ensures (blanks + (";" + (param + more))) + tail == blanks + (";" + (param + (more + tail)))
  {
    Associates(param, more, tail);
    assert (";" + (param + more)) + tail == ";" + ((param + more) + tail);
  }

  predicate EndsPlain(params: seq<Param>) { params != [] && params[|params| - 1].value.Plain? }

  /** No further parameter, and no more of the last one. */
  predicate Follows(params: seq<Param>, tail: string)
  {
    !NextIs(SkipOws(tail), ';') && (EndsPlain(params) ==> StopsToken(tail))
  }

  /** The service, with what the parameters say that were not there yet. */
  function Applied(a: AltService, params: seq<Param>, ma: bool, persist: bool): AltService
    requires ParamsOk(params)
  {
    var p := First(params, "persist");
    a.(maxAge := if ma then a.maxAge else MaxAge(First(params, "ma"), a.maxAge),
       persist := if persist || p.None? then a.persist else p == Some("1"))
  }

  lemma AppliedStep(a: AltService, params: seq<Param>, ma: bool, persist: bool)
    requires ParamsOk(params) && params != []
    ensures var (name, value) := (params[0].name, Said(params[0].value));
      Applied(a, params, ma, persist)
        == Applied(WithParameter(a, ma, persist, name, value), params[1..],
                   ma || name == "ma", persist || name == "persist")
  {
    KnownNames();
  }

  lemma ParamStops(params: seq<Param>, tail: string)
    requires ParamsOk(params) && Follows(params, tail) && params != []
    ensures params[0].value.Plain? ==> StopsToken(ParamsText(params[1..]) + tail)
    ensures Follows(params[1..], tail)
  {
    Separators();
    if |params| == 1 {
      assert ParamsText(params[1..]) + tail == tail;
    } else {
      var p := params[1];
      assert params[1..][0] == p;
      assert (ParamsText(params[1..]) + tail)[0] == if p.before == [] then ';' else p.before[0];
      TabIsNone();
    }
  }

  lemma TabIsNone()
    ensures !IsTchar('\t')
  {
  }

  lemma ParamsStep(p: Param, rest: string, a: AltService, ma: bool, persist: bool)
    requires ParamOk(p) && (p.value.Plain? ==> StopsToken(rest))
    ensures Parameters(p.before + (";" + (ParamText(p) + rest)), a, ma, persist)
      == Parameters(rest, WithParameter(a, ma, persist, p.name, Said(p.value)),
                    ma || p.name == "ma", persist || p.name == "persist")
  {
    var s := ";" + (ParamText(p) + rest);
    BlanksThen(p.before, s);
    assert SkipOws(s) == s && s[1..] == ParamText(p) + rest;
    ParamRead(p, rest);
  }

  lemma {:induction false} ParamsRead(params: seq<Param>, tail: string, a: AltService, ma: bool, persist: bool)
    requires ParamsOk(params) && Follows(params, tail)
    ensures Parameters(ParamsText(params) + tail, a, ma, persist)
      == Read(Some(Applied(a, params, ma, persist)), SkipOws(tail))
    decreases |params|
  {
    if params == [] {
      assert ParamsText(params) + tail == tail;
    } else {
      var p := params[0];
      ParamStops(params, tail);
      RegroupMore(p.before, ParamText(p), ParamsText(params[1..]), tail);
      ParamsStep(p, ParamsText(params[1..]) + tail, a, ma, persist);
      AppliedStep(a, params, ma, persist);
      ParamsRead(params[1..], tail, WithParameter(a, ma, persist, p.name, Said(p.value)),
                 ma || p.name == "ma", persist || p.name == "persist");
    }
  }

  /** One parameter more in front. */
  lemma ParamsJoin(before: string, p: Param, more: seq<Param>, tail: string) returns (params: seq<Param>)
    requires Blanks(before) && ParamOk(p) && ParamsOk(more) && Follows(more, tail)
    requires p.value.Plain? ==> StopsToken(ParamsText(more) + tail)
    ensures ParamsOk(params) && Follows(params, tail)
    ensures before + (";" + (ParamText(p) + (ParamsText(more) + tail))) == ParamsText(params) + tail
  {
    params := [p.(before := before)] + more;
    assert params[1..] == more && ParamText(params[0]) == ParamText(p);
    RegroupMore(before, ParamText(p), ParamsText(more), tail);
    if more == [] { assert ParamsText(more) + tail == tail; }
  }

  lemma {:induction false} ParamsYield(s: string, a: AltService, ma: bool, persist: bool)
    returns (params: seq<Param>, tail: string)
    requires Parameters(s, a, ma, persist).value.Some?
    ensures ParamsOk(params) && Follows(params, tail) && s == ParamsText(params) + tail
    decreases |s|
  {
    var s1 := SkipOws(s);
    if !NextIs(s1, ';') {
      params, tail := [], s;
      assert ParamsText(params) + tail == tail;
    } else {
      var before, p := ParamYieldsAt(s);
      var more;
      more, tail := ParamsYield(Parameter(s1[1..]).rest, WithParameter(a, ma, persist, p.name, Said(p.value)),
                                ma || p.name == "ma", persist || p.name == "persist");
      params := ParamsJoin(before, p, more, tail);
    }
  }

  // --- Alternatives ---

  lemma AltParts(x: Alt, tail: string)
    ensures AltText(x) + tail
      == x.protocol + ("=" + ("\"" + (x.authority + ("\"" + (ParamsText(x.params) + tail)))))
  {
    RegroupAlt(x.protocol, x.authority, ParamsText(x.params), tail);
  }

  lemma RegroupAlt(name: string, authority: string, params: string, tail: string)
    ensures (name + ("=\"" + (authority + ("\"" + params)))) + tail
      == name + ("=" + ("\"" + (authority + ("\"" + (params + tail)))))
  {
    var inner := authority + ("\"" + params);
    Associates(name, "=\"" + inner, tail);
    Associates("=\"", inner, tail);
    RegroupQuoted(authority, params, tail);
    assert "=\"" + (inner + tail) == "=" + ("\"" + (inner + tail));
  }

  lemma RegroupQuoted(authority: string, params: string, tail: string)
    ensures (authority + ("\"" + params)) + tail == authority + ("\"" + (params + tail))
  {
    Associates(authority, "\"" + params, tail);
    Associates("\"", params, tail);
  }

  /** Up to the parameters. */
  lemma BareRead(protocol: string, authority: string, rest: string)
    requires Name(protocol) && Inside(authority) && SplitAuthority(Meant(authority)).Some?
    ensures var (host, port) := SplitAuthority(Meant(authority)).value;
      Alternative(protocol + ("=" + ("\"" + (authority + ("\"" + rest)))))
        == Read(Some(AltService(PctDecode(protocol), host, port, 86400, false)), rest)
  {
    Separators();
    var quoted := "\"" + (authority + ("\"" + rest));
    TokenRead(protocol, "=" + quoted);
    assert ("=" + quoted)[1..] == quoted && quoted[1..] == authority + ("\"" + rest);
    InsideRead(authority, rest);
  }

  lemma AltRead(x: Alt, tail: string)
    requires AltOk(x) && Follows(x.params, tail)
    ensures AltValue(AltText(x) + tail) == Read(Some(Says(x)), SkipOws(tail))
  {
    AltParts(x, tail);
    BareRead(x.protocol, x.authority, ParamsText(x.params) + tail);
    var (host, port) := SplitAuthority(Meant(x.authority)).value;
    ParamsRead(x.params, tail, AltService(PctDecode(x.protocol), host, port, 86400, false), false, false);
  }

  lemma AltYields(s: string) returns (x: Alt, tail: string)
    requires AltValue(s).value.Some?
    ensures AltOk(x) && Follows(x.params, tail) && s == AltText(x) + tail
  {
    var name := Token(s);
    var q := name.rest[1..];
    var authority := InsideYields(q[1..]);
    TokenIsName(s);
    var a := Alternative(s);
    var params;
    params, tail := ParamsYield(a.rest, a.value.value, false, false);
    x := Alt(name.value, authority, params);
    assert name.rest == "=" + q && q == "\"" + q[1..];
    AltParts(x, tail);
  }

  /** `s` begins with the text of an alternative, and goes on with `tail`. */
  predicate Begins(s: string, x: Alt, tail: string)
  {
    AltOk(x) && Follows(x.params, tail) && s == AltText(x) + tail
  }

  /** The parser accepts the texts of alternatives and nothing else, and reads off them what they say. */
  lemma AcceptsExactly(s: string, a: AltService)
    ensures AltValue(s).value == Some(a) <==> exists x, tail :: Begins(s, x, tail) && Says(x) == a
    ensures AltValue(s).value.None? <==> !exists x, tail :: Begins(s, x, tail)
  {
    if AltValue(s).value.Some? {
      var x, tail := AltYields(s);
      AltRead(x, tail);
      assert Begins(s, x, tail);
    }
    forall x, tail | Begins(s, x, tail) ensures AltValue(s).value == Some(Says(x)) {
      AltRead(x, tail);
    }
  }

  /** An element yields an alternative exactly if its text stands at the front, behind blanks; else it yields none. */
  lemma ElementExactly(e: string, a: AltService)
    requires CommaAt(e, false) == |e|
    ensures List(e) == [a] <==>
      exists i, x, tail :: 0 <= i <= |e| && Blanks(e[..i]) && Begins(e[i..], x, tail) && Says(x) == a
    ensures |List(e)| <= 1
  {
    assert Cut(e, false, e, []) by { assert e + [] == e; }
    ListLocal(e, e, []);
    var n := SkipsBlanks(e);
    ElementIs(e);
    AcceptsExactly(e[n..], a);
    if List(e) == [a] {
      var x, tail :| Begins(e[n..], x, tail) && Says(x) == a;
    }
    forall i, x, tail | 0 <= i <= |e| && Blanks(e[..i]) && Begins(e[i..], x, tail) && Says(x) == a
      ensures List(e) == [a]
    {
      Separators();
      TabIsNone();
      assert e[i] == x.protocol[0];
      SkipsNothing(e, i);
      AltRead(x, tail);
    }
  }

  lemma ElementIs(e: string)
    requires CommaAt(e, false) == |e|
    ensures List(e) == Found(SkipOws(e))
  {
    assert Cut(e, false, e, []) by { assert e + [] == e; }
    SkipOwsLocal(e, e, []);
    SkipOwsTwice(e);
    ListStep(SkipOws(e), SkipOws(e), []);
    NothingLeft();
    assert Found(SkipOws(e)) + [] == Found(SkipOws(e));
  }

}
