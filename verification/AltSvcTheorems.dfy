/**
 * What the Alt-Svc parser is good for: it reads back whatever is written, the server's own advertisement
 * among it, and whatever it reads can be written.
 */
module AltSvcTheorems {
  import opened Bytes
  import opened AltSvc
  import opened AltSvcPrint

  // --- Input octets stay octets ---

  lemma SkipOwsOctets(s: string)
    requires Octets(s)
    ensures Octets(SkipOws(s))
  {
  }

  lemma {:induction false} UnquoteOctets(s: string)
    requires Octets(s)
    ensures Octets(Unquote(s).rest)
  {
    if s != [] && s[0] != '"' {
      UnquoteOctets(if s[0] == '\\' && |s| > 1 then s[2..] else s[1..]);
    }
  }

  lemma OctetsSplit(s: string, a: string, b: string)
    requires Octets(s) && s == a + b
    ensures Octets(a) && Octets(b)
  {
    assert forall i :: 0 <= i < |a| ==> a[i] == s[i];
    assert forall i :: 0 <= i < |b| ==> b[i] == s[|a| + i];
  }

  lemma TokenOctets(s: string)
    requires Octets(s)
    ensures Octets(Token(s).value) && Octets(Token(s).rest)
  {
    OctetsSplit(s, Token(s).value, Token(s).rest);
  }

  lemma ParameterOctets(s: string)
    requires Octets(s)
    ensures Octets(Parameter(s).rest)
  {
    SkipOwsOctets(s);
    TokenOctets(SkipOws(s));
    var rest := Token(SkipOws(s)).rest;
    if NextIs(rest, '=') {
      TokenOctets(rest[1..]);
      if NextIs(rest[1..], '"') {
        UnquoteOctets(rest[2..]);
        assert rest[1..][1..] == rest[2..];
      }
    }
  }

  lemma {:induction false} ParametersOctets(s: string, a: AltService, ma: bool, persist: bool)
    requires Octets(s)
    ensures Octets(Parameters(s, a, ma, persist).rest)
    decreases |s|
  {
    SkipOwsOctets(s);
    var s1 := SkipOws(s);
    if NextIs(s1, ';') {
      ParameterOctets(s1[1..]);
      var p := Parameter(s1[1..]);
      if p.value.Some? {
        var (name, value) := p.value.value;
        ParametersOctets(p.rest, WithParameter(a, ma, persist, name, value),
                         ma || name == "ma", persist || name == "persist");
      }
    }
  }

  lemma {:induction false} PctDecodeOctets(s: string)
    requires Octets(s)
    ensures Octets(PctDecode(s)) && (s != [] ==> PctDecode(s) != [])
  {
    if s != [] {
      PctDecodeOctets(if IsEscape(s) then s[3..] else s[1..]);
    }
  }

  lemma AlternativeOctets(s: string)
    requires Octets(s)
    ensures Octets(Alternative(s).rest)
  {
    TokenOctets(s);
    var rest := Token(s).rest;
    if NextIs(rest, '=') && NextIs(rest[1..], '"') {
      UnquoteOctets(rest[2..]);
      assert rest[1..][1..] == rest[2..];
    }
  }

  // --- Whatever is read could have been written ---

  lemma AlternativeWritable(s: string)
    requires Octets(s) && Alternative(s).value.Some?
    ensures Writable(Alternative(s).value.value)
  {
    TokenOctets(s);
    PctDecodeOctets(Token(s).value);
    AuthorityYields(QuotedString(Token(s).rest[1..]).value.value);
  }

  lemma {:induction false} ParametersWritable(s: string, a: AltService, ma: bool, persist: bool)
    requires Writable(a) && Parameters(s, a, ma, persist).value.Some?
    ensures Writable(Parameters(s, a, ma, persist).value.value)
    decreases |s|
  {
    var s1 := SkipOws(s);
    if NextIs(s1, ';') {
      var p := Parameter(s1[1..]);
      var (name, value) := p.value.value;
      ParametersWritable(p.rest, WithParameter(a, ma, persist, name, value),
                         ma || name == "ma", persist || name == "persist");
    }
  }

  lemma AltValueWritable(s: string)
    requires Octets(s)
    ensures Octets(AltValue(s).rest)
    ensures AltValue(s).value.Some? ==> Writable(AltValue(s).value.value)
  {
    AlternativeOctets(s);
    var a := Alternative(s);
    if a.value.Some? {
      AlternativeWritable(s);
      ParametersOctets(a.rest, a.value.value, false, false);
      if AltValue(s).value.Some? {
        ParametersWritable(a.rest, a.value.value, false, false);
      }
    }
  }

  /** Every alternative any field value yields is one that can be written. */
  lemma {:induction false} ListWritable(s: string)
    requires Octets(s)
    ensures AllWritable(List(s))
    decreases |s|
  {
    SkipOwsOctets(s);
    var s1 := SkipOws(s);
    if s1 == [] {
    } else if s1[0] == ',' {
      ListWritable(s1[1..]);
    } else {
      AltValueWritable(s1);
      var a := AltValue(s1);
      if a.value.None? {
        ListWritable(SkipElement(a.rest));
      } else {
        SkipOwsOctets(a.rest);
        ListWritable(Following(SkipOws(a.rest)));
      }
    }
  }

  /** So writing what was read, malformed input or not, and reading that changes nothing any more. */
  lemma Normalises(s: string)
    requires Octets(s)
    ensures AllWritable(List(s)) && List(WriteAll(List(s))) == List(s)
  {
    ListWritable(s);
    RoundTrip(List(s));
  }

  // --- The whole field value ---

  lemma {:induction false} TrimEndKeeps(s: string, c: char)
    requires c in s && !IsOws(c)
    ensures c in TrimEnd(s)
  {
    var n := |s| - 1;
    if IsOws(s[n]) {
      assert s == s[..n] + [s[n]];
      TrimEndKeeps(s[..n], c);
    }
  }

  lemma {:induction false} SkipOwsKeeps(s: string, c: char)
    requires c in s && !IsOws(c)
    ensures c in SkipOws(s)
  {
    if IsOws(s[0]) {
      assert s == [s[0]] + s[1..];
      SkipOwsKeeps(s[1..], c);
    }
  }

  /** "clear" is the whole value, with blanks around it, or it is not there at all. */
  lemma NeverClear(value: string)
    requires '=' in value
    ensures Parse(value) == Services(List(value))
  {
    SkipOwsKeeps(value, '=');
    TrimEndKeeps(SkipOws(value), '=');
  }

  lemma WriteHasEquals(a: AltService, rest: string)
    requires Writable(a)
    ensures '=' in Write(a) + rest
  {
    WriteParts(a, rest);
    var n := |PctEncode(a.protocol)|;
    assert (Write(a) + rest)[n] == '=';
  }

  lemma AllHasEquals(l: seq<AltService>)
    requires AllWritable(l) && l != []
    ensures '=' in WriteAll(l)
  {
    if |l| == 1 {
      WriteHasEquals(l[0], []);
      assert Write(l[0]) + [] == Write(l[0]);
    } else {
      WriteHasEquals(l[0], ", " + WriteAll(l[1..]));
      assert Write(l[0]) + (", " + WriteAll(l[1..])) == WriteAll(l);
    }
  }

  /** A written field value is read as the list it was written from, and never as "clear". */
  lemma ParseRoundTrip(l: seq<AltService>)
    requires AllWritable(l)
    ensures Parse(WriteAll(l)) == Services(l)
  {
    RoundTrip(l);
    if l != [] {
      AllHasEquals(l);
      NeverClear(WriteAll(l));
    }
  }

  /** What the server puts into its "Alt-Svc" field. */
  function Advertisement(port: nat, maxAge: nat): string
  {
    "h3=\":" + Decimal(port) + "\"; ma=" + Decimal(maxAge)
  }

  lemma {:induction false} EscapeDigits(s: string)
    requires AllDigits(s)
    ensures Escape(s) == s
  {
    if s != [] {
      EscapeDigits(s[1..]);
      assert IsDigit(s[0]);
      assert [s[0]] + s[1..] == s;
    }
  }

  /** A client reads it as exactly that: HTTP/3, on this very host, at this port, for this long. */
  lemma AdvertisementRead(port: nat, maxAge: nat)
    requires maxAge < 0x8000_0000_0000_0000
    ensures Parse(Advertisement(port, maxAge)) == Services([AltService("h3", "", Decimal(port), maxAge, false)])
  {
    var a := AltService("h3", "", Decimal(port), maxAge, false);
    DecimalRead(port);
    AdvertisementIsWritten(a, port, maxAge);
    ParseRoundTrip([a]);
  }

  lemma AdvertisementIsWritten(a: AltService, port: nat, maxAge: nat)
    requires Writable(a) && a == AltService("h3", "", Decimal(port), maxAge, false)
    ensures Write(a) == Advertisement(port, maxAge)
  {
    PortAuthority(port);
    Encodes();
  }

  lemma PortAuthority(port: nat)
    ensures Escape(Authority("", Decimal(port))) == ":" + Decimal(port)
  {
    var a := ":" + Decimal(port);
    DecimalRead(port);
    EscapeDigits(Decimal(port));
    assert Authority("", Decimal(port)) == a;
    assert a[1..] == Decimal(port);
  }

  lemma Encodes()
    ensures PctEncode("h3") == "h3"
  {
    assert "h3"[1..] == "3" && "3"[1..] == "";
    assert PctEncode("3") == "3";
  }

  /** A value that clears would list nothing anyway: the two readings never compete. */
  lemma ClearListsNothing(value: string)
    requires Parse(value).Clear?
    ensures List(value) == []
  {
    TrimmedToken(SkipOws(value), "clear");
  }

  lemma TrimmedToken(s: string, t: string)
    requires TrimEnd(s) == t && t != [] && IsToken(t)
    ensures List(s) == []
  {
    TrimEndPrefix(s);
    var blanks := s[|t|..];
    assert t + blanks == s;
    BareToken(t, blanks);
    assert IsTchar(s[0]);
    Separators();
    BlanksHaveNoComma(blanks);
    assert SkipOws(s) == s && SkipElement(blanks) == [] && List([]) == [];
  }

  lemma BareToken(t: string, blanks: string)
    requires IsToken(t) && Blank(blanks)
    ensures AltValue(t + blanks) == Read(None, blanks)
  {
    Separators();
    TokenRead(t, blanks);
  }

  predicate Blank(s: string) { forall i :: 0 <= i < |s| ==> IsOws(s[i]) }

  lemma {:induction false} TrimEndPrefix(s: string)
    ensures TrimEnd(s) <= s && Blank(s[|TrimEnd(s)|..])
  {
    if s != [] && IsOws(s[|s| - 1]) {
      TrimEndPrefix(s[..|s| - 1]);
      var n := |TrimEnd(s)|;
      assert forall i :: n <= i < |s| - 1 ==> s[i] == s[..|s| - 1][n..][i - n];
    }
  }

  lemma {:induction false} BlanksHaveNoComma(s: string)
    requires Blank(s)
    ensures CommaAt(s, false) == |s|
  {
    if s != [] {
      BlanksHaveNoComma(s[1..]);
    }
  }
}
