/**
 * The other direction: how alternatives are written as a field value, and that reading it gives them back.
 * What can be written is exactly what a field value can yield.
 */
module AltSvcPrint {
  import opened Bytes
  import opened AltSvc

  function HexDigit(n: nat): char
    requires n < 16
  {
    if n < 10 then ('0' as int + n) as char else ('A' as int + n - 10) as char
  }

  predicate Octets(s: string) { forall i :: 0 <= i < |s| ==> s[i] as int < 256 }

  /** A protocol name as a token: whatever is no token character, and "%" itself, is escaped. */
  function PctEncode(s: string): string
    requires Octets(s)
  {
    if s == [] then []
    else EncodeChar(s[0]) + PctEncode(s[1..])
  }

  function EncodeChar(c: char): string
    requires c as int < 256
  {
    if IsTchar(c) && c != '%' then [c] else ['%', HexDigit(c as int / 16), HexDigit(c as int % 16)]
  }

  /** The inside of a quoted string. */
  function Escape(s: string): string
  {
    if s == [] then []
    else (if s[0] == '"' || s[0] == '\\' then ['\\', s[0]] else [s[0]]) + Escape(s[1..])
  }

  function Digit(n: nat): char
    requires n < 10
  {
    ('0' as int + n) as char
  }

  function Decimal(n: nat): string
  {
    if n < 10 then [Digit(n)] else Decimal(n / 10) + [Digit(n % 10)]
  }

  /** Hosts that need brackets: literals, and those that would be taken for one. */
  predicate Bracketed(host: string) { IsLiteral(host) || (':' in host && ']' !in host) }

  function Authority(host: string, port: string): string
  {
    if Bracketed(host) then "[" + host + "]:" + port else host + ":" + port
  }

  /** The hosts an authority can name: not those whose first "]" would let their own ":" pass for the port's. */
  predicate Expressible(host: string)
  {
    IsLiteral(host) ==> ':' !in host[Find(host, ']')..]
  }

  function Unsigned(n: int): nat
    requires -0x8000_0000_0000_0000 <= n
  {
    if n >= 0 then n else n + 0x1_0000_0000_0000_0000
  }

  predicate Writable(a: AltService)
  {
    && a.protocol != [] && Octets(a.protocol)
    && Expressible(a.host)
    && a.port != [] && AllDigits(a.port)
    && -0x8000_0000_0000_0000 <= a.maxAge < 0x8000_0000_0000_0000
  }

  function Persist(a: AltService): string { if a.persist then "; persist=1" else "" }

  function Write(a: AltService): string
    requires Writable(a)
  {
    PctEncode(a.protocol) + "=\"" + Escape(Authority(a.host, a.port)) + "\"; ma=" + Decimal(Unsigned(a.maxAge))
    + Persist(a)
  }

  predicate AllWritable(l: seq<AltService>) { forall i :: 0 <= i < |l| ==> Writable(l[i]) }

  function WriteAll(l: seq<AltService>): string
    requires AllWritable(l)
  {
    if l == [] then "" else if |l| == 1 then Write(l[0]) else Write(l[0]) + ", " + WriteAll(l[1..])
  }

  // --- Tokens ---

  predicate IsToken(t: string) { forall i :: 0 <= i < |t| ==> IsTchar(t[i]) }

  lemma {:induction false} TokenRead(t: string, rest: string)
    requires IsToken(t) && (rest == [] || !IsTchar(rest[0]))
    ensures Token(t + rest) == Read(t, rest)
  {
    if t == [] {
      assert t + rest == rest;
    } else {
      assert IsTchar(t[0]) && (t + rest)[0] == t[0];
      assert forall i :: 0 <= i < |t| - 1 ==> t[1..][i] == t[i + 1];
      TokenRead(t[1..], rest);
      assert (t + rest)[1..] == t[1..] + rest;
      assert [t[0]] + t[1..] == t;
    }
  }

  lemma HexRead(c: char)
    requires c as int < 256
    ensures IsEscape(EncodeEscape(c)) && Escaped(EncodeEscape(c)) == c
    ensures IsToken(EncodeEscape(c))
  {
  }

  function EncodeEscape(c: char): string
    requires c as int < 256
  {
    ['%', HexDigit(c as int / 16), HexDigit(c as int % 16)]
  }

  lemma {:induction false} PctRead(s: string)
    requires Octets(s)
    ensures PctDecode(PctEncode(s)) == s && IsToken(PctEncode(s))
    ensures s != [] ==> PctEncode(s) != []
  {
    if s != [] {
      PctRead(s[1..]);
      HexRead(s[0]);
      var head, tail := EncodeChar(s[0]), PctEncode(s[1..]);
      var t := head + tail;
      if IsTchar(s[0]) && s[0] != '%' {
        assert t[1..] == tail;
      } else {
        assert t[3..] == tail && t[0] == head[0] && t[1] == head[1] && t[2] == head[2];
        assert IsEscape(t);
      }
    }
  }

  // --- Quoted strings ---

  lemma {:induction false} UnquoteRead(v: string, rest: string)
    ensures Unquote(Escape(v) + ("\"" + rest)) == Read(Some(v), rest)
  {
    var s := Escape(v) + ("\"" + rest);
    if v == [] {
      assert s == "\"" + rest;
      assert s[1..] == rest;
    } else {
      UnquoteRead(v[1..], rest);
      var next := Escape(v[1..]) + ("\"" + rest);
      if v[0] == '"' || v[0] == '\\' {
        assert s[2..] == next && s[0] == '\\' && s[1] == v[0];
      } else {
        assert s[1..] == next && s[0] == v[0];
      }
      assert [v[0]] + v[1..] == v;
    }
  }

  // --- Numbers ---

  lemma {:induction false} DecimalRead(n: nat)
    ensures Decimal(n) != [] && AllDigits(Decimal(n)) && Value(Decimal(n)) == n && IsToken(Decimal(n))
  {
    if n >= 10 {
      DecimalRead(n / 10);
      var d := Decimal(n);
      assert d[..|d| - 1] == Decimal(n / 10);
    } else {
      assert [Digit(n)][..0] == [];
    }
  }

  // --- Authorities ---

  /** What does not hold the character is passed over. */
  lemma {:induction false} FindThrough(s: string, t: string, c: char)
    requires c !in s
    ensures Find(s + t, c) == |s| + Find(t, c)
  {
    if s == [] {
      assert s + t == t;
    } else {
      assert s == [s[0]] + s[1..] && (s + t)[1..] == s[1..] + t && (s + t)[0] == s[0];
      FindThrough(s[1..], t, c);
    }
  }

  /** The first "]" of a bracketed authority is that of the host, or the one that closes it. */
  lemma BracketRead(host: string, port: string)
    ensures Find("[" + host + "]:" + port, ']') == Find(host, ']') + 1
  {
    var b := Find(host, ']');
    var head, tail := "[" + host[..b], host[b..] + ("]:" + port);
    assert host == host[..b] + host[b..];
    assert "[" + host + "]:" + port == head + tail;
    assert tail[0] == ']';
    FindThrough(head, tail, ']');
  }

  lemma LiteralRead(host: string, port: string)
    requires Expressible(host) && Bracketed(host)
    ensures PortColon("[" + host + "]:" + port) == Some(|host| + 2)
  {
    var a := "[" + host + "]:" + port;
    var b := Find(host, ']');
    BracketRead(host, port);
    var tail := "]:" + port;
    assert a[b + 1..] == host[b..] + tail;
    NoColon(host);
    FindThrough(host[b..], tail, ':');
    assert tail[0] == ']' && tail[1..][0] == ':';
    assert Find(tail, ':') == 1;
  }

  /** From its first "]" on, a bracketed host has no ":". */
  lemma NoColon(host: string)
    requires Expressible(host) && Bracketed(host)
    ensures ':' !in host[Find(host, ']')..]
  {
    var b := Find(host, ']');
    if b < |host| {
      assert host[b] in host;
    }
  }

  lemma PlainRead(host: string, port: string)
    requires !IsLiteral(host) && AllDigits(port)
    ensures PortColon(host + ":" + port) == Some(|host|)
  {
    var a := host + ":" + port;
    assert a[|host|] == ':' && (host != [] ==> a[0] == host[0]);
    forall j | |host| < j < |a| ensures a[j] != ':' {
      assert a[j] == port[j - |host| - 1];
    }
  }

  /** Splitting a written authority gives host and port back. */
  lemma AuthorityRead(host: string, port: string)
    requires Expressible(host) && port != [] && AllDigits(port)
    ensures SplitAuthority(Authority(host, port)) == Some((host, port))
  {
    var a := Authority(host, port);
    if Bracketed(host) {
      LiteralRead(host, port);
      assert a[|host| + 3..] == port && a[1..|host| + 1] == host;
    } else {
      PlainRead(host, port);
      assert a[|host| + 1..] == port && a[..|host|] == host;
      assert host != [] ==> a[0] == host[0];
    }
  }

  /** And no other host or port comes out of one: what cannot be written cannot be read. */
  lemma AuthorityYields(authority: string)
    requires SplitAuthority(authority).Some?
    ensures var (host, port) := SplitAuthority(authority).value;
      Expressible(host) && port != [] && AllDigits(port)
  {
    var colon := PortColon(authority).value;
    var (host, port) := SplitAuthority(authority).value;
    if IsLiteral(authority) && IsLiteral(host) {
      var b := Find(authority, ']');
      var behind := authority[b..];
      assert colon == b + Find(behind, ':');
      forall j | Find(host, ']') <= j < |host| ensures host[j] != ':' {
        var i := Find(host, ']');
        assert host[i] == authority[i + 1] && host[j] == authority[j + 1];
        assert b <= i + 1;
        assert behind[j + 1 - b] == authority[j + 1];
      }
    } else if IsLiteral(host) {
      assert false;
    }
  }

  // --- Alternatives ---

  /** How an alternative may be followed. */
  predicate Ends(tail: string) { tail == [] || tail[0] == ',' }

  lemma ParameterRead(name: string, value: string, rest: string)
    requires IsToken(name) && name != [] && IsToken(value) && value != [] && (rest == [] || !IsTchar(rest[0]))
    ensures Parameter(" " + (name + ("=" + (value + rest)))) == Read(Some((name, value)), rest)
  {
    Separators();
    var behind := "=" + (value + rest);
    SkipsBlank(name, behind);
    TokenRead(name, behind);
    assert behind[1..] == value + rest;
    ValueRead(value, rest);
  }

  lemma SkipsBlank(name: string, behind: string)
    requires IsToken(name) && name != []
    ensures SkipOws(" " + (name + behind)) == name + behind
  {
    var text := name + behind;
    assert (" " + text)[1..] == text && text[0] == name[0] && IsTchar(name[0]);
    Separators();
  }

  lemma ValueRead(value: string, rest: string)
    requires IsToken(value) && value != [] && (rest == [] || !IsTchar(rest[0]))
    ensures TokenOrQuotedString(value + rest) == Read(Some(value), rest)
  {
    Separators();
    TokenRead(value, rest);
    assert (value + rest)[0] == value[0] && IsTchar(value[0]);
  }

  /** One parameter and a blank before it read, and the rest still to read. */
  lemma ParametersStep(name: string, value: string, rest: string, a: AltService, ma: bool, persist: bool)
    requires IsToken(name) && name != [] && IsToken(value) && value != [] && (rest == [] || !IsTchar(rest[0]))
    ensures Parameters("; " + (name + ("=" + (value + rest))), a, ma, persist)
      == Parameters(rest, WithParameter(a, ma, persist, name, value), ma || name == "ma", persist || name == "persist")
  {
    var text := name + ("=" + (value + rest));
    ParameterRead(name, value, rest);
    assert ("; " + text)[1..] == " " + text;
  }

  /** One parameter as it is written: its semicolon, a blank, name and value. */
  function AsParameter(name: string, value: string, rest: string): string
  {
    "; " + (name + ("=" + (value + rest)))
  }

  /** A parameter that is repeated counts only the first time, whatever it says then. */
  lemma RepeatedIgnored(name: string, v: string, w: string, rest: string, a: AltService)
    requires name == "ma" || name == "persist"
    requires IsToken(v) && v != [] && IsToken(w) && w != [] && (rest == [] || !IsTchar(rest[0]))
    ensures Parameters(AsParameter(name, v, AsParameter(name, w, rest)), a, false, false)
      == Parameters(AsParameter(name, v, rest), a, false, false)
  {
    KnownNames();
    Separators();
    var b := WithParameter(a, false, false, name, v);
    ParametersStep(name, v, AsParameter(name, w, rest), a, false, false);
    ParametersStep(name, v, rest, a, false, false);
    ParametersStep(name, w, rest, b, name == "ma", name == "persist");
  }

  /** One we do not know changes nothing. */
  lemma UnknownIgnored(name: string, v: string, rest: string, a: AltService, ma: bool, persist: bool)
    requires name != "ma" && name != "persist" && IsToken(name) && name != []
    requires IsToken(v) && v != [] && (rest == [] || !IsTchar(rest[0]))
    ensures Parameters(AsParameter(name, v, rest), a, ma, persist) == Parameters(rest, a, ma, persist)
  {
    ParametersStep(name, v, rest, a, ma, persist);
  }

  lemma KnownNames()
    ensures IsToken("ma") && IsToken("persist") && "ma" != "persist"
  {
    assert |"ma"| != |"persist"|;
  }

  lemma EndsRead(a: AltService, tail: string, ma: bool, persist: bool)
    requires Ends(tail)
    ensures Parameters(tail, a, ma, persist) == Read(Some(a), tail)
  {
  }

  lemma PersistText(tail: string)
    ensures "; persist=1" + tail == "; " + ("persist" + ("=" + ("1" + tail)))
  {
  }

  lemma PersistRead(a: AltService, tail: string)
    requires Ends(tail)
    ensures Parameters(Persist(a) + tail, a.(persist := false), true, false) == Read(Some(a), tail)
  {
    EndsRead(a, tail, true, a.persist);
    if a.persist {
      Separators();
      ParametersStep("persist", "1", tail, a.(persist := false), true, false);
      PersistText(tail);
    } else {
      assert Persist(a) + tail == tail;
    }
  }

  lemma PersistStops(a: AltService, tail: string)
    requires Ends(tail)
    ensures var s := Persist(a) + tail; s == [] || !IsTchar(s[0])
  {
    Separators();
  }

  lemma MaText(rest: string)
    ensures "; ma=" + rest == "; " + ("ma" + ("=" + rest))
  {
  }

  lemma MaSet(a: AltService, n: nat)
    requires n < 0x1_0000_0000_0000_0000
    ensures WithParameter(a, false, false, "ma", Decimal(n)) == a.(maxAge := Signed(n))
  {
    DecimalRead(n);
  }

  lemma ParametersRead(a: AltService, tail: string)
    requires Writable(a) && Ends(tail)
    ensures var s := "; ma=" + (Decimal(Unsigned(a.maxAge)) + (Persist(a) + tail));
      Parameters(s, a.(maxAge := DEFAULT_MAX_AGE, persist := false), false, false) == Read(Some(a), tail)
  {
    var n := Decimal(Unsigned(a.maxAge));
    var rest := Persist(a) + tail;
    PersistRead(a, tail);
    PersistStops(a, tail);
    DecimalRead(Unsigned(a.maxAge));
    var bare := a.(maxAge := DEFAULT_MAX_AGE, persist := false);
    ParametersStep("ma", n, rest, bare, false, false);
    MaText(n + rest);
    MaSet(bare, Unsigned(a.maxAge));
  }

  lemma QuotedRead(v: string, rest: string)
    ensures QuotedString("\"" + (Escape(v) + ("\"" + rest))) == Read(Some(v), rest)
  {
    var quoted := Escape(v) + ("\"" + rest);
    assert ("\"" + quoted)[1..] == quoted;
    UnquoteRead(v, rest);
  }

  lemma AlternativeRead(a: AltService, rest: string)
    requires Writable(a)
    ensures var quoted := "\"" + (Escape(Authority(a.host, a.port)) + ("\"" + rest));
      Alternative(PctEncode(a.protocol) + ("=" + quoted))
        == Read(Some(a.(maxAge := DEFAULT_MAX_AGE, persist := false)), rest)
  {
    Separators();
    var quoted := "\"" + (Escape(Authority(a.host, a.port)) + ("\"" + rest));
    PctRead(a.protocol);
    TokenRead(PctEncode(a.protocol), "=" + quoted);
    assert ("=" + quoted)[1..] == quoted;
    QuotedRead(Authority(a.host, a.port), rest);
    AuthorityRead(a.host, a.port);
  }

  lemma AltValueRead(a: AltService, tail: string)
    requires Writable(a) && Ends(tail)
    ensures AltValue(Write(a) + tail) == Read(Some(a), tail)
    ensures Write(a) != [] && IsTchar(Write(a)[0])
  {
    var rest := "; ma=" + (Decimal(Unsigned(a.maxAge)) + (Persist(a) + tail));
    WriteParts(a, tail);
    AlternativeRead(a, rest);
    ParametersRead(a, tail);
    PctRead(a.protocol);
    assert Write(a)[0] == PctEncode(a.protocol)[0];
  }

  lemma WriteParts(a: AltService, tail: string)
    requires Writable(a)
    ensures var rest := "; ma=" + (Decimal(Unsigned(a.maxAge)) + (Persist(a) + tail));
      Write(a) + tail == PctEncode(a.protocol) + ("=" + ("\"" + (Escape(Authority(a.host, a.port)) + ("\"" + rest))))
  {
    Regroup(PctEncode(a.protocol), Escape(Authority(a.host, a.port)), Decimal(Unsigned(a.maxAge)), Persist(a), tail);
  }

  lemma Regroup(p: string, q: string, n: string, m: string, tail: string)
    ensures (p + "=\"" + q + "\"; ma=" + n + m) + tail
      == p + ("=" + ("\"" + (q + ("\"" + ("; ma=" + (n + (m + tail)))))))
  {
    var r := n + (m + tail);
    assert "\"; ma=" + r == "\"" + ("; ma=" + r);
    var s := q + ("\"; ma=" + r);
    assert "=\"" + s == "=" + ("\"" + s);
  }

  lemma ListAfterSpace(s: string)
    ensures List(" " + s) == List(s)
  {
    assert (" " + s)[1..] == s;
  }

  lemma ListRead(a: AltService, tail: string)
    requires Writable(a) && Ends(tail)
    ensures List(Write(a) + tail) == [a] + List(if tail == [] then [] else tail[1..])
  {
    AltValueRead(a, tail);
    var s := Write(a) + tail;
    assert s != [] && s[0] == Write(a)[0];
    NotBlank(s[0]);
    EndsFollowing(tail);
    assert SkipOws(s) == s;
  }

  lemma NotBlank(c: char)
    requires IsTchar(c)
    ensures !IsOws(c) && c != ','
  {
  }

  lemma EndsFollowing(tail: string)
    requires Ends(tail)
    ensures SkipOws(tail) == tail && Following(tail) == if tail == [] then [] else tail[1..]
  {
  }

  /** Reading what was written gives the list back, in order. */
  lemma {:induction false} RoundTrip(l: seq<AltService>)
    requires AllWritable(l)
    ensures List(WriteAll(l)) == l
  {
    if |l| == 1 {
      ListRead(l[0], []);
      assert Write(l[0]) + [] == Write(l[0]);
      assert List([]) == [];
    } else if l != [] {
      var rest := WriteAll(l[1..]);
      ListRead(l[0], ", " + rest);
      RoundTrip(l[1..]);
      ListAfterSpace(rest);
      assert Write(l[0]) + (", " + rest) == WriteAll(l);
      assert (", " + rest)[1..] == " " + rest;
    }
  }
}
