/**
 * Exactly what the parser accepts: which characters, which authorities, which alternatives with which parameters,
 * and what it makes of them; and which field values clear.
 */
module AltSvcGrammar {
  import opened Bytes
  import opened AltSvc
  import opened AltSvcSplit

  // --- Clearing ---

  predicate Blanks(s: string) { forall i :: 0 <= i < |s| ==> s[i] == ' ' || s[i] == '\t' }

  /** `s` is the word with nothing but blanks around it, `i` of them before. */
  predicate Alone(s: string, word: string, i: nat)
  {
    i + |word| <= |s| && Blanks(s[..i]) && s[i..i + |word|] == word && Blanks(s[i + |word|..])
  }

  lemma {:induction false} SkipsBlanks(s: string) returns (i: nat)
    ensures i <= |s| && Blanks(s[..i]) && SkipOws(s) == s[i..]
  {
    if s != [] && IsOws(s[0]) {
      var j := SkipsBlanks(s[1..]);
      i := j + 1;
      assert s[..i] == [s[0]] + s[1..][..j];
    } else {
      i := 0;
    }
  }

  lemma {:induction false} SkipsNothing(s: string, i: nat)
    requires i <= |s| && Blanks(s[..i]) && (i < |s| ==> s[i] != ' ' && s[i] != '\t')
    ensures SkipOws(s) == s[i..]
  {
    if i > 0 {
      assert s[..i][0] == s[0];
      assert s[1..][..i - 1] == s[..i][1..];
      SkipsNothing(s[1..], i - 1);
    }
  }

  lemma {:induction false} TrimsBlanks(s: string)
    ensures TrimEnd(s) <= s && Blanks(s[|TrimEnd(s)|..])
  {
    if s != [] && IsOws(s[|s| - 1]) {
      TrimsBlanks(s[..|s| - 1]);
      var n := |TrimEnd(s)|;
      assert s[n..] == s[..|s| - 1][n..] + [s[|s| - 1]];
    }
  }

  lemma {:induction false} TrimsNothing(s: string, n: nat)
    requires n <= |s| && Blanks(s[n..]) && (n > 0 ==> s[n - 1] != ' ' && s[n - 1] != '\t')
    ensures TrimEnd(s) == s[..n]
  {
    if n < |s| {
      var k := |s| - 1;
      assert s[n..][k - n] == s[k];
      assert s[..k][n..] == s[n..][..k - n];
      TrimsNothing(s[..k], n);
      assert s[..k][..n] == s[..n];
    } else {
      assert s[..n] == s;
    }
  }

  lemma ClearsAlone(value: string) returns (i: nat)
    requires Parse(value) == Clear
    ensures i <= |value| && Alone(value, "clear", i)
  {
    i := SkipsBlanks(value);
    TrimsBlanks(value[i..]);
    assert value[i..][..5] == value[i..i + 5] && value[i..][5..] == value[i + 5..];
  }

  lemma AloneClears(value: string, i: nat)
    requires i <= |value| && Alone(value, "clear", i)
    ensures Parse(value) == Clear
  {
    assert value[i..i + 5][0] == value[i] && value[i..i + 5][4] == value[i + 4];
    SkipsNothing(value, i);
    assert value[i..][5..] == value[i + 5..];
    TrimsNothing(value[i..], 5);
    assert value[i..][..5] == value[i..i + 5];
  }

  /** A field value clears exactly if it is the word "clear" between blanks; any other is a list. */
  lemma ClearExactly(value: string)
    ensures Parse(value) == Clear <==> exists i :: 0 <= i <= |value| && Alone(value, "clear", i)
    ensures Parse(value) != Clear ==> Parse(value) == Services(List(value))
  {
    if Parse(value) == Clear {
      var i := ClearsAlone(value);
    }
    forall i | 0 <= i <= |value| && Alone(value, "clear", i) ensures Parse(value) == Clear {
      AloneClears(value, i);
    }
  }

  // --- Characters ---

  /** The delimiters of section 5.6.2 of RFC 9110: every other visible character makes up tokens. */
  const DELIMITERS := "\"(),/:;<=>?@[\\]{}"

  const DIGITS := "0123456789"
  const LOWER_HEX := "0123456789abcdef"
  const UPPER_HEX := "0123456789ABCDEF"

  lemma TokenCharacters(c: char)
    ensures IsTchar(c) <==> '!' <= c <= '~' && c !in DELIMITERS
    ensures IsDigit(c) <==> c in DIGITS
  {
  }

  /** A hex digit is worth its place among them, in either case; nothing else is one. */
  lemma HexDigits(c: char, n: nat)
    requires n < 16
    ensures HexValue(LOWER_HEX[n]) == HexValue(UPPER_HEX[n]) == Some(n)
    ensures HexValue(c).Some? <==> c in LOWER_HEX || c in UPPER_HEX
  {
  }

  predicate IsHex(c: char, n: nat) { n < 16 && (c == LOWER_HEX[n] || c == UPPER_HEX[n]) }

  /** Two of them behind a "%" are one octet. */
  lemma PctOctet(a: char, b: char, hi: nat, lo: nat, rest: string)
    requires IsHex(a, hi) && IsHex(b, lo)
    ensures PctDecode(['%', a, b] + rest) == [(16 * hi + lo) as char] + PctDecode(rest)
  {
    HexOf(a, hi);
    HexOf(b, lo);
    var s := ['%', a, b] + rest;
    assert s[3..] == rest;
    PctStep(s, hi, lo);
  }

  lemma HexOf(c: char, n: nat)
    requires IsHex(c, n)
    ensures HexValue(c) == Some(n)
  {
    HexDigits(c, n);
  }

  lemma PctStep(s: string, hi: nat, lo: nat)
    requires |s| >= 3 && s[0] == '%' && hi < 16 && lo < 16
    requires HexValue(s[1]) == Some(hi) && HexValue(s[2]) == Some(lo)
    ensures PctDecode(s) == [(16 * hi + lo) as char] + PctDecode(s[3..])
  {
  }

  /** A "%" in front of anything else, and any other character, is itself. */
  lemma PctItself(c: char, rest: string)
    requires c == '%' && |rest| >= 2 ==> !InHex(rest[0]) || !InHex(rest[1])
    ensures PctDecode([c] + rest) == [c] + PctDecode(rest)
  {
    var s := [c] + rest;
    assert s[1..] == rest && s[0] == c;
    if |rest| >= 2 {
      HexDigits(rest[0], 0);
      HexDigits(rest[1], 0);
      assert s[1] == rest[0] && s[2] == rest[1];
    }
  }

  predicate InHex(c: char) { c in LOWER_HEX || c in UPPER_HEX }

  // --- Authorities ---

  predicate IsPort(s: string) { s != [] && forall i :: 0 <= i < |s| ==> s[i] in DIGITS }

  lemma PortIsDigits(s: string)
    ensures IsPort(s) <==> s != [] && AllDigits(s)
  {
    forall i | 0 <= i < |s| ensures IsDigit(s[i]) <==> s[i] in DIGITS { TokenCharacters(s[i]); }
  }

  /** A literal in front of the port: a "]" in it, and no ":" behind the first of them. */
  predicate Brackets(s: string, b: nat)
  {
    b < |s| && s[0] == '[' && s[b] == ']' && ']' !in s[..b] && ':' !in s[b..]
  }

  /**
   * `authority` names this host and port: a host without brackets may hold anything, and a literal loses its first
   * character and its last, which usually are the brackets.
   */
  ghost predicate Names(authority: string, host: string, port: string)
  {
    IsPort(port) &&
    if authority != [] && authority[0] == '[' then
      exists literal, b ::
        authority == literal + ":" + port && Brackets(literal, b) && host == literal[1..|literal| - 1]
    else authority == host + ":" + port
  }

  lemma NamesLast(authority: string, host: string, port: string)
    requires IsPort(port) && authority == host + ":" + port
    ensures FindLast(authority, ':') == Some(|host|)
  {
    PortIsDigits(port);
    forall j | |host| < j < |authority| ensures authority[j] != ':' {
      assert authority[j] == port[j - |host| - 1];
    }
    assert authority[|host|] == ':';
  }

  lemma FindIs(s: string, c: char, n: nat)
    requires n < |s| && s[n] == c && c !in s[..n]
    ensures Find(s, c) == n
  {
    forall j | 0 <= j < n ensures s[j] != c { assert s[..n][j] == s[j]; }
  }

  lemma NamesLiteral(authority: string, literal: string, b: nat, port: string)
    requires authority == literal + ":" + port && Brackets(literal, b)
    ensures PortColon(authority) == Some(|literal|) && IsLiteral(authority)
  {
    assert authority[..b] == literal[..b];
    FindIs(authority, ']', b);
    assert authority[b..][..|literal| - b] == literal[b..];
    FindIs(authority[b..], ':', |literal| - b);
  }

  lemma NamesSplits(authority: string, host: string, port: string)
    requires Names(authority, host, port)
    ensures SplitAuthority(authority) == Some((host, port))
  {
    PortIsDigits(port);
    if authority != [] && authority[0] == '[' {
      var literal, b :| authority == literal + ":" + port && Brackets(literal, b) && host == literal[1..|literal| - 1];
      NamesLiteral(authority, literal, b, port);
      assert authority[|literal| + 1..] == port && authority[1..|literal| - 1] == host;
    } else {
      NamesLast(authority, host, port);
      assert authority[|host| + 1..] == port && authority[..|host|] == host;
    }
  }

  lemma SplitsNames(authority: string)
    requires SplitAuthority(authority).Some?
    ensures Names(authority, SplitAuthority(authority).value.0, SplitAuthority(authority).value.1)
  {
    var (host, port) := SplitAuthority(authority).value;
    var colon := PortColon(authority).value;
    PortIsDigits(port);
    assert authority == authority[..colon] + ":" + port;
    if IsLiteral(authority) {
      var literal, b := authority[..colon], Find(authority, ']');
      var n := Find(authority[b..], ':');
      assert literal[b..] == authority[b..][..n] && literal[..b] == authority[..b];
      assert Brackets(literal, b) && host == literal[1..|literal| - 1];
    }
  }

  /** An authority splits into exactly what it names. */
  lemma SplitExactly(authority: string, host: string, port: string)
    ensures SplitAuthority(authority) == Some((host, port)) <==> Names(authority, host, port)
  {
    if SplitAuthority(authority).Some? { SplitsNames(authority); }
    if Names(authority, host, port) { NamesSplits(authority, host, port); }
  }
}
