/**
 * Resynchronisation: parsing a list is parsing the elements between its commas one by one. A malformed
 * element, however badly it goes wrong, never costs another.
 */
module AltSvcSplit {
  import opened Bytes
  import opened AltSvc

  /** The elements: what lies between the commas outside quotes. */
  function Split(s: string): (elements: seq<string>)
    ensures elements != []
    decreases |s|
  {
    var n := CommaAt(s, false);
    if n == |s| then [s] else [s[..n]] + Split(s[n + 1..])
  }

  function Join(elements: seq<string>): string
  {
    if elements == [] then []
    else if |elements| == 1 then elements[0]
    else elements[0] + "," + Join(elements[1..])
  }

  /** No comma outside quotes, and no quote left open at the end. */
  predicate Closed(e: string) { CommaAt(e + ",", false) == |e| }

  /** `s` begins with the element `e`: the comma behind it, or the end, is the first of `tail`. */
  predicate Cut(s: string, quoted: bool, e: string, tail: string)
  {
    s == e + tail && CommaAt(s, quoted) == |e|
  }

  /** What each element is on its own. */
  function Lists(elements: seq<string>): seq<seq<AltService>>
  {
    seq(|elements|, i requires 0 <= i < |elements| => List(elements[i]))
  }

  // --- The element stays the element as the parser moves through it ---

  lemma CutNext(s: string, e: string, tail: string)
    requires Cut(s, false, e, tail)
    ensures tail == [] || tail[0] == ','
    ensures e == [] ==> s == tail
    ensures e != [] ==> s != [] && s[0] == e[0] && e[0] != ',' && Cut(s[1..], e[0] == '"', e[1..], tail)
  {
    CutTail(s, false, e, tail);
    if e != [] {
      assert s[1..] == e[1..] + tail;
    } else {
      assert [] + tail == tail;
    }
  }

  lemma {:induction false} CutTail(s: string, quoted: bool, e: string, tail: string)
    requires Cut(s, quoted, e, tail)
    ensures tail == [] || (tail[0] == ',' && (e == [] ==> !quoted))
    decreases |s|
  {
    if s != [] && CommaAt(s, quoted) != 0 {
      assert e != [] && s[0] == e[0] && s[1..] == e[1..] + tail;
      if quoted && s[0] == '\\' && |s| > 1 {
        assert |e| >= 2 && s[2..] == e[2..] + tail;
        CutTail(s[2..], true, e[2..], tail);
      } else {
        CutTail(s[1..], if quoted then s[0] != '"' else s[0] == '"', e[1..], tail);
      }
    } else if s != [] {
      assert s == tail;
    }
  }

  /** An element on its own holds no comma either. */
  lemma {:induction false} CutAlone(s: string, quoted: bool, e: string, tail: string)
    requires Cut(s, quoted, e, tail)
    ensures Cut(e, quoted, e, [])
    decreases |s|
  {
    assert e + [] == e;
    if e != [] {
      assert s[0] == e[0] && s[1..] == e[1..] + tail;
      if quoted && s[0] == '\\' && |s| > 1 {
        assert |e| >= 2 && s[2..] == e[2..] + tail && s[1] == e[1];
        CutAlone(s[2..], true, e[2..], tail);
      } else {
        CutAlone(s[1..], if quoted then s[0] != '"' else s[0] == '"', e[1..], tail);
      }
    }
  }

  /** What a step leaves of the element: the same, whether or not more follows. */
  predicate Local<T(==)>(whole: Read<T>, alone: Read<T>, tail: string)
  {
    whole.value == alone.value && Cut(whole.rest, false, alone.rest, tail)
  }

  lemma {:induction false} SkipOwsLocal(s: string, e: string, tail: string)
    requires Cut(s, false, e, tail)
    ensures Cut(SkipOws(s), false, SkipOws(e), tail)
    decreases |s|
  {
    CutNext(s, e, tail);
    if e != [] && IsOws(e[0]) {
      SkipOwsLocal(s[1..], e[1..], tail);
    }
  }

  lemma {:induction false} TokenLocal(s: string, e: string, tail: string)
    requires Cut(s, false, e, tail)
    ensures Local(Token(s), Token(e), tail)
    decreases |s|
  {
    CutNext(s, e, tail);
    Separators();
    if e != [] && IsTchar(e[0]) {
      TokenLocal(s[1..], e[1..], tail);
    }
  }

  lemma {:induction false} UnquoteLocal(s: string, e: string, tail: string)
    requires Cut(s, true, e, tail)
    ensures Local(Unquote(s), Unquote(e), tail)
    decreases |s|
  {
    CutTail(s, true, e, tail);
    if e == [] {
      assert s == tail;
    } else {
      assert s[0] == e[0] && s[1..] == e[1..] + tail;
      if s[0] == '\\' && |s| > 1 {
        assert |e| >= 2 && s[2..] == e[2..] + tail && s[1] == e[1];
        UnquoteLocal(s[2..], e[2..], tail);
      } else if s[0] != '"' {
        UnquoteLocal(s[1..], e[1..], tail);
      }
    }
  }

  lemma QuotedStringLocal(s: string, e: string, tail: string)
    requires Cut(s, false, e, tail)
    ensures Local(QuotedString(s), QuotedString(e), tail)
  {
    CutNext(s, e, tail);
    if NextIs(e, '"') {
      UnquoteLocal(s[1..], e[1..], tail);
    }
  }

  lemma TokenOrQuotedStringLocal(s: string, e: string, tail: string)
    requires Cut(s, false, e, tail)
    ensures Local(TokenOrQuotedString(s), TokenOrQuotedString(e), tail)
  {
    CutNext(s, e, tail);
    if NextIs(e, '"') {
      QuotedStringLocal(s, e, tail);
    } else {
      TokenLocal(s, e, tail);
    }
  }

  lemma ParameterLocal(s: string, e: string, tail: string)
    requires Cut(s, false, e, tail)
    ensures Local(Parameter(s), Parameter(e), tail)
  {
    SkipOwsLocal(s, e, tail);
    TokenLocal(SkipOws(s), SkipOws(e), tail);
    var sr, er := Token(SkipOws(s)).rest, Token(SkipOws(e)).rest;
    CutNext(sr, er, tail);
    if NextIs(er, '=') {
      TokenOrQuotedStringLocal(sr[1..], er[1..], tail);
    }
  }

  lemma {:induction false} ParametersLocal(s: string, e: string, tail: string, a: AltService, ma: bool, persist: bool)
    requires Cut(s, false, e, tail)
    ensures Local(Parameters(s, a, ma, persist), Parameters(e, a, ma, persist), tail)
    decreases |s|
  {
    SkipOwsLocal(s, e, tail);
    var s1, e1 := SkipOws(s), SkipOws(e);
    CutNext(s1, e1, tail);
    if NextIs(e1, ';') {
      ParameterLocal(s1[1..], e1[1..], tail);
      var p, q := Parameter(s1[1..]), Parameter(e1[1..]);
      if p.value.Some? {
        var (name, value) := p.value.value;
        ParametersLocal(p.rest, q.rest, tail, WithParameter(a, ma, persist, name, value),
                        ma || name == "ma", persist || name == "persist");
      }
    }
  }

  lemma AlternativeLocal(s: string, e: string, tail: string)
    requires Cut(s, false, e, tail)
    ensures Local(Alternative(s), Alternative(e), tail)
  {
    TokenLocal(s, e, tail);
    var sr, er := Token(s).rest, Token(e).rest;
    CutNext(sr, er, tail);
    if NextIs(er, '=') {
      QuotedStringLocal(sr[1..], er[1..], tail);
    }
  }

  /** Reading an alternative, well or badly formed, never leaves its element, and stops outside quotes. */
  lemma AltValueLocal(s: string, e: string, tail: string)
    requires Cut(s, false, e, tail)
    ensures Local(AltValue(s), AltValue(e), tail)
  {
    AlternativeLocal(s, e, tail);
    var a, b := Alternative(s), Alternative(e);
    if a.value.Some? {
      ParametersLocal(a.rest, b.rest, tail, a.value.value, false, false);
    }
  }

  /** What lies behind the comma `tail` begins with. */
  function Behind(tail: string): string { if tail == [] then [] else tail[1..] }

  lemma SkipElementLocal(s: string, e: string, tail: string)
    requires Cut(s, false, e, tail)
    ensures SkipElement(s) == Behind(tail) && SkipElement(e) == []
  {
    CutAlone(s, false, e, tail);
  }

  lemma FollowingLocal(s: string, e: string, tail: string)
    requires Cut(s, false, e, tail)
    ensures Following(s) == Behind(tail) && Following(e) == []
  {
    CutNext(s, e, tail);
    SkipElementLocal(s, e, tail);
  }

  /** What one element yields. */
  function Found(e: string): seq<AltService>
  {
    if e == [] || AltValue(e).value.None? then [] else [AltValue(e).value.value]
  }

  /** A list is what its first element yields, and then the rest. */
  lemma ListStep(s: string, e: string, tail: string)
    requires Cut(s, false, e, tail) && SkipOws(s) == s && SkipOws(e) == e
    ensures List(s) == Found(e) + List(Behind(tail))
  {
    CutNext(s, e, tail);
    if e != [] {
      AltValueLocal(s, e, tail);
      var a, b := AltValue(s), AltValue(e);
      if a.value.Some? {
        SkipOwsLocal(a.rest, b.rest, tail);
        FollowingLocal(SkipOws(a.rest), SkipOws(b.rest), tail);
      } else {
        SkipElementLocal(a.rest, b.rest, tail);
      }
    }
  }

  lemma SkipOwsTwice(s: string)
    ensures SkipOws(SkipOws(s)) == SkipOws(s) && List(SkipOws(s)) == List(s)
  {
    assert SkipOws(SkipOws(s)) == SkipOws(s);
  }

  /** The first element on its own, and then the rest of the list. */
  lemma ListLocal(s: string, e: string, tail: string)
    requires Cut(s, false, e, tail)
    ensures List(s) == List(e) + List(Behind(tail))
    ensures |List(e)| <= 1
  {
    SkipOwsLocal(s, e, tail);
    SkipOwsTwice(s);
    SkipOwsTwice(e);
    var e1 := SkipOws(e);
    CutAlone(SkipOws(s), false, e1, tail);
    ListStep(SkipOws(s), e1, tail);
    ListStep(e1, e1, []);
    NothingLeft();
    assert Found(e1) + [] == Found(e1);
  }

  lemma NothingLeft()
    ensures List(Behind([])) == []
  {
  }

  /** For every field value: the list is the concatenation of what each of its elements is on its own. */
  lemma {:induction false} Decomposition(s: string)
    ensures List(s) == Concat(Lists(Split(s)))
    decreases |s|
  {
    var n := CommaAt(s, false);
    assert s == s[..n] + s[n..];
    ListLocal(s, s[..n], s[n..]);
    if n == |s| {
      assert s[..n] == s && Lists([s]) == [List(s)] && [List(s)][1..] == [];
    } else {
      Decomposition(s[n + 1..]);
      assert s[n..][1..] == s[n + 1..];
      assert Split(s)[1..] == Split(s[n + 1..]);
      assert Lists(Split(s))[0] == List(s[..n]);
      assert Lists(Split(s))[1..] == Lists(Split(s[n + 1..]));
    }
  }

  /** The split loses nothing. */
  lemma {:induction false} JoinSplit(s: string)
    ensures Join(Split(s)) == s
    decreases |s|
  {
    var n := CommaAt(s, false);
    if n < |s| {
      JoinSplit(s[n + 1..]);
      assert Split(s)[1..] == Split(s[n + 1..]);
      assert Cut(s, false, s[..n], s[n..]);
      CutTail(s, false, s[..n], s[n..]);
      JoinAt(s, n);
    }
  }

  lemma JoinAt(s: string, n: nat)
    requires n < |s| && s[n] == ','
    ensures s[..n] + "," + s[n + 1..] == s
  {
  }

  /** And it finds exactly the elements a list was joined from. */
  lemma {:induction false} SplitJoin(elements: seq<string>)
    requires elements != [] && forall i :: 0 <= i < |elements| ==> Closed(elements[i])
    ensures Split(Join(elements)) == elements
  {
    var e := elements[0];
    if |elements| == 1 {
      var s := e + ",";
      assert Cut(s, false, e, ",");
      CutAlone(s, false, e, ",");
    } else {
      var rest := Join(elements[1..]);
      SplitJoin(elements[1..]);
      CommaStays(e, rest, false);
      assert e + ("," + rest) == Join(elements);
      assert Join(elements)[..|e|] == e && Join(elements)[|e| + 1..] == rest;
    }
  }

  lemma {:induction false} CommaStays(e: string, rest: string, quoted: bool)
    requires CommaAt(e + ",", quoted) == |e|
    ensures CommaAt(e + ("," + rest), quoted) == |e|
    decreases |e|
  {
    var s, t := e + ",", e + ("," + rest);
    CutTail(s, quoted, e, ",");
    if e != [] {
      assert s[0] == t[0] == e[0];
      assert s[1..] == e[1..] + "," && t[1..] == e[1..] + ("," + rest);
      if quoted && e[0] == '\\' {
        assert |e| >= 2 && s[2..] == e[2..] + "," && t[2..] == e[2..] + ("," + rest);
        CommaStays(e[2..], rest, true);
      } else {
        CommaStays(e[1..], rest, if quoted then e[0] != '"' else e[0] == '"');
      }
    }
  }

  /** Whatever stands in one place of a list, the alternatives in the other places come out the same. */
  lemma OthersUnaffected(before: seq<string>, e: string, after: seq<string>)
    requires var all := before + [e] + after; forall i :: 0 <= i < |all| ==> Closed(all[i])
    ensures List(Join(before + [e] + after)) == Concat(Lists(before)) + List(e) + Concat(Lists(after))
  {
    var all := before + [e] + after;
    SplitJoin(all);
    Decomposition(Join(all));
    assert Lists(all) == Lists(before) + [List(e)] + Lists(after);
    ConcatAppend(Lists(before) + [List(e)], Lists(after));
    ConcatSnoc(Lists(before), List(e));
  }
}
