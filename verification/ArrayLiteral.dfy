/** PostgreSQL array literals: building one and reading it back. */
module ArrayLiteral {
  import opened Wrappers
  import opened TextFold
  import opened Sequences

  // ---------- building ----------

  const QUOTE := '"'

  function Element(e: Option<string>): string { if e.None? then "NULL" else Quoted(e.value, QUOTE) }

  /** The first `n` elements, separated by commas. */
  function JoinedTo(xs: seq<Option<string>>, n: nat): string
    requires n <= |xs|
  {
    if n == 0 then [] else Separated(JoinedTo(xs, n - 1), n - 1) + Element(xs[n - 1])
  }

  function Separated(s: string, n: nat): string { if n == 0 then s else s + [','] }

  function Literal(xs: seq<Option<string>>): string { ['{'] + JoinedTo(xs, |xs|) + ['}'] }

  method AppendElement(s: string, e: Option<string>) returns (r: string)
    ensures r == s + Element(e)
  {
    if e.None? {
      r := s + "NULL";
    } else {
      r := AppendQuoted(s, e.value, QUOTE);
    }
  }

  method BuildLiteral(xs: seq<Option<string>>) returns (s: string)
    ensures s == Literal(xs)
  {
    s := ['{'];
    for i := 0 to |xs|
      invariant s == ['{'] + JoinedTo(xs, i)
    {
      ghost var before := JoinedTo(xs, i);
      if i != 0 {
        s := s + [','];
        Assoc(['{'], before, [',']);
      }
      s := AppendElement(s, xs[i]);
      Assoc(['{'], Separated(before, i), Element(xs[i]));
    }
    s := s + ['}'];
  }

  // ---------- splitting ----------

  predicate Braced(s: string) { |s| >= 2 && s[0] == '{' && s[|s| - 1] == '}' }

  datatype Mode = Plain | InQuotes | AfterBackslash

  /** The splitter as an automaton: finished tokens, the token being read, and where in it we are. */
  datatype Scan = Scan(items: seq<string>, cur: string, mode: Mode)

  function ScanChar(st: Scan, c: char): Scan {
    match st.mode
    case AfterBackslash => Scan(st.items, st.cur + [c], InQuotes)
    case InQuotes =>
      Scan(st.items, st.cur + [c], if c == '\\' then AfterBackslash else if c == '"' then Plain else InQuotes)
    case Plain =>
      if c == ',' then Scan(st.items + [st.cur], [], Plain)
      else Scan(st.items, st.cur + [c], if c == '"' then InQuotes else Plain)
  }

  /** The state after reading s[i], ..., s[j - 1]. */
  function ScanRange(st: Scan, s: string, i: nat, j: nat): Scan
    requires i <= j <= |s|
  {
    Range(ScanChar, st, s, i, j)
  }

  const FRESH := Scan([], [], Plain)

  function Items(s: string): seq<string> {
    if !Braced(s) then [] else var st := ScanRange(FRESH, s, 1, |s| - 1); st.items + [st.cur]
  }

  /** The splitter's variables agree with the automaton at position `i`. */
  ghost predicate At(s: string, i: nat, items: seq<string>, start: nat, mode: Mode)
    requires 1 <= start <= i <= |s|
  {
    ScanRange(FRESH, s, 1, i) == Scan(items, s[start..i], mode)
  }

  lemma AtStep(s: string, i: nat, items: seq<string>, start: nat, mode: Mode, mode': Mode)
    requires 1 <= start <= i < |s| && At(s, i, items, start, mode)
    requires mode != Plain || s[i] != ','
    requires mode' == ScanChar(FRESH.(mode := mode), s[i]).mode
    ensures At(s, i + 1, items, start, mode')
  {
    assert s[start..i] + [s[i]] == s[start..i + 1];
  }

  lemma AtComma(s: string, i: nat, items: seq<string>, start: nat)
    requires 1 <= start <= i < |s| && At(s, i, items, start, Plain) && s[i] == ','
    ensures At(s, i + 1, items + [s[start..i]], i + 1, Plain)
  {
  }

  method SplitItems(s: string) returns (items: seq<string>)
    ensures items == Items(s)
  {
    items := [];
    if |s| < 2 || s[0] != '{' || s[|s| - 1] != '}' {
      return;
    }
    var last := |s| - 1;
    var i, start, inq := 1, 1, false;
    while i < last
      invariant 1 <= start <= i <= last + 1 && start <= last
      invariant i <= last ==> At(s, i, items, start, if inq then InQuotes else Plain)
      invariant i > last ==> At(s, last, items, start, AfterBackslash)
    {
      var c := s[i];
      if inq {
        if c == '\\' {
          AtStep(s, i, items, start, InQuotes, AfterBackslash);
          i := i + 1;
          if i < last {
            AtStep(s, i, items, start, AfterBackslash, InQuotes);
          }
        } else if c == '"' {
          AtStep(s, i, items, start, InQuotes, Plain);
          inq := false;
        } else {
          AtStep(s, i, items, start, InQuotes, InQuotes);
        }
      } else {
        if c == '"' {
          AtStep(s, i, items, start, Plain, InQuotes);
          inq := true;
        } else if c == ',' {
          AtComma(s, i, items, start);
          items := items + [s[start..i]];
          start := i + 1;
        } else {
          AtStep(s, i, items, start, Plain, Plain);
        }
      }
      i := i + 1;
    }
    items := items + [s[start..last]];
  }

  // ---------- one element ----------

  /** Unescaping as an automaton: the text so far, and whether a backslash waits for its character. */
  datatype Unescape = Unescape(out: string, pending: bool)

  function UnescapeChar(st: Unescape, c: char): Unescape {
    if st.pending then Unescape(st.out + [c], false)
    else if c == '\\' then Unescape(st.out, true)
    else Unescape(st.out + [c], false)
  }

  function UnescapeTo(s: string, n: nat): Unescape
    requires n <= |s|
  {
    if n == 0 then Unescape([], false) else UnescapeChar(UnescapeTo(s, n - 1), s[n - 1])
  }

  /** A backslash with nothing after it stands for itself. */
  function Unescaped(s: string): string {
    var st := UnescapeTo(s, |s|);
    if st.pending then st.out + ['\\'] else st.out
  }

  /** None is SQL NULL. */
  function Parsed(token: string): Option<string> {
    if token == "NULL" then None
    else if token != [] && token[0] == '"' && token[|token| - 1] == '"' then
      Some(if |token| == 1 then [] else Unescaped(token[1..|token| - 1]))
    else Some(token)
  }

  method UnescapeQuoted(sv: string) returns (out: string)
    requires |sv| >= 2
    ensures out == Unescaped(sv[1..|sv| - 1])
  {
    out := [];
    var last := |sv| - 1;
    var i := 1;
    ghost var text := sv[1..last];
    while i < last
      invariant 1 <= i <= last
      invariant i < last ==> UnescapeTo(text, i - 1) == Unescape(out, false)
      invariant i == last ==> out == Unescaped(text)
    {
      ghost var at := i;
      var c := sv[i];
      if c == '\\' && i + 1 < last {
        out := out + [sv[i + 1]];
        i := i + 1;
        assert UnescapeTo(text, at).pending && text[at] == sv[i];
      } else {
        out := out + [c];
      }
      i := i + 1;
    }
  }

  method ParseElement(sv: string) returns (out: string, isNull: bool)
    ensures Parsed(sv) == if isNull then None else Some(out)
    ensures isNull <==> sv == "NULL"
    ensures isNull ==> out == []
    ensures !isNull && (sv == [] || sv[0] != '"' || sv[|sv| - 1] != '"') ==> out == sv
  {
    isNull := false;
    if sv == "NULL" {
      return [], true;
    }
    if sv != [] && sv[0] == '"' && sv[|sv| - 1] == '"' {
      if |sv| >= 2 {
        out := UnescapeQuoted(sv);
      } else {
        out := [];
      }
    } else {
      out := sv;
    }
  }

  // ---------- round trip ----------

  lemma {:induction false} UnescapePrefix(a: string, b: string, n: nat)
    requires n <= |a|
    ensures UnescapeTo(a + b, n) == UnescapeTo(a, n)
    decreases n
  {
    if n > 0 { UnescapePrefix(a, b, n - 1); }
  }

  lemma UnescapeAppend(a: string, c: char, out: string)
    requires UnescapeTo(a, |a|) == Unescape(out, false)
    ensures UnescapeTo(a + EscapedChar(c, QUOTE), |a + EscapedChar(c, QUOTE)|) == Unescape(out + [c], false)
  {
    var s := a + EscapedChar(c, QUOTE);
    UnescapePrefix(a, EscapedChar(c, QUOTE), |a|);
    assert s[|a|] == EscapedChar(c, QUOTE)[0];
    if c == '"' || c == '\\' {
      assert UnescapeTo(s, |a| + 1) == Unescape(out, true);
      assert s[|a| + 1] == c;
    }
  }

  lemma {:induction false} UnescapedEscaped(v: string, n: nat)
    requires n <= |v|
    ensures UnescapeTo(EscapedTo(v, n, QUOTE), |EscapedTo(v, n, QUOTE)|) == Unescape(v[..n], false)
    decreases n
  {
    if n > 0 {
      UnescapedEscaped(v, n - 1);
      UnescapeAppend(EscapedTo(v, n - 1, QUOTE), v[n - 1], v[..n - 1]);
      assert v[..n - 1] + [v[n - 1]] == v[..n];
    }
  }

  lemma ParsedElement(e: Option<string>)
    ensures Parsed(Element(e)) == e
  {
    if e.Some? {
      var v := e.value;
      UnescapedEscaped(v, |v|);
      assert v[..|v|] == v;
      Inside('"', EscapedTo(v, |v|, QUOTE));
    }
  }

  lemma Inside(c: char, t: string)
    ensures ([c] + t + [c])[1..|t| + 1] == t
  {
  }

  function ScanAll(st: Scan, s: string): Scan { All(ScanChar, st, s) }

  lemma ScanEscapedChar(st: Scan, c: char)
    requires st.mode == InQuotes
    ensures ScanAll(st, EscapedChar(c, QUOTE)) == Scan(st.items, st.cur + EscapedChar(c, QUOTE), InQuotes)
  {
    One(ScanChar, st, c);
    if c == '"' || c == '\\' {
      Concat(ScanChar, st, ['\\'], [c]);
      One(ScanChar, st, '\\');
      One(ScanChar, ScanChar(st, '\\'), c);
      assert ['\\'] + [c] == ['\\', c] && st.cur + ['\\'] + [c] == st.cur + ['\\', c];
    }
  }

  /** Inside quotes an escaped text is read whole, and leaves the splitter inside the quotes. */
  lemma {:induction false} ScanEscaped(st: Scan, v: string, n: nat)
    requires st.mode == InQuotes && n <= |v|
    ensures ScanAll(st, EscapedTo(v, n, QUOTE)) == Scan(st.items, st.cur + EscapedTo(v, n, QUOTE), InQuotes)
    decreases n
  {
    if n == 0 {
      assert st.cur + [] == st.cur;
    } else {
      var before, e := EscapedTo(v, n - 1, QUOTE), EscapedChar(v[n - 1], QUOTE);
      ScanEscaped(st, v, n - 1);
      Concat(ScanChar, st, before, e);
      ScanEscapedChar(Scan(st.items, st.cur + before, InQuotes), v[n - 1]);
      assert st.cur + before + e == st.cur + (before + e);
    }
  }

  lemma ScanNull(items: seq<string>)
    ensures ScanAll(Scan(items, [], Plain), "NULL") == Scan(items, "NULL", Plain)
  {
    var st := Scan(items, [], Plain);
    var n := "NULL";
    assert ScanRange(st, n, 0, 1) == Scan(items, ['N'], Plain);
    assert ScanRange(st, n, 0, 2) == Scan(items, ['N', 'U'], Plain);
    assert ScanRange(st, n, 0, 3) == Scan(items, ['N', 'U', 'L'], Plain);
    assert ScanRange(st, n, 0, 4) == Scan(items, ['N', 'U', 'L', 'L'], Plain);
  }

  /** An element is read as one token. */
  lemma ScanElement(items: seq<string>, e: Option<string>)
    ensures ScanAll(Scan(items, [], Plain), Element(e)) == Scan(items, Element(e), Plain)
  {
    match e
    case None => ScanNull(items);
    case Some(v) =>
      var st, text := Scan(items, [], Plain), EscapedTo(v, |v|, QUOTE);
      Concat(ScanChar, st, ['"'] + text, ['"']);
      Concat(ScanChar, st, ['"'], text);
      One(ScanChar, st, '"');
      assert [] + ['"'] == ['"'];
      ScanEscaped(Scan(items, ['"'], InQuotes), v, |v|);
      One(ScanChar, Scan(items, ['"'] + text, InQuotes), '"');
  }

  function ElementsTo(xs: seq<Option<string>>, n: nat): (r: seq<string>)
    requires n <= |xs|
    ensures |r| == n && forall i | 0 <= i < n :: r[i] == Element(xs[i])
  {
    if n == 0 then [] else ElementsTo(xs, n - 1) + [Element(xs[n - 1])]
  }

  lemma {:induction false} ScanJoined(xs: seq<Option<string>>, n: nat)
    requires 0 < n <= |xs|
    ensures ScanAll(FRESH, JoinedTo(xs, n)) == Scan(ElementsTo(xs, n - 1), Element(xs[n - 1]), Plain)
    decreases n
  {
    var before := Separated(JoinedTo(xs, n - 1), n - 1);
    if n > 1 {
      ScanJoined(xs, n - 1);
      Concat(ScanChar, FRESH, JoinedTo(xs, n - 1), [',']);
      One(ScanChar, ScanAll(FRESH, JoinedTo(xs, n - 1)), ',');
    }
    assert ScanAll(FRESH, before) == Scan(ElementsTo(xs, n - 1), [], Plain);
    Concat(ScanChar, FRESH, before, Element(xs[n - 1]));
    ScanElement(ElementsTo(xs, n - 1), xs[n - 1]);
  }

  function ParsedItems(s: string): seq<Option<string>> {
    var items := Items(s);
    seq(|items|, i requires 0 <= i < |items| => Parsed(items[i]))
  }

  lemma ItemsBetween(text: string)
    ensures var st := ScanAll(FRESH, text); Items(['{'] + text + ['}']) == st.items + [st.cur]
  {
    Same(ScanChar, FRESH, ['{'] + text + ['}'], 1, text, |text|);
  }

  lemma ItemsOfLiteral(xs: seq<Option<string>>)
    ensures Items(Literal(xs)) == if xs == [] then [""] else ElementsTo(xs, |xs|)
  {
    var n := |xs|;
    ItemsBetween(JoinedTo(xs, n));
    if xs != [] {
      ScanJoined(xs, n);
    }
  }

  /** Reading a built literal gives the list back, nulls kept apart from the text
      NULL, for exactly the non-empty lists; the empty one reads as one empty text. */
  lemma RoundTrip(xs: seq<Option<string>>)
    ensures ParsedItems(Literal(xs)) == xs <==> xs != []
    ensures xs == [] ==> ParsedItems(Literal(xs)) == [Some("")]
  {
    ItemsOfLiteral(xs);
    if xs != [] {
      forall i | 0 <= i < |xs| ensures ParsedItems(Literal(xs))[i] == xs[i] {
        ParsedElement(xs[i]);
      }
    }
  }

  /** No two lists share a literal. */
  lemma LiteralInjective(xs: seq<Option<string>>, ys: seq<Option<string>>)
    ensures Literal(xs) == Literal(ys) <==> xs == ys
  {
    RoundTrip(xs);
    RoundTrip(ys);
    ItemsOfLiteral(xs);
    ItemsOfLiteral(ys);
    if xs != [] { assert |Element(xs[0])| > 0 && ElementsTo(xs, |xs|)[0] == Element(xs[0]); }
    if ys != [] { assert |Element(ys[0])| > 0 && ElementsTo(ys, |ys|)[0] == Element(ys[0]); }
  }

  // ---------- decoding into a list of strings ----------

  function Text(e: Option<string>): string { if e.None? then "" else e.value }

  function Texts(xs: seq<Option<string>>): seq<string> { seq(|xs|, i requires 0 <= i < |xs| => Text(xs[i])) }

  /** The vector decoder: a null becomes a default value; text without braces is refused. */
  method DecodeStrings(sv: string) returns (out: Option<seq<string>>)
    ensures out == if Braced(sv) then Some(Texts(ParsedItems(sv))) else None
    ensures out.Some? ==> |out.value| == |ParsedItems(sv)| && forall i | 0 <= i < |out.value| ::
              out.value[i] == if ParsedItems(sv)[i].None? then "" else ParsedItems(sv)[i].value
  {
    var parts := SplitItems(sv);
    if parts == [] && !(|sv| >= 2 && sv[0] == '{' && sv[|sv| - 1] == '}') {
      return None;
    }
    var list := [];
    ghost var all := Texts(ParsedItems(sv));
    for i := 0 to |parts|
      invariant list == all[..i]
    {
      var tok, isNull := ParseElement(parts[i]);
      assert all[..i + 1] == all[..i] + [all[i]];
      list := list + [if isNull then "" else tok];
    }
    assert all[..|parts|] == all;
    out := Some(list);
  }

  /** What a literal looks like: quoted elements with backslashes before quotes and backslashes,
      a bare NULL, commas and braces. */
  lemma SampleLiteral()
    ensures Literal([Some("a\"b"), None]) == "{\"a\\\"b\",NULL}"
  {
    var xs := [Some("a\"b"), None];
    var text := "a\"b";
    assert EscapedTo(text, 1, QUOTE) == "a" && EscapedTo(text, 2, QUOTE) == "a\\\"" && EscapedTo(text, 3, QUOTE) == "a\\\"b";
    assert JoinedTo(xs, 1) == "\"a\\\"b\"";
    assert JoinedTo(xs, 2) == "\"a\\\"b\",NULL";
  }
}
