/**
  Quote-aware scanning of name-addr values and header parameters (section 25.1 of RFC 3261):
  each scanner is a loop over characters, proved against a recursive description, and the
  descriptions are proved to invert printing.
*/
module NameAddr {
  import opened Wrappers
  import opened SipText

  /** Inside a quoted-string, and just after an unescaped backslash in it. */
  datatype Quote = Quote(inside: bool, escaped: bool)

  const OUTSIDE := Quote(false, false)

  /** One character further: a backslash escapes inside quotes only. */
  function After(q: Quote, c: char): Quote {
    if q.escaped then Quote(q.inside, false)
    else if q.inside && c == '\\' then Quote(true, true)
    else if c == '"' then Quote(!q.inside, false)
    else q
  }

  function AfterAll(q: Quote, s: string): Quote
    decreases s
  {
    if s == "" then q else AfterAll(After(q, s[0]), s[1..])
  }

  lemma {:induction false} AfterConcat(q: Quote, s: string, t: string)
    ensures AfterAll(q, s + t) == AfterAll(AfterAll(q, s), t)
    decreases s
  {
    if s == "" {
      assert s + t == t;
    } else {
      assert (s + t)[1..] == s[1..] + t;
      AfterConcat(After(q, s[0]), s[1..], t);
    }
  }

  /** The character at this point is structural: outside every quoted-string. */
  predicate Bare(q: Quote) { !q.inside && !q.escaped }

  // --- splitting parameters -----------------------------------------------------------

  /** The parts of `s` between its bare semicolons, with `part` collected already. */
  function SplitFrom(s: string, part: string, q: Quote): (parts: seq<string>)
    ensures parts != []
    decreases s
  {
    if s == "" then [part]
    else if s[0] == ';' && Bare(q) then [part] + SplitFrom(s[1..], "", q)
    else SplitFrom(s[1..], part + [s[0]], After(q, s[0]))
  }

  method SplitParams(trailing: string) returns (parts: seq<string>)
    ensures parts == SplitFrom(trailing, "", OUTSIDE)
  {
    parts := [];
    var buffer := "";
    var inQuote, escaped := false, false;
    var i := 0;
    while i < |trailing|
      invariant 0 <= i <= |trailing|
      invariant escaped ==> inQuote
      invariant SplitFrom(trailing, "", OUTSIDE) == parts + SplitFrom(trailing[i..], buffer, Quote(inQuote, escaped))
    {
      var c := trailing[i];
      ghost var rest, q := trailing[i..], Quote(inQuote, escaped);
      assert rest[0] == c && rest[1..] == trailing[i + 1..];
      if escaped {
        buffer := buffer + [c];
        escaped := false;
      } else if inQuote && c == '\\' {
        buffer := buffer + [c];
        escaped := true;
      } else if c == '"' {
        inQuote := !inQuote;
        buffer := buffer + [c];
      } else if c == ';' && !inQuote {
        parts := parts + [buffer];
        buffer := "";
      } else {
        buffer := buffer + [c];
      }
      i := i + 1;
    }
    parts := parts + [buffer];
  }

  /** Nothing is lost: joined again with semicolons, the parts are the string. */
  lemma {:induction false} JoinInvertsSplit(s: string, part: string, q: Quote)
    ensures Join(SplitFrom(s, part, q), ";") == part + s
    decreases s
  {
    if s == "" {
      assert part + s == part;
    } else if s[0] == ';' && Bare(q) {
      JoinInvertsSplit(s[1..], "", q);
      assert SplitFrom(s, part, q)[1..] == SplitFrom(s[1..], "", q);
      assert "" + s[1..] == s[1..] && part + s == part + ";" + s[1..];
    } else {
      JoinInvertsSplit(s[1..], part + [s[0]], After(q, s[0]));
      assert part + [s[0]] + s[1..] == part + s;
    }
  }

  /** No bare semicolon, scanned from this point. */
  predicate Whole(s: string, q: Quote)
    decreases s
  {
    s == "" || (!(s[0] == ';' && Bare(q)) && Whole(s[1..], After(q, s[0])))
  }

  lemma {:induction false} SplitWhole(s: string, part: string, q: Quote, rest: string)
    requires Whole(s, q)
    ensures SplitFrom(s + rest, part, q) == SplitFrom(rest, part + s, AfterAll(q, s))
    decreases s
  {
    if s == "" {
      assert s + rest == rest && part + s == part;
    } else {
      assert (s + rest)[1..] == s[1..] + rest && part + [s[0]] + s[1..] == part + s;
      SplitWhole(s[1..], part + [s[0]], After(q, s[0]), rest);
    }
  }

  /** A list a split may give: closed parts, and a last one that may leave its quotes open. */
  predicate Parts(parts: seq<string>) {
    && parts != []
    && (forall i :: 0 <= i < |parts| ==> Whole(parts[i], OUTSIDE))
    && (forall i :: 0 <= i < |parts| - 1 ==> AfterAll(OUTSIDE, parts[i]) == OUTSIDE)
  }

  lemma {:induction false} SplitInvertsJoin(parts: seq<string>)
    requires Parts(parts)
    ensures SplitFrom(Join(parts, ";"), "", OUTSIDE) == parts
  {
    var first := parts[0];
    assert "" + first == first;
    if |parts| == 1 {
      SplitWhole(first, "", OUTSIDE, "");
      assert first + "" == first;
    } else {
      var tail := Join(parts[1..], ";");
      assert Parts(parts[1..]);
      SplitInvertsJoin(parts[1..]);
      SplitWhole(first, "", OUTSIDE, ";" + tail);
      assert Join(parts, ";") == first + (";" + tail) && (";" + tail)[1..] == tail;
      assert AfterAll(OUTSIDE, first) == OUTSIDE;
      hide AfterAll, Whole, Join, Parts;
      assert SplitFrom(";" + tail, first, OUTSIDE) == [first] + SplitFrom(tail, "", OUTSIDE);
    }
  }

  lemma {:induction false} SplitGivesParts(s: string, part: string, q: Quote)
    requires Whole(part, OUTSIDE) && AfterAll(OUTSIDE, part) == q
    ensures Parts(SplitFrom(s, part, q))
    decreases s
  {
    if s != "" {
      if s[0] == ';' && Bare(q) {
        SplitGivesParts(s[1..], "", q);
        var rest := SplitFrom(s[1..], "", q);
        assert SplitFrom(s, part, q) == [part] + rest;
      } else {
        AfterConcat(OUTSIDE, part, [s[0]]);
        WholeConcat(part, [s[0]], OUTSIDE);
        assert [s[0]][1..] == "";
        SplitGivesParts(s[1..], part + [s[0]], After(q, s[0]));
      }
    }
  }

  /** What is joined from a list is split into that list exactly when quotes are closed before each semicolon. */
  lemma SplitInvertsJoinIff(parts: seq<string>)
    requires parts != []
    ensures SplitFrom(Join(parts, ";"), "", OUTSIDE) == parts <==> Parts(parts)
  {
    SplitGivesParts(Join(parts, ";"), "", OUTSIDE);
    if Parts(parts) { SplitInvertsJoin(parts); }
  }

  lemma {:induction false} WholeConcat(s: string, t: string, q: Quote)
    ensures Whole(s + t, q) <==> Whole(s, q) && Whole(t, AfterAll(q, s))
    decreases s
  {
    if s == "" {
      assert s + t == t;
    } else {
      assert (s + t)[1..] == s[1..] + t;
      WholeConcat(s[1..], t, After(q, s[0]));
    }
  }

  // --- the angle-addr ------------------------------------------------------------------

  /** The display-name verbatim, what stands between the angle brackets, and all that follows. */
  datatype Parted = Parted(display: string, spec: string, trailing: string)

  /** The angle-addr at the first bare `<` of `s`, with `before` passed already. */
  function Named(before: string, s: string, q: Quote): Option<Parted>
    decreases s
  {
    if s == "" then None
    else if s[0] == '<' && Bare(q) then
      var close := Find(s, '>', 1);
      if close == |s| then None else Some(Parted(before, s[1..close], s[close + 1..]))
    else Named(before + [s[0]], s[1..], After(q, s[0]))
  }

  /** One character further, or the end of the search at a bare `<`. */
  lemma NamedStep(value: string, i: nat, q: Quote)
    requires i < |value|
    ensures !(value[i] == '<' && Bare(q)) ==>
              Named(value[..i], value[i..], q) == Named(value[..i + 1], value[i + 1..], After(q, value[i]))
    ensures value[i] == '<' && Bare(q) ==>
              var close := Find(value, '>', i + 1);
              Named(value[..i], value[i..], q) ==
                if close == |value| then None else Some(Parted(value[..i], value[i + 1..close], value[close + 1..]))
  {
    var rest := value[i..];
    hide After;
    assert rest[0] == value[i] && rest[1..] == value[i + 1..] && value[..i] + [value[i]] == value[..i + 1];
    if value[i] == '<' && Bare(q) {
      var close := Find(value, '>', i + 1);
      FindWithin(value, '>', i, 1);
      if close < |value| {
        assert rest[1..close - i] == value[i + 1..close] && rest[close - i + 1..] == value[close + 1..];
      }
    }
  }

  method NameAddrParts(value: string) returns (r: Option<Parted>)
    ensures r == Named("", value, OUTSIDE)
  {
    hide Named;
    var inQuote, escaped := false, false;
    var i := 0;
    assert value[..0] == "" && value[0..] == value;
    while i < |value|
      invariant 0 <= i <= |value|
      invariant escaped ==> inQuote
      invariant Named("", value, OUTSIDE) == Named(value[..i], value[i..], Quote(inQuote, escaped))
    {
      var c := value[i];
      NamedStep(value, i, Quote(inQuote, escaped));
      if escaped {
        escaped := false;
      } else if inQuote {
        if c == '\\' {
          escaped := true;
        } else if c == '"' {
          inQuote := false;
        }
      } else if c == '"' {
        inQuote := true;
      } else if c == '<' {
        var close := Find(value, '>', i + 1);
        if close == |value| { return None; }
        return Some(Parted(value[..i], value[i + 1..close], value[close + 1..]));
      }
      i := i + 1;
    }
    NothingNamed(value, Quote(inQuote, escaped));
    r := None;
  }

  lemma NothingNamed(value: string, q: Quote)
    ensures Named(value[..|value|], value[|value|..], q) == None
  {
  }

  lemma {:induction false} FindWithin(s: string, c: char, from: nat, at: nat)
    requires from + at <= |s|
    ensures Find(s, c, from + at) == from + Find(s[from..], c, at)
    decreases |s| - at
  {
    if from + at < |s| && s[from + at] != c { FindWithin(s, c, from, at + 1); }
  }

  /** No bare `<`, scanned from this point. */
  predicate NoAngle(s: string, q: Quote)
    decreases s
  {
    s == "" || (!(s[0] == '<' && Bare(q)) && NoAngle(s[1..], After(q, s[0])))
  }

  lemma {:induction false} NamedSkips(before: string, s: string, rest: string, q: Quote)
    requires NoAngle(s, q)
    ensures Named(before, s + rest, q) == Named(before + s, rest, AfterAll(q, s))
    decreases s
  {
    if s == "" {
      assert s + rest == rest && before + s == before;
    } else {
      assert (s + rest)[1..] == s[1..] + rest && before + [s[0]] + s[1..] == before + s;
      NamedSkips(before + [s[0]], s[1..], rest, After(q, s[0]));
    }
  }

  lemma Bracketed(spec: string, trailing: string)
    ensures var s := "<" + spec + ">" + trailing;
            && s[0] == '<' && s[|spec| + 1] == '>' && (forall i :: 1 <= i <= |spec| ==> s[i] == spec[i - 1])
            && s[1..|spec| + 1] == spec && s[|spec| + 2..] == trailing
  {
  }

  /** Whatever is displayed before it, a `>`-free spec in angle brackets is found, and all that follows it. */
  lemma AngleFound(display: string, spec: string, trailing: string)
    requires NoAngle(display, OUTSIDE) && AfterAll(OUTSIDE, display) == OUTSIDE && '>' !in spec
    ensures Named("", display + "<" + spec + ">" + trailing, OUTSIDE) == Some(Parted(display, spec, trailing))
  {
    var rest := "<" + spec + ">" + trailing;
    NamedSkips("", display, rest, OUTSIDE);
    assert display + "<" + spec + ">" + trailing == display + rest && "" + display == display;
    hide NoAngle, AfterAll;
    Bracketed(spec, trailing);
    FindFirst(rest, '>', 1, |spec| + 1);
  }

  // --- quoted strings --------------------------------------------------------------------

  const INSIDE := Quote(true, false)

  /** The body of a quoted-string: a backslash before each backslash and double quote. */
  function Escape(s: string): string {
    if s == "" then ""
    else Escaped(s[0]) + Escape(s[1..])
  }

  function Quoted(s: string): string { "\"" + Escape(s) + "\"" }

  lemma {:induction false} NoAngleConcat(s: string, t: string, q: Quote)
    ensures NoAngle(s + t, q) <==> NoAngle(s, q) && NoAngle(t, AfterAll(q, s))
    decreases s
  {
    if s == "" {
      assert s + t == t;
    } else {
      assert (s + t)[1..] == s[1..] + t;
      NoAngleConcat(s[1..], t, After(q, s[0]));
    }
  }

  /** What one character of a body is escaped into. */
  function Escaped(c: char): string { if c == '\\' || c == '"' then ['\\', c] else [c] }

  lemma EscapedUnit(c: char)
    ensures AfterAll(INSIDE, Escaped(c)) == INSIDE && NoAngle(Escaped(c), INSIDE) && Whole(Escaped(c), INSIDE)
  {
    var u := Escaped(c);
    if |u| == 1 {
      assert u[1..] == "";
    } else {
      var last := u[1..];
      assert last[0] == c && last[1..] == "" && After(INSIDE, u[0]) == Quote(true, true);
      assert AfterAll(Quote(true, true), last) == INSIDE;
      assert NoAngle(last, Quote(true, true)) && Whole(last, Quote(true, true));
    }
  }

  /** Nothing in an escaped body is structural, whatever it says. */
  lemma {:induction false} EscapedIsInert(s: string)
    ensures AfterAll(INSIDE, Escape(s)) == INSIDE && NoAngle(Escape(s), INSIDE) && Whole(Escape(s), INSIDE)
  {
    if s != "" {
      hide AfterAll, NoAngle, Whole;
      EscapedIsInert(s[1..]);
      EscapedUnit(s[0]);
      var unit, rest := Escaped(s[0]), Escape(s[1..]);
      AfterConcat(INSIDE, unit, rest);
      NoAngleConcat(unit, rest, INSIDE);
      WholeConcat(unit, rest, INSIDE);
    }
  }

  lemma QuotedIsClosed(s: string)
    ensures Whole(Quoted(s), OUTSIDE) && NoAngle(Quoted(s), OUTSIDE) && AfterAll(OUTSIDE, Quoted(s)) == OUTSIDE
  {
    EscapedIsInert(s);
    assert Quoted(s)[1..] == Escape(s) + "\"" && "\""[1..] == "";
    AfterConcat(INSIDE, Escape(s), "\"");
    WholeConcat(Escape(s), "\"", INSIDE);
    NoAngleConcat(Escape(s), "\"", INSIDE);
    assert After(OUTSIDE, Quoted(s)[0]) == INSIDE && AfterAll(INSIDE, "\"") == AfterAll(OUTSIDE, "");
  }

  // --- the tag -----------------------------------------------------------------------------

  predicate TokenChar(c: char) {
    'a' <= c <= 'z' || 'A' <= c <= 'Z' || '0' <= c <= '9' || c in "-.!%*_+`'~"
  }

  predicate Token(s: string) { s != "" && forall i :: 0 <= i < |s| ==> TokenChar(s[i]) }

  /** The parameter is a `tag=` one, by its name up to white space and case. */
  predicate IsTag(part: string) {
    var eq := Find(part, '=', 0);
    eq < |part| && Lower(Strip(part[..eq], Lws)) == "tag"
  }

  function TagValue(part: string): Option<string>
    requires IsTag(part)
  {
    var value := Strip(part[Find(part, '=', 0) + 1..], Lws);
    if Token(value) then Some(value) else None
  }

  /** The first top-level tag decides, and only a token is one. */
  function TagOf(parts: seq<string>): (tag: Option<string>)
    ensures tag.Some? ==> Token(tag.value)
  {
    if parts == [] then None else if IsTag(parts[0]) then TagValue(parts[0]) else TagOf(parts[1..])
  }

  method TagParam(trailing: string) returns (tag: Option<string>)
    ensures tag == TagOf(SplitFrom(trailing, "", OUTSIDE))
  {
    var parts := SplitParams(trailing);
    for i := 0 to |parts|
      invariant TagOf(parts) == TagOf(parts[i..])
    {
      assert parts[i..][0] == parts[i] && parts[i..][1..] == parts[i + 1..];
      hide Token, Lower, Strip;
      var eq := Find(parts[i], '=', 0);
      if eq < |parts[i]| && Lower(Strip(parts[i][..eq], Lws)) == "tag" {
        var value := Strip(parts[i][eq + 1..], Lws);
        return if Token(value) then Some(value) else None;
      }
    }
    tag := None;
  }

  /** The depth of angle brackets after one more character. */
  function Deeper(depth: nat, q: Quote, c: char): nat {
    if c == '<' && Bare(q) then depth + 1 else if c == '>' && Bare(q) && depth > 0 then depth - 1 else depth
  }

  /** Parameters after a bare addr-spec: all that follows the first `;` outside quotes and brackets. */
  function AfterAddr(s: string, q: Quote, depth: nat): string
    decreases s
  {
    if s == "" then ""
    else if s[0] == ';' && Bare(q) && depth == 0 then s[1..]
    else AfterAddr(s[1..], After(q, s[0]), Deeper(depth, q, s[0]))
  }

  method ParamsAfterAddr(value: string) returns (r: string)
    ensures r == AfterAddr(value, OUTSIDE, 0)
  {
    var inQuote, escaped := false, false;
    var angleDepth: nat := 0;
    var i := 0;
    while i < |value|
      invariant 0 <= i <= |value|
      invariant escaped ==> inQuote
      invariant AfterAddr(value, OUTSIDE, 0) == AfterAddr(value[i..], Quote(inQuote, escaped), angleDepth)
    {
      var c := value[i];
      ghost var rest := value[i..];
      assert rest[0] == c && rest[1..] == value[i + 1..];
      if escaped {
        escaped := false;
      } else if inQuote && c == '\\' {
        escaped := true;
      } else if c == '"' {
        inQuote := !inQuote;
      } else if c == '<' && !inQuote {
        angleDepth := angleDepth + 1;
      } else if c == '>' && !inQuote && angleDepth > 0 {
        angleDepth := angleDepth - 1;
      } else if c == ';' && !inQuote && angleDepth == 0 {
        return value[i + 1..];
      }
      i := i + 1;
    }
    r := "";
  }

  // --- printing and parsing ------------------------------------------------------------------

  datatype Value = NoValue | TokenValue(token: string) | QuotedValue(text: string)

  /** A generic-param: a flag, a token value, or a quoted-string of any contents. */
  datatype Param = Param(name: string, value: Value)

  predicate Generic(p: Param) {
    Token(p.name) && Lower(p.name) != "tag" && (p.value.TokenValue? ==> Token(p.value.token))
  }

  function Print(p: Param): string {
    match p.value
    case NoValue => p.name
    case TokenValue(token) => p.name + "=" + token
    case QuotedValue(text) => p.name + "=" + Quoted(text)
  }

  function PrintAll(params: seq<Param>): seq<string> {
    if params == [] then [] else [Print(params[0])] + PrintAll(params[1..])
  }

  lemma {:induction false} TokenIsInert(s: string)
    requires s == "" || Token(s)
    ensures Whole(s, OUTSIDE) && AfterAll(OUTSIDE, s) == OUTSIDE && Trimmed(s, Lws) && '=' !in s
  {
    if s != "" {
      assert TokenChar(s[0]);
      assert forall i :: 0 <= i < |s| - 1 ==> s[1..][i] == s[i + 1];
      TokenIsInert(s[1..]);
    }
  }

  /** A `name=text` part is a tag by its name alone. */
  lemma NamedPart(name: string, text: string)
    requires Token(name)
    ensures Find(name + "=" + text, '=', 0) == |name|
    ensures (name + "=" + text)[..|name|] == name && (name + "=" + text)[|name| + 1..] == text
    ensures IsTag(name + "=" + text) <==> Lower(name) == "tag"
  {
    TokenIsInert(name);
    StripIff(name, Lws);
    hide Strip, Lower;
    var part := name + "=" + text;
    assert part[|name|] == '=' && forall i :: 0 <= i < |name| ==> part[i] == name[i];
    FindFirst(part, '=', 0, |name|);
    assert part[..|name|] == name && part[|name| + 1..] == text;
  }

  lemma JoinedIsInert(name: string, text: string)
    requires Token(name) && Whole(text, OUTSIDE) && AfterAll(OUTSIDE, text) == OUTSIDE
    ensures Whole(name + "=" + text, OUTSIDE) && AfterAll(OUTSIDE, name + "=" + text) == OUTSIDE
  {
    TokenIsInert(name);
    var rest := "=" + text;
    assert name + "=" + text == name + rest && rest[1..] == text;
    AfterConcat(OUTSIDE, name, rest);
    WholeConcat(name, rest, OUTSIDE);
  }

  lemma PrintedIsClosed(p: Param)
    requires Generic(p)
    ensures Whole(Print(p), OUTSIDE) && AfterAll(OUTSIDE, Print(p)) == OUTSIDE && !IsTag(Print(p))
  {
    TokenIsInert(p.name);
    hide Whole, AfterAll, Lower, Quoted, Token;
    match p.value
    case NoValue => assert Find(p.name, '=', 0) == |p.name|;
    case TokenValue(token) =>
      TokenIsInert(token);
      JoinedIsInert(p.name, token);
      NamedPart(p.name, token);
    case QuotedValue(text) =>
      QuotedIsClosed(text);
      JoinedIsInert(p.name, Quoted(text));
      NamedPart(p.name, Quoted(text));
  }

  lemma TagPart(tag: string)
    requires Token(tag)
    ensures var part := "tag=" + tag;
            Whole(part, OUTSIDE) && AfterAll(OUTSIDE, part) == OUTSIDE && IsTag(part) && TagValue(part) == Some(tag)
  {
    TokenIsInert(tag);
    assert Token("tag") && Lower("tag") == "tag";
    StripIff(tag, Lws);
    JoinedIsInert("tag", tag);
    NamedPart("tag", tag);
    hide Strip, Lower, Whole, AfterAll, Token;
    assert "tag=" + tag == "tag" + "=" + tag;
  }

  lemma ConsPart(part: string, rest: seq<string>)
    requires Whole(part, OUTSIDE) && AfterAll(OUTSIDE, part) == OUTSIDE && !IsTag(part) && Parts(rest)
    ensures Parts([part] + rest) && TagOf([part] + rest) == TagOf(rest)
  {
    hide Whole, AfterAll, IsTag, TagValue;
    var all := [part] + rest;
    assert all[1..] == rest;
    forall i | 1 <= i < |all|
      ensures Whole(all[i], OUTSIDE) && (i < |all| - 1 ==> AfterAll(OUTSIDE, all[i]) == OUTSIDE)
    {
      assert all[i] == rest[i - 1];
    }
  }

  lemma {:induction false} TagFound(params: seq<Param>, tag: string)
    requires Token(tag) && forall i :: 0 <= i < |params| ==> Generic(params[i])
    ensures TagOf(PrintAll(params) + ["tag=" + tag]) == Some(tag)
    ensures Parts(PrintAll(params) + ["tag=" + tag])
  {
    hide IsTag, TagValue, Whole, AfterAll, Print, Token, Generic;
    if params == [] {
      TagPart(tag);
      assert PrintAll(params) + ["tag=" + tag] == ["tag=" + tag];
    } else {
      PrintedIsClosed(params[0]);
      TagFound(params[1..], tag);
      hide TagOf, Parts;
      var rest := PrintAll(params[1..]) + ["tag=" + tag];
      ConsPart(Print(params[0]), rest);
      assert PrintAll(params) + ["tag=" + tag] == [Print(params[0])] + rest;
    }
  }

  /** The first tag decides, found or not: what comes after it is not looked at. */
  lemma {:induction false} FirstTagDecides(before: seq<string>, value: string, after: seq<string>)
    requires forall i :: 0 <= i < |before| ==> !IsTag(before[i])
    ensures TagOf(before + ["tag=" + value] + after)
         == if Token(Strip(value, Lws)) then Some(Strip(value, Lws)) else None
  {
    hide Token, Strip;
    var all := before + ["tag=" + value] + after;
    if before == [] {
      CutAt("tag", '=', value);
      assert "tag" + ['='] + value == "tag=" + value && all[0] == "tag=" + value;
      TagTrimmed();
    } else {
      FirstTagDecides(before[1..], value, after);
      assert all[0] == before[0] && all[1..] == before[1..] + ["tag=" + value] + after;
    }
  }

  lemma TagTrimmed()
    ensures Lower(Strip("tag", Lws)) == "tag"
  {
    hide Strip;
    StripIff("tag", Lws);
    assert Lower("tag") == "tag";
  }

  // --- a bare addr-spec --------------------------------------------------------------------------

  function DepthAfter(s: string, q: Quote, depth: nat): nat
    decreases s
  {
    if s == "" then depth else DepthAfter(s[1..], After(q, s[0]), Deeper(depth, q, s[0]))
  }

  /** No semicolon outside quotes and brackets, scanned from this point. */
  predicate NoBreak(s: string, q: Quote, depth: nat)
    decreases s
  {
    s == "" || (!(s[0] == ';' && Bare(q) && depth == 0) && NoBreak(s[1..], After(q, s[0]), Deeper(depth, q, s[0])))
  }

  /** What may stand before the parameters: closed, and without a semicolon of its own. */
  predicate Lead(s: string) {
    NoBreak(s, OUTSIDE, 0) && AfterAll(OUTSIDE, s) == OUTSIDE && DepthAfter(s, OUTSIDE, 0) == 0
  }

  lemma {:induction false} AfterAddrSkips(s: string, q: Quote, depth: nat, rest: string)
    requires NoBreak(s, q, depth)
    ensures AfterAddr(s + rest, q, depth) == AfterAddr(rest, AfterAll(q, s), DepthAfter(s, q, depth))
    decreases s
  {
    if s == "" {
      assert s + rest == rest;
    } else {
      assert (s + rest)[1..] == s[1..] + rest;
      AfterAddrSkips(s[1..], After(q, s[0]), Deeper(depth, q, s[0]), rest);
    }
  }

  /** The parameters behind any lead are found, whole. */
  lemma AddrParamsFound(lead: string, rest: string)
    requires Lead(lead)
    ensures AfterAddr(lead + ";" + rest, OUTSIDE, 0) == rest
  {
    AfterAddrSkips(lead, OUTSIDE, 0, ";" + rest);
    assert lead + ";" + rest == lead + (";" + rest) && (";" + rest)[1..] == rest;
  }

  lemma {:induction false} AddrCut(s: string, q: Quote, depth: nat) returns (k: nat)
    ensures k <= |s| && NoBreak(s[..k], q, depth)
    ensures k == |s| ==> AfterAddr(s, q, depth) == ""
    ensures k < |s| ==>
              && s[k] == ';' && AfterAddr(s, q, depth) == s[k + 1..]
              && Bare(AfterAll(q, s[..k])) && DepthAfter(s[..k], q, depth) == 0
    decreases s
  {
    if s == "" || (s[0] == ';' && Bare(q) && depth == 0) {
      k := 0;
    } else {
      var n := AddrCut(s[1..], After(q, s[0]), Deeper(depth, q, s[0]));
      k := n + 1;
      assert s[..k][1..] == s[1..][..n];
    }
  }

  /** There is nothing else it can give: what it gives stands behind such a lead, or there are no parameters. */
  lemma AddrParamsIff(s: string, r: string)
    ensures AfterAddr(s, OUTSIDE, 0) == r <==>
              (exists lead :: Lead(lead) && s == lead + ";" + r) || (NoBreak(s, OUTSIDE, 0) && r == "")
  {
    if AfterAddr(s, OUTSIDE, 0) == r {
      var k := AddrCut(s, OUTSIDE, 0);
      if k < |s| {
        assert Lead(s[..k]) && s == s[..k] + ";" + r;
      } else {
        assert s[..k] == s;
      }
    } else if exists lead :: Lead(lead) && s == lead + ";" + r {
      var lead :| Lead(lead) && s == lead + ";" + r;
      AddrParamsFound(lead, r);
    } else if NoBreak(s, OUTSIDE, 0) {
      AfterAddrSkips(s, OUTSIDE, 0, "");
      assert s + "" == s;
    }
  }

  lemma LeadConcat(s: string, t: string)
    requires Lead(s) && Lead(t)
    ensures Lead(s + t)
  {
    AfterConcat(OUTSIDE, s, t);
    BreakConcat(s, t, OUTSIDE, 0);
  }

  lemma {:induction false} BreakConcat(s: string, t: string, q: Quote, depth: nat)
    ensures NoBreak(s + t, q, depth) <==> NoBreak(s, q, depth) && NoBreak(t, AfterAll(q, s), DepthAfter(s, q, depth))
    ensures DepthAfter(s + t, q, depth) == DepthAfter(t, AfterAll(q, s), DepthAfter(s, q, depth))
    decreases s
  {
    if s == "" {
      assert s + t == t;
    } else {
      assert (s + t)[1..] == s[1..] + t;
      BreakConcat(s[1..], t, After(q, s[0]), Deeper(depth, q, s[0]));
    }
  }

  lemma UnitNoBreak(c: char)
    ensures NoBreak(Escaped(c), INSIDE, 0) && DepthAfter(Escaped(c), INSIDE, 0) == 0
  {
    var u := Escaped(c);
    if |u| == 1 {
      assert u[1..] == "";
    } else {
      var last := u[1..];
      assert last[0] == c && last[1..] == "" && After(INSIDE, u[0]) == Quote(true, true);
      assert NoBreak(last, Quote(true, true), 0) && DepthAfter(last, Quote(true, true), 0) == 0;
    }
  }

  lemma {:induction false} EscapedNoBreak(s: string)
    ensures NoBreak(Escape(s), INSIDE, 0) && DepthAfter(Escape(s), INSIDE, 0) == 0
  {
    if s != "" {
      hide AfterAll, NoBreak, DepthAfter;
      EscapedNoBreak(s[1..]);
      EscapedUnit(s[0]);
      UnitNoBreak(s[0]);
      BreakConcat(Escaped(s[0]), Escape(s[1..]), INSIDE, 0);
    }
  }

  /** Quoted text is a lead, even if it says `;tag=` itself. */
  lemma QuotedLead(text: string)
    ensures Lead(Quoted(text))
  {
    QuotedIsClosed(text);
    EscapedNoBreak(text);
    EscapedIsInert(text);
    assert Quoted(text)[1..] == Escape(text) + "\"" && "\""[1..] == "";
    BreakConcat(Escape(text), "\"", INSIDE, 0);
    assert After(OUTSIDE, Quoted(text)[0]) == INSIDE;
  }

  /** So text in quotes before the parameters hides nothing of them and adds nothing to them. */
  lemma QuotedTextInert(text: string, more: string, rest: string)
    requires Lead(more)
    ensures AfterAddr(Quoted(text) + more + ";" + rest, OUTSIDE, 0) == rest
  {
    hide Lead, AfterAddr, Quoted;
    QuotedLead(text);
    LeadConcat(Quoted(text), more);
    AddrParamsFound(Quoted(text) + more, rest);
  }

  /** A URI that needs no brackets. */
  predicate Unbracketed(uri: string) { uri != "" && '<' !in uri && '"' !in uri && ';' !in uri }

  lemma {:induction false} UnbracketedLead(uri: string)
    requires uri == "" || Unbracketed(uri)
    ensures Lead(uri) && NoAngle(uri, OUTSIDE)
  {
    if uri != "" {
      UnbracketedLead(uri[1..]);
      assert After(OUTSIDE, uri[0]) == OUTSIDE && Deeper(0, OUTSIDE, uri[0]) == 0;
    }
  }

  lemma {:induction false} TokenNoAngle(s: string)
    requires s == "" || Token(s)
    ensures NoAngle(s, OUTSIDE)
  {
    if s != "" {
      assert TokenChar(s[0]);
      assert forall i :: 0 <= i < |s| - 1 ==> s[1..][i] == s[i + 1];
      TokenNoAngle(s[1..]);
    }
  }

  lemma ValuedNoAngle(name: string, text: string)
    requires Token(name) && NoAngle(text, OUTSIDE)
    ensures NoAngle(name + "=" + text, OUTSIDE)
  {
    TokenNoAngle(name);
    TokenIsInert(name);
    var rest := "=" + text;
    assert name + "=" + text == name + rest && rest[1..] == text;
    NoAngleConcat(name, rest, OUTSIDE);
  }

  lemma PrintedNoAngle(p: Param)
    requires Generic(p)
    ensures NoAngle(Print(p), OUTSIDE)
  {
    hide NoAngle, Lower, Quoted, Token;
    match p.value
    case NoValue => TokenNoAngle(p.name);
    case TokenValue(token) =>
      TokenNoAngle(token);
      ValuedNoAngle(p.name, token);
    case QuotedValue(text) =>
      QuotedIsClosed(text);
      ValuedNoAngle(p.name, Quoted(text));
  }

  lemma {:induction false} ParamsNoAngle(params: seq<Param>, tag: string)
    requires Token(tag) && forall i :: 0 <= i < |params| ==> Generic(params[i])
    ensures NoAngle(Join(PrintAll(params) + ["tag=" + tag], ";"), OUTSIDE)
  {
    hide NoAngle, Print, Token, Generic;
    if params == [] {
      TagPart(tag);
      TagNoAngle(tag);
      assert PrintAll(params) + ["tag=" + tag] == ["tag=" + tag];
    } else {
      PrintedNoAngle(params[0]);
      PrintedIsClosed(params[0]);
      ParamsNoAngle(params[1..], tag);
      var rest := PrintAll(params[1..]) + ["tag=" + tag];
      hide AfterAll;
      assert PrintAll(params) + ["tag=" + tag] == [Print(params[0])] + rest;
      assert ([Print(params[0])] + rest)[1..] == rest;
      JoinedNoAngle(Print(params[0]), Join(rest, ";"));
    }
  }

  lemma TagNoAngle(tag: string)
    requires Token(tag)
    ensures NoAngle("tag=" + tag, OUTSIDE)
  {
    TokenNoAngle(tag);
    assert "tag=" + tag == "tag" + "=" + tag && Token("tag");
    hide Token, NoAngle;
    ValuedNoAngle("tag", tag);
  }

  lemma JoinedNoAngle(part: string, rest: string)
    requires NoAngle(part, OUTSIDE) && AfterAll(OUTSIDE, part) == OUTSIDE && NoAngle(rest, OUTSIDE)
    ensures NoAngle(part + ";" + rest, OUTSIDE)
  {
    assert part + ";" + rest == part + (";" + rest) && (";" + rest)[1..] == rest;
    NoAngleConcat(part, ";" + rest, OUTSIDE);
  }

  /** Without a bare `<` there is no angle-addr. */
  lemma NoAngleNone(s: string)
    requires NoAngle(s, OUTSIDE)
    ensures Named("", s, OUTSIDE) == None
  {
    NamedSkips("", s, "", OUTSIDE);
    assert s + "" == s;
  }

  lemma SpacedName(text: string)
    ensures var name := Quoted(text) + " ";
            NoAngle(name, OUTSIDE)
            && AfterAll(OUTSIDE, name) == OUTSIDE
  {
    QuotedIsClosed(text);
    hide Quoted;
    assert " "[1..] == "";
    AfterConcat(OUTSIDE, Quoted(text), " ");
    NoAngleConcat(Quoted(text), " ", OUTSIDE);
  }
}
