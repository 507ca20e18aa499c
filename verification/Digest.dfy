/**
  Digest authentication (RFC 7616): scanning auth-params, choosing and answering a
  challenge.  The hash is an uninterpreted function, so what is proved of a response holds
  for every hash: a verifier that scans the header gets back exactly what was hashed.
*/
module Digest {
  import opened Wrappers
  import opened SipText
  import NameAddr

  // --- the auth-param scan -----------------------------------------------------------

  predicate NameChar(c: char) { Word(c) || c == '-' }

  /** The longest run of name characters at the start. */
  function NameRun(s: string): (n: nat)
    ensures n <= |s| && (n < |s| ==> !NameChar(s[n])) && forall i :: 0 <= i < n ==> NameChar(s[i])
  {
    if s == "" || !NameChar(s[0]) then 0 else 1 + NameRun(s[1..])
  }

  predicate Separator(c: char) { c == ',' || c == ';' || Space(c) }

  function BareRun(s: string): (n: nat)
    ensures n <= |s| && (n < |s| ==> Separator(s[n])) && forall i :: 0 <= i < n ==> !Separator(s[i])
  {
    if s == "" || Separator(s[0]) then 0 else 1 + BareRun(s[1..])
  }

  /** The body of a quoted-string whose opening quote has been passed, and what follows its closing quote. */
  function Body(s: string): Option<(string, string)>
    decreases s
  {
    if s == "" then None
    else if s[0] == '"' then Some(("", s[1..]))
    else
      var k := if s[0] == '\\' then 2 else 1;
      if |s| < k || (k == 2 && s[1] == '\n') then None
      else
        match Body(s[k..])
        case None => None
        case Some((body, rest)) => Some((s[..k] + body, rest))
  }

  function Unescape(quoted: string): string
    decreases quoted
  {
    if quoted == "" then ""
    else if quoted[0] == '\\' && |quoted| > 1 && quoted[1] != '\n' then [quoted[1]] + Unescape(quoted[2..])
    else [quoted[0]] + Unescape(quoted[1..])
  }

  datatype Match = Match(name: string, value: string, rest: string)

  /** One auth-param at the very start: a name, `=`, and a quoted-string or else a bare run. */
  function MatchAt(s: string): (m: Option<Match>)
    ensures m.Some? ==> |m.value.rest| < |s|
  {
    if s == "" || !Word(s[0]) then None
    else
      var n := NameRun(s);
      if n == |s| || s[n] != '=' then None
      else
        var tail := s[n + 1..];
        var quoted := if tail != "" && tail[0] == '"' then Body(tail[1..]) else None;
        if quoted.Some? then
          BodyShrinks(tail[1..]);
          Some(Match(s[..n], Unescape(quoted.value.0), quoted.value.1))
        else if BareRun(tail) == 0 then None
        else Some(Match(s[..n], tail[..BareRun(tail)], tail[BareRun(tail)..]))
  }

  lemma {:induction false} BodyShrinks(s: string)
    ensures Body(s).Some? ==> |Body(s).value.1| < |s|
    decreases s
  {
    if s != "" && s[0] != '"' {
      var k := if s[0] == '\\' then 2 else 1;
      if |s| >= k { BodyShrinks(s[k..]); }
    }
  }

  /** All auth-params from left to right, names in lower case. */
  function Scan(s: string): seq<(string, string)>
    decreases |s|
  {
    if s == "" then []
    else
      match MatchAt(s)
      case None => Scan(s[1..])
      case Some(m) => [(Lower(m.name), m.value)] + Scan(m.rest)
  }

  /** A later parameter replaces an earlier one of its name. */
  function ToMap(pairs: seq<(string, string)>): map<string, string> {
    if pairs == [] then map[]
    else ToMap(pairs[..|pairs| - 1])[pairs[|pairs| - 1].0 := pairs[|pairs| - 1].1]
  }

  method ScanParams(header: string) returns (params: map<string, string>)
    ensures params == ToMap(Scan(header))
  {
    params := map[];
    var rest := header;
    ghost var done: seq<(string, string)> := [];
    while rest != ""
      invariant Scan(header) == done + Scan(rest) && params == ToMap(done)
      decreases |rest|
    {
      var m := MatchAt(rest);
      if m.None? {
        rest := rest[1..];
      } else {
        ghost var before := done;
        done := done + [(Lower(m.value.name), m.value.value)];
        assert done[..|done| - 1] == before;
        params := params[Lower(m.value.name) := m.value.value];
        rest := m.value.rest;
      }
    }
    assert done + [] == done;
  }

  // --- scanning what was printed -------------------------------------------------------

  predicate Control(c: char) { c < ' ' || c == 127 as char }

  predicate ControlFree(s: string) { forall i :: 0 <= i < |s| ==> !Control(s[i]) }

  /** Control characters are those below the space, and DEL. */
  lemma ControlFreeIff(s: string)
    ensures ControlFree(s) <==> forall i :: 0 <= i < |s| ==> 32 <= s[i] as int && s[i] as int != 127
  {
  }

  /** A backslash before a line feed leaves a quoted-string open. */
  lemma LineFeedNotEscaped(rest: string)
    ensures Body("\\\n" + rest) == None
  {
  }

  /** One rendered auth-param: a quoted value of any control-free contents, or a bare token. */
  datatype AuthParam = AuthParam(name: string, value: string, quoted: bool)

  predicate Printable(p: AuthParam) {
    && p.name != "" && Word(p.name[0]) && (forall i :: 0 <= i < |p.name| ==> NameChar(p.name[i]))
    && (if p.quoted then ControlFree(p.value)
        else p.value != "" && p.value[0] != '"' && forall i :: 0 <= i < |p.value| ==> !Separator(p.value[i]))
  }

  function Print(p: AuthParam): string {
    p.name + "=" + if p.quoted then "\"" + NameAddr.Escape(p.value) + "\"" else p.value
  }

  function PrintAll(params: seq<AuthParam>): seq<string> {
    if params == [] then [] else [Print(params[0])] + PrintAll(params[1..])
  }

  function Pairs(params: seq<AuthParam>): seq<(string, string)> {
    if params == [] then [] else [(Lower(params[0].name), params[0].value)] + Pairs(params[1..])
  }

  /** Where a value without quotes ends. */
  predicate EndsValue(c: char) { c == ',' || c == ';' || Space(c) }

  lemma {:induction false} BareRunEnds(value: string, rest: string)
    requires forall i :: 0 <= i < |value| ==> !EndsValue(value[i])
    requires rest == "" || EndsValue(rest[0])
    ensures BareRun(value + rest) == |value|
  {
    if value == "" {
      assert value + rest == rest;
    } else {
      assert (value + rest)[1..] == value[1..] + rest && (value + rest)[0] == value[0];
      BareRunEnds(value[1..], rest);
    }
  }

  lemma {:induction false} NameRunEnds(name: string, rest: string)
    requires forall i :: 0 <= i < |name| ==> NameChar(name[i])
    requires rest != "" && rest[0] == '='
    ensures NameRun(name + rest) == |name|
  {
    if name == "" {
      assert name + rest == rest;
    } else {
      assert (name + rest)[1..] == name[1..] + rest && (name + rest)[0] == name[0];
      NameRunEnds(name[1..], rest);
    }
  }

  /** A value without quotes runs up to a comma, a semicolon or white space, and there is none without a character. */
  lemma BareValueEnds(name: string, value: string, rest: string)
    requires name != "" && Word(name[0]) && forall i :: 0 <= i < |name| ==> NameChar(name[i])
    requires (value == "" || value[0] != '"') && forall i :: 0 <= i < |value| ==> !EndsValue(value[i])
    requires rest == "" || EndsValue(rest[0])
    ensures MatchAt(name + ("=" + (value + rest))) == if value == "" then None else Some(Match(name, value, rest))
  {
    var tail := value + rest;
    var s := name + ("=" + tail);
    NameRunEnds(name, "=" + tail);
    BareRunEnds(value, rest);
    assert s[|name|] == '=' && s[|name| + 1..] == tail && s[..|name|] == name && s[0] == name[0];
    assert tail[..|value|] == value && tail[|value|..] == rest;
    assert value != "" ==> tail[0] == value[0];
    assert value == "" ==> tail == rest;
    hide NameRun, BareRun, Body, Unescape;
  }

  /** A body grows by one literal or escaped character at its front. */
  lemma BodyStep(unit: string, tail: string)
    requires (|unit| == 1 && unit[0] != '"' && unit[0] != '\\') || (|unit| == 2 && unit[0] == '\\' && unit[1] != '\n')
    requires Body(tail).Some?
    ensures Body(unit + tail) == Some((unit + Body(tail).value.0, Body(tail).value.1))
  {
    var s := unit + tail;
    assert s[..|unit|] == unit && s[|unit|..] == tail;
  }

  lemma ClosingQuote(rest: string)
    ensures Body("" + "\"" + rest) == Some(("", rest))
  {
    assert "" + "\"" + rest == "\"" + rest && ("\"" + rest)[1..] == rest;
  }

  /** The scan of an escaped body stops at the closing quote and no earlier. */
  lemma EscapedSteps(c: char)
    requires !Control(c)
    ensures var unit := NameAddr.Escaped(c);
            if |unit| == 1 then unit[0] != '"' && unit[0] != '\\'
            else |unit| == 2 && unit[0] == '\\' && unit[1] != '\n'
  {
  }

  lemma {:induction false} EscapedBody(v: string, rest: string)
    requires ControlFree(v)
    ensures Body(NameAddr.Escape(v) + "\"" + rest) == Some((NameAddr.Escape(v), rest))
  {
    hide Body, NameAddr.Escaped;
    if v == "" {
      ClosingQuote(rest);
    } else {
      EscapedBody(v[1..], rest);
      EscapedSteps(v[0]);
      var unit, tail := NameAddr.Escaped(v[0]), NameAddr.Escape(v[1..]);
      BodyStep(unit, tail + "\"" + rest);
      Regroup(unit, tail, "\"");
      Regroup(unit, tail + "\"", rest);
    }
  }

  lemma {:induction false} UnescapeInvertsEscape(v: string)
    requires ControlFree(v)
    ensures Unescape(NameAddr.Escape(v)) == v
  {
    if v != "" {
      UnescapeInvertsEscape(v[1..]);
      assert !Control(v[0]);
      var tail := NameAddr.Escape(v[1..]);
      if v[0] == '\\' || v[0] == '"' {
        assert (['\\', v[0]] + tail)[2..] == tail;
      } else {
        assert ([v[0]] + tail)[1..] == tail;
      }
    }
  }

  lemma ReplaceHead(c: char, rest: string, what: char, with: string)
    ensures Replace([c] + rest, [what], with) == (if c == what then with else [c]) + Replace(rest, [what], with)
  {
    assert ([c] + rest)[0] == c && ([c] + rest)[1..] == rest;
    assert [what] <= [c] + rest <==> c == what;
  }

  lemma NothingReplaced(what: char, with: string)
    ensures Replace("", [what], with) == ""
  {
  }

  /** The escaping as it is computed: two replacements, the backslash first. */
  lemma {:induction false} EscapeIsReplace(v: string)
    ensures Replace(Replace(v, ['\\'], ['\\', '\\']), ['"'], ['\\', '"']) == NameAddr.Escape(v)
  {
    hide Replace;
    if v == "" {
      NothingReplaced('\\', ['\\', '\\']);
      NothingReplaced('"', ['\\', '"']);
    } else {
      EscapeIsReplace(v[1..]);
      var rest := Replace(v[1..], ['\\'], ['\\', '\\']);
      assert v == [v[0]] + v[1..];
      ReplaceHead(v[0], v[1..], '\\', ['\\', '\\']);
      ReplaceHead(v[0], rest, '"', ['\\', '"']);
      if v[0] == '\\' {
        ReplaceHead('\\', rest, '"', ['\\', '"']);
        ReplaceHead('\\', ['\\'] + rest, '"', ['\\', '"']);
        assert ['\\', '\\'] + rest == ['\\'] + (['\\'] + rest);
      }
    }
  }

  lemma {:induction false} NameRunOf(name: string, rest: string)
    requires (forall i :: 0 <= i < |name| ==> NameChar(name[i])) && (rest != "" ==> !NameChar(rest[0]))
    ensures NameRun(name + rest) == |name|
  {
    if name == "" {
      assert name + rest == rest;
    } else {
      assert (name + rest)[1..] == name[1..] + rest;
      NameRunOf(name[1..], rest);
    }
  }

  lemma {:induction false} BareRunOf(value: string, rest: string)
    requires (forall i :: 0 <= i < |value| ==> !Separator(value[i])) && (rest != "" ==> Separator(rest[0]))
    ensures BareRun(value + rest) == |value|
  {
    if value == "" {
      assert value + rest == rest;
    } else {
      assert (value + rest)[1..] == value[1..] + rest;
      BareRunOf(value[1..], rest);
    }
  }

  /** A name, an equals sign and a tail are taken apart at the equals sign. */
  lemma NameCut(name: string, tail: string)
    requires name != "" && Word(name[0]) && forall i :: 0 <= i < |name| ==> NameChar(name[i])
    ensures var s := name + "=" + tail;
            NameRun(s) == |name| && s[|name|] == '=' && s[..|name|] == name
            && s[|name| + 1..] == tail && s[0] == name[0]
  {
    NameRunOf(name, "=" + tail);
    assert name + "=" + tail == name + ("=" + tail);
  }

  lemma MatchQuoted(name: string, value: string, rest: string)
    requires Printable(AuthParam(name, value, true))
    ensures MatchAt(name + "=" + ("\"" + (NameAddr.Escape(value) + "\"" + rest))) == Some(Match(name, value, rest))
  {
    NameCut(name, "\"" + (NameAddr.Escape(value) + "\"" + rest));
    EscapedBody(value, rest);
    UnescapeInvertsEscape(value);
    hide Body, NameRun, NameAddr.Escape, Unescape, BareRun, NameChar, Separator;
    var tail := "\"" + (NameAddr.Escape(value) + "\"" + rest);
    assert tail[1..] == NameAddr.Escape(value) + "\"" + rest;
  }

  lemma MatchBare(name: string, value: string, rest: string)
    requires Printable(AuthParam(name, value, false)) && (rest != "" ==> Separator(rest[0]))
    ensures MatchAt(name + "=" + (value + rest)) == Some(Match(name, value, rest))
  {
    NameCut(name, value + rest);
    BareRunOf(value, rest);
    hide Body, NameRun, Unescape, BareRun, NameChar, Separator;
    assert (value + rest)[..|value|] == value && (value + rest)[|value|..] == rest && (value + rest)[0] == value[0];
  }

  lemma ScanPrinted(p: AuthParam, rest: string)
    requires Printable(p) && (rest != "" ==> Separator(rest[0]))
    ensures Scan(Print(p) + rest) == [(Lower(p.name), p.value)] + Scan(rest)
  {
    hide MatchAt, Lower, NameAddr.Escape;
    if p.quoted {
      MatchQuoted(p.name, p.value, rest);
      assert Print(p) + rest == p.name + "=" + ("\"" + (NameAddr.Escape(p.value) + "\"" + rest));
    } else {
      MatchBare(p.name, p.value, rest);
      assert Print(p) + rest == p.name + "=" + (p.value + rest);
    }
  }

  /** Between parameters nothing matches. */
  lemma SkipSeparators(rest: string)
    ensures Scan(", " + rest) == Scan(rest)
  {
    assert (", " + rest)[1..] == " " + rest && (" " + rest)[1..] == rest;
    assert MatchAt(", " + rest).None? && MatchAt(" " + rest).None?;
  }

  lemma {:induction false} ScanJoined(params: seq<AuthParam>)
    requires params != [] && forall i :: 0 <= i < |params| ==> Printable(params[i])
    ensures Scan(Join(PrintAll(params), ", ")) == Pairs(params)
  {
    hide MatchAt, Print, Printable, Join;
    JoinCons(Print(params[0]), PrintAll(params[1..]), ", ");
    if |params| == 1 {
      ScanPrinted(params[0], "");
      assert PrintAll(params[1..]) == [] && Pairs(params[1..]) == [];
    } else {
      assert PrintAll(params[1..]) != [];
      var rest := Join(PrintAll(params[1..]), ", ");
      ScanJoined(params[1..]);
      ScanPrinted(params[0], ", " + rest);
      SkipSeparators(rest);
    }
  }

  lemma {:induction false} SkipWord(word: string, rest: string)
    requires (forall i :: 0 <= i < |word| ==> NameChar(word[i])) && rest != "" && !NameChar(rest[0]) && rest[0] != '='
    ensures Scan(word + rest) == Scan(rest)
  {
    if word == "" {
      assert word + rest == rest;
    } else {
      NameRunOf(word, rest);
      assert (word + rest)[|word|] == rest[0];
      assert MatchAt(word + rest).None?;
      assert (word + rest)[1..] == word[1..] + rest;
      SkipWord(word[1..], rest);
    }
  }

  /**
    The scan inverts the printing: for every list of parameters, values with quotes,
    backslashes, commas and `name=` text among them, exactly those parameters come back.
  */
  lemma ScanInvertsPrint(params: seq<AuthParam>)
    requires params != [] && forall i :: 0 <= i < |params| ==> Printable(params[i])
    ensures Scan("Digest " + Join(PrintAll(params), ", ")) == Pairs(params)
  {
    ScanJoined(params);
    hide MatchAt, PrintAll, Join, Scan, Printable;
    SkipScheme(Join(PrintAll(params), ", "));
  }

  lemma SkipScheme(rest: string)
    ensures Scan("Digest " + rest) == Scan(rest)
  {
    var spaced := " " + rest;
    assert spaced[1..] == rest && MatchAt(spaced).None?;
    assert "Digest " + rest == "Digest" + spaced;
    SkipWord("Digest", spaced);
  }
}
