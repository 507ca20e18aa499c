/** The splitter of comma-combined header values (section 7.3.1 of RFC 3261). */
module HeaderList {
  import opened SipText
  import NameAddr

  /** Inside an angle-addr, inside a quoted display-name, after a backslash in one. */
  datatype Nesting = Nesting(angle: bool, quote: bool, escaped: bool)

  const TOP := Nesting(false, false, false)

  function After(n: Nesting, c: char): Nesting {
    if n.escaped then n.(escaped := false)
    else if n.quote && c == '\\' then n.(escaped := true)
    else if c == '"' && !n.angle then n.(quote := !n.quote)
    else if c == '<' && !n.quote then n.(angle := true)
    else if c == '>' && !n.quote then n.(angle := false)
    else n
  }

  function AfterAll(n: Nesting, s: string): Nesting
    decreases s
  {
    if s == "" then n else AfterAll(After(n, s[0]), s[1..])
  }

  /** The entries of `s` between its top-level commas, with `entry` collected already. */
  function SplitFrom(s: string, entry: string, n: Nesting): (entries: seq<string>)
    ensures entries != []
    decreases s
  {
    if s == "" then [entry]
    else if s[0] == ',' && n == TOP then [entry] + SplitFrom(s[1..], "", n)
    else SplitFrom(s[1..], entry + [s[0]], After(n, s[0]))
  }

  /** Stripped, and without the empty ones. */
  function Tidy(entries: seq<string>): seq<string> {
    if entries == [] then []
    else (if Strip(entries[0], Space) == "" then [] else [Strip(entries[0], Space)]) + Tidy(entries[1..])
  }

  function Entries(header: string): seq<string> { Tidy(SplitFrom(header, "", TOP)) }

  method SplitTopLevel(header: string) returns (entries: seq<string>)
    ensures entries == SplitFrom(header, "", TOP)
  {
    entries := [];
    var current := "";
    var inAngle, inQuote, escaped := false, false, false;
    var i := 0;
    while i < |header|
      invariant 0 <= i <= |header|
      invariant !(inAngle && inQuote) && (escaped ==> inQuote)
      invariant SplitFrom(header, "", TOP) ==
        entries + SplitFrom(header[i..], current, Nesting(inAngle, inQuote, escaped))
    {
      var c := header[i];
      ghost var rest := header[i..];
      assert rest[0] == c && rest[1..] == header[i + 1..];
      if escaped {
        current := current + [c];
        escaped := false;
      } else if c == ',' && !inAngle && !inQuote {
        entries := entries + [current];
        current := "";
      } else {
        if inQuote && c == '\\' {
          escaped := true;
        } else if c == '"' && !inAngle {
          inQuote := !inQuote;
        } else if c == '<' && !inQuote {
          inAngle := true;
        } else if c == '>' && !inQuote {
          inAngle := false;
        }
        current := current + [c];
      }
      i := i + 1;
    }
    entries := entries + [current];
  }

  lemma TidyFrom(entries: seq<string>, k: nat)
    requires k < |entries|
    ensures var entry := Strip(entries[k], Space);
            Tidy(entries[k..]) == (if entry == "" then [] else [entry]) + Tidy(entries[k + 1..])
  {
    hide Strip;
    assert entries[k..][0] == entries[k] && entries[k..][1..] == entries[k + 1..];
  }

  method SplitHeaderList(header: string) returns (result: seq<string>)
    ensures result == Entries(header)
  {
    hide SplitFrom, Strip;
    var entries := SplitTopLevel(header);
    result := [];
    for k := 0 to |entries|
      invariant Tidy(entries) == result + Tidy(entries[k..])
    {
      var entry := Strip(entries[k], Space);
      TidyFrom(entries, k);
      if entry != "" { result := result + [entry]; }
    }
  }

  // --- combining header lines --------------------------------------------------------------

  lemma {:induction false} TidyConcat(xs: seq<string>, ys: seq<string>)
    ensures Tidy(xs + ys) == Tidy(xs) + Tidy(ys)
  {
    hide Strip;
    if xs == [] {
      assert xs + ys == ys;
    } else {
      var first := if Strip(xs[0], Space) == "" then [] else [Strip(xs[0], Space)];
      assert (xs + ys)[0] == xs[0] && (xs + ys)[1..] == xs[1..] + ys;
      assert Tidy(xs + ys) == first + Tidy(xs[1..] + ys);
      assert Tidy(xs) == first + Tidy(xs[1..]);
      TidyConcat(xs[1..], ys);
    }
  }

  lemma {:induction false} SplitCombined(s: string, entry: string, n: Nesting, rest: string)
    requires AfterAll(n, s) == TOP
    ensures SplitFrom(s + "," + rest, entry, n) == SplitFrom(s, entry, n) + SplitFrom(rest, "", TOP)
    decreases s
  {
    var all := s + "," + rest;
    if s == "" {
      assert all == "," + rest && all[1..] == rest;
    } else {
      assert all[0] == s[0] && all[1..] == s[1..] + "," + rest;
      if s[0] == ',' && n == TOP {
        SplitCombined(s[1..], "", n, rest);
        assert [entry] + (SplitFrom(s[1..], "", n) + SplitFrom(rest, "", TOP))
            == ([entry] + SplitFrom(s[1..], "", n)) + SplitFrom(rest, "", TOP);
      } else {
        SplitCombined(s[1..], entry + [s[0]], After(n, s[0]), rest);
      }
    }
  }

  /** Two header lines combined into one mean what they meant apart, if the first closes what it opens. */
  lemma HeadersCombine(first: string, second: string)
    requires AfterAll(TOP, first) == TOP
    ensures Entries(first + "," + second) == Entries(first) + Entries(second)
  {
    SplitCombined(first, "", TOP, second);
    TidyConcat(SplitFrom(first, "", TOP), SplitFrom(second, "", TOP));
  }

  /** No top-level comma, scanned from this point. */
  predicate Whole(s: string, n: Nesting)
    decreases s
  {
    s == "" || (!(s[0] == ',' && n == TOP) && Whole(s[1..], After(n, s[0])))
  }

  /** What follows without a top-level comma of its own goes to the last entry. */
  lemma {:induction false} SplitExtended(s: string, entry: string, n: Nesting, more: string)
    requires Whole(more, AfterAll(n, s))
    ensures var xs := SplitFrom(s, entry, n);
            SplitFrom(s + more, entry, n) == xs[..|xs| - 1] + [xs[|xs| - 1] + more]
    decreases s
  {
    if s == "" {
      assert s + more == more;
      SplitWhole(more, entry, n);
    } else {
      assert (s + more)[0] == s[0] && (s + more)[1..] == s[1..] + more;
      if s[0] == ',' && n == TOP {
        SplitExtended(s[1..], "", n, more);
        var ys := SplitFrom(s[1..], "", n);
        assert ([entry] + ys)[..|ys|] == [entry] + ys[..|ys| - 1];
      } else {
        SplitExtended(s[1..], entry + [s[0]], After(n, s[0]), more);
      }
    }
  }

  lemma {:induction false} StripKeeps(s: string)
    requires s != "" && s[|s| - 1] == 'b' && |s| >= 2 && s[|s| - 2] == ','
    ensures |Strip(s, Space)| >= 2
  {
    if Space(s[0]) { StripKeeps(s[1..]); }
  }

  /** An open quote or bracket swallows the comma, so closing what one opens is what it takes. */
  lemma HeadersCombineIff(first: string)
    ensures (forall second :: Entries(first + "," + second) == Entries(first) + Entries(second))
       <==> AfterAll(TOP, first) == TOP
  {
    if AfterAll(TOP, first) == TOP {
      forall second ensures Entries(first + "," + second) == Entries(first) + Entries(second) {
        HeadersCombine(first, second);
      }
    } else {
      OpenSwallows(first);
      assert Entries(first + "," + "b") != Entries(first) + Entries("b");
    }
  }

  lemma CommaThenB(n: Nesting)
    requires n != TOP
    ensures Whole(",b", n)
  {
    assert ",b"[0] == ',' && ",b"[1..] == "b" && "b"[1..] == "";
  }

  lemma LastTidied(front: seq<string>, last: string)
    requires |Strip(last, Space)| >= 2
    ensures var got := Tidy(front + [last]); got != [] && |got[|got| - 1]| >= 2
  {
    hide Tidy, Strip;
    TidyConcat(front, [last]);
    TidyOne(last);
  }

  lemma SwallowedEntry(first: string)
    requires AfterAll(TOP, first) != TOP
    ensures var got := Entries(first + ",b"); got != [] && |got[|got| - 1]| >= 2
  {
    hide Strip, SplitFrom, Tidy, Whole, AfterAll;
    CommaThenB(AfterAll(TOP, first));
    SplitExtended(first, "", TOP, ",b");
    var xs := SplitFrom(first, "", TOP);
    var last := xs[|xs| - 1] + ",b";
    StripKeeps(last);
    LastTidied(xs[..|xs| - 1], last);
  }

  lemma OneLetter()
    ensures Entries("b") == ["b"]
  {
    assert "b"[1..] == "";
    OneEntry("b");
  }

  lemma OpenSwallows(first: string)
    requires AfterAll(TOP, first) != TOP
    ensures Entries(first + "," + "b") != Entries(first) + Entries("b")
  {
    hide Entries, AfterAll;
    SwallowedEntry(first);
    OneLetter();
    assert first + "," + "b" == first + ",b";
    var joined := Entries(first) + ["b"];
    assert joined[|joined| - 1] == "b";
  }

  // --- splitting what was joined ---------------------------------------------------------------

  /** What can stand alone in a list: trimmed, not empty, and without a comma that would split it. */
  predicate Alone(s: string) { s != "" && Trimmed(s, Space) && Whole(s, TOP) }

  /** An entry as a proxy or registrar writes it, closed by itself. */
  predicate Entry(s: string) { Alone(s) && AfterAll(TOP, s) == TOP }

  const ANGLE := Nesting(true, false, false)
  const QUOTE := Nesting(false, true, false)

  /** Within brackets neither a comma nor a quote counts. */
  lemma {:induction false} InBrackets(spec: string)
    requires '>' !in spec
    ensures Whole(spec, ANGLE) && AfterAll(ANGLE, spec) == ANGLE
  {
    if spec != "" { InBrackets(spec[1..]); }
  }

  /** Within an escaped quoted-string neither a comma nor a bracket counts. */
  lemma {:induction false} InQuotes(text: string)
    ensures Whole(NameAddr.Escape(text), QUOTE) && AfterAll(QUOTE, NameAddr.Escape(text)) == QUOTE
  {
    if text != "" {
      InQuotes(text[1..]);
      hide Whole, AfterAll;
      EscapedCloses(text[0]);
      WholeConcat(NameAddr.Escaped(text[0]), NameAddr.Escape(text[1..]), QUOTE);
    }
  }

  lemma EscapedCloses(c: char)
    ensures Whole(NameAddr.Escaped(c), QUOTE) && AfterAll(QUOTE, NameAddr.Escaped(c)) == QUOTE
  {
    var unit := NameAddr.Escaped(c);
    if |unit| == 1 {
      assert unit[1..] == "";
    } else {
      var last, escaped := unit[1..], Nesting(false, true, true);
      assert last[0] == c && last[1..] == "" && After(QUOTE, unit[0]) == escaped && After(escaped, c) == QUOTE;
      assert AfterAll(escaped, last) == QUOTE && Whole(last, escaped);
    }
  }

  lemma {:induction false} WholeConcat(s: string, t: string, n: Nesting)
    ensures Whole(s + t, n) <==> Whole(s, n) && Whole(t, AfterAll(n, s))
    ensures AfterAll(n, s + t) == AfterAll(AfterAll(n, s), t)
    decreases s
  {
    if s == "" {
      assert s + t == t;
    } else {
      assert (s + t)[1..] == s[1..] + t;
      WholeConcat(s[1..], t, After(n, s[0]));
    }
  }

  /** An address with a quoted display name is one entry, whatever commas the name and the address hold. */
  lemma AddressIsEntry(name: string, spec: string)
    requires '>' !in spec
    ensures Entry(NameAddr.Quoted(name) + " <" + spec + ">")
  {
    var text := NameAddr.Escape(name);
    InQuotes(name);
    InBrackets(spec);
    Ends();
    hide Whole, AfterAll, NameAddr.Escape;
    WholeConcat("\"", text, TOP);
    WholeConcat("\"" + text, "\"", TOP);
    WholeConcat("\"" + text + "\"", " <", TOP);
    WholeConcat("\"" + text + "\"" + " <", spec, TOP);
    WholeConcat("\"" + text + "\"" + " <" + spec, ">", TOP);
  }

  lemma Ends()
    ensures Whole("\"", TOP) && AfterAll(TOP, "\"") == QUOTE && Whole("\"", QUOTE) && AfterAll(QUOTE, "\"") == TOP
    ensures Whole(" <", TOP) && AfterAll(TOP, " <") == ANGLE && Whole(">", ANGLE) && AfterAll(ANGLE, ">") == TOP
  {
    assert "\""[1..] == "" && " <"[1..] == "<" && "<"[1..] == "" && ">"[1..] == "";
  }

  lemma {:induction false} SplitWhole(s: string, entry: string, n: Nesting)
    requires Whole(s, n)
    ensures SplitFrom(s, entry, n) == [entry + s]
    decreases s
  {
    if s == "" {
      assert entry + s == entry;
    } else {
      SplitWhole(s[1..], entry + [s[0]], After(n, s[0]));
      assert entry + [s[0]] + s[1..] == entry + s;
    }
  }

  lemma OneEntry(s: string)
    requires Alone(s)
    ensures Entries(s) == [s]
  {
    SplitWhole(s, "", TOP);
    StripIff(s, Space);
    hide Whole, AfterAll, SplitFrom, Tidy, Strip;
    assert "" + s == s;
    TidyOne(s);
  }

  lemma TidyOne(s: string)
    ensures Tidy([s]) == if Strip(s, Space) == "" then [] else [Strip(s, Space)]
  {
    hide Strip;
    assert [s][1..] == [];
  }

  /** A list whose entries can stand alone; only the last may leave something open. */
  predicate EntryList(entries: seq<string>) {
    && (forall i :: 0 <= i < |entries| ==> Alone(entries[i]))
    && (forall i :: 0 <= i < |entries| - 1 ==> AfterAll(TOP, entries[i]) == TOP)
  }

  lemma {:induction false} EntriesInvertJoin(entries: seq<string>)
    requires entries != [] && EntryList(entries)
    ensures Entries(Join(entries, ",")) == entries
  {
    hide Entries, Alone, AfterAll;
    OneEntry(entries[0]);
    if |entries| > 1 {
      hide Join;
      var rest := Join(entries[1..], ",");
      EntriesInvertJoin(entries[1..]);
      HeadersCombine(entries[0], rest);
      assert entries == [entries[0]] + entries[1..];
      JoinCons(entries[0], entries[1..], ",");
      Regroup(entries[0], ",", rest);
    } else {
      assert entries == [entries[0]];
    }
  }

  // --- and what a split can give ------------------------------------------------------------------

  /** Parts as they come out of the split: none with a top-level comma, all but the last closed. */
  predicate Parts(parts: seq<string>) {
    && (forall i :: 0 <= i < |parts| ==> Whole(parts[i], TOP))
    && (forall i :: 0 <= i < |parts| - 1 ==> AfterAll(TOP, parts[i]) == TOP)
  }

  lemma {:induction false} AfterConcat(n: Nesting, s: string, t: string)
    ensures AfterAll(n, s + t) == AfterAll(AfterAll(n, s), t)
    ensures Whole(s + t, n) <==> Whole(s, n) && Whole(t, AfterAll(n, s))
    decreases s
  {
    if s == "" {
      assert s + t == t;
    } else {
      assert (s + t)[1..] == s[1..] + t;
      AfterConcat(After(n, s[0]), s[1..], t);
    }
  }

  lemma PartGrows(entry: string, c: char)
    requires Whole(entry, TOP) && !(c == ',' && AfterAll(TOP, entry) == TOP)
    ensures Whole(entry + [c], TOP) && AfterAll(TOP, entry + [c]) == After(AfterAll(TOP, entry), c)
  {
    AfterConcat(TOP, entry, [c]);
    assert [c][1..] == "";
  }

  lemma PartsPrepend(part: string, rest: seq<string>)
    requires Whole(part, TOP) && AfterAll(TOP, part) == TOP && Parts(rest)
    ensures Parts([part] + rest)
  {
    hide Whole, AfterAll;
    var all := [part] + rest;
    forall i | 1 <= i < |all| ensures Whole(all[i], TOP) && (i < |all| - 1 ==> AfterAll(TOP, all[i]) == TOP) {
      assert all[i] == rest[i - 1];
    }
  }

  lemma {:induction false} SplitGivesParts(s: string, entry: string)
    requires Whole(entry, TOP)
    ensures Parts(SplitFrom(s, entry, AfterAll(TOP, entry)))
    decreases s
  {
    if s != "" {
      hide Whole, Parts;
      var n := AfterAll(TOP, entry);
      if s[0] == ',' && n == TOP {
        assert Whole("", TOP) && AfterAll(TOP, "") == TOP by { EmptyPart(); }
        SplitGivesParts(s[1..], "");
        PartsPrepend(entry, SplitFrom(s[1..], "", TOP));
      } else {
        PartGrows(entry, s[0]);
        SplitGivesParts(s[1..], entry + [s[0]]);
      }
    } else {
      assert [entry] == SplitFrom(s, entry, AfterAll(TOP, entry));
    }
  }

  lemma EmptyPart()
    ensures Whole("", TOP) && AfterAll(TOP, "") == TOP
  {
  }

  /** White space at either end plays no part in what is open. */
  lemma {:induction false} StripLeftKeeps(s: string)
    requires Whole(s, TOP)
    ensures Whole(StripLeft(s, Space), TOP) && AfterAll(TOP, StripLeft(s, Space)) == AfterAll(TOP, s)
  {
    if s != "" && Space(s[0]) {
      assert After(TOP, s[0]) == TOP;
      StripLeftKeeps(s[1..]);
    }
  }

  lemma {:induction false} EscapeInQuote(s: string, n: Nesting)
    requires n.escaped ==> n.quote
    ensures AfterAll(n, s).escaped ==> AfterAll(n, s).quote
    decreases s
  {
    if s != "" { EscapeInQuote(s[1..], After(n, s[0])); }
  }

  lemma {:induction false} StripRightKeeps(s: string)
    requires Whole(s, TOP)
    ensures Whole(StripRight(s, Space), TOP)
    ensures AfterAll(TOP, s) == TOP ==> AfterAll(TOP, StripRight(s, Space)) == TOP
    decreases s
  {
    if s != "" && Space(s[|s| - 1]) {
      var init, last := s[..|s| - 1], s[|s| - 1];
      assert s == init + [last] && [last][1..] == "";
      AfterConcat(TOP, init, [last]);
      EscapeInQuote(init, TOP);
      StripRightKeeps(init);
    }
  }

  lemma StripKeepsAlone(s: string)
    requires Whole(s, TOP) && Strip(s, Space) != ""
    ensures Alone(Strip(s, Space))
    ensures AfterAll(TOP, s) == TOP ==> Entry(Strip(s, Space))
  {
    StripLeftKeeps(s);
    StripRightKeeps(StripLeft(s, Space));
    hide StripLeft, StripRight, Whole, AfterAll;
  }

  lemma PartsTail(parts: seq<string>)
    requires Parts(parts) && parts != []
    ensures Whole(parts[0], TOP) && (|parts| > 1 ==> AfterAll(TOP, parts[0]) == TOP) && Parts(parts[1..])
  {
    hide Whole, AfterAll;
  }

  lemma EntryIs(s: string)
    ensures Entry(s) <==> Alone(s) && AfterAll(TOP, s) == TOP
  {
  }

  lemma {:induction false} TidyGivesList(parts: seq<string>)
    requires Parts(parts)
    ensures EntryList(Tidy(parts))
  {
    hide Strip, Whole, AfterAll, Alone, Parts, EntryList, Entry;
    if parts == [] {
      EmptyList();
    } else {
      PartsTail(parts);
      TidyGivesList(parts[1..]);
      var entry, rest := Strip(parts[0], Space), Tidy(parts[1..]);
      if entry == "" {
        assert [] + rest == rest;
      } else {
        StripKeepsAlone(parts[0]);
        EntryIs(entry);
        ListPrepend(entry, rest);
      }
    }
  }

  lemma EmptyList()
    ensures EntryList([])
  {
  }

  lemma ListPrepend(entry: string, rest: seq<string>)
    requires Alone(entry) && EntryList(rest) && (rest != [] ==> AfterAll(TOP, entry) == TOP)
    ensures EntryList([entry] + rest)
  {
    hide Alone, AfterAll;
    var all := [entry] + rest;
    forall i | 1 <= i < |all| ensures Alone(all[i]) && (i < |all| - 1 ==> AfterAll(TOP, all[i]) == TOP) {
      assert all[i] == rest[i - 1];
    }
  }

  /** A joined list is split into the same list exactly when its entries stand alone, all but the last closed. */
  lemma EntriesInvertJoinIff(entries: seq<string>)
    requires entries != []
    ensures Entries(Join(entries, ",")) == entries <==> EntryList(entries)
  {
    hide EntryList, Join, Tidy, SplitFrom, Whole, Parts;
    EmptyPart();
    SplitGivesParts(Join(entries, ","), "");
    TidyGivesList(SplitFrom(Join(entries, ","), "", TOP));
    if EntryList(entries) { EntriesInvertJoin(entries); }
  }

  /** A message's entries: those of every line, in order. */
  function AllEntries(lines: seq<string>): seq<string> {
    if lines == [] then [] else Entries(lines[0]) + AllEntries(lines[1..])
  }

  function Lines(groups: seq<seq<string>>): seq<string> {
    if groups == [] then [] else [Join(groups[0], ",")] + Lines(groups[1..])
  }

  function Flatten(groups: seq<seq<string>>): seq<string> {
    if groups == [] then [] else groups[0] + Flatten(groups[1..])
  }

  /** However the entries are grouped into lines, what is read is the entries in order. */
  lemma {:induction false} GroupingIrrelevant(groups: seq<seq<string>>)
    requires forall g :: g in groups ==> g != [] && forall e :: e in g ==> Entry(e)
    ensures AllEntries(Lines(groups)) == Flatten(groups)
  {
    if groups != [] {
      assert groups[0] in groups && forall g :: g in groups[1..] ==> g in groups;
      assert forall i :: 0 <= i < |groups[0]| ==> groups[0][i] in groups[0];
      EntriesInvertJoin(groups[0]);
      hide Entries, Join, Entry;
      GroupingIrrelevant(groups[1..]);
      assert Lines(groups)[1..] == Lines(groups[1..]);
    }
  }
}
