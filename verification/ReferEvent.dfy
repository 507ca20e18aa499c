/** The id of an Event header (section 2.4.6 of RFC 3515), from text to the value the transfer is matched by. */
module ReferEvent {
  import opened Wrappers
  import opened SipText
  import opened CallState

  predicate Decimal(s: string) { s != "" && forall i :: 0 <= i < |s| ==> Digit(s[i]) }

  function ValueOf(s: string): nat
    requires forall i :: 0 <= i < |s| ==> Digit(s[i])
  {
    if s == "" then 0
    else
      assert Digit(s[|s| - 1]);
      10 * ValueOf(s[..|s| - 1]) + (s[|s| - 1] as int - '0' as int)
  }

  function ParseDecimal(s: string): Option<nat> {
    if Decimal(s) && ValueOf(s) < MAX_CSEQ then Some(ValueOf(s)) else None
  }

  function DigitOf(n: nat): char
    requires n < 10
  {
    ('0' as int + n) as char
  }

  function PrintDecimal(n: nat): string { if n < 10 then [DigitOf(n)] else PrintDecimal(n / 10) + [DigitOf(n % 10)] }

  lemma {:induction false} PrintedDecimal(n: nat)
    ensures Decimal(PrintDecimal(n)) && ValueOf(PrintDecimal(n)) == n
  {
    if n < 10 {
      assert PrintDecimal(n)[..0] == "";
    } else {
      PrintedDecimal(n / 10);
      var s := PrintDecimal(n);
      assert s[..|s| - 1] == PrintDecimal(n / 10);
    }
  }

  /** An `id=` parameter, and its value. */
  function IdOf(part: string): Option<string> {
    var eq := Find(part, '=', 0);
    if eq < |part| && Lower(Strip(part[..eq], Space)) == "id" then Some(Strip(part[eq + 1..], Space)) else None
  }

  function RawIds(parts: seq<string>): seq<string> {
    if parts == [] then []
    else (if IdOf(parts[0]).Some? then [IdOf(parts[0]).value] else []) + RawIds(parts[1..])
  }

  function Judge(ids: seq<string>): EventId {
    if ids == [] then Absent
    else if |ids| != 1 then Malformed
    else if ParseDecimal(ids[0]).Some? then Id(ParseDecimal(ids[0]).value) else Malformed
  }

  /** What stands between the semicolons, after the package. */
  function Parameters(event: string): seq<string> { SplitOn(event, ';')[1..] }

  function EventIdOf(event: string): EventId { Judge(RawIds(Parameters(event))) }

  method ReferEventId(event: string) returns (id: EventId)
    ensures id == EventIdOf(event)
  {
    hide IdOf, SplitOn, Judge;
    var rawIds: seq<string> := [];
    var parts := Parameters(event);
    for i := 0 to |parts|
      invariant RawIds(parts) == rawIds + RawIds(parts[i..])
    {
      assert parts[i..][0] == parts[i] && parts[i..][1..] == parts[i + 1..];
      var value := IdOf(parts[i]);
      if value.Some? { rawIds := rawIds + [value.value]; }
    }
    assert rawIds + [] == rawIds;
    id := Judge(rawIds);
  }

  lemma IdIsId()
    ensures Lower(Strip("id", Space)) == "id"
  {
    hide Strip;
    StripIff("id", Space);
    assert Lower("id") == "id";
  }

  lemma IdKey(value: string)
    requires Trimmed(value, Space)
    ensures IdOf("id=" + value) == Some(value)
  {
    hide Strip, Find, Lower;
    IdIsId();
    StripIff(value, Space);
    CutAt("id", '=', value);
    assert "id=" + value == "id" + ['='] + value;
  }

  predicate Blank(s: string) { forall i :: 0 <= i < |s| ==> Space(s[i]) }

  /** White space around the name and the value, and the case of the name, make no difference. */
  lemma PaddedIdRead(name: string, value: string, a: string, b: string, c: string, d: string)
    requires Lower(name) == "id" && Blank(a) && Blank(b) && Blank(c) && Blank(d)
    requires value != "" && Trimmed(value, Space) && '=' !in a && '=' !in b
    ensures IdOf(a + name + b + "=" + (c + value + d)) == Some(value)
  {
    var key := a + name + b;
    IdLetters(name);
    StripBoth(a, name, b);
    StripBoth(c, value, d);
    CutAt(key, '=', c + value + d);
    assert key + ['='] + (c + value + d) == a + name + b + "=" + (c + value + d);
    hide Strip, Find, Lower, Blank, Space;
  }

  lemma IdLetters(name: string)
    requires Lower(name) == "id"
    ensures name != "" && Trimmed(name, Space) && '=' !in name
  {
    var low := Lower(name);
    assert |name| == 2 && LowerChar(name[0]) == low[0] == 'i' && LowerChar(name[1]) == low[1] == 'd';
  }

  lemma StripBoth(left: string, s: string, right: string)
    requires s != "" && Trimmed(s, Space) && Blank(left) && Blank(right)
    ensures Strip(left + s + right, Space) == s
  {
    assert left + s + right == left + (s + right) && (s + right)[0] == s[0];
    StripLeftPadded(left, s + right, Space);
    StripRightPadded(s, right, Space);
    hide StripLeft, StripRight;
  }

  lemma IdPart(value: string)
    requires Decimal(value)
    ensures IdOf("id=" + value) == Some(value) && ';' !in "id=" + value
  {
    hide IdOf;
    assert Digit(value[0]) && Digit(value[|value| - 1]);
    IdKey(value);
    assert ';' !in value by { assert forall i :: 0 <= i < |value| ==> Digit(value[i]); }
  }

  lemma OneId(package: string, part: string, value: string)
    requires ';' !in package && ';' !in part && IdOf(part) == Some(value)
    ensures RawIds(Parameters(package + ";" + part)) == [value]
  {
    hide IdOf, SplitOn;
    SplitOnce(package, ';', part);
    SplitNone(part, ';');
    assert ([package] + [part])[1..] == [part] && [part][1..] == [];
  }

  /** The CSeq of a REFER, printed into the Event header of its NOTIFYs, is the one id found there. */
  lemma EventIdRoundTrip(package: string, cseq: nat)
    requires ';' !in package && cseq < MAX_CSEQ
    ensures EventIdOf(package + ";" + ("id=" + PrintDecimal(cseq))) == Id(cseq)
  {
    PrintedDecimal(cseq);
    hide PrintDecimal, IdOf;
    IdPart(PrintDecimal(cseq));
    OneId(package, "id=" + PrintDecimal(cseq), PrintDecimal(cseq));
    hide RawIds, Parameters, Decimal, ValueOf;
  }

  lemma {:induction false} NoRawIds(parts: seq<string>)
    ensures RawIds(parts) == [] <==> forall i :: 0 <= i < |parts| ==> IdOf(parts[i]).None?
  {
    hide IdOf;
    if parts != [] {
      NoRawIds(parts[1..]);
      assert forall i :: 0 <= i < |parts| - 1 ==> parts[1..][i] == parts[i + 1];
    }
  }

  lemma JudgeAbsent(ids: seq<string>)
    ensures Judge(ids) == Absent <==> ids == []
  {
    hide ParseDecimal;
  }

  /** The id is absent, and the header matches any transfer, exactly when no parameter is one by its name. */
  lemma AbsentIff(event: string)
    ensures var parts := Parameters(event);
            EventIdOf(event) == Absent <==> (forall i :: 0 <= i < |parts| ==> IdOf(parts[i]).None?)
  {
    hide IdOf, RawIds, Judge, Parameters;
    var parts := Parameters(event);
    NoRawIds(parts);
    JudgeAbsent(RawIds(parts));
  }

  /** The one parameter by that name. */
  predicate OnlyIdAt(parts: seq<string>, i: int) {
    && 0 <= i < |parts| && IdOf(parts[i]).Some?
    && forall j :: 0 <= j < |parts| && j != i ==> IdOf(parts[j]).None?
  }

  lemma {:induction false} OnlyRawId(parts: seq<string>, i: int)
    requires OnlyIdAt(parts, i)
    ensures RawIds(parts) == [IdOf(parts[i]).value]
  {
    hide IdOf;
    var rest := parts[1..];
    assert forall k :: 0 <= k < |rest| ==> rest[k] == parts[k + 1];
    if i == 0 { NoRawIds(rest); } else { OnlyRawId(rest, i - 1); }
  }

  lemma {:induction false} RawIdAlone(parts: seq<string>) returns (i: int)
    requires |RawIds(parts)| == 1
    ensures OnlyIdAt(parts, i) && IdOf(parts[i]) == Some(RawIds(parts)[0])
  {
    hide IdOf;
    var rest := parts[1..];
    assert forall k :: 0 <= k < |rest| ==> rest[k] == parts[k + 1];
    if IdOf(parts[0]).Some? {
      NoRawIds(rest);
      i := 0;
    } else {
      var k := RawIdAlone(rest);
      i := k + 1;
      assert forall j :: 0 < j < |parts| ==> parts[j] == rest[j - 1];
    }
  }

  lemma JudgeIff(ids: seq<string>, n: nat)
    ensures Judge(ids) == Id(n) <==> |ids| == 1 && ParseDecimal(ids[0]) == Some(n)
    ensures |ids| > 1 ==> Judge(ids) == Malformed
  {
    hide ParseDecimal;
  }

  lemma ParsedIff(s: string, n: nat)
    ensures ParseDecimal(s) == Some(n) <==> Decimal(s) && ValueOf(s) == n && n < MAX_CSEQ
  {
  }

  /** Two parameters by that name, of any values, make the header match no transfer at all. */
  lemma DuplicateIdMalformed(event: string, i: nat, j: nat)
    requires i < j < |Parameters(event)| && IdOf(Parameters(event)[i]).Some? && IdOf(Parameters(event)[j]).Some?
    ensures EventIdOf(event) == Malformed
  {
    hide IdOf, RawIds, Judge, Parameters;
    var parts := Parameters(event);
    NoRawIds(parts);
    if |RawIds(parts)| == 1 { var k := RawIdAlone(parts); }
    JudgeIff(RawIds(parts), 0);
  }

  /** A number is read off a header exactly if one parameter is an id and its value prints that number, below 2^31. */
  lemma IdIff(event: string, n: nat)
    ensures var parts := Parameters(event);
            EventIdOf(event) == Id(n) <==>
            exists i :: OnlyIdAt(parts, i) && Decimal(IdOf(parts[i]).value)
                        && ValueOf(IdOf(parts[i]).value) == n && n < MAX_CSEQ
  {
    hide IdOf, RawIds, Judge, Parameters, Decimal, ValueOf, ParseDecimal;
    var parts := Parameters(event);
    var ids := RawIds(parts);
    JudgeIff(ids, n);
    if |ids| == 1 {
      var k := RawIdAlone(parts);
      ParsedIff(ids[0], n);
    }
    forall i | OnlyIdAt(parts, i) ensures |ids| == 1 && IdOf(parts[i]) == Some(ids[0]) { OnlyRawId(parts, i); }
  }
}
