/**
  The fence around untrusted text in an agent turn.  The caller's words, the callee's name
  and the objective are defanged; the rest of a turn is wording free of angle brackets.
*/
module Spotlight {
  import opened SipText

  const OPEN := "<<<UNTRUSTED_CALLER_TRANSCRIPT>>>"
  const CLOSE := "<<<END_UNTRUSTED_CALLER_TRANSCRIPT>>>"

  function Fence(c: char): string { [c, c, c] }

  function Spread(c: char): string { [c, ' ', c, ' ', c] }

  function Break(s: string, c: char): string { Replace(s, Fence(c), Spread(c)) }

  function DefangFence(text: string): string { Break(Break(text, '<'), '>') }

  /** The words of a text, one space apart. */
  function Collapse(text: string): string {
    if text == "" then ""
    else if Space(text[0]) then Collapse(text[1..])
    else
      var n := WordLength(text);
      var rest := Collapse(text[n..]);
      if rest == "" then text[..n] else text[..n] + " " + rest
  }

  function WordLength(text: string): (n: nat)
    ensures n <= |text| && (text != "" && !Space(text[0]) ==> n > 0)
    ensures forall i :: 0 <= i < n ==> !Space(text[i])
  {
    if text == "" || Space(text[0]) then 0 else 1 + WordLength(text[1..])
  }

  function DefangIdentity(value: string): string { DefangFence(Collapse(value)) }

  /** The trusted wording around the untrusted parts. */
  datatype Wording = Wording(
    preamble: string,
    toCallee: string,               // up to the callee's name
    afterCallee: string,
    toObjective: string,            // up to the objective
    report: string,
    audioTags: string,
    lead: string)                   // the last words before the fence

  predicate Tame(s: string) { '>' !in s }

  predicate TameWording(w: Wording) {
    && Tame(w.preamble) && Tame(w.toCallee) && w.toCallee != "" && Tame(w.afterCallee) && w.afterCallee != ""
    && Tame(w.toObjective) && w.toObjective != "" && Tame(w.report) && Tame(w.audioTags) && Tame(w.lead)
  }

  function Framing(w: Wording, outbound: bool, callee: string, objective: string, audio: bool): string {
    (if outbound then
       w.toCallee + DefangIdentity(callee) + w.afterCallee
       + (if objective != "" then w.toObjective + DefangFence(objective) + "\n" else "") + w.report
     else "")
    + (if audio then w.audioTags else "")
  }

  function Head(w: Wording, outbound: bool, callee: string, objective: string, audio: bool): string {
    w.preamble + Framing(w, outbound, callee, objective, audio) + w.lead + "\n"
  }

  function SpotlightTurn(w: Wording, outbound: bool, callee: string, objective: string, audio: bool, text: string)
    : string
  {
    Head(w, outbound, callee, objective, audio) + OPEN + "\n" + DefangFence(text) + "\n" + CLOSE
  }

  // --- runs of one character ----------------------------------------------------------

  /** How many times c stands at the start. */
  function Lead(s: string, c: char): (n: nat)
    ensures n <= |s|
  {
    if s == "" || s[0] != c then 0 else 1 + Lead(s[1..], c)
  }

  lemma LeadsFence(s: string, c: char)
    ensures Fence(c) <= s <==> Lead(s, c) >= 3
  {
    if |s| >= 3 {
      var t := s[1..];
      var u := t[1..];
      assert t[0] == s[1] && u[0] == s[2];
      assert Lead(t, c) >= 2 <==> t[0] == c && Lead(u, c) >= 1;
    }
  }

  /** Left-to-right replacement, a step at a time. */
  lemma BreakStep(s: string, c: char)
    ensures Lead(s, c) >= 3 ==> Break(s, c) == Spread(c) + Break(s[3..], c)
    ensures s != "" && Lead(s, c) < 3 ==> Break(s, c) == [s[0]] + Break(s[1..], c)
  {
    LeadsFence(s, c);
  }

  lemma SpreadLead(c: char, rest: string)
    requires c != ' '
    ensures Lead(Spread(c) + rest, c) == 1
  {
    assert (Spread(c) + rest)[1..][0] == ' ';
  }

  /** A long run starts with a single bracket once broken; a short one is left as it is. */
  lemma {:induction false} BrokenLead(s: string, c: char)
    requires c != ' '
    ensures Lead(Break(s, c), c) == if Lead(s, c) >= 3 then 1 else Lead(s, c)
  {
    if s != "" {
      BreakStep(s, c);
      if Lead(s, c) >= 3 {
        SpreadLead(c, Break(s[3..], c));
      } else {
        BrokenLead(s[1..], c);
        assert Break(s, c)[1..] == Break(s[1..], c);
      }
    }
  }

  lemma {:induction false} LeadConcat(a: string, b: string, c: char)
    requires Lead(a, c) < |a|
    ensures Lead(a + b, c) == Lead(a, c)
  {
    assert (a + b)[0] == a[0];
    if a[0] == c {
      assert (a + b)[1..] == a[1..] + b;
      LeadConcat(a[1..], b, c);
    }
  }

  // --- what defanged text cannot contain -------------------------------------------------

  /** Nowhere a `T>>>`, the end of either marker. */
  predicate Safe(s: string) { s == "" || ((s[0] == 'T' ==> Lead(s[1..], '>') < 3) && Safe(s[1..])) }

  lemma {:induction false} BrokenSafe(s: string)
    ensures Safe(Break(s, '>')) && Lead(Break(s, '>'), '>') < 3
    decreases |s|
  {
    BrokenLead(s, '>');
    if s != "" {
      BreakStep(s, '>');
      if Lead(s, '>') >= 3 {
        BrokenSafe(s[3..]);
        SpreadSafe(Break(s[3..], '>'));
      } else {
        BrokenSafe(s[1..]);
        assert Break(s, '>')[1..] == Break(s[1..], '>');
      }
    }
  }

  lemma SpreadSafe(rest: string)
    requires Safe(rest)
    ensures Safe(Spread('>') + rest)
  {
    var a := [' '] + (['>'] + rest);
    var b := [' '] + (['>'] + a);
    PrependSafe('>', rest);
    PrependSafe(' ', ['>'] + rest);
    PrependSafe('>', a);
    PrependSafe(' ', ['>'] + a);
    PrependSafe('>', b);
    assert Spread('>') + rest == ['>'] + b;
  }

  lemma PrependSafe(c: char, rest: string)
    requires c != 'T' && Safe(rest)
    ensures Safe([c] + rest)
  {
    assert ([c] + rest)[1..] == rest;
  }

  lemma {:induction false} TameSafe(s: string)
    requires Tame(s)
    ensures Safe(s) && Lead(s, '>') == 0
  {
    if s != "" { TameSafe(s[1..]); }
  }

  lemma {:induction false} SafeConcat(a: string, b: string)
    requires Safe(a) && Safe(b) && Lead(b, '>') < 3
    requires Tame(a) || Lead(b, '>') == 0
    ensures Safe(a + b)
  {
    if a == "" {
      assert a + b == b;
    } else {
      SafeConcat(a[1..], b);
      assert (a + b)[1..] == a[1..] + b;
      if a[1..] == "" {
        assert a[1..] + b == b;
      } else if Lead(a[1..], '>') < |a| - 1 {
        LeadConcat(a[1..], b, '>');
      } else {
        LeadAll(a[1..], b);
      }
    }
  }

  lemma {:induction false} LeadAll(a: string, b: string)
    requires Lead(a, '>') == |a|
    ensures Lead(a + b, '>') == |a| + Lead(b, '>')
  {
    if a == "" {
      assert a + b == b;
    } else {
      assert (a + b)[1..] == a[1..] + b;
      LeadAll(a[1..], b);
    }
  }

  lemma {:induction false} SafeAt(s: string, i: nat)
    requires Safe(s) && i < |s| && s[i] == 'T'
    ensures Lead(s[i + 1..], '>') < 3
  {
    if i > 0 {
      assert s[1..][i - 1] == s[i] && s[1..][i..] == s[i + 1..];
      SafeAt(s[1..], i - 1);
    }
  }

  // --- the markers of a turn -----------------------------------------------------------------

  predicate At(s: string, marker: string, p: nat) { p + |marker| <= |s| && s[p..p + |marker|] == marker }

  predicate EndsMarker(s: string, i: nat) { i < |s| && s[i] == 'T' && Lead(s[i + 1..], '>') >= 3 }

  lemma MarkerEnds(s: string, p: nat)
    ensures At(s, OPEN, p) ==> EndsMarker(s, p + |OPEN| - 4)
    ensures At(s, CLOSE, p) ==> EndsMarker(s, p + |CLOSE| - 4)
  {
    if At(s, OPEN, p) { TailLeads(s, OPEN, p); }
    if At(s, CLOSE, p) { TailLeads(s, CLOSE, p); }
  }

  lemma TailLeads(s: string, marker: string, p: nat)
    requires At(s, marker, p) && |marker| >= 4 && marker[|marker| - 4..] == "T>>>"
    ensures EndsMarker(s, p + |marker| - 4)
  {
    var i := p + |marker| - 4;
    assert s[i] == marker[|marker| - 4] == marker[|marker| - 4..][0];
    var rest := s[i + 1..];
    assert forall k :: 0 <= k < 3 ==> rest[k] == marker[|marker| - 3 + k] == marker[|marker| - 4..][1 + k];
    LeadsFence(rest, '>');
    assert rest[..3] == ">>>";
  }

  lemma EndsShift(p: string, s: string, k: nat)
    ensures EndsMarker(p + s, |p| + k) <==> EndsMarker(s, k)
  {
    if k < |s| { assert (p + s)[|p| + k + 1..] == s[k + 1..]; }
  }

  /** No marker ends inside a safe stretch, whatever follows it. */
  lemma NoEndInside(a: string, rest: string, i: nat)
    requires Safe(a) && i < |a| - 1 && a[|a| - 1] == 'T'
    ensures !EndsMarker(a + rest, i)
  {
    hide Lead, Safe;
    assert (a + rest)[i] == a[i];
    if a[i] == 'T' {
      var tail := a[i + 1..];
      SafeAt(a, i);
      assert tail[|tail| - 1] == 'T';
      LeadBlocked(tail, '>');
      LeadConcat(tail, rest, '>');
      assert (a + rest)[i + 1..] == tail + rest;
    }
  }

  /** Past a stretch and its `>>>` a marker ends only where one ends in what follows. */
  lemma EndsAfter(a: string, rest: string, i: nat)
    requires EndsMarker(a + (">>>" + rest), i) && i >= |a|
    ensures i >= |a| + 3 && EndsMarker(rest, i - |a| - 3)
  {
    EndsShift(a, ">>>" + rest, i - |a|);
    assert (">>>" + rest)[i - |a|] == 'T';
    hide EndsMarker;
    EndsShift(">>>", rest, i - |a| - 3);
  }

  /** Two safe stretches, each followed by `>>>`, end markers at their own ends and nowhere else. */
  lemma TwoEnds(a: string, b: string, i: nat)
    requires Safe(a) && Safe(b) && a != "" && b != "" && a[|a| - 1] == 'T' && b[|b| - 1] == 'T'
    requires EndsMarker(a + (">>>" + (b + ">>>")), i)
    ensures i == |a| - 1 || i == |a| + 3 + |b| - 1
  {
    hide EndsMarker, Safe;
    if i < |a| - 1 {
      NoEndInside(a, ">>>" + (b + ">>>"), i);
    } else if i >= |a| {
      EndsAfter(a, b + ">>>", i);
      var k := i - |a| - 3;
      if k < |b| - 1 {
        NoEndInside(b, ">>>", k);
      } else if k >= |b| {
        assert b + ">>>" == b + (">>>" + "");
        EndsAfter(b, "", k);
        NoEndInEmpty(k - |b| - 3);
      }
    }
  }

  lemma NoEndInEmpty(i: nat)
    ensures !EndsMarker("", i)
  {
  }

  lemma {:induction false} LeadBlocked(s: string, c: char)
    requires s != "" && s[|s| - 1] != c
    ensures Lead(s, c) < |s|
  {
    if s[0] == c { LeadBlocked(s[1..], c); }
  }

  /** Safe, and nothing in front of it can run into a bracket of its own. */
  predicate Block(s: string) { Safe(s) && Lead(s, '>') == 0 }

  lemma BlockConcat(a: string, b: string)
    requires Block(a) && Block(b)
    ensures Block(a + b)
  {
    SafeConcat(a, b);
    if a != "" { assert (a + b)[0] == a[0]; } else { assert a + b == b; }
  }

  lemma TameBlock(s: string)
    requires Tame(s)
    ensures Block(s)
  {
    TameSafe(s);
  }

  lemma UntrustedBlock(before: string, text: string)
    requires Tame(before) && before != ""
    ensures Block(before + DefangFence(text))
  {
    BrokenSafe(Break(text, '<'));
    TameSafe(before);
    SafeConcat(before, DefangFence(text));
    assert (before + DefangFence(text))[0] == before[0];
  }

  lemma ObjectiveBlock(w: Wording, objective: string)
    requires TameWording(w)
    ensures Block(if objective != "" then w.toObjective + DefangFence(objective) + "\n" else "")
  {
    if objective != "" {
      UntrustedBlock(w.toObjective, objective);
      TameBlock("\n");
      hide Block, DefangFence;
      BlockConcat(w.toObjective + DefangFence(objective), "\n");
    }
  }

  lemma OutboundBlock(w: Wording, callee: string, objective: string)
    requires TameWording(w)
    ensures Block(w.toCallee + DefangIdentity(callee) + w.afterCallee
                  + (if objective != "" then w.toObjective + DefangFence(objective) + "\n" else "") + w.report)
  {
    UntrustedBlock(w.toCallee, Collapse(callee));
    TameBlock(w.afterCallee);
    TameBlock(w.report);
    ObjectiveBlock(w, objective);
    hide Block, DefangFence, Collapse;
    var named := w.toCallee + DefangIdentity(callee);
    var framed := if objective != "" then w.toObjective + DefangFence(objective) + "\n" else "";
    BlockConcat(named, w.afterCallee);
    BlockConcat(named + w.afterCallee, framed);
    BlockConcat(named + w.afterCallee + framed, w.report);
  }

  lemma HeadBlock(w: Wording, outbound: bool, callee: string, objective: string, audio: bool)
    requires TameWording(w)
    ensures Block(Head(w, outbound, callee, objective, audio))
  {
    TameBlock(w.preamble);
    TameBlock(w.audioTags);
    TameBlock("");
    TameBlock(w.lead);
    TameBlock("\n");
    OutboundBlock(w, callee, objective);
    hide Block, DefangFence, DefangIdentity, Collapse;
    var first := if outbound then
      w.toCallee + DefangIdentity(callee) + w.afterCallee
      + (if objective != "" then w.toObjective + DefangFence(objective) + "\n" else "") + w.report
      else "";
    var second := if audio then w.audioTags else "";
    BlockConcat(first, second);
    BlockConcat(w.preamble, first + second);
    BlockConcat(w.preamble + (first + second), w.lead);
    BlockConcat(w.preamble + (first + second) + w.lead, "\n");
  }

  /** A turn up to the last character before each of its two `>>>`. */
  function BeforeFirst(head: string): string { head + OPEN[..|OPEN| - 3] }

  function BeforeSecond(text: string): string { "\n" + DefangFence(text) + "\n" + CLOSE[..|CLOSE| - 3] }

  lemma TurnParts(head: string, text: string)
    ensures head + OPEN + "\n" + DefangFence(text) + "\n" + CLOSE
         == BeforeFirst(head) + (">>>" + (BeforeSecond(text) + ">>>"))
  {
    hide DefangFence;
    assert OPEN == OPEN[..|OPEN| - 3] + ">>>" && CLOSE == CLOSE[..|CLOSE| - 3] + ">>>";
  }

  lemma PartsSafe(head: string, text: string)
    requires Block(head)
    ensures Safe(BeforeFirst(head)) && Safe(BeforeSecond(text))
    ensures var a, b := BeforeFirst(head), BeforeSecond(text);
            a[|a| - 1] == 'T' && b[|b| - 1] == 'T' && b[0] == '\n'
  {
    var open, close := OPEN[..|OPEN| - 3], CLOSE[..|CLOSE| - 3];
    TameBlock(open);
    TameBlock(close);
    TameBlock("\n");
    UntrustedBlock("\n", text);
    hide DefangFence;
    BlockConcat(head, open);
    BlockConcat("\n" + DefangFence(text), "\n");
    BlockConcat("\n" + DefangFence(text) + "\n", close);
  }

  /**
    For every callee name, objective and transcript: the turn holds the opening marker at
    one place and the closing marker at one place, and between them is exactly the
    defanged transcript on lines of its own.
  */
  lemma MarkersOnce(w: Wording, outbound: bool, callee: string, objective: string, audio: bool, text: string)
    requires TameWording(w)
    ensures var turn := SpotlightTurn(w, outbound, callee, objective, audio, text);
            var open := |Head(w, outbound, callee, objective, audio)|;
            var close := open + |OPEN| + 2 + |DefangFence(text)|;
            && (forall p :: At(turn, OPEN, p) <==> p == open)
            && (forall p :: At(turn, CLOSE, p) <==> p == close)
            && turn[open + |OPEN|..close] == "\n" + DefangFence(text) + "\n"
  {
    var head := Head(w, outbound, callee, objective, audio);
    HeadBlock(w, outbound, callee, objective, audio);
    assert head[|head| - 1] == '\n';
    hide Head, DefangFence, Block;
    MarkersPlaced(head, text);
  }

  lemma MarkersPlaced(head: string, text: string)
    requires Block(head) && head != "" && head[|head| - 1] == '\n'
    ensures var turn := head + OPEN + "\n" + DefangFence(text) + "\n" + CLOSE;
            var close := |head| + |OPEN| + 2 + |DefangFence(text)|;
            && (forall p :: At(turn, OPEN, p) <==> p == |head|)
            && (forall p :: At(turn, CLOSE, p) <==> p == close)
            && turn[|head| + |OPEN|..close] == "\n" + DefangFence(text) + "\n"
  {
    hide DefangFence;
    var d := DefangFence(text);
    var turn := head + OPEN + "\n" + d + "\n" + CLOSE;
    var close := |head| + |OPEN| + 2 + |d|;
    assert turn[|head|..|head| + |OPEN|] == OPEN;
    assert turn[close..close + |CLOSE|] == CLOSE && |turn| == close + |CLOSE|;
    forall p | At(turn, OPEN, p) ensures p == |head| { OpenPlaced(head, text, p); }
    forall p | At(turn, CLOSE, p) ensures p == close { ClosePlaced(head, text, p); }
  }

  /** Where the markers can end, by the lengths of what stands before. */
  lemma EndsPlaced(head: string, text: string, i: nat)
    requires Block(head)
    requires EndsMarker(head + OPEN + "\n" + DefangFence(text) + "\n" + CLOSE, i)
    ensures var open, close := |head|, |head| + |OPEN| + 2 + |DefangFence(text)|;
            i == open + |OPEN| - 4 || i == close + |CLOSE| - 4
  {
    hide DefangFence, EndsMarker, Safe, Block;
    PartsSafe(head, text);
    TurnParts(head, text);
    TwoEnds(BeforeFirst(head), BeforeSecond(text), i);
  }

  lemma OpenPlaced(head: string, text: string, p: nat)
    requires Block(head) && head != "" && head[|head| - 1] == '\n'
    requires At(head + OPEN + "\n" + DefangFence(text) + "\n" + CLOSE, OPEN, p)
    ensures p == |head|
  {
    hide DefangFence, EndsMarker, Block;
    var before := head + OPEN + "\n" + DefangFence(text) + "\n";
    MarkerEnds(before + CLOSE, p);
    EndsPlaced(head, text, p + |OPEN| - 4);
    assert (before + CLOSE)[p] == (before + CLOSE)[p..p + |OPEN|][0] == '<';
    assert (before + CLOSE)[|before| + |CLOSE| - |OPEN|] == CLOSE[|CLOSE| - |OPEN|] == 'N';
  }

  lemma ClosePlaced(head: string, text: string, p: nat)
    requires Block(head) && head != "" && head[|head| - 1] == '\n'
    requires At(head + OPEN + "\n" + DefangFence(text) + "\n" + CLOSE, CLOSE, p)
    ensures p == |head| + |OPEN| + 2 + |DefangFence(text)|
  {
    hide DefangFence, EndsMarker, Block;
    var turn := head + OPEN + "\n" + DefangFence(text) + "\n" + CLOSE;
    MarkerEnds(turn, p);
    EndsPlaced(head, text, p + |CLOSE| - 4);
    assert turn[p + 3] == turn[p..p + |CLOSE|][3] == 'E';
    assert turn[|head| - 1] == head[|head| - 1] == '\n';
  }

  // --- what defanging promises and does not keep ----------------------------------------------

  predicate HasFence(s: string, c: char) { s != "" && (Lead(s, c) >= 3 || HasFence(s[1..], c)) }

  /** A longest run of c in s, of five, eight, eleven and so on. */
  predicate OddRun(s: string, c: char)
    decreases |s|
  {
    s != "" && (var k := Lead(s, c);
                if k == 0 then OddRun(s[1..], c) else Odd(k) || OddRun(s[k..], c))
  }

  /** A run and what follows it. */
  lemma OddRunOf(s: string, c: char)
    requires Lead(s, c) > 0
    ensures OddRun(s, c) <==> Odd(Lead(s, c)) || OddRun(s[Lead(s, c)..], c)
  {
  }

  predicate Odd(k: nat) { k >= 5 && k % 3 == 2 }

  lemma OddStep(k: nat)
    requires k >= 3
    ensures Odd(k) <==> k == 5 || Odd(k - 3)
  {
  }

  lemma OddRunStep(s: string, c: char)
    requires Lead(s, c) >= 3
    ensures OddRun(s, c) <==> Lead(s, c) == 5 || OddRun(s[3..], c)
  {
    hide OddRun, Odd, Lead;
    var k := Lead(s, c);
    LeadRest(s, c, 3);
    OddRunOf(s, c);
    OddStep(k);
    if k > 3 {
      OddRunOf(s[3..], c);
      assert s[3..][k - 3..] == s[k..];
    } else {
      assert !Odd(0) by { SmallNotOdd(); }
    }
  }

  lemma SmallNotOdd()
    ensures !Odd(0)
  {
  }

  lemma {:induction false} LeadRest(s: string, c: char, k: nat)
    requires k <= Lead(s, c)
    ensures Lead(s[k..], c) == Lead(s, c) - k
  {
    if k > 0 {
      LeadRest(s[1..], c, k - 1);
      assert s[1..][k - 1..] == s[k..];
    }
  }

  lemma PrependFence(x: char, rest: string, c: char)
    ensures HasFence([x] + rest, c) <==> HasFence(rest, c) || (x == c && Lead(rest, c) >= 2)
    ensures Lead([x] + rest, c) == if x == c then 1 + Lead(rest, c) else 0
  {
    assert ([x] + rest)[1..] == rest;
  }

  lemma SpreadFence(c: char, rest: string)
    requires c != ' '
    ensures HasFence(Spread(c) + rest, c) <==> Lead(rest, c) >= 2 || HasFence(rest, c)
  {
    var a := [' '] + ([c] + rest);
    var b := [' '] + ([c] + a);
    PrependFence(c, rest, c);
    PrependFence(' ', [c] + rest, c);
    PrependFence(c, a, c);
    PrependFence(' ', [c] + a, c);
    PrependFence(c, b, c);
    hide HasFence, Lead;
    assert Spread(c) + rest == [c] + b;
  }

  /** A fence is left over exactly by a run of five, eight, eleven ... brackets. */
  lemma {:induction false} FenceLeftIff(s: string, c: char)
    requires c != ' '
    ensures HasFence(Break(s, c), c) <==> OddRun(s, c)
    decreases |s|
  {
    if s != "" {
      BreakStep(s, c);
      if Lead(s, c) >= 3 {
        OddRunStep(s, c);
        LeadRest(s, c, 3);
        FenceLeftIff(s[3..], c);
        BrokenLead(s[3..], c);
        SpreadFence(c, Break(s[3..], c));
      } else {
        FenceLeftIff(s[1..], c);
        BrokenLead(s, c);
        assert Break(s, c)[1..] == Break(s[1..], c);
        ShortRun(s, c);
      }
    }
  }

  lemma ShortRun(s: string, c: char)
    requires s != "" && Lead(s, c) < 3
    ensures OddRun(s, c) <==> OddRun(s[1..], c)
  {
    var k := Lead(s, c);
    if k > 0 {
      LeadRest(s, c, 1);
      assert s[1..][k - 1..] == s[k..];
    }
  }

  // --- the two replacements do not meet ----------------------------------------------------------

  lemma {:induction false} OtherLead(s: string, c: char, d: char)
    requires c != d && c != ' ' && d != ' '
    ensures Lead(Break(s, c), d) == Lead(s, d)
    decreases |s|
  {
    if s != "" {
      BreakStep(s, c);
      if Lead(s, c) < 3 {
        OtherLead(s[1..], c, d);
        assert Break(s, c)[1..] == Break(s[1..], c);
      }
    }
  }

  lemma {:induction false} OtherFence(s: string, c: char, d: char)
    requires c != d && c != ' ' && d != ' '
    ensures HasFence(Break(s, c), d) <==> HasFence(s, d)
    decreases |s|
  {
    if s != "" {
      BreakStep(s, c);
      if Lead(s, c) >= 3 {
        OtherFence(s[3..], c, d);
        SpreadOther(c, d, Break(s[3..], c));
        ThreeOther(s, c, d);
      } else {
        OtherFence(s[1..], c, d);
        OtherLead(s[1..], c, d);
        PrependFence(s[0], Break(s[1..], c), d);
        PrependFence(s[0], s[1..], d);
        assert [s[0]] + s[1..] == s;
      }
    }
  }

  lemma SpreadOther(c: char, d: char, rest: string)
    requires c != d && d != ' '
    ensures HasFence(Spread(c) + rest, d) <==> HasFence(rest, d)
  {
    var a := [' '] + ([c] + rest);
    var b := [' '] + ([c] + a);
    PrependFence(c, rest, d);
    PrependFence(' ', [c] + rest, d);
    PrependFence(c, a, d);
    PrependFence(' ', [c] + a, d);
    PrependFence(c, b, d);
    hide HasFence, Lead;
    assert Spread(c) + rest == [c] + b;
  }

  lemma ThreeOther(s: string, c: char, d: char)
    requires c != d && Lead(s, c) >= 3
    ensures HasFence(s, d) <==> HasFence(s[3..], d)
  {
    LeadsFence(s, c);
    PrependFence(c, s[3..], d);
    PrependFence(c, [c] + s[3..], d);
    PrependFence(c, [c] + ([c] + s[3..]), d);
    hide HasFence, Lead;
    assert s == [c] + ([c] + ([c] + s[3..]));
  }

  /** Text without a fence is left as it is. */
  lemma {:induction false} NothingToBreak(s: string, c: char)
    requires !HasFence(s, c)
    ensures Break(s, c) == s
  {
    if s != "" {
      BreakStep(s, c);
      NothingToBreak(s[1..], c);
    }
  }

  /** ... and text with one grows. */
  lemma {:induction false} BreakGrows(s: string, c: char)
    ensures |Break(s, c)| >= |s|
    ensures HasFence(s, c) ==> |Break(s, c)| > |s|
    decreases |s|
  {
    if s != "" {
      BreakStep(s, c);
      if Lead(s, c) >= 3 { BreakGrows(s[3..], c); } else { BreakGrows(s[1..], c); }
    }
  }

  lemma {:induction false} BreaksCommute(s: string, c: char, d: char)
    requires c != d && c != ' ' && d != ' '
    ensures Break(Break(s, c), d) == Break(Break(s, d), c)
    decreases |s|
  {
    if s != "" {
      BreakStep(s, c);
      BreakStep(s, d);
      if Lead(s, c) >= 3 {
        BreaksCommute(s[3..], c, d);
        BreakPast(s, c, d);
      } else if Lead(s, d) >= 3 {
        BreaksCommute(s[3..], c, d);
        BreakPast(s, d, c);
      } else {
        BreaksCommute(s[1..], c, d);
        BreakOn(s, c, d);
        BreakOn(s, d, c);
      }
    }
  }

  /** Breaking d passes over a run of c, broken or not. */
  lemma BreakPast(s: string, c: char, d: char)
    requires c != d && c != ' ' && d != ' ' && Lead(s, c) >= 3
    ensures Break(Break(s, c), d) == Spread(c) + Break(Break(s[3..], c), d)
    ensures Break(Break(s, d), c) == Spread(c) + Break(Break(s[3..], d), c)
  {
    hide Break, Lead;
    BreakStep(s, c);
    PassSpread(c, Break(s[3..], c), d);
    LeadsFence(s, c);
    assert s == Fence(c) + s[3..];
    PassFence(c, s[3..], d);
    var v := Fence(c) + Break(s[3..], d);
    LeadsFence(v, c);
    assert Fence(c) <= v && v[3..] == Break(s[3..], d);
    BreakStep(v, c);
  }

  lemma PassSpread(c: char, rest: string, d: char)
    requires c != d && d != ' '
    ensures Break(Spread(c) + rest, d) == Spread(c) + Break(rest, d)
  {
    hide Break;
    var a := [' '] + ([c] + rest);
    var b := [' '] + ([c] + a);
    PassOver(c, rest, d);
    PassOver(' ', [c] + rest, d);
    PassOver(c, a, d);
    PassOver(' ', [c] + a, d);
    PassOver(c, b, d);
    assert Spread(c) + rest == [c] + b;
    assert Spread(c) + Break(rest, d) == [c] + ([' '] + ([c] + ([' '] + ([c] + Break(rest, d)))));
  }

  lemma PassFence(c: char, rest: string, d: char)
    requires c != d
    ensures Break(Fence(c) + rest, d) == Fence(c) + Break(rest, d)
  {
    hide Break;
    PassOver(c, rest, d);
    PassOver(c, [c] + rest, d);
    PassOver(c, [c] + ([c] + rest), d);
    assert Fence(c) + rest == [c] + ([c] + ([c] + rest));
    assert Fence(c) + Break(rest, d) == [c] + ([c] + ([c] + Break(rest, d)));
  }

  lemma PassOver(x: char, rest: string, d: char)
    requires x != d
    ensures Break([x] + rest, d) == [x] + Break(rest, d)
  {
    hide Break;
    BreakStep([x] + rest, d);
    assert ([x] + rest)[1..] == rest && Lead([x] + rest, d) == 0;
  }

  lemma BreakOn(s: string, c: char, d: char)
    requires c != d && c != ' ' && d != ' ' && s != "" && Lead(s, c) < 3 && Lead(s, d) < 3
    ensures Break(Break(s, c), d) == [s[0]] + Break(Break(s[1..], c), d)
  {
    BreakStep(s, c);
    OtherLead(s, c, d);
    BreakStep(Break(s, c), d);
    assert Break(s, c)[1..] == Break(s[1..], c);
  }

  /** Defanged text still holds `<<<` exactly when the text has such a run of `<`; so with `>>>`. */
  lemma DefangLeavesIff(text: string)
    ensures HasFence(DefangFence(text), '<') <==> OddRun(text, '<')
    ensures HasFence(DefangFence(text), '>') <==> OddRun(text, '>')
  {
    OtherFence(Break(text, '<'), '>', '<');
    FenceLeftIff(text, '<');
    BreaksCommute(text, '<', '>');
    OtherFence(Break(text, '>'), '<', '>');
    FenceLeftIff(text, '>');
  }

  /** Defanging twice is defanging once exactly for text without such runs. */
  lemma DefangIdempotentIff(text: string)
    ensures DefangFence(DefangFence(text)) == DefangFence(text) <==> !OddRun(text, '<') && !OddRun(text, '>')
  {
    var d := DefangFence(text);
    DefangLeavesIff(text);
    hide DefangFence;
    if !HasFence(d, '<') {
      NothingToBreak(d, '<');
      if !HasFence(d, '>') { NothingToBreak(d, '>'); } else { BreakGrows(d, '>'); }
    } else {
      BreakGrows(d, '<');
      BreakGrows(Break(d, '<'), '>');
    }
    assert DefangFence(d) == Break(Break(d, '<'), '>') by { DefangIs(d); }
  }

  // --- an identity is put on one line first ----------------------------------------------------

  /** From here on white space is single spaces, and never the last character. */
  predicate Flow(t: string) {
    t == "" || ((Space(t[0]) ==> t[0] == ' ' && |t| > 1 && !Space(t[1])) && Flow(t[1..]))
  }

  /** Words one space apart. */
  predicate OneLine(t: string) { (t != "" ==> !Space(t[0])) && Flow(t) }

  lemma FlowPrepend(x: char, rest: string)
    ensures Flow([x] + rest) <==> (Space(x) ==> x == ' ' && rest != "" && !Space(rest[0])) && Flow(rest)
  {
    assert ([x] + rest)[1..] == rest;
  }

  lemma {:induction false} WordFlows(word: string, rest: string)
    requires forall i :: 0 <= i < |word| ==> !Space(word[i])
    ensures Flow(word + rest) <==> Flow(rest)
  {
    if word == "" {
      assert word + rest == rest;
    } else {
      FlowPrepend(word[0], word[1..] + rest);
      assert word + rest == [word[0]] + (word[1..] + rest);
      WordFlows(word[1..], rest);
    }
  }

  lemma {:induction false} CollapseGivesLine(text: string)
    ensures OneLine(Collapse(text))
    decreases |text|
  {
    if text != "" {
      if Space(text[0]) {
        CollapseGivesLine(text[1..]);
      } else {
        var n := WordLength(text);
        var word, rest := text[..n], Collapse(text[n..]);
        CollapseGivesLine(text[n..]);
        hide Space;
        if rest == "" {
          WordFlows(word, "");
          assert word + "" == word;
        } else {
          FlowPrepend(' ', rest);
          WordFlows(word, " " + rest);
          assert word + " " + rest == word + (" " + rest);
        }
      }
    }
  }

  lemma {:induction false} FlowSuffix(t: string, n: nat)
    requires Flow(t) && n <= |t|
    ensures Flow(t[n..])
  {
    if n > 0 {
      FlowSuffix(t[1..], n - 1);
      assert t[1..][n - 1..] == t[n..];
    }
  }

  /** Such a line is collapsed into itself. */
  lemma {:induction false} LineCollapses(t: string)
    requires OneLine(t)
    ensures Collapse(t) == t
    decreases |t|
  {
    if t != "" {
      var n := WordLength(t);
      FlowSuffix(t, n);
      var tail := t[n..];
      if tail == "" {
        assert t[..n] == t;
      } else {
        WordEnds(t);
        assert tail[0] == ' ' && !Space(tail[1..][0]);
        LineCollapses(tail[1..]);
        assert Collapse(tail) == tail[1..];
        assert t == t[..n] + " " + tail[1..];
      }
    }
  }

  lemma {:induction false} WordEnds(t: string)
    ensures WordLength(t) < |t| ==> Space(t[WordLength(t)])
  {
    if t != "" && !Space(t[0]) { WordEnds(t[1..]); }
  }

  /** Breaking brackets up keeps a line one. */
  lemma {:induction false} BreakFlows(s: string, c: char)
    requires !Space(c) && Flow(s)
    ensures Flow(Break(s, c)) && (s != "" ==> Break(s, c) != "" && Break(s, c)[0] == s[0])
    decreases |s|
  {
    if s != "" {
      BreakStep(s, c);
      if Lead(s, c) >= 3 {
        LeadsFence(s, c);
        assert s[0] == c by { assert Fence(c) <= s; }
        FlowSuffix(s, 3);
        BreakFlows(s[3..], c);
        SpreadFlows(c, Break(s[3..], c));
      } else {
        FlowSuffix(s, 1);
        BreakFlows(s[1..], c);
        FlowPrepend(s[0], s[1..]);
        FlowPrepend(s[0], Break(s[1..], c));
        assert [s[0]] + s[1..] == s;
      }
    }
  }

  lemma SpreadFlows(c: char, rest: string)
    requires !Space(c) && Flow(rest)
    ensures Flow(Spread(c) + rest)
  {
    var a := [' '] + ([c] + rest);
    var b := [' '] + ([c] + a);
    FlowPrepend(c, rest);
    FlowPrepend(' ', [c] + rest);
    FlowPrepend(c, a);
    FlowPrepend(' ', [c] + a);
    FlowPrepend(c, b);
    hide Flow;
    assert Spread(c) + rest == [c] + b;
  }

  lemma DefangKeepsLine(t: string)
    requires OneLine(t)
    ensures OneLine(DefangFence(t))
  {
    BreakFlows(t, '<');
    BreakFlows(Break(t, '<'), '>');
    hide Break, Flow;
  }

  /** Defanging an identity twice is defanging it once exactly if, on one line, it has no such run. */
  lemma IdentityIdempotentIff(value: string)
    ensures DefangIdentity(DefangIdentity(value)) == DefangIdentity(value) <==>
              !OddRun(Collapse(value), '<') && !OddRun(Collapse(value), '>')
  {
    hide Collapse, DefangFence, OddRun, OneLine;
    CollapseGivesLine(value);
    DefangKeepsLine(Collapse(value));
    LineCollapses(DefangFence(Collapse(value)));
    DefangIdempotentIff(Collapse(value));
  }

  lemma DefangIs(text: string)
    ensures DefangFence(text) == Break(Break(text, '<'), '>')
  {
  }

  /** Five brackets: the shortest text that defanging does not clear. */
  lemma FiveBracketsLeft()
    ensures DefangFence("<<<<<") == "< < <<<"
    ensures DefangFence(DefangFence("<<<<<")) != DefangFence("<<<<<")
  {
    hide Break, HasFence, OddRun;
    TwoBrackets();
    assert "<<<<<"[3..] == "<<" && Fence('<') <= "<<<<<";
    LeadsFence("<<<<<", '<');
    BreakStep("<<<<<", '<');
    assert Spread('<') + "<<" == "< < <<<";
    assert Break("<<<<<", '<') == "< < <<<";
    TameUnbroken("< < <<<");
    DefangIdempotentIff("<<<<<");
    FiveIsOdd();
  }

  lemma TwoBrackets()
    ensures Break("<<", '<') == "<<"
  {
    assert "<<"[1..] == "<" && "<"[1..] == "";
    NothingToBreak("<<", '<');
  }

  lemma FiveIsOdd()
    ensures OddRun("<<<<<", '<')
  {
    var s := "<<<<<";
    assert s[3..] == "<<" && Fence('<') <= s;
    LeadsFence(s, '<');
    LeadRest(s, '<', 3);
    assert Lead("<<", '<') == 2 by { assert "<<"[1..] == "<" && "<"[1..] == ""; }
    OddRunStep(s, '<');
  }

  lemma TameUnbroken(s: string)
    requires Tame(s)
    ensures Break(s, '>') == s
  {
    TameNoFence(s);
    NothingToBreak(s, '>');
  }

  lemma {:induction false} TameNoFence(s: string)
    requires Tame(s)
    ensures !HasFence(s, '>')
  {
    if s != "" { TameNoFence(s[1..]); }
  }
}
