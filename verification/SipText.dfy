/** String vocabulary shared by the SIP text modules: white space, stripping, joining, ASCII case. */
module SipText {

  /** What Python's str.isspace() accepts. */
  predicate Space(c: char) {
    || 9 as char <= c <= 13 as char || 28 as char <= c <= ' ' || c == '\U{85}' || c == '\U{a0}' || c == '\U{1680}'
    || '\U{2000}' <= c <= '\U{200a}' || c == '\U{2028}' || c == '\U{2029}' || c == '\U{202f}' || c == '\U{205f}'
    || c == '\U{3000}'
  }

  /** SP and HTAB, all the white space a header keeps after unfolding. */
  predicate Lws(c: char) { c == ' ' || c == '\t' }

  predicate Digit(c: char) { '0' <= c <= '9' }

  /** ASCII characters of a word. */
  predicate Word(c: char) { 'a' <= c <= 'z' || 'A' <= c <= 'Z' || Digit(c) || c == '_' }

  function StripLeft(s: string, blank: char -> bool): (r: string)
    ensures r != "" ==> !blank(r[0])
    ensures |r| <= |s| && r == s[|s| - |r|..]
  {
    if s != "" && blank(s[0]) then StripLeft(s[1..], blank) else s
  }

  function StripRight(s: string, blank: char -> bool): (r: string)
    ensures r != "" ==> !blank(r[|r| - 1])
    ensures |r| <= |s| && r == s[..|r|]
  {
    if s != "" && blank(s[|s| - 1]) then StripRight(s[..|s| - 1], blank) else s
  }

  function Strip(s: string, blank: char -> bool): (r: string)
    ensures r != "" ==> !blank(r[0]) && !blank(r[|r| - 1])
  {
    StripRight(StripLeft(s, blank), blank)
  }

  predicate Trimmed(s: string, blank: char -> bool) { s != "" ==> !blank(s[0]) && !blank(s[|s| - 1]) }

  /** Stripping leaves a string alone exactly when it is trimmed. */
  lemma StripIff(s: string, blank: char -> bool)
    ensures Strip(s, blank) == s <==> Trimmed(s, blank)
  {
  }

  /** White space before a trimmed string is what stripping takes away again. */
  lemma {:induction false} StripLeftPadded(left: string, s: string, blank: char -> bool)
    requires (s != "" ==> !blank(s[0])) && forall i :: 0 <= i < |left| ==> blank(left[i])
    ensures StripLeft(left + s, blank) == s
  {
    if left == "" {
      assert left + s == s;
    } else {
      assert (left + s)[1..] == left[1..] + s;
      StripLeftPadded(left[1..], s, blank);
    }
  }

  lemma {:induction false} StripRightPadded(s: string, right: string, blank: char -> bool)
    requires (s != "" ==> !blank(s[|s| - 1])) && forall i :: 0 <= i < |right| ==> blank(right[i])
    ensures StripRight(s + right, blank) == s
    decreases |right|
  {
    if right == "" {
      assert s + right == s;
    } else {
      var n := |right| - 1;
      assert (s + right)[..|s| + n] == s + right[..n];
      StripRightPadded(s, right[..n], blank);
    }
  }

  lemma StripSubset(s: string, c: char, blank: char -> bool)
    requires c !in s
    ensures c !in Strip(s, blank)
  {
  }

  function LowerChar(c: char): char { if 'A' <= c <= 'Z' then ((c as int) + 32) as char else c }

  function Lower(s: string): (r: string)
    ensures |r| == |s| && forall i :: 0 <= i < |s| ==> r[i] == LowerChar(s[i])
  {
    if s == "" then "" else [LowerChar(s[0])] + Lower(s[1..])
  }

  function Join(parts: seq<string>, separator: string): string {
    if parts == [] then ""
    else if |parts| == 1 then parts[0]
    else parts[0] + separator + Join(parts[1..], separator)
  }

  lemma JoinCons(first: string, rest: seq<string>, separator: string)
    ensures Join([first] + rest, separator) ==
              if rest == [] then first + "" else first + (separator + Join(rest, separator))
  {
    var all := [first] + rest;
    assert all[0] == first && all[1..] == rest;
    if rest != [] { Regroup(first, separator, Join(rest, separator)); }
  }

  lemma Regroup(a: string, b: string, c: string)
    ensures a + b + c == a + (b + c)
  {
  }

  lemma {:induction false} JoinConcat(xs: seq<string>, ys: seq<string>, separator: string)
    requires xs != [] && ys != []
    ensures Join(xs + ys, separator) == Join(xs, separator) + separator + Join(ys, separator)
  {
    if |xs| == 1 {
      assert (xs + ys)[1..] == ys;
    } else {
      assert (xs + ys)[1..] == xs[1..] + ys;
      JoinConcat(xs[1..], ys, separator);
      assert xs[0] + separator + (Join(xs[1..], separator) + separator + Join(ys, separator))
          == (xs[0] + separator + Join(xs[1..], separator)) + separator + Join(ys, separator);
    }
  }

  /** The first position of a character from `at` on, or the length. */
  function Find(s: string, c: char, at: nat): (r: nat)
    requires at <= |s|
    ensures at <= r <= |s|
    ensures r < |s| ==> s[r] == c
    ensures forall i :: at <= i < r ==> s[i] != c
    decreases |s| - at
  {
    if at == |s| || s[at] == c then at else Find(s, c, at + 1)
  }

  lemma FindFirst(s: string, c: char, at: nat, k: nat)
    requires at <= k < |s| && s[k] == c && forall i :: at <= i < k ==> s[i] != c
    ensures Find(s, c, at) == k
  {
  }

  lemma CutAt(left: string, c: char, right: string)
    requires c !in left
    ensures var s := left + [c] + right;
            Find(s, c, 0) == |left| && s[..|left|] == left && s[|left| + 1..] == right
  {
    var s := left + [c] + right;
    assert forall i :: 0 <= i < |left| ==> s[i] == left[i];
    FindFirst(s, c, 0, |left|);
  }

  /** str.split: the parts between the separators, of which no part contains one. */
  function SplitOn(s: string, c: char): (parts: seq<string>)
    ensures parts != [] && forall i :: 0 <= i < |parts| ==> c !in parts[i]
    decreases |s|
  {
    var k := Find(s, c, 0);
    if k == |s| then [s] else [s[..k]] + SplitOn(s[k + 1..], c)
  }

  lemma SplitOnce(left: string, c: char, right: string)
    requires c !in left
    ensures SplitOn(left + [c] + right, c) == [left] + SplitOn(right, c)
  {
    CutAt(left, c, right);
    hide Find;
  }

  lemma SplitNone(s: string, c: char)
    requires c !in s
    ensures SplitOn(s, c) == [s]
  {
  }

  /** str.replace: every occurrence from left to right, none overlapping another. */
  function Replace(s: string, what: string, with: string): string
    requires what != ""
    decreases |s|
  {
    if s == "" then ""
    else if what <= s then with + Replace(s[|what|..], what, with)
    else [s[0]] + Replace(s[1..], what, with)
  }
}
