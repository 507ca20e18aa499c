/**
  Choosing and answering a digest challenge, and the check a verifier makes of the answer
  (section 3.4.1 of RFC 7616).  The hash is any function to control-free text.
*/
module DigestAuth {
  import opened Wrappers
  import opened SipText
  import opened Digest
  import HeaderList

  datatype Challenge =
    Challenge(realm: string, nonce: string, algorithm: string, qop: seq<string>, opaqueValue: Option<string>)

  /** The base hashes; both give hex text. */
  datatype Base = Md5 | Sha256

  type Hash = (Base, string) -> string

  ghost predicate HexOnly(h: Hash) { forall b, s :: ControlFree(h(b, s)) }

  // --- parsing a challenge -----------------------------------------------------------

  function Lookup(params: map<string, string>, name: string): Option<string> {
    if name in params then Some(params[name]) else None
  }

  function ChallengeOf(params: map<string, string>): Result<Challenge> {
    var nonce, realm := Lookup(params, "nonce"), Lookup(params, "realm");
    if nonce.None? || nonce.value == "" then Err("no nonce")
    else if realm.None? || realm.value == "" then Err("no realm")
    else
      var qop := if "qop" in params then HeaderList.Tidy(SplitOn(params["qop"], ',')) else [];
      var algorithm := if "algorithm" in params then params["algorithm"] else "MD5";
      Ok(Challenge(realm.value, nonce.value, algorithm, qop, Lookup(params, "opaque")))
  }

  /** A qop token: not empty, trimmed, and free of the comma that separates them. */
  predicate QopToken(q: string) { q != "" && Trimmed(q, Space) && ',' !in q }

  /** Nonce and realm must be there and not empty; what else is missing has a default. */
  method ParseChallenge(header: string) returns (r: Result<Challenge>)
    ensures r == ChallengeOf(ToMap(Scan(header)))
    ensures var f := ToMap(Scan(header));
            && (r.Ok? <==> "nonce" in f && f["nonce"] != "" && "realm" in f && f["realm"] != "")
            && (r.Ok? ==>
                  && r.value.nonce == f["nonce"] && r.value.realm == f["realm"]
                  && ("algorithm" !in f ==> r.value.algorithm == "MD5") && ("qop" !in f ==> r.value.qop == [])
                  && ("opaque" !in f <==> r.value.opaqueValue.None?)
                  && forall q :: q in r.value.qop ==> QopToken(q))
  {
    var params := ScanParams(header);
    r := ChallengeOf(params);
    if "qop" in params { TidyTokens(SplitOn(params["qop"], ',')); }
    hide Scan, ToMap, HeaderList.Tidy, SplitOn;
  }

  lemma {:induction false} TidyTokens(parts: seq<string>)
    requires forall i :: 0 <= i < |parts| ==> ',' !in parts[i]
    ensures forall q :: q in HeaderList.Tidy(parts) ==> QopToken(q)
  {
    if parts != [] {
      TidyTokens(parts[1..]);
      StripSubset(parts[0], ',', Space);
      hide Strip;
    }
  }

  // --- choosing ------------------------------------------------------------------------

  const PREFERENCE: seq<string> := ["sha-256-sess", "sha-256", "md5-sess", "md5"]

  /** The place of an algorithm in the order of preference; past the end when it is none of ours. */
  function Rank(algorithm: string): nat {
    var low := Lower(algorithm);
    if low == "sha-256-sess" then 0 else if low == "sha-256" then 1 else if low == "md5-sess" then 2
    else if low == "md5" then 3 else 4
  }

  lemma RankIsPlace(algorithm: string)
    ensures Rank(algorithm) < 4 ==> PREFERENCE[Rank(algorithm)] == Lower(algorithm)
    ensures Lower(algorithm) in PREFERENCE <==> Rank(algorithm) < 4
  {
  }

  /** The first of the most preferred supported challenges, if any is supported. */
  method PickBestChallenge(challenges: seq<Challenge>) returns (best: Option<Challenge>)
    ensures best.None? <==> forall i :: 0 <= i < |challenges| ==> Rank(challenges[i].algorithm) == 4
    ensures best.Some? ==> exists k ::
              && 0 <= k < |challenges| && best.value == challenges[k] && Rank(challenges[k].algorithm) < 4
              && (forall i :: 0 <= i < |challenges| ==> Rank(challenges[k].algorithm) <= Rank(challenges[i].algorithm))
              && (forall i :: 0 <= i < k ==> Rank(challenges[k].algorithm) < Rank(challenges[i].algorithm))
  {
    best := None;
    var bestRank := 4;
    ghost var at := 0;
    for n := 0 to |challenges|
      invariant best.None? ==> bestRank == 4
      invariant best.Some? ==>
                  && 0 <= at < n && best.value == challenges[at] && bestRank == Rank(challenges[at].algorithm) < 4
                  && forall i :: 0 <= i < at ==> bestRank < Rank(challenges[i].algorithm)
      invariant forall i :: 0 <= i < n ==> bestRank <= Rank(challenges[i].algorithm)
    {
      var rank := Rank(challenges[n].algorithm);
      if rank < bestRank {
        bestRank := rank;
        best := Some(challenges[n]);
        at := n;
      }
    }
  }

  // --- answering -------------------------------------------------------------------------

  predicate Session(low: string) { low == "sha-256-sess" || low == "md5-sess" }

  function BaseOf(low: string): Base { if low == "sha-256" || low == "sha-256-sess" then Sha256 else Md5 }

  function Ha1(h: Hash, low: string, username: string, realm: string, password: string, nonce: string, cnonce: string)
    : string
  {
    var once := h(BaseOf(low), username + ":" + realm + ":" + password);
    if Session(low) then h(BaseOf(low), once + ":" + nonce + ":" + cnonce) else once
  }

  function QopResponse(h: Hash, low: string, ha1: string, nonce: string, nc: string, cnonce: string, ha2: string)
    : string
  {
    h(BaseOf(low), ha1 + ":" + nonce + ":" + nc + ":" + cnonce + ":auth:" + ha2)
  }

  function LegacyResponse(h: Hash, low: string, ha1: string, nonce: string, ha2: string): string {
    h(BaseOf(low), ha1 + ":" + nonce + ":" + ha2)
  }

  function HexDigit(n: nat): char
    requires n < 16
  {
    if n < 10 then ('0' as int + n) as char else ('a' as int + n - 10) as char
  }

  function Hex(n: nat, width: nat): (r: string)
    ensures |r| == width
    ensures forall i :: 0 <= i < width ==> '0' <= r[i] <= '9' || 'a' <= r[i] <= 'f'
    decreases width
  {
    if width == 0 then "" else Hex(n / 16, width - 1) + [HexDigit(n % 16)]
  }

  function HexValue(c: char): nat
    requires '0' <= c <= '9' || 'a' <= c <= 'f'
  {
    if c <= '9' then c as int - '0' as int else c as int - 'a' as int + 10
  }

  /** The number a text of hexadecimal digits stands for. */
  function ReadHex(s: string): nat
    requires forall i :: 0 <= i < |s| ==> '0' <= s[i] <= '9' || 'a' <= s[i] <= 'f'
  {
    if s == "" then 0
    else
      assert '0' <= s[|s| - 1] <= '9' || 'a' <= s[|s| - 1] <= 'f';
      16 * ReadHex(s[..|s| - 1]) + HexValue(s[|s| - 1])
  }

  function Power(base: nat, e: nat): nat { if e == 0 then 1 else base * Power(base, e - 1) }

  /** A nonce count is read back from its eight digits. */
  lemma {:induction false} HexReadBack(n: nat, width: nat)
    requires n < Power(16, width)
    ensures ReadHex(Hex(n, width)) == n
    decreases width
  {
    if width > 0 {
      HexReadBack(n / 16, width - 1);
      var s := Hex(n, width);
      assert s[..|s| - 1] == Hex(n / 16, width - 1);
    }
  }

  /** Everything the answer is made from; `cnonce` is the client nonce given, or the fresh one. */
  datatype Request = Request(
    challenge: Challenge,
    username: string,
    password: string,
    verb: string,
    uri: string,
    cnonce: string,
    nc: nat)

  predicate UsesQop(r: Request) { "auth" in r.challenge.qop }

  function ResponseOf(h: Hash, r: Request): string {
    var low := Lower(r.challenge.algorithm);
    var ha1 := Ha1(h, low, r.username, r.challenge.realm, r.password, r.challenge.nonce, r.cnonce);
    var ha2 := h(BaseOf(low), r.verb + ":" + r.uri);
    if UsesQop(r) then QopResponse(h, low, ha1, r.challenge.nonce, Hex(r.nc, 8), r.cnonce, ha2)
    else LegacyResponse(h, low, ha1, r.challenge.nonce, ha2)
  }

  function AuthParams(h: Hash, r: Request): seq<AuthParam> {
    [AuthParam("username", r.username, true), AuthParam("realm", r.challenge.realm, true),
     AuthParam("nonce", r.challenge.nonce, true), AuthParam("uri", r.uri, true),
     AuthParam("algorithm", r.challenge.algorithm, false)]
    + (if UsesQop(r) then
         [AuthParam("qop", "auth", false), AuthParam("nc", Hex(r.nc, 8), false), AuthParam("cnonce", r.cnonce, true)]
       else [])
    + [AuthParam("response", ResponseOf(h, r), true)]
    + (if r.challenge.opaqueValue.Some? then [AuthParam("opaque", r.challenge.opaqueValue.value, true)] else [])
  }

  /** How a list of auth-params goes onto the wire, in a challenge or in an answer. */
  function OnWire(params: seq<AuthParam>): string { "Digest " + Join(PrintAll(params), ", ") }

  /** The header value, or why there is none. */
  function BuildAuthorization(h: Hash, r: Request): Result<string> {
    var low := Lower(r.challenge.algorithm);
    if low !in PREFERENCE then Err("unsupported algorithm")
    else if r.challenge.qop != [] && !UsesQop(r) then Err("qop without auth")
    else if !(1 <= r.nc <= 0xFFFF_FFFF) then Err("nonce-count out of range")
    else if !UsesQop(r) && low != "md5" then Err("algorithm needs qop=auth")
    else
      var params := AuthParams(h, r);
      if exists i :: 0 <= i < |params| && params[i].quoted && !ControlFree(params[i].value) then
        Err("control character")
      else Ok(OnWire(params))
  }

  // --- what the verifier sees ----------------------------------------------------------------

  /** The map holds exactly these parameters. */
  ghost predicate Recovers(f: map<string, string>, params: seq<AuthParam>) {
    && (forall i :: 0 <= i < |params| ==> params[i].name in f && f[params[i].name] == params[i].value)
    && (forall name :: name in f ==> exists i :: 0 <= i < |params| && params[i].name == name)
  }

  /**
    The verifier knows the password and the method; all else it takes from the header, and hashes
    it as sections 3.4.1 to 3.4.3 of RFC 7616 have it.
  */
  predicate Verifies(h: Hash, password: string, verb: string, f: map<string, string>) {
    && {"username", "realm", "nonce", "uri", "algorithm", "response"} <= f.Keys
    && var algorithm := Lower(f["algorithm"]);
       var base := if algorithm == "sha-256" || algorithm == "sha-256-sess" then Sha256 else Md5;
       var secret := h(base, f["username"] + ":" + f["realm"] + ":" + password);
       var request := h(base, verb + ":" + f["uri"]);
       if "qop" in f then
         && {"nc", "cnonce"} <= f.Keys
         && (algorithm == "sha-256" || algorithm == "sha-256-sess" || algorithm == "md5" || algorithm == "md5-sess")
         && var key := if algorithm == "sha-256-sess" || algorithm == "md5-sess"
                       then h(base, secret + ":" + f["nonce"] + ":" + f["cnonce"]) else secret;
            f["response"] == h(base, key + ":" + f["nonce"] + ":" + f["nc"] + ":" + f["cnonce"] + ":" + f["qop"] + ":"
                                     + request)
       else algorithm == "md5" && f["response"] == h(Md5, secret + ":" + f["nonce"] + ":" + request)
  }

  // --- the answer verifies -------------------------------------------------------------------

  predicate LowerCase(s: string) { forall i :: 0 <= i < |s| ==> !('A' <= s[i] <= 'Z') }

  lemma {:induction false} PairsInit(params: seq<AuthParam>)
    requires params != []
    ensures Pairs(params) == Pairs(params[..|params| - 1])
              + [(Lower(params[|params| - 1].name), params[|params| - 1].value)]
  {
    if |params| > 1 {
      PairsInit(params[1..]);
      assert params[1..][..|params| - 2] == params[..|params| - 1][1..];
    }
  }

  predicate Distinct(params: seq<AuthParam>) {
    && (forall i :: 0 <= i < |params| ==> LowerCase(params[i].name))
    && (forall i, j :: 0 <= i < j < |params| ==> params[i].name != params[j].name)
  }

  lemma OneMore(f: map<string, string>, params: seq<AuthParam>, last: AuthParam)
    requires Recovers(f, params) && forall i :: 0 <= i < |params| ==> params[i].name != last.name
    ensures Recovers(f[last.name := last.value], params + [last])
  {
    var g, all := f[last.name := last.value], params + [last];
    forall name | name in g ensures exists i :: 0 <= i < |all| && all[i].name == name {
      if name == last.name {
        assert all[|params|].name == name;
      } else {
        var i :| 0 <= i < |params| && params[i].name == name;
        assert all[i].name == name;
      }
    }
  }

  lemma {:induction false} MapRecovers(params: seq<AuthParam>)
    requires Distinct(params)
    ensures Recovers(ToMap(Pairs(params)), params)
    decreases |params|
  {
    if params != [] {
      var init, last := params[..|params| - 1], params[|params| - 1];
      MapRecovers(init);
      PairsInit(params);
      assert LowerCase(last.name) && Lower(last.name) == last.name;
      hide Lower, LowerCase, Recovers;
      assert Pairs(params)[..|Pairs(params)| - 1] == Pairs(init);
      hide Pairs;
      OneMore(ToMap(Pairs(init)), init, last);
      assert params == init + [last];
    }
  }

  lemma SupportedChars(low: string)
    requires low in PREFERENCE
    ensures low != "" && forall i :: 0 <= i < |low| ==> 'a' <= low[i] <= 'z' || '0' <= low[i] <= '9' || low[i] == '-'
    ensures 'a' <= low[0] <= 'z'
  {
    assert low == "sha-256-sess" || low == "sha-256" || low == "md5-sess" || low == "md5";
  }

  lemma AlgorithmIsToken(algorithm: string)
    requires Lower(algorithm) in PREFERENCE
    ensures BareToken(algorithm)
  {
    hide Lower;
    var low := Lower(algorithm);
    SupportedChars(low);
    forall i | 0 <= i < |algorithm| ensures NameChar(algorithm[i]) {
      assert low[i] == LowerChar(algorithm[i]);
    }
  }

  predicate ParamName(name: string) {
    name != "" && LowerCase(name) && Word(name[0]) && forall i :: 0 <= i < |name| ==> NameChar(name[i])
  }

  lemma ParamNames()
    ensures ParamName("username") && ParamName("realm") && ParamName("nonce") && ParamName("uri")
    ensures ParamName("algorithm") && ParamName("qop") && ParamName("nc") && ParamName("cnonce")
    ensures ParamName("response") && ParamName("opaque")
  {
  }

  lemma ParamsNamed(h: Hash, r: Request)
    ensures var params := AuthParams(h, r);
            forall i :: 0 <= i < |params| ==> ParamName(params[i].name)
  {
    hide ResponseOf, Hex, ParamName;
    ParamNames();
  }

  lemma AnswerDistinct(h: Hash, r: Request)
    ensures Distinct(AuthParams(h, r))
  {
    hide ResponseOf, Hex, LowerCase, ParamName;
    ParamsNamed(h, r);
    var params := AuthParams(h, r);
    forall i | 0 <= i < |params| ensures LowerCase(params[i].name) { ParamNameMeans(params[i].name); }
  }

  /** What the unquoted parameters carry needs no quotes. */
  lemma BareAreTokens(h: Hash, r: Request)
    requires Lower(r.challenge.algorithm) in PREFERENCE
    ensures var params := AuthParams(h, r);
            forall i :: 0 <= i < |params| && !params[i].quoted ==> BareToken(params[i].value)
  {
    AlgorithmIsToken(r.challenge.algorithm);
    HexIsToken(r.nc);
    hide ResponseOf, Hex, Lower, BareToken, Printable;
    assert BareToken("auth") by { AuthIsToken(); }
  }

  predicate BareToken(s: string) { s != "" && s[0] != '"' && forall i :: 0 <= i < |s| ==> !Separator(s[i]) }

  lemma HexIsToken(n: nat)
    ensures BareToken(Hex(n, 8))
  {
  }

  lemma AuthIsToken()
    ensures BareToken("auth")
  {
  }

  lemma OkMeans(h: Hash, r: Request)
    requires BuildAuthorization(h, r).Ok?
    ensures Lower(r.challenge.algorithm) in PREFERENCE
    ensures var params := AuthParams(h, r);
            forall i :: 0 <= i < |params| && params[i].quoted ==> ControlFree(params[i].value)
  {
    hide AuthParams, PrintAll, Join, ControlFree, Lower;
  }

  lemma AnswerPrintable(h: Hash, r: Request)
    requires BuildAuthorization(h, r).Ok?
    ensures var params := AuthParams(h, r);
            forall i :: 0 <= i < |params| ==> Printable(params[i])
  {
    hide AuthParams, ParamName, Lower, ControlFree, BuildAuthorization;
    OkMeans(h, r);
    BareAreTokens(h, r);
    ParamsNamed(h, r);
    var params := AuthParams(h, r);
    forall i | 0 <= i < |params| ensures Printable(params[i]) { ParamNameMeans(params[i].name); }
  }

  lemma ParamNameMeans(name: string)
    requires ParamName(name)
    ensures name != "" && LowerCase(name) && Word(name[0]) && forall i :: 0 <= i < |name| ==> NameChar(name[i])
  {
  }

  lemma RecoveredFields(h: Hash, r: Request, f: map<string, string>)
    requires Recovers(f, AuthParams(h, r))
    ensures {"username", "realm", "nonce", "uri", "algorithm", "response"} <= f.Keys
    ensures f["username"] == r.username && f["realm"] == r.challenge.realm && f["nonce"] == r.challenge.nonce
    ensures f["uri"] == r.uri && f["algorithm"] == r.challenge.algorithm && f["response"] == ResponseOf(h, r)
    ensures "qop" in f <==> UsesQop(r)
    ensures UsesQop(r) ==>
              {"nc", "cnonce"} <= f.Keys && f["qop"] == "auth" && f["nc"] == Hex(r.nc, 8) && f["cnonce"] == r.cnonce
  {
    hide ResponseOf, Hex;
    var params := AuthParams(h, r);
    var n := if UsesQop(r) then 8 else 5;
    assert params[0].name == "username" && params[1].name == "realm" && params[2].name == "nonce";
    assert params[3].name == "uri" && params[4].name == "algorithm" && params[n].name == "response";
    if UsesQop(r) {
      assert params[5].name == "qop" && params[6].name == "nc" && params[7].name == "cnonce";
    }
  }

  lemma FieldsVerify(h: Hash, r: Request, f: map<string, string>)
    requires BuildAuthorization(h, r).Ok? && Recovers(f, AuthParams(h, r))
    ensures Verifies(h, r.password, r.verb, f)
  {
    RecoveredFields(h, r, f);
    hide AuthParams, PrintAll, Join, Hex, Lower, Recovers;
    if UsesQop(r) {
      var low := Lower(r.challenge.algorithm);
      var ha1 := Ha1(h, low, r.username, r.challenge.realm, r.password, r.challenge.nonce, r.cnonce);
      var ha2 := h(BaseOf(low), r.verb + ":" + r.uri);
      Colons(ha1 + ":" + f["nonce"] + ":" + f["nc"] + ":" + f["cnonce"], ha2);
    }
  }

  lemma Colons(left: string, right: string)
    ensures left + ":auth:" + right == left + ":" + "auth" + ":" + right
  {
    assert ":auth:" == ":" + "auth" + ":";
  }

  /**
    For all four algorithms, and for plain MD5 without qop: what a verifier scans out of an
    answer is exactly the parameters it was made of, and recomputing the response from them
    gives the response they carry.
  */
  lemma AnswerVerifies(h: Hash, r: Request)
    requires BuildAuthorization(h, r).Ok?
    ensures var f := ToMap(Scan(BuildAuthorization(h, r).value));
            Recovers(f, AuthParams(h, r)) && Verifies(h, r.password, r.verb, f)
  {
    var params := AuthParams(h, r);
    assert BuildAuthorization(h, r).value == OnWire(params) by { hide AuthParams, OnWire; }
    AnswerPrintable(h, r);
    AnswerDistinct(h, r);
    hide Scan, ToMap, Verifies, PrintAll, Join, Pairs, AuthParams, Recovers, BuildAuthorization, Printable, Distinct;
    ScanInvertsPrint(params);
    MapRecovers(params);
    FieldsVerify(h, r, ToMap(Pairs(params)));
  }

  /** An answer is refused for these reasons only; a control character cannot come from the hash. */
  lemma AnswerIff(h: Hash, r: Request)
    requires HexOnly(h)
    ensures BuildAuthorization(h, r).Ok? <==>
              && Rank(r.challenge.algorithm) < 4 && 1 <= r.nc <= 0xFFFF_FFFF
              && (if r.challenge.qop == [] then Rank(r.challenge.algorithm) == 3 else "auth" in r.challenge.qop)
              && ControlFree(r.username) && ControlFree(r.challenge.realm) && ControlFree(r.challenge.nonce)
              && ControlFree(r.uri) && (UsesQop(r) ==> ControlFree(r.cnonce))
              && (r.challenge.opaqueValue.Some? ==> ControlFree(r.challenge.opaqueValue.value))
  {
    hide OnWire, Hex, ResponseOf, Lower, ControlFree, Rank;
    var params := AuthParams(h, r);
    ResponseClean(h, r);
    RankIsPlace(r.challenge.algorithm);
    OnlyMd5(r.challenge.algorithm);
    assert params[0].value == r.username && params[1].value == r.challenge.realm
      && params[2].value == r.challenge.nonce;
    assert params[3].value == r.uri;
    if UsesQop(r) { assert params[7].value == r.cnonce; }
    if r.challenge.opaqueValue.Some? { assert params[|params| - 1].value == r.challenge.opaqueValue.value; }
  }

  lemma ResponseClean(h: Hash, r: Request)
    requires HexOnly(h)
    ensures ControlFree(ResponseOf(h, r))
  {
    hide ControlFree, Lower, Hex;
  }

  lemma OnlyMd5(algorithm: string)
    ensures Rank(algorithm) == 3 <==> Lower(algorithm) == "md5"
  {
    hide Lower;
  }

  // --- a challenge from the wire ---------------------------------------------------------------

  predicate Carries(params: seq<AuthParam>, name: string, value: string) {
    exists i :: 0 <= i < |params| && params[i].name == name && params[i].value == value
  }

  predicate Lacks(params: seq<AuthParam>, name: string) {
    forall i :: 0 <= i < |params| ==> params[i].name != name
  }

  /** White space after the comma between two qop tokens. */
  predicate Padding(pad: string) { forall i :: 0 <= i < |pad| ==> Space(pad[i]) }

  /**
    The parameters of a server that issues this challenge: in any order, quoted or bare, among any
    others; an algorithm, a qop list and an opaque value only as far as the challenge has them.
  */
  predicate Issues(params: seq<AuthParam>, c: Challenge, pad: string) {
    && (forall i :: 0 <= i < |params| ==> Printable(params[i])) && Distinct(params) && Padding(pad)
    && c.realm != "" && Carries(params, "realm", c.realm) && c.nonce != "" && Carries(params, "nonce", c.nonce)
    && (Carries(params, "algorithm", c.algorithm) || (Lacks(params, "algorithm") && c.algorithm == "MD5"))
    && (forall q :: q in c.qop ==> QopToken(q))
    && (if c.qop == [] then Lacks(params, "qop") else Carries(params, "qop", Join(c.qop, "," + pad)))
    && (if c.opaqueValue.None? then Lacks(params, "opaque") else Carries(params, "opaque", c.opaqueValue.value))
  }

  lemma PaddedToken(lead: string, q: string)
    requires Padding(lead) && QopToken(q)
    ensures ',' !in lead + q && Strip(lead + q, Space) == q != ""
  {
    StripLeftPadded(lead, q, Space);
    StripIff(q, Space);
    assert StripRight(q, Space) == q;
    assert ',' !in lead by { hide Strip; }
    hide Strip, StripLeft, StripRight, Space;
  }

  lemma JoinLed(lead: string, qop: seq<string>, pad: string)
    requires |qop| > 1
    ensures lead + Join(qop, "," + pad) == (lead + qop[0]) + "," + (pad + Join(qop[1..], "," + pad))
  {
  }

  /** A list of tokens is read back, whatever white space follows the commas. */
  lemma {:induction false} QopReadBack(lead: string, qop: seq<string>, pad: string)
    requires qop != [] && Padding(lead) && Padding(pad) && forall q :: q in qop ==> QopToken(q)
    ensures HeaderList.Tidy(SplitOn(lead + Join(qop, "," + pad), ',')) == qop
    decreases |qop|
  {
    hide SplitOn, Strip, Padding, QopToken, HeaderList.Tidy;
    assert qop[0] in qop;
    PaddedToken(lead, qop[0]);
    if |qop| == 1 {
      SplitNone(lead + qop[0], ',');
      TidyHead(lead + qop[0], []);
      assert qop == [qop[0]];
    } else {
      var rest := pad + Join(qop[1..], "," + pad);
      QopReadBack(pad, qop[1..], pad);
      JoinLed(lead, qop, pad);
      hide Join;
      SplitOnce(lead + qop[0], ',', rest);
      TidyHead(lead + qop[0], SplitOn(rest, ','));
      assert [qop[0]] + qop[1..] == qop;
    }
  }

  lemma TidyHead(entry: string, rest: seq<string>)
    requires Strip(entry, Space) != ""
    ensures HeaderList.Tidy([entry] + rest) == [Strip(entry, Space)] + HeaderList.Tidy(rest)
    ensures HeaderList.Tidy([entry]) == [Strip(entry, Space)]
  {
    hide Strip;
    assert ([entry] + rest)[1..] == rest && HeaderList.Tidy([]) == [];
  }

  lemma WireRecovers(params: seq<AuthParam>, c: Challenge, pad: string)
    requires Issues(params, c, pad)
    ensures Recovers(ToMap(Scan(OnWire(params))), params)
  {
    hide Scan, ToMap, PrintAll, Join, Pairs, Recovers, Printable, Distinct;
    ScanInvertsPrint(params);
    MapRecovers(params);
  }

  lemma LookedUp(f: map<string, string>, params: seq<AuthParam>, name: string, value: string)
    requires Recovers(f, params)
    ensures Carries(params, name, value) ==> Lookup(f, name) == Some(value)
    ensures Lacks(params, name) ==> Lookup(f, name) == None
  {
  }

  lemma IssuedLookups(params: seq<AuthParam>, c: Challenge, pad: string, f: map<string, string>)
    requires Issues(params, c, pad) && Recovers(f, params)
    ensures Lookup(f, "realm") == Some(c.realm) && Lookup(f, "nonce") == Some(c.nonce)
    ensures Lookup(f, "algorithm") == Some(c.algorithm) || (Lookup(f, "algorithm") == None && c.algorithm == "MD5")
    ensures Lookup(f, "qop") == if c.qop == [] then None else Some(Join(c.qop, "," + pad))
    ensures Lookup(f, "opaque") == c.opaqueValue
    ensures c.realm != "" && c.nonce != ""
  {
    hide Recovers, Printable, Distinct, Carries, Lacks, QopToken, Join, Lookup;
    LookedUp(f, params, "realm", c.realm);
    LookedUp(f, params, "nonce", c.nonce);
    LookedUp(f, params, "algorithm", c.algorithm);
    LookedUp(f, params, "qop", Join(c.qop, "," + pad));
    LookedUp(f, params, "opaque", if c.opaqueValue.Some? then c.opaqueValue.value else "");
  }

  /** What a server issues is what is parsed: every realm, nonce, opaque value and list of qop tokens. */
  lemma ChallengeRoundTrip(params: seq<AuthParam>, c: Challenge, pad: string)
    requires Issues(params, c, pad)
    ensures ChallengeOf(ToMap(Scan(OnWire(params)))) == Ok(c)
  {
    hide Scan, ToMap, OnWire, Recovers, SplitOn, HeaderList.Tidy, Join, Issues;
    var f := ToMap(Scan(OnWire(params)));
    WireRecovers(params, c, pad);
    if c.qop != [] { IssuedQop(params, c, pad); }
    IssuedLookups(params, c, pad, f);
  }

  lemma IssuedQop(params: seq<AuthParam>, c: Challenge, pad: string)
    requires Issues(params, c, pad) && c.qop != []
    ensures HeaderList.Tidy(SplitOn(Join(c.qop, "," + pad), ',')) == c.qop
  {
    QopReadBack("", c.qop, pad);
    assert "" + Join(c.qop, "," + pad) == Join(c.qop, "," + pad);
  }

  /** A challenge that can be put into words at all: control-free text, and a token for the algorithm. */
  predicate Issuable(c: Challenge) {
    && c.realm != "" && ControlFree(c.realm) && c.nonce != "" && ControlFree(c.nonce) && BareToken(c.algorithm)
    && (forall q :: q in c.qop ==> QopToken(q) && ControlFree(q))
    && (c.opaqueValue.Some? ==> ControlFree(c.opaqueValue.value))
  }

  function ChallengeParams(c: Challenge): seq<AuthParam> {
    [AuthParam("realm", c.realm, true), AuthParam("nonce", c.nonce, true),
     AuthParam("algorithm", c.algorithm, false)]
    + (if c.qop == [] then [] else [AuthParam("qop", Join(c.qop, ","), true)])
    + (if c.opaqueValue.None? then [] else [AuthParam("opaque", c.opaqueValue.value, true)])
  }

  lemma {:induction false} JoinControlFree(qop: seq<string>)
    requires forall q :: q in qop ==> ControlFree(q)
    ensures ControlFree(Join(qop, ","))
  {
    if |qop| > 1 {
      JoinControlFree(qop[1..]);
      assert ControlFree(qop[0]);
    }
  }

  lemma ChallengePrintable(c: Challenge)
    requires Issuable(c)
    ensures forall i :: 0 <= i < |ChallengeParams(c)| ==> Printable(ChallengeParams(c)[i])
    ensures Distinct(ChallengeParams(c))
  {
    JoinControlFree(c.qop);
    ParamNames();
    hide Join, ControlFree, QopToken, BareToken, LowerCase, Printable, ParamName;
    var params := ChallengeParams(c);
    forall i | 0 <= i < |params| ensures Printable(params[i]) && LowerCase(params[i].name) {
      ParamNameMeans(params[i].name);
      PrintableMeans(params[i]);
    }
  }

  lemma ChallengeIssued(c: Challenge)
    requires Issuable(c)
    ensures Issues(ChallengeParams(c), c, "")
  {
    hide Join, ControlFree, QopToken, BareToken, Distinct, Printable;
    ChallengePrintable(c);
    var params := ChallengeParams(c);
    assert params[0].name == "realm" && params[1].name == "nonce" && params[2].name == "algorithm";
    if c.qop != [] { assert params[3].name == "qop" && "," + "" == ","; }
    if c.opaqueValue.Some? { assert params[|params| - 1].name == "opaque"; }
  }

  lemma PrintableMeans(p: AuthParam)
    requires ParamName(p.name) && if p.quoted then ControlFree(p.value) else BareToken(p.value)
    ensures Printable(p)
  {
  }

  /**
    From the wire to the wire: an answer to the challenge parsed from what a server printed is
    scanned by that server into its own realm, nonce, algorithm and opaque value, and verifies.
  */
  lemma WireAnswerVerifies(h: Hash, params: seq<AuthParam>, c: Challenge, pad: string, r: Request)
    requires BuildAuthorization(h, r).Ok?
    ensures var f := ToMap(Scan(BuildAuthorization(h, r).value));
            Issues(params, c, pad) && Ok(r.challenge) == ChallengeOf(ToMap(Scan(OnWire(params)))) ==>
              && Verifies(h, r.password, r.verb, f)
              && {"realm", "nonce", "algorithm"} <= f.Keys
              && f["realm"] == c.realm && f["nonce"] == c.nonce && f["algorithm"] == c.algorithm
              && Lookup(f, "opaque") == c.opaqueValue && ("qop" in f <==> "auth" in c.qop)
  {
    if Issues(params, c, pad) { ChallengeRoundTrip(params, c, pad); }
    AnswerVerifies(h, r);
    hide Scan, ToMap, Issues, ChallengeOf, BuildAuthorization, AuthParams, Verifies, Recovers, OnWire;
    var f := ToMap(Scan(BuildAuthorization(h, r).value));
    RecoveredFields(h, r, f);
    RecoveredOpaque(h, r, f);
  }

  lemma RecoveredOpaque(h: Hash, r: Request, f: map<string, string>)
    requires Recovers(f, AuthParams(h, r))
    ensures Lookup(f, "opaque") == r.challenge.opaqueValue
  {
    hide ResponseOf, Hex;
    var params := AuthParams(h, r);
    if r.challenge.opaqueValue.Some? { assert params[|params| - 1].name == "opaque"; }
  }
}
