/** Who a caller is taken for: normalization, pattern matching, and the N-group classification. */
module CallerModes {
  import opened Wrappers
  import opened SipText
  import NameAddr

  datatype Normalization = E164 | StripPlus | Verbatim

  datatype Group = Group(name: string, level: nat, declined: bool)

  datatype Config = Config(
    groups: seq<Group>,
    lists: map<string, seq<string>>,
    defaultGroup: string,
    matchOrder: seq<string>,
    normalization: Normalization)

  datatype Classification = Classification(group: Group, source: string, pattern: string)

  const ELEVATED: nat := 2
  const FALLBACK := Group("receptionist", 0, false)

  predicate HasDigit(s: string) { exists i :: 0 <= i < |s| && Digit(s[i]) }

  function Keep(s: string, p: char -> bool): (r: string)
    ensures forall i :: 0 <= i < |r| ==> p(r[i])
    ensures forall c :: c in r ==> c in s
  {
    if s == "" then "" else if p(s[0]) then [s[0]] + Keep(s[1..], p) else Keep(s[1..], p)
  }

  predicate Dialable(c: char) { Digit(c) || c == '+' }

  predicate NotPlus(c: char) { c != '+' }

  lemma {:induction false} KeepTwice(s: string)
    ensures Keep(Keep(s, Dialable), Digit) == Keep(s, Digit) == Keep(Keep(s, Dialable), NotPlus)
    ensures Keep(s, Digit) != "" ==> Keep(s, Dialable) != ""
  {
    if s != "" {
      KeepTwice(s[1..]);
      if Dialable(s[0]) { assert ([s[0]] + Keep(s[1..], Dialable))[1..] == Keep(s[1..], Dialable); }
    }
  }

  /** The canonical form of a caller-ID, computed on a running value. */
  method Normalize(raw: string, normalization: Normalization) returns (r: string)
    ensures r == Normalized(raw, normalization)
  {
    hide Strip;
    var stripped := Strip(raw, Space);
    if normalization.Verbatim? { return stripped; }
    if normalization.StripPlus? { return Keep(stripped, Digit); }
    var kept := Keep(stripped, Dialable);
    KeepTwice(stripped);
    if Keep(kept, Digit) == "" { return ""; }
    if kept[0] == '+' {
      kept := "+" + Keep(kept[1..], NotPlus);
    } else {
      kept := Keep(kept, NotPlus);
      if kept[0] in "123456789" { kept := "+" + kept; }
    }
    r := kept;
  }

  /** ... and what it is: digits, with a plus in front if there was one or the number starts with 1 to 9. */
  function Normalized(raw: string, normalization: Normalization): string {
    var stripped := Strip(raw, Space);
    match normalization
    case Verbatim => stripped
    case StripPlus => Keep(stripped, Digit)
    case E164 =>
      var digits, dialed := Keep(stripped, Digit), Keep(stripped, Dialable);
      KeepTwice(stripped);
      if digits == "" then "" else if dialed[0] == '+' || digits[0] != '0' then "+" + digits else digits
  }

  lemma {:induction false} KeepAll(s: string, p: char -> bool)
    requires forall i :: 0 <= i < |s| ==> p(s[i])
    ensures Keep(s, p) == s
  {
    if s != "" { KeepAll(s[1..], p); }
  }

  predicate AllDigits(s: string) { s != "" && forall i :: 0 <= i < |s| ==> Digit(s[i]) }

  /** A canonical number is its own canonical form. */
  lemma CanonicalFixed(digits: string, plus: bool)
    requires AllDigits(digits) && (plus || digits[0] == '0')
    ensures Normalized(if plus then "+" + digits else digits, E164) == if plus then "+" + digits else digits
  {
    var r := if plus then "+" + digits else digits;
    hide Strip;
    StripIff(r, Space);
    KeepAll(digits, Digit);
    KeepAll(r, Dialable);
    if plus { assert r[1..] == digits; }
  }

  /** Normalizing twice is normalizing once. */
  lemma NormalizeIdempotent(raw: string, n: Normalization)
    ensures Normalized(Normalized(raw, n), n) == Normalized(raw, n)
  {
    hide Strip, Keep;
    var r := Normalized(raw, n);
    if n.E164? {
      var digits := Keep(Strip(raw, Space), Digit);
      if digits == "" {
        StripIff("", Space);
        KeepNothing();
      } else {
        CanonicalFixed(digits, r[0] == '+');
      }
    } else {
      StripIff(r, Space);
      if n.StripPlus? { KeepAll(r, Digit); }
    }
  }

  lemma KeepNothing()
    ensures Keep("", Digit) == ""
  {
  }

  // --- patterns ---------------------------------------------------------------------------

  /** Exact, or a prefix when the pattern ends in a star; of the normalized or of the raw form. */
  predicate Matches(candidate: string, raw: string, pattern: string) {
    if pattern != "" && pattern[|pattern| - 1] == '*' then
      pattern[..|pattern| - 1] <= candidate || pattern[..|pattern| - 1] <= raw
    else
      pattern == candidate || pattern == raw
  }

  /** A star at the end of a pattern makes it a prefix; any other pattern stands for itself. */
  lemma MatchesIff(candidate: string, raw: string, number: string)
    ensures Matches(candidate, raw, number + "*") <==>
              (|number| <= |candidate| && candidate[..|number|] == number)
              || (|number| <= |raw| && raw[..|number|] == number)
    ensures !(exists prefix :: number == prefix + "*") ==>
              (Matches(candidate, raw, number) <==> candidate == number || raw == number)
  {
    var starred := number + "*";
    assert starred[..|starred| - 1] == number && starred[|starred| - 1] == '*';
    if number != "" && number[|number| - 1] == '*' { assert number == number[..|number| - 1] + "*"; }
  }

  predicate AnyMatch(candidate: string, raw: string, patterns: seq<string>) {
    exists i :: 0 <= i < |patterns| && Matches(candidate, raw, patterns[i])
  }

  function FirstMatch(candidate: string, raw: string, patterns: seq<string>): (r: Option<string>)
    ensures r.Some? <==> AnyMatch(candidate, raw, patterns)
    ensures r.Some? ==> r.value in patterns && Matches(candidate, raw, r.value)
  {
    if patterns == [] then None
    else if Matches(candidate, raw, patterns[0]) then
      assert Matches(candidate, raw, patterns[0]);
      Some(patterns[0])
    else
      var rest := FirstMatch(candidate, raw, patterns[1..]);
      assert forall i :: 1 <= i < |patterns| ==> patterns[i] == patterns[1..][i - 1];
      rest
  }

  method MatchedPattern(candidate: string, raw: string, patterns: seq<string>) returns (r: Option<string>)
    ensures r == FirstMatch(candidate, raw, patterns)
  {
    for i := 0 to |patterns|
      invariant FirstMatch(candidate, raw, patterns) == FirstMatch(candidate, raw, patterns[i..])
    {
      assert patterns[i..][0] == patterns[i] && patterns[i..][1..] == patterns[i + 1..];
      if Matches(candidate, raw, patterns[i]) { return Some(patterns[i]); }
    }
    r := None;
  }

  // --- the configuration --------------------------------------------------------------------

  function PatternsOf(cfg: Config, name: string): seq<string> { if name in cfg.lists then cfg.lists[name] else [] }

  /** The group of a name, as a dictionary built in order has it. */
  function GroupNamed(groups: seq<Group>, name: string): (g: Option<Group>)
    ensures g.Some? ==> g.value in groups && g.value.name == name
    ensures g.None? ==> forall h :: h in groups ==> h.name != name
  {
    if groups == [] then None
    else if groups[|groups| - 1].name == name then Some(groups[|groups| - 1])
    else GroupNamed(groups[..|groups| - 1], name)
  }

  predicate UniqueNames(groups: seq<Group>) {
    forall i, j :: 0 <= i < j < |groups| ==> groups[i].name != groups[j].name
  }

  /** What the constructor lets through. */
  predicate Valid(cfg: Config) {
    && UniqueNames(cfg.groups)
    && (forall g :: g in cfg.groups && g.name == cfg.defaultGroup ==> g.level == 0)
    && (forall g, p :: g in cfg.groups && g.level >= 2 && p in PatternsOf(cfg, g.name) ==> HasDigit(p))
  }

  method Construct(cfg: Config) returns (ok: bool)
    ensures ok <==> Valid(cfg)
  {
    var names: set<string> := {};
    for i := 0 to |cfg.groups|
      invariant names == set k | 0 <= k < i :: cfg.groups[k].name
      invariant forall k, l :: 0 <= k < l < i ==> cfg.groups[k].name != cfg.groups[l].name
    {
      if cfg.groups[i].name in names { return false; }
      names := names + {cfg.groups[i].name};
    }
    var byName := GroupNamed(cfg.groups, cfg.defaultGroup);
    if byName.Some? && byName.value.level != 0 { return false; }
    for i := 0 to |cfg.groups|
      invariant forall k, p ::
                  0 <= k < i && cfg.groups[k].level >= ELEVATED && p in PatternsOf(cfg, cfg.groups[k].name) ==>
                    HasDigit(p)
    {
      if cfg.groups[i].level >= ELEVATED {
        var patterns := PatternsOf(cfg, cfg.groups[i].name);
        for n := 0 to |patterns|
          invariant forall k :: 0 <= k < n ==> HasDigit(patterns[k])
        {
          if !HasDigit(patterns[n]) { return false; }
        }
      }
    }
    ok := true;
  }

  // --- classification --------------------------------------------------------------------------

  function Default(cfg: Config): Classification {
    var g := GroupNamed(cfg.groups, cfg.defaultGroup);
    Classification(if g.Some? then g.value else FALLBACK, "default", "")
  }

  function ClassifyFrom(cfg: Config, order: seq<string>, candidate: string, raw: string): Classification {
    if order == [] then Default(cfg)
    else
      var g := GroupNamed(cfg.groups, order[0]);
      var p := FirstMatch(candidate, raw, PatternsOf(cfg, order[0]));
      if g.Some? && p.Some? then Classification(g.value, order[0], p.value)
      else ClassifyFrom(cfg, order[1..], candidate, raw)
  }

  function Classify(rawCaller: string, cfg: Config): Classification {
    ClassifyFrom(cfg, cfg.matchOrder, Normalized(rawCaller, cfg.normalization), Strip(rawCaller, Space))
  }

  method ClassifyCallerGroup(rawCaller: string, cfg: Config) returns (c: Classification)
    ensures c == Classify(rawCaller, cfg)
  {
    hide Normalized, Strip, FirstMatch, GroupNamed, PatternsOf, Default;
    var candidate := Normalize(rawCaller, cfg.normalization);
    var raw := Strip(rawCaller, Space);
    for i := 0 to |cfg.matchOrder|
      invariant Classify(rawCaller, cfg) == ClassifyFrom(cfg, cfg.matchOrder[i..], candidate, raw)
    {
      assert cfg.matchOrder[i..][0] == cfg.matchOrder[i] && cfg.matchOrder[i..][1..] == cfg.matchOrder[i + 1..];
      var group := GroupNamed(cfg.groups, cfg.matchOrder[i]);
      if group.Some? {
        var pattern := MatchedPattern(candidate, raw, PatternsOf(cfg, cfg.matchOrder[i]));
        if pattern.Some? { return Classification(group.value, cfg.matchOrder[i], pattern.value); }
      }
    }
    c := Default(cfg);
  }

  /** The k-th group of the order is defined and one of its patterns matches. */
  predicate Hits(cfg: Config, k: nat, candidate: string, raw: string)
    requires k < |cfg.matchOrder|
  {
    GroupNamed(cfg.groups, cfg.matchOrder[k]).Some? && AnyMatch(candidate, raw, PatternsOf(cfg, cfg.matchOrder[k]))
  }

  /** c is the hit of the k-th group, and no group from the given place up to it hits. */
  predicate HitOf(cfg: Config, at: nat, k: nat, candidate: string, raw: string, c: Classification) {
    && at <= k < |cfg.matchOrder|
    && Hits(cfg, k, candidate, raw) && (forall j :: at <= j < k ==> !Hits(cfg, j, candidate, raw))
    && c.group in cfg.groups && c.group.name == c.source == cfg.matchOrder[k]
    && c.pattern in PatternsOf(cfg, c.source) && Matches(candidate, raw, c.pattern)
  }

  predicate NoHit(cfg: Config, at: nat, candidate: string, raw: string) {
    forall k :: at <= k < |cfg.matchOrder| ==> !Hits(cfg, k, candidate, raw)
  }

  /** The classification is the first hit of the order, or the default without any. */
  lemma {:induction false} FirstHit(cfg: Config, at: nat, candidate: string, raw: string) returns (k: nat)
    requires at <= |cfg.matchOrder|
    ensures var c := ClassifyFrom(cfg, cfg.matchOrder[at..], candidate, raw);
            if NoHit(cfg, at, candidate, raw) then c == Default(cfg) else HitOf(cfg, at, k, candidate, raw, c)
    decreases |cfg.matchOrder| - at
  {
    k := at;
    if at < |cfg.matchOrder| {
      assert cfg.matchOrder[at..][0] == cfg.matchOrder[at] && cfg.matchOrder[at..][1..] == cfg.matchOrder[at + 1..];
      hide Default;
      if !Hits(cfg, at, candidate, raw) { k := FirstHit(cfg, at + 1, candidate, raw); }
    }
  }

  /** The group of the unmatched: the configured one, or one that is given no privilege. */
  predicate DefaultOf(cfg: Config, g: Group) {
    if exists d :: d in cfg.groups && d.name == cfg.defaultGroup then g in cfg.groups && g.name == cfg.defaultGroup
    else g == Group("receptionist", 0, false)
  }

  lemma DefaultUnprivileged(cfg: Config)
    requires Valid(cfg)
    ensures Default(cfg).group.level == 0
  {
  }

  lemma DefaultConfigured(cfg: Config)
    ensures DefaultOf(cfg, Default(cfg).group)
  {
  }

  /** A pattern with a digit matches nobody without one. */
  lemma DigitPatternNeedsDigit(candidate: string, raw: string, pattern: string)
    requires HasDigit(pattern) && Matches(candidate, raw, pattern)
    ensures HasDigit(candidate) || HasDigit(raw)
  {
    var i :| 0 <= i < |pattern| && Digit(pattern[i]);
    var star := pattern[|pattern| - 1] == '*';
    var body := if star then pattern[..|pattern| - 1] else pattern;
    assert body[i] == pattern[i];
    if body <= candidate { assert candidate[i] == body[i]; } else { assert raw[i] == body[i]; }
  }

  lemma NormalizedDigits(raw: string, n: Normalization)
    requires HasDigit(Normalized(raw, n))
    ensures HasDigit(Strip(raw, Space))
  {
    hide Strip;
    var r, stripped := Normalized(raw, n), Strip(raw, Space);
    hide Keep;
    var i :| 0 <= i < |r| && Digit(r[i]);
    assert r[i] in stripped;
  }

  /**
    For every configuration the constructor accepts and every caller-ID: a level of two or
    more is given only through a digit-bearing pattern of that very group that matches the
    normalized or the raw caller-ID, when no group before it in the order has a match.
    Everyone else, anyone unmatched or without a digit included, gets less; the unmatched
    get level 0.
  */
  lemma PrivilegeEarned(cfg: Config, rawCaller: string)
    requires Valid(cfg)
    ensures var candidate, raw := Normalized(rawCaller, cfg.normalization), Strip(rawCaller, Space);
            var c := Classify(rawCaller, cfg);
            && (c.group.level >= 2 ==>
                  && HasDigit(c.pattern) && HasDigit(raw)
                  && exists k :: HitOf(cfg, 0, k, candidate, raw, c))
            && (NoHit(cfg, 0, candidate, raw) ==>
                  c.group.level == 0 && c.source == "default" && DefaultOf(cfg, c.group))
  {
    var candidate, raw := Normalized(rawCaller, cfg.normalization), Strip(rawCaller, Space);
    var c := Classify(rawCaller, cfg);
    assert cfg.matchOrder[0..] == cfg.matchOrder;
    var k := FirstHit(cfg, 0, candidate, raw);
    DefaultUnprivileged(cfg);
    DefaultConfigured(cfg);
    hide DefaultOf;
    if c.group.level >= ELEVATED {
      DigitPatternNeedsDigit(candidate, raw, c.pattern);
      if HasDigit(candidate) { NormalizedDigits(rawCaller, cfg.normalization); }
    }
  }

  // --- the From header --------------------------------------------------------------------------

  /** call_context's addr-spec: verbatim inside angle brackets, else up to the first semicolon. */
  function AddrSpec(from: string): string {
    match NameAddr.Named("", from, NameAddr.OUTSIDE)
    case Some(parts) => parts.spec
    case None => Strip(from[..Find(from, ';', 0)], Space)
  }

  predicate UserChar(c: char) { !Space(c) && c != '@' }

  predicate UserText(s: string) { s != "" && forall i :: 0 <= i < |s| ==> UserChar(s[i]) }

  predicate SipScheme(s: string) { Lower(s) == "sip" || Lower(s) == "sips" }

  function CallerNumber(from: string): Option<string> {
    var addr := AddrSpec(from);
    var colon := Find(addr, ':', 0);
    if colon == |addr| || !SipScheme(addr[..colon]) then None
    else
      var rest := addr[colon + 1..];
      var at := Find(rest, '@', 0);
      if at < |rest| && UserText(rest[..at]) && UserText(rest[at + 1..]) then Some(rest[..at]) else None
  }

  /** A user or host part: some text without white space or an @. */
  predicate Part(s: string) { s != "" && '@' !in s && forall i :: 0 <= i < |s| ==> !Space(s[i]) }

  /** The address is `scheme:user@host`, of one of the two SIP schemes in any case. */
  predicate Resolves(addr: string, scheme: string, user: string, host: string) {
    && (Lower(scheme) == "sip" || Lower(scheme) == "sips") && Part(user) && Part(host)
    && addr == scheme + ":" + user + "@" + host
  }

  lemma PartIsUserText(s: string)
    ensures Part(s) <==> UserText(s)
  {
    if UserText(s) { assert forall i :: 0 <= i < |s| ==> UserChar(s[i]); }
  }

  lemma RejoinedAt(s: string, c: char)
    ensures var k := Find(s, c, 0); k < |s| ==> s == s[..k] + [c] + s[k + 1..]
  {
  }

  lemma ResolvedParts(from: string) returns (scheme: string, host: string)
    requires CallerNumber(from).Some?
    ensures Resolves(AddrSpec(from), scheme, CallerNumber(from).value, host)
  {
    hide AddrSpec, Lower;
    var addr := AddrSpec(from);
    var colon := Find(addr, ':', 0);
    var rest := addr[colon + 1..];
    var at := Find(rest, '@', 0);
    scheme, host := addr[..colon], rest[at + 1..];
    PartIsUserText(rest[..at]);
    PartIsUserText(host);
    RejoinedAt(addr, ':');
    RejoinedAt(rest, '@');
  }

  lemma PartsResolve(from: string, scheme: string, user: string, host: string)
    requires Resolves(AddrSpec(from), scheme, user, host)
    ensures CallerNumber(from) == Some(user)
  {
    hide AddrSpec, Find, Lower;
    SchemeFree(scheme, ':');
    PartIsUserText(user);
    PartIsUserText(host);
    hide UserText, SipScheme;
    var rest := user + "@" + host;
    assert AddrSpec(from) == scheme + ":" + rest;
    CutAt(scheme, ':', rest);
    CutAt(user, '@', host);
  }

  /** A caller-ID is resolved exactly from an addr-spec `sip:user@host` or `sips:user@host`. */
  lemma ResolvedIff(from: string, user: string)
    ensures CallerNumber(from) == Some(user) <==> exists scheme, host :: Resolves(AddrSpec(from), scheme, user, host)
  {
    hide CallerNumber, AddrSpec, Resolves;
    if CallerNumber(from) == Some(user) { var scheme, host := ResolvedParts(from); }
    forall scheme, host | Resolves(AddrSpec(from), scheme, user, host) ensures CallerNumber(from) == Some(user) {
      PartsResolve(from, scheme, user, host);
    }
  }

  /** The text between the brackets is the addr-spec, whatever is displayed before it or follows. */
  lemma AddressFound(display: string, spec: string, rest: string)
    requires NameAddr.NoAngle(display, NameAddr.OUTSIDE) && '>' !in spec
    requires NameAddr.AfterAll(NameAddr.OUTSIDE, display) == NameAddr.OUTSIDE
    ensures AddrSpec(display + "<" + spec + ">" + rest) == spec
  {
    NameAddr.AngleFound(display, spec, rest);
    hide NameAddr.Named;
  }

  /** How a From is printed: a quoted display name or none, the address in brackets, and parameters. */
  function PrintFrom(name: Option<string>, address: string, rest: string): string {
    (if name.Some? then NameAddr.Quoted(name.value) + " " else "") + "<" + address + ">" + rest
  }

  /**
    The user of the address in brackets is the caller, whatever the display name and the parameters say,
    an address in brackets of their own included; and only that user is classified.
  */
  lemma DisplayNameInert(name: Option<string>, scheme: string, user: string, host: string, rest: string, cfg: Config)
    requires Lower(scheme) == "sip" || Lower(scheme) == "sips"
    requires Part(user) && Part(host) && '>' !in user && '>' !in host
    ensures var from := PrintFrom(name, scheme + ":" + user + "@" + host, rest);
            CallerNumber(from) == Some(user) && ClassifyCaller(from, cfg) == (Some(user), Classify(user, cfg))
  {
    var display := if name.Some? then NameAddr.Quoted(name.value) + " " else "";
    if name.Some? { NameAddr.SpacedName(name.value); }
    SchemeFree(scheme, '>');
    hide NameAddr.Quoted, AddrSpec, Part, CallerNumber, Classify, NameAddr.NoAngle, NameAddr.AfterAll;
    var address := scheme + ":" + user + "@" + host;
    AddressFound(display, address, rest);
    PartsResolve(PrintFrom(name, address, rest), scheme, user, host);
  }

  /** Without brackets the address ends at the first semicolon, and that is all that is read of the From. */
  lemma BareCaller(scheme: string, user: string, host: string, params: string)
    requires Lower(scheme) == "sip" || Lower(scheme) == "sips"
    requires Part(user) && Part(host) && ';' !in user && ';' !in host
    requires '<' !in user && '<' !in host && '<' !in params
    ensures CallerNumber(scheme + ":" + user + "@" + host + ";" + params) == Some(user)
  {
    var address := scheme + ":" + user + "@" + host;
    SchemeFree(scheme, ';');
    SchemeFree(scheme, '<');
    AddressTrimmed(scheme, user, host);
    hide Part, CallerNumber, AddrSpec, Lower;
    BareAddress(address, params);
    PartsResolve(address + ";" + params, scheme, user, host);
  }

  lemma BareAddress(address: string, params: string)
    requires ';' !in address && '<' !in address && '<' !in params && Trimmed(address, Space)
    ensures AddrSpec(address + ";" + params) == address
  {
    var from := address + ";" + params;
    hide NameAddr.Named, NameAddr.NoAngle, Strip, Find;
    NoBracket(from, NameAddr.OUTSIDE);
    NameAddr.NoAngleNone(from);
    CutAt(address, ';', params);
    assert address + [';'] + params == from;
    StripIff(address, Space);
  }

  lemma {:induction false} NoBracket(s: string, q: NameAddr.Quote)
    requires '<' !in s
    ensures NameAddr.NoAngle(s, q)
    decreases |s|
  {
    if s != "" { NoBracket(s[1..], NameAddr.After(q, s[0])); }
  }

  lemma AddressTrimmed(scheme: string, user: string, host: string)
    requires Lower(scheme) == "sip" || Lower(scheme) == "sips"
    requires Part(user) && Part(host)
    ensures Trimmed(scheme + ":" + user + "@" + host, Space)
  {
    var address := scheme + ":" + user + "@" + host;
    var low := Lower(scheme);
    assert |scheme| == |low| && LowerChar(scheme[0]) == low[0] == 's';
    assert address[0] == scheme[0] && address[|address| - 1] == host[|host| - 1];
  }

  /** A scheme has no other characters than its letters. */
  lemma SchemeFree(scheme: string, c: char)
    requires (Lower(scheme) == "sip" || Lower(scheme) == "sips") && LowerChar(c) !in "sip"
    ensures c !in scheme
  {
    var low := Lower(scheme);
    forall i | 0 <= i < |scheme| ensures scheme[i] != c {
      assert low[i] == LowerChar(scheme[i]) && low[i] in "sip";
    }
  }

  /** An unresolved caller never enters pattern matching: it gets the default group, of level 0. */
  function ClassifyCaller(from: string, cfg: Config): (Option<string>, Classification) {
    match CallerNumber(from)
    case None => (None, Default(cfg))
    case Some(number) => (Some(number), Classify(number, cfg))
  }

  lemma CallerPrivilegeEarned(from: string, cfg: Config)
    requires Valid(cfg)
    ensures var (number, c) := ClassifyCaller(from, cfg);
            && (number.None? ==> c.group.level == 0)
            && (c.group.level >= 2 ==> number.Some? && HasDigit(number.value) && HasDigit(c.pattern)
                                              && c.pattern in PatternsOf(cfg, c.group.name))
  {
    hide CallerNumber, Classify, Normalized, Strip, PatternsOf, Matches, Default, GroupNamed, Valid, Digit;
    var number := CallerNumber(from);
    if number.Some? {
      PrivilegeEarned(cfg, number.value);
      if HasDigit(Strip(number.value, Space)) { StripSubset(number.value); }
    }
    DefaultUnprivileged(cfg);
  }

  lemma StripSubset(s: string)
    requires HasDigit(Strip(s, Space))
    ensures HasDigit(s)
  {
    var r := Strip(s, Space);
    var i :| 0 <= i < |r| && Digit(r[i]);
    assert r[i] in StripLeft(s, Space);
    assert r[i] in s;
  }

  // --- the legacy three lists ----------------------------------------------------------------------

  datatype Mode = Allow | Deny | Grey

  datatype LegacyConfig =
    LegacyConfig(allow: seq<string>, deny: seq<string>, grey: seq<string>, normalization: Normalization)

  function ModeOf(g: Group): Mode { if g.declined then Deny else if g.level >= 3 then Allow else Grey }

  function ToGroups(cfg: LegacyConfig): Config {
    Config([Group("operator", 3, false), Group("receptionist", 0, false), Group("blocked", 0, true)],
           map["operator" := cfg.allow, "receptionist" := cfg.grey, "blocked" := cfg.deny],
           "receptionist", ["blocked", "operator", "receptionist"], cfg.normalization)
  }

  /** The scheme as its own documentation has it: DENY over ALLOW over GREY, and GREY for the unmatched. */
  function LegacyMode(cfg: LegacyConfig, rawCaller: string): Mode {
    var candidate, raw := Normalized(rawCaller, cfg.normalization), Strip(rawCaller, Space);
    if AnyMatch(candidate, raw, cfg.deny) then Deny
    else if AnyMatch(candidate, raw, cfg.allow) then Allow
    else Grey
  }

  /** The group classifier gives the legacy answer; the constructor takes exactly the lists without a blanket allow. */
  lemma LegacyRefined(cfg: LegacyConfig, rawCaller: string)
    ensures ModeOf(Classify(rawCaller, ToGroups(cfg)).group) == LegacyMode(cfg, rawCaller)
    ensures forall g: Group :: g.declined ==> ModeOf(g) == Deny
    ensures Valid(ToGroups(cfg)) <==> forall p :: p in cfg.allow ==> HasDigit(p)
  {
    var g := ToGroups(cfg);
    var candidate, raw := Normalized(rawCaller, cfg.normalization), Strip(rawCaller, Space);
    hide Normalized, Strip, AnyMatch, HasDigit;
    LegacyGroups(g);
    var last, two := ["receptionist"], ["operator", "receptionist"];
    assert last[1..] == [] && two[1..] == last && g.matchOrder[1..] == two;
    assert ModeOf(ClassifyFrom(g, last, candidate, raw).group) == Grey;
    assert ModeOf(ClassifyFrom(g, two, candidate, raw).group)
      == if AnyMatch(candidate, raw, cfg.allow) then Allow else Grey;
  }

  lemma LegacyGroups(g: Config)
    requires g.groups == [Group("operator", 3, false), Group("receptionist", 0, false), Group("blocked", 0, true)]
    ensures GroupNamed(g.groups, "operator") == Some(g.groups[0])
    ensures GroupNamed(g.groups, "receptionist") == Some(g.groups[1])
    ensures GroupNamed(g.groups, "blocked") == Some(g.groups[2])
  {
    assert g.groups[..2][..1] == [g.groups[0]];
  }
}
