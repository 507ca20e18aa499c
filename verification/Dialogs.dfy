/**
  SIP dialogs (section 12 of RFC 3261): built from an INVITE and its 2xx on either side, and
  printed into in-dialog requests that the other side reads as its own dialog.
*/
module Dialogs {
  import opened Wrappers
  import opened SipText
  import NameAddr
  import HeaderList

  const MAX_CSEQ: nat := 0x8000_0000
  const DEFAULT_USER_AGENT := "hermes-voip/0"

  /** A parsed message; its topmost Via and its CSeq number come parsed, if they parse. */
  datatype Message = Message(headers: seq<(string, string)>, via: Option<(string, string)>, cseq: Option<nat>)

  function HeaderLines(headers: seq<(string, string)>, name: string): seq<string> {
    if headers == [] then []
    else
      (if Lower(headers[0].0) == Lower(name) then [headers[0].1] else []) + HeaderLines(headers[1..], name)
  }

  function Require(m: Message, name: string): Result<string> {
    var lines := HeaderLines(m.headers, name);
    if lines == [] then Err("no such header") else Ok(lines[0])
  }

  function RecordRouteSet(m: Message): seq<string> { HeaderList.AllEntries(HeaderLines(m.headers, "Record-Route")) }

  function Parts(value: string): Option<NameAddr.Parted> { NameAddr.Named("", value, NameAddr.OUTSIDE) }

  /** The addr-spec: in angle brackets if there are any, else up to the first semicolon. */
  function AddrSpec(value: string): (r: Result<string>)
    ensures r.Ok? ==> r.value != "" && Trimmed(r.value, Space)
  {
    var parts := Parts(value);
    var spec := Strip(if parts.Some? then parts.value.spec else value[..Find(value, ';', 0)], Space);
    if spec == "" then Err("empty addr-spec") else Ok(spec)
  }

  function UriAndTag(value: string): Result<(string, Option<string>)> {
    match AddrSpec(value)
    case Err(e) => Err(e)
    case Ok(uri) =>
      var parts := Parts(value);
      var params := if parts.Some? then parts.value.trailing else NameAddr.AfterAddr(value, NameAddr.OUTSIDE, 0);
      Ok((uri, NameAddr.TagOf(NameAddr.SplitFrom(params, "", NameAddr.OUTSIDE))))
  }

  /** An identity: both parts must be there. */
  function Identity(m: Message, name: string): Result<(string, string)> {
    match Require(m, name)
    case Err(e) => Err(e)
    case Ok(value) =>
      match UriAndTag(value)
      case Err(e) => Err(e)
      case Ok((_, None)) => Err("no tag")
      case Ok((uri, Some(tag))) => Ok((uri, tag))
  }

  datatype Dialog = Dialog(
    callId: string,
    localUri: string,
    localTag: string,
    remoteUri: string,
    remoteTag: string,
    remoteTarget: string,
    routeSet: seq<string>,
    localContact: string,
    localSentBy: string,
    transport: string,
    localCseq: nat,
    sdpVersion: nat,
    userAgent: string)

  function Reverse(xs: seq<string>): (r: seq<string>)
    ensures |r| == |xs| && forall i :: 0 <= i < |xs| ==> r[i] == xs[|xs| - 1 - i]
  {
    if xs == [] then [] else Reverse(xs[1..]) + [xs[0]]
  }

  function UserAgent(m: Message): string {
    match Require(m, "User-Agent")
    case Ok(agent) => if agent == "" then DEFAULT_USER_AGENT else agent
    case Err(_) => DEFAULT_USER_AGENT
  }

  function Target(m: Message): Result<string> {
    match Require(m, "Contact")
    case Err(e) => Err(e)
    case Ok(value) => AddrSpec(value)
  }

  /** The caller's dialog: our identity from the INVITE, the peer's from the 2xx, its routes reversed. */
  function FromInvite2xx(invite: Message, response: Message): Result<Dialog> {
    match (Identity(invite, "From"), Identity(response, "To"), Require(invite, "Call-ID"), Target(response),
           Require(invite, "Contact"), invite.via, invite.cseq)
    case (Ok((localUri, localTag)), Ok((remoteUri, remoteTag)), Ok(callId), Ok(target), Ok(contact),
          Some((transport, sentBy)), Some(cseq)) =>
      if cseq >= MAX_CSEQ then Err("CSeq out of range")
      else Ok(Dialog(callId, localUri, localTag, remoteUri, remoteTag, target, Reverse(RecordRouteSet(response)),
                     contact, sentBy, transport, cseq, 0, UserAgent(invite)))
    case _ => Err("malformed exchange")
  }

  /** The callee's dialog: the peer's identity from the INVITE, the routes in order; our tag and contact are given. */
  function FromInboundInvite(invite: Message, localTag: string, localContact: string, localSentBy: string,
                             transport: string, userAgent: string): Result<Dialog>
  {
    match (Identity(invite, "From"), Require(invite, "To"), Require(invite, "Call-ID"), Target(invite))
    case (Ok((remoteUri, remoteTag)), Ok(to), Ok(callId), Ok(target)) =>
      (match AddrSpec(to)
       case Err(e) => Err(e)
       case Ok(localUri) =>
         Ok(Dialog(callId, localUri, localTag, remoteUri, remoteTag, target, RecordRouteSet(invite), localContact,
                   localSentBy, transport, 0, 0, userAgent)))
    case _ => Err("malformed INVITE")
  }

  // --- in-dialog requests ---------------------------------------------------------------

  datatype Request = Request(
    verb: string,
    target: string,
    routes: seq<string>,
    from: string,
    to: string,
    callId: string,
    cseq: nat,
    contact: string,
    userAgent: string,
    extra: seq<(string, string)>,
    body: string)

  /** `lr` at this point, ended by the end or a character that is no part of a word. */
  predicate LrAt(s: string, at: nat) {
    && at + 2 <= |s| && Lower(s[at..at + 2]) == "lr"
    && (at + 2 == |s| || !Word(s[at + 2]))
  }

  /** A loose router: somewhere a semicolon, white space, and the `lr` parameter. */
  predicate Loose(route: string) { exists i, j :: 0 <= i < j <= |route| && LrAfter(route, i, j) }

  predicate LrAfter(route: string, i: nat, j: nat)
    requires i < j <= |route|
  {
    route[i] == ';' && (forall k :: i < k < j ==> Space(route[k])) && LrAt(route, j)
  }

  /** A URI with the `lr` parameter is that of a loose router, whatever surrounds it, unless a longer word begins so. */
  lemma LooseIff(uri: string, blank: string, rest: string)
    requires ';' !in uri && ';' !in rest && forall i :: 0 <= i < |blank| ==> Space(blank[i])
    ensures Loose(uri + ";" + blank + "lr" + rest) <==> rest == "" || !Word(rest[0])
    ensures !Loose(uri)
  {
    var s, j := uri + ";" + blank + "lr" + rest, |uri| + 1 + |blank|;
    OneSemicolon(uri, blank, rest);
    LowerLr();
    assert s[j..j + 2] == "lr" && (forall k :: |uri| < k < j ==> Space(s[k]) && LowerChar(s[k]) != 'l');
    assert rest != "" ==> s[j + 2] == rest[0];
    assert LrAfter(s, |uri|, j) <==> rest == "" || !Word(rest[0]);
    forall i, m | 0 <= i < m <= |s| && LrAfter(s, i, m) ensures i == |uri| && m == j {
      assert i == |uri| && Lower(s[m..m + 2])[0] == LowerChar(s[m]) && s[j] == 'l' && !Space('l');
    }
  }

  lemma OneSemicolon(uri: string, blank: string, rest: string)
    requires ';' !in uri && ';' !in rest && forall k :: 0 <= k < |blank| ==> Space(blank[k])
    ensures var s := uri + ";" + blank + "lr" + rest;
            forall i :: 0 <= i < |s| && s[i] == ';' ==> i == |uri|
  {
    var s, j := uri + ";" + blank + "lr" + rest, |uri| + 1 + |blank|;
    assert forall i :: 0 <= i < |uri| ==> s[i] == uri[i] && uri[i] != ';';
    assert forall i :: |uri| < i < j ==> s[i] == blank[i - |uri| - 1] && s[i] != ';';
    assert s[j] == 'l' && s[j + 1] == 'r';
    assert forall i :: j + 2 <= i < |s| ==> s[i] == rest[i - j - 2] && s[i] != ';';
  }

  lemma LowerLr()
    ensures Lower("lr") == "lr"
  {
  }

  /** Header names are matched in any case, the lines of one name in their order. */
  lemma {:induction false} NamesInAnyCase(headers: seq<(string, string)>, other: seq<(string, string)>, name: string)
    requires |headers| == |other|
    requires forall i :: 0 <= i < |headers| ==>
               Lower(headers[i].0) == Lower(other[i].0) && headers[i].1 == other[i].1
    ensures HeaderLines(headers, name) == HeaderLines(other, name) == HeaderLines(other, Lower(name))
  {
    LowerTwice(name);
    hide Lower;
    if headers != [] {
      assert forall i :: 0 <= i < |headers| - 1 ==> headers[1..][i] == headers[i + 1] && other[1..][i] == other[i + 1];
      NamesInAnyCase(headers[1..], other[1..], name);
    }
  }

  lemma LowerTwice(s: string)
    ensures Lower(Lower(s)) == Lower(s)
  {
    assert forall i :: 0 <= i < |s| ==> LowerChar(LowerChar(s[i])) == LowerChar(s[i]);
  }

  function PrintIdentity(uri: string, tag: string): string { "<" + uri + ">" + ";tag=" + tag }

  function BuildInDialogRequest(d: Dialog, verb: string, extra: seq<(string, string)>, body: string)
    : Result<(Request, Dialog)>
  {
    if d.routeSet != [] && !Loose(d.routeSet[0]) then Err("strict router")
    else if d.localCseq + 1 >= MAX_CSEQ then Err("CSeq exhausted")
    else
      Ok((Request(verb, d.remoteTarget, d.routeSet, PrintIdentity(d.localUri, d.localTag),
                  PrintIdentity(d.remoteUri, d.remoteTag), d.callId, d.localCseq + 1, d.localContact, d.userAgent,
                  extra, body),
          d.(localCseq := d.localCseq + 1)))
  }

  // --- printing and parsing identities -------------------------------------------------------

  predicate Plain(uri: string) { uri != "" && Trimmed(uri, Space) && '>' !in uri }

  lemma TagParsed(params: seq<NameAddr.Param>, tag: string)
    requires NameAddr.Token(tag) && forall i :: 0 <= i < |params| ==> NameAddr.Generic(params[i])
    ensures var trailing := ";" + Join(NameAddr.PrintAll(params) + ["tag=" + tag], ";");
            NameAddr.TagOf(NameAddr.SplitFrom(trailing, "", NameAddr.OUTSIDE)) == Some(tag)
  {
    var parts := NameAddr.PrintAll(params) + ["tag=" + tag];
    NameAddr.TagFound(params, tag);
    NameAddr.SplitInvertsJoin(parts);
    hide NameAddr.PrintAll, NameAddr.Parts, Join;
    var trailing := ";" + Join(parts, ";");
    assert trailing[0] == ';' && trailing[1..] == Join(parts, ";");
    assert NameAddr.SplitFrom(trailing, "", NameAddr.OUTSIDE) == [""] + parts;
    assert ([""] + parts)[1..] == parts && !NameAddr.IsTag("");
  }

  lemma Located(display: string, uri: string, trailing: string)
    requires NameAddr.NoAngle(display, NameAddr.OUTSIDE)
    requires NameAddr.AfterAll(NameAddr.OUTSIDE, display) == NameAddr.OUTSIDE && Plain(uri)
    ensures UriAndTag(display + "<" + uri + ">" + trailing)
         == Ok((uri, NameAddr.TagOf(NameAddr.SplitFrom(trailing, "", NameAddr.OUTSIDE))))
  {
    NameAddr.AngleFound(display, uri, trailing);
    StripIff(uri, Space);
    hide NameAddr.Named, NameAddr.TagOf, NameAddr.SplitFrom, Strip;
  }

  /**
    For every display name printed as a quoted-string, or none, every plain URI, every
    list of generic-params, quoted ones of any contents among them, and every token tag,
    exactly that URI and tag are read back.
  */
  lemma IdentityRoundTrip(display: Option<string>, uri: string, params: seq<NameAddr.Param>, tag: string)
    requires Plain(uri) && NameAddr.Token(tag) && forall i :: 0 <= i < |params| ==> NameAddr.Generic(params[i])
    ensures var name := if display.Some? then NameAddr.Quoted(display.value) + " " else "";
            var trailing := ";" + Join(NameAddr.PrintAll(params) + ["tag=" + tag], ";");
            UriAndTag(name + "<" + uri + ">" + trailing) == Ok((uri, Some(tag)))
  {
    var name := if display.Some? then NameAddr.Quoted(display.value) + " " else "";
    if display.Some? { NameAddr.SpacedName(display.value); }
    TagParsed(params, tag);
    hide UriAndTag, NameAddr.PrintAll, NameAddr.Quoted, Join;
    Located(name, uri, ";" + Join(NameAddr.PrintAll(params) + ["tag=" + tag], ";"));
  }

  /** A bare URI is read back with its tag too, whatever the generic-params between them say. */
  lemma BareIdentityRoundTrip(uri: string, params: seq<NameAddr.Param>, tag: string)
    requires NameAddr.Unbracketed(uri) && Trimmed(uri, Space)
    requires NameAddr.Token(tag) && forall i :: 0 <= i < |params| ==> NameAddr.Generic(params[i])
    ensures UriAndTag(uri + ";" + Join(NameAddr.PrintAll(params) + ["tag=" + tag], ";")) == Ok((uri, Some(tag)))
  {
    var parts := NameAddr.PrintAll(params) + ["tag=" + tag];
    var rest := Join(parts, ";");
    var value := uri + ";" + rest;
    NameAddr.UnbracketedLead(uri);
    NameAddr.ParamsNoAngle(params, tag);
    NameAddr.TagFound(params, tag);
    NameAddr.SplitInvertsJoin(parts);
    StripIff(uri, Space);
    CutAt(uri, ';', rest);
    assert uri + [';'] + rest == value;
    hide NameAddr.PrintAll, NameAddr.Parts, NameAddr.NoAngle, NameAddr.AfterAll, Join, Strip, Find, NameAddr.TagOf,
      NameAddr.SplitFrom, NameAddr.AfterAddr, NameAddr.Named, NameAddr.Lead;
    NameAddr.AddrParamsFound(uri, rest);
    BareNoAngle(uri, rest);
    NameAddr.NoAngleNone(value);
  }

  lemma BareNoAngle(uri: string, rest: string)
    requires NameAddr.Unbracketed(uri) && NameAddr.NoAngle(rest, NameAddr.OUTSIDE)
    ensures NameAddr.NoAngle(uri + ";" + rest, NameAddr.OUTSIDE)
  {
    NameAddr.UnbracketedLead(uri);
    hide NameAddr.NoAngle, NameAddr.AfterAll, NameAddr.NoBreak, NameAddr.DepthAfter;
    NameAddr.JoinedNoAngle(uri, rest);
  }

  lemma PlainReadBack(uri: string, tag: string)
    requires Plain(uri) && NameAddr.Token(tag)
    ensures UriAndTag(PrintIdentity(uri, tag)) == Ok((uri, Some(tag)))
  {
    hide UriAndTag, Plain, NameAddr.Token;
    IdentityRoundTrip(None, uri, [], tag);
    assert NameAddr.PrintAll([]) + ["tag=" + tag] == ["tag=" + tag];
    assert PrintIdentity(uri, tag) == "" + "<" + uri + ">" + (";" + ("tag=" + tag));
  }

  lemma UriAndTagParts(value: string)
    requires UriAndTag(value).Ok?
    ensures AddrSpec(value) == Ok(UriAndTag(value).value.0)
    ensures UriAndTag(value).value.1.Some? ==> NameAddr.Token(UriAndTag(value).value.1.value)
  {
    hide AddrSpec, NameAddr.TagOf, NameAddr.SplitFrom, NameAddr.Named, NameAddr.AfterAddr, NameAddr.Token;
  }

  lemma ReadBackPlain(uri: string, tag: string)
    requires UriAndTag(PrintIdentity(uri, tag)) == Ok((uri, Some(tag)))
    ensures Plain(uri) && NameAddr.Token(tag)
  {
    hide UriAndTag, AddrSpec, NameAddr.Token;
    UriAndTagParts(PrintIdentity(uri, tag));
    assert PrintIdentity(uri, tag) == "<" + uri + (">" + ";tag=" + tag);
    SpecNotPlain(uri, ">" + ";tag=" + tag);
  }

  /** What a dialog prints is read back exactly when its URI is plain and its tag a token. */
  lemma PrintedIdentityIff(uri: string, tag: string)
    ensures UriAndTag(PrintIdentity(uri, tag)) == Ok((uri, Some(tag))) <==> Plain(uri) && NameAddr.Token(tag)
  {
    if Plain(uri) && NameAddr.Token(tag) { PlainReadBack(uri, tag); }
    if UriAndTag(PrintIdentity(uri, tag)) == Ok((uri, Some(tag))) { ReadBackPlain(uri, tag); }
    hide UriAndTag, Plain, NameAddr.Token;
  }

  lemma SpecNotPlain(uri: string, rest: string)
    requires rest != "" && rest[0] == '>'
    ensures AddrSpec("<" + uri + rest).Ok? ==> '>' !in AddrSpec("<" + uri + rest).value
  {
    var value := "<" + uri + rest;
    var close := Find(value, '>', 1);
    assert value[|uri| + 1] == '>';
    assert Parts(value) == Some(NameAddr.Parted("", value[1..close], value[close + 1..]));
    StripSubset(value[1..close], '>', Space);
  }

  // --- the two ends of one dialog -----------------------------------------------------------------

  /** The two ends of one dialog (sections 12.1.1 and 12.1.2 of RFC 3261). */
  predicate Mirrored(ours: Dialog, theirs: Dialog) {
    && ours.callId == theirs.callId
    && ours.localUri == theirs.remoteUri && ours.localTag == theirs.remoteTag
    && ours.remoteUri == theirs.localUri && ours.remoteTag == theirs.localTag
    && ours.routeSet == Reverse(theirs.routeSet)
  }

  lemma ReverseTwice(xs: seq<string>)
    ensures Reverse(Reverse(xs)) == xs
  {
  }

  lemma MirroredBack(ours: Dialog, theirs: Dialog)
    requires Mirrored(ours, theirs)
    ensures Mirrored(theirs, ours)
  {
    ReverseTwice(theirs.routeSet);
  }

  /**
    A 2xx that echoes the INVITE as section 8.2.6 of RFC 3261 has it: the same Call-ID and
    recorded routes, and the tag of the callee added to a To that had none.
  */
  predicate Answers(invite: Message, response: Message, tag: string) {
    && Require(response, "Call-ID") == Require(invite, "Call-ID")
    && RecordRouteSet(response) == RecordRouteSet(invite)
    && match Require(invite, "To")
       case Err(_) => false
       case Ok(to) => Require(response, "To") == Ok(to + ";tag=" + tag)
  }

  /** The To of an INVITE: a quoted display name or none, a URI in brackets, generic-params, and no tag yet. */
  function PrintTo(display: Option<string>, uri: string, params: seq<NameAddr.Param>): string {
    (if display.Some? then NameAddr.Quoted(display.value) + " " else "") + "<" + uri + ">"
    + (if params == [] then "" else ";" + Join(NameAddr.PrintAll(params), ";"))
  }

  lemma TaggedTo(display: Option<string>, uri: string, params: seq<NameAddr.Param>, tag: string)
    requires Plain(uri) && NameAddr.Token(tag) && forall i :: 0 <= i < |params| ==> NameAddr.Generic(params[i])
    ensures UriAndTag(PrintTo(display, uri, params) + ";tag=" + tag) == Ok((uri, Some(tag)))
  {
    hide UriAndTag, NameAddr.Quoted, Plain, NameAddr.Token, NameAddr.Generic;
    IdentityRoundTrip(display, uri, params, tag);
    var name := if display.Some? then NameAddr.Quoted(display.value) + " " else "";
    var printed := NameAddr.PrintAll(params);
    if params == [] {
      assert printed + ["tag=" + tag] == ["tag=" + tag];
      assert Join(["tag=" + tag], ";") == "tag=" + tag;
      assert name + "<" + uri + ">" + "" + ";tag=" + tag == name + "<" + uri + ">" + (";" + ("tag=" + tag));
    } else {
      JoinConcat(printed, ["tag=" + tag], ";");
      assert Join(["tag=" + tag], ";") == "tag=" + tag;
      hide Join, NameAddr.PrintAll;
      Regrouped(name + "<" + uri + ">", Join(printed, ";"), tag);
    }
  }

  lemma Regrouped(addr: string, params: string, tag: string)
    ensures addr + (";" + params) + ";tag=" + tag == addr + (";" + (params + ";" + ("tag=" + tag)))
  {
    assert ";tag=" == ";" + "tag=";
  }

  lemma UntaggedSpec(display: Option<string>, uri: string, params: seq<NameAddr.Param>)
    requires Plain(uri)
    ensures AddrSpec(PrintTo(display, uri, params)) == Ok(uri)
  {
    var name := if display.Some? then NameAddr.Quoted(display.value) + " " else "";
    if display.Some? { NameAddr.SpacedName(display.value); }
    var trailing := if params == [] then "" else ";" + Join(NameAddr.PrintAll(params), ";");
    hide UriAndTag, AddrSpec, NameAddr.PrintAll, NameAddr.Quoted, Join, Plain;
    Located(name, uri, trailing);
    UriAndTagParts(name + "<" + uri + ">" + trailing);
  }

  /** What both ends need: a caller with a tag, two contacts to reach, the call's id, and a Via and CSeq that parse. */
  predicate Complete(invite: Message, response: Message) {
    && Identity(invite, "From").Ok? && Require(invite, "Call-ID").Ok? && Target(invite).Ok? && Target(response).Ok?
    && invite.via.Some? && invite.cseq.Some? && invite.cseq.value < MAX_CSEQ
  }

  /** An INVITE whose To reads as above, and its 2xx, give both ends exactly then, and as the ends of one dialog. */
  lemma EndsMirrored(invite: Message, response: Message, display: Option<string>, uri: string,
                     params: seq<NameAddr.Param>, tag: string, contact: string, sentBy: string, transport: string,
                     agent: string)
    requires Plain(uri) && NameAddr.Token(tag) && forall i :: 0 <= i < |params| ==> NameAddr.Generic(params[i])
    ensures var ours := FromInvite2xx(invite, response);
            var theirs := FromInboundInvite(invite, tag, contact, sentBy, transport, agent);
            Require(invite, "To") == Ok(PrintTo(display, uri, params)) && Answers(invite, response, tag) ==>
              && (ours.Ok? && theirs.Ok? <==> Complete(invite, response))
              && (ours.Ok? && theirs.Ok? ==>
                    && Mirrored(ours.value, theirs.value) && ours.value.localCseq < MAX_CSEQ
                    && ours.value.remoteUri == uri && ours.value.remoteTag == tag
                    && Target(response) == Ok(ours.value.remoteTarget)
                    && Target(invite) == Ok(theirs.value.remoteTarget))
  {
    hide UriAndTag, AddrSpec, RecordRouteSet, Require, Plain, NameAddr.Token, NameAddr.Generic, Reverse, Target,
      UserAgent, PrintTo;
    TaggedTo(display, uri, params, tag);
    UntaggedSpec(display, uri, params);
    if Require(invite, "To") == Ok(PrintTo(display, uri, params)) && Answers(invite, response, tag) {
      assert Identity(response, "To") == Ok((uri, tag));
      ContactThere(invite);
      hide Identity, Answers;
    }
  }

  lemma ContactThere(m: Message)
    ensures Target(m).Ok? ==> Require(m, "Contact").Ok?
  {
    hide AddrSpec, Require;
  }

  /**
    The From and To one end prints are read by the other as its own remote and local
    identities, under the next CSeq; nothing but the CSeq changes.
  */
  lemma RequestReadByPeer(ours: Dialog, theirs: Dialog, verb: string, extra: seq<(string, string)>, body: string)
    requires Mirrored(ours, theirs)
    requires Plain(ours.localUri) && Plain(ours.remoteUri)
    requires NameAddr.Token(ours.localTag) && NameAddr.Token(ours.remoteTag)
    ensures var r := BuildInDialogRequest(ours, verb, extra, body);
            && (r.Ok? <==> (ours.routeSet == [] || Loose(ours.routeSet[0])) && ours.localCseq + 1 < MAX_CSEQ)
            && (r.Ok? ==>
                  && UriAndTag(r.value.0.from) == Ok((theirs.remoteUri, Some(theirs.remoteTag)))
                  && UriAndTag(r.value.0.to) == Ok((theirs.localUri, Some(theirs.localTag)))
                  && r.value.0.routes == Reverse(theirs.routeSet)
                  && r.value.0.cseq == ours.localCseq + 1 == r.value.1.localCseq
                  && r.value.0.target == ours.remoteTarget && r.value.0.callId == theirs.callId
                  && r.value.0.verb == verb && r.value.0.extra == extra && r.value.0.body == body
                  && r.value.0.contact == ours.localContact && r.value.0.userAgent == ours.userAgent
                  && Mirrored(r.value.1, theirs) && r.value.1.sdpVersion == ours.sdpVersion)
  {
    PlainReadBack(ours.localUri, ours.localTag);
    PlainReadBack(ours.remoteUri, ours.remoteTag);
    hide UriAndTag, PrintIdentity, Plain, NameAddr.Token, Loose;
  }

  /**
    The first request of a caller on the dialog its INVITE and the 2xx built: it goes to the Contact of that
    2xx, under the Call-ID, the Contact and the next CSeq of the INVITE, and the callee reads it as its own.
  */
  lemma FirstRequestReadByPeer(invite: Message, response: Message, display: Option<string>, uri: string,
                               params: seq<NameAddr.Param>, tag: string, contact: string, sentBy: string,
                               transport: string, agent: string, verb: string)
    requires Plain(uri) && NameAddr.Token(tag) && forall i :: 0 <= i < |params| ==> NameAddr.Generic(params[i])
    requires Require(invite, "To") == Ok(PrintTo(display, uri, params)) && Answers(invite, response, tag)
    requires Complete(invite, response)
    ensures var ours, theirs := FromInvite2xx(invite, response),
                                FromInboundInvite(invite, tag, contact, sentBy, transport, agent);
            && ours.Ok? && theirs.Ok?
            && var r := BuildInDialogRequest(ours.value, verb, [], "");
               Plain(ours.value.localUri) && NameAddr.Token(ours.value.localTag) && r.Ok? ==>
                 && Target(response) == Ok(r.value.0.target) && Require(invite, "Call-ID") == Ok(r.value.0.callId)
                 && Require(invite, "Contact") == Ok(r.value.0.contact)
                 && r.value.0.cseq == invite.cseq.value + 1
                 && UriAndTag(r.value.0.from) == Ok((theirs.value.remoteUri, Some(theirs.value.remoteTag)))
                 && UriAndTag(r.value.0.to) == Ok((uri, Some(tag)))
  {
    EndsMirrored(invite, response, display, uri, params, tag, contact, sentBy, transport, agent);
    var ours := FromInvite2xx(invite, response);
    var theirs := FromInboundInvite(invite, tag, contact, sentBy, transport, agent);
    BuiltFrom(invite, response);
    hide FromInvite2xx, FromInboundInvite, UriAndTag, PrintTo, Answers, Complete, Plain, NameAddr.Token, Target,
      Require, NameAddr.Generic, BuildInDialogRequest;
    if Plain(ours.value.localUri) && NameAddr.Token(ours.value.localTag) {
      RequestReadByPeer(ours.value, theirs.value, verb, [], "");
    }
  }

  /** What the caller's dialog takes over from its own INVITE. */
  lemma BuiltFrom(invite: Message, response: Message)
    ensures var ours := FromInvite2xx(invite, response);
            ours.Ok? ==>
              && Require(invite, "Call-ID") == Ok(ours.value.callId) && invite.cseq == Some(ours.value.localCseq)
              && Require(invite, "Contact") == Ok(ours.value.localContact)
              && invite.via == Some((ours.value.transport, ours.value.localSentBy)) && ours.value.sdpVersion == 0
              && ours.value.userAgent != ""
              && (Require(invite, "User-Agent") == Ok(ours.value.userAgent)
                  || (ours.value.userAgent == "hermes-voip/0"
                      && (Require(invite, "User-Agent").Err? || Require(invite, "User-Agent") == Ok(""))))
  {
    hide Identity, Require, Target, RecordRouteSet, Reverse;
  }

  /** ... and the callee's from what it was given; its own requests start at CSeq 1. */
  lemma BuiltGiven(invite: Message, tag: string, contact: string, sentBy: string, transport: string, agent: string)
    ensures var theirs := FromInboundInvite(invite, tag, contact, sentBy, transport, agent);
            theirs.Ok? ==>
              && Require(invite, "Call-ID") == Ok(theirs.value.callId) && theirs.value.localTag == tag
              && theirs.value.localContact == contact && theirs.value.localSentBy == sentBy
              && theirs.value.transport == transport && theirs.value.userAgent == agent
              && theirs.value.localCseq == 0 && theirs.value.sdpVersion == 0
  {
    hide Identity, Require, Target, RecordRouteSet, AddrSpec;
  }

  /** An address that names somebody. */
  predicate Named(uri: string, tag: string) { uri != "" && Trimmed(uri, Space) && NameAddr.Token(tag) }

  lemma IdentityNamed(m: Message, name: string)
    ensures Identity(m, name).Ok? ==> Named(Identity(m, name).value.0, Identity(m, name).value.1)
  {
    hide UriAndTag, AddrSpec, NameAddr.Token;
    var line := Require(m, name);
    if line.Ok? && UriAndTag(line.value).Ok? { UriAndTagParts(line.value); }
  }

  /** No dialog without two named ends and a target: a From or To without a tag, or an empty address, builds none. */
  lemma DialogNamed(invite: Message, response: Message, tag: string, contact: string, sentBy: string,
                    transport: string, agent: string)
    ensures var ours := FromInvite2xx(invite, response);
            ours.Ok? ==>
              && Named(ours.value.localUri, ours.value.localTag) && Named(ours.value.remoteUri, ours.value.remoteTag)
              && ours.value.remoteTarget != ""
    ensures var theirs := FromInboundInvite(invite, tag, contact, sentBy, transport, agent);
            theirs.Ok? ==>
              Named(theirs.value.remoteUri, theirs.value.remoteTag) && theirs.value.localUri != ""
              && theirs.value.remoteTarget != ""
  {
    IdentityNamed(invite, "From");
    IdentityNamed(response, "To");
    hide Identity, Require, RecordRouteSet, Reverse, UserAgent, Named;
  }

  /** However a proxy chain is grouped into Record-Route lines, both ends hold the same route set. */
  lemma RoutesUngrouped(m: Message, groups: seq<seq<string>>)
    requires HeaderLines(m.headers, "Record-Route") == HeaderList.Lines(groups)
    requires forall g :: g in groups ==> g != [] && forall e :: e in g ==> HeaderList.Entry(e)
    ensures RecordRouteSet(m) == HeaderList.Flatten(groups)
  {
    HeaderList.GroupingIrrelevant(groups);
  }
}
