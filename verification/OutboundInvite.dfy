/**
  The client side of an outbound INVITE: awaiting finals, and the loop that answers one
  digest challenge and one 422 in either order (section 6 of RFC 4028).
*/
module OutboundInvite {
  import opened Wrappers

  const MAX_STALE_FINALS: nat := 8
  const FINAL_FLOOR: nat := 200

  datatype MinSe = NoMinSe | BadMinSe | MinSe(seconds: nat)

  datatype Challenge = NoChallenge | UnusableChallenge | Challenge(id: nat)

  /** A response as the loop reads it; `cancels` marks the answer to our own CANCEL. */
  datatype Response = Response(status: nat, cancels: bool, cseq: Option<nat>, minSe: MinSe, challenge: Challenge)

  /** Credentials answer one challenge, as Authorization or as Proxy-Authorization. */
  datatype Credentials = Credentials(proxy: bool, challenge: nat)

  datatype Invite = Invite(cseq: nat, sessionExpires: nat, auth: Option<Credentials>)

  datatype Verdict = Classified(final: Response) | TimedOut | Failed(status: nat) | Raised

  predicate Final(r: Response) { r.status >= FINAL_FLOOR && !r.cancels }

  /** How many finals of the INVITE lie in stream[from..upto]. */
  function Finals(stream: seq<Response>, from: nat, upto: nat): nat
    requires upto <= |stream|
    decreases upto
  {
    if upto <= from then 0 else Finals(stream, from, upto - 1) + if Final(stream[upto - 1]) then 1 else 0
  }

  lemma {:induction false} FinalsSplit(stream: seq<Response>, from: nat, mid: nat, upto: nat)
    requires from <= mid <= upto <= |stream|
    ensures Finals(stream, from, upto) == Finals(stream, from, mid) + Finals(stream, mid, upto)
    decreases upto
  {
    if mid < upto { FinalsSplit(stream, from, mid, upto - 1); }
  }

  lemma {:induction false} NoFinals(stream: seq<Response>, from: nat, upto: nat)
    requires from <= upto <= |stream| && forall k :: from <= k < upto ==> !Final(stream[k])
    ensures Finals(stream, from, upto) == 0
    decreases upto
  {
    if from < upto { NoFinals(stream, from, upto - 1); }
  }

  /** The next final of the INVITE: provisionals and the 200 to our CANCEL are passed over. */
  method AwaitInviteResponse(stream: seq<Response>, at: nat) returns (r: Option<Response>, next: nat)
    requires at <= |stream|
    ensures at <= next <= |stream|
    ensures r.None? ==> next == |stream| && Finals(stream, at, next) == 0
    ensures r.Some? ==> next > at && r.value == stream[next - 1] && Final(r.value) && Finals(stream, at, next - 1) == 0
    ensures Finals(stream, at, next) == if r.Some? then 1 else 0
  {
    next := at;
    while next < |stream|
      invariant at <= next <= |stream|
      invariant forall k :: at <= k < next ==> !Final(stream[k])
    {
      var response := stream[next];
      if response.status >= FINAL_FLOOR && !response.cancels {
        NoFinals(stream, at, next);
        return Some(response), next + 1;
      }
      next := next + 1;
    }
    NoFinals(stream, at, next);
    r := None;
  }

  /** No final of stream[from..upto] is of the given INVITE. */
  predicate AllStale(stream: seq<Response>, from: nat, upto: nat, cseq: nat)
    requires upto <= |stream|
  {
    forall k :: from <= k < upto && Final(stream[k]) ==> stream[k].cseq != Some(cseq)
  }

  lemma StaleGap(stream: seq<Response>, from: nat, upto: nat, cseq: nat)
    requires from <= upto <= |stream| && Finals(stream, from, upto) == 0
    ensures AllStale(stream, from, upto, cseq)
    decreases upto
  {
    if from < upto { StaleGap(stream, from, upto - 1, cseq); }
  }

  /**
    The first final that carries the CSeq of the INVITE just sent, among the next nine;
    nine finals of other CSeqs are a flood, and fail the call.
  */
  method AwaitInviteFinalForCseq(stream: seq<Response>, at: nat, cseq: nat) returns (out: Verdict, next: nat)
    requires at <= |stream|
    ensures at <= next <= |stream|
    ensures Finals(stream, at, next) <= 9
    ensures out.Classified? ==>
              && next > at && out.final == stream[next - 1] && Final(out.final) && out.final.cseq == Some(cseq)
              && AllStale(stream, at, next - 1, cseq)
    ensures out.TimedOut? ==> next == |stream| && AllStale(stream, at, next, cseq)
    ensures !out.Raised?
    ensures out.Failed? ==>
              next > at && Final(stream[next - 1]) && out.status == 504
              && AllStale(stream, at, next, cseq) && Finals(stream, at, next) == 9
  {
    var staleFinals := 0;
    next := at;
    while true
      invariant at <= next <= |stream| && staleFinals == Finals(stream, at, next) <= MAX_STALE_FINALS
      invariant AllStale(stream, at, next, cseq)
      decreases |stream| - next
    {
      var r, after := AwaitInviteResponse(stream, next);
      FinalsSplit(stream, at, next, after);
      StaleGap(stream, next, if r.Some? then after - 1 else after, cseq);
      next := after;
      if r.None? { return TimedOut, next; }
      if r.value.cseq == Some(cseq) { return Classified(r.value), next; }
      staleFinals := staleFinals + 1;
      if staleFinals > MAX_STALE_FINALS { return Failed(504), next; }
    }
  }

  // --- the challenge and 422 loop -----------------------------------------------------

  predicate IsChallenge(r: Response) { r.status == 401 || r.status == 407 }

  /** A 422 that says what to raise the interval to. */
  predicate RaisesInterval(r: Response) { r.status == 422 && r.minSe.MinSe? }

  /** The re-sent INVITE remedies the final that provoked it, and keeps all the earlier remedies. */
  predicate Remedies(before: Invite, final: Response, after: Invite) {
    && after.cseq == before.cseq + 1
    && (final.status == 401 || final.status == 407 || RaisesInterval(final))
    && (final.status == 401 || final.status == 407 ==>
          && before.auth.None? && final.challenge.Challenge?
          && after.auth == Some(Credentials(final.status == 407, final.challenge.id))
          && after.sessionExpires == before.sessionExpires)
    && (RaisesInterval(final) ==>
          && after.auth == before.auth
          && after.sessionExpires == if before.sessionExpires < final.minSe.seconds then final.minSe.seconds
                                     else before.sessionExpires)
  }

  /** A dial: the INVITEs sent, and the final that provoked each re-send. */
  predicate Dialled(invites: seq<Invite>, provoked: seq<Response>, offered: nat) {
    && |invites| == |provoked| + 1 <= 3
    && invites[0] == Invite(1, offered, None)
    && (forall i :: 0 <= i < |provoked| ==> Remedies(invites[i], provoked[i], invites[i + 1]))
    && (forall i, j :: 0 <= i < j < |provoked| ==> IsChallenge(provoked[i]) != IsChallenge(provoked[j]))
    && (forall i :: 1 <= i < |provoked| ==> provoked[i].cseq == Some(invites[i].cseq))
  }

  predicate Saw(provoked: seq<Response>, challenge: bool) {
    exists i :: 0 <= i < |provoked| && IsChallenge(provoked[i]) == challenge
  }

  /** One more INVITE, for a final of a kind not remedied yet. */
  lemma Redials(invites: seq<Invite>, provoked: seq<Response>, offered: nat, final: Response, again: Invite)
    requires Dialled(invites, provoked, offered) && Remedies(invites[|provoked|], final, again)
    requires !Saw(provoked, IsChallenge(final)) && |provoked| < 2
    requires provoked != [] ==> final.cseq == Some(invites[|provoked|].cseq)
    ensures Dialled(invites + [again], provoked + [final], offered)
    ensures forall c :: Saw(provoked + [final], c) <==> Saw(provoked, c) || c == IsChallenge(final)
  {
    var all, ps := invites + [again], provoked + [final];
    assert forall i :: 0 <= i < |invites| ==> all[i] == invites[i];
    assert forall i :: 0 <= i < |provoked| ==> ps[i] == provoked[i];
    forall c ensures Saw(ps, c) <==> Saw(provoked, c) || c == IsChallenge(final) {
      if Saw(provoked, c) {
        var i :| 0 <= i < |provoked| && IsChallenge(provoked[i]) == c;
        assert ps[i] == provoked[i];
      }
      assert ps[|provoked|] == final;
    }
  }

  /** Whether the loop would act on this final: a remedy for it exists and has not been used up. */
  predicate Actionable(r: Response, provoked: seq<Response>) {
    (RaisesInterval(r) && !Saw(provoked, false)) || (IsChallenge(r) && !Saw(provoked, true))
  }

  /** What a dial guarantees: three INVITEs at most, numbered upwards, each as good as the ones before. */
  lemma DialBounded(invites: seq<Invite>, provoked: seq<Response>, offered: nat)
    requires Dialled(invites, provoked, offered)
    ensures 1 <= |invites| <= 3
    ensures forall i :: 0 <= i < |invites| ==> invites[i].cseq == i + 1
    ensures forall i, j :: 0 <= i < j < |invites| ==> invites[i].sessionExpires <= invites[j].sessionExpires
    ensures forall i, j :: 0 <= i < j < |invites| && provoked[i].status == 422 ==>
              provoked[i].minSe.MinSe? && invites[j].sessionExpires >= provoked[i].minSe.seconds
    ensures forall i, j :: 0 <= i < j < |invites| && IsChallenge(provoked[i]) ==>
              && provoked[i].challenge.Challenge?
              && invites[j].auth == Some(Credentials(provoked[i].status == 407, provoked[i].challenge.id))
  {
    if |provoked| > 0 { assert Remedies(invites[0], provoked[0], invites[1]); }
    if |provoked| > 1 {
      assert Remedies(invites[1], provoked[1], invites[2]);
      assert IsChallenge(provoked[0]) != IsChallenge(provoked[1]);
    }
  }

  /** The first final of the INVITE in what the dial will ever be told, stray or not. */
  function FirstFinal(stream: seq<Response>): Option<Response> {
    if stream == [] then None else if Final(stream[0]) then Some(stream[0]) else FirstFinal(stream[1..])
  }

  lemma {:induction false} FirstFinalAt(stream: seq<Response>, k: nat)
    requires k <= |stream| && forall i :: 0 <= i < k ==> !Final(stream[i])
    ensures k == |stream| ==> FirstFinal(stream) == None
    ensures k < |stream| && Final(stream[k]) ==> FirstFinal(stream) == Some(stream[k])
  {
    if k > 0 { FirstFinalAt(stream[1..], k - 1); }
  }

  lemma {:induction false} NoneBefore(stream: seq<Response>, from: nat, upto: nat)
    requires from <= upto <= |stream| && Finals(stream, from, upto) == 0
    ensures forall i :: from <= i < upto ==> !Final(stream[i])
    decreases upto
  {
    if from < upto { NoneBefore(stream, from, upto - 1); }
  }

  /** What the very first final leads to; its CSeq plays no part. */
  predicate FirstDecides(first: Option<Response>, out: Verdict, provoked: seq<Response>) {
    match first
    case None => out.TimedOut? && provoked == []
    case Some(f) =>
      var challenged := f.status == 401 || f.status == 407;
      if RaisesInterval(f) || (challenged && f.challenge.Challenge?) then provoked != [] && provoked[0] == f
      else
        && provoked == []
        && (!challenged ==> out == Classified(f))
        && (challenged ==> out == if f.challenge.NoChallenge? then Failed(f.status) else Raised)
  }

  method ResolveChallenges(stream: seq<Response>, offered: nat)
    returns (out: Verdict, invites: seq<Invite>, provoked: seq<Response>, next: nat)
    ensures next <= |stream|
    ensures Dialled(invites, provoked, offered)
    ensures Finals(stream, 0, next) <= 1 + (MAX_STALE_FINALS + 1) * |provoked| <= 19
    ensures out.Classified? ==>
              && next > 0 && out.final == stream[next - 1] && Final(out.final)
              && !Actionable(out.final, provoked)
              && (if provoked == [] then Finals(stream, 0, next) == 1
                  else out.final.cseq == Some(invites[|provoked|].cseq))
    ensures FirstDecides(FirstFinal(stream), out, provoked)
    ensures out.TimedOut? ==> next == |stream| && (provoked == [] ==> Finals(stream, 0, next) == 0)
    ensures out.Failed? || out.Raised? ==>
              && next > 0 && Final(stream[next - 1])
              && ((IsChallenge(stream[next - 1]) && !stream[next - 1].challenge.Challenge?)
                  || (provoked != [] && stream[next - 1].cseq != Some(invites[|provoked|].cseq)))
  {
    invites, provoked := [Invite(1, offered, None)], [];
    var offeredSe: nat, lastCseq: nat := offered, 1;
    var authHeader: Option<Credentials> := None;
    var seRetried, authRetried := false, false;
    var response: Option<Response>;
    response, next := AwaitInviteResponse(stream, 0);
    NoneBefore(stream, 0, if response.None? then next else next - 1);
    FirstFinalAt(stream, if response.None? then next else next - 1);
    if response.None? { return TimedOut, invites, provoked, next; }
    var final := response.value;
    while true
      invariant 0 < next <= |stream| && final == stream[next - 1] && Final(final)
      invariant Dialled(invites, provoked, offered)
      invariant invites[|provoked|] == Invite(lastCseq, offeredSe, authHeader)
      invariant authHeader.Some? == authRetried
      invariant Finals(stream, 0, next) <= 1 + (MAX_STALE_FINALS + 1) * |provoked|
      invariant if provoked == [] then Finals(stream, 0, next) == 1 else final.cseq == Some(lastCseq)
      invariant FirstFinal(stream) == Some(if provoked == [] then final else provoked[0])
      invariant provoked != [] ==>
                  RaisesInterval(provoked[0]) || (IsChallenge(provoked[0]) && provoked[0].challenge.Challenge?)
      invariant seRetried == Saw(provoked, false) && authRetried == Saw(provoked, true)
      invariant |provoked| == (if seRetried then 1 else 0) + (if authRetried then 1 else 0)
      decreases !seRetried, !authRetried
    {
      if final.status == 422 && !seRetried {
        if !final.minSe.MinSe? { return Classified(final), invites, provoked, next; }
        seRetried := true;
        if offeredSe < final.minSe.seconds { offeredSe := final.minSe.seconds; }
      } else if IsChallenge(final) && !authRetried {
        authRetried := true;
        if final.challenge.NoChallenge? { return Failed(final.status), invites, provoked, next; }
        if final.challenge.UnusableChallenge? { return Raised, invites, provoked, next; }
        authHeader := Some(Credentials(final.status == 407, final.challenge.id));
      } else {
        return Classified(final), invites, provoked, next;
      }
      lastCseq := lastCseq + 1;
      Redials(invites, provoked, offered, final, Invite(lastCseq, offeredSe, authHeader));
      invites := invites + [Invite(lastCseq, offeredSe, authHeader)];
      provoked := provoked + [final];
      var verdict, after := AwaitInviteFinalForCseq(stream, next, lastCseq);
      FinalsSplit(stream, 0, next, after);
      next := after;
      if !verdict.Classified? { return verdict, invites, provoked, next; }
      final := verdict.final;
    }
  }

  /** A first final of no INVITE of this dial is acted upon all the same: classified, or dialled again for. */
  method StrayFinalTaken(stream: seq<Response>, offered: nat, stray: Response)
    returns (out: Verdict, invites: seq<Invite>, provoked: seq<Response>)
    requires FirstFinal(stream) == Some(stray) && stray.cseq != Some(1)
    ensures Dialled(invites, provoked, offered) && FirstDecides(Some(stray), out, provoked)
    ensures !IsChallenge(stray) && !RaisesInterval(stray) ==> out == Classified(stray) && |invites| == 1
    ensures (IsChallenge(stray) && stray.challenge.Challenge?) || RaisesInterval(stray) ==>
              |invites| >= 2 && Remedies(invites[0], stray, invites[1])
  {
    var next;
    out, invites, provoked, next := ResolveChallenges(stream, offered);
  }
}
