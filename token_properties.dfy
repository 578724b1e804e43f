/** What the token cache does: one refresh, and the refresh-or-reuse decision before each upload. */
module TokenProperties {

  import opened Wrappers
  import Messages
  import opened Protocol

  /** A refresh answered with status 200. */
  predicate Granted(w: Script, s: State)
  {
    w.token(|s.io|).TokenResponse? && w.token(|s.io|).code == 200
  }

  /**
   * Outcome of one refresh. Disabled: nothing happens. Enabled: one token
   * request; a 200 replaces token and expiry together (expiry = clock + expires_in);
   * any other status leaves both, appends the status message and raises exactly
   * for 4xx/5xx; a transport failure leaves everything but the trace and raises.
   */
  lemma RefreshOutcome(c: Config, w: Script, s: State)
    ensures var r := RequestToken(c, w, s);
      && (!s.enabled ==> r == Refresh(s, false))
      && r.state.enabled == s.enabled
      && (s.enabled && Granted(w, s) ==>
            && r.state.token == Some(w.token(|s.io|).token)
            && r.state.expires == w.clock(|s.io| + 1) + w.token(|s.io|).expiresIn
            && r.state.io == s.io + [GetToken(TokenRequestFor(c)), ReadClock]
            && r.state.log == s.log && !r.raised)
      && (!(s.enabled && Granted(w, s)) ==> r.state.token == s.token && r.state.expires == s.expires)
      && (s.enabled && w.token(|s.io|).TokenResponse? && !Granted(w, s) ==>
            && r.state.log == s.log + [Messages.TokenRequestFailed(w.token(|s.io|).code)]
            && r.state.io == s.io + [GetToken(TokenRequestFor(c))]
            && r.raised == RaisesForStatus(w.token(|s.io|).code))
      && (s.enabled && w.token(|s.io|).TokenUnreachable? ==>
            r == Refresh(s.(io := s.io + [GetToken(TokenRequestFor(c))]), true))
  {
  }

  /** A refresh extends the trace and the log, makes one token request when enabled and no upload. */
  lemma RefreshCounts(c: Config, w: Script, s: State)
    ensures var r := RequestToken(c, w, s);
      && Extends(s, r.state)
      && Count(r.state.io, TokenCall) == Count(s.io, TokenCall) + (if s.enabled then 1 else 0)
      && Count(r.state.io, UploadCall) == Count(s.io, UploadCall)
      && (s.enabled ==> |r.state.io| > |s.io| && r.state.io[|s.io|] == GetToken(TokenRequestFor(c)))
      && (forall i :: |s.io| <= i < |r.state.io| ==> !r.state.io[i].PostUpload?)
  {
    var r := RequestToken(c, w, s);
    if s.enabled {
      var g := GetToken(TokenRequestFor(c));
      if Granted(w, s) {
        assert r.state.io == s.io + [g, ReadClock];
        CountPair(g, ReadClock, TokenCall);
        CountPair(g, ReadClock, UploadCall);
        CountAppend(s.io, [g, ReadClock], TokenCall);
        CountAppend(s.io, [g, ReadClock], UploadCall);
      } else {
        assert r.state.io == s.io + [g];
        CountPair(g, ReadClock, TokenCall);
        CountPair(g, ReadClock, UploadCall);
        CountAppend(s.io, [g], TokenCall);
        CountAppend(s.io, [g], UploadCall);
      }
    }
  }

  /**
   * Before an upload a token request is made iff the held token is absent or
   * its expiry is strictly before the clock reading; otherwise the held token
   * is reused unchanged: the clock is read and the upload follows at once.
   */
  lemma TokenReuse(c: Config, w: Script, s: State, timestamp: string, image: string)
    requires s.enabled
    ensures var r := CallApi(c, w, s, timestamp, image);
      && ((exists i :: |s.io| <= i < |r.state.io| && r.state.io[i].GetToken?) <==> Stale(w, s))
      && (!Stale(w, s) ==>
            && r.state.token == s.token && r.state.expires == s.expires && r.state.log == s.log
            && r.state.io == s.io + [ReadClock, PostUpload(UploadRequestFor(c, s.token, timestamp, image))])
  {
    var r := CallApi(c, w, s, timestamp, image);
    var checked := if s.token.None? then s else s.(io := s.io + [ReadClock]);
    if Stale(w, s) {
      RefreshCounts(c, w, checked);
      var t := RequestToken(c, w, checked).state;
      assert t.io <= r.state.io;
      assert r.state.io[|checked.io|] == t.io[|checked.io|];
      assert r.state.io[|checked.io|].GetToken?;
    } else {
      assert r.state.io == s.io + [ReadClock, PostUpload(UploadRequestFor(c, s.token, timestamp, image))];
      forall i | |s.io| <= i < |r.state.io| ensures !r.state.io[i].GetToken? {
        assert i == |s.io| || i == |s.io| + 1;
      }
    }
  }

  /** What a refresh-if-needed leaves before the upload: the trace so far has no upload. */
  lemma {:induction false} BeforeUpload(c: Config, w: Script, s: State)
    requires s.enabled
    ensures var checked := if s.token.None? then s else s.(io := s.io + [ReadClock]);
      var refreshed := if Stale(w, s) then RequestToken(c, w, checked) else Refresh(checked, false);
      && Extends(s, refreshed.state) && refreshed.state.enabled
      && Count(refreshed.state.io, UploadCall) == Count(s.io, UploadCall)
      && Count(refreshed.state.io, TokenCall) <= Count(s.io, TokenCall) + 1
      && (forall i :: |s.io| <= i < |refreshed.state.io| ==> !refreshed.state.io[i].PostUpload?)
  {
    var checked := if s.token.None? then s else s.(io := s.io + [ReadClock]);
    CountPair(ReadClock, ReadClock, UploadCall);
    CountPair(ReadClock, ReadClock, TokenCall);
    CountAppend(s.io, [ReadClock], UploadCall);
    CountAppend(s.io, [ReadClock], TokenCall);
    assert Count(checked.io, UploadCall) == Count(s.io, UploadCall);
    assert Count(checked.io, TokenCall) == Count(s.io, TokenCall);
    RefreshCounts(c, w, checked);
  }

  /**
   * Shape of one `_call_api`: it extends the trace and the log, raises
   * `SendingError` exactly when sending is disabled (and then changes nothing),
   * and a status reply always belongs to its last interaction, an upload
   * carrying the held token.
   */
  lemma {:induction false} CallApiShape(c: Config, w: Script, s: State, timestamp: string, image: string)
    ensures var r := CallApi(c, w, s, timestamp, image);
      && r.state.enabled == s.enabled && Extends(s, r.state)
      && (r.outcome.SendingError? <==> !s.enabled)
      && (!s.enabled ==> r.state == s)
      && (r.outcome.Sent? ==>
            && |r.state.io| > |s.io|
            && r.state.io[|r.state.io| - 1] == PostUpload(UploadRequestFor(c, r.state.token, timestamp, image))
            && w.upload(|r.state.io| - 1) == UploadResponse(r.outcome.code, r.outcome.text))
  {
    var r := CallApi(c, w, s, timestamp, image);
    if s.enabled {
      BeforeUpload(c, w, s);
      var checked := if s.token.None? then s else s.(io := s.io + [ReadClock]);
      var refreshed := if Stale(w, s) then RequestToken(c, w, checked) else Refresh(checked, false);
      if refreshed.raised {
        assert r == Call(refreshed.state, RequestError);
      } else {
        assert r == Upload(c, w, refreshed.state, timestamp, image);
        UploadShape(c, w, refreshed.state, timestamp, image);
      }
    }
  }

  /** The upload appends its request to the trace, and a status it reports is the server's reply to it. */
  lemma UploadShape(c: Config, w: Script, t: State, timestamp: string, image: string)
    ensures var r := Upload(c, w, t, timestamp, image);
      && r.state == t.(io := t.io + [PostUpload(UploadRequestFor(c, t.token, timestamp, image))])
      && !r.outcome.SendingError?
      && (r.outcome.Sent? <==> w.upload(|t.io|).UploadResponse?)
      && (r.outcome.Sent? ==> w.upload(|t.io|) == UploadResponse(r.outcome.code, r.outcome.text))
  {
  }

  /** One `_call_api` makes at most one upload and at most one token request. */
  lemma {:induction false} CallApiCounts(c: Config, w: Script, s: State, timestamp: string, image: string)
    ensures var r := CallApi(c, w, s, timestamp, image);
      && Count(r.state.io, UploadCall) <= Count(s.io, UploadCall) + 1
      && Count(r.state.io, TokenCall) <= Count(s.io, TokenCall) + 1
  {
    if s.enabled {
      BeforeUpload(c, w, s);
      var checked := if s.token.None? then s else s.(io := s.io + [ReadClock]);
      var refreshed := if Stale(w, s) then RequestToken(c, w, checked) else Refresh(checked, false);
      if !refreshed.raised {
        var post := PostUpload(UploadRequestFor(c, refreshed.state.token, timestamp, image));
        CountPair(post, post, UploadCall);
        CountPair(post, post, TokenCall);
        CountAppend(refreshed.state.io, [post], UploadCall);
        CountAppend(refreshed.state.io, [post], TokenCall);
      }
    }
  }

  /** The only upload `_call_api` may make is its last interaction, so only that one can be accepted. */
  lemma {:induction false} CallApiAccepted(c: Config, w: Script, s: State, timestamp: string, image: string)
    ensures var r := CallApi(c, w, s, timestamp, image);
      forall i :: |s.io| <= i < |r.state.io| && Accepted(w, r.state.io, i) ==>
        r.outcome.Sent? && r.outcome.code == 200 && i == |r.state.io| - 1
  {
    var r := CallApi(c, w, s, timestamp, image);
    if !s.enabled {
      assert r.state == s;
    } else {
      BeforeUpload(c, w, s);
      var checked := if s.token.None? then s else s.(io := s.io + [ReadClock]);
      var refreshed := if Stale(w, s) then RequestToken(c, w, checked) else Refresh(checked, false);
      var t := refreshed.state;
      if refreshed.raised {
        assert r.state == t;
      } else {
        var post := PostUpload(UploadRequestFor(c, t.token, timestamp, image));
        assert r == Upload(c, w, t, timestamp, image);
        assert r.state.io == t.io + [post];
        assert w.upload(|t.io|).UploadResponse? ==> r.outcome == Sent(w.upload(|t.io|).code, w.upload(|t.io|).text);
        OnlyFinalUpload(w, s.io, t.io, post);
      }
    }
  }

  /** Behind a segment with no upload, only the appended interaction can be an accepted upload. */
  lemma OnlyFinalUpload(w: Script, io: seq<Interaction>, t: seq<Interaction>, post: Interaction)
    requires |io| <= |t|
    requires forall i :: |io| <= i < |t| ==> !t[i].PostUpload?
    ensures forall i :: |io| <= i < |t + [post]| && Accepted(w, t + [post], i) ==> i == |t|
  {
    forall i | |io| <= i < |t|
      ensures !Accepted(w, t + [post], i)
    {
      assert (t + [post])[i] == t[i];
    }
  }
}
