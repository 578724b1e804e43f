/** Properties of one retry attempt, of the bounded attempt chain and of the per-item step. */
module RetryProperties {

  import Messages
  import opened Protocol
  import TokenProperties

  /**
   * One attempt extends the trace and the log, and stops without success only
   * when sending is disabled (with exactly the one message and no interaction).
   */
  lemma {:induction false} TryOnceShape(c: Config, w: Script, s: State, timestamp: string, image: string)
    ensures var a := TryOnce(c, w, s, timestamp, image);
      && a.state.enabled == s.enabled && Extends(s, a.state)
      && (!s.enabled ==> a == Finished(s.(log := s.log + [Messages.TokenFailure]), false))
      && (a.Finished? && !a.success ==> !s.enabled)
  {
    TokenProperties.CallApiShape(c, w, s, timestamp, image);
    var call := CallApi(c, w, s, timestamp, image);
    if call.outcome.Sent? && call.outcome.code != 200 {
      TokenProperties.RefreshCounts(c, w, call.state);
    }
  }

  /** One attempt makes at most one upload and two token requests. */
  lemma {:induction false} TryOnceCounts(c: Config, w: Script, s: State, timestamp: string, image: string)
    ensures var a := TryOnce(c, w, s, timestamp, image);
      && Count(a.state.io, UploadCall) <= Count(s.io, UploadCall) + 1
      && Count(a.state.io, TokenCall) <= Count(s.io, TokenCall) + 2
  {
    TokenProperties.CallApiShape(c, w, s, timestamp, image);
    TokenProperties.CallApiCounts(c, w, s, timestamp, image);
    var call := CallApi(c, w, s, timestamp, image);
    if call.outcome.Sent? && call.outcome.code != 200 {
      TokenProperties.RefreshCounts(c, w, call.state);
    }
  }

  /** An attempt succeeds exactly when its last interaction is an accepted upload, and no other upload of it is accepted. */
  lemma {:induction false} TryOnceAccepted(c: Config, w: Script, s: State, timestamp: string, image: string)
    ensures var a := TryOnce(c, w, s, timestamp, image);
      && (a.Finished? && a.success ==> |a.state.io| > |s.io| && Accepted(w, a.state.io, |a.state.io| - 1))
      && (forall i :: |s.io| <= i < |a.state.io| && Accepted(w, a.state.io, i) ==>
            a.Finished? && a.success && i == |a.state.io| - 1)
  {
    TokenProperties.CallApiShape(c, w, s, timestamp, image);
    TokenProperties.CallApiAccepted(c, w, s, timestamp, image);
    var call := CallApi(c, w, s, timestamp, image);
    var a := TryOnce(c, w, s, timestamp, image);
    if call.outcome.Sent? && call.outcome.code != 200 {
      var r := AfterStatus(c, w, call.state, call.outcome.code);
      TokenProperties.RefreshCounts(c, w, call.state);
      assert a.state.io == r.state.io;
      forall i | |s.io| <= i < |a.state.io|
        ensures !Accepted(w, a.state.io, i)
      {
        if i < |call.state.io| {
          AcceptedStable(w, call.state.io, a.state.io);
        }
      }
    }
  }

  /**
   * When `_call_api` ends in a `RequestException`: its refresh raised (the
   * token was absent or expired and the token request failed with 4xx/5xx or
   * did not reach the server), or the upload did not reach the server. A raising
   * refresh skips the upload, and the attempt retries silently.
   */
  lemma RaisedRefreshRetried(c: Config, w: Script, s: State, timestamp: string, image: string)
    requires s.enabled
    ensures var checked := if s.token.None? then s else s.(io := s.io + [ReadClock]);
      var refreshed := if Stale(w, s) then RequestToken(c, w, checked) else Refresh(checked, false);
      var call := CallApi(c, w, s, timestamp, image);
      && (refreshed.raised ==> call == Call(refreshed.state, RequestError)
                               && TryOnce(c, w, s, timestamp, image) == Retry(refreshed.state))
      && (call.outcome.RequestError? <==>
            refreshed.raised || w.upload(|refreshed.state.io|).UploadUnreachable?)
  {
    var checked := if s.token.None? then s else s.(io := s.io + [ReadClock]);
    var refreshed := if Stale(w, s) then RequestToken(c, w, checked) else Refresh(checked, false);
    if !refreshed.raised {
      assert CallApi(c, w, s, timestamp, image) == Upload(c, w, refreshed.state, timestamp, image);
    }
  }

  /**
   * How an attempt treats each reply of `_call_api`: a transport failure or an
   * exception from the refresh is retried silently; 401 forces exactly one
   * token request right after the upload and, unless that request raised,
   * the status message; any other non-200 status adds only the status message.
   */
  lemma StatusHandling(c: Config, w: Script, s: State, timestamp: string, image: string)
    ensures var call := CallApi(c, w, s, timestamp, image);
      var a := TryOnce(c, w, s, timestamp, image);
      && (call.outcome.RequestError? ==> a == Retry(call.state))
      && (call.outcome.Sent? && call.outcome.code == 200 ==> a == Finished(call.state, true))
      && (call.outcome.Sent? && call.outcome.code == 401 ==>
            var r := RequestToken(c, w, call.state);
            && a.Retry?
            && |a.state.io| > |call.state.io| && a.state.io[|call.state.io|] == GetToken(TokenRequestFor(c))
            && Count(a.state.io, TokenCall) == Count(call.state.io, TokenCall) + 1
            && a.state.io == r.state.io && a.state.token == r.state.token && a.state.expires == r.state.expires
            && a.state.log == r.state.log + (if r.raised then [] else [Messages.UploadFailed(401, call.outcome.text)]))
      && (call.outcome.Sent? && call.outcome.code != 200 && call.outcome.code != 401 ==>
            a == Retry(call.state.(log := call.state.log + [Messages.UploadFailed(call.outcome.code, call.outcome.text)])))
  {
    var call := CallApi(c, w, s, timestamp, image);
    TokenProperties.CallApiShape(c, w, s, timestamp, image);
    TokenProperties.RefreshCounts(c, w, call.state);
  }

  /**
   * Retry bound: the chain makes at most `maxRetry - retryCount` uploads and
   * twice as many token requests, only extends the trace and the log, and
   * returns False at once when the counter has reached `maxRetry`.
   */
  lemma {:induction false} RetryBound(c: Config, w: Script, s: State, timestamp: string, image: string,
                                      maxRetry: int, retryCount: int)
    requires retryCount <= maxRetry
    ensures var r := RetryCallApi(c, w, s, timestamp, image, maxRetry, retryCount);
      && r.state.enabled == s.enabled && Extends(s, r.state)
      && Count(r.state.io, UploadCall) <= Count(s.io, UploadCall) + (maxRetry - retryCount)
      && Count(r.state.io, TokenCall) <= Count(s.io, TokenCall) + 2 * (maxRetry - retryCount)
      && (retryCount == maxRetry ==> r == Chain(s, false))
    decreases maxRetry - retryCount, 1
  {
    if retryCount < maxRetry {
      if TryOnce(c, w, s, timestamp, image).Retry? {
        RetriedBound(c, w, s, timestamp, image, maxRetry, retryCount);
      } else {
        TryOnceShape(c, w, s, timestamp, image);
        TryOnceCounts(c, w, s, timestamp, image);
      }
    }
  }

  /** The inductive step of RetryBound: an attempt that recurses. */
  lemma {:induction false} RetriedBound(c: Config, w: Script, s: State, timestamp: string, image: string,
                                        maxRetry: int, retryCount: int)
    requires retryCount < maxRetry && TryOnce(c, w, s, timestamp, image).Retry?
    ensures Bounded(s, RetryCallApi(c, w, s, timestamp, image, maxRetry, retryCount), maxRetry - retryCount)
    decreases maxRetry - retryCount, 0
  {
    var a := TryOnce(c, w, s, timestamp, image);
    var r := RetryCallApi(c, w, a.state, timestamp, image, maxRetry, retryCount + 1);
    RetryBound(c, w, a.state, timestamp, image, maxRetry, retryCount + 1);
    assert Bounded(a.state, r, maxRetry - retryCount - 1);
    TryOnceShape(c, w, s, timestamp, image);
    TryOnceCounts(c, w, s, timestamp, image);
    BoundedStep(s, a.state, r, maxRetry - retryCount);
    assert RetryCallApi(c, w, s, timestamp, image, maxRetry, retryCount) == r;
  }

  /**
   * The chain `r` started from `s` keeps the enablement flag, only extends the
   * trace and the log, and makes at most `n` uploads and `2 * n` token requests.
   */
  predicate Bounded(s: State, r: Chain, n: int)
  {
    && r.state.enabled == s.enabled && Extends(s, r.state)
    && Count(r.state.io, UploadCall) <= Count(s.io, UploadCall) + n
    && Count(r.state.io, TokenCall) <= Count(s.io, TokenCall) + 2 * n
  }

  /** One attempt within the bounds of one, in front of a rest within the bounds of `n - 1`. */
  lemma BoundedStep(s: State, t: State, r: Chain, n: int)
    requires t.enabled == s.enabled && Extends(s, t)
    requires Count(t.io, UploadCall) <= Count(s.io, UploadCall) + 1
    requires Count(t.io, TokenCall) <= Count(s.io, TokenCall) + 2
    requires Bounded(t, r, n - 1)
    ensures Bounded(s, r, n)
  {
  }

  /**
   * The chain succeeds exactly when its last interaction is an accepted upload,
   * and that is the only upload of the chain that was accepted.
   */
  lemma {:induction false} RetryAccepted(c: Config, w: Script, s: State, timestamp: string, image: string,
                                         maxRetry: int, retryCount: int)
    requires retryCount <= maxRetry
    ensures OnlyLastAccepted(w, s.io, RetryCallApi(c, w, s, timestamp, image, maxRetry, retryCount))
    decreases maxRetry - retryCount, 1
  {
    if retryCount < maxRetry {
      var a := TryOnce(c, w, s, timestamp, image);
      if a.Retry? {
        RetriedAccepted(c, w, s, timestamp, image, maxRetry, retryCount);
      } else {
        TryOnceAccepted(c, w, s, timestamp, image);
        assert RetryCallApi(c, w, s, timestamp, image, maxRetry, retryCount) == Chain(a.state, a.success);
      }
    }
  }

  /** The inductive step of RetryAccepted: an attempt that recurses. */
  lemma {:induction false} RetriedAccepted(c: Config, w: Script, s: State, timestamp: string, image: string,
                                           maxRetry: int, retryCount: int)
    requires retryCount < maxRetry && TryOnce(c, w, s, timestamp, image).Retry?
    ensures OnlyLastAccepted(w, s.io, RetryCallApi(c, w, s, timestamp, image, maxRetry, retryCount))
    decreases maxRetry - retryCount, 0
  {
    var a := TryOnce(c, w, s, timestamp, image);
    var r := RetryCallApi(c, w, a.state, timestamp, image, maxRetry, retryCount + 1);
    RetryAccepted(c, w, a.state, timestamp, image, maxRetry, retryCount + 1);
    assert s.io <= a.state.io && forall i :: |s.io| <= i < |a.state.io| ==> !Accepted(w, a.state.io, i) by {
      TryOnceShape(c, w, s, timestamp, image);
      TryOnceAccepted(c, w, s, timestamp, image);
    }
    assert a.state.io <= r.state.io by {
      RetryBound(c, w, a.state, timestamp, image, maxRetry, retryCount + 1);
    }
    GlueAccepted(w, s.io, a.state, r);
    assert RetryCallApi(c, w, s, timestamp, image, maxRetry, retryCount) == r;
  }

  /** An attempt that asks for a retry hands the rest of the chain to the next count. */
  lemma RetryUnroll(c: Config, w: Script, s: State, timestamp: string, image: string,
                    maxRetry: int, retryCount: int)
    requires retryCount < maxRetry && TryOnce(c, w, s, timestamp, image).Retry?
    ensures RetryCallApi(c, w, s, timestamp, image, maxRetry, retryCount)
         == RetryCallApi(c, w, TryOnce(c, w, s, timestamp, image).state, timestamp, image, maxRetry, retryCount + 1)
  {
  }

  /** The chain's result summarised: True only with an accepted last upload, and no other accepted upload. */
  predicate OnlyLastAccepted(w: Script, io: seq<Interaction>, r: Chain)
  {
    && (r.success ==> |r.state.io| > |io| && Accepted(w, r.state.io, |r.state.io| - 1))
    && (forall i :: |io| <= i < |r.state.io| && Accepted(w, r.state.io, i) ==> r.success && i == |r.state.io| - 1)
  }

  /** An attempt with no accepted upload in front of a chain with the summary property keeps it. */
  lemma GlueAccepted(w: Script, io: seq<Interaction>, t: State, r: Chain)
    requires io <= t.io <= r.state.io
    requires forall i :: |io| <= i < |t.io| ==> !Accepted(w, t.io, i)
    requires OnlyLastAccepted(w, t.io, r)
    ensures OnlyLastAccepted(w, io, r)
  {
    AcceptedStable(w, t.io, r.state.io);
  }

  /** The summary gives the if-and-only-if: True exactly when some upload of the segment was accepted. */
  lemma SummaryGivesIff(w: Script, io: seq<Interaction>, r: Chain)
    requires OnlyLastAccepted(w, io, r)
    ensures r.success <==> exists i :: |io| <= i < |r.state.io| && Accepted(w, r.state.io, i)
    ensures r.success ==> Accepted(w, r.state.io, |r.state.io| - 1)
  {
    if r.success {
      assert Accepted(w, r.state.io, |r.state.io| - 1);
    }
  }

  /** Sending disabled: the chain stops on its first attempt with one message and no interaction. */
  lemma RetryDisabled(c: Config, w: Script, s: State, timestamp: string, image: string,
                      maxRetry: int, retryCount: int)
    requires !s.enabled && retryCount < maxRetry
    ensures RetryCallApi(c, w, s, timestamp, image, maxRetry, retryCount)
         == Chain(s.(log := s.log + [Messages.TokenFailure]), false)
  {
    TryOnceShape(c, w, s, timestamp, image);
  }

  /**
   * Against a server that never accepts an upload and always grants tokens,
   * every attempt uploads once: exactly `maxRetry - retryCount` uploads, then False.
   */
  lemma {:induction false} RetryExhausted(c: Config, w: Script, s: State, timestamp: string, image: string,
                                          maxRetry: int, retryCount: int)
    requires s.enabled && retryCount <= maxRetry
    requires forall k :: w.token(k).TokenResponse? && w.token(k).code == 200
    requires forall k :: !(w.upload(k).UploadResponse? && w.upload(k).code == 200)
    ensures var r := RetryCallApi(c, w, s, timestamp, image, maxRetry, retryCount);
      && !r.success
      && Count(r.state.io, UploadCall) == Count(s.io, UploadCall) + (maxRetry - retryCount)
    decreases maxRetry - retryCount, 1
  {
    if retryCount < maxRetry {
      EveryAttemptUploads(c, w, s, timestamp, image);
      RetriedExhausted(c, w, s, timestamp, image, maxRetry, retryCount);
    } else {
      RetryBound(c, w, s, timestamp, image, maxRetry, retryCount);
    }
  }

  /** The inductive step of RetryExhausted: the attempt uploaded once and asked for a retry. */
  lemma {:induction false} RetriedExhausted(c: Config, w: Script, s: State, timestamp: string, image: string,
                                            maxRetry: int, retryCount: int)
    requires retryCount < maxRetry
    requires forall k :: w.token(k).TokenResponse? && w.token(k).code == 200
    requires forall k :: !(w.upload(k).UploadResponse? && w.upload(k).code == 200)
    requires var a := TryOnce(c, w, s, timestamp, image);
      a.Retry? && a.state.enabled && Count(a.state.io, UploadCall) == Count(s.io, UploadCall) + 1
    ensures Exhausted(s, RetryCallApi(c, w, s, timestamp, image, maxRetry, retryCount), maxRetry - retryCount)
    decreases maxRetry - retryCount, 0
  {
    var a := TryOnce(c, w, s, timestamp, image);
    var r := RetryCallApi(c, w, a.state, timestamp, image, maxRetry, retryCount + 1);
    RetryExhausted(c, w, a.state, timestamp, image, maxRetry, retryCount + 1);
    ExhaustedStep(s, a.state, r, maxRetry - retryCount);
    assert RetryCallApi(c, w, s, timestamp, image, maxRetry, retryCount) == r;
  }

  /** The chain `r` returned False after exactly `n` more uploads than `s` had. */
  predicate Exhausted(s: State, r: Chain, n: int)
  {
    !r.success && Count(r.state.io, UploadCall) == Count(s.io, UploadCall) + n
  }

  /** One more upload in front of an exhausted rest of the chain. */
  lemma ExhaustedStep(s: State, t: State, r: Chain, n: int)
    requires Count(t.io, UploadCall) == Count(s.io, UploadCall) + 1
    requires Exhausted(t, r, n - 1)
    ensures Exhausted(s, r, n)
  {
  }

  /** When tokens are always granted, an enabled attempt uploads exactly once and never succeeds without a 200. */
  lemma {:induction false} EveryAttemptUploads(c: Config, w: Script, s: State, timestamp: string, image: string)
    requires s.enabled
    requires forall k :: w.token(k).TokenResponse? && w.token(k).code == 200
    requires forall k :: !(w.upload(k).UploadResponse? && w.upload(k).code == 200)
    ensures var a := TryOnce(c, w, s, timestamp, image);
      a.Retry? && a.state.enabled && Count(a.state.io, UploadCall) == Count(s.io, UploadCall) + 1
  {
    var call := CallApi(c, w, s, timestamp, image);
    CallUploadsOnce(c, w, s, timestamp, image);
    TokenProperties.CallApiShape(c, w, s, timestamp, image);
    assert call.outcome.Sent? || call.outcome.RequestError?;
    assert !(call.outcome.Sent? && call.outcome.code == 200) by {
      if call.outcome.Sent? {
        assert !(w.upload(|call.state.io| - 1).UploadResponse? && w.upload(|call.state.io| - 1).code == 200);
      }
    }
    TokenProperties.RefreshCounts(c, w, call.state);
    TokenProperties.RefreshOutcome(c, w, call.state);
  }

  /** When tokens are always granted, an enabled `_call_api` reaches its upload. */
  lemma {:induction false} CallUploadsOnce(c: Config, w: Script, s: State, timestamp: string, image: string)
    requires s.enabled
    requires forall k :: w.token(k).TokenResponse? && w.token(k).code == 200
    ensures Count(CallApi(c, w, s, timestamp, image).state.io, UploadCall) == Count(s.io, UploadCall) + 1
  {
    TokenProperties.BeforeUpload(c, w, s);
    var checked := if s.token.None? then s else s.(io := s.io + [ReadClock]);
    assert TokenProperties.Granted(w, checked);
    TokenProperties.RefreshOutcome(c, w, checked);
    var refreshed := if Stale(w, s) then RequestToken(c, w, checked) else Refresh(checked, false);
    assert !refreshed.raised;
    var t := refreshed.state;
    var post := PostUpload(UploadRequestFor(c, t.token, timestamp, image));
    assert CallApi(c, w, s, timestamp, image) == Upload(c, w, t, timestamp, image);
    assert CallApi(c, w, s, timestamp, image).state.io == t.io + [post];
    CountPair(post, post, UploadCall);
    CountAppend(t.io, [post], UploadCall);
  }

  /**
   * `_proc` appends exactly one final report after the chain; it reads
   * "Success" iff some upload of this item was accepted; at most three uploads
   * and six token requests are made per item.
   */
  lemma ProcReport(c: Config, w: Script, s: State, timestamp: string, image: string)
    ensures var chain := RetryCallApi(c, w, s, timestamp, image, MaxRetry, 0);
      var t := Proc(c, w, s, timestamp, image);
      && t.io == chain.state.io && t.log == chain.state.log + [Messages.Tried(chain.success)]
      && Extends(s, t)
      && (t.log[|t.log| - 1] == Messages.Tried(true) <==>
            exists i :: |s.io| <= i < |t.io| && Accepted(w, t.io, i))
      && Count(t.io, UploadCall) <= Count(s.io, UploadCall) + 3
      && Count(t.io, TokenCall) <= Count(s.io, TokenCall) + 6
  {
    var chain := RetryCallApi(c, w, s, timestamp, image, MaxRetry, 0);
    RetryBound(c, w, s, timestamp, image, MaxRetry, 0);
    RetryAccepted(c, w, s, timestamp, image, MaxRetry, 0);
    SummaryGivesIff(w, s.io, chain);
    Messages.TriedDistinguishes(chain.success, true);
  }

  /** With sending disabled an item fails with no interaction and exactly two messages. */
  lemma ProcDisabled(c: Config, w: Script, s: State, timestamp: string, image: string)
    requires !s.enabled
    ensures Proc(c, w, s, timestamp, image)
         == s.(log := s.log + [Messages.TokenFailure, Messages.Tried(false)])
  {
    RetryDisabled(c, w, s, timestamp, image, MaxRetry, 0);
  }
}
