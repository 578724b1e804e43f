/** Concrete and parametric runs of the protocol against scripted servers. */
module Scenarios {

  import opened Wrappers
  import Messages
  import opened Protocol
  import RetryProperties

  /** The fixture values of the repository's sender tests. */
  const TestConfig: Config := Config("https://api.mock.autolearner.actcast.io", "123", "{}", "qwe-123-rty", Some("123456"), None)
  const TestToken: string := "b1af81f2-5622-4ae2-9e89-4344a47337ce"

  /** A state just after construction with a complete configuration. */
  function Fresh(): State
  {
    State(true, None, 0, [], [])
  }

  /**
   * Items at t=0, t=1 and t=4 against a server whose tokens expire after 3
   * seconds and that accepts every upload. The trace is: token request, clock,
   * upload; clock, upload; clock, token request, clock, upload.
   */
  function TimedScript(): Script
  {
    Script(k => UploadResponse(200, ""),
           k => TokenResponse(200, TestToken, 3),
           k => if k < 3 then 0 else if k < 5 then 1 else 4)
  }

  function TestGet(): Interaction
  {
    GetToken(TokenRequestFor(TestConfig))
  }

  function TestPost(): Interaction
  {
    PostUpload(UploadRequestFor(TestConfig, Some(TestToken), "", "img"))
  }

  /** The first item: no token yet, so request one (expiry 0 + 3), then upload. */
  lemma FirstItem()
    ensures Proc(TestConfig, TimedScript(), Fresh(), "", "img")
         == State(true, Some(TestToken), 3, [Messages.Tried(true)], [TestGet(), ReadClock, TestPost()])
  {
  }

  /** The second item at t=1: 3 < 1 is false, so the token is reused. */
  lemma SecondItem()
    ensures Proc(TestConfig, TimedScript(),
                 State(true, Some(TestToken), 3, [Messages.Tried(true)], [TestGet(), ReadClock, TestPost()]), "", "img")
         == State(true, Some(TestToken), 3, [Messages.Tried(true), Messages.Tried(true)],
                  [TestGet(), ReadClock, TestPost(), ReadClock, TestPost()])
  {
  }

  /** The third item at t=4: 3 < 4, so a new token is requested (expiry 4 + 3). */
  lemma ThirdItem()
    ensures Proc(TestConfig, TimedScript(),
                 State(true, Some(TestToken), 3, [Messages.Tried(true), Messages.Tried(true)],
                       [TestGet(), ReadClock, TestPost(), ReadClock, TestPost()]), "", "img")
         == State(true, Some(TestToken), 7, [Messages.Tried(true), Messages.Tried(true), Messages.Tried(true)],
                  [TestGet(), ReadClock, TestPost(), ReadClock, TestPost(), ReadClock, TestGet(), ReadClock, TestPost()])
  {
  }

  /** The token got at t=0 is reused at t=1 and refreshed at t=4: two token requests, three uploads. */
  lemma EndToEnd()
    ensures var w := TimedScript();
      var s1 := Proc(TestConfig, w, Fresh(), "", "img");
      var s2 := Proc(TestConfig, w, s1, "", "img");
      var s3 := Proc(TestConfig, w, s2, "", "img");
      && Count(s3.io, TokenCall) == 2 && Count(s3.io, UploadCall) == 3
      && s3.log == [Messages.Tried(true), Messages.Tried(true), Messages.Tried(true)]
      && s3.token == Some(TestToken) && s3.expires == 7
  {
    FirstItem();
    SecondItem();
    ThirdItem();
    TimedTraceCounts(TestGet(), TestPost());
  }

  /** The shape of the trace of the three items has two token requests and three uploads. */
  lemma TimedTraceCounts(get: Interaction, post: Interaction)
    requires get.GetToken? && post.PostUpload?
    ensures var io := [get, ReadClock, post, ReadClock, post, ReadClock, get, ReadClock, post];
      Count(io, TokenCall) == 2 && Count(io, UploadCall) == 3
  {
    var t8 := [post];
    var t7 := [ReadClock] + t8;
    var t6 := [get] + t7;
    var t5 := [ReadClock] + t6;
    var t4 := [post] + t5;
    var t3 := [ReadClock] + t4;
    var t2 := [post] + t3;
    var t1 := [ReadClock] + t2;
    var t0 := [get] + t1;
    CountCons(post, []);
    assert [post] + [] == t8;
    CountCons(ReadClock, t8);
    CountCons(get, t7);
    CountCons(ReadClock, t6);
    CountCons(post, t5);
    CountCons(ReadClock, t4);
    CountCons(post, t3);
    CountCons(ReadClock, t2);
    CountCons(get, t1);
    assert t0 == [get, ReadClock, post, ReadClock, post, ReadClock, get, ReadClock, post];
  }

  /** Counting over a trace with one interaction in front. */
  lemma CountCons(x: Interaction, t: seq<Interaction>)
    ensures forall k :: Count([x] + t, k) == (if KindOf(x) == k then 1 else 0) + Count(t, k)
  {
    assert ([x] + t)[1..] == t;
  }

  /** A valid token, a server rejecting the first upload with 401 and accepting the next. */
  function UnauthorizedOnceScript(): Script
  {
    Script(k => if k == 1 then UploadResponse(401, "Unauthorized") else UploadResponse(200, ""),
           k => TokenResponse(200, TestToken, 3),
           k => 0)
  }

  /** 401 then 200: exactly one token request, two uploads, the 401 message, then Success. */
  lemma UnauthorizedThenAccepted()
    ensures var s := State(true, Some("old"), 10, [], []);
      var t := Proc(TestConfig, UnauthorizedOnceScript(), s, "", "img");
      && t.io == [ReadClock, PostUpload(UploadRequestFor(TestConfig, Some("old"), "", "img")),
                  GetToken(TokenRequestFor(TestConfig)), ReadClock,
                  ReadClock, PostUpload(UploadRequestFor(TestConfig, Some(TestToken), "", "img"))]
      && t.log == [Messages.UploadFailed(401, "Unauthorized"), Messages.Tried(true)]
      && t.token == Some(TestToken) && t.expires == 3
  {
  }

  /**
   * Token refresh failures are retried: with no token held and a token endpoint
   * that always answers with an error status, every attempt makes one token
   * request, logs its status and raises; no upload is made and the chain fails.
   */
  lemma {:induction false} TokenFailuresAreRetried(c: Config, w: Script, s: State, timestamp: string, image: string,
                                                   maxRetry: int, retryCount: int, code: int)
    requires s.enabled && s.token.None? && retryCount <= maxRetry
    requires RaisesForStatus(code)
    requires forall k :: w.token(k).TokenResponse? && w.token(k).code == code
    ensures Refused(c, s, RetryCallApi(c, w, s, timestamp, image, maxRetry, retryCount), maxRetry - retryCount, code)
    decreases maxRetry - retryCount
  {
    if retryCount == maxRetry {
      RetryProperties.RetryBound(c, w, s, timestamp, image, maxRetry, retryCount);
    } else {
      var t := s.(io := s.io + [GetToken(TokenRequestFor(c))],
                  log := s.log + [Messages.TokenRequestFailed(code)]);
      RefusedAttempt(c, w, s, timestamp, image);
      RetryProperties.RetryUnroll(c, w, s, timestamp, image, maxRetry, retryCount);
      TokenFailuresAreRetried(c, w, t, timestamp, image, maxRetry, retryCount + 1, code);
      RefusedCons(c, s, t, RetryCallApi(c, w, t, timestamp, image, maxRetry, retryCount + 1), maxRetry - retryCount, code);
    }
  }

  /** The chain `r` returned False after `n` refused token requests and nothing else. */
  predicate Refused(c: Config, s: State, r: Chain, n: int, code: int)
  {
    && !r.success
    && r.state.io == s.io + Repeat(GetToken(TokenRequestFor(c)), n)
    && r.state.log == s.log + Repeat(Messages.TokenRequestFailed(code), n)
    && r.state.token.None?
  }

  /** One refused request in front of `n - 1` more makes `n`. */
  lemma RefusedCons(c: Config, s: State, t: State, r: Chain, n: int, code: int)
    requires n >= 1
    requires t.io == s.io + [GetToken(TokenRequestFor(c))]
    requires t.log == s.log + [Messages.TokenRequestFailed(code)]
    requires Refused(c, t, r, n - 1, code)
    ensures Refused(c, s, r, n, code)
  {
    RepeatCons(s.io, GetToken(TokenRequestFor(c)), n);
    RepeatCons(s.log, Messages.TokenRequestFailed(code), n);
  }

  /** `n` copies of `x`. */
  function Repeat<T>(x: T, n: int): seq<T>
    decreases n
  {
    if n <= 0 then [] else [x] + Repeat(x, n - 1)
  }

  lemma RepeatCons<T>(p: seq<T>, x: T, n: int)
    requires n >= 1
    ensures p + [x] + Repeat(x, n - 1) == p + Repeat(x, n)
  {
    assert [x] + Repeat(x, n - 1) == Repeat(x, n);
  }

  /** With no token held, a refused token request ends the attempt silently, after its status message. */
  lemma RefusedAttempt(c: Config, w: Script, s: State, timestamp: string, image: string)
    requires s.enabled && s.token.None?
    requires w.token(|s.io|).TokenResponse? && RaisesForStatus(w.token(|s.io|).code)
    ensures TryOnce(c, w, s, timestamp, image)
         == Retry(s.(io := s.io + [GetToken(TokenRequestFor(c))],
                     log := s.log + [Messages.TokenRequestFailed(w.token(|s.io|).code)]))
  {
  }

  /** With a held token that has expired, a refused refresh also ends the attempt silently after its status message. */
  lemma ExpiredRefusedAttempt(c: Config, w: Script, s: State, timestamp: string, image: string)
    requires s.enabled && s.token.Some? && s.expires < w.clock(|s.io|)
    requires w.token(|s.io| + 1).TokenResponse? && RaisesForStatus(w.token(|s.io| + 1).code)
    ensures TryOnce(c, w, s, timestamp, image)
         == Retry(s.(io := s.io + [ReadClock, GetToken(TokenRequestFor(c))],
                     log := s.log + [Messages.TokenRequestFailed(w.token(|s.io| + 1).code)]))
  {
    var checked := s.(io := s.io + [ReadClock]);
    var get := GetToken(TokenRequestFor(c));
    var msg := Messages.TokenRequestFailed(w.token(|s.io| + 1).code);
    assert RequestToken(c, w, checked) == Refresh(checked.(io := checked.io + [get], log := s.log + [msg]), true);
    assert checked.io + [get] == s.io + [ReadClock, get];
    RetryProperties.RaisedRefreshRetried(c, w, s, timestamp, image);
  }
}
