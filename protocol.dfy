/**
 * The sending protocol of `SenderTask` as functions on values: the token
 * cache, one upload call, one retry attempt, the bounded attempt chain and
 * the per-item step.
 *
 * The network and the clock are a `Script`: the reply to the interaction that
 * is the k-th entry of the trace `io` is `upload(k)`, `token(k)` or `clock(k)`.
 * Since every interaction has its own index, any sequence of server answers
 * and clock readings can be scripted.
 */
module Protocol {

  import opened Wrappers
  import Paths
  import Messages

  /** `_proc` runs the chain with `max_retry=3`. */
  const MaxRetry: int := 3

  /**
   * Fixed configuration: constructor arguments plus the environment values the
   * sender reads (`ACTCAST_DEVICE_ID`, `ACTCAST_GROUP_ID`, `ACTCAST_ACT_ID`).
   * `userMetadata` is the JSON text computed once at construction.
   */
  datatype Config = Config(
    endpointRoot: string,
    pipelineId: string,
    userMetadata: string,
    deviceId: string,
    groupId: Option<string>,
    actId: Option<string>)

  /** The JSON body and authorization header of a `POST {root}/data_collect`. */
  datatype UploadRequest = UploadRequest(
    url: string,
    timestamp: string,
    image: string,
    deviceId: string,
    actId: Option<string>,
    pipelineId: string,
    userData: string,
    authorization: string)

  /** The headers of a `GET {root}/device/token` (the signature is left out). */
  datatype TokenRequest = TokenRequest(url: string, deviceId: string, groupId: Option<string>, pipelineId: string)

  /** One exchange with the outside world, in the order it happens. */
  datatype Interaction = PostUpload(upload: UploadRequest) | GetToken(request: TokenRequest) | ReadClock

  /** A status with its body text, or a transport failure (`RequestException`). */
  datatype UploadReply = UploadResponse(code: int, text: string) | UploadUnreachable

  /** A status with the payload fields read on 200, or a transport failure. */
  datatype TokenReply = TokenResponse(code: int, token: string, expiresIn: int) | TokenUnreachable

  datatype Script = Script(upload: nat -> UploadReply, token: nat -> TokenReply, clock: nat -> int)

  /**
   * What the sender holds (`_sending_enabled`, `data_collect_token`,
   * `data_collect_token_expires`), the notifier's messages and the trace.
   */
  datatype State = State(enabled: bool, token: Option<string>, expires: int, log: seq<string>, io: seq<Interaction>)

  datatype Refresh = Refresh(state: State, raised: bool)

  /** How `_call_api` ends: a status, `SendingError`, or a `RequestException` (including `HTTPError`). */
  datatype CallOutcome = Sent(code: int, text: string) | SendingError | RequestError

  datatype Call = Call(state: State, outcome: CallOutcome)

  /** One pass through the body of `_retry_call_api`: it returns, or it recurses. */
  datatype Attempt = Finished(state: State, success: bool) | Retry(state: State)

  datatype Chain = Chain(state: State, success: bool)

  datatype Kind = UploadCall | TokenCall | ClockCall

  function KindOf(x: Interaction): Kind
  {
    match x
    case PostUpload(_) => UploadCall
    case GetToken(_) => TokenCall
    case ReadClock => ClockCall
  }

  /** Number of interactions of kind `k` in a trace. */
  function Count(t: seq<Interaction>, k: Kind): nat
  {
    if t == [] then 0 else (if KindOf(t[0]) == k then 1 else 0) + Count(t[1..], k)
  }

  /** Both the trace and the log of `t` continue those of `s`. */
  predicate Extends(s: State, t: State)
  {
    s.io <= t.io && s.log <= t.log
  }

  /** Interaction `i` of `io` is an upload that the server answered with 200. */
  predicate Accepted(w: Script, io: seq<Interaction>, i: int)
  {
    0 <= i < |io| && io[i].PostUpload? && w.upload(i).UploadResponse? && w.upload(i).code == 200
  }

  /** `resp.raise_for_status()` raises `HTTPError` for client and server error statuses. */
  predicate RaisesForStatus(code: int)
  {
    400 <= code < 600
  }

  /** `"Bearer {}".format(self.data_collect_token)`, where an absent token formats as "None". */
  function Bearer(token: Option<string>): string
  {
    "Bearer " + (match token case Some(t) => t case None => "None")
  }

  function TokenRequestFor(c: Config): TokenRequest
  {
    TokenRequest(Paths.TokenUrl(c.endpointRoot), c.deviceId, c.groupId, c.pipelineId)
  }

  function UploadRequestFor(c: Config, token: Option<string>, timestamp: string, image: string): UploadRequest
  {
    UploadRequest(Paths.DataCollectUrl(c.endpointRoot), timestamp, image, c.deviceId, c.actId,
                  c.pipelineId, c.userMetadata, Bearer(token))
  }

  /** The held token must be refreshed: absent, or its expiry is strictly before the clock reading. */
  predicate Stale(w: Script, s: State)
  {
    s.token.None? || s.expires < w.clock(|s.io|)
  }

  /** `_request_data_collect_token`; `raised` means the call ends in an exception. */
  function RequestToken(c: Config, w: Script, s: State): Refresh
  {
    if !s.enabled then Refresh(s, false)
    else
      var n := |s.io|;
      var asked := s.(io := s.io + [GetToken(TokenRequestFor(c))]);
      match w.token(n)
      case TokenUnreachable => Refresh(asked, true)
      case TokenResponse(code, token, expiresIn) =>
        if code == 200 then
          Refresh(asked.(token := Some(token), expires := w.clock(n + 1) + expiresIn,
                         io := asked.io + [ReadClock]), false)
        else
          Refresh(asked.(log := s.log + [Messages.TokenRequestFailed(code)]), RaisesForStatus(code))
  }

  /** The upload request itself (`requests.post`) with the held token. */
  function Upload(c: Config, w: Script, s: State, timestamp: string, image: string): Call
  {
    var posted := s.(io := s.io + [PostUpload(UploadRequestFor(c, s.token, timestamp, image))]);
    match w.upload(|s.io|)
    case UploadResponse(code, text) => Call(posted, Sent(code, text))
    case UploadUnreachable => Call(posted, RequestError)
  }

  /** `_call_api`: refresh the token if needed, then upload. */
  function CallApi(c: Config, w: Script, s: State, timestamp: string, image: string): Call
  {
    if !s.enabled then Call(s, SendingError)
    else
      // the clock is read only when a token is held (`or` short-circuits)
      var checked := if s.token.None? then s else s.(io := s.io + [ReadClock]);
      var refreshed := if Stale(w, s) then RequestToken(c, w, checked) else Refresh(checked, false);
      if refreshed.raised then Call(refreshed.state, RequestError)
      else Upload(c, w, refreshed.state, timestamp, image)
  }

  /** The forced refresh after a 401, or none. */
  function AfterStatus(c: Config, w: Script, s: State, code: int): Refresh
  {
    if code == 401 then RequestToken(c, w, s) else Refresh(s, false)
  }

  /** One pass through `_retry_call_api` once the counter check has passed. */
  function TryOnce(c: Config, w: Script, s: State, timestamp: string, image: string): Attempt
  {
    var call := CallApi(c, w, s, timestamp, image);
    match call.outcome
    case SendingError => Finished(call.state.(log := call.state.log + [Messages.TokenFailure]), false)
    case RequestError => Retry(call.state)
    case Sent(code, text) =>
      if code == 200 then Finished(call.state, true)
      else
        var r := AfterStatus(c, w, call.state, code);
        // an exception from the forced refresh is caught as a RequestException: no message
        if r.raised then Retry(r.state)
        else Retry(r.state.(log := r.state.log + [Messages.UploadFailed(code, text)]))
  }

  /** `_retry_call_api(timestamp, b64_image, max_retry, retry_count)`. */
  function RetryCallApi(c: Config, w: Script, s: State, timestamp: string, image: string,
                        maxRetry: int, retryCount: int): Chain
    requires retryCount <= maxRetry
    decreases maxRetry - retryCount
  {
    if retryCount == maxRetry then Chain(s, false)
    else
      match TryOnce(c, w, s, timestamp, image)
      case Finished(t, success) => Chain(t, success)
      case Retry(t) => RetryCallApi(c, w, t, timestamp, image, maxRetry, retryCount + 1)
  }

  /** `_proc`: the chain with `max_retry=3`, then exactly one final report. */
  function Proc(c: Config, w: Script, s: State, timestamp: string, image: string): State
  {
    var chain := RetryCallApi(c, w, s, timestamp, image, MaxRetry, 0);
    chain.state.(log := chain.state.log + [Messages.Tried(chain.success)])
  }

  lemma {:induction false} CountAppend(a: seq<Interaction>, b: seq<Interaction>, k: Kind)
    ensures Count(a + b, k) == Count(a, k) + Count(b, k)
    decreases |a|
  {
    if a == [] {
      assert a + b == b;
    } else {
      assert (a + b)[1..] == a[1..] + b;
      CountAppend(a[1..], b, k);
    }
  }

  /** Counts of the one- and two-element traces. */
  lemma CountPair(x: Interaction, y: Interaction, k: Kind)
    ensures Count([x], k) == (if KindOf(x) == k then 1 else 0)
    ensures Count([x, y], k) == (if KindOf(x) == k then 1 else 0) + (if KindOf(y) == k then 1 else 0)
  {
    assert [x][1..] == [];
    assert [y][1..] == [];
    assert Count([y], k) == (if KindOf(y) == k then 1 else 0);
    assert [x, y][1..] == [y];
  }

  /** Whether an interaction was an accepted upload does not change as the trace grows. */
  lemma AcceptedStable(w: Script, io: seq<Interaction>, io': seq<Interaction>)
    requires io <= io'
    ensures forall i :: 0 <= i < |io| ==> (Accepted(w, io, i) <==> Accepted(w, io', i))
  {
    forall i | 0 <= i < |io| ensures io[i] == io'[i] {
      assert io'[..|io|][i] == io'[i];
    }
  }
}
