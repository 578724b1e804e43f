/**
 * `SenderTask` as an object: the fields the source updates in place and its
 * methods, each proved to have exactly the effect the protocol functions give.
 */
module Sender {

  import opened Wrappers
  import Paths
  import Messages
  import opened Protocol

  /** The scripted outside world: upload and token endpoints and the clock, with the trace of what was asked. */
  class Remote {
    const script: Script
    var io: seq<Interaction>

    constructor (script: Script)
      ensures this.script == script && io == []
    {
      this.script := script;
      io := [];
    }

    /** `requests.post` to the upload endpoint. */
    method Post(request: UploadRequest) returns (reply: UploadReply)
      modifies this
      ensures io == old(io) + [PostUpload(request)] && reply == script.upload(|old(io)|)
    {
      reply := script.upload(|io|);
      io := io + [PostUpload(request)];
    }

    /** `requests.get` to the token endpoint. */
    method Get(request: TokenRequest) returns (reply: TokenReply)
      modifies this
      ensures io == old(io) + [GetToken(request)] && reply == script.token(|old(io)|)
    {
      reply := script.token(|io|);
      io := io + [GetToken(request)];
    }

    /** `time.time()`. */
    method Time() returns (now: int)
      modifies this
      ensures io == old(io) + [ReadClock] && now == script.clock(|old(io)|)
    {
      now := script.clock(|io|);
      io := io + [ReadClock];
    }
  }

  class SenderTask {
    const config: Config
    const remote: Remote
    var sendingEnabled: bool
    var dataCollectToken: Option<string>
    var dataCollectTokenExpires: int
    /** What the notifier has been told, in order. */
    var log: seq<string>

    /** The sender's state together with the trace of the outside world. */
    function St(): State
      reads this, remote
    {
      State(sendingEnabled, dataCollectToken, dataCollectTokenExpires, log, remote.io)
    }

    /**
     * `__init__`: sending is enabled iff the endpoint root is non-empty and the
     * group id is present; one notification per missing value, in that order.
     */
    constructor (config: Config, remote: Remote)
      ensures this.config == config && this.remote == remote
      ensures sendingEnabled <==> config.endpointRoot != "" && config.groupId.Some?
      ensures log == (if config.endpointRoot == "" then [Messages.EndpointNotSet] else [])
                   + (if config.groupId.None? then [Messages.GroupIdMissing] else [])
      ensures dataCollectToken == None
    {
      this.config := config;
      this.remote := remote;
      dataCollectToken := None;
      dataCollectTokenExpires := 0;
      sendingEnabled := true;
      log := [];
      if config.endpointRoot == "" {
        log := log + [Messages.EndpointNotSet];
        sendingEnabled := false;
      }
      if config.groupId.None? {
        log := log + [Messages.GroupIdMissing];
        sendingEnabled := false;
      }
    }

    // The two `@property` accessors of the source. Both are defined through
    // `Paths`, whose `UrlShapes` gives the shape stated here.

    /** `data_collect_url`. */
    function DataCollectUrl(): (url: string)
      ensures url == config.endpointRoot + Paths.Sep(config.endpointRoot) + "data_collect"
    {
      Paths.UrlShapes(config.endpointRoot);
      Paths.DataCollectUrl(config.endpointRoot)
    }

    /** `request_data_collect_token_url`. */
    function RequestDataCollectTokenUrl(): (url: string)
      ensures url == config.endpointRoot + Paths.Sep(config.endpointRoot) + "device/token"
    {
      Paths.UrlShapes(config.endpointRoot);
      Paths.TokenUrl(config.endpointRoot)
    }

    /** `_request_data_collect_token`; `raised` reports the exception it ends with. */
    method RequestDataCollectToken() returns (raised: bool)
      modifies this, remote
      ensures var r := RequestToken(config, remote.script, old(St()));
        St() == r.state && raised == r.raised
    {
      if !sendingEnabled {
        return false;
      }
      var reply := remote.Get(TokenRequest(RequestDataCollectTokenUrl(), config.deviceId, config.groupId, config.pipelineId));
      match reply {
        case TokenUnreachable =>
          raised := true;
        case TokenResponse(code, token, expiresIn) =>
          if code == 200 {
            var now := remote.Time();
            dataCollectToken := Some(token);
            dataCollectTokenExpires := now + expiresIn;
            raised := false;
          } else {
            log := log + [Messages.TokenRequestFailed(code)];
            raised := RaisesForStatus(code);
          }
      }
    }

    /** `_call_api`. */
    method CallApi(timestamp: string, image: string) returns (outcome: CallOutcome)
      modifies this, remote
      ensures var r := Protocol.CallApi(config, remote.script, old(St()), timestamp, image);
        St() == r.state && outcome == r.outcome
    {
      if !sendingEnabled {
        return SendingError;
      }
      var stale := true;
      if dataCollectToken.Some? {
        var now := remote.Time();
        stale := dataCollectTokenExpires < now;
      }
      if stale {
        var raised := RequestDataCollectToken();
        if raised {
          return RequestError;
        }
      }
      var request := UploadRequest(DataCollectUrl(), timestamp, image, config.deviceId, config.actId,
                                   config.pipelineId, config.userMetadata, Bearer(dataCollectToken));
      var reply := remote.Post(request);
      match reply {
        case UploadResponse(code, text) => outcome := Sent(code, text);
        case UploadUnreachable => outcome := RequestError;
      }
    }

    /** `_retry_call_api`, with the recursion on `retry_count` turned into a loop. */
    method RetryCallApi(timestamp: string, image: string, maxRetry: int, retryCount: int) returns (success: bool)
      requires retryCount <= maxRetry
      modifies this, remote
      ensures var r := Protocol.RetryCallApi(config, remote.script, old(St()), timestamp, image, maxRetry, retryCount);
        St() == r.state && success == r.success
    {
      var count := retryCount;
      while count != maxRetry
        invariant retryCount <= count <= maxRetry
        invariant Protocol.RetryCallApi(config, remote.script, St(), timestamp, image, maxRetry, count)
               == Protocol.RetryCallApi(config, remote.script, old(St()), timestamp, image, maxRetry, retryCount)
        decreases maxRetry - count
      {
        ghost var before := St();
        var outcome := CallApi(timestamp, image);
        match outcome {
          case SendingError =>
            log := log + [Messages.TokenFailure];
            return false;
          case RequestError =>
          case Sent(code, text) =>
            if code == 200 {
              return true;
            }
            var raised := false;
            if code == 401 {
              raised := RequestDataCollectToken();
            }
            if !raised {
              log := log + [Messages.UploadFailed(code, text)];
            }
        }
        assert TryOnce(config, remote.script, before, timestamp, image) == Retry(St());
        count := count + 1;
      }
      success := false;
    }

    /** `_proc` for an already encoded image. */
    method Proc(timestamp: string, image: string)
      modifies this, remote
      ensures St() == Protocol.Proc(config, remote.script, old(St()), timestamp, image)
    {
      var success := RetryCallApi(timestamp, image, MaxRetry, 0);
      log := log + [Messages.Tried(success)];
    }
  }
}
