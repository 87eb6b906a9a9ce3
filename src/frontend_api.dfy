/**
 * The dashboard's HTTP client (frontend/src/services/api.js): the default
 * headers, the retry decision taken by the response interceptor, the linear
 * backoff, the user-facing error message, and the whole life of one logical
 * request as a sequence of attempts answered by the server.
 *
 * JavaScript truthiness is modelled on strings by letting "" stand for both
 * an absent and an empty value, and on the status by letting 0 stand for
 * "no response".
 */
module FrontendApi {
  import opened Strings
  import opened Numbers

  const DefaultApiKeyHeader := "X-API-Key"
  const DefaultRetryAttempts := 2
  const DefaultRetryDelayMs := 500
  const FallbackUserMessage := "Request failed"

  /** Name of the header carrying the API key. */
  function KeyHeaderName(keyHeader: string): string
  {
    if keyHeader == "" then DefaultApiKeyHeader else keyHeader
  }

  /**
   * Headers sent with every request: the JSON content type, and the API key
   * only when one is configured (a key header named like the content type
   * replaces it, as a later key of an object literal does).
   */
  function DefaultHeaders(apiKey: string, keyHeader: string): (h: map<string, string>)
    ensures apiKey == "" ==> h == map["Content-Type" := "application/json"]
    ensures apiKey != "" ==> h.Keys == {"Content-Type", KeyHeaderName(keyHeader)}
                             && h[KeyHeaderName(keyHeader)] == apiKey
    ensures KeyHeaderName(keyHeader) != "Content-Type" ==> h["Content-Type"] == "application/json"
  {
    var base := map["Content-Type" := "application/json"];
    if apiKey != "" then base[KeyHeaderName(keyHeader) := apiKey] else base
  }

  /** What the interceptor reads from a request's configuration. */
  datatype RequestConfig = RequestConfig(
    verb: string,       // the HTTP method, "" when the caller gave none
    retryable: bool,    // the `retryable` option is exactly `true`
    retryCount: nat)    // retries already made for this logical request

  /** One answer to one sent attempt. */
  datatype Reply =
    | Success(status: int)
    | Failure(status: int, detail: string, error: string, message: string)

  /** Whether the request's method may be retried. */
  predicate IsRetryableMethod(cfg: RequestConfig)
  {
    var m := Lower(if cfg.verb == "" then "get" else cfg.verb);
    m == "get" || m == "head" || m == "options" || cfg.retryable
  }

  /** Whether a failure status may be retried: no response, a server error or 429. */
  predicate IsRetryableStatus(status: int)
  {
    status == 0 || status >= 500 || status == 429
  }

  /** The interceptor's decision for a failed attempt. */
  predicate ShouldRetry(cfg: RequestConfig, status: int, limit: int)
  {
    IsRetryableMethod(cfg) && IsRetryableStatus(status) && cfg.retryCount < limit
  }

  /** Delay before the retry that follows `retryCount` earlier retries. */
  function Backoff(delayMs: int, retryCount: nat): int
  {
    delayMs * (retryCount + 1)
  }

  /** The first non-empty of the server's detail, its error text, the transport message. */
  function UserMessage(detail: string, error: string, message: string): (m: string)
    ensures m != ""
    ensures detail != "" ==> m == detail
    ensures detail == "" && error != "" ==> m == error
    ensures detail == "" && error == "" && message != "" ==> m == message
    ensures detail == "" && error == "" && message == "" ==> m == FallbackUserMessage
  {
    if detail != "" then detail
    else if error != "" then error
    else if message != "" then message
    else FallbackUserMessage
  }

  /** How one logical request ends, with the attempts sent and the delays waited. */
  datatype Outcome =
    | Resolved(status: int, sends: nat, waits: seq<int>)
    | Rejected(last: Reply, userMessage: string, sends: nat, waits: seq<int>)

  /** Replies always cover every attempt the interceptor can make. */
  predicate EnoughReplies(cfg: RequestConfig, limit: int, replies: seq<Reply>)
  {
    |replies| > Max(limit - cfg.retryCount, 0)
  }

  /**
   * One logical request: `replies[k]` answers the k-th attempt sent. A failed
   * attempt is re-sent after its backoff while `ShouldRetry` holds; otherwise
   * the request rejects with the user message of its last failure.
   */
  function Send(cfg: RequestConfig, limit: int, delayMs: int, replies: seq<Reply>): (o: Outcome)
    requires EnoughReplies(cfg, limit, replies)
    decreases |replies|
  {
    var r := replies[0];
    if r.Success? then Resolved(r.status, 1, [])
    else if ShouldRetry(cfg, r.status, limit) then
      var next := Send(cfg.(retryCount := cfg.retryCount + 1), limit, delayMs, replies[1..]);
      next.(sends := next.sends + 1, waits := [Backoff(delayMs, cfg.retryCount)] + next.waits)
    else Rejected(r, UserMessage(r.detail, r.error, r.message), 1, [])
  }

  /**
   * Attempts are bounded by the retry limit, one delay separates consecutive
   * attempts, and the k-th delay grows linearly with the retry number.
   */
  lemma {:induction false} SendBounds(cfg: RequestConfig, limit: int, delayMs: int, replies: seq<Reply>)
    requires EnoughReplies(cfg, limit, replies)
    ensures var o := Send(cfg, limit, delayMs, replies);
      1 <= o.sends <= Max(limit - cfg.retryCount, 0) + 1
      && |o.waits| == o.sends - 1
      && forall k :: 0 <= k < |o.waits| ==> o.waits[k] == delayMs * (cfg.retryCount + k + 1)
    decreases |replies|
  {
    var r := replies[0];
    if r.Failure? && ShouldRetry(cfg, r.status, limit) {
      var cfg' := cfg.(retryCount := cfg.retryCount + 1);
      SendBounds(cfg', limit, delayMs, replies[1..]);
      var o' := Send(cfg', limit, delayMs, replies[1..]);
      var o := Send(cfg, limit, delayMs, replies);
      SendRetryStep(cfg, limit, delayMs, replies);
      assert o.sends == o'.sends + 1 && o.waits == [Backoff(delayMs, cfg.retryCount)] + o'.waits;
      forall k | 0 <= k < |o.waits|
        ensures o.waits[k] == delayMs * (cfg.retryCount + k + 1)
      {
        if k > 0 {
          assert o.waits[k] == o'.waits[k - 1];
        }
      }
    }
  }

  /** A retried failure: the rest of the request is the same request with one more retry counted. */
  lemma SendRetryStep(cfg: RequestConfig, limit: int, delayMs: int, replies: seq<Reply>)
    requires EnoughReplies(cfg, limit, replies)
    requires replies[0].Failure? && ShouldRetry(cfg, replies[0].status, limit)
    ensures var cfg' := cfg.(retryCount := cfg.retryCount + 1);
      EnoughReplies(cfg', limit, replies[1..])
      && var o' := Send(cfg', limit, delayMs, replies[1..]);
      Send(cfg, limit, delayMs, replies)
        == o'.(sends := o'.sends + 1, waits := [Backoff(delayMs, cfg.retryCount)] + o'.waits)
  {
  }

  /** Every attempt before the last one failed with a retryable status. */
  lemma {:induction false} SendRetriedOnlyRetryable(cfg: RequestConfig, limit: int, delayMs: int, replies: seq<Reply>)
    requires EnoughReplies(cfg, limit, replies)
    ensures var o := Send(cfg, limit, delayMs, replies);
      1 <= o.sends <= |replies|
      && forall k :: 0 <= k < o.sends - 1 ==>
           replies[k].Failure? && IsRetryableMethod(cfg) && IsRetryableStatus(replies[k].status)
    decreases |replies|
  {
    var r := replies[0];
    if r.Failure? && ShouldRetry(cfg, r.status, limit) {
      var cfg' := cfg.(retryCount := cfg.retryCount + 1);
      SendRetriedOnlyRetryable(cfg', limit, delayMs, replies[1..]);
      var o' := Send(cfg', limit, delayMs, replies[1..]);
      assert Send(cfg, limit, delayMs, replies).sends == o'.sends + 1;
      forall k | 1 <= k < o'.sends
        ensures replies[k] == replies[1..][k - 1]
      {
      }
    }
  }

  /** The request resolves exactly when the attempt it stops on succeeded, with that attempt's status. */
  lemma {:induction false} SendStopsOnLastReply(cfg: RequestConfig, limit: int, delayMs: int, replies: seq<Reply>)
    requires EnoughReplies(cfg, limit, replies)
    ensures var o := Send(cfg, limit, delayMs, replies);
      1 <= o.sends <= |replies|
      && (o.Resolved? <==> replies[o.sends - 1].Success?)
      && (o.Resolved? ==> o.status == replies[o.sends - 1].status)
    decreases |replies|
  {
    var r := replies[0];
    if r.Failure? && ShouldRetry(cfg, r.status, limit) {
      var cfg' := cfg.(retryCount := cfg.retryCount + 1);
      SendStopsOnLastReply(cfg', limit, delayMs, replies[1..]);
      var o' := Send(cfg', limit, delayMs, replies[1..]);
      SendRetryStep(cfg, limit, delayMs, replies);
      assert replies[o'.sends] == replies[1..][o'.sends - 1];
    }
  }

  /**
   * A rejection carries the last failure and its user message, and at that
   * point no retry is left or allowed.
   */
  lemma {:induction false} SendRejectsOnLastFailure(cfg: RequestConfig, limit: int, delayMs: int, replies: seq<Reply>)
    requires EnoughReplies(cfg, limit, replies)
    ensures var o := Send(cfg, limit, delayMs, replies);
      1 <= o.sends <= |replies|
      && (o.Rejected? ==>
            o.last == replies[o.sends - 1] && o.last.Failure?
            && o.userMessage == UserMessage(o.last.detail, o.last.error, o.last.message)
            && (!IsRetryableMethod(cfg) || !IsRetryableStatus(o.last.status)
                || cfg.retryCount + o.sends - 1 >= limit))
    decreases |replies|
  {
    var r := replies[0];
    if r.Failure? && ShouldRetry(cfg, r.status, limit) {
      var cfg' := cfg.(retryCount := cfg.retryCount + 1);
      SendRejectsOnLastFailure(cfg', limit, delayMs, replies[1..]);
      var o' := Send(cfg', limit, delayMs, replies[1..]);
      SendRetryStep(cfg, limit, delayMs, replies);
      assert replies[o'.sends] == replies[1..][o'.sends - 1];
      assert IsRetryableMethod(cfg') == IsRetryableMethod(cfg);
    }
  }

  /** A request whose method may not be retried is sent once, whatever the failure. */
  lemma NonRetryableSentOnce(cfg: RequestConfig, limit: int, delayMs: int, replies: seq<Reply>)
    requires EnoughReplies(cfg, limit, replies)
    requires !IsRetryableMethod(cfg)
    ensures Send(cfg, limit, delayMs, replies).sends == 1
    ensures Send(cfg, limit, delayMs, replies).waits == []
  {
  }

  /** A GET that fails with 500 and then succeeds resolves with the second answer. */
  lemma GetRetriedAfterServerError(delayMs: int)
    ensures Send(RequestConfig("get", false, 0), DefaultRetryAttempts, delayMs,
                 [Failure(500, "", "", ""), Success(200), Success(200)])
         == Resolved(200, 2, [delayMs])
  {
  }

  /** A POST that fails with 500 is rejected without a retry. */
  lemma PostNotRetried(detail: string)
    requires detail != ""
    ensures Send(RequestConfig("post", false, 0), DefaultRetryAttempts, DefaultRetryDelayMs,
                 [Failure(500, detail, "", ""), Success(200), Success(200)])
         == Rejected(Failure(500, detail, "", ""), detail, 1, [])
  {
    assert Lower("post") == "post";
  }
}
