/**
 * The Icinga2 API client (icinga2.py): it stores the API credentials and the
 * base URL, and submits a passive check result as one authenticated POST.
 * The HTTP transport itself (the POST, Basic auth, decoding the JSON reply) is
 * an oracle `post` handed to the calls: whatever it answers is the answer.
 */
module Icinga2Api {
  import opened Wrappers

  /** The action path appended to the endpoint, up to the `service=` value. */
  const CHECK_RESULT_ACTION := "/v1/actions/process-check-result?service="
  /** The value of the `Accept` header on every call. */
  const ACCEPT_JSON := "application/json"

  /** One POST as the transport receives it: URL, Basic-auth pair, JSON body, Accept header. */
  datatype HttpRequest<P> = HttpRequest(url: string, username: string, password: string, json: P, accept: string)

  /**
   * The URL of a check-result submission: the endpoint, the action path, then
   * `host!service`, both inserted verbatim (no escaping, no trimming).
   */
  function CheckResultPath(endpoint: string, reportingHost: string, service: string): (path: string)
    ensures |path| == |endpoint| + |CHECK_RESULT_ACTION| + |reportingHost| + 1 + |service|
    ensures path[..|endpoint|] == endpoint
    ensures path[|endpoint|..|endpoint| + |CHECK_RESULT_ACTION|] == CHECK_RESULT_ACTION
    ensures path[|endpoint| + |CHECK_RESULT_ACTION|..|endpoint| + |CHECK_RESULT_ACTION| + |reportingHost|] == reportingHost
    ensures path[|endpoint| + |CHECK_RESULT_ACTION| + |reportingHost|] == '!'
    ensures path[|path| - |service|..] == service
  {
    endpoint + CHECK_RESULT_ACTION + reportingHost + "!" + service
  }

  /** The position of the first `c` in `s`, if any. */
  function IndexOf(s: string, c: char): (r: Option<nat>)
    ensures r.None? ==> c !in s
    ensures r.Some? ==> r.value < |s| && s[r.value] == c && c !in s[..r.value]
  {
    if s == [] then None
    else if s[0] == c then Some(0)
    else
      match IndexOf(s[1..], c)
      case None => None
      case Some(k) =>
        assert s[..k + 1] == [s[0]] + s[1..][..k];
        Some(k + 1)
  }

  /**
   * Reads the host and the service back out of a submission URL for a known
   * endpoint: the host runs up to the first `!`, the service is the rest.
   */
  function SplitCheckResultPath(endpoint: string, path: string): (r: Option<(string, string)>)
    ensures r.Some? ==> CheckResultPath(endpoint, r.value.0, r.value.1) == path
  {
    var prefix := endpoint + CHECK_RESULT_ACTION;
    if |path| < |prefix| || path[..|prefix|] != prefix then None
    else
      var key := path[|prefix|..];
      match IndexOf(key, '!')
      case None => None
      case Some(k) =>
        assert key == key[..k] + "!" + key[k + 1..];
        assert path == prefix + key;
        Some((key[..k], key[k + 1..]))
  }

  /** A host without `!` and any service are recovered exactly from the URL. */
  lemma CheckResultPathRoundTrip(endpoint: string, reportingHost: string, service: string)
    requires '!' !in reportingHost
    ensures SplitCheckResultPath(endpoint, CheckResultPath(endpoint, reportingHost, service)) == Some((reportingHost, service))
  {
    var prefix := endpoint + CHECK_RESULT_ACTION;
    var path := CheckResultPath(endpoint, reportingHost, service);
    assert path == prefix + (reportingHost + "!" + service);
    var key := path[|prefix|..];
    assert key == reportingHost + "!" + service;
    assert key[|reportingHost|] == '!';
    assert key[..|reportingHost|] == reportingHost;
    var idx := IndexOf(key, '!');
    assert idx == Some(|reportingHost|) by {
      assert '!' !in key[..|reportingHost|];
    }
    assert key[|reportingHost| + 1..] == service;
  }

  /** With a `!` in the host name two different targets share one URL. */
  lemma CheckResultPathAmbiguousHost()
    ensures CheckResultPath("", "a!b", "c") == CheckResultPath("", "a", "b!c")
  {
  }

  /** An Icinga2 API client bound to one endpoint and one credential pair. */
  class Icinga2 {
    const username: string
    const password: string
    const endpoint: string

    constructor (username: string, password: string, endpoint: string)
      ensures this.username == username && this.password == password && this.endpoint == endpoint
    {
      this.username := username;
      this.password := password;
      this.endpoint := endpoint;
    }

    /**
     * Sends `payload` to `path` with the stored credentials: one POST whose
     * JSON body is `payload` unchanged; the transport's answer is returned as is.
     */
    method ApiCall<P, R>(path: string, payload: P, post: HttpRequest<P> -> R) returns (response: R)
      ensures response == post(HttpRequest(path, username, password, payload, ACCEPT_JSON))
    {
      response := post(HttpRequest(path, username, password, payload, ACCEPT_JSON));
    }

    /**
     * Submits a check result for `service` on `reportingHost`: one API call to
     * the check-result URL of this endpoint, carrying `payload` unchanged.
     */
    method ProcessCheckResult<P, R>(reportingHost: string, service: string, payload: P, post: HttpRequest<P> -> R)
      returns (response: R)
      ensures response == post(HttpRequest(CheckResultPath(endpoint, reportingHost, service), username, password, payload, ACCEPT_JSON))
    {
      response := ApiCall(CheckResultPath(endpoint, reportingHost, service), payload, post);
    }
  }
}
