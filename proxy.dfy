/**
 * The aggregation proxy: each platform's fetch is turned into a
 * `{success, data}` result that never fails, the three results are awaited
 * together, and the `/contests` handler wraps them into one envelope.
 *
 * The network is a parameter `network` from request URL to what the GET
 * produced; axios's timeout, status check and headers are folded into that
 * outcome. The response timestamp is a parameter too.
 */
module Proxy {
  import opened Wrappers
  import opened Json

  datatype Platform = Codeforces | Codechef | Leetcode

  /** The `PLATFORM_APIS` table. */
  function ApiUrl(p: Platform): string
  {
    match p
    case Codeforces => "https://codeforces.com/api/contest.list"
    case Codechef => "https://www.codechef.com/api/list/contests/all?mode=all"
    case Leetcode => "https://leetcode.com/contest/api/list/"
  }

  /** The envelope key under which each platform's payload is reported. */
  function EnvelopeKey(p: Platform): string
  {
    match p
    case Codeforces => "codeforces"
    case Codechef => "codechef"
    case Leetcode => "leetcode"
  }

  /** What one HTTP GET produced: the response body, or a thrown error with its message. */
  datatype HttpOutcome = Received(body: Json) | Failed(message: string)

  /** A thrown JavaScript error, of which only the message is observed. */
  datatype Error = Error(message: string)

  /** A settled promise. */
  datatype Settled<T> = Fulfilled(value: T) | Rejected(reason: Error)

  /** The `{success, data}` record `fetchPlatformData` resolves to. */
  datatype FetchResult = FetchResult(success: bool, data: Json)

  /**
   * `fetchPlatformData(platform)`: the GET of the platform's URL, with
   * every thrown error caught. The promise always fulfils; success carries
   * the payload unchanged, failure carries `null`.
   */
  function FetchPlatformData(p: Platform, network: string -> HttpOutcome): (r: Settled<FetchResult>)
    ensures r.Fulfilled?
    ensures r.value.success <==> network(ApiUrl(p)).Received?
    ensures r.value.success ==> r.value.data == network(ApiUrl(p)).body
    ensures !r.value.success ==> r.value.data == JNull
  {
    match network(ApiUrl(p))
    case Received(body) => Fulfilled(FetchResult(true, body))
    case Failed(_) => Fulfilled(FetchResult(false, JNull))
  }

  /**
   * `Promise.all`: fulfils with every value, in the order of the input,
   * when every promise fulfils; otherwise rejects with the reason of a
   * rejected promise (the first one by position).
   */
  function PromiseAll<T>(ps: seq<Settled<T>>): (r: Settled<seq<T>>)
    ensures r.Fulfilled? <==> forall i :: 0 <= i < |ps| ==> ps[i].Fulfilled?
    ensures r.Fulfilled? ==> |r.value| == |ps|
    ensures r.Fulfilled? ==> forall i :: 0 <= i < |ps| ==> r.value[i] == ps[i].value
    ensures r.Rejected? ==> exists i :: 0 <= i < |ps| && ps[i] == Rejected(r.reason)
  {
    if ps == [] then Fulfilled([])
    else
      match ps[0]
      case Rejected(e) => Rejected(e)
      case Fulfilled(v) =>
        match PromiseAll(ps[1..])
        case Rejected(e) => Rejected(e)
        case Fulfilled(vs) => Fulfilled([v] + vs)
  }

  /** The three fetches in the order the handler starts them. */
  function FanOut(network: string -> HttpOutcome): seq<Settled<FetchResult>>
  {
    [FetchPlatformData(Codeforces, network),
     FetchPlatformData(Codechef, network),
     FetchPlatformData(Leetcode, network)]
  }

  /** An HTTP response: status code and JSON body. */
  datatype Response = Response(status: nat, body: Json)

  const FailureMessage := "Failed to fetch contest data"

  /** `r.success ? r.data : null` */
  function Slot(r: FetchResult): Json
  {
    if r.success then r.data else JNull
  }

  /** The `data` member of a body, or `null` when there is none. */
  function DataOf(body: Json): Json
  {
    match Get(body, "data")
    case Some(d) => d
    case None => JNull
  }

  /**
   * The body the normal path sends: `success` is always true, and `data`
   * has exactly the three platform keys, in order, each holding the
   * platform's payload if its fetch succeeded and `null` otherwise.
   */
  function Envelope(cf: FetchResult, cc: FetchResult, lc: FetchResult, timestamp: string): (body: Json)
    ensures body.JObject? && Keys(body.fields) == ["success", "timestamp", "data"]
    ensures Get(body, "success") == Some(JBool(true))
    ensures Get(body, "timestamp") == Some(JString(timestamp))
    ensures DataOf(body).JObject?
    ensures Keys(DataOf(body).fields) == ["codeforces", "codechef", "leetcode"]
    ensures cf.success ==> Get(DataOf(body), "codeforces") == Some(cf.data)
    ensures !cf.success ==> Get(DataOf(body), "codeforces") == Some(JNull)
    ensures cc.success ==> Get(DataOf(body), "codechef") == Some(cc.data)
    ensures !cc.success ==> Get(DataOf(body), "codechef") == Some(JNull)
    ensures lc.success ==> Get(DataOf(body), "leetcode") == Some(lc.data)
    ensures !lc.success ==> Get(DataOf(body), "leetcode") == Some(JNull)
  {
    var data := [("codeforces", Slot(cf)), ("codechef", Slot(cc)), ("leetcode", Slot(lc))];
    var fields := [("success", JBool(true)), ("timestamp", JString(timestamp)), ("data", JObject(data))];
    LookupThree(fields);
    assert DataOf(JObject(fields)) == JObject(data);
    LookupThree(data);
    JObject(fields)
  }

  /** Property access on a three-field object with distinct keys finds each field's own value. */
  lemma LookupThree(fields: seq<(string, Json)>)
    requires |fields| == 3
    requires fields[0].0 != fields[1].0 && fields[0].0 != fields[2].0 && fields[1].0 != fields[2].0
    ensures Keys(fields) == [fields[0].0, fields[1].0, fields[2].0]
    ensures Lookup(fields, fields[0].0) == Some(fields[0].1)
    ensures Lookup(fields, fields[1].0) == Some(fields[1].1)
    ensures Lookup(fields, fields[2].0) == Some(fields[2].1)
  {
  }

  /** The catch branch: status 500 with the fixed message and the error's own message. */
  function ErrorResponse(e: Error): (res: Response)
    ensures res.status == 500
    ensures res.body.JObject? && Keys(res.body.fields) == ["success", "message", "error"]
    ensures Get(res.body, "success") == Some(JBool(false))
    ensures Get(res.body, "message") == Some(JString(FailureMessage))
    ensures Get(res.body, "error") == Some(JString(e.message))
  {
    Response(500, JObject([
      ("success", JBool(false)),
      ("message", JString(FailureMessage)),
      ("error", JString(e.message))]))
  }

  /**
   * What the handler sends once the awaited `Promise.all` has settled: the
   * envelope (status 200, the default of `res.json`) built from the three
   * results by position, or the error response when the await threw.
   */
  function Respond(all: Settled<seq<FetchResult>>, timestamp: string): (res: Response)
    requires all.Fulfilled? ==> |all.value| == 3
    ensures all.Fulfilled? ==> res.status == 200 && Get(res.body, "success") == Some(JBool(true))
    ensures all.Rejected? ==> res == ErrorResponse(all.reason)
  {
    match all
    case Fulfilled(rs) => Response(200, Envelope(rs[0], rs[1], rs[2], timestamp))
    case Rejected(e) => ErrorResponse(e)
  }

  /**
   * The `/contests` handler. The fetches never reject, so the awaited
   * `Promise.all` fulfils and the answer is always status 200 with
   * `success: true`; under each platform's key it reports what that
   * platform's own URL produced, or `null` if that GET failed.
   */
  function ContestsHandler(network: string -> HttpOutcome, timestamp: string): (res: Response)
    ensures res.status == 200
    ensures Get(res.body, "success") == Some(JBool(true))
    ensures DataOf(res.body).JObject?
    ensures Keys(DataOf(res.body).fields) == ["codeforces", "codechef", "leetcode"]
    ensures forall p: Platform :: Get(DataOf(res.body), EnvelopeKey(p)) == Some(Reported(network, p))
  {
    var cf := FetchPlatformData(Codeforces, network).value;
    var cc := FetchPlatformData(Codechef, network).value;
    var lc := FetchPlatformData(Leetcode, network).value;
    FanOutFulfils(network);
    EnvelopeReports(network, timestamp);
    assert Respond(PromiseAll(FanOut(network)), timestamp) == Response(200, Envelope(cf, cc, lc, timestamp));
    Respond(PromiseAll(FanOut(network)), timestamp)
  }

  /** No fetch rejects, so the awaited `Promise.all` fulfils with the three results in start order. */
  lemma FanOutFulfils(network: string -> HttpOutcome)
    ensures PromiseAll(FanOut(network)) ==
            Fulfilled([FetchPlatformData(Codeforces, network).value,
                       FetchPlatformData(Codechef, network).value,
                       FetchPlatformData(Leetcode, network).value])
  {
    var ps := FanOut(network);
    var all := PromiseAll(ps);
    assert all.Fulfilled? by {
      forall i | 0 <= i < |ps| ensures ps[i].Fulfilled? {
      }
    }
    assert all.value == [ps[0].value, ps[1].value, ps[2].value];
  }

  /** The envelope of the three fetch results reports, under each platform's key, what that platform's URL produced. */
  lemma EnvelopeReports(network: string -> HttpOutcome, timestamp: string)
    ensures var data := DataOf(Envelope(FetchPlatformData(Codeforces, network).value,
                                        FetchPlatformData(Codechef, network).value,
                                        FetchPlatformData(Leetcode, network).value,
                                        timestamp));
            forall p: Platform :: Get(data, EnvelopeKey(p)) == Some(Reported(network, p))
  {
    var cf := FetchPlatformData(Codeforces, network).value;
    var cc := FetchPlatformData(Codechef, network).value;
    var lc := FetchPlatformData(Leetcode, network).value;
    var data := DataOf(Envelope(cf, cc, lc, timestamp));
    forall p: Platform ensures Get(data, EnvelopeKey(p)) == Some(Reported(network, p)) {
      match p
      case Codeforces =>
      case Codechef =>
      case Leetcode =>
    }
  }

  /** The value the handler reports for platform `p`: the payload if its GET delivered one, else `null`. */
  function Reported(network: string -> HttpOutcome, p: Platform): Json
  {
    match network(ApiUrl(p))
    case Received(body) => body
    case Failed(_) => JNull
  }

  /**
   * The handler's answer is the envelope of the three fetch results by
   * position: the first to `codeforces`, the second to `codechef`, the
   * third to `leetcode`.
   */
  lemma HandlerTakesNormalPath(network: string -> HttpOutcome, timestamp: string)
    ensures ContestsHandler(network, timestamp) ==
            Response(200, Envelope(FetchPlatformData(Codeforces, network).value,
                                   FetchPlatformData(Codechef, network).value,
                                   FetchPlatformData(Leetcode, network).value,
                                   timestamp))
  {
    FanOutFulfils(network);
  }

  /**
   * Per-key independence: what the handler reports for `p` depends only on
   * what `p`'s own URL produced, so a failure of another source leaves it
   * unchanged.
   */
  lemma SourcesAreIndependent(n1: string -> HttpOutcome, n2: string -> HttpOutcome, timestamp: string, p: Platform)
    requires n1(ApiUrl(p)) == n2(ApiUrl(p))
    ensures Get(DataOf(ContestsHandler(n1, timestamp).body), EnvelopeKey(p)) ==
            Get(DataOf(ContestsHandler(n2, timestamp).body), EnvelopeKey(p))
  {
  }

  /**
   * For any non-null payload `d`, the key of `p` holds `d` if and only if
   * `p`'s fetch resolved to `{success: true, data: d}`; a non-null value
   * under the key means the fetch succeeded.
   */
  lemma ReportedIffSucceeded(network: string -> HttpOutcome, timestamp: string, p: Platform, d: Json)
    requires d != JNull
    ensures var v := Get(DataOf(ContestsHandler(network, timestamp).body), EnvelopeKey(p));
            && (v == Some(d) <==> FetchPlatformData(p, network).value == FetchResult(true, d))
            && (v != Some(JNull) ==> FetchPlatformData(p, network).value.success)
  {
  }

  /** Even when all three sources fail, the envelope reports `success: true` with every key `null`. */
  lemma AllFailedStillSucceeds(network: string -> HttpOutcome, timestamp: string)
    requires forall p: Platform :: network(ApiUrl(p)).Failed?
    ensures var res := ContestsHandler(network, timestamp);
            && res.status == 200
            && Get(res.body, "success") == Some(JBool(true))
            && DataOf(res.body) == JObject([("codeforces", JNull), ("codechef", JNull), ("leetcode", JNull)])
  {
  }
}
