/** The shared helpers of the scraper controller: ASIN recognition and
    normalization, the regional fallback over marketplace domains, and the
    mapping from an upstream error to the HTTP response sent to the client.
    The scraping vendor is an abstract oracle from the requested page to an
    outcome; the URL text (base URL, percent-encoding) is not modelled. */
module ScraperHelpers {
  import opened JsonValues

  /** Marketplace domain suffixes, tried in this order. */
  const Regions: seq<string> := [".com", ".ca", ".co.uk"]

  /** The page a scrape request asks the vendor for: `https://www.amazon<tld><path>`. */
  datatype Target = Target(tld: string, path: string)

  /** A thrown JavaScript error: its `name`, its `status` if it has one, its `message`. */
  datatype UpstreamError = UpstreamError(name: string, status: Option<nat>, message: string)

  /** What one upstream request yields: the decoded body, or the error it throws. */
  datatype Outcome = Ok(json: Json) | Err(error: UpstreamError)

  /** An HTTP response sent to the client. */
  datatype Response = Response(status: int, body: Json)

  predicate IsAsciiLower(c: char) { 'a' <= c <= 'z' }
  predicate IsAsciiUpper(c: char) { 'A' <= c <= 'Z' }
  predicate IsDigit(c: char) { '0' <= c <= '9' }

  function UpperChar(c: char): char {
    if IsAsciiLower(c) then (c as int - 32) as char else c
  }

  /** normalizeAsin: the id upper-cased. */
  function NormalizeAsin(id: string): (r: string)
    ensures |r| == |id|
    ensures forall i :: 0 <= i < |r| ==> !IsAsciiLower(r[i])
    ensures forall i :: 0 <= i < |r| && !IsAsciiLower(id[i]) ==> r[i] == id[i]
    ensures forall i :: 0 <= i < |r| && IsAsciiLower(id[i]) ==>
      IsAsciiUpper(r[i]) && r[i] as int - 'A' as int == id[i] as int - 'a' as int
  {
    seq(|id|, i requires 0 <= i < |id| => UpperChar(id[i]))
  }

  /** isAsin: `/^[A-Z0-9]{10}$/i`, i.e. ten ASCII letters of either case or digits. */
  predicate IsAsin(id: string) {
    |id| == 10 && forall i :: 0 <= i < |id| ==> IsAsciiLower(id[i]) || IsAsciiUpper(id[i]) || IsDigit(id[i])
  }

  /** The pages tryRegions visits for `paths`, in its order: every region of the
      first path, then every region of the next path, and so on. */
  function Targets(paths: seq<string>): seq<Target>
  {
    if paths == [] then []
    else seq(|Regions|, g requires 0 <= g < |Regions| => Target(Regions[g], paths[0])) + Targets(paths[1..])
  }

  /** A 404 or 410, the statuses on which tryRegions moves on to the next region. */
  predicate IsNotFound(e: UpstreamError) {
    e.status == Some(404) || e.status == Some(410)
  }

  /** A run of tryRegions: what it returns or throws, and the pages it requested, in order. */
  datatype Attempt = Attempt(outcome: Outcome, tried: seq<Target>)

  /** tryRegions over the pages `ts`: the first answer that is a success or an
      error other than not-found ends the run; a not-found moves on; after the
      last page its outcome is the result. */
  function Fallback(upstream: Target -> Outcome, ts: seq<Target>): Attempt
    requires |ts| > 0
    decreases |ts|
  {
    var o := upstream(ts[0]);
    if o.Ok? || !IsNotFound(o.error) || |ts| == 1 then Attempt(o, [ts[0]])
    else
      var rest := Fallback(upstream, ts[1..]);
      Attempt(rest.outcome, [ts[0]] + rest.tried)
  }

  /** A run of tryRegions tries a prefix of the pages; every page before the last
      answered not-found; the outcome is the last page's answer; and the run stops
      early only on a success or on an error other than not-found. */
  lemma {:induction false} FallbackShape(upstream: Target -> Outcome, ts: seq<Target>)
    requires |ts| > 0
    ensures var r := Fallback(upstream, ts);
      && 1 <= |r.tried| <= |ts| && r.tried == ts[..|r.tried|]
      && r.outcome == upstream(ts[|r.tried| - 1])
      && (forall i :: 0 <= i < |r.tried| - 1 ==> upstream(ts[i]).Err? && IsNotFound(upstream(ts[i]).error))
      && (r.outcome.Err? && IsNotFound(r.outcome.error) ==> |r.tried| == |ts|)
    decreases |ts|
  {
    var o := upstream(ts[0]);
    if !(o.Ok? || !IsNotFound(o.error) || |ts| == 1) {
      FallbackShape(upstream, ts[1..]);
      var rest := Fallback(upstream, ts[1..]);
      assert Fallback(upstream, ts).tried == [ts[0]] + rest.tried;
      forall i | 1 <= i < |rest.tried| + 1
        ensures ts[i] == ts[1..][i - 1]
      {
      }
    }
  }

  /** After k not-found answers, the run continues exactly as a run started at page k. */
  lemma {:induction false} FallbackSkipsMisses(upstream: Target -> Outcome, ts: seq<Target>, k: nat)
    requires k < |ts|
    requires forall i :: 0 <= i < k ==> upstream(ts[i]).Err? && IsNotFound(upstream(ts[i]).error)
    ensures Fallback(upstream, ts) == Attempt(Fallback(upstream, ts[k..]).outcome, ts[..k] + Fallback(upstream, ts[k..]).tried)
  {
    if k > 0 {
      FallbackSkipsMisses(upstream, ts[1..], k - 1);
      assert ts[1..][k - 1..] == ts[k..];
      assert [ts[0]] + ts[1..][..k - 1] == ts[..k];
    }
  }

  /** The run ends at page k when pages 0..k-1 answered not-found and page k
      answered a success, an error other than not-found, or is the last page. */
  lemma FallbackEndsAt(upstream: Target -> Outcome, ts: seq<Target>, k: nat)
    requires k < |ts|
    requires forall i :: 0 <= i < k ==> upstream(ts[i]).Err? && IsNotFound(upstream(ts[i]).error)
    requires upstream(ts[k]).Ok? || !IsNotFound(upstream(ts[k]).error) || k == |ts| - 1
    ensures Fallback(upstream, ts) == Attempt(upstream(ts[k]), ts[..k + 1])
  {
    FallbackSkipsMisses(upstream, ts, k);
    assert ts[..k] + [ts[k..][0]] == ts[..k + 1];
  }

  /** There are three pages per path, and page 3p+g is region g of path p. */
  lemma {:induction false} TargetAt(paths: seq<string>, p: nat, g: nat)
    requires p < |paths| && g < |Regions|
    ensures |Targets(paths)| == |Regions| * |paths|
    ensures Targets(paths)[|Regions| * p + g] == Target(Regions[g], paths[p])
    decreases p
  {
    if p == 0 {
      TargetsLength(paths);
    } else {
      TargetAt(paths[1..], p - 1, g);
    }
  }

  lemma {:induction false} TargetsLength(paths: seq<string>)
    ensures |Targets(paths)| == |Regions| * |paths|
  {
    if paths != [] {
      TargetsLength(paths[1..]);
    }
  }

  /** `tried` is the first |tried| pages, and every one of them answered 404 or 410. */
  predicate Missed(upstream: Target -> Outcome, ts: seq<Target>, tried: seq<Target>) {
    |tried| <= |ts| && tried == ts[..|tried|] &&
    forall i :: 0 <= i < |tried| ==> upstream(ts[i]).Err? && IsNotFound(upstream(ts[i]).error)
  }

  /** One more not-found page keeps the run going. */
  lemma MissedStep(upstream: Target -> Outcome, ts: seq<Target>, tried: seq<Target>)
    requires Missed(upstream, ts, tried) && |tried| < |ts|
    requires upstream(ts[|tried|]).Err? && IsNotFound(upstream(ts[|tried|]).error)
    ensures Missed(upstream, ts, tried + [ts[|tried|]])
  {
    assert ts[..|tried| + 1] == ts[..|tried|] + [ts[|tried|]];
  }

  /** After the not-found pages `tried`, a page that answers anything else ends the run. */
  lemma MissedThenStop(upstream: Target -> Outcome, ts: seq<Target>, tried: seq<Target>)
    requires Missed(upstream, ts, tried) && |tried| < |ts|
    requires upstream(ts[|tried|]).Ok? || !IsNotFound(upstream(ts[|tried|]).error)
    ensures Fallback(upstream, ts) == Attempt(upstream(ts[|tried|]), tried + [ts[|tried|]])
  {
    FallbackEndsAt(upstream, ts, |tried|);
    assert ts[..|tried| + 1] == ts[..|tried|] + [ts[|tried|]];
  }

  /** When every page answered not-found, the run ends with the last page's answer. */
  lemma MissedAll(upstream: Target -> Outcome, ts: seq<Target>, tried: seq<Target>)
    requires Missed(upstream, ts, tried) && |tried| == |ts| > 0
    ensures Fallback(upstream, ts) == Attempt(upstream(ts[|ts| - 1]), tried)
  {
    FallbackEndsAt(upstream, ts, |ts| - 1);
    assert ts[..|ts|] == ts;
  }

  /** tryRegions (nested loop over paths and regions, remembering the last error). */
  method TryRegions(upstream: Target -> Outcome, paths: seq<string>) returns (r: Attempt)
    requires |paths| > 0
    ensures r == Fallback(upstream, Targets(paths))
  {
    ghost var ts := Targets(paths);
    TargetsLength(paths);
    var tried: seq<Target> := [];
    var lastErr: Option<UpstreamError> := None;
    var p := 0;
    while p < |paths|
      invariant 0 <= p <= |paths|
      invariant |tried| == 3 * p && Missed(upstream, ts, tried)
      invariant p > 0 ==> lastErr == Some(upstream(ts[|tried| - 1]).error)
    {
      var g := 0;
      while g < |Regions|
        invariant 0 <= g <= 3
        invariant |tried| == 3 * p + g && Missed(upstream, ts, tried)
        invariant p > 0 || g > 0 ==> lastErr == Some(upstream(ts[|tried| - 1]).error)
      {
        var t := Target(Regions[g], paths[p]);
        TargetAt(paths, p, g);
        var o := upstream(t);
        if o.Ok? || !IsNotFound(o.error) {
          MissedThenStop(upstream, ts, tried);
          tried := tried + [t];
          if o.Ok? {
            return Attempt(o, tried);
          }
          lastErr := Some(o.error);
          return Attempt(Err(o.error), tried);
        }
        MissedStep(upstream, ts, tried);
        tried := tried + [t];
        lastErr := Some(o.error);
        g := g + 1;
      }
      p := p + 1;
    }
    MissedAll(upstream, ts, tried);
    return Attempt(Err(lastErr.value), tried);
  }

  /** sendUpstreamError: the response for an error that reached a handler's catch. */
  function SendUpstreamError(e: UpstreamError, notFoundMessage: string): (r: Response)
    ensures e.name == "AbortError" ==> r == Response(504, Message("Upstream timeout"))
    ensures e.name != "AbortError" && e.status == Some(403) ==> r == Response(502, Message("Upstream request blocked"))
    ensures e.name != "AbortError" && e.status == Some(429) ==> r == Response(429, Message("Rate limited by upstream"))
    ensures r.status == 404 <==> e.name != "AbortError" && e.status == Some(404)
    ensures r.status == 404 ==> r.body == Message(notFoundMessage)
    ensures r.status == 500 <==> e.name != "AbortError" && e.status !in {Some(403), Some(429), Some(404)}
    ensures r.status == 500 ==> r.body == JObj(map["message" := JStr("Internal Server Error"), "error" := JStr(e.message)])
  {
    if e.name == "AbortError" then Response(504, Message("Upstream timeout"))
    else if e.status == Some(403) then Response(502, Message("Upstream request blocked"))
    else if e.status == Some(429) then Response(429, Message("Rate limited by upstream"))
    else if e.status == Some(404) then Response(404, Message(notFoundMessage))
    else Response(500, JObj(map["message" := JStr("Internal Server Error"), "error" := JStr(e.message)]))
  }

  function DigitChar(d: nat): char
    requires d < 10
  {
    ('0' as int + d) as char
  }

  /** Decimal text of a status code, as a template literal prints it. */
  function StatusText(n: nat): string
    decreases n
  {
    if n < 10 then [DigitChar(n)] else StatusText(n / 10) + [DigitChar(n % 10)]
  }

  /** fetchData: an HTTP failure is rethrown as a plain Error whose text holds the
      status but which has no `status` member; any other error passes unchanged. */
  function ViaFetchData(o: Outcome): (r: Outcome)
    ensures r.Ok? <==> o.Ok?
    ensures r.Ok? ==> r == o
    ensures r.Err? ==> r.error.status.None?
    ensures r.Err? && o.error.status.None? ==> r == o
  {
    if o.Err? && o.error.status.Some? then
      Err(UpstreamError("Error", None, "HTTP error! status: " + StatusText(o.error.status.value)))
    else o
  }
}
