/**
 * The request interceptor wrapped around `fetch`: it turns the caller's
 * headers into a plain record, adds the tenant-domain and origin headers
 * when the caller has not set them, and keeps the last hundred request
 * logs in memory.
 */
module RequestInterceptor {
  import opened Wrappers
  import opened Seqs

  // ---------------------------------------------------------------------
  // Headers.

  type Headers = map<string, string>

  /** The forms a caller may give its headers in. */
  datatype HeadersInit =
    | NoHeaders
      /** A `Headers` instance, as the name/value pairs its `forEach` visits. */
    | HeadersInstance(entries: seq<(string, string)>)
    | PairList(pairs: seq<(string, string)>)
    | PlainRecord(fields: Headers)

  const TenantHeader := "X-Tenant-Domain"
  const TenantHeaderLower := "x-tenant-domain"
  const OriginHeader := "Origin"
  const OriginHeaderLower := "origin"
  /** What the domain reads as when the browser stores none. */
  const DomainNotSet := "NOT_SET"

  /** The record the pairs leave behind when each is stored in turn: a later pair overwrites an earlier one. */
  function PairsToRecord(pairs: seq<(string, string)>): (h: Headers)
    ensures forall k :: k in h <==> exists i :: 0 <= i < |pairs| && pairs[i].0 == k
    ensures forall i :: 0 <= i < |pairs| && (forall j :: i < j < |pairs| ==> pairs[j].0 != pairs[i].0) ==> h[pairs[i].0] == pairs[i].1
    decreases |pairs|
  {
    if pairs == [] then map[]
    else
      var init, last := pairs[..|pairs| - 1], pairs[|pairs| - 1];
      assert forall i :: 0 <= i < |init| ==> init[i] == pairs[i];
      PairsToRecord(init)[last.0 := last.1]
  }

  /** The `forEach` that copies the pairs into a fresh record. */
  method CopyPairs(pairs: seq<(string, string)>) returns (headersObj: Headers)
    ensures headersObj == PairsToRecord(pairs)
  {
    headersObj := map[];
    for i := 0 to |pairs|
      invariant headersObj == PairsToRecord(pairs[..i])
    {
      var (key, value) := pairs[i];
      headersObj := headersObj[key := value];
      PrefixStep(pairs, i);
      assert pairs[..i + 1][..i] == pairs[..i];
    }
    WholePrefix(pairs);
  }

  /** The caller's headers as a plain record; none at all is the empty record. */
  function Normalized(init: HeadersInit): Headers
  {
    match init
    case NoHeaders => map[]
    case HeadersInstance(entries) => PairsToRecord(entries)
    case PairList(pairs) => PairsToRecord(pairs)
    case PlainRecord(fields) => fields
  }

  method NormalizeHeaders(init: HeadersInit) returns (headersObj: Headers)
    ensures headersObj == Normalized(init)
  {
    match init {
      case NoHeaders =>
        headersObj := map[];
      case HeadersInstance(entries) =>
        headersObj := CopyPairs(entries);
      case PairList(pairs) =>
        headersObj := CopyPairs(pairs);
      case PlainRecord(fields) =>
        headersObj := fields;
    }
  }

  /** `localStorage.getItem('domain') || 'NOT_SET'`: a missing or empty stored domain reads as unset. */
  function ResolveDomain(stored: Option<string>): (d: string)
    ensures d != ""
    ensures stored.Some? && stored.value != "" ==> d == stored.value
    ensures stored.None? || stored.value == "" ==> d == DomainNotSet
  {
    if stored.Some? && stored.value != "" then stored.value else DomainNotSet
  }

  /** A header counts as set only when it has a non-empty value. */
  predicate Present(h: Headers, k: string)
  {
    k in h && h[k] != ""
  }

  predicate InjectsTenant(h: Headers, domain: string)
  {
    domain != "" && domain != DomainNotSet && !Present(h, TenantHeader) && !Present(h, TenantHeaderLower)
  }

  predicate InjectsOrigin(h: Headers)
  {
    !Present(h, OriginHeader) && !Present(h, OriginHeaderLower)
  }

  /** The headers with the tenant domain and the origin added where they are missing. */
  function WithDefaults(h: Headers, domain: string, currentOrigin: string): Headers
  {
    var withTenant := if InjectsTenant(h, domain) then h[TenantHeader := domain] else h;
    if InjectsOrigin(withTenant) then withTenant[OriginHeader := currentOrigin] else withTenant
  }

  /**
   * The headers the request goes out with: the caller's, normalised, with
   * the two defaults added.
   */
  method BuildHeaders(init: HeadersInit, storedDomain: Option<string>, currentOrigin: string) returns (headersObj: Headers)
    ensures headersObj == WithDefaults(Normalized(init), ResolveDomain(storedDomain), currentOrigin)
  {
    var domain := ResolveDomain(storedDomain);
    headersObj := NormalizeHeaders(init);
    if domain != "" && domain != DomainNotSet && !Present(headersObj, TenantHeader) && !Present(headersObj, TenantHeaderLower) {
      headersObj := headersObj[TenantHeader := domain];
    }
    if !Present(headersObj, OriginHeader) && !Present(headersObj, OriginHeaderLower) {
      headersObj := headersObj[OriginHeader := currentOrigin];
    }
  }

  /**
   * What the defaults do: the tenant header is set to the domain exactly
   * when a domain is known and the caller set the header under neither
   * spelling; the origin header is set exactly when the caller set neither
   * spelling of it; every other header of the caller is kept as it was,
   * and nothing else is added.
   */
  lemma DefaultsAddOnlyWhatIsMissing(h: Headers, domain: string, currentOrigin: string)
    ensures var r := WithDefaults(h, domain, currentOrigin);
      && (InjectsTenant(h, domain) ==> TenantHeader in r && r[TenantHeader] == domain)
      && (!InjectsTenant(h, domain) ==> (TenantHeader in r <==> TenantHeader in h) && (TenantHeader in h ==> r[TenantHeader] == h[TenantHeader]))
      && (InjectsOrigin(h) ==> OriginHeader in r && r[OriginHeader] == currentOrigin)
      && (!InjectsOrigin(h) ==> (OriginHeader in r <==> OriginHeader in h) && (OriginHeader in h ==> r[OriginHeader] == h[OriginHeader]))
      && (forall k :: k != TenantHeader && k != OriginHeader ==> (k in r <==> k in h) && (k in h ==> r[k] == h[k]))
      && r.Keys <= h.Keys + {TenantHeader, OriginHeader}
  {
    var withTenant := if InjectsTenant(h, domain) then h[TenantHeader := domain] else h;
    assert InjectsOrigin(withTenant) <==> InjectsOrigin(h);
  }

  /** Adding the defaults a second time changes nothing. */
  lemma DefaultsAreIdempotent(h: Headers, domain: string, currentOrigin: string)
    ensures WithDefaults(WithDefaults(h, domain, currentOrigin), domain, currentOrigin) == WithDefaults(h, domain, currentOrigin)
  {
    var r := WithDefaults(h, domain, currentOrigin);
    DefaultsAddOnlyWhatIsMissing(h, domain, currentOrigin);
    if InjectsTenant(h, domain) {
      assert Present(r, TenantHeader);
    }
    assert !InjectsTenant(r, domain);
  }

  /**
   * A header the caller already set is never replaced, and a caller who set
   * both the tenant domain and the origin, under either spelling, gets the
   * headers back unchanged.
   */
  lemma CallerHeadersWin(h: Headers, domain: string, currentOrigin: string)
    ensures var r := WithDefaults(h, domain, currentOrigin);
      forall k :: Present(h, k) ==> k in r && r[k] == h[k]
    ensures (Present(h, TenantHeader) || Present(h, TenantHeaderLower)) && (Present(h, OriginHeader) || Present(h, OriginHeaderLower)) ==>
      WithDefaults(h, domain, currentOrigin) == h
  {
  }

  // ---------------------------------------------------------------------
  // Logs.

  /** The request as logged; the body is not modelled. */
  datatype RequestLog = RequestLog(url: string, httpMethod: string, headers: Headers, timestamp: string, domain: string)

  /** A request with its outcome: an HTTP status, or status 0 and the error of a failed fetch. */
  datatype ResponseLog = ResponseLog(request: RequestLog, status: int, statusText: string, duration: real, error: Option<string>)

  /** `init?.method || 'GET'`. */
  function RequestMethod(httpMethod: Option<string>): (m: string)
    ensures m != ""
    ensures httpMethod.Some? && httpMethod.value != "" ==> m == httpMethod.value
    ensures httpMethod.None? || httpMethod.value == "" ==> m == "GET"
  {
    if httpMethod.Some? && httpMethod.value != "" then httpMethod.value else "GET"
  }

  /** The request log of a call; the timestamp is the caller's clock reading. */
  function MakeRequestLog(url: string, httpMethod: Option<string>, headers: Headers, timestamp: string, domain: string): (r: RequestLog)
    ensures r.httpMethod == RequestMethod(httpMethod) && r.headers == headers && r.url == url && r.domain == domain
  {
    RequestLog(url, RequestMethod(httpMethod), headers, timestamp, domain)
  }

  /** The log of a request whose fetch failed. */
  function ErrorLog(request: RequestLog, duration: real, message: string): (r: ResponseLog)
    ensures r.status == 0 && r.statusText == "Network Error" && r.error == Some(message) && r.request == request
  {
    ResponseLog(request, 0, "Network Error", duration, Some(message))
  }

  /** How many logs are kept. */
  const MaxLogs := 100

  /** The last `n` entries of `s`, oldest first. */
  function Newest<T>(s: seq<T>, n: nat): (r: seq<T>)
    ensures |r| == if |s| <= n then |s| else n
    ensures r == s[|s| - |r|..]
  {
    if |s| <= n then s else s[|s| - n..]
  }

  /**
   * Pushing an entry and then removing the oldest one when the buffer is
   * past its bound keeps exactly the newest entries.
   */
  lemma PushThenShift<T>(s: seq<T>, x: T, n: nat)
    requires n >= 1
    ensures var pushed := Newest(s, n) + [x];
      Newest(s + [x], n) == if |pushed| > n then pushed[1..] else pushed
  {
    var pushed := Newest(s, n) + [x];
    if |pushed| > n {
      assert |s| >= n;
      assert pushed[1..] == (s + [x])[|s| + 1 - n..];
    }
  }

  /** The in-memory log buffer, in the order the requests finished. */
  class RequestLogStore {
    var logs: seq<ResponseLog>
    /** Every entry pushed since the buffer was last cleared. */
    ghost var history: seq<ResponseLog>

    ghost predicate Valid()
      reads this
    {
      logs == Newest(history, MaxLogs)
    }

    constructor()
      ensures Valid() && logs == [] && history == []
    {
      logs := [];
      history := [];
    }

    /**
     * `requestLogs.push(entry)`, then `shift()` once if that made the
     * buffer longer than the bound. The buffer stays within the bound, in
     * push order, with the new entry last.
     */
    method Push(entry: ResponseLog)
      requires Valid()
      modifies this
      ensures Valid()
      ensures history == old(history) + [entry]
      ensures logs == if |old(logs)| + 1 > MaxLogs then (old(logs) + [entry])[1..] else old(logs) + [entry]
      ensures |logs| <= MaxLogs && logs[|logs| - 1] == entry
    {
      PushThenShift(history, entry, MaxLogs);
      logs := logs + [entry];
      history := history + [entry];
      if |logs| > MaxLogs {
        logs := logs[1..];
      }
    }

    /** The success path: the request log with the response's status. */
    method RecordResponse(request: RequestLog, status: int, statusText: string, duration: real)
      requires Valid()
      modifies this
      ensures Valid()
      ensures history == old(history) + [ResponseLog(request, status, statusText, duration, None)]
    {
      Push(ResponseLog(request, status, statusText, duration, None));
    }

    /** The error path: the request log with status 0 and the error message. */
    method RecordError(request: RequestLog, duration: real, message: string)
      requires Valid()
      modifies this
      ensures Valid()
      ensures history == old(history) + [ErrorLog(request, duration, message)]
    {
      Push(ErrorLog(request, duration, message));
    }

    /** `getRequestLogs`: a copy of the buffer; the buffer is left as it is. */
    method GetRequestLogs() returns (copy: seq<ResponseLog>)
      requires Valid()
      ensures copy == logs
      ensures copy == Newest(history, MaxLogs)
    {
      copy := logs;
    }

    /** `clearRequestLogs`: the buffer becomes empty. */
    method ClearRequestLogs()
      modifies this
      ensures Valid() && logs == [] && history == []
    {
      logs := [];
      history := [];
    }
  }
}
