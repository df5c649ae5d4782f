/**
 * The request-construction core of the `MaoyanAPI` client: the identity
 * tables built once from the configuration, the per-call assembly of query
 * parameters and headers, the choice of HTTP method, and the one endpoint
 * that reads a project's details.
 *
 * The network is a parameter: `transport` stands for `requests.Session`
 * sending one wire request, and `parseJson` for `response.json()`.
 */
module Maoyan {
  import opened Wrappers
  import opened Text
  import opened Json
  import opened PyText

  // ---------------------------------------------------------------------------
  // Identity tables, built by `__init__`
  // ---------------------------------------------------------------------------

  /** The configuration keys `__init__` reads, in the order it reads them. */
  const InitKeys: seq<string> := [
    "base_url", "uuid", "token", "cityId", "clientPlatform", "sellChannel",
    "optimus_risk_level", "optimus_code", "ax", "bx", "yodaReady",
    "csecplatform", "csecversion"
  ]

  /**
   * Every key of InitKeys is configured, written out key by key: the verifier
   * then reads each key's presence directly, where the quantified form would
   * need the sequence indexed first. InitKeysPresent proves the two agree.
   */
  predicate HasInitKeys(config: map<string, Value>) {
    && "base_url" in config && "uuid" in config && "token" in config
    && "cityId" in config && "clientPlatform" in config && "sellChannel" in config
    && "optimus_risk_level" in config && "optimus_code" in config
    && "ax" in config && "bx" in config && "yodaReady" in config
    && "csecplatform" in config && "csecversion" in config
  }

  lemma InitKeysPresent(config: map<string, Value>)
    ensures HasInitKeys(config) <==> forall i :: 0 <= i < |InitKeys| ==> InitKeys[i] in config
  {
    if HasInitKeys(config) {
      forall i | 0 <= i < |InitKeys|
        ensures InitKeys[i] in config
      {
        assert i in {0, 1, 2, 3, 4, 5, 6, 7, 8, 9, 10, 11, 12};
      }
    }
    if forall i :: 0 <= i < |InitKeys| ==> InitKeys[i] in config {
      assert InitKeys[0] in config && InitKeys[1] in config && InitKeys[2] in config && InitKeys[3] in config;
      assert InitKeys[4] in config && InitKeys[5] in config && InitKeys[6] in config && InitKeys[7] in config;
      assert InitKeys[8] in config && InitKeys[9] in config && InitKeys[10] in config;
      assert InitKeys[11] in config && InitKeys[12] in config;
    }
  }

  /** The position of the first key of `keys` that is not in `present`. */
  function FirstMissing(keys: seq<string>, present: set<string>): (r: Option<nat>)
    ensures r.None? <==> forall i :: 0 <= i < |keys| ==> keys[i] in present
    ensures r.Some? ==> r.value < |keys| && keys[r.value] !in present
    ensures r.Some? ==> forall j :: 0 <= j < r.value ==> keys[j] in present
  {
    if keys == [] then None
    else if keys[0] !in present then Some(0)
    else match FirstMissing(keys[1..], present)
      case None => None
      case Some(i) => Some(i + 1)
  }

  /**
   * The key of the `KeyError` that `__init__` raises on `config`: the first
   * required key, in reading order, that the configuration lacks.
   */
  function InitKeyError(config: map<string, Value>): (missing: Option<string>)
    ensures missing.None? <==> HasInitKeys(config)
    ensures missing.Some? ==>
              exists i :: 0 <= i < |InitKeys| && InitKeys[i] == missing.value
                && missing.value !in config
                && forall j :: 0 <= j < i ==> InitKeys[j] in config
  {
    var r := FirstMissing(InitKeys, config.Keys);
    InitKeysPresent(config);
    if r.None? then None else Some(InitKeys[r.value])
  }

  /** The keys of the common-parameter table. */
  const CommonKeys: set<string> := {
    "uuid", "cityId", "clientPlatform", "sellChannel", "optimus_risk_level",
    "optimus_code", "ax", "bx", "yodaReady", "csecplatform", "csecversion"
  }

  /** `self.common_params`: eleven identity and platform fields, each copied from the configuration. */
  function CommonParams(config: map<string, Value>): (m: map<string, Value>)
    requires HasInitKeys(config)
    ensures m.Keys == CommonKeys
    ensures forall k :: k in m ==> m[k] == config[k]
  {
    CommonKeysConfigured(config);
    map k | k in CommonKeys :: config[k]
  }

  /** Eleven common parameters, none of them the token. */
  lemma CommonKeysShape()
    ensures |CommonKeys| == 11
    ensures "token" !in CommonKeys
  {
  }

  /** None of the detail endpoint's own parameters is a common one. */
  lemma CommonKeysDisjoint()
    ensures "projectId" !in CommonKeys && "buyInstructionType" !in CommonKeys && "detailType" !in CommonKeys
  {
  }

  lemma CommonKeysConfigured(config: map<string, Value>)
    requires HasInitKeys(config)
    ensures forall k :: k in CommonKeys ==> k in config
  {
  }

  /** `self.headers`: the transport headers every request starts from. */
  const HeaderTemplate: map<string, string> := map[
    "Host" := "yanchu.maoyan.com",
    "User-Agent" := "Mozilla/5.0 (Linux; Android 9; SM-S908E Build/TP1A.220624.014; wv) AppleWebKit/537.36 (KHTML, like Gecko) Version/4.0 Chrome/129.0.6668.70 Safari/537.36 TitansX/21.0.2.4-target30 KNB/1.2.0 android/9 maoyan/com.sankuai.movie/9.73.0 App/10420/9.73.0 Maoyan/9.73.0",
    "Accept" := "application/json, text/plain, */*",
    "Origin" := "https://h5.dianping.com",
    "Referer" := "https://h5.dianping.com/",
    "X-Requested-With" := "com.sankuai.movie",
    "sec-ch-ua-platform" := "\"Android\"",
    "sec-ch-ua" := "\"Android WebView\";v=\"129\", \"Not=A?Brand\";v=\"8\", \"Chromium\";v=\"129\"",
    "sec-ch-ua-mobile" := "?0",
    "Sec-Fetch-Site" := "cross-site",
    "Sec-Fetch-Mode" := "cors",
    "Sec-Fetch-Dest" := "empty",
    "Accept-Language" := "zh-CN,zh;q=0.9,en-US;q=0.8,en;q=0.7"
  ]

  /**
   * The names of the template's headers, as a set literal: its size is
   * cheaper to prove than that of the template's key set, and
   * HeaderTemplateKeys proves the two equal.
   */
  const HeaderNames: set<string> := {
    "Host", "User-Agent", "Accept", "Origin", "Referer", "X-Requested-With", "sec-ch-ua-platform",
    "sec-ch-ua", "sec-ch-ua-mobile", "Sec-Fetch-Site", "Sec-Fetch-Mode", "Sec-Fetch-Dest", "Accept-Language"
  }

  lemma HeaderNameCount()
    ensures |HeaderNames| == 13
  {
    var s := {"Host", "User-Agent", "Accept", "Origin", "Referer", "X-Requested-With", "sec-ch-ua-platform"};
    assert |s| == 7;
    var t := {"sec-ch-ua", "sec-ch-ua-mobile", "Sec-Fetch-Site", "Sec-Fetch-Mode", "Sec-Fetch-Dest", "Accept-Language"};
    assert |t| == 6;
    assert s * t == {};
    assert HeaderNames == s + t;
  }

  lemma HeaderNamesOmitAdded()
    ensures "mtgsig" !in HeaderNames && "Content-Type" !in HeaderNames
  {
  }

  lemma HeaderTemplateKeys()
    ensures HeaderTemplate.Keys == HeaderNames
  {
  }

  /** The template has thirteen headers, and neither of the two that a call adds. */
  lemma HeaderTemplateShape()
    ensures |HeaderTemplate| == 13
    ensures "mtgsig" !in HeaderTemplate && "Content-Type" !in HeaderTemplate
  {
    HeaderTemplateKeys();
    HeaderNameCount();
    HeaderNamesOmitAdded();
    assert |HeaderTemplate| == |HeaderTemplate.Keys|;
  }

  /** The campaign-tracking cookies, the same for every client. */
  const TrackingCookies: map<string, string> := map[
    "_utm_campaign" := "AmovieBmovieCD-1",
    "_utm_source" := "QQ",
    "_utm_medium" := "android",
    "_utm_content" := "7428fd5f1a09367394efde53e44289d7",
    "_utm_term" := "9.73.0"
  ]

  lemma TrackingCookieKeys()
    ensures TrackingCookies.Keys == {"_utm_campaign", "_utm_source", "_utm_medium", "_utm_content", "_utm_term"}
  {
  }

  lemma CookieNameCount()
    ensures |{"_utm_campaign", "_utm_source", "_utm_medium", "_utm_content", "_utm_term",
              "cityid", "uuid", "token"}| == 8
  {
  }

  /**
   * `self.cookies`: the tracking constants, the session identity (`uuid`,
   * `token`, as configured) and the city as text (`str(cityId)`).
   */
  function Cookies(config: map<string, Value>): (m: map<string, Value>)
    requires HasInitKeys(config)
    ensures m.Keys == TrackingCookies.Keys + {"cityid", "uuid", "token"}
    ensures forall k :: k in TrackingCookies ==> m[k] == Str(TrackingCookies[k])
    ensures m["uuid"] == config["uuid"] && m["token"] == config["token"]
    ensures m["cityid"] == Str(PyStr(config["cityId"]))
    ensures config["cityId"].Num? ==>
              IsCanonicalNumeral(m["cityid"].s) && SignedDecimalValue(m["cityid"].s) == config["cityId"].n
  {
    var tracking := map k | k in TrackingCookies :: Str(TrackingCookies[k]);
    tracking["cityid" := Str(PyStr(config["cityId"]))]["uuid" := config["uuid"]]["token" := config["token"]]
  }

  /** The cookie table has eight entries: five tracking constants and three derived from the configuration. */
  lemma CookieCount(config: map<string, Value>)
    requires HasInitKeys(config)
    ensures |Cookies(config)| == 8
  {
    var m := Cookies(config);
    TrackingCookieKeys();
    CookieNameCount();
    assert m.Keys == {"_utm_campaign", "_utm_source", "_utm_medium", "_utm_content", "_utm_term",
                      "cityid", "uuid", "token"};
  }

  // ---------------------------------------------------------------------------
  // Per-call assembly, as `_request` does it
  // ---------------------------------------------------------------------------

  /**
   * The query parameters of one call: the endpoint's parameters laid over the
   * common ones (`{**common, **params}`, or a copy of the common ones when the
   * endpoint passes none), then the session token when the call needs it.
   */
  function MergeParams(common: map<string, Value>, params: map<string, Value>, needToken: bool, token: Value)
    : (m: map<string, Value>)
    ensures m.Keys == common.Keys + params.Keys + (if needToken then {"token"} else {})
    ensures forall k :: k in m ==>
              m[k] == if needToken && k == "token" then token
                      else if k in params then params[k]
                      else common[k]
  {
    var merged := if |params| > 0 then common + params else common;
    if needToken then merged["token" := token] else merged
  }

  /** With no endpoint parameters and no token, a call sends exactly the common parameters. */
  lemma MergeWithoutParams(common: map<string, Value>, token: Value)
    ensures MergeParams(common, map[], false, token) == common
  {
  }

  /**
   * The token the client injects wins over one the endpoint passes; without
   * injection a `token` parameter is sent only when the endpoint passes one.
   */
  lemma TokenInjection(common: map<string, Value>, params: map<string, Value>, needToken: bool, token: Value)
    requires "token" !in common
    ensures needToken ==> MergeParams(common, params, needToken, token)["token"] == token
    ensures !needToken ==> ("token" in MergeParams(common, params, needToken, token) <==> "token" in params)
  {
  }

  const JsonContentType: string := "application/json;charset=UTF-8"

  datatype HttpMethod = Get | Post

  /**
   * The HTTP method a call uses: the method name upper-cased is GET or POST,
   * or the call is refused. GET is chosen for the spellings of IsGetSpelling,
   * POST for those of IsPostSpelling, and every other name is refused.
   */
  function SelectMethod(methodName: string): (r: Option<HttpMethod>)
    ensures r == Some(Get) <==> IsGetSpelling(methodName)
    ensures r == Some(Post) <==> IsPostSpelling(methodName)
    ensures r.None? <==> !IsGetSpelling(methodName) && !IsPostSpelling(methodName)
  {
    GetSpellings(methodName);
    PostSpellings(methodName);
    var u := Upper(methodName);
    if u == "GET" then Some(Get) else if u == "POST" then Some(Post) else None
  }

  /** The spellings of GET that `.upper()` accepts: each letter in either case. */
  predicate IsGetSpelling(s: string) {
    && |s| == 3
    && (s[0] == 'g' || s[0] == 'G')
    && (s[1] == 'e' || s[1] == 'E')
    && (s[2] == 't' || s[2] == 'T')
  }

  /**
   * The spellings of POST that `.upper()` accepts: each letter in either case,
   * the S also as U+017F (long s), and "ST" also as one ligature, U+FB05 or U+FB06.
   */
  predicate IsPostSpelling(s: string) {
    && |s| >= 3
    && (s[0] == 'p' || s[0] == 'P')
    && (s[1] == 'o' || s[1] == 'O')
    && (|| (&& |s| == 4
            && (s[2] == 's' || s[2] == 'S' || s[2] as int == 0x17F)
            && (s[3] == 't' || s[3] == 'T'))
        || (|s| == 3 && (s[2] as int == 0xFB05 || s[2] as int == 0xFB06)))
  }

  /** Exactly the case-variants of "get" upper-case to GET. */
  lemma {:induction false} GetSpellings(s: string)
    ensures Upper(s) == "GET" <==> IsGetSpelling(s)
  {
    if Upper(s) == "GET" {
      UpperHead(s, 'G', "ET");
      UpperHead(s[1..], 'E', "T");
      assert s[1..][1..] == s[2..];
      UpperHead(s[2..], 'T', "");
      assert s[2..][1..] == s[3..];
    }
    if IsGetSpelling(s) {
      UpperStep(s);
      UpperStep(s[1..]);
      assert s[1..][1..] == s[2..];
      UpperStep(s[2..]);
      assert s[2..][1..] == [];
    }
  }

  /** Only the spellings IsPostSpelling lists upper-case to POST. */
  lemma {:induction false} PostSpellingsOnly(s: string)
    requires Upper(s) == "POST"
    ensures IsPostSpelling(s)
  {
    UpperHead(s, 'P', "OST");
    UpperHead(s[1..], 'O', "ST");
    assert s[1..][1..] == s[2..];
    var t := s[2..];
    UpperStep(t);
    var u := UpperChar(t[0]);
    assert u + Upper(t[1..]) == "ST";
    assert (u + Upper(t[1..]))[0] == u[0] == 'S';
    if |u| == 1 {
      assert Upper(t[1..]) == "ST"[1..] == "T";
      UpperHead(t[1..], 'T', "");
      assert t[1..][1..] == s[4..];
    } else {
      assert u == "ST";
      assert Upper(t[1..]) == "";
    }
  }

  /** Every spelling IsPostSpelling lists upper-cases to POST. */
  lemma PostSpellingsAll(s: string)
    requires IsPostSpelling(s)
    ensures Upper(s) == "POST"
  {
    UpperStep(s);
    UpperStep(s[1..]);
    assert s[1..][1..] == s[2..];
    UpperStep(s[2..]);
    if |s| == 4 {
      assert s[2..][1..] == s[3..];
      UpperStep(s[3..]);
      assert s[3..][1..] == [];
    } else {
      assert s[2..][1..] == [];
    }
  }

  /** Exactly the spellings IsPostSpelling lists upper-case to POST. */
  lemma PostSpellings(s: string)
    ensures Upper(s) == "POST" <==> IsPostSpelling(s)
  {
    if Upper(s) == "POST" {
      PostSpellingsOnly(s);
    }
    if IsPostSpelling(s) {
      PostSpellingsAll(s);
    }
  }

  /** The method is matched without regard to case: a name and its upper case select the same method. */
  lemma MethodCaseInsensitive(s: string)
    ensures SelectMethod(Upper(s)) == SelectMethod(s)
  {
    UpperIdempotent(s);
  }

  /** `headers = self.headers.copy()` with the signature added, and a JSON content type on POST. */
  function RequestHeaders(template: map<string, string>, signature: string, m: HttpMethod): (h: map<string, string>)
    ensures h.Keys == template.Keys + {"mtgsig"} + (if m == Post then {"Content-Type"} else {})
    ensures h["mtgsig"] == signature
    ensures m == Post ==> h["Content-Type"] == JsonContentType
    ensures forall k :: k in template && k != "mtgsig" && (m == Get || k != "Content-Type") ==> h[k] == template[k]
  {
    var signed := template["mtgsig" := signature];
    if m == Post then signed["Content-Type" := JsonContentType] else signed
  }

  /**
   * `_generate_mtgsig`: the configured signature payload as compact JSON, or
   * nothing when the configuration has no `mtgsig` (Python raises KeyError).
   * The text is printable ASCII, and its spaces are exactly those of the
   * payload's strings.
   */
  function GenerateMtgsig(config: map<string, Value>): (sig: Option<string>)
    ensures sig.None? <==> "mtgsig" !in config
    ensures sig.Some? ==> AllPrintableAscii(sig.value)
    ensures sig.Some? ==> Occurrences(sig.value, ' ') == StringSpaces(config["mtgsig"])
  {
    if "mtgsig" in config then
      DumpsShape(config["mtgsig"]);
      Some(Dumps(config["mtgsig"]))
    else None
  }

  /** What the client hands to the transport for one call. */
  datatype WireRequest = WireRequest(
    verb: HttpMethod,
    url: string,
    params: map<string, Value>,
    body: Option<Value>,
    headers: map<string, string>,
    cookies: map<string, Value>,
    timeoutSeconds: nat)

  const TimeoutSeconds: nat := 10

  datatype HttpResponse = HttpResponse(status: int, headers: map<string, string>, text: string)

  /** What the transport makes of one wire request: a completed exchange, or the exception it raised. */
  datatype Exchange = Completed(response: HttpResponse) | TransportFailed(reason: string)

  /** The request `_request` would send, or why it sends none. */
  datatype Assembly =
    | Ready(request: WireRequest)
    | Unsupported             // ValueError, raised and caught inside `_request`
    | MissingKey(key: string) // KeyError, raised before the `try` and so not caught

  /** What `_request` gives back: the response, `None`, or an exception that escapes it. */
  datatype RequestOutcome = Response(response: HttpResponse) | NoResponse | Raised(key: string)

  /** Sending an assembled request: every exception inside the `try` becomes `None`. */
  function Dispatch(a: Assembly, transport: WireRequest -> Exchange): (r: RequestOutcome)
    ensures r.Raised? <==> a.MissingKey?
    ensures r.Raised? ==> r.key == a.key
    ensures r.Response? <==> a.Ready? && transport(a.request).Completed?
    ensures r.Response? ==> r.response == transport(a.request).response
  {
    match a
    case MissingKey(k) => Raised(k)
    case Unsupported => NoResponse
    case Ready(w) =>
      match transport(w)
      case Completed(resp) => Response(resp)
      case TransportFailed(_) => NoResponse
  }

  // ---------------------------------------------------------------------------
  // The endpoint `get_project_detail`
  // ---------------------------------------------------------------------------

  const DetailPath: string := "/my/odea/project/detail"

  function DetailParams(projectId: Value): map<string, Value>
  {
    map["projectId" := projectId, "buyInstructionType" := Num(1), "detailType" := Num(1)]
  }

  lemma DetailParamsShape(projectId: Value)
    ensures DetailParams(projectId).Keys == {"projectId", "buyInstructionType", "detailType"}
    ensures DetailParams(projectId)["projectId"] == projectId
    ensures DetailParams(projectId)["buyInstructionType"] == Num(1) && DetailParams(projectId)["detailType"] == Num(1)
  {
  }

  /** `bool(response)`: a `requests` response is false exactly for a client or server error status, 400 to 599. */
  predicate Truthy(resp: HttpResponse) {
    !(400 <= resp.status < 600)
  }

  /** What `get_project_detail` returns: parsed data, `None`, or the exception that escaped `_request`. */
  datatype Detail = Data(value: Value) | NoData | DetailRaised(key: string)

  /**
   * What `get_project_detail` makes of `_request`'s outcome: data exactly when
   * a truthy response with status 200 arrived and its body parsed, and then the
   * parsed body; an exception from `_request` passes through.
   */
  function DetailFrom(outcome: RequestOutcome, parseJson: string -> Option<Value>): (d: Detail)
    ensures d.Data? <==>
              outcome.Response? && outcome.response.status == 200 && parseJson(outcome.response.text).Some?
    ensures d.Data? ==> d.value == parseJson(outcome.response.text).value
    ensures d.DetailRaised? <==> outcome.Raised?
    ensures d.DetailRaised? ==> d.key == outcome.key
  {
    match outcome
    case Raised(k) => DetailRaised(k)
    case NoResponse => NoData
    case Response(resp) =>
      if Truthy(resp) && resp.status == 200 then
        match parseJson(resp.text)
        case Some(data) => Data(data)
        case None => NoData
      else NoData
  }

  // ---------------------------------------------------------------------------
  // The client
  // ---------------------------------------------------------------------------

  class MaoyanApi {
    const config: map<string, Value>
    const baseUrl: Value
    const uuid: Value
    const token: Value
    const commonParams: map<string, Value>
    const headers: map<string, string>
    const cookies: map<string, Value>

    /** The tables a call's query parameters come from are the ones `__init__` derives from `config`. */
    ghost predicate ParamsConfigured() {
      && HasInitKeys(config)
      && token == config["token"]
      && commonParams == CommonParams(config)
    }

    /** Every table is the one `__init__` derives from `config`. */
    ghost predicate Valid() {
      && ParamsConfigured()
      && baseUrl == config["base_url"]
      && uuid == config["uuid"]
      && headers == HeaderTemplate
      && cookies == Cookies(config)
    }

    /** `__init__` on an already loaded configuration that has every key it reads. */
    constructor (config: map<string, Value>)
      requires InitKeyError(config).None?
      ensures this.config == config && Valid()
    {
      this.config := config;
      baseUrl := config["base_url"];
      uuid := config["uuid"];
      token := config["token"];
      commonParams := CommonParams(config);
      headers := HeaderTemplate;
      cookies := Cookies(config);
    }

    /**
     * The request `_request(method, url, params, data, need_token)` sends, or
     * why it sends none: `KeyError` exactly when `mtgsig` is not configured, a
     * refusal exactly when it is but the method is neither GET nor POST, and
     * otherwise a request with the selected method.
     */
    function Assemble(methodName: string, url: string, params: map<string, Value>, data: Option<Value>, needToken: bool)
      : (a: Assembly)
      ensures a.MissingKey? <==> "mtgsig" !in config
      ensures a.MissingKey? ==> a.key == "mtgsig"
      ensures a.Unsupported? <==> "mtgsig" in config && SelectMethod(methodName).None?
      ensures a.Ready? ==> SelectMethod(methodName) == Some(a.request.verb)
    {
      match GenerateMtgsig(config)
      case None => MissingKey("mtgsig")
      case Some(signature) =>
        match SelectMethod(methodName)
        case None => Unsupported
        case Some(m) =>
          Ready(WireRequest(m, url, MergeParams(commonParams, params, needToken, token),
                            if m == Post then data else None,
                            RequestHeaders(headers, signature, m), cookies, TimeoutSeconds))
    }

    /**
     * `_request`: merge the parameters, sign the headers, pick the method and
     * send. It changes nothing: the merge and the headers are built on copies.
     */
    method Request(methodName: string, url: string, params: map<string, Value>, data: Option<Value>,
                   needToken: bool, transport: WireRequest -> Exchange)
      returns (r: RequestOutcome)
      ensures r == Dispatch(Assemble(methodName, url, params, data, needToken), transport)
      ensures r.Raised? <==> "mtgsig" !in config
      ensures "mtgsig" in config && SelectMethod(methodName).None? ==> r == NoResponse
    {
      var fullParams: map<string, Value>;
      if |params| > 0 {
        fullParams := commonParams + params;
      } else {
        fullParams := commonParams;
      }
      if needToken {
        fullParams := fullParams["token" := token];
      }

      if "mtgsig" !in config {
        return Raised("mtgsig");
      }
      var outgoing := headers;
      outgoing := outgoing["mtgsig" := Dumps(config["mtgsig"])];

      var exchange: Exchange;
      var upper := Upper(methodName);
      if upper == "GET" {
        exchange := transport(WireRequest(Get, url, fullParams, None, outgoing, cookies, TimeoutSeconds));
      } else if upper == "POST" {
        outgoing := outgoing["Content-Type" := JsonContentType];
        exchange := transport(WireRequest(Post, url, fullParams, data, outgoing, cookies, TimeoutSeconds));
      } else {
        // ValueError for an unsupported method, caught by the handler
        return NoResponse;
      }

      match exchange
      case Completed(resp) =>
        r := Response(resp);
      case TransportFailed(_) =>
        r := NoResponse;
    }

    function DetailUrl(): string
    {
      PyStr(baseUrl) + DetailPath
    }

    /** `get_project_detail(project_id=415604)`: one signed GET with the token, and the parsed body of a 200 response. */
    method GetProjectDetail(transport: WireRequest -> Exchange, parseJson: string -> Option<Value>,
                            projectId: Value := Num(415604))
      returns (d: Detail)
      ensures d == DetailFrom(Dispatch(Assemble("GET", DetailUrl(), DetailParams(projectId), None, true), transport),
                              parseJson)
    {
      var url := PyStr(baseUrl) + DetailPath;
      var params := map["projectId" := projectId, "buyInstructionType" := Num(1), "detailType" := Num(1)];
      var response := Request("GET", url, params, None, true, transport);
      if response.Raised? {
        return DetailRaised(response.key);
      }
      if response.Response? && Truthy(response.response) && response.response.status == 200 {
        var parsed := parseJson(response.response.text);
        if parsed.Some? {
          return Data(parsed.value);
        }
      }
      return NoData;
    }
  }

  // ---------------------------------------------------------------------------
  // What a constructed client sends
  // ---------------------------------------------------------------------------

  /**
   * What an assembled request is made of: the merged parameters, the signed
   * client headers, the client's cookies, the body only on POST, and the
   * ten-second timeout.
   */
  lemma AssembledRequest(api: MaoyanApi, methodName: string, url: string, params: map<string, Value>,
                         data: Option<Value>, needToken: bool, w: WireRequest)
    requires api.Assemble(methodName, url, params, data, needToken) == Ready(w)
    ensures SelectMethod(methodName) == Some(w.verb) && w.url == url
    ensures w.params == MergeParams(api.commonParams, params, needToken, api.token)
    ensures "mtgsig" in api.config && w.headers == RequestHeaders(api.headers, Dumps(api.config["mtgsig"]), w.verb)
    ensures w.body == (if w.verb == Post then data else None)
    ensures w.cookies == api.cookies && w.timeoutSeconds == 10
  {
  }

  /**
   * The parameters merged over the configured common ones: every common
   * parameter and every endpoint parameter; the endpoint's value on a clash;
   * the configured value otherwise; and the configured token, over any the
   * endpoint passed, when the call needs it.
   */
  lemma ConfiguredMerge(config: map<string, Value>, params: map<string, Value>, needToken: bool, m: map<string, Value>)
    requires HasInitKeys(config) && m == MergeParams(CommonParams(config), params, needToken, config["token"])
    ensures m.Keys == CommonKeys + params.Keys + (if needToken then {"token"} else {})
    ensures forall k :: k in CommonKeys && k !in params ==> k in m && k in config && m[k] == config[k]
    ensures forall k :: k in params && !(needToken && k == "token") ==> k in m && m[k] == params[k]
    ensures needToken ==> "token" in m && "token" in config && m["token"] == config["token"]
    ensures !needToken ==> ("token" in m <==> "token" in params)
  {
    CommonKeysShape();
    CommonKeysConfigured(config);
  }

  /** The query parameters a constructed client sends, as ConfiguredMerge describes them. */
  lemma SentParams(api: MaoyanApi, methodName: string, url: string, params: map<string, Value>,
                   data: Option<Value>, needToken: bool, w: WireRequest)
    requires api.ParamsConfigured() && api.Assemble(methodName, url, params, data, needToken) == Ready(w)
    ensures w.params.Keys == CommonKeys + params.Keys + (if needToken then {"token"} else {})
    ensures forall k :: k in CommonKeys && k !in params ==>
              k in w.params && k in api.config && w.params[k] == api.config[k]
    ensures forall k :: k in params && !(needToken && k == "token") ==> k in w.params && w.params[k] == params[k]
    ensures needToken ==> "token" in w.params && "token" in api.config && w.params["token"] == api.config["token"]
    ensures !needToken ==> ("token" in w.params <==> "token" in params)
  {
    AssembledRequest(api, methodName, url, params, data, needToken, w);
    ConfiguredMerge(api.config, params, needToken, w.params);
  }

  /**
   * A template without `mtgsig` and `Content-Type`, signed for one call: every
   * template header unchanged, the signature under `mtgsig`, and a JSON
   * content type exactly on POST; one header more than the template on GET,
   * two more on POST.
   */
  lemma SignedTemplate(template: map<string, string>, signature: string, m: HttpMethod, h: map<string, string>)
    requires "mtgsig" !in template && "Content-Type" !in template
    requires h == RequestHeaders(template, signature, m)
    ensures forall k :: k in template ==> k in h && h[k] == template[k]
    ensures "mtgsig" in h && h["mtgsig"] == signature
    ensures "Content-Type" in h <==> m == Post
    ensures m == Post ==> "Content-Type" in h && h["Content-Type"] == JsonContentType
    ensures |h| == |template| + if m == Post then 2 else 1
  {
    var signed := template["mtgsig" := signature];
    assert |signed| == |template| + 1;
  }

  /**
   * The headers and cookies a constructed client sends: the template signed
   * with the compact JSON of the configured signature, and the client's
   * cookie table.
   */
  lemma SentHeaders(api: MaoyanApi, methodName: string, url: string, params: map<string, Value>,
                    data: Option<Value>, needToken: bool, w: WireRequest)
    requires HasInitKeys(api.config) && api.headers == HeaderTemplate && api.cookies == Cookies(api.config)
    requires api.Assemble(methodName, url, params, data, needToken) == Ready(w)
    ensures forall k :: k in HeaderTemplate ==> k in w.headers && w.headers[k] == HeaderTemplate[k]
    ensures "mtgsig" in api.config && "mtgsig" in w.headers && w.headers["mtgsig"] == Dumps(api.config["mtgsig"])
    ensures "Content-Type" in w.headers <==> w.verb == Post
    ensures w.verb == Post ==> "Content-Type" in w.headers && w.headers["Content-Type"] == JsonContentType
    ensures |w.headers| == if w.verb == Post then 15 else 14
    ensures w.cookies == Cookies(api.config)
  {
    AssembledRequest(api, methodName, url, params, data, needToken, w);
    HeaderTemplateShape();
    SignedTemplate(HeaderTemplate, Dumps(api.config["mtgsig"]), w.verb, w.headers);
  }

  /** `get_project_detail` always reaches the transport with a GET once the signature is configured. */
  lemma DetailReady(api: MaoyanApi, projectId: Value)
    requires "mtgsig" in api.config
    ensures api.Assemble("GET", api.DetailUrl(), DetailParams(projectId), None, true).Ready?
    ensures api.Assemble("GET", api.DetailUrl(), DetailParams(projectId), None, true).request.verb == Get
  {
    GetSpellings("GET");
  }

  /**
   * What `get_project_detail` sends besides its parameters and headers: a GET
   * to the configured base URL followed by the detail path, with no body.
   */
  lemma DetailRequest(api: MaoyanApi, projectId: Value, w: WireRequest)
    requires "base_url" in api.config && api.baseUrl == api.config["base_url"]
    requires api.Assemble("GET", api.DetailUrl(), DetailParams(projectId), None, true) == Ready(w)
    ensures w.verb == Get
    ensures w.url == PyStr(api.config["base_url"]) + "/my/odea/project/detail"
    ensures w.body == None
  {
    GetSpellings("GET");
    AssembledRequest(api, "GET", api.DetailUrl(), DetailParams(projectId), None, true, w);
  }

  /** A GET such as `get_project_detail` sends carries the signed template and no content type. */
  lemma DetailHeaders(api: MaoyanApi, projectId: Value, w: WireRequest)
    requires api.headers == HeaderTemplate
    requires api.Assemble("GET", api.DetailUrl(), DetailParams(projectId), None, true) == Ready(w)
    ensures "mtgsig" in api.config && "mtgsig" in w.headers && w.headers["mtgsig"] == Dumps(api.config["mtgsig"])
    ensures "Content-Type" !in w.headers && |w.headers| == 14
  {
    GetSpellings("GET");
    AssembledRequest(api, "GET", api.DetailUrl(), DetailParams(projectId), None, true, w);
    HeaderTemplateShape();
    SignedTemplate(HeaderTemplate, Dumps(api.config["mtgsig"]), w.verb, w.headers);
  }

  /** The keys of the detail endpoint's parameters merged over the configured common ones, with the token. */
  lemma DetailMergeKeys(config: map<string, Value>, projectId: Value, m: map<string, Value>)
    requires HasInitKeys(config) && m == MergeParams(CommonParams(config), DetailParams(projectId), true, config["token"])
    ensures m.Keys == CommonKeys + {"projectId", "buyInstructionType", "detailType", "token"}
  {
    DetailParamsShape(projectId);
    ConfiguredMerge(config, DetailParams(projectId), true, m);
    var own := DetailParams(projectId).Keys;
    assert own + {"token"} == {"projectId", "buyInstructionType", "detailType", "token"};
  }

  /** The values of the detail endpoint's parameters merged over the configured common ones, with the token. */
  lemma DetailMergeValues(config: map<string, Value>, projectId: Value, m: map<string, Value>)
    requires HasInitKeys(config) && m == MergeParams(CommonParams(config), DetailParams(projectId), true, config["token"])
    ensures "projectId" in m && m["projectId"] == projectId
    ensures "buyInstructionType" in m && m["buyInstructionType"] == Num(1)
    ensures "detailType" in m && m["detailType"] == Num(1)
    ensures "token" in m && "token" in config && m["token"] == config["token"]
  {
    DetailParamsShape(projectId);
    ConfiguredMerge(config, DetailParams(projectId), true, m);
  }

  /** Every common parameter keeps its configured value under the detail endpoint's parameters. */
  lemma DetailMergeCommon(config: map<string, Value>, projectId: Value, m: map<string, Value>)
    requires HasInitKeys(config) && m == MergeParams(CommonParams(config), DetailParams(projectId), true, config["token"])
    ensures forall k :: k in CommonKeys ==> k in m && k in config && m[k] == config[k]
  {
    DetailParamsShape(projectId);
    ConfiguredMerge(config, DetailParams(projectId), true, m);
    CommonKeysDisjoint();
  }

  /**
   * The query parameters `get_project_detail` sends: the project id, both
   * fixed instruction parameters, every common parameter as configured, and
   * the configured token.
   */
  lemma DetailParamsSent(api: MaoyanApi, projectId: Value, w: WireRequest)
    requires api.ParamsConfigured()
    requires api.Assemble("GET", api.DetailUrl(), DetailParams(projectId), None, true) == Ready(w)
    ensures w.params.Keys == CommonKeys + {"projectId", "buyInstructionType", "detailType", "token"}
    ensures "projectId" in w.params && w.params["projectId"] == projectId
    ensures "buyInstructionType" in w.params && w.params["buyInstructionType"] == Num(1)
    ensures "detailType" in w.params && w.params["detailType"] == Num(1)
    ensures "token" in w.params && "token" in api.config && w.params["token"] == api.config["token"]
    ensures forall k :: k in CommonKeys ==> k in w.params && k in api.config && w.params[k] == api.config[k]
  {
    AssembledRequest(api, "GET", api.DetailUrl(), DetailParams(projectId), None, true, w);
    DetailMergeKeys(api.config, projectId, w.params);
    DetailMergeValues(api.config, projectId, w.params);
    DetailMergeCommon(api.config, projectId, w.params);
  }
}
