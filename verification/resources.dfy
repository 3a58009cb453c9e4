/**
 * `sar.io.Resources` of the client: the registry of REST resources, each a map from endpoint
 * name to HTTP verb and URL, the promise outcome of `fetch`, and `getEndPoints`.
 * One request is one step: the transport's reply is an input, and the settled promise is
 * the result.
 */
module Resources {
  import opened Wrappers
  import opened Text

  /** One endpoint of a resource: the HTTP method (`verb`) and the URL. */
  datatype EndPoint = EndPoint(verb: string, url: string)

  /** An endpoint whose URL is "/" + the resource's path + "/" + the leaf. */
  function Route(verb: string, path: string, leaf: string): (e: EndPoint)
    ensures e.verb == verb && StartsWith(e.url, "/" + path + "/") && EndsWith(e.url, leaf)
  {
    var url := "/" + path + "/" + leaf;
    assert url[..|"/" + path + "/"|] == "/" + path + "/";
    assert url[|url| - |leaf|..] == leaf;
    EndPoint(verb, url)
  }

  function SetGenerationEndPoints(path: string): map<string, EndPoint>
  {
    map[
      "generate" := Route("POST", path, "generate"),
      "xport" := Route("GET", path, "xport"),
      "getData" := Route("GET", path, "data"),
      "getDistribution" := Route("GET", path, "distribution"),
      "resetData" := Route("GET", path, "reset")
    ]
  }

  function LoadEndPoints(path: string): map<string, EndPoint>
  {
    map[
      "load" := Route("POST", path, "load"),
      "resetData" := Route("GET", path, "reset")
    ]
  }

  const AnalysisCreationEndPoints: map<string, EndPoint> := map[
    "create" := EndPoint("POST", "/analysis-creation/create"),
    "xport" := EndPoint("POST", "/analysis-creation/xport"),
    "getSemivariogram" := EndPoint("GET", "/analysis-creation/variogram"),
    "getMarginals" := EndPoint("GET", "/analysis-creation/marginals"),
    "getDeviations" := EndPoint("GET", "/analysis-creation/deviations"),
    "getReport" := EndPoint("GET", "/analysis-creation/pdf"),
    "resetData" := EndPoint("GET", "/analysis-creation/reset")
  ]

  const ConfirmModelEndPoints: map<string, EndPoint> := map[
    "confirm" := EndPoint("GET", "/confirm-model/confirm"),
    "getQQPlot" := EndPoint("GET", "/confirm-model/qqplot"),
    "getDeviations" := EndPoint("GET", "/confirm-model/deviations"),
    "getSemivariogram" := EndPoint("GET", "/confirm-model/semivariogram"),
    "getReport" := EndPoint("GET", "/confirm-model/pdf")
  ]

  /** The `resources` static: resource name to its `endpoints`. */
  const Registry: map<string, map<string, EndPoint>> := map[
    "trainingSetGeneration" := SetGenerationEndPoints("training-set-generation"),
    "trainingData" := LoadEndPoints("training-data"),
    "analysisCreation" := AnalysisCreationEndPoints,
    "loadModel" := LoadEndPoints("model"),
    "testSetGeneration" := SetGenerationEndPoints("test-set-generation"),
    "testData" := LoadEndPoints("test-data"),
    "confirmModel" := ConfirmModelEndPoints,
    "searchSpace" := map[],
    "criticalData" := LoadEndPoints("critical-data"),
    "verify" := map[]
  ]

  predicate WellFormed(e: EndPoint)
  {
    (e.verb == "GET" || e.verb == "POST") && StartsWith(e.url, "/")
  }

  lemma RouteWellFormed(verb: string, path: string, leaf: string)
    requires verb == "GET" || verb == "POST"
    ensures WellFormed(Route(verb, path, leaf))
  {
    var url := Route(verb, path, leaf).url;
    assert url[..1] == ("/" + path + "/")[..1];
  }

  predicate AllWellFormed(endpoints: map<string, EndPoint>)
  {
    forall e :: e in endpoints ==> WellFormed(endpoints[e])
  }

  lemma SetGenerationWellFormed(path: string)
    ensures AllWellFormed(SetGenerationEndPoints(path))
  {
    RouteWellFormed("POST", path, "generate");
    RouteWellFormed("GET", path, "xport");
    RouteWellFormed("GET", path, "data");
    RouteWellFormed("GET", path, "distribution");
    RouteWellFormed("GET", path, "reset");
  }

  lemma LoadWellFormed(path: string)
    ensures AllWellFormed(LoadEndPoints(path))
  {
    RouteWellFormed("POST", path, "load");
    RouteWellFormed("GET", path, "reset");
  }

  lemma AnalysisCreationWellFormed()
    ensures AllWellFormed(AnalysisCreationEndPoints)
  {
  }

  lemma ConfirmModelWellFormed()
    ensures AllWellFormed(ConfirmModelEndPoints)
  {
  }

  /** The entry of a registered name is one of the six kinds of endpoint map. */
  lemma RegistryEntry(r: string)
    requires r in Registry
    ensures Registry[r] in {SetGenerationEndPoints("training-set-generation"), SetGenerationEndPoints("test-set-generation"),
                            LoadEndPoints("training-data"), LoadEndPoints("model"), LoadEndPoints("test-data"),
                            LoadEndPoints("critical-data"), AnalysisCreationEndPoints, ConfirmModelEndPoints, map[]}
  {
  }

  /** Every registered endpoint is a GET or a POST to a URL starting with "/". */
  lemma RegistryWellFormed()
    ensures forall r, e :: r in Registry && e in Registry[r] ==> WellFormed(Registry[r][e])
  {
    SetGenerationWellFormed("training-set-generation");
    SetGenerationWellFormed("test-set-generation");
    LoadWellFormed("training-data");
    LoadWellFormed("model");
    LoadWellFormed("test-data");
    LoadWellFormed("critical-data");
    AnalysisCreationWellFormed();
    ConfirmModelWellFormed();
    forall r | r in Registry ensures AllWellFormed(Registry[r]) {
      RegistryEntry(r);
    }
  }

  /** The search-space and verification resources are registered without any endpoint. */
  lemma EmptyResources()
    ensures "searchSpace" in Registry && Registry["searchSpace"] == map[]
    ensures "verify" in Registry && Registry["verify"] == map[]
    ensures forall r :: r in Registry && Registry[r] == map[] ==> r == "searchSpace" || r == "verify"
  {
    assert "resetData" in SetGenerationEndPoints("training-set-generation");
    assert "resetData" in SetGenerationEndPoints("test-set-generation");
    assert "resetData" in LoadEndPoints("training-data") && "resetData" in LoadEndPoints("model");
    assert "resetData" in LoadEndPoints("test-data") && "resetData" in LoadEndPoints("critical-data");
    assert "getReport" in AnalysisCreationEndPoints && "getReport" in ConfirmModelEndPoints;
  }

  /** The message of the `TypeError` raised by reading a property of `undefined`. */
  function ReadOfUndefined(property: string): string
  {
    "Cannot read properties of undefined (reading '" + property + "')"
  }

  /** `getEndPoints`: the registered map as it is; an unknown name throws rather than rejects. */
  function GetEndPoints(resource: string): (r: Result<map<string, EndPoint>>)
    ensures r.Ok? <==> resource in Registry
    ensures r.Ok? ==> r.value == Registry[resource]
    ensures r.Err? ==> r.msg == ReadOfUndefined("endpoints")
  {
    if resource in Registry then Ok(Registry[resource]) else Err(ReadOfUndefined("endpoints"))
  }

  /**
   * `getEndPoints(resource)[name].url` (or the same read through `resources[resource]`): the
   * URL, or the `TypeError` of reading a property of `undefined`, "endpoints" for an unknown
   * resource and "url" for an endpoint the resource does not register.
   */
  function EndPointUrl(resource: string, name: string): (r: Result<string>)
    ensures r.Ok? <==> GetEndPoints(resource).Ok? && name in GetEndPoints(resource).value
    ensures r.Ok? ==> r.value == Registry[resource][name].url
    ensures resource !in Registry ==> r == Err(ReadOfUndefined("endpoints"))
    ensures resource in Registry && name !in Registry[resource] ==> r == Err(ReadOfUndefined("url"))
  {
    match GetEndPoints(resource)
    case Err(msg) => Err(msg)
    case Ok(endpoints) => if name in endpoints then Ok(endpoints[name].url) else Err(ReadOfUndefined("url"))
  }

  /** The two plots of the confirmation step are registered. */
  lemma ConfirmPlotUrls()
    ensures EndPointUrl("confirmModel", "getQQPlot") == Ok("/confirm-model/qqplot")
    ensures EndPointUrl("confirmModel", "getDeviations") == Ok("/confirm-model/deviations")
  {
    ConfirmModelRegistered();
    ConfirmPlotRoutes();
  }

  /** `Registry` lists the confirmation endpoints under "confirmModel". */
  lemma ConfirmModelRegistered()
    ensures "confirmModel" in Registry && Registry["confirmModel"] == ConfirmModelEndPoints
  {
  }

  /** The confirmation step's two plots are served under "/confirm-model/". */
  lemma ConfirmPlotRoutes()
    ensures "getQQPlot" in ConfirmModelEndPoints && ConfirmModelEndPoints["getQQPlot"].url == "/confirm-model/qqplot"
    ensures "getDeviations" in ConfirmModelEndPoints && ConfirmModelEndPoints["getDeviations"].url == "/confirm-model/deviations"
  {
  }

  /** `Registry` lists the analysis endpoints under "analysisCreation". */
  lemma AnalysisCreationRegistered()
    ensures "analysisCreation" in Registry && Registry["analysisCreation"] == AnalysisCreationEndPoints
  {
  }

  /** The analysis step's semivariogram plot is served at "/analysis-creation/variogram". */
  lemma SemivariogramRoute()
    ensures "getSemivariogram" in AnalysisCreationEndPoints
    ensures AnalysisCreationEndPoints["getSemivariogram"].url == "/analysis-creation/variogram"
  {
  }

  /** The analysis step's "getVariogram" is not registered; the registry calls it "getSemivariogram". */
  lemma VariogramUrls()
    ensures EndPointUrl("analysisCreation", "getVariogram") == Err(ReadOfUndefined("url"))
    ensures EndPointUrl("analysisCreation", "getSemivariogram") == Ok("/analysis-creation/variogram")
  {
    AnalysisCreationRegistered();
    SemivariogramRoute();
    assert "getVariogram" !in AnalysisCreationEndPoints;
  }

  /** The search resource has no "getDistribution". */
  lemma DistributionUrl()
    ensures EndPointUrl("searchSpace", "getDistribution") == Err(ReadOfUndefined("url"))
  {
    assert Registry["searchSpace"] == map[];
  }

  /**
   * The error event of a failed request. `error` is the JSON error payload when the server
   * sent one: the messages of its `logs` (None when absent) and its `status` (0 when absent).
   * Without a payload, `response` and `httpStatus` are what the request holds. JavaScript
   * truthiness: an empty message and a status of 0 are false.
   */
  datatype ErrorPayload = ErrorPayload(logs: Option<seq<string>>, status: int)
  datatype ErrorEvent = ErrorEvent(error: Option<ErrorPayload>, response: string, httpStatus: int)

  /** What the transport delivers for one request. */
  datatype Reply<T> = Succeeded(response: T) | Failed(event: ErrorEvent)

  /** How the promise `fetch` returns settles. */
  datatype Outcome<T> = Resolved(response: T) | Rejected(message: string, status: Option<int>)

  function NotDefined(resource: string): string
  {
    "Error while fetching " + resource + ": the resource is not defined"
  }

  function FetchFallback(endpoint: string, resource: string): string
  {
    "Error while trying to fetch " + endpoint + " " + resource
  }

  /** The `TypeError` of calling `res[endpoint]` when the endpoint was not registered. */
  const NotAFunction := "res[endpoint] is not a function"

  /** The message and status the error listener extracts, before the fallback. */
  function Extracted(e: ErrorEvent): (r: (string, int))
    ensures e.error.None? ==> r == (e.response, e.httpStatus)
    ensures e.error.Some? ==> r.1 == e.error.value.status
    ensures e.error.Some? && r.0 != "" ==>
      e.error.value.logs.Some? && |e.error.value.logs.value| > 0 && r.0 == e.error.value.logs.value[0]
    ensures e.error.Some? && e.error.value.logs.Some? && |e.error.value.logs.value| > 0 ==> r.0 == e.error.value.logs.value[0]
  {
    match e.error
    case Some(payload) =>
      var message := if payload.logs.Some? && |payload.logs.value| > 0 then payload.logs.value[0] else "";
      (message, payload.status)
    case None => (e.response, e.httpStatus)
  }

  /**
   * The error listener: the rejection carries the extracted message, or the fallback when it
   * is empty, and the status only when it is non-zero.
   */
  function ErrorOutcome<T>(resource: string, endpoint: string, e: ErrorEvent): (r: Outcome<T>)
    ensures r.Rejected? && r.message != ""
    ensures r.status.Some? <==> Extracted(e).1 != 0
    ensures r.status.Some? ==> r.status.value == Extracted(e).1
    ensures Extracted(e).0 != "" ==> r.message == Extracted(e).0
    ensures Extracted(e).0 == "" ==> r.message == FetchFallback(endpoint, resource)
  {
    var (message, status) := Extracted(e);
    Rejected(if message != "" then message else FetchFallback(endpoint, resource),
             if status != 0 then Some(status) else None)
  }

  /**
   * `fetch(resource, endpoint)`: an unknown resource is rejected at once (the `TypeError`
   * thrown right after comes too late to change the settled promise); an unregistered
   * endpoint rejects with the `TypeError` of calling it; otherwise the reply decides.
   */
  function Fetch<T>(resource: string, endpoint: string, reply: Reply<T>): (r: Outcome<T>)
    ensures r.Resolved? ==> reply.Succeeded? && r.response == reply.response
    ensures resource in Registry && endpoint in Registry[resource] && reply.Succeeded? ==> r.Resolved?
    ensures r.Rejected? ==> r.message != ""
  {
    if resource !in Registry then Rejected(NotDefined(resource), None)
    else if endpoint !in Registry[resource] then Rejected(NotAFunction, None)
    else
      match reply
      case Succeeded(response) => Resolved(response)
      case Failed(e) => ErrorOutcome(resource, endpoint, e)
  }

  /**
   * A fetch resolves exactly when `getEndPoints` would give a map holding the endpoint and
   * the request succeeded, and then with the response unchanged; where `getEndPoints`
   * throws, `fetch` rejects with the "not defined" message instead; every rejection carries
   * a non-empty message.
   */
  lemma FetchOutcomes<T>(resource: string, endpoint: string, reply: Reply<T>)
    ensures var r := Fetch(resource, endpoint, reply);
      (r.Resolved? <==> GetEndPoints(resource).Ok? && endpoint in GetEndPoints(resource).value && reply.Succeeded?)
      && (r.Resolved? ==> r.response == reply.response)
      && (GetEndPoints(resource).Err? ==> r == Rejected(NotDefined(resource), None))
      && (r.Rejected? ==> r.message != "")
  {
    if resource in Registry && endpoint in Registry[resource] && reply.Failed? {
      var _ := ErrorOutcome<T>(resource, endpoint, reply.event);
    }
  }

  /**
   * With this registry the client's calls to "searchSpace" (`search`, `xport`) and the
   * training-set `create` call always reject, whatever the server replies.
   */
  lemma UnregisteredCallsReject<T>(reply: Reply<T>)
    ensures Fetch("searchSpace", "search", reply) == Rejected(NotAFunction, None)
    ensures Fetch("searchSpace", "xport", reply) == Rejected(NotAFunction, None)
    ensures Fetch("trainingSetGeneration", "create", reply) == Rejected(NotAFunction, None)
  {
    assert Registry["searchSpace"] == map[];
    assert Registry["trainingSetGeneration"] == SetGenerationEndPoints("training-set-generation");
    assert "create" !in SetGenerationEndPoints("training-set-generation");
  }

  /** The analysis step's two requests are registered: a successful reply resolves them. */
  lemma AnalysisRequestsResolve<T>(reply: Reply<T>)
    requires reply.Succeeded?
    ensures Fetch("analysisCreation", "create", reply) == Resolved(reply.response)
    ensures Fetch("analysisCreation", "xport", reply) == Resolved(reply.response)
  {
    AnalysisCreationRegistered();
    assert "create" in AnalysisCreationEndPoints && "xport" in AnalysisCreationEndPoints;
  }
}
