/** The transport-independent part of the save-and-restore client: the error
    taxonomy, credentials, response decoding, exception classification, the
    keyword arguments handed to the HTTP transport, and one request preparer per
    remote operation. */
module ApiBase {
  import opened Wrappers
  import opened Json
  import Strings

  /** Identifier of the root folder of every save-and-restore deployment. */
  const ROOT_NODE_UID: string := "44bef5de-e8e6-4014-af37-b8f6c8a939a2"

  // ===========================================================================
  // Credentials
  // ===========================================================================

  /** An HTTP basic-authentication credential (httpx's `BasicAuth`). */
  datatype Credential = BasicAuth(username: string, password: string)

  /** The static `auth_gen`: a standalone credential for one call. Being a
      function, it reads and changes no session state. */
  function AuthGen(username: string, password: string): (c: Credential)
    ensures c.username == username && c.password == password
  {
    BasicAuth(username, password)
  }

  // ===========================================================================
  // What the transport hands back
  // ===========================================================================

  /** A received HTTP response: the status code, whether the body is non-empty,
      the body parsed as JSON (None when it is not valid JSON), the body as text,
      the URL of the request, and the message the transport's status check
      attaches to a status error. */
  datatype Response = Response(
    status: int,
    hasContent: bool,
    json: Option<Value>,
    text: string,
    url: string,
    statusErrorText: string)

  /** The transport's own success test, which `raise_for_status` applies: 2xx. */
  predicate IsSuccessStatus(status: int)
  {
    200 <= status < 300
  }

  /** An exception raised while a request is prepared, sent or decoded.
      A timeout is also a request error in the transport's class hierarchy. */
  datatype Exc =
    | TimeoutException(text: string)
    | RequestError(text: string)
    | HTTPStatusError(response: Response)
    | OtherException(text: string)

  /** `isinstance(e, httpx.RequestError)`. */
  predicate IsRequestError(e: Exc)
  {
    e.TimeoutException? || e.RequestError?
  }

  // ===========================================================================
  // Error taxonomy
  // ===========================================================================

  /** The failures a client call can raise. `Unhandled` is an exception that
      the classifier re-raises unchanged. */
  datatype ApiError =
    | RequestParameterError(message: string)
    | RequestTimeoutError(message: string, request: Value)
    | HTTPRequestError(message: string)
    | HTTPClientError(status: int, detail: Value, url: string, response: Response)
    | HTTPServerError(message: string, response: Response)
    | RequestFailedError(request: Value, reply: Value)
    | Unhandled(exc: Exc)

  /** The message of `RequestTimeoutError`. */
  function TimeoutMessage(text: string): (m: string)
    ensures Strings.StartsWith(m, "Request timeout: ")
    ensures m[|"Request timeout: "|..] == text
  {
    "Request timeout: " + text
  }

  /** The message of `HTTPRequestError`. */
  function RequestErrorMessage(text: string): (m: string)
    ensures Strings.StartsWith(m, "HTTP request error: ")
    ensures m[|"HTTP request error: "|..] == text
  {
    "HTTP request error: " + text
  }

  /** The message of `HTTPClientError`: `"{status}: {text} {url}"`. */
  function ClientErrorMessage(status: int, text: string, url: string): (m: string)
    ensures Strings.StartsWith(m, Strings.IntToString(status) + ": ")
    ensures |url| < |m| && m[|m| - |url|..] == url && m[|m| - |url| - 1] == ' '
    ensures |Strings.IntToString(status) + ": "| <= |m| - |url| - 1 &&
      m[|Strings.IntToString(status) + ": "|..|m| - |url| - 1] == text
  {
    var prefix := Strings.IntToString(status) + ": ";
    var m := prefix + text + " " + url;
    assert m[..|prefix|] == prefix;
    assert m[|m| - |url|..] == url;
    assert m[|prefix|..|m| - |url| - 1] == text;
    m
  }

  /** The message of `RequestFailedError`: the `msg` entry of a dictionary
      response, or the text of any other response, after "Request failed: ";
      an empty one becomes "(no error message)". */
  function RequestFailedMessage(response: Value, render: Value -> string): (m: string)
    ensures response.Obj? && "msg" in response.fields && response.fields["msg"].Str? && response.fields["msg"].s != ""
      ==> m == "Request failed: " + response.fields["msg"].s
    ensures response.Obj? && "msg" in response.fields && Truthy(response.fields["msg"])
      ==> m == "Request failed: " + Format(response.fields["msg"], render)
    ensures response.Obj? && "msg" in response.fields && !Truthy(response.fields["msg"]) ==> m == "Request failed: (no error message)"
    ensures response.Obj? && "msg" !in response.fields ==> m == "Request failed: (no error message)"
    ensures response.Str? ==> m == "Request failed: " + (if response.s == "" then "(no error message)" else response.s)
    ensures response.Null? ==> m == "Request failed: None"
    ensures response.Num? ==> m == "Request failed: " + Strings.IntToString(response.n)
    ensures response.Bool? ==> m == "Request failed: " + (if response.b then "True" else "False")
    ensures response.Arr? ==> m == "Request failed: " + (if render(response) == "" then "(no error message)" else render(response))
  {
    "Request failed: " + FailureText(response, render)
  }

  /** A reply of the number 0 is falsy, but its text "0" is not, so the
      message shows it. */
  lemma ZeroReplyShown(render: Value -> string)
    ensures RequestFailedMessage(Num(0), render) == "Request failed: 0"
  {
    assert Strings.IntToString(0) == "0";
  }

  /** The text after "Request failed: ". */
  function FailureText(response: Value, render: Value -> string): (t: string)
    ensures response.Obj? && "msg" in response.fields && response.fields["msg"].Str? && response.fields["msg"].s != ""
      ==> t == response.fields["msg"].s
    ensures response.Obj? && "msg" in response.fields && Truthy(response.fields["msg"])
      ==> t == Format(response.fields["msg"], render)
    ensures response.Obj? && "msg" in response.fields && !Truthy(response.fields["msg"]) ==> t == "(no error message)"
    ensures response.Obj? && "msg" !in response.fields ==> t == "(no error message)"
    ensures response.Str? ==> t == (if response.s == "" then "(no error message)" else response.s)
    ensures response.Null? ==> t == "None"
    ensures response.Num? ==> t == Strings.IntToString(response.n)
    ensures response.Bool? ==> t == (if response.b then "True" else "False")
    ensures response.Arr? ==> t == (if render(response) == "" then "(no error message)" else render(response))
  {
    if response.Obj? then
      var msg := if "msg" in response.fields then response.fields["msg"] else Str("");
      if Truthy(msg) then Format(msg, render) else "(no error message)"
    else
      var s := Format(response, render);
      if s != "" then s else "(no error message)"
  }

  /** The message every error carries; `render` formats containers as Python's
      `str()` does. */
  function Message(e: ApiError, render: Value -> string): string
  {
    match e
    case RequestParameterError(m) => m
    case RequestTimeoutError(m, _) => m
    case HTTPRequestError(m) => m
    case HTTPClientError(status, detail, url, _) => ClientErrorMessage(status, Format(detail, render), url)
    case HTTPServerError(m, _) => m
    case RequestFailedError(_, reply) => RequestFailedMessage(reply, render)
    case Unhandled(exc) =>
      match exc
      case TimeoutException(t) => t
      case RequestError(t) => t
      case HTTPStatusError(r) => r.statusErrorText
      case OtherException(t) => t
  }

  // ===========================================================================
  // Response decoding and exception classification
  // ===========================================================================

  /** `_process_response`: the status is checked before anything is decoded; an
      empty body decodes to "", otherwise to the parsed JSON, or to the raw text
      when the body is not JSON. */
  function ProcessResponse(resp: Response): (r: Result<Value, Exc>)
    ensures r.Failure? <==> !IsSuccessStatus(resp.status)
    ensures r.Failure? ==> r.error == HTTPStatusError(resp)
    ensures r.Success? && !resp.hasContent ==> r.value == Str("")
    ensures r.Success? && resp.hasContent && resp.json.Some? ==> r.value == resp.json.value
    ensures r.Success? && resp.hasContent && resp.json.None? ==> r.value == Str(resp.text)
  {
    if !IsSuccessStatus(resp.status) then Failure(HTTPStatusError(resp))
    else if !resp.hasContent then Success(Str(""))
    else if resp.json.Some? then Success(resp.json.value)
    else Success(Str(resp.text))
  }

  /** The detail text put into a client-error message: the body's `detail`,
      else its `error`, when the body is a JSON object; the raw text when the
      object has neither key or the body is not JSON; "" for an empty body or any
      other JSON value. */
  function ResponseDetail(hasContent: bool, response: Response): (d: Value)
    ensures !hasContent ==> d == Str("")
    ensures hasContent && response.json.None? ==> d == Str(response.text)
    ensures hasContent && response.json.Some? && !response.json.value.Obj? ==> d == Str("")
    ensures hasContent && response.json.Some? && response.json.value.Obj? ==>
      var m := response.json.value.fields;
      d == (if "detail" in m then m["detail"] else if "error" in m then m["error"] else Str(response.text))
  {
    if !hasContent then Str("")
    else match response.json
      case None => Str(response.text)
      case Some(body) =>
        if body.Obj? then
          if "detail" in body.fields then body.fields["detail"]
          else if "error" in body.fields then body.fields["error"]
          else Str(response.text)
        else Str("")
  }

  /** The `request` a timeout error carries: `{"method": method, "params": params}`. */
  function RequestRecord(httpMethod: string, params: Value): Value
  {
    Pair("method", Str(httpMethod), "params", params)
  }

  /** `_process_comm_exception`: the exception being handled becomes exactly one
      error of the taxonomy. `clientResponse` is the response received, if any. */
  function ProcessCommException(httpMethod: string, params: Value, clientResponse: Option<Response>, exc: Exc): (e: ApiError)
    ensures exc.TimeoutException? ==>
      e == RequestTimeoutError(TimeoutMessage(exc.text), RequestRecord(httpMethod, params))
    ensures exc.RequestError? ==> e == HTTPRequestError(RequestErrorMessage(exc.text))
    ensures exc.HTTPStatusError? && clientResponse.Some? && clientResponse.value.status < 500 ==>
      e == HTTPClientError(exc.response.status, ResponseDetail(clientResponse.value.hasContent, exc.response),
                           exc.response.url, exc.response)
    ensures exc.HTTPStatusError? && (clientResponse.None? || clientResponse.value.status >= 500) ==>
      e == HTTPServerError(exc.response.statusErrorText, exc.response)
    ensures exc.OtherException? ==> e == Unhandled(exc)
  {
    if exc.TimeoutException? then
      RequestTimeoutError(TimeoutMessage(exc.text), RequestRecord(httpMethod, params))
    else if IsRequestError(exc) then
      HTTPRequestError(RequestErrorMessage(exc.text))
    else if exc.HTTPStatusError? then
      if clientResponse.Some? && clientResponse.value.status < 500 then
        HTTPClientError(exc.response.status, ResponseDetail(clientResponse.value.hasContent, exc.response),
                        exc.response.url, exc.response)
      else
        HTTPServerError(exc.response.statusErrorText, exc.response)
    else
      Unhandled(exc)
  }

  /** A status error raised for a response of status below 500 reads
      "{status}: {detail} {url}": it starts with the status code and ends with
      the request URL. */
  lemma ClientErrorNamesStatusAndUrl(httpMethod: string, params: Value, resp: Response, render: Value -> string)
    requires resp.status < 500
    ensures var e := ProcessCommException(httpMethod, params, Some(resp), HTTPStatusError(resp));
      var m := Message(e, render);
      e.HTTPClientError? &&
      Strings.StartsWith(m, Strings.IntToString(resp.status) + ": ") &&
      |resp.url| < |m| && m[|m| - |resp.url|..] == resp.url
  {
  }

  // ===========================================================================
  // Keyword arguments for the transport
  // ===========================================================================

  /** One value of the keyword dictionary. `TimeoutArg(t)` stands for what the
      client's timeout adjustment makes of the requested timeout `t`. */
  datatype KwArg =
    | ValueArg(value: Value)
    | TimeoutArg(requested: real)
    | AuthArg(credential: Credential)

  const KWARG_KEYS: set<string> := {"json", "params", "headers", "data", "timeout", "auth"}

  /** `method.upper() == "GET"`. */
  predicate IsGet(httpMethod: string)
  {
    Strings.Upper(httpMethod) == "GET"
  }

  /** `auth or self._auth`: the per-call credential wins over the session one. */
  function EffectiveAuth(auth: Option<Credential>, sessionAuth: Option<Credential>): Option<Credential>
  {
    if auth.Some? then auth else sessionAuth
  }

  /** Whether `_prepare_request` puts `key` into the keyword dictionary. */
  predicate HasKwarg(key: string, httpMethod: string, params: Value, urlParams: Value, headers: Value, data: Value,
                     timeout: Option<real>, auth: Option<Credential>, sessionAuth: Option<Credential>)
  {
    match key
    case "json" => Truthy(params)
    case "params" => Truthy(urlParams)
    case "headers" => Truthy(headers)
    case "data" => Truthy(data)
    case "timeout" => timeout.Some?
    case "auth" => !IsGet(httpMethod) && EffectiveAuth(auth, sessionAuth).Some?
    case _ => false
  }

  /** The keyword dictionary `_prepare_request` returns, defined key by key. */
  function RequestKwargs(httpMethod: string, params: Value, urlParams: Value, headers: Value, data: Value,
                         timeout: Option<real>, auth: Option<Credential>, sessionAuth: Option<Credential>)
    : (kw: map<string, KwArg>)
    ensures kw.Keys <= KWARG_KEYS
    ensures "json" in kw <==> Truthy(params)
    ensures "json" in kw ==> kw["json"] == ValueArg(params)
    ensures "params" in kw <==> Truthy(urlParams)
    ensures "params" in kw ==> kw["params"] == ValueArg(urlParams)
    ensures "headers" in kw <==> Truthy(headers)
    ensures "headers" in kw ==> kw["headers"] == ValueArg(headers)
    ensures "data" in kw <==> Truthy(data)
    ensures "data" in kw ==> kw["data"] == ValueArg(data)
    ensures "timeout" in kw <==> timeout.Some?
    ensures "timeout" in kw ==> kw["timeout"] == TimeoutArg(timeout.value)
    ensures "auth" in kw <==> !IsGet(httpMethod) && (auth.Some? || sessionAuth.Some?)
    ensures "auth" in kw ==> kw["auth"] == AuthArg(if auth.Some? then auth.value else sessionAuth.value)
  {
    map key | key in KWARG_KEYS && HasKwarg(key, httpMethod, params, urlParams, headers, data, timeout, auth, sessionAuth)
      :: KwargValue(key, params, urlParams, headers, data, timeout, auth, sessionAuth)
  }

  /** The value `_prepare_request` stores under `key` when it stores one. */
  function KwargValue(key: string, params: Value, urlParams: Value, headers: Value, data: Value,
                      timeout: Option<real>, auth: Option<Credential>, sessionAuth: Option<Credential>): KwArg
  {
    match key
    case "json" => ValueArg(params)
    case "params" => ValueArg(urlParams)
    case "headers" => ValueArg(headers)
    case "data" => ValueArg(data)
    case "timeout" => if timeout.Some? then TimeoutArg(timeout.value) else ValueArg(Null)
    case _ => var a := EffectiveAuth(auth, sessionAuth); if a.Some? then AuthArg(a.value) else ValueArg(Null)
  }

  /** The key rules determine the keyword dictionary: any dictionary obeying
      them is the one `RequestKwargs` defines. */
  lemma {:induction false} RequestKwargsDetermined(kw: map<string, KwArg>, httpMethod: string, params: Value,
                                                    urlParams: Value, headers: Value, data: Value, timeout: Option<real>,
                                                    auth: Option<Credential>, sessionAuth: Option<Credential>)
    requires kw.Keys <= KWARG_KEYS
    requires ("json" in kw <==> Truthy(params)) && ("json" in kw ==> kw["json"] == ValueArg(params))
    requires ("params" in kw <==> Truthy(urlParams)) && ("params" in kw ==> kw["params"] == ValueArg(urlParams))
    requires ("headers" in kw <==> Truthy(headers)) && ("headers" in kw ==> kw["headers"] == ValueArg(headers))
    requires ("data" in kw <==> Truthy(data)) && ("data" in kw ==> kw["data"] == ValueArg(data))
    requires ("timeout" in kw <==> timeout.Some?) && ("timeout" in kw ==> kw["timeout"] == TimeoutArg(timeout.value))
    requires "auth" in kw <==> !IsGet(httpMethod) && EffectiveAuth(auth, sessionAuth).Some?
    requires "auth" in kw ==> kw["auth"] == AuthArg(EffectiveAuth(auth, sessionAuth).value)
    ensures kw == RequestKwargs(httpMethod, params, urlParams, headers, data, timeout, auth, sessionAuth)
  {
    var spec := RequestKwargs(httpMethod, params, urlParams, headers, data, timeout, auth, sessionAuth);
    forall k | k in KWARG_KEYS
      ensures (k in kw <==> k in spec) && (k in kw ==> kw[k] == spec[k])
    {
      assert k == "json" || k == "params" || k == "headers" || k == "data" || k == "timeout" || k == "auth";
    }
    assert kw.Keys == spec.Keys;
  }

  // ===========================================================================
  // Request preparers: (method, path[, body or query[, body]])
  // ===========================================================================

  function PrepareInfoGet(): (string, string)
  {
    ("GET", "/")
  }

  function PrepareVersionGet(): (string, string)
  {
    ("GET", "/version")
  }

  function PrepareLogin(username: Value, password: Value): (string, string, Value)
  {
    ("POST", "/login", Pair("username", username, "password", password))
  }

  function PrepareNodeGet(uniqueNodeId: string): (string, string)
  {
    ("GET", "/node/" + uniqueNodeId)
  }

  function PrepareNodesGet(uniqueIds: Value): (string, string, Value)
  {
    ("GET", "/nodes", uniqueIds)
  }

  /** The node types `_prepare_node_add` accepts. */
  const NODE_TYPES: set<string> := {"FOLDER", "CONFIGURATION"}

  function InvalidNodeTypeMessage(nodeType: string): string
  {
    "Invalid nodeType: " + Strings.Repr(nodeType) + ". Supported types: ('FOLDER', 'CONFIGURATION')."
  }

  /** `_prepare_node_add`: (method, path, query, body). The extra keywords are
      the call's own keyword dictionary, so updating it in place is a value
      update here. */
  function PrepareNodeAdd(parentNodeId: string, name: string, nodeType: string, extra: map<string, Value>)
    : (r: Result<(string, string, Value, Value), ApiError>)
    ensures r.Failure? <==> nodeType !in NODE_TYPES
    ensures r.Failure? ==> r.error == RequestParameterError(InvalidNodeTypeMessage(nodeType))
    ensures r.Success? ==>
      && r.value.0 == "PUT" && r.value.1 == "/node"
      && r.value.2 == Obj(map["parentNodeId" := Str(parentNodeId)])
      && r.value.3.Obj?
      && r.value.3.fields.Keys == extra.Keys + {"name", "nodeType"}
      && r.value.3.fields["name"] == Str(name)
      && r.value.3.fields["nodeType"] == Str(nodeType)
      && forall k :: k in extra && k != "name" && k != "nodeType" ==> r.value.3.fields[k] == extra[k]
  {
    if nodeType !in NODE_TYPES then
      Failure(RequestParameterError(InvalidNodeTypeMessage(nodeType)))
    else
      var params := extra["name" := Str(name)]["nodeType" := Str(nodeType)];
      Success(("PUT", "/node", Obj(map["parentNodeId" := Str(parentNodeId)]), Obj(params)))
  }

  function PrepareNodeDelete(nodeId: string): (string, string)
  {
    ("DELETE", "/node/" + nodeId)
  }

  function PrepareNodesDelete(uniqueIds: Value): (string, string, Value)
  {
    ("DELETE", "/node", uniqueIds)
  }

  function PrepareNodeGetChildren(uniqueNodeId: string): (string, string)
  {
    ("GET", "/node/" + uniqueNodeId + "/children")
  }

  function PrepareNodeGetParent(uniqueNodeId: string): (string, string)
  {
    ("GET", "/node/" + uniqueNodeId + "/parent")
  }

  function PrepareConfigGet(uniqueNodeId: string): (string, string)
  {
    ("GET", "/config/" + uniqueNodeId)
  }

  /** A falsy configuration data is replaced by an empty dictionary. */
  function PrepareConfigCreate(parentNodeId: string, configurationNode: Value, configurationData: Value)
    : (string, string, Value)
  {
    var data := if Truthy(configurationData) then configurationData else Obj(map[]);
    ("PUT", "/config?parentNodeId=" + parentNodeId,
     Pair("configurationNode", configurationNode, "configurationData", data))
  }

  function PrepareConfigUpdate(configurationNode: Value, configurationData: Value): (string, string, Value)
  {
    ("POST", "/config", Pair("configurationNode", configurationNode, "configurationData", configurationData))
  }

  function PrepareTagsGet(): (string, string)
  {
    ("GET", "/tags")
  }

  function PrepareTagsAdd(uniqueNodeIds: Value, tag: Value): (string, string, Value)
  {
    ("POST", "/tags", Pair("uniqueNodeIds", uniqueNodeIds, "tag", tag))
  }

  function PrepareTagsDelete(uniqueNodeIds: Value, tag: Value): (string, string, Value)
  {
    ("DELETE", "/tags", Pair("uniqueNodeIds", uniqueNodeIds, "tag", tag))
  }

  function PrepareTakeSnapshotGet(uniqueNodeId: string): (string, string)
  {
    ("GET", "/take-snapshot/" + uniqueNodeId)
  }

  /** (method, path, query). */
  function PrepareTakeSnapshotSave(uniqueNodeId: string, name: Value, comment: Value): (string, string, Value)
  {
    ("PUT", "/take-snapshot/" + uniqueNodeId, Pair("name", name, "comment", comment))
  }

  function PrepareSnapshotGet(uniqueId: string): (string, string)
  {
    ("GET", "/snapshot/" + uniqueId)
  }

  function PrepareSnapshotAdd(parentNodeId: string, snapshotNode: Value, snapshotData: Value): (string, string, Value)
  {
    ("PUT", "/snapshot?parentNodeId=" + parentNodeId, Pair("snapshotNode", snapshotNode, "snapshotData", snapshotData))
  }

  function PrepareSnapshotUpdate(snapshotNode: Value, snapshotData: Value): (string, string, Value)
  {
    ("POST", "/snapshot", Pair("snapshotNode", snapshotNode, "snapshotData", snapshotData))
  }

  function PrepareSnapshotsGet(): (string, string)
  {
    ("GET", "/snapshots")
  }

  /** (method, path, query). */
  function PrepareRestoreNode(nodeId: string): (string, string, Value)
  {
    ("POST", "/restore/node", Obj(map["nodeId" := Str(nodeId)]))
  }

  function PrepareRestoreItems(snapshotItems: Value): (string, string, Value)
  {
    ("POST", "/restore/items", snapshotItems)
  }

  // ===========================================================================
  // Properties of the preparers
  // ===========================================================================

  /** The text of `path` strictly between `prefix` and `suffix`, when it has both. */
  function Between(path: string, prefix: string, suffix: string): (r: Option<string>)
    ensures r.Some? ==> path == prefix + r.value + suffix
  {
    if |prefix| + |suffix| <= |path| && path[..|prefix|] == prefix && path[|path| - |suffix|..] == suffix then
      var mid := path[|prefix|..|path| - |suffix|];
      assert path == path[..|prefix|] + mid + path[|path| - |suffix|..];
      Some(mid)
    else None
  }

  lemma BetweenConcat(prefix: string, id: string, suffix: string)
    ensures Between(prefix + id + suffix, prefix, suffix) == Some(id)
  {
    var path := prefix + id + suffix;
    assert path[..|prefix|] == prefix;
    assert path[|path| - |suffix|..] == suffix;
    assert path[|prefix|..|path| - |suffix|] == id;
  }

  lemma BetweenPrefix(prefix: string, id: string)
    ensures Between(prefix + id, prefix, "") == Some(id)
  {
    assert prefix + id + "" == prefix + id;
    BetweenConcat(prefix, id, "");
  }

  /** Every identifier is interpolated into its path verbatim: it is read back
      unchanged from between the operation's fixed prefix and suffix, whatever
      characters it holds, and the method is fixed. */
  lemma {:induction false} IdentifiersInterpolatedVerbatim(id: string)
    ensures PrepareNodeGet(id).0 == "GET" && Between(PrepareNodeGet(id).1, "/node/", "") == Some(id)
    ensures PrepareNodeDelete(id).0 == "DELETE" && Between(PrepareNodeDelete(id).1, "/node/", "") == Some(id)
    ensures PrepareNodeGetChildren(id).0 == "GET" && Between(PrepareNodeGetChildren(id).1, "/node/", "/children") == Some(id)
    ensures PrepareNodeGetParent(id).0 == "GET" && Between(PrepareNodeGetParent(id).1, "/node/", "/parent") == Some(id)
    ensures PrepareConfigGet(id).0 == "GET" && Between(PrepareConfigGet(id).1, "/config/", "") == Some(id)
    ensures PrepareTakeSnapshotGet(id).0 == "GET" && Between(PrepareTakeSnapshotGet(id).1, "/take-snapshot/", "") == Some(id)
    ensures PrepareSnapshotGet(id).0 == "GET" && Between(PrepareSnapshotGet(id).1, "/snapshot/", "") == Some(id)
    ensures forall n, c ::
      PrepareTakeSnapshotSave(id, n, c).0 == "PUT" && Between(PrepareTakeSnapshotSave(id, n, c).1, "/take-snapshot/", "") == Some(id)
    ensures forall n, d ::
      PrepareConfigCreate(id, n, d).0 == "PUT" && Between(PrepareConfigCreate(id, n, d).1, "/config?parentNodeId=", "") == Some(id)
    ensures forall n, d ::
      PrepareSnapshotAdd(id, n, d).0 == "PUT" && Between(PrepareSnapshotAdd(id, n, d).1, "/snapshot?parentNodeId=", "") == Some(id)
  {
    BetweenPrefix("/node/", id);
    BetweenConcat("/node/", id, "/children");
    BetweenConcat("/node/", id, "/parent");
    BetweenPrefix("/config/", id);
    BetweenPrefix("/take-snapshot/", id);
    BetweenPrefix("/snapshot/", id);
    BetweenPrefix("/config?parentNodeId=", id);
    BetweenPrefix("/snapshot?parentNodeId=", id);
  }

  /** Because nothing is escaped, an identifier holding a `/` reaches another
      endpoint, and one holding `&` adds query parameters. */
  lemma NoEscaping(id: string, node: Value, data: Value)
    ensures PrepareNodeGet(id + "/children") == PrepareNodeGetChildren(id)
    ensures PrepareNodeGet(id + "/parent") == PrepareNodeGetParent(id)
    ensures PrepareConfigCreate(id + "&nodeType=FOLDER", node, data).1 == PrepareConfigCreate(id, node, data).1 + "&nodeType=FOLDER"
  {
    assert "/node/" + (id + "/children") == "/node/" + id + "/children";
    assert "/node/" + (id + "/parent") == "/node/" + id + "/parent";
    assert "/config?parentNodeId=" + (id + "&nodeType=FOLDER") == "/config?parentNodeId=" + id + "&nodeType=FOLDER";
  }

  /** A falsy configuration data is sent as an empty dictionary, a truthy one as given. */
  lemma ConfigCreateDefaultsData(parentNodeId: string, node: Value, data: Value)
    ensures var body := PrepareConfigCreate(parentNodeId, node, data).2;
      body.Obj? && body.fields.Keys == {"configurationNode", "configurationData"} &&
      body.fields["configurationNode"] == node &&
      body.fields["configurationData"] == (if Truthy(data) then data else Obj(map[]))
  {
  }
  /** The operations without arguments have fixed endpoints. */
  lemma FixedEndpoints()
    ensures PrepareInfoGet() == ("GET", "/")
    ensures PrepareVersionGet() == ("GET", "/version")
    ensures PrepareTagsGet() == ("GET", "/tags")
    ensures PrepareSnapshotsGet() == ("GET", "/snapshots")
  {
  }

  /** Every other preparer has a fixed method and path and hands its arguments
      on unchanged: as the whole body, or under their own names in a two-entry
      body or query, with None values kept. */
  lemma ArgumentsPassedUnchanged(a: Value, b: Value)
    ensures var (m, u, body) := PrepareLogin(a, b);
      m == "POST" && u == "/login" && body.Obj? && body.fields.Keys == {"username", "password"} &&
      body.fields["username"] == a && body.fields["password"] == b
    ensures PrepareNodesGet(a) == ("GET", "/nodes", a)
    ensures PrepareNodesDelete(a) == ("DELETE", "/node", a)
    ensures PrepareRestoreItems(a) == ("POST", "/restore/items", a)
    ensures var (m, u, body) := PrepareConfigUpdate(a, b);
      m == "POST" && u == "/config" && body.Obj? && body.fields.Keys == {"configurationNode", "configurationData"} &&
      body.fields["configurationNode"] == a && body.fields["configurationData"] == b
    ensures var (m, u, body) := PrepareSnapshotUpdate(a, b);
      m == "POST" && u == "/snapshot" && body.Obj? && body.fields.Keys == {"snapshotNode", "snapshotData"} &&
      body.fields["snapshotNode"] == a && body.fields["snapshotData"] == b
    ensures var (m, u, body) := PrepareTagsAdd(a, b);
      m == "POST" && u == "/tags" && body.Obj? && body.fields.Keys == {"uniqueNodeIds", "tag"} &&
      body.fields["uniqueNodeIds"] == a && body.fields["tag"] == b
    ensures var (m, u, body) := PrepareTagsDelete(a, b);
      m == "DELETE" && u == "/tags" && body.Obj? && body.fields.Keys == {"uniqueNodeIds", "tag"} &&
      body.fields["uniqueNodeIds"] == a && body.fields["tag"] == b
    ensures forall id ::
      var (m, u, body) := PrepareSnapshotAdd(id, a, b);
      body.Obj? && body.fields.Keys == {"snapshotNode", "snapshotData"} &&
      body.fields["snapshotNode"] == a && body.fields["snapshotData"] == b
    ensures forall id ::
      var (m, u, query) := PrepareTakeSnapshotSave(id, a, b);
      query.Obj? && query.fields.Keys == {"name", "comment"} && query.fields["name"] == a && query.fields["comment"] == b
    ensures forall id ::
      var (m, u, query) := PrepareRestoreNode(id);
      m == "POST" && u == "/restore/node" && query.Obj? && query.fields.Keys == {"nodeId"} && query.fields["nodeId"] == Str(id)
  {
  }
}
