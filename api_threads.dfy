/** The blocking save-and-restore client: a session object that owns an HTTP
    client between `open` and `close`, a session credential, and one method
    per remote operation. Every request goes through `SendRequest`, which
    yields either the decoded response or exactly one classified error. */
module ApiThreads {
  import opened Wrappers
  import opened Json
  import opened ApiBase

  /** The transport's client object, bound to a base URL and a default timeout. */
  datatype HttpClient = HttpClient(baseUrl: string, timeout: real)

  /** What the transport did with one request: a response came back, or it raised. */
  datatype Sent = Responded(response: Response) | Raised(exc: Exc)

  /** The transport's `request(method, url, **kwargs)`, abstracted as a function
      of the client, the method, the path and the keyword dictionary. */
  type Transport = (HttpClient, string, string, map<string, KwArg>) -> Sent

  /** The arguments of one `send_request` call. */
  datatype Call = Call(
    httpMethod: string,
    url: string,
    params: Value,
    urlParams: Value,
    headers: Value,
    data: Value,
    timeout: Option<real>,
    auth: Option<Credential>)

  /** What `self._client.request` raises while no client is open. */
  const NO_CLIENT_REQUEST: string := "'NoneType' object has no attribute 'request'"

  /** What `self._client.close()` raises while no client is open. */
  const NO_CLIENT_CLOSE: string := "'NoneType' object has no attribute 'close'"

  /** The keyword dictionary a call hands to the transport. */
  function CallKwargs(call: Call, sessionAuth: Option<Credential>): (kw: map<string, KwArg>)
    ensures IsGet(call.httpMethod) ==> "auth" !in kw
    ensures !IsGet(call.httpMethod) && call.auth.Some? ==> "auth" in kw && kw["auth"] == AuthArg(call.auth.value)
    ensures !IsGet(call.httpMethod) && call.auth.None? && sessionAuth.Some? ==>
      "auth" in kw && kw["auth"] == AuthArg(sessionAuth.value)
    ensures call.auth.None? && sessionAuth.None? ==> "auth" !in kw
  {
    RequestKwargs(call.httpMethod, call.params, call.urlParams, call.headers, call.data, call.timeout, call.auth, sessionAuth)
  }

  /** The outcome of `send_request` for a session whose client is `client` and
      whose credential is `sessionAuth`: the decoded body of a 2xx response, or
      the classification of whatever was raised while sending or decoding.
      `client_response` is known to the classifier only when a response came back. */
  function SendOutcome(client: Option<HttpClient>, sessionAuth: Option<Credential>, call: Call, transport: Transport)
    : (r: Result<Value, ApiError>)
    ensures r.Success? <==>
      client.Some? &&
      transport(client.value, call.httpMethod, call.url, CallKwargs(call, sessionAuth)).Responded? &&
      IsSuccessStatus(transport(client.value, call.httpMethod, call.url, CallKwargs(call, sessionAuth)).response.status)
    ensures r.Success? ==>
      ProcessResponse(transport(client.value, call.httpMethod, call.url, CallKwargs(call, sessionAuth)).response) == Success(r.value)
    ensures r.Failure? ==> !r.error.RequestParameterError? && !r.error.RequestFailedError?
  {
    if client.None? then
      Failure(ProcessCommException(call.httpMethod, call.params, None, OtherException(NO_CLIENT_REQUEST)))
    else
      match transport(client.value, call.httpMethod, call.url, CallKwargs(call, sessionAuth))
      case Raised(exc) => Failure(ProcessCommException(call.httpMethod, call.params, None, exc))
      case Responded(resp) =>
        match ProcessResponse(resp)
        case Success(v) => Success(v)
        case Failure(exc) => Failure(ProcessCommException(call.httpMethod, call.params, Some(resp), exc))
  }

  /** A timeout is reported as a timeout carrying the method and the body, even
      though it is also a request error. */
  lemma TimeoutIsCheckedFirst(client: HttpClient, sessionAuth: Option<Credential>, call: Call, transport: Transport, text: string)
    requires transport(client, call.httpMethod, call.url, CallKwargs(call, sessionAuth)) == Raised(TimeoutException(text))
    ensures SendOutcome(Some(client), sessionAuth, call, transport) ==
      Failure(RequestTimeoutError("Request timeout: " + text, Pair("method", Str(call.httpMethod), "params", call.params)))
  {
  }

  /** A response with a failing status is a client error below 500 and a server
      error from 500 on; its body is used only for the client error's detail. */
  lemma StatusSplitAt500(client: HttpClient, sessionAuth: Option<Credential>, call: Call, transport: Transport, resp: Response)
    requires transport(client, call.httpMethod, call.url, CallKwargs(call, sessionAuth)) == Responded(resp)
    requires !IsSuccessStatus(resp.status)
    ensures resp.status < 500 ==>
      SendOutcome(Some(client), sessionAuth, call, transport) ==
      Failure(HTTPClientError(resp.status, ResponseDetail(resp.hasContent, resp), resp.url, resp))
    ensures resp.status >= 500 ==>
      SendOutcome(Some(client), sessionAuth, call, transport) == Failure(HTTPServerError(resp.statusErrorText, resp))
  {
  }

  /** Only an exception outside the handled kinds, or a missing client, escapes
      unclassified. */
  lemma UnhandledOnlyForForeignExceptions(client: Option<HttpClient>, sessionAuth: Option<Credential>, call: Call, transport: Transport)
    ensures var r := SendOutcome(client, sessionAuth, call, transport);
      r.Failure? && r.error.Unhandled? ==>
        client.None? ||
        (transport(client.value, call.httpMethod, call.url, CallKwargs(call, sessionAuth)).Raised? &&
         transport(client.value, call.httpMethod, call.url, CallKwargs(call, sessionAuth)).exc.OtherException?)
  {
  }

  /** A client session (`SaveRestoreAPI`). Its client is None until `Open` and
      again after `Close`; its credential is set by `AuthSet` and cleared by
      `AuthClear`. */
  class SaveRestoreAPI {
    const baseUrl: string
    const timeout: real
    var client: Option<HttpClient>
    var auth: Option<Credential>

    /** `request_fail_exceptions` is accepted and ignored. */
    constructor (baseUrl: string, timeout: real, requestFailExceptions: bool)
      ensures this.baseUrl == baseUrl && this.timeout == timeout
      ensures client.None? && auth.None?
    {
      this.baseUrl := baseUrl;
      this.timeout := timeout;
      client := None;
      auth := None;
    }

    /** Stores a session credential made by `AuthGen`. */
    method AuthSet(username: string, password: string)
      modifies this
      ensures auth == Some(AuthGen(username, password))
      ensures client == old(client)
    {
      auth := Some(AuthGen(username, password));
    }

    method AuthClear()
      modifies this
      ensures auth.None?
      ensures client == old(client)
    {
      auth := None;
    }

    /** Binds a fresh client to the session's base URL and timeout. */
    method Open()
      modifies this
      ensures client == Some(HttpClient(baseUrl, timeout))
      ensures auth == old(auth)
    {
      client := Some(HttpClient(baseUrl, timeout));
    }

    /** Closes the client and forgets it; with no client open it raises, and the
        session is left as it was. */
    method Close() returns (err: Option<Exc>)
      modifies this
      ensures old(client).Some? ==> err.None? && client.None?
      ensures old(client).None? ==> err == Some(OtherException(NO_CLIENT_CLOSE)) && client == old(client)
      ensures auth == old(auth)
    {
      if client.None? {
        err := Some(OtherException(NO_CLIENT_CLOSE));
      } else {
        err := None;
        client := None;
      }
    }

    /** `__enter__`: opens and hands back this very session. */
    method Enter() returns (session: SaveRestoreAPI)
      modifies this
      ensures session == this
      ensures client == Some(HttpClient(baseUrl, timeout))
      ensures auth == old(auth)
    {
      Open();
      session := this;
    }

    /** `__exit__`: closes whether or not the managed block raised `pending`.
        It returns None, so `pending` leaves the `with` statement, unless the
        close itself raises, whose exception then replaces it. */
    method Exit(pending: Option<Exc>) returns (err: Option<Exc>)
      modifies this
      ensures old(client).Some? ==> err == pending && client.None?
      ensures old(client).None? ==> err == Some(OtherException(NO_CLIENT_CLOSE)) && client == old(client)
      ensures auth == old(auth)
    {
      var closeErr := Close();
      err := if closeErr.Some? then closeErr else pending;
    }

    /** `_prepare_request`, built up key by key. */
    method PrepareRequest(httpMethod: string, params: Value, urlParams: Value, headers: Value, data: Value,
                          timeout: Option<real>, callAuth: Option<Credential>)
      returns (kwargs: map<string, KwArg>)
      ensures kwargs == RequestKwargs(httpMethod, params, urlParams, headers, data, timeout, callAuth, auth)
    {
      kwargs := map[];
      if Truthy(params) {
        kwargs := kwargs["json" := ValueArg(params)];
      }
      if Truthy(urlParams) {
        kwargs := kwargs["params" := ValueArg(urlParams)];
      }
      if Truthy(headers) {
        kwargs := kwargs["headers" := ValueArg(headers)];
      }
      if Truthy(data) {
        kwargs := kwargs["data" := ValueArg(data)];
      }
      if timeout.Some? {
        kwargs := kwargs["timeout" := TimeoutArg(timeout.value)];
      }
      if !IsGet(httpMethod) {
        var effective := EffectiveAuth(callAuth, auth);
        if effective.Some? {
          kwargs := kwargs["auth" := AuthArg(effective.value)];
        }
      }
      RequestKwargsDetermined(kwargs, httpMethod, params, urlParams, headers, data, timeout, callAuth, auth);
    }

    /** `send_request`: prepare, send, decode; anything raised on the way is
        classified. */
    method SendRequest(httpMethod: string, url: string, params: Value, urlParams: Value, headers: Value, data: Value,
                       timeout: Option<real>, callAuth: Option<Credential>, transport: Transport)
      returns (r: Result<Value, ApiError>)
      ensures r == SendOutcome(client, auth, Call(httpMethod, url, params, urlParams, headers, data, timeout, callAuth), transport)
    {
      var clientResponse: Option<Response> := None;
      var kwargs := PrepareRequest(httpMethod, params, urlParams, headers, data, timeout, callAuth);
      var raised: Exc;
      if client.None? {
        raised := OtherException(NO_CLIENT_REQUEST);
      } else {
        var sent := transport(client.value, httpMethod, url, kwargs);
        if sent.Raised? {
          raised := sent.exc;
        } else {
          clientResponse := Some(sent.response);
          var decoded := ProcessResponse(sent.response);
          if decoded.Success? {
            return Success(decoded.value);
          }
          raised := decoded.error;
        }
      }
      r := Failure(ProcessCommException(httpMethod, params, clientResponse, raised));
    }

    // -------------------------------------------------------------------------
    // Operations whose preparers are part of this model
    // -------------------------------------------------------------------------

    method InfoGet(transport: Transport) returns (r: Result<Value, ApiError>)
      ensures var (m, url) := PrepareInfoGet();
        r == SendOutcome(client, auth, Call(m, url, Null, Null, Null, Null, None, None), transport)
    {
      var (m, url) := PrepareInfoGet();
      r := SendRequest(m, url, Null, Null, Null, Null, None, None, transport);
    }

    method VersionGet(transport: Transport) returns (r: Result<Value, ApiError>)
      ensures var (m, url) := PrepareVersionGet();
        r == SendOutcome(client, auth, Call(m, url, Null, Null, Null, Null, None, None), transport)
    {
      var (m, url) := PrepareVersionGet();
      r := SendRequest(m, url, Null, Null, Null, Null, None, None, transport);
    }

    /** The credentials travel in the body; no credential is attached. */
    method Login(username: Value, password: Value, transport: Transport) returns (r: Result<Value, ApiError>)
      ensures var (m, url, body) := PrepareLogin(username, password);
        r == SendOutcome(client, auth, Call(m, url, body, Null, Null, Null, None, None), transport)
    {
      var (m, url, body) := PrepareLogin(username, password);
      r := SendRequest(m, url, body, Null, Null, Null, None, None, transport);
    }

    method NodeGet(uniqueNodeId: string, transport: Transport) returns (r: Result<Value, ApiError>)
      ensures var (m, url) := PrepareNodeGet(uniqueNodeId);
        r == SendOutcome(client, auth, Call(m, url, Null, Null, Null, Null, None, None), transport)
    {
      var (m, url) := PrepareNodeGet(uniqueNodeId);
      r := SendRequest(m, url, Null, Null, Null, Null, None, None, transport);
    }

    /** The id list is the JSON body of a GET. */
    method NodesGet(uniqueIds: Value, transport: Transport) returns (r: Result<Value, ApiError>)
      ensures var (m, url, body) := PrepareNodesGet(uniqueIds);
        r == SendOutcome(client, auth, Call(m, url, body, Null, Null, Null, None, None), transport)
    {
      var (m, url, body) := PrepareNodesGet(uniqueIds);
      r := SendRequest(m, url, body, Null, Null, Null, None, None, transport);
    }

    /** The node type is checked before anything is sent, and its failure is
        returned as it is; otherwise the query goes to the query slot and the
        body to the JSON-body slot. */
    method NodeAdd(parentNodeId: string, name: string, nodeType: string, callAuth: Option<Credential>,
                   extra: map<string, Value>, transport: Transport)
      returns (r: Result<Value, ApiError>)
      ensures PrepareNodeAdd(parentNodeId, name, nodeType, extra).Failure? ==>
        r == Failure(PrepareNodeAdd(parentNodeId, name, nodeType, extra).error)
      ensures PrepareNodeAdd(parentNodeId, name, nodeType, extra).Success? ==>
        var (m, url, query, body) := PrepareNodeAdd(parentNodeId, name, nodeType, extra).value;
        r == SendOutcome(client, auth, Call(m, url, body, query, Null, Null, None, callAuth), transport)
    {
      var prepared := PrepareNodeAdd(parentNodeId, name, nodeType, extra);
      if prepared.Failure? {
        return Failure(prepared.error);
      }
      var (m, url, query, body) := prepared.value;
      r := SendRequest(m, url, body, query, Null, Null, None, callAuth, transport);
    }

    method NodeDelete(nodeId: string, callAuth: Option<Credential>, transport: Transport) returns (r: Result<Value, ApiError>)
      ensures var (m, url) := PrepareNodeDelete(nodeId);
        r == SendOutcome(client, auth, Call(m, url, Null, Null, Null, Null, None, callAuth), transport)
    {
      var (m, url) := PrepareNodeDelete(nodeId);
      r := SendRequest(m, url, Null, Null, Null, Null, None, callAuth, transport);
    }

    method NodesDelete(uniqueIds: Value, callAuth: Option<Credential>, transport: Transport) returns (r: Result<Value, ApiError>)
      ensures var (m, url, body) := PrepareNodesDelete(uniqueIds);
        r == SendOutcome(client, auth, Call(m, url, body, Null, Null, Null, None, callAuth), transport)
    {
      var (m, url, body) := PrepareNodesDelete(uniqueIds);
      r := SendRequest(m, url, body, Null, Null, Null, None, callAuth, transport);
    }

    method NodeGetChildren(uniqueNodeId: string, transport: Transport) returns (r: Result<Value, ApiError>)
      ensures var (m, url) := PrepareNodeGetChildren(uniqueNodeId);
        r == SendOutcome(client, auth, Call(m, url, Null, Null, Null, Null, None, None), transport)
    {
      var (m, url) := PrepareNodeGetChildren(uniqueNodeId);
      r := SendRequest(m, url, Null, Null, Null, Null, None, None, transport);
    }

    method NodeGetParent(uniqueNodeId: string, transport: Transport) returns (r: Result<Value, ApiError>)
      ensures var (m, url) := PrepareNodeGetParent(uniqueNodeId);
        r == SendOutcome(client, auth, Call(m, url, Null, Null, Null, Null, None, None), transport)
    {
      var (m, url) := PrepareNodeGetParent(uniqueNodeId);
      r := SendRequest(m, url, Null, Null, Null, Null, None, None, transport);
    }

    method ConfigGet(uniqueNodeId: string, transport: Transport) returns (r: Result<Value, ApiError>)
      ensures var (m, url) := PrepareConfigGet(uniqueNodeId);
        r == SendOutcome(client, auth, Call(m, url, Null, Null, Null, Null, None, None), transport)
    {
      var (m, url) := PrepareConfigGet(uniqueNodeId);
      r := SendRequest(m, url, Null, Null, Null, Null, None, None, transport);
    }

    method ConfigCreate(parentNodeId: string, configurationNode: Value, configurationData: Value,
                        callAuth: Option<Credential>, transport: Transport)
      returns (r: Result<Value, ApiError>)
      ensures var (m, url, body) := PrepareConfigCreate(parentNodeId, configurationNode, configurationData);
        r == SendOutcome(client, auth, Call(m, url, body, Null, Null, Null, None, callAuth), transport)
    {
      var (m, url, body) := PrepareConfigCreate(parentNodeId, configurationNode, configurationData);
      r := SendRequest(m, url, body, Null, Null, Null, None, callAuth, transport);
    }

    method ConfigUpdate(configurationNode: Value, configurationData: Value, callAuth: Option<Credential>, transport: Transport)
      returns (r: Result<Value, ApiError>)
      ensures var (m, url, body) := PrepareConfigUpdate(configurationNode, configurationData);
        r == SendOutcome(client, auth, Call(m, url, body, Null, Null, Null, None, callAuth), transport)
    {
      var (m, url, body) := PrepareConfigUpdate(configurationNode, configurationData);
      r := SendRequest(m, url, body, Null, Null, Null, None, callAuth, transport);
    }

    method TagsGet(transport: Transport) returns (r: Result<Value, ApiError>)
      ensures var (m, url) := PrepareTagsGet();
        r == SendOutcome(client, auth, Call(m, url, Null, Null, Null, Null, None, None), transport)
    {
      var (m, url) := PrepareTagsGet();
      r := SendRequest(m, url, Null, Null, Null, Null, None, None, transport);
    }

    method TagsAdd(uniqueNodeIds: Value, tag: Value, callAuth: Option<Credential>, transport: Transport)
      returns (r: Result<Value, ApiError>)
      ensures var (m, url, body) := PrepareTagsAdd(uniqueNodeIds, tag);
        r == SendOutcome(client, auth, Call(m, url, body, Null, Null, Null, None, callAuth), transport)
    {
      var (m, url, body) := PrepareTagsAdd(uniqueNodeIds, tag);
      r := SendRequest(m, url, body, Null, Null, Null, None, callAuth, transport);
    }

    method TagsDelete(uniqueNodeIds: Value, tag: Value, callAuth: Option<Credential>, transport: Transport)
      returns (r: Result<Value, ApiError>)
      ensures var (m, url, body) := PrepareTagsDelete(uniqueNodeIds, tag);
        r == SendOutcome(client, auth, Call(m, url, body, Null, Null, Null, None, callAuth), transport)
    {
      var (m, url, body) := PrepareTagsDelete(uniqueNodeIds, tag);
      r := SendRequest(m, url, body, Null, Null, Null, None, callAuth, transport);
    }

    method TakeSnapshotGet(uniqueNodeId: string, transport: Transport) returns (r: Result<Value, ApiError>)
      ensures var (m, url) := PrepareTakeSnapshotGet(uniqueNodeId);
        r == SendOutcome(client, auth, Call(m, url, Null, Null, Null, Null, None, None), transport)
    {
      var (m, url) := PrepareTakeSnapshotGet(uniqueNodeId);
      r := SendRequest(m, url, Null, Null, Null, Null, None, None, transport);
    }

    /** Name and comment travel only in the query, even when they are None. */
    method TakeSnapshotSave(uniqueNodeId: string, name: Value, comment: Value, callAuth: Option<Credential>, transport: Transport)
      returns (r: Result<Value, ApiError>)
      ensures var (m, url, query) := PrepareTakeSnapshotSave(uniqueNodeId, name, comment);
        r == SendOutcome(client, auth, Call(m, url, Null, query, Null, Null, None, callAuth), transport)
    {
      var (m, url, query) := PrepareTakeSnapshotSave(uniqueNodeId, name, comment);
      r := SendRequest(m, url, Null, query, Null, Null, None, callAuth, transport);
    }

    method SnapshotGet(uniqueId: string, transport: Transport) returns (r: Result<Value, ApiError>)
      ensures var (m, url) := PrepareSnapshotGet(uniqueId);
        r == SendOutcome(client, auth, Call(m, url, Null, Null, Null, Null, None, None), transport)
    {
      var (m, url) := PrepareSnapshotGet(uniqueId);
      r := SendRequest(m, url, Null, Null, Null, Null, None, None, transport);
    }

    method SnapshotAdd(parentNodeId: string, snapshotNode: Value, snapshotData: Value,
                       callAuth: Option<Credential>, transport: Transport)
      returns (r: Result<Value, ApiError>)
      ensures var (m, url, body) := PrepareSnapshotAdd(parentNodeId, snapshotNode, snapshotData);
        r == SendOutcome(client, auth, Call(m, url, body, Null, Null, Null, None, callAuth), transport)
    {
      var (m, url, body) := PrepareSnapshotAdd(parentNodeId, snapshotNode, snapshotData);
      r := SendRequest(m, url, body, Null, Null, Null, None, callAuth, transport);
    }

    method SnapshotUpdate(snapshotNode: Value, snapshotData: Value, callAuth: Option<Credential>, transport: Transport)
      returns (r: Result<Value, ApiError>)
      ensures var (m, url, body) := PrepareSnapshotUpdate(snapshotNode, snapshotData);
        r == SendOutcome(client, auth, Call(m, url, body, Null, Null, Null, None, callAuth), transport)
    {
      var (m, url, body) := PrepareSnapshotUpdate(snapshotNode, snapshotData);
      r := SendRequest(m, url, body, Null, Null, Null, None, callAuth, transport);
    }

    method SnapshotsGet(transport: Transport) returns (r: Result<Value, ApiError>)
      ensures var (m, url) := PrepareSnapshotsGet();
        r == SendOutcome(client, auth, Call(m, url, Null, Null, Null, Null, None, None), transport)
    {
      var (m, url) := PrepareSnapshotsGet();
      r := SendRequest(m, url, Null, Null, Null, Null, None, None, transport);
    }

    /** The node id travels in the query. */
    method RestoreNode(nodeId: string, callAuth: Option<Credential>, transport: Transport) returns (r: Result<Value, ApiError>)
      ensures var (m, url, query) := PrepareRestoreNode(nodeId);
        r == SendOutcome(client, auth, Call(m, url, Null, query, Null, Null, None, callAuth), transport)
    {
      var (m, url, query) := PrepareRestoreNode(nodeId);
      r := SendRequest(m, url, Null, query, Null, Null, None, callAuth, transport);
    }

    method RestoreItems(snapshotItems: Value, callAuth: Option<Credential>, transport: Transport)
      returns (r: Result<Value, ApiError>)
      ensures var (m, url, body) := PrepareRestoreItems(snapshotItems);
        r == SendOutcome(client, auth, Call(m, url, body, Null, Null, Null, None, callAuth), transport)
    {
      var (m, url, body) := PrepareRestoreItems(snapshotItems);
      r := SendRequest(m, url, body, Null, Null, Null, None, callAuth, transport);
    }

    // -------------------------------------------------------------------------
    // Operations whose preparers are not part of this model: each forwards
    // what an abstract preparer returns into the slots the source names
    // -------------------------------------------------------------------------

    method Search(allRequestParams: Value, prepareSearch: Value -> (string, string, Value), transport: Transport)
      returns (r: Result<Value, ApiError>)
      ensures var (m, url, query) := prepareSearch(allRequestParams);
        r == SendOutcome(client, auth, Call(m, url, Null, query, Null, Null, None, None), transport)
    {
      var (m, url, query) := prepareSearch(allRequestParams);
      r := SendRequest(m, url, Null, query, Null, Null, None, None, transport);
    }

    method Help(what: Value, lang: Value, prepareHelp: (Value, Value) -> (string, string, Value), transport: Transport)
      returns (r: Result<Value, ApiError>)
      ensures var (m, url, query) := prepareHelp(what, lang);
        r == SendOutcome(client, auth, Call(m, url, Null, query, Null, Null, None, None), transport)
    {
      var (m, url, query) := prepareHelp(what, lang);
      r := SendRequest(m, url, Null, query, Null, Null, None, None, transport);
    }

    method Compare(nodeId: Value, tolerance: Value, compareMode: Value, skipReadback: Value,
                   prepareCompare: (Value, Value, Value, Value) -> (string, string, Value), transport: Transport)
      returns (r: Result<Value, ApiError>)
      ensures var (m, url, query) := prepareCompare(nodeId, tolerance, compareMode, skipReadback);
        r == SendOutcome(client, auth, Call(m, url, Null, query, Null, Null, None, None), transport)
    {
      var (m, url, query) := prepareCompare(nodeId, tolerance, compareMode, skipReadback);
      r := SendRequest(m, url, Null, query, Null, Null, None, None, transport);
    }

    method StructureMove(nodeIds: Value, newParentNodeId: Value, callAuth: Option<Credential>,
                         prepareMove: (Value, Value) -> (string, string, Value, Value), transport: Transport)
      returns (r: Result<Value, ApiError>)
      ensures var (m, url, body, query) := prepareMove(nodeIds, newParentNodeId);
        r == SendOutcome(client, auth, Call(m, url, body, query, Null, Null, None, callAuth), transport)
    {
      var (m, url, body, query) := prepareMove(nodeIds, newParentNodeId);
      r := SendRequest(m, url, body, query, Null, Null, None, callAuth, transport);
    }

    method StructureCopy(nodeIds: Value, newParentNodeId: Value, callAuth: Option<Credential>,
                         prepareCopy: (Value, Value) -> (string, string, Value, Value), transport: Transport)
      returns (r: Result<Value, ApiError>)
      ensures var (m, url, body, query) := prepareCopy(nodeIds, newParentNodeId);
        r == SendOutcome(client, auth, Call(m, url, body, query, Null, Null, None, callAuth), transport)
    {
      var (m, url, body, query) := prepareCopy(nodeIds, newParentNodeId);
      r := SendRequest(m, url, body, query, Null, Null, None, callAuth, transport);
    }

    method StructurePathGet(uniqueNodeId: Value, preparePathGet: Value -> (string, string), transport: Transport)
      returns (r: Result<Value, ApiError>)
      ensures var (m, url) := preparePathGet(uniqueNodeId);
        r == SendOutcome(client, auth, Call(m, url, Null, Null, Null, Null, None, None), transport)
    {
      var (m, url) := preparePathGet(uniqueNodeId);
      r := SendRequest(m, url, Null, Null, Null, Null, None, None, transport);
    }

    method StructurePathNodes(path: Value, preparePathNodes: Value -> (string, string, Value), transport: Transport)
      returns (r: Result<Value, ApiError>)
      ensures var (m, url, query) := preparePathNodes(path);
        r == SendOutcome(client, auth, Call(m, url, Null, query, Null, Null, None, None), transport)
    {
      var (m, url, query) := preparePathNodes(path);
      r := SendRequest(m, url, Null, query, Null, Null, None, None, transport);
    }
  }

  // ===========================================================================
  // Properties of the operations
  // ===========================================================================

  /** No credential reaches the transport for `call`. */
  predicate SendsNoCredential(call: Call, sessionAuth: Option<Credential>)
  {
    "auth" !in CallKwargs(call, sessionAuth)
  }

  /** The credential `c` reaches the transport for `call`. */
  predicate SendsCredential(call: Call, sessionAuth: Option<Credential>, c: Credential)
  {
    var kw := CallKwargs(call, sessionAuth);
    "auth" in kw && kw["auth"] == AuthArg(c)
  }

  /** The eleven read operations are GETs that forward no caller credential,
      so no credential reaches the transport even when the session has one. */
  lemma ReadOperationsSendNoCredential(id: string, ids: Value, sessionAuth: Option<Credential>)
    ensures var (m, url) := PrepareInfoGet();
      SendsNoCredential(Call(m, url, Null, Null, Null, Null, None, None), sessionAuth)
    ensures var (m, url) := PrepareVersionGet();
      SendsNoCredential(Call(m, url, Null, Null, Null, Null, None, None), sessionAuth)
    ensures var (m, url) := PrepareNodeGet(id);
      SendsNoCredential(Call(m, url, Null, Null, Null, Null, None, None), sessionAuth)
    ensures var (m, url, body) := PrepareNodesGet(ids);
      SendsNoCredential(Call(m, url, body, Null, Null, Null, None, None), sessionAuth)
    ensures var (m, url) := PrepareNodeGetChildren(id);
      SendsNoCredential(Call(m, url, Null, Null, Null, Null, None, None), sessionAuth)
    ensures var (m, url) := PrepareNodeGetParent(id);
      SendsNoCredential(Call(m, url, Null, Null, Null, Null, None, None), sessionAuth)
    ensures var (m, url) := PrepareConfigGet(id);
      SendsNoCredential(Call(m, url, Null, Null, Null, Null, None, None), sessionAuth)
    ensures var (m, url) := PrepareTagsGet();
      SendsNoCredential(Call(m, url, Null, Null, Null, Null, None, None), sessionAuth)
    ensures var (m, url) := PrepareTakeSnapshotGet(id);
      SendsNoCredential(Call(m, url, Null, Null, Null, Null, None, None), sessionAuth)
    ensures var (m, url) := PrepareSnapshotGet(id);
      SendsNoCredential(Call(m, url, Null, Null, Null, Null, None, None), sessionAuth)
    ensures var (m, url) := PrepareSnapshotsGet();
      SendsNoCredential(Call(m, url, Null, Null, Null, Null, None, None), sessionAuth)
  {
    assert Strings.Upper("GET") == "GET";
  }

  /** A call that is not a GET carries the caller's credential, or the
      session's when the caller gives none. */
  lemma NonGetForwardsCredential(call: Call, sessionAuth: Option<Credential>, c: Credential)
    requires !IsGet(call.httpMethod)
    requires call.auth == Some(c) || (call.auth.None? && sessionAuth == Some(c))
    ensures SendsCredential(call, sessionAuth, c)
  {
  }

  /** The mutating operations on nodes, configurations and tags forward the
      caller's credential when one is given, and the session's otherwise. */
  lemma NodeMutationsForwardCredential(id: string, name: string, nodeType: string, extra: map<string, Value>,
                                       a: Value, b: Value, callAuth: Option<Credential>,
                                       sessionAuth: Option<Credential>, c: Credential)
    requires callAuth == Some(c) || (callAuth.None? && sessionAuth == Some(c))
    requires nodeType in NODE_TYPES
    ensures var (m, url, query, body) := PrepareNodeAdd(id, name, nodeType, extra).value;
      SendsCredential(Call(m, url, body, query, Null, Null, None, callAuth), sessionAuth, c)
    ensures var (m, url) := PrepareNodeDelete(id);
      SendsCredential(Call(m, url, Null, Null, Null, Null, None, callAuth), sessionAuth, c)
    ensures var (m, url, body) := PrepareNodesDelete(a);
      SendsCredential(Call(m, url, body, Null, Null, Null, None, callAuth), sessionAuth, c)
    ensures var (m, url, body) := PrepareConfigCreate(id, a, b);
      SendsCredential(Call(m, url, body, Null, Null, Null, None, callAuth), sessionAuth, c)
    ensures var (m, url, body) := PrepareConfigUpdate(a, b);
      SendsCredential(Call(m, url, body, Null, Null, Null, None, callAuth), sessionAuth, c)
    ensures var (m, url, body) := PrepareTagsAdd(a, b);
      SendsCredential(Call(m, url, body, Null, Null, Null, None, callAuth), sessionAuth, c)
    ensures var (m, url, body) := PrepareTagsDelete(a, b);
      SendsCredential(Call(m, url, body, Null, Null, Null, None, callAuth), sessionAuth, c)
  {
    assert Strings.Upper("DELETE") == "DELETE";
    assert Strings.Upper("POST") == "POST";
    assert Strings.Upper("PUT") == "PUT";
    var add := PrepareNodeAdd(id, name, nodeType, extra).value;
    NonGetForwardsCredential(Call(add.0, add.1, add.3, add.2, Null, Null, None, callAuth), sessionAuth, c);
    var del := PrepareNodeDelete(id);
    NonGetForwardsCredential(Call(del.0, del.1, Null, Null, Null, Null, None, callAuth), sessionAuth, c);
    var dels := PrepareNodesDelete(a);
    NonGetForwardsCredential(Call(dels.0, dels.1, dels.2, Null, Null, Null, None, callAuth), sessionAuth, c);
    var create := PrepareConfigCreate(id, a, b);
    NonGetForwardsCredential(Call(create.0, create.1, create.2, Null, Null, Null, None, callAuth), sessionAuth, c);
    var update := PrepareConfigUpdate(a, b);
    NonGetForwardsCredential(Call(update.0, update.1, update.2, Null, Null, Null, None, callAuth), sessionAuth, c);
    var tagsAdd := PrepareTagsAdd(a, b);
    NonGetForwardsCredential(Call(tagsAdd.0, tagsAdd.1, tagsAdd.2, Null, Null, Null, None, callAuth), sessionAuth, c);
    var tagsDelete := PrepareTagsDelete(a, b);
    NonGetForwardsCredential(Call(tagsDelete.0, tagsDelete.1, tagsDelete.2, Null, Null, Null, None, callAuth), sessionAuth, c);
  }

  /** The mutating operations on snapshots and restores forward the caller's
      credential when one is given, and the session's otherwise. */
  lemma SnapshotMutationsForwardCredential(id: string, a: Value, b: Value, callAuth: Option<Credential>,
                                           sessionAuth: Option<Credential>, c: Credential)
    requires callAuth == Some(c) || (callAuth.None? && sessionAuth == Some(c))
    ensures var (m, url, query) := PrepareTakeSnapshotSave(id, a, b);
      SendsCredential(Call(m, url, Null, query, Null, Null, None, callAuth), sessionAuth, c)
    ensures var (m, url, body) := PrepareSnapshotAdd(id, a, b);
      SendsCredential(Call(m, url, body, Null, Null, Null, None, callAuth), sessionAuth, c)
    ensures var (m, url, body) := PrepareSnapshotUpdate(a, b);
      SendsCredential(Call(m, url, body, Null, Null, Null, None, callAuth), sessionAuth, c)
    ensures var (m, url, query) := PrepareRestoreNode(id);
      SendsCredential(Call(m, url, Null, query, Null, Null, None, callAuth), sessionAuth, c)
    ensures var (m, url, body) := PrepareRestoreItems(a);
      SendsCredential(Call(m, url, body, Null, Null, Null, None, callAuth), sessionAuth, c)
  {
    assert Strings.Upper("POST") == "POST";
    assert Strings.Upper("PUT") == "PUT";
    var save := PrepareTakeSnapshotSave(id, a, b);
    NonGetForwardsCredential(Call(save.0, save.1, Null, save.2, Null, Null, None, callAuth), sessionAuth, c);
    var add := PrepareSnapshotAdd(id, a, b);
    NonGetForwardsCredential(Call(add.0, add.1, add.2, Null, Null, Null, None, callAuth), sessionAuth, c);
    var update := PrepareSnapshotUpdate(a, b);
    NonGetForwardsCredential(Call(update.0, update.1, update.2, Null, Null, Null, None, callAuth), sessionAuth, c);
    var restore := PrepareRestoreNode(id);
    NonGetForwardsCredential(Call(restore.0, restore.1, Null, restore.2, Null, Null, None, callAuth), sessionAuth, c);
    var items := PrepareRestoreItems(a);
    NonGetForwardsCredential(Call(items.0, items.1, items.2, Null, Null, Null, None, callAuth), sessionAuth, c);
  }

  /** `node_add` sends its query dictionary as the query and its body as JSON;
      an empty extra set still yields a body with `name` and `nodeType`, which
      is truthy and therefore sent. */
  lemma NodeAddRouting(parentNodeId: string, name: string, nodeType: string, extra: map<string, Value>,
                       callAuth: Option<Credential>, sessionAuth: Option<Credential>)
    requires nodeType in NODE_TYPES
    ensures var (m, url, query, body) := PrepareNodeAdd(parentNodeId, name, nodeType, extra).value;
      var kw := CallKwargs(Call(m, url, body, query, Null, Null, None, callAuth), sessionAuth);
      "json" in kw && kw["json"] == ValueArg(body) && "params" in kw &&
      kw["params"] == ValueArg(Obj(map["parentNodeId" := Str(parentNodeId)]))
  {
    var (m, url, query, body) := PrepareNodeAdd(parentNodeId, name, nodeType, extra).value;
    assert "name" in body.fields;
    assert "parentNodeId" in query.fields;
  }

  /** `take_snapshot_save` always sends a query with both keys, so a query is
      present even when name and comment are None. */
  lemma TakeSnapshotSaveAlwaysSendsQuery(id: string, name: Value, comment: Value, callAuth: Option<Credential>,
                                         sessionAuth: Option<Credential>)
    ensures var (m, url, query) := PrepareTakeSnapshotSave(id, name, comment);
      var kw := CallKwargs(Call(m, url, Null, query, Null, Null, None, callAuth), sessionAuth);
      "params" in kw && kw["params"] == ValueArg(Pair("name", name, "comment", comment)) && "json" !in kw
  {
    var (m, url, query) := PrepareTakeSnapshotSave(id, name, comment);
    assert "name" in query.fields;
  }
}
