/** The API registry and the request pipeline of util.py: a map from a
    logical key to the descriptor of a DiskStation endpoint, and `request`,
    which resolves a key, builds the GET the transport sends, and classifies
    what comes back. */
module Api {
  import opened Values
  import opened Errors

  /** Where and how to call one API: its wire name, version and path. */
  datatype Descriptor = Descriptor(name: string, version: int, path: string)

  /** A decoded response body: the envelope `{success, data, error}`, with
      `data` present when `success` is true and `error.code` when it is
      false. */
  datatype Envelope = Succeeded(data: Json) | Failed(code: int)

  /** What the transport and the JSON decoder hand back for one GET. */
  datatype Response =
    | ConnectionError       // requests.exceptions.ConnectionError
    | Undecodable           // json.decoder.JSONDecodeError
    | Body(envelope: Envelope)

  /** One HTTP GET: the URL, the query parameters before URL encoding, and
      the cookies. */
  datatype Get = Get(url: string, query: map<string, Param>, cookies: map<string, string>)

  /** How one call to `request` ends: the key had no descriptor (Python
      raises AttributeError before anything is sent), the envelope is handed
      back to the caller, or the process exits after printing. */
  datatype Outcome =
    | UnknownApi
    | Returned(envelope: Envelope, printed: seq<string>)
    | Terminated(printed: seq<string>)

  const InfoKey := "info"
  const InfoDescriptor := Descriptor("SYNO.API.Info", 1, "query.cgi")

  /** The descriptor that `update` reads out of an API-info response for
      `apiName`: `response['data'][apiName]['maxVersion']` and `['path']`.
      None where Python would raise (a failed envelope has no `data`, the
      name is missing, or the entry is not an object with both keys), and
      also where the version is not an integer or the path not a string,
      values that Python would register as they are. */
  function CatalogEntry(response: Envelope, apiName: string): (d: Option<Descriptor>)
    ensures d.Some? ==> d.value.name == apiName
    ensures d.Some? ==> response.Succeeded?
    ensures d.Some? <==>
      response.Succeeded? &&
      Field(response.data, apiName).Some? &&
      Field(Field(response.data, apiName).value, "maxVersion").Some? &&
      Field(Field(response.data, apiName).value, "maxVersion").value.JInt? &&
      Field(Field(response.data, apiName).value, "path").Some? &&
      Field(Field(response.data, apiName).value, "path").value.JStr?
  {
    if response.Failed? then None
    else
      match Field(response.data, apiName)
      case None => None
      case Some(entry) =>
        match (Field(entry, "maxVersion"), Field(entry, "path"))
        case (Some(JInt(v)), Some(JStr(p))) => Some(Descriptor(apiName, v, p))
        case _ => None
  }

  /** The query `request` builds before the caller's parameters are merged
      in. */
  function BaseQuery(d: Descriptor, methodName: string): map<string, Param>
  {
    map["api" := PStr(d.name), "version" := PInt(d.version), "method" := PStr(methodName)]
  }

  /** What `request` does with the transport's answer (util.py:61-81). */
  function Classify(api: string, response: Response): (o: Outcome)
    ensures !o.UnknownApi?
    ensures o.Terminated? <==>
      !response.Body? || (response.envelope.Failed? && (api == "auth" || api == "dsTask"))
    ensures o.Returned? ==> o.envelope == response.envelope
    ensures response == ConnectionError ==> o == Terminated(["Could not connect to provided address"])
    ensures response == Undecodable ==> o == Terminated(["Invalid request URL"])
    ensures response.Body? && response.envelope.Succeeded? ==> o == Returned(response.envelope, [])
    ensures response.Body? && response.envelope.Failed? ==>
      var generic := HandleError(response.envelope.code, api).messages;
      |generic| <= |o.printed| && o.printed[..|generic|] == generic
  {
    match response
    case ConnectionError => Terminated(["Could not connect to provided address"])
    case Undecodable => Terminated(["Invalid request URL"])
    case Body(envelope) =>
      match envelope
      case Succeeded(_) => Returned(envelope, [])
      case Failed(code) =>
        var generic := HandleError(code, api).messages;
        if api == "auth" then Terminated(generic + HandleAuthError(code).messages)
        else if api == "dsTask" then Terminated(generic + HandleDsTaskError(code).messages)
        else Returned(envelope, generic)
  }

  /** The module-level `apis` dictionary of util.py, as an object whose map
      `update` changes in place. */
  class Registry {
    var apis: map<string, Descriptor>

    /** At start-up only the bootstrap `info` entry is known. */
    constructor ()
      ensures apis == map[InfoKey := InfoDescriptor]
    {
      apis := map[InfoKey := InfoDescriptor];
    }

    /** `update(api, response, api_name)`: registers under `api` the
      descriptor the info response gives for `api_name`, replacing any old
      entry for `api` and leaving every other key alone.  `ok` is false where
      Python would raise instead, and then nothing changes. */
    method Update(api: string, response: Envelope, apiName: string) returns (ok: bool)
      modifies this
      ensures ok <==> CatalogEntry(response, apiName).Some?
      ensures ok ==> apis == old(apis)[api := CatalogEntry(response, apiName).value]
      ensures ok ==> apis.Keys == old(apis).Keys + {api}
      ensures ok ==> apis[api] == CatalogEntry(response, apiName).value
      ensures ok ==> apis[api].name == apiName
      ensures forall k :: k in old(apis) && k != api ==> k in apis && apis[k] == old(apis)[k]
      ensures !ok ==> apis == old(apis)
    {
      var entry := CatalogEntry(response, apiName);
      ok := entry.Some?;
      if ok {
        apis := apis[api := entry.value];
      }
    }

    /** The GET `request` sends for `api` (util.py:48-59), or None when the
      key was never registered.  Caller-supplied parameters override the
      reserved `api`, `version` and `method` entries on a collision. */
    function Prepare(address: string, api: string, methodName: string,
                     params: map<string, Param>, cookies: map<string, string>): (g: Option<Get>)
      reads this
      ensures g.None? <==> api !in apis
      ensures g.Some? ==> g.value.url == "http://" + address + "/webapi/" + apis[api].path
      ensures g.Some? ==> g.value.cookies == cookies
      ensures g.Some? ==> g.value.query.Keys == {"api", "version", "method"} + params.Keys
      ensures g.Some? ==> forall k :: k in params ==> g.value.query[k] == params[k]
      ensures g.Some? && "api" !in params ==> g.value.query["api"] == PStr(apis[api].name)
      ensures g.Some? && "version" !in params ==> g.value.query["version"] == PInt(apis[api].version)
      ensures g.Some? && "method" !in params ==> g.value.query["method"] == PStr(methodName)
    {
      if api !in apis then None
      else
        var d := apis[api];
        Some(Get("http://" + address + "/webapi/" + d.path, BaseQuery(d, methodName) + params, cookies))
    }

    /** `request(address, api, method, params, cookies)`, with the network
      and the JSON decoder given as `transport`. */
    function Request(address: string, api: string, methodName: string,
                     params: map<string, Param>, cookies: map<string, string>,
                     transport: Get -> Response): (o: Outcome)
      reads this
      ensures o.UnknownApi? <==> api !in apis
      ensures api in apis ==>
        o == Classify(api, transport(Prepare(address, api, methodName, params, cookies).value))
    {
      match Prepare(address, api, methodName, params, cookies)
      case None => UnknownApi
      case Some(g) => Classify(api, transport(g))
    }
  }

  /** A key that was never registered fails at the descriptor lookup: the
      outcome is the same whatever the transport would have answered, so no
      request reaches it. */
  lemma UnregisteredFailsBeforeTransport(r: Registry, address: string, api: string, methodName: string,
                                         params: map<string, Param>, cookies: map<string, string>,
                                         t1: Get -> Response, t2: Get -> Response)
    requires api !in r.apis
    ensures r.Request(address, api, methodName, params, cookies, t1) == UnknownApi
    ensures r.Request(address, api, methodName, params, cookies, t1) ==
            r.Request(address, api, methodName, params, cookies, t2)
  {
  }

  /** Errors reported for any key but `auth` and `dsTask` — `info` and
      `dsInfo` among them — do not end the process: the failed envelope is
      handed back. */
  lemma FailuresReturnedExceptAuthAndTask(api: string, code: int)
    requires api != "auth" && api != "dsTask"
    ensures Classify(api, Body(Failed(code))) == Returned(Failed(code), HandleError(code, api).messages)
  {
  }

  /** A failed `auth` or `dsTask` call prints the generic lines, then the
      API's own line, then exits. */
  lemma AuthAndTaskFailuresTerminate(code: int)
    ensures Classify("auth", Body(Failed(code))) ==
      Terminated(HandleError(code, "auth").messages + HandleAuthError(code).messages)
    ensures Classify("dsTask", Body(Failed(code))) ==
      Terminated(HandleError(code, "dsTask").messages + HandleDsTaskError(code).messages)
  {
  }
}
