/** The state-API head module of the dashboard: the registry of per-node stubs driven by
    membership changes, the translation of list requests into options, the uniform reply
    envelope of the list routes, and the log routes (node resolution and the streamed body). */
module StateHead {
  import opened Faults
  import opened Text

  type NodeId = string

  // ---------------------------------------------------------------------------------------
  // Requests

  /** An HTTP request reduced to what the handlers read: the query string as an ordered
      multi-map (a key may repeat) and the match info of the route's path. */
  datatype Request = Request(query: seq<(string, string)>, matchInfo: map<string, string>)

  /** `req.query.get(key)`: the first value given for `key`, if any. */
  function QueryGet(query: seq<(string, string)>, key: string): Option<string> {
    if query == [] then None
    else if query[0].0 == key then Some(query[0].1)
    else QueryGet(query[1..], key)
  }

  /** `req.query.getall(key, [])`: every value given for `key`, in order. */
  function QueryGetAll(query: seq<(string, string)>, key: string): seq<string> {
    if query == [] then []
    else (if query[0].0 == key then [query[0].1] else []) + QueryGetAll(query[1..], key)
  }

  /** Python's `int(v)` applied to a query value that may be missing (`None`). */
  function PyInt(v: Option<string>): (r: Raises<int>)
    ensures r.Returned? <==> v.Some? && ParseInt(v.value).Some?
    ensures r.Returned? ==> r.value == ParseInt(v.value).value
    ensures v.None? ==> r.Raised? && r.fault.TypeError?
    ensures v.Some? && ParseInt(v.value).None? ==> r.Raised? && r.fault.ValueError?
  {
    match v
    case None =>
      Raised(TypeError("int() argument must be a string, a bytes-like object or a number, not 'NoneType'"))
    case Some(s) =>
      match ParseInt(s)
      case Some(n) => Returned(n)
      case None => Raised(ValueError("invalid literal for int() with base 10: " + ReprStr(s)))
  }

  /** Python's `zip`: pairs up two lists and stops at the shorter one. */
  function Zip<A, B>(xs: seq<A>, ys: seq<B>): (r: seq<(A, B)>)
    ensures |r| == if |xs| <= |ys| then |xs| else |ys|
    ensures forall i :: 0 <= i < |r| ==> r[i] == (xs[i], ys[i])
  {
    if xs == [] || ys == [] then [] else [(xs[0], ys[0])] + Zip(xs[1..], ys[1..])
  }

  // ---------------------------------------------------------------------------------------
  // List options

  datatype ListApiOptions = ListApiOptions(limit: int, timeout: int, filters: seq<(string, string)>)

  /** `_options_from_req`: `limit` and `timeout` are read as integers (in that order), then
      the repeated `filter_keys` and `filter_values` are asserted to be equally many and are
      paired up in order. */
  function OptionsFromReq(req: Request): (r: Raises<ListApiOptions>)
    ensures
      var limit := PyInt(QueryGet(req.query, "limit"));
      var timeout := PyInt(QueryGet(req.query, "timeout"));
      var keys := QueryGetAll(req.query, "filter_keys");
      var values := QueryGetAll(req.query, "filter_values");
      && (r.Returned? <==> limit.Returned? && timeout.Returned? && |keys| == |values|)
      && (limit.Raised? ==> r == Raised(limit.fault))
      && (limit.Returned? && timeout.Raised? ==> r == Raised(timeout.fault))
      && (limit.Returned? && timeout.Returned? && |keys| != |values| ==> r == Raised(AssertionError))
      && (r.Returned? ==>
            && r.value.limit == limit.value
            && r.value.timeout == timeout.value
            && |r.value.filters| == |keys|
            && (forall i :: 0 <= i < |keys| ==> r.value.filters[i] == (keys[i], values[i])))
  {
    match PyInt(QueryGet(req.query, "limit"))
    case Raised(e) => Raised(e)
    case Returned(limit) =>
      match PyInt(QueryGet(req.query, "timeout"))
      case Raised(e) => Raised(e)
      case Returned(timeout) =>
        var keys := QueryGetAll(req.query, "filter_keys");
        var values := QueryGetAll(req.query, "filter_values");
        if |keys| != |values| then Raised(AssertionError)
        else Returned(ListApiOptions(limit, timeout, Zip(keys, values)))
  }

  /** The query a client writes for the given options: `limit`, `timeout`, then every
      filter key, then every filter value. */
  function EncodeListOptions(o: ListApiOptions): seq<(string, string)> {
    [("limit", IntToString(o.limit)), ("timeout", IntToString(o.timeout))]
    + Params("filter_keys", Firsts(o.filters))
    + Params("filter_values", Seconds(o.filters))
  }

  function Params(key: string, values: seq<string>): (r: seq<(string, string)>)
    ensures |r| == |values|
    ensures forall i :: 0 <= i < |r| ==> r[i] == (key, values[i])
  {
    if values == [] then [] else [(key, values[0])] + Params(key, values[1..])
  }

  function Firsts(ps: seq<(string, string)>): (r: seq<string>)
    ensures |r| == |ps| && forall i :: 0 <= i < |ps| ==> r[i] == ps[i].0
  {
    if ps == [] then [] else [ps[0].0] + Firsts(ps[1..])
  }

  function Seconds(ps: seq<(string, string)>): (r: seq<string>)
    ensures |r| == |ps| && forall i :: 0 <= i < |ps| ==> r[i] == ps[i].1
  {
    if ps == [] then [] else [ps[0].1] + Seconds(ps[1..])
  }

  lemma {:induction false} QueryGetAllAppend(q1: seq<(string, string)>, q2: seq<(string, string)>, key: string)
    ensures QueryGetAll(q1 + q2, key) == QueryGetAll(q1, key) + QueryGetAll(q2, key)
  {
    if q1 != [] {
      assert (q1 + q2)[0] == q1[0];
      assert (q1 + q2)[1..] == q1[1..] + q2;
      QueryGetAllAppend(q1[1..], q2, key);
    } else {
      assert q1 + q2 == q2;
    }
  }

  lemma {:induction false} QueryGetAllParams(key: string, other: string, values: seq<string>)
    ensures QueryGetAll(Params(key, values), key) == values
    ensures other != key ==> QueryGetAll(Params(key, values), other) == []
  {
    if values != [] {
      assert Params(key, values)[1..] == Params(key, values[1..]);
      QueryGetAllParams(key, other, values[1..]);
    }
  }

  /** Parsing the query a client writes for some options gives back exactly those options. */
  lemma OptionsFromReqOfEncoding(o: ListApiOptions, matchInfo: map<string, string>)
    ensures OptionsFromReq(Request(EncodeListOptions(o), matchInfo)) == Returned(o)
  {
    var head := [("limit", IntToString(o.limit)), ("timeout", IntToString(o.timeout))];
    var ks := Params("filter_keys", Firsts(o.filters));
    var vs := Params("filter_values", Seconds(o.filters));
    var q := EncodeListOptions(o);
    assert q == head + ks + vs;
    ParseIntOfIntToString(o.limit);
    ParseIntOfIntToString(o.timeout);
    assert QueryGet(q, "limit") == Some(IntToString(o.limit));
    assert q[1..][0] == ("timeout", IntToString(o.timeout));
    assert QueryGet(q, "timeout") == Some(IntToString(o.timeout));
    QueryGetAllAppend(head + ks, vs, "filter_keys");
    QueryGetAllAppend(head, ks, "filter_keys");
    QueryGetAllAppend(head + ks, vs, "filter_values");
    QueryGetAllAppend(head, ks, "filter_values");
    QueryGetAllParams("filter_keys", "filter_values", Firsts(o.filters));
    QueryGetAllParams("filter_values", "filter_keys", Seconds(o.filters));
    assert QueryGetAll(head, "filter_keys") == [] by {
      assert head[1..][1..] == [];
    }
    assert QueryGetAll(head, "filter_values") == [] by {
      assert head[1..][1..] == [];
    }
    var r := OptionsFromReq(Request(q, matchInfo));
    assert r.Returned?;
    assert r.value.filters == o.filters;
  }

  // ---------------------------------------------------------------------------------------
  // Node-stub registry

  datatype Endpoint = Endpoint(address: string, port: int)

  /** A change of one data-source entry: `oldEntry` is the entry before, `newEntry` the one after;
      both are present when a node id is overwritten by a new node. */
  datatype Change<Info> = Change(oldEntry: Option<(NodeId, Info)>, newEntry: Option<(NodeId, Info)>)

  /** The fields of a node's record in the node table, as text. */
  type NodeInfo = map<string, string>

  /** The agent record of a node: its ports, the second being the gRPC port. */
  type AgentPorts = seq<string>

  /** `d[key]` on a dict keyed by strings. */
  function DictGet(d: map<string, string>, key: string): (r: Raises<string>)
    ensures r.Returned? <==> key in d
    ensures r.Returned? ==> r.value == d[key]
  {
    if key in d then Returned(d[key]) else Raised(KeyError(ReprStr(key)))
  }

  /** The raylet endpoint registered for a node record: its manager address and its
      manager port converted to an integer. */
  function RayletEndpoint(info: NodeInfo): (r: Raises<Endpoint>)
    ensures r.Returned? <==>
      "nodeManagerAddress" in info && "nodeManagerPort" in info && ParseInt(info["nodeManagerPort"]).Some?
    ensures r.Returned? ==>
      r.value == Endpoint(info["nodeManagerAddress"], ParseInt(info["nodeManagerPort"]).value)
  {
    match DictGet(info, "nodeManagerAddress")
    case Raised(e) => Raised(e)
    case Returned(address) =>
      match DictGet(info, "nodeManagerPort")
      case Raised(e) => Raised(e)
      case Returned(port) =>
        match PyInt(Some(port))
        case Raised(e) => Raised(e)
        case Returned(p) => Returned(Endpoint(address, p))
  }

  /** The agent endpoint registered for a node: the node's ip, looked up in the node
      directory first, and its second port converted to an integer. */
  function AgentEndpoint(nodeId: NodeId, ports: AgentPorts, nodeIdToIp: map<NodeId, string>): (r: Raises<Endpoint>)
    ensures nodeId !in nodeIdToIp ==> r == Raised(KeyError(ReprStr(nodeId)))
    ensures r.Returned? <==> nodeId in nodeIdToIp && |ports| >= 2 && ParseInt(ports[1]).Some?
    ensures r.Returned? ==> r.value == Endpoint(nodeIdToIp[nodeId], ParseInt(ports[1]).value)
  {
    if nodeId !in nodeIdToIp then Raised(KeyError(ReprStr(nodeId)))
    else if |ports| < 2 then Raised(IndexError("list index out of range"))
    else
      match PyInt(Some(ports[1]))
      case Raised(e) => Raised(e)
      case Returned(p) => Returned(Endpoint(nodeIdToIp[nodeId], p))
  }

  /** The stubs after a change and whether registering the new entry raised. */
  datatype Update = Update(stubs: map<NodeId, Endpoint>, outcome: Raises<()>)

  function OldIds<Info>(change: Change<Info>): set<NodeId> {
    if change.oldEntry.Some? then {change.oldEntry.value.0} else {}
  }

  function ChangedIds<Info>(change: Change<Info>): set<NodeId> {
    OldIds(change) + if change.newEntry.Some? then {change.newEntry.value.0} else {}
  }

  /** One change applied to one stub map: the old entry's id is unregistered first, then the
      new entry's endpoint is computed and registered. */
  function ApplyChange<Info>(stubs: map<NodeId, Endpoint>, change: Change<Info>,
                             endpoint: (NodeId, Info) -> Raises<Endpoint>): (r: Update)
    // ids the change does not name keep their entries
    ensures r.stubs - ChangedIds(change) == stubs - ChangedIds(change)
    // without a new entry nothing can fail, and the old id is gone
    ensures change.newEntry.None? ==> r.outcome == Returned(()) && r.stubs == stubs - OldIds(change)
    ensures change.newEntry.Some? ==>
      var (id, info) := change.newEntry.value;
      match endpoint(id, info)
      case Returned(ep) =>
        // exactly the new endpoint is registered for the new id, the old id is gone otherwise
        && r.outcome == Returned(())
        && id in r.stubs && r.stubs[id] == ep
        && (forall gone :: gone in OldIds(change) && gone != id ==> gone !in r.stubs)
      case Raised(e) =>
        // registration failed after the old entry was already removed
        && r.outcome == Raised(e)
        && r.stubs == stubs - OldIds(change)
  {
    var removed := if change.oldEntry.Some? then stubs - {change.oldEntry.value.0} else stubs;
    if change.newEntry.None? then Update(removed, Returned(()))
    else
      var (id, info) := change.newEntry.value;
      match endpoint(id, info)
      case Raised(e) => Update(removed, Raised(e))
      case Returned(ep) => Update(removed[id := ep], Returned(()))
  }

  function RayletEndpointOf(nodeId: NodeId, info: NodeInfo): Raises<Endpoint> {
    RayletEndpoint(info)
  }

  /** `_update_raylet_stubs` on the raylet stubs. */
  function RayletStubsAfter(stubs: map<NodeId, Endpoint>, change: Change<NodeInfo>): (r: Update)
    ensures change.newEntry.None? ==> r == Update(stubs - OldIds(change), Returned(()))
    ensures change.newEntry.Some? ==>
      var ep := RayletEndpoint(change.newEntry.value.1);
      && (ep.Returned? ==> r == Update((stubs - OldIds(change))[change.newEntry.value.0 := ep.value], Returned(())))
      && (ep.Raised? ==> r == Update(stubs - OldIds(change), Raised(ep.fault)))
  {
    ApplyChange(stubs, change, RayletEndpointOf)
  }

  /** `_update_agent_stubs` on the agent stubs, given the node directory's ips. */
  function AgentStubsAfter(stubs: map<NodeId, Endpoint>, change: Change<AgentPorts>,
                           nodeIdToIp: map<NodeId, string>): (r: Update)
    ensures change.newEntry.None? ==> r == Update(stubs - OldIds(change), Returned(()))
    ensures change.newEntry.Some? ==>
      var (id, ports) := change.newEntry.value;
      var ep := AgentEndpoint(id, ports, nodeIdToIp);
      && (ep.Returned? ==> r == Update((stubs - OldIds(change))[id := ep.value], Returned(())))
      && (ep.Raised? ==> r == Update(stubs - OldIds(change), Raised(ep.fault)))
  {
    ApplyChange(stubs, change, (id, ports) => AgentEndpoint(id, ports, nodeIdToIp))
  }

  /** An overwrite (the same id in `old` and `new`) leaves exactly the new endpoint for that
      id, and the map keeps its other entries and its size. */
  lemma RayletOverwrite(stubs: map<NodeId, Endpoint>, id: NodeId, oldInfo: NodeInfo, newInfo: NodeInfo)
    requires id in stubs
    requires RayletEndpoint(newInfo).Returned?
    ensures
      var r := RayletStubsAfter(stubs, Change(Some((id, oldInfo)), Some((id, newInfo))));
      && r.stubs == stubs[id := RayletEndpoint(newInfo).value]
      && |r.stubs| == |stubs|
  {
    var r := RayletStubsAfter(stubs, Change(Some((id, oldInfo)), Some((id, newInfo))));
    var expected := stubs[id := RayletEndpoint(newInfo).value];
    assert ChangedIds(Change(Some((id, oldInfo)), Some((id, newInfo)))) == {id};
    assert r.stubs.Keys == expected.Keys by {
      forall k | k != id ensures k in r.stubs <==> k in stubs {
        assert k in r.stubs - {id} <==> k in stubs - {id};
      }
    }
    forall k | k in expected ensures r.stubs[k] == expected[k] {
      if k != id {
        assert (r.stubs - {id})[k] == (stubs - {id})[k];
      }
    }
    assert stubs.Keys == expected.Keys;
  }

  /** Removing a node is idempotent: replaying the removal changes nothing more, and the
      removal of an id that is not registered leaves the map as it is. */
  lemma RemovalIdempotent<Info>(stubs: map<NodeId, Endpoint>, id: NodeId, info: Info,
                                endpoint: (NodeId, Info) -> Raises<Endpoint>)
    ensures
      var once := ApplyChange(stubs, Change(Some((id, info)), None), endpoint);
      && id !in once.stubs
      && ApplyChange(once.stubs, Change(Some((id, info)), None), endpoint) == once
      && (id !in stubs ==> once.stubs == stubs)
  {
  }

  /** The client that holds the stubs of every node's raylet and agent; only its registry is
      modelled, by one map per kind of endpoint. */
  class StateDataSourceClient {
    var rayletStubs: map<NodeId, Endpoint>
    var agentStubs: map<NodeId, Endpoint>

    constructor ()
      ensures rayletStubs == map[] && agentStubs == map[]
    {
      rayletStubs := map[];
      agentStubs := map[];
    }

    method RegisterRayletClient(nodeId: NodeId, address: string, port: int)
      modifies this
      ensures rayletStubs == old(rayletStubs)[nodeId := Endpoint(address, port)]
      ensures agentStubs == old(agentStubs)
    {
      rayletStubs := rayletStubs[nodeId := Endpoint(address, port)];
    }

    method UnregisterRayletClient(nodeId: NodeId)
      modifies this
      ensures rayletStubs == old(rayletStubs) - {nodeId}
      ensures agentStubs == old(agentStubs)
    {
      rayletStubs := rayletStubs - {nodeId};
    }

    method RegisterAgentClient(nodeId: NodeId, address: string, port: int)
      modifies this
      ensures agentStubs == old(agentStubs)[nodeId := Endpoint(address, port)]
      ensures rayletStubs == old(rayletStubs)
    {
      agentStubs := agentStubs[nodeId := Endpoint(address, port)];
    }

    method UnregisterAgentClient(nodeId: NodeId)
      modifies this
      ensures agentStubs == old(agentStubs) - {nodeId}
      ensures rayletStubs == old(rayletStubs)
    {
      agentStubs := agentStubs - {nodeId};
    }
  }

  /** The head module, as it stands once it runs: it owns the data-source client. */
  class StateHeadModule {
    const client: StateDataSourceClient

    constructor (client: StateDataSourceClient)
      ensures this.client == client
    {
      this.client := client;
    }

    /** `_update_raylet_stubs`: unregister the old node, then register the new one. */
    method UpdateRayletStubs(change: Change<NodeInfo>) returns (outcome: Raises<()>)
      modifies client
      ensures client.rayletStubs == RayletStubsAfter(old(client.rayletStubs), change).stubs
      ensures outcome == RayletStubsAfter(old(client.rayletStubs), change).outcome
      ensures client.agentStubs == old(client.agentStubs)
    {
      if change.oldEntry.Some? {
        var (nodeId, _) := change.oldEntry.value;
        client.UnregisterRayletClient(nodeId);
      }
      outcome := Returned(());
      if change.newEntry.Some? {
        var (nodeId, nodeInfo) := change.newEntry.value;
        var endpoint := RayletEndpoint(nodeInfo);
        match endpoint {
          case Raised(e) =>
            outcome := Raised(e);
          case Returned(ep) =>
            client.RegisterRayletClient(nodeId, ep.address, ep.port);
        }
      }
    }

    /** `_update_agent_stubs`: unregister the old node, then look up the new node's ip and
        register its agent; the raylet stubs are never touched. */
    method UpdateAgentStubs(change: Change<AgentPorts>, nodeIdToIp: map<NodeId, string>)
      returns (outcome: Raises<()>)
      modifies client
      ensures client.agentStubs == AgentStubsAfter(old(client.agentStubs), change, nodeIdToIp).stubs
      ensures outcome == AgentStubsAfter(old(client.agentStubs), change, nodeIdToIp).outcome
      ensures client.rayletStubs == old(client.rayletStubs)
    {
      if change.oldEntry.Some? {
        var (nodeId, _) := change.oldEntry.value;
        client.UnregisterAgentClient(nodeId);
      }
      outcome := Returned(());
      if change.newEntry.Some? {
        var (nodeId, ports) := change.newEntry.value;
        var endpoint := AgentEndpoint(nodeId, ports, nodeIdToIp);
        match endpoint {
          case Raised(e) =>
            outcome := Raised(e);
          case Returned(ep) =>
            client.RegisterAgentClient(nodeId, ep.address, ep.port);
        }
      }
    }
  }

  // ---------------------------------------------------------------------------------------
  // List routes

  /** The reply envelope: `success`, `message`, `result` and the partial-failure warning
      (`None` both for a null warning and for a reply without one). */
  datatype Reply<T> = Reply(success: bool, message: string, result: Option<T>, partialFailureWarning: Option<string>)

  /** What an aggregation collaborator returns: its result and a warning naming the nodes
      it could not reach, if any. */
  datatype ListApiResponse<T> = ListApiResponse(result: T, partialFailureWarning: Option<string>)

  /** The failure envelope of a data source that is unavailable. */
  function Unavailable<T>(e: Fault): Reply<T> {
    Reply(false, Str(e), None, None)
  }

  /** `_handle_list_api`: translate the options, call the collaborator and put its result in
      the envelope; only DataSourceUnavailable is caught. */
  function HandleListApi<T>(listApi: ListApiOptions -> Raises<ListApiResponse<T>>, req: Request): (r: Raises<Reply<T>>)
    // a request whose options do not parse is not answered: its fault propagates
    ensures OptionsFromReq(req).Raised? ==> r == Raised(OptionsFromReq(req).fault)
    ensures OptionsFromReq(req).Returned? ==>
      var call := listApi(OptionsFromReq(req).value);
      // success exactly when the collaborator returned, with its result and warning verbatim
      && (r.Returned? && r.value.success <==> call.Returned?)
      && (call.Returned? ==>
            r == Returned(Reply(true, "", Some(call.value.result), call.value.partialFailureWarning)))
      // an unavailable data source becomes a failure envelope with the fault's text
      && (call.Raised? && call.fault.DataSourceUnavailable? ==>
            r == Returned(Reply(false, call.fault.msg, None, None)))
      // every other fault propagates
      && (call.Raised? && !call.fault.DataSourceUnavailable? ==> r == Raised(call.fault))
  {
    match OptionsFromReq(req)
    case Raised(e) => Raised(e)
    case Returned(options) =>
      match listApi(options)
      case Returned(response) =>
        Returned(Reply(true, "", Some(response.result), response.partialFailureWarning))
      case Raised(e) =>
        if e.DataSourceUnavailable? then Returned(Unavailable(e)) else Raised(e)
  }

  /** The options translation never raises DataSourceUnavailable, so a malformed request is
      never turned into a failure envelope by the list routes. */
  lemma OptionsFaultIsNotCaught(req: Request)
    ensures OptionsFromReq(req).Raised? ==> !OptionsFromReq(req).fault.DataSourceUnavailable?
  {
  }

  /** `{job_id: dataclasses.asdict(job_info) for job_id, job_info in jobs.items()}`. */
  function AsDicts<J, D>(jobs: map<string, J>, asDict: J -> D): (r: map<string, D>)
    ensures r.Keys == jobs.Keys
    ensures forall id :: id in jobs ==> r[id] == asDict(jobs[id])
  {
    map id | id in jobs :: asDict(jobs[id])
  }

  /** `list_jobs`: the same envelope, with each job record turned into a plain dict. */
  function ListJobs<J, D>(listJobs: ListApiOptions -> Raises<ListApiResponse<map<string, J>>>,
                          asDict: J -> D, req: Request): (r: Raises<Reply<map<string, D>>>)
    ensures OptionsFromReq(req).Raised? ==> r == Raised(OptionsFromReq(req).fault)
    ensures OptionsFromReq(req).Returned? ==>
      var call := listJobs(OptionsFromReq(req).value);
      && (call.Returned? <==> r.Returned? && r.value.success)
      && (call.Returned? ==>
            && r.value.message == "" && r.value.partialFailureWarning == call.value.partialFailureWarning
            && r.value.result.Some? && r.value.result.value.Keys == call.value.result.Keys
            && forall id :: id in call.value.result ==> r.value.result.value[id] == asDict(call.value.result[id]))
      && (call.Raised? && call.fault.DataSourceUnavailable? ==>
            r == Returned(Reply(false, Str(call.fault), None, None)))
      && (call.Raised? && !call.fault.DataSourceUnavailable? ==> r == Raised(call.fault))
  {
    match OptionsFromReq(req)
    case Raised(e) => Raised(e)
    case Returned(options) =>
      match listJobs(options)
      case Returned(response) =>
        Returned(Reply(true, "", Some(AsDicts(response.result, asDict)), response.partialFailureWarning))
      case Raised(e) =>
        if e.DataSourceUnavailable? then Returned(Unavailable(e)) else Raised(e)
  }

  /** Changes only the result of a returned envelope. */
  function MapReply<T, U>(r: Raises<Reply<T>>, f: T -> U): Raises<Reply<U>> {
    match r
    case Raised(e) => Raised(e)
    case Returned(Reply(success, message, result, warning)) =>
      Returned(Reply(success, message, if result.Some? then Some(f(result.value)) else None, warning))
  }

  /** `list_jobs` answers as the generic list route does, except that its result holds
      exactly the collaborator's job ids, each with its record as a dict. */
  lemma ListJobsIsReshapedListApi<J, D>(listJobs: ListApiOptions -> Raises<ListApiResponse<map<string, J>>>,
                                        asDict: J -> D, req: Request)
    ensures ListJobs(listJobs, asDict, req) == MapReply(HandleListApi(listJobs, req), jobs => AsDicts(jobs, asDict))
    ensures
      var r := ListJobs(listJobs, asDict, req);
      r.Returned? && r.value.success ==>
        var jobs := listJobs(OptionsFromReq(req).value).value.result;
        && r.value.result.Some?
        && r.value.result.value.Keys == jobs.Keys
        && forall id :: id in jobs ==> r.value.result.value[id] == asDict(jobs[id])
  {
  }

  // ---------------------------------------------------------------------------------------
  // Log routes

  /** `DEFAULT_RPC_TIMEOUT` of the state API, in seconds. */
  const DEFAULT_RPC_TIMEOUT: int := 30

  /** The default number of lines of a log request. */
  const DEFAULT_LOG_LINES: int := 1000

  /** A query value passed on without conversion: the text given, or the handler's default. */
  datatype QueryValue = Text(text: string) | Number(n: int)

  function QueryGetOr(query: seq<(string, string)>, key: string, default: QueryValue): (r: QueryValue)
    ensures QueryGet(query, key).None? ==> r == default
    ensures QueryGet(query, key).Some? ==> r == Text(QueryGet(query, key).value)
  {
    match QueryGet(query, key)
    case Some(s) => Text(s)
    case None => default
  }

  /** Python truthiness of an optional string: present and not empty. */
  predicate Truthy(v: Option<string>) {
    v.Some? && v.value != ""
  }

  const NO_NODE_MESSAGE: string :=
    "Both node id and node ip are not provided. Please provide at least one of them."

  function NoMatchingNodeMessage(nodeIp: Option<string>): string {
    "Cannot find matching node_id for a given node ip " + (if nodeIp.Some? then nodeIp.value else "None")
  }

  /** `list_logs`: resolve the node from its id, or else from its ip, and list the files on it
      that match `glob`. The collaborators are the ip-to-node-id lookup and the log listing. */
  function ListLogs<T>(req: Request, ipToNodeId: string -> Option<string>,
                       listLogs: (NodeId, QueryValue, string) -> Raises<T>): (r: Raises<Reply<T>>)
    ensures
      var nodeId := QueryGet(req.query, "node_id");
      var nodeIp := QueryGet(req.query, "node_ip");
      && (!Truthy(nodeId) && !Truthy(nodeIp) ==> r == Returned(Reply(false, NO_NODE_MESSAGE, None, None)))
      && (!Truthy(nodeId) && Truthy(nodeIp) && !Truthy(ipToNodeId(nodeIp.value)) ==>
            r == Returned(Reply(false, NoMatchingNodeMessage(nodeIp), None, None)))
      && (r.Returned? && r.value.success ==>
            exists id :: ListLogsCalled(req, ipToNodeId, id) && listLogs(id, LogTimeout(req), LogGlob(req)).Returned?)
  {
    var globFilter := LogGlob(req);
    var nodeId := QueryGet(req.query, "node_id");
    var nodeIp := QueryGet(req.query, "node_ip");
    var timeout := LogTimeout(req);
    if !Truthy(nodeId) && !Truthy(nodeIp) then
      Returned(Reply(false, NO_NODE_MESSAGE, None, None))
    else
      var resolved := if Truthy(nodeId) then nodeId else ipToNodeId(nodeIp.value);
      if !Truthy(resolved) then
        Returned(Reply(false, NoMatchingNodeMessage(nodeIp), None, None))
      else
        match listLogs(resolved.value, timeout, globFilter)
        case Raised(e) =>
          if e.DataSourceUnavailable? then Returned(Unavailable(e)) else Raised(e)
        case Returned(result) =>
          Returned(Reply(true, "", Some(result), None))
  }

  /** The `glob` of a log listing, `"*"` by default. */
  function LogGlob(req: Request): (g: string)
    ensures QueryGet(req.query, "glob").None? ==> g == "*"
    ensures QueryGet(req.query, "glob").Some? ==> g == QueryGet(req.query, "glob").value
  {
    match QueryGet(req.query, "glob")
    case Some(g) => g
    case None => "*"
  }

  /** The `timeout` of a log request, passed on as given, `DEFAULT_RPC_TIMEOUT` by default. */
  function LogTimeout(req: Request): (t: QueryValue)
    ensures QueryGet(req.query, "timeout").None? ==> t == Number(DEFAULT_RPC_TIMEOUT)
    ensures QueryGet(req.query, "timeout").Some? ==> t == Text(QueryGet(req.query, "timeout").value)
  {
    QueryGetOr(req.query, "timeout", Number(DEFAULT_RPC_TIMEOUT))
  }

  /** The node id `list_logs` lists the logs of: the given id when there is one, else the id
      the given ip resolves to. */
  ghost predicate ListLogsCalled(req: Request, ipToNodeId: string -> Option<string>, id: NodeId) {
    var nodeId := QueryGet(req.query, "node_id");
    var nodeIp := QueryGet(req.query, "node_ip");
    if Truthy(nodeId) then id == nodeId.value
    else Truthy(nodeIp) && ipToNodeId(nodeIp.value) == Some(id) && id != ""
  }

  /** A given node id wins: the ip lookup is not consulted, and the listing is asked for that
      id with the request's timeout and glob. */
  lemma ListLogsIdWins<T>(req: Request, lookup1: string -> Option<string>, lookup2: string -> Option<string>,
                          listLogs: (NodeId, QueryValue, string) -> Raises<T>)
    requires Truthy(QueryGet(req.query, "node_id"))
    ensures ListLogs(req, lookup1, listLogs) == ListLogs(req, lookup2, listLogs)
    ensures
      var call := listLogs(QueryGet(req.query, "node_id").value, LogTimeout(req), LogGlob(req));
      && (call.Returned? ==> ListLogs(req, lookup1, listLogs) == Returned(Reply(true, "", Some(call.value), None)))
      && (call.Raised? && call.fault.DataSourceUnavailable? ==>
            ListLogs(req, lookup1, listLogs) == Returned(Reply(false, call.fault.msg, None, None)))
      && (call.Raised? && !call.fault.DataSourceUnavailable? ==> ListLogs(req, lookup1, listLogs) == Raised(call.fault))
  {
  }

  /** Without a node id, an ip that resolves to a node id lists that node's logs: the
      listing's result, a DataSourceUnavailable or any other fault becomes a success
      envelope, a failure envelope or the same fault. */
  lemma ListLogsResolvedIp<T>(req: Request, ipToNodeId: string -> Option<string>,
                              listLogs: (NodeId, QueryValue, string) -> Raises<T>)
    requires !Truthy(QueryGet(req.query, "node_id")) && Truthy(QueryGet(req.query, "node_ip"))
    requires Truthy(ipToNodeId(QueryGet(req.query, "node_ip").value))
    ensures
      var id := ipToNodeId(QueryGet(req.query, "node_ip").value).value;
      var call := listLogs(id, LogTimeout(req), LogGlob(req));
      && ListLogsCalled(req, ipToNodeId, id)
      && (call.Returned? ==> ListLogs(req, ipToNodeId, listLogs) == Returned(Reply(true, "", Some(call.value), None)))
      && (call.Raised? && call.fault.DataSourceUnavailable? ==>
            ListLogs(req, ipToNodeId, listLogs) == Returned(Reply(false, call.fault.msg, None, None)))
      && (call.Raised? && !call.fault.DataSourceUnavailable? ==> ListLogs(req, ipToNodeId, listLogs) == Raised(call.fault))
  {
  }

  /** With neither a node id nor a node ip the request fails before any collaborator is
      consulted: the answer is the same whatever the collaborators would do. */
  lemma ListLogsWithoutNodeConsultsNothing<T>(req: Request,
                                              lookup1: string -> Option<string>, lookup2: string -> Option<string>,
                                              list1: (NodeId, QueryValue, string) -> Raises<T>,
                                              list2: (NodeId, QueryValue, string) -> Raises<T>)
    requires !Truthy(QueryGet(req.query, "node_id")) && !Truthy(QueryGet(req.query, "node_ip"))
    ensures ListLogs(req, lookup1, list1) == ListLogs(req, lookup2, list2)
    ensures ListLogs(req, lookup1, list1).Returned? && !ListLogs(req, lookup1, list1).value.success
  {
  }

  /** An ip that resolves to no node fails with a message naming the ip, whatever the
      listing would have answered. */
  lemma ListLogsUnresolvedIp<T>(req: Request, ipToNodeId: string -> Option<string>,
                                list1: (NodeId, QueryValue, string) -> Raises<T>,
                                list2: (NodeId, QueryValue, string) -> Raises<T>)
    requires !Truthy(QueryGet(req.query, "node_id")) && Truthy(QueryGet(req.query, "node_ip"))
    requires !Truthy(ipToNodeId(QueryGet(req.query, "node_ip").value))
    ensures ListLogs(req, ipToNodeId, list1) == ListLogs(req, ipToNodeId, list2)
    ensures ListLogs(req, ipToNodeId, list1)
         == Returned(Reply(false, "Cannot find matching node_id for a given node ip " + QueryGet(req.query, "node_ip").value, None, None))
  {
  }

  /** The options of a log request; `None` marks a parameter that was not given. */
  datatype GetLogOptions = GetLogOptions(
    timeout: QueryValue,
    nodeId: Option<string>,
    nodeIp: Option<string>,
    mediaType: string,
    filename: Option<string>,
    actorId: Option<string>,
    taskId: Option<string>,
    pid: Option<string>,
    lines: QueryValue,
    interval: Option<string>)

  /** The options `get_logs` builds from the request: `timeout` defaults to
      `DEFAULT_RPC_TIMEOUT`, the media type from the path to `"file"`, `lines` to 1000. */
  function GetLogOptionsOf(req: Request): (o: GetLogOptions)
    ensures QueryGet(req.query, "timeout").None? ==> o.timeout == Number(DEFAULT_RPC_TIMEOUT)
    ensures QueryGet(req.query, "lines").None? ==> o.lines == Number(DEFAULT_LOG_LINES)
    ensures o.mediaType == if "media_type" in req.matchInfo then req.matchInfo["media_type"] else "file"
    ensures QueryGet(req.query, "timeout").Some? ==> o.timeout == Text(QueryGet(req.query, "timeout").value)
    ensures QueryGet(req.query, "lines").Some? ==> o.lines == Text(QueryGet(req.query, "lines").value)
    ensures o.nodeId == QueryGet(req.query, "node_id") && o.nodeIp == QueryGet(req.query, "node_ip")
    ensures o.filename == QueryGet(req.query, "filename") && o.actorId == QueryGet(req.query, "actor_id")
    ensures o.taskId == QueryGet(req.query, "task_id") && o.pid == QueryGet(req.query, "pid")
    ensures o.interval == QueryGet(req.query, "interval")
  {
    var q := req.query;
    GetLogOptions(
      timeout := QueryGetOr(q, "timeout", Number(DEFAULT_RPC_TIMEOUT)),
      nodeId := QueryGet(q, "node_id"),
      nodeIp := QueryGet(q, "node_ip"),
      mediaType := if "media_type" in req.matchInfo then req.matchInfo["media_type"] else "file",
      filename := QueryGet(q, "filename"),
      actorId := QueryGet(q, "actor_id"),
      taskId := QueryGet(q, "task_id"),
      pid := QueryGet(q, "pid"),
      lines := QueryGetOr(q, "lines", Number(DEFAULT_LOG_LINES)),
      interval := QueryGet(q, "interval"))
  }

  /** What the log collaborator's stream produces: the chunks it yields and, if it stops by
      raising, the fault it raises after the last of them. */
  datatype LogStream = LogStream(chunks: seq<seq<byte>>, fault: Option<Fault>)

  /** What is written to the HTTP stream: data, or the end of the stream. */
  datatype Frame = Data(bytes: seq<byte>) | Eof

  /** The bytes literal `b"Closing HTTP stream due to internal server error:\n"`. */
  const CLOSING_MESSAGE: seq<byte> := [
    67, 108, 111, 115, 105, 110, 103, 32, 72, 84, 84, 80, 32, 115, 116, 114, 101, 97, 109, 32,
    100, 117, 101, 32, 116, 111, 32, 105, 110, 116, 101, 114, 110, 97, 108, 32,
    115, 101, 114, 118, 101, 114, 32, 101, 114, 114, 111, 114, 58, 10]

  /** An open streamed HTTP response. */
  class StreamResponse {
    var contentType: string
    var prepared: bool
    var frames: seq<Frame>

    constructor ()
      ensures contentType == "application/octet-stream" && !prepared && frames == []
    {
      contentType := "application/octet-stream";
      prepared := false;
      frames := [];
    }

    predicate Closed()
      reads this
    {
      Eof in frames
    }

    method SetContentType(t: string)
      modifies this
      ensures contentType == t && prepared == old(prepared) && frames == old(frames)
    {
      contentType := t;
    }

    method Prepare()
      requires !prepared
      modifies this
      ensures prepared && contentType == old(contentType) && frames == old(frames)
    {
      prepared := true;
    }

    /** Writing after the end of the stream raises in the HTTP library. */
    method Write(data: seq<byte>)
      requires prepared && !Closed()
      modifies this
      ensures frames == old(frames) + [Data(data)]
      ensures prepared && contentType == old(contentType)
    {
      frames := frames + [Data(data)];
    }

    method WriteEof()
      requires prepared && !Closed()
      modifies this
      ensures frames == old(frames) + [Eof]
      ensures prepared && contentType == old(contentType)
    {
      frames := frames + [Eof];
    }
  }

  function DataFrames(chunks: seq<seq<byte>>): (r: seq<Frame>)
    ensures |r| == |chunks| && Eof !in r
    ensures forall i :: 0 <= i < |chunks| ==> r[i] == Data(chunks[i])
  {
    if chunks == [] then [] else [Data(chunks[0])] + DataFrames(chunks[1..])
  }

  /** What `get_logs` writes after the chunks: nothing when the stream ended, the closing
      message and the fault's text when it raised. */
  function ClosingFrames(fault: Option<Fault>): seq<Frame> {
    match fault
    case None => []
    case Some(e) => [Data(CLOSING_MESSAGE), Data(Utf8Encode(Str(e)))]
  }

  /** The frames `get_logs` writes for a stream: every chunk, then the closing frames, and the
      end of the stream last. */
  function LogResponseFrames(stream: LogStream): (r: seq<Frame>)
    ensures |r| == |stream.chunks| + (if stream.fault.Some? then 2 else 0) + 1
    ensures r[..|stream.chunks|] == DataFrames(stream.chunks)
    ensures r[|r| - 1] == Eof && Eof !in r[..|r| - 1]
    ensures stream.fault.Some? ==>
      r[|stream.chunks|] == Data(CLOSING_MESSAGE) && r[|stream.chunks| + 1] == Data(Utf8Encode(Str(stream.fault.value)))
  {
    DataFrames(stream.chunks) + ClosingFrames(stream.fault) + [Eof]
  }

  /** `get_logs`: opens the response, forwards each chunk of the collaborator's stream, and
      degrades a fault raised while streaming to a closing message followed by its text. */
  method GetLogs(req: Request, streamLogs: GetLogOptions -> LogStream) returns (response: StreamResponse)
    ensures fresh(response)
    ensures response.contentType == "text/plain" && response.prepared
    ensures response.frames == LogResponseFrames(streamLogs(GetLogOptionsOf(req)))
  {
    var options := GetLogOptionsOf(req);
    response := new StreamResponse();
    response.SetContentType("text/plain");
    response.Prepare();
    var stream := streamLogs(options);
    var k := 0;
    while k < |stream.chunks|
      invariant 0 <= k <= |stream.chunks|
      invariant response.prepared && response.contentType == "text/plain"
      invariant response.frames == DataFrames(stream.chunks[..k])
    {
      assert stream.chunks[..k + 1] == stream.chunks[..k] + [stream.chunks[k]];
      DataFramesAppend(stream.chunks[..k], [stream.chunks[k]]);
      response.Write(stream.chunks[k]);
      k := k + 1;
    }
    assert stream.chunks[..k] == stream.chunks;
    match stream.fault {
      case None =>
      case Some(e) =>
        response.Write(CLOSING_MESSAGE);
        response.Write(Utf8Encode(Str(e)));
    }
    response.WriteEof();
  }

  lemma {:induction false} DataFramesAppend(xs: seq<seq<byte>>, ys: seq<seq<byte>>)
    ensures DataFrames(xs + ys) == DataFrames(xs) + DataFrames(ys)
  {
    if xs != [] {
      assert (xs + ys)[1..] == xs[1..] + ys;
      DataFramesAppend(xs[1..], ys);
    }
  }

  /** The bytes a client receives: the data of every frame, in order. */
  function Body(frames: seq<Frame>): seq<byte> {
    if frames == [] then []
    else (if frames[0].Data? then frames[0].bytes else []) + Body(frames[1..])
  }

  function Concat(chunks: seq<seq<byte>>): seq<byte> {
    if chunks == [] then [] else chunks[0] + Concat(chunks[1..])
  }

  function CountEof(frames: seq<Frame>): nat {
    if frames == [] then 0 else (if frames[0] == Eof then 1 else 0) + CountEof(frames[1..])
  }

  lemma {:induction false} BodyAppend(xs: seq<Frame>, ys: seq<Frame>)
    ensures Body(xs + ys) == Body(xs) + Body(ys)
    ensures CountEof(xs + ys) == CountEof(xs) + CountEof(ys)
  {
    if xs != [] {
      assert (xs + ys)[0] == xs[0];
      assert (xs + ys)[1..] == xs[1..] + ys;
      BodyAppend(xs[1..], ys);
    } else {
      assert xs + ys == ys;
    }
  }

  lemma {:induction false} BodyOfDataFrames(chunks: seq<seq<byte>>)
    ensures Body(DataFrames(chunks)) == Concat(chunks)
    ensures CountEof(DataFrames(chunks)) == 0
  {
    if chunks != [] {
      assert DataFrames(chunks)[1..] == DataFrames(chunks[1..]);
      BodyOfDataFrames(chunks[1..]);
    }
  }

  /** The bytes after the chunks: none when the stream ended, the closing message and the
      fault's text when it raised. */
  function ClosingBytes(fault: Option<Fault>): seq<byte> {
    match fault
    case None => []
    case Some(e) => CLOSING_MESSAGE + Utf8Encode(Str(e))
  }

  lemma ClosingFramesBody(fault: Option<Fault>)
    ensures Body(ClosingFrames(fault)) == ClosingBytes(fault)
    ensures CountEof(ClosingFrames(fault)) == 0
  {
    if fault.Some? {
      var t := ClosingFrames(fault);
      var last := [Data(Utf8Encode(Str(fault.value)))];
      assert t == [Data(CLOSING_MESSAGE)] + last && t[1..] == last;
      assert last[1..] == [];
      assert Body(last) == Utf8Encode(Str(fault.value)) && CountEof(last) == 0;
    }
  }

  /** The streamed body: every chunk in order, followed, when the stream raised, by the
      closing message and the fault's text; the stream ends with exactly one end-of-stream,
      written last. */
  lemma LogResponseBody(stream: LogStream)
    ensures Body(LogResponseFrames(stream)) == Concat(stream.chunks) + ClosingBytes(stream.fault)
    ensures CountEof(LogResponseFrames(stream)) == 1
    ensures LogResponseFrames(stream)[|LogResponseFrames(stream)| - 1] == Eof
  {
    var data := DataFrames(stream.chunks);
    var tail := ClosingFrames(stream.fault);
    BodyOfDataFrames(stream.chunks);
    ClosingFramesBody(stream.fault);
    BodyAppend(data, tail);
    BodyAppend(data + tail, [Eof]);
    assert Body([Eof]) == [] && CountEof([Eof]) == 1 by {
      assert [Eof][1..] == [];
    }
  }

  /** A fault does not take back what was sent: the chunks yielded before it are written
      exactly as they would have been had the stream ended there, and the closing message
      comes right after them. */
  lemma FaultKeepsSentChunks(chunks: seq<seq<byte>>, e: Fault)
    ensures
      var faulty := LogResponseFrames(LogStream(chunks, Some(e)));
      var clean := LogResponseFrames(LogStream(chunks, None));
      && |faulty| == |clean| + 2
      && faulty[..|chunks|] == clean[..|chunks|] == DataFrames(chunks)
      && faulty[|chunks|] == Data(CLOSING_MESSAGE)
  {
    var data := DataFrames(chunks);
    assert LogResponseFrames(LogStream(chunks, Some(e))) == data + (ClosingFrames(Some(e)) + [Eof]);
    assert LogResponseFrames(LogStream(chunks, None)) == data + [Eof];
  }
}
