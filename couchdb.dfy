/** The entity classes of pyoocouchdb: a `Server` (a CouchDB instance or cluster), a `Node`
    of its cluster, a `Database` on it and a `Document` in a database. Each object keeps the
    attributes the Python class assigns; each method sends its requests through
    `Core.EndpointApi`, so its contract says, request by request, what reaches the remote
    service and how the answers decide the object's new state and the result. */
module CouchDb {
  import opened Json
  import opened Python
  import opened Text
  import opened Core
  import opened ServerRules
  import opened NodeRules
  import opened DatabaseRules
  import opened DocumentRules

  /** The caller a `Database(server, name)` is: the server URL, the name as an f-string writes
      it, and a slash (Database.py:16). */
  function DatabaseAt(info: ServerInfo, name: Value): Origin
  {
    FromDatabase(info.url + Format(name) + "/", info)
  }

  /** That URL is an http URL when the server's is. */
  lemma DatabaseAtValid(info: ServerInfo, name: Value)
    requires HttpUrl(info.url)
    ensures DatabaseAt(info, name).Valid()
  {
    HttpUrlExtend(info.url, Format(name) + "/");
    assert info.url + Format(name) + "/" == info.url + (Format(name) + "/");
  }

  /** The calls `sync_all_shards` makes for a list of names: per name, the lookup of
      `Database(server, name)` and the POST of `_sync_shards` through the shared default header
      dict, which holds `first` at the first POST and `later` at the others. */
  function SyncRequests(info: ServerInfo, names: seq<Value>, first: map<string, Value>, later: map<string, Value>): (rs: seq<Call>)
    ensures |rs| == 2 * |names|
  {
    if names == [] then []
    else
      var n := |names| - 1;
      SyncRequests(info, names[..n], first, later) + SyncPair(info, names[n], if n == 0 then first else later)
  }

  /** The two calls of one database: the lookup `Database(server, name)` makes and the POST of
      `_sync_shards` through the header dict holding `h`. */
  function SyncPair(info: ServerInfo, name: Value, h: map<string, Value>): seq<Call>
  {
    [SyncLookup(info, name), Call(DatabaseAt(info, name), "_sync_shards", h, Empty, Empty, "POST", false)]
  }

  /** The lookup `Database(server, name)` makes. */
  function SyncLookup(info: ServerInfo, name: Value): Call
  {
    Call(DatabaseAt(info, name), "", JsonHeaders, Empty, Empty, "GET", false)
  }

  /** The log once round `j` of `sync_all_shards` over `items` has looked up its database,
      after `listed` and the calls of the rounds before it. */
  function SyncLookupLog(listed: seq<Call>, info: ServerInfo, items: seq<Value>, h0: map<string, Value>,
                         later: map<string, Value>, j: nat): seq<Call>
    requires j < |items|
  {
    listed + SyncRequests(info, items[..j], h0, later) + [SyncLookup(info, items[j])]
  }

  /** Round `j` goes through: the lookup answers a dict, which `Database(server, name)` reads
      with `keys()`, and the name can be a dict key. */
  ghost predicate SyncPasses(reply: seq<Call> -> Value, info: ServerInfo, items: seq<Value>, listed: seq<Call>,
                             h0: map<string, Value>, later: map<string, Value>, j: nat)
    requires j < |items|
  {
    reply(SyncLookupLog(listed, info, items, h0, later, j)).Obj? && Hashable(items[j])
  }

  /** Round `k` raises `e`: `AttributeError` right after a lookup answered by something other
      than a dict, with the shared dict as the round found it; otherwise `TypeError` after the
      round's POST, for a name that cannot be a dict key. */
  ghost predicate SyncStops(reply: seq<Call> -> Value, info: ServerInfo, items: seq<Value>, listed: seq<Call>,
                            h0: map<string, Value>, later: map<string, Value>, k: nat,
                            log: seq<Call>, headers: map<string, Value>, e: PyError)
  {
    && k < |items|
    && var lookup := SyncLookupLog(listed, info, items, h0, later, k);
    && (!reply(lookup).Obj? ==>
          e == AttributeError("keys") && log == lookup && headers == (if k == 0 then h0 else later))
    && (reply(lookup).Obj? ==>
          && !Hashable(items[k]) && e == TypeError("unhashable type")
          && log == listed + SyncRequests(info, items[..k + 1], h0, later) && headers == later)
  }

  /** One more name adds its pair of calls. */
  lemma SyncRequestsSnoc(info: ServerInfo, names: seq<Value>, i: nat, first: map<string, Value>, later: map<string, Value>)
    requires i < |names|
    ensures SyncRequests(info, names[..i + 1], first, later)
            == SyncRequests(info, names[..i], first, later) + SyncPair(info, names[i], if i == 0 then first else later)
  {
    assert names[..i + 1][..i] == names[..i] && names[..i + 1][i] == names[i];
  }

  /** One round of `sync_all_shards` keeps its loop's account: the calls so far, the names
      checked so far and the rows filed so far. */
  lemma SyncEachStep(reply: seq<Call> -> Value, info: ServerInfo, items: seq<Value>, i: nat, start: nat,
                     h0: map<string, Value>, later: map<string, Value>, listed: seq<Call>, before: seq<Call>,
                     after: seq<Call>, rows: map<string, Value>)
    requires i < |items| && |listed| == start + 1 && Hashable(items[i]) && AllHashable(items[..i])
    requires before == listed + SyncRequests(info, items[..i], h0, later)
    requires after == before + SyncPair(info, items[i], if i == 0 then h0 else later)
    requires rows == SyncRows(items[..i], SyncAnswers(reply, before, start, i))
    ensures after == listed + SyncRequests(info, items[..i + 1], h0, later)
    ensures AllHashable(items[..i + 1])
    ensures rows[Format(items[i]) := reply(after)] == SyncRows(items[..i + 1], SyncAnswers(reply, after, start, i + 1))
  {
    var more := SyncPair(info, items[i], if i == 0 then h0 else later);
    SyncRequestsSnoc(info, items, i, h0, later);
    assert after == listed + (SyncRequests(info, items[..i], h0, later) + more);
    SyncAnswersGrow(reply, before, more, start, i);
    assert items[..i + 1][..i] == items[..i] && items[..i + 1][i] == items[i];
  }

  /** The account `sync_all_shards` keeps after `i` rounds: the log holds `listed` and the calls
      of the first `i` names, those names can be dict keys, the shared default dict holds `h0`
      before the first round and `later` after it, and each answer is filed under its name. */
  ghost predicate SyncedRounds(reply: seq<Call> -> Value, info: ServerInfo, items: seq<Value>, i: nat, start: nat,
                               listed: seq<Call>, h0: map<string, Value>, later: map<string, Value>,
                               log: seq<Call>, headers: map<string, Value>, rows: map<string, Value>)
  {
    && i <= |items| && |listed| == start + 1 && AllHashable(items[..i])
    && log == listed + SyncRequests(info, items[..i], h0, later)
    && headers == (if i == 0 then h0 else later)
    && rows == SyncRows(items[..i], SyncAnswers(reply, log, start, i))
  }

  /** What the shared dict holds after the first POST: it is filled in once. */
  function SettledHeaders(t: Transport, info: ServerInfo, names: seq<Value>, h: map<string, Value>): map<string, Value>
  {
    if names == [] then h else FinalHeaders(h, DatabaseAt(info, names[0]), false, t)
  }

  /** The `j`-th pair of calls concerns the `j`-th name. */
  lemma {:induction false} SyncRequestsAt(info: ServerInfo, names: seq<Value>, first: map<string, Value>, later: map<string, Value>, j: nat)
    requires j < |names|
    ensures SyncRequests(info, names, first, later)[2 * j]
            == Call(DatabaseAt(info, names[j]), "", JsonHeaders, Empty, Empty, "GET", false)
    ensures SyncRequests(info, names, first, later)[2 * j + 1]
            == Call(DatabaseAt(info, names[j]), "_sync_shards", if j == 0 then first else later, Empty, Empty, "POST", false)
  {
    var n := |names| - 1;
    var front := SyncRequests(info, names[..n], first, later);
    var pair := SyncPair(info, names[n], if n == 0 then first else later);
    assert SyncRequests(info, names, first, later) == front + pair;
    if j < n {
      SyncRequestsAt(info, names[..n], first, later, j);
      assert names[..n][j] == names[j];
      assert (front + pair)[2 * j] == front[2 * j] && (front + pair)[2 * j + 1] == front[2 * j + 1];
    } else {
      assert (front + pair)[2 * j] == pair[0] && (front + pair)[2 * j + 1] == pair[1];
    }
  }

  /** On the wire, every POST of `_sync_shards` carries the headers the dict would give had it
      never been touched. */
  lemma SyncWire(t: Transport, info: ServerInfo, names: seq<Value>, h: map<string, Value>, j: nat)
    requires HttpUrl(info.url) && j < |names|
    ensures var c := SyncRequests(info, names, h, SettledHeaders(t, info, names, h))[2 * j + 1];
      c.origin == DatabaseAt(info, names[j]) && c.origin.Valid()
      && Wire(t, c) == ApiRequest(t, DatabaseAt(info, names[j]), "_sync_shards", h, Empty, Empty, "POST", false)
  {
    SyncRequestsAt(info, names, h, SettledHeaders(t, info, names, h), j);
    DatabaseAtValid(info, names[j]);
    if j > 0 {
      DatabaseAtValid(info, names[0]);
      ApiRequestStable(t, DatabaseAt(info, names[j]), DatabaseAt(info, names[0]), "_sync_shards", h, Empty, Empty, "POST", false);
    }
  }

  /** Server.py:12-321 */
  class Server {
    const hostname: string
    const port: nat
    const adminPort: nat
    /** The URLs, hosts and credentials __init__ derives (Server.py:18-26). */
    const info: ServerInfo
    /** The attributes the probe may set; `None` while unset. */
    var version: Option<Value>
    var features: Option<Value>
    var vendor: Option<Value>
    var allNodes: Option<Value>

    /** The root URL is an http URL; the constructor also fixes `info` as `MakeInfo` of the
        other constants, which never change afterwards. */
    predicate Valid()
    {
      HttpUrl(info.url)
    }

    function Caller(): Origin
    {
      FromServer(info)
    }

    function Attributes(): Recorded
      reads this
    {
      Recorded(version, features, vendor, allNodes)
    }

    /** The `_membership` request of `membership` (Server.py:313-321). */
    function MembershipCall(): Call
    {
      Call(Caller(), "_membership", JsonHeaders, Empty, Empty, "GET", false)
    }

    /** The `_all_dbs` request of `all_dbs` (Server.py:73-81). */
    function AllDbsCall(): Call
    {
      Call(Caller(), "_all_dbs", JsonHeaders, Null, Null, "GET", false)
    }

    constructor (hostname: string, port: nat, adminPort: nat, username: string, password: string)
      ensures Valid() && Attributes() == Recorded(None, None, None, None)
      ensures this.hostname == hostname && this.port == port && this.adminPort == adminPort
      ensures info == MakeInfo(hostname, port, adminPort, username, password)
    {
      this.hostname := hostname;
      this.port := port;
      this.adminPort := adminPort;
      info := MakeInfo(hostname, port, adminPort, username, password);
      version := None;
      features := None;
      vendor := None;
      allNodes := None;
    }

    /** `Server(hostname, port, admin_port, username, password)` (Server.py:14-52): the probe
        of the root URL through the shared default header dict, and the membership request
        when the answer lists `all_nodes`. The attributes set are those `ProbeRecord` reads
        off the two answers; a failure in reading them propagates. */
    static method Open(env: Env, hostname: string, port: nat, adminPort: nat, username: string, password: string)
      returns (r: Outcome<Server>)
      modifies env`log, env.apiHeaders
      ensures var o := FromServer(MakeInfo(hostname, port, adminPort, username, password));
        var probe := Call(o, "", old(env.apiHeaders.items), Empty, Empty, "GET", false);
        var answer := env.reply(old(env.log) + [probe]);
        && (AsksMembership(answer) ==>
              env.log == old(env.log) + [probe, Call(o, "_membership", JsonHeaders, Empty, Empty, "GET", false)])
        && (!AsksMembership(answer) ==> env.log == old(env.log) + [probe])
        && var rec := ProbeRecord(answer, env.reply(env.log));
           && (rec.Raise? ==> r == Raise(rec.error))
           && (rec.Ok? ==> r.Ok? && r.value.Attributes() == rec.value)
      ensures env.apiHeaders.items
        == FinalHeaders(old(env.apiHeaders.items), FromServer(MakeInfo(hostname, port, adminPort, username, password)), false, env.transport)
      ensures ReadsOnly(old(env.log), env.log)
      ensures r.Ok? ==>
        && fresh(r.value) && r.value.Valid()
        && r.value.hostname == hostname && r.value.port == port && r.value.adminPort == adminPort
        && r.value.info == MakeInfo(hostname, port, adminPort, username, password)
    {
      var s := new Server(hostname, port, adminPort, username, password);
      var response, _ := EndpointApi(env, s.Caller(), "", env.apiHeaders, Empty, Empty, "GET", false);
      var applied := s.Absorb(env, response);
      if applied.Raise? {
        return Raise(applied.error);
      }
      r := Ok(s);
    }

    /** The rest of __init__ (Server.py:36-52): the attributes read off the probe's answer, and
        the membership request when the answer lists `all_nodes`. */
    method Absorb(env: Env, probe: Value) returns (r: Outcome<bool>)
      requires Valid() && Attributes() == Recorded(None, None, None, None)
      modifies this`version, this`features, this`vendor, this`allNodes, env`log
      ensures AsksMembership(probe) ==> env.log == old(env.log) + [MembershipCall()]
      ensures !AsksMembership(probe) ==> env.log == old(env.log)
      ensures var rec := ProbeRecord(probe, env.reply(env.log));
        && (rec.Raise? ==> r == Raise(rec.error))
        && (rec.Ok? ==> r == Ok(true) && Attributes() == rec.value)
    {
      var keys :- Keys(probe);
      if "error" !in keys {
        if "version" in keys {
          version := Some(keys["version"]);
        }
        if "features" in keys {
          features := Some(keys["features"]);
        }
        if "vendor" in keys {
          var name :- Index(keys["vendor"], "name");
          vendor := Some(name);
        }
        if "all_nodes" in keys {
          var membership := Membership(env);
          var nodes :- Index(membership, "all_nodes");
          allNodes := Some(nodes);
        }
      }
      r := Ok(true);
    }

    /** `endpoint(endpoint, headers, data, json_data, method, admin)` (Server.py:59-63): the
        server's own call of endpoint_api; the `compatibility` flag it forwards is unused there. */
    method Endpoint(env: Env, endpoint: string, headers: Dict, data: Value, jsonData: Value, verb: string, admin: bool)
      returns (r: Value)
      requires Valid()
      modifies env`log, headers
      ensures headers.items == FinalHeaders(old(headers.items), Caller(), admin, env.transport)
      ensures env.log == old(env.log) + [Call(Caller(), endpoint, old(headers.items), data, jsonData, verb, admin)]
      ensures r == env.reply(env.log)
    {
      var request;
      r, request := EndpointApi(env, Caller(), endpoint, headers, data, jsonData, verb, admin);
    }

    /** `membership()` (Server.py:313-321) */
    method Membership(env: Env) returns (r: Value)
      requires Valid()
      modifies env`log
      ensures env.log == old(env.log) + [MembershipCall()]
      ensures r == env.reply(env.log)
    {
      var headers := new Dict(JsonHeaders);
      var request;
      r, request := EndpointApi(env, Caller(), "_membership", headers, Empty, Empty, "GET", false);
    }

    /** `all_dbs()` (Server.py:73-81) */
    method AllDbs(env: Env) returns (r: Value)
      requires Valid()
      modifies env`log
      ensures env.log == old(env.log) + [AllDbsCall()]
      ensures r == env.reply(env.log)
    {
      var headers := new Dict(JsonHeaders);
      r := Endpoint(env, "_all_dbs", headers, Null, Null, "GET", false);
    }

    /** `dbs_info(dbs_list)` (Server.py:84-108): POSTs `{"keys": dbs}` to `_dbs_info`, where
        `dbs` is the server's own list for `None`, the pieces of a string, or the argument as
        given. */
    method DbsInfo(env: Env, dbsList: Value) returns (r: Value)
      requires Valid()
      modifies env`log
      ensures dbsList.Null? ==>
        && |env.log| == |old(env.log)| + 2
        && env.log[|old(env.log)|] == AllDbsCall()
        && env.log[|old(env.log)| + 1]
           == Call(Caller(), "_dbs_info", JsonHeaders, Null,
                         Obj(map["keys" := env.reply(env.log[..|old(env.log)| + 1])]), "POST", false)
      ensures dbsList.Str? ==>
        env.log == old(env.log) + [Call(Caller(), "_dbs_info", JsonHeaders, Null,
                                              Obj(map["keys" := DbsValue(ParseDbsList(dbsList.s))]), "POST", false)]
      ensures !dbsList.Null? && !dbsList.Str? ==>
        env.log == old(env.log) + [Call(Caller(), "_dbs_info", JsonHeaders, Null,
                                              Obj(map["keys" := dbsList]), "POST", false)]
      ensures r == env.reply(env.log)
    {
      var dbs: Value;
      if dbsList.Null? {
        dbs := AllDbs(env);
      } else if dbsList.Str? {
        dbs := DbsValue(ParseDbsList(dbsList.s));
      } else {
        dbs := dbsList;
      }
      ghost var asked := env.log;
      var headers := new Dict(JsonHeaders);
      r := Endpoint(env, "_dbs_info", headers, Null, Obj(map["keys" := dbs]), "POST", false);
      assert env.log[..|asked|] == asked;
    }

    /** `add_node(node)` (Server.py:214-240): asks for the membership, then refuses a node
        already listed, reports an answer without `all_nodes`, or PUTs the node's document on
        the admin port; a membership answer the test cannot read raises. */
    method AddNode(env: Env, node: Node) returns (r: Outcome<Value>)
      requires Valid()
      modifies env`log, env.endpointHeaders
      ensures |env.log| > |old(env.log)| && env.log[..|old(env.log)| + 1] == old(env.log) + [MembershipCall()]
      ensures var d := AddNodeDecision(env.reply(env.log[..|old(env.log)| + 1]), node.name);
        && (d.Raise? ==> r == Raise(d.error) && |env.log| == |old(env.log)| + 1)
        && (d == Ok(AlreadyMember) ==>
              r == Ok(NodeError("400", node.name, "Node already registered")) && |env.log| == |old(env.log)| + 1)
        && (d == Ok(NoMembership) ==>
              r == Ok(NodeError("500", node.name, "Error trying to get membership")) && |env.log| == |old(env.log)| + 1)
        && (d == Ok(Register) ==>
              && |env.log| == |old(env.log)| + 2
              && env.log[|old(env.log)| + 1]
                 == Call(Caller(), NodeDocEndpoint(node.name), old(env.endpointHeaders.items), Empty, Null, "PUT", true)
              && r == Ok(env.reply(env.log)))
        && env.endpointHeaders.items
           == if d == Ok(Register) then FinalHeaders(old(env.endpointHeaders.items), Caller(), true, env.transport)
              else old(env.endpointHeaders.items)
    {
      var result := Membership(env);
      ghost var asked := env.log;
      var keys :- Keys(result);
      if "all_nodes" in keys {
        var present :- Contains(keys["all_nodes"], node.name);
        if present {
          r := Ok(NodeError("400", node.name, "Node already registered"));
        } else {
          var response := Endpoint(env, NodeDocEndpoint(node.name), env.endpointHeaders, Empty, Null, "PUT", true);
          assert env.log[..|asked|] == asked;
          r := Ok(response);
        }
      } else {
        r := Ok(NodeError("500", node.name, "Error trying to get membership"));
      }
    }

    /** `remove_node(node)` (Server.py:242-263): for a node `cluster_nodes` lists, reads the
        node's document on the admin port and DELETEs it at its revision; the shared default
        header dict carries the same headers both times. */
    method RemoveNode(env: Env, node: Node) returns (r: Outcome<Value>)
      requires Valid()
      modifies env`log, env.endpointHeaders
      ensures |env.log| > |old(env.log)| && env.log[..|old(env.log)| + 1] == old(env.log) + [MembershipCall()]
      ensures var d := RemoveNodeDecision(env.reply(env.log[..|old(env.log)| + 1]), node.name);
        && (d.Raise? ==> r == Raise(d.error) && |env.log| == |old(env.log)| + 1)
        && (d == Ok(false) ==>
              r == Ok(NodeError("500", node.name, "Error trying to get membership")) && |env.log| == |old(env.log)| + 1)
        && (d == Ok(true) ==>
              Withdrawn(env, old(env.log) + [MembershipCall()], old(env.endpointHeaders.items), node.name, r))
        && (d != Ok(true) ==> env.endpointHeaders.items == old(env.endpointHeaders.items))
    {
      var result := Membership(env);
      ghost var asked := env.log;
      ghost var d := RemoveNodeDecision(result, node.name);
      assert asked == old(env.log) + [MembershipCall()] && env.log[..|asked|] == asked;
      var keys :- Keys(result);
      if "all_nodes" in keys {
        var visible :- Contains(keys["all_nodes"], node.name);
        if "cluster_nodes" in keys {
          var clustered :- Contains(keys["cluster_nodes"], node.name);
          if clustered {
            assert d == Ok(true);
            r := WithdrawNode(env, node.name);
            assert env.log[..|asked|] == asked;
            return;
          }
        }
        assert d == Raise(UnboundLocalError("response"));
        return Raise(UnboundLocalError("response"));
      }
      assert d == Ok(false);
      r := Ok(NodeError("500", node.name, "Error trying to get membership"));
    }

    /** The exchange of a withdrawal: the GET of the node's document, then, when the answer
        has a `_rev`, the DELETE at that revision, both with the headers `h`; the dict that
        carried them holds `h` with the injected headers afterwards. */
    ghost predicate Withdrawn(env: Env, before: seq<Call>, h: map<string, Value>, name: string, r: Outcome<Value>)
      requires Valid()
      reads env, env.endpointHeaders
    {
      var get := Call(Caller(), NodeDocEndpoint(name), h, Empty, Null, "GET", true);
      && env.endpointHeaders.items == FinalHeaders(h, Caller(), true, env.transport)
      && |env.log| > |before|
      && env.log[..|before| + 1] == before + [get]
      && var rev := Index(env.reply(env.log[..|before| + 1]), "_rev");
      && (rev.Raise? ==> r == Raise(rev.error) && |env.log| == |before| + 1)
      && (rev.Ok? ==>
            && env.log == before + [get, Call(Caller(), NodeDocEndpoint(name) + "?rev=" + Format(rev.value),
                                              FinalHeaders(h, Caller(), true, env.transport), Empty, Null, "DELETE", true)]
            && r == Ok(env.reply(env.log)))
    }

    /** The withdrawal of `remove_node` (Server.py:251-253): the node's document on the admin
        port, then its DELETE at the revision read; the shared default header dict carries the
        same headers both times. */
    method WithdrawNode(env: Env, name: string) returns (r: Outcome<Value>)
      requires Valid()
      modifies env`log, env.endpointHeaders
      ensures Withdrawn(env, old(env.log), old(env.endpointHeaders.items), name, r)
    {
      ghost var h := env.endpointHeaders.items;
      var document := Endpoint(env, NodeDocEndpoint(name), env.endpointHeaders, Empty, Null, "GET", true);
      ghost var read := env.log;
      var rev :- Index(document, "_rev");
      FinalHeadersSettle(env.transport, Caller(), Caller(), h, true);
      var endpoint := NodeDocEndpoint(name) + "?rev=" + Format(rev);
      var response := Endpoint(env, endpoint, env.endpointHeaders, Empty, Null, "DELETE", true);
      assert env.log[..|read|] == read;
      r := Ok(response);
    }

    /** One round of `sync_all_shards` (Server.py:277-279): `Database(server, name)`, then its
        `sync_shards()`. */
    method SyncDatabase(env: Env, name: Value) returns (r: Outcome<Value>)
      requires Valid()
      modifies env`log, env.apiHeaders
      ensures r.Ok? <==> env.reply(old(env.log) + [SyncLookup(info, name)]).Obj?
      ensures r.Raise? ==>
        && r.error == AttributeError("keys")
        && env.log == old(env.log) + [SyncLookup(info, name)]
        && env.apiHeaders.items == old(env.apiHeaders.items)
      ensures r.Ok? ==>
        && env.log == old(env.log) + SyncPair(info, name, old(env.apiHeaders.items))
        && env.apiHeaders.items == FinalHeaders(old(env.apiHeaders.items), DatabaseAt(info, name), false, env.transport)
        && r.value == env.reply(env.log)
    {
      var db :- Database.Open(env, this, name);
      var synced := db.SyncShards(env);
      assert env.log == old(env.log) + SyncPair(info, name, old(env.apiHeaders.items));
      r := Ok(synced);
    }

    /** One round of the loop of `sync_all_shards()` over `items` (Server.py:277-279):
        `Database(server, items[i])`, its `sync_shards()`, and the row filed under the name.
        Before the round the log holds `listed` and the calls of the first `i` names, and the
        shared default dict holds `h0` before the first round and `later` after it. */
    method SyncRound(env: Env, items: seq<Value>, i: nat, rows: map<string, Value>, ghost start: nat,
                     ghost listed: seq<Call>, ghost h0: map<string, Value>, ghost later: map<string, Value>)
      returns (r: Outcome<map<string, Value>>)
      requires Valid() && i < |items| && later == SettledHeaders(env.transport, info, items, h0)
      requires SyncedRounds(env.reply, info, items, i, start, listed, h0, later, env.log, env.apiHeaders.items, rows)
      modifies env`log, env.apiHeaders
      ensures listed <= env.log
      ensures r.Ok? <==> SyncPasses(env.reply, info, items, listed, h0, later, i)
      ensures r.Ok? ==> SyncedRounds(env.reply, info, items, i + 1, start, listed, h0, later, env.log, env.apiHeaders.items, r.value)
      ensures r.Raise? ==> SyncStops(env.reply, info, items, listed, h0, later, i, env.log, env.apiHeaders.items, r.error)
    {
      ghost var before := env.log;
      ghost var lookup := SyncLookupLog(listed, info, items, h0, later, i);
      assert lookup == before + [SyncLookup(info, items[i])];
      var synced := SyncDatabase(env, items[i]);
      if synced.Raise? {
        assert env.log == lookup;
        assert listed <= env.log by { assert env.log == listed + (SyncRequests(info, items[..i], h0, later) + [SyncLookup(info, items[i])]); }
        return Raise(synced.error);
      }
      if i > 0 {
        FinalHeadersSettle(env.transport, DatabaseAt(info, items[i]), DatabaseAt(info, items[0]), h0, false);
      }
      if !Hashable(items[i]) {
        SyncRequestsSnoc(info, items, i, h0, later);
        assert env.log == listed + SyncRequests(info, items[..i + 1], h0, later);
        return Raise(TypeError("unhashable type"));
      }
      SyncEachStep(env.reply, info, items, i, start, h0, later, listed, before, env.log, rows);
      r := Ok(rows[Format(items[i]) := synced.value]);
    }

    /** The loop of `sync_all_shards()` (Server.py:275-282) over the names `items`, after the
        `_all_dbs` request, which is the last of `start + 1` calls: every round syncs one
        database and files its answer under the name. */
    method SyncEach(env: Env, items: seq<Value>, ghost start: nat) returns (r: Outcome<map<string, Value>>)
      requires Valid() && start + 1 == |env.log|
      modifies env`log, env.apiHeaders
      ensures old(env.log) <= env.log
      ensures var h0 := old(env.apiHeaders.items); var later := SettledHeaders(env.transport, info, items, h0);
        r.Ok? <==> forall j | 0 <= j < |items| :: SyncPasses(env.reply, info, items, old(env.log), h0, later, j)
      ensures r.Ok? ==>
        && env.log == old(env.log)
                      + SyncRequests(info, items, old(env.apiHeaders.items), SettledHeaders(env.transport, info, items, old(env.apiHeaders.items)))
        && env.apiHeaders.items == SettledHeaders(env.transport, info, items, old(env.apiHeaders.items))
        && AllHashable(items)
        && r.value == SyncRows(items, SyncAnswers(env.reply, env.log, start, |items|))
      ensures var h0 := old(env.apiHeaders.items); var later := SettledHeaders(env.transport, info, items, h0);
        r.Raise? ==> exists k: nat ::
          && SyncStops(env.reply, info, items, old(env.log), h0, later, k, env.log, env.apiHeaders.items, r.error)
          && forall j | 0 <= j < k :: SyncPasses(env.reply, info, items, old(env.log), h0, later, j)
    {
      ghost var listed := env.log;
      ghost var h0 := env.apiHeaders.items;
      ghost var later := SettledHeaders(env.transport, info, items, h0);
      var rows: map<string, Value> := map[];
      var i := 0;
      while i < |items|
        invariant SyncedRounds(env.reply, info, items, i, start, listed, h0, later, env.log, env.apiHeaders.items, rows)
        invariant forall j | 0 <= j < i :: SyncPasses(env.reply, info, items, listed, h0, later, j)
      {
        var round := SyncRound(env, items, i, rows, start, listed, h0, later);
        if round.Raise? {
          return Raise(round.error);
        }
        rows := round.value;
        i := i + 1;
      }
      assert items[..i] == items;
      r := Ok(rows);
    }

    /** `sync_all_shards()` (Server.py:266-283): for every name of the server's database list,
        opens the database and POSTs `_sync_shards`; the result counts the databases and
        holds each answer under its name. A list element that cannot be a dict key (a list
        or a dict) fails after its request; an answer that is not a list is returned as is. */
    method SyncAllShards(env: Env) returns (r: Outcome<Value>)
      requires Valid()
      modifies env`log, env.apiHeaders
      ensures |env.log| > |old(env.log)| && env.log[..|old(env.log)| + 1] == old(env.log) + [AllDbsCall()]
      ensures var list := env.reply(env.log[..|old(env.log)| + 1]);
        !list.Arr? ==> r == Ok(list) && |env.log| == |old(env.log)| + 1 && env.apiHeaders.items == old(env.apiHeaders.items)
      ensures var list := env.reply(env.log[..|old(env.log)| + 1]);
        var listed := old(env.log) + [AllDbsCall()]; var h0 := old(env.apiHeaders.items);
        list.Arr? ==>
        var later := SettledHeaders(env.transport, info, list.items, h0);
        && (r.Ok? <==> forall j | 0 <= j < |list.items| :: SyncPasses(env.reply, info, list.items, listed, h0, later, j))
        && (r.Ok? ==> env.apiHeaders.items == later)
        && (r.Raise? ==> exists k: nat ::
              && SyncStops(env.reply, info, list.items, listed, h0, later, k, env.log, env.apiHeaders.items, r.error)
              && forall j | 0 <= j < k :: SyncPasses(env.reply, info, list.items, listed, h0, later, j))
      ensures var list := env.reply(env.log[..|old(env.log)| + 1]);
        list.Arr? && r.Ok? ==>
        && env.log == old(env.log) + [AllDbsCall()]
                      + SyncRequests(info, list.items, old(env.apiHeaders.items), SettledHeaders(env.transport, info, list.items, old(env.apiHeaders.items)))
        && (forall j | 0 <= j < |list.items| :: Hashable(list.items[j]))
        && r.value == Obj(map["processed" := Num(|list.items|),
                              "rows" := Obj(SyncRows(list.items, SyncAnswers(env.reply, env.log, |old(env.log)|, |list.items|)))])
    {
      var dbList := AllDbs(env);
      if !dbList.Arr? {
        return Ok(dbList);
      }
      ghost var listed := env.log;
      var rows :- SyncEach(env, dbList.items, |old(env.log)|);
      AllHashableElements(dbList.items);
      assert env.log[..|listed|] == listed;
      r := Ok(Obj(map["processed" := Num(|dbList.items|), "rows" := Obj(rows)]));
    }

    /** The `_users` database, looked up as `Database(server, "_users")` (Server.py:193, 206). */
    function UsersAt(): DatabaseInfo
    {
      DatabaseInfo(DatabaseAt(info, Str("_users")).Url(), info)
    }

    /** `add_user(username, password, roles)` (Server.py:192-202): the lookup of `_users`, then
        the user document as `Enrolled` says. */
    method AddUser(env: Env, username: string, password: string, roles: Value) returns (r: Outcome<()>)
      requires Valid() && env.Valid()
      modifies env`log, env`draws, env.apiHeaders, env.blankContent
      ensures env.draws == old(env.draws)
      ensures var dbCall := Call(DatabaseAt(info, Str("_users")), "", JsonHeaders, Empty, Empty, "GET", false);
        var resp := env.reply(old(env.log) + [dbCall]);
        && (!resp.Obj? ==>
              && r == Raise(AttributeError("keys")) && env.log == old(env.log) + [dbCall]
              && env.apiHeaders.items == old(env.apiHeaders.items)
              && env.blankContent.items == old(env.blankContent.items))
        && (resp.Obj? ==>
              Enrolled(env, old(env.log) + [dbCall], UsersAt(), username, UserRecord(username, password, roles),
                       old(env.apiHeaders.items), old(env.blankContent.items), r))
    {
      var users :- Database.Open(env, this, Str("_users"));
      r := Enrol(env, users, username, UserRecord(username, password, roles));
    }

    /** The user document part of `add_user` (Server.py:194-202). */
    static method Enrol(env: Env, users: Database, username: string, record: map<string, Value>) returns (r: Outcome<()>)
      requires users.Valid() && env.Valid()
      modifies env`log, env`draws, env.apiHeaders, env.blankContent
      ensures env.draws == old(env.draws)
      ensures Enrolled(env, old(env.log), users.Info(), username, record,
                       old(env.apiHeaders.items), old(env.blankContent.items), r)
    {
      var doc :- Document.Open(env, users, Some("org.couchdb.user:" + username), env.blankContent);
      match doc.existing {
        case None => r := Raise(AttributeError("exists"));
        case Some(true) => r := Ok(());
        case Some(false) => r := CreateUserDoc(env, doc, record);
      }
    }

    /** `user_doc.content = {...}` and `user_doc.create()` (Server.py:196-202) for a user
        document flagged as missing. */
    static method CreateUserDoc(env: Env, doc: Document, record: map<string, Value>) returns (r: Outcome<()>)
      requires doc.Valid() && doc.existing == Some(false) && doc.revision == Null
      modifies doc`content, doc`existing, doc`revision, env`log, env.apiHeaders
      ensures Registered(env, old(env.log), doc.Caller(), record, old(env.apiHeaders.items), r)
    {
      doc.content := new Dict(record);
      var created :- doc.Create(env);
      r := Ok(());
    }

    /** `delete_user(username)` (Server.py:204-211): the lookup of `_users`, then the user
        document as `Dropped` says. */
    method DeleteUser(env: Env, username: string) returns (r: Outcome<()>)
      requires Valid() && env.Valid()
      modifies env`log, env`draws, env.apiHeaders, env.blankContent
      ensures env.draws == old(env.draws)
      ensures var dbCall := Call(DatabaseAt(info, Str("_users")), "", JsonHeaders, Empty, Empty, "GET", false);
        var resp := env.reply(old(env.log) + [dbCall]);
        && (!resp.Obj? ==>
              && r == Raise(AttributeError("keys")) && env.log == old(env.log) + [dbCall]
              && env.apiHeaders.items == old(env.apiHeaders.items)
              && env.blankContent.items == old(env.blankContent.items))
        && (resp.Obj? ==>
              Dropped(env, old(env.log) + [dbCall], UsersAt(), username,
                      old(env.apiHeaders.items), old(env.blankContent.items), r))
    {
      var users :- Database.Open(env, this, Str("_users"));
      r := Drop(env, users, username);
    }

    /** The user document part of `delete_user` (Server.py:207-211). */
    static method Drop(env: Env, users: Database, username: string) returns (r: Outcome<()>)
      requires users.Valid() && env.Valid()
      modifies env`log, env`draws, env.apiHeaders, env.blankContent
      ensures env.draws == old(env.draws)
      ensures Dropped(env, old(env.log), users.Info(), username, old(env.apiHeaders.items), old(env.blankContent.items), r)
    {
      var doc :- Document.Open(env, users, Some("org.couchdb.user:" + username), env.blankContent);
      match doc.existing {
        case None => r := Raise(AttributeError("exists"));
        case Some(false) => r := Ok(());
        case Some(true) =>
          var gone :- doc.Delete(env);
          r := Ok(());
      }
    }
  }

  /** Node.py:5-42 */
  class Node {
    const server: Server
    const name: string
    const url: string

    predicate Valid()
    {
      server.Valid() && url == NodeUrl(server.info.url, name) && HttpUrl(url)
    }

    function Caller(): Origin
    {
      FromNode(url, server.info)
    }

    /** `Node(server, name)` (Node.py:7-14) */
    constructor (server: Server, name: string)
      requires server.Valid()
      ensures Valid() && this.server == server && this.name == name
    {
      this.server := server;
      this.name := name;
      url := NodeUrl(server.info.url, name);
      NodeUrlValid(server.info.url, name);
    }

    /** `config(section, key, data, method)` (Node.py:17-28): builds `_config[/section[/key]]`
        step by step and sends `data` with the upper-cased verb; without a section it raises
        before sending anything. */
    method Config(env: Env, section: Option<string>, key: Option<string>, data: Value, verb: string)
      returns (r: Outcome<Value>)
      requires Valid()
      modifies env`log
      ensures ConfigEndpoint(section, key).Raise? ==>
        r == Raise(ConfigEndpoint(section, key).error) && env.log == old(env.log)
      ensures ConfigEndpoint(section, key).Ok? ==>
        && env.log == old(env.log) + [Call(Caller(), ConfigEndpoint(section, key).value,
                                                 AcceptJson, data, Empty, Upper(verb), false)]
        && env.log[|old(env.log)|].verb == Upper(verb)
        && r == Ok(env.reply(env.log))
    {
      var endpoint := "_config";
      var headers: Dict? := null;
      if Given(section) {
        endpoint := endpoint + "/" + section.value;
        if Given(key) {
          endpoint := endpoint + "/" + key.value;
        }
        headers := new Dict(AcceptJson);
        assert endpoint == ConfigEndpoint(section, key).value;
      }
      if headers == null {
        return Raise(UnboundLocalError("headers"));
      }
      UpperIdempotent(verb);
      var response, _ := EndpointApi(env, Caller(), endpoint, headers, data, Empty, Upper(verb), false);
      r := Ok(response);
    }

    /** `stats()` (Node.py:31-35) */
    method Stats(env: Env) returns (r: Value)
      requires Valid()
      modifies env`log, env.apiHeaders
      ensures env.apiHeaders.items == FinalHeaders(old(env.apiHeaders.items), Caller(), false, env.transport)
      ensures env.log == old(env.log) + [Call(Caller(), "_stats", old(env.apiHeaders.items), Empty, Empty, "GET", false)]
      ensures r == env.reply(env.log)
    {
      var request;
      r, request := EndpointApi(env, Caller(), "_stats", env.apiHeaders, Empty, Empty, "GET", false);
    }

    /** `system()` (Node.py:38-42) */
    method System(env: Env) returns (r: Value)
      requires Valid()
      modifies env`log, env.apiHeaders
      ensures env.apiHeaders.items == FinalHeaders(old(env.apiHeaders.items), Caller(), false, env.transport)
      ensures env.log == old(env.log) + [Call(Caller(), "_system", old(env.apiHeaders.items), Empty, Empty, "GET", false)]
      ensures r == env.reply(env.log)
    {
      var request;
      r, request := EndpointApi(env, Caller(), "_system", env.apiHeaders, Empty, Empty, "GET", false);
    }
  }

  /** Database.py:9-324 */
  class Database {
    const server: Server
    /** `f"{server.url}{name}/"` with the name given to __init__. */
    const url: string
    /** The given name, or the `db_name` the server reported. */
    var name: Value
    var existing: bool

    predicate Valid()
    {
      server.Valid() && HttpUrl(url) && server.info.url <= url
    }

    function Info(): DatabaseInfo
    {
      DatabaseInfo(url, server.info)
    }

    function Caller(): Origin
    {
      FromDatabase(url, server.info)
    }

    constructor (server: Server, name: Value)
      requires server.Valid()
      ensures Valid() && Caller() == DatabaseAt(server.info, name)
      ensures this.server == server && this.name == name && !existing
    {
      DatabaseAtValid(server.info, name);
      this.server := server;
      url := DatabaseAt(server.info, name).Url();
      this.name := name;
      existing := false;
    }

    /** `Database(server, name)` (Database.py:11-46): one GET of the database URL; a
        `db_name` in the answer marks the database as existing and renames it. The answer is
        read with `keys()`, which fails on anything but a dict. */
    static method Open(env: Env, server: Server, name: Value) returns (r: Outcome<Database>)
      requires server.Valid()
      modifies env`log
      ensures env.log == old(env.log) + [Call(DatabaseAt(server.info, name), "", JsonHeaders, Empty, Empty, "GET", false)]
      ensures var resp := env.reply(env.log);
        && (r.Ok? <==> resp.Obj?)
        && (r.Raise? ==> r.error == AttributeError("keys"))
        && (r.Ok? ==>
              && fresh(r.value) && r.value.Valid() && r.value.server == server
              && r.value.Caller() == DatabaseAt(server.info, name)
              && (r.value.existing <==> "db_name" in resp.fields)
              && r.value.name == if "db_name" in resp.fields then resp.fields["db_name"] else name)
    {
      var db := new Database(server, name);
      var headers := new Dict(JsonHeaders);
      var resp, _ := EndpointApi(env, db.Caller(), "", headers, Empty, Empty, "GET", false);
      var keys :- Keys(resp);
      if "db_name" in keys {
        db.name := keys["db_name"];
        db.existing := true;
      } else {
        db.name := name;
        db.existing := false;
      }
      r := Ok(db);
    }

    /** `create()` (Database.py:52-66): nothing is sent for a database known to exist, and the
        call answers `None`; otherwise a PUT, whose acknowledgement marks it as existing. */
    method Create(env: Env) returns (r: Outcome<Value>)
      requires Valid()
      modifies this`existing, env`log
      ensures old(existing) ==> r == Ok(Null) && existing && env.log == old(env.log)
      ensures !old(existing) ==>
        && env.log == old(env.log) + [Call(Caller(), "", JsonHeaders, Empty, Empty, "PUT", false)]
        && var ack := Acknowledged(env.reply(env.log));
        && (ack.Raise? ==> r == Raise(ack.error) && !existing)
        && (ack.Ok? ==> r == Ok(env.reply(env.log)) && existing == ack.value)
    {
      if existing {
        return Ok(Null);
      }
      var headers := new Dict(JsonHeaders);
      var response, _ := EndpointApi(env, Caller(), "", headers, Empty, Empty, "PUT", false);
      var keys :- Keys(response);
      if "ok" in keys {
        if Truthy(keys["ok"]) {
          existing := true;
        }
      }
      r := Ok(response);
    }

    /** `delete()` (Database.py:69-83): the mirror image of `create`. */
    method Delete(env: Env) returns (r: Outcome<Value>)
      requires Valid()
      modifies this`existing, env`log
      ensures !old(existing) ==> r == Ok(Null) && !existing && env.log == old(env.log)
      ensures old(existing) ==>
        && env.log == old(env.log) + [Call(Caller(), "", JsonHeaders, Empty, Empty, "DELETE", false)]
        && var ack := Acknowledged(env.reply(env.log));
        && (ack.Raise? ==> r == Raise(ack.error) && existing)
        && (ack.Ok? ==> r == Ok(env.reply(env.log)) && existing == !ack.value)
    {
      if !existing {
        return Ok(Null);
      }
      var headers := new Dict(JsonHeaders);
      var response, _ := EndpointApi(env, Caller(), "", headers, Empty, Empty, "DELETE", false);
      var keys :- Keys(response);
      if "ok" in keys {
        if Truthy(keys["ok"]) {
          existing := false;
        }
      }
      r := Ok(response);
    }

    /** `find_by_id(doc_id)` (Database.py:220-223): a `Document` of this database with the
        shared default content dict. */
    method FindById(env: Env, docId: Option<string>) returns (r: Outcome<Document>)
      requires Valid()
      modifies env`log, env`draws, env.blankContent
      ensures r.Ok? ==> fresh(r.value)
      ensures Given(docId) ==>
        env.draws == old(env.draws) && Fetched(env, old(env.log), this, docId.value, env.blankContent, old(env.blankContent.items), r)
      ensures !Given(docId) ==> Drawn(env, old(env.log), old(env.draws), this, env.blankContent, old(env.blankContent.items), r)
    {
      r := Document.Open(env, this, docId, env.blankContent);
    }

    /** The endpoint of the security document, relative to the server. */
    function SecurityEndpoint(): string
      reads this
    {
      Format(name) + "/_security"
    }

    /** `get_security_data()` (Database.py:104-108): a GET through the server, with the
        server's shared default header dict. */
    method GetSecurityData(env: Env) returns (r: Value)
      requires Valid()
      modifies env`log, env.endpointHeaders
      ensures env.endpointHeaders.items == FinalHeaders(old(env.endpointHeaders.items), server.Caller(), false, env.transport)
      ensures env.log == old(env.log) + [Call(server.Caller(), SecurityEndpoint(), old(env.endpointHeaders.items), Null, Null, "GET", false)]
      ensures r == env.reply(env.log)
    {
      r := server.Endpoint(env, SecurityEndpoint(), env.endpointHeaders, Null, Null, "GET", false);
    }

    /** `set_security_data(definition)` (Database.py:110-113): a PUT of the definition. */
    method SetSecurityData(env: Env, definition: Value)
      requires Valid()
      modifies env`log, env.endpointHeaders
      ensures env.endpointHeaders.items == FinalHeaders(old(env.endpointHeaders.items), server.Caller(), false, env.transport)
      ensures env.log == old(env.log) + [Call(server.Caller(), SecurityEndpoint(), old(env.endpointHeaders.items), Null, definition, "PUT", false)]
    {
      var response := server.Endpoint(env, SecurityEndpoint(), env.endpointHeaders, Null, definition, "PUT", false);
    }

    /** The exchange of one edit of the security document: the GET of it, then, when
        `EditSecurity` changes the list, the PUT of the edited document, with the headers of
        the GET; an answer the edit cannot read raises and nothing more is sent. Either way the
        shared default dict ends up holding `h` with the injected headers. */
    ghost predicate SecurityEdited(env: Env, before: seq<Call>, h: map<string, Value>,
                                   section: string, field: string, entry: string, add: bool, r: Outcome<()>)
      requires Valid()
      reads this, env, env.endpointHeaders
    {
      var get := Call(server.Caller(), SecurityEndpoint(), h, Null, Null, "GET", false);
      && env.endpointHeaders.items == FinalHeaders(h, server.Caller(), false, env.transport)
      && |env.log| > |before|
      && env.log[..|before| + 1] == before + [get]
      && var e := EditSecurity(env.reply(env.log[..|before| + 1]), section, field, entry, add);
      && (e.Raise? ==> r == Raise(e.error) && |env.log| == |before| + 1)
      && (e == Ok(None) ==> r == Ok(()) && |env.log| == |before| + 1)
      && (e.Ok? && e.value.Some? ==>
            && r == Ok(())
            && env.log == before + [get, Call(server.Caller(), SecurityEndpoint(), FinalHeaders(h, server.Caller(), false, env.transport),
                                              Null, e.value.value, "PUT", false)])
    }

    /** The body shared by the eight add/remove methods (Database.py:115-217): read the
        security document, edit one list and push the document back when it changed. */
    method ChangeSecurity(env: Env, section: string, field: string, entry: string, add: bool) returns (r: Outcome<()>)
      requires Valid()
      modifies env`log, env.endpointHeaders
      ensures SecurityEdited(env, old(env.log), old(env.endpointHeaders.items), section, field, entry, add, r)
    {
      ghost var h := env.endpointHeaders.items;
      var secData := GetSecurityData(env);
      ghost var read := env.log;
      var edit :- EditSecurity(secData, section, field, entry, add);
      if edit.Some? {
        FinalHeadersSettle(env.transport, server.Caller(), server.Caller(), h, false);
        SetSecurityData(env, edit.value);
        assert env.log[..|read|] == read;
      }
      r := Ok(());
    }

    /** `add_admin_user(username)` (Database.py:115-125) */
    method AddAdminUser(env: Env, username: string) returns (r: Outcome<()>)
      requires Valid()
      modifies env`log, env.endpointHeaders
      ensures SecurityEdited(env, old(env.log), old(env.endpointHeaders.items), "admins", "names", username, true, r)
    {
      r := ChangeSecurity(env, "admins", "names", username, true);
    }

    /** `remove_admin_user(username)` (Database.py:127-139) */
    method RemoveAdminUser(env: Env, username: string) returns (r: Outcome<()>)
      requires Valid()
      modifies env`log, env.endpointHeaders
      ensures SecurityEdited(env, old(env.log), old(env.endpointHeaders.items), "admins", "names", username, false, r)
    {
      r := ChangeSecurity(env, "admins", "names", username, false);
    }

    /** `add_admin_role(role_name)` (Database.py:141-151) */
    method AddAdminRole(env: Env, roleName: string) returns (r: Outcome<()>)
      requires Valid()
      modifies env`log, env.endpointHeaders
      ensures SecurityEdited(env, old(env.log), old(env.endpointHeaders.items), "admins", "roles", roleName, true, r)
    {
      r := ChangeSecurity(env, "admins", "roles", roleName, true);
    }

    /** `remove_admin_role(role_name)` (Database.py:153-165) */
    method RemoveAdminRole(env: Env, roleName: string) returns (r: Outcome<()>)
      requires Valid()
      modifies env`log, env.endpointHeaders
      ensures SecurityEdited(env, old(env.log), old(env.endpointHeaders.items), "admins", "roles", roleName, false, r)
    {
      r := ChangeSecurity(env, "admins", "roles", roleName, false);
    }

    /** `add_member_user(username)` (Database.py:167-177) */
    method AddMemberUser(env: Env, username: string) returns (r: Outcome<()>)
      requires Valid()
      modifies env`log, env.endpointHeaders
      ensures SecurityEdited(env, old(env.log), old(env.endpointHeaders.items), "members", "names", username, true, r)
    {
      r := ChangeSecurity(env, "members", "names", username, true);
    }

    /** `remove_member_user(username)` (Database.py:179-191) */
    method RemoveMemberUser(env: Env, username: string) returns (r: Outcome<()>)
      requires Valid()
      modifies env`log, env.endpointHeaders
      ensures SecurityEdited(env, old(env.log), old(env.endpointHeaders.items), "members", "names", username, false, r)
    {
      r := ChangeSecurity(env, "members", "names", username, false);
    }

    /** `add_member_role(role_name)` (Database.py:193-203) */
    method AddMemberRole(env: Env, roleName: string) returns (r: Outcome<()>)
      requires Valid()
      modifies env`log, env.endpointHeaders
      ensures SecurityEdited(env, old(env.log), old(env.endpointHeaders.items), "members", "roles", roleName, true, r)
    {
      r := ChangeSecurity(env, "members", "roles", roleName, true);
    }

    /** `remove_member_role(role_name)` (Database.py:205-217) */
    method RemoveMemberRole(env: Env, roleName: string) returns (r: Outcome<()>)
      requires Valid()
      modifies env`log, env.endpointHeaders
      ensures SecurityEdited(env, old(env.log), old(env.endpointHeaders.items), "members", "roles", roleName, false, r)
    {
      r := ChangeSecurity(env, "members", "roles", roleName, false);
    }

    /** `purge_all()` (Database.py:292-320): POSTs the deleted-documents selector to
        `_changes`, draws a purge id, collects the revisions of the deleted entries at the last
        sequence and POSTs them under that id to `_purge`, reusing the header dict. */
    method PurgeAll(env: Env) returns (r: Outcome<Value>)
      requires Valid()
      modifies env`log, env`draws
      ensures env.draws == old(env.draws) + 1
      ensures |env.log| > |old(env.log)|
      ensures env.log[..|old(env.log)| + 1]
              == old(env.log) + [Call(Caller(), "_changes", JsonHeaders, DeletedSelector, Empty, "POST", false)]
      ensures var revs := PurgeRequestRevs(env.reply(env.log[..|old(env.log)| + 1]));
        && (revs.Raise? ==> r == Raise(revs.error) && |env.log| == |old(env.log)| + 1)
        && (revs.Ok? ==>
              && |env.log| == |old(env.log)| + 2
              && env.log[|old(env.log)| + 1]
                 == Call(Caller(), "_purge", FinalHeaders(JsonHeaders, Caller(), false, env.transport),
                               Obj(map[env.uuidHex(old(env.draws)) := Arr(revs.value)]), Empty, "POST", false)
              && r == Ok(env.reply(env.log)))
    {
      var headers := new Dict(JsonHeaders);
      var changes, _ := EndpointApi(env, Caller(), "_changes", headers, DeletedSelector, Empty, "POST", false);
      ghost var asked := env.log;
      var purgeId := env.Draw();
      var latest :- Index(changes, "last_seq");
      var results :- Index(changes, "results");
      var revs :- CollectPurgeRevs(results, latest);
      var data := Obj(map[purgeId := Arr(revs)]);
      var purge, _ := EndpointApi(env, Caller(), "_purge", headers, data, Empty, "POST", false);
      assert env.log[..|asked|] == asked;
      r := Ok(purge);
    }

    /** `sync_shards()` (Database.py:323-324) */
    method SyncShards(env: Env) returns (r: Value)
      requires Valid()
      modifies env`log, env.apiHeaders
      ensures env.apiHeaders.items == FinalHeaders(old(env.apiHeaders.items), Caller(), false, env.transport)
      ensures env.log == old(env.log) + [Call(Caller(), "_sync_shards", old(env.apiHeaders.items), Empty, Empty, "POST", false)]
      ensures r == env.reply(env.log)
    {
      var request;
      r, request := EndpointApi(env, Caller(), "_sync_shards", env.apiHeaders, Empty, Empty, "POST", false);
    }
  }

  /** The caller a `Document(database, id)` is: the database URL followed by the id
      (Document.py:24, 58). */
  function DocumentAt(db: DatabaseInfo, id: string): Origin
  {
    FromDocument(db.url + id, db)
  }

  /** The lookup a document makes of itself when constructed with an id (Document.py:20-26). */
  function LookupCall(o: Origin): Call
  {
    Call(o, "", AcceptJson, Empty, Empty, "GET", false)
  }

  /** The lookups of the id search in `database` (Document.py:40-55): the `k`-th asks for the
      `k`-th id drawn from `start` on, through one header dict that holds `AcceptJson` at the
      first lookup and `later` at the others. */
  function IdLookups(database: Origin, ids: nat -> Hex, start: nat, later: map<string, Value>, n: nat): (cs: seq<Call>)
    ensures |cs| == n
  {
    if n == 0 then []
    else IdLookups(database, ids, start, later, n - 1)
         + [Call(database, ids(start + n - 1), if n == 1 then AcceptJson else later, Empty, Empty, "GET", false)]
  }

  /** The answers of the id search: the `k`-th is the reply to the log after the `k`-th lookup. */
  function IdAnswers(reply: seq<Call> -> Value, log: seq<Call>, database: Origin, ids: nat -> Hex, start: nat,
                     later: map<string, Value>): nat -> Value
  {
    (k: nat) => reply(log + IdLookups(database, ids, start, later, k + 1))
  }

  /** The id search only reads: every lookup it sends is a GET. */
  lemma IdLookupsRead(log0: seq<Call>, database: Origin, ids: nat -> Hex, start: nat, later: map<string, Value>, n: nat)
    ensures ReadsOnly(log0, log0 + IdLookups(database, ids, start, later, n))
  {
    var cs := IdLookups(database, ids, start, later, n);
    forall j | |log0| <= j < |log0 + cs|
      ensures (log0 + cs)[j].verb == "GET"
    {
      IdLookupsAt(database, ids, start, later, n, j - |log0|);
    }
  }

  lemma IdAnswersAt(reply: seq<Call> -> Value, log: seq<Call>, database: Origin, ids: nat -> Hex, start: nat,
                    later: map<string, Value>, k: nat)
    ensures IdAnswers(reply, log, database, ids, start, later)(k) == reply(log + IdLookups(database, ids, start, later, k + 1))
  {
  }

  /** Where the id search stands after `rounds` redraws: `rounds + 1` ids drawn and looked
      up, the header dict as the first lookup left it, `docId` the last id and `keys` its
      answer, and the rest of the search still to come. */
  ghost predicate Searching(reply: seq<Call> -> Value, log0: seq<Call>, database: Origin, ids: nat -> Hex, d0: nat,
                            later: map<string, Value>, fuel: nat, rounds: nat,
                            log: seq<Call>, draws: nat, headers: map<string, Value>, docId: string, keys: map<string, Value>)
  {
    var a := IdAnswers(reply, log0, database, ids, d0, later);
    && rounds <= fuel && draws == d0 + rounds + 1
    && log == log0 + IdLookups(database, ids, d0, later, rounds + 1)
    && headers == later && docId == ids(d0 + rounds)
    && a(0).Obj? && "id" in a(0).fields && a(rounds) == Obj(keys)
    && IdSearch(a, fuel) == Redraw(a, rounds, fuel)
  }

  /** How the id search ended: the draws and lookups it made, and its outcome, the last id
      drawn when it settles. */
  ghost predicate Searched(reply: seq<Call> -> Value, log0: seq<Call>, database: Origin, ids: nat -> Hex, d0: nat,
                           later: map<string, Value>, fuel: nat, log: seq<Call>, draws: nat, r: Outcome<Hex>)
  {
    var s := IdSearch(IdAnswers(reply, log0, database, ids, d0, later), fuel);
    && draws == d0 + s.0
    && log == log0 + IdLookups(database, ids, d0, later, s.0)
    && (s.1.Raise? ==> r == Raise(s.1.error))
    && (s.1.Ok? ==> r == Ok(ids(d0 + s.0 - 1)))
  }

  /** How the search ends where the loop leaves it. */
  lemma SearchEnds(reply: seq<Call> -> Value, log0: seq<Call>, database: Origin, ids: nat -> Hex, d0: nat,
                   later: map<string, Value>, fuel: nat, rounds: nat,
                   log: seq<Call>, draws: nat, headers: map<string, Value>, docId: string, keys: map<string, Value>)
    requires Searching(reply, log0, database, ids, d0, later, fuel, rounds, log, draws, headers, docId, keys)
    ensures "error" in keys ==> Searched(reply, log0, database, ids, d0, later, fuel, log, draws, Ok(docId))
    ensures "error" !in keys && rounds == fuel ==>
      Searched(reply, log0, database, ids, d0, later, fuel, log, draws, Raise(StillLooping))
  {
    RedrawEnd(IdAnswers(reply, log0, database, ids, d0, later), rounds, fuel);
  }

  /** The `k`-th lookup names the `k`-th id drawn. */
  lemma {:induction false} IdLookupsAt(database: Origin, ids: nat -> Hex, start: nat, later: map<string, Value>, n: nat, k: nat)
    requires k < n
    ensures IdLookups(database, ids, start, later, n)[k]
            == Call(database, ids(start + k), if k == 0 then AcceptJson else later, Empty, Empty, "GET", false)
  {
    if k < n - 1 {
      IdLookupsAt(database, ids, start, later, n - 1, k);
    }
  }

  /** What a document constructed with an id leaves (Document.py:23-38): one lookup of its
      URL, then what `ClassifyLookup` concludes from the answer; a found document has every
      key of the answer copied into its content dict. */
  ghost predicate Fetched(env: Env, log0: seq<Call>, database: Database, id: string, content: Dict,
                          items0: map<string, Value>, r: Outcome<Document>)
    reads env, content, if r.Ok? then {r.value} else {}
  {
    var look := LookupCall(DocumentAt(database.Info(), id));
    var resp := env.reply(log0 + [look]);
    var l := ClassifyLookup(resp);
    && env.log == log0 + [look]
    && (l.Raise? ==> r == Raise(l.error) && content.items == items0)
    && (l.Ok? ==>
          && r.Ok? && r.value.Valid()
          && r.value.database == database && r.value.id == id && r.value.content == content
          && r.value.existing == LookupExists(l.value) && r.value.revision == LookupRevision(l.value)
          && content.items == if l.value.Found? then items0 + resp.fields else items0)
  }

  /** What a document constructed without an id leaves (Document.py:40-59): the lookups and
      draws of the id search; when it settles, a missing document with the last id drawn, that
      id written into its content dict. */
  ghost predicate Drawn(env: Env, log0: seq<Call>, draws0: nat, database: Database, content: Dict,
                        items0: map<string, Value>, r: Outcome<Document>)
    requires database.Valid()
    reads env, content, if r.Ok? then {r.value} else {}
  {
    var later := FinalHeaders(AcceptJson, database.Caller(), false, env.transport);
    var s := IdSearch(IdAnswers(env.reply, log0, database.Caller(), env.uuidHex, draws0, later), env.fuel);
    && env.draws == draws0 + s.0
    && env.log == log0 + IdLookups(database.Caller(), env.uuidHex, draws0, later, s.0)
    && (s.1.Raise? ==> r == Raise(s.1.error) && content.items == items0)
    && (s.1.Ok? ==>
          && r.Ok? && r.value.Valid()
          && r.value.database == database && r.value.id == env.uuidHex(draws0 + s.0 - 1)
          && r.value.content == content
          && r.value.existing == Some(false) && r.value.revision == Null
          && content.items == items0["_id" := Str(r.value.id)])
  }

  /** What the PUT of `create` (Document.py:94-104) leaves after the log `log0`: the body
      sent, and the revision and flag `AfterCreate` reads off the answer, which is the result. */
  ghost predicate Stored(env: Env, log0: seq<Call>, o: Origin, body: Value, rev0: Value, existing0: Option<bool>,
                         revision: Value, existing: Option<bool>, r: Outcome<Value>)
    reads env
  {
    var put := Call(o, "", JsonHeaders, Empty, body, "PUT", false);
    var after := AfterCreate(env.reply(log0 + [put]), rev0, existing0);
    && env.log == log0 + [put]
    && (after.Raise? ==> r == Raise(after.error) && revision == rev0 && existing == existing0)
    && (after.Ok? ==> r == Ok(env.reply(env.log)) && (revision, existing) == after.value)
  }

  /** What `delete` (Document.py:142-153) leaves after its re-read, which ended with the log
      `log0` and the revision `rev`: `is_there` through the default header dict holding `h0`,
      and a DELETE guarded by `rev` only when it answers `True`; its answer is the result, and
      `None` stands for any other outcome of `is_there`. */
  ghost predicate Discarded(env: Env, log0: seq<Call>, o: Origin, h0: map<string, Value>, rev: Value,
                            existing0: Option<bool>, existing: Option<bool>, r: Outcome<Value>)
    reads env
  {
    var log1 := log0 + [Call(o, "", h0, Empty, Empty, "GET", false)];
    var p := Presence(env.reply(log1));
    var del := Call(o, "", AcceptJson["If-Match" := rev], Empty, Empty, "DELETE", false);
    && existing == (if p.Ok? then ExistsAfter(p.value, existing0) else existing0)
    && (p.Raise? ==> r == Raise(p.error) && env.log == log1)
    && (p.Ok? && p.value != Some(true) ==> r == Ok(Null) && env.log == log1)
    && (p == Ok(Some(true)) ==> env.log == log1 + [del] && r == Ok(env.reply(env.log)))
  }

  /** What `current_revision` (Document.py:107-112) leaves after the log `log0`: one lookup of
      the document's URL by a fresh `Document` with the shared default content dict; when the
      lookup settles, the revision it read and that dict become the document's. */
  ghost predicate Refreshed(env: Env, log0: seq<Call>, o: Origin, blank0: map<string, Value>,
                            rev0: Value, content0: Dict, revision: Value, content: Dict, r: Outcome<()>)
    reads env, env.blankContent
  {
    var rr := Reread(env.reply(log0 + [LookupCall(o)]), blank0);
    && env.log == log0 + [LookupCall(o)]
    && (rr.Raise? ==> r == Raise(rr.error) && revision == rev0 && content == content0 && env.blankContent.items == blank0)
    && (rr.Ok? ==> r == Ok(()) && revision == rr.value.0 && content == env.blankContent && env.blankContent.items == rr.value.1)
  }

  /** The saving half of `update` (Document.py:126-134) after the log `log0`: a PUT of
      `snapshot` guarded by the revision `rev`, then `current_revision`; the answer to the PUT
      is the result. */
  ghost predicate Saved(env: Env, log0: seq<Call>, o: Origin, rev: Value, snapshot: Value, blank0: map<string, Value>,
                        rev0: Value, content0: Dict, revision: Value, content: Dict, r: Outcome<Value>)
    reads env, env.blankContent
  {
    var put := Call(o, "", JsonHeaders["If-Match" := rev], Empty, snapshot, "PUT", false);
    && Refreshed(env, log0 + [put], o, blank0, rev0, content0, revision, content, if r.Raise? then Raise(r.error) else Ok(()))
    && (r.Ok? ==> r.value == env.reply(log0 + [put]))
  }

  /** The user document `org.couchdb.user:<username>` of the `_users` database at `users`
      (Server.py:194, 207). */
  function UserDocAt(users: DatabaseInfo, username: string): Origin
  {
    DocumentAt(users, "org.couchdb.user:" + username)
  }

  /** What `add_user` (Server.py:194-202) leaves after the lookup of `_users` ended the log
      `log0`: the lookup of the user document through the shared default content dict; a
      document found stays as it is and an unsettled flag raises; a missing one is created
      with `record`, and `create` may still find it there and send nothing. */
  ghost predicate Enrolled(env: Env, log0: seq<Call>, users: DatabaseInfo, username: string, record: map<string, Value>,
                           h0: map<string, Value>, blank0: map<string, Value>, r: Outcome<()>)
    reads env, env.apiHeaders, env.blankContent
  {
    var o := UserDocAt(users, username);
    var log1 := log0 + [LookupCall(o)];
    var resp := env.reply(log1);
    var l := ClassifyLookup(resp);
    && env.blankContent.items == (if l.Ok? && l.value.Found? then blank0 + resp.fields else blank0)
    && (l.Raise? ==> r == Raise(l.error))
    && (l.Ok? && l.value.Unsettled? ==> r == Raise(AttributeError("exists")))
    && (l.Ok? && l.value.Found? ==> r == Ok(()))
    && (!(l.Ok? && l.value.Missing?) ==> env.log == log1 && env.apiHeaders.items == h0)
    && (l.Ok? && l.value.Missing? ==> Registered(env, log1, o, record, h0, r))
  }

  /** The `create` of a missing user document holding `record` after the log `log0`:
      `is_there` through the default header dict holding `h0`, and the PUT of the record unless
      that finds the document. */
  ghost predicate Registered(env: Env, log0: seq<Call>, o: Origin, record: map<string, Value>,
                             h0: map<string, Value>, r: Outcome<()>)
    reads env, env.apiHeaders
  {
    var ask := Call(o, "", h0, Empty, Empty, "GET", false);
    var p := Presence(env.reply(log0 + [ask]));
    var put := Call(o, "", JsonHeaders, Empty, Obj(record), "PUT", false);
    var after := AfterCreate(env.reply(log0 + [ask, put]), Null, Some(false));
    && env.apiHeaders.items == FinalHeaders(h0, o, false, env.transport)
    && (p.Raise? ==> r == Raise(p.error) && env.log == log0 + [ask])
    && (p == Ok(Some(true)) ==> r == Ok(()) && env.log == log0 + [ask])
    && (p.Ok? && p.value != Some(true) ==>
          && env.log == log0 + [ask, put]
          && r == if after.Raise? then Raise(after.error) else Ok(()))
  }

  /** What `delete_user` (Server.py:206-211) leaves after the lookup of `_users` ended the log
      `log0`: the lookup of the user document; only a found one is deleted, which re-reads it,
      asks `is_there`, and sends the DELETE under the revision re-read when that answers
      `True`; an unsettled flag raises. */
  ghost predicate Dropped(env: Env, log0: seq<Call>, users: DatabaseInfo, username: string,
                          h0: map<string, Value>, blank0: map<string, Value>, r: Outcome<()>)
    reads env, env.apiHeaders, env.blankContent
  {
    var o := UserDocAt(users, username);
    var log1 := log0 + [LookupCall(o)];
    var resp := env.reply(log1);
    var l := ClassifyLookup(resp);
    && (l.Raise? ==> r == Raise(l.error))
    && (l.Ok? && l.value.Unsettled? ==> r == Raise(AttributeError("exists")))
    && (l.Ok? && l.value.Missing? ==> r == Ok(()))
    && (!(l.Ok? && l.value.Found?) ==>
          env.log == log1 && env.apiHeaders.items == h0 && env.blankContent.items == blank0)
    && (l.Ok? && l.value.Found? ==>
          var blank1 := blank0 + resp.fields;
          var log2 := log1 + [LookupCall(o)];
          var rr := Reread(env.reply(log2), blank1);
          && (rr.Raise? ==>
                r == Raise(rr.error) && env.log == log2 && env.apiHeaders.items == h0 && env.blankContent.items == blank1)
          && (rr.Ok? ==>
                var log3 := log2 + [Call(o, "", h0, Empty, Empty, "GET", false)];
                var p := Presence(env.reply(log3));
                var del := Call(o, "", AcceptJson["If-Match" := rr.value.0], Empty, Empty, "DELETE", false);
                && env.blankContent.items == rr.value.1
                && env.apiHeaders.items == FinalHeaders(h0, o, false, env.transport)
                && (p.Raise? ==> r == Raise(p.error) && env.log == log3)
                && (p.Ok? && p.value != Some(true) ==> r == Ok(()) && env.log == log3)
                && (p == Ok(Some(true)) ==> r == Ok(()) && env.log == log3 + [del])))
  }

  /** Document.py:8-153 */
  class Document {
    const database: Database
    /** The id given, or the one the search settled on. */
    const id: string
    /** `f"{database.url}{id}"` */
    const url: string
    /** The dict handed to __init__, or later the one a re-read produced. */
    var content: Dict
    var revision: Value
    /** `self.exists`; `None` while the attribute is unset. */
    var existing: Option<bool>

    predicate Valid()
    {
      database.Valid() && id != "" && url == database.url + id && HttpUrl(url)
    }

    function Caller(): Origin
    {
      DocumentAt(database.Info(), id)
    }

    constructor (database: Database, id: string, content: Dict)
      requires database.Valid() && id != ""
      ensures Valid() && this.database == database && this.id == id && this.content == content
      ensures revision == Null && existing == None
    {
      this.database := database;
      this.id := id;
      url := database.url + id;
      this.content := content;
      revision := Null;
      existing := None;
      HttpUrlExtend(database.url, id);
    }

    /** `Document(database, doc_id, content)` (Document.py:10-59). With an id, the document
        looks itself up and settles as `Fetch` says. Without one, ids are drawn until the
        search of `DrawId` settles; the document is then marked as missing, and its id is
        written into the given content dict. */
    static method Open(env: Env, database: Database, docId: Option<string>, content: Dict)
      returns (r: Outcome<Document>)
      requires database.Valid()
      modifies env`log, env`draws, content
      ensures r.Ok? ==> fresh(r.value)
      ensures Given(docId) ==>
        env.draws == old(env.draws) && Fetched(env, old(env.log), database, docId.value, content, old(content.items), r)
      ensures !Given(docId) ==> Drawn(env, old(env.log), old(env.draws), database, content, old(content.items), r)
    {
      if Given(docId) {
        r := Fetch(env, database, docId.value, content);
      } else {
        var id :- DrawId(env, database);
        var doc := new Document(database, id, content);
        doc.existing := Some(false);
        content.items := content.items["_id" := Str(id)];
        r := Ok(doc);
      }
    }

    /** The branch with an id (Document.py:23-38): the lookup of the document's own URL, then
        what `ClassifyLookup` concludes; a found document copies every key of the answer into
        the content dict. */
    static method Fetch(env: Env, database: Database, id: string, content: Dict) returns (r: Outcome<Document>)
      requires database.Valid() && id != ""
      modifies env`log, content
      ensures r.Ok? ==> fresh(r.value)
      ensures Fetched(env, old(env.log), database, id, content, old(content.items), r)
    {
      var doc := new Document(database, id, content);
      var headers := new Dict(AcceptJson);
      var resp, _ := EndpointApi(env, doc.Caller(), "", headers, Empty, Empty, "GET", false);
      var lookup :- ClassifyLookup(resp);
      match lookup {
        case Missing =>
          doc.existing := Some(false);
        case Unsettled =>
        case Found(rev) =>
          doc.existing := Some(true);
          doc.revision := rev;
          content.CopyFrom(resp.fields);
      }
      r := Ok(doc);
    }

    /** The branch without an id (Document.py:40-55): a first lookup of a drawn id through the
        database, and while its answers call for it, lookups of new ids through the same header
        dict. The result is the last id drawn. */
    static method DrawId(env: Env, database: Database) returns (r: Outcome<Hex>)
      requires database.Valid()
      modifies env`log, env`draws
      ensures Searched(env.reply, old(env.log), database.Caller(), env.uuidHex, old(env.draws),
                       FinalHeaders(AcceptJson, database.Caller(), false, env.transport), env.fuel, env.log, env.draws, r)
      ensures ReadsOnly(old(env.log), env.log)
    {
      ghost var log0, d0 := env.log, env.draws;
      var caller := database.Caller();
      ghost var later := FinalHeaders(AcceptJson, caller, false, env.transport);
      forall n: nat
        ensures ReadsOnly(log0, log0 + IdLookups(caller, env.uuidHex, d0, later, n))
      {
        IdLookupsRead(log0, caller, env.uuidHex, d0, later, n);
      }
      var docId, headers, lookup := FirstLookup(env, caller, later);
      IdAnswersAt(env.reply, log0, caller, env.uuidHex, d0, later, 0);
      var keys :- Keys(lookup);
      if "id" in keys {
        r := Search(env, caller, headers, log0, d0, later, docId, keys);
      } else {
        r := Ok(docId);
      }
    }

    /** The loop of the search (Document.py:48-55), after a first answer with `id`: a new id
        while the current answer lacks `error`. */
    static method Search(env: Env, caller: Origin, headers: Dict, ghost log0: seq<Call>, ghost d0: nat,
                         ghost later: map<string, Value>, docId: Hex, keys: map<string, Value>)
      returns (r: Outcome<Hex>)
      requires caller.Valid() && later == FinalHeaders(AcceptJson, caller, false, env.transport)
      requires Searching(env.reply, log0, caller, env.uuidHex, d0, later, env.fuel, 0,
                         env.log, env.draws, headers.items, docId, keys)
      modifies env`log, env`draws, headers
      ensures Searched(env.reply, log0, caller, env.uuidHex, d0, later, env.fuel, env.log, env.draws, r)
    {
      var id, answer := docId, keys;
      var rounds := 0;
      while "error" !in answer
        invariant Searching(env.reply, log0, caller, env.uuidHex, d0, later, env.fuel, rounds,
                            env.log, env.draws, headers.items, id, answer)
        decreases env.fuel - rounds
      {
        if rounds == env.fuel {
          SearchEnds(env.reply, log0, caller, env.uuidHex, d0, later, env.fuel, rounds, env.log, env.draws, headers.items, id, answer);
          return Raise(StillLooping);
        }
        var next := Redrawn(env, caller, headers, log0, d0, later, rounds, id, answer);
        if next.Raise? {
          return Raise(next.error);
        }
        id, answer := next.value.0, next.value.1;
        rounds := rounds + 1;
      }
      SearchEnds(env.reply, log0, caller, env.uuidHex, d0, later, env.fuel, rounds, env.log, env.draws, headers.items, id, answer);
      r := Ok(id);
    }

    /** One round of the loop: a new id, its lookup through the same header dict, and the
        answer's keys; an answer that is not a dict raises, as the search says. */
    static method Redrawn(env: Env, caller: Origin, headers: Dict, ghost log0: seq<Call>, ghost d0: nat,
                          ghost later: map<string, Value>, rounds: nat, docId: Hex, keys: map<string, Value>)
      returns (r: Outcome<(Hex, map<string, Value>)>)
      requires caller.Valid() && later == FinalHeaders(AcceptJson, caller, false, env.transport)
      requires rounds < env.fuel && "error" !in keys
      requires Searching(env.reply, log0, caller, env.uuidHex, d0, later, env.fuel, rounds,
                         env.log, env.draws, headers.items, docId, keys)
      modifies env`log, env`draws, headers
      ensures r.Raise? ==> Searched(env.reply, log0, caller, env.uuidHex, d0, later, env.fuel, env.log, env.draws, Raise(r.error))
      ensures r.Ok? ==> Searching(env.reply, log0, caller, env.uuidHex, d0, later, env.fuel, rounds + 1,
                                  env.log, env.draws, headers.items, r.value.0, r.value.1)
    {
      ghost var a := IdAnswers(env.reply, log0, caller, env.uuidHex, d0, later);
      RedrawNext(a, rounds, env.fuel);
      var next, lookup := NextLookup(env, caller, headers, log0, d0, later, rounds);
      IdAnswersAt(env.reply, log0, caller, env.uuidHex, d0, later, rounds + 1);
      RedrawEnd(a, rounds + 1, env.fuel);
      var more :- Keys(lookup);
      r := Ok((next, more));
    }

    /** The first lookup of the search: one drawn id, asked of the database with a new header
        dict, which holds `later` afterwards. */
    static method FirstLookup(env: Env, caller: Origin, ghost later: map<string, Value>)
      returns (docId: Hex, headers: Dict, lookup: Value)
      requires caller.Valid() && later == FinalHeaders(AcceptJson, caller, false, env.transport)
      modifies env`log, env`draws
      ensures fresh(headers) && headers.items == later
      ensures env.draws == old(env.draws) + 1 && docId == env.uuidHex(old(env.draws))
      ensures env.log == old(env.log) + IdLookups(caller, env.uuidHex, old(env.draws), later, 1)
      ensures lookup == env.reply(env.log)
    {
      docId := env.Draw();
      headers := new Dict(AcceptJson);
      var request;
      lookup, request := EndpointApi(env, caller, docId, headers, Empty, Empty, "GET", false);
    }

    /** One redraw of the loop: the `k + 1`-th lookup, with the header dict as the first
        lookup left it. */
    static method NextLookup(env: Env, caller: Origin, headers: Dict, ghost log0: seq<Call>, ghost d0: nat,
                             ghost later: map<string, Value>, ghost k: nat)
      returns (docId: Hex, lookup: Value)
      requires caller.Valid() && later == FinalHeaders(AcceptJson, caller, false, env.transport)
      requires headers.items == later && env.draws == d0 + k + 1
      requires env.log == log0 + IdLookups(caller, env.uuidHex, d0, later, k + 1)
      modifies env`log, env`draws, headers
      ensures headers.items == later
      ensures env.draws == d0 + k + 2 && docId == env.uuidHex(d0 + k + 1)
      ensures env.log == log0 + IdLookups(caller, env.uuidHex, d0, later, k + 2)
      ensures lookup == env.reply(env.log)
    {
      FinalHeadersSettle(env.transport, caller, caller, AcceptJson, false);
      docId := env.Draw();
      var request;
      lookup, request := EndpointApi(env, caller, docId, headers, Empty, Empty, "GET", false);
    }

    /** `is_there()` (Document.py:78-83): a GET of the document's URL through the shared
        default header dict; the answer decides the result and the flag as `Presence` says. */
    method IsThere(env: Env) returns (r: Outcome<Option<bool>>)
      requires Valid()
      modifies this`existing, env`log, env.apiHeaders
      ensures env.apiHeaders.items == FinalHeaders(old(env.apiHeaders.items), Caller(), false, env.transport)
      ensures env.log == old(env.log) + [Call(Caller(), "", old(env.apiHeaders.items), Empty, Empty, "GET", false)]
      ensures r == Presence(env.reply(env.log))
      ensures existing == if r.Ok? then ExistsAfter(r.value, old(existing)) else old(existing)
    {
      var response, request := EndpointApi(env, Caller(), "", env.apiHeaders, Empty, Empty, "GET", false);
      var keys :- Keys(response);
      if "error" in keys {
        existing := Some(false);
        r := Ok(Some(false));
      } else if "_id" in keys {
        existing := Some(true);
        r := Ok(Some(true));
      } else {
        r := Ok(None);
      }
    }

    /** `create()` (Document.py:86-104): `is_there`, then nothing more for a document that
        exists, and a PUT of the content for one that does not; a `rev` in the answer becomes
        the revision and marks the document as existing. An unset flag raises. */
    method Create(env: Env) returns (r: Outcome<Value>)
      requires Valid()
      modifies this`existing, this`revision, env`log, env.apiHeaders
      ensures env.apiHeaders.items == FinalHeaders(old(env.apiHeaders.items), Caller(), false, env.transport)
      ensures var ask := Call(Caller(), "", old(env.apiHeaders.items), Empty, Empty, "GET", false);
        var p := Presence(env.reply(old(env.log) + [ask]));
        var e := if p.Ok? then ExistsAfter(p.value, old(existing)) else old(existing);
        && (p.Raise? ==> r == Raise(p.error))
        && (p.Raise? || e != Some(false) ==> env.log == old(env.log) + [ask] && existing == e && revision == old(revision))
        && (p.Ok? && e == None ==> r == Raise(AttributeError("exists")))
        && (p.Ok? && e == Some(true) ==> r == Ok(AlreadyExists))
        && (p.Ok? && e == Some(false) ==>
              Stored(env, old(env.log) + [ask], Caller(), Obj(content.items), old(revision), e, revision, existing, r))
    {
      var found :- IsThere(env);
      match existing {
        case None => r := Raise(AttributeError("exists"));
        case Some(true) => r := Ok(AlreadyExists);
        case Some(false) => r := Put(env);
      }
    }

    /** The PUT of `create` (Document.py:94-104). */
    method Put(env: Env) returns (r: Outcome<Value>)
      requires Valid()
      modifies this`existing, this`revision, env`log
      ensures Stored(env, old(env.log), Caller(), Obj(content.items), old(revision), old(existing), revision, existing, r)
    {
      var headers := new Dict(JsonHeaders);
      var response, request := EndpointApi(env, Caller(), "", headers, Empty, Obj(content.items), "PUT", false);
      var keys :- Keys(response);
      if "rev" in keys {
        revision := keys["rev"];
        existing := Some(true);
      }
      r := Ok(response);
    }

    /** `current_revision()` (Document.py:107-112): the document is looked up afresh through
        `find_by_id`, and takes that lookup's revision and content dict. */
    method CurrentRevision(env: Env) returns (r: Outcome<()>)
      requires Valid()
      modifies this`revision, this`content, env`log, env`draws, env.blankContent
      ensures env.draws == old(env.draws)
      ensures Refreshed(env, old(env.log), Caller(), old(env.blankContent.items), old(revision), old(content), revision, content, r)
    {
      var data :- database.FindById(env, Some(id));
      revision := data.revision;
      content := data.content;
      r := Ok(());
    }

    /** `update()` (Document.py:115-137): the content is copied first; `is_there`, and a
        re-read when it answers `True`; then a document flagged as existing is saved under its
        revision, and one flagged as missing gets the canned error answer. */
    method Update(env: Env) returns (r: Outcome<Value>)
      requires Valid() && env.Valid()
      modifies this`existing, this`revision, this`content, env`log, env`draws, env.apiHeaders, env.blankContent
      ensures env.draws == old(env.draws)
      ensures env.apiHeaders.items == FinalHeaders(old(env.apiHeaders.items), Caller(), false, env.transport)
      ensures var ask := Call(Caller(), "", old(env.apiHeaders.items), Empty, Empty, "GET", false);
        var log1 := old(env.log) + [ask];
        var p := Presence(env.reply(log1));
        var e := if p.Ok? then ExistsAfter(p.value, old(existing)) else old(existing);
        var snapshot := Obj(old(content.items));
        && existing == e
        && (p.Raise? || (p.value != Some(true) && e != Some(true)) ==>
              && env.log == log1 && revision == old(revision) && content == old(content)
              && env.blankContent.items == old(env.blankContent.items))
        && (p.Raise? ==> r == Raise(p.error))
        && (p.Ok? && e == None ==> r == Raise(AttributeError("exists")))
        && (p.Ok? && e == Some(false) ==> r == Ok(AlreadyExists))
        && (p == Ok(Some(true)) ==>
              var rr := Reread(env.reply(log1 + [LookupCall(Caller())]), old(env.blankContent.items));
              && (rr.Raise? ==>
                    && r == Raise(rr.error) && env.log == log1 + [LookupCall(Caller())]
                    && revision == old(revision) && content == old(content)
                    && env.blankContent.items == old(env.blankContent.items))
              && (rr.Ok? ==>
                    Saved(env, log1 + [LookupCall(Caller())], Caller(), rr.value.0, snapshot, rr.value.1,
                          rr.value.0, env.blankContent, revision, content, r)))
        && (p == Ok(None) && e == Some(true) ==>
              Saved(env, log1, Caller(), old(revision), snapshot, old(env.blankContent.items),
                    old(revision), old(content), revision, content, r))
    {
      var snapshot := Obj(content.items);
      var found :- IsThere(env);
      if found == Some(true) {
        var refreshed :- CurrentRevision(env);
      }
      match existing {
        case None => r := Raise(AttributeError("exists"));
        case Some(false) => r := Ok(AlreadyExists);
        case Some(true) => r := Save(env, snapshot);
      }
    }

    /** The saving half of `update` (Document.py:126-134). */
    method Save(env: Env, snapshot: Value) returns (r: Outcome<Value>)
      requires Valid()
      modifies this`revision, this`content, env`log, env`draws, env.blankContent
      ensures env.draws == old(env.draws)
      ensures Saved(env, old(env.log), Caller(), old(revision), snapshot, old(env.blankContent.items),
                    old(revision), old(content), revision, content, r)
    {
      var headers := new Dict(JsonHeaders["If-Match" := revision]);
      var response, request := EndpointApi(env, Caller(), "", headers, Empty, snapshot, "PUT", false);
      var refreshed :- CurrentRevision(env);
      r := Ok(response);
    }

    /** `delete()` (Document.py:140-153): a re-read, then `is_there`; only a `True` from it
        sends the DELETE, guarded by the revision just read, and its answer is the result;
        otherwise the method returns `None`. */
    method Delete(env: Env) returns (r: Outcome<Value>)
      requires Valid() && env.Valid()
      modifies this`existing, this`revision, this`content, env`log, env`draws, env.apiHeaders, env.blankContent
      ensures env.draws == old(env.draws)
      ensures var log1 := old(env.log) + [LookupCall(Caller())];
        var rr := Reread(env.reply(log1), old(env.blankContent.items));
        && (rr.Raise? ==>
              && r == Raise(rr.error) && env.log == log1 && existing == old(existing)
              && revision == old(revision) && content == old(content)
              && env.blankContent.items == old(env.blankContent.items)
              && env.apiHeaders.items == old(env.apiHeaders.items))
        && (rr.Ok? ==>
              && revision == rr.value.0 && content == env.blankContent && env.blankContent.items == rr.value.1
              && env.apiHeaders.items == FinalHeaders(old(env.apiHeaders.items), Caller(), false, env.transport)
              && Discarded(env, log1, Caller(), old(env.apiHeaders.items), rr.value.0, old(existing), existing, r))
    {
      var refreshed :- CurrentRevision(env);
      r := Discard(env);
    }

    /** The rest of `delete` (Document.py:142-153), after the re-read. */
    method Discard(env: Env) returns (r: Outcome<Value>)
      requires Valid()
      modifies this`existing, env`log, env.apiHeaders
      ensures env.apiHeaders.items == FinalHeaders(old(env.apiHeaders.items), Caller(), false, env.transport)
      ensures Discarded(env, old(env.log), Caller(), old(env.apiHeaders.items), revision, old(existing), existing, r)
    {
      var found :- IsThere(env);
      if found != Some(true) {
        return Ok(Null);
      }
      var headers := new Dict(AcceptJson["If-Match" := revision]);
      var response, request := EndpointApi(env, Caller(), "", headers, Empty, Empty, "DELETE", false);
      r := Ok(response);
    }
  }
}
