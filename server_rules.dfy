/** What `Server` (pyoocouchdb/Server.py) builds and decides without the network: its
    addresses, the database list `dbs_info` sends, and the membership tests of `add_node` and
    `remove_node`. */
module ServerRules {
  import opened Json
  import opened Python
  import opened Text
  import opened Core

  /** `f"{hostname}:{port}"` */
  function HostText(hostname: string, port: nat): string
  {
    hostname + ":" + Decimal(port)
  }

  /** `f"http://{host}/"` */
  function RootUrl(host: string): string
  {
    "http://" + host + "/"
  }

  /** The fixed part of a server (Server.py:18-26). */
  function MakeInfo(hostname: string, port: nat, adminPort: nat, username: string, password: string): (s: ServerInfo)
    ensures s.url == "http://" + s.couchdbHost + "/" && s.adminUrl == "http://" + s.adminHost + "/"
    ensures |s.couchdbHost| > |hostname| && s.couchdbHost[..|hostname| + 1] == hostname + ":"
    ensures |s.adminHost| > |hostname| && s.adminHost[..|hostname| + 1] == hostname + ":"
    ensures s.username == username && s.password == password
    ensures HttpUrl(s.url) && HttpUrl(s.adminUrl)
  {
    var couchdbHost := HostText(hostname, port);
    var adminHost := HostText(hostname, adminPort);
    RootUrlValid(couchdbHost);
    RootUrlValid(adminHost);
    assert couchdbHost[..|hostname| + 1] == hostname + ":";
    assert adminHost[..|hostname| + 1] == hostname + ":";
    ServerInfo(RootUrl(couchdbHost), RootUrl(adminHost), couchdbHost, adminHost, username, password)
  }

  /** The default ports give `hostname:5984` and `hostname:5986` (Server.py:14). */
  lemma DefaultHosts(hostname: string)
    ensures HostText(hostname, 5984) == hostname + ":5984"
    ensures HostText(hostname, 5986) == hostname + ":5986"
  {
    DefaultPortTexts();
  }

  /** The admin host and the public host differ exactly when the two ports do. */
  lemma HostsDiffer(hostname: string, port: nat, adminPort: nat)
    ensures HostText(hostname, port) == HostText(hostname, adminPort) <==> port == adminPort
  {
    var a, b := HostText(hostname, port), HostText(hostname, adminPort);
    if a == b {
      assert a[|hostname| + 1..] == Decimal(port);
      assert b[|hostname| + 1..] == Decimal(adminPort);
      DecimalInjective(port, adminPort);
    }
  }

  /** A server's URLs are http URLs, so every request built from them can be dispatched. */
  lemma RootUrlValid(host: string)
    ensures HttpUrl(RootUrl(host))
  {
    var u := RootUrl(host);
    assert u[..7] == "http://";
    assert u[7..][|host|] == '/';
  }

  /** With `http.client`, a request for `endpoint` on a server whose host name has no `/` goes
      to the host `hostname:port` with the path `/` plus the endpoint (Core.py:132-134). */
  lemma ServerRequestSplit(host: string, endpoint: string)
    requires '/' !in host
    ensures HttpUrl(RootUrl(host) + endpoint)
    ensures SplitUrl(RootUrl(host) + endpoint) == (host, "/" + endpoint)
  {
    assert RootUrl(host) + endpoint == "http://" + host + ("/" + endpoint);
    SplitUrlParts(host, "/" + endpoint);
  }

  // The probe of __init__ (Server.py:28-40)

  /** The attributes __init__ may set from the probe; `None` for one it leaves unset. */
  datatype Recorded = Recorded(version: Option<Value>, features: Option<Value>, vendor: Option<Value>, allNodes: Option<Value>)

  /** The probe's answer makes __init__ ask for the membership: a dict without `error` that
      lists `all_nodes`, and whose `vendor`, if any, has a `name`. */
  predicate AsksMembership(probe: Value)
  {
    && probe.Obj? && "error" !in probe.fields && "all_nodes" in probe.fields
    && ("vendor" in probe.fields ==> Index(probe.fields["vendor"], "name").Ok?)
  }

  /** What __init__ records from the probe's answer and, when it asks, the membership answer. */
  function ProbeRecord(probe: Value, membership: Value): (r: Outcome<Recorded>)
    ensures r.Raise? <==>
      || !probe.Obj?
      || ("error" !in probe.fields && "vendor" in probe.fields && Index(probe.fields["vendor"], "name").Raise?)
      || (AsksMembership(probe) && Index(membership, "all_nodes").Raise?)
    ensures r.Ok? && "error" in probe.fields ==> r.value == Recorded(None, None, None, None)
    ensures r.Ok? && "error" !in probe.fields ==>
      && r.value.version == (if "version" in probe.fields then Some(probe.fields["version"]) else None)
      && r.value.features == (if "features" in probe.fields then Some(probe.fields["features"]) else None)
      && r.value.vendor == (if "vendor" in probe.fields then Some(Index(probe.fields["vendor"], "name").value) else None)
    ensures r.Ok? ==> (r.value.allNodes.Some? <==> AsksMembership(probe))
    ensures r.Ok? && AsksMembership(probe) ==> r.value.allNodes == Some(Index(membership, "all_nodes").value)
  {
    var keys :- Keys(probe);
    if "error" in keys then Ok(Recorded(None, None, None, None))
    else
      var version := if "version" in keys then Some(keys["version"]) else None;
      var features := if "features" in keys then Some(keys["features"]) else None;
      if "vendor" in keys && Index(keys["vendor"], "name").Raise? then Raise(Index(keys["vendor"], "name").error)
      else
        var vendor := if "vendor" in keys then Some(Index(keys["vendor"], "name").value) else None;
        if "all_nodes" !in keys then Ok(Recorded(version, features, vendor, None))
        else
          var nodes :- Index(membership, "all_nodes");
          Ok(Recorded(version, features, vendor, Some(nodes)))
  }

  // dbs_info (Server.py:86-108)

  /** A string list of databases: split on commas, and when that leaves one piece, on
      spaces. */
  function ParseDbsList(s: string): seq<string>
  {
    var byComma := Split(s, ',');
    if |byComma| == 1 then Split(s, ' ') else byComma
  }

  /** A split leaves one piece exactly when the separator does not occur. */
  lemma SplitSingle(s: string, sep: char)
    ensures |Split(s, sep)| == 1 <==> sep !in s
  {
    if sep in s {
      var i := IndexOf(s, sep);
      var rest := Split(s[i + 1..], sep);
      assert Split(s, sep) == [s[..i]] + rest;
      assert |[s[..i]] + rest| == 1 + |rest| >= 2;
    }
  }

  /** The pieces rejoin to the string with the separator that was used, and none of them holds
      it: commas when there is one, spaces otherwise. */
  lemma ParseDbsListRejoins(s: string)
    ensures ',' in s ==> Join(ParseDbsList(s), ',') == s && forall p | p in ParseDbsList(s) :: ',' !in p
    ensures ',' !in s ==> ParseDbsList(s) == Split(s, ' ')
    ensures ',' !in s ==> Join(ParseDbsList(s), ' ') == s && forall p | p in ParseDbsList(s) :: ' ' !in p && ',' !in p
  {
    SplitSingle(s, ',');
    SplitJoin(s, ',');
    SplitJoin(s, ' ');
    SplitPiecesFree(s, ',');
    SplitPiecesFree(s, ' ');
    if ',' !in s {
      forall p | p in Split(s, ' ') ensures ',' !in p {
        SplitPieceWithin(s, ' ', p, ',');
      }
    }
  }

  /** A character absent from a string is absent from each of its pieces. */
  lemma {:induction false} SplitPieceWithin(s: string, sep: char, p: string, c: char)
    requires c !in s && p in Split(s, sep)
    ensures c !in p
    decreases |s|
  {
    if sep in s {
      var i := IndexOf(s, sep);
      if p != s[..i] {
        var tail := s[i + 1..];
        assert p in Split(tail, sep);
        forall j | 0 <= j < |tail| ensures tail[j] != c {
          assert tail[j] == s[i + 1 + j];
        }
        SplitPieceWithin(tail, sep, p, c);
      } else {
        var head := s[..i];
        forall j | 0 <= j < |head| ensures head[j] != c {
          assert head[j] == s[j];
        }
      }
    }
  }

  /** The list `dbs_info` sends under `keys` when given a string. */
  function DbsValue(pieces: seq<string>): (r: Value)
    ensures r.Arr? && |r.items| == |pieces|
    ensures forall i | 0 <= i < |pieces| :: r.items[i] == Str(pieces[i])
  {
    if pieces == [] then Arr([]) else Arr([Str(pieces[0])] + DbsValue(pieces[1..]).items)
  }

  // Cluster membership (Server.py:214-263)

  /** The answer of the membership test in `add_node`. */
  datatype Admission = AlreadyMember | NoMembership | Register

  /** `add_node` (Server.py:217-239): refuse a node `all_nodes` lists, report a membership
      answer without `all_nodes`, or register the node. */
  function AddNodeDecision(membership: Value, name: string): (r: Outcome<Admission>)
    ensures r.Raise? <==>
      (!membership.Obj? || ("all_nodes" in membership.fields && Contains(membership.fields["all_nodes"], name).Raise?))
    ensures r == Ok(NoMembership) <==> membership.Obj? && "all_nodes" !in membership.fields
    ensures r == Ok(AlreadyMember) <==>
      membership.Obj? && "all_nodes" in membership.fields && Contains(membership.fields["all_nodes"], name) == Ok(true)
    ensures r == Ok(Register) <==>
      membership.Obj? && "all_nodes" in membership.fields && Contains(membership.fields["all_nodes"], name) == Ok(false)
  {
    var keys :- Keys(membership);
    if "all_nodes" !in keys then Ok(NoMembership)
    else
      var present :- Contains(keys["all_nodes"], name);
      if present then Ok(AlreadyMember) else Ok(Register)
  }

  /** `remove_node` (Server.py:244-262): `Ok(true)` to withdraw a node `cluster_nodes` lists,
      `Ok(false)` for a membership answer without `all_nodes`; in every other case no branch
      binds `response` and the return raises UnboundLocalError. */
  function RemoveNodeDecision(membership: Value, name: string): (r: Outcome<bool>)
    ensures r == Ok(false) <==> membership.Obj? && "all_nodes" !in membership.fields
    ensures r == Ok(true) <==>
      && membership.Obj? && "all_nodes" in membership.fields && Contains(membership.fields["all_nodes"], name).Ok?
      && "cluster_nodes" in membership.fields && Contains(membership.fields["cluster_nodes"], name) == Ok(true)
    ensures r == Raise(UnboundLocalError("response")) <==>
      && membership.Obj? && "all_nodes" in membership.fields && Contains(membership.fields["all_nodes"], name).Ok?
      && ("cluster_nodes" in membership.fields ==> Contains(membership.fields["cluster_nodes"], name) == Ok(false))
  {
    var keys :- Keys(membership);
    if "all_nodes" !in keys then Ok(false)
    else
      var visible :- Contains(keys["all_nodes"], name);
      if "cluster_nodes" !in keys then Raise(UnboundLocalError("response"))
      else
        var clustered :- Contains(keys["cluster_nodes"], name);
        if clustered then Ok(true) else Raise(UnboundLocalError("response"))
  }

  /** For membership answers holding both lists, a node of the cluster is refused by
      `add_node` and withdrawn by `remove_node`; a node in neither list is registered by
      `add_node`, while `remove_node` raises. */
  lemma NodeDecisionsAgree(allNodes: seq<Value>, clusterNodes: seq<Value>, name: string)
    ensures var m := Obj(map["all_nodes" := Arr(allNodes), "cluster_nodes" := Arr(clusterNodes)]);
      && (Str(name) in allNodes && Str(name) in clusterNodes ==>
            AddNodeDecision(m, name) == Ok(AlreadyMember) && RemoveNodeDecision(m, name) == Ok(true))
      && (Str(name) !in allNodes && Str(name) !in clusterNodes ==>
            AddNodeDecision(m, name) == Ok(Register) && RemoveNodeDecision(m, name) == Raise(UnboundLocalError("response")))
  {
  }

  // sync_all_shards (Server.py:266-283)

  /** `result["rows"]` after the loop: each database's answer under its name as an f-string
      writes it, a later database of the same name replacing an earlier one. */
  function SyncRows(names: seq<Value>, answers: seq<Value>): map<string, Value>
    requires |names| == |answers|
  {
    if names == [] then map[]
    else SyncRows(names[..|names| - 1], answers[..|answers| - 1])[Format(names[|names| - 1]) := answers[|answers| - 1]]
  }

  /** Every database gets a row, and there are no others. */
  lemma {:induction false} SyncRowsKeys(names: seq<Value>, answers: seq<Value>)
    requires |names| == |answers|
    ensures SyncRows(names, answers).Keys == set i | 0 <= i < |names| :: Format(names[i])
  {
    if names != [] {
      var n := |names| - 1;
      SyncRowsKeys(names[..n], answers[..n]);
      ImagesSnoc(names[..n], names[n], Format);
      assert names == names[..n] + [names[n]];

    }
  }

  /** The row of a database is its own answer unless a later one has the same name. */
  lemma {:induction false} SyncRowsLast(names: seq<Value>, answers: seq<Value>, i: nat)
    requires |names| == |answers| && i < |names|
    requires forall j | i < j < |names| :: Format(names[j]) != Format(names[i])
    ensures Format(names[i]) in SyncRows(names, answers)
    ensures SyncRows(names, answers)[Format(names[i])] == answers[i]
  {
    var n := |names| - 1;
    if i < n {
      assert names[..n][i] == names[i] && answers[..n][i] == answers[i];
      assert forall j | i < j < n :: names[..n][j] == names[j];
      SyncRowsLast(names[..n], answers[..n], i);
    }
  }

  /** The answers to the `_sync_shards` requests of the first `n` databases, when the log after
      `start` requests holds the `_all_dbs` request and then one pair of requests per database. */
  function SyncAnswers(reply: seq<Call> -> Value, log: seq<Call>, start: nat, n: nat): (a: seq<Value>)
    requires start + 1 + 2 * n <= |log|
    ensures |a| == n && forall j | 0 <= j < n :: a[j] == reply(log[..start + 3 + 2 * j])
  {
    seq(n, j requires 0 <= j < n => reply(log[..start + 3 + 2 * j]))
  }

  /** Requests sent later do not change the answers to earlier ones. */
  lemma SyncAnswersStable(reply: seq<Call> -> Value, log: seq<Call>, more: seq<Call>, start: nat, n: nat)
    requires start + 1 + 2 * n <= |log|
    ensures SyncAnswers(reply, log + more, start, n) == SyncAnswers(reply, log, start, n)
  {
    forall j | 0 <= j < n ensures (log + more)[..start + 3 + 2 * j] == log[..start + 3 + 2 * j] {
    }
  }

  /** One more round appends its answer. */
  lemma SyncAnswersGrow(reply: seq<Call> -> Value, log: seq<Call>, more: seq<Call>, start: nat, n: nat)
    requires start + 1 + 2 * n == |log| && |more| == 2
    ensures SyncAnswers(reply, log + more, start, n + 1) == SyncAnswers(reply, log, start, n) + [reply(log + more)]
  {
    SyncAnswersStable(reply, log, more, start, n);
    assert (log + more)[..start + 3 + 2 * n] == log + more;
  }

  /** The error records `add_node` and `remove_node` return instead of a request. */
  function NodeError(code: string, name: string, message: string): Value
  {
    Obj(map["status" := Str("error"), "errcode" := Str(code),
            "body" := Obj(map["node" := Str(name), "message" := Str(message)])])
  }

  /** `_node/_local/_nodes/<name>` */
  function NodeDocEndpoint(name: string): string
  {
    "_node/_local/_nodes/" + name
  }

  /** The user document `add_user` writes (Server.py:196-201). */
  function UserRecord(username: string, password: string, roles: Value): map<string, Value>
  {
    map["name" := Str(username), "password" := Str(password), "roles" := roles, "type" := Str("user")]
  }
}
