/** The request dispatcher `endpoint_api` (pyoocouchdb/Core.py): it resolves the caller's URL,
    credentials and virtual host, mutates the caller's header dict in place, and performs one
    request through one of two transports. The remote database, the foreign Basic-auth encoder
    and the random id source are parts of an `Env` given to every operation; each call is
    appended to `Env.log` and answered by `Env.reply`. */
module Core {
  import opened Json
  import opened Python
  import opened Text

  /** What a root connection (a `Server`) fixes at construction and never changes. */
  datatype ServerInfo = ServerInfo(
    url: string,
    adminUrl: string,
    couchdbHost: string,
    adminHost: string,
    username: string,
    password: string)

  datatype DatabaseInfo = DatabaseInfo(url: string, server: ServerInfo)

  /** The entity `endpoint_api` is called for: one variant per class it tests with
      `type(object) is ...`, each with the chain of owners the resolver walks to the server. */
  datatype Origin =
    | FromServer(server: ServerInfo)
    | FromDatabase(url: string, server: ServerInfo)
    | FromNode(url: string, server: ServerInfo)
    | FromDocument(url: string, database: DatabaseInfo)
  {
    /** `object.url` */
    function Url(): string
    {
      match this
      case FromServer(s) => s.url
      case FromDatabase(u, _) => u
      case FromNode(u, _) => u
      case FromDocument(u, _) => u
    }

    /** The server at the end of the ownership chain. */
    function Root(): ServerInfo
    {
      match this
      case FromServer(s) => s
      case FromDatabase(_, s) => s
      case FromNode(_, s) => s
      case FromDocument(_, d) => d.server
    }

    /** Every entity's URL is an http URL with a path. */
    predicate Valid()
    {
      HttpUrl(Url())
    }
  }

  /** An `http://` URL with a `/` somewhere after the scheme. */
  predicate HttpUrl(u: string)
  {
    7 < |u| && u[..7] == "http://" && '/' in u[7..]
  }

  /** Extending an http URL keeps it one. */
  lemma HttpUrlExtend(u: string, suffix: string)
    requires HttpUrl(u)
    ensures HttpUrl(u + suffix)
  {
    assert (u + suffix)[..7] == u[..7];
    var k := IndexOf(u[7..], '/');
    assert (u + suffix)[7..][k] == '/';
  }

  /** The process-wide transport choice (Core.py:22-27) and urllib3's `make_headers`
      Basic-auth encoder (Core.py:140), a foreign function applied to `"user:password"`. */
  datatype Transport = Transport(requestsModule: bool, basicAuth: string -> string)

  /** Where a request goes: the `requests` library takes the full URL; `http.client` is given
      a network address and a path. */
  datatype Target = FullUrl(url: string) | HostPath(host: string, path: string)

  /** The body of a request: `requests` forwards both payload slots as given; `http.client`
      sends the raw data, else the serialised JSON data, else nothing. */
  datatype Payload = Both(data: Value, json: Value) | Raw(data: Value) | Serialised(json: Value) | NoBody

  /** What the remote service receives. `auth` is the out-of-band credential pair of the
      `requests` transport; `http.client` carries credentials in the `authorization` header. */
  datatype Request = Request(
    verb: string,
    target: Target,
    headers: map<string, Value>,
    payload: Payload,
    auth: Option<(string, string)>)

  /** One call of endpoint_api as the caller makes it: the caller, the endpoint, the content of
      the header dict on entry, the two bodies, the verb and the admin flag. What goes on the
      wire for it is `Wire`. */
  datatype Call = Call(origin: Origin, endpoint: string, headers: map<string, Value>,
                       data: Value, jsonData: Value, verb: string, admin: bool)

  /** A Python dict that a caller hands over and that is changed in place. */
  class Dict {
    var items: map<string, Value>

    constructor (items: map<string, Value>)
      ensures this.items == items
    {
      this.items := items;
    }

    /** `for key in m.keys(): self[key] = m[key]`: every entry of `m` is written, in whatever
        order, over the entries already there. */
    method CopyFrom(m: map<string, Value>)
      modifies this
      ensures items == old(items) + m
    {
      var rest := m.Keys;
      while rest != {}
        invariant rest <= m.Keys
        invariant items == old(items) + map k | k in m.Keys - rest :: m[k]
        decreases rest
      {
        var k :| k in rest;
        items := items[k := m[k]];
        rest := rest - {k};
      }
      assert m.Keys - rest == m.Keys;
    }
  }

  /** What `uuid.uuid4().hex` returns: 32 hexadecimal digits. */
  type Hex = s: string | |s| == 32 witness "00000000000000000000000000000000"

  /** The running process: its transport, the remote service, the random source, the dicts
      that Python evaluates once as default arguments and shares between calls, and the log
      of requests sent so far. */
  class Env {
    const transport: Transport
    /** The remote service's answer to the last call of a log; it sees each call as its
        `Wire` request. */
    const reply: seq<Call> -> Value
    /** The `k`-th `uuid.uuid4().hex` drawn by the process. */
    const uuidHex: nat -> Hex
    /** `headers={}` of endpoint_api (Core.py:35). */
    const apiHeaders: Dict
    /** `headers={}` of Server.endpoint (Server.py:59). */
    const endpointHeaders: Dict
    /** `content={}` of Document.__init__ (Document.py:10). */
    const blankContent: Dict
    /** How many times the model lets Document.__init__ redraw an id before giving up. */
    const fuel: nat
    var log: seq<Call>
    var draws: nat

    predicate Valid()
    {
      apiHeaders != endpointHeaders && apiHeaders != blankContent && endpointHeaders != blankContent
    }

    /** The objects every operation may change: the log, the draw counter and the shared defaults. */
    function Shared(): set<object>
    {
      {this, apiHeaders, endpointHeaders, blankContent}
    }

    /** The process at start: nothing sent, nothing drawn, the default dicts empty. */
    constructor (transport: Transport, reply: seq<Call> -> Value, uuidHex: nat -> Hex, fuel: nat)
      ensures Valid()
      ensures this.transport == transport && this.reply == reply && this.uuidHex == uuidHex && this.fuel == fuel
      ensures log == [] && draws == 0
      ensures apiHeaders.items == map[] && endpointHeaders.items == map[] && blankContent.items == map[]
      ensures fresh(apiHeaders) && fresh(endpointHeaders) && fresh(blankContent)
    {
      this.transport := transport;
      this.reply := reply;
      this.uuidHex := uuidHex;
      this.fuel := fuel;
      apiHeaders := new Dict(map[]);
      endpointHeaders := new Dict(map[]);
      blankContent := new Dict(map[]);
      log := [];
      draws := 0;
    }

    /** `uuid.uuid4().hex` */
    method Draw() returns (id: Hex)
      modifies this`draws
      ensures id == uuidHex(old(draws)) && draws == old(draws) + 1
    {
      id := uuidHex(draws);
      draws := draws + 1;
    }
  }

  /** The `Host` and `Referer` values endpoint_api injects (Core.py:68-94, 141-161), or None
      for a Node, for which no branch exists. */
  function HostReferer(o: Origin, admin: bool, requestsModule: bool): Option<(string, string)>
  {
    if o.FromNode? then None
    else
      var s := o.Root();
      if admin then
        Some((s.adminHost, if requestsModule then s.adminUrl else "http://" + s.adminHost))
      else if requestsModule && !o.FromDocument? then
        Some((s.couchdbHost, s.url))
      else
        Some((s.couchdbHost, "http://" + s.couchdbHost))
  }

  /** The Host and Referer entries endpoint_api writes. */
  function Placed(o: Origin, admin: bool, requestsModule: bool): map<string, Value>
  {
    match HostReferer(o, admin, requestsModule)
    case None => map[]
    case Some((host, referer)) => map["Host" := Str(host), "Referer" := Str(referer)]
  }

  /** The entries endpoint_api writes into a header dict `h`: Host and Referer unless the
      caller is a Node, `accept` when `h` is empty, and `authorization` with `http.client`. */
  function Injected(h: map<string, Value>, o: Origin, admin: bool, t: Transport): map<string, Value>
  {
    var placed := Placed(o, admin, t.requestsModule);
    var accepted := if h == map[] then placed["accept" := Str("application/json")] else placed;
    if t.requestsModule then accepted
    else
      var s := o.Root();
      accepted["authorization" := Str(t.basicAuth(s.username + ":" + s.password))]
  }

  /** Writing an entry after a union is writing it into the right-hand side. */
  lemma UnionUpdate(m: map<string, Value>, p: map<string, Value>, k: string, v: Value)
    ensures (m + p)[k := v] == m + p[k := v]
  {
  }

  /** The header dict after endpoint_api has run on it: the injected entries override the
      caller's. */
  function FinalHeaders(h: map<string, Value>, o: Origin, admin: bool, t: Transport): map<string, Value>
  {
    h + Injected(h, o, admin, t)
  }

  /** The fallback transport's body choice (Core.py:167-172). */
  function ChooseBody(data: Value, jsonData: Value): Payload
  {
    if Truthy(data) then Raw(data) else if Truthy(jsonData) then Serialised(jsonData) else NoBody
  }

  /** The fallback transport's split of the full URL into the address after `http://` and the
      path from the next `/` on (Core.py:132-134). */
  function SplitUrl(url: string): (string, string)
    requires HttpUrl(url)
  {
    var hostEnd := FindFrom(url, '/', 7);
    HostEndFound(url);
    SchemeSplit(url[..hostEnd]);
    (Split(url[..hostEnd], '/')[2], url[hostEnd..])
  }

  lemma HostEndFound(url: string)
    requires HttpUrl(url)
    ensures 7 <= FindFrom(url, '/', 7) < |url|
    ensures url[..FindFrom(url, '/', 7)][..7] == "http://"
    ensures '/' !in url[..FindFrom(url, '/', 7)][7..]
  {
    var k := IndexOf(url[7..], '/');
    assert url[7 + k] == '/';
    var e := FindFrom(url, '/', 7);
    assert e != -1;
    var rest := url[..e][7..];
    forall j | 0 <= j < |rest| ensures rest[j] != '/' {
      assert rest[j] == url[7 + j];
    }
  }

  /** What the scheme `http://` at the head of a string consists of. */
  lemma HttpHead(prefix: string)
    requires 7 <= |prefix| && prefix[..7] == "http://"
    ensures prefix[..5] == "http:" && '/' !in prefix[..5] && prefix[5] == '/' && prefix[6] == '/'
  {
    assert prefix[..5] == prefix[..7][..5];
    assert prefix[5] == prefix[..7][5] && prefix[6] == prefix[..7][6];
  }

  /** `("http://" + x).split("/")` is `["http:", "", x]` when `x` has no `/`. */
  lemma SchemeSplit(prefix: string)
    requires 7 <= |prefix| && prefix[..7] == "http://" && '/' !in prefix[7..]
    ensures Split(prefix, '/') == ["http:", "", prefix[7..]]
  {
    HttpHead(prefix);
    SplitAt(prefix, '/', 5);
    var second := prefix[6..];
    assert second[0] == '/' && second[..0] == [] && second[1..] == prefix[7..];
    SplitAt(second, '/', 0);
  }

  /** The request endpoint_api sends for these arguments, as the `requests` branch
      (Core.py:98-107) or the `http.client` branch (Core.py:166-172) builds it. */
  function ApiRequest(t: Transport, o: Origin, endpoint: string, headers: map<string, Value>,
                      data: Value, jsonData: Value, verb: string, admin: bool): Request
    requires o.Valid()
  {
    var url := o.Url() + endpoint;
    var final := FinalHeaders(headers, o, admin, t);
    if t.requestsModule then
      Request(Upper(verb), FullUrl(url), final, Both(data, jsonData),
              Some((o.Root().username, o.Root().password)))
    else
      HttpUrlExtend(o.Url(), endpoint);
      var (host, path) := SplitUrl(url);
      Request(Upper(verb), HostPath(host, path), final, ChooseBody(data, jsonData), None)
  }

  /** The request a call puts on the wire. */
  function Wire(t: Transport, c: Call): Request
    requires c.origin.Valid()
  {
    ApiRequest(t, c.origin, c.endpoint, c.headers, c.data, c.jsonData, c.verb, c.admin)
  }

  /** `headers["Host"] = host; headers["Referer"] = referer` */
  method WriteHostReferer(headers: Dict, host: string, referer: string)
    modifies headers
    ensures headers.items == old(headers.items) + map["Host" := Str(host), "Referer" := Str(referer)]
  {
    headers.items := headers.items["Host" := Str(host)];
    headers.items := headers.items["Referer" := Str(referer)];
  }

  /** The same with a first Referer that a second assignment overwrites. */
  method WriteHostRefererTwice(headers: Dict, host: string, first: string, referer: string)
    modifies headers
    ensures headers.items == old(headers.items) + map["Host" := Str(host), "Referer" := Str(referer)]
  {
    headers.items := headers.items["Host" := Str(host)];
    headers.items := headers.items["Referer" := Str(first)];
    headers.items := headers.items["Referer" := Str(referer)];
  }

  /** The Host/Referer assignments of the `requests` branch (Core.py:68-94). */
  method PlaceForRequests(headers: Dict, o: Origin, admin: bool)
    modifies headers
    ensures headers.items == old(headers.items) + Placed(o, admin, true)
  {
    if admin {
      match o {
        case FromServer(s) =>
          WriteHostRefererTwice(headers, s.adminHost, "http://" + s.adminHost, s.adminUrl);
        case FromDatabase(_, s) =>
          WriteHostRefererTwice(headers, s.adminHost, "http://" + s.adminHost, s.adminUrl);
        case FromDocument(_, d) =>
          WriteHostRefererTwice(headers, d.server.adminHost, "http://" + d.server.adminHost, d.server.adminUrl);
        case FromNode(_, _) =>
      }
    } else {
      match o {
        case FromServer(s) =>
          WriteHostRefererTwice(headers, s.couchdbHost, "http://" + s.couchdbHost, s.url);
        case FromDatabase(_, s) =>
          WriteHostRefererTwice(headers, s.couchdbHost, "http://" + s.couchdbHost, s.url);
        case FromDocument(_, d) =>
          WriteHostReferer(headers, d.server.couchdbHost, "http://" + d.server.couchdbHost);
        case FromNode(_, _) =>
      }
    }
  }

  /** The Host/Referer assignments of the `http.client` branch (Core.py:141-161). */
  method PlaceForHttpClient(headers: Dict, o: Origin, admin: bool)
    modifies headers
    ensures headers.items == old(headers.items) + Placed(o, admin, false)
  {
    if admin {
      match o {
        case FromServer(s) => WriteHostReferer(headers, s.adminHost, "http://" + s.adminHost);
        case FromDatabase(_, s) => WriteHostReferer(headers, s.adminHost, "http://" + s.adminHost);
        case FromDocument(_, d) => WriteHostReferer(headers, d.server.adminHost, "http://" + d.server.adminHost);
        case FromNode(_, _) =>
      }
    } else {
      match o {
        case FromServer(s) => WriteHostReferer(headers, s.couchdbHost, "http://" + s.couchdbHost);
        case FromDatabase(_, s) => WriteHostReferer(headers, s.couchdbHost, "http://" + s.couchdbHost);
        case FromDocument(_, d) => WriteHostReferer(headers, d.server.couchdbHost, "http://" + d.server.couchdbHost);
        case FromNode(_, _) =>
      }
    }
  }

  /** The `requests` branch up to the call (Core.py:66-107): headers injected, request built. */
  method ShapeForRequests(t: Transport, o: Origin, endpoint: string, headers: Dict, data: Value,
                          jsonData: Value, verb: string, admin: bool, creds: (string, string))
    returns (request: Request)
    requires o.Valid() && t.requestsModule && creds == (o.Root().username, o.Root().password)
    modifies headers
    ensures headers.items == FinalHeaders(old(headers.items), o, admin, t)
    ensures request == ApiRequest(t, o, endpoint, old(headers.items), data, jsonData, verb, admin)
  {
    ghost var entry := headers.items;
    RequestsBranch(t, o, endpoint, entry, data, jsonData, verb, admin);
    var defaultHeader := headers.items == map[];
    PlaceForRequests(headers, o, admin);
    if defaultHeader {
      UnionUpdate(entry, Placed(o, admin, true), "accept", Str("application/json"));
      headers.items := headers.items["accept" := Str("application/json")];
    }
    request := Request(Upper(verb), FullUrl(o.Url() + endpoint), headers.items, Both(data, jsonData), Some(creds));
  }

  /** What the `requests` branch sends, spelled out. */
  lemma RequestsBranch(t: Transport, o: Origin, endpoint: string, h: map<string, Value>,
                       data: Value, jsonData: Value, verb: string, admin: bool)
    requires o.Valid() && t.requestsModule
    ensures FinalHeaders(h, o, admin, t)
            == h + if h == map[] then Placed(o, admin, true)["accept" := Str("application/json")] else Placed(o, admin, true)
    ensures ApiRequest(t, o, endpoint, h, data, jsonData, verb, admin)
            == Request(Upper(verb), FullUrl(o.Url() + endpoint), FinalHeaders(h, o, admin, t), Both(data, jsonData),
                       Some((o.Root().username, o.Root().password)))
  {
  }

  /** What the `http.client` branch sends, spelled out. */
  lemma HttpClientBranch(t: Transport, o: Origin, endpoint: string, h: map<string, Value>,
                         data: Value, jsonData: Value, verb: string, admin: bool)
    requires o.Valid() && !t.requestsModule
    ensures HttpUrl(o.Url() + endpoint)
    ensures FinalHeaders(h, o, admin, t)
            == h + (if h == map[] then Placed(o, admin, false)["accept" := Str("application/json")] else Placed(o, admin, false))
                   ["authorization" := Str(t.basicAuth(o.Root().username + ":" + o.Root().password))]
    ensures ApiRequest(t, o, endpoint, h, data, jsonData, verb, admin)
            == Request(Upper(verb), HostPath(SplitUrl(o.Url() + endpoint).0, SplitUrl(o.Url() + endpoint).1),
                       FinalHeaders(h, o, admin, t), ChooseBody(data, jsonData), None)
  {
    HttpUrlExtend(o.Url(), endpoint);
  }

  /** The `http.client` branch up to the call (Core.py:130-172): URL split, headers injected,
      body chosen. */
  method ShapeForHttpClient(t: Transport, o: Origin, endpoint: string, headers: Dict, data: Value,
                            jsonData: Value, verb: string, admin: bool, creds: (string, string))
    returns (request: Request)
    requires o.Valid() && !t.requestsModule && creds == (o.Root().username, o.Root().password)
    modifies headers
    ensures headers.items == FinalHeaders(old(headers.items), o, admin, t)
    ensures request == ApiRequest(t, o, endpoint, old(headers.items), data, jsonData, verb, admin)
  {
    ghost var entry := headers.items;
    HttpClientBranch(t, o, endpoint, entry, data, jsonData, verb, admin);
    var defaultHeader := headers.items == map[];
    var (urlBase, urlPath) := SplitUrl(o.Url() + endpoint);
    var headersAuth := t.basicAuth(creds.0 + ":" + creds.1);
    ghost var placed := Placed(o, admin, false);
    PlaceForHttpClient(headers, o, admin);
    ghost var accepted := placed;
    if defaultHeader {
      UnionUpdate(entry, placed, "accept", Str("application/json"));
      headers.items := headers.items["accept" := Str("application/json")];
      accepted := placed["accept" := Str("application/json")];
    }
    UnionUpdate(entry, accepted, "authorization", Str(headersAuth));
    headers.items := headers.items["authorization" := Str(headersAuth)];
    var body: Payload;
    if Truthy(data) {
      body := Raw(data);
    } else if Truthy(jsonData) {
      body := Serialised(jsonData);
    } else {
      body := NoBody;
    }
    request := Request(Upper(verb), HostPath(urlBase, urlPath), headers.items, body, None);
  }

  /** `endpoint_api(object, endpoint, headers, data, json_data, method, admin)`: injects the
      headers into the caller's dict, sends one request and returns the decoded answer. */
  method EndpointApi(env: Env, o: Origin, endpoint: string, headers: Dict,
                     data: Value, jsonData: Value, verb: string, admin: bool)
    returns (response: Value, request: Request)
    requires o.Valid()
    modifies env`log, headers
    ensures headers.items == FinalHeaders(old(headers.items), o, admin, env.transport)
    ensures env.log == old(env.log) + [Call(o, endpoint, old(headers.items), data, jsonData, verb, admin)]
    ensures request == Wire(env.transport, env.log[|env.log| - 1])
    ensures response == env.reply(env.log)
  {
    var headers0 := headers.items;
    var creds: (string, string);
    match o {
      case FromServer(s) => creds := (s.username, s.password);
      case FromDatabase(_, s) => creds := (s.username, s.password);
      case FromNode(_, s) => creds := (s.username, s.password);
      case FromDocument(_, d) => creds := (d.server.username, d.server.password);
    }
    if env.transport.requestsModule {
      request := ShapeForRequests(env.transport, o, endpoint, headers, data, jsonData, verb, admin, creds);
    } else {
      request := ShapeForHttpClient(env.transport, o, endpoint, headers, data, jsonData, verb, admin, creds);
    }
    env.log := env.log + [Call(o, endpoint, headers0, data, jsonData, verb, admin)];
    response := env.reply(env.log);
  }

  // Properties of the dispatched request

  /** The request goes to the caller's URL followed by the endpoint: as one URL with
      `requests`, as address and path that rejoin to it with `http.client` (Core.py:37, 132-134). */
  lemma RequestTarget(t: Transport, o: Origin, endpoint: string, h: map<string, Value>,
                      data: Value, jsonData: Value, verb: string, admin: bool)
    requires o.Valid()
    ensures var r := ApiRequest(t, o, endpoint, h, data, jsonData, verb, admin);
      && (t.requestsModule ==> r.target == FullUrl(o.Url() + endpoint))
      && (!t.requestsModule ==> r.target.HostPath? && "http://" + r.target.host + r.target.path == o.Url() + endpoint)
  {
    if !t.requestsModule {
      HttpUrlExtend(o.Url(), endpoint);
      SplitUrlRejoins(o.Url() + endpoint);
    }
  }

  /** The two parts of the fallback split put back together are the URL. */
  lemma SplitUrlRejoins(url: string)
    requires HttpUrl(url)
    ensures "http://" + SplitUrl(url).0 + SplitUrl(url).1 == url
  {
    var e := FindFrom(url, '/', 7);
    HostEndFound(url);
    SchemeSplit(url[..e]);
    assert url == url[..7] + url[..e][7..] + url[e..];
  }

  /** For `"http://" + h + p` with `h` free of `/` and `p` starting with `/`, the fallback split
      yields exactly `h` and `p`. */
  lemma SplitUrlParts(h: string, p: string)
    requires '/' !in h && 0 < |p| && p[0] == '/'
    ensures HttpUrl("http://" + h + p)
    ensures SplitUrl("http://" + h + p) == (h, p)
  {
    var url := "http://" + h + p;
    assert url[..7] == "http://";
    assert url[7..][|h|] == '/';
    HostEndFound(url);
    var e := FindFrom(url, '/', 7);
    forall j | 7 <= j < 7 + |h| ensures url[j] != '/' {
      assert url[j] == h[j - 7];
    }
    assert url[7 + |h|] == '/';
    assert e == 7 + |h|;
    SchemeSplit(url[..e]);
    assert url[..e][7..] == h;
    assert url[e..] == p;
  }

  /** Credentials always come from the server at the end of the ownership chain: out of band
      with `requests`, as the `authorization` header with `http.client` (Core.py:57-64, 164). */
  lemma RequestCredentials(t: Transport, o: Origin, endpoint: string, h: map<string, Value>,
                           data: Value, jsonData: Value, verb: string, admin: bool)
    requires o.Valid()
    ensures var r := ApiRequest(t, o, endpoint, h, data, jsonData, verb, admin);
      var creds := o.Root().username + ":" + o.Root().password;
      && (t.requestsModule ==>
            r.auth == Some((o.Root().username, o.Root().password))
            && ("authorization" in r.headers <==> "authorization" in h))
      && (!t.requestsModule ==> r.auth.None? && r.headers["authorization"] == Str(t.basicAuth(creds)))
  {
  }

  /** With `requests` and `admin` set, a Server, Database or Document caller gets its server's
      admin host and admin URL; the second `Referer` assignment wins (Core.py:68-81). */
  lemma AdminHostReferer(t: Transport, o: Origin, h: map<string, Value>)
    requires t.requestsModule && !o.FromNode?
    ensures var f := FinalHeaders(h, o, true, t);
      f["Host"] == Str(o.Root().adminHost) && f["Referer"] == Str(o.Root().adminUrl)
  {
  }

  /** With `requests` and no admin flag, the public host is injected; the Referer is the server
      URL for a Server or Database but `http://` plus the host, without the trailing slash,
      for a Document (Core.py:83-94). */
  lemma PublicHostReferer(t: Transport, o: Origin, h: map<string, Value>)
    requires t.requestsModule && !o.FromNode?
    ensures var f := FinalHeaders(h, o, false, t);
      && f["Host"] == Str(o.Root().couchdbHost)
      && f["Referer"] == Str(if o.FromDocument? then "http://" + o.Root().couchdbHost else o.Root().url)
  {
  }

  /** With `http.client` the Referer is always `http://` plus the chosen host (Core.py:141-161). */
  lemma FallbackHostReferer(t: Transport, o: Origin, h: map<string, Value>, admin: bool)
    requires !t.requestsModule && !o.FromNode?
    ensures var f := FinalHeaders(h, o, admin, t);
      var host := if admin then o.Root().adminHost else o.Root().couchdbHost;
      f["Host"] == Str(host) && f["Referer"] == Str("http://" + host)
  {
  }

  /** A Node caller gets no Host or Referer in either transport: whatever the dict held under
      those keys is sent unchanged. */
  lemma NodeKeepsHostReferer(t: Transport, o: Origin, h: map<string, Value>, admin: bool)
    requires o.FromNode?
    ensures var f := FinalHeaders(h, o, admin, t);
      forall k | k == "Host" || k == "Referer" :: (k in f <==> k in h) && (k in h ==> f[k] == h[k])
  {
  }

  /** `accept: application/json` is added exactly when the dict was empty on entry; a non-empty
      dict keeps whatever `accept` it had (Core.py:41-45, 95-96, 162-163). */
  lemma AcceptDefault(t: Transport, o: Origin, h: map<string, Value>, admin: bool)
    ensures var f := FinalHeaders(h, o, admin, t);
      && (h == map[] ==> f["accept"] == Str("application/json"))
      && (h != map[] ==> ("accept" in f <==> "accept" in h) && ("accept" in h ==> f["accept"] == h["accept"]))
  {
  }

  /** Keys other than the injected ones pass through untouched. */
  lemma OtherKeysKept(t: Transport, o: Origin, h: map<string, Value>, admin: bool, k: string)
    requires k != "Host" && k != "Referer" && k != "accept" && k != "authorization"
    ensures var f := FinalHeaders(h, o, admin, t);
      (k in f <==> k in h) && (k in h ==> f[k] == h[k])
  {
  }

  /** Two callers that get the same entries injected: the same server, and the same answer
      to the Node and Document tests of endpoint_api. */
  predicate SameInjection(o: Origin, p: Origin)
  {
    o.Root() == p.Root() && o.FromNode? == p.FromNode? && o.FromDocument? == p.FromDocument?
  }

  /** Injecting into a dict a second time, for the same caller or one of the same kind on the
      same server, changes nothing: a dict shared between calls carries the same headers
      every time. */
  lemma FinalHeadersSettle(t: Transport, o: Origin, p: Origin, h: map<string, Value>, admin: bool)
    requires SameInjection(o, p)
    ensures FinalHeaders(FinalHeaders(h, p, admin, t), o, admin, t) == FinalHeaders(h, p, admin, t)
  {
    var f := FinalHeaders(h, p, admin, t);
    var injected := Injected(h, p, admin, t);
    FinalHeadersNonEmpty(t, p, h, admin);
    var again := Injected(f, o, admin, t);
    assert Placed(o, admin, t.requestsModule) == Placed(p, admin, t.requestsModule);
    forall k | k in again ensures k in injected && injected[k] == again[k] {
    }
    MergeWithin(f, again);
  }

  /** endpoint_api leaves a dict non-empty. */
  lemma FinalHeadersNonEmpty(t: Transport, o: Origin, h: map<string, Value>, admin: bool)
    ensures FinalHeaders(h, o, admin, t) != map[]
  {
    var f := FinalHeaders(h, o, admin, t);
    if h == map[] {
      assert "accept" in f;
    } else {
      var k :| k in h;
      assert k in f;
    }
  }

  /** Merging in entries a map already holds changes nothing. */
  lemma MergeWithin(f: map<string, Value>, g: map<string, Value>)
    requires forall k | k in g :: k in f && f[k] == g[k]
    ensures f + g == f
  {
  }

  /** So a request built from a dict that already went through endpoint_api for such a
      caller is the request built from the dict as it was. */
  lemma ApiRequestStable(t: Transport, o: Origin, p: Origin, endpoint: string, h: map<string, Value>,
                         data: Value, jsonData: Value, verb: string, admin: bool)
    requires o.Valid() && SameInjection(o, p)
    ensures ApiRequest(t, o, endpoint, FinalHeaders(h, p, admin, t), data, jsonData, verb, admin)
         == ApiRequest(t, o, endpoint, h, data, jsonData, verb, admin)
  {
    FinalHeadersSettle(t, o, p, h, admin);
    assert Placed(o, admin, t.requestsModule) == Placed(p, admin, t.requestsModule);
    assert FinalHeaders(h, p, admin, t) == FinalHeaders(h, o, admin, t);
    ApiRequestByFinal(t, o, endpoint, FinalHeaders(h, p, admin, t), h, data, jsonData, verb, admin);
  }

  /** The request depends on the caller's dict only through the headers it ends up with. */
  lemma ApiRequestByFinal(t: Transport, o: Origin, endpoint: string, h: map<string, Value>, g: map<string, Value>,
                          data: Value, jsonData: Value, verb: string, admin: bool)
    requires o.Valid() && FinalHeaders(h, o, admin, t) == FinalHeaders(g, o, admin, t)
    ensures ApiRequest(t, o, endpoint, h, data, jsonData, verb, admin) == ApiRequest(t, o, endpoint, g, data, jsonData, verb, admin)
  {
  }

  /** `after` extends `before` with GET calls only: nothing was written. */
  predicate ReadsOnly(before: seq<Call>, after: seq<Call>)
  {
    before <= after && forall j | |before| <= j < |after| :: after[j].verb == "GET"
  }

  /** What such calls put on the wire are GET requests. */
  lemma ReadsOnlyOnWire(t: Transport, before: seq<Call>, after: seq<Call>, j: nat)
    requires ReadsOnly(before, after) && |before| <= j < |after| && after[j].origin.Valid()
    ensures Wire(t, after[j]).verb == "GET"
  {
    Verbs();
  }

  /** The verbs the client passes, as endpoint_api upper-cases them. */
  lemma Verbs()
    ensures Upper("GET") == "GET" && Upper("PUT") == "PUT" && Upper("POST") == "POST"
    ensures Upper("DELETE") == "DELETE"
  {
    assert Upper("GET") == [UpperChar('G'), UpperChar('E'), UpperChar('T')];
    assert Upper("PUT") == [UpperChar('P'), UpperChar('U'), UpperChar('T')];
    assert Upper("POST") == [UpperChar('P'), UpperChar('O'), UpperChar('S'), UpperChar('T')];
    assert Upper("DELETE") == [UpperChar('D'), UpperChar('E'), UpperChar('L'), UpperChar('E'), UpperChar('T'), UpperChar('E')];
  }

  /** The fallback body is the data when it is truthy, else the serialised JSON data when that
      is truthy, else none; `requests` forwards both (Core.py:99-107, 167-172). */
  lemma RequestPayload(t: Transport, o: Origin, endpoint: string, h: map<string, Value>,
                       data: Value, jsonData: Value, verb: string, admin: bool)
    requires o.Valid()
    ensures var r := ApiRequest(t, o, endpoint, h, data, jsonData, verb, admin);
      && (t.requestsModule ==> r.payload == Both(data, jsonData))
      && (!t.requestsModule && Truthy(data) ==> r.payload == Raw(data))
      && (!t.requestsModule && !Truthy(data) && Truthy(jsonData) ==> r.payload == Serialised(jsonData))
      && (!t.requestsModule && !Truthy(data) && !Truthy(jsonData) ==> r.payload == NoBody)
  {
    var r := ApiRequest(t, o, endpoint, h, data, jsonData, verb, admin);
    if !t.requestsModule {
      assert r.payload == ChooseBody(data, jsonData);
    }
  }
}
