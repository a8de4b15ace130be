/** What `Node` (pyoocouchdb/Node.py) builds: its URL and the endpoints `config` targets. */
module NodeRules {
  import opened Python
  import opened Text
  import opened Core

  /** `server.url + '_node/' + name + '/'` (Node.py:11) */
  function NodeUrl(serverUrl: string, name: string): (u: string)
    ensures |u| == |serverUrl| + |name| + 7
    ensures u[..|serverUrl|] == serverUrl && u[|serverUrl|..|serverUrl| + 6] == "_node/"
  {
    var u := serverUrl + "_node/" + name + "/";
    assert u[..|serverUrl|] == serverUrl && u[|serverUrl|..|serverUrl| + 6] == "_node/";
    u
  }

  /** A Node's URL stays an http URL. */
  lemma NodeUrlValid(serverUrl: string, name: string)
    requires HttpUrl(serverUrl)
    ensures HttpUrl(NodeUrl(serverUrl, name))
  {
    HttpUrlExtend(serverUrl, "_node/" + name + "/");
    assert NodeUrl(serverUrl, name) == serverUrl + ("_node/" + name + "/");
  }

  /** A Python argument that is `None` or a string: truthy when a non-empty string. */
  predicate Given(a: Option<string>)
  {
    a.Some? && a.value != ""
  }

  /** The endpoint `config(section, key)` dispatches to (Node.py:20-28): `_config/<section>`,
      with `/<key>` when a key is given; without a section the name `headers` is never bound
      and the call fails before any request. */
  function ConfigEndpoint(section: Option<string>, key: Option<string>): (r: Outcome<string>)
    ensures r.Raise? <==> !Given(section)
    ensures r.Raise? ==> r.error == UnboundLocalError("headers")
  {
    if !Given(section) then Raise(UnboundLocalError("headers"))
    else if Given(key) then Ok("_config/" + section.value + "/" + key.value)
    else Ok("_config/" + section.value)
  }

  /** The endpoint names its section and key: splitting it on `/` gives them back when they
      have no `/` themselves. */
  lemma ConfigEndpointParts(section: string, key: Option<string>)
    requires section != "" && '/' !in section
    requires Given(key) ==> '/' !in key.value
    ensures var e := ConfigEndpoint(Some(section), key).value;
      Split(e, '/') == if Given(key) then ["_config", section, key.value] else ["_config", section]
  {
    assert '/' !in "_config";
    if Given(key) {
      assert ConfigEndpoint(Some(section), key).value == "_config" + ['/'] + (section + ['/'] + key.value);
      SplitPrefix("_config", '/', section + ['/'] + key.value);
      SplitPrefix(section, '/', key.value);
    } else {
      assert ConfigEndpoint(Some(section), key).value == "_config" + ['/'] + section;
      SplitPrefix("_config", '/', section);
    }
  }
}
