# pyoocouchdb: request shaping and entity bookkeeping, in Dafny

pyoocouchdb is a thin object-oriented client for CouchDB. It has four entity classes:
`Server`, `Database`, `Document` and `Node`. Each talks to the database through one
function, `endpoint_api` (pyoocouchdb/Core.py). That function builds the target URL,
picks the credentials of the owning server, writes `Host`, `Referer`, `accept` and
(with `http.client`) `authorization` into the caller's header dict, and sends the request.
This project models that function and the bookkeeping of the four classes, and proves
what each call sends and how each entity's fields change.

How the model is built:

- **The remote database is an oracle.** `Core.Env` holds a log of every call sent so far,
  `var log: seq<Call>`. Its answer function `reply: seq<Call> -> Value` gives the decoded
  answer to the last call, as a function of the whole log. Every sending method states
  the exact calls it appends to the log. So "no PUT is sent", "the DELETE carries
  `If-Match: <rev>`" and "nothing else is sent" are all ordinary postconditions.
- **The wire request is a function of the call.** `Core.Wire` turns a logged `Call` into
  the `Request` that goes out under the chosen transport. `Core.Transport` holds the
  `requests`/`http.client` choice, which the source makes once at import (Core.py:22-27).
  It also holds `make_headers`' Basic-auth encoding, as a given function.
- **Python's shared mutable default arguments are state.** Three dicts are shared between
  calls and mutated in place by `endpoint_api`:
  - `endpoint_api`'s `headers={}`;
  - `Server.endpoint`'s `headers={}`;
  - `Document.__init__`'s `content={}`.

  Each is a `Core.Dict` object held by `Env`. The methods that use them modify them, just as
  the source does. So a later call through the same default sees what an earlier call left.
  `Core.FinalHeadersSettle` proves that this fills a dict in once and then leaves it alone.
- **Ownership chain.** An `Origin` value (`FromServer`, `FromDatabase`, `FromDocument`,
  `FromNode`) records each caller's URL and the server at the end of its ownership chain.
  `endpoint_api`'s `type(object) is ...` dispatch reads that chain.
- **Exceptions are values.** Every Python exception the code can raise (`KeyError`,
  `AttributeError` on `.keys()` of a non-dict, `TypeError`, `UnboundLocalError`) is an
  `Outcome.Raise`. It propagates exactly where the source would propagate it.
- **Randomness is given.** `uuid.uuid4().hex` draws come from `Env.uuidHex`, counted by
  `Env.draws`.
- **Module layout.** The pure rules each class follows live in `DatabaseRules`,
  `DocumentRules`, `ServerRules` and `NodeRules`. The four classes themselves are in
  `CouchDb` (couchdb.dfy). They call each other, which forces them into one module.
- **Behaviour-preserving helpers.** Some methods are split into helpers that keep the
  original behaviour: `Document.Open` into `Fetch` and `DrawId`, and `Document.Create`
  into `Put`. The helpers keep each proof small.

Details of the code that the model keeps as written:

- A document lookup whose answer has a `status` that is not `"error"` assigns no
  existence flag, even when the answer also has `error` (Document.py:29-38). The flag stays
  unset, and a later `create`/`update` raises on it.
- `update` on a missing document logs "Document not found" (Document.py:136) but returns
  the record with the message "Document already exists!" (Document.py:137). The model
  returns that record.
- `remove_node` raises `UnboundLocalError` when `all_nodes` is present but the node is not
  among the `cluster_nodes`, because no branch binds `response` (Server.py:244-263).
- `Server` stores `port` converted with `str()` (Server.py:20) and `admin_port` as given
  (Server.py:19); f-strings write both into the host texts (Server.py:23-24). The model
  takes both as natural numbers, keeps them as numbers in `Server.port` and
  `Server.adminPort`, and writes them in decimal (`Text.Decimal`), as `str()` and an
  f-string do for a non-negative int.

## Model

| member | source | states |
|---|---|---|
| Core.EndpointApi | pyoocouchdb/Core.py:35-172 | appends exactly one call to the log, leaves the caller's header dict holding `FinalHeaders` of what it held, and returns the oracle's answer to that call; the wire request is `Wire` of the call |
| Core.ShapeForRequests | pyoocouchdb/Core.py:66-107 | with `requests`: writes Host/Referer/accept into the dict in place and builds the request `ApiRequest` describes |
| Core.ShapeForHttpClient | pyoocouchdb/Core.py:130-172 | with `http.client`: splits the URL, writes Host/Referer/accept/authorization in place, chooses the body, and builds the request `ApiRequest` describes |
| Core.PlaceForRequests | pyoocouchdb/Core.py:68-94 | adds exactly the Host/Referer pair of the `requests` branch for the caller kind and admin flag, and nothing for a Node |
| Core.PlaceForHttpClient | pyoocouchdb/Core.py:141-161 | the same for the `http.client` branch |
| Core.WriteHostReferer | pyoocouchdb/Core.py:92-93 | two assignments add exactly `Host` and `Referer` to the dict |
| Core.WriteHostRefererTwice | pyoocouchdb/Core.py:71-73 | a first Referer overwritten by a second leaves only the second |
| Core.RequestsBranch | pyoocouchdb/Core.py:66-107 | the `requests` request: upper-cased verb, the full URL, accept added only into an empty dict, both payloads, credentials out of band |
| Core.HttpClientBranch | pyoocouchdb/Core.py:130-172 | the `http.client` request: host and path of the split, authorization always set, the chosen body, no out-of-band credentials |
| Core.RequestTarget | pyoocouchdb/Core.py:37 | the target is the caller's URL followed by the endpoint, as one URL or as host and path that rejoin to it |
| Core.SplitUrlRejoins | pyoocouchdb/Core.py:132-134 | `"http://" + host + path` of the fallback split is the URL |
| Core.SplitUrlParts | pyoocouchdb/Core.py:132-134 | for `"http://"+h+p`, `h` without `/` and `p` starting with `/`, the split gives exactly `(h, p)` |
| Core.RequestCredentials | pyoocouchdb/Core.py:57-64 | credentials are always the root server's username and password: as `auth` with `requests` (the dict's own authorization untouched), as the `authorization` header with `http.client` |
| Core.AdminHostReferer | pyoocouchdb/Core.py:68-81 | `requests` and admin: Host is the server's admin host and Referer its admin URL (the second assignment wins) for Server, Database and Document callers |
| Core.PublicHostReferer | pyoocouchdb/Core.py:83-94 | `requests`, not admin: Host is the public host; Referer is the server URL, except for a Document, which gets `http://`+host without the trailing slash |
| Core.FallbackHostReferer | pyoocouchdb/Core.py:141-161 | `http.client`: Host is the admin or public host and Referer is `http://` plus that host |
| Core.NodeKeepsHostReferer | pyoocouchdb/Core.py:68-94 | a Node caller gets no Host or Referer: those keys are present and valued exactly as before |
| Core.AcceptDefault | pyoocouchdb/Core.py:41-45 | `accept: application/json` is added if and only if the dict was empty on entry; otherwise `accept` is as it was |
| Core.OtherKeysKept | pyoocouchdb/Core.py:95-96 | every key but Host, Referer, accept and authorization passes through unchanged |
| Core.FinalHeadersSettle | pyoocouchdb/Core.py:35 | a shared default dict that went through injection once is not changed by a second injection from a caller of the same kind on the same server |
| Core.FinalHeadersNonEmpty | pyoocouchdb/Core.py:41-45 | after a call the dict is never empty, so a shared default never again gets the accept default |
| Core.ApiRequestStable | pyoocouchdb/Core.py:35 | a request built from a dict already filled in by such a caller is the request built from the dict as it was |
| Core.ApiRequestByFinal | pyoocouchdb/Core.py:66-172 | the request depends on the dict only through the headers it ends up with |
| Core.ReadsOnlyOnWire | pyoocouchdb/Core.py:98-99 | calls logged with verb GET go out as GET requests |
| Core.Verbs | pyoocouchdb/Core.py:98-107 | the verbs the client passes are unchanged by `method.upper()` |
| Core.RequestPayload | pyoocouchdb/Core.py:167-172 | fallback body is `data` if truthy, else the serialised `json_data` if truthy, else none; `requests` forwards both |
| Core.Dict.CopyFrom | pyoocouchdb/Document.py:37-38 | copying every key of a dict writes each entry over the ones already there |
| Core.Env.Draw | pyoocouchdb/Document.py:49 | one uuid draw: the next id of the sequence, and one more draw counted |
| Text.Decimal | pyoocouchdb/Server.py:20 | the decimal text of an integer: at least one digit, digits only, two or more from 10 on |
| Text.DecimalInjective | pyoocouchdb/Server.py:23-24 | different ports give different texts |
| Text.DefaultPortTexts | pyoocouchdb/Server.py:14 | the default ports write as `5984` and `5986` |
| Text.Upper | pyoocouchdb/Core.py:167-172 | `str.upper` keeps the length and upper-cases each character |
| Text.UpperIdempotent | pyoocouchdb/Node.py:28 | upper-casing twice (Node.config, then endpoint_api) is upper-casing once |
| Text.FindFrom | pyoocouchdb/Core.py:132 | `str.find(c, start)`: the first index at or after `start` holding `c`, or -1 if and only if there is none |
| Text.IndexOf | pyoocouchdb/Database.py:134-137 | the first index holding an element, with none before it |
| Text.IndexOfFirst | pyoocouchdb/Database.py:134-137 | that first index is unique |
| Text.Split | pyoocouchdb/Server.py:91-93 | `str.split(sep)` always gives at least one piece |
| Text.SplitJoin | pyoocouchdb/Server.py:91-93 | joining the pieces of a split with the separator gives the string back |
| Text.SplitPiecesFree | pyoocouchdb/Server.py:91-93 | no piece of a split contains the separator |
| Text.SplitAt | pyoocouchdb/Core.py:133 | splitting at the first separator gives the prefix, then the pieces of the rest |
| Text.SplitPrefix | pyoocouchdb/Node.py:20-24 | a separator-free prefix then a separator splits into the prefix and the pieces of the rest |
| Python.RemoveFirstIsSplice | pyoocouchdb/Database.py:134-137 | `list.remove` takes out exactly the first occurrence and keeps the others in order |
| Python.RemoveFirstAfterAppend | pyoocouchdb/Database.py:122-137 | removing what was appended to a list lacking it gives the list back |
| Python.PyEqBool | pyoocouchdb/Database.py:315 | Python's `==` makes a boolean equal to itself and to the integer it stands for (`True == 1`), and to nothing else |
| Python.PyEqExact | pyoocouchdb/Database.py:122 | Python's `==` makes a string or `None` equal to itself only, so membership tests with a string are exact |
| Python.AllHashableElements | pyoocouchdb/Server.py:278-279 | a list's elements can all be dict keys if and only if each one can |
| ServerRules.MakeInfo | pyoocouchdb/Server.py:18-26 | `couchdb_host`/`admin_host` start with `hostname:`, `url`/`admin_url` are `http://`+host+`/`, credentials as given, both URLs http URLs |
| ServerRules.DefaultHosts | pyoocouchdb/Server.py:14 | the default ports give `hostname:5984` and `hostname:5986` |
| ServerRules.HostsDiffer | pyoocouchdb/Server.py:23-24 | the admin and public hosts are equal if and only if the ports are |
| ServerRules.RootUrlValid | pyoocouchdb/Server.py:25-26 | a server URL is an http URL |
| ServerRules.ServerRequestSplit | pyoocouchdb/Core.py:132-134 | with `http.client`, a server request goes to `hostname:port` with path `/`+endpoint |
| ServerRules.ProbeRecord | pyoocouchdb/Server.py:31-40 | version/features/vendor are recorded only when the probe lacks `error` and has the key; vendor is `vendor['name']`; `all_nodes` is read from the membership answer exactly when the probe lists it; every failing read raises |
| ServerRules.SplitSingle | pyoocouchdb/Server.py:92-93 | a split leaves one piece if and only if the separator does not occur |
| ServerRules.ParseDbsListRejoins | pyoocouchdb/Server.py:90-93 | a string with a comma is split on commas, one without on spaces; the pieces rejoin to the string and none holds its separator |
| ServerRules.SplitPieceWithin | pyoocouchdb/Server.py:92-93 | a character absent from a string is absent from each piece |
| ServerRules.DbsValue | pyoocouchdb/Server.py:102-104 | the `keys` list holds the pieces as strings, in order |
| ServerRules.AddNodeDecision | pyoocouchdb/Server.py:217-239 | refuse exactly when `all_nodes` lists the node, report no membership exactly when `all_nodes` is missing, register exactly when it does not list the node; a non-dict answer raises |
| ServerRules.RemoveNodeDecision | pyoocouchdb/Server.py:244-262 | no-membership report exactly when `all_nodes` is missing; a withdrawal exactly when `cluster_nodes` lists the node; UnboundLocalError exactly when `all_nodes` is present and `cluster_nodes` is missing or does not list the node |
| ServerRules.NodeDecisionsAgree | pyoocouchdb/Server.py:214-263 | a cluster node is refused by add and withdrawn by remove; a node in neither list is registered by add, while remove raises UnboundLocalError |
| ServerRules.SyncRowsKeys | pyoocouchdb/Server.py:275-282 | every database gets a row under its formatted name, and there are no other rows |
| ServerRules.SyncRowsLast | pyoocouchdb/Server.py:278-279 | a database's row holds its own answer unless a later name formats the same |
| ServerRules.SyncAnswersStable | pyoocouchdb/Server.py:277-279 | later calls do not change the answers to earlier ones |
| ServerRules.SyncAnswersGrow | pyoocouchdb/Server.py:277-279 | one more round appends its answer |
| NodeRules.NodeUrl | pyoocouchdb/Node.py:11 | the Node URL is the server URL, then `_node/`, the name and `/` |
| NodeRules.NodeUrlValid | pyoocouchdb/Node.py:11 | a Node URL is an http URL |
| NodeRules.ConfigEndpoint | pyoocouchdb/Node.py:20-28 | raises UnboundLocalError if and only if no section is given |
| NodeRules.ConfigEndpointParts | pyoocouchdb/Node.py:20-24 | the endpoint splits on `/` into `_config`, the section and, when given, the key |
| DatabaseRules.EditedList | pyoocouchdb/Database.py:118-121 | the edited list is `sec[section][field]`; a missing section or list reads as empty; it fails exactly when the document or the section is not a dict |
| DatabaseRules.Put | pyoocouchdb/Database.py:122-124 | the edited document holds the new list at `sec[section][field]` |
| DatabaseRules.EditSecurity | pyoocouchdb/Database.py:115-217 | nothing is pushed if and only if the entry is already present (add) or absent (remove) |
| DatabaseRules.PutKeepsOthers | pyoocouchdb/Database.py:115-217 | every other section and every other list of the section are as they were |
| DatabaseRules.PutPut | pyoocouchdb/Database.py:118-124 | storing twice into the same list keeps only the second value |
| DatabaseRules.EditedListOfPut | pyoocouchdb/Database.py:118-124 | the list stored is the one the next edit reads |
| DatabaseRules.AddAppends | pyoocouchdb/Database.py:122-125 | an add that pushes appended the entry at the end of a list that lacked it |
| DatabaseRules.AddIdempotent | pyoocouchdb/Database.py:115-125 | after a pushed add, adding the same entry pushes nothing |
| DatabaseRules.RemoveTakesFirst | pyoocouchdb/Database.py:127-139 | a remove that pushes took out exactly the first occurrence |
| DatabaseRules.AddThenRemove | pyoocouchdb/Database.py:115-139 | removing what an add pushed restores the list |
| DatabaseRules.MissingSection | pyoocouchdb/Database.py:118-121 | a missing section is created: an add pushes it with a one-entry list, a remove pushes nothing |
| DatabaseRules.Elements | pyoocouchdb/Database.py:313 | a `for` loop visits a list's items; an empty dict or string visits nothing; other values fail |
| DatabaseRules.DocRevsOnlyPurgeable | pyoocouchdb/Database.py:314-315 | only entries marked deleted whose `seq` equals the last sequence under Python's `==` contribute revisions |
| DatabaseRules.PurgeableContributes | pyoocouchdb/Database.py:316-317 | such an entry contributes the `rev` of each of its changes, in order |
| DatabaseRules.NotPurgeableContributesNothing | pyoocouchdb/Database.py:314-315 | any other entry contributes nothing |
| DatabaseRules.ChainAssociative | pyoocouchdb/Database.py:313-317 | chaining is associative |
| DatabaseRules.PurgeListLast | pyoocouchdb/Database.py:313-317 | one more entry adds its revisions after the others' |
| DatabaseRules.PurgeListAppend | pyoocouchdb/Database.py:313-317 | the collection over two runs of entries is the two collections chained |
| DatabaseRules.PurgeListSound | pyoocouchdb/Database.py:313-317 | every collected revision was contributed by some entry |
| DatabaseRules.PurgeListFails | pyoocouchdb/Database.py:313-317 | a failure within the first entries is the collection's failure |
| DatabaseRules.ChangeRevsFails | pyoocouchdb/Database.py:316-317 | the same for one entry's changes |
| DatabaseRules.CollectChangeRevs | pyoocouchdb/Database.py:316-317 | the inner loop computes `ChangeRevs` |
| DatabaseRules.EntryRevs | pyoocouchdb/Database.py:314-317 | one entry's tests and inner loop compute `DocRevs` |
| DatabaseRules.CollectPurgeRevs | pyoocouchdb/Database.py:312-317 | the outer loop computes `PurgeRevs` of the results at the last sequence |
| DatabaseRules.Acknowledged | pyoocouchdb/Database.py:63-65 | true if and only if the answer is a dict whose `ok` is truthy; fails on anything but a dict |
| DocumentRules.ClassifyLookup | pyoocouchdb/Document.py:29-38 | `status` of `"error"`, or no `status` and an `error` key, means missing; another `status` leaves the flag unset; neither means found, at `_rev`; a found answer without `_rev` raises |
| DocumentRules.Presence | pyoocouchdb/Document.py:78-83 | False if and only if the answer has `error`, True if and only if it has `_id` and no `error`, None otherwise; raises on a non-dict |
| DocumentRules.AfterCreate | pyoocouchdb/Document.py:99-101 | a `rev` in the answer becomes the revision and marks the document as existing; otherwise both stay |
| DocumentRules.FoundIsPresent | pyoocouchdb/Document.py:29-83 | a found lookup that has `_id` makes `is_there` answer True |
| DocumentRules.ErrorIsMissing | pyoocouchdb/Document.py:29-83 | an `error` answer without `status` is missing for both tests |
| DocumentRules.IdSearch | pyoocouchdb/Document.py:40-55 | the search makes between one and fuel+1 lookups |
| DocumentRules.Redraw | pyoocouchdb/Document.py:48-55 | the loop from the k-th lookup makes at least one more |
| DocumentRules.RedrawNext | pyoocouchdb/Document.py:48-55 | a dict answer without `error` passes the search to the next lookup |
| DocumentRules.RedrawEnd | pyoocouchdb/Document.py:48-55 | the loop ends at an `error` answer (settled), at a non-dict (raises), or after the last redraw |
| DocumentRules.RedrawStops | pyoocouchdb/Document.py:48-55 | every answer before the last is a dict without `error`; it settles if and only if the last has `error` |
| DocumentRules.IdSearchSettles | pyoocouchdb/Document.py:40-55 | a settled search stopped at once on a first answer without `id`, or at the first later answer with `error` |
| DocumentRules.IdSearchOneLookup | pyoocouchdb/Document.py:40-55 | a first answer with both `id` and `error` ends the search after one lookup |
| DocumentRules.IdSearchGivesUp | pyoocouchdb/Document.py:48-55 | the search gives up only after fuel+1 dict answers without `error`, after a first answer with `id` |
| CouchDb.DatabaseAtValid | pyoocouchdb/Database.py:16 | a Database URL, `server.url + name + "/"`, is an http URL |
| CouchDb.SyncRequests | pyoocouchdb/Server.py:277-279 | two calls per database |
| CouchDb.SyncRequestsSnoc | pyoocouchdb/Server.py:277-279 | one more name adds its pair of calls |
| CouchDb.IdLookupsRead | pyoocouchdb/Document.py:41-55 | every lookup of the id search is a GET |
| CouchDb.SyncEachStep | pyoocouchdb/Server.py:277-279 | one loop round keeps the account of calls, names and rows |
| CouchDb.SyncRequestsAt | pyoocouchdb/Server.py:277-279 | the j-th pair is the lookup of the j-th database and its `_sync_shards` POST |
| CouchDb.SyncWire | pyoocouchdb/Database.py:323-324 | every `_sync_shards` POST goes out with the headers an untouched dict would give |
| CouchDb.IdLookups | pyoocouchdb/Document.py:40-55 | n lookups for n drawn ids |
| CouchDb.SearchEnds | pyoocouchdb/Document.py:48-55 | where the loop stops is where the search says it ends |
| CouchDb.IdLookupsAt | pyoocouchdb/Document.py:40-55 | the k-th lookup asks for the k-th id drawn, through the one header dict |
| CouchDb.Server.constructor | pyoocouchdb/Server.py:18-26 | the fixed fields as `MakeInfo` gives them, no attributes recorded |
| CouchDb.Server.Open | pyoocouchdb/Server.py:14-52 | one probe through the shared default dict, a membership call exactly when the answer lists `all_nodes`, attributes as `ProbeRecord` reads them; only GETs are sent, and the shared dict then holds the server's injected headers |
| CouchDb.Server.Absorb | pyoocouchdb/Server.py:31-40 | the attributes and the membership call of __init__ |
| CouchDb.Server.Endpoint | pyoocouchdb/Server.py:59-63 | one call of endpoint_api as the server |
| CouchDb.Server.Membership | pyoocouchdb/Server.py:313-321 | one GET of `_membership` |
| CouchDb.Server.AllDbs | pyoocouchdb/Server.py:73-81 | one GET of `_all_dbs` |
| CouchDb.Server.DbsInfo | pyoocouchdb/Server.py:84-108 | one POST of `{"keys": dbs}`: the server's list for None (after one `_all_dbs` call), the pieces of a string, the argument otherwise |
| CouchDb.Server.AddNode | pyoocouchdb/Server.py:214-240 | one membership call, then the 400 or 500 record and no PUT, or the admin PUT of `_node/_local/_nodes/<name>`, as `AddNodeDecision` says; the shared `endpoint` dict gains the admin headers exactly when the PUT is sent |
| CouchDb.Server.RemoveNode | pyoocouchdb/Server.py:242-263 | one membership call; the GET and the DELETE at `?rev=<_rev>` only when `RemoveNodeDecision` says withdraw; otherwise the shared `endpoint` dict is left as it was |
| CouchDb.Server.WithdrawNode | pyoocouchdb/Server.py:251-253 | the GET of the node document, then the DELETE at its revision, on the admin port; the shared `endpoint` dict ends up holding the admin headers whether or not the DELETE is sent |
| CouchDb.Server.SyncDatabase | pyoocouchdb/Server.py:277-279 | the Database lookup, then its `_sync_shards` POST; it raises AttributeError exactly when the lookup answer is not a dict, after the lookup alone and with the shared dict untouched |
| CouchDb.Server.SyncRound | pyoocouchdb/Server.py:277-279 | one round succeeds exactly when its lookup answers a dict and its name can be a dict key, and then extends the account by that database's calls and row; otherwise it raises AttributeError after the lookup or TypeError after the POST, with log and shared dict as `SyncStops` says |
| CouchDb.Server.SyncEach | pyoocouchdb/Server.py:275-282 | the whole loop succeeds exactly when every round passes, with the calls in order, every row filed and the shared dict settled; otherwise it raises in the first round that does not pass, after the rounds before it |
| CouchDb.Server.SyncAllShards | pyoocouchdb/Server.py:266-283 | on a list answer, it succeeds exactly when every round passes, and then `processed` is the list length and `rows` has one entry per name; it raises in the first round that does not pass; otherwise the answer is returned unchanged with nothing more sent |
| CouchDb.Server.AddUser | pyoocouchdb/Server.py:192-202 | `org.couchdb.user:<name>` with `type` user is created only when absent |
| CouchDb.Server.Enrol | pyoocouchdb/Server.py:194-202 | the user document's lookup, then creation only for a missing document |
| CouchDb.Server.CreateUserDoc | pyoocouchdb/Server.py:196-202 | the content is the user record and `create` sends its PUT unless `is_there` finds the document |
| CouchDb.Server.DeleteUser | pyoocouchdb/Server.py:204-211 | the user document is deleted only when present |
| CouchDb.Server.Drop | pyoocouchdb/Server.py:207-211 | the user document's lookup, then `delete` only for a found document |
| CouchDb.Node.constructor | pyoocouchdb/Node.py:7-14 | a Node of the server under the name |
| CouchDb.Node.Config | pyoocouchdb/Node.py:17-28 | targets `_config/<section>[/<key>]` with the upper-cased verb; without a section it raises before sending anything |
| CouchDb.Node.Stats | pyoocouchdb/Node.py:31-35 | one GET of `_stats` with the default headers |
| CouchDb.Node.System | pyoocouchdb/Node.py:38-42 | one GET of `_system` with the default headers |
| CouchDb.Database.constructor | pyoocouchdb/Database.py:11-17 | a Database at `server.url + name + "/"`, not yet existing |
| CouchDb.Database.Open | pyoocouchdb/Database.py:11-46 | one lookup; `exists` is true and the name becomes `db_name` if and only if the answer has `db_name`; a non-dict answer raises |
| CouchDb.Database.Create | pyoocouchdb/Database.py:52-66 | nothing is sent for an existing database; otherwise one PUT, and `exists` becomes the acknowledgement |
| CouchDb.Database.Delete | pyoocouchdb/Database.py:69-83 | nothing is sent for a missing database; otherwise one DELETE, and `exists` becomes false only on acknowledgement |
| CouchDb.Database.FindById | pyoocouchdb/Database.py:220-223 | a Document of this database with the shared default content dict |
| CouchDb.Database.GetSecurityData | pyoocouchdb/Database.py:104-108 | one GET of `<db>/_security` through the server |
| CouchDb.Database.SetSecurityData | pyoocouchdb/Database.py:110-113 | one PUT of the definition to `<db>/_security` |
| CouchDb.Database.ChangeSecurity | pyoocouchdb/Database.py:115-217 | one GET, then a PUT of the edited document only when `EditSecurity` pushes; the shared `endpoint` dict ends up holding the database's injected headers on every path |
| CouchDb.Database.AddAdminUser | pyoocouchdb/Database.py:115-125 | the edit of `admins.names`, adding |
| CouchDb.Database.RemoveAdminUser | pyoocouchdb/Database.py:127-139 | the edit of `admins.names`, removing |
| CouchDb.Database.AddAdminRole | pyoocouchdb/Database.py:141-151 | the edit of `admins.roles`, adding |
| CouchDb.Database.RemoveAdminRole | pyoocouchdb/Database.py:153-165 | the edit of `admins.roles`, removing |
| CouchDb.Database.AddMemberUser | pyoocouchdb/Database.py:167-177 | the edit of `members.names`, adding |
| CouchDb.Database.RemoveMemberUser | pyoocouchdb/Database.py:179-191 | the edit of `members.names`, removing |
| CouchDb.Database.AddMemberRole | pyoocouchdb/Database.py:193-203 | the edit of `members.roles`, adding |
| CouchDb.Database.RemoveMemberRole | pyoocouchdb/Database.py:205-217 | the edit of `members.roles`, removing |
| CouchDb.Database.PurgeAll | pyoocouchdb/Database.py:292-320 | one POST to `_changes`, one draw, then a POST to `_purge` of the collected revisions under the drawn id; a failing collection raises before it |
| CouchDb.Database.SyncShards | pyoocouchdb/Database.py:323-324 | one POST of `_sync_shards` |
| CouchDb.Document.constructor | pyoocouchdb/Document.py:10-22 | a Document of the database with the id and content dict, no revision, flag unset |
| CouchDb.Document.Open | pyoocouchdb/Document.py:10-59 | with an id: the lookup as `Fetched` says, no draw; without one: the id search as `Drawn` says |
| CouchDb.Document.Fetch | pyoocouchdb/Document.py:23-38 | one lookup of `database.url + id`; the flag and revision as `ClassifyLookup` says; a found document copies every key of the answer into the content dict |
| CouchDb.Document.DrawId | pyoocouchdb/Document.py:40-55 | the draws and lookups of the id search, which are GETs only, and its last id |
| CouchDb.Document.Search | pyoocouchdb/Document.py:48-55 | the loop ends as `IdSearch` says |
| CouchDb.Document.Redrawn | pyoocouchdb/Document.py:49-55 | one round of the loop keeps the search's account |
| CouchDb.Document.FirstLookup | pyoocouchdb/Document.py:40-47 | one draw, and its lookup with a fresh header dict |
| CouchDb.Document.NextLookup | pyoocouchdb/Document.py:49-54 | one more draw, and its lookup through the same dict |
| CouchDb.Document.IsThere | pyoocouchdb/Document.py:75-83 | one GET through the shared default dict; result and flag as `Presence` says |
| CouchDb.Document.Create | pyoocouchdb/Document.py:86-104 | an existing document gets the 400 record and no PUT; a missing one gets one PUT of its content, with revision and flag as `AfterCreate` says; an unset flag raises |
| CouchDb.Document.Put | pyoocouchdb/Document.py:94-104 | one PUT of the content, then `AfterCreate` |
| CouchDb.Document.CurrentRevision | pyoocouchdb/Document.py:107-112 | one lookup through `find_by_id`; revision and content from it |
| CouchDb.Document.Update | pyoocouchdb/Document.py:115-137 | the PUT carries `If-Match` of the refreshed revision and the content snapshot taken at entry; a missing document gets the 400 record and no PUT |
| CouchDb.Document.Save | pyoocouchdb/Document.py:123-134 | one PUT of the snapshot with `If-Match`, then the refresh |
| CouchDb.Document.Delete | pyoocouchdb/Document.py:140-153 | a re-read, then `is_there`; a DELETE with `If-Match` only when it answers True, else None |
| CouchDb.Document.Discard | pyoocouchdb/Document.py:142-153 | `is_there`, then the DELETE only on True |

## Left out

- The network: `requests.*`, `HTTPConnection`, `connect`, `request` and `getresponse`
  (Core.py:98-107, 138, 166-173) are replaced by the call log and the `reply` oracle. A
  reply depends only on the log, not on time or on other clients.
- The exception handlers and `finally` blocks of `endpoint_api` (Core.py:108-129, 174-195),
  as well as the handler in `Server.__init__` (Server.py:45-50). They depend on
  `dir(response)`, on `response.raw` and on a `response` that may be unbound. Transport
  errors are not modelled; no claim is made that the client never raises them.
- JSON serialisation and parsing. Bodies and answers are `Json.Value`, and numbers are
  integers only. `update`'s `json.loads(json.dumps(content))` is a copy of the value.
- Logging and `get_linenumber`.
- `urllib3.make_headers` Basic-auth encoding (Core.py:140), which is a given function of
  `user:password`.
- `uuid4`, which is the given sequence `Env.uuidHex`.
- The import-time choice of transport (Core.py:22-27), which is the given `Transport`.
- The `compatibility` argument, which `endpoint_api` never reads.
- Python's case mapping beyond ASCII. `Text.Upper` upper-cases ASCII letters only.
- f-string formatting of lists and dicts. `Python.Format` writes strings, integers,
  booleans and None as Python does, and other values as a placeholder text.
- `setup_cluster`, `cluster_setup_status` and `create_initial_dbs`. They are orchestration
  sequences, and Server.py:178 is broken.
- `compact_all`, which calls `.keys()` on a list (Server.py:292), and `compact`.
- `refresh_connection` (re-running `__init__`).
- The plain passthrough calls `active_tasks`, `db_updates`, `scheduler_jobs`,
  `scheduler_docs`, `up`, `uuids`, `all_docs`, `delete_all_docs`, `changes`, `find`,
  `bulk_create`, `create_index` and `create_view`. `create_index`'s checks only log.
- `__str__` of Database and Document.
- `Document.delete`'s `if not self.exists` branch (Document.py:143-145). It cannot be
  taken: `is_there` answering True has just set the flag to true.
- ServerRules.SyncRowsKeys: a row is filed under the name's text (`Python.Format`), since
  the result is a JSON object with string keys. For string names, which `_all_dbs` returns,
  that is the key Python uses. Python keys other names by value: there `1` and `"1"` are
  two rows and `True` and `1` one row, the reverse of the model.
- ServerRules.SyncRowsLast: "formats the same" is the model's key equality, which differs
  from Python's for non-string names as the line above says.
- CouchDb.Server.SyncAllShards: `rows` is keyed as `ServerRules.SyncRowsKeys` says.
- Ports other than non-negative integers. The source accepts any value for `port` and
  `admin_port`, converting `port` with `str()` and keeping `admin_port` as given.
- CouchDb.Document.DrawId: the id search is bounded by `Env.fuel` redraws. A search that
  would need more lookups raises `StillLooping`. The source's loop has no bound.
- Concurrency: one client and one thread.
