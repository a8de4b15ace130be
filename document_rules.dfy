/** What `Document` (pyoocouchdb/Document.py) concludes from the lookups it makes. */
module DocumentRules {
  import opened Json
  import opened Python

  /** The three outcomes of the constructor's lookup (Document.py:29-38): the document is
      missing, it is found with a revision, or the answer carries a `status` other than
      `"error"` and the existence flag is left unassigned. */
  datatype Lookup = Missing | Unsettled | Found(revision: Value)

  function ClassifyLookup(resp: Value): (r: Outcome<Lookup>)
    ensures r.Raise? <==>
      !resp.Obj? || ("status" !in resp.fields && "error" !in resp.fields && "_rev" !in resp.fields)
    ensures r == Ok(Missing) <==>
      resp.Obj? && (if "status" in resp.fields then resp.fields["status"] == Str("error") else "error" in resp.fields)
    ensures r == Ok(Unsettled) <==>
      resp.Obj? && "status" in resp.fields && resp.fields["status"] != Str("error")
    ensures r.Ok? && r.value.Found? <==>
      resp.Obj? && "status" !in resp.fields && "error" !in resp.fields && "_rev" in resp.fields
    ensures r.Ok? && r.value.Found? ==> r.value.revision == resp.fields["_rev"]
  {
    var keys :- Keys(resp);
    if "status" in keys then
      if keys["status"] == Str("error") then Ok(Missing) else Ok(Unsettled)
    else if "error" in keys then Ok(Missing)
    else
      var rev :- Index(resp, "_rev");
      Ok(Found(rev))
  }

  /** The existence flag the lookup leaves: `None` when it is not assigned. */
  function LookupExists(l: Lookup): (r: Option<bool>)
    ensures r == None <==> l.Unsettled?
    ensures r == Some(true) <==> l.Found?
  {
    match l
    case Missing => Some(false)
    case Unsettled => None
    case Found(_) => Some(true)
  }

  /** The revision the lookup leaves: the found one, else `None` as __init__ set it. */
  function LookupRevision(l: Lookup): (r: Value)
    ensures l.Found? ==> r == l.revision
    ensures !l.Found? ==> r == Null
  {
    if l.Found? then l.revision else Null
  }

  /** `is_there` (Document.py:78-83): `False` on an `error` key, else `True` on `_id`, else
      `None`; the flag follows the answer and stays as it was on `None`. */
  function Presence(resp: Value): (r: Outcome<Option<bool>>)
    ensures r.Ok? <==> resp.Obj?
    ensures r == Ok(Some(false)) <==> resp.Obj? && "error" in resp.fields
    ensures r == Ok(Some(true)) <==> resp.Obj? && "error" !in resp.fields && "_id" in resp.fields
    ensures r == Ok(None) <==> resp.Obj? && "error" !in resp.fields && "_id" !in resp.fields
  {
    var keys :- Keys(resp);
    if "error" in keys then Ok(Some(false))
    else if "_id" in keys then Ok(Some(true))
    else Ok(None)
  }

  /** The flag after `is_there`. */
  function ExistsAfter(found: Option<bool>, before: Option<bool>): (r: Option<bool>)
    ensures found.Some? ==> r == found
    ensures found.None? ==> r == before
  {
    if found.Some? then found else before
  }

  /** The answer `create` gives for a document that exists, and `update` for one that does not
      (Document.py:92, 137: both carry the same message). */
  const AlreadyExists: Value :=
    Obj(map["status" := Str("error"), "errcode" := Str("400"), "errmsg" := Str("Document already exists!")])

  /** `create`'s revision bookkeeping (Document.py:99-101): a `rev` in the answer becomes the
      revision and marks the document as existing; otherwise both stay. */
  function AfterCreate(resp: Value, revision: Value, existing: Option<bool>): (r: Outcome<(Value, Option<bool>)>)
    ensures r.Ok? <==> resp.Obj?
    ensures r.Ok? && "rev" in resp.fields ==> r.value == (resp.fields["rev"], Some(true))
    ensures r.Ok? && "rev" !in resp.fields ==> r.value == (revision, existing)
  {
    var keys :- Keys(resp);
    if "rev" in keys then Ok((keys["rev"], Some(true))) else Ok((revision, existing))
  }

  /** What `current_revision` (Document.py:107-112) takes from the lookup of a fresh
      `Document(database, id)`: its revision, and the shared default content dict, which a
      found document fills with the answer's keys. */
  function Reread(resp: Value, blank: map<string, Value>): Outcome<(Value, map<string, Value>)>
  {
    var l :- ClassifyLookup(resp);
    Ok((LookupRevision(l), if l.Found? then blank + resp.fields else blank))
  }

  /** A lookup that finds the document settles it as existing, and `is_there` on the same
      answer agrees when the answer carries `_id`. */
  lemma FoundIsPresent(resp: Value)
    requires ClassifyLookup(resp).Ok? && ClassifyLookup(resp).value.Found? && "_id" in resp.fields
    ensures Presence(resp) == Ok(Some(true))
  {
  }

  /** An `error` answer without `status` is missing for both tests. */
  lemma ErrorIsMissing(resp: Value)
    requires resp.Obj? && "error" in resp.fields && "status" !in resp.fields
    ensures ClassifyLookup(resp) == Ok(Missing) && Presence(resp) == Ok(Some(false))
  {
  }

  /** The id search of `Document.__init__` without an id (Document.py:40-55), read off the
      answers `a(0), a(1), ...` to its lookups: how many lookups it makes and how it ends. The
      first answer decides whether to search at all (an `id` in it); after that a new id is
      drawn while the current answer lacks `error`. The model allows `fuel` redraws and
      raises `StillLooping` when the search would need more. */
  function IdSearch(a: nat -> Value, fuel: nat): (r: (nat, Outcome<()>))
    ensures 1 <= r.0 <= fuel + 1
  {
    match Keys(a(0))
    case Raise(e) => (1, Raise(e))
    case Ok(keys) => if "id" in keys then Redraw(a, 0, fuel) else (1, Ok(()))
  }

  /** The loop from the `k`-th lookup on. */
  function Redraw(a: nat -> Value, k: nat, fuel: nat): (r: (nat, Outcome<()>))
    requires k <= fuel
    ensures k + 1 <= r.0 <= fuel + 1
    decreases fuel - k
  {
    match Keys(a(k))
    case Raise(e) => (k + 1, Raise(e))
    case Ok(keys) =>
      if "error" in keys then (k + 1, Ok(()))
      else if k == fuel then (k + 1, Raise(StillLooping))
      else Redraw(a, k + 1, fuel)
  }

  /** An answer that is a dict without `error`, before the last redraw, passes the search on
      to the next lookup. */
  lemma RedrawNext(a: nat -> Value, k: nat, fuel: nat)
    requires k < fuel && a(k).Obj? && "error" !in a(k).fields
    ensures Redraw(a, k, fuel) == Redraw(a, k + 1, fuel)
  {
  }

  /** Where the loop ends: at an answer with `error`, at one that is not a dict, or after the
      last redraw. */
  lemma RedrawEnd(a: nat -> Value, k: nat, fuel: nat)
    requires k <= fuel
    ensures a(k).Obj? && "error" in a(k).fields ==> Redraw(a, k, fuel) == (k + 1, Ok(()))
    ensures !a(k).Obj? ==> Redraw(a, k, fuel) == (k + 1, Raise(AttributeError("keys")))
    ensures k == fuel && a(k).Obj? && "error" !in a(k).fields ==> Redraw(a, k, fuel) == (k + 1, Raise(StillLooping))
  {
  }

  /** The loop goes on past an answer only when it is a dict without `error`; it stops at the
      first answer that is not a dict (raising) or that has `error` (settling), or after the
      last redraw the fuel allows. */
  lemma {:induction false} RedrawStops(a: nat -> Value, k: nat, fuel: nat)
    requires k <= fuel
    ensures var (n, out) := Redraw(a, k, fuel);
      && (forall j | k <= j < n - 1 :: a(j).Obj? && "error" !in a(j).fields)
      && (out == Ok(()) <==> a(n - 1).Obj? && "error" in a(n - 1).fields)
      && (out == Raise(StillLooping) <==> n == fuel + 1 && a(fuel).Obj? && "error" !in a(fuel).fields)
      && (out == Raise(AttributeError("keys")) <==> !a(n - 1).Obj?)
    decreases fuel - k
  {
    if a(k).Obj? && "error" !in a(k).fields && k < fuel {
      RedrawStops(a, k + 1, fuel);
    }
  }

  /** The search settles either at once, on a first answer without `id`, or at the first later
      answer with `error`; every answer before the last is a dict without `error`. */
  lemma IdSearchSettles(a: nat -> Value, fuel: nat)
    requires IdSearch(a, fuel).1 == Ok(())
    ensures var n := IdSearch(a, fuel).0;
      && a(0).Obj? && a(n - 1).Obj?
      && (if "id" in a(0).fields then "error" in a(n - 1).fields else n == 1)
      && forall j | 0 <= j < n - 1 :: a(j).Obj? && "error" !in a(j).fields
  {
    if a(0).Obj? && "id" in a(0).fields {
      RedrawStops(a, 0, fuel);
    }
  }

  /** A first answer with both `id` and `error` ends the search after one lookup. */
  lemma IdSearchOneLookup(a: nat -> Value, fuel: nat)
    requires a(0).Obj? && "id" in a(0).fields && "error" in a(0).fields
    ensures IdSearch(a, fuel) == (1, Ok(()))
  {
  }

  /** The search gives up only when every answer it got was a dict without `error`, all
      `fuel + 1` of them, after a first answer with `id`. */
  lemma IdSearchGivesUp(a: nat -> Value, fuel: nat)
    requires IdSearch(a, fuel).1 == Raise(StillLooping)
    ensures IdSearch(a, fuel).0 == fuel + 1
    ensures a(0).Obj? && "id" in a(0).fields
    ensures forall j | 0 <= j <= fuel :: a(j).Obj? && "error" !in a(j).fields
  {
    RedrawStops(a, 0, fuel);
  }
}
