/** What `Database` (pyoocouchdb/Database.py) decides from the answers it gets: the edits of the
    security document behind the eight add/remove methods, and the revisions `purge_all`
    collects from a change feed. */
module DatabaseRules {
  import opened Json
  import opened Python
  import opened Text

  // Security document edits (Database.py:115-217)

  /** The list an edit works on: `sec_data[section][field]`, where a missing section reads as
      `{}` and a missing list as `[]`, as the methods create them before looking. */
  function EditedList(sec: Value, section: string, field: string): (r: Outcome<Value>)
    ensures r.Ok? <==> sec.Obj? && (section in sec.fields ==> sec.fields[section].Obj?)
    ensures r.Ok? && section in sec.fields && field in sec.fields[section].fields ==>
      r.value == sec.fields[section].fields[field]
    ensures r.Ok? && (section !in sec.fields || field !in sec.fields[section].fields) ==>
      r.value == Arr([])
  {
    var top :- Keys(sec);
    var part := if section in top then top[section] else Empty;
    var inner :- Keys(part);
    Ok(if field in inner then inner[field] else Arr([]))
  }

  /** The security document with `v` stored as `sec_data[section][field]`. */
  function Put(sec: Value, section: string, field: string, v: Value): (r: Value)
    requires EditedList(sec, section, field).Ok?
    ensures r.Obj? && section in r.fields && r.fields[section].Obj?
    ensures field in r.fields[section].fields && r.fields[section].fields[field] == v
  {
    var part := if section in sec.fields then sec.fields[section].fields else map[];
    Obj(sec.fields[section := Obj(part[field := v])])
  }

  /** One add (`add`) or remove of `entry` in `sec_data[section][field]`: `Ok(None)` when
      nothing is to be pushed (already there for an add, absent for a remove), `Ok(Some(d))`
      when `d` is pushed, `Raise` for the exceptions the shape of the document provokes. */
  function EditSecurity(sec: Value, section: string, field: string, entry: string, add: bool): (r: Outcome<Option<Value>>)
    ensures r.Ok? ==> EditedList(sec, section, field).Ok?
    ensures r.Ok? ==> (r.value.None? <==> Contains(EditedList(sec, section, field).value, entry) == Ok(add))
  {
    var list :- EditedList(sec, section, field);
    var present :- Contains(list, entry);
    if present == add then Ok(None)
    else
      var updated :- if add then Append(list, Str(entry)) else Remove(list, Str(entry));
      Ok(Some(Put(sec, section, field, updated)))
  }

  /** Storing into a list leaves every other section and every other list of the section as
      they were. */
  lemma PutKeepsOthers(sec: Value, section: string, field: string, v: Value)
    requires EditedList(sec, section, field).Ok?
    ensures var d := Put(sec, section, field, v);
      && d.fields.Keys == sec.fields.Keys + {section}
      && (forall k | k in sec.fields && k != section :: d.fields[k] == sec.fields[k])
      && (section in sec.fields ==>
            d.fields[section].fields.Keys == sec.fields[section].fields.Keys + {field}
            && forall g | g in sec.fields[section].fields && g != field ::
                 d.fields[section].fields[g] == sec.fields[section].fields[g])
  {
  }

  /** Storing twice into the same list keeps the second value only. */
  lemma PutPut(sec: Value, section: string, field: string, v: Value, w: Value)
    requires EditedList(sec, section, field).Ok?
    ensures Put(Put(sec, section, field, v), section, field, w) == Put(sec, section, field, w)
  {
    var part := if section in sec.fields then sec.fields[section].fields else map[];
    assert part[field := v][field := w] == part[field := w];
    assert sec.fields[section := Obj(part[field := v])][section := Obj(part[field := w])]
      == sec.fields[section := Obj(part[field := w])];
  }

  /** The list stored by `Put` is the one an edit of the result then reads. */
  lemma EditedListOfPut(sec: Value, section: string, field: string, v: Value)
    requires EditedList(sec, section, field).Ok?
    ensures EditedList(Put(sec, section, field, v), section, field) == Ok(v)
  {
  }

  /** An add that pushes appended the entry at the end of a list that lacked it, and changed
      nothing else (Database.py:122-125). */
  lemma {:induction false} AddAppends(sec: Value, section: string, field: string, entry: string)
    requires EditSecurity(sec, section, field, entry, true).Ok?
    requires EditSecurity(sec, section, field, entry, true).value.Some?
    ensures var list := EditedList(sec, section, field).value;
      && list.Arr? && Str(entry) !in list.items
      && EditSecurity(sec, section, field, entry, true) == Ok(Some(Put(sec, section, field, Arr(list.items + [Str(entry)]))))
  {
    var list := EditedList(sec, section, field).value;
    assert Contains(list, entry).Ok?;
    assert Append(list, Str(entry)).Ok?;
  }

  /** Adding is idempotent: after a pushed add, adding the same entry pushes nothing. */
  lemma {:induction false} AddIdempotent(sec: Value, section: string, field: string, entry: string)
    requires EditSecurity(sec, section, field, entry, true).Ok?
    ensures var r := EditSecurity(sec, section, field, entry, true);
      match r.value
      case None => true
      case Some(d) => EditSecurity(d, section, field, entry, true) == Ok(None)
  {
    var r := EditSecurity(sec, section, field, entry, true);
    if r.value.Some? {
      AddAppends(sec, section, field, entry);
      var list := EditedList(sec, section, field).value;
      var grown := Arr(list.items + [Str(entry)]);
      EditedListOfPut(sec, section, field, grown);
      assert Str(entry) in grown.items by {
        assert grown.items[|list.items|] == Str(entry);
      }
    }
  }

  /** A remove that pushes took out exactly the first occurrence and kept the order of the
      rest (Database.py:134-137 with `list.remove`). */
  lemma {:induction false} RemoveTakesFirst(sec: Value, section: string, field: string, entry: string)
    requires EditSecurity(sec, section, field, entry, false).Ok?
    requires EditSecurity(sec, section, field, entry, false).value.Some?
    ensures var list := EditedList(sec, section, field).value;
      && list.Arr? && Str(entry) in list.items
      && var i := IndexOf(list.items, Str(entry));
         EditSecurity(sec, section, field, entry, false)
           == Ok(Some(Put(sec, section, field, Arr(list.items[..i] + list.items[i + 1..]))))
  {
    var list := EditedList(sec, section, field).value;
    assert Contains(list, entry).Ok?;
    assert Remove(list, Str(entry)).Ok?;
    RemoveFirstIsSplice(list.items, Str(entry));
  }

  /** Removing what an add just pushed restores the list; the document keeps only the
      section and list the add created (Database.py:115-139). */
  lemma {:induction false} AddThenRemove(sec: Value, section: string, field: string, entry: string)
    requires EditSecurity(sec, section, field, entry, true).Ok?
    requires EditSecurity(sec, section, field, entry, true).value.Some?
    ensures var list := EditedList(sec, section, field).value;
      var d := EditSecurity(sec, section, field, entry, true).value.value;
      EditSecurity(d, section, field, entry, false) == Ok(Some(Put(sec, section, field, list)))
  {
    AddAppends(sec, section, field, entry);
    var list := EditedList(sec, section, field).value;
    var grown := Arr(list.items + [Str(entry)]);
    var d := Put(sec, section, field, grown);
    EditedListOfPut(sec, section, field, grown);
    assert grown.items[|list.items|] == Str(entry);
    RemoveFirstAfterAppend(list.items, Str(entry));
    var back := Put(d, section, field, Arr(list.items));
    assert EditSecurity(d, section, field, entry, false) == Ok(Some(back));
    PutPut(sec, section, field, grown, list);
  }

  /** A document without the section gets it created: an add pushes a section holding a
      one-entry list, a remove pushes nothing (Database.py:118-121, 130-133). */
  lemma MissingSection(sec: Value, section: string, field: string, entry: string)
    requires sec.Obj? && section !in sec.fields
    ensures EditSecurity(sec, section, field, entry, true)
      == Ok(Some(Obj(sec.fields[section := Obj(map[field := Arr([Str(entry)])])])))
    ensures EditSecurity(sec, section, field, entry, false) == Ok(None)
  {
    assert EditedList(sec, section, field) == Ok(Arr([]));
    var none: seq<Value> := [];
    assert none + [Str(entry)] == [Str(entry)];
    assert map[][field := Arr([Str(entry)])] == map[field := Arr([Str(entry)])];
  }

  // Purge revision collection (Database.py:309-317)

  /** The elements a `for` loop visits in `v` when its body needs dicts: a list's items; an
      empty dict or string visits nothing; a non-empty one visits strings, on which the body
      fails with `onString` at the first element; anything else is not iterable. */
  function Elements(v: Value, onString: PyError): (r: Outcome<seq<Value>>)
    ensures r.Ok? && v.Arr? ==> r.value == v.items
    ensures r.Ok? && !v.Arr? ==> r.value == []
    ensures r.Raise? <==> (v.Obj? && v.fields != map[]) || (v.Str? && v.s != "") || v.Null? || v.Bool? || v.Num?
  {
    match v
    case Arr(items) => Ok(items)
    case Obj(m) => if m == map[] then Ok([]) else Raise(onString)
    case Str(s) => if s == "" then Ok([]) else Raise(onString)
    case _ => Raise(TypeError("not iterable"))
  }

  /** `change['rev']` for every change, in order; the first failing lookup propagates. */
  function ChangeRevs(changes: seq<Value>): Outcome<seq<Value>>
  {
    if changes == [] then Ok([])
    else
      var front :- ChangeRevs(changes[..|changes| - 1]);
      var rev :- Index(changes[|changes| - 1], "rev");
      Ok(front + [rev])
  }

  /** Whether a change-feed entry is one `purge_all` collects from: marked deleted and at the
      feed's last sequence. */
  predicate Purgeable(doc: Value, last: Value)
  {
    && doc.Obj? && "deleted" in doc.fields && Truthy(doc.fields["deleted"])
    && "seq" in doc.fields && PyEq(doc.fields["seq"], last)
  }

  /** What one entry of `changes['results']` adds to the purge list. */
  function DocRevs(doc: Value, last: Value): (r: Outcome<seq<Value>>)
  {
    var keys :- Keys(doc);
    if "deleted" !in keys || !Truthy(keys["deleted"]) then Ok([])
    else
      var seqNo :- Index(doc, "seq");
      if !PyEq(seqNo, last) then Ok([])
      else
        var changes :- Index(doc, "changes");
        var items :- Elements(changes, TypeError("string index"));
        ChangeRevs(items)
  }

  /** The revisions collected from a list of entries, in order. */
  function PurgeList(docs: seq<Value>, last: Value): Outcome<seq<Value>>
  {
    if docs == [] then Ok([])
    else
      var front :- PurgeList(docs[..|docs| - 1], last);
      var more :- DocRevs(docs[|docs| - 1], last);
      Ok(front + more)
  }

  /** `data[purge_id]` after the loop over `changes['results']`. */
  function PurgeRevs(results: Value, last: Value): Outcome<seq<Value>>
  {
    var docs :- Elements(results, AttributeError("keys"));
    PurgeList(docs, last)
  }

  /** Only purgeable entries contribute revisions. */
  lemma DocRevsOnlyPurgeable(doc: Value, last: Value)
    requires DocRevs(doc, last).Ok? && DocRevs(doc, last).value != []
    ensures Purgeable(doc, last)
  {
  }

  /** A purgeable entry contributes the `rev` of each of its listed changes, in order. */
  lemma PurgeableContributes(doc: Value, last: Value)
    requires Purgeable(doc, last) && "changes" in doc.fields && doc.fields["changes"].Arr?
    ensures DocRevs(doc, last) == ChangeRevs(doc.fields["changes"].items)
  {
  }

  /** An entry that is not marked deleted, or has another sequence, contributes nothing. */
  lemma NotPurgeableContributesNothing(doc: Value, last: Value)
    requires doc.Obj? && !Purgeable(doc, last)
    requires "deleted" in doc.fields && Truthy(doc.fields["deleted"]) ==> "seq" in doc.fields
    ensures DocRevs(doc, last) == Ok([])
  {
  }

  /** Two collections in sequence: the first failure stops everything. */
  function Chain(p: Outcome<seq<Value>>, q: Outcome<seq<Value>>): (r: Outcome<seq<Value>>)
    ensures r.Ok? <==> p.Ok? && q.Ok?
    ensures r.Raise? && p.Raise? ==> r == p
    ensures p.Ok? && q.Raise? ==> r == q
    ensures r.Ok? ==> r.value == p.value + q.value
  {
    match p
    case Raise(e) => Raise(e)
    case Ok(x) =>
      match q
      case Raise(e) => Raise(e)
      case Ok(y) => Ok(x + y)
  }

  lemma ChainAssociative(p: Outcome<seq<Value>>, q: Outcome<seq<Value>>, r: Outcome<seq<Value>>)
    ensures Chain(Chain(p, q), r) == Chain(p, Chain(q, r))
  {
    if p.Ok? && q.Ok? && r.Ok? {
      assert p.value + q.value + r.value == p.value + (q.value + r.value);
    }
  }

  /** One more entry adds its own revisions after the others'. */
  lemma PurgeListLast(docs: seq<Value>, last: Value)
    requires docs != []
    ensures PurgeList(docs, last) == Chain(PurgeList(docs[..|docs| - 1], last), DocRevs(docs[|docs| - 1], last))
  {
  }

  /** The collection over two runs of entries is the two collections in sequence; a failure
      in the first run stops everything. */
  lemma {:induction false} PurgeListAppend(a: seq<Value>, b: seq<Value>, last: Value)
    ensures PurgeList(a + b, last) == Chain(PurgeList(a, last), PurgeList(b, last))
    decreases |b|
  {
    if b == [] {
      assert a + b == a;
      if PurgeList(a, last).Ok? {
        assert PurgeList(a, last).value + [] == PurgeList(a, last).value;
      }
    } else {
      var b0 := b[..|b| - 1];
      assert (a + b)[..|a + b| - 1] == a + b0;
      assert (a + b)[|a + b| - 1] == b[|b| - 1];
      PurgeListAppend(a, b0, last);
      PurgeListLast(a + b, last);
      PurgeListLast(b, last);
      ChainAssociative(PurgeList(a, last), PurgeList(b0, last), DocRevs(b[|b| - 1], last));
    }
  }

  /** Every collected revision is one that a purgeable entry contributes. */
  predicate ContributedBy(docs: seq<Value>, last: Value, i: int, rev: Value)
  {
    && 0 <= i < |docs| && Purgeable(docs[i], last)
    && DocRevs(docs[i], last).Ok? && rev in DocRevs(docs[i], last).value
  }

  lemma {:induction false} PurgeListSound(docs: seq<Value>, last: Value, k: nat)
    requires PurgeList(docs, last).Ok? && k < |PurgeList(docs, last).value|
    ensures exists i :: ContributedBy(docs, last, i, PurgeList(docs, last).value[k])
    decreases |docs|
  {
    var init := docs[..|docs| - 1];
    var front := PurgeList(init, last).value;
    var more := DocRevs(docs[|docs| - 1], last).value;
    var rev := PurgeList(docs, last).value[k];
    if k < |front| {
      PurgeListSound(init, last, k);
      var i :| ContributedBy(init, last, i, front[k]);
      assert init[i] == docs[i];
      assert ContributedBy(docs, last, i, rev);
    } else {
      assert more[k - |front|] == rev;
      DocRevsOnlyPurgeable(docs[|docs| - 1], last);
      assert ContributedBy(docs, last, |docs| - 1, rev);
    }
  }

  /** A failure within the first `i` entries is the failure of the whole collection. */
  lemma {:induction false} PurgeListFails(docs: seq<Value>, last: Value, i: nat)
    requires i <= |docs| && PurgeList(docs[..i], last).Raise?
    ensures PurgeList(docs, last) == PurgeList(docs[..i], last)
    decreases |docs| - i
  {
    if i < |docs| {
      assert docs[..i + 1][..i] == docs[..i];
      PurgeListFails(docs, last, i + 1);
    } else {
      assert docs[..i] == docs;
    }
  }

  /** The same for the revisions of one entry's changes. */
  lemma {:induction false} ChangeRevsFails(changes: seq<Value>, i: nat)
    requires i <= |changes| && ChangeRevs(changes[..i]).Raise?
    ensures ChangeRevs(changes) == ChangeRevs(changes[..i])
    decreases |changes| - i
  {
    if i < |changes| {
      assert changes[..i + 1][..i] == changes[..i];
      ChangeRevsFails(changes, i + 1);
    } else {
      assert changes[..i] == changes;
    }
  }

  /** The inner loop of purge_all (Database.py:316-317): appends each change's `rev`. */
  method CollectChangeRevs(changes: seq<Value>) returns (r: Outcome<seq<Value>>)
    ensures r == ChangeRevs(changes)
  {
    var revs: seq<Value> := [];
    var i := 0;
    while i < |changes|
      invariant 0 <= i <= |changes|
      invariant ChangeRevs(changes[..i]) == Ok(revs)
    {
      var rev := Index(changes[i], "rev");
      assert changes[..i + 1][..i] == changes[..i];
      if rev.Raise? {
        ChangeRevsFails(changes, i + 1);
        return Raise(rev.error);
      }
      revs := revs + [rev.value];
      i := i + 1;
    }
    assert changes[..i] == changes;
    return Ok(revs);
  }

  /** The tests purge_all applies to one entry (Database.py:314-315) before its inner loop. */
  method EntryRevs(doc: Value, last: Value) returns (r: Outcome<seq<Value>>)
    ensures r == DocRevs(doc, last)
  {
    var keys :- Keys(doc);
    if "deleted" !in keys || !Truthy(keys["deleted"]) {
      return Ok([]);
    }
    var seqNo :- Index(doc, "seq");
    if !PyEq(seqNo, last) {
      return Ok([]);
    }
    var changes :- Index(doc, "changes");
    var items :- Elements(changes, TypeError("string index"));
    r := CollectChangeRevs(items);
  }

  /** The outer loop of purge_all (Database.py:313-317) over `changes['results']`. */
  method CollectPurgeRevs(results: Value, last: Value) returns (r: Outcome<seq<Value>>)
    ensures r == PurgeRevs(results, last)
  {
    var docs :- Elements(results, AttributeError("keys"));
    var revs: seq<Value> := [];
    var i := 0;
    while i < |docs|
      invariant 0 <= i <= |docs|
      invariant PurgeList(docs[..i], last) == Ok(revs)
    {
      var more := EntryRevs(docs[i], last);
      assert docs[..i + 1][..i] == docs[..i];
      if more.Raise? {
        PurgeListFails(docs, last, i + 1);
        return Raise(more.error);
      }
      revs := revs + more.value;
      i := i + 1;
    }
    assert docs[..i] == docs;
    return Ok(revs);
  }

  /** The body of the `_changes` request: `{"selector": {"deleted": true}}` (Database.py:298-302). */
  const DeletedSelector: Value := Obj(map["selector" := Obj(map["deleted" := Bool(true)])])

  /** The revisions `purge_all` sends for the answer of its `_changes` request
      (Database.py:312-317): `last_seq` is read first, then `results`. */
  function PurgeRequestRevs(changes: Value): Outcome<seq<Value>>
  {
    var last :- Index(changes, "last_seq");
    var results :- Index(changes, "results");
    PurgeRevs(results, last)
  }

  // Existence transitions (Database.py:39-46, 55-83)

  /** `"ok" in response.keys()` followed by `response["ok"]`: whether the server acknowledged. */
  function Acknowledged(response: Value): (r: Outcome<bool>)
    ensures r.Ok? <==> response.Obj?
    ensures r == Ok(true) <==> response.Obj? && "ok" in response.fields && Truthy(response.fields["ok"])
  {
    var keys :- Keys(response);
    Ok("ok" in keys && Truthy(keys["ok"]))
  }
}
