/** Importing exported documents into a collection: incremental with one query per document, or overwriting. */
module ConfigImport {
  import opened Wrappers
  import opened BsonConvert

  // ---- the query that decides whether a document is already there ----

  /** The fields that identify a document of the collection; none for a collection not listed. */
  function UniqueKeys(name: string): seq<string> {
    match name
    case "agent_configs" => ["agent_id"]
    case "prompt_templates" => ["agent_id", "preference_type"]
    case "system_configs" => ["key"]
    case "workflow_definitions" => ["id"]
    case "workflows" => ["id"]
    case "tool_configs" => ["tool_id"]
    case "llm_providers" => ["provider_id"]
    case "model_catalog" => ["model_id"]
    case "platform_configs" => ["platform_id"]
    case "datasource_groupings" => ["name"]
    case "market_categories" => ["name"]
    case "tool_agent_bindings" => ["tool_id", "agent_id"]
    case "agent_workflow_bindings" => ["agent_id", "workflow_id"]
    case _ => []
  }

  function KeyFields(d: Doc, name: string): Doc {
    map k | k in UniqueKeys(name) && k in d && d[k] != Null :: d[k]
  }

  function Only(d: Doc, key: string): Doc
    requires key in d
  {
    map[key := d[key]]
  }

  function UniqueQuery(d: Doc, name: string): Option<Doc> {
    if "_id" in d then Some(Only(d, "_id"))
    else if KeyFields(d, name) != map[] then Some(KeyFields(d, name))
    else if UniqueKeys(name) != [] && name == "tool_configs" && "name" in d then Some(Only(d, "name"))
    else if "username" in d then Some(Only(d, "username"))
    else if "name" in d then Some(Only(d, "name"))
    else if "key" in d then Some(Only(d, "key"))
    else None
  }

  /** A query asks for nothing but fields that the document has, with the values it has. */
  lemma QueryAsksForOwnFields(d: Doc, name: string)
    ensures UniqueQuery(d, name).Some? ==> forall k | k in UniqueQuery(d, name).value :: k in d && UniqueQuery(d, name).value[k] == d[k]
    ensures "_id" in d ==> UniqueQuery(d, name) == Some(map["_id" := d["_id"]])
  {
    hide UniqueKeys;
  }

  /** A document has no query exactly when nothing in it could identify it. */
  lemma NoQueryIff(d: Doc, name: string)
    ensures UniqueQuery(d, name).None? <==>
      && "_id" !in d && "username" !in d && "name" !in d && "key" !in d
      && forall k | k in UniqueKeys(name) && k in d :: d[k] == Null
  {
    hide UniqueKeys;
    assert KeyFields(d, name) == map[] <==> forall k | k in UniqueKeys(name) && k in d :: d[k] == Null by {
      if k :| k in UniqueKeys(name) && k in d && d[k] != Null { assert k in KeyFields(d, name); }
    }
  }

  /** The first set of fields that is not empty. */
  function FirstOf(candidates: seq<set<string>>): set<string> {
    if candidates == [] then {} else if candidates[0] != {} then candidates[0] else FirstOf(candidates[1..])
  }

  lemma FirstIs(a: set<string>, rest: seq<set<string>>)
    ensures FirstOf([a] + rest) == if a != {} then a else FirstOf(rest)
  {
    assert ([a] + rest)[1..] == rest;
  }

  /** The fields of a document that may identify it, in order of preference. */
  function Candidates(d: Doc, name: string): seq<set<string>> {
    var present := d.Keys;
    [present * {"_id"}]
    + ([set k | k in UniqueKeys(name) && k in d && d[k] != Null]
       + ([if name == "tool_configs" then present * {"name"} else {}]
          + ([present * {"username"}] + ([present * {"name"}] + ([present * {"key"}] + [])))))
  }

  function Restrict(d: Doc, fields: set<string>): Doc { map k | k in fields && k in d :: d[k] }

  /** The query asks for the first candidate fields that the document has, with its own values, if any. */
  lemma QueryIsFirstCandidate(d: Doc, name: string)
    ensures
      var fields := FirstOf(Candidates(d, name));
      UniqueQuery(d, name) == if fields == {} then None else Some(Restrict(d, fields))
  {
    hide UniqueKeys, FirstOf, KeyFields, Only, Restrict;
    var present := d.Keys;
    var unique := set k | k in UniqueKeys(name) && k in d && d[k] != Null;
    var tool := if name == "tool_configs" then present * {"name"} else {};
    var last := [present * {"key"}] + [];
    FirstIs(present * {"key"}, []);
    FirstIs(present * {"name"}, last);
    FirstIs(present * {"username"}, [present * {"name"}] + last);
    FirstIs(tool, [present * {"username"}] + ([present * {"name"}] + last));
    FirstIs(unique, [tool] + ([present * {"username"}] + ([present * {"name"}] + last)));
    FirstIs(present * {"_id"}, [unique] + ([tool] + ([present * {"username"}] + ([present * {"name"}] + last))));
    FirstOfNone();
    KeyFieldsIsRestrict(d, name);
    OnlyField(d, "_id");
    OnlyField(d, "name");
    OnlyField(d, "username");
    OnlyField(d, "key");
    ToolKeys();
  }

  lemma KeyFieldsIsRestrict(d: Doc, name: string)
    ensures
      var unique := set k | k in UniqueKeys(name) && k in d && d[k] != Null;
      KeyFields(d, name) == Restrict(d, unique) && (KeyFields(d, name) == map[] <==> unique == {})
  {
    hide UniqueKeys;
    var unique := set k | k in UniqueKeys(name) && k in d && d[k] != Null;
    assert KeyFields(d, name).Keys == unique;
  }

  lemma FirstOfNone()
    ensures FirstOf([]) == {}
  {
  }

  lemma OnlyField(d: Doc, key: string)
    ensures d.Keys * {key} == if key in d then {key} else {}
    ensures key in d ==> Only(d, key) == Restrict(d, {key})
  {
  }

  lemma ToolKeys()
    ensures UniqueKeys("tool_configs") != []
  {
  }

  /** How the database compares one queried field: null matches a missing field, a list matches by any element. */
  predicate FieldMatches(d: Doc, key: string, x: Value) {
    || (key in d && (d[key] == x || (d[key].Arr? && x in d[key].items)))
    || (x.Null? && key !in d)
  }

  predicate Matches(d: Doc, query: Doc) { forall k | k in query :: FieldMatches(d, k, query[k]) }

  // ---- what a collection holds ----

  datatype Store = Store(docs: seq<Doc>, serial: nat)

  /** The documents have ids, no two the same, none a list, and generated ones come from the counter. */
  ghost predicate StoreOk(s: Store) {
    && (forall i | 0 <= i < |s.docs| :: "_id" in s.docs[i] && IdOk(s.docs[i]["_id"], s.serial))
    && (forall i, j | 0 <= i < j < |s.docs| :: s.docs[i]["_id"] != s.docs[j]["_id"])
  }

  predicate IdOk(id: Value, serial: nat) { !id.Arr? && (id.Generated? ==> id.serial < serial) }

  /** A document that does not come from the database: its id, if any, is not a generated one. */
  predicate Outside(d: Doc) { "_id" in d ==> !d["_id"].Generated? }

  predicate ListId(d: Doc) { "_id" in d && d["_id"].Arr? }

  function WithId(d: Doc, serial: nat): Doc { if "_id" in d then d else d["_id" := Generated(serial)] }

  function Add(s: Store, d: Doc): Store { Store(s.docs + [WithId(d, s.serial)], if "_id" in d then s.serial else s.serial + 1) }

  /** The database takes a document unless its id is a list or already taken. */
  ghost predicate Accepts(s: Store, d: Doc)
    requires StoreOk(s)
  {
    "_id" in d ==> !d["_id"].Arr? && forall i | 0 <= i < |s.docs| :: s.docs[i]["_id"] != d["_id"]
  }

  lemma AddKeepsOk(s: Store, d: Doc)
    requires StoreOk(s) && Outside(d) && Accepts(s, d)
    ensures StoreOk(Add(s, d))
  {
  }

  class Collection {
    var docs: seq<Doc>
    var serial: nat

    function Contents(): Store
      reads this
    {
      Store(docs, serial)
    }

    ghost predicate Valid()
      reads this
    {
      StoreOk(Contents())
    }

    method FindOne(query: Doc) returns (found: Option<Doc>)
      ensures found.Some? <==> exists i | 0 <= i < |docs| :: Matches(docs[i], query)
      ensures found.Some? ==> found.value in docs && Matches(found.value, query)
    {
      hide Matches;
      for i := 0 to |docs|
        invariant forall j | 0 <= j < i :: !Matches(docs[j], query)
      {
        if Matches(docs[i], query) { return Some(docs[i]); }
      }
      found := None;
    }

    method InsertOne(d: Doc) returns (ok: bool)
      requires Valid() && Outside(d)
      modifies this
      ensures Valid() && ok == Accepts(old(Contents()), d)
      ensures Contents() == if ok then Add(old(Contents()), d) else old(Contents())
    {
      if "_id" in d {
        if d["_id"].Arr? { return false; }
        for i := 0 to |docs|
          invariant forall j | 0 <= j < i :: docs[j]["_id"] != d["_id"]
        {
          if docs[i]["_id"] == d["_id"] { return false; }
        }
      }
      ghost var before := Contents();
      docs, serial := docs + [WithId(d, serial)], if "_id" in d then serial else serial + 1;
      AddKeepsOk(before, d);
      ok := true;
    }

    method DeleteMany() returns (deleted: nat)
      requires Valid()
      modifies this
      ensures Valid() && Contents() == Store([], old(serial)) && deleted == |old(docs)|
    {
      deleted := |docs|;
      docs := [];
    }

    /** Ordered insertion: it stops, and raises, at the first document that is not taken. */
    method InsertMany(ds: seq<Doc>) returns (inserted: nat)
      requires Valid() && docs == [] && forall d | d in ds :: Outside(d)
      modifies this
      ensures Valid() && inserted <= |ds| && Contents() == AddAll(old(Contents()), ds[..inserted]) && DistinctIds(ds[..inserted])
      ensures inserted < |ds| ==> !DistinctIds(ds[..inserted + 1])
    {
      hide Add, Accepts, StoreOk, DistinctIds;
      ghost var before := Contents();
      NoneDistinct();
      for i := 0 to |ds|
        invariant Valid() && Contents() == AddAll(before, ds[..i]) && DistinctIds(ds[..i])
      {
        AcceptsIffDistinct(before, ds[..i], ds[i]);
        assert ds[..i + 1] == ds[..i] + [ds[i]];
        AddAllSnoc(before, ds[..i], ds[i]);
        var ok := InsertOne(ds[i]);
        if !ok { return i; }
      }
      assert ds[..|ds|] == ds;
      inserted := |ds|;
    }
  }

  // ---- overwrite mode ----

  function AddAll(s: Store, ds: seq<Doc>): Store {
    if ds == [] then s else Add(AddAll(s, ds[..|ds| - 1]), ds[|ds| - 1])
  }

  lemma AddAllSnoc(s: Store, ds: seq<Doc>, d: Doc)
    ensures AddAll(s, ds + [d]) == Add(AddAll(s, ds), d)
  {
    assert (ds + [d])[..|ds|] == ds;
  }

  /** The ids that the documents bring with them are all different, and none is a list. */
  predicate DistinctIds(ds: seq<Doc>) {
    && (forall i | 0 <= i < |ds| :: !ListId(ds[i]))
    && (forall i, j | 0 <= i < j < |ds| :: !SameId(ds[i], ds[j]))
  }

  predicate SameId(d: Doc, e: Doc) { "_id" in d && "_id" in e && d["_id"] == e["_id"] }

  lemma NoneDistinct()
    ensures forall ds: seq<Doc> | ds == [] :: DistinctIds(ds)
  {
  }

  /** What is stored for a document: itself, under its own id or a generated one. */
  predicate Holds(stored: Doc, d: Doc) {
    && "_id" in stored
    && (if "_id" in d then stored == d else stored["_id"].Generated? && stored == d["_id" := stored["_id"]])
  }

  /** An empty collection filled with documents holds them all, in order. */
  lemma {:induction false} AddAllHolds(s: Store, ds: seq<Doc>)
    requires s.docs == []
    ensures |AddAll(s, ds).docs| == |ds|
    ensures forall i | 0 <= i < |ds| :: Holds(AddAll(s, ds).docs[i], ds[i])
  {
    if ds != [] {
      AddAllHolds(s, ds[..|ds| - 1]);
    }
  }

  lemma AcceptsIffDistinct(s: Store, ds: seq<Doc>, d: Doc)
    requires s.docs == [] && StoreOk(AddAll(s, ds)) && DistinctIds(ds) && Outside(d)
    ensures Accepts(AddAll(s, ds), d) <==> DistinctIds(ds + [d])
  {
    var t := AddAll(s, ds);
    AddAllHolds(s, ds);
    assert forall i | 0 <= i < |ds| :: Holds(t.docs[i], ds[i]);
    assert forall i | 0 <= i < |ds| :: (ds + [d])[i] == ds[i];
    assert (ds + [d])[|ds|] == d;
    if Accepts(t, d) {
      forall i, j | 0 <= i < j < |ds + [d]| ensures !SameId((ds + [d])[i], (ds + [d])[j]) {
        assert i < |ds| && Holds(t.docs[i], ds[i]);
        if j < |ds| { assert !SameId(ds[i], ds[j]); }
      }
    }
    if DistinctIds(ds + [d]) && "_id" in d {
      assert !ListId((ds + [d])[|ds|]);
      forall i | 0 <= i < |t.docs| ensures t.docs[i]["_id"] != d["_id"] {
        assert Holds(t.docs[i], ds[i]) && !SameId((ds + [d])[i], (ds + [d])[|ds|]);
      }
    }
  }

  lemma DistinctPrefix(ds: seq<Doc>, n: nat)
    requires n <= |ds| && DistinctIds(ds)
    ensures DistinctIds(ds[..n])
  {
  }

  // ---- incremental mode ----

  /** Something stored already answers the document's query. */
  predicate Taken(s: Store, d: Doc, name: string) {
    && UniqueQuery(d, name).Some?
    && exists i | 0 <= i < |s.docs| :: Matches(s.docs[i], UniqueQuery(d, name).value)
  }

  function ImportOne(s: Store, d: Doc, name: string): Store { if Taken(s, d, name) then s else Add(s, d) }

  function Import(s: Store, ds: seq<Doc>, name: string): Store {
    if ds == [] then s else ImportOne(Import(s, ds[..|ds| - 1], name), ds[|ds| - 1], name)
  }

  /** The documents before the first one whose id is a list, which the database refuses. */
  function BeforeListId(ds: seq<Doc>): (n: nat)
    ensures n <= |ds| && (forall i | 0 <= i < n :: !ListId(ds[i])) && (n < |ds| ==> ListId(ds[n]))
  {
    if ds == [] || ListId(ds[0]) then 0 else 1 + BeforeListId(ds[1..])
  }

  /** A document that no stored one answers is taken by the database, unless its id is a list. */
  lemma UntakenIsAccepted(s: Store, d: Doc, name: string)
    requires StoreOk(s)
    ensures ListId(d) ==> !Taken(s, d, name)
    ensures !Taken(s, d, name) ==> (Accepts(s, d) <==> !ListId(d))
  {
    hide UniqueQuery;
    QueryAsksForOwnFields(d, name);
    if "_id" in d {
      assert forall i | 0 <= i < |s.docs| :: Matches(s.docs[i], map["_id" := d["_id"]]) <==> s.docs[i]["_id"] == d["_id"];
    }
  }

  lemma ConvertedIsOutside(p: Parsers, d: Doc)
    requires Outside(d)
    ensures Outside(ConvertDoc(p, d))
  {
    if "_id" in d {
      ParsedIsNew(p, "_id", d["_id"]);
      assert !Convert(p, d["_id"]).Generated?;
    }
  }

  function ConvertAll(p: Parsers, ds: seq<Doc>): seq<Doc> { seq(|ds|, i requires 0 <= i < |ds| => ConvertDoc(p, ds[i])) }

  datatype Outcome = Done(deleted: nat, inserted: nat, skipped: nat) | Raised

  method ImportCollection(collection: Collection, p: Parsers, name: string, documents: seq<Doc>, overwrite: bool)
      returns (r: Outcome)
    requires collection.Valid() && forall d | d in documents :: Outside(d)
    modifies collection
    ensures collection.Valid()
    ensures overwrite ==> Overwritten(old(collection.Contents()), ConvertAll(p, documents), collection.Contents(), r)
    ensures !overwrite ==> Incremented(old(collection.Contents()), ConvertAll(p, documents), name, collection.Contents(), r)
  {
    hide collection.Valid;
    var converted := ConvertAll(p, documents);
    forall d | d in converted ensures Outside(d) {
      var i :| 0 <= i < |converted| && converted[i] == d;
      assert documents[i] in documents;
      ConvertedIsOutside(p, documents[i]);
    }
    if overwrite {
      r := Overwrite(collection, converted);
    } else {
      r := Increment(collection, converted, name);
    }
  }

  /**
   Overwriting succeeds exactly when the ids brought along are all different, and then the
   collection is the converted input; otherwise the old documents are gone and only those
   before the first repeated id are there.
   */
  ghost predicate Overwritten(before: Store, ds: seq<Doc>, after: Store, r: Outcome) {
    if DistinctIds(ds) then r == Done(|before.docs|, |ds|, 0) && after == AddAll(Store([], before.serial), ds)
    else
      && r == Raised
      && exists n | 0 <= n < |ds| ::
        DistinctIds(ds[..n]) && !DistinctIds(ds[..n + 1]) && after == AddAll(Store([], before.serial), ds[..n])
  }

  method Overwrite(collection: Collection, converted: seq<Doc>) returns (r: Outcome)
    requires collection.Valid() && forall d | d in converted :: Outside(d)
    modifies collection
    ensures collection.Valid()
    ensures Overwritten(old(collection.Contents()), converted, collection.Contents(), r)
  {
    hide collection.Valid, DistinctIds, AddAll;
    var deleted := collection.DeleteMany();
    var inserted := collection.InsertMany(converted);
    assert converted[..|converted|] == converted;
    if inserted < |converted| {
      if DistinctIds(converted) { DistinctPrefix(converted, inserted + 1); }
      return Raised;
    }
    r := Done(deleted, inserted, 0);
  }

  /** Incremental mode imports one document after the other, and raises at the first id that is a list. */
  ghost predicate Incremented(before: Store, ds: seq<Doc>, name: string, after: Store, r: Outcome) {
    var n := BeforeListId(ds);
    && after == Import(before, ds[..n], name)
    && (n < |ds| ==> r == Raised)
    && (n == |ds| ==> r.Done? && r.deleted == 0 && r.inserted == |after.docs| - |before.docs| && r.inserted + r.skipped == |ds|)
  }

  method Increment(collection: Collection, converted: seq<Doc>, name: string) returns (r: Outcome)
    requires collection.Valid() && forall d | d in converted :: Outside(d)
    modifies collection
    ensures collection.Valid()
    ensures Incremented(old(collection.Contents()), converted, name, collection.Contents(), r)
  {
    hide Matches, UniqueQuery, Accepts, StoreOk;
    ghost var before := collection.Contents();
    ghost var n := BeforeListId(converted);
    var inserted, skipped := 0, 0;
    for i := 0 to |converted|
      invariant collection.Valid() && i <= n
      invariant collection.Contents() == Import(before, converted[..i], name)
      invariant inserted == |collection.docs| - |before.docs| && inserted + skipped == i
    {
      var d := converted[i];
      assert converted[..i + 1][..i] == converted[..i];
      UntakenIsAccepted(collection.Contents(), d, name);
      var query := UniqueQuery(d, name);
      var found: Option<Doc> := None;
      if query.Some? { found := collection.FindOne(query.value); }
      assert found.Some? <==> Taken(collection.Contents(), d, name);
      if found.Some? {
        skipped := skipped + 1;
      } else {
        var ok := collection.InsertOne(d);
        if !ok { return Raised; }
        inserted := inserted + 1;
      }
    }
    assert converted[..|converted|] == converted;
    r := Done(0, inserted, skipped);
  }

  /** Two documents with one id: the import raises, the old documents are gone and only the first new one is there. */
  lemma SameIdTwice(before: Store, d: Doc, e: Doc, after: Store, r: Outcome)
    requires SameId(d, e) && !ListId(d) && Overwritten(before, [d, e], after, r)
    ensures r == Raised && after.docs == [d]
  {
    hide AddAll;
    var ds := [d, e];
    assert SameId(ds[0], ds[1]);
    assert ds[..1] == [d] && ds[..2] == ds && ds[..0] == [];
    assert DistinctIds([d]);
    var n :| 0 <= n < |ds| && DistinctIds(ds[..n]) && !DistinctIds(ds[..n + 1]) && after == AddAll(Store([], before.serial), ds[..n]);
    assert n == 1;
    AddAllHolds(Store([], before.serial), [d]);
    assert Holds(after.docs[0], [d][0]);
  }
}
