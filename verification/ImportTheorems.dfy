/** Incremental imports over whole inputs: nothing is lost, nothing is imported twice, and what a second run adds. */
module ImportTheorems {
  import opened Wrappers
  import opened BsonConvert
  import opened ConfigImport
  import opened LineEdits

  /** The old documents stay, unchanged and in front. */
  lemma {:induction false} OldDocumentsStay(s: Store, ds: seq<Doc>, name: string)
    ensures s.docs <= Import(s, ds, name).docs
  {
    hide Taken;
    if ds != [] { OldDocumentsStay(s, ds[..|ds| - 1], name); }
  }

  lemma OldDocumentsStayBetween(s: Store, ds: seq<Doc>, i: nat, name: string)
    requires i <= |ds|
    ensures Import(s, ds[..i], name).docs <= Import(s, ds, name).docs
    decreases |ds| - i
  {
    hide Taken;
    if i < |ds| {
      assert ds[..i + 1][..i] == ds[..i];
      OldDocumentsStayBetween(s, ds, i + 1, name);
    } else {
      assert ds[..i] == ds;
    }
  }

  /** A stored document answers the query built from it. */
  lemma AnswersItself(d: Doc, serial: nat, name: string)
    ensures UniqueQuery(d, name).Some? ==> Matches(WithId(d, serial), UniqueQuery(d, name).value)
  {
    hide UniqueQuery;
    QueryAsksForOwnFields(d, name);
  }

  lemma TakenStays(s: Store, t: Store, d: Doc, name: string)
    requires Taken(s, d, name) && s.docs <= t.docs
    ensures Taken(t, d, name)
  {
    hide UniqueQuery, Matches;
    var i :| 0 <= i < |s.docs| && Matches(s.docs[i], UniqueQuery(d, name).value);
    assert t.docs[i] == s.docs[i];
  }

  /** After its turn, whether it was inserted or skipped, a document with a query is answered. */
  lemma TakenAfterItsTurn(s: Store, d: Doc, name: string)
    requires UniqueQuery(d, name).Some?
    ensures Taken(ImportOne(s, d, name), d, name)
  {
    hide UniqueQuery, Matches;
    if !Taken(s, d, name) {
      AnswersItself(d, s.serial, name);
      assert Add(s, d).docs[|s.docs|] == WithId(d, s.serial);
    }
  }

  /** No loss: after the import every document with a query is answered by something stored. */
  lemma NothingLost(s: Store, ds: seq<Doc>, name: string, i: nat)
    requires i < |ds| && UniqueQuery(ds[i], name).Some?
    ensures Taken(Import(s, ds, name), ds[i], name)
  {
    hide UniqueQuery, Taken;
    assert ds[..i + 1][..i] == ds[..i];
    TakenAfterItsTurn(Import(s, ds[..i], name), ds[i], name);
    OldDocumentsStayBetween(s, ds, i + 1, name);
    TakenStays(Import(s, ds[..i + 1], name), Import(s, ds, name), ds[i], name);
  }

  /** Of several documents with the same query only the first can be inserted. */
  lemma FirstPerQueryWins(s: Store, ds: seq<Doc>, name: string, i: nat, j: nat)
    requires i < j < |ds| && UniqueQuery(ds[i], name).Some? && UniqueQuery(ds[j], name) == UniqueQuery(ds[i], name)
    ensures Import(s, ds[..j + 1], name) == Import(s, ds[..j], name)
  {
    hide UniqueQuery, Matches;
    assert ds[..j + 1][..j] == ds[..j] && ds[..j][i] == ds[i];
    NothingLost(s, ds[..j], name, i);
  }

  // ---- which documents were inserted ----

  /** The indices of the inserted documents. */
  function Inserted(s: Store, ds: seq<Doc>, name: string): seq<nat> {
    if ds == [] then []
    else
      var n := |ds| - 1;
      Inserted(s, ds[..n], name) + if Taken(Import(s, ds[..n], name), ds[n], name) then [] else [n]
  }

  lemma {:induction false} InsertedAreIndices(s: Store, ds: seq<Doc>, name: string)
    ensures Ascending(Inserted(s, ds, name)) && forall m | m in Inserted(s, ds, name) :: m < |ds|
    ensures |Import(s, ds, name).docs| == |s.docs| + |Inserted(s, ds, name)|
  {
    hide Taken;
    if ds != [] {
      var before := Inserted(s, ds[..|ds| - 1], name);
      InsertedAreIndices(s, ds[..|ds| - 1], name);
      assert forall a | 0 <= a < |before| :: before[a] in before && before[a] < |ds| - 1;
    }
  }

  /** The new documents are, in the order of the input, the inserted ones. */
  lemma {:induction false} InsertedInOrder(s: Store, ds: seq<Doc>, name: string)
    ensures
      var picked, after := Inserted(s, ds, name), Import(s, ds, name);
      && |after.docs| == |s.docs| + |picked|
      && forall m | 0 <= m < |picked| :: picked[m] < |ds| && Holds(after.docs[|s.docs| + m], ds[picked[m]])
  {
    hide Taken, Holds;
    if ds != [] {
      var n := |ds| - 1;
      var before, picked := Inserted(s, ds[..n], name), Inserted(s, ds, name);
      InsertedInOrder(s, ds[..n], name);
      var was := Import(s, ds[..n], name);
      AddedIsHeld(was, ds[n]);
      forall m | 0 <= m < |picked|
        ensures picked[m] < |ds| && Holds(Import(s, ds, name).docs[|s.docs| + m], ds[picked[m]])
      {
        if m < |before| {
          assert picked[m] == before[m] && Holds(was.docs[|s.docs| + m], ds[..n][before[m]]);
        }
      }
    }
  }

  lemma AddedIsHeld(s: Store, d: Doc)
    ensures Holds(WithId(d, s.serial), d)
  {
  }

  /** A document is inserted exactly when nothing stored before its turn, old or new, answered its query. */
  lemma {:induction false} InsertedIff(s: Store, ds: seq<Doc>, name: string, i: nat)
    requires i < |ds|
    ensures i in Inserted(s, ds, name) <==> !Taken(Import(s, ds[..i], name), ds[i], name)
  {
    hide Taken;
    var n := |ds| - 1;
    InsertedAreIndices(s, ds[..n], name);
    if i < n {
      assert ds[..n][..i] == ds[..i] && ds[..n][i] == ds[i];
      InsertedIff(s, ds[..n], name, i);
    }
  }

  // ---- a second run ----

  function Unqueried(ds: seq<Doc>, name: string): seq<Doc> {
    if ds == [] then []
    else Unqueried(ds[..|ds| - 1], name) + if UniqueQuery(ds[|ds| - 1], name).None? then [ds[|ds| - 1]] else []
  }

  lemma {:induction false} AddAllKeeps(s: Store, ds: seq<Doc>)
    ensures s.docs <= AddAll(s, ds).docs && |AddAll(s, ds).docs| == |s.docs| + |ds|
  {
    if ds != [] { AddAllKeeps(s, ds[..|ds| - 1]); }
  }

  /** Where every query is answered already, importing adds exactly the documents without a query. */
  lemma {:induction false} AnsweredImport(t: Store, ds: seq<Doc>, name: string)
    requires forall i | 0 <= i < |ds| && UniqueQuery(ds[i], name).Some? :: Taken(t, ds[i], name)
    ensures Import(t, ds, name) == AddAll(t, Unqueried(ds, name))
  {
    hide UniqueQuery, Matches;
    if ds != [] {
      var n := |ds| - 1;
      assert forall i | 0 <= i < n :: ds[..n][i] == ds[i];
      AnsweredImport(t, ds[..n], name);
      var so := Import(t, ds[..n], name);
      if UniqueQuery(ds[n], name).Some? {
        OldDocumentsStay(t, ds[..n], name);
        TakenStays(t, so, ds[n], name);
        assert Unqueried(ds, name) == Unqueried(ds[..n], name);
      } else {
        AddAllSnoc(t, Unqueried(ds[..n], name), ds[n]);
      }
    }
  }

  /** A second import of the same documents inserts exactly those without a query. */
  lemma SecondImport(s: Store, ds: seq<Doc>, name: string)
    ensures var after := Import(s, ds, name); Import(after, ds, name) == AddAll(after, Unqueried(ds, name))
  {
    hide UniqueQuery, Taken;
    forall i | 0 <= i < |ds| && UniqueQuery(ds[i], name).Some? ensures Taken(Import(s, ds, name), ds[i], name) {
      NothingLost(s, ds, name, i);
    }
    AnsweredImport(Import(s, ds, name), ds, name);
  }

  lemma {:induction false} NoUnqueriedIff(ds: seq<Doc>, name: string)
    ensures Unqueried(ds, name) == [] <==> forall i | 0 <= i < |ds| :: UniqueQuery(ds[i], name).Some?
  {
    hide UniqueQuery;
    if ds != [] {
      var n := |ds| - 1;
      NoUnqueriedIff(ds[..n], name);
      assert forall i | 0 <= i < n :: ds[..n][i] == ds[i];
    }
  }

  /** So a second import changes nothing exactly when every document has a query. */
  lemma SecondImportChangesNothingIff(s: Store, ds: seq<Doc>, name: string)
    ensures var after := Import(s, ds, name);
      Import(after, ds, name) == after <==> forall i | 0 <= i < |ds| :: UniqueQuery(ds[i], name).Some?
  {
    hide UniqueQuery, Taken;
    var after := Import(s, ds, name);
    SecondImport(s, ds, name);
    NoUnqueriedIff(ds, name);
    AddAllKeeps(after, Unqueried(ds, name));
  }

  lemma ImportTwo(s: Store, d: Doc, e: Doc, name: string)
    ensures Import(s, [d, e], name) == ImportOne(ImportOne(s, d, name), e, name)
  {
    hide ImportOne;
    assert [d, e][..1] == [d] && [d][..0] == [];
    assert Import(s, [], name) == s;
    assert Import(s, [d], name) == ImportOne(s, d, name);
  }

  /** A document that was added answers the query of another one. */
  predicate Answers(s: Store, d: Doc, e: Doc, name: string) {
    UniqueQuery(e, name).Some? && Matches(WithId(d, s.serial), UniqueQuery(e, name).value)
  }

  lemma TakenByNew(s: Store, d: Doc, e: Doc, name: string)
    requires !Taken(s, e, name)
    ensures Taken(Add(s, d), e, name) <==> Answers(s, d, e, name)
  {
    hide UniqueQuery, Matches;
    var after := Add(s, d).docs;
    assert after[|s.docs|] == WithId(d, s.serial) && forall i | 0 <= i < |s.docs| :: after[i] == s.docs[i];
  }

  /**
   The order of two new documents decides how many are stored exactly when one of them, once
   stored, answers the query of the other but not the other way round.
   */
  lemma OrderDecidesIff(s: Store, d: Doc, e: Doc, name: string)
    requires !Taken(s, d, name) && !Taken(s, e, name)
    ensures |Import(s, [d, e], name).docs| == |Import(s, [e, d], name).docs| <==>
      (Answers(s, d, e, name) <==> Answers(s, e, d, name))
  {
    hide UniqueQuery, Taken, Answers, WithId;
    ImportTwo(s, d, e, name);
    ImportTwo(s, e, d, name);
    TakenByNew(s, d, e, name);
    TakenByNew(s, e, d, name);
  }

  /** A document with only part of a composite key is skipped after a fuller one, but not before it. */
  lemma OrderDecides(agent: Value, preference: Value)
    requires agent != Null && preference != Null
    ensures
      var full, part := map["agent_id" := agent, "preference_type" := preference], map["agent_id" := agent];
      && |Import(Store([], 0), [full, part], "prompt_templates").docs| == 1
      && |Import(Store([], 0), [part, full], "prompt_templates").docs| == 2
  {
    var name := "prompt_templates";
    var full: Doc, part: Doc := map["agent_id" := agent, "preference_type" := preference], map["agent_id" := agent];
    var empty := Store([], 0);
    TemplateQueries(agent, preference);
    hide UniqueQuery, Import;
    assert !Taken(empty, full, name) && !Taken(empty, part, name);
    ImportTwo(empty, full, part, name);
    ImportTwo(empty, part, full, name);
    TakenByNew(empty, full, part, name);
    TakenByNew(empty, part, full, name);
    assert Matches(WithId(full, 0), part);
    PartLacksPreference(agent, preference, WithId(part, 0));
  }

  lemma PartLacksPreference(agent: Value, preference: Value, stored: Doc)
    requires preference != Null && stored == map["agent_id" := agent, "_id" := Generated(0)]
    ensures !Matches(stored, map["agent_id" := agent, "preference_type" := preference])
  {
    var full: Doc := map["agent_id" := agent, "preference_type" := preference];
    assert "preference_type" in full && "preference_type" !in stored;
    assert !FieldMatches(stored, "preference_type", full["preference_type"]);
  }

  lemma TemplateQueries(agent: Value, preference: Value)
    requires agent != Null && preference != Null
    ensures
      var full, part := map["agent_id" := agent, "preference_type" := preference], map["agent_id" := agent];
      UniqueQuery(full, "prompt_templates") == Some(full) && UniqueQuery(part, "prompt_templates") == Some(part)
  {
    var full: Doc, part: Doc := map["agent_id" := agent, "preference_type" := preference], map["agent_id" := agent];
    assert UniqueKeys("prompt_templates") == ["agent_id", "preference_type"];
    assert UniqueKeys("prompt_templates")[0] == "agent_id";
    assert UniqueKeys("prompt_templates")[1] == "preference_type";
    assert KeyFields(full, "prompt_templates") == full;
    assert KeyFields(part, "prompt_templates") == part;
    assert "agent_id" in full && "agent_id" in part;
    assert "_id" !in full && "_id" !in part;
  }

  /** A document whose name is null and one without a query: both are stored in one order, only one in the other. */
  lemma NullAnsweredByAnything(note: Value)
    ensures
      var unnamed, plain := map["username" := Null], map["note" := note];
      && |Import(Store([], 0), [unnamed, plain], "users").docs| == 2
      && |Import(Store([], 0), [plain, unnamed], "users").docs| == 1
  {
    var name := "users";
    var unnamed: Doc, plain: Doc := map["username" := Null], map["note" := note];
    var empty := Store([], 0);
    UserQueries(note);
    hide UniqueQuery, Import;
    assert !Taken(empty, unnamed, name) && !Taken(empty, plain, name);
    ImportTwo(empty, unnamed, plain, name);
    ImportTwo(empty, plain, unnamed, name);
    TakenByNew(empty, unnamed, plain, name);
    TakenByNew(empty, plain, unnamed, name);
    assert Matches(WithId(plain, 0), unnamed);
  }

  lemma UserQueries(note: Value)
    ensures UniqueQuery(map["username" := Null], "users") == Some(map["username" := Null])
    ensures UniqueQuery(map["note" := note], "users") == None
  {
    var unnamed: Doc, plain: Doc := map["username" := Null], map["note" := note];
    assert UniqueKeys("users") == [];
    assert KeyFields(unnamed, "users") == map[] && KeyFields(plain, "users") == map[];
    assert "username" in unnamed && "_id" !in unnamed;
  }
}
