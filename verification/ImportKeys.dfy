/** Which fields identify a document of which collection, and when two documents are told apart by them. */
module ImportKeys {
  import opened Wrappers
  import opened BsonConvert
  import opened ConfigImport
  import opened ImportTheorems

  /** The table of the script, one pair of collection and field for each entry. */
  predicate Listed(name: string, key: string) {
    || (name == "agent_configs" && key == "agent_id")
    || (name == "prompt_templates" && (key == "agent_id" || key == "preference_type"))
    || (name == "system_configs" && key == "key")
    || (name == "workflow_definitions" && key == "id")
    || (name == "workflows" && key == "id")
    || (name == "tool_configs" && key == "tool_id")
    || (name == "llm_providers" && key == "provider_id")
    || (name == "model_catalog" && key == "model_id")
    || (name == "platform_configs" && key == "platform_id")
    || (name == "datasource_groupings" && key == "name")
    || (name == "market_categories" && key == "name")
    || (name == "tool_agent_bindings" && (key == "tool_id" || key == "agent_id"))
    || (name == "agent_workflow_bindings" && (key == "agent_id" || key == "workflow_id"))
  }

  lemma KeysAreListed(name: string, key: string)
    ensures key in UniqueKeys(name) <==> Listed(name, key)
  {
  }

  lemma IdIsNotListed(name: string)
    ensures !Listed(name, "_id")
  {
  }

  /** The field of `e` that identifies it, and that a stored `d` does not have with the same value. */
  predicate TellsApart(key: string, d: Doc, e: Doc) {
    && key in e && e[key] != Null
    && !(key in d && (d[key] == e[key] || (d[key].Arr? && e[key] in d[key].items)))
  }

  lemma QueryOfListed(e: Doc, name: string, key: string)
    requires "_id" !in e && Listed(name, key) && key in e && e[key] != Null
    ensures UniqueQuery(e, name) == Some(KeyFields(e, name)) && key in KeyFields(e, name)
  {
    hide UniqueKeys;
    KeysAreListed(name, key);
    assert key in KeyFields(e, name);
  }

  lemma AnswersIff(s: Store, d: Doc, e: Doc, name: string, some: string)
    requires "_id" !in e && Listed(name, some) && some in e && e[some] != Null
    ensures Answers(s, d, e, name) <==> forall k | Listed(name, k) :: !TellsApart(k, d, e)
  {
    QueryOfListed(e, name, some);
    hide UniqueKeys, UniqueQuery, Listed;
    IdIsNotListed(name);
    var query := KeyFields(e, name);
    forall k ensures k in query <==> Listed(name, k) && k in e && e[k] != Null { KeysAreListed(name, k); }
    forall k | k in query ensures FieldMatches(WithId(d, s.serial), k, query[k]) <==> !TellsApart(k, d, e) {
      FieldOfStored(s, d, e, k);
    }
  }

  lemma FieldOfStored(s: Store, d: Doc, e: Doc, k: string)
    requires k in e && e[k] != Null && k != "_id"
    ensures FieldMatches(WithId(d, s.serial), k, e[k]) <==> !TellsApart(k, d, e)
  {
  }

  /**
   Two new documents are both stored exactly when some listed field of the second tells it
   apart from the first; if none does, the second is skipped.
   */
  lemma BothStoredIff(s: Store, d: Doc, e: Doc, name: string, some: string)
    requires !Taken(s, d, name) && !Taken(s, e, name)
    requires "_id" !in e && Listed(name, some) && some in e && e[some] != Null
    ensures |Import(s, [d, e], name).docs| ==
      if exists k :: Listed(name, k) && TellsApart(k, d, e) then |s.docs| + 2 else |s.docs| + 1
  {
    hide UniqueKeys, UniqueQuery, Listed, TellsApart, Taken, Answers, WithId;
    ImportTwo(s, d, e, name);
    TakenByNew(s, d, e, name);
    AnswersIff(s, d, e, name, some);
  }

  /** Two agents bound to one tool, and two tools bound to one agent: all bindings are stored. */
  lemma BindingsAreStored(tool: Value, agent: Value, other: Value)
    requires tool != Null && agent != Null && other != Null && agent != other && !agent.Arr?
    ensures
      var d, e := map["tool_id" := tool, "agent_id" := agent], map["tool_id" := tool, "agent_id" := other];
      var f, g := map["tool_id" := agent, "agent_id" := tool], map["tool_id" := other, "agent_id" := tool];
      && |Import(Store([], 0), [d, e], "tool_agent_bindings").docs| == 2
      && |Import(Store([], 0), [f, g], "tool_agent_bindings").docs| == 2
  {
    hide UniqueKeys, UniqueQuery, Import;
    var d: Doc, e: Doc := map["tool_id" := tool, "agent_id" := agent], map["tool_id" := tool, "agent_id" := other];
    var f: Doc, g: Doc := map["tool_id" := agent, "agent_id" := tool], map["tool_id" := other, "agent_id" := tool];
    BothStoredIff(Store([], 0), d, e, "tool_agent_bindings", "agent_id");
    BothStoredIff(Store([], 0), f, g, "tool_agent_bindings", "tool_id");
    assert TellsApart("agent_id", d, e) && TellsApart("tool_id", f, g);
  }
}
