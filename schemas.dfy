/** The structured records the language model is asked to produce, and their validation.
    A record is built from a parsed JSON value the way a pydantic model is built from a dict:
    every declared field must be present with the declared type, undeclared fields are
    ignored, and nothing is coerced. The closed vocabularies mentioned in the field
    descriptions ("Villager"/"Mafia", "accuses"/"defends"/"claims_role", "Player N") are
    documentation only: validation accepts any string there. */
module Schemas {
  import opened Wrappers
  import opened Json

  /** The role deduction an agent returns in benchmark mode. */
  datatype EvaluationResponse = EvaluationResponse(roles: map<string, string>, explanation: string)

  /** One recorded accusation, defence or role claim. */
  datatype SocialRelation = SocialRelation(player: string, relation: string, target: string)

  /** An agent's memory: one narrative of player profiles and an ordered relation list. */
  datatype RevacMemory = RevacMemory(playerProfiles: string, socialAlignmentGraph: seq<SocialRelation>)

  /** The memory an agent is constructed with. */
  const EmptyMemory := RevacMemory("", [])

  // ---------------------------------------------------------------------------------------
  // Validation: JSON value -> record

  /** A `Dict[str, str]` field: an object all of whose values are strings. */
  function StringMap(j: Json): (r: Result<map<string, string>>)
    ensures r.Ok? <==> j.JObject? && forall k :: k in j.fields ==> j.fields[k].JString?
    ensures r.Ok? ==> r.value.Keys == j.fields.Keys
    ensures r.Ok? ==> forall k :: k in r.value ==> JString(r.value[k]) == j.fields[k]
  {
    if !j.JObject? then Err("input should be a valid dictionary")
    else if exists k :: k in j.fields && !j.fields[k].JString? then Err("input should be a valid string")
    else Ok(map k | k in j.fields :: j.fields[k].s)
  }

  function ValidateEvaluationResponse(j: Json): (r: Result<EvaluationResponse>)
    ensures r.Ok? <==>
      && j.JObject?
      && "roles" in j.fields && StringMap(j.fields["roles"]).Ok?
      && "explanation" in j.fields && j.fields["explanation"].JString?
    ensures r.Ok? ==> Ok(r.value.roles) == StringMap(j.fields["roles"])
    ensures r.Ok? ==> JString(r.value.explanation) == j.fields["explanation"]
  {
    if !j.JObject? then Err("input should be a valid dictionary")
    else if "roles" !in j.fields then Err("roles: field required")
    else
      var roles :- StringMap(j.fields["roles"]);
      var explanation :- StringField(j, "explanation");
      Ok(EvaluationResponse(roles, explanation))
  }

  function ValidateSocialRelation(j: Json): (r: Result<SocialRelation>)
    ensures r.Ok? <==>
      && StringField(j, "player").Ok?
      && StringField(j, "relation").Ok?
      && StringField(j, "target").Ok?
    ensures r.Ok? ==>
      && j.fields["player"] == JString(r.value.player)
      && j.fields["relation"] == JString(r.value.relation)
      && j.fields["target"] == JString(r.value.target)
  {
    var player :- StringField(j, "player");
    var relation :- StringField(j, "relation");
    var target :- StringField(j, "target");
    Ok(SocialRelation(player, relation, target))
  }

  /** A `List[SocialRelation]` field: every element must validate; order is kept. */
  function ValidateRelations(items: seq<Json>): (r: Result<seq<SocialRelation>>)
    ensures r.Ok? <==> forall i :: 0 <= i < |items| ==> ValidateSocialRelation(items[i]).Ok?
    ensures r.Ok? ==> |r.value| == |items|
    ensures r.Ok? ==> forall i :: 0 <= i < |items| ==> ValidateSocialRelation(items[i]) == Ok(r.value[i])
  {
    if items == [] then Ok([])
    else
      var head :- ValidateSocialRelation(items[0]);
      var tail :- ValidateRelations(items[1..]);
      Ok([head] + tail)
  }

  function ValidateMemory(j: Json): (r: Result<RevacMemory>)
    ensures r.Ok? <==>
      && StringField(j, "player_profiles").Ok?
      && "social_alignment_graph" in j.fields
      && j.fields["social_alignment_graph"].JArray?
      && ValidateRelations(j.fields["social_alignment_graph"].items).Ok?
    ensures r.Ok? ==> j.fields["player_profiles"] == JString(r.value.playerProfiles)
    ensures r.Ok? ==> Ok(r.value.socialAlignmentGraph) == ValidateRelations(j.fields["social_alignment_graph"].items)
  {
    var profiles :- StringField(j, "player_profiles");
    if "social_alignment_graph" !in j.fields then Err("social_alignment_graph: field required")
    else if !j.fields["social_alignment_graph"].JArray? then Err("social_alignment_graph: input should be a valid list")
    else
      var graph :- ValidateRelations(j.fields["social_alignment_graph"].items);
      Ok(RevacMemory(profiles, graph))
  }

  // ---------------------------------------------------------------------------------------
  // Record -> JSON value (the dicts the agents build before `json.dumps`)

  function RelationToJson(rel: SocialRelation): Json {
    JObject(map["player" := JString(rel.player), "relation" := JString(rel.relation), "target" := JString(rel.target)])
  }

  function RelationsToJson(rels: seq<SocialRelation>): (r: seq<Json>)
    ensures |r| == |rels|
    ensures forall i :: 0 <= i < |rels| ==> r[i] == RelationToJson(rels[i])
  {
    if rels == [] then [] else [RelationToJson(rels[0])] + RelationsToJson(rels[1..])
  }

  /** The `current_memory_dict` snapshot of a memory. */
  function MemoryToJson(m: RevacMemory): Json {
    JObject(map[
      "player_profiles" := JString(m.playerProfiles),
      "social_alignment_graph" := JArray(RelationsToJson(m.socialAlignmentGraph))])
  }

  function RolesToJson(roles: map<string, string>): Json {
    JObject(map k | k in roles :: JString(roles[k]))
  }

  // ---------------------------------------------------------------------------------------
  // Properties

  /** Any three strings make a valid relation: no vocabulary or "Player N" check. */
  lemma RelationRoundTrip(rel: SocialRelation)
    ensures ValidateSocialRelation(RelationToJson(rel)) == Ok(rel)
  {
  }

  lemma {:induction false} RelationsRoundTrip(rels: seq<SocialRelation>)
    ensures ValidateRelations(RelationsToJson(rels)) == Ok(rels)
  {
    if rels != [] {
      RelationRoundTrip(rels[0]);
      RelationsRoundTrip(rels[1..]);
      assert RelationsToJson(rels)[1..] == RelationsToJson(rels[1..]);
      assert [rels[0]] + rels[1..] == rels;
    }
  }

  /** The snapshot sent to the model loses nothing: validating it gives the memory back,
      profile text and every relation, in order. */
  lemma MemoryRoundTrip(m: RevacMemory)
    ensures ValidateMemory(MemoryToJson(m)) == Ok(m)
  {
    RelationsRoundTrip(m.socialAlignmentGraph);
  }

  /** Any string-to-string map is accepted as `roles`, whatever its keys and values. */
  lemma RolesRoundTrip(roles: map<string, string>)
    ensures StringMap(RolesToJson(roles)) == Ok(roles)
  {
    var r := StringMap(RolesToJson(roles));
    assert r.Ok?;
    assert r.value == roles;
  }

  /** An evaluation response without `roles` or without `explanation` is rejected. */
  lemma EvaluationResponseNeedsBothFields(fields: map<string, Json>)
    requires "roles" !in fields || "explanation" !in fields
    ensures ValidateEvaluationResponse(JObject(fields)).Err?
  {
  }

  /** A memory without `player_profiles`, or whose profiles are not one string, is rejected. */
  lemma MemoryNeedsProfileString(fields: map<string, Json>)
    requires "player_profiles" !in fields || !fields["player_profiles"].JString?
    ensures ValidateMemory(JObject(fields)).Err?
  {
  }
}
