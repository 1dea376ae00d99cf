/** docs/joback.py and docs/zabransky_ruzicka.py: helpers listing a registry's field names and
    group ids (aliases). The `*_info` and `*_ids` helpers walk `model_fields` appending to lists;
    the `*_names` helpers are `list(model_fields.keys())`, which is `Models.Names`. */
module Docs {
  import opened Wrappers
  import opened Models

  /** A `*_info` helper on any registry: every field name, and the aliases that are not `None`,
      both in declaration order. The ids are exactly the declared aliases, never more than the
      names, and one per field, position by position, when every field declares one. */
  method RegistryInfo(fields: Registry) returns (names: seq<string>, ids: seq<string>)
    ensures |names| == |fields| && forall i :: 0 <= i < |fields| ==> names[i] == fields[i].name
    ensures ids == Aliases(fields)
    ensures |ids| <= |names|
    ensures forall a :: a in ids <==> exists i :: 0 <= i < |fields| && fields[i].alias == Some(a)
    ensures (forall i :: 0 <= i < |fields| ==> fields[i].alias.Some?) ==>
              |ids| == |names| && forall i :: 0 <= i < |fields| ==> ids[i] == fields[i].alias.value
  {
    names := [];
    ids := [];
    var i := 0;
    while i < |fields|
      invariant 0 <= i <= |fields|
      invariant names == Names(fields[..i])
      invariant ids == Aliases(fields[..i])
    {
      assert fields[..i + 1][..i] == fields[..i];
      var alias := fields[i].alias;
      if alias.Some? {
        ids := ids + [alias.value];
      }
      names := names + [fields[i].name];
      i := i + 1;
    }
    assert fields[..|fields|] == fields;
    AliasesAreDeclared(fields);
    if forall i :: 0 <= i < |fields| ==> fields[i].alias.Some? {
      AllAliasedCount(fields);
    }
  }

  /** A `*_ids` helper of docs/zabransky_ruzicka.py: the same alias walk without the names. */
  method RegistryIds(fields: Registry) returns (ids: seq<string>)
    ensures ids == Aliases(fields)
    ensures |ids| <= |fields|
    ensures forall a :: a in ids <==> exists i :: 0 <= i < |fields| && fields[i].alias == Some(a)
  {
    ids := [];
    var i := 0;
    while i < |fields|
      invariant 0 <= i <= |fields|
      invariant ids == Aliases(fields[..i])
    {
      assert fields[..i + 1][..i] == fields[..i];
      if fields[i].alias.Some? {
        ids := ids + [fields[i].alias.value];
      }
      i := i + 1;
    }
    assert fields[..|fields|] == fields;
    AliasesAreDeclared(fields);
  }

  /** `joback_group_contribution_info`: the 36 Joback field names and their 36 aliases, pairwise. */
  method JobackGroupContributionInfo() returns (names: seq<string>, ids: seq<string>)
    ensures |names| == 36 && |ids| == 36
    ensures forall i :: 0 <= i < 36 ==>
              names[i] == JobackGroupContributions[i].name && Some(ids[i]) == JobackGroupContributions[i].alias
  {
    JobackRegistryFacts();
    names, ids := RegistryInfo(JobackGroupContributions);
  }

  /** `joback_group_contribution_names`: the 36 field names in declaration order, all distinct. */
  function JobackGroupContributionNames(): (r: seq<string>)
    ensures |r| == 36
    ensures forall i :: 0 <= i < 36 ==> r[i] == JobackGroupContributions[i].name
    ensures forall i, j :: 0 <= i < j < 36 ==> r[i] != r[j]
  {
    JobackRegistryFacts();
    Names(JobackGroupContributions)
  }

  /** `joback_group_contribution_ids`: the second component of the info helper, so the 36 aliases,
      all distinct. */
  method JobackGroupContributionIds() returns (ids: seq<string>)
    ensures |ids| == 36
    ensures forall i :: 0 <= i < 36 ==> Some(ids[i]) == JobackGroupContributions[i].alias
    ensures forall i, j :: 0 <= i < j < 36 ==> ids[i] != ids[j]
  {
    JobackRegistryFacts();
    var _, groupIds := JobackGroupContributionInfo();
    ids := groupIds;
  }

  /** For a registry as models/zr.py declares it, the info helper's ids are its ids helper's output,
      one per name, and distinct; so the id list of either Zabransky-Ruzicka registry can be zipped
      with its names list. */
  lemma WellFormedIdsPairWithNames(fields: Registry)
    requires WellFormedRegistry(fields)
    ensures |Aliases(fields)| == |Names(fields)|
    ensures forall i :: 0 <= i < |fields| ==> Some(Aliases(fields)[i]) == fields[i].alias
    ensures forall i, j :: 0 <= i < j < |fields| ==> Aliases(fields)[i] != Aliases(fields)[j]
  {
    AllAliasedCount(fields);
  }
}
