/** The Zabransky-Ruzicka estimator of core/zabransky_ruzicka.py, as the code behaves: its check
    of group data inspects the stored contributions whatever it is passed, its sigma takes a group
    only when all three coefficients are present, and its `_calc` returns an empty dict. */
module ZabranskyRuzicka {
  import opened Wrappers
  import opened Dicts
  import opened Models
  import opened GroupValidation

  /** The registry classes the typed branch accepts: an instance of either. */
  const AcceptedKinds: set<RegistryKind> := {ZRContributionsKind, ZRCorrectionsKind}

  /** The valid groups `__init__` stores, in the order it computes them. */
  datatype ValidGroupSets = ValidGroupSets(
    contribution: Dict<GroupData>,
    corrections: Dict<GroupData>,
    merged: Dict<GroupData>)

  /** What `__init__` computes after loading the tables: the check run on the contributions,
      the same check run again when corrections are given (it does not look at its argument), and
      the merge `{**contribution, **corrections}`; any raising check makes `__init__` raise. */
  function ValidGroupsOf(params: Table, fields: Registry, contributions: GroupInput, corrections: Option<GroupInput>)
    : Result<ValidGroupSets>
  {
    var c := CheckSpec(params, fields, AcceptedKinds, contributions);
    if c.Failure? then Failure(c.error)
    else
      var corr := if corrections.Some? then c.value else [];
      Success(ValidGroupSets(c.value, corr, Merge(c.value, corr)))
  }

  /** Because the check ignores its argument, supplied corrections come out as a copy of the valid
      contributions, and merging changes nothing: the valid groups are the valid contributions
      with or without corrections. */
  lemma CorrectionsMirrorContributions(params: Table, fields: Registry, contributions: GroupInput, corrections: Option<GroupInput>)
    ensures ValidGroupsOf(params, fields, contributions, corrections).Failure? <==> CheckSpec(params, fields, AcceptedKinds, contributions).Failure?
    ensures ValidGroupsOf(params, fields, contributions, corrections).Success? ==>
              var v := ValidGroupsOf(params, fields, contributions, corrections).value;
              && v.contribution == CheckSpec(params, fields, AcceptedKinds, contributions).value
              && v.corrections == (if corrections.Some? then v.contribution else [])
              && v.merged == v.contribution
  {
    var c := CheckSpec(params, fields, AcceptedKinds, contributions);
    if c.Success? {
      MergeSelf(c.value);
    }
  }

  // ---------------------------------------------------------------- sigma

  /** The sigma dict: the keys `a[i]`, `b[i]` and `c[i]`. */
  datatype Sigma = Sigma(a: real, b: real, c: real)

  /** Whether a group's row has all three coefficients. */
  predicate Complete(g: GroupData) {
    "a[i]" in g.data && "b[i]" in g.data && "c[i]" in g.data
  }

  /** One pass of `_calc_sigma`'s loop: a complete group adds count × value to each of the three
      sums, any other group adds to none. */
  function AddGroup(s: Sigma, g: GroupData): Sigma {
    if Complete(g)
    then Sigma(s.a + g.count * g.data["a[i]"], s.b + g.count * g.data["b[i]"], s.c + g.count * g.data["c[i]"])
    else s
  }

  /** The sigma `_calc_sigma` returns: every sum starts at 0, and the groups are added in order. */
  function SigmaOf(groups: seq<(string, GroupData)>): Sigma
    decreases |groups|
  {
    if groups == [] then Sigma(0.0, 0.0, 0.0)
    else AddGroup(SigmaOf(groups[..|groups| - 1]), groups[|groups| - 1].1)
  }

  /** The groups with all three coefficients, in order. */
  function CompleteGroups(groups: seq<(string, GroupData)>): (cs: seq<(string, GroupData)>)
    ensures forall i :: 0 <= i < |cs| ==> Complete(cs[i].1)
    decreases |groups|
  {
    if groups == [] then []
    else
      CompleteGroups(groups[..|groups| - 1])
      + if Complete(groups[|groups| - 1].1) then [groups[|groups| - 1]] else []
  }

  /** All or nothing: sigma is the plain column sum of each coefficient over the complete groups,
      so a group missing any one coefficient contributes to none of the three. */
  lemma {:induction false} SigmaIsSumOverCompleteGroups(groups: seq<(string, GroupData)>)
    ensures SigmaOf(groups) == Sigma(ColumnSum(CompleteGroups(groups), "a[i]"),
                                     ColumnSum(CompleteGroups(groups), "b[i]"),
                                     ColumnSum(CompleteGroups(groups), "c[i]"))
    decreases |groups|
  {
    if groups != [] {
      var init := groups[..|groups| - 1];
      var last := groups[|groups| - 1];
      SigmaIsSumOverCompleteGroups(init);
      if Complete(last.1) {
        var cs := CompleteGroups(init) + [last];
        assert cs[..|cs| - 1] == CompleteGroups(init);
        assert ColumnSum(cs, "a[i]") == ColumnSum(CompleteGroups(init), "a[i]") + Contribution(last.1, "a[i]");
        assert ColumnSum(cs, "b[i]") == ColumnSum(CompleteGroups(init), "b[i]") + Contribution(last.1, "b[i]");
        assert ColumnSum(cs, "c[i]") == ColumnSum(CompleteGroups(init), "c[i]") + Contribution(last.1, "c[i]");
      } else {
        assert CompleteGroups(groups) == CompleteGroups(init) + [];
        assert CompleteGroups(init) + [] == CompleteGroups(init);
      }
    }
  }

  /** Unlike Joback's per-column sums, a group that has `a[i]` but lacks `c[i]` leaves even the
      `a[i]` sum unchanged. */
  lemma IncompleteGroupAddsNothing(groups: seq<(string, GroupData)>, k: string, g: GroupData)
    requires !Complete(g)
    ensures SigmaOf(groups + [(k, g)]) == SigmaOf(groups)
  {
    assert (groups + [(k, g)])[..|groups + [(k, g)]| - 1] == groups;
  }

  // ---------------------------------------------------------------- the class

  /** A Zabransky-Ruzicka estimator: its inputs, the contribution table (`params`), the loaded
      corrections table, the contribution registry, and the valid groups `__init__` derives. */
  class ZabranskyRuzickaEstimator {
    const groupContributions: GroupInput
    const groupCorrections: Option<GroupInput>
    const params: Table
    const corrections: Table
    /** `ZabranskyRuzickaGroupContributions.model_fields`, which the typed branch iterates. */
    const contributionFields: Registry
    var validGroupContribution: Dict<GroupData>
    var validGroupCorrections: Dict<GroupData>
    var validGroups: Dict<GroupData>

    /** Stores the inputs and the loaded tables; `Create` then derives the valid groups. */
    constructor (groupContributions: GroupInput, groupCorrections: Option<GroupInput>,
                 params: Table, corrections: Table, contributionFields: Registry)
      ensures this.groupContributions == groupContributions && this.groupCorrections == groupCorrections
      ensures this.params == params && this.corrections == corrections
      ensures this.contributionFields == contributionFields
      ensures validGroupContribution == [] && validGroupCorrections == [] && validGroups == []
    {
      this.groupContributions := groupContributions;
      this.groupCorrections := groupCorrections;
      this.params := params;
      this.corrections := corrections;
      this.contributionFields := contributionFields;
      validGroupContribution := [];
      validGroupCorrections := [];
      validGroups := [];
    }

    /** `ZabranskyRuzicka(...)`: runs the check on the contributions, and again when corrections
        are given, then merges the two; raises when the check raises. */
    static method Create(groupContributions: GroupInput, groupCorrections: Option<GroupInput>,
                         params: Table, corrections: Table, contributionFields: Registry)
      returns (r: Result<ZabranskyRuzickaEstimator>)
      ensures r.Failure? <==> ValidGroupsOf(params, contributionFields, groupContributions, groupCorrections).Failure?
      ensures r.Success? ==>
                var v := ValidGroupsOf(params, contributionFields, groupContributions, groupCorrections).value;
                && fresh(r.value)
                && r.value.groupContributions == groupContributions
                && r.value.groupCorrections == groupCorrections
                && r.value.params == params && r.value.corrections == corrections
                && r.value.contributionFields == contributionFields
                && r.value.validGroupContribution == v.contribution
                && r.value.validGroupCorrections == v.corrections
                && r.value.validGroups == v.merged
    {
      var z := new ZabranskyRuzickaEstimator(groupContributions, groupCorrections, params, corrections, contributionFields);
      var contribution := z.CheckGroupContributions(groupContributions);
      if contribution.Failure? {
        return Failure(contribution.error);
      }
      var corr: Dict<GroupData> := [];
      if groupCorrections.Some? {
        // the second check repeats the first, so having passed once it cannot raise here
        var c := z.CheckGroupContributions(groupCorrections.value);
        corr := c.value;
      }
      z.validGroupContribution := contribution.value;
      z.validGroupCorrections := corr;
      z.validGroups := Merge(contribution.value, corr);
      return Success(z);
    }

    /** `_check_group_contributions(group_data)`: the result is that of the stored contributions,
        checked against the contribution table; `groupData` is not consulted, and neither is the
        corrections table. */
    method CheckGroupContributions(groupData: GroupInput) returns (r: Result<Dict<GroupData>>)
      ensures r == CheckSpec(params, contributionFields, AcceptedKinds, groupContributions)
    {
      r := CheckGroups(params, contributionFields, AcceptedKinds, groupContributions);
    }

    /** `_calc_sigma`: the three sums start at 0; a group adds count × value to all three when its
        row has all three coefficients, and to none otherwise. */
    method CalcSigma() returns (sigma: Sigma)
      ensures sigma == SigmaOf(validGroups)
    {
      sigma := Sigma(0.0, 0.0, 0.0);
      var n := 0;
      while n < |validGroups|
        invariant 0 <= n <= |validGroups|
        invariant sigma == SigmaOf(validGroups[..n])
      {
        var g := validGroups[n].1;
        if "a[i]" in g.data && "b[i]" in g.data && "c[i]" in g.data {
          sigma := Sigma(sigma.a + g.count * g.data["a[i]"],
                         sigma.b + g.count * g.data["b[i]"],
                         sigma.c + g.count * g.data["c[i]"]);
        }
        assert validGroups[..n + 1][..n] == validGroups[..n];
        n := n + 1;
      }
      assert validGroups[..n] == validGroups;
    }

    /** `_calc`: computes sigma and returns an empty properties dict. */
    method Calc() returns (properties: map<string, real>)
      ensures properties == map[]
    {
      var sigma := CalcSigma();
      properties := map[];
    }
  }
}
