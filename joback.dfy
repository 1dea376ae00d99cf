/** The Joback group-contribution method of core/joback.py: valid groups, their per-column
    weighted sums ("sigma"), and the ten properties computed from those sums. */
module Joback {
  import opened Wrappers
  import opened Dicts
  import opened Models
  import opened GroupValidation

  /** The sigma dict: its thirteen keys, each the sum of the table column of the same name
      (`a`..`d` sum the heat-capacity columns `a`..`d`). */
  datatype Sigma = Sigma(
    Tc: real, Pc: real, Vc: real, Tb: real, Tf: real, EnFo_IG: real, GiEnFo_IG: real,
    a: real, b: real, c: real, d: real, EnFus: real, EnVap: real)

  /** The sigma `_calc_sigma` returns for the valid groups. */
  function SigmaOf(groups: seq<(string, GroupData)>): Sigma {
    Sigma(ColumnSum(groups, "Tc"), ColumnSum(groups, "Pc"), ColumnSum(groups, "Vc"),
          ColumnSum(groups, "Tb"), ColumnSum(groups, "Tf"), ColumnSum(groups, "EnFo_IG"),
          ColumnSum(groups, "GiEnFo_IG"), ColumnSum(groups, "a"), ColumnSum(groups, "b"),
          ColumnSum(groups, "c"), ColumnSum(groups, "d"), ColumnSum(groups, "EnFus"),
          ColumnSum(groups, "EnVap"))
  }

  /** One `if val is not None: sigma[key] += count * float(val)` block of `_calc_sigma`. */
  function Accumulate(sum: real, g: GroupData, col: string): (r: real)
    ensures r == sum + Contribution(g, col)
  {
    if col in g.data then sum + g.count * g.data[col] else sum
  }

  lemma SigmaStep(groups: seq<(string, GroupData)>, n: nat)
    requires n < |groups|
    ensures var s := SigmaOf(groups[..n]); var g := groups[n].1;
      SigmaOf(groups[..n + 1]) == Sigma(
        s.Tc + Contribution(g, "Tc"), s.Pc + Contribution(g, "Pc"), s.Vc + Contribution(g, "Vc"),
        s.Tb + Contribution(g, "Tb"), s.Tf + Contribution(g, "Tf"), s.EnFo_IG + Contribution(g, "EnFo_IG"),
        s.GiEnFo_IG + Contribution(g, "GiEnFo_IG"), s.a + Contribution(g, "a"), s.b + Contribution(g, "b"),
        s.c + Contribution(g, "c"), s.d + Contribution(g, "d"), s.EnFus + Contribution(g, "EnFus"),
        s.EnVap + Contribution(g, "EnVap"))
  {
    assert groups[..n + 1][..n] == groups[..n];
  }

  // ---------------------------------------------------------------- the properties

  /** A computed property: a value with its unit and symbol, or the heat-capacity coefficients
      the `JobackHeatCapacity` function is built from. */
  datatype Estimate =
    | Scalar(value: real, unit: string, symbol: string)
    | HeatCapacity(a: real, b: real, c: real, d: real, unit: string, symbol: string)

  /** `_calc_freezing_point_temperature`: Tf = 122.5 + ΣTf. */
  function FreezingPointTemperature(sigma: Sigma): Estimate {
    Scalar(122.5 + sigma.Tf, "K", "Tf")
  }

  /** `_calc_boiling_point_temperature`: Tb = 198.2 + ΣTb. */
  function BoilingPointTemperature(sigma: Sigma): Estimate {
    Scalar(198.2 + sigma.Tb, "K", "Tb")
  }

  /** The denominator of the critical-temperature correlation. */
  function TcDenominator(s: real): real {
    0.584 + 0.965 * s - s * s
  }

  /** `_calc_critical_temperature`: Tc = Tb / (0.584 + 0.965·ΣTc − ΣTc²); `None` without a boiling
      point or when the denominator is zero (the `ZeroDivisionError` is caught). */
  function CriticalTemperature(sigma: Sigma, tb: Option<real>): (r: Option<Estimate>)
    ensures r.None? <==> tb.None? || TcDenominator(sigma.Tc) == 0.0
    ensures r.Some? ==> r.value.Scalar? && r.value.value * TcDenominator(sigma.Tc) == tb.value
                        && r.value.unit == "K" && r.value.symbol == "Tc"
  {
    if tb.None? then None
    else
      var den := TcDenominator(sigma.Tc);
      if den == 0.0 then None else Some(Scalar(tb.value / den, "K", "Tc"))
  }

  /** The base of the critical-pressure correlation for `n` atoms. */
  function PcBase(n: int, s: real): real {
    0.113 + 0.0032 * n as real - s
  }

  /** `_calc_critical_pressure`: Pc = (0.113 + 0.0032·N − ΣPc)^−2; `None` when the base is zero
      (`math.pow(0.0, -2)` raises, caught). */
  function CriticalPressure(sigma: Sigma, totalAtoms: int): (r: Option<Estimate>)
    ensures r.None? <==> PcBase(totalAtoms, sigma.Pc) == 0.0
    ensures r.Some? ==> r.value.Scalar? && r.value.value > 0.0
                        && r.value.value * (PcBase(totalAtoms, sigma.Pc) * PcBase(totalAtoms, sigma.Pc)) == 1.0
                        && r.value.unit == "bar" && r.value.symbol == "Pc"
  {
    var x := PcBase(totalAtoms, sigma.Pc);
    if x == 0.0 then None else Some(Scalar(1.0 / (x * x), "bar", "Pc"))
  }

  /** `_calc_critical_volume`: Vc = 17.5 + ΣVc. */
  function CriticalVolume(sigma: Sigma): Estimate {
    Scalar(17.5 + sigma.Vc, "cm3/mol", "Vc")
  }

  /** `_calc_standard_enthalpy_of_formation_ideal_gas`: 68.29 + ΣEnFo_IG. */
  function EnthalpyOfFormation(sigma: Sigma): Estimate {
    Scalar(68.29 + sigma.EnFo_IG, "kJ/mol", "EnFo_IG")
  }

  /** `_calc_standard_gibbs_energy_of_formation_ideal_gas`: 53.88 + ΣGiEnFo_IG. */
  function GibbsEnergyOfFormation(sigma: Sigma): Estimate {
    Scalar(53.88 + sigma.GiEnFo_IG, "kJ/mol", "GiEnFo_IG")
  }

  /** `_calc_standard_enthalpy_of_fusion`: −0.88 + ΣEnFus. */
  function EnthalpyOfFusion(sigma: Sigma): Estimate {
    Scalar(-0.88 + sigma.EnFus, "kJ/mol", "EnFus")
  }

  /** `_calc_standard_enthalpy_of_vaporization`: 15.30 + ΣEnVap. */
  function EnthalpyOfVaporization(sigma: Sigma): Estimate {
    Scalar(15.30 + sigma.EnVap, "kJ/mol", "EnVap")
  }

  /** `_calc_heat_capacity`: the four sigma coefficients handed on unchanged. */
  function HeatCapacityOf(sigma: Sigma): Estimate {
    HeatCapacity(sigma.a, sigma.b, sigma.c, sigma.d, "J/mol\U{B7}K", "Cp_IG")
  }

  /** The properties dict `_calc` returns: one entry per key, `None` where the formula failed. */
  datatype Properties = Properties(
    freezing_point_temperature: Option<Estimate>,
    boiling_point_temperature: Option<Estimate>,
    critical_temperature: Option<Estimate>,
    critical_pressure: Option<Estimate>,
    critical_volume: Option<Estimate>,
    standard_enthalpy_of_formation_ideal_gas: Option<Estimate>,
    standard_gibbs_energy_of_formation_ideal_gas: Option<Estimate>,
    standard_enthalpy_of_fusion: Option<Estimate>,
    standard_enthalpy_of_vaporization: Option<Estimate>,
    heat_capacity: Option<Estimate>)

  /** `_calc` from a sigma: every property is computed on its own, and only the critical
      temperature and pressure can fail, each for its own reason alone; the critical temperature
      takes the boiling point just computed. */
  function PropertiesOf(sigma: Sigma, totalAtoms: int): (p: Properties)
    ensures p.critical_temperature.None? <==> TcDenominator(sigma.Tc) == 0.0
    ensures p.critical_pressure.None? <==> PcBase(totalAtoms, sigma.Pc) == 0.0
    ensures && p.freezing_point_temperature.Some? && p.boiling_point_temperature.Some?
            && p.critical_volume.Some? && p.standard_enthalpy_of_formation_ideal_gas.Some?
            && p.standard_gibbs_energy_of_formation_ideal_gas.Some? && p.standard_enthalpy_of_fusion.Some?
            && p.standard_enthalpy_of_vaporization.Some? && p.heat_capacity.Some?
  {
    var tb := Some(BoilingPointTemperature(sigma));
    Properties(
      Some(FreezingPointTemperature(sigma)),
      tb,
      CriticalTemperature(sigma, if tb.Some? then Some(tb.value.value) else None),
      CriticalPressure(sigma, totalAtoms),
      Some(CriticalVolume(sigma)),
      Some(EnthalpyOfFormation(sigma)),
      Some(GibbsEnergyOfFormation(sigma)),
      Some(EnthalpyOfFusion(sigma)),
      Some(EnthalpyOfVaporization(sigma)),
      Some(HeatCapacityOf(sigma)))
  }

  /** From the valid groups to the properties: the additive properties are their constants plus
      the column sums over the groups, the critical temperature divides the boiling point by the
      correlation in ΣTc, and the heat capacity receives the sums of a, b, c and d. */
  lemma PropertiesOfGroups(groups: seq<(string, GroupData)>, totalAtoms: int)
    ensures var p := PropertiesOf(SigmaOf(groups), totalAtoms);
      && p.freezing_point_temperature == Some(Scalar(122.5 + ColumnSum(groups, "Tf"), "K", "Tf"))
      && p.boiling_point_temperature == Some(Scalar(198.2 + ColumnSum(groups, "Tb"), "K", "Tb"))
      && p.critical_volume == Some(Scalar(17.5 + ColumnSum(groups, "Vc"), "cm3/mol", "Vc"))
      && p.standard_enthalpy_of_formation_ideal_gas == Some(Scalar(68.29 + ColumnSum(groups, "EnFo_IG"), "kJ/mol", "EnFo_IG"))
      && p.standard_gibbs_energy_of_formation_ideal_gas == Some(Scalar(53.88 + ColumnSum(groups, "GiEnFo_IG"), "kJ/mol", "GiEnFo_IG"))
      && p.standard_enthalpy_of_fusion == Some(Scalar(-0.88 + ColumnSum(groups, "EnFus"), "kJ/mol", "EnFus"))
      && p.standard_enthalpy_of_vaporization == Some(Scalar(15.30 + ColumnSum(groups, "EnVap"), "kJ/mol", "EnVap"))
      && (TcDenominator(ColumnSum(groups, "Tc")) != 0.0 ==>
            p.critical_temperature == Some(Scalar((198.2 + ColumnSum(groups, "Tb")) / TcDenominator(ColumnSum(groups, "Tc")), "K", "Tc")))
      && p.heat_capacity == Some(HeatCapacity(ColumnSum(groups, "a"), ColumnSum(groups, "b"),
                                              ColumnSum(groups, "c"), ColumnSum(groups, "d"), "J/mol\U{B7}K", "Cp_IG"))
  {
  }

  /** With no valid group every additive property is its bare constant, the critical temperature
      is 198.2 / 0.584, and the critical pressure is defined for every whole number of atoms
      (0.113 + 0.0032·N is never 0 for an integer N). */
  lemma NoGroupsGiveConstants(totalAtoms: int)
    ensures var p := PropertiesOf(SigmaOf([]), totalAtoms);
      && p.freezing_point_temperature == Some(Scalar(122.5, "K", "Tf"))
      && p.boiling_point_temperature == Some(Scalar(198.2, "K", "Tb"))
      && p.critical_temperature == Some(Scalar(198.2 / 0.584, "K", "Tc"))
      && p.critical_volume == Some(Scalar(17.5, "cm3/mol", "Vc"))
      && p.standard_enthalpy_of_formation_ideal_gas == Some(Scalar(68.29, "kJ/mol", "EnFo_IG"))
      && p.standard_gibbs_energy_of_formation_ideal_gas == Some(Scalar(53.88, "kJ/mol", "GiEnFo_IG"))
      && p.standard_enthalpy_of_fusion == Some(Scalar(-0.88, "kJ/mol", "EnFus"))
      && p.standard_enthalpy_of_vaporization == Some(Scalar(15.30, "kJ/mol", "EnVap"))
      && p.critical_pressure.Some?
      && p.heat_capacity == Some(HeatCapacity(0.0, 0.0, 0.0, 0.0, "J/mol\U{B7}K", "Cp_IG"))
  {
    var x := 0.113 + 0.0032 * totalAtoms as real;
    assert x != 0.0 by {
      if totalAtoms <= -36 { assert x <= 0.113 - 0.1152; } else { assert x >= 0.113 - 0.112; }
    }
    assert SigmaOf([]).Pc == 0.0;
    assert PcBase(totalAtoms, SigmaOf([]).Pc) == x;
  }

  /** A molecule of `n` copies of one group with a boiling-point increment boils at 198.2 + n·ΔTb. */
  lemma SingleGroupBoilingPoint(k: string, g: GroupData, totalAtoms: int)
    requires "Tb" in g.data
    ensures PropertiesOf(SigmaOf([(k, g)]), totalAtoms).boiling_point_temperature
              == Some(Scalar(198.2 + g.count * g.data["Tb"], "K", "Tb"))
  {
    SingleGroupSum(k, g, "Tb");
  }

  // ---------------------------------------------------------------- the class

  /** A Joback estimator: the inputs it was built from, the reference table, and the valid groups
      `__init__` derives from them. */
  class JobackEstimator {
    const groupContributions: GroupInput
    const totalAtomsNumber: int
    const jobackParams: Table
    var validGroups: Dict<GroupData>

    /** Stores the inputs; `Create` then derives the valid groups, as `__init__` does. */
    constructor (groupContributions: GroupInput, totalAtomsNumber: int, jobackParams: Table)
      ensures this.groupContributions == groupContributions
      ensures this.totalAtomsNumber == totalAtomsNumber
      ensures this.jobackParams == jobackParams
      ensures validGroups == []
    {
      this.groupContributions := groupContributions;
      this.totalAtomsNumber := totalAtomsNumber;
      this.jobackParams := jobackParams;
      validGroups := [];
    }

    /** `Joback(...)`: raises exactly when the registry check raises; otherwise the estimator
        holds the valid groups of its input. */
    static method Create(groupContributions: GroupInput, totalAtomsNumber: int, jobackParams: Table)
      returns (r: Result<JobackEstimator>)
      ensures r.Failure? <==> CheckSpec(jobackParams, JobackGroupContributions, {JobackKind}, groupContributions).Failure?
      ensures r.Success? ==>
                && fresh(r.value)
                && r.value.groupContributions == groupContributions
                && r.value.totalAtomsNumber == totalAtomsNumber
                && r.value.jobackParams == jobackParams
                && r.value.validGroups == CheckSpec(jobackParams, JobackGroupContributions, {JobackKind}, groupContributions).value
    {
      var j := new JobackEstimator(groupContributions, totalAtomsNumber, jobackParams);
      var valid := j.CheckGroupContributions();
      if valid.Failure? {
        return Failure(valid.error);
      }
      j.validGroups := valid.value;
      return Success(j);
    }

    /** `_check_group_contributions`: the dict path, or the Joback registry path for an instance
        of `JobackGroupContributions`; any other input gives no groups. */
    method CheckGroupContributions() returns (r: Result<Dict<GroupData>>)
      ensures r == CheckSpec(jobackParams, JobackGroupContributions, {JobackKind}, groupContributions)
    {
      r := CheckGroups(jobackParams, JobackGroupContributions, {JobackKind}, groupContributions);
    }

    /** `_calc_sigma`: every sum starts at 0; each valid group adds count × value to each sum
        whose column its row has a value in. */
    method CalcSigma() returns (sigma: Sigma)
      ensures sigma == SigmaOf(validGroups)
    {
      sigma := Sigma(0.0, 0.0, 0.0, 0.0, 0.0, 0.0, 0.0, 0.0, 0.0, 0.0, 0.0, 0.0, 0.0);
      var n := 0;
      while n < |validGroups|
        invariant 0 <= n <= |validGroups|
        invariant sigma == SigmaOf(validGroups[..n])
      {
        var g := validGroups[n].1;
        sigma := sigma.(Tc := Accumulate(sigma.Tc, g, "Tc"));
        sigma := sigma.(Pc := Accumulate(sigma.Pc, g, "Pc"));
        sigma := sigma.(Vc := Accumulate(sigma.Vc, g, "Vc"));
        sigma := sigma.(Tb := Accumulate(sigma.Tb, g, "Tb"));
        sigma := sigma.(Tf := Accumulate(sigma.Tf, g, "Tf"));
        sigma := sigma.(EnFo_IG := Accumulate(sigma.EnFo_IG, g, "EnFo_IG"));
        sigma := sigma.(GiEnFo_IG := Accumulate(sigma.GiEnFo_IG, g, "GiEnFo_IG"));
        sigma := sigma.(a := Accumulate(sigma.a, g, "a"));
        sigma := sigma.(b := Accumulate(sigma.b, g, "b"));
        sigma := sigma.(c := Accumulate(sigma.c, g, "c"));
        sigma := sigma.(d := Accumulate(sigma.d, g, "d"));
        sigma := sigma.(EnFus := Accumulate(sigma.EnFus, g, "EnFus"));
        sigma := sigma.(EnVap := Accumulate(sigma.EnVap, g, "EnVap"));
        SigmaStep(validGroups, n);
        n := n + 1;
      }
      assert validGroups[..n] == validGroups;
    }

    /** `_calc`: the ten properties of the estimator's valid groups. */
    method Calc() returns (properties: Properties)
      ensures properties == PropertiesOf(SigmaOf(validGroups), totalAtomsNumber)
    {
      var sigma := CalcSigma();
      properties := PropertiesOf(sigma, totalAtomsNumber);
    }
  }

  /** Typed Joback input: one entry per kept field, under that field's alias (the 36 aliases are
      distinct), and an instance left at its defaults yields no valid group at all. */
  lemma JobackTypedEntries(table: Table, inst: Instance)
    requires TypedValid(table, JobackGroupContributions, inst).Success?
    ensures forall i :: 0 <= i < |JobackGroupContributions| && Kept(table, JobackGroupContributions[i], inst) ==>
              Get(TypedValid(table, JobackGroupContributions, inst).value, JobackGroupContributions[i].alias.value)
                == Some(Entry(table, JobackGroupContributions[i], inst))
  {
    JobackAliasesDistinct();
    TypedValidEntry(table, JobackGroupContributions, inst);
  }

  /** An estimator built from a default registry instance has no valid group, so every additive
      property is its bare constant. */
  lemma DefaultJobackInstanceHasNoGroups(table: Table)
    ensures CheckSpec(table, JobackGroupContributions, {JobackKind},
                      Typed(JobackKind, DefaultInstance(JobackGroupContributions))) == Success([])
  {
    DefaultInstanceKeepsNothing(table, JobackGroupContributions);
  }
}
