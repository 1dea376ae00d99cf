/** The group registries of models/jb.py and models/zr.py: declarative tables of fields,
    each with a field name, an optional alias (the group's notation) and a `GroupUnit` count
    defaulting to 0. */
module Models {
  import opened Wrappers

  /** `GroupUnit.value`'s default. */
  const DefaultGroupUnitValue: real := 0.0

  /** One declared field: its Python name and its alias (`None` when the field declares none). */
  datatype FieldDecl = FieldDecl(name: string, alias: Option<string>)

  /** A registry class's fields, in declaration order (`model_fields`). */
  type Registry = seq<FieldDecl>

  /** Which registry class an instance belongs to (the `isinstance` tests of the core). */
  datatype RegistryKind = JobackKind | ZRContributionsKind | ZRCorrectionsKind

  /** A registry instance: the `GroupUnit` each field holds, keyed by field name
      (`None` when the field was set to `None`; `Optional[GroupUnit]` allows it). */
  type Instance = map<string, Option<real>>

  function Names(fields: Registry): (ns: seq<string>)
    ensures |ns| == |fields| && forall i :: 0 <= i < |fields| ==> ns[i] == fields[i].name
  {
    if fields == [] then [] else Names(fields[..|fields| - 1]) + [fields[|fields| - 1].name]
  }

  /** The declared aliases that are not `None`, in declaration order. */
  function Aliases(fields: Registry): seq<string>
  {
    if fields == [] then []
    else
      var rest := Aliases(fields[..|fields| - 1]);
      match fields[|fields| - 1].alias
      case Some(a) => rest + [a]
      case None => rest
  }

  lemma {:induction false} AliasesAreDeclared(fields: Registry)
    ensures |Aliases(fields)| <= |fields|
    ensures forall a :: a in Aliases(fields) <==> exists i :: 0 <= i < |fields| && fields[i].alias == Some(a)
  {
    if fields != [] {
      var init := fields[..|fields| - 1];
      AliasesAreDeclared(init);
      forall a ensures (exists i :: 0 <= i < |fields| && fields[i].alias == Some(a))
                   <==> (exists i :: 0 <= i < |init| && init[i].alias == Some(a)) || fields[|fields| - 1].alias == Some(a)
      {
        if exists i :: 0 <= i < |fields| && fields[i].alias == Some(a) {
          var i :| 0 <= i < |fields| && fields[i].alias == Some(a);
          if i < |init| { assert init[i] == fields[i]; }
        }
      }
    }
  }

  /** When every field declares an alias there are as many aliases as fields, one per field, in order. */
  lemma {:induction false} AllAliasedCount(fields: Registry)
    requires forall i :: 0 <= i < |fields| ==> fields[i].alias.Some?
    ensures |Aliases(fields)| == |fields|
    ensures forall i :: 0 <= i < |fields| ==> Aliases(fields)[i] == fields[i].alias.value
  {
    if fields != [] {
      var init := fields[..|fields| - 1];
      AllAliasedCount(init);
    }
  }

  predicate AliasesDistinct(fields: Registry) {
    forall i, j :: 0 <= i < j < |fields| && fields[i].alias.Some? ==> fields[i].alias != fields[j].alias
  }

  predicate NamesDistinct(fields: Registry) {
    forall i, j :: 0 <= i < j < |fields| ==> fields[i].name != fields[j].name
  }

  /** The instance every field of which keeps its default `GroupUnit(value=0)`. */
  function DefaultInstance(fields: Registry): (inst: Instance)
    ensures forall i :: 0 <= i < |fields| ==> fields[i].name in inst && inst[fields[i].name] == Some(DefaultGroupUnitValue)
    ensures forall n :: n in inst ==> n in Names(fields)
  {
    map n | n in Names(fields) :: Some(DefaultGroupUnitValue)
  }

  /** Whether a keyword of the payload names a field, by field name or by alias (`populate_by_name`). */
  predicate Addresses(f: FieldDecl, key: string) {
    key == f.name || f.alias == Some(key)
  }

  /** The unit a payload gives field `f`: under its alias if present there, else under its name,
      else the default `GroupUnit(value=0)`. */
  function FieldValue(f: FieldDecl, payload: map<string, Option<real>>): Option<real> {
    if f.alias.Some? && f.alias.value in payload then payload[f.alias.value]
    else if f.name in payload then payload[f.name]
    else Some(DefaultGroupUnitValue)
  }

  /** Building a registry instance from keyword arguments. With `extra='forbid'` (both models/zr.py
      registries) a keyword that addresses no field is a validation error, here `None`; without it
      (models/jb.py) such a keyword is ignored. */
  function Construct(fields: Registry, payload: map<string, Option<real>>, forbidExtra: bool): (r: Option<Instance>)
    ensures r.None? <==> forbidExtra && exists key :: key in payload && forall i :: 0 <= i < |fields| ==> !Addresses(fields[i], key)
    ensures r.Some? ==> forall i :: 0 <= i < |fields| ==> fields[i].name in r.value
    ensures r.Some? && NamesDistinct(fields) ==>
              forall i :: 0 <= i < |fields| ==> r.value[fields[i].name] == FieldValue(fields[i], payload)
  {
    if forbidExtra && exists key :: key in payload && forall i :: 0 <= i < |fields| ==> !Addresses(fields[i], key) then None
    else Some(Instantiate(fields, payload))
  }

  function Instantiate(fields: Registry, payload: map<string, Option<real>>): (inst: Instance)
    ensures forall i :: 0 <= i < |fields| ==> fields[i].name in inst
    ensures NamesDistinct(fields) ==> forall i :: 0 <= i < |fields| ==> inst[fields[i].name] == FieldValue(fields[i], payload)
    ensures inst.Keys <= set i | 0 <= i < |fields| :: fields[i].name
  {
    if fields == [] then map[]
    else
      var last := fields[|fields| - 1];
      var init := fields[..|fields| - 1];
      var m := Instantiate(init, payload)[last.name := FieldValue(last, payload)];
      assert forall i :: 0 <= i < |init| ==> init[i] == fields[i];
      m
  }

  /** With no keyword arguments every field holds its default. */
  lemma EmptyPayloadIsDefault(fields: Registry, forbidExtra: bool)
    requires NamesDistinct(fields)
    ensures Construct(fields, map[], forbidExtra) == Some(DefaultInstance(fields))
  {
    var inst := Instantiate(fields, map[]);
    forall n | n in inst ensures n in DefaultInstance(fields) && inst[n] == DefaultInstance(fields)[n] {
      var i :| 0 <= i < |fields| && fields[i].name == n;
    }
    assert inst == DefaultInstance(fields);
  }

  // ---------------------------------------------------------------- models/jb.py

  /** `JobackGroupContributions.model_fields`, in declaration order. */
  const JobackGroupContributions: Registry := [
      FieldDecl("methyl", Some("-CH3")),
      FieldDecl("methylene", Some("-CH2-")),
      FieldDecl("tertiary_CH", Some(">CH-")),
      FieldDecl("quaternary_C", Some(">C<")),
      FieldDecl("vinyl_CH2", Some("=CH2")),
      FieldDecl("vinyl_CH", Some("=C-")),
      FieldDecl("vinyl_C", Some("=C<")),
      FieldDecl("allene", Some("=C=")),
      FieldDecl("alkyne_CH", Some("≡CH")),
      FieldDecl("alkyne_C", Some("≡C-")),
      FieldDecl("fluorine", Some("-F")),
      FieldDecl("chlorine", Some("-Cl")),
      FieldDecl("bromine", Some("-Br")),
      FieldDecl("iodine", Some("-I")),
      FieldDecl("alcohol_OH", Some("-OH @alcohol")),
      FieldDecl("phenol_OH", Some("-OH @phenol")),
      FieldDecl("ether_nonring", Some("-O- @non-ring")),
      FieldDecl("ether_ring", Some("-O- @ring")),
      FieldDecl("carbonyl_nonring", Some(">C=O @non-ring")),
      FieldDecl("carbonyl_ring", Some(">C=O @ring")),
      FieldDecl("aldehyde", Some("O=CH-")),
      FieldDecl("carboxylic_acid", Some("-COOH")),
      FieldDecl("ester", Some("-COO-")),
      FieldDecl("carbonyl_other", Some("=O @expect as above")),
      FieldDecl("primary_amine", Some("-NH2")),
      FieldDecl("secondary_amine_nonring", Some(">NH @non-ring")),
      FieldDecl("secondary_amine_ring", Some(">NH @ring")),
      FieldDecl("tertiary_amine_nonring", Some(">N- @non-ring")),
      FieldDecl("imine_nonring", Some("-N= @non-ring")),
      FieldDecl("imine_ring", Some("-N= @ring")),
      FieldDecl("imine_secondary", Some("=NH")),
      FieldDecl("nitrile", Some("-CN")),
      FieldDecl("nitro", Some("-NO2")),
      FieldDecl("thiol", Some("-SH")),
      FieldDecl("thioether_nonring", Some("-S- @non-ring")),
      FieldDecl("thioether_ring", Some("-S- @ring"))
    ]

  /** The position of the field declaring alias `a`, or -1; used only to show the aliases differ. */
  function JobackAliasPosition(a: string): int {
    if a == "-CH3" then 0
    else if a == "-CH2-" then 1
    else if a == ">CH-" then 2
    else if a == ">C<" then 3
    else if a == "=CH2" then 4
    else if a == "=C-" then 5
    else if a == "=C<" then 6
    else if a == "=C=" then 7
    else if a == "≡CH" then 8
    else if a == "≡C-" then 9
    else if a == "-F" then 10
    else if a == "-Cl" then 11
    else if a == "-Br" then 12
    else if a == "-I" then 13
    else if a == "-OH @alcohol" then 14
    else if a == "-OH @phenol" then 15
    else if a == "-O- @non-ring" then 16
    else if a == "-O- @ring" then 17
    else if a == ">C=O @non-ring" then 18
    else if a == ">C=O @ring" then 19
    else if a == "O=CH-" then 20
    else if a == "-COOH" then 21
    else if a == "-COO-" then 22
    else if a == "=O @expect as above" then 23
    else if a == "-NH2" then 24
    else if a == ">NH @non-ring" then 25
    else if a == ">NH @ring" then 26
    else if a == ">N- @non-ring" then 27
    else if a == "-N= @non-ring" then 28
    else if a == "-N= @ring" then 29
    else if a == "=NH" then 30
    else if a == "-CN" then 31
    else if a == "-NO2" then 32
    else if a == "-SH" then 33
    else if a == "-S- @non-ring" then 34
    else if a == "-S- @ring" then 35
    else -1
  }

  /** The position of the field named `n`, or -1; used only to show the names differ. */
  function JobackNamePosition(n: string): int {
    if n == "methyl" then 0
    else if n == "methylene" then 1
    else if n == "tertiary_CH" then 2
    else if n == "quaternary_C" then 3
    else if n == "vinyl_CH2" then 4
    else if n == "vinyl_CH" then 5
    else if n == "vinyl_C" then 6
    else if n == "allene" then 7
    else if n == "alkyne_CH" then 8
    else if n == "alkyne_C" then 9
    else if n == "fluorine" then 10
    else if n == "chlorine" then 11
    else if n == "bromine" then 12
    else if n == "iodine" then 13
    else if n == "alcohol_OH" then 14
    else if n == "phenol_OH" then 15
    else if n == "ether_nonring" then 16
    else if n == "ether_ring" then 17
    else if n == "carbonyl_nonring" then 18
    else if n == "carbonyl_ring" then 19
    else if n == "aldehyde" then 20
    else if n == "carboxylic_acid" then 21
    else if n == "ester" then 22
    else if n == "carbonyl_other" then 23
    else if n == "primary_amine" then 24
    else if n == "secondary_amine_nonring" then 25
    else if n == "secondary_amine_ring" then 26
    else if n == "tertiary_amine_nonring" then 27
    else if n == "imine_nonring" then 28
    else if n == "imine_ring" then 29
    else if n == "imine_secondary" then 30
    else if n == "nitrile" then 31
    else if n == "nitro" then 32
    else if n == "thiol" then 33
    else if n == "thioether_nonring" then 34
    else if n == "thioether_ring" then 35
    else -1
  }

  lemma JobackAliasPositions0()
    ensures forall i :: 0 <= i < 4 ==> JobackAliasPosition(JobackGroupContributions[i].alias.value) == i
  {
  }

  lemma JobackAliasPositions1()
    ensures forall i :: 4 <= i < 8 ==> JobackAliasPosition(JobackGroupContributions[i].alias.value) == i
  {
  }

  lemma JobackAliasPositions2()
    ensures forall i :: 8 <= i < 12 ==> JobackAliasPosition(JobackGroupContributions[i].alias.value) == i
  {
  }

  lemma JobackAliasPositions3()
    ensures forall i :: 12 <= i < 16 ==> JobackAliasPosition(JobackGroupContributions[i].alias.value) == i
  {
  }

  lemma JobackAliasPositions4()
    ensures forall i :: 16 <= i < 20 ==> JobackAliasPosition(JobackGroupContributions[i].alias.value) == i
  {
  }

  lemma JobackAliasPositions5()
    ensures forall i :: 20 <= i < 24 ==> JobackAliasPosition(JobackGroupContributions[i].alias.value) == i
  {
  }

  lemma JobackAliasPositions6()
    ensures forall i :: 24 <= i < 28 ==> JobackAliasPosition(JobackGroupContributions[i].alias.value) == i
  {
  }

  lemma JobackAliasPositions7()
    ensures forall i :: 28 <= i < 32 ==> JobackAliasPosition(JobackGroupContributions[i].alias.value) == i
  {
  }

  lemma JobackAliasPositions8()
    ensures forall i :: 32 <= i < 36 ==> JobackAliasPosition(JobackGroupContributions[i].alias.value) == i
  {
  }

  lemma JobackNamePositions0()
    ensures forall i :: 0 <= i < 4 ==> JobackNamePosition(JobackGroupContributions[i].name) == i
  {
  }

  lemma JobackNamePositions1()
    ensures forall i :: 4 <= i < 8 ==> JobackNamePosition(JobackGroupContributions[i].name) == i
  {
  }

  lemma JobackNamePositions2()
    ensures forall i :: 8 <= i < 10 ==> JobackNamePosition(JobackGroupContributions[i].name) == i
  {
  }

  lemma JobackNamePositions2b()
    ensures forall i :: 10 <= i < 12 ==> JobackNamePosition(JobackGroupContributions[i].name) == i
  {
  }

  lemma JobackNamePositions3()
    ensures forall i :: 12 <= i < 16 ==> JobackNamePosition(JobackGroupContributions[i].name) == i
  {
  }

  lemma JobackNamePositions4()
    ensures forall i :: 16 <= i < 20 ==> JobackNamePosition(JobackGroupContributions[i].name) == i
  {
  }

  lemma JobackNamePositions5()
    ensures forall i :: 20 <= i < 24 ==> JobackNamePosition(JobackGroupContributions[i].name) == i
  {
  }

  lemma JobackNamePositions6()
    ensures forall i :: 24 <= i < 26 ==> JobackNamePosition(JobackGroupContributions[i].name) == i
  {
  }

  lemma JobackNamePositions6b()
    ensures forall i :: 26 <= i < 28 ==> JobackNamePosition(JobackGroupContributions[i].name) == i
  {
  }

  lemma JobackNamePositions7()
    ensures forall i :: 28 <= i < 32 ==> JobackNamePosition(JobackGroupContributions[i].name) == i
  {
  }

  lemma JobackNamePositions8()
    ensures forall i :: 32 <= i < 36 ==> JobackNamePosition(JobackGroupContributions[i].name) == i
  {
  }

  lemma JobackAliasesDistinct()
    ensures AliasesDistinct(JobackGroupContributions)
  {
    JobackAliasPositions0(); JobackAliasPositions1(); JobackAliasPositions2();
    JobackAliasPositions3(); JobackAliasPositions4(); JobackAliasPositions5();
    JobackAliasPositions6(); JobackAliasPositions7(); JobackAliasPositions8();
  }

  lemma JobackNamesDistinct()
    ensures NamesDistinct(JobackGroupContributions)
  {
    JobackNamePositions0(); JobackNamePositions1(); JobackNamePositions2(); JobackNamePositions2b();
    JobackNamePositions3(); JobackNamePositions4(); JobackNamePositions5();
    JobackNamePositions6(); JobackNamePositions6b(); JobackNamePositions7(); JobackNamePositions8();
  }

  /** Structural facts of the Joback registry: 36 fields, every one with an alias (so its alias list
      has one entry per field), and no two fields sharing a name or an alias. */
  lemma JobackRegistryFacts()
    ensures |JobackGroupContributions| == 36
    ensures forall i :: 0 <= i < |JobackGroupContributions| ==> JobackGroupContributions[i].alias.Some?
    ensures |Aliases(JobackGroupContributions)| == 36
    ensures AliasesDistinct(JobackGroupContributions)
    ensures NamesDistinct(JobackGroupContributions)
  {
    AllAliasedCount(JobackGroupContributions);
    JobackAliasesDistinct();
    JobackNamesDistinct();
  }

  // ---------------------------------------------------------------- models/zr.py

  /** What models/zr.py declares about a Zabransky-Ruzicka registry: every field has an alias,
      and neither names nor aliases repeat. */
  predicate WellFormedRegistry(fields: Registry) {
    && (forall i :: 0 <= i < |fields| ==> fields[i].alias.Some?)
    && AliasesDistinct(fields)
    && NamesDistinct(fields)
  }
}
