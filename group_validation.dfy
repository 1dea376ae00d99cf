/** The group-validation step shared by core/joback.py and core/zabransky_ruzicka.py: a sparse
    group input is filtered against the `Group` column of a reference table, and each surviving
    group becomes an entry `{id, name, count, data}` keyed by its group notation. */
module GroupValidation {
  import opened Wrappers
  import opened Text
  import opened Dicts
  import opened Models

  /** One row of a reference table: its `Group` cell and its numeric columns
      (a column missing from `data` is a cell that `.get(column, None)` reads as `None`). */
  datatype Row = Row(group: string, data: map<string, real>)

  type Table = seq<Row>

  /** One valid group: `JobackGroupData` / `ZabranskyRuzickaGroupData`. */
  datatype GroupData = GroupData(id: string, name: string, count: real, data: map<string, real>)

  /** What the caller handed in as group contributions: a plain `dict` of counts, an instance of
      one of the registry classes, or anything else. */
  datatype GroupInput =
    | RawCounts(counts: Dict<real>)
    | Typed(kind: RegistryKind, instance: Instance)
    | Unsupported

  /** `table[Group].to_dict()`'s values: the `Group` column, row by row. */
  function GroupIds(table: Table): (ids: seq<string>)
    ensures |ids| == |table| && forall i :: 0 <= i < |table| ==> ids[i] == table[i].group
  {
    seq(|table|, i requires 0 <= i < |table| => table[i].group)
  }

  /** The position of the first row whose `Group` is `key`, or `|table|` when there is none. */
  function FirstIndex(table: Table, key: string): (i: nat)
    ensures i <= |table|
    ensures i < |table| ==> table[i].group == key
    ensures forall j :: 0 <= j < i ==> table[j].group != key
  {
    if table == [] || table[0].group == key then 0
    else
      var i := FirstIndex(table[1..], key);
      assert forall j :: 0 < j < i + 1 ==> table[j] == table[1..][j - 1];
      1 + i
  }

  function FirstMatch(table: Table, key: string): (data: map<string, real>)
    ensures key in GroupIds(table) ==>
              exists i :: 0 <= i < |table| && table[i].group == key && data == table[i].data
                          && forall j :: 0 <= j < i ==> table[j].group != key
    ensures key !in GroupIds(table) ==> data == map[]
  {
    var i := FirstIndex(table, key);
    if i < |table| then table[i].data else map[]
  }

  /** `_get_group_contribution_data`: the data of the first row whose `Group` equals the stripped
      name, or the empty row when there is none. */
  function LookupRow(table: Table, name: string): (data: map<string, real>)
    ensures Strip(name) in GroupIds(table) ==>
              exists i :: 0 <= i < |table| && table[i].group == Strip(name) && data == table[i].data
                          && forall j :: 0 <= j < i ==> table[j].group != Strip(name)
    ensures Strip(name) !in GroupIds(table) ==> data == map[]
  {
    FirstMatch(table, Strip(name))
  }

  // ---------------------------------------------------------------- the dict path

  /** The valid groups the dict path builds from the first entries of `counts`: every key that is
      in the `Group` column, with id = name = the key, the count as given (no positivity test) and
      the row looked up by the key. */
  function RawValid(table: Table, counts: Dict<real>): Dict<GroupData>
    decreases |counts|
  {
    if counts == [] then []
    else
      var (k, v) := counts[|counts| - 1];
      var valid := RawValid(table, counts[..|counts| - 1]);
      if k in GroupIds(table) then Put(valid, k, GroupData(k, k, v, LookupRow(table, k))) else valid
  }

  /** The keys of `ks` that are `Group` values, in their order. */
  function KeysInTable(table: Table, ks: seq<string>): seq<string>
  {
    if ks == [] then []
    else KeysInTable(table, ks[..|ks| - 1]) + if ks[|ks| - 1] in GroupIds(table) then [ks[|ks| - 1]] else []
  }

  /** The dict path keeps a key iff it is a `Group` value, and keeps the given count and the row. */
  lemma {:induction false} RawValidGet(table: Table, counts: Dict<real>, k: string)
    ensures Get(RawValid(table, counts), k) ==
              if HasKey(counts, k) && k in GroupIds(table)
              then Some(GroupData(k, k, Get(counts, k).value, LookupRow(table, k)))
              else None
    decreases |counts|
  {
    if counts != [] {
      var init: Dict<real> := counts[..|counts| - 1];
      RawValidGet(table, init, k);
      HasKeySnoc(counts, k);
    }
  }

  /** The dict path keeps the kept keys in the order the input dict holds them. */
  lemma {:induction false} RawValidKeys(table: Table, counts: Dict<real>)
    ensures Keys(RawValid(table, counts)) == KeysInTable(table, Keys(counts))
    decreases |counts|
  {
    if counts != [] {
      var init: Dict<real> := counts[..|counts| - 1];
      var k := counts[|counts| - 1].0;
      RawValidKeys(table, init);
      assert Keys(counts)[..|counts| - 1] == Keys(init);
      if k in GroupIds(table) {
        RawValidGet(table, init, k);
      }
    }
  }

  /** `_check_group_contributions`, dict branch. */
  /** One more entry of `counts` either adds its group or leaves the valid groups as they were. */
  lemma RawValidStep(table: Table, counts: Dict<real>, n: nat)
    requires n < |counts|
    ensures var (k, v) := counts[n];
            RawValid(table, counts[..n + 1])
            == if k in GroupIds(table) then Put(RawValid(table, counts[..n]), k, GroupData(k, k, v, LookupRow(table, k)))
               else RawValid(table, counts[..n])
  {
    assert counts[..n + 1][..n] == counts[..n];
  }

  method ValidateRaw(table: Table, counts: Dict<real>) returns (valid: Dict<GroupData>)
    ensures valid == RawValid(table, counts)
  {
    valid := [];
    var n := 0;
    while n < |counts|
      invariant 0 <= n <= |counts|
      invariant valid == RawValid(table, counts[..n])
    {
      var (name, value) := counts[n];
      RawValidStep(table, counts, n);
      if name in GroupIds(table) {
        valid := Put(valid, name, GroupData(name, name, value, LookupRow(table, name)));
      }
      n := n + 1;
    }
    assert counts[..n] == counts;
  }

  // ---------------------------------------------------------------- the registry path

  /** Whether the typed path keeps field `f`: it has an alias, holds a count above zero, and the
      alias is a `Group` value. */
  predicate Kept(table: Table, f: FieldDecl, inst: Instance) {
    && f.alias.Some?
    && f.name in inst && inst[f.name].Some? && inst[f.name].value > 0.0
    && f.alias.value in GroupIds(table)
  }

  /** The entry a kept field becomes: keyed and identified by its alias, named by its field name. */
  function Entry(table: Table, f: FieldDecl, inst: Instance): GroupData
    requires Kept(table, f, inst)
  {
    GroupData(f.alias.value, f.name, inst[f.name].value, LookupRow(table, f.alias.value))
  }

  /** Whether reading field `f` raises: `getattr` of a missing attribute, or `.value` of a `None`. */
  predicate Raises(f: FieldDecl, inst: Instance) {
    f.alias.Some? && (f.name !in inst || inst[f.name].None?)
  }

  /** One step of the typed path: fields without an alias are skipped before anything is read. */
  function TypedStep(table: Table, f: FieldDecl, inst: Instance, valid: Dict<GroupData>): Result<Dict<GroupData>>
  {
    match f.alias
    case None => Success(valid)
    case Some(alias) =>
      if f.name !in inst then Failure(AttributeMissing(f.name))
      else match inst[f.name]
        case None => Failure(NoneGroupUnit(f.name))
        case Some(v) =>
          if v > 0.0 && alias in GroupIds(table)
          then Success(Put(valid, alias, GroupData(alias, f.name, v, LookupRow(table, alias))))
          else Success(valid)
  }

  /** The typed path over the registry's fields in declaration order; the first field whose read
      raises aborts the whole check. */
  function TypedValid(table: Table, fields: Registry, inst: Instance): Result<Dict<GroupData>>
    decreases |fields|
  {
    if fields == [] then Success([])
    else
      var prev := TypedValid(table, fields[..|fields| - 1], inst);
      if prev.Failure? then prev else TypedStep(table, fields[|fields| - 1], inst, prev.value)
  }

  /** The typed path raises iff some aliased field is missing from the instance or holds `None`. */
  lemma {:induction false} TypedFailureIff(table: Table, fields: Registry, inst: Instance)
    ensures TypedValid(table, fields, inst).Failure? <==> exists i :: 0 <= i < |fields| && Raises(fields[i], inst)
    decreases |fields|
  {
    if fields != [] {
      var init := fields[..|fields| - 1];
      TypedFailureIff(table, init, inst);
      if exists i :: 0 <= i < |init| && Raises(init[i], inst) {
        var i :| 0 <= i < |init| && Raises(init[i], inst);
        assert fields[i] == init[i];
      }
      if exists i :: 0 <= i < |fields| && Raises(fields[i], inst) {
        var i :| 0 <= i < |fields| && Raises(fields[i], inst);
        if i < |init| { assert init[i] == fields[i]; }
      }
    }
  }

  /** Whether some field of `fields` that the typed path keeps declares alias `a`. */
  predicate DeclaresKept(table: Table, fields: Registry, inst: Instance, a: string) {
    exists i :: 0 <= i < |fields| && Kept(table, fields[i], inst) && fields[i].alias == Some(a)
  }

  lemma DeclaresKeptSnoc(table: Table, fields: Registry, inst: Instance, a: string)
    requires fields != []
    ensures DeclaresKept(table, fields, inst, a) <==>
              DeclaresKept(table, fields[..|fields| - 1], inst, a)
              || (Kept(table, fields[|fields| - 1], inst) && fields[|fields| - 1].alias == Some(a))
  {
    var init := fields[..|fields| - 1];
    if DeclaresKept(table, fields, inst, a) {
      var i :| 0 <= i < |fields| && Kept(table, fields[i], inst) && fields[i].alias == Some(a);
      if i < |init| { assert init[i] == fields[i]; }
    }
    if DeclaresKept(table, init, inst, a) {
      var i :| 0 <= i < |init| && Kept(table, init[i], inst) && init[i].alias == Some(a);
      assert fields[i] == init[i];
    }
  }

  /** When the typed path succeeds it holds an entry under an alias iff some kept field declares
      that alias. */
  lemma {:induction false} TypedValidHasKey(table: Table, fields: Registry, inst: Instance, a: string)
    requires TypedValid(table, fields, inst).Success?
    ensures HasKey(TypedValid(table, fields, inst).value, a) <==> DeclaresKept(table, fields, inst, a)
    decreases |fields|
  {
    if fields != [] {
      var init := fields[..|fields| - 1];
      var last := fields[|fields| - 1];
      assert TypedValid(table, init, inst).Success?;
      TypedValidHasKey(table, init, inst, a);
      DeclaresKeptSnoc(table, fields, inst, a);
      var prev := TypedValid(table, init, inst).value;
      var r := TypedValid(table, fields, inst).value;
      if Kept(table, last, inst) {
        assert r == Put(prev, last.alias.value, Entry(table, last, inst));
        PutHasKey(prev, last.alias.value, Entry(table, last, inst), a);
      } else {
        assert r == prev;
      }
    }
  }

  lemma PutHasKey<V>(d: Dict<V>, k: string, v: V, a: string)
    ensures HasKey(Put(d, k, v), a) <==> HasKey(d, a) || a == k
  {
    assert Get(Put(d, k, v), a).Some? <==> Get(d, a).Some? || a == k;
  }

  /** One field more changes a successful typed result only under that field's alias, and only
      when the field is kept. */
  lemma TypedValidSnocGet(table: Table, fields: Registry, inst: Instance, a: string)
    requires fields != [] && TypedValid(table, fields, inst).Success?
    ensures TypedValid(table, fields[..|fields| - 1], inst).Success?
    ensures var last := fields[|fields| - 1];
            Get(TypedValid(table, fields, inst).value, a)
            == if Kept(table, last, inst) && last.alias == Some(a) then Some(Entry(table, last, inst))
               else Get(TypedValid(table, fields[..|fields| - 1], inst).value, a)
  {
    var last := fields[|fields| - 1];
    var prev := TypedValid(table, fields[..|fields| - 1], inst).value;
    if Kept(table, last, inst) {
      assert TypedValid(table, fields, inst).value == Put(prev, last.alias.value, Entry(table, last, inst));
    }
  }

  /** With distinct aliases (as every registry declares them) the entry under each kept field's
      alias is exactly that field's `Entry`: no later field overwrites it. */
  lemma {:induction false} TypedValidEntry(table: Table, fields: Registry, inst: Instance)
    requires TypedValid(table, fields, inst).Success? && AliasesDistinct(fields)
    ensures forall i :: 0 <= i < |fields| && Kept(table, fields[i], inst) ==>
              Get(TypedValid(table, fields, inst).value, fields[i].alias.value) == Some(Entry(table, fields[i], inst))
    decreases |fields|
  {
    if fields != [] {
      var init := fields[..|fields| - 1];
      var last := fields[|fields| - 1];
      assert AliasesDistinct(init) by {
        forall i, j | 0 <= i < j < |init| && init[i].alias.Some? ensures init[i].alias != init[j].alias {
          assert init[i] == fields[i] && init[j] == fields[j];
        }
      }
      TypedValidSnocGet(table, fields, inst, "");
      TypedValidEntry(table, init, inst);
      var prev := TypedValid(table, init, inst).value;
      var r := TypedValid(table, fields, inst).value;
      forall i | 0 <= i < |fields| && Kept(table, fields[i], inst)
        ensures Get(r, fields[i].alias.value) == Some(Entry(table, fields[i], inst))
      {
        var f := fields[i];
        TypedValidSnocGet(table, fields, inst, f.alias.value);
        if i < |init| {
          assert init[i] == f;
          assert last.alias != f.alias;
          assert Get(r, f.alias.value) == Get(prev, f.alias.value);
          assert Get(prev, init[i].alias.value) == Some(Entry(table, init[i], inst));
        } else {
          assert f == last;
        }
      }
    }
  }

  /** An instance whose every field holds a count of at most zero keeps no group, whatever the
      table; the registries' default instance (every count 0) is one. */
  lemma {:induction false} TypedNothingPositive(table: Table, fields: Registry, inst: Instance)
    requires forall i :: 0 <= i < |fields| ==>
               fields[i].name in inst && inst[fields[i].name].Some? && inst[fields[i].name].value <= 0.0
    ensures TypedValid(table, fields, inst) == Success([])
    decreases |fields|
  {
    if fields != [] {
      var init := fields[..|fields| - 1];
      assert forall i :: 0 <= i < |init| ==> init[i] == fields[i];
      TypedNothingPositive(table, init, inst);
    }
  }

  lemma DefaultInstanceKeepsNothing(table: Table, fields: Registry)
    ensures TypedValid(table, fields, DefaultInstance(fields)) == Success([])
  {
    TypedNothingPositive(table, fields, DefaultInstance(fields));
  }

  /** `_check_group_contributions`, registry branch. */
  method ValidateTyped(table: Table, fields: Registry, inst: Instance) returns (r: Result<Dict<GroupData>>)
    ensures r == TypedValid(table, fields, inst)
  {
    var valid: Dict<GroupData> := [];
    var n := 0;
    while n < |fields|
      invariant 0 <= n <= |fields|
      invariant TypedValid(table, fields[..n], inst) == Success(valid)
    {
      var f := fields[n];
      assert fields[..n + 1][..n] == fields[..n];
      if f.alias.None? {
        n := n + 1;
        continue;
      }
      var alias := f.alias.value;
      if f.name !in inst {
        assert TypedValid(table, fields[..n + 1], inst).Failure?;
        TypedPrefixFailure(table, fields, inst, n + 1);
        return Failure(AttributeMissing(f.name));
      }
      var unit := inst[f.name];
      if unit.None? {
        assert TypedValid(table, fields[..n + 1], inst).Failure?;
        TypedPrefixFailure(table, fields, inst, n + 1);
        return Failure(NoneGroupUnit(f.name));
      }
      if unit.value > 0.0 && alias in GroupIds(table) {
        valid := Put(valid, alias, GroupData(alias, f.name, unit.value, LookupRow(table, alias)));
      }
      n := n + 1;
    }
    assert fields[..n] == fields;
    r := Success(valid);
  }

  /** A failure in a prefix of the fields is the failure of the whole registry. */
  lemma {:induction false} TypedPrefixFailure(table: Table, fields: Registry, inst: Instance, n: nat)
    requires n <= |fields| && TypedValid(table, fields[..n], inst).Failure?
    ensures TypedValid(table, fields, inst) == TypedValid(table, fields[..n], inst)
    decreases |fields| - n
  {
    if n < |fields| {
      assert fields[..n + 1][..n] == fields[..n];
      TypedPrefixFailure(table, fields, inst, n + 1);
    } else {
      assert fields[..n] == fields;
    }
  }

  // ---------------------------------------------------------------- dispatch

  /** The valid groups of an input: the dict path for a `dict`, the registry path over `fields`
      for an instance of an accepted registry class, and no groups for anything else. */
  function CheckSpec(table: Table, fields: Registry, accepted: set<RegistryKind>, input: GroupInput): Result<Dict<GroupData>>
  {
    match input
    case RawCounts(counts) => Success(RawValid(table, counts))
    case Typed(kind, inst) => if kind in accepted then TypedValid(table, fields, inst) else Success([])
    case Unsupported => Success([])
  }

  /** `_check_group_contributions` (both core classes share its body). */
  method CheckGroups(table: Table, fields: Registry, accepted: set<RegistryKind>, input: GroupInput)
    returns (r: Result<Dict<GroupData>>)
    ensures r == CheckSpec(table, fields, accepted, input)
  {
    match input {
      case RawCounts(counts) =>
        var valid := ValidateRaw(table, counts);
        r := Success(valid);
      case Typed(kind, inst) =>
        if kind in accepted {
          r := ValidateTyped(table, fields, inst);
        } else {
          r := Success([]);
        }
      case Unsupported =>
        r := Success([]);
    }
  }

  /** Every entry the check produces is keyed by its own id and carries the row of that id. */
  lemma {:induction false} CheckEntriesConsistent(table: Table, fields: Registry, accepted: set<RegistryKind>, input: GroupInput)
    requires CheckSpec(table, fields, accepted, input).Success?
    ensures forall i :: 0 <= i < |CheckSpec(table, fields, accepted, input).value| ==>
              var (k, g) := CheckSpec(table, fields, accepted, input).value[i];
              g.id == k && g.data == LookupRow(table, k) && k in GroupIds(table)
  {
    match input {
      case RawCounts(counts) => RawEntriesConsistent(table, counts);
      case Typed(kind, inst) => if kind in accepted { TypedEntriesConsistent(table, fields, inst); }
      case Unsupported =>
    }
  }

  predicate EntriesConsistent(table: Table, valid: Dict<GroupData>) {
    forall i :: 0 <= i < |valid| ==> valid[i].1.id == valid[i].0 && valid[i].1.data == LookupRow(table, valid[i].0)
                                     && valid[i].0 in GroupIds(table)
  }

  lemma PutConsistent(table: Table, valid: Dict<GroupData>, k: string, g: GroupData)
    requires EntriesConsistent(table, valid) && g.id == k && g.data == LookupRow(table, k) && k in GroupIds(table)
    ensures EntriesConsistent(table, Put(valid, k, g))
  {
    var r := Put(valid, k, g);
    forall i | 0 <= i < |r| ensures r[i].1.id == r[i].0 && r[i].1.data == LookupRow(table, r[i].0) && r[i].0 in GroupIds(table) {
      assert Keys(r)[i] == r[i].0;
      if r[i].0 == k {
        assert Get(r, k) == Some(r[i].1);
      } else {
        assert HasKey(valid, r[i].0);
        var j := IndexOf(valid, r[i].0);
        assert Get(valid, r[i].0) == Some(valid[j].1);
      }
    }
  }

  lemma {:induction false} RawEntriesConsistent(table: Table, counts: Dict<real>)
    ensures EntriesConsistent(table, RawValid(table, counts))
    decreases |counts|
  {
    if counts != [] {
      var init: Dict<real> := counts[..|counts| - 1];
      RawEntriesConsistent(table, init);
      var (k, v) := counts[|counts| - 1];
      if k in GroupIds(table) {
        PutConsistent(table, RawValid(table, init), k, GroupData(k, k, v, LookupRow(table, k)));
      }
    }
  }

  lemma {:induction false} TypedEntriesConsistent(table: Table, fields: Registry, inst: Instance)
    requires TypedValid(table, fields, inst).Success?
    ensures EntriesConsistent(table, TypedValid(table, fields, inst).value)
    decreases |fields|
  {
    if fields != [] {
      var init := fields[..|fields| - 1];
      TypedEntriesConsistent(table, init, inst);
      var f := fields[|fields| - 1];
      if f.alias.Some? && f.name in inst && inst[f.name].Some? && inst[f.name].value > 0.0 && f.alias.value in GroupIds(table) {
        var a := f.alias.value;
        PutConsistent(table, TypedValid(table, init, inst).value, a, GroupData(a, f.name, inst[f.name].value, LookupRow(table, a)));
      }
    }
  }

  // ---------------------------------------------------------------- column sums

  /** What one group adds to the sum of column `col`: count × value, or nothing when the group's
      row has no value in that column. */
  function Contribution(g: GroupData, col: string): real {
    if col in g.data then g.count * g.data[col] else 0.0
  }

  /** Σ count × value over the groups, in their order. */
  function ColumnSum(groups: seq<(string, GroupData)>, col: string): real
    decreases |groups|
  {
    if groups == [] then 0.0
    else ColumnSum(groups[..|groups| - 1], col) + Contribution(groups[|groups| - 1].1, col)
  }

  /** Sums are additive over groups: the contribution of a set of groups is the sum of the
      contributions of its parts (the group-contribution principle). */
  lemma {:induction false} ColumnSumAppend(xs: seq<(string, GroupData)>, ys: seq<(string, GroupData)>, col: string)
    ensures ColumnSum(xs + ys, col) == ColumnSum(xs, col) + ColumnSum(ys, col)
    decreases |ys|
  {
    if ys != [] {
      var ys' := ys[..|ys| - 1];
      var last := ys[|ys| - 1].1;
      assert (xs + ys)[..|xs + ys| - 1] == xs + ys';
      assert (xs + ys)[|xs + ys| - 1] == ys[|ys| - 1];
      ColumnSumAppend(xs, ys', col);
      assert ColumnSum(xs + ys, col) == ColumnSum(xs + ys', col) + Contribution(last, col);
      assert ColumnSum(ys, col) == ColumnSum(ys', col) + Contribution(last, col);
    } else {
      assert xs + ys == xs;
    }
  }

  /** A column no valid group has a value in sums to 0, whatever the counts. */
  lemma {:induction false} ColumnSumAbsent(groups: seq<(string, GroupData)>, col: string)
    requires forall i :: 0 <= i < |groups| ==> col !in groups[i].1.data
    ensures ColumnSum(groups, col) == 0.0
    decreases |groups|
  {
    if groups != [] {
      ColumnSumAbsent(groups[..|groups| - 1], col);
    }
  }

  /** A single group of `n` copies of a row contributes `n` times the row's value. */
  lemma SingleGroupSum(k: string, g: GroupData, col: string)
    requires col in g.data
    ensures ColumnSum([(k, g)], col) == g.count * g.data[col]
  {
    assert [(k, g)][..0] == [];
  }
}
