/** util/unit_tools.py: `normalize_unit`, which converts a list of quantities to one target unit,
    skipping (not failing on) items that are malformed, whose unit is not allowed, or whose
    conversion fails. The unit converter itself (`pycuc.convert_from_to`) is a parameter. */
module UnitTools {
  import opened Wrappers
  import opened Text

  /** `pycuc.convert_from_to(value, from_unit, to_unit)`: the converted value, or `None` when the
      call raises. */
  type Converter = (real, string, string) -> Option<real>

  /** An element of the input list: an object with `value` and `unit` attributes, or anything else. */
  datatype Item = Quantity(value: real, unit: string) | Malformed

  /** The `{"data": ..., "to": ...}` mapping returned on success. */
  datatype Normalized = Normalized(data: seq<real>, to: string)

  /** Whether `valid_from` lets a unit through: a `None` or empty list restricts nothing. */
  predicate Admits(validFrom: Option<seq<string>>, unit: string) {
    validFrom.None? || validFrom.value == [] || unit in validFrom.value
  }

  /** What one item contributes to the output: its converted value, or nothing when it is skipped. */
  function ConvertItem(convert: Converter, item: Item, to: string, validFrom: Option<seq<string>>): (r: Option<real>)
    ensures r.Some? <==> item.Quantity? && Admits(validFrom, item.unit) && convert(item.value, item.unit, to).Some?
    ensures r.Some? ==> r == convert(item.value, item.unit, to)
  {
    if item.Malformed? then None
    else if !Admits(validFrom, item.unit) then None
    else convert(item.value, item.unit, to)
  }

  /** The converted values of the surviving items, in input order. */
  function Converted(convert: Converter, items: seq<Item>, to: string, validFrom: Option<seq<string>>): seq<real>
    decreases |items|
  {
    if items == [] then []
    else
      var init := Converted(convert, items[..|items| - 1], to, validFrom);
      match ConvertItem(convert, items[|items| - 1], to, validFrom)
      case Some(v) => init + [v]
      case None => init
  }

  /** The positions of the surviving items, in input order. */
  function Survivors(convert: Converter, items: seq<Item>, to: string, validFrom: Option<seq<string>>): seq<nat>
    decreases |items|
  {
    if items == [] then []
    else
      var init := Survivors(convert, items[..|items| - 1], to, validFrom);
      if ConvertItem(convert, items[|items| - 1], to, validFrom).Some? then init + [|items| - 1] else init
  }

  /** `normalize_unit`: `None` (the empty mapping) for a blank target unit and for empty or non-list
      data (`data == None` stands for a non-list); otherwise the stripped target unit and the
      converted values of the surviving items. */
  method NormalizeUnit(convert: Converter, data: Option<seq<Item>>, toUnit: string, validFrom: Option<seq<string>>)
    returns (r: Option<Normalized>)
    ensures r.None? <==> Strip(toUnit) == [] || data.None? || data.value == []
    ensures r.Some? ==> r.value.to == Strip(toUnit)
    ensures r.Some? ==> r.value.data == Converted(convert, data.value, Strip(toUnit), validFrom)
  {
    var to := Strip(toUnit);
    if to == [] {
      return None;
    }
    if data.None? || data.value == [] {
      return None;
    }
    var normalized := NormalizeItems(convert, data.value, to, validFrom);
    return Some(Normalized(normalized, to));
  }

  /** The loop of `normalize_unit`: each item is skipped when it lacks `value`/`unit`, when its
      unit is not admitted, or when its conversion raises; otherwise its converted value is appended. */
  method NormalizeItems(convert: Converter, items: seq<Item>, to: string, validFrom: Option<seq<string>>)
    returns (normalized: seq<real>)
    ensures normalized == Converted(convert, items, to, validFrom)
  {
    normalized := [];
    var i := 0;
    while i < |items|
      invariant 0 <= i <= |items|
      invariant normalized == Converted(convert, items[..i], to, validFrom)
    {
      assert items[..i + 1][..i] == items[..i];
      var item := items[i];
      i := i + 1;
      if item.Malformed? {
        continue;
      }
      if validFrom.Some? && validFrom.value != [] && item.unit !in validFrom.value {
        continue;
      }
      var converted := convert(item.value, item.unit, to);
      if converted.None? {
        continue;
      }
      normalized := normalized + [converted.value];
    }
    assert items[..|items|] == items;
  }

  /** The output lists exactly the surviving items' converted values, in input order: entry `k` is
      the conversion of item `Survivors[k]`, the positions strictly increase, and an item's position
      appears iff that item survives. */
  lemma {:induction false} ConvertedAreSurvivorsInOrder(convert: Converter, items: seq<Item>, to: string, validFrom: Option<seq<string>>)
    ensures var out := Converted(convert, items, to, validFrom);
            var pos := Survivors(convert, items, to, validFrom);
            && |pos| == |out|
            && (forall k :: 0 <= k < |pos| ==> pos[k] < |items| && ConvertItem(convert, items[pos[k]], to, validFrom) == Some(out[k]))
            && (forall k, l :: 0 <= k < l < |pos| ==> pos[k] < pos[l])
            && (forall i :: 0 <= i < |items| ==> (i in pos <==> ConvertItem(convert, items[i], to, validFrom).Some?))
    decreases |items|
  {
    if items != [] {
      var init := items[..|items| - 1];
      ConvertedAreSurvivorsInOrder(convert, init, to, validFrom);
      assert forall i :: 0 <= i < |init| ==> init[i] == items[i];
    }
  }

  /** The output is never longer than the input, and as long exactly when no item is skipped. */
  lemma {:induction false} ConvertedLength(convert: Converter, items: seq<Item>, to: string, validFrom: Option<seq<string>>)
    ensures |Converted(convert, items, to, validFrom)| <= |items|
    ensures |Converted(convert, items, to, validFrom)| == |items| <==>
              forall i :: 0 <= i < |items| ==> ConvertItem(convert, items[i], to, validFrom).Some?
    decreases |items|
  {
    if items != [] {
      var init := items[..|items| - 1];
      ConvertedLength(convert, init, to, validFrom);
      assert forall i :: 0 <= i < |init| ==> init[i] == items[i];
    }
  }

  /** Items are handled independently: converting a concatenation concatenates the conversions. */
  lemma {:induction false} ConvertedAppend(convert: Converter, xs: seq<Item>, ys: seq<Item>, to: string, validFrom: Option<seq<string>>)
    ensures Converted(convert, xs + ys, to, validFrom) == Converted(convert, xs, to, validFrom) + Converted(convert, ys, to, validFrom)
    decreases |ys|
  {
    if ys != [] {
      var init := ys[..|ys| - 1];
      assert (xs + ys)[..|xs + ys| - 1] == xs + init;
      ConvertedAppend(convert, xs, init, to, validFrom);
    } else {
      assert xs + ys == xs;
    }
  }

  /** A skipped item (malformed, not admitted, or failing to convert) drops only itself. */
  lemma SkippedItemDropsOnlyItself(convert: Converter, xs: seq<Item>, bad: Item, ys: seq<Item>, to: string, validFrom: Option<seq<string>>)
    requires ConvertItem(convert, bad, to, validFrom).None?
    ensures Converted(convert, xs + [bad] + ys, to, validFrom) == Converted(convert, xs, to, validFrom) + Converted(convert, ys, to, validFrom)
  {
    ConvertedAppend(convert, xs + [bad], ys, to, validFrom);
    assert (xs + [bad])[..|xs + [bad]| - 1] == xs;
  }

  /** An empty `valid_from` list restricts no more than `None`. */
  lemma {:induction false} EmptyAllowListIsNoRestriction(convert: Converter, items: seq<Item>, to: string)
    ensures Converted(convert, items, to, Some([])) == Converted(convert, items, to, None)
    decreases |items|
  {
    if items != [] {
      EmptyAllowListIsNoRestriction(convert, items[..|items| - 1], to);
    }
  }
}
