# pyThermoEst in Dafny

This project models the estimation core of pyThermoEst, a Python package that estimates
thermodynamic properties of pure compounds. It has four parts:

- **Joback group contribution** (`core/joback.py`). A compound is described by counts of
  structural groups, given either as a plain `{group id: count}` dictionary or as a
  `JobackGroupContributions` registry instance (models/jb.py, 36 fields, each with a group-id
  alias). The counts are checked against the Joback parameter table. The checked groups are
  summed column by column into a sigma record of 13 totals. Ten properties follow from sigma:
  Tf, Tb, Tc, Pc, Vc, the ideal-gas enthalpy and Gibbs energy of formation, the enthalpies of
  fusion and vaporisation, and the Cp coefficients.
- **Zabransky-Ruzicka group contribution** (`core/zabransky_ruzicka.py`). Group validation works
  the same way, with an optional corrections input. The `a[i]`, `b[i]`, `c[i]` sums are taken only
  over groups that carry all three coefficients.
- **Antoine vapour-pressure engine** (`core/antoine.py`).
  - `fit_antoine` converts the units, rejects malformed data, and takes the log of the pressures.
    It then chooses the initial guess and the loss scale, calls a nonlinear least-squares solver,
    and reports the fitted A, B, C with validation warnings.
  - `outlier_report` ranks data points by robust weight and by the size of their standardised
    residual.
  - `calc` evaluates a fitted equation at one temperature.
- **Helpers**:
  - `util/unit_tools.py`: `normalize_unit`.
  - `docs/joback.py` and `docs/zabransky_ruzicka.py`: the registry name and id listings.

Python concepts are modelled as follows:

- An ordered Python `dict` is a sequence of `(key, value)` pairs with distinct keys (`Dicts`).
  Item assignment and `{**a, **b}` are `Put` and `Merge`.
- A parameter table (CSV) is a sequence of rows. Each row has a `Group` cell and a map from
  column names to numbers. A column the table lacks is a key absent from that map, which is
  when `.get(col)` returns `None`. A blank cell reaches the code as NaN, not `None`; it falls
  under the floating-point line of "Left out".
- A pydantic registry is a sequence of `FieldDecl(name, alias)` (`Models`). An instance maps
  field names to `GroupUnit.value` (or `None`).
- Each `try`/`except` that logs and returns `None`/`{}` becomes an `Option` result. Each one that
  raises becomes a `Result` with an `Error`.
- The transcendental functions and numpy reductions that the Antoine engine needs are fields of
  a `Numerics` record passed as a parameter: `log10`, `ln`, `10**x`, `exp`, `sqrt`, `median`, and
  division by zero. Only the laws the proofs use are assumed of them (`SqrtLaw`, `PowerLaws`).
  The least-squares solver is a parameter `solve: Problem -> Solution`. The unit converter of
  `normalize_unit` is a parameter `Converter`.
- The classes that update their own fields keep that form. `JobackEstimator` and
  `ZabranskyRuzickaEstimator` are Dafny classes whose construction can raise, so each has a
  `static method Create` returning a `Result`. Loops in the source are `while` loops proved
  against a specification function: group validation, sigma accumulation, warnings, outlier rows,
  unit normalisation and the registry listings.

Three behaviours of the code are worth stating, because the model follows them:

- `ZabranskyRuzicka._check_group_contributions` ignores its argument. It always re-validates the
  stored contributions against the contribution parameters (core/zabransky_ruzicka.py:248-297).
  So the valid corrections equal the valid contributions whenever corrections are given, and the
  merged dictionary equals the contributions. `ZabranskyRuzicka.CorrectionsMirrorContributions`
  states this.
- `ZabranskyRuzicka._calc` computes sigma and returns an empty dictionary
  (core/zabransky_ruzicka.py:362-368).
- models/jb.py declares 36 Joback group fields, and the model transcribes those 36.

## Model

| member | source | states |
|---|---|---|
| Dicts.Put | pyThermoEst/core/joback.py:209 | Assigning `d[k] = v` makes `k` map to `v` and leaves every other key's value alone. An existing key keeps its position; a new key goes at the end. |
| Dicts.MergeGet | pyThermoEst/core/zabransky_ruzicka.py:64-67 | In `{**a, **b}` a key takes its value from `b` when `b` has it, and from `a` otherwise. |
| Dicts.MergeSelf | pyThermoEst/core/zabransky_ruzicka.py:64-67 | Merging a dictionary with itself gives back the same dictionary, in the same order. |
| Text.Strip | pyThermoEst/core/joback.py:175 | `str.strip()` returns a contiguous middle slice. Only whitespace lies outside the slice, and the slice neither starts nor ends with whitespace. |
| Text.StripBlank | pyThermoEst/util/unit_tools.py:34-39 | A string strips to empty exactly when it consists only of whitespace. |
| Models.Names | pyThermoEst/docs/zabransky_ruzicka.py:47-64 | `list(model_fields.keys())` has one entry per declared field, in declaration order. |
| Models.AliasesAreDeclared | pyThermoEst/docs/zabransky_ruzicka.py:67-91 | The alias listing holds exactly the aliases that some field declares, and it is never longer than the field list. |
| Models.AllAliasedCount | pyThermoEst/docs/zabransky_ruzicka.py:67-91 | When every field declares an alias, the alias listing has one entry per field, position by position. |
| Models.DefaultInstance | pyThermoEst/models/jb.py:24-28 | An instance built with no arguments holds the default `GroupUnit` value in every declared field and has no other fields. |
| Models.Construct | pyThermoEst/models/zr.py:11-13 | Building a registry instance fails exactly when `extra='forbid'` is set and some keyword matches no field's name or alias. Otherwise every field gets its value through its alias, then its name, then its default. |
| Models.EmptyPayloadIsDefault | pyThermoEst/models/jb.py:18-28 | Building an instance from an empty payload gives the all-default instance, whether or not extra keywords are forbidden. |
| Models.JobackRegistryFacts | pyThermoEst/models/jb.py:18-204 | The Joback registry has 36 fields. Every field has an alias, and the names and aliases are each pairwise distinct. |
| GroupValidation.LookupRow | pyThermoEst/core/joback.py:155-182 | Looking up a group returns the data of the first table row whose `Group` equals the stripped name, or `{}` when no row matches. |
| GroupValidation.RawValidGet | pyThermoEst/core/joback.py:195-209 | For dictionary input, a key is kept exactly when it is a `Group` value of the table. A kept key's entry has id and name equal to the key, the given count, and the looked-up row. |
| GroupValidation.RawValidKeys | pyThermoEst/core/joback.py:195-209 | The kept keys of dictionary input appear in their input order. |
| GroupValidation.ValidateRaw | pyThermoEst/core/joback.py:195-209 | The dictionary-input loop computes the raw validation specification. |
| GroupValidation.TypedFailureIff | pyThermoEst/core/joback.py:213-225 | Typed validation raises exactly when some aliased field is missing from the instance or is `None`, where `getattr(...).value` would fail. |
| GroupValidation.TypedValidHasKey | pyThermoEst/core/joback.py:213-239 | On success, a group id is a key of the result exactly when some aliased field with a positive count declares it and the id is in the table. |
| GroupValidation.TypedValidEntry | pyThermoEst/core/joback.py:228-239 | With distinct aliases, each kept field's entry is (alias, field name, count, looked-up row). |
| GroupValidation.TypedNothingPositive | pyThermoEst/core/joback.py:228 | When no field holds a positive count, typed validation keeps nothing. |
| GroupValidation.DefaultInstanceKeepsNothing | pyThermoEst/core/joback.py:228 | An all-default instance validates to the empty dictionary. |
| GroupValidation.ValidateTyped | pyThermoEst/core/joback.py:210-239 | The registry-input loop, including its raising path, computes the typed validation specification. |
| GroupValidation.CheckGroups | pyThermoEst/core/zabransky_ruzicka.py:235-305 | The check dispatches on the input: dictionary input takes the raw path, an accepted registry instance the typed path, and anything else gives `{}`. |
| GroupValidation.CheckEntriesConsistent | pyThermoEst/core/zabransky_ruzicka.py:251-297 | Every validated entry is stored under its own id, that id occurs in the table, and the entry's data is the table row for that id. |
| GroupValidation.RawEntriesConsistent | pyThermoEst/core/joback.py:195-209 | The same consistency holds for every result of the dictionary path. |
| GroupValidation.TypedEntriesConsistent | pyThermoEst/core/joback.py:213-239 | The same consistency holds for every successful result of the registry path. |
| GroupValidation.ColumnSumAppend | pyThermoEst/core/joback.py:277-349 | The sigma total of a column over two runs of groups is the sum of the two totals, so each group contributes independently. |
| GroupValidation.ColumnSumAbsent | pyThermoEst/core/joback.py:283-300 | A column that no group's data contains sums to 0, because the `is not None` guard skips it. |
| GroupValidation.SingleGroupSum | pyThermoEst/core/joback.py:298-300 | A single group contributes its count times its table value. |
| Joback.SigmaStep | pyThermoEst/core/joback.py:277-349 | One loop iteration adds each of the 13 columns of the current group, times its count, to the running sigma. |
| Joback.CriticalTemperature | pyThermoEst/core/joback.py:479-520 | Tc is `None` exactly when Tb is unavailable or the denominator `0.584 + 0.965 S - S^2` is zero. Otherwise Tc times that denominator is Tb, in K. |
| Joback.CriticalPressure | pyThermoEst/core/joback.py:522-555 | Pc is `None` exactly when `0.113 + 0.0032 n - S` is zero, where `0 ** -2` raises. Otherwise Pc is positive and Pc times the square of that base is 1, in bar. |
| Joback.PropertiesOf | pyThermoEst/core/joback.py:353-415 | Only Tc and Pc can be missing, each exactly when its own denominator vanishes. The other eight properties are always present. |
| Joback.PropertiesOfGroups | pyThermoEst/core/joback.py:419-741 | Each property is its additive constant (122.5, 198.2, 17.5, 68.29, 53.88, -0.88, 15.30) plus the column sum over the valid groups. Tc is Tb over its denominator, and the Cp coefficients are the a-d column sums. |
| Joback.NoGroupsGiveConstants | pyThermoEst/core/joback.py:419-741 | With no valid groups, every property is its bare constant and Tc is 198.2/0.584. |
| Joback.SingleGroupBoilingPoint | pyThermoEst/core/joback.py:449-477 | One group gives Tb = 198.2 + count × the group's Tb contribution. |
| Joback.JobackEstimator.constructor | pyThermoEst/core/joback.py:30-49 | The estimator stores its group input, atom count and parameter table, and starts with no valid groups. |
| Joback.JobackEstimator.Create | pyThermoEst/core/joback.py:30-55 | Construction raises exactly when the group check raises. Otherwise the new estimator's valid groups are the checked groups of its input. |
| Joback.JobackEstimator.CheckGroupContributions | pyThermoEst/core/joback.py:184-247 | Checks the stored input against the Joback table with the Joback registry, accepting only Joback instances. |
| Joback.JobackEstimator.CalcSigma | pyThermoEst/core/joback.py:250-349 | The accumulation loop over the valid groups gives the 13 column sums. |
| Joback.JobackEstimator.Calc | pyThermoEst/core/joback.py:353-415 | The properties are the ten property functions applied to the sigma of the valid groups. |
| Joback.JobackTypedEntries | pyThermoEst/core/joback.py:227-239 | For a Joback instance, each field with a positive count whose alias is in the table is stored under that alias as (alias, field name, count, row). |
| Joback.DefaultJobackInstanceHasNoGroups | pyThermoEst/core/joback.py:224-239 | A default-constructed `JobackGroupContributions` validates to no groups. |
| ZabranskyRuzicka.CorrectionsMirrorContributions | pyThermoEst/core/zabransky_ruzicka.py:58-67 | Construction fails exactly when validating the contributions fails. The valid corrections equal the valid contributions when corrections are given and are `{}` otherwise, and the merged dictionary equals the valid contributions. |
| ZabranskyRuzicka.SigmaIsSumOverCompleteGroups | pyThermoEst/core/zabransky_ruzicka.py:317-345 | Sigma is the column sum of `a[i]`, `b[i]`, `c[i]` over exactly those groups that carry all three coefficients. |
| ZabranskyRuzicka.IncompleteGroupAddsNothing | pyThermoEst/core/zabransky_ruzicka.py:335-343 | A group missing any of the three coefficients leaves sigma unchanged. |
| ZabranskyRuzicka.ZabranskyRuzickaEstimator.constructor | pyThermoEst/core/zabransky_ruzicka.py:30-52 | The estimator stores its inputs and tables and starts with no valid groups. |
| ZabranskyRuzicka.ZabranskyRuzickaEstimator.Create | pyThermoEst/core/zabransky_ruzicka.py:30-67 | Construction raises exactly when validation raises. Otherwise the three stored dictionaries are the validated contributions, the validated corrections and their merge. |
| ZabranskyRuzicka.ZabranskyRuzickaEstimator.CheckGroupContributions | pyThermoEst/core/zabransky_ruzicka.py:235-305 | Whatever argument it is given, the check validates the stored contributions against the contribution parameters. |
| ZabranskyRuzicka.ZabranskyRuzickaEstimator.CalcSigma | pyThermoEst/core/zabransky_ruzicka.py:307-347 | The loop over the merged valid groups gives the complete-group sums. |
| ZabranskyRuzicka.ZabranskyRuzickaEstimator.Calc | pyThermoEst/core/zabransky_ruzicka.py:349-370 | The properties dictionary is empty. |
| Sorting.InsertSorted | pyThermoEst/core/antoine.py:455 | Inserting an index into a key-sorted order keeps it sorted. |
| Sorting.InsertDistinct | pyThermoEst/core/antoine.py:455 | Inserting a new index keeps the order free of repeats. |
| Sorting.InsertStable | pyThermoEst/core/antoine.py:455 | Inserting an index larger than all present keeps equal keys in index order. |
| Sorting.Argsort | pyThermoEst/core/antoine.py:287 | `np.argsort` returns a permutation of the indices that lists the keys in non-decreasing order. Among equal keys the model picks index order, which numpy does not promise. |
| Sorting.ResortedPermutation | pyThermoEst/core/antoine.py:458 | Re-sorting a permutation by a second key gives a permutation sorted by that key. |
| Sorting.ReverseDescending | pyThermoEst/core/antoine.py:458 | Reversing an ascending permutation (`[::-1]`) gives a permutation in non-increasing key order. |
| Vectors.MinShift | pyThermoEst/core/antoine.py:196-198 | `min(T + c) == min(T) + c`. |
| Antoine.PressureFactor | pyThermoEst/core/antoine.py:133-145 | Every recognised pressure unit has a positive factor to Pa. |
| Antoine.UnitNamesIgnoreCase | pyThermoEst/core/antoine.py:118-145 | Temperature and pressure unit names are matched case-insensitively. |
| Antoine.LenientKelvinOffset | pyThermoEst/core/antoine.py:407-410 | In the outlier report, a Celsius spelling adds 273.15 and anything else is taken as kelvin. |
| Antoine.LenientPressureFactor | pyThermoEst/core/antoine.py:412-423 | In the outlier report, a known unit uses its factor and anything else is taken as Pa, so the factor is positive. |
| Antoine.BaseNameRoundTrip | pyThermoEst/core/antoine.py:153-159 | The stored base name is parsed back to the same logarithm base. |
| Antoine.RejectedPressures | pyThermoEst/core/antoine.py:148-150 | A converted pressure is rejected as non-positive exactly when the input pressure is non-positive. |
| Antoine.Weights | pyThermoEst/core/antoine.py:162-171 | Without weights every residual weight is 1. With weights, each is the non-negative square root of the weight clipped at 0. |
| Antoine.DefaultC0 | pyThermoEst/core/antoine.py:194-198 | C0 stays -50 exactly when `min(T) - 50` clears the margin or `min(T)` is 60. Otherwise C0 moves to `10 - min(T)`, so that `min(T + C0)` is 10. |
| Antoine.DefaultB0 | pyThermoEst/core/antoine.py:203-212 | B0 is always above 1e-6. It is the slope-based guess when that guess exceeds 1e-6, and 2000 otherwise. |
| Antoine.DefaultFScale | pyThermoEst/core/antoine.py:225-230 | The loss scale is positive. It is 1 for the linear loss, 0.02 in log space, and otherwise `max(1, 0.02 × median P)`. |
| Antoine.WarningsOrdered | pyThermoEst/core/antoine.py:278-297 | Warnings appear in the fixed order: risky margin, non-monotonic, small B, large B. |
| Antoine.WarningsMembership | pyThermoEst/core/antoine.py:278-297 | Each warning is present exactly when its check fires, and there is one warning per firing check. |
| Antoine.AtMostThreeWarnings | pyThermoEst/core/antoine.py:292-297 | At most three warnings are issued, because B cannot be both below 10 and above 1e6. |
| Antoine.ValidationWarnings | pyThermoEst/core/antoine.py:278-297 | The warning block computes the warning list of the fitted curve. |
| Antoine.ToKelvin | pyThermoEst/core/antoine.py:123-130 | An unknown temperature unit is rejected. Otherwise the temperatures are shifted by the unit's offset. |
| Antoine.ToPascal | pyThermoEst/core/antoine.py:132-150 | Conversion fails exactly for an unknown unit or a non-positive pressure. Otherwise the pressures are scaled to Pa and are all positive. |
| Antoine.Prepare | pyThermoEst/core/antoine.py:108-171 | Preparation returns `{}` exactly on a size mismatch, fewer than 3 points, a bad unit, a non-positive pressure, a bad base or a weights-length mismatch. Otherwise it yields the converted data, its logarithm and the weights. |
| Antoine.GuessC0 | pyThermoEst/core/antoine.py:194-198 | The margin test computes the default C0. |
| Antoine.GuessFault | pyThermoEst/core/antoine.py:203-206 | Computing the default B0 fails exactly when some temperature is 0 K or `mean(T)` is 0. A 0 K temperature makes `np.polyfit` on 1/T fail with `LinAlgError`, before the mean is reached. Otherwise a zero mean raises `ZeroDivisionError`. |
| Antoine.GuessB0 | pyThermoEst/core/antoine.py:203-212 | The B0 guess raises exactly when some temperature is 0 K or `mean(T)` is 0, with the error `GuessFault` names. Otherwise it is the default B0. |
| Antoine.InitialGuess | pyThermoEst/core/antoine.py:193-218 | A given `x0` is used as is. Otherwise it raises exactly when the B0 guess does, with the same error, and else it is (mean y, B0, C0). |
| Antoine.ChooseFScale | pyThermoEst/core/antoine.py:224-230 | A given `f_scale` wins. Otherwise the default loss scale is used. |
| Antoine.FitAntoine | pyThermoEst/core/antoine.py:108-323 | The fit returns `{}` exactly on rejected input. When no `x0` is given, it raises exactly what the B0 guess raises on `T_K`: `LinAlgError` for a temperature of 0 K, else `ZeroDivisionError` for a zero mean. Otherwise it raises the `ValueError` of `least_squares` exactly when the lower-cased loss is not implemented, `max_nfev` is not positive, some lower bound is not below its upper bound, or the starting point lies outside the bounds. In every other case it poses the least-squares problem and reports A, B, C, the warnings and the data range from the solver's answer. |
| Antoine.SolverFault | pyThermoEst/core/antoine.py:233-240 | `least_squares` goes ahead exactly when the loss is implemented, `max_nfev` is positive, every lower bound is below its upper bound, and the starting point is within the bounds. An unknown loss is reported first, and an infeasible start is reported once the other checks pass. |
| Antoine.DefaultSolverSettings | pyThermoEst/core/antoine.py:221-240 | The default bounds are ordered. So with the default loss, `max_nfev` and bounds, the fit raises from the solver exactly for a starting point outside the default bounds. |
| Antoine.ZeroStartIsInfeasible | pyThermoEst/core/antoine.py:221-240 | With the defaults, the starting point (0, 0, 0) is refused, because B = 0 lies below the lower bound 1e-6. |
| Antoine.RobustWeightBounds | pyThermoEst/core/antoine.py:342-356 | Every robust weight lies in (0, 1]. |
| Antoine.RobustWeightMonotone | pyThermoEst/core/antoine.py:342-356 | A larger standardised residual never gets a larger weight. |
| Antoine.RobustWeightOfMagnitude | pyThermoEst/core/antoine.py:342-356 | The weight depends only on the residual's magnitude. |
| Antoine.PointAt | pyThermoEst/core/antoine.py:431-452 | A report row carries the point's index, T and P, and the fitted P. Its residual is the fitted log minus the log of the measured pressure in the log domain, and the fitted minus the measured pressure in Pa in the P domain. Its standardised residual is residual / f_scale, or 0 when f_scale ≤ 0, and its weight is the robust weight of that standardised residual. |
| Antoine.Ranking | pyThermoEst/core/antoine.py:455-458 | The two-pass ordering is a permutation of the points with non-increasing residual magnitude. Among equal magnitudes the model fixes one order (see Left out). |
| Antoine.TopCount | pyThermoEst/core/antoine.py:459 | The row count is `len(order[:min(top_n, n)])`, including Python's negative-index slice. |
| Antoine.TakeRows | pyThermoEst/core/antoine.py:461-474 | The rows are the points at the first `count` positions of the ranking. |
| Antoine.RankingPrefixIsRanked | pyThermoEst/core/antoine.py:454-474 | A prefix of the ranking has distinct indices, non-increasing residual magnitudes and non-decreasing robust weights. |
| Antoine.OutlierReport | pyThermoEst/core/antoine.py:402-474 | The report raises `KeyError` naming the first missing coefficient among A, B, C. An unknown residual domain gives `[]`. Otherwise it returns the top rows of the ranking of all points. |
| Antoine.Calc | pyThermoEst/core/antoine.py:597-623 | A result exists exactly when the unit and base are known and `T_K + C` is non-zero. The temperature is in kelvin, and the pressure is positive with log(P) = A - B/(T + C). |
| Antoine.CalcCelsiusIsShiftedKelvin | pyThermoEst/core/antoine.py:598-601 | Evaluating at t °C equals evaluating at t + 273.15 K. |
| Antoine.CalcMatchesFittedCurve | pyThermoEst/core/antoine.py:246-250 | `calc` at a data temperature reproduces the fit's predicted pressure at that point. |
| UnitTools.ConvertItem | pyThermoEst/util/unit_tools.py:52-79 | An item contributes exactly when it has value and unit, its unit passes `valid_from`, and the conversion succeeds. It then contributes the converted value. |
| UnitTools.NormalizeUnit | pyThermoEst/util/unit_tools.py:10-87 | The result is `{}` exactly for a blank target unit or empty data. Otherwise it holds the stripped unit and the converted surviving items. |
| UnitTools.NormalizeItems | pyThermoEst/util/unit_tools.py:47-79 | The loop, with its three `continue` skips, computes the converted survivors. |
| UnitTools.ConvertedAreSurvivorsInOrder | pyThermoEst/util/unit_tools.py:50-84 | The output lists exactly the surviving items' conversions, in input order. |
| UnitTools.ConvertedLength | pyThermoEst/util/unit_tools.py:47-84 | The output is never longer than the input, and it has the same length exactly when no item is skipped. |
| UnitTools.ConvertedAppend | pyThermoEst/util/unit_tools.py:50-79 | Items are handled independently: normalising a concatenation concatenates the results. |
| UnitTools.SkippedItemDropsOnlyItself | pyThermoEst/util/unit_tools.py:55-79 | A skipped item removes only itself from the output. |
| UnitTools.EmptyAllowListIsNoRestriction | pyThermoEst/util/unit_tools.py:61-66 | An empty `valid_from` restricts no more than `None`. |
| Docs.RegistryInfo | pyThermoEst/docs/zabransky_ruzicka.py:14-44 | The info walk returns every field name in order and exactly the declared aliases. When every field is aliased, names and ids pair up position by position. |
| Docs.RegistryIds | pyThermoEst/docs/zabransky_ruzicka.py:67-91 | The ids walk returns exactly the declared aliases, in order. |
| Docs.JobackGroupContributionInfo | pyThermoEst/docs/joback.py:12-41 | Returns the 36 Joback field names and their 36 aliases, paired. |
| Docs.JobackGroupContributionNames | pyThermoEst/docs/joback.py:43-58 | Returns the 36 Joback field names in declaration order, all distinct. |
| Docs.JobackGroupContributionIds | pyThermoEst/docs/joback.py:60-76 | Returns the 36 Joback group ids, all distinct. |
| Docs.WellFormedIdsPairWithNames | pyThermoEst/docs/zabransky_ruzicka.py:141-171 | For a fully aliased registry with distinct aliases, the ids and names listings have equal length and pair up. |

## Left out

- Parameter files: `load_joback_parameters`, `load_parameters` and the CSV reading are left out. Each parameter table is an argument.
- Zabransky-Ruzicka registries: the 353 fields of models/zr.py are not transcribed. The registry is a parameter with the structural properties models/zr.py gives it: every field aliased, aliases distinct. That the correction aliases do not occur among the contribution aliases (models/zr.py:649-728) is not modelled either: no behaviour of the core depends on it, because the Zabransky-Ruzicka check never consults the corrections.
- Logging, `__repr__`, `group_contribution_idx`, `list_available_groups` and `_get_group_contribution` are left out. Logging has no effect on results, and the others only format or re-export the table's `Group` column, which `GroupIds` models.
- Joback heat capacity: the `JobackHeatCapacity` Cp(T) polynomial object is kept as its four coefficients.
- Floating point: NaN, infinities, rounding and overflow are not modelled. Reals are exact. `10 ** logP` raising `OverflowError` in `calc` is therefore not modelled.
- Antoine.FitAntoine: the least-squares solver, the Jacobian-based covariance and the error metrics (RMSE, MAE, R²) are not modelled. The solver is a parameter, and the metrics are floating-point reductions reported as given.
- Antoine.FitAntoine: `least_squares` also raises `ValueError` when the residuals at the starting point are not finite, for example when some `T_K + C0` is 0 or `10 ** x` overflows. Infinities are not modelled, so the model does not raise in that case.
- Antoine: warning and error message texts are not modelled. Only which warnings fire, and in what order, is.
- Antoine.OutlierReport: requires data sequences of equal length. numpy broadcasting and its `ValueError` on mismatched lengths are not modelled.
- Antoine.Ranking: `np.argsort` promises no order among equal keys, at any length. Builds that use SIMD sorting networks can order ties differently. The model picks the stable order (ties in index order), so the report rows for points with equal weights or equal `|z|` may come out in a different order in the program. `Sorting.Argsort` carries the same choice.
- Antoine.RobustWeight, Antoine.KelvinOffset and Antoine.BaseOf carry no `ensures` of their own. Their properties are stated as lemmas in the table above.
- Joback.NoGroupsGiveConstants: states only that Pc is defined, because its value depends on the atom count.
- Joback: the `KeyError` branches of the property formulas cannot be reached, because sigma always has all 13 keys.
- Strings: `str.strip` is modelled for the ASCII characters `str.isspace` accepts: space, `\t`, `\n`, `\r`, `\v`, `\f` and the separators 0x1C-0x1F. Non-ASCII whitespace such as U+0085, U+00A0 and U+2000-U+200A is not modelled. `str.lower` is modelled for ASCII letters only.
- Models.Construct: pydantic's type coercion and the rest of its validation are not modelled. Only keyword resolution and `extra='forbid'` are.
- UnitTools: the unit converter (`pycuc.convert_from_to`) is a parameter. A non-list `data` argument is modelled as `None`, and the outer `except` cannot be reached once the converter's failures are values.
- Docs: the `except` branches returning empty lists cannot be reached for declared registries. The Zabransky-Ruzicka correction listings are the same walks as `Docs.RegistryInfo` and `Docs.RegistryIds`, applied to the corrections registry.
- docs/antoine.py, the examples and the application layer are outside this model.
