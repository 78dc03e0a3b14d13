# Resource accounting of HTCondor job logs, in Dafny

This project models `htcanalyze/resource.py`, the part of htcanalyze that
accounts for the resources of HTCondor jobs. Each job reports resources
(`Cpus`, `Disk`, `Memory`, …), and each resource carries a usage, an amount
requested and an amount allocated. The module does four things:

- **Classification** (`Resource.chg_lvl_on_threholds`) gives a resource one
  of four warning levels, by comparing usage/requested against two closed
  bands around 1.
- **Colour lookup** (`Resource.get_color`) maps a level to its display colour,
  with `""` as the default.
- **Aggregation** (`create_avg_on_resources`) runs over the resource lists of
  many jobs. It sums the usage, requested and allocated amounts per resource
  name into fresh accumulator objects, in the order names are first seen.
- **Conversion** between the columnar dictionary parsed from a log and a list
  of records (`refactor_resources`), and back to the four display columns
  (`refactor_to_dict`).

Files, one module each:

- `numbers.dfy` (`Numbers`) holds floats as `Val(real) | NaN`, following
  Python's rules. A comparison with NaN is false, NaN absorbs `+` and `/`,
  and `NaN != 0` holds. It also defines `Option` and `Result`.
- `resource.dfy` (`Resources`) holds the level names and the colour table.
  - `Classify` is the decision table, specified by an ensures table.
  - The class `Resource` has the fields of the Python object.
    `ChgLvlOnThresholds` is a method that updates `warningLevel` in place.
- `aggregation.dfy` (`Aggregation`) specifies aggregation as a fold,
  `Aggregate`, over the concatenated records of all jobs.
  - `Totals` is an independent reference definition: per-name sums over every
    occurrence.
  - Lemmas connect the two: one record per distinct name, first-seen order,
    sums, reordering and doubling.
  - `CreateAvgOnResources` is the imperative method over `Resource` objects.
    It keeps a `map<string, Resource>` cache and the cache's insertion order,
    and is proved to return fresh objects whose values are exactly
    `Aggregate` of the input.
- `conversion.dfy` (`Conversion`) models the columnar dictionaries as an
  ordered sequence of (key, column) entries, as a Python dict is.
  - Lower-casing of keys is a fold in which the last entry with a given
    lower-cased key wins.
  - `ToRows` models the renaming, the `zip` transposition and the keyword
    construction, including the KeyError and TypeError paths.
  - Round-trip lemmas cover both directions.

In these places the model follows the code rather than what its names or docstrings suggest:

- Aggregation computes sums, not means, whatever its name says.
- A NaN request counts as a non-zero request. The deviation is then NaN, which
  lies in no band, so a numeric usage is classified as `error`.
- `zip` truncates to the shortest column, so no equal-length precondition is
  imposed.
- The constructor's optional `warning_level` argument means a
  `warning_level` column is accepted as well. Its text becomes each record's
  level.
- The field `allocated` is named `allocation` in the Dafny model, because
  `allocated` is a reserved word in Dafny.

## Model

| member | source | states |
|---|---|---|
| Numbers.Add | htcanalyze/resource.py:86-88 | float `+` on possibly-NaN values: NaN exactly when an operand is NaN, otherwise the real sum |
| Numbers.Div | htcanalyze/resource.py:56 | float `/` for a non-zero divisor: NaN exactly when an operand is NaN, otherwise the quotient (q·b = a) |
| Resources.Color | htcanalyze/resource.py:12-31 | the colour is non-empty exactly for the four levels, and is the table's colour for them; unset or unknown levels give "" |
| Resources.Resource.GetColor | htcanalyze/resource.py:29-31 | the colour of the object's level is non-empty exactly when the level is one of the four |
| Resources.Classify | htcanalyze/resource.py:53-69 | the decision table: light warning for NaN usage with a non-zero request; with numbers, error exactly outside the closed bad band, then warning exactly outside the closed tolerated band, else normal; a NaN request with numeric usage is an error; with a zero request, error exactly for positive usage and normal otherwise, including NaN |
| Resources.Resource.ChgLvlOnThresholds | htcanalyze/resource.py:53-69 | the if/elif chain sets the level to Classify of the fields, always one of the four levels, and leaves name, usage, requested and allocated unchanged |
| Resources.Resource.constructor | htcanalyze/resource.py:15-27 | the new object holds the given fields, with no warning level by default |
| Resources.TighterToleranceOnlyWarnsMore | htcanalyze/resource.py:62-65 | with everything else fixed, shrinking the tolerated fraction can turn normal into warning but never warning into normal, and leaves error and light warning unchanged |
| Resources.ClassifiedHasColor | htcanalyze/resource.py:53-69 | every level the rule assigns has a non-empty colour |
| Resources.BoundaryIsInsideBadBand | htcanalyze/resource.py:60-65 | the bands are closed: for any non-zero request and bad ≥ 0, a usage/requested ratio of exactly 1 − bad is a warning, not an error, whenever tolerated < bad; a ratio of exactly 1 is normal whenever tolerated ≥ 0 |
| Resources.HalfUsageIsWarning | htcanalyze/resource.py:60-65 | with bad 0.5 and tolerated 0.1, using 500 of 1000 requested is a warning |
| Resources.Unclassified | htcanalyze/resource.py:91-94 | the record with its level reset and everything else kept, as a newly constructed accumulator is |
| Resources.Resource.Snapshot | htcanalyze/resource.py:33-36 | the object's five instance fields as a record; the class attribute level_colors is not among them |
| Aggregation.AddInto | htcanalyze/resource.py:86-88 | adding a record to an accumulator keeps the accumulator's name and level and adds usage, requested and allocated pairwise |
| Aggregation.AbsorbKeepsOthers | htcanalyze/resource.py:85-94 | one record entering the accumulated list (Absorb) adds an accumulator only for a new name and leaves every accumulator of another name as it was |
| Aggregation.AbsorbNames | htcanalyze/resource.py:85-94 | after Absorb the names keep their order: a known name adds nothing, a new name is appended at the end |
| Aggregation.AggregateNoLonger | htcanalyze/resource.py:80-94 | the fold of Absorb over all records (Aggregate) never has more accumulators than there are records |
| Aggregation.FirstIndex | htcanalyze/resource.py:85-88 | the position of the cache entry for a name: the first position holding it |
| Aggregation.AggregateNameSet | htcanalyze/resource.py:80-97 | the result has one record per distinct input name and no other names |
| Aggregation.AggregateOrder | htcanalyze/resource.py:80-97 | the result lists names in the order they are first seen, across jobs and within a job |
| Aggregation.AggregateTotals | htcanalyze/resource.py:85-94 | each result record's usage, requested and allocated are the sums over every occurrence of its name, repeats inside one job included; its level is unset |
| Aggregation.AggregateCorrect | htcanalyze/resource.py:72-97 | the four facts above together: distinct names, the same name set, first-seen order, totals per name |
| Aggregation.TotalPermutation | htcanalyze/resource.py:86-88 | a per-name sum does not depend on the order of the records |
| Aggregation.AggregateOrderIndependent | htcanalyze/resource.py:72-97 | reordering the input records changes only the order of the output records, not the records themselves |
| Aggregation.AggregateTwiceDoubles | htcanalyze/resource.py:85-94 | aggregating the records twice gives the same names in the same order, each quantity the sum of the single aggregation with itself |
| Aggregation.AbsorbKnownKeepsNames | htcanalyze/resource.py:85-88 | records whose names were seen already add no output record |
| Aggregation.EmptyJobsGiveNothing | htcanalyze/resource.py:80-97 | an empty job list, or jobs without records, gives an empty result |
| Aggregation.ValuesInOrder | htcanalyze/resource.py:97 | list(res_cache.values()): one value per key, the value of key p at position p |
| Aggregation.CacheValues | htcanalyze/resource.py:97 | the values of the cache in insertion order are distinct objects whose values are the accumulated records |
| Aggregation.AddKnown | htcanalyze/resource.py:85-88 | the in-place `+=` on a cached accumulator: the cache afterwards holds the accumulated list with AddInto applied at the record's position, and the input object is not changed |
| Aggregation.InsertNew | htcanalyze/resource.py:90-94 | a new name: the cache gains one fresh accumulator, the record with its level reset, appended last in key order |
| Aggregation.AddToCache | htcanalyze/resource.py:85-94 | one record enters the cache: the cache afterwards holds Absorb of the record, the input object is not changed, and every new cache value is a fresh object |
| Aggregation.AddJobToCache | htcanalyze/resource.py:83-94 | the inner loop over one job's records: the cache afterwards holds the aggregation of everything seen so far plus that job's records |
| Aggregation.BuildCache | htcanalyze/resource.py:80-94 | the outer loop over the jobs: the cache afterwards holds fresh accumulators whose values are Aggregate of all records concatenated |
| Aggregation.CreateAvgOnResources | htcanalyze/resource.py:72-97 | the returned objects are fresh and pairwise distinct, and their values are exactly Aggregate of all the jobs' records concatenated; no input object changes |
| Conversion.Lower | htcanalyze/resource.py:102 | lower-casing keeps the length and lower-cases each ASCII letter |
| Conversion.LowerKeepsLowerCase | htcanalyze/resource.py:102 | a key without upper-case ASCII letters is left unchanged |
| Conversion.LowerIdempotent | htcanalyze/resource.py:102 | lower-casing an already lower-cased key changes nothing |
| Conversion.Lowered | htcanalyze/resource.py:102 | the dict comprehension over lower-cased keys: every input key's lower-cased form is a key of the result |
| Conversion.LoweredKeys | htcanalyze/resource.py:102 | the lower-cased dictionary has exactly the lower-cased input keys |
| Conversion.LoweredLastWins | htcanalyze/resource.py:102 | under each lower-cased key is the column of the last input entry with that key |
| Conversion.Rows | htcanalyze/resource.py:104-105 | zip: as many rows as the shortest column has, and row i holds entry i of each column, with the level column when there is one |
| Conversion.ToRowsErrors | htcanalyze/resource.py:103-105 | KeyError exactly when no key lower-cases to "resources"; TypeError exactly when the renamed keys are not the constructor's arguments and every column has a row; no rows and no error when such keys come with an empty column |
| Conversion.ToRowsRows | htcanalyze/resource.py:103-105 | with accepted keys, row i takes its name from the "resources" column, each quantity from its own column and the level from the warning_level column or None; the row count is the shortest column's length |
| Conversion.ToRows | htcanalyze/resource.py:103-105 | without a warning_level column every constructed record has no level; its error cases and its rows are stated by ToRowsErrors and ToRowsRows |
| Conversion.RefactorResources | htcanalyze/resource.py:100-106 | the whole conversion: KeyError exactly when no input key lower-cases to "resources"; without a key lower-casing to warning_level every record comes out with no level |
| Conversion.RefactorResourcesAnyCase | htcanalyze/resource.py:100-106 | a column whose key matches a field name in any letter case, and that no later column with the same lower-cased key replaces, is the column that field is read from |
| Conversion.RefactorToDict | htcanalyze/resource.py:109-117 | exactly the columns Resources, Usage, Requested and Allocated in that order, each of length len(resources); entry i comes from record i, and the usage is tagged with record i's colour |
| Conversion.Strip | htcanalyze/resource.py:112-113 | removing colour tags gives the column of usages the tags wrap |
| Conversion.StripColors | htcanalyze/resource.py:112-113 | removing colour tags entry by entry keeps the keys and order |
| Conversion.RecordsRoundTrip | htcanalyze/resource.py:100-117 | records to display columns and back (colour tags removed) is a valid conversion that recovers every record in order, with name, usage, requested and allocated intact and the level reset |
| Conversion.ColumnsRoundTrip | htcanalyze/resource.py:103-117 | equal-length resources/usage/requested/allocated columns, turned into records and back to display columns, reappear unchanged in display order under the display names |

## Left out

- Console output is not modelled: `from rich import print as rprint` and `print(res_cache)`.
- `__repr__` and `__str__` are not modelled. They only build display strings.
- Text rendering of the usage cell is not modelled. The f-string `[colour]usage[/colour]` is an abstract (colour, usage) pair, and `StripColors` stands for reading the usage back out.
- IEEE-754 behaviour beyond NaN (rounding, infinities, signed zero) is not modelled: values are reals with an explicit NaN.
- `resource_to_dict` is modelled as `Resource.Snapshot`, the record of an object's five fields. `level_colors` is a class attribute, so it is never among them.
- Conversion.Lower: `str.lower()` is modelled on ASCII letters only. Unicode case mapping is out of scope.
- Conversion.RefactorResources: input columns are assumed to carry their field's type: text for resources and warning_level, numbers for usage, requested and allocated. Python would build records out of ill-typed cells without complaint.
- Aggregation.CreateAvgOnResources: the nested loops of lines 82-94 are split into BuildCache (outer loop), AddJobToCache (inner loop) and AddToCache (loop body, whose branches are AddKnown and InsertNew). The cache and its key order pass between them as values. The behaviour is the same; the split keeps each proof small.
- Aggregation.CreateAvgOnResources: that no input object changes follows from the method having no modifies clause, not from a stated postcondition. The helper methods modify only the cache's own fresh objects.
- Aggregation.CreateAvgOnResources: the dict's `.get` is modelled as key membership. A stored `Resource` is always truthy, since the class defines neither `__bool__` nor `__len__`.
