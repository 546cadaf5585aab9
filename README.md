# COVID-19 and economic complexity: the reshaping pipeline

The script `ucd_covid_karyotis_project.py` reads the Our World in Data
pandemic table and the Harvard economic-complexity ranking table. It keeps
a fixed set of columns from each and renames `location` to `Country`. It
takes the snapshot of 2021-01-29 and the Greece/Ireland time series. It
merges the snapshot with the rankings on `Country` and sorts the merge by
`ECI Rank 2018`. Then a loop gives every merged country a complexity
quarter `Q1`..`Q4`: its rank `R` is compared with `n/4`, `2(n/4)` and
`3(n/4)`, where `n` is the number of merged rows.

This project models that pipeline in Dafny and proves what it does:

- `quarters.dfy` (module `Quarters`): the quarter labels and the rule
  `QuarterOf(rank, n)`. Its contract is the source's own comparisons over
  the exact quotient `n / 4`. The lemmas show the rule is the integer
  partition `4R < n`, `2R < n`, `4R < 3n`, that it is monotone in the rank,
  that ranks at or beyond `n` fall in Q4, and what sizes the quarters get.
- `tables.dfy` (modules `Results`, `Tables`): a result type for the
  exceptions pandas raises, the boolean-mask selection `Filter`, and an
  ascending sort `SortBy` proved sorted and a permutation.
- `schema.dfy` (module `Schema`): the script's column lists. It models
  `df[cols]` at the header level, which raises a KeyError when a column is
  missing. It also models `rename` and `reindex` by the continent display
  order.
- `reshape.dfy` (module `Reshape`): typed rows of both files, the
  projections, the snapshot and time-series selections, the inner merge and
  both sorts, with lemmas about the merge.
- `script.dfy` (module `Script`): the quarter-labelling loop as a method
  proved equal to `QuarterOf` row by row. It also holds the assignment of the
  `Complexity_Quarter` column and the whole run from the two files to the
  tables the aggregations start from, as a method with one local reassignment per
  script step.

Modelling choices:

- Pandas's float cells are the stand-in type `Metric` (a Dafny `real`).
  Nothing here computes with them. Ranks are integers.
- Each file enters the run as a header and a sequence of typed rows.
  `df[cols]` checks the wanted column names against the header. The typed
  rows carry the cells of the kept columns, plus a map of the file's other
  columns, which the projection drops.
- `num_rows/4` is a Python float division. The model compares over exact
  rationals. For any plausible row count, `n/4`, `2*(n/4)` and `3*(n/4)` are
  exact in binary floating point, and Python compares an int with a float
  exactly. So the two agree.
- `sort_values` uses an unstable quicksort by default. The model sorts with an
  insertion sort. Its contract states only what pandas guarantees: the rows
  come out in non-decreasing rank order and are a permutation of the input.
  `RunScript` states the same and nothing about the order of equal ranks.
- The model's inner merge builds the matches of each snapshot row in turn,
  one row per economic row of the same country. That is the order pandas
  gives when no country repeats among the snapshot rows, which a one-date
  snapshot of the pandemic table ensures. The rank sort at line 284 then
  reorders the merge anyway.
- The quarter labels are not equal-count quartiles. For 4m rows ranked 1..4m
  the quarters hold m-1, m, m and m+1 rows: 24/25/25/26 for 100 rows. The
  model proves those sizes. It does not claim the sizes differ by at most one.

## Model

| member | source | states |
|---|---|---|
| `Quarters.QuarterOf` | ucd_covid_karyotis_project.py:296-303 | the label is Q1 exactly when R < n/4, Q2 exactly when n/4 <= R < 2(n/4), Q3 exactly when 2(n/4) <= R < 3(n/4), Q4 exactly when R >= 3(n/4), with n/4 the exact quotient |
| `Quarters.QuarterIntegerBounds` | ucd_covid_karyotis_project.py:296-303 | the same four cases in integer arithmetic: Q1 iff 4R < n, Q2 iff n <= 4R and 2R < n, Q3 iff n <= 2R and 4R < 3n, Q4 iff 3n <= 4R |
| `Quarters.QuarterMonotone` | ucd_covid_karyotis_project.py:296-303 | a rank a <= b never gets a later quarter than b, in the order Q1 < Q2 < Q3 < Q4 |
| `Quarters.RankBeyondRowsIsQ4` | ucd_covid_karyotis_project.py:302-303 | a rank at or above the merged row count, possible because ranks come from the whole economic table, always falls in Q4 |
| `Quarters.HundredRowBoundaries` | ucd_covid_karyotis_project.py:296-303 | with 100 merged rows, ranks below 25 get Q1, 25-49 Q2, 50-74 Q3 and 75-100 Q4 |
| `Quarters.BoundariesFollowJoinedCount` | ucd_covid_karyotis_project.py:292-303 | an illustration that the boundaries move with the merged row count: rank 1 is in Q2 among 4 rows and in Q1 among 5, so one country missing from a table shifts the others (the general fact is `Script.RunScript`'s clause that every label is `QuarterOf` of the row's rank and the labelled table's length) |
| `Quarters.QuarterSizesForRanksOneToN` | ucd_covid_karyotis_project.py:296-303 | for 4m rows ranked 1..4m the quarters hold m-1, m, m and m+1 rows |
| `Tables.FilterMultiset` | ucd_covid_karyotis_project.py:267-270 | a boolean-mask selection keeps exactly the rows that pass, each as often as in the input, and no others |
| `Tables.FilterAppend` | ucd_covid_karyotis_project.py:267-270 | the selection keeps relative order: selecting from a + b gives the selection from a followed by the selection from b |
| `Tables.SortBy` | ucd_covid_karyotis_project.py:260 | an ascending sort on an integer column returns its rows in non-decreasing key order, as a permutation of the input |
| `Schema.SelectColumns` | ucd_covid_karyotis_project.py:242 | `df[cols]` gives exactly the wanted columns in the wanted order when all are present, and otherwise raises a KeyError naming exactly the missing ones |
| `Schema.RenameColumn` | ucd_covid_karyotis_project.py:246 | the rename changes every `from` column to `to` and nothing else; a name that is absent leaves the header unchanged; afterwards no column is called `from` |
| `Schema.Reindex` | ucd_covid_karyotis_project.py:321 | after reindexing, the columns are exactly `order` in that order; a column the row lacks is a missing cell, and any other column is dropped |
| `Schema.ContinentOrder` | ucd_covid_karyotis_project.py:321 | `reindex(category_order, axis="columns")`, with `category_order` as at line 216, gives six cells, Oceania first and Europe last, and a cell is missing exactly when the row has no value for that continent |
| `Schema.PandemicHeader` | ucd_covid_karyotis_project.py:220-246 | projection fails exactly when the pandemic file lacks a kept column; otherwise projection and rename give the header iso_code, continent, Country, date and the four per-million metrics |
| `Reshape.ProjectPandemic` | ucd_covid_karyotis_project.py:242-246 | one record per pandemic row, in row order, carrying that row's kept cells, with `location` as `Country` |
| `Reshape.ProjectEcon` | ucd_covid_karyotis_project.py:258 | one record per economic row, in row order, with its Country, ECI Rank 2018, ECI 2018, COI 2018 and COI Rank 2018 |
| `Reshape.Snapshot` | ucd_covid_karyotis_project.py:232-267 | the snapshot holds exactly the rows dated 2021-01-29, each as often as in the pandemic table |
| `Reshape.SnapshotKeepsOrder` | ucd_covid_karyotis_project.py:267 | the snapshot keeps the rows' relative order |
| `Reshape.TimeSeriesSlice` | ucd_covid_karyotis_project.py:270 | the slice holds exactly the Greece and Ireland rows, on every date, each as often as in the pandemic table |
| `Reshape.TimeSeriesKeepsOrder` | ucd_covid_karyotis_project.py:270 | the slice keeps the rows' relative order |
| `Reshape.SliceFollowsLocation` | ucd_covid_karyotis_project.py:246-270 | selecting Greece and Ireland on the renamed `Country` column gives the projection of the file rows whose `location` is Greece or Ireland |
| `Reshape.SortEconByRank` | ucd_covid_karyotis_project.py:260 | the economic table comes out in non-decreasing ECI Rank 2018 order, as a permutation of its rows |
| `Reshape.Matches` | ucd_covid_karyotis_project.py:283 | the merged rows of one snapshot row, one per economic row of its country: at most one per economic row, each carrying that snapshot row; their exact contents are stated by `Reshape.MatchesMembership` |
| `Reshape.InnerJoin` | ucd_covid_karyotis_project.py:283 | `merge(on='Country')`: every merged row carries a snapshot row; its meaning is stated by `Reshape.JoinMembership` (both directions), `Reshape.JoinAppend` and `Reshape.JoinIgnoresSnapshotOrder` |
| `Reshape.MatchesMembership` | ucd_covid_karyotis_project.py:283 | the merged rows of one snapshot row are exactly its combinations with the economic rows of the same country |
| `Reshape.JoinMembership` | ucd_covid_karyotis_project.py:283 | a row is in the merge exactly when it combines a snapshot row and an economic row of the same country |
| `Reshape.JoinedRowsComeFromBoth` | ucd_covid_karyotis_project.py:283 | every merged row's pandemic part is a snapshot row, and its rank and index come from an economic row of its country |
| `Reshape.MissingCountryDropped` | ucd_covid_karyotis_project.py:283 | a snapshot country that the economic table lacks gets no merged row |
| `Reshape.JoinAppend` | ucd_covid_karyotis_project.py:283 | the model's merge runs row by row over the snapshot: merging a + b gives the merge of a followed by the merge of b; this is pandas' order when no country repeats among the snapshot rows |
| `Reshape.JoinIgnoresSnapshotOrder` | ucd_covid_karyotis_project.py:283 | reordering the snapshot rows only reorders the merge: the merge holds the same rows, each as often |
| `Reshape.JoinDependsOnRowSets` | ucd_covid_karyotis_project.py:283 | the set of merged rows depends only on which rows the two tables hold |
| `Reshape.JoinSizeWithUniqueCountries` | ucd_covid_karyotis_project.py:283 | with one economic row per country, the merge has exactly one row per snapshot row whose country the economic table knows |
| `Reshape.SortJoinedByRank` | ucd_covid_karyotis_project.py:284 | the merge comes out in non-decreasing ECI Rank 2018 order, as a permutation of the unsorted merge |
| `Script.AssignQuarters` | ucd_covid_karyotis_project.py:292-303 | the loop yields exactly one label per merged row, in row order; the label of row i is the quarter of that row's rank among the merged rows |
| `Script.AddQuarterColumn` | ucd_covid_karyotis_project.py:306 | the new column gives each row the label at its position; a list of another length raises a ValueError naming both lengths |
| `Script.SortedRanksGiveOrderedQuarters` | ucd_covid_karyotis_project.py:284-303 | along the rank-sorted merge, the quarter labels never decrease |
| `Script.RunScript` | ucd_covid_karyotis_project.py:239-306 | the run raises a KeyError exactly when a file lacks a kept column; otherwise it returns the snapshot, the Greece/Ireland slice and the rank-sorted economic table; the labelled merge is rank-sorted and a permutation of the merge, each row carries the quarter of its own rank, and the labels never decrease down the table |

## Left out

- Reading the two files from disk or over HTTP (`read_csv_return_pd`, `read_json_online`): this is I/O. The run takes the header and rows of each file as parameters.
- All four charts (`first_plot`, `second_plot`, `plot_complexity_insights`, `plot_tseries`) and the final `iso_code` selections that feed the time-series chart: this is rendering.
- The per-continent means, the per-quarter mean with `fillna(0)`, and the normalised cross-tabulation: these are floating-point aggregations inside pandas and numpy. `Schema.Reindex` and `Schema.ContinentOrder` model only the column order that `category_order` imposes on them.
- Debug prints and the `create_plots`, `save_plots` and `debug_msg` toggles: they have only side effects.
- Missing (NaN) cells in `ECI Rank 2018`. Ranks are modelled as integers. A NaN rank would fail every comparison of the loop and get Q4, and `sort_values` would put it last.
- `causes_lst` (line 226) is declared but never used by the script.
- Dtype conversion by `read_csv`. Cells keep the types the records give them.
- Script.RunScript: the rank sorts' order among equal ranks is left unspecified, as `sort_values` leaves it. For both the economic table and the labelled merge, `RunScript` states only non-decreasing rank and a permutation of the unsorted rows. The model's own sort is stable, but nothing is claimed about that.
- Reshape.InnerJoin, Reshape.JoinAppend: the order of merged rows when a country repeats among the snapshot rows. pandas before 2.2 groups repeated left keys together, so left keys A, B, A come out as A, A, B, while the model gives A, B, A. The membership and multiset lemmas (`JoinMembership`, `JoinIgnoresSnapshotOrder`) hold either way. A one-date snapshot has no repeated country.
