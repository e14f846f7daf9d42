# Reviews dashboard: top-K sentiment aggregation and chart geometry

This project models the two functions of `utils/utils.py`:

- `get_topK_categories_and_score` deserializes a list of per-review sentiment records. Each record is a sparse map from category name to a label such as `"Negative"` or `"Positive"`. It skips entries whose parse raises `SyntaxError`; any other parse error aborts the call. It ranks the category columns by how many records have a value for them, keeps the first `k` (5 by default), and returns for each the number of `"Negative"` and `"Positive"` cells, together with the fixed label pair `["Negative", "Positive"]`.
- `plot_dashboard` draws this score table as a diverging horizontal bar chart. The model keeps only its integer geometry: which bar series are drawn and under which legend names, where each bar segment starts and ends, the symmetric x-axis range, the tick positions and the tick labels.

Modules:

- `Wrappers` (`wrappers.dfy`): `Option`. It carries the outcome of deserializing one record, and the chart layout, which does not exist for an empty table or an empty list of legend names.
- `Sentiment` (`sentiment.dfy`): the aggregation.
  - A record is `map<string, string>`.
  - The input is the list of parse outcomes, `seq<Option<Record>>`.
  - `Count(rs, key, want)` is the one counting notion. `want == None` is the non-missing count of a column (pandas' `count()`). `want == Some(l)` is the number of cells equal to `l`.
  - The top-K selection picks *some* key of maximal count at each step.
  - The score table is a sequence of `CategoryScore` rows in ranking order. This is the insertion order of the `scores` dict, and the categories are proved distinct.
- `Chart` (`chart.dfy`): the geometry of `plot_dashboard`, plus the lemma that connects the two steps. It covers the bar series, their segments, the axis range, the ticks and the labels.
- `Decimal` (`decimal.dfy`): the `str(...)` of a non-negative integer used for tick labels, and its inverse.

The aggregation functions that choose among tied keys are ghost functions, because they use a non-unique choice.

Facts about the code that shape the model:

- The ranking at utils/utils.py:33 uses pandas' default `sort_values`, which is not a stable sort. The order of tied keys is therefore left open, and the contracts hold for every tie order.
- `plot_dashboard` raises on an empty score table. `np.array([])` is one-dimensional, so `data.cumsum(axis=1)` at utils/utils.py:61 already fails.
- `plot_dashboard` also raises on an empty `category_names`. The legend call at utils/utils.py:101 then asks for zero columns, and matplotlib cannot split the legend entries into zero columns. The docstring (utils/utils.py:52-56) expects one name per score column, so this input is outside its intended use. `Chart.PlotLayout` returns `None` exactly in these two cases.
- The `except SyntaxError` at utils/utils.py:27 does not catch the error `json.loads` raises for malformed JSON. That error is `JSONDecodeError`, a subclass of `ValueError`, so a malformed entry aborts the whole call. The model takes each parse outcome as an input. A `None` entry stands for an entry whose parse failed and was skipped. This is the skip the guard intends, not what the code achieves for malformed JSON.
- The bar loop at utils/utils.py:72 pairs `category_names` with the colours. There is one colour per column of the score matrix, and the matrix has two columns. So the loop draws `min(len(category_names), 2)` series, each named by its entry of `category_names`.

## Model

| member | source | states |
|---|---|---|
| `Sentiment.Parsed` | utils/utils.py:23-28 | the kept records are exactly the successfully parsed entries, never more records than entries |
| `Sentiment.ParsedAppend` | utils/utils.py:24-28 | parsing is entry by entry: the records of a concatenated list are the records of each part, in order |
| `Sentiment.FailedParseChangesNothing` | utils/utils.py:24-28 | inserting an entry whose parse fails changes neither the parsed records nor any ranking, key or score of the result |
| `Sentiment.AllKeys` | utils/utils.py:30 | the table's columns are exactly the keys present in at least one parsed record |
| `Sentiment.KeyCountPositive` | utils/utils.py:30-33 | a key's non-missing count is positive if and only if it is one of the table's columns |
| `Sentiment.Count` | utils/utils.py:33-39 | `df[key].count()` and `(df[key] == label).sum()` never exceed the number of records |
| `Sentiment.CountZero` | utils/utils.py:33-39 | a tally is zero if and only if no record has the key (with that label) |
| `Sentiment.CountIsFilterCount` | utils/utils.py:33-39 | every tally (non-missing cells, or cells equal to a label) is the number of record indices passing that filter |
| `Sentiment.LabelCountsBounded` | utils/utils.py:38-39 | Negative count + Positive count <= records that have the key; other labels and missing cells add nothing |
| `Sentiment.SelectTop` | utils/utils.py:33 | selects min(k, number of keys) distinct keys in non-increasing count order, and no unselected key has a larger count than a selected one |
| `Sentiment.ScoreOf` | utils/utils.py:39 | a category's Negative and Positive scores are the sizes of the sets of records whose cell equals that label, and sum to at most the records having the category |
| `Sentiment.ScoresFor` | utils/utils.py:36-39 | one score row per selected key, in selection order, each holding the sizes of the key's Negative and Positive filters, which together never exceed the records having the key |
| `Sentiment.TopKCategoriesAndScore` | utils/utils.py:8-41 | k defaults to 5; label pair is always ["Negative","Positive"]; exactly min(k, #columns) distinct categories, each present in some parsed record, ranked by non-missing count, a true top-K; each score row holds the Negative and Positive tallies of its category |
| `Sentiment.ScoreBounds` | utils/utils.py:38-39 | for every selected category, negative + positive <= records with the category <= parsed records <= input entries |
| `Sentiment.ScoreIsFilterCount` | utils/utils.py:38-39 | each score is the size of the set of parsed records whose cell for the category equals the label |
| `Sentiment.EmptyScores` | utils/utils.py:23-41 | the score table is empty if and only if k = 0 or no parsed record names a category, so an empty input gives an empty table |
| `Chart.CumSum` | utils/utils.py:61 | each cumulative entry of a row is the sum of the row's prefix up to it |
| `Chart.SegmentStart` | utils/utils.py:74-77 | every series after the first starts at zero (`data_cum[:, i] - data_cum[:, i]`) |
| `Chart.Segment` | utils/utils.py:73-78 | the first series' segment of a row spans [-row[0], 0], and every later one spans [0, row[i]] |
| `Chart.SegmentsMeetAtZero` | utils/utils.py:72-78 | the Negative segment spans [-neg, 0] and the Positive one [0, pos]; they share only the point 0 |
| `Chart.SeriesOf` | utils/utils.py:72-79 | the series for column i carries the given legend name and one segment per table row: [-neg, 0] for column 0 and [0, pos] for column 1 |
| `Chart.DrawBars` | utils/utils.py:59-79 | row labels are the categories in table order; min(len(category_names), 2) series are drawn, the c-th named category_names[c], the first spanning [-neg, 0] and the second [0, pos] on every row |
| `Chart.Flatten` | utils/utils.py:86 | the flattened value list has both counts of every category, at positions 2i and 2i+1 |
| `Chart.Max` | utils/utils.py:86 | the maximum is one of the values and no value exceeds it |
| `Chart.RoundUpToTen` | utils/utils.py:86 | ceil(m/10)*10 is the multiple of ten in [m, m+10) |
| `Chart.AxisRange` | utils/utils.py:86 | max_range is a multiple of ten, at least every count, and less than ten above the largest count |
| `Chart.Arange` | utils/utils.py:89 | the values are start + 10j, all below stop, and the next one would reach stop |
| `Chart.Ticks` | utils/utils.py:88-89 | there are 2*max_range/10 + 1 ticks, the j-th at -max_range + 10j |
| `Chart.TickLabel` | utils/utils.py:90 | a tick label is the canonical decimal numeral of the tick's absolute value: a non-empty digit string, with no leading zero except for the tick 0 itself, whose value is the absolute value |
| `Chart.PlotLayout` | utils/utils.py:59-101 | fails if and only if the table or the list of legend names is empty; otherwise the bars are as in `DrawBars`, the limits passed to `set_xlim` are [-max_range, max_range] with max_range the smallest multiple of ten >= every count, and the ticks run every ten across the limits, each labelled with the decimal numeral of its absolute value |
| `Chart.TicksSymmetric` | utils/utils.py:88-90 | the first tick is the left limit, the last the right limit, mirrored ticks are negatives of each other and carry the same label |
| `Chart.BarsWithinAxis` | utils/utils.py:72-88 | every drawn segment lies inside the x limits |
| `Chart.TickLabelsReadBack` | utils/utils.py:90 | reading a tick label back as a number gives the tick's absolute value |
| `Chart.AxisBoundedBy` | utils/utils.py:86 | if every count is at most n, max_range is at most n rounded up to ten |
| `Chart.AggregateThenPlot` | utils/utils.py:8-90 | the aggregation's result fails to plot only when k = 0 or no parsed record names a category; otherwise both series are drawn, named Negative and Positive, and max_range <= the number of parsed records rounded up to ten |
| `Decimal.FromNat` | utils/utils.py:90 | `str` of a non-negative integer is a non-empty digit string with no leading zero, "0" only for zero |
| `Decimal.RoundTrip` | utils/utils.py:90 | reading back the numeral of n gives n |
| `Decimal.FromNatInjective` | utils/utils.py:90 | distinct numbers get distinct numerals |

## Left out

- `json.loads` itself: each entry's parse outcome is an input (`Option<Record>`). The model covers only parsed values that are flat string-to-string objects. Lists, nested objects and JSON `null` (which pandas treats as a missing cell) are not modelled.
- The `except SyntaxError` guard: as explained above, the model's `None` entries stand for the skip the guard evidently intends. The model does not claim that the code skips malformed JSON.
- Tie-breaking in the top-K sort: pandas' default sort is not stable, so tied keys may come out in any order. `Sentiment.SelectTop` and `Sentiment.TopKCategoriesAndScore` specify the selection and the order only up to ties.
- The order of keys inside one record and the DataFrame's column order: these only affect tie order, which is left open.
- Negative or non-integer `k`: Python slice semantics would apply. The model takes `k` as a natural number.
- `plot_dashboard` on score rows that are not pairs of non-negative integers: the code's numpy layer fails on ragged rows. The model's score row always holds exactly one negative and one positive count.
- `offsets` and `middle_index` (utils/utils.py:62-63): they are computed but never used, and they involve float division.
- All matplotlib work is left out. This covers colormap sampling (utils/utils.py:66-67), figure creation, the bar heights and colours, the zero line, `invert_yaxis`, spines, the legend's placement and its column layout (only its failure on zero columns is modelled), the background colour and the fixed title (utils/utils.py:69-107). These are foreign library calls. The model keeps the geometry they are given, and the rows stay in score-table order.
- `Chart.RoundUpToTen`: computed with exact integer arithmetic. The code's `math.ceil(m / 10)` goes through a float and could round wrongly for counts beyond 2^53.
- Integer width: counts are unbounded naturals. numpy's 64-bit counters cannot overflow for any list that fits in memory.
