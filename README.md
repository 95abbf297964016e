# Record and label handling of three text-classification scripts

This project models, in Dafny, the hand-written record handling of three
homework scripts that train text classifiers. Each script loads JSON
records, reshapes them, calls a machine-learning library to train and
predict, and writes a CSV. The library calls are out of scope. What is
modelled is the glue around them:

- **Review ratings** (`HW1/HW1_111705066.py`, module `ReviewRating`).
  Reviews are split into parallel feature columns, and `verified_purchase`
  becomes 0 or 1. Star ratings 1..5 are shifted to class indices 0..4.
  A 5-way score row is decoded with `argmax + 1`. Output rows are named
  `index_<i>`.
- **Tweet labels** (`HW2_111705066/HW2_111705066.py`, module `TweetLabels`).
  A fixed 12-entry label table is used. `TweetDataset.__getitem__` builds a
  multi-hot label vector in place: it starts from zeros and sets position
  `label_mapping[k]` for every known key `k` of the record's `labels`.
  The prediction table gets an `index` column in front of the 12 label columns.
- **Dialogue quality** (`HW3_111705066/HW3_111705066.py`, module
  `DialogueQuality`). `preprocess` turns each record `{u, s, r, r.label}`
  into one input text and an optional label. It also covers the `CustomDataset` view, the
  `compute_metrics` accuracy, and the output table's index column.

Shared library behaviour has its own modules. `Strings` covers `str.join`
and `str(i)` for `i >= 0`, with its inverse. `Tensors` covers `argmax`,
which returns the first maximal index. `Wrappers` holds `Option`.

Score and logit values are abstracted to integers: only their order matters
to `argmax`.

The code puts `u` at every even position of the context and `s[i]` at every
odd position. So the statements `s[0]`, `s[2]`, … never reach the input text.
The model does the same (`EvenStatementsIgnored`).

When `s` is empty, the input text is `" [SEP] " + r`, with a leading separator.

## Model

| member | source | states |
|---|---|---|
| `Strings.Join` | HW3_111705066/HW3_111705066.py:30 | `sep.join(parts)` is empty for no parts and otherwise begins with the first part |
| `Strings.JoinEndsWithLast` | HW3_111705066/HW3_111705066.py:30 | a join of at least one part ends with the last part |
| `Strings.JoinSnoc` | HW3_111705066/HW3_111705066.py:30-31 | joining one more part adds exactly the separator and that part at the end |
| `Strings.Decimal` | HW1/HW1_111705066.py:118 | `str(i)` is a non-empty digit string with no leading zero, and starts with '0' only for 0 |
| `Strings.ValueOfDecimal` | HW1/HW1_111705066.py:118 | reading the digits `str(i)` writes gives back `i` |
| `Strings.DecimalOfValue` | HW1/HW1_111705066.py:118 | every canonical digit string is `str` of the number it denotes, so `str` is a bijection onto canonical strings |
| `Strings.DecimalInjective` | HW1/HW1_111705066.py:118 | `str(a) == str(b)` exactly when `a == b` |
| `Tensors.ArgMax` | HW1/HW1_111705066.py:115 | the result is an index of the row, no entry exceeds the entry there, and every earlier entry is strictly smaller (first maximum) |
| `Tensors.ArgMaxUnique` | HW3_111705066/HW3_111705066.py:102 | the first-maximum property determines the argmax uniquely |
| `Tensors.ArgMaxOfPeak` | HW3_111705066/HW3_111705066.py:102 | a row whose entry k beats all others has argmax k |
| `Tensors.ArgMaxRows` | HW3_111705066/HW3_111705066.py:124 | argmax over the last axis gives one in-range index per row, in row order |
| `ReviewRating.VerifiedFlag` | HW1/HW1_111705066.py:37 | `int(verified_purchase)` is 0 or 1, and 1 exactly when the flag is true |
| `ReviewRating.ExtractFeatures` | HW1/HW1_111705066.py:35-38 | the four feature lists all have one entry per record, and the `verified_purchase` column holds `int` of each record's flag, so only 0 or 1 |
| `ReviewRating.ExtractFeaturesRoundTrip` | HW1/HW1_111705066.py:35-38 | reading the records back row by row from the feature lists gives exactly the input records, so nothing is lost and order is kept |
| `ReviewRating.ExtractFeaturesConcat` | HW1/HW1_111705066.py:98-101 | extraction works record by record: the columns of a concatenation are the concatenated columns |
| `ReviewRating.RatingColumn` | HW1/HW1_111705066.py:39 | entry `i` is the rating of training record `i` |
| `ReviewRating.TrainingColumnsRoundTrip` | HW1/HW1_111705066.py:35-39 | pairing the records read back from the feature columns with the rating column gives exactly the training records, in order |
| `ReviewRating.AdjustRating` | HW1/HW1_111705066.py:50 | decoding the shifted rating gives it back, and a rating lies in 1..5 exactly when its class index lies in 0..4 |
| `ReviewRating.DecodeClass` | HW1/HW1_111705066.py:115 | a class index in 0..4 decodes to a rating in 1..5 and nothing else does |
| `ReviewRating.AdjustDecodeInverse` | HW1/HW1_111705066.py:50 | the shift `rating - 1` and the decode `k + 1` are mutually inverse, and ratings 1..5 are exactly those shifted into 0..4 |
| `ReviewRating.AdjustRatings` | HW1/HW1_111705066.py:50 | one class index per rating; decoding each gives the rating back; all ratings lie in 1..5 iff all indices lie in 0..4 |
| `ReviewRating.PredictRating` | HW1/HW1_111705066.py:115 | the decoded rating lies in 1..5 and its class index is the first maximising index of the 5 scores |
| `ReviewRating.PredictRatingOfPeak` | HW1/HW1_111705066.py:115 | a score row that singles out the class of rating `r` decodes to `r` |
| `ReviewRating.PredictRatings` | HW1/HW1_111705066.py:115 | one rating in 1..5 per prediction row, in row order |
| `ReviewRating.IndexId` | HW1/HW1_111705066.py:118 | the identifier is `index_` followed by the canonical decimal digits of `i`, which read back as `i` |
| `ReviewRating.IndexIdInjective` | HW1/HW1_111705066.py:118 | `index_<i>` and `index_<j>` are equal exactly when `i == j` |
| `ReviewRating.OutputRows` | HW1/HW1_111705066.py:118-119 | one output row per prediction, row `i` named `index_<i>` with the rating decoded from prediction `i`, and all names distinct |
| `TweetLabels.LabelColumnsDistinct` | HW2_111705066/HW2_111705066.py:52-56 | the 12 label names are pairwise different |
| `TweetLabels.LabelColumnsMapped` | HW2_111705066/HW2_111705066.py:52-56 | the i-th declared name maps to i |
| `TweetLabels.LabelMappingIndexesColumns` | HW2_111705066/HW2_111705066.py:52-56 | every name in the table maps to a column position holding that same name |
| `TweetLabels.LabelMappingIsBijection` | HW2_111705066/HW2_111705066.py:52-56 | the table has 12 names and is a bijection onto 0..11 that agrees with the column order |
| `TweetLabels.LabelKeys` | HW2_111705066/HW2_111705066.py:33 | a record without a `labels` field contributes no keys; otherwise its keys are those of its `labels` object, in order |
| `TweetLabels.UnknownKeyMarksNothing` | HW2_111705066/HW2_111705066.py:34 | a key missing from the table changes no position of the label vector |
| `TweetLabels.TweetDataset.constructor` | HW2_111705066/HW2_111705066.py:19-23 | the dataset keeps the records, length and label table it is given |
| `TweetLabels.TweetDataset.Len` | HW2_111705066/HW2_111705066.py:25-26 | the length is the number of records, and GetItem accepts exactly the indices below it |
| `TweetLabels.TweetDataset.GetItem` | HW2_111705066/HW2_111705066.py:28-35 | returns the record's tweet and a vector of length `len(label_mapping)` whose entries are 0 or 1, with 1 exactly at positions some present known key maps to, and all zero when the record has no labels |
| `TweetLabels.PredictionFrame` | HW2_111705066/HW2_111705066.py:113-114 | the frame exists iff every prediction row has 12 entries; its header is `index` then the label names in table order; row `i` is `i` followed by prediction `i` |
| `DialogueQuality.Context` | HW3_111705066/HW3_111705066.py:26-28 | the context list has exactly `len(s)` entries and starts with `u`; its entries are stated by `ContextAt` |
| `DialogueQuality.ContextAt` | HW3_111705066/HW3_111705066.py:28 | entry `i` of the context is `u` when `i` is even and `s[i]` when `i` is odd |
| `DialogueQuality.InputText` | HW3_111705066/HW3_111705066.py:30-31 | the input text ends with `" [SEP] " + r` and, when `s` is non-empty, begins with `u`; its exact shape is stated by `InputTextShape` |
| `DialogueQuality.RowOf` | HW3_111705066/HW3_111705066.py:33-37 | a row carries the record's input text, and a label exactly when training and the record has `r.label`, that label |
| `DialogueQuality.InputTextShape` | HW3_111705066/HW3_111705066.py:30-31 | the input text is the join of the context followed by `r`; with empty `s` it is `" [SEP] " + r` |
| `DialogueQuality.EvenStatementsIgnored` | HW3_111705066/HW3_111705066.py:28 | records differing only in even-indexed statements yield the same input text |
| `DialogueQuality.Preprocess` | HW3_111705066/HW3_111705066.py:18-38 | one row per record in input order; row `k` has record `k`'s input text, and its label is `r.label` when training and None otherwise |
| `DialogueQuality.CustomDataset.Len` | HW3_111705066/HW3_111705066.py:67-68 | the length is the number of `input_ids` rows, and the only row count all columns can share |
| `DialogueQuality.CustomDataset.GetItem` | HW3_111705066/HW3_111705066.py:70-74 | the item has every encoding key, each holding row `idx`, plus `labels` holding label `idx` exactly when labels were given |
| `DialogueQuality.IndexableBelowLen` | HW3_111705066/HW3_111705066.py:67-74 | in a dataset whose columns agree, every index below the length can be fetched |
| `DialogueQuality.CountCorrect` | HW3_111705066/HW3_111705066.py:102-103 | the count of argmax hits is at most the number of labels |
| `DialogueQuality.AllCorrect` | HW3_111705066/HW3_111705066.py:102-103 | the count equals the number of labels iff every argmax equals its label |
| `DialogueQuality.NoneCorrect` | HW3_111705066/HW3_111705066.py:102-103 | the count is zero iff no argmax equals its label |
| `DialogueQuality.Accuracy` | HW3_111705066/HW3_111705066.py:99-104 | the accuracy lies in [0, 1] and times the number of labels gives the hit count; an empty evaluation set has no accuracy |
| `DialogueQuality.QualityOutput` | HW3_111705066/HW3_111705066.py:124-130 | one output row per test row; row `i` has index `i` and the in-range argmax of logits row `i` |

## Left out

- JSON loading and CSV writing are file I/O. Records arrive as Dafny values, and tables are returned as sequences.
- Tokenization and padding are opaque library calls: the Keras `Tokenizer` and `pad_sequences`, `BertTokenizer`, `RobertaTokenizer`, and `tokenize_data`. Encodings appear only as given integer rows in `CustomDataset`.
- Model construction, training, evaluation and prediction are library training loops: `fit`, `Trainer`, `TrainingArguments`, `EarlyStopping`. So are the epoch-logging callback and the `print` calls.
- Softmax outputs and logits are floating point. They are modelled as integer scores, since only their order matters to `argmax`.
- The `> 0.5` threshold on the multi-label predictions is floating-point numerics. `PredictionFrame` takes the thresholded 0/1 rows as given.
- The sklearn precision, recall, F1 and accuracy in the second script's `compute_metrics` are foreign metrics.
- Tensors and data frames are plain sequences and maps. Python's negative indexing is not modelled: indices are natural numbers.
- `TweetLabels.TweetDataset.GetItem`: does not return `input_ids` and `attention_mask`, because they come from the tokenizer. It returns the tweet text handed to the tokenizer instead.
- `TweetLabels.TweetDataset.constructor`: requires every table value to be below the table size. An out-of-range value would make `__getitem__` raise IndexError, and the only table ever passed (lines 52-56) satisfies this (`LabelMappingIsBijection`).
- `DialogueQuality.Preprocess`: requires every training record to carry `r.label`. Reading a missing key raises KeyError and ends the script.
- `DialogueQuality.CustomDataset.Len`: requires an `input_ids` encoding, since a missing key raises KeyError.
- `DialogueQuality.Accuracy`: computed in exact reals, whereas the source takes a float32 mean. An empty set gives None where torch gives NaN.
- `ReviewRating.PredictRating`: requires 5 scores per row, which is the width of the network's output layer (line 71).
- `Tensors.ArgMax`: requires a non-empty row; numpy and torch raise an error on an empty one.
