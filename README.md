# Toxicity-classification preprocessing, modelled in Dafny

This project models the data preparation of a debiasing study on toxic-language
classification. It covers three parts of the repository.

- The example builders and the feature encoder of `src/toxic.py`:
  - every `_create_examples*` routine of the seven dataset processors;
  - the group tag (`env`) that `ToxicEnvProcessor` gives each tweet, under its modes
    `dialect`, `aae` and `mention`;
  - `get_labels`, and the `glue_processors` and `glue_output_modes` tables;
  - `glue_convert_examples_to_features`. It tokenizes each example and pads the token ids,
    the attention mask and the segment ids to `max_length`. The segment ids carry the
    example's group tag. It also resolves the label.
- `inv_to_ND.py`: it appends two prediction columns to the rows of a CSV table. Those rows
  are extended in place.
- `data/removal.py`: it deletes every word of a bias word list from each line of a text
  file.

Modules:

- `Outcomes`: `Option`, `Result` and the Python exceptions the code can raise.
- `Text`: the parts of Python's `str` that the code relies on:
  - `str(n)`;
  - `split` on one character;
  - `strip()`;
  - `re.sub`/`findall` of a literal word.
- `Records`: the example record and its identifier `"<set>-<index>"`.
- `EnvTags`: the group tag.
- `Processors`: the example builders, one `method` with a loop per source routine.
- `Features`: the encoder.
- `MergePredictions`: the column merge, as a method on an `array` of rows.
- `BiasRemoval`: the word-list removal.

Some source routines do the same work, so they share one method:

- `ToxicDavisonProcessor._create_examples` (src/toxic.py:635-644) is the same as
  `ToxicNewProcessor._create_examples`. Both are `Processors.CreateTweetExamples`.
- The `_create_examples` of `ToxicProcessor`, `ToxicTransProcessor` and
  `ToxicTransreProcessor` (src/toxic.py:374-384, 429-439, 497-507) differ only in the
  example class they build. They are `Processors.CreatePositionalExamples`, and its `slot`
  argument says which class is built.

What "no env" means:

- A transformers `InputExample` has no `env` attribute. `EnvSlot.NoEnvAttribute` models it,
  and the encoder raises `AttributeError` on it.
- An `EnvInputExample` built without a tag has `env = None`. `EnvSlot.EnvNone` models it,
  and its segment ids are filled with `None`.

Every routine ends with an error at the first failing row. The model returns the Python
exception of that first row.

## Model

| member | source | states |
|---|---|---|
| Text.NatToString | src/toxic.py:243 | The decimal text of a row index is non-empty and all digits, with no leading zero. |
| Text.ParseNatToString | src/toxic.py:243 | Reading the decimal text of an index back gives the index: rendering is lossless. |
| Text.NatToStringInjective | src/toxic.py:243 | Two different indices are rendered as two different texts. |
| Text.IntToString | src/toxic.py:245 | `str` of an integer label is non-empty and starts with '-' exactly when the value is negative. |
| Text.Split | inv_to_ND.py:11 | `split(sep)` always yields at least one field. |
| Text.SplitFieldsSeparatorFree | inv_to_ND.py:11 | No field contains the separator. |
| Text.JoinSplit | inv_to_ND.py:11 | Joining the fields with the separator gives back the original string. |
| Text.SplitFieldCount | inv_to_ND.py:11 | There is one more field than there are separators in the string. |
| Text.FirstField | data/removal.py:7 | `split(',')[0]` is a comma-free prefix of the line. It stops just before the first comma, or is the whole line when there is none. |
| Text.Strip | src/toxic.py:586 | `strip()` never lengthens a line, and a non-empty result starts and ends with a non-space character. |
| Text.StripLeftSpec | src/toxic.py:586 | The left part of `strip()` removes a prefix made only of white space. It stops at a non-space character. |
| Text.StripRightSpec | src/toxic.py:586 | The right part of `strip()` removes a suffix made only of white space. It stops at a non-space character. |
| Text.StripTrims | src/toxic.py:586 | `strip()` returns a contiguous slice of the line. Only white space is cut off, at both ends, and none is left at either end. |
| Text.DeleteAll | data/removal.py:17 | `re.sub(word, '', line)` never lengthens the line, and an empty word leaves it as it is. |
| Text.CountMatches | data/removal.py:14 | `findall` of a non-empty word finds at most as many matches as the line has characters; an empty word matches at every position, one more than the length. |
| Text.DeleteAllLength | data/removal.py:17 | `re.sub(word, '', line)` shortens the line by exactly the word's length times the number of matches found. |
| Text.CountMatchesPositive | data/removal.py:14-15 | `findall` of a non-empty word reports a match exactly when the word occurs in the line. |
| Text.DeleteAllUnchanged | data/removal.py:17 | The substitution leaves the line unchanged exactly when the word is empty or does not occur in it. |
| Records.Guid | src/toxic.py:243 | The identifier `"%s-%s" % (set_type, i)` is the split name, a '-' and then the index in decimal digits only. |
| Records.GuidInjective | src/toxic.py:243 | Within one split, examples from different rows get different identifiers. |
| EnvTags.MentionTag | src/toxic.py:316-324 | The `mention` tag is the priority of the first word list that matches the tweet, or 3 when none does. No list of higher priority matches. |
| EnvTags.GroupTag | src/toxic.py:310-326 | All three modes, each with its error: <br>- `dialect` succeeds exactly for the four known categories and gives the `env2id` value; any other category is a `KeyError` naming it. <br>- `aae` never fails and gives 1 exactly for "aae". <br>- `mention` gives the mention tag. <br>- Any other mode is `ValueError("False Env Type: ...")`. <br>Every tag is between 0 and 3. |
| EnvTags.DialectTagsDistinct | src/toxic.py:252 | The four dialect categories map to four distinct tags in 0..3. |
| EnvTags.DialectExamples | src/toxic.py:310-312 | "hispanic" is tag 1 and "white" is tag 2. An unlisted category raises a `KeyError` that names it. |
| EnvTags.AaeTagsDialectCategoriesZero | src/toxic.py:313-315 | In `aae` mode, every category that `dialect` mode accepts is tagged 0. The compared string "aae" is not one of them. |
| EnvTags.MentionPriority | src/toxic.py:317-320 | A tweet matched by both the first and the second word list is tagged 0. |
| Processors.GetLabels | src/toxic.py:235-237 | The label list is "0" then "1": two distinct labels, each the decimal text of its own position. |
| Processors.ProcessorTasksHaveOutputModes | src/toxic.py:659-682 | Every task with a processor also has an output mode, and that mode is classification. |
| Processors.CreateTweetExamples | src/toxic.py:239-248 | Gives one example per table row, in order and with no header skipped. Example `i` holds the tweet, `str(ND_label)`, no second text and identifier `set-i`. All identifiers are distinct. |
| Processors.EnvRowExample | src/toxic.py:306-328 | One row gives an example exactly when its group tag resolves, and otherwise fails with the tag's error. The example has identifier `set-i`, the tweet as its only text, `str(ND_label)` as label and a tag between 0 and 3. |
| Processors.CreateEnvExamples | src/toxic.py:303-329 | Gives one tagged example per row, carrying that row's group tag. It succeeds exactly when every row's tag does. A failure is the error of the first failing row. An unknown mode fails at the first row, and an empty table gives no examples and no error. |
| Processors.EnvRowScenario | src/toxic.py:306-328 | The row ("hello world", 0, "white") in `dialect` mode gives label "0" and tag 2. |
| Processors.CreatePositionalExamples | src/toxic.py:374-384 | The header row is skipped. Data row `i` gives the example `set-i` with text `line[-2]` and label `line[-1]`. It succeeds exactly when every data row has at least two cells; otherwise it raises `IndexError`. All identifiers are distinct. |
| Processors.CreateTransConcatExamples | src/toxic.py:441-453 | Data row `i` gives two consecutive examples, the original text (column 17) then the translation (column 18). They share the identifier and the normalised label of column 3. It succeeds exactly when every row has column 18 and a label that converts; otherwise it returns the first failing row's error: `IndexError` for a short row, and the conversion's own `ValueError` or `OverflowError` for the label. |
| Processors.CreateTransPairExamples | src/toxic.py:509-521 | Data row `i` gives one example, with the original as first text and the translation as second text. The success and error conditions are those of the concatenating variant. |
| Processors.CreateEvalExamples | src/toxic.py:565-577 | Data row `i` gives two examples, column 9 then column 11, both labelled with column 10. It succeeds exactly when every row has column 11; otherwise it raises `IndexError`. |
| Processors.CreateFieldLineExamples | src/toxic.py:579-591 | Data line `i` is stripped and split at '\x01'. Field 3 is the text and field 1 the label. It succeeds exactly when every data line has four fields; otherwise it raises `IndexError`. |
| Features.Repeat | src/toxic.py:139 | `[x] * k` has `max(k, 0)` elements, all equal to `x`. |
| Features.Pad | src/toxic.py:143-150 | Padding keeps the sequence intact on its side and fills every other position. The length grows by `max(padLen, 0)`. |
| Features.LabelMap | src/toxic.py:118 | The label map holds exactly the listed labels. Each maps to the last index at which it is listed. |
| Features.ResolveLabel | src/toxic.py:156-161 | Classification succeeds exactly when the label is in the label map, giving its index, and otherwise is a `KeyError` naming the label. Regression succeeds exactly when the label parses as a number, giving that number, and otherwise is a `ValueError` with the label text. Any other mode is a `KeyError` naming the mode. |
| Features.ClassificationLabels | src/toxic.py:156-161 | Classification resolves exactly the listed labels, each to its last index; any other label is a `KeyError` naming it. An output mode that is neither classification nor regression is a `KeyError` naming the mode. |
| Features.ConvertExample | src/toxic.py:129-161 | One example converts exactly when it has an `env`, the tokenizer output fits `max_length`, the two id lists have equal length and the label resolves. Then all three arrays have length `max_length` and the label is the resolved one. A plain `InputExample` raises `AttributeError`. Overlong input raises the length assertion with both lengths. |
| Features.RightPaddingLayout | src/toxic.py:147-150 | With right padding, position `k` holds token `k`, the real-token mask and the example's tag while `k` is inside the tokenizer output. After it come the pad token, the pad mask and the pad segment id. |
| Features.LeftPaddingLayout | src/toxic.py:143-146 | With left padding, the padding comes first and the tokenizer output fills the last positions, with the same values as for right padding. |
| Features.UnpadRecoversTokens | src/toxic.py:139-150 | Removing the padding gives back the tokenizer's ids unchanged. The mask marks exactly that span as real. |
| Features.ExactFitHasNoPadding | src/toxic.py:142-150 | An output of exactly `max_length` ids is left as it is, with an all-real mask and the tag on every position. |
| Features.ResolveTask | src/toxic.py:109-118 | An unknown task is a `KeyError`. A missing label list comes from the processor and a missing mode from the table. With neither a task nor labels, building the label map is a `TypeError`. Values the caller gives are kept. |
| Features.TaskDefaults | src/toxic.py:109-116 | A registered task with no labels and no mode given classifies "0" as 0 and "1" as 1. |
| Features.ToxicEvalTaskFails | src/toxic.py:659-674 | "toxic_eval" has an output mode but no processor, so naming it as the task always fails with `KeyError`. |
| Features.ConvertEach | src/toxic.py:121-175 | A successful run gives exactly one feature per example; a failure needs at least one example. |
| Features.ConvertEachSpec | src/toxic.py:121-175 | Converting a list of examples one after another gives exactly one feature per example, in input order, each equal to that example's conversion, with nothing filtered. It succeeds exactly when every example converts; otherwise the error is that of the first example that fails. |
| Features.ConvertEachFailurePersists | src/toxic.py:121-175 | Once an example has failed, the examples after it cannot change the outcome: the run ends with that error. |
| Features.ConvertAll | src/toxic.py:121-175 | The loop over the examples produces the outcome of converting them one after another, stopping at the first failure. |
| Features.ConvertExamplesToFeatures | src/toxic.py:73-196 | A setup error (unknown task, missing label list) is returned before any example is read. Otherwise it gives exactly one feature per example, in input order, each equal to that example's conversion under the resolved label map and mode. It succeeds exactly when every example converts, and otherwise fails with the first failing example's error. |
| MergePredictions.PredictionFields | inv_to_ND.py:11 | `preds[i-1][0].split('\t')` is available exactly when that prediction row and its first cell exist. Its fields are tab-free, there is at least one, and joining them with tabs gives back the cell. |
| MergePredictions.MergedCells | inv_to_ND.py:11-13 | A data row gains at most two tab-free cells, and exactly two when its prediction has fields 1 and 2. |
| MergePredictions.RowMergeableIffTwoTabs | inv_to_ND.py:11-13 | A data row can take its two cells exactly when its prediction row exists and the first cell holds at least two tabs. It then gains exactly two cells. |
| MergePredictions.ExtraPredictionsIgnored | inv_to_ND.py:10-11 | Extra prediction rows past the table, and cells after the first, change nothing. |
| MergePredictions.MergeColumns | inv_to_ND.py:7-13 | The header gains "invariant" and "variant", and each data row gains fields 1 and 2 of its prediction. On success every row has grown by exactly two cells at its end. On failure the rows before the failing one are complete, the failing row holds what was appended before the error, and later rows are untouched. An empty table raises `IndexError`. |
| BiasRemoval.BuildWordList | data/removal.py:5-7 | Gives one word per list line after the header, in order. Each word is the comma-free text before the line's first comma. |
| BiasRemoval.StripLines | data/removal.py:11-18 | Writes one output line per input line, in order. Each is the input line with the words removed one after another, in list order. |
| BiasRemoval.RemoveWords | data/removal.py:12-17 | Removing the listed words never lengthens a line. |
| BiasRemoval.RemoveWordsConcat | data/removal.py:12-17 | The words are applied one after another: removing a list is removing its first part and then, from what is left, its second part. |
| BiasRemoval.RemoveWordsUnchanged | data/removal.py:12-17 | A line in which no listed word occurs is copied unchanged. |
| BiasRemoval.RemoveSingleWord | data/removal.py:17 | A word between two stretches of text that lack its first character is cut out, and the text on both sides stays as it was. |
| BiasRemoval.BadwordExample | data/removal.py:17 | "so bad now\n" with the word "bad" becomes "so  now\n": the word goes and both spaces stay. |
| BiasRemoval.SinglePassExamples | data/removal.py:12-17 | Each word gets one pass, so removal is not closed under repetition: <br>- after "x" is deleted from "axb", the "ab" it leaves stays; <br>- deleting "ab" from "aabb" leaves "ab". |

## Left out

- The tokenizer (`encode_plus`, src/toxic.py:129-134) is an external library. It is a function parameter, seen only through its `input_ids` and `token_type_ids`.
- The TensorFlow paths are not modelled: dataset input and output (src/toxic.py:105-107, 124-126, 177-194), `get_example_from_tensor_dict` and `tfds_map`.
- Logging and printing are not modelled: `logger.info` in the encoder, `print(len(preds))` in inv_to_ND.py:9 and `print(find)` in data/removal.py:16.
- File and CSV I/O is not modelled. This covers `read_csv`, `read_txt`, every `get_*_examples` with its file name, `csv.reader`/`csv.writer` quoting, and opening the files given on the command line. The model starts from the parsed rows or lines and returns the rows or lines to be written.
- pandas column typing is not modelled. `ND_label` is taken to be an integer column. Floating labels, NaN tweets and missing columns (a `KeyError`/`AttributeError` in pandas) are outside the model.
- The `mention` word lists are opaque predicates. They are the three patterns compiled at class creation from word_based_bias_list.csv (src/toxic.py:253-260), passed as parameters; `\b` word boundaries and case-insensitive matching are not modelled.
- `str(int(float(line[3])))` (src/toxic.py:450, 518) is a function parameter that returns the text or the Python error: `ValueError` for text that is not a number, `OverflowError` for an infinite value such as "inf", and `ValueError` for "nan".
- ResolveLabel: `float(example.label)` for regression (src/toxic.py:159) is a function parameter returning a Dafny `real`, or None where Python raises `ValueError`. Python also accepts "nan" and "inf", which no `real` can hold, so for those labels the model fails where Python succeeds.
- ConvertExample: the log line for the first five examples formats the label with `%d` (src/toxic.py:169). In regression mode a NaN or infinite label makes that formatting raise `ValueError` or `OverflowError`. Logging is not modelled, so that error is not either; for every label the model can hold, the formatting succeeds.
- StripLines: requires every word to be free of regular-expression operators. Words with operators, which `re` would read as patterns or reject, are not modelled.
- The `%s` formatting and the JSON helpers of `EnvInputExample` (src/toxic.py:60-71) are left out. So is `glue_tasks_num_labels` (src/toxic.py:647-657), which the modelled code never reads.
- The keyword defaults of `glue_convert_examples_to_features` are not fixed: `PadConfig` accepts any values. The defaults are `max_length=512`, right padding, pad token 0, pad segment id 0 and `mask_padding_with_zero=True`.
- Python `int` labels and token ids are unbounded, as Dafny's `int`. No machine-width arithmetic is involved.
