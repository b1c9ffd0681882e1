/**
  The dataset processors: each `_create_examples*` routine turns the rows of
  one table layout into a list of examples, in row order. Tables read by name
  (pandas) are sequences of records; tables read by position (the `csv`
  module) are sequences of rows of cells; the one read as plain text is a
  sequence of lines. Any exception ends the routine, so a routine either
  returns every example or the error of the first row that failed.
 */
module Processors {
  import opened Outcomes
  import opened Text
  import opened Records
  import opened EnvTags

  /** The processor classes. */
  datatype Processor = ToxicNew | ToxicEnv | Toxic | ToxicTrans | ToxicTransre | ToxicEval | ToxicDavison

  /** `get_labels`: every processor classifies into the two labels "0" and "1". */
  function GetLabels(p: Processor): (labels: seq<string>)
    ensures |labels| == 2 && labels[0] != labels[1]
    ensures forall k :: 0 <= k < |labels| ==> labels[k] == IntToString(k)
  {
    ["0", "1"]
  }

  /** `glue_processors`: task name to processor class. */
  const GlueProcessors: map<string, Processor> :=
    map["toxic" := ToxicNew, "toxic-env" := ToxicEnv, "toxic-davison" := ToxicDavison, "toxic_trans" := ToxicTrans]

  /** `glue_output_modes`: task name to output mode. */
  const GlueOutputModes: map<string, string> :=
    map[
      "cola" := "classification", "mnli" := "classification", "mnli-mm" := "classification",
      "mrpc" := "classification", "sst-2" := "classification", "toxic" := "classification",
      "toxic-env" := "classification", "toxic_eval" := "classification", "toxic_trans" := "classification",
      "toxic-davison" := "classification", "sts-b" := "regression", "qqp" := "classification",
      "qnli" := "classification", "rte" := "classification", "wnli" := "classification"
    ]

  /** Every task that has a processor also has an output mode. */
  lemma ProcessorTasksHaveOutputModes(task: string)
    requires task in GlueProcessors
    ensures task in GlueOutputModes && GlueOutputModes[task] == "classification"
  {
  }

  // ---------------------------------------------------------------------------
  // Tables read by column name
  // ---------------------------------------------------------------------------

  /** A row of a pandas table seen through its `tweet` and `ND_label` columns. */
  datatype TweetRow = TweetRow(tweet: string, ndLabel: int)

  /** A row seen through `tweet`, `ND_label` and `dialect_argmax`. */
  datatype DialectRow = DialectRow(tweet: string, ndLabel: int, dialectArgmax: string)

  /**
    `ToxicNewProcessor._create_examples` (and the identical
    `ToxicDavisonProcessor._create_examples`): one example per row, no header
    skipped, identifiers counted from 0, label `str(ND_label)`.
   */
  method CreateTweetExamples(df: seq<TweetRow>, setType: string) returns (examples: seq<Example>)
    ensures |examples| == |df|
    ensures forall i :: 0 <= i < |df| ==>
      examples[i] == Example(Guid(setType, i), df[i].tweet, None, IntToString(df[i].ndLabel), NoEnvAttribute)
    ensures forall i, j :: 0 <= i < j < |examples| ==> examples[i].guid != examples[j].guid
  {
    examples := [];
    for i := 0 to |df|
      invariant |examples| == i
      invariant forall k :: 0 <= k < i ==>
        examples[k] == Example(Guid(setType, k), df[k].tweet, None, IntToString(df[k].ndLabel), NoEnvAttribute)
    {
      var guid := Guid(setType, i);
      var labelText := IntToString(df[i].ndLabel);
      examples := examples + [Example(guid, df[i].tweet, None, labelText, NoEnvAttribute)];
    }
    forall i, j | 0 <= i < j < |df|
      ensures examples[i].guid != examples[j].guid
    {
      if Guid(setType, i) == Guid(setType, j) {
        GuidInjective(setType, i, j);
      }
    }
  }

  /** The example `ToxicEnvProcessor` builds from row `i`, or the error its group tag raises. */
  function EnvRowExample(setType: string, i: nat, row: DialectRow, envType: string, m: Matchers): (r: Result<Example>)
    ensures r.Ok? <==> GroupTag(envType, row.tweet, row.dialectArgmax, m).Ok?
    ensures r.Err? ==> r.error == GroupTag(envType, row.tweet, row.dialectArgmax, m).error
    ensures r.Ok? ==> (r.value.guid == Guid(setType, i) && r.value.textA == row.tweet && r.value.textB == None
      && r.value.labelText == IntToString(row.ndLabel))
    ensures r.Ok? ==> r.value.env.EnvTag? && 0 <= r.value.env.tag <= 3
  {
    match GroupTag(envType, row.tweet, row.dialectArgmax, m)
    case Ok(t) => Ok(Example(Guid(setType, i), row.tweet, None, IntToString(row.ndLabel), EnvTag(t)))
    case Err(e) => Err(e)
  }

  /**
    `ToxicEnvProcessor._create_examples`: one tagged example per row; the
    tagging mode is examined row by row, so an unknown mode is reported at the
    first row and an empty table gives no examples and no error.
   */
  method CreateEnvExamples(df: seq<DialectRow>, setType: string, envType: string, m: Matchers)
    returns (r: Result<seq<Example>>)
    ensures r.Ok? <==> forall i :: 0 <= i < |df| ==> EnvRowExample(setType, i, df[i], envType, m).Ok?
    ensures r.Ok? ==> |r.value| == |df|
    ensures r.Ok? ==> forall i :: 0 <= i < |df| ==> r.value[i] == EnvRowExample(setType, i, df[i], envType, m).value
    ensures r.Err? ==> exists i :: (0 <= i < |df| && EnvRowExample(setType, i, df[i], envType, m) == Err(r.error)
      && forall j :: 0 <= j < i ==> EnvRowExample(setType, j, df[j], envType, m).Ok?)
    ensures !IsKnownEnvType(envType) ==>
      r == if |df| == 0 then Ok([]) else Err(ValueError("False Env Type: " + envType))
  {
    var examples := [];
    for i := 0 to |df|
      invariant |examples| == i
      invariant !IsKnownEnvType(envType) ==> i == 0
      invariant forall k :: 0 <= k < i ==> EnvRowExample(setType, k, df[k], envType, m).Ok?
      invariant forall k :: 0 <= k < i ==> examples[k] == EnvRowExample(setType, k, df[k], envType, m).value
    {
      var guid := Guid(setType, i);
      var tag := GroupTag(envType, df[i].tweet, df[i].dialectArgmax, m);
      if tag.Err? {
        assert EnvRowExample(setType, i, df[i], envType, m) == Err(tag.error);
        return Err(tag.error);
      }
      examples := examples + [Example(guid, df[i].tweet, None, IntToString(df[i].ndLabel), EnvTag(tag.value))];
    }
    return Ok(examples);
  }

  /** A row ("hello world", 0, "white") under `dialect` mode keeps label "0" and gets tag 2. */
  lemma EnvRowScenario(setType: string, m: Matchers)
    ensures EnvRowExample(setType, 0, DialectRow("hello world", 0, "white"), "dialect", m)
      == Ok(Example(Guid(setType, 0), "hello world", None, "0", EnvTag(2)))
  {
  }

  // ---------------------------------------------------------------------------
  // Tables read by position; row 0 is a header and is skipped
  // ---------------------------------------------------------------------------

  /** The number of rows after the header. */
  function DataRows(n: nat): nat
  {
    if n == 0 then 0 else n - 1
  }

  /**
    The `_create_examples` of `ToxicProcessor`, `ToxicTransProcessor` and
    `ToxicTransreProcessor`: one example per data row, text `line[-2]`, label
    `line[-1]`, identifiers keeping the row's own index (so they start at 1).
    `slot` is what the class built gives `env`: `EnvNone` for the
    `EnvInputExample` of `ToxicProcessor`, `NoEnvAttribute` for the plain
    `InputExample` of the other two.
   */
  method CreatePositionalExamples(lines: seq<seq<string>>, setType: string, slot: EnvSlot)
    returns (r: Result<seq<Example>>)
    requires slot == NoEnvAttribute || slot == EnvNone
    ensures r.Ok? <==> forall i :: 1 <= i < |lines| ==> |lines[i]| >= 2
    ensures r.Ok? ==> |r.value| == DataRows(|lines|)
    ensures r.Ok? ==> forall i :: 1 <= i < |lines| ==>
      r.value[i - 1] == Example(Guid(setType, i), lines[i][|lines[i]| - 2], None, lines[i][|lines[i]| - 1], slot)
    ensures r.Err? ==> r.error == IndexError
    ensures r.Ok? ==> forall i, j :: 0 <= i < j < |r.value| ==> r.value[i].guid != r.value[j].guid
  {
    var examples := [];
    for i := 0 to |lines|
      invariant |examples| == DataRows(i)
      invariant forall k :: 1 <= k < i ==> |lines[k]| >= 2
      invariant forall k :: 1 <= k < i ==>
        examples[k - 1] == Example(Guid(setType, k), lines[k][|lines[k]| - 2], None, lines[k][|lines[k]| - 1], slot)
    {
      if i == 0 {
        continue;
      }
      var line := lines[i];
      var guid := Guid(setType, i);
      if |line| < 2 {
        return Err(IndexError);
      }
      examples := examples + [Example(guid, line[|line| - 2], None, line[|line| - 1], slot)];
    }
    forall i, j | 0 <= i < j < |examples|
      ensures examples[i].guid != examples[j].guid
    {
      if Guid(setType, i + 1) == Guid(setType, j + 1) {
        GuidInjective(setType, i + 1, j + 1);
      }
    }
    return Ok(examples);
  }

  /** A translated row yields its examples: it has a column 18 and `float` accepts column 3. */
  predicate TransRowOk(line: seq<string>, normalise: string -> Result<string>)
  {
    |line| > 18 && normalise(line[3]).Ok?
  }

  /** What a translated row that fails raises: a missing column first, then the label conversion. */
  function TransRowError(line: seq<string>, normalise: string -> Result<string>): Error
    requires !TransRowOk(line, normalise)
  {
    if |line| <= 18 then IndexError else normalise(line[3]).error
  }

  /**
    `ToxicTransProcessor._create_examples_trans`: per data row, the original
    text (column 17) and then its translation (column 18), as two examples with
    the same identifier and the label `str(int(float(line[3])))`, which
    `normalise` stands for: it fails with `ValueError` where `float` refuses
    the text and with `OverflowError` where `int` refuses an infinite value.
   */
  method CreateTransConcatExamples(lines: seq<seq<string>>, setType: string, normalise: string -> Result<string>)
    returns (r: Result<seq<Example>>)
    ensures r.Ok? <==> forall i :: 1 <= i < |lines| ==> TransRowOk(lines[i], normalise)
    ensures r.Ok? ==> |r.value| == 2 * DataRows(|lines|)
    ensures r.Ok? ==> forall i :: 1 <= i < |lines| ==>
      && r.value[2 * i - 2] == Example(Guid(setType, i), lines[i][17], None, normalise(lines[i][3]).value, NoEnvAttribute)
      && r.value[2 * i - 1] == Example(Guid(setType, i), lines[i][18], None, normalise(lines[i][3]).value, NoEnvAttribute)
    ensures r.Err? ==> exists i :: (1 <= i < |lines| && !TransRowOk(lines[i], normalise)
      && r.error == TransRowError(lines[i], normalise)
      && forall j :: 1 <= j < i ==> TransRowOk(lines[j], normalise))
  {
    var examples := [];
    for i := 0 to |lines|
      invariant |examples| == 2 * DataRows(i)
      invariant forall k :: 1 <= k < i ==> TransRowOk(lines[k], normalise)
      invariant forall k :: 1 <= k < i ==>
        && examples[2 * k - 2] == Example(Guid(setType, k), lines[k][17], None, normalise(lines[k][3]).value, NoEnvAttribute)
        && examples[2 * k - 1] == Example(Guid(setType, k), lines[k][18], None, normalise(lines[k][3]).value, NoEnvAttribute)
    {
      if i == 0 {
        continue;
      }
      var line := lines[i];
      var guid := Guid(setType, i);
      if |line| <= 18 {
        return Err(IndexError);
      }
      var textA, textTrans := line[17], line[18];
      var labelText := normalise(line[3]);
      if labelText.Err? {
        return Err(labelText.error);
      }
      examples := examples
        + [Example(guid, textA, None, labelText.value, NoEnvAttribute)]
        + [Example(guid, textTrans, None, labelText.value, NoEnvAttribute)];
    }
    return Ok(examples);
  }

  /**
    `ToxicTransreProcessor._create_examples_trans`: one example per data row
    holding the original (column 17) as first text and the translation
    (column 18) as second text.
   */
  method CreateTransPairExamples(lines: seq<seq<string>>, setType: string, normalise: string -> Result<string>)
    returns (r: Result<seq<Example>>)
    ensures r.Ok? <==> forall i :: 1 <= i < |lines| ==> TransRowOk(lines[i], normalise)
    ensures r.Ok? ==> |r.value| == DataRows(|lines|)
    ensures r.Ok? ==> forall i :: 1 <= i < |lines| ==>
      r.value[i - 1] == Example(Guid(setType, i), lines[i][17], Some(lines[i][18]), normalise(lines[i][3]).value, NoEnvAttribute)
    ensures r.Err? ==> exists i :: (1 <= i < |lines| && !TransRowOk(lines[i], normalise)
      && r.error == TransRowError(lines[i], normalise)
      && forall j :: 1 <= j < i ==> TransRowOk(lines[j], normalise))
  {
    var examples := [];
    for i := 0 to |lines|
      invariant |examples| == DataRows(i)
      invariant forall k :: 1 <= k < i ==> TransRowOk(lines[k], normalise)
      invariant forall k :: 1 <= k < i ==>
        examples[k - 1] == Example(Guid(setType, k), lines[k][17], Some(lines[k][18]), normalise(lines[k][3]).value, NoEnvAttribute)
    {
      if i == 0 {
        continue;
      }
      var line := lines[i];
      var guid := Guid(setType, i);
      if |line| <= 18 {
        return Err(IndexError);
      }
      var textA, textTrans := line[17], line[18];
      var labelText := normalise(line[3]);
      if labelText.Err? {
        return Err(labelText.error);
      }
      examples := examples + [Example(guid, textA, Some(textTrans), labelText.value, NoEnvAttribute)];
    }
    return Ok(examples);
  }

  /**
    `ToxicEvalProcessor._create_examples`: per data row, the text of column 9
    and then the back-translated text of column 11, both labelled with column 10
    and sharing the identifier.
   */
  method CreateEvalExamples(lines: seq<seq<string>>, setType: string) returns (r: Result<seq<Example>>)
    ensures r.Ok? <==> forall i :: 1 <= i < |lines| ==> |lines[i]| > 11
    ensures r.Ok? ==> |r.value| == 2 * DataRows(|lines|)
    ensures r.Ok? ==> forall i :: 1 <= i < |lines| ==>
      && r.value[2 * i - 2] == Example(Guid(setType, i), lines[i][9], None, lines[i][10], NoEnvAttribute)
      && r.value[2 * i - 1] == Example(Guid(setType, i), lines[i][11], None, lines[i][10], NoEnvAttribute)
    ensures r.Err? ==> r.error == IndexError
  {
    var examples := [];
    for i := 0 to |lines|
      invariant |examples| == 2 * DataRows(i)
      invariant forall k :: 1 <= k < i ==> |lines[k]| > 11
      invariant forall k :: 1 <= k < i ==>
        && examples[2 * k - 2] == Example(Guid(setType, k), lines[k][9], None, lines[k][10], NoEnvAttribute)
        && examples[2 * k - 1] == Example(Guid(setType, k), lines[k][11], None, lines[k][10], NoEnvAttribute)
    {
      if i == 0 {
        continue;
      }
      var line := lines[i];
      var guid := Guid(setType, i);
      if |line| <= 11 {
        return Err(IndexError);
      }
      var textA, textATrans, labelText := line[9], line[11], line[10];
      examples := examples
        + [Example(guid, textA, None, labelText, NoEnvAttribute)]
        + [Example(guid, textATrans, None, labelText, NoEnvAttribute)];
    }
    return Ok(examples);
  }

  /** The fields of a text line: stripped of surrounding white space, then split at each '\x01'. */
  function LineFields(line: string): seq<string>
  {
    Split(Strip(line), '\U{1}')
  }

  /**
    `ToxicEvalProcessor._create_examples_s`: one example per data line, whose
    fields (see `LineFields`) give the text at position 3 and the label at
    position 1.
   */
  method CreateFieldLineExamples(lines: seq<string>, setType: string) returns (r: Result<seq<Example>>)
    ensures r.Ok? <==> forall i :: 1 <= i < |lines| ==> |LineFields(lines[i])| >= 4
    ensures r.Ok? ==> |r.value| == DataRows(|lines|)
    ensures r.Ok? ==> forall i :: 1 <= i < |lines| ==>
      r.value[i - 1] == Example(Guid(setType, i), LineFields(lines[i])[3], None, LineFields(lines[i])[1], NoEnvAttribute)
    ensures r.Err? ==> r.error == IndexError
  {
    var examples := [];
    for i := 0 to |lines|
      invariant |examples| == DataRows(i)
      invariant forall k :: 1 <= k < i ==> |LineFields(lines[k])| >= 4
      invariant forall k :: 1 <= k < i ==>
        examples[k - 1] == Example(Guid(setType, k), LineFields(lines[k])[3], None, LineFields(lines[k])[1], NoEnvAttribute)
    {
      if i == 0 {
        continue;
      }
      var guid := Guid(setType, i);
      var fields := LineFields(lines[i]);
      if |fields| < 4 {
        return Err(IndexError);
      }
      examples := examples + [Example(guid, fields[3], None, fields[1], NoEnvAttribute)];
    }
    return Ok(examples);
  }
}
