/**
  `glue_convert_examples_to_features`: each example becomes a fixed-length
  record of token ids, attention mask and segment ids, padded on the
  configured side, plus a resolved label. The segment-id channel carries the
  example's group tag over its real span.
 */
module Features {
  import opened Outcomes
  import opened Records
  import opened Processors

  /** A resolved label: an index into the label list, or a regression value. */
  datatype LabelValue = ClassIndex(index: nat) | RegressionValue(value: real)

  /** `InputFeatures`. Segment ids may hold Python's `None` (an `EnvInputExample` whose env is `None`). */
  datatype Feature = Feature(inputIds: seq<int>, attentionMask: seq<int>, tokenTypeIds: seq<Option<int>>, labelValue: LabelValue)

  /** The two entries of the tokenizer's answer that the encoder reads. */
  datatype Encoding = Encoding(inputIds: seq<int>, tokenTypeIds: seq<int>)

  /**
    `tokenizer.encode_plus(text_a, text_b, add_special_tokens=True, max_length=max_length)`,
    an external library, seen as a function of its three varying arguments.
   */
  type Tokenizer = (string, Option<string>, int) -> Encoding

  /** The padding arguments of the encoder. */
  datatype PadConfig = PadConfig(
    maxLength: int,
    padOnLeft: bool,
    padToken: int,
    padTokenSegmentId: int,
    maskPaddingWithZero: bool)

  /** Python's `[x] * k`: empty when `k` is zero or negative. */
  function Repeat<T>(x: T, k: int): (r: seq<T>)
    ensures |r| == if k > 0 then k else 0
    ensures forall i :: 0 <= i < |r| ==> r[i] == x
    decreases if k > 0 then k else 0
  {
    if k <= 0 then [] else [x] + Repeat(x, k - 1)
  }

  /** `padLen` copies of `fill` put before (`onLeft`) or after `xs`. */
  function Pad<T>(xs: seq<T>, fill: T, padLen: int, onLeft: bool): (r: seq<T>)
    ensures |r| == |xs| + (if padLen > 0 then padLen else 0)
    ensures onLeft ==> r[|r| - |xs|..] == xs && forall k :: 0 <= k < |r| - |xs| ==> r[k] == fill
    ensures !onLeft ==> r[..|xs|] == xs && forall k :: |xs| <= k < |r| ==> r[k] == fill
  {
    if onLeft then Repeat(fill, padLen) + xs else xs + Repeat(fill, padLen)
  }

  /** Reading back the first `n` (right padding) or last `n` (left padding) positions. */
  function Unpad<T>(r: seq<T>, n: nat, onLeft: bool): seq<T>
    requires n <= |r|
  {
    if onLeft then r[|r| - n..] else r[..n]
  }

  /**
    `{label: i for i, label in enumerate(label_list)}`: every listed label maps
    to an index where it stands, and, as later entries overwrite earlier ones,
    to the last such index.
   */
  function LabelMap(labels: seq<string>): (m: map<string, nat>)
    ensures forall l :: l in m <==> l in labels
    ensures forall l :: l in m ==> m[l] < |labels| && labels[m[l]] == l
    ensures forall l, j :: l in m && m[l] < j < |labels| ==> labels[j] != l
    decreases |labels|
  {
    if |labels| == 0 then map[]
    else LabelMap(labels[..|labels| - 1])[labels[|labels| - 1] := |labels| - 1]
  }

  /** The label of one example under the output mode (lines 156-161). */
  function ResolveLabel(outputMode: Option<string>, labelMap: map<string, nat>, labelText: string,
                        parseFloat: string -> Option<real>): (r: Result<LabelValue>)
    ensures outputMode == Some("classification") ==>
      (r.Ok? <==> labelText in labelMap) && (r.Ok? ==> r.value == ClassIndex(labelMap[labelText]))
      && (r.Err? ==> r.error == KeyError(Some(labelText)))
    ensures outputMode == Some("regression") ==>
      (r.Ok? <==> parseFloat(labelText).Some?) && (r.Ok? ==> r.value == RegressionValue(parseFloat(labelText).value))
      && (r.Err? ==> r.error == ValueError(labelText))
    ensures outputMode != Some("classification") && outputMode != Some("regression") ==> r == Err(KeyError(outputMode))
  {
    if outputMode == Some("classification") then
      if labelText in labelMap then Ok(ClassIndex(labelMap[labelText])) else Err(KeyError(Some(labelText)))
    else if outputMode == Some("regression") then
      match parseFloat(labelText)
      case Some(v) => Ok(RegressionValue(v))
      case None => Err(ValueError(labelText))
    else
      Err(KeyError(outputMode))
  }

  /**
    Classification resolves exactly the labels of the list, each to the last
    index where it is listed; any other label is a lookup error naming it, and
    an output mode that is neither classification nor regression is refused.
   */
  lemma ClassificationLabels(labels: seq<string>, labelText: string, parseFloat: string -> Option<real>)
    ensures var r := ResolveLabel(Some("classification"), LabelMap(labels), labelText, parseFloat);
      && (r.Ok? <==> labelText in labels)
      && (r.Ok? ==> (r.value.ClassIndex? && labels[r.value.index] == labelText
            && forall j :: r.value.index < j < |labels| ==> labels[j] != labelText))
      && (r.Err? ==> r.error == KeyError(Some(labelText)))
    ensures forall mode :: mode != Some("classification") && mode != Some("regression") ==>
      ResolveLabel(mode, LabelMap(labels), labelText, parseFloat) == Err(KeyError(mode))
  {
  }

  /** The segment value of an example's real span: its tag, or `None`. */
  function SegmentValue(env: EnvSlot): Option<int>
    requires env != NoEnvAttribute
  {
    if env.EnvTag? then Some(env.tag) else None
  }

  /** The tokenizer's answer for one example. */
  function Tokens(ex: Example, tokenize: Tokenizer, cfg: PadConfig): Encoding
  {
    tokenize(ex.textA, ex.textB, cfg.maxLength)
  }

  /** The attention-mask value of a real token (1 when `mask_padding_with_zero`) and of a padding position. */
  function RealMark(cfg: PadConfig): int { if cfg.maskPaddingWithZero then 1 else 0 }
  function PadMark(cfg: PadConfig): int { if cfg.maskPaddingWithZero then 0 else 1 }

  /**
    The loop body of `glue_convert_examples_to_features` for one example
    (lines 129-161): tokenize, build the mask, pad the three arrays on the
    configured side, check their lengths, resolve the label.
   */
  function ConvertExample(ex: Example, tokenize: Tokenizer, cfg: PadConfig, labelMap: map<string, nat>,
                          outputMode: Option<string>, parseFloat: string -> Option<real>): (r: Result<Feature>)
    ensures var enc := Tokens(ex, tokenize, cfg);
      r.Ok? <==> (ex.env != NoEnvAttribute && |enc.inputIds| <= cfg.maxLength
        && |enc.tokenTypeIds| == |enc.inputIds| && ResolveLabel(outputMode, labelMap, ex.labelText, parseFloat).Ok?)
    ensures r.Ok? ==> (|r.value.inputIds| == cfg.maxLength && |r.value.attentionMask| == cfg.maxLength
      && |r.value.tokenTypeIds| == cfg.maxLength)
    ensures r.Ok? ==> r.value.labelValue == ResolveLabel(outputMode, labelMap, ex.labelText, parseFloat).value
    ensures ex.env == NoEnvAttribute ==> r == Err(AttributeError)
    ensures ex.env != NoEnvAttribute && |Tokens(ex, tokenize, cfg).inputIds| > cfg.maxLength ==>
      r == Err(AssertionError(|Tokens(ex, tokenize, cfg).inputIds|, cfg.maxLength))
  {
    var enc := Tokens(ex, tokenize, cfg);
    var n := |enc.inputIds|;
    var padLen := cfg.maxLength - n;
    var inputIds := Pad(enc.inputIds, cfg.padToken, padLen, cfg.padOnLeft);
    var mask := Pad(Repeat(RealMark(cfg), n), PadMark(cfg), padLen, cfg.padOnLeft);
    if ex.env == NoEnvAttribute then Err(AttributeError)
    else
      var segments := Pad(Repeat(SegmentValue(ex.env), |enc.tokenTypeIds|), Some(cfg.padTokenSegmentId),
                          padLen, cfg.padOnLeft);
      if |inputIds| != cfg.maxLength then Err(AssertionError(|inputIds|, cfg.maxLength))
      else if |mask| != cfg.maxLength then Err(AssertionError(|mask|, cfg.maxLength))
      else if |segments| != cfg.maxLength then Err(AssertionError(|segments|, cfg.maxLength))
      else
        match ResolveLabel(outputMode, labelMap, ex.labelText, parseFloat)
        case Ok(l) => Ok(Feature(inputIds, mask, segments, l))
        case Err(e) => Err(e)
  }

  /**
    Right padding: position `k` holds the `k`-th token, a real-token mask value
    and the example's segment value while `k` is inside the tokenizer's
    output, and the padding token, the padding mask value and the padding
    segment id after it.
   */
  lemma RightPaddingLayout(ex: Example, tokenize: Tokenizer, cfg: PadConfig, labelMap: map<string, nat>,
                           outputMode: Option<string>, parseFloat: string -> Option<real>, k: int)
    requires !cfg.padOnLeft
    requires ConvertExample(ex, tokenize, cfg, labelMap, outputMode, parseFloat).Ok?
    requires 0 <= k < cfg.maxLength
    ensures var f := ConvertExample(ex, tokenize, cfg, labelMap, outputMode, parseFloat).value;
      var ids := Tokens(ex, tokenize, cfg).inputIds;
      && f.inputIds[k] == (if k < |ids| then ids[k] else cfg.padToken)
      && (f.attentionMask[k] == 1 <==> (k < |ids|) == cfg.maskPaddingWithZero)
      && (f.attentionMask[k] == 0 <==> (k < |ids|) != cfg.maskPaddingWithZero)
      && f.tokenTypeIds[k] == (if k < |ids| then SegmentValue(ex.env) else Some(cfg.padTokenSegmentId))
  {
    var enc := Tokens(ex, tokenize, cfg);
    var n := |enc.inputIds|;
    var padLen := cfg.maxLength - n;
    var mask := Pad(Repeat(RealMark(cfg), n), PadMark(cfg), padLen, false);
    var segments := Pad(Repeat(SegmentValue(ex.env), |enc.tokenTypeIds|), Some(cfg.padTokenSegmentId), padLen, false);
    if k < n {
      assert mask[k] == mask[..n][k];
      assert segments[k] == segments[..n][k];
    }
  }

  /** Left padding is the mirror image: the padding comes first, the tokenizer's output fills the last positions. */
  lemma LeftPaddingLayout(ex: Example, tokenize: Tokenizer, cfg: PadConfig, labelMap: map<string, nat>,
                          outputMode: Option<string>, parseFloat: string -> Option<real>, k: int)
    requires cfg.padOnLeft
    requires ConvertExample(ex, tokenize, cfg, labelMap, outputMode, parseFloat).Ok?
    requires 0 <= k < cfg.maxLength
    ensures var f := ConvertExample(ex, tokenize, cfg, labelMap, outputMode, parseFloat).value;
      var ids := Tokens(ex, tokenize, cfg).inputIds;
      var p := cfg.maxLength - |ids|;
      && f.inputIds[k] == (if k < p then cfg.padToken else ids[k - p])
      && (f.attentionMask[k] == 1 <==> (k >= p) == cfg.maskPaddingWithZero)
      && (f.attentionMask[k] == 0 <==> (k >= p) != cfg.maskPaddingWithZero)
      && f.tokenTypeIds[k] == (if k < p then Some(cfg.padTokenSegmentId) else SegmentValue(ex.env))
  {
    var enc := Tokens(ex, tokenize, cfg);
    var n := |enc.inputIds|;
    var padLen := cfg.maxLength - n;
    var inputIds := Pad(enc.inputIds, cfg.padToken, padLen, true);
    var mask := Pad(Repeat(RealMark(cfg), n), PadMark(cfg), padLen, true);
    var segments := Pad(Repeat(SegmentValue(ex.env), |enc.tokenTypeIds|), Some(cfg.padTokenSegmentId), padLen, true);
    if k >= padLen {
      assert inputIds[k] == inputIds[padLen..][k - padLen];
      assert mask[k] == mask[padLen..][k - padLen];
      assert segments[k] == segments[padLen..][k - padLen];
    }
  }

  /**
    Reading back the non-padded span recovers the tokenizer's output
    unchanged, and the mask marks exactly that span as real.
   */
  lemma UnpadRecoversTokens(ex: Example, tokenize: Tokenizer, cfg: PadConfig, labelMap: map<string, nat>,
                            outputMode: Option<string>, parseFloat: string -> Option<real>)
    requires ConvertExample(ex, tokenize, cfg, labelMap, outputMode, parseFloat).Ok?
    ensures var f := ConvertExample(ex, tokenize, cfg, labelMap, outputMode, parseFloat).value;
      var ids := Tokens(ex, tokenize, cfg).inputIds;
      && |ids| <= |f.inputIds|
      && Unpad(f.inputIds, |ids|, cfg.padOnLeft) == ids
      && Unpad(f.attentionMask, |ids|, cfg.padOnLeft) == Repeat(RealMark(cfg), |ids|)
  {
  }

  /** A tokenizer output of exactly `max_length` ids is left without any padding. */
  lemma ExactFitHasNoPadding(ex: Example, tokenize: Tokenizer, cfg: PadConfig, labelMap: map<string, nat>,
                             outputMode: Option<string>, parseFloat: string -> Option<real>)
    requires ConvertExample(ex, tokenize, cfg, labelMap, outputMode, parseFloat).Ok?
    requires |Tokens(ex, tokenize, cfg).inputIds| == cfg.maxLength
    ensures var f := ConvertExample(ex, tokenize, cfg, labelMap, outputMode, parseFloat).value;
      && f.inputIds == Tokens(ex, tokenize, cfg).inputIds
      && f.attentionMask == Repeat(RealMark(cfg), cfg.maxLength)
      && f.tokenTypeIds == Repeat(SegmentValue(ex.env), cfg.maxLength)
  {
    var n := cfg.maxLength;
    assert Repeat(cfg.padToken, 0) == [];
  }

  // ---------------------------------------------------------------------------
  // The whole routine
  // ---------------------------------------------------------------------------

  /** The label list and output mode the routine settles on before the loop (lines 109-118). */
  datatype Setup = Setup(labels: seq<string>, outputMode: Option<string>)

  /**
    With a task name, its processor must exist (its class is instantiated
    unconditionally), a missing label list comes from that processor's
    `get_labels` and a missing output mode from `glue_output_modes`; without
    a label list, building the label map fails.
   */
  function ResolveTask(task: Option<string>, labelList: Option<seq<string>>, outputMode: Option<string>): (r: Result<Setup>)
    ensures task.Some? && task.value !in GlueProcessors ==> r == Err(KeyError(task))
    ensures task.None? ==> r == if labelList.None? then Err(TypeError) else Ok(Setup(labelList.value, outputMode))
    ensures task.Some? && task.value in GlueProcessors ==> r.Ok?
    ensures r.Ok? && labelList.Some? ==> r.value.labels == labelList.value
    ensures r.Ok? && outputMode.Some? ==> r.value.outputMode == outputMode
    ensures task.Some? && task.value in GlueProcessors && labelList.None? ==>
      r.Ok? && r.value.labels == GetLabels(GlueProcessors[task.value])
    ensures task.Some? && task.value in GlueProcessors && outputMode.None? ==>
      r.Ok? && r.value.outputMode == Some(GlueOutputModes[task.value])
  {
    if task.Some? && task.value !in GlueProcessors then Err(KeyError(task))
    else
      var labels := if task.Some? && labelList.None? then Some(GetLabels(GlueProcessors[task.value])) else labelList;
      // every task with a processor has an output mode, so this lookup cannot fail
      var mode := if task.Some? && outputMode.None? then Some(GlueOutputModes[task.value]) else outputMode;
      if labels.None? then Err(TypeError) else Ok(Setup(labels.value, mode))
  }

  /** A registered task with no label list or mode given classifies "0" as 0 and "1" as 1. */
  lemma TaskDefaults(task: string, parseFloat: string -> Option<real>)
    requires task in GlueProcessors
    ensures ResolveTask(Some(task), None, None) == Ok(Setup(["0", "1"], Some("classification")))
    ensures ResolveLabel(Some("classification"), LabelMap(["0", "1"]), "0", parseFloat) == Ok(ClassIndex(0))
    ensures ResolveLabel(Some("classification"), LabelMap(["0", "1"]), "1", parseFloat) == Ok(ClassIndex(1))
  {
    ProcessorTasksHaveOutputModes(task);
    var m := LabelMap(["0", "1"]);
    assert ["0", "1"][1] == "1";
  }

  /** "toxic_eval" has an output mode but no processor, so naming it as the task fails. */
  lemma ToxicEvalTaskFails(labelList: Option<seq<string>>, outputMode: Option<string>)
    ensures "toxic_eval" in GlueOutputModes
    ensures ResolveTask(Some("toxic_eval"), labelList, outputMode) == Err(KeyError(Some("toxic_eval")))
  {
  }

  /**
    The examples converted one after another by `convert`, stopping at the
    first that fails: the outcome the loop of
    `glue_convert_examples_to_features` (lines 121-175) reaches once the label
    map and the output mode are fixed.
   */
  function ConvertEach(examples: seq<Example>, convert: Example -> Result<Feature>): (r: Result<seq<Feature>>)
    ensures r.Ok? ==> |r.value| == |examples|
    ensures r.Err? ==> |examples| > 0
    decreases |examples|
  {
    if |examples| == 0 then Ok([])
    else
      match ConvertEach(examples[..|examples| - 1], convert)
      case Err(e) => Err(e)
      case Ok(fs) =>
        match convert(examples[|examples| - 1])
        case Ok(f) => Ok(fs + [f])
        case Err(e) => Err(e)
  }

  /**
    Exactly one feature per example, in input order, nothing filtered, when
    every example converts; otherwise the error of the first example that
    does not.
   */
  lemma {:induction false} ConvertEachSpec(examples: seq<Example>, convert: Example -> Result<Feature>)
    ensures var r := ConvertEach(examples, convert);
      && (r.Ok? <==> forall k :: 0 <= k < |examples| ==> convert(examples[k]).Ok?)
      && (r.Ok? ==> |r.value| == |examples| && forall k :: 0 <= k < |examples| ==> r.value[k] == convert(examples[k]).value)
      && (r.Err? ==> exists k :: (0 <= k < |examples| && convert(examples[k]) == Err(r.error)
            && forall j :: 0 <= j < k ==> convert(examples[j]).Ok?))
    decreases |examples|
  {
    if |examples| > 0 {
      var n := |examples| - 1;
      var init := examples[..n];
      ConvertEachSpec(init, convert);
      assert forall k :: 0 <= k < n ==> init[k] == examples[k];
    }
  }

  /** Once a prefix of the examples has failed, the whole run fails with the same error. */
  lemma {:induction false} ConvertEachFailurePersists(examples: seq<Example>, i: nat, convert: Example -> Result<Feature>)
    requires i <= |examples|
    requires ConvertEach(examples[..i], convert).Err?
    ensures ConvertEach(examples, convert) == ConvertEach(examples[..i], convert)
    decreases |examples| - i
  {
    if i < |examples| {
      assert examples[..i + 1][..i] == examples[..i];
      ConvertEachFailurePersists(examples, i + 1, convert);
    } else {
      assert examples[..i] == examples;
    }
  }

  /** The loop of `glue_convert_examples_to_features`, converting each example with `convert`. */
  method ConvertAll(examples: seq<Example>, convert: Example -> Result<Feature>) returns (r: Result<seq<Feature>>)
    ensures r == ConvertEach(examples, convert)
  {
    var features := [];
    for exIndex := 0 to |examples|
      invariant ConvertEach(examples[..exIndex], convert) == Ok(features)
    {
      assert examples[..exIndex + 1][..exIndex] == examples[..exIndex];
      var feature := convert(examples[exIndex]);
      if feature.Err? {
        ConvertEachFailurePersists(examples, exIndex + 1, convert);
        return Err(feature.error);
      }
      features := features + [feature.value];
    }
    assert examples[..|examples|] == examples;
    return Ok(features);
  }

  /**
    `glue_convert_examples_to_features` for a list of examples: the label list
    and output mode are settled first, then every example is converted.
   */
  method ConvertExamplesToFeatures(examples: seq<Example>, tokenize: Tokenizer, cfg: PadConfig,
                                   task: Option<string>, labelList: Option<seq<string>>, outputMode: Option<string>,
                                   parseFloat: string -> Option<real>)
    returns (r: Result<seq<Feature>>)
    ensures ResolveTask(task, labelList, outputMode).Err? ==> r == Err(ResolveTask(task, labelList, outputMode).error)
    ensures ResolveTask(task, labelList, outputMode).Ok? ==>
      var s := ResolveTask(task, labelList, outputMode).value;
      r.Ok? <==> forall k :: 0 <= k < |examples| ==>
        ConvertExample(examples[k], tokenize, cfg, LabelMap(s.labels), s.outputMode, parseFloat).Ok?
    ensures r.Ok? ==>
      var s := ResolveTask(task, labelList, outputMode).value;
      && |r.value| == |examples|
      && forall k :: 0 <= k < |examples| ==>
        r.value[k] == ConvertExample(examples[k], tokenize, cfg, LabelMap(s.labels), s.outputMode, parseFloat).value
    ensures r.Err? && ResolveTask(task, labelList, outputMode).Ok? ==>
      var s := ResolveTask(task, labelList, outputMode).value;
      exists k :: (0 <= k < |examples|
        && ConvertExample(examples[k], tokenize, cfg, LabelMap(s.labels), s.outputMode, parseFloat) == Err(r.error)
        && forall j :: 0 <= j < k ==>
          ConvertExample(examples[j], tokenize, cfg, LabelMap(s.labels), s.outputMode, parseFloat).Ok?)
  {
    var setup := ResolveTask(task, labelList, outputMode);
    if setup.Err? {
      return Err(setup.error);
    }
    var labelMap := LabelMap(setup.value.labels);
    var mode := setup.value.outputMode;
    var convert := ex => ConvertExample(ex, tokenize, cfg, labelMap, mode, parseFloat);
    r := ConvertAll(examples, convert);
    ConvertEachSpec(examples, convert);
  }
}
