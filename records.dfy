/**
  The example record every processor produces, and the identifier scheme
  `"%s-%s" % (set_type, i)` that names it.
 */
module Records {
  import opened Outcomes
  import opened Text

  /**
    What reading `example.env` gives. The transformers `InputExample` class has
    no `env` field at all; `EnvInputExample` has one, which is `None` unless
    the processor computed a group tag.
   */
  datatype EnvSlot = NoEnvAttribute | EnvNone | EnvTag(tag: int)

  /** One labelled text: `InputExample` (env is `NoEnvAttribute`) or `EnvInputExample`. */
  datatype Example = Example(guid: string, textA: string, textB: Option<string>, labelText: string, env: EnvSlot)

  /** The identifier of the row at index `i` of split `setType`. */
  function Guid(setType: string, i: nat): (g: string)
    ensures |g| > |setType| + 1 && g[..|setType|] == setType && g[|setType|] == '-'
    ensures AllDigits(g[|setType| + 1..])
  {
    setType + "-" + NatToString(i)
  }

  /** Identifiers are unique within one split: different row indices give different identifiers. */
  lemma GuidInjective(setType: string, i: nat, j: nat)
    requires Guid(setType, i) == Guid(setType, j)
    ensures i == j
  {
    var p := |setType| + 1;
    assert NatToString(i) == Guid(setType, i)[p..];
    assert NatToString(j) == Guid(setType, j)[p..];
    NatToStringInjective(i, j);
  }
}
