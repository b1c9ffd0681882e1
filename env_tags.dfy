/**
  The group tag `env` that `ToxicEnvProcessor` attaches to each example, under
  the three tagging modes `dialect`, `aae` and `mention`.
 */
module EnvTags {
  import opened Outcomes

  /** `ToxicEnvProcessor.env2id`. */
  const Env2Id: map<string, int> := map["aav" := 0, "hispanic" := 1, "white" := 2, "other" := 3]

  /**
    The three compiled word-list patterns `idtyRe`, `oiRe` and `oniRe`, each
    seen only through "does `findall` report at least one match in this text".
   */
  datatype Matchers = Matchers(idty: string -> bool, oi: string -> bool, oni: string -> bool)

  /** The matcher of priority `j`: 0 for `idtyRe`, 1 for `oiRe`, 2 for `oniRe`. */
  function MatcherAt(m: Matchers, j: nat): string -> bool
    requires j < 3
  {
    if j == 0 then m.idty else if j == 1 then m.oi else m.oni
  }

  predicate IsKnownEnvType(envType: string)
  {
    envType == "dialect" || envType == "aae" || envType == "mention"
  }

  /** The `mention` tag: the priority of the first matcher that finds something in `text`, or 3 if none does. */
  function MentionTag(m: Matchers, text: string): (tag: nat)
    ensures tag <= 3
    ensures tag < 3 ==> MatcherAt(m, tag)(text)
    ensures forall j :: 0 <= j < tag && j < 3 ==> !MatcherAt(m, j)(text)
  {
    if m.idty(text) then 0
    else if m.oi(text) then 1
    else if m.oni(text) then 2
    else 3
  }

  /**
    The tag of one row, from its tweet text and its `dialect_argmax` value.
    `dialect` looks the value up in `Env2Id`, `aae` tests it against "aae",
    `mention` runs the three matchers on the text; any other mode is refused.
   */
  function GroupTag(envType: string, text: string, dialect: string, m: Matchers): (r: Result<int>)
    ensures !IsKnownEnvType(envType) ==> r == Err(ValueError("False Env Type: " + envType))
    ensures r.Ok? ==> 0 <= r.value <= 3
    ensures envType == "dialect" ==> (r.Ok? <==> dialect in Env2Id)
    ensures envType == "dialect" && r.Ok? ==> r.value == Env2Id[dialect]
    ensures envType == "dialect" && r.Err? ==> r.error == KeyError(Some(dialect))
    ensures envType == "aae" ==> r.Ok? && (r.value == 1 <==> dialect == "aae") && (r.value == 0 <==> dialect != "aae")
    ensures envType == "mention" ==> r == Ok(MentionTag(m, text) as int)
  {
    if envType == "dialect" then
      if dialect in Env2Id then Ok(Env2Id[dialect]) else Err(KeyError(Some(dialect)))
    else if envType == "aae" then
      Ok(if dialect == "aae" then 1 else 0)
    else if envType == "mention" then
      Ok(MentionTag(m, text) as int)
    else
      Err(ValueError("False Env Type: " + envType))
  }

  /** The four dialect categories get four distinct tags, 0 to 3. */
  lemma DialectTagsDistinct(d1: string, d2: string)
    requires d1 in Env2Id && d2 in Env2Id && d1 != d2
    ensures Env2Id[d1] != Env2Id[d2]
    ensures 0 <= Env2Id[d1] <= 3
  {
  }

  /** `dialect` mode: "hispanic" is tag 1, and a value outside the four categories is a lookup error. */
  lemma DialectExamples(text: string, m: Matchers)
    ensures GroupTag("dialect", text, "hispanic", m) == Ok(1)
    ensures GroupTag("dialect", text, "white", m) == Ok(2)
    ensures GroupTag("dialect", text, "unknown_region", m) == Err(KeyError(Some("unknown_region")))
  {
  }

  /**
    `aae` mode compares with "aae", which is not one of the four category
    names `dialect` mode accepts; every row that `dialect` mode can tag is
    therefore tagged 0 by `aae` mode.
   */
  lemma AaeTagsDialectCategoriesZero(text: string, dialect: string, m: Matchers)
    requires dialect in Env2Id
    ensures GroupTag("aae", text, dialect, m) == Ok(0)
  {
  }

  /** `mention` mode: a text that both the first and the second list match is tagged 0, not 1. */
  lemma MentionPriority(text: string, m: Matchers)
    requires m.idty(text) && m.oi(text)
    ensures GroupTag("mention", text, "", m) == Ok(0)
  {
  }
}
