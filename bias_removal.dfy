/**
  The word-list bias removal script: it reads a word list (one entry per
  line after a header, the word being the text before the first comma), then
  copies a text file line by line, deleting from each line every occurrence
  of every word, one word after the other.
 */
module BiasRemoval {
  import opened Text

  /** The words of the list: the first comma-separated field of every line after the header. */
  method BuildWordList(wordFile: seq<string>) returns (words: seq<string>)
    ensures |words| == if |wordFile| == 0 then 0 else |wordFile| - 1
    ensures forall k :: 0 <= k < |words| ==> words[k] == FirstField(wordFile[k + 1], ',')
    ensures forall k :: 0 <= k < |words| ==> ',' !in words[k] && words[k] <= wordFile[k + 1]
  {
    words := [];
    var body := if |wordFile| == 0 then [] else wordFile[1..];
    for k := 0 to |body|
      invariant |words| == k
      invariant forall j :: 0 <= j < k ==> words[j] == FirstField(wordFile[j + 1], ',')
    {
      words := words + [Split(body[k], ',')[0]];
      SplitFirstField(body[k], ',');
    }
  }

  /**
    One line after the deletion pass: the words are applied in list order,
    each deletion working on what the previous ones left.
   */
  function RemoveWords(line: string, words: seq<string>): (r: string)
    ensures |r| <= |line|
  {
    if |words| == 0 then line
    else DeleteAll(RemoveWords(line, words[..|words| - 1]), words[|words| - 1])
  }

  /**
    The copy loop: one output line per input line, in order, each the input
    line with the words removed. Only literal words are modelled; the
    requirement says the list holds no regular-expression operators.
   */
  method StripLines(lines: seq<string>, words: seq<string>) returns (out: seq<string>)
    requires forall k :: 0 <= k < |words| ==> IsLiteralPattern(words[k])
    ensures |out| == |lines|
    ensures forall k :: 0 <= k < |lines| ==> out[k] == RemoveWords(lines[k], words)
  {
    out := [];
    for k := 0 to |lines|
      invariant |out| == k
      invariant forall j :: 0 <= j < k ==> out[j] == RemoveWords(lines[j], words)
    {
      var line := lines[k];
      for j := 0 to |words|
        invariant line == RemoveWords(lines[k], words[..j])
      {
        assert words[..j + 1][..j] == words[..j];
        line := DeleteAll(line, words[j]);
      }
      assert words[..|words|] == words;
      out := out + [line];
    }
  }

  /**
    Removing a list of words is removing its first part and then, from what
    is left, its second part: the pass over the words is a left-to-right
    composition of single-word deletions.
   */
  lemma {:induction false} RemoveWordsConcat(line: string, first: seq<string>, second: seq<string>)
    ensures RemoveWords(line, first + second) == RemoveWords(RemoveWords(line, first), second)
    decreases |second|
  {
    if |second| == 0 {
      assert first + second == first;
    } else {
      var all := first + second;
      assert all[..|all| - 1] == first + second[..|second| - 1];
      assert all[|all| - 1] == second[|second| - 1];
      RemoveWordsConcat(line, first, second[..|second| - 1]);
    }
  }

  /** A line in which no listed word occurs is copied unchanged. */
  lemma {:induction false} RemoveWordsUnchanged(line: string, words: seq<string>)
    requires forall k :: 0 <= k < |words| ==> !Occurs(line, words[k])
    ensures RemoveWords(line, words) == line
  {
    if |words| > 0 {
      RemoveWordsUnchanged(line, words[..|words| - 1]);
      DeleteAllUnchanged(line, words[|words| - 1]);
    }
  }

  /**
    A single listed word between two stretches of text that do not contain
    its first character is cut out, and the text on both sides stays.
   */
  lemma {:induction false} RemoveSingleWord(before: string, w: string, after: string)
    requires |w| > 0
    requires forall k :: 0 <= k < |before| ==> before[k] != w[0]
    requires forall k :: 0 <= k < |after| ==> after[k] != w[0]
    ensures RemoveWords(before + w + after, [w]) == before + after
  {
    assert [w][..0] == [];
    assert before + w + after == before + (w + after);
    DeleteAllSkipsPrefix(before, w + after, w);
    assert (w + after)[|w|..] == after;
    DeleteAllSkipsPrefix(after, "", w);
    assert after + "" == after;
  }

  /** "bad" is cut out of "so bad now\n", and both spaces around it stay. */
  lemma BadwordExample()
    ensures RemoveWords("so bad now\n", ["bad"]) == "so  now\n"
  {
    var before, after := "so ", " now\n";
    assert "so bad now\n" == before + "bad" + after;
    assert "so  now\n" == before + after;
    RemoveSingleWord(before, "bad", after);
  }

  /**
    Each word gets one pass: deleting "x" after "ab" joins an "a" and a "b"
    into a fresh "ab" that stays, and deleting "ab" once from "aabb" leaves
    the "ab" formed by the join.
   */
  lemma SinglePassExamples()
    ensures RemoveWords("axb", ["ab", "x"]) == "ab"
    ensures RemoveWords("aabb", ["ab"]) == "ab"
  {
    assert ["ab", "x"][..1] == ["ab"];
    assert ["ab"][..0] == [];
    assert DeleteAll("axb", "ab") == "axb" by {
      assert !Occurs("axb", "ab") by {
        forall i | 0 <= i <= 3 ensures !OccursAt("axb", "ab", i) {
          if i == 0 { assert "axb"[1] != "ab"[1]; }
          if i == 1 { assert "axb"[1] != "ab"[0]; }
        }
      }
      DeleteAllUnchanged("axb", "ab");
    }
    assert "axb" == "a" + "xb";
    DeleteAllSkipsPrefix("a", "xb", "x");
    assert "x" <= "xb" && "xb"[1..] == "b";
    DeleteAllSkipsPrefix("b", "", "x");
    assert "b" + "" == "b";
    assert "aabb" == "a" + "abb";
    assert !("ab" <= "aabb") by { assert "aabb"[1] != "ab"[1]; }
    assert "aabb"[1..] == "abb";
    assert "ab" <= "abb" && "abb"[2..] == "b";
    assert !("ab" <= "b");
    assert "b"[1..] == "";
  }
}
