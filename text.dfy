/**
  The few pieces of Python's `str` behaviour that the scripts rely on:
  `str(n)` for integers, `s.split(sep)` with a one-character separator,
  `s.strip()`, and deletion of a literal word as `re.sub(word, '', s)`
  performs it when `word` has no regular-expression metacharacters.
 */
module Text {

  // ---------------------------------------------------------------------------
  // Decimal rendering, as `str(n)` and the `%s` format of an integer
  // ---------------------------------------------------------------------------

  predicate IsDigit(c: char) { '0' <= c <= '9' }

  predicate AllDigits(s: string) { forall k :: 0 <= k < |s| ==> IsDigit(s[k]) }

  function DigitChar(d: nat): (c: char)
    requires d < 10
    ensures IsDigit(c) && DigitValue(c) == d
  {
    ('0' as int + d) as char
  }

  function DigitValue(c: char): nat
    requires IsDigit(c)
  {
    c as int - '0' as int
  }

  /** The decimal digits of `n`, without leading zeros. */
  function NatToString(n: nat): (s: string)
    ensures |s| >= 1 && AllDigits(s)
    ensures |s| > 1 ==> s[0] != '0'
    decreases n
  {
    if n < 10 then [DigitChar(n)] else NatToString(n / 10) + [DigitChar(n % 10)]
  }

  /** `str(i)` for a Python int: a minus sign in front of a negative value. */
  function IntToString(i: int): (s: string)
    ensures |s| >= 1
    ensures s[0] == '-' <==> i < 0
  {
    if i < 0 then "-" + NatToString(-i) else NatToString(i)
  }

  /** Reads a string of decimal digits back as a number. */
  function ParseNat(s: string): nat
    requires AllDigits(s)
  {
    if |s| == 0 then 0 else 10 * ParseNat(s[..|s| - 1]) + DigitValue(s[|s| - 1])
  }

  /** Rendering then reading gives the number back. */
  lemma {:induction false} ParseNatToString(n: nat)
    ensures ParseNat(NatToString(n)) == n
    decreases n
  {
    var s := NatToString(n);
    if n >= 10 {
      ParseNatToString(n / 10);
      assert s[..|s| - 1] == NatToString(n / 10);
    }
  }

  /** Two numbers render the same only if they are equal. */
  lemma NatToStringInjective(m: nat, n: nat)
    requires NatToString(m) == NatToString(n)
    ensures m == n
  {
    ParseNatToString(m);
    ParseNatToString(n);
  }

  // ---------------------------------------------------------------------------
  // `s.split(sep)` with an explicit one-character separator
  // ---------------------------------------------------------------------------

  /** Python's `s.split(sep)`: the pieces between separators; `"".split(sep) == [""]`. */
  function Split(s: string, sep: char): (fields: seq<string>)
    ensures |fields| >= 1
    decreases |s|
  {
    if |s| == 0 then [""]
    else
      var rest := Split(s[1..], sep);
      if s[0] == sep then [""] + rest else [[s[0]] + rest[0]] + rest[1..]
  }

  /** No field contains the separator. */
  lemma {:induction false} SplitFieldsSeparatorFree(s: string, sep: char)
    ensures forall k :: 0 <= k < |Split(s, sep)| ==> sep !in Split(s, sep)[k]
    decreases |s|
  {
    if |s| > 0 {
      SplitFieldsSeparatorFree(s[1..], sep);
    }
  }

  /** `sep.join(fields)`. */
  function Join(fields: seq<string>, sep: char): string
    decreases |fields|
  {
    if |fields| == 0 then ""
    else if |fields| == 1 then fields[0]
    else fields[0] + [sep] + Join(fields[1..], sep)
  }

  /** Splitting loses nothing: joining the fields with the separator restores the text. */
  lemma {:induction false} JoinSplit(s: string, sep: char)
    ensures Join(Split(s, sep), sep) == s
    decreases |s|
  {
    if |s| > 0 {
      var rest := Split(s[1..], sep);
      JoinSplit(s[1..], sep);
      if s[0] == sep {
        assert Split(s, sep) == [""] + rest;
        assert Join([""] + rest, sep) == "" + [sep] + Join(rest, sep) by {
          assert ([""] + rest)[1..] == rest;
        }
        assert s == [s[0]] + s[1..];
      } else {
        var fields := [[s[0]] + rest[0]] + rest[1..];
        if |rest| == 1 {
          assert Join(fields, sep) == [s[0]] + rest[0];
        } else {
          assert fields[1..] == rest[1..];
          assert Join(rest, sep) == rest[0] + [sep] + Join(rest[1..], sep);
        }
        assert s == [s[0]] + s[1..];
      }
    }
  }

  /** The number of occurrences of `c` in `s`. */
  function CountChar(s: string, c: char): nat
    decreases |s|
  {
    if |s| == 0 then 0 else (if s[0] == c then 1 else 0) + CountChar(s[1..], c)
  }

  /** There is one more field than there are separators. */
  lemma {:induction false} SplitFieldCount(s: string, sep: char)
    ensures |Split(s, sep)| == CountChar(s, sep) + 1
    decreases |s|
  {
    if |s| > 0 {
      SplitFieldCount(s[1..], sep);
    }
  }

  /** The first field of `Split(s, sep)` is the text before the first separator, or all of it. */
  lemma {:induction false} SplitFirstField(s: string, sep: char)
    ensures var f := Split(s, sep)[0];
      |f| <= |s| && f == s[..|f|] && (|f| < |s| ==> s[|f|] == sep)
    decreases |s|
  {
    if |s| > 0 && s[0] != sep {
      SplitFirstField(s[1..], sep);
    }
  }

  /** `s.split(sep)[0]`: the prefix of `s` up to (not including) the first `sep`, or `s` when there is none. */
  function FirstField(s: string, sep: char): (f: string)
    ensures |f| <= |s| && f == s[..|f|] && sep !in f
    ensures |f| < |s| ==> s[|f|] == sep
    ensures sep !in s ==> f == s
  {
    SplitFirstField(s, sep);
    SplitFieldsSeparatorFree(s, sep);
    Split(s, sep)[0]
  }

  // ---------------------------------------------------------------------------
  // `s.strip()` with no argument
  // ---------------------------------------------------------------------------

  /** The characters for which Python's `str.isspace()` holds. */
  predicate IsSpace(c: char)
  {
    || '\t' <= c <= '\r'
    || '\U{1C}' <= c <= ' '
    || c == '\U{85}' || c == '\U{A0}' || c == '\U{1680}'
    || '\U{2000}' <= c <= '\U{200A}'
    || c == '\U{2028}' || c == '\U{2029}' || c == '\U{202F}' || c == '\U{205F}' || c == '\U{3000}'
  }

  function StripLeft(s: string): string
    decreases |s|
  {
    if |s| > 0 && IsSpace(s[0]) then StripLeft(s[1..]) else s
  }

  function StripRight(s: string): string
    decreases |s|
  {
    if |s| > 0 && IsSpace(s[|s| - 1]) then StripRight(s[..|s| - 1]) else s
  }

  /** `StripLeft` drops a prefix made only of white space, and stops at the first other character. */
  lemma {:induction false} StripLeftSpec(s: string)
    ensures var r := StripLeft(s);
      && |r| <= |s| && r == s[|s| - |r|..]
      && (forall k :: 0 <= k < |s| - |r| ==> IsSpace(s[k]))
      && (|r| > 0 ==> !IsSpace(r[0]))
    decreases |s|
  {
    if |s| > 0 && IsSpace(s[0]) {
      StripLeftSpec(s[1..]);
    }
  }

  /** `StripRight` drops a suffix made only of white space, and stops at the last other character. */
  lemma {:induction false} StripRightSpec(s: string)
    ensures var r := StripRight(s);
      && |r| <= |s| && r == s[..|r|]
      && (forall k :: |r| <= k < |s| ==> IsSpace(s[k]))
      && (|r| > 0 ==> !IsSpace(r[|r| - 1]))
    decreases |s|
  {
    if |s| > 0 && IsSpace(s[|s| - 1]) {
      StripRightSpec(s[..|s| - 1]);
    }
  }

  /** `r` is `s` from position `a` on, with only white space cut from either end. */
  predicate StrippedAt(s: string, r: string, a: int)
  {
    && 0 <= a <= |s| - |r| && r == s[a..a + |r|]
    && (forall k :: 0 <= k < a ==> IsSpace(s[k]))
    && (forall k :: a + |r| <= k < |s| ==> IsSpace(s[k]))
  }

  /** Python's `s.strip()`: white space removed from both ends. */
  function Strip(s: string): (r: string)
    ensures |r| <= |s|
    ensures |r| > 0 ==> !IsSpace(r[0]) && !IsSpace(r[|r| - 1])
  {
    StripLeftSpec(s);
    StripRightSpec(StripLeft(s));
    StripRight(StripLeft(s))
  }

  /** `Strip` cuts only white space, from the two ends, and leaves none at either end. */
  lemma StripTrims(s: string)
    ensures var r := Strip(s);
      && (exists a :: StrippedAt(s, r, a))
      && (|r| > 0 ==> !IsSpace(r[0]) && !IsSpace(r[|r| - 1]))
  {
    var l := StripLeft(s);
    var r := StripRight(l);
    StripLeftSpec(s);
    StripRightSpec(l);
    var a := |s| - |l|;
    assert r == s[a..a + |r|];
    assert forall k :: a + |r| <= k < |s| ==> s[k] == l[k - a];
    assert StrippedAt(s, r, a);
    assert |r| > 0 ==> r[0] == l[0];
    assert r == Strip(s);
    assert |r| > 0 ==> !IsSpace(r[0]);
    assert |r| > 0 ==> !IsSpace(r[|r| - 1]);
  }

  // ---------------------------------------------------------------------------
  // `re.sub(word, '', s)` and `re.findall(word, s)` for a literal word
  // ---------------------------------------------------------------------------

  /** The characters that make a pattern something other than its own literal text. */
  predicate IsRegexMeta(c: char)
  {
    c in {'.', '^', '$', '*', '+', '?', '{', '}', '[', ']', '\\', '|', '(', ')'}
  }

  /** A word that `re` reads as the literal string it is. */
  predicate IsLiteralPattern(w: string)
  {
    forall k :: 0 <= k < |w| ==> !IsRegexMeta(w[k])
  }

  /** `w` occurs in `s` starting at position `i`. */
  predicate OccursAt(s: string, w: string, i: int)
  {
    0 <= i && i + |w| <= |s| && s[i..i + |w|] == w
  }

  predicate Occurs(s: string, w: string)
  {
    exists i :: 0 <= i <= |s| && OccursAt(s, w, i)
  }

  /**
    Scanning left to right, deletes every non-overlapping occurrence of `w`,
    each search resuming right after the previous match: what `re.sub(w, '', s)`
    does for a literal `w`. An empty `w` matches only the empty string, so
    nothing is deleted.
   */
  function DeleteAll(s: string, w: string): (r: string)
    ensures |r| <= |s|
    ensures |w| == 0 ==> r == s
    decreases |s|
  {
    if |w| == 0 || |s| == 0 then s
    else if w <= s then DeleteAll(s[|w|..], w)
    else [s[0]] + DeleteAll(s[1..], w)
  }

  /** The number of matches `re.findall(w, s)` reports for a literal `w` (an empty `w` matches |s| + 1 times). */
  function CountMatches(s: string, w: string): (n: nat)
    ensures |w| > 0 ==> n <= |s|
    ensures |w| == 0 ==> n == |s| + 1
    decreases |s|
  {
    if |w| == 0 then |s| + 1
    else if |s| == 0 then 0
    else if w <= s then 1 + CountMatches(s[|w|..], w)
    else CountMatches(s[1..], w)
  }

  /** Each match found removes exactly the length of the word, and nothing else is removed. */
  lemma {:induction false} DeleteAllLength(s: string, w: string)
    ensures |DeleteAll(s, w)| == |s| - |w| * CountMatches(s, w)
    decreases |s|
  {
    if |w| > 0 && |s| > 0 {
      if w <= s {
        DeleteAllLength(s[|w|..], w);
        var c := CountMatches(s[|w|..], w);
        assert CountMatches(s, w) == 1 + c;
        assert |DeleteAll(s, w)| == |s| - |w| - |w| * c;
        MulSucc(|w|, c);
      } else {
        DeleteAllLength(s[1..], w);
      }
    }
  }

  lemma MulSucc(a: nat, c: nat)
    ensures a * (1 + c) == a + a * c
  {
  }

  /** A non-empty word is found at least once exactly when it occurs somewhere in the text. */
  lemma {:induction false} CountMatchesPositive(s: string, w: string)
    requires |w| > 0
    ensures CountMatches(s, w) > 0 <==> Occurs(s, w)
    decreases |s|
  {
    if |s| == 0 {
      assert !OccursAt(s, w, 0);
    } else if w <= s {
      assert OccursAt(s, w, 0);
    } else {
      CountMatchesPositive(s[1..], w);
      if Occurs(s, w) {
        var i :| 0 <= i <= |s| && OccursAt(s, w, i);
        assert i != 0;
        OccursAfterFirst(s, w, i - 1);
      }
      if Occurs(s[1..], w) {
        var j :| 0 <= j <= |s[1..]| && OccursAt(s[1..], w, j);
        OccursAfterFirst(s, w, j);
      }
    }
  }

  /** An occurrence in the text after its first character is an occurrence one position further on. */
  lemma OccursAfterFirst(s: string, w: string, j: nat)
    requires |s| > 0
    ensures OccursAt(s[1..], w, j) <==> OccursAt(s, w, j + 1)
  {
    if j + |w| <= |s| - 1 {
      assert s[1..][j..j + |w|] == s[j + 1..j + 1 + |w|];
    }
  }

  /** Deletion leaves the text as it was exactly when the word does not occur in it (or is empty). */
  lemma DeleteAllUnchanged(s: string, w: string)
    ensures DeleteAll(s, w) == s <==> |w| == 0 || !Occurs(s, w)
  {
    DeleteAllLength(s, w);
    if |w| > 0 {
      CountMatchesPositive(s, w);
      if CountMatches(s, w) == 0 {
        DeleteAllNoMatch(s, w);
      }
    }
  }

  lemma {:induction false} DeleteAllNoMatch(s: string, w: string)
    requires CountMatches(s, w) == 0
    ensures DeleteAll(s, w) == s
    decreases |s|
  {
    if |w| > 0 && |s| > 0 {
      DeleteAllNoMatch(s[1..], w);
      assert s == [s[0]] + s[1..];
    }
  }

  /** Text before the first place the word's first character appears passes through deletion untouched. */
  lemma {:induction false} DeleteAllSkipsPrefix(a: string, b: string, w: string)
    requires |w| > 0
    requires forall k :: 0 <= k < |a| ==> a[k] != w[0]
    ensures DeleteAll(a + b, w) == a + DeleteAll(b, w)
    decreases |a|
  {
    if |a| > 0 {
      assert (a + b)[0] == a[0];
      assert !(w <= a + b);
      assert (a + b)[1..] == a[1..] + b;
      DeleteAllSkipsPrefix(a[1..], b, w);
      assert a == [a[0]] + a[1..];
      assert a + DeleteAll(b, w) == [a[0]] + (a[1..] + DeleteAll(b, w));
    } else {
      assert a + b == b;
    }
  }
}
