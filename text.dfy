/**
 * String primitives with the meaning of the Python string operations the
 * reconnaissance tool uses: `lower()`, `in` (substring), `startswith`,
 * `endswith`, `split(sep)[0]`, `replace(pat, "")` and `rstrip(c)`.
 */
module Text {

  /** `str.lower()` on one character, for ASCII letters only. */
  function LowerChar(c: char): char
  {
    if 'A' <= c <= 'Z' then (c as int - 'A' as int + 'a' as int) as char else c
  }

  /**
   * `s.lower()`: same length, every character kept or an upper-case letter
   * replaced by its lower-case partner, and no upper-case letter left.
   */
  function Lower(s: string): (r: string)
    ensures |r| == |s|
    ensures forall i :: 0 <= i < |s| ==>
      r[i] == s[i] || ('A' <= s[i] <= 'Z' && r[i] as int == s[i] as int + 32)
    ensures forall i :: 0 <= i < |r| ==> !('A' <= r[i] <= 'Z')
  {
    seq(|s|, i requires 0 <= i < |s| => LowerChar(s[i]))
  }

  lemma LowerAppend(a: string, b: string)
    ensures Lower(a + b) == Lower(a) + Lower(b)
  {
    assert forall i | 0 <= i < |a + b| :: Lower(a + b)[i] == (Lower(a) + Lower(b))[i];
  }

  predicate StartsWith(s: string, prefix: string)
  {
    |prefix| <= |s| && s[..|prefix|] == prefix
  }

  /** `s.endswith(suffix)`: the last `|suffix|` characters of `s` are those of `suffix`, in order. */
  function EndsWith(s: string, suffix: string): (r: bool)
    ensures r <==> |suffix| <= |s| && forall i :: 0 <= i < |suffix| ==> s[|s| - |suffix| + i] == suffix[i]
  {
    |suffix| <= |s| && s[|s| - |suffix|..] == suffix
  }

  /** `pat in text`: some suffix of `text` starts with `pat`. */
  predicate Contains(text: string, pat: string)
    decreases |text|
  {
    StartsWith(text, pat) || (text != [] && Contains(text[1..], pat))
  }

  /** `pat` occurs in `text` at index `i`. */
  predicate OccursAt(text: string, pat: string, i: int)
  {
    0 <= i && i + |pat| <= |text| && text[i..i + |pat|] == pat
  }

  /** The recursive search agrees with the positional definition of a substring. */
  lemma {:induction false} ContainsIff(text: string, pat: string)
    ensures Contains(text, pat) <==> exists i :: OccursAt(text, pat, i)
  {
    if StartsWith(text, pat) {
      assert OccursAt(text, pat, 0);
    }
    if text == [] {
      if exists i :: OccursAt(text, pat, i) {
        var i :| OccursAt(text, pat, i);
        assert StartsWith(text, pat);
      }
    } else {
      ContainsIff(text[1..], pat);
      if exists i :: OccursAt(text[1..], pat, i) {
        var i :| OccursAt(text[1..], pat, i);
        assert text[1..][i..i + |pat|] == text[i + 1..i + 1 + |pat|];
        assert OccursAt(text, pat, i + 1);
      }
      if exists i :: OccursAt(text, pat, i) {
        var i :| OccursAt(text, pat, i);
        if i == 0 {
          assert StartsWith(text, pat);
        } else {
          assert text[1..][i - 1..i - 1 + |pat|] == text[i..i + |pat|];
          assert OccursAt(text[1..], pat, i - 1);
        }
      }
    }
  }

  lemma ContainsSelf(p: string)
    ensures Contains(p, p)
  {
    assert StartsWith(p, p);
  }

  /** Nothing longer than the text occurs in it. */
  lemma {:induction false} ContainsLength(text: string, pat: string)
    ensures Contains(text, pat) ==> |pat| <= |text|
  {
    if text != [] {
      ContainsLength(text[1..], pat);
    }
  }

  /** Text appended after an occurrence does not hide it. */
  lemma {:induction false} ContainsAppend(text: string, more: string, pat: string)
    requires Contains(text, pat)
    ensures Contains(text + more, pat)
  {
    if StartsWith(text, pat) {
      assert (text + more)[..|pat|] == text[..|pat|];
    } else {
      ContainsAppend(text[1..], more, pat);
      assert (text + more)[1..] == text[1..] + more;
    }
  }

  /** Text put in front of an occurrence does not hide it. */
  lemma ContainsPrepend(before: string, text: string, pat: string)
    requires Contains(text, pat)
    ensures Contains(before + text, pat)
  {
    ContainsIff(text, pat);
    var i :| OccursAt(text, pat, i);
    assert (before + text)[|before| + i..|before| + i + |pat|] == text[i..i + |pat|];
    assert OccursAt(before + text, pat, |before| + i);
    ContainsIff(before + text, pat);
  }

  /** A substring of a substring is a substring. */
  lemma ContainsTransitive(a: string, b: string, c: string)
    requires Contains(a, b) && Contains(b, c)
    ensures Contains(a, c)
  {
    ContainsIff(a, b);
    ContainsIff(b, c);
    var i :| OccursAt(a, b, i);
    var j :| OccursAt(b, c, j);
    forall k | 0 <= k < |c|
      ensures a[i + j + k] == c[k]
    {
      assert a[i + j + k] == a[i..i + |b|][j + k];
      assert b[j + k] == b[j..j + |c|][k];
    }
    assert a[i + j..i + j + |c|] == c;
    assert OccursAt(a, c, i + j);
    ContainsIff(a, c);
  }

  /** Lower-casing both sides keeps an occurrence. */
  lemma ContainsLower(text: string, pat: string)
    requires Contains(text, pat)
    ensures Contains(Lower(text), Lower(pat))
  {
    ContainsIff(text, pat);
    var i :| OccursAt(text, pat, i);
    assert Lower(text)[i..i + |pat|] == Lower(pat);
    assert OccursAt(Lower(text), Lower(pat), i);
    ContainsIff(Lower(text), Lower(pat));
  }

  /** `s.split(sep)[0]`: the text before the first `sep`, or all of `s` when there is none. */
  function BeforeFirst(s: string, sep: char): (r: string)
    ensures sep !in r
    ensures r <= s
    ensures |r| < |s| ==> s[|r|] == sep
  {
    if s == [] then []
    else if s[0] == sep then []
    else [s[0]] + BeforeFirst(s[1..], sep)
  }

  /** The text before the first `sep` of `a + b`, when `a` has no `sep` and `b` starts with one. */
  lemma {:induction false} BeforeFirstAppend(a: string, b: string, sep: char)
    requires sep !in a
    requires b == [] || b[0] == sep
    ensures BeforeFirst(a + b, sep) == a
  {
    if a == [] {
      assert a + b == b;
    } else {
      assert (a + b)[1..] == a[1..] + b;
      BeforeFirstAppend(a[1..], b, sep);
    }
  }

  /** `s.replace(pat, "")`: every non-overlapping occurrence, scanned left to right, removed. */
  function RemoveAll(s: string, pat: string): string
    requires pat != []
    decreases |s|
  {
    if s == [] then []
    else if StartsWith(s, pat) then RemoveAll(s[|pat|..], pat)
    else [s[0]] + RemoveAll(s[1..], pat)
  }

  /** A prefix in which no occurrence of `pat` starts comes through `RemoveAll` unchanged. */
  lemma {:induction false} RemoveAllKeepsPrefix(prefix: string, rest: string, pat: string)
    requires pat != []
    requires forall i :: 0 <= i < |prefix| ==> !StartsWith((prefix + rest)[i..], pat)
    ensures RemoveAll(prefix + rest, pat) == prefix + RemoveAll(rest, pat)
  {
    if prefix == [] {
      assert prefix + rest == rest;
    } else {
      assert (prefix + rest)[0..] == prefix + rest;
      assert (prefix + rest)[1..] == prefix[1..] + rest;
      forall i | 0 <= i < |prefix[1..]|
        ensures !StartsWith((prefix[1..] + rest)[i..], pat)
      {
        assert (prefix[1..] + rest)[i..] == (prefix + rest)[i + 1..];
      }
      RemoveAllKeepsPrefix(prefix[1..], rest, pat);
    }
  }

  /** `s.rstrip(c)`: `s` without its trailing run of `c`. */
  function TrimTrailing(s: string, c: char): (r: string)
    ensures r <= s
    ensures r == [] || r[|r| - 1] != c
    ensures forall i :: |r| <= i < |s| ==> s[i] == c
  {
    if s != [] && s[|s| - 1] == c then TrimTrailing(s[..|s| - 1], c) else s
  }
}
