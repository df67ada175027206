/** String primitives the story pipeline relies on: Python's `in` test on
    strings, `str.lower()` and `str.strip()`, plus the small Option type used
    for the nullable fields of requests and records. */
module Text {

  datatype Option<+T> = None | Some(value: T)

  /** `p` is a prefix of `s`. */
  predicate IsPrefix(p: string, s: string) {
    |p| <= |s| && s[..|p|] == p
  }

  /** Python's `key in text`: `key` occurs in `text` as a contiguous
      substring (the empty key occurs everywhere). */
  function Contains(text: string, key: string): bool
    decreases |text|
  {
    IsPrefix(key, text) || (|text| > 0 && Contains(text[1..], key))
  }

  /** Reference definition of an occurrence: `key` starts at index `i`. */
  ghost predicate OccursAt(text: string, key: string, i: int) {
    0 <= i && i + |key| <= |text| && text[i..i + |key|] == key
  }

  /** The scanning definition of Contains agrees with "has an occurrence". */
  lemma {:induction false} ContainsIff(text: string, key: string)
    ensures Contains(text, key) <==> exists i :: OccursAt(text, key, i)
    decreases |text|
  {
    if IsPrefix(key, text) {
      assert OccursAt(text, key, 0);
    } else if |text| == 0 {
    } else {
      ContainsIff(text[1..], key);
      if exists i :: OccursAt(text[1..], key, i) {
        var i :| OccursAt(text[1..], key, i);
        assert text[i + 1..i + 1 + |key|] == text[1..][i..i + |key|];
        assert OccursAt(text, key, i + 1);
      }
      if exists i :: OccursAt(text, key, i) {
        var i :| OccursAt(text, key, i);
        assert i != 0;
        assert text[1..][i - 1..i - 1 + |key|] == text[i..i + |key|];
        assert OccursAt(text[1..], key, i - 1);
      }
    }
  }

  /** Substring containment is transitive: whatever occurs inside an
      occurring key occurs in the text too. */
  lemma ContainsTransitive(text: string, key: string, part: string)
    requires Contains(text, key) && Contains(key, part)
    ensures Contains(text, part)
  {
    ContainsIff(text, key);
    ContainsIff(key, part);
    ContainsIff(text, part);
    var i :| OccursAt(text, key, i);
    var j :| OccursAt(key, part, j);
    forall k | 0 <= k < |part| ensures text[i + j + k] == part[k] {
      assert key[j + k] == part[k];
      assert text[i + j + k] == key[j + k];
    }
    assert text[i + j..i + j + |part|] == part;
    assert OccursAt(text, part, i + j);
  }

  /** A prefix of an occurring key occurs. */
  lemma PrefixContained(text: string, key: string, prefix: string)
    requires Contains(text, key) && IsPrefix(prefix, key)
    ensures Contains(text, prefix)
  {
    assert Contains(key, prefix);
    ContainsTransitive(text, key, prefix);
  }

  /** Python's `any(word in text for word in words)`. */
  function AnyContains(text: string, words: seq<string>): (r: bool)
    ensures r <==> exists w :: w in words && Contains(text, w)
  {
    if words == [] then false
    else if Contains(text, words[0]) then
      assert words[0] in words;
      true
    else
      assert forall w :: w in words <==> w == words[0] || w in words[1..];
      AnyContains(text, words[1..])
  }

  /** Lower-case mapping of one character: ASCII letters, the Greek capitals
      Alpha..Omega with their dialytika forms, and the tonos-accented capitals. */
  function LowerChar(c: char): char {
    if 'A' <= c <= 'Z' then (c as int + 32) as char
    else if '\U{0391}' <= c <= '\U{03A1}' || '\U{03A3}' <= c <= '\U{03AB}' then (c as int + 32) as char
    else if c == '\U{0386}' then '\U{03AC}'
    else if '\U{0388}' <= c <= '\U{038A}' then (c as int + 37) as char
    else if c == '\U{038C}' then '\U{03CC}'
    else if c == '\U{038E}' || c == '\U{038F}' then (c as int + 63) as char
    else c
  }

  /** Python's `str.lower()`, character by character. */
  function Lower(s: string): (r: string)
    ensures |r| == |s|
  {
    seq(|s|, i requires 0 <= i < |s| => LowerChar(s[i]))
  }

  /** Lower-casing twice is lower-casing once. */
  lemma LowerIdempotent(s: string)
    ensures Lower(Lower(s)) == Lower(s)
  {
    assert forall i :: 0 <= i < |s| ==> LowerChar(LowerChar(s[i])) == LowerChar(s[i]);
  }

  /** An occurrence of a key survives lower-casing, as an occurrence of the
      lower-cased key; so a key written in lower case is found whatever the
      case of the text around or inside it. */
  lemma LowerKeepsOccurrence(text: string, key: string)
    requires Contains(text, key)
    ensures Contains(Lower(text), Lower(key))
  {
    ContainsIff(text, key);
    ContainsIff(Lower(text), Lower(key));
    var i :| OccursAt(text, key, i);
    assert Lower(text)[i..i + |key|] == Lower(key) by {
      forall k | 0 <= k < |key| ensures Lower(text)[i..i + |key|][k] == Lower(key)[k] {
        assert text[i + k] == key[k];
      }
    }
    assert OccursAt(Lower(text), Lower(key), i);
  }

  /** Python's `str.isspace()` for one character. */
  predicate IsSpace(c: char) {
    c == ' ' || '\t' <= c <= '\r' || '\U{001C}' <= c <= '\U{001F}'
    || c == '\U{0085}' || c == '\U{00A0}' || c == '\U{1680}'
    || '\U{2000}' <= c <= '\U{200A}' || c == '\U{2028}' || c == '\U{2029}'
    || c == '\U{202F}' || c == '\U{205F}' || c == '\U{3000}'
  }

  /** Number of whitespace characters at the start of `s`. */
  function LeadingSpaces(s: string): (n: nat)
    ensures n <= |s|
    ensures forall k :: 0 <= k < n ==> IsSpace(s[k])
    ensures n < |s| ==> !IsSpace(s[n])
  {
    if |s| > 0 && IsSpace(s[0]) then 1 + LeadingSpaces(s[1..]) else 0
  }

  /** Number of whitespace characters at the end of `s`. */
  function TrailingSpaces(s: string): (n: nat)
    ensures n <= |s|
    ensures forall k :: |s| - n <= k < |s| ==> IsSpace(s[k])
    ensures n < |s| ==> !IsSpace(s[|s| - 1 - n])
  {
    if |s| > 0 && IsSpace(s[|s| - 1]) then 1 + TrailingSpaces(s[..|s| - 1]) else 0
  }

  /** Python's `str.strip()`: the slice of `s` left after dropping leading
      and trailing whitespace; only whitespace is dropped and the result
      neither starts nor ends with whitespace. */
  function Strip(s: string): (r: string)
    ensures LeadingSpaces(s) + |r| <= |s|
    ensures r == s[LeadingSpaces(s)..LeadingSpaces(s) + |r|]
    ensures forall k :: 0 <= k < LeadingSpaces(s) ==> IsSpace(s[k])
    ensures forall k :: LeadingSpaces(s) + |r| <= k < |s| ==> IsSpace(s[k])
    ensures |r| > 0 ==> !IsSpace(r[0]) && !IsSpace(r[|r| - 1])
  {
    var tail := s[LeadingSpaces(s)..];
    tail[..|tail| - TrailingSpaces(tail)]
  }

  /** Stripping an already stripped string changes nothing. */
  lemma StripIdempotent(s: string)
    ensures Strip(Strip(s)) == Strip(s)
  {
    var r := Strip(s);
    if |r| > 0 {
      assert LeadingSpaces(r) == 0;
      assert TrailingSpaces(r) == 0;
    }
  }
}
