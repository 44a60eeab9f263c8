/**
 * The JavaScript string operations the screens rely on: `toLowerCase`,
 * `toUpperCase`, `includes` and `replace` with a one-character string
 * pattern. Case conversion is ASCII-only (letters A-Z and a-z); JavaScript's
 * full Unicode case mapping is not modelled.
 */
module Text {

  function LowerChar(c: char): char {
    if 'A' <= c <= 'Z' then (c as int - 'A' as int + 'a' as int) as char else c
  }

  function UpperChar(c: char): char {
    if 'a' <= c <= 'z' then (c as int - 'a' as int + 'A' as int) as char else c
  }

  /**
   * `String.prototype.toLowerCase`, ASCII letters only: each capital becomes
   * its own small letter, and every other character is kept.
   */
  function ToLower(s: string): (r: string)
    ensures |r| == |s|
    ensures NoUpper(r)
    ensures forall i :: 0 <= i < |s| && 'A' <= s[i] <= 'Z' ==> r[i] as int == s[i] as int + 32
    ensures forall i :: 0 <= i < |s| && !('A' <= s[i] <= 'Z') ==> r[i] == s[i]
  {
    seq(|s|, i requires 0 <= i < |s| => LowerChar(s[i]))
  }

  /**
   * `String.prototype.toUpperCase`, ASCII letters only: each small letter
   * becomes its own capital, and every other character is kept.
   */
  function ToUpper(s: string): (r: string)
    ensures |r| == |s|
    ensures NoLower(r)
    ensures forall i :: 0 <= i < |s| && 'a' <= s[i] <= 'z' ==> r[i] as int == s[i] as int - 32
    ensures forall i :: 0 <= i < |s| && !('a' <= s[i] <= 'z') ==> r[i] == s[i]
  {
    seq(|s|, i requires 0 <= i < |s| => UpperChar(s[i]))
  }

  /** Lowering twice is lowering once. */
  lemma ToLowerIdempotent(s: string)
    ensures ToLower(ToLower(s)) == ToLower(s)
  {
  }

  /** Upper-casing first loses nothing that lowering keeps. */
  lemma ToLowerOfToUpper(s: string)
    ensures ToLower(ToUpper(s)) == ToLower(s)
  {
    assert forall i :: 0 <= i < |s| ==> LowerChar(UpperChar(s[i])) == LowerChar(s[i]);
  }

  /** A string with no upper-case ASCII letter is its own lower-case form. */
  predicate NoUpper(s: string) {
    forall i :: 0 <= i < |s| ==> !('A' <= s[i] <= 'Z')
  }

  /** A string with no lower-case ASCII letter. */
  predicate NoLower(s: string) {
    forall i :: 0 <= i < |s| ==> !('a' <= s[i] <= 'z')
  }

  /** Upper-casing a string without capitals is undone by lowering it. */
  lemma ToUpperRoundTrip(s: string)
    requires NoUpper(s)
    ensures ToLower(ToUpper(s)) == s
  {
    assert forall i :: 0 <= i < |s| ==> LowerChar(UpperChar(s[i])) == s[i];
  }

  /** `needle` occurs in `hay` starting at index `i`. */
  predicate OccursAt(hay: string, needle: string, i: int) {
    0 <= i && i + |needle| <= |hay| && hay[i..i + |needle|] == needle
  }

  /**
   * `String.prototype.includes`: the needle is tried at every start position
   * in turn. A prefix is found, and nothing longer than the text is.
   */
  function Contains(hay: string, needle: string): (r: bool)
    ensures needle <= hay ==> r
    ensures r ==> |needle| <= |hay|
    decreases |hay|
  {
    if needle <= hay then true
    else if |hay| == 0 then false
    else Contains(hay[1..], needle)
  }

  /** `includes` holds exactly when the needle occurs at some position. */
  lemma {:induction false} ContainsIffOccurs(hay: string, needle: string)
    ensures Contains(hay, needle) <==> exists i :: OccursAt(hay, needle, i)
    decreases |hay|
  {
    if needle <= hay {
      assert OccursAt(hay, needle, 0);
    } else if |hay| == 0 {
      assert forall i :: !OccursAt(hay, needle, i);
    } else {
      ContainsIffOccurs(hay[1..], needle);
      assert !OccursAt(hay, needle, 0);
      forall i | OccursAt(hay, needle, i)
        ensures OccursAt(hay[1..], needle, i - 1)
      {
        assert hay[1..][i - 1..i - 1 + |needle|] == hay[i..i + |needle|];
      }
      if exists j :: OccursAt(hay[1..], needle, j) {
        var j :| OccursAt(hay[1..], needle, j);
        assert j + 1 + |needle| <= |hay|;
        assert hay[1..][j..j + |needle|] == hay[j + 1..j + 1 + |needle|];
        assert OccursAt(hay, needle, j + 1);
      }
    }
  }

  /** The empty string is included in every string. */
  lemma ContainsEmpty(hay: string)
    ensures Contains(hay, "")
  {
  }

  /** An occurrence survives lowering both strings. */
  lemma OccursLowered(hay: string, needle: string, i: int)
    requires OccursAt(hay, needle, i)
    ensures OccursAt(ToLower(hay), ToLower(needle), i)
  {
    assert forall k :: 0 <= k < |needle| ==> hay[i + k] == needle[k];
  }

  /** A verbatim occurrence is also found case-insensitively. */
  lemma ContainsLowered(hay: string, needle: string)
    requires Contains(hay, needle)
    ensures Contains(ToLower(hay), ToLower(needle))
  {
    ContainsIffOccurs(hay, needle);
    var i :| OccursAt(hay, needle, i);
    OccursLowered(hay, needle, i);
    ContainsIffOccurs(ToLower(hay), ToLower(needle));
  }

  /**
   * `String.prototype.replace` with a one-character string pattern: only the
   * first occurrence of `from` is replaced, so the length never changes.
   */
  function ReplaceFirst(s: string, from: char, to: char): (r: string)
    ensures |r| == |s|
  {
    if s == [] then []
    else if s[0] == from then [to] + s[1..]
    else [s[0]] + ReplaceFirst(s[1..], from, to)
  }

  /**
   * Position by position, the replacement changes the first `from` and
   * nothing else; in particular a string without `from` is unchanged.
   */
  lemma {:induction false} ReplaceFirstAt(s: string, from: char, to: char)
    ensures forall j :: 0 <= j < |s| ==>
      ReplaceFirst(s, from, to)[j] == if s[j] == from && from !in s[..j] then to else s[j]
  {
    if s != [] && s[0] != from {
      ReplaceFirstAt(s[1..], from, to);
      forall j | 0 <= j < |s|
        ensures ReplaceFirst(s, from, to)[j] == if s[j] == from && from !in s[..j] then to else s[j]
      {
        if j > 0 {
          assert s[..j] == [s[0]] + s[1..][..j - 1];
        }
      }
    }
  }

  /** The first `from` is the one after a prefix free of `from`; it alone is replaced. */
  lemma {:induction false} ReplaceFirstSplit(prefix: string, from: char, to: char, suffix: string)
    requires from !in prefix
    ensures ReplaceFirst(prefix + [from] + suffix, from, to) == prefix + [to] + suffix
  {
    if prefix != [] {
      assert (prefix + [from] + suffix)[1..] == prefix[1..] + [from] + suffix;
      ReplaceFirstSplit(prefix[1..], from, to, suffix);
    }
  }

  /** Without the pattern character, `replace` returns its input. */
  lemma ReplaceFirstAbsent(s: string, from: char, to: char)
    requires from !in s
    ensures ReplaceFirst(s, from, to) == s
  {
    ReplaceFirstAt(s, from, to);
  }
}
