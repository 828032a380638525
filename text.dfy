/**
 * The two string operations the catalog search relies on: `toLowerCase` and
 * `includes`, as JavaScript defines them on the product names of this shop.
 */
module Text {

  /** Upper-case letters of the alphabets the catalog uses: Latin A-Z and Cyrillic U+0400-U+042F. */
  predicate IsUpper(c: char)
  {
    ('A' <= c <= 'Z') || ('\U{0400}' <= c <= '\U{042F}')
  }

  /**
   * Lower-case mapping of one character: A-Z to a-z, А-Я (U+0410-U+042F) to а-я
   * (U+0430-U+044F) and Ѐ-Џ (U+0400-U+040F, including Ё) to ѐ-џ (U+0450-U+045F);
   * every other character is left as it is.
   */
  function LowerChar(c: char): (l: char)
    ensures !IsUpper(l)
    ensures !IsUpper(c) ==> l == c
    ensures IsUpper(c) ==> l != c
  {
    if 'A' <= c <= 'Z' then (c as int + 32) as char
    else if '\U{0410}' <= c <= '\U{042F}' then (c as int + 32) as char
    else if '\U{0400}' <= c <= '\U{040F}' then (c as int + 80) as char
    else c
  }

  /** `String.prototype.toLowerCase`, restricted to the mapping of LowerChar. */
  function ToLowerCase(s: string): (r: string)
    ensures |r| == |s|
    ensures forall i :: 0 <= i < |s| ==> r[i] == LowerChar(s[i])
  {
    if s == [] then [] else [LowerChar(s[0])] + ToLowerCase(s[1..])
  }

  lemma ToLowerCaseIdempotent(s: string)
    ensures ToLowerCase(ToLowerCase(s)) == ToLowerCase(s)
  {
  }

  /** `t` occurs in `s` starting at position `i`. */
  predicate OccursAt(s: string, t: string, i: nat)
  {
    i + |t| <= |s| && s[i..i + |t|] == t
  }

  /** Substring search: does `t` occur in `s`? A prefix is found, and nothing longer than
      `s` is. */
  predicate Includes(s: string, t: string): (b: bool)
    ensures t <= s ==> b
    ensures b ==> |t| <= |s|
  {
    t <= s || (s != [] && Includes(s[1..], t))
  }

  /** An occurrence found by `Includes` is an occurrence at some position. */
  lemma {:induction false} IncludesFindsOccurrence(s: string, t: string) returns (i: nat)
    requires Includes(s, t)
    ensures OccursAt(s, t, i)
  {
    if t <= s {
      i := 0;
    } else {
      var j := IncludesFindsOccurrence(s[1..], t);
      assert s[1..][j..j + |t|] == s[j + 1..j + 1 + |t|];
      i := j + 1;
    }
  }

  /** An occurrence at any position is found by `Includes`. */
  lemma {:induction false} OccurrenceIsIncluded(s: string, t: string, i: nat)
    requires OccursAt(s, t, i)
    ensures Includes(s, t)
  {
    if i == 0 {
      assert s[..|t|] == t;
    } else {
      assert s[1..][i - 1..i - 1 + |t|] == s[i..i + |t|];
      OccurrenceIsIncluded(s[1..], t, i - 1);
    }
  }

  lemma IncludesIff(s: string, t: string)
    ensures Includes(s, t) <==> exists i: nat :: OccursAt(s, t, i)
  {
    if Includes(s, t) {
      var i := IncludesFindsOccurrence(s, t);
    }
    if i: nat :| OccursAt(s, t, i) {
      OccurrenceIsIncluded(s, t, i);
    }
  }

  /** The empty string is included in every string, as `"abc".includes("")` is true. */
  lemma IncludesEmpty(s: string)
    ensures Includes(s, "")
  {
  }
}
