/** The filename sanitiser: one regular-expression substitution that replaces
    every occurrence of a path-unsafe character with an underscore. */
module Filenames {

  /** The character class of the substitution: < > : " / \ | ? * and space. */
  predicate IsUnsafe(ch: char) {
    ch == '<' || ch == '>' || ch == ':' || ch == '"' || ch == '/' ||
    ch == '\\' || ch == '|' || ch == '?' || ch == '*' || ch == ' '
  }

  /** No character of `s` is path-unsafe. */
  predicate IsSafe(s: string) {
    forall i :: 0 <= i < |s| ==> !IsUnsafe(s[i])
  }

  /** The substitution, applied one character at a time, left to right. */
  function SanitizeFilename(s: string): string {
    if s == [] then []
    else [if IsUnsafe(s[0]) then '_' else s[0]] + SanitizeFilename(s[1..])
  }

  /** The sanitiser keeps the length, turns every unsafe character into '_'
      and leaves every other character where it was. */
  lemma {:induction false} SanitizePointwise(s: string)
    ensures |SanitizeFilename(s)| == |s|
    ensures forall i :: 0 <= i < |s| ==>
      SanitizeFilename(s)[i] == if IsUnsafe(s[i]) then '_' else s[i]
  {
    if s != [] {
      SanitizePointwise(s[1..]);
      var r := SanitizeFilename(s);
      forall i | 0 <= i < |s|
        ensures r[i] == if IsUnsafe(s[i]) then '_' else s[i]
      {
        if i > 0 {
          assert r[i] == SanitizeFilename(s[1..])[i - 1];
        }
      }
    }
  }

  /** No unsafe character survives sanitising. */
  lemma SanitizeIsSafe(s: string)
    ensures IsSafe(SanitizeFilename(s))
  {
    SanitizePointwise(s);
  }

  /** A string that is already safe is returned unchanged. */
  lemma SanitizeKeepsSafe(s: string)
    requires IsSafe(s)
    ensures SanitizeFilename(s) == s
  {
    SanitizePointwise(s);
  }

  /** Sanitising twice is the same as sanitising once. */
  lemma SanitizeIdempotent(s: string)
    ensures SanitizeFilename(SanitizeFilename(s)) == SanitizeFilename(s)
  {
    SanitizeIsSafe(s);
    SanitizeKeepsSafe(SanitizeFilename(s));
  }

  /** The substitution works character by character, so it distributes over concatenation. */
  lemma {:induction false} SanitizeConcat(a: string, b: string)
    ensures SanitizeFilename(a + b) == SanitizeFilename(a) + SanitizeFilename(b)
  {
    if a == [] {
      assert a + b == b;
    } else {
      assert (a + b)[0] == a[0];
      assert (a + b)[1..] == a[1..] + b;
      SanitizeConcat(a[1..], b);
    }
  }
}
