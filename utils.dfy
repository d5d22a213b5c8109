/**
  `CleanString` from the repository's utils package. Go's `unicode.IsGraphic`
  is not modelled: it is passed in as the predicate `isGraphic`, about which
  nothing is assumed.
 */
module Utils {

  /** The characters of `dirty` that `isGraphic` accepts, in their original order. */
  function CleanString(dirty: string, isGraphic: char -> bool): (clean: string)
    ensures |clean| <= |dirty|
    ensures forall i :: 0 <= i < |clean| ==> isGraphic(clean[i])
    decreases |dirty|
  {
    if |dirty| == 0 then ""
    else if isGraphic(dirty[0]) then [dirty[0]] + CleanString(dirty[1..], isGraphic)
    else CleanString(dirty[1..], isGraphic)
  }

  /** `sub` can be obtained from `s` by deleting characters. */
  ghost predicate IsSubsequence(sub: string, s: string)
    decreases |s|
  {
    |sub| == 0 ||
    (|s| > 0 && ((sub[0] == s[0] && IsSubsequence(sub[1..], s[1..])) || IsSubsequence(sub, s[1..])))
  }

  /** Cleaning distributes over concatenation. */
  lemma {:induction false} CleanStringAppend(a: string, b: string, isGraphic: char -> bool)
    ensures CleanString(a + b, isGraphic) == CleanString(a, isGraphic) + CleanString(b, isGraphic)
    decreases |a|
  {
    if |a| > 0 {
      assert (a + b)[1..] == a[1..] + b;
      CleanStringAppend(a[1..], b, isGraphic);
    } else {
      assert a + b == b;
    }
  }

  /**
    Exactly the non-graphic characters are deleted: the result keeps the input's
    order, and every graphic character keeps its number of occurrences while
    every other character disappears.
   */
  lemma {:induction false} CleanStringDeletesExactlyNonGraphic(dirty: string, isGraphic: char -> bool)
    ensures IsSubsequence(CleanString(dirty, isGraphic), dirty)
    ensures forall c :: multiset(CleanString(dirty, isGraphic))[c] == if isGraphic(c) then multiset(dirty)[c] else 0
    decreases |dirty|
  {
    if |dirty| > 0 {
      CleanStringDeletesExactlyNonGraphic(dirty[1..], isGraphic);
      assert dirty == [dirty[0]] + dirty[1..];
      assert multiset(dirty) == multiset{dirty[0]} + multiset(dirty[1..]);
      var rest := CleanString(dirty[1..], isGraphic);
      if isGraphic(dirty[0]) {
        assert ([dirty[0]] + rest)[1..] == rest;
        assert multiset([dirty[0]] + rest) == multiset{dirty[0]} + multiset(rest);
      }
    }
  }

  /** A string made only of graphic characters comes back unchanged. */
  lemma {:induction false} CleanStringKeepsGraphic(s: string, isGraphic: char -> bool)
    requires forall i :: 0 <= i < |s| ==> isGraphic(s[i])
    ensures CleanString(s, isGraphic) == s
    decreases |s|
  {
    if |s| > 0 {
      CleanStringKeepsGraphic(s[1..], isGraphic);
      assert s == [s[0]] + s[1..];
    }
  }

  /** Cleaning twice is cleaning once. */
  lemma CleanStringIdempotent(s: string, isGraphic: char -> bool)
    ensures CleanString(CleanString(s, isGraphic), isGraphic) == CleanString(s, isGraphic)
  {
    CleanStringKeepsGraphic(CleanString(s, isGraphic), isGraphic);
  }
}
