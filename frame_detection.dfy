/**
  The area filter of `find_contours`: of the contours the image library finds
  in a processed frame, keep those whose area lies strictly between the
  configured minimum and maximum, in the order they were found.
 */
module FrameDetection {

  /** A contour found in a processed frame; its geometry belongs to the image library. */
  type Contour(==)

  /** Python's chained comparison `min_area < area < max_area`. */
  predicate InRange(area: real, minArea: int, maxArea: int) {
    minArea as real < area < maxArea as real
  }

  /** The contours of `contours` that pass the area filter, in their original order. */
  function Matching(contours: seq<Contour>, area: Contour -> real, minArea: int, maxArea: int): (r: seq<Contour>)
    ensures |r| <= |contours|
    ensures forall c :: c in r ==> c in contours && InRange(area(c), minArea, maxArea)
    ensures minArea >= maxArea ==> r == []
  {
    if contours == [] then []
    else
      var last := contours[|contours| - 1];
      Matching(contours[..|contours| - 1], area, minArea, maxArea)
        + (if InRange(area(last), minArea, maxArea) then [last] else [])
  }

  /** `r` is `s` with some elements removed and the rest kept in order. */
  ghost predicate IsSubsequence<T>(r: seq<T>, s: seq<T>)
    decreases |s|
  {
    if r == [] then true
    else if s == [] then false
    else (r[|r| - 1] == s[|s| - 1] && IsSubsequence(r[..|r| - 1], s[..|s| - 1]))
         || IsSubsequence(r, s[..|s| - 1])
  }

  /** The loop of `find_contours`: test each contour's area and append the ones that pass. */
  method FindContours(contours: seq<Contour>, area: Contour -> real, minArea: int, maxArea: int)
    returns (matching: seq<Contour>)
    ensures matching == Matching(contours, area, minArea, maxArea)
  {
    matching := [];
    for i := 0 to |contours|
      invariant matching == Matching(contours[..i], area, minArea, maxArea)
    {
      assert contours[..i + 1][..i] == contours[..i];
      if InRange(area(contours[i]), minArea, maxArea) {
        matching := matching + [contours[i]];
      }
    }
    assert contours[..|contours|] == contours;
  }

  /** No contour whose area is strictly between the bounds is dropped. */
  lemma {:induction false} MatchingComplete(contours: seq<Contour>, area: Contour -> real, minArea: int, maxArea: int, i: nat)
    requires i < |contours|
    requires InRange(area(contours[i]), minArea, maxArea)
    ensures contours[i] in Matching(contours, area, minArea, maxArea)
  {
    var n := |contours| - 1;
    if i < n {
      assert contours[..n][i] == contours[i];
      MatchingComplete(contours[..n], area, minArea, maxArea, i);
    }
  }

  lemma {:induction false} SubsequenceExtend<T>(r: seq<T>, s: seq<T>, x: T)
    requires IsSubsequence(r, s)
    ensures IsSubsequence(r, s + [x])
    ensures IsSubsequence(r + [x], s + [x])
  {
    assert (s + [x])[..|s|] == s;
    assert (r + [x])[..|r|] == r;
  }

  /** The result keeps the input's order: it is a subsequence of the input. */
  lemma {:induction false} MatchingIsSubsequence(contours: seq<Contour>, area: Contour -> real, minArea: int, maxArea: int)
    ensures IsSubsequence(Matching(contours, area, minArea, maxArea), contours)
  {
    if contours != [] {
      var n := |contours| - 1;
      var prefix, last := contours[..n], contours[n];
      var m := Matching(prefix, area, minArea, maxArea);
      MatchingIsSubsequence(prefix, area, minArea, maxArea);
      assert prefix + [last] == contours;
      SubsequenceExtend(m, prefix, last);
      if InRange(area(last), minArea, maxArea) {
        assert Matching(contours, area, minArea, maxArea) == m + [last];
      } else {
        assert Matching(contours, area, minArea, maxArea) == m;
      }
    }
  }

}
