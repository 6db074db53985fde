/**
 * Joining string segments with a separator: PHP's `join`, and the file paths the
 * bootstrap builds by concatenating segments with DIRECTORY_SEPARATOR.
 */
module Paths {

  /** `join(sep, parts)`: the parts, in order, with `sep` between neighbours. */
  function Join(sep: string, parts: seq<string>): (r: string)
    ensures |parts| > 0 ==> parts[0] <= r
  {
    if |parts| == 0 then ""
    else if |parts| == 1 then parts[0]
    else Join(sep, parts[..|parts| - 1]) + sep + parts[|parts| - 1]
  }

  /** Joining a leading run of the segments gives a prefix of the joined whole. */
  lemma {:induction false} JoinPrefix(sep: string, parts: seq<string>, k: nat)
    requires 1 <= k <= |parts|
    ensures Join(sep, parts[..k]) <= Join(sep, parts)
  {
    if k < |parts| {
      var init := parts[..|parts| - 1];
      assert init[..k] == parts[..k];
      JoinPrefix(sep, init, k);
    } else {
      assert parts[..k] == parts;
    }
  }

  /** Putting one more segment in front adds that segment and one separator. */
  lemma {:induction false} JoinCons(sep: string, x: string, xs: seq<string>)
    requires |xs| > 0
    ensures Join(sep, [x] + xs) == x + sep + Join(sep, xs)
  {
    var s := [x] + xs;
    if |xs| == 1 {
      assert s[..1] == [x];
    } else {
      var init := xs[..|xs| - 1];
      assert s[..|s| - 1] == [x] + init;
      JoinCons(sep, x, init);
    }
  }

  /** A file path: the segments joined with the platform's directory separator. */
  function Path(separator: char, segments: seq<string>): string {
    Join([separator], segments)
  }
}
