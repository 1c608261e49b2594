/**
 * The string helper of valar/src/utils.rs: fitting a string into a column
 * of a given width, marking a cut with an ellipsis. The `String` and `&str`
 * versions behave identically, so one function models both.
 */
module Utils {

  const Ellipsis: string := "..."

  /**
   * `truncate_to_fit`: a string that already fits is kept; a longer one is
   * cut to its first `width - 3` characters followed by `...`, so it fills
   * the width exactly. The cut needs room for the ellipsis: with a width
   * below 3 the subtraction would underflow, which the caller must avoid.
   */
  function TruncateToFit(s: string, width: nat): (r: string)
    requires |s| <= width || 3 <= width
    ensures |r| <= width
    ensures |s| <= width ==> r == s
    ensures |s| > width ==>
      && |r| == width
      && r[..width - 3] == s[..width - 3]
      && r[width - 3..] == Ellipsis
  {
    if |s| <= width then s else s[..width - 3] + Ellipsis
  }

  /** Fitting a fitted string again changes nothing. */
  lemma TruncateIdempotent(s: string, width: nat)
    requires |s| <= width || 3 <= width
    ensures TruncateToFit(TruncateToFit(s, width), width) == TruncateToFit(s, width)
  {
  }

  /** Cutting keeps a prefix of the original: whatever was kept is read as written. */
  lemma TruncateKeepsPrefix(s: string, width: nat, i: nat)
    requires 3 <= width && i < width - 3 && i < |s|
    ensures TruncateToFit(s, width)[i] == s[i]
  {
    if |s| > width {
      assert TruncateToFit(s, width)[..width - 3] == s[..width - 3];
      assert TruncateToFit(s, width)[i] == TruncateToFit(s, width)[..width - 3][i];
    }
  }

  /** The examples of the module's tests: `/foo/bar/baz` in ten columns, and in a hundred. */
  lemma TruncateExamples()
    ensures TruncateToFit("/foo/bar/baz", 10) == "/foo/ba..."
    ensures TruncateToFit("/foo/bar/baz", 100) == "/foo/bar/baz"
  {
    var s := "/foo/bar/baz";
    assert s[..7] == "/foo/ba";
  }
}
