/** Facts about strings shared by the text builders. */
module Texts {

  /** A character occurs in a concatenation exactly when it occurs in one of the parts. */
  lemma InConcat(x: char, a: string, b: string)
    ensures x in a + b <==> x in a || x in b
  {
    if x in a + b {
      var i :| 0 <= i < |a + b| && (a + b)[i] == x;
      if i < |a| {
        assert a[i] == x;
      } else {
        assert b[i - |a|] == x;
      }
    }
    if x in b {
      var j :| 0 <= j < |b| && b[j] == x;
      assert (a + b)[|a| + j] == x;
    }
  }
}
