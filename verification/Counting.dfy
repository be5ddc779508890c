// The pigeonhole principle for lists of numbers.
module Counting {

  // A list that contains every number below count is at least that long.
  lemma {:induction false} FewElements(xs: seq<nat>, count: nat)
    requires forall b: nat :: b < count ==> b in xs
    ensures count <= |xs|
    decreases count
  {
    if count > 0 {
      var last: nat := count - 1;
      assert last in xs;
      var i :| 0 <= i < |xs| && xs[i] == last;
      var rest := xs[..i] + xs[i + 1..];
      forall b: nat | b < count - 1 ensures b in rest {
        assert b in xs;
        var j :| 0 <= j < |xs| && xs[j] == b;
        assert rest[if j < i then j else j - 1] == b;
      }
      FewElements(rest, count - 1);
    }
  }
}
