/** Counting finite sets, and numbers outside them. */
module Sets {

  lemma SubsetCount<T>(a: set<T>, b: set<T>)
    requires a <= b
    ensures |a| <= |b|
  {
    if a != {} {
      var x :| x in a;
      SubsetCount(a - {x}, b - {x});
    }
  }

  lemma DisjointCount<T>(a: set<T>, b: set<T>, c: set<T>)
    requires a <= c && b <= c && a !! b
    ensures |a| + |b| <= |c|
  {
    assert |a + b| == |a| + |b|;
    SubsetCount(a + b, c);
  }

  /** A number nobody uses yet. */
  function Above(taken: set<nat>): (d: nat)
    ensures d !in taken
    ensures forall x :: x in taken ==> x < d
  {
    if taken == {} then 0
    else
      MaxExists(taken);
      var top :| top in taken && forall x :: x in taken ==> x <= top;
      top + 1
  }

  lemma {:induction false} MaxExists(taken: set<nat>)
    requires taken != {}
    ensures exists top :: top in taken && forall x :: x in taken ==> x <= top
    decreases |taken|
  {
    var x :| x in taken;
    if taken != {x} {
      MaxExists(taken - {x});
      var top :| top in taken - {x} && forall c :: c in taken - {x} ==> c <= top;
      var best := if x < top then top else x;
      assert forall c :: c in taken ==> c == x || c in taken - {x};
      assert best in taken;
    }
  }

}
