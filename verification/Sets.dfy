/** Facts about finite sets that more than one module needs. */
module Sets {

  lemma {:induction false} Subset<T>(a: set<T>, b: set<T>)
    requires a <= b
    ensures |a| <= |b|
    decreases |a|
  {
    if x :| x in a {
      Subset(a - {x}, b - {x});
    }
  }

  /** A set of more than two has three different members. */
  lemma ThreeOf<T>(s: set<T>) returns (x: T, y: T, z: T)
    requires |s| > 2
    ensures x in s && y in s && z in s && x != y && y != z && x != z
  {
    x :| x in s;
    assert |s - {x}| > 1;
    y :| y in s - {x};
    assert |s - {x} - {y}| > 0;
    z :| z in s - {x} - {y};
  }
}
