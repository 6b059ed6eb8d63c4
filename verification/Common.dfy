/** Shared vocabulary: optional values and the three ways a remote store call can end. */
module Common {

  datatype Option<+T> = None | Some(value: T)

  /** What the caller of a store operation observes, and whether the store applied it:
      Done   - applied and acknowledged
      Lost   - applied, but the caller sees an error (lost reply)
      Failed - not applied, and the caller sees an error */
  datatype Outcome = Done | Lost | Failed {
    predicate Applied() {
      Done? || Lost?
    }
  }

  /** Some element of a non-empty set. */
  ghost function Choose<T>(s: set<T>): (x: T)
    requires s != {}
    ensures x in s
  {
    var x :| x in s;
    x
  }

  lemma ProperSubsetIsSmaller<T>(a: set<T>, b: set<T>)
    requires a < b
    ensures |a| < |b|
  {
    var rest := b - a;
    assert a + rest == b;
    assert a + {} == a;
    assert rest != {};
    assert |b| == |a| + |rest|;
  }

  lemma SubsetIsNoLarger<X>(a: set<X>, b: set<X>)
    requires a <= b
    ensures |a| <= |b|
  {
    if a != b {
      ProperSubsetIsSmaller(a, b);
    }
  }
}
