/** Counting the threads of a transition system by what they are doing. */
module Crew {

  function One(b: bool): nat {
    if b then 1 else 0
  }

  /** The threads whose position satisfies `p`. */
  ghost function Those<T>(crew: map<nat, T>, p: T -> bool): set<nat> {
    set t | t in crew && p(crew[t])
  }

  predicate Has<T>(crew: map<nat, T>, t: nat, p: T -> bool) {
    t in crew && p(crew[t])
  }

  /** Moving one thread changes a count by what that thread adds or takes away. */
  lemma CountAfter<T>(crew: map<nat, T>, t: nat, x: T, p: T -> bool)
    ensures |Those(crew[t := x], p)| + One(Has(crew, t, p)) == |Those(crew, p)| + One(p(x))
    ensures forall u :: u in Those(crew[t := x], p) <==> if u == t then p(x) else u in Those(crew, p)
  {
    if p(x) {
      assert Those(crew[t := x], p) == Those(crew, p) + {t};
    } else {
      assert Those(crew[t := x], p) == Those(crew, p) - {t};
    }
  }

  lemma SubsetSize<T>(a: set<T>, b: set<T>)
    requires a <= b
    ensures |a| <= |b| && (a != b ==> |a| < |b|)
  {
    assert b == a + (b - a);
  }

  /** With at most one such thread, two of them are one. */
  lemma AtMostOne<T>(crew: map<nat, T>, p: T -> bool, t: nat, u: nat)
    requires |Those(crew, p)| <= 1 && Has(crew, t, p) && Has(crew, u, p)
    ensures t == u
  {
    SubsetSize({t, u}, Those(crew, p));
  }

  /** If nobody is left doing `p`, then nobody was, or `t` was the last. */
  lemma LastOne<T>(crew: map<nat, T>, t: nat, x: T, p: T -> bool)
    ensures Those(crew[t := x], p) == {} ==> !p(x) && (Those(crew, p) == {} || Has(crew, t, p))
  {
    CountAfter(crew, t, x, p);
    if Those(crew[t := x], p) == {} {
      assert t !in Those(crew[t := x], p);
      if u :| u in Those(crew, p) {
        assert u !in Those(crew[t := x], p);
      }
    }
  }
}
