/** Majorities of node-id sets: the facts every quorum argument rests on. */
module Quorum {
  import opened Types

  /** More than half of the members of `c` are in `g` (C++ integer division of a non-negative size). */
  ghost predicate Majority(g: set<Id>, c: set<Id>) {
    |g * c| > |c| / 2
  }

  lemma Pick<T>(s: set<T>) returns (x: T)
    requires s != {}
    ensures x in s
  {
    assert exists i :: i in s;
    x :| x in s;
  }

  lemma {:induction false} SubsetSize<T>(a: set<T>, b: set<T>)
    requires a <= b
    ensures |a| <= |b|
    decreases |a|
  {
    if a != {} {
      var x := Pick(a);
      SubsetSize(a - {x}, b - {x});
    }
  }

  lemma MajorityGrows(g: set<Id>, g': set<Id>, c: set<Id>)
    requires Majority(g, c) && g <= g'
    ensures Majority(g', c)
  {
    SubsetSize(g * c, g' * c);
  }

  /** Two groups holding majorities of configurations that differ in at most one id share a member. */
  lemma MajoritiesMeet(a: set<Id>, ca: set<Id>, b: set<Id>, cb: set<Id>) returns (x: Id)
    requires Majority(a, ca) && Majority(b, cb)
    requires |ca - cb| + |cb - ca| <= 1
    ensures x in a && x in b && x in ca && x in cb
  {
    var u := ca + cb;
    assert |u| <= |ca| / 2 + |cb| / 2 + 1 by {
      assert u == (ca - cb) + (cb - ca) + ca * cb;
      assert |u| == |ca - cb| + |cb - ca| + |ca * cb|;
      assert ca == (ca - cb) + ca * cb && cb == (cb - ca) + ca * cb;
    }
    var common := a * ca * (b * cb);
    SubsetSize(a * ca + b * cb, u);
    assert |a * ca + b * cb| == |a * ca| + |b * cb| - |common|;
    x := Pick(common);
  }

  ghost predicate AlwaysMeet(ca: set<Id>, cb: set<Id>) {
    forall a: set<Id>, b: set<Id> | Majority(a, ca) && Majority(b, cb) :: a * b != {}
  }

  /** One id apart, they always meet. */
  lemma OneApartMeets(ca: set<Id>, cb: set<Id>)
    requires |ca - cb| + |cb - ca| <= 1
    ensures AlwaysMeet(ca, cb)
  {
    forall a: set<Id>, b: set<Id> | Majority(a, ca) && Majority(b, cb)
      ensures a * b != {}
    {
      var x := MajoritiesMeet(a, ca, b, cb);
      assert x in a * b;
    }
  }

  lemma SelfMeets(ca: set<Id>)
    ensures AlwaysMeet(ca, ca)
  {
    assert ca - ca == {};
    OneApartMeets(ca, ca);
  }

  lemma {:induction false} Some<T>(s: set<T>, n: nat) returns (part: set<T>)
    requires n <= |s|
    ensures part <= s && |part| == n
    decreases n
  {
    if n == 0 {
      part := {};
    } else {
      var x := Pick(s);
      var rest := Some(s - {x}, n - 1);
      part := rest + {x};
    }
  }

  /** Any two majorities of two configurations meet if and only if the two smallest ones do not fit side by side into
      both configurations together. */
  lemma MajoritiesMeetIff(ca: set<Id>, cb: set<Id>)
    requires ca != {} && cb != {}
    ensures AlwaysMeet(ca, cb) <==> |ca| / 2 + |cb| / 2 + 2 > |ca + cb|
  {
    if |ca| / 2 + |cb| / 2 + 2 > |ca + cb| {
      forall a: set<Id>, b: set<Id> | Majority(a, ca) && Majority(b, cb)
        ensures a * b != {}
      {
        if a * b == {} {
          assert (a * ca) * (b * cb) == {};
          SubsetSize(a * ca + b * cb, ca + cb);
        }
      }
    } else {
      var a, b := Apart(ca, cb);
      assert a * ca == a && b * cb == b;
      assert Majority(a, ca) && Majority(b, cb);
    }
  }

  /** The smallest majorities, the first taken from outside the other configuration as far as possible. */
  lemma Apart(ca: set<Id>, cb: set<Id>) returns (a: set<Id>, b: set<Id>)
    requires ca != {} && cb != {} && |ca| / 2 + |cb| / 2 + 2 <= |ca + cb|
    ensures a <= ca && b <= cb && a * b == {} && |a| == |ca| / 2 + 1 && |b| == |cb| / 2 + 1
  {
    var own, n := ca - cb, |ca| / 2 + 1;
    assert ca == own + ca * cb && |ca| == |own| + |ca * cb|;
    assert ca + cb == own + cb && |ca + cb| == |own| + |cb|;
    if n <= |own| {
      a := Some(own, n);
      b := Some(cb, |cb| / 2 + 1);
    } else {
      var shared := Some(ca * cb, n - |own|);
      a := own + shared;
      b := Some(cb - shared, |cb| / 2 + 1);
    }
  }
}
