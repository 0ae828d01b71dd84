/**
 Quorum arithmetic: how many faults n replicas tolerate, how large a quorum is, and
 exactly when two quorums are certain to share a correct replica.
 */
module Quorums {

  function FaultsFor(n: nat): (f: nat)
    requires n >= 1
    ensures 3 * f + 1 <= n <= 3 * f + 3
  {
    (n - 1) / 3
  }

  function QuorumFor(n: nat): nat
    requires n >= 1
  {
    2 * FaultsFor(n) + 1
  }

  function ReplicasFor(f: nat): nat {
    3 * f + 1
  }

  lemma ReplicasForTolerates(f: nat)
    ensures FaultsFor(ReplicasFor(f)) == f
    ensures QuorumFor(ReplicasFor(f)) == 2 * f + 1
  {
    assert (3 * f + 1 - 1) / 3 == f;
  }

  lemma SubsetCount<T>(a: set<T>, b: set<T>)
    requires a <= b
    ensures |a| <= |b|
    ensures |a| == |b| ==> a == b
  {
    assert |b| == |a| + |b - a| by { assert b == a + (b - a); }
  }

  lemma Overlap<T>(a: set<T>, b: set<T>, all: set<T>)
    requires a <= all && b <= all
    ensures |a * b| >= |a| + |b| - |all|
  {
    assert |a + b| == |a| + |b| - |a * b|;
    SubsetCount(a + b, all);
  }

  /** A set larger than the number of faults holds someone who is not faulty. */
  lemma SomeCorrect<T>(a: set<T>, faulty: set<T>) returns (x: T)
    requires |a| > |faulty|
    ensures x in a && x !in faulty
  {
    if a <= faulty {
      SubsetCount(a, faulty);
      assert false;
    }
    x :| x in a && x !in faulty;
  }

  /** Two quorums of a group of 3f + 1 share a correct member. */
  lemma QuorumsShareCorrect<T>(a: set<T>, b: set<T>, all: set<T>, faulty: set<T>) returns (x: T)
    requires |all| >= 1 && |all| % 3 == 1
    requires a <= all && b <= all
    requires |a| >= QuorumFor(|all|) && |b| >= QuorumFor(|all|)
    requires |faulty| <= FaultsFor(|all|)
    ensures x in a && x in b && x !in faulty
  {
    Overlap(a, b, all);
    assert |all| == 3 * FaultsFor(|all|) + 1;
    x := SomeCorrect(a * b, faulty);
  }

  ghost predicate AnyTwoQuorumsShareMoreThanF<T(!new)>(all: set<T>)
    requires |all| >= 1
  {
    forall a, b :: a <= all && b <= all && |a| == QuorumFor(|all|) && |b| == QuorumFor(|all|) ==>
      |a * b| > FaultsFor(|all|)
  }

  lemma {:induction false} SubsetOfSize<T>(s: set<T>, k: nat) returns (r: set<T>)
    requires k <= |s|
    ensures r <= s && |r| == k
  {
    if k == 0 {
      r := {};
    } else {
      var x :| x in s;
      var rest := SubsetOfSize(s - {x}, k - 1);
      r := rest + {x};
    }
  }

  /** The quorum size in use guarantees a correct member in every intersection
      exactly for groups of 3f + 1; adding one or two members breaks it. */
  lemma QuorumsIntersectExactly<T(!new)>(all: set<T>)
    requires |all| >= 1
    ensures AnyTwoQuorumsShareMoreThanF(all) <==> |all| % 3 == 1
  {
    var f := FaultsFor(|all|);
    if |all| % 3 == 1 {
      assert |all| == 3 * f + 1;
      forall a, b | a <= all && b <= all && |a| == 2 * f + 1 && |b| == 2 * f + 1
        ensures |a * b| > f
      {
        Overlap(a, b, all);
      }
    } else {
      assert |all| >= 3 * f + 2;
      var a := SubsetOfSize(all, 2 * f + 1);
      assert |all - a| >= f + 1 by { assert all == a + (all - a); }
      var shared := SubsetOfSize(a, f);
      var apart := SubsetOfSize(all - a, f + 1);
      var b := shared + apart;
      assert |b| == 2 * f + 1 by { assert shared !! apart; }
      assert a * b == shared;
      assert !AnyTwoQuorumsShareMoreThanF(all);
    }
  }
}
