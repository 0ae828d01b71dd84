/**
 Views: who takes part, who leads, and which part of the digest space each leader
 may propose from.
 */
module Views {
  import opened Messages
  import HashSpace
  import Quorums

  /** Width of a request digest in bytes. No proof depends on its value. */
  const DIGEST_LENGTH: nat := 32

  datatype View = View(seqNo: nat, members: seq<Node>, leaders: seq<Node>, slices: map<Node, HashSpace.Slice>) {

    ghost predicate Valid() {
      && members != [] && HashSpace.Distinct(members)
      && leaders != [] && HashSpace.Distinct(leaders)
      && (forall l :: l in leaders ==> l in members)
      && slices.Keys == NodeSet(leaders)
    }

    function F(): nat {
      if members == [] then 0 else Quorums.FaultsFor(|members|)
    }

    function Quorum(): (q: nat)
      ensures q >= 1
    {
      2 * F() + 1
    }

    function MemberSet(): set<Node> {
      NodeSet(members)
    }

    function Leader(): Node
      requires members != []
    {
      members[seqNo % |members|]
    }
  }

  function NodeSet(nodes: seq<Node>): set<Node> {
    set n | n in nodes
  }

  lemma {:induction false} DistinctCount(nodes: seq<Node>)
    requires HashSpace.Distinct(nodes)
    ensures |NodeSet(nodes)| == |nodes|
  {
    if nodes != [] {
      var rest, last := nodes[..|nodes| - 1], nodes[|nodes| - 1];
      DistinctCount(rest);
      assert NodeSet(nodes) == NodeSet(rest) + {last};
    }
  }

  /** The view of the given number over a given group; its single leader rotates. */
  function FromQuorum(seqNo: nat, members: seq<Node>): (v: View)
    requires members != []
    ensures HashSpace.Distinct(members) ==> v.Valid()
    ensures v.members == members && v.leaders == [v.Leader()]
  {
    var leaders := [members[seqNo % |members|]];
    View(seqNo, members, leaders, HashSpace.Division(DIGEST_LENGTH, leaders))
  }

  /** The single leader of such a view may propose every request: its slice is the whole space. */
  lemma SoleLeaderOwnsAll(seqNo: nat, members: seq<Node>, digest: seq<Byte>)
    requires members != [] && |digest| == DIGEST_LENGTH
    ensures var v := FromQuorum(seqNo, members);
            v.Leader() in v.slices && HashSpace.InSlice(digest, v.slices[v.Leader()])
  {
    HashSpace.EachDigestInExactlyOneSlice(DIGEST_LENGTH, 1, digest, 0);
  }

  /** The view of the given number over the first `n` node identifiers. */
  function NewView(seqNo: nat, n: nat): (v: View)
    requires n >= 1
    ensures v.Valid() && |v.members| == n
  {
    FromQuorum(seqNo, seq(n, k requires 0 <= k < n => k))
  }

  function NextView(v: View): (w: View)
    requires v.members != []
    ensures w.Valid() && w.seqNo == v.seqNo + 1 && w.F() == v.F()
  {
    NewView(v.seqNo + 1, |v.members|)
  }

  function NextViewWithNode(v: View, joined: Node): (w: View)
    requires v.members != []
    ensures w.seqNo == v.seqNo + 1 && w.F() >= v.F() && w.members == v.members + [joined]
  {
    FromQuorum(v.seqNo + 1, v.members + [joined])
  }
}
