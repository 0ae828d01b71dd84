/**
 Rounds of join votes: the node that is reported as joining comes from the last message, the
 node that is added to the next view from the count of voters. When are they the same?
 */
module JoinVotes {
  import opened Messages
  import opened Views
  import opened ViewChanges
  import Quorums

  predicate InRound(s: State) {
    s.phase.ViewStopping? || s.phase.ViewStopping2?
  }

  function Received(s: State): nat
    requires InRound(s)
  {
    s.phase.received
  }

  predicate IsJoin(s: State, m: Change) {
    m.kind.Join? && m.seqNo == s.view.seqNo + 1
  }

  /** Nobody has more voters than messages were counted in this round, nor a quorum of them. */
  ghost predicate Tidy(s: State) {
    InRound(s) && forall n :: n in s.votes ==> |s.votes[n]| <= Received(s) && |s.votes[n]| < s.view.Quorum()
  }

  ghost function TakeJoin(s: State, m: Change): State
    requires s.view.members != [] && InRound(s) && IsJoin(s, m)
  {
    ProcessJoin(s, m, Received(s) + 1).state
  }

  lemma TakesJoin(s: State, m: Change, verdict: Verdict)
    requires Inv(s) && InRound(s) && IsJoin(s, m)
    ensures TakeJoin(s, m) == Process(s, m, verdict).state
  {
    hide ProcessJoin;
  }

  /** The node reported as joining is not the one that the next view adds. */
  ghost predicate Misreports(s: State, m: Change) {
    && s.view.members != [] && InRound(s) && IsJoin(s, m)
    && TakeJoin(s, m).phase.Leaving()
    && !(&& TakeJoin(s, m).adding.Some?
         && TakeJoin(s, m).next == Some(NextViewWithNode(s.view, TakeJoin(s, m).adding.value)))
  }

  lemma VoterAdded(s: State, m: Change, n: Node)
    requires m.kind.Join?
    ensures var votes := Record(s.votes, m.kind.node, m.from);
            && |VotesFor(votes, n)| <= |VotesFor(s.votes, n)| + 1
            && (n != m.kind.node ==> VotesFor(votes, n) == VotesFor(s.votes, n))
  {
  }

  /** One vote in a tidy round either keeps it tidy, or completes it: then the node of the
      message is the top-voted one, is reported, is added, and has exactly a quorum of voters. */
  lemma TidyStep(s: State, m: Change)
    requires s.view.members != [] && Tidy(s) && IsJoin(s, m)
    ensures var t := TakeJoin(s, m);
            || (Tidy(t) && t.view == s.view)
            || (&& t.phase.Leaving() && t.adding == Some(m.kind.node) && IsTop(t.votes, m.kind.node)
                && t.next == Some(NextViewWithNode(s.view, m.kind.node))
                && |t.votes[m.kind.node]| == s.view.Quorum())
  {
    hide NextViewWithNode, View.F;
    var votes := Record(s.votes, m.kind.node, m.from);
    forall n | n in votes
      ensures |votes[n]| <= Received(s) + 1 && |votes[n]| <= s.view.Quorum()
      ensures n != m.kind.node ==> |votes[n]| < s.view.Quorum()
    {
      VoterAdded(s, m, n);
    }
    var top := Top(votes);
    if |votes[top]| >= s.view.Quorum() {
      assert top == m.kind.node;
    }
  }

  /** A round of votes, for as long as it lasts. */
  ghost function After(s: State, ms: seq<Change>): State
    requires s.view.members != []
    ensures After(s, ms).view == s.view
  {
    if ms == [] then s
    else
      var t := After(s, ms[..|ms| - 1]);
      if InRound(t) && IsJoin(t, ms[|ms| - 1]) then TakeJoin(t, ms[|ms| - 1]) else t
  }

  lemma {:induction false} TidyRounds(s: State, ms: seq<Change>)
    requires s.view.members != [] && Tidy(s)
    ensures Tidy(After(s, ms)) || !InRound(After(s, ms))
  {
    hide TakeJoin, IsJoin;
    if ms != [] {
      TidyRounds(s, ms[..|ms| - 1]);
      var t := After(s, ms[..|ms| - 1]);
      if InRound(t) && IsJoin(t, ms[|ms| - 1]) {
        TidyStep(t, ms[|ms| - 1]);
      }
    }
  }

  /** A round that starts with no recorded votes never misreports, however often messages
      are repeated; the node it adds has exactly a quorum of distinct voters. */
  lemma CleanRoundReportsTop(s: State, ms: seq<Change>, m: Change)
    requires s.view.members != [] && InRound(s) && s.votes == map[]
    ensures !Misreports(After(s, ms), m)
    ensures InRound(After(s, ms)) && IsJoin(s, m) && TakeJoin(After(s, ms), m).phase.Leaving() ==>
              var t := TakeJoin(After(s, ms), m);
              && t.adding == Some(m.kind.node) && t.next == Some(NextViewWithNode(s.view, m.kind.node))
              && m.kind.node in t.votes && |t.votes[m.kind.node]| == s.view.Quorum()
  {
    hide TakeJoin, NextViewWithNode;
    TidyRounds(s, ms);
    if InRound(After(s, ms)) && IsJoin(s, m) {
      TidyStep(After(s, ms), m);
    }
  }

  // An untidy round can be made to misreport, by members of the view alone

  ghost predicate FromMembers(v: View, ms: seq<Change>) {
    forall m :: m in ms ==> m.from in v.members
  }

  lemma {:induction false} Above(nodes: set<Node>) returns (n: Node)
    ensures forall k :: k in nodes ==> k < n
  {
    if nodes == {} {
      n := 0;
    } else {
      var k :| k in nodes;
      var below := Above(nodes - {k});
      n := if k < below then below else k + 1;
      assert forall j :: j in nodes ==> j == k || j in nodes - {k};
    }
  }

  /** Some member is not among fewer voters than a quorum. */
  lemma AnotherMember(v: View, voters: set<Node>) returns (n: Node)
    requires v.Valid() && |voters| < v.Quorum()
    ensures n in v.members && n !in voters
  {
    DistinctCount(v.members);
    n := Quorums.SomeCorrect(v.MemberSet(), voters);
  }

  lemma AddsItsNode(v: View, n: Node)
    requires v.members != []
    ensures |NextViewWithNode(v, n).members| == |v.members| + 1 && NextViewWithNode(v, n).members[|v.members|] == n
  {
  }

  lemma {:induction false} QuorumMisreports(s: State, n: Node) returns (ms: seq<Change>, m: Change)
    requires s.view.members != [] && InRound(s) && n in s.votes && |s.votes[n]| >= s.view.Quorum()
    ensures FromMembers(s.view, ms + [m]) && Misreports(After(s, ms), m)
    decreases s.view.Quorum() - Received(s)
  {
    var other := Above(s.votes.Keys);
    var voter := s.view.members[0];
    var vote := Change(voter, s.view.seqNo + 1, Join(other));
    var votes := Record(s.votes, other, voter);
    if Received(s) + 1 >= s.view.Quorum() {
      ms, m := [], vote;
      assert votes[n] == s.votes[n] && |votes[other]| == 1;
      assert Top(votes) != other && |votes[Top(votes)]| >= s.view.Quorum();
      AddsItsNode(s.view, Top(votes));
      AddsItsNode(s.view, other);
    } else {
      var rest;
      rest, m := QuorumMisreports(TakeJoin(s, vote), n);
      ms := [vote] + rest;
      AfterFirst(s, vote, rest);
    }
  }

  lemma {:induction false} AfterFirst(s: State, m: Change, rest: seq<Change>)
    requires s.view.members != [] && InRound(s) && IsJoin(s, m)
    ensures After(s, [m] + rest) == After(TakeJoin(s, m), rest)
  {
    hide TakeJoin;
    if rest == [] {
      assert [m] + rest == [m] && [m][..0] == [];
    } else {
      AfterFirst(s, m, rest[..|rest| - 1]);
      assert ([m] + rest)[..|rest|] == [m] + rest[..|rest| - 1];
    }
  }

  lemma {:induction false} UntidyMisreports(s: State, n: Node) returns (ms: seq<Change>, m: Change)
    requires s.view.Valid() && InRound(s) && n in s.votes
    requires |s.votes[n]| > Received(s) || |s.votes[n]| >= s.view.Quorum()
    ensures FromMembers(s.view, ms + [m]) && Misreports(After(s, ms), m)
    decreases s.view.Quorum() - |s.votes[n]|
  {
    hide View.Valid, View.F;
    if |s.votes[n]| >= s.view.Quorum() {
      assert s.view.members != [] by { HasMembers(s.view); }
      ms, m := QuorumMisreports(s, n);
    } else {
      var voter := AnotherMember(s.view, s.votes[n]);
      var vote := Change(voter, s.view.seqNo + 1, Join(n));
      var rest;
      rest, m := UntidyMisreports(TakeJoin(s, vote), n);
      ms := [vote] + rest;
      AfterFirst(s, vote, rest);
    }
  }

  lemma HasMembers(v: View)
    requires v.Valid()
    ensures v.members != []
  {
  }

  /** Whatever votes of members follow, the report names the node that is added, exactly if the
      round is tidy. Votes left over from a round that a STOP cut short make it untidy. */
  lemma JoinReportsTopExactly(s: State)
    requires s.view.Valid() && InRound(s)
    ensures (forall ms, m :: FromMembers(s.view, ms + [m]) ==> !Misreports(After(s, ms), m)) <==> Tidy(s)
  {
    HasMembers(s.view);
    hide TakeJoin, Misreports, View.Valid, FromMembers;
    if Tidy(s) {
      forall ms, m ensures !Misreports(After(s, ms), m) {
        TidyRounds(s, ms);
        NoMisreport(After(s, ms), m);
      }
    } else {
      var n :| n in s.votes && !(|s.votes[n]| <= Received(s) && |s.votes[n]| < s.view.Quorum());
      var ms, m := UntidyMisreports(s, n);
      assert FromMembers(s.view, ms + [m]) && Misreports(After(s, ms), m);
    }
  }

  lemma NoMisreport(s: State, m: Change)
    requires s.view.members != [] && (Tidy(s) || !InRound(s))
    ensures !Misreports(s, m)
  {
    hide TakeJoin, NextViewWithNode;
    if InRound(s) && IsJoin(s, m) {
      TidyStep(s, m);
    }
  }

  // The branch that the source leaves unfinished

  /** The unfinished branch is reached exactly if, in a round of join votes, as many messages as
      there are members were counted and no node has a quorum of voters. */
  lemma UnfinishedExactly(s: State, m: Change, verdict: Verdict)
    requires Inv(s) && !s.phase.SyncingState?
    ensures Process(s, m, verdict).report == Unimplemented <==>
              && InRound(s) && IsJoin(s, m) && Received(s) + 1 >= |s.view.members|
              && (var votes := Record(s.votes, m.kind.node, m.from);
                  forall n :: n in votes ==> |votes[n]| < s.view.Quorum())
  {
    if InRound(s) && IsJoin(s, m) {
      JoinUnfinished(s, m);
      hide ProcessJoin, Record, Queue;
    } else {
      OthersFinished(s, m, verdict);
    }
  }

  lemma OthersFinished(s: State, m: Change, verdict: Verdict)
    requires Inv(s) && !s.phase.SyncingState? && !(InRound(s) && IsJoin(s, m))
    ensures Process(s, m, verdict).report != Unimplemented
  {
    hide Queue, EnterNext, MoveOn, ProcessJoin;
  }

  lemma JoinUnfinished(s: State, m: Change)
    requires s.view.members != [] && InRound(s) && IsJoin(s, m)
    ensures ProcessJoin(s, m, Received(s) + 1).report == Unimplemented <==>
              && Received(s) + 1 >= |s.view.members|
              && (var votes := Record(s.votes, m.kind.node, m.from);
                  forall n :: n in votes ==> |votes[n]| < s.view.Quorum())
  {
    var votes := Record(s.votes, m.kind.node, m.from);
    assert |votes[Top(votes)]| < s.view.Quorum() <==> forall n :: n in votes ==> |votes[n]| < s.view.Quorum();
  }

  ghost predicate Unfinished(s: State, m: Change) {
    s.view.members != [] && InRound(s) && IsJoin(s, m) && ProcessJoin(s, m, Received(s) + 1).report == Unimplemented
  }

  function Copies(m: Change, k: nat): (ms: seq<Change>)
    ensures |ms| == k && forall j :: 0 <= j < k ==> ms[j] == m
  {
    if k == 0 then [] else Copies(m, k - 1) + [m]
  }

  lemma {:induction false} RepeatedJoins(s: State, m: Change, k: nat)
    requires s.view.members != [] && s.view.F() >= 1 && InRound(s) && Received(s) == 0 && s.votes == map[]
    requires IsJoin(s, m)
    requires k < |s.view.members|
    ensures var t := After(s, Copies(m, k));
            && InRound(t) && Received(t) == k && t.view == s.view
            && (forall n :: n in t.votes ==> n == m.kind.node && t.votes[n] == {m.from})
  {
    hide View.F;
    if k > 0 {
      RepeatedJoins(s, m, k - 1);
      assert Copies(m, k)[..k - 1] == Copies(m, k - 1);
      var t := After(s, Copies(m, k - 1));
      assert After(s, Copies(m, k)) == TakeJoin(t, m);
      OneVoter(t, m);
    }
  }

  lemma OneVoter(s: State, m: Change)
    requires s.view.members != [] && s.view.Quorum() >= 2 && InRound(s) && IsJoin(s, m)
    requires forall n :: n in s.votes ==> n == m.kind.node && s.votes[n] == {m.from}
    ensures var t := TakeJoin(s, m);
            && InRound(t) && Received(t) == Received(s) + 1 && t.view == s.view
            && (forall n :: n in t.votes ==> n == m.kind.node && t.votes[n] == {m.from})
    ensures ProcessJoin(s, m, Received(s) + 1).report == Unimplemented <==> Received(s) + 1 >= |s.view.members|
  {
    var votes := Record(s.votes, m.kind.node, m.from);
    assert votes[m.kind.node] == {m.from};
    assert |votes[Top(votes)]| == 1;
  }

  /** Messages are counted, not senders: in a round without votes, one member that repeats one
      vote as often as there are members leads into the unfinished branch, exactly if f >= 1. */
  lemma OneVoterReachesUnfinishedExactly(s: State, m: Change)
    requires s.view.members != [] && InRound(s) && Received(s) == 0 && s.votes == map[] && IsJoin(s, m)
    ensures Unfinished(After(s, Copies(m, |s.view.members| - 1)), m) <==> s.view.F() >= 1
  {
    var k := |s.view.members| - 1;
    if s.view.F() >= 1 {
      RepeatedJoins(s, m, k);
      OneVoter(After(s, Copies(m, k)), m);
    } else {
      LoneQuorum(s, m);
      if k > 0 {
        assert Copies(m, k) == [m] + Copies(m, k - 1) by {
          assert forall j :: 0 <= j < k ==> Copies(m, k)[j] == ([m] + Copies(m, k - 1))[j];
        }
        AfterFirst(s, m, Copies(m, k - 1));
        NoMoreVotes(TakeJoin(s, m), Copies(m, k - 1));
      } else {
        assert Copies(m, 0) == [];
      }
    }
  }

  lemma LoneQuorum(s: State, m: Change)
    requires s.view.members != [] && s.view.F() == 0 && InRound(s) && s.votes == map[] && IsJoin(s, m)
    ensures !InRound(TakeJoin(s, m)) && !Unfinished(s, m)
  {
    var votes := Record(s.votes, m.kind.node, m.from);
    assert votes[m.kind.node] == {m.from} && Top(votes) == m.kind.node;
  }

  lemma {:induction false} NoMoreVotes(s: State, ms: seq<Change>)
    requires s.view.members != [] && !InRound(s)
    ensures After(s, ms) == s
  {
    if ms != [] {
      NoMoreVotes(s, ms[..|ms| - 1]);
    }
  }
}
