/**
 Collecting STOP-DATA. What a leader collected for one view change stays on record, and a sender
 on record counts no more. When can a leader still gather a quorum?
 */
module Collecting {
  import opened Messages
  import opened Views
  import opened ViewChanges
  import opened StopScenarios
  import JoinVotes
  import HashSpace
  import Quorums

  /** The replica is to lead the next view, a proper one, and collects for it. */
  ghost predicate Leads(s: State) {
    Inv(s) && s.phase.StoppingData? && s.next.value.Valid() && s.next.value.Leader() == s.me
  }

  /** The state after messages arrived, for as long as it collects; a quorum lets it go on. */
  ghost function Gathered(s: State, ms: seq<Change>): (t: State)
    requires Inv(s)
    ensures Inv(t)
  {
    if ms == [] then s
    else
      var t := Gathered(s, ms[..|ms| - 1]);
      if t.phase.StoppingData? then
        ProcessKeeps(t, ms[|ms| - 1], Verdict.Commit);
        Process(t, ms[|ms| - 1], Verdict.Commit).state
      else t
  }

  /** The members whose STOP-DATA would still count. */
  ghost function Missing(s: State): set<Node>
    requires s.next.Some?
  {
    s.next.value.MemberSet() - s.collects
  }

  // No more than the missing members count

  /** Since `s`, as many were counted as came on record, all of them members. */
  ghost predicate Counted(s: State, t: State)
    requires s.next.Some?
  {
    && t.phase.StoppingData? && t.me == s.me && t.view == s.view && t.next == s.next
    && s.collects <= t.collects <= s.collects + s.next.value.MemberSet()
    && t.phase.collected == |t.collects - s.collects|
  }

  lemma CountedStep(s: State, t: State, m: Change)
    requires Leads(s) && Inv(t) && Counted(s, t) && m.from in s.next.value.members
    requires |Missing(s)| < s.next.value.Quorum()
    ensures Counted(s, Process(t, m, Verdict.Commit).state)
  {
    hide Queue, NewView, View.F, View.Valid, View.Leader, Finalize;
    QueueCollects(t, m);
    var more := t.collects + {m.from};
    if m.from !in t.collects {
      assert more - s.collects == (t.collects - s.collects) + {m.from};
    }
    assert more - s.collects <= Missing(s);
    Quorums.SubsetCount(more - s.collects, Missing(s));
  }

  lemma QueueCollects(s: State, m: Change)
    ensures var t := Queue(s, m);
            && t.phase == s.phase && t.me == s.me && t.view == s.view && t.next == s.next && t.collects == s.collects
  {
    hide File;
  }

  lemma {:induction false} TooFewStay(s: State, ms: seq<Change>)
    requires Leads(s) && s.phase == StoppingData(0) && |Missing(s)| < s.next.value.Quorum()
    requires JoinVotes.FromMembers(s.next.value, ms)
    ensures Counted(s, Gathered(s, ms))
  {
    hide Process, View.Quorum, Missing;
    if ms == [] {
      assert s.collects - s.collects == {};
    } else {
      TooFewStay(s, ms[..|ms| - 1]);
      assert ms[|ms| - 1] in ms;
      CountedStep(s, Gathered(s, ms[..|ms| - 1]), ms[|ms| - 1]);
    }
  }

  // A quorum of them suffices

  function DataFrom(qs: seq<Node>, v: View): (ms: seq<Change>)
    ensures |ms| == |qs| && forall k :: 0 <= k < |qs| ==> ms[k] == DataOf(qs[k], v)
  {
    seq(|qs|, k requires 0 <= k < |qs| => DataOf(qs[k], v))
  }

  /** `s` after it collected from `qs` as well. */
  function Having(s: State, qs: seq<Node>): State {
    s.(phase := StoppingData(|qs|), collects := s.collects + NodeSet(qs))
  }

  lemma OneMoreData(s: State, qs: seq<Node>, q: Node)
    requires Leads(s) && Inv(Having(s, qs)) && q !in qs && q !in s.collects
    requires Gathered(s, DataFrom(qs, s.view)) == Having(s, qs)
    ensures var t := Gathered(s, DataFrom(qs + [q], s.view));
            && Inv(t)
            && (|qs| + 1 < s.next.value.Quorum() ==> t == Having(s, qs + [q]))
            && (|qs| + 1 >= s.next.value.Quorum() ==> t.phase.Init?)
  {
    hide Process, View.Quorum, View.Valid, Inv, Gathered;
    GatheredLast(s, DataFrom(qs, s.view), DataOf(q, s.view));
    assert DataFrom(qs + [q], s.view) == DataFrom(qs, s.view) + [DataOf(q, s.view)];
    CountsData(Having(s, qs), q);
    assert NodeSet(qs + [q]) == NodeSet(qs) + {q};
    assert s.collects + NodeSet(qs) + {q} == s.collects + NodeSet(qs + [q]);
  }

  lemma {:induction false} Accumulates(s: State, qs: seq<Node>)
    requires Leads(s) && s.phase == StoppingData(0)
    requires HashSpace.Distinct(qs) && |qs| < s.next.value.Quorum() && forall q :: q in qs ==> q !in s.collects
    ensures Gathered(s, DataFrom(qs, s.view)) == Having(s, qs) && Inv(Having(s, qs))
  {
    assert Inv(s);
    if qs == [] {
      assert NodeSet(qs) == {} && s.collects + {} == s.collects;
    } else {
      var rest, q := qs[..|qs| - 1], qs[|qs| - 1];
      assert qs == rest + [q] && q !in rest && q in qs;
      hide View.Quorum, Leads, Inv, Gathered, Having;
      Accumulates(s, rest);
      OneMoreData(s, rest, q);
    }
  }

  lemma QuorumSuffices(s: State, qs: seq<Node>)
    requires Leads(s) && s.phase == StoppingData(0)
    requires HashSpace.Distinct(qs) && |qs| == s.next.value.Quorum() && forall q :: q in qs ==> q !in s.collects
    ensures Gathered(s, DataFrom(qs, s.view)).phase.Init?
  {
    assert Inv(s);
    var rest, q := qs[..|qs| - 1], qs[|qs| - 1];
    assert qs == rest + [q] && q !in rest && q in qs;
    hide View.Quorum, Leads, Inv, Gathered, Having;
    Accumulates(s, rest);
    OneMoreData(s, rest, q);
  }

  lemma GatheredLast(s: State, ms: seq<Change>, m: Change)
    requires Inv(s)
    ensures var t := Gathered(s, ms);
            Inv(t) && Gathered(s, ms + [m]) == if t.phase.StoppingData? then Process(t, m, Verdict.Commit).state else t
  {
    assert (ms + [m])[..|ms|] == ms;
  }

  lemma FromThese(qs: seq<Node>, v: View, next: View)
    requires forall q :: q in qs ==> q in next.members
    ensures JoinVotes.FromMembers(next, DataFrom(qs, v))
  {
    forall m | m in DataFrom(qs, v) ensures m.from in next.members {
      var k :| 0 <= k < |qs| && DataFrom(qs, v)[k] == m;
      assert qs[k] in qs;
    }
  }

  /** A leader that begins to collect can gather a quorum from members exactly if at least a quorum
      of them is not on record already. */
  lemma GathersExactly(s: State)
    requires Leads(s) && s.phase == StoppingData(0)
    ensures (exists ms :: JoinVotes.FromMembers(s.next.value, ms) && !Gathered(s, ms).phase.StoppingData?)
            <==> |Missing(s)| >= s.next.value.Quorum()
  {
    hide Gathered, View.Quorum, View.Valid, View.Leader;
    if |Missing(s)| >= s.next.value.Quorum() {
      var chosen := Quorums.SubsetOfSize(Missing(s), s.next.value.Quorum());
      var qs := Enumerate(chosen);
      QuorumSuffices(s, qs);
      FromThese(qs, s.view, s.next.value);
    } else {
      forall ms | JoinVotes.FromMembers(s.next.value, ms) ensures Gathered(s, ms).phase.StoppingData? {
        TooFewStay(s, ms);
      }
    }
  }
}
