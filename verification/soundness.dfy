/**
 The predicates by which a new leader's proposal is judged: which value, if any, the
 collects of a view change bind.
 */
module Soundness {
  import opened Messages
  import opened Instances
  import Quorums

  /** A collect, or nothing if its sender was executing some other instance. */
  type Collects = seq<Option<IncompleteProof>>

  datatype Verdict = Bound(value: Digest) | Unbound(holds: bool)

  function QuorumOf(f: nat): nat {
    2 * f + 1
  }

  /** The view and digest for which a collect shows a quorum of prepares. */
  function Prepared(c: Option<IncompleteProof>): Option<ViewDecision> {
    if c.Some? then c.value.quorumPrepares else None
  }

  function Written(c: Option<IncompleteProof>): seq<ViewDecision> {
    if c.Some? then c.value.writeSet else []
  }

  predicate Appears(ts: nat, value: Digest, cs: Collects) {
    exists k :: 0 <= k < |cs| && Prepared(cs[k]) == Some(ViewDecision(ts, value))
  }

  /** The collect is prepared for an earlier view, or for exactly this view and value. */
  predicate AtMost(ts: nat, value: Digest, c: Option<IncompleteProof>) {
    && Prepared(c).Some?
    && (Prepared(c).value.view < ts || Prepared(c).value == ViewDecision(ts, value))
  }

  function CountAtMost(ts: nat, value: Digest, cs: Collects): (n: nat)
    ensures n <= |cs|
  {
    if cs == [] then 0
    else CountAtMost(ts, value, cs[..|cs| - 1]) + if AtMost(ts, value, cs[|cs| - 1]) then 1 else 0
  }

  predicate QuorumHighest(f: nat, ts: nat, value: Digest, cs: Collects) {
    Appears(ts, value, cs) && CountAtMost(ts, value, cs) >= QuorumOf(f)
  }

  function CountWritten(ts: nat, value: Digest, ws: seq<ViewDecision>): nat {
    if ws == [] then 0
    else
      var last := ws[|ws| - 1];
      CountWritten(ts, value, ws[..|ws| - 1]) + if last.view >= ts && last.digest == value then 1 else 0
  }

  function CountWrites(ts: nat, value: Digest, cs: Collects): nat {
    if cs == [] then 0
    else CountWrites(ts, value, cs[..|cs| - 1]) + CountWritten(ts, value, Written(cs[|cs| - 1]))
  }

  predicate CertifiedValue(f: nat, ts: nat, value: Digest, cs: Collects) {
    CountWrites(ts, value, cs) > f
  }

  predicate Binds(f: nat, ts: nat, value: Digest, cs: Collects) {
    |cs| >= QuorumOf(f) && QuorumHighest(f, ts, value, cs) && CertifiedValue(f, ts, value, cs)
  }

  predicate AtViewZero(c: Option<IncompleteProof>) {
    Prepared(c).Some? ==> Prepared(c).value.view == 0
  }

  function CountAtViewZero(cs: Collects): (n: nat)
    ensures n <= |cs|
  {
    if cs == [] then 0 else CountAtViewZero(cs[..|cs| - 1]) + if AtViewZero(cs[|cs| - 1]) then 1 else 0
  }

  predicate AreUnbound(f: nat, cs: Collects) {
    |cs| >= QuorumOf(f) && CountAtViewZero(cs) >= QuorumOf(f)
  }

  /** The verdicts that agree with the predicates over all timestamps and all values. */
  ghost predicate Justified(f: nat, cs: Collects, r: Verdict) {
    match r
    case Bound(value) => exists ts :: Binds(f, ts, value, cs)
    case Unbound(holds) => (forall ts, value :: !Binds(f, ts, value, cs)) && holds == AreUnbound(f, cs)
  }

  // The search

  /** The search goes through hash sets, so in no particular order, and only over what occurs
      in the collects; still it misses no binding. */
  method Sound(f: nat, cs: Collects) returns (r: Verdict)
    ensures Justified(f, cs, r)
    ensures r.Bound? ==> |Entries(0, r.value, cs)| > f
  {
    var seqNumbers, values := Candidates(cs);
    var timesLeft := seqNumbers;
    while timesLeft != {}
      invariant timesLeft <= seqNumbers
      invariant forall ts, value :: ts in seqNumbers - timesLeft && value in values ==> !Binds(f, ts, value, cs)
    {
      var ts :| ts in timesLeft;
      timesLeft := timesLeft - {ts};
      var valuesLeft := values;
      while valuesLeft != {}
        invariant valuesLeft <= values
        invariant forall value :: value in values - valuesLeft ==> !Binds(f, ts, value, cs)
      {
        var value :| value in valuesLeft;
        valuesLeft := valuesLeft - {value};
        if Binds(f, ts, value, cs) {
          if |Entries(0, value, cs)| <= f {
            ForgedValueNotBound(f, value, cs);
            assert false;
          }
          return Bound(value);
        }
      }
    }
    forall ts, value ensures !Binds(f, ts, value, cs) {
      if Binds(f, ts, value, cs) {
        BindingOccurs(f, ts, value, cs);
      }
    }
    return Unbound(AreUnbound(f, cs));
  }

  ghost predicate Occurs(cs: Collects, value: Digest) {
    exists k, j :: 0 <= k < |cs| && 0 <= j < |Written(cs[k])| && Written(cs[k])[j].digest == value
  }

  method Candidates(cs: Collects) returns (seqNumbers: set<nat>, values: set<Digest>)
    ensures forall k :: 0 <= k < |cs| ==>
              (if Prepared(cs[k]).Some? then Prepared(cs[k]).value.view else 0) in seqNumbers
    ensures forall value :: Occurs(cs, value) ==> value in values
  {
    seqNumbers, values := {}, {};
    for k := 0 to |cs|
      invariant forall i :: 0 <= i < k ==>
                  (if Prepared(cs[i]).Some? then Prepared(cs[i]).value.view else 0) in seqNumbers
      invariant forall i, j :: 0 <= i < k && 0 <= j < |Written(cs[i])| ==> Written(cs[i])[j].digest in values
    {
      if cs[k].None? {
        seqNumbers := seqNumbers + {0};
      } else {
        seqNumbers := seqNumbers + {if Prepared(cs[k]).Some? then Prepared(cs[k]).value.view else 0};
        var writes := Written(cs[k]);
        ghost var times, seen := seqNumbers, values;
        for j := 0 to |writes|
          invariant times <= seqNumbers && seen <= values
          invariant forall i :: 0 <= i < j ==> writes[i].digest in values
        {
          seqNumbers, values := seqNumbers + {writes[j].view}, values + {writes[j].digest};
        }
      }
    }
  }

  lemma {:induction false} WritesOccur(ts: nat, value: Digest, cs: Collects)
    requires CountWrites(ts, value, cs) > 0
    ensures Occurs(cs, value)
  {
    var rest, last := cs[..|cs| - 1], cs[|cs| - 1];
    if CountWritten(ts, value, Written(last)) > 0 {
      var j := WrittenOccurs(ts, value, Written(last));
      assert Written(cs[|cs| - 1])[j].digest == value;
    } else {
      WritesOccur(ts, value, rest);
      var k, j :| 0 <= k < |rest| && 0 <= j < |Written(rest[k])| && Written(rest[k])[j].digest == value;
      assert Written(cs[k])[j].digest == value;
    }
  }

  lemma {:induction false} WrittenOccurs(ts: nat, value: Digest, ws: seq<ViewDecision>) returns (j: nat)
    requires CountWritten(ts, value, ws) > 0
    ensures j < |ws| && ws[j].digest == value
  {
    var last := ws[|ws| - 1];
    if last.view >= ts && last.digest == value {
      j := |ws| - 1;
    } else {
      j := WrittenOccurs(ts, value, ws[..|ws| - 1]);
    }
  }

  /** Whatever binds is among the candidates. */
  lemma BindingOccurs(f: nat, ts: nat, value: Digest, cs: Collects)
    requires Binds(f, ts, value, cs)
    ensures Occurs(cs, value)
    ensures exists k :: 0 <= k < |cs| && Prepared(cs[k]).Some? && Prepared(cs[k]).value.view == ts
  {
    WritesOccur(ts, value, cs);
  }

  // The counts, as numbers of collects and of entries in them

  /** The collects that show a quorum of prepares for an earlier view, or for exactly this pair. */
  ghost function Below(ts: nat, value: Digest, cs: Collects): set<nat> {
    set k | 0 <= k < |cs| && cs[k].Some? && cs[k].value.quorumPrepares.Some?
            && var p := cs[k].value.quorumPrepares.value; p.view < ts || (p.view == ts && p.digest == value)
  }

  /** The collects that show no quorum of prepares after view zero. */
  ghost function Unprepared(cs: Collects): set<nat> {
    set k | 0 <= k < |cs| && (cs[k].None? || cs[k].value.quorumPrepares.None?
                              || cs[k].value.quorumPrepares.value.view == 0)
  }

  /** The entries of all write sets that name the value in the given view or a later one: which
      collect, and which place in it. */
  ghost function Entries(ts: nat, value: Digest, cs: Collects): set<(nat, nat)> {
    set k, j | 0 <= k < |cs| && 0 <= j < |Written(cs[k])|
               && Written(cs[k])[j].view >= ts && Written(cs[k])[j].digest == value :: (k, j)
  }

  lemma {:induction false} BelowCount(ts: nat, value: Digest, cs: Collects)
    ensures |Below(ts, value, cs)| == CountAtMost(ts, value, cs)
  {
    if cs != [] {
      var rest, n := cs[..|cs| - 1], |cs| - 1;
      BelowCount(ts, value, rest);
      assert Below(ts, value, cs) == Below(ts, value, rest) + if AtMost(ts, value, cs[n]) then {n} else {};
    }
  }

  lemma {:induction false} UnpreparedCount(cs: Collects)
    ensures |Unprepared(cs)| == CountAtViewZero(cs)
  {
    if cs != [] {
      var rest, n := cs[..|cs| - 1], |cs| - 1;
      UnpreparedCount(rest);
      assert Unprepared(cs) == Unprepared(rest) + if AtViewZero(cs[n]) then {n} else {};
    }
  }

  /** The entries of one write set, as part of collect `k`. */
  ghost function EntriesOf(ts: nat, value: Digest, ws: seq<ViewDecision>, k: nat): set<(nat, nat)> {
    set j | 0 <= j < |ws| && ws[j].view >= ts && ws[j].digest == value :: (k, j)
  }

  lemma {:induction false} EntriesOfCount(ts: nat, value: Digest, ws: seq<ViewDecision>, k: nat)
    ensures |EntriesOf(ts, value, ws, k)| == CountWritten(ts, value, ws)
  {
    if ws != [] {
      EntriesOfCount(ts, value, ws[..|ws| - 1], k);
      SplitEntriesOf(ts, value, ws, k);
      hide EntriesOf;
    }
  }

  lemma SplitEntriesOf(ts: nat, value: Digest, ws: seq<ViewDecision>, k: nat)
    requires ws != []
    ensures var rest, n := ws[..|ws| - 1], |ws| - 1;
            && EntriesOf(ts, value, ws, k) ==
               EntriesOf(ts, value, rest, k) + (if ws[n].view >= ts && ws[n].digest == value then {(k, n)} else {})
            && (k, n) !in EntriesOf(ts, value, rest, k)
  {
    var rest, n := ws[..|ws| - 1], |ws| - 1;
    assert forall j :: 0 <= j < n ==> rest[j] == ws[j];
  }

  lemma {:induction false} EntriesCount(ts: nat, value: Digest, cs: Collects)
    ensures |Entries(ts, value, cs)| == CountWrites(ts, value, cs)
  {
    if cs != [] {
      var rest, n := cs[..|cs| - 1], |cs| - 1;
      EntriesCount(ts, value, rest);
      EntriesOfCount(ts, value, Written(cs[n]), n);
      SplitEntries(ts, value, cs);
    }
  }

  lemma SplitEntries(ts: nat, value: Digest, cs: Collects)
    requires cs != []
    ensures var rest, n := cs[..|cs| - 1], |cs| - 1;
            && Entries(ts, value, cs) == Entries(ts, value, rest) + EntriesOf(ts, value, Written(cs[n]), n)
            && Entries(ts, value, rest) !! EntriesOf(ts, value, Written(cs[n]), n)
  {
    var rest, n := cs[..|cs| - 1], |cs| - 1;
    assert forall k :: 0 <= k < n ==> rest[k] == cs[k];
  }

  /** What it takes to bind: enough collects, one of them for the pair, a quorum of them not beyond
      it, and more than f entries of write sets that support it. */
  lemma BindsMeans(f: nat, ts: nat, value: Digest, cs: Collects)
    ensures Binds(f, ts, value, cs) <==>
              && |cs| >= 2 * f + 1
              && (exists k :: 0 <= k < |cs| && cs[k].Some?
                              && cs[k].value.quorumPrepares == Some(ViewDecision(ts, value)))
              && |Below(ts, value, cs)| >= 2 * f + 1
              && |Entries(ts, value, cs)| > f
  {
    BelowCount(ts, value, cs);
    EntriesCount(ts, value, cs);
    hide Below, Entries, CountAtMost, CountWrites;
    if k :| 0 <= k < |cs| && cs[k].Some? && cs[k].value.quorumPrepares == Some(ViewDecision(ts, value)) {
      assert Prepared(cs[k]) == Some(ViewDecision(ts, value));
    }
  }

  lemma UnboundMeans(f: nat, cs: Collects)
    ensures AreUnbound(f, cs) <==> |Unprepared(cs)| >= 2 * f + 1
  {
    UnpreparedCount(cs);
  }

  lemma MoreViewsMoreEntries(ts: nat, value: Digest, cs: Collects)
    ensures Entries(ts, value, cs) <= Entries(0, value, cs)
  {
  }

  /** A value that no more than f entries name is not bound, whatever else the collects show. */
  lemma ForgedValueNotBound(f: nat, value: Digest, cs: Collects)
    requires |Entries(0, value, cs)| <= f
    ensures !Justified(f, cs, Bound(value))
  {
    hide Entries, Binds;
    forall ts ensures !Binds(f, ts, value, cs) {
      BindsMeans(f, ts, value, cs);
      MoreViewsMoreEntries(ts, value, cs);
      Quorums.SubsetCount(Entries(ts, value, cs), Entries(0, value, cs));
    }
  }

  /** The collects that name a value, each at most once. */
  ghost predicate NamedBy(value: Digest, cs: Collects, who: set<nat>) {
    forall k, j :: 0 <= k < |cs| && 0 <= j < |Written(cs[k])| && Written(cs[k])[j].digest == value ==>
      k in who && forall i :: 0 <= i < |Written(cs[k])| && Written(cs[k])[i].digest == value ==> i == j
  }

  /** So no f senders can have a value of their own making bound, unless they repeat it. */
  lemma FewSendersDoNotBind(f: nat, value: Digest, cs: Collects, who: set<nat>, r: Verdict)
    requires NamedBy(value, cs, who) && |who| <= f && Justified(f, cs, r)
    ensures r != Bound(value)
  {
    OnePerSender(value, cs, who);
    hide Entries, NamedBy;
    ForgedValueNotBound(f, value, cs);
  }

  lemma {:induction false} OnePerSender(value: Digest, cs: Collects, who: set<nat>)
    requires NamedBy(value, cs, who)
    ensures |Entries(0, value, cs)| <= |who|
  {
    var es := Entries(0, value, cs);
    var ks := set e | e in es :: e.0;
    assert ks <= who;
    Quorums.SubsetCount(ks, who);
    FirstsCount(es);
  }

  /** Pairs that differ in their first parts are no more than those parts. */
  lemma {:induction false} FirstsCount(es: set<(nat, nat)>)
    requires forall d, e :: d in es && e in es && d.0 == e.0 ==> d == e
    ensures |set e | e in es :: e.0| == |es|
  {
    if es != {} {
      var e :| e in es;
      var rest := es - {e};
      FirstsCount(rest);
      assert (set d | d in es :: d.0) == (set d | d in rest :: d.0) + {e.0};
    }
  }

  // With exactly a quorum of collects the verdict is unique

  lemma {:induction false} CountAllAtMost(ts: nat, value: Digest, cs: Collects)
    ensures CountAtMost(ts, value, cs) == |cs| <==> forall k :: 0 <= k < |cs| ==> AtMost(ts, value, cs[k])
  {
    if cs != [] {
      var rest := cs[..|cs| - 1];
      CountAllAtMost(ts, value, rest);
      assert forall k :: 0 <= k < |rest| ==> rest[k] == cs[k];
    }
  }

  lemma {:induction false} CountAllAtViewZero(cs: Collects)
    ensures CountAtViewZero(cs) == |cs| <==> forall k :: 0 <= k < |cs| ==> AtViewZero(cs[k])
  {
    if cs != [] {
      var rest := cs[..|cs| - 1];
      CountAllAtViewZero(rest);
      assert forall k :: 0 <= k < |rest| ==> rest[k] == cs[k];
    }
  }

  /** A quorum of collects, no more and no fewer, binds a value exactly when all of them
      are prepared, none for a later view or for another value in the same view. */
  lemma BindsExactly(f: nat, ts: nat, value: Digest, cs: Collects)
    requires |cs| == QuorumOf(f)
    ensures Binds(f, ts, value, cs) <==>
              Appears(ts, value, cs) && |Entries(ts, value, cs)| > f
              && forall k :: 0 <= k < |cs| ==> AtMost(ts, value, cs[k])
  {
    CountAllAtMost(ts, value, cs);
    EntriesCount(ts, value, cs);
    hide Entries;
  }

  /** A quorum of collects is unbound exactly if none of them is prepared for a later view. */
  lemma UnboundExactly(f: nat, cs: Collects)
    requires |cs| == QuorumOf(f)
    ensures AreUnbound(f, cs) <==>
              forall k :: 0 <= k < |cs| ==> Prepared(cs[k]).None? || Prepared(cs[k]).value.view == 0
  {
    CountAllAtViewZero(cs);
  }

  lemma BindingUnique(f: nat, cs: Collects, ts: nat, value: Digest, ts': nat, value': Digest)
    requires |cs| == QuorumOf(f) && Binds(f, ts, value, cs) && Binds(f, ts', value', cs)
    ensures ts == ts' && value == value'
  {
    BindsExactly(f, ts, value, cs);
    BindsExactly(f, ts', value', cs);
    var k :| 0 <= k < |cs| && Prepared(cs[k]) == Some(ViewDecision(ts, value));
    var j :| 0 <= j < |cs| && Prepared(cs[j]) == Some(ViewDecision(ts', value'));
    assert AtMost(ts', value', cs[k]) && AtMost(ts, value, cs[j]);
  }

  lemma VerdictUnique(f: nat, cs: Collects, r: Verdict, r': Verdict)
    requires |cs| <= QuorumOf(f) && Justified(f, cs, r) && Justified(f, cs, r')
    ensures r == r'
  {
    if r.Bound? && r'.Bound? {
      var ts :| Binds(f, ts, r.value, cs);
      var ts' :| Binds(f, ts', r'.value, cs);
      BindingUnique(f, cs, ts, r.value, ts', r'.value);
    }
  }

  lemma BindingExcludesUnbound(f: nat, ts: nat, value: Digest, cs: Collects)
    requires |cs| <= QuorumOf(f) && Binds(f, ts, value, cs) && ts > 0
    ensures !AreUnbound(f, cs)
  {
    var k :| 0 <= k < |cs| && Prepared(cs[k]) == Some(ViewDecision(ts, value));
    assert !AtViewZero(cs[k]);
    CountAllAtViewZero(cs);
  }

  // With more collects than a quorum it is not

  function Copies(n: nat, d: ViewDecision): seq<ViewDecision> {
    if n == 0 then [] else Copies(n - 1, d) + [d]
  }

  function Report(f: nat, d: ViewDecision): Option<IncompleteProof> {
    Some(IncompleteProof(0, Copies(f + 1, d), Some(d)))
  }

  /** One collect prepared in view 1 and `n` prepared in view 0. */
  function OneAbove(f: nat, n: nat): (cs: Collects)
    ensures |cs| == n + 1 && cs[0] == Report(f, ViewDecision(1, Other(1)))
  {
    if n == 0 then [Report(f, ViewDecision(1, Other(1)))]
    else OneAbove(f, n - 1) + [Report(f, ViewDecision(0, Other(0)))]
  }

  function Contested(f: nat, n: nat): (cs: Collects)
    requires n >= 2
    ensures |cs| == n && cs[0] == Report(f, ViewDecision(1, Other(1)))
    ensures cs[n - 1] == Report(f, ViewDecision(2, Other(2)))
  {
    OneAbove(f, n - 2) + [Report(f, ViewDecision(2, Other(2)))]
  }

  lemma {:induction false} CopiesCount(n: nat, d: ViewDecision)
    ensures CountWritten(d.view, d.digest, Copies(n, d)) == n
  {
    if n > 0 {
      CopiesCount(n - 1, d);
      assert Copies(n, d)[..|Copies(n, d)| - 1] == Copies(n - 1, d);
    }
  }

  lemma AppendCounts(cs: Collects, c: Option<IncompleteProof>, ts: nat, value: Digest)
    ensures CountAtMost(ts, value, cs + [c]) == CountAtMost(ts, value, cs) + if AtMost(ts, value, c) then 1 else 0
    ensures CountWrites(ts, value, cs + [c]) == CountWrites(ts, value, cs) + CountWritten(ts, value, Written(c))
    ensures CountAtViewZero(cs + [c]) == CountAtViewZero(cs) + if AtViewZero(c) then 1 else 0
  {
    assert (cs + [c])[..|cs|] == cs;
  }

  lemma EmptyCounts(ts: nat, value: Digest)
    ensures CountAtMost(ts, value, []) == CountWrites(ts, value, []) == CountAtViewZero([]) == 0
  {
  }

  lemma {:induction false} OneAboveCounts(f: nat, n: nat)
    ensures CountAtMost(1, Other(1), OneAbove(f, n)) == n + 1
    ensures CountAtMost(2, Other(2), OneAbove(f, n)) == n + 1
    ensures CountWrites(1, Other(1), OneAbove(f, n)) > f
    ensures CountAtViewZero(OneAbove(f, n)) == n
  {
    hide CountAtMost, CountWrites, CountWritten, CountAtViewZero, Copies;
    CopiesCount(f + 1, ViewDecision(1, Other(1)));
    var rest := if n == 0 then [] else OneAbove(f, n - 1);
    var last := OneAbove(f, n)[n];
    assert OneAbove(f, n) == rest + [last];
    AppendCounts(rest, last, 1, Other(1));
    AppendCounts(rest, last, 2, Other(2));
    if n == 0 {
      EmptyCounts(1, Other(1));
      EmptyCounts(2, Other(2));
    } else {
      OneAboveCounts(f, n - 1);
    }
  }

  /** Two different verdicts are justified, so the order of the search decides. */
  lemma ContestedVerdicts(f: nat, n: nat)
    requires n > QuorumOf(f)
    ensures Justified(f, Contested(f, n), Bound(Other(1))) && Justified(f, Contested(f, n), Bound(Other(2)))
  {
    hide Copies, OneAbove, CountAtViewZero;
    var cs := Contested(f, n);
    OneAboveCounts(f, n - 2);
    CopiesCount(f + 1, ViewDecision(2, Other(2)));
    assert cs[..n - 1] == OneAbove(f, n - 2);
    assert Prepared(cs[0]) == Some(ViewDecision(1, Other(1)));
    assert Prepared(cs[n - 1]) == Some(ViewDecision(2, Other(2)));
    assert Binds(f, 1, Other(1), cs) && Binds(f, 2, Other(2), cs);
  }

  lemma BoundAndUnbound(f: nat, n: nat)
    requires n > QuorumOf(f)
    ensures |OneAbove(f, n - 1)| == n
    ensures Binds(f, 1, Other(1), OneAbove(f, n - 1)) && AreUnbound(f, OneAbove(f, n - 1))
  {
    hide Copies, OneAbove, CountAtMost, CountWrites, CountAtViewZero;
    var cs := OneAbove(f, n - 1);
    OneAboveCounts(f, n - 1);
    assert Prepared(cs[0]) == Some(ViewDecision(1, Other(1)));
  }

  ghost predicate OrderFree(f: nat, n: nat) {
    forall cs: Collects, r, r' :: |cs| == n && Justified(f, cs, r) && Justified(f, cs, r') ==> r == r'
  }

  ghost predicate BoundAboveZeroExcludesUnbound(f: nat, n: nat) {
    forall cs: Collects, ts, value :: |cs| == n && ts > 0 && Binds(f, ts, value, cs) ==> !AreUnbound(f, cs)
  }

  /** The verdict does not depend on the order of the search exactly when there are no more
      collects than a quorum; so too for a binding above view zero to exclude `unbound`. */
  lemma SearchOrderFreeExactly(f: nat, n: nat)
    ensures OrderFree(f, n) <==> n <= QuorumOf(f)
    ensures BoundAboveZeroExcludesUnbound(f, n) <==> n <= QuorumOf(f)
  {
    hide Justified, Binds, AreUnbound, OneAbove, Contested;
    if n <= QuorumOf(f) {
      forall cs: Collects, r, r' | |cs| == n && Justified(f, cs, r) && Justified(f, cs, r') ensures r == r' {
        VerdictUnique(f, cs, r, r');
      }
      forall cs: Collects, ts, value | |cs| == n && ts > 0 && Binds(f, ts, value, cs) ensures !AreUnbound(f, cs) {
        BindingExcludesUnbound(f, ts, value, cs);
      }
    } else {
      ContestedVerdicts(f, n);
      BoundAndUnbound(f, n);
      assert |Contested(f, n)| == n;
    }
  }

  // What correct replicas put into their collects

  lemma {:induction false} WriteSetOfVotes(log: seq<Message>, i: Instance)
    requires forall k :: 0 <= k < |log| ==> log[k].view == i.view.seqNo && log[k].kind == Prepare(DigestOf(i))
    ensures |WriteSet(log)| == |log|
    ensures forall k :: 0 <= k < |log| ==> WriteSet(log)[k] == ViewDecision(i.view.seqNo, DigestOf(i))
  {
    hide DigestOf;
    if log != [] {
      WriteSetOfVotes(log[..|log| - 1], i);
    }
  }

  lemma {:induction false} CountUniform(d: ViewDecision, ws: seq<ViewDecision>)
    requires forall k :: 0 <= k < |ws| ==> ws[k] == d
    ensures CountWritten(d.view, d.digest, ws) == |ws|
  {
    if ws != [] {
      CountUniform(d, ws[..|ws| - 1]);
    }
  }

  lemma {:induction false} WritesAtLeast(ts: nat, value: Digest, cs: Collects, k: nat)
    requires k < |cs|
    ensures CountWrites(ts, value, cs) >= CountWritten(ts, value, Written(cs[k]))
  {
    if k < |cs| - 1 {
      WritesAtLeast(ts, value, cs[..|cs| - 1], k);
    }
  }

  /** The write set lists one entry for each prepare, so one collect of a correct replica that
      shows a quorum of prepares certifies their value by itself. */
  lemma PreparedCollectCertifies(i: Instance, f: nat, cs: Collects, k: nat)
    requires Coupled(i) && k < |cs| && cs[k] == Some(Collect(i, f)) && Prepared(cs[k]).Some?
    ensures Prepared(cs[k]).value == ViewDecision(i.view.seqNo, DigestOf(i))
    ensures |Entries(i.view.seqNo, DigestOf(i), cs)| > f
  {
    hide DigestOf, ProposalsFor;
    EntriesCount(i.view.seqNo, DigestOf(i), cs);
    WriteSetOfVotes(i.prepares, i);
    CountUniform(ViewDecision(i.view.seqNo, DigestOf(i)), WriteSet(i.prepares));
    WritesAtLeast(i.view.seqNo, DigestOf(i), cs, k);
  }

  /** If a correct replica's collect is prepared and, of a quorum of collects, every other is
      prepared too, for an earlier view or for the same value, then the search returns that value. */
  lemma HighestPreparedIsBound(i: Instance, f: nat, cs: Collects, k: nat, r: Verdict)
    requires Coupled(i) && |cs| == QuorumOf(f) && k < |cs|
    requires cs[k] == Some(Collect(i, f)) && Prepared(cs[k]).Some?
    requires forall j :: 0 <= j < |cs| ==> AtMost(i.view.seqNo, DigestOf(i), cs[j])
    requires Justified(f, cs, r)
    ensures r == Bound(DigestOf(i))
  {
    hide DigestOf, Coupled;
    PreparedCollectCertifies(i, f, cs, k);
    BindsExactly(f, i.view.seqNo, DigestOf(i), cs);
    assert Justified(f, cs, Bound(DigestOf(i)));
    VerdictUnique(f, cs, r, Bound(DigestOf(i)));
  }

  /** An instance that has committed or decided is reported with a quorum of prepares. */
  lemma CommittedIsPrepared(i: Instance, f: nat)
    requires Coupled(i) && i.stage.Rank() >= Committing.Rank() && i.view.F() == f >= 1
    ensures Prepared(Some(Collect(i, f))) == Some(ViewDecision(i.view.seqNo, DigestOf(i)))
  {
    hide DigestOf, ProposalsFor, VotesFor;
  }

  /** A decided value may go unbound: among a quorum of collects, one without a quorum of
      prepares is enough to keep every value from being bound, whatever the others report. Above
      view zero the report of the decided instance keeps the collects from counting as unbound. */
  lemma DecidedValueMayGoUnbound(i: Instance, f: nat, cs: Collects, k: nat, u: nat, r: Verdict)
    requires Coupled(i) && i.stage.Rank() >= Committing.Rank() && i.view.F() == f >= 1
    requires |cs| == QuorumOf(f) && k < |cs| && cs[k] == Some(Collect(i, f))
    requires u < |cs| && Prepared(cs[u]).None? && Justified(f, cs, r)
    ensures r.Unbound? && (i.view.seqNo >= 1 ==> !r.holds)
  {
    hide DigestOf, Coupled, Collect;
    CommittedIsPrepared(i, f);
    forall ts, value ensures !Binds(f, ts, value, cs) {
      BindsExactly(f, ts, value, cs);
      assert !AtMost(ts, value, cs[u]);
    }
    CountAllAtViewZero(cs);
    assert i.view.seqNo >= 1 ==> !AtViewZero(cs[k]);
  }

  /** When a decided value is bound: given that no collect of the quorum claims a later view, or
      another value in this one, exactly if every collect shows a quorum of prepares. */
  lemma DecidedValueBoundExactly(i: Instance, f: nat, cs: Collects, k: nat, r: Verdict)
    requires Coupled(i) && i.stage.Rank() >= Committing.Rank() && i.view.F() == f >= 1
    requires |cs| == QuorumOf(f) && k < |cs| && cs[k] == Some(Collect(i, f)) && Justified(f, cs, r)
    requires forall j :: 0 <= j < |cs| && Prepared(cs[j]).Some? ==> AtMost(i.view.seqNo, DigestOf(i), cs[j])
    ensures r == Bound(DigestOf(i)) <==> forall j :: 0 <= j < |cs| ==> Prepared(cs[j]).Some?
  {
    hide DigestOf, Coupled, Collect, Justified;
    CommittedIsPrepared(i, f);
    if u :| 0 <= u < |cs| && Prepared(cs[u]).None? {
      DecidedValueMayGoUnbound(i, f, cs, k, u, r);
    } else {
      HighestPreparedIsBound(i, f, cs, k, r);
    }
  }
}
