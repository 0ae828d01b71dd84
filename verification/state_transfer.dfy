/**
 State transfer: tallying the replies of other replicas until enough of them agree.
 */
module StateTransfers {
  import opened Messages

  datatype StateCid = StateCid(cid: nat, digest: Digest)

  datatype Checkpoint = Checkpoint(seqNo: nat, digest: Digest, state: nat)

  datatype ReceivedStateCid = ReceivedStateCid(cid: nat, count: nat)

  datatype ReceivedState = ReceivedState(count: nat, state: Checkpoint)

  datatype CstPhase = Idle | ReceivingCid(received: nat) | ReceivingState(received: nat)

  datatype CstStatus =
    | Nil
    | Running
    | SeqNo(n: nat)
    | RequestState
    | State(state: Checkpoint)

  // Tallies of sequence numbers

  type CidReplies = seq<Option<StateCid>>

  ghost predicate Heard(h: CidReplies, d: Digest) {
    exists k :: 0 <= k < |h| && h[k].Some? && h[k].value.digest == d
  }

  /** `c` is the largest sequence number reported together with the digest `d`. */
  ghost predicate IsLargest(h: CidReplies, d: Digest, c: nat) {
    && Some(StateCid(c, d)) in h
    && (forall k :: 0 <= k < |h| && h[k].Some? && h[k].value.digest == d ==> h[k].value.cid <= c)
  }

  /** Each entry holds the largest number reported with its digest, and how many replies
      reported exactly that pair. */
  ghost predicate Tallied(ids: map<Digest, ReceivedStateCid>, h: CidReplies) {
    && (forall d :: d in ids <==> Heard(h, d))
    && (forall d :: d in ids ==>
          IsLargest(h, d, ids[d].cid) && ids[d].count == multiset(h)[Some(StateCid(ids[d].cid, d))])
  }

  function Tally(ids: map<Digest, ReceivedStateCid>, x: StateCid): map<Digest, ReceivedStateCid> {
    if x.digest !in ids || x.cid > ids[x.digest].cid then ids[x.digest := ReceivedStateCid(x.cid, 1)]
    else if x.cid == ids[x.digest].cid then ids[x.digest := ReceivedStateCid(x.cid, ids[x.digest].count + 1)]
    else ids
  }

  lemma HeardNext(h: CidReplies, r: Option<StateCid>, d: Digest)
    ensures Heard(h + [r], d) <==> Heard(h, d) || (r.Some? && r.value.digest == d)
  {
    if Heard(h, d) {
      var k :| 0 <= k < |h| && h[k].Some? && h[k].value.digest == d;
      assert (h + [r])[k] == h[k];
    }
    if r.Some? && r.value.digest == d {
      assert (h + [r])[|h|] == r;
    }
  }

  lemma BlankTallied(ids: map<Digest, ReceivedStateCid>, h: CidReplies)
    requires Tallied(ids, h)
    ensures Tallied(ids, h + [None])
  {
    forall d ensures Heard(h + [None], d) <==> Heard(h, d) {
      HeardNext(h, None, d);
    }
  }

  lemma NotHeard(h: CidReplies, x: StateCid)
    requires Some(x) !in h
    ensures multiset(h)[Some(x)] == 0
  {
    assert Some(x) !in multiset(h);
  }

  lemma TallyKeeps(ids: map<Digest, ReceivedStateCid>, h: CidReplies, x: StateCid)
    requires Tallied(ids, h)
    ensures Tallied(Tally(ids, x), h + [Some(x)])
  {
    var t, g := Tally(ids, x), h + [Some(x)];
    forall d ensures d in t <==> Heard(g, d) {
      HeardNext(h, Some(x), d);
    }
    assert multiset(g) == multiset(h) + multiset{Some(x)};
    hide Heard;
    forall d | d in t ensures IsLargest(g, d, t[d].cid) && t[d].count == multiset(g)[Some(StateCid(t[d].cid, d))] {
      if d == x.digest && t[d].cid == x.cid {
        assert g[|h|] == Some(x);
        if d !in ids || x.cid > ids[d].cid {
          assert Some(x) !in h by { NewPair(ids, h, x); }
          NotHeard(h, x);
        }
      }
      LargestNext(ids, h, x, d);
    }
  }

  lemma NewPair(ids: map<Digest, ReceivedStateCid>, h: CidReplies, x: StateCid)
    requires Tallied(ids, h) && (x.digest !in ids || x.cid > ids[x.digest].cid)
    ensures Some(x) !in h
  {
  }

  lemma LargestNext(ids: map<Digest, ReceivedStateCid>, h: CidReplies, x: StateCid, d: Digest)
    requires Tallied(ids, h) && d in Tally(ids, x)
    ensures IsLargest(h + [Some(x)], d, Tally(ids, x)[d].cid)
  {
    var g, c := h + [Some(x)], Tally(ids, x)[d].cid;
    if d == x.digest && c == x.cid {
      assert g[|h|] == Some(x);
    }
    forall k | 0 <= k < |g| && g[k].Some? && g[k].value.digest == d ensures g[k].value.cid <= c {
      if k < |h| {
        assert g[k] == h[k];
        assert Heard(h, d);
      }
    }
  }

  // When a sequence number is announced

  ghost predicate AllBlank(h: CidReplies) {
    forall k :: 0 <= k < |h| ==> h[k].None?
  }

  /** The number to announce on the last of the replies `h`, if any. */
  ghost predicate Announces(h: CidReplies, quorum: nat, n: nat)
    requires h != []
  {
    var r := h[|h| - 1];
    if AllBlank(h) then |h| >= quorum && n == 0
    else r.Some? && r.value.cid == n && IsLargest(h, r.value.digest, n) && multiset(h)[r] >= quorum
  }

  /** No entry has a quorum yet, nor has a quorum of replies been blank throughout. */
  ghost predicate Undecided(ids: map<Digest, ReceivedStateCid>, h: CidReplies, quorum: nat) {
    && (forall d :: d in ids ==> ids[d].count < quorum)
    && (|h| >= quorum ==> ids != map[])
  }

  /** What the table says after so many replies. */
  ghost predicate Decides(t: map<Digest, ReceivedStateCid>, size: nat, quorum: nat, n: nat) {
    if t == map[] then size >= quorum && n == 0
    else exists d :: d in t && t[d].count >= quorum && t[d].cid == n
  }

  /** No two entries could decide on different numbers, and none before enough replies are in. */
  ghost predicate OneNumber(t: map<Digest, ReceivedStateCid>, size: nat, quorum: nat) {
    && (size < quorum ==> forall d :: d in t ==> t[d].count < quorum)
    && (forall d, e :: d in t && e in t && t[d].count >= quorum && t[e].count >= quorum ==> t[d].cid == t[e].cid)
  }

  lemma EmptyIsBlank(ids: map<Digest, ReceivedStateCid>, h: CidReplies)
    requires Tallied(ids, h)
    ensures ids == map[] <==> AllBlank(h)
  {
    if AllBlank(h) {
      assert forall d :: d !in ids;
    } else {
      var k :| 0 <= k < |h| && h[k].Some?;
      assert Heard(h, h[k].value.digest);
    }
  }

  lemma {:induction false} CountBound<T>(s: seq<T>, x: T)
    ensures multiset(s)[x] <= |s|
  {
    if s != [] {
      CountBound(s[..|s| - 1], x);
      assert s == s[..|s| - 1] + [s[|s| - 1]];
    }
  }

  /** If the entries were undecided before the last reply, an entry with a quorum is that of
      the last reply: no other can be in front, whatever the order of the table. */
  lemma OnlyLastDecides(ids: map<Digest, ReceivedStateCid>, h: CidReplies, x: StateCid, quorum: nat, d: Digest)
    requires Tallied(ids, h) && Undecided(ids, h, quorum) && d in Tally(ids, x)
    ensures Tally(ids, x)[d].count >= quorum ==> d == x.digest && Tally(ids, x)[d].cid == x.cid
  {
  }

  lemma AnnouncesExactly(ids: map<Digest, ReceivedStateCid>, h: CidReplies, r: Option<StateCid>, quorum: nat, n: nat)
    requires Tallied(ids, h) && Undecided(ids, h, quorum) && quorum >= 1
    ensures var t := if r.Some? then Tally(ids, r.value) else ids;
            Announces(h + [r], quorum, n) <==> Decides(t, |h| + 1, quorum, n)
  {
    var t, g := if r.Some? then Tally(ids, r.value) else ids, h + [r];
    if r.Some? {
      TallyKeeps(ids, h, r.value);
    } else {
      BlankTallied(ids, h);
    }
    EmptyIsBlank(t, g);
    assert g[|g| - 1] == r;
    if t != map[] && r.Some? {
      var x := r.value;
      forall d | d in t && t[d].count >= quorum ensures d == x.digest && t[d].cid == x.cid {
        OnlyLastDecides(ids, h, x, quorum, d);
      }
      LargestUnique(t, g, x);
    }
  }

  lemma LargestUnique(t: map<Digest, ReceivedStateCid>, g: CidReplies, x: StateCid)
    requires Tallied(t, g) && x.digest in t
    ensures IsLargest(g, x.digest, x.cid) <==> t[x.digest].cid == x.cid
  {
    var c := t[x.digest].cid;
    if IsLargest(g, x.digest, x.cid) {
      var j :| 0 <= j < |g| && g[j] == Some(StateCid(c, x.digest));
      var k :| 0 <= k < |g| && g[k] == Some(StateCid(x.cid, x.digest));
    }
  }

  // Tallies of states

  function WithDigest(h: seq<Checkpoint>, d: Digest): (n: nat)
    ensures n <= |h|
  {
    if h == [] then 0 else WithDigest(h[..|h| - 1], d) + if h[|h| - 1].digest == d then 1 else 0
  }

  /** The first of the newest states with a digest. */
  function Newest(h: seq<Checkpoint>, d: Digest): (r: Option<Checkpoint>)
    ensures r.Some? ==> r.value in h && r.value.digest == d
    ensures r.Some? <==> WithDigest(h, d) > 0
  {
    if h == [] then None
    else
      var before, last := Newest(h[..|h| - 1], d), h[|h| - 1];
      if last.digest == d && (before.None? || last.seqNo > before.value.seqNo) then Some(last) else before
  }

  lemma {:induction false} NewestIsNewest(h: seq<Checkpoint>, d: Digest)
    ensures WithDigest(h, d) == 0 ==> forall x :: x in h ==> x.digest != d
    ensures Newest(h, d).Some? ==> forall x :: x in h && x.digest == d ==> x.seqNo <= Newest(h, d).value.seqNo
  {
    if h != [] {
      NewestIsNewest(h[..|h| - 1], d);
      assert h == h[..|h| - 1] + [h[|h| - 1]];
    }
  }

  ghost predicate Agree(h: seq<Checkpoint>) {
    forall j, k :: 0 <= j < |h| && 0 <= k < |h| ==> h[j].digest == h[k].digest
  }

  lemma {:induction false} AllWithDigest(h: seq<Checkpoint>, d: Digest)
    ensures WithDigest(h, d) == |h| <==> forall k :: 0 <= k < |h| ==> h[k].digest == d
  {
    if h != [] {
      var rest := h[..|h| - 1];
      AllWithDigest(rest, d);
      assert forall k :: 0 <= k < |rest| ==> rest[k] == h[k];
    }
  }

  ghost predicate StatesTallied(states: map<Digest, ReceivedState>, h: seq<Checkpoint>) {
    && (forall d :: d in states <==> WithDigest(h, d) > 0)
    && (forall d :: d in states ==> states[d].count == WithDigest(h, d) && Some(states[d].state) == Newest(h, d))
  }

  function TallyState(states: map<Digest, ReceivedState>, x: Checkpoint): map<Digest, ReceivedState> {
    if x.digest !in states then states[x.digest := ReceivedState(1, x)]
    else
      var entry := states[x.digest];
      states[x.digest := ReceivedState(entry.count + 1, if x.seqNo > entry.state.seqNo then x else entry.state)]
  }

  lemma TallyStateKeeps(states: map<Digest, ReceivedState>, h: seq<Checkpoint>, x: Checkpoint)
    requires StatesTallied(states, h)
    ensures StatesTallied(TallyState(states, x), h + [x])
  {
    assert (h + [x])[..|h|] == h;
  }

  /** Among f + 1 replies some digest has more than f exactly if all of them have it. */
  lemma MoreThanFExactly(states: map<Digest, ReceivedState>, h: seq<Checkpoint>, f: nat, top: Digest)
    requires StatesTallied(states, h) && |h| == f + 1
    requires top in states && forall d :: d in states ==> states[d].count <= states[top].count
    ensures states[top].count > f <==> Agree(h)
    ensures Agree(h) ==> h[0].digest == top
  {
    AllWithDigest(h, top);
    AllWithDigest(h, h[0].digest);
  }

  // The protocol

  class CollabStateTransfer {
    const quorum: nat
    const f: nat
    var currSeq: nat
    var phase: CstPhase
    var receivedStateIds: map<Digest, ReceivedStateCid>
    var receivedStates: map<Digest, ReceivedState>
    /** The replies counted in the current round. */
    ghost var cidReplies: CidReplies
    ghost var stateReplies: seq<Checkpoint>

    ghost predicate Valid()
      reads this
    {
      && quorum >= 1
      && (phase.ReceivingCid? ==>
            && phase.received == |cidReplies|
            && Tallied(receivedStateIds, cidReplies) && Undecided(receivedStateIds, cidReplies, quorum))
      && (phase.ReceivingState? ==>
            && phase.received == |stateReplies| <= f
            && StatesTallied(receivedStates, stateReplies))
    }

    constructor (quorum: nat, f: nat)
      requires quorum >= 1
      ensures Valid() && phase == Idle
    {
      this.quorum, this.f, currSeq, phase := quorum, f, 0, Idle;
      receivedStateIds, receivedStates := map[], map[];
      cidReplies, stateReplies := [], [];
    }

    method RequestLatestConsensusSeqNo()
      requires quorum >= 1
      modifies this
      ensures Valid() && phase == ReceivingCid(0) && cidReplies == [] && currSeq == old(currSeq) + 1
    {
      receivedStateIds, cidReplies := map[], [];
      currSeq := currSeq + 1;
      phase := ReceivingCid(0);
    }

    method RequestLatestState()
      requires quorum >= 1
      modifies this
      ensures Valid() && phase == ReceivingState(0) && stateReplies == [] && currSeq == old(currSeq) + 1
    {
      receivedStates, stateReplies := map[], [];
      currSeq := currSeq + 1;
      phase := ReceivingState(0);
    }

    /** An entry with the largest count. The source sorts a hash table, so among equals any. */
    method TopCid() returns (top: Digest)
      requires receivedStateIds != map[]
      ensures top in receivedStateIds
      ensures forall d :: d in receivedStateIds ==> receivedStateIds[d].count <= receivedStateIds[top].count
    {
      var left := receivedStateIds.Keys;
      top :| top in left;
      while left != {}
        invariant left <= receivedStateIds.Keys && top in receivedStateIds
        invariant forall d :: d in receivedStateIds && d !in left ==>
                    receivedStateIds[d].count <= receivedStateIds[top].count
      {
        var d :| d in left;
        left := left - {d};
        if receivedStateIds[d].count > receivedStateIds[top].count {
          top := d;
        }
      }
    }

    /** A reply with a sequence number, or a blank one. A number is announced exactly when the
        pair of this very reply, being the largest for its digest, reaches a quorum of replies;
        or zero, when a quorum of replies is in and all are blank. */
    method ProcessCidReply(seqNo: nat, reply: Option<StateCid>) returns (status: CstStatus)
      requires Valid() && phase.ReceivingCid?
      modifies this
      ensures Valid() && currSeq == old(currSeq)
      ensures seqNo != old(currSeq) ==> status == Running && phase == old(phase) && cidReplies == old(cidReplies)
      ensures seqNo == old(currSeq) ==>
                && cidReplies == old(cidReplies) + [reply]
                && (forall n: nat :: status == SeqNo(n) <==> Announces(cidReplies, quorum, n))
                && (if status.SeqNo? then phase == Idle else status == Running && phase == ReceivingCid(|cidReplies|))
    {
      if seqNo != currSeq {
        return Running;
      }
      status := CountCidReply(reply);
    }

    method CountCidReply(reply: Option<StateCid>) returns (status: CstStatus)
      requires Valid() && phase.ReceivingCid?
      modifies this
      ensures Valid() && currSeq == old(currSeq) && cidReplies == old(cidReplies) + [reply]
      ensures forall n: nat :: status == SeqNo(n) <==> Announces(cidReplies, quorum, n)
      ensures if status.SeqNo? then phase == Idle else status == Running && phase == ReceivingCid(|cidReplies|)
    {
      hide Tally, Announces, Decides, OneNumber, Undecided, Tallied, StatesTallied;
      ReplyCounted(receivedStateIds, cidReplies, reply, quorum);
      var i := phase.received + 1;
      CountReply(reply);
      phase := Idle;
      var decided := Conclude(i);
      if decided.Some? {
        return SeqNo(decided.value);
      }
      NothingDecided(receivedStateIds, cidReplies, quorum);
      phase := ReceivingCid(i);
      return Running;
    }

    /** Look for a quorum once enough replies are in. */
    method Conclude(received: nat) returns (r: Option<nat>)
      requires OneNumber(receivedStateIds, received, quorum)
      ensures forall n: nat :: r == Some(n) <==> Decides(receivedStateIds, received, quorum, n)
    {
      if received >= quorum {
        if receivedStateIds == map[] {
          return Some(0);
        }
        var top := TopCid();
        if receivedStateIds[top].count >= quorum {
          return Some(receivedStateIds[top].cid);
        }
      }
      return None;
    }

    method CountReply(reply: Option<StateCid>)
      requires Tallied(receivedStateIds, cidReplies)
      modifies `receivedStateIds, `cidReplies
      ensures cidReplies == old(cidReplies) + [reply] && Tallied(receivedStateIds, cidReplies)
      ensures receivedStateIds ==
              if reply.Some? then Tally(old(receivedStateIds), reply.value) else old(receivedStateIds)
    {
      match reply {
        case Some(x) =>
          TallyKeeps(receivedStateIds, cidReplies, x);
          hide Tallied;
          var entry := if x.digest in receivedStateIds then receivedStateIds[x.digest] else ReceivedStateCid(x.cid, 0);
          if x.cid > entry.cid {
            entry := ReceivedStateCid(x.cid, 1);
          } else if x.cid == entry.cid {
            entry := ReceivedStateCid(entry.cid, entry.count + 1);
          }
          assert Tally(receivedStateIds, x) == receivedStateIds[x.digest := entry];
          receivedStateIds := receivedStateIds[x.digest := entry];
        case None => BlankTallied(receivedStateIds, cidReplies);
      }
      cidReplies := cidReplies + [reply];
    }

    method TopState() returns (top: Digest)
      requires receivedStates != map[]
      ensures top in receivedStates
      ensures forall d :: d in receivedStates ==> receivedStates[d].count <= receivedStates[top].count
    {
      var left := receivedStates.Keys;
      top :| top in left;
      while left != {}
        invariant left <= receivedStates.Keys && top in receivedStates
        invariant forall d :: d in receivedStates && d !in left ==> receivedStates[d].count <= receivedStates[top].count
      {
        var d :| d in left;
        left := left - {d};
        if receivedStates[d].count > receivedStates[top].count {
          top := d;
        }
      }
    }

    /** A reply with a state. Once f + 1 are in, the newest is handed over exactly if all of
        them have one digest; else, the round having failed, a new one is started. */
    method ProcessStateReply(seqNo: nat, reply: Checkpoint) returns (status: CstStatus)
      requires Valid() && phase.ReceivingState?
      modifies this
      ensures Valid()
      ensures seqNo != old(currSeq) ==> status == Running && phase == old(phase) && stateReplies == old(stateReplies)
      ensures seqNo == old(currSeq) ==>
                var h := old(stateReplies) + [reply];
                if |h| <= f then status == Running && phase == ReceivingState(|h|) && stateReplies == h
                else if Agree(h) then
                  && status.State? && phase == Idle && status.state in h
                  && Newest(h, reply.digest) == Some(status.state)
                  && (forall x :: x in h ==> x.seqNo <= status.state.seqNo)
                else status == RequestState && phase == ReceivingState(0) && currSeq == old(currSeq) + 1
    {
      if seqNo != currSeq {
        return Running;
      }
      TallyStateKeeps(receivedStates, stateReplies, reply);
      receivedStates := TallyState(receivedStates, reply);
      stateReplies := stateReplies + [reply];
      var i := phase.received + 1;
      if i <= f {
        phase := ReceivingState(i);
        return Running;
      }
      assert reply.digest in receivedStates;
      var top := TopState();
      MoreThanFExactly(receivedStates, stateReplies, f, top);
      var found := receivedStates[top];
      if found.count > f {
        assert stateReplies[|stateReplies| - 1].digest == top;
        NewestIsNewest(stateReplies, top);
        phase, receivedStates := Idle, map[];
        return State(found.state);
      }
      RequestLatestState();
      return RequestState;
    }
  }

  lemma NothingDecided(ids: map<Digest, ReceivedStateCid>, h: CidReplies, quorum: nat)
    requires forall n: nat :: !Decides(ids, |h|, quorum, n)
    ensures Undecided(ids, h, quorum)
  {
    if ids == map[] {
      assert !Decides(ids, |h|, quorum, 0);
    } else {
      forall d | d in ids ensures ids[d].count < quorum {
        assert !Decides(ids, |h|, quorum, ids[d].cid);
      }
    }
  }

  lemma ReplyCounted(ids: map<Digest, ReceivedStateCid>, h: CidReplies, r: Option<StateCid>, quorum: nat)
    requires Tallied(ids, h) && Undecided(ids, h, quorum) && quorum >= 1
    ensures var t := if r.Some? then Tally(ids, r.value) else ids;
            && OneNumber(t, |h| + 1, quorum)
            && (forall n: nat :: Announces(h + [r], quorum, n) <==> Decides(t, |h| + 1, quorum, n))
  {
    var t, g := if r.Some? then Tally(ids, r.value) else ids, h + [r];
    if r.Some? {
      TallyKeeps(ids, h, r.value);
      forall d | d in t {
        OnlyLastDecides(ids, h, r.value, quorum, d);
      }
    } else {
      BlankTallied(ids, h);
    }
    forall d | d in t ensures t[d].count <= |g| {
      CountBound(g, Some(StateCid(t[d].cid, d)));
    }
    hide Tally, Announces, Decides, Tallied;
    forall n: nat ensures Announces(g, quorum, n) <==> Decides(t, |h| + 1, quorum, n) {
      AnnouncesExactly(ids, h, r, quorum, n);
    }
  }
}
