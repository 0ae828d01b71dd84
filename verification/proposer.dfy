/**
 What the proposer does to requests before it proposes them: leaving out those that a view
 change already proposed, and cutting what has accumulated down to one batch.
 */
module Proposers {
  import opened Messages

  datatype Pair = Pair(client: Node, session: nat)

  function PairOf(r: Request): Pair {
    Pair(r.client, r.session)
  }

  function PairIn(info: RequestInfo): Pair {
    Pair(info.sender, info.session)
  }

  /** The largest sequence number that the SYNC proposed, by client and session. */
  type Seen = map<Pair, nat>

  function Raise(seen: Seen, info: RequestInfo): Seen {
    var p := PairIn(info);
    if p in seen && seen[p] >= info.seqNo then seen else seen[p := info.seqNo]
  }

  function Largest(infos: seq<RequestInfo>): Seen {
    if infos == [] then map[] else Raise(Largest(infos[..|infos| - 1]), infos[|infos| - 1])
  }

  /** A request is covered by what the SYNC proposed if some request of its session in it has
      the same or a larger number. */
  ghost predicate Covered(infos: seq<RequestInfo>, p: Pair, n: nat) {
    exists k :: 0 <= k < |infos| && PairIn(infos[k]) == p && n <= infos[k].seqNo
  }

  lemma CoveredNext(infos: seq<RequestInfo>, p: Pair, n: nat)
    requires infos != []
    ensures var last := infos[|infos| - 1];
            Covered(infos, p, n) <==> Covered(infos[..|infos| - 1], p, n) || (PairIn(last) == p && n <= last.seqNo)
  {
    var rest := infos[..|infos| - 1];
    assert forall k :: 0 <= k < |rest| ==> rest[k] == infos[k];
    if Covered(rest, p, n) {
      var k :| 0 <= k < |rest| && PairIn(rest[k]) == p && n <= rest[k].seqNo;
      assert PairIn(infos[k]) == p;
    }
  }

  lemma {:induction false} LargestCovers(infos: seq<RequestInfo>, p: Pair, n: nat)
    ensures p in Largest(infos) && n <= Largest(infos)[p] <==> Covered(infos, p, n)
  {
    if infos != [] {
      LargestCovers(infos[..|infos| - 1], p, n);
      CoveredNext(infos, p, n);
    }
  }

  // The filter as a function

  predicate Drops(seen: Seen, r: Request) {
    PairOf(r) in seen && r.seqNo <= seen[PairOf(r)]
  }

  /** A request beyond the SYNC removes its entry from the filter. */
  function Pass(seen: Seen, r: Request): Seen {
    if PairOf(r) in seen && r.seqNo > seen[PairOf(r)] then seen - {PairOf(r)} else seen
  }

  function After(seen: Seen, rs: seq<Request>): Seen {
    if rs == [] then seen else Pass(After(seen, rs[..|rs| - 1]), rs[|rs| - 1])
  }

  function Kept(seen: Seen, rs: seq<Request>): seq<Request> {
    if rs == [] then []
    else
      var rest, last := rs[..|rs| - 1], rs[|rs| - 1];
      Kept(seen, rest) + if Drops(After(seen, rest), last) then [] else [last]
  }

  ghost predicate Passed(seen: Seen, rs: seq<Request>, p: Pair) {
    p in seen && exists k :: 0 <= k < |rs| && PairOf(rs[k]) == p && rs[k].seqNo > seen[p]
  }

  lemma PassedNext(seen: Seen, rs: seq<Request>, p: Pair)
    requires rs != []
    ensures var last := rs[|rs| - 1];
            Passed(seen, rs, p) <==>
              Passed(seen, rs[..|rs| - 1], p) || (p in seen && PairOf(last) == p && last.seqNo > seen[p])
  {
    var rest := rs[..|rs| - 1];
    assert forall k :: 0 <= k < |rest| ==> rest[k] == rs[k];
    if Passed(seen, rest, p) {
      var k :| 0 <= k < |rest| && PairOf(rest[k]) == p && rest[k].seqNo > seen[p];
      assert PairOf(rs[k]) == p;
    }
  }

  lemma {:induction false} AfterIs(seen: Seen, rs: seq<Request>, p: Pair)
    ensures p in After(seen, rs) <==> p in seen && !Passed(seen, rs, p)
    ensures p in After(seen, rs) ==> After(seen, rs)[p] == seen[p]
  {
    if rs != [] {
      AfterIs(seen, rs[..|rs| - 1], p);
      PassedNext(seen, rs, p);
      hide Passed;
    }
  }

  /** The filter is used up exactly when every pair of the SYNC was passed. */
  lemma EmptyExactly(seen: Seen, rs: seq<Request>)
    ensures After(seen, rs) == map[] <==> forall p: Pair :: p in seen ==> Passed(seen, rs, p)
  {
    hide Passed;
    forall p: Pair ensures p in After(seen, rs) <==> p in seen && !Passed(seen, rs, p) {
      AfterIs(seen, rs, p);
    }
    if forall p: Pair :: p in seen ==> Passed(seen, rs, p) {
      assert forall p: Pair :: p !in After(seen, rs);
    }
  }

  /** Some request at or below the SYNC comes after one beyond it, of the same client and session. */
  ghost predicate FallsBack(seen: Seen, rs: seq<Request>) {
    exists j, k :: 0 <= j < k < |rs| && PairOf(rs[j]) == PairOf(rs[k]) && PairOf(rs[k]) in seen
                   && rs[k].seqNo <= seen[PairOf(rs[k])] < rs[j].seqNo
  }

  ghost predicate IsStateless(seen: Seen, rs: seq<Request>) {
    forall k :: 0 <= k < |rs| ==> (Drops(After(seen, rs[..k]), rs[k]) <==> Drops(seen, rs[k]))
  }

  /** The self-pruning filter drops exactly the requests that the SYNC covers if and only if no
      client session falls back behind its SYNC after passing it. */
  lemma StatelessExactly(seen: Seen, rs: seq<Request>)
    ensures IsStateless(seen, rs) <==> !FallsBack(seen, rs)
  {
    hide After;
    forall k | 0 <= k < |rs|
      ensures (Drops(After(seen, rs[..k]), rs[k]) <==> Drops(seen, rs[k]))
              <==> !(Drops(seen, rs[k]) && Passed(seen, rs[..k], PairOf(rs[k])))
    {
      AfterIs(seen, rs[..k], PairOf(rs[k]));
    }
    if FallsBack(seen, rs) {
      var j, k :| 0 <= j < k < |rs| && PairOf(rs[j]) == PairOf(rs[k]) && PairOf(rs[k]) in seen
                  && rs[k].seqNo <= seen[PairOf(rs[k])] < rs[j].seqNo;
      assert rs[..k][j] == rs[j];
      assert Passed(seen, rs[..k], PairOf(rs[k]));
    }
    if !IsStateless(seen, rs) {
      var k :| 0 <= k < |rs| && Drops(seen, rs[k]) && Passed(seen, rs[..k], PairOf(rs[k]));
      var j :| 0 <= j < k && PairOf(rs[..k][j]) == PairOf(rs[k]) && rs[..k][j].seqNo > seen[PairOf(rs[k])];
      assert rs[..k][j] == rs[j];
    }
  }

  ghost predicate InSessionOrder(rs: seq<Request>) {
    forall j, k :: 0 <= j < k < |rs| && PairOf(rs[j]) == PairOf(rs[k]) ==> rs[j].seqNo <= rs[k].seqNo
  }

  /** Requests that arrive in the order of their session are filtered as intended. */
  lemma OrderedSessionsFilteredExactly(infos: seq<RequestInfo>, rs: seq<Request>, k: nat)
    requires InSessionOrder(rs) && k < |rs|
    ensures Drops(After(Largest(infos), rs[..k]), rs[k]) <==> Covered(infos, PairOf(rs[k]), rs[k].seqNo)
  {
    var seen := Largest(infos);
    LargestCovers(infos, PairOf(rs[k]), rs[k].seqNo);
    hide Largest, Covered;
    StatelessExactly(seen, rs);
    assert !FallsBack(seen, rs);
    assert IsStateless(seen, rs);
  }

  /** From the SYNC to the filter: once the requests of a batch were proposed by a view change, the
      filter drops each of them that arrives in the order of its session, and no request that is
      beyond all of its session in the batch. */
  lemma SyncedRequestsAreDropped(batch: seq<Request>, infos: seq<RequestInfo>, rs: seq<Request>, k: nat)
    requires DescribesAll(infos, batch) && InSessionOrder(rs) && k < |rs|
    ensures Drops(After(Largest(infos), rs[..k]), rs[k]) <==>
              exists j :: 0 <= j < |batch| && batch[j].client == rs[k].client && batch[j].session == rs[k].session
                          && rs[k].seqNo <= batch[j].seqNo
    ensures rs[k] in batch ==> Drops(After(Largest(infos), rs[..k]), rs[k])
  {
    OrderedSessionsFilteredExactly(infos, rs, k);
    hide Drops, After, Largest;
    if Covered(infos, PairOf(rs[k]), rs[k].seqNo) {
      var j :| 0 <= j < |infos| && PairIn(infos[j]) == PairOf(rs[k]) && rs[k].seqNo <= infos[j].seqNo;
      assert Describes(infos[j], batch[j]);
    }
    if j :| 0 <= j < |batch| && batch[j].client == rs[k].client && batch[j].session == rs[k].session
            && rs[k].seqNo <= batch[j].seqNo {
      assert Describes(infos[j], batch[j]) && PairIn(infos[j]) == PairOf(rs[k]);
    }
    if rs[k] in batch {
      var j :| 0 <= j < |batch| && batch[j] == rs[k];
      assert Describes(infos[j], batch[j]);
      assert PairIn(infos[j]) == PairOf(rs[k]) && rs[k].seqNo <= infos[j].seqNo;
    }
  }

  // Batches

  lemma {:induction false} AfterConcat(seen: Seen, a: seq<Request>, b: seq<Request>)
    ensures After(seen, a + b) == After(After(seen, a), b)
    ensures Kept(seen, a + b) == Kept(seen, a) + Kept(After(seen, a), b)
  {
    hide Pass, Drops;
    if b == [] {
      assert a + b == a;
    } else {
      AfterConcat(seen, a, b[..|b| - 1]);
      assert (a + b)[..|a + b| - 1] == a + b[..|b| - 1];
    }
  }

  // The filter as it is kept: maps of sessions inside a map of clients

  type Nested = map<Node, map<nat, nat>>

  /** No client is kept without a session. */
  ghost predicate Represents(n: Nested, seen: Seen) {
    && (forall c :: c in n ==> n[c] != map[])
    && (forall p: Pair :: p in seen <==> p.client in n && p.session in n[p.client])
    && (forall p: Pair :: p in seen ==> seen[p] == n[p.client][p.session])
  }

  lemma NestedEmpty(n: Nested, seen: Seen)
    requires Represents(n, seen)
    ensures n == map[] <==> seen == map[]
  {
    if n != map[] {
      var c :| c in n;
      var s :| s in n[c];
      assert Pair(c, s) in seen;
    }
    if seen != map[] {
      var p :| p in seen;
      assert p.client in n;
    }
  }

  lemma PutKeeps(n: Nested, seen: Seen, p: Pair, v: nat)
    requires Represents(n, seen)
    ensures var sessions := if p.client in n then n[p.client] else map[];
            Represents(n[p.client := sessions[p.session := v]], seen[p := v])
  {
    var sessions := if p.client in n then n[p.client] else map[];
    var m := n[p.client := sessions[p.session := v]];
    assert p.session in m[p.client];
    forall c | c in m ensures m[c] != map[] {
    }
  }

  lemma RemoveKeeps(n: Nested, seen: Seen, p: Pair)
    requires Represents(n, seen) && p in seen
    ensures var sessions := n[p.client] - {p.session};
            Represents(if sessions == map[] then n - {p.client} else n[p.client := sessions], seen - {p})
  {
    var sessions := n[p.client] - {p.session};
    var m := if sessions == map[] then n - {p.client} else n[p.client := sessions];
    forall q: Pair ensures q in seen - {p} <==> q.client in m && q.session in m[q.client] {
      if q.client == p.client && q.session != p.session && q.session in n[p.client] {
        assert q.session in sessions;
      }
    }
  }

  class ViewChangeFilter {
    var lastViewChange: Option<Nested>
    var hasPending: bool
    ghost var seen: Seen

    ghost predicate Valid()
      reads this
    {
      && hasPending == lastViewChange.Some?
      && (if hasPending then Represents(lastViewChange.value, seen) else seen == map[])
    }

    constructor ()
      ensures Valid() && seen == map[]
    {
      lastViewChange, hasPending, seen := None, false, map[];
    }

    method InstallSyncMessageRequests(rqs: seq<RequestInfo>)
      modifies this
      ensures Valid() && seen == Largest(rqs)
    {
      var clients: Nested := map[];
      seen := map[];
      for k := 0 to |rqs|
        invariant Represents(clients, seen) && seen == Largest(rqs[..k])
      {
        var c, s, n := rqs[k].sender, rqs[k].session, rqs[k].seqNo;
        var sessions := if c in clients then clients[c] else map[];
        var entry := if s in sessions then sessions[s] else n;
        assert s in sessions <==> Pair(c, s) in seen;
        if entry < n {
          entry := n;
        }
        assert rqs[..k + 1][..k] == rqs[..k];
        PutKeeps(clients, seen, Pair(c, s), entry);
        hide Represents;
        assert seen[Pair(c, s) := entry] == Raise(seen, rqs[k]);
        clients := clients[c := sessions[s := entry]];
        seen := seen[Pair(c, s) := entry];
      }
      assert rqs[..|rqs|] == rqs;
      lastViewChange, hasPending := Some(clients), true;
    }

    method SyncMessagesClear()
      modifies this
      ensures Valid() && seen == map[] && !hasPending
    {
      lastViewChange, hasPending, seen := None, false, map[];
    }

    /** Whether a view change already proposed the request; forgets a session that has moved on. */
    method CheckIfHasBeenProposed(r: Request) returns (proposed: bool)
      requires Valid()
      modifies `lastViewChange, `seen
      ensures Valid() && proposed == Drops(old(seen), r) && seen == Pass(old(seen), r)
    {
      proposed := false;
      if lastViewChange.Some? && r.client in lastViewChange.value {
        var clients := lastViewChange.value;
        var sessions := clients[r.client];
        if r.session in sessions {
          if r.seqNo > sessions[r.session] {
            RemoveKeeps(clients, seen, PairOf(r));
            sessions := sessions - {r.session};
            clients := if sessions == map[] then clients - {r.client} else clients[r.client := sessions];
            lastViewChange, seen := Some(clients), seen - {PairOf(r)};
          } else {
            proposed := true;
          }
        }
      }
    }

    /** Keep what was not proposed yet; drop the filter once it is used up. */
    method Retain(batch: seq<Request>) returns (kept: seq<Request>)
      requires Valid()
      modifies this
      ensures Valid() && kept == Kept(old(seen), batch) && seen == After(old(seen), batch)
      ensures seen == map[] ==> !hasPending
    {
      hide Represents, Pass, Drops;
      kept := [];
      for k := 0 to |batch|
        invariant Valid() && kept == Kept(old(seen), batch[..k]) && seen == After(old(seen), batch[..k])
      {
        assert batch[..k + 1][..k] == batch[..k];
        var proposed := CheckIfHasBeenProposed(batch[k]);
        if !proposed {
          kept := kept + [batch[k]];
        }
      }
      assert batch[..|batch|] == batch;
      if hasPending {
        NestedEmpty(lastViewChange.value, seen);
        if lastViewChange.value == map[] {
          SyncMessagesClear();
        }
      }
    }
  }

  class ProposeBuilder {
    var accumulated: seq<Request>

    constructor ()
      ensures accumulated == []
    {
      accumulated := [];
    }

    /** Cut one batch: everything, or if there is too much the newest part of it. */
    method TakeBatch(maxBatchSize: nat) returns (batch: seq<Request>)
      modifies this
      ensures (batch, accumulated) == Cut(old(accumulated), maxBatchSize)
      ensures accumulated + batch == old(accumulated)
      ensures |batch| == if |old(accumulated)| <= maxBatchSize then |old(accumulated)| else maxBatchSize
    {
      var next := [];
      if |accumulated| > maxBatchSize {
        var at := |accumulated| - maxBatchSize;
        next, accumulated := accumulated[at..], accumulated[..at];
        next, accumulated := accumulated, next;
      }
      batch, accumulated := accumulated, next;
    }
  }

  /** The batch that `TakeBatch` cuts, and what it leaves. */
  function Cut(accumulated: seq<Request>, maxBatchSize: nat): (seq<Request>, seq<Request>) {
    if |accumulated| <= maxBatchSize then (accumulated, [])
    else (accumulated[|accumulated| - maxBatchSize..], accumulated[..|accumulated| - maxBatchSize])
  }

  /** Requests leave in the order in which they came only if they all fit. */
  lemma OldestFirstExactly(accumulated: seq<Request>, maxBatchSize: nat)
    requires forall j, k :: 0 <= j < k < |accumulated| ==> accumulated[j] != accumulated[k]
    ensures Cut(accumulated, maxBatchSize).0 <= accumulated <==> |accumulated| <= maxBatchSize || maxBatchSize == 0
  {
    var n := |accumulated|;
    if maxBatchSize < n && maxBatchSize > 0 {
      var batch := Cut(accumulated, maxBatchSize).0;
      assert batch[0] == accumulated[n - maxBatchSize] != accumulated[0];
    }
  }

  lemma TwoRequests(seen: Seen, a: Request, b: Request)
    ensures Kept(seen, [a, b]) ==
            (if Drops(seen, a) then [] else [a]) + (if Drops(Pass(seen, a), b) then [] else [b])
  {
    assert [a, b][..1] == [a] && [a][..0] == [];
    assert After(seen, [a]) == Pass(seen, a);
    assert Kept(seen, [a]) == if Drops(seen, a) then [] else [a];
  }

  /** Cutting from the newest end undoes the order that the filter relies on: of two requests of
      one session that arrive in order, the second leaves first, passes, and takes with it the
      entry by which the first, already proposed, would have been dropped. */
  lemma CutDefeatsFilter(first: Request, second: Request)
    requires PairOf(first) == PairOf(second) && first.seqNo < second.seqNo
    ensures InSessionOrder([first, second]) && Cut([first, second], 1) == ([second], [first])
    ensures var seen := map[PairOf(first) := first.seqNo];
            Kept(seen, [first, second]) == [second] && Kept(seen, [second, first]) == [second, first]
  {
    var seen := map[PairOf(first) := first.seqNo];
    assert [first, second][1..] == [second] && [first, second][..1] == [first];
    TwoRequests(seen, first, second);
    TwoRequests(seen, second, first);
    hide Kept;
    assert Pass(seen, second) == map[];
    assert [second] + [first] == [second, first];
  }
}
