/**
 Waiting for the next leader. A replica that has left its view gets on by one message only: no
 timeout, no STOP, nobody else's word.
 */
module Waiting {
  import opened Messages
  import opened Views
  import opened ViewChanges
  import opened StopSafety

  /** The event lets the replica `n` process the message `m`, just received or polled. */
  ghost predicate Handles(w: World, e: Event, n: Node, m: Change) {
    || (e.Receive? && e.node == n && e.message == m)
    || (e.PollNext? && e.node == n && n in w.replicas && Poll(w.replicas[n]).1 == NextMessage(m))
  }

  /** The message that a waiting replica waits for. */
  function SyncFor(s: State): Change
    requires s.next.Some? && s.next.value.members != []
  {
    Change(s.next.value.Leader(), s.view.seqNo + 1, Sync)
  }

  /** `t` waits as `s` does, for the same leader. */
  predicate StillWaits(s: State, t: State) {
    t.phase.Syncing? && t.view == s.view && t.next == s.next && t.me == s.me
  }

  /** The parts of the state that waiting depends on. */
  predicate Alike(s: State, t: State) {
    t.phase == s.phase && t.view == s.view && t.next == s.next && t.me == s.me && t.collects == s.collects
  }

  /** `t` collects for the next view as `s` does, from the same senders. */
  predicate StillCollects(s: State, t: State) {
    s.phase.StoppingData? && Alike(s, t)
  }

  /** A STOP-DATA for the next view, from someone new. */
  predicate IsFresh(s: State, m: Change) {
    m.kind.StopData? && m.seqNo == s.view.seqNo + 1 && m.from !in s.collects
  }

  lemma Queued(s: State, m: Change)
    ensures Alike(s, Queue(s, m))
  {
    hide File;
  }

  lemma SyncingTakes(s: State, m: Change, verdict: Verdict)
    requires ViewChanges.Inv(s) && s.phase.Syncing?
    ensures StillWaits(s, Process(s, m, verdict).state) || m == SyncFor(s)
  {
    hide Queue, Finalize, View.F, View.Leader;
    Queued(s, m);
  }

  lemma CollectingTakes(s: State, m: Change, verdict: Verdict)
    requires ViewChanges.Inv(s) && s.phase.StoppingData?
    ensures StillCollects(s, Process(s, m, verdict).state) || IsFresh(s, m)
  {
    hide Queue, Finalize, View.F, View.Leader, NewView;
    Queued(s, m);
  }

  lemma PollWaits(s: State)
    requires s.phase.Syncing? || s.phase.StoppingData?
    ensures Alike(s, Poll(s).0)
  {
    hide Rest;
  }

  /** From `s` to `t`, a replica that waits goes on waiting, or handled the SYNC of its next leader;
      one that collects goes on as it was, or handled a fresh STOP-DATA. */
  ghost predicate Waited(w: World, e: Event, n: Node, s: State, t: State) {
    && (s.phase.Syncing? && s.next.Some? && s.next.value.members != [] ==>
          StillWaits(s, t) || (Handles(w, e, n, SyncFor(s)) && SyncFor(s) in w.sent))
    && (s.phase.StoppingData? ==>
          StillCollects(s, t) || exists m :: Handles(w, e, n, m) && m in w.sent && IsFresh(s, m))
  }

  lemma AlikeWaited(w: World, e: Event, n: Node, s: State, t: State)
    requires Alike(s, t)
    ensures Waited(w, e, n, s, t)
  {
  }

  lemma HandlingWaited(w: World, e: Event, n: Node, s: State, t: State, m: Change, verdict: Verdict)
    requires ViewChanges.Inv(t) && Alike(s, t) && (t.phase.Syncing? || t.phase.StoppingData?)
    requires Handles(w, e, n, m) && m in w.sent
    ensures Waited(w, e, n, s, Process(t, m, verdict).state)
  {
    TakesStep(t, m, verdict);
    hide Process, ViewChanges.Inv, Handles;
  }

  lemma PollWaited(cfg: Config, w: World, verdict: Verdict, x: World, n: Node)
    requires WorldInv(cfg, w) && n in w.replicas && StepTo(w, PollNext(n, verdict), x)
    requires w.replicas[n].phase.Syncing? || w.replicas[n].phase.StoppingData?
    ensures n in x.replicas && Waited(w, PollNext(n, verdict), n, w.replicas[n], x.replicas[n])
  {
    var s := w.replicas[n];
    var (t, r) := Poll(s);
    assert ReplicaOk(cfg, w, n, s);
    PollOk(cfg, w, n, s);
    InvOf(cfg, w, n, t);
    PollWaits(s);
    hide WorldInv, ReplicaOk, Process, Poll, ViewChanges.Inv, Waited;
    if r.NextMessage? {
      HandlingWaited(w, PollNext(n, verdict), n, s, t, r.message, verdict);
    } else {
      AlikeWaited(w, PollNext(n, verdict), n, s, t);
    }
  }

  /** What one replica does is nothing to another. */
  lemma OthersStay(cfg: Config, w: World, e: Event, x: World, n: Node)
    requires WorldInv(cfg, w) && Enabled(cfg, w, e) && StepTo(w, e, x) && n in w.replicas
    requires e.Inject? || e.node != n
    ensures n in x.replicas && x.replicas[n] == w.replicas[n]
  {
    if !e.Inject? {
      var s := w.replicas[e.node];
      assert ReplicaOk(cfg, w, e.node, s);
      InvOf(cfg, w, e.node, s);
      PollOk(cfg, w, e.node, s);
      InvOf(cfg, w, e.node, Poll(s).0);
    }
    hide WorldInv, ReplicaOk, ViewChanges.Inv, Process, Queue, Poll, TimeOut, StartJoin;
  }

  lemma WaitingStep(cfg: Config, w: World, e: Event, x: World, n: Node)
    requires WorldInv(cfg, w) && Enabled(cfg, w, e) && StepTo(w, e, x) && n in w.replicas
    requires w.replicas[n].phase.Syncing? || w.replicas[n].phase.StoppingData?
    ensures ViewChanges.Inv(w.replicas[n]) && n in x.replicas && Waited(w, e, n, w.replicas[n], x.replicas[n])
  {
    var s := w.replicas[n];
    assert ReplicaOk(cfg, w, n, s);
    InvOf(cfg, w, n, s);
    if e.Inject? || e.node != n {
      OthersStay(cfg, w, e, x, n);
      AlikeWaited(w, e, n, s, s);
    } else {
      hide WorldInv, ReplicaOk, ViewChanges.Inv, Process, Queue, Poll, Waited;
      if e.Receive? {
        HandlingWaited(w, e, n, s, s, e.message, e.verdict);
      } else if e.PollNext? {
        PollWaited(cfg, w, e.verdict, x, n);
      } else {
        if e.PutAside? {
          Queued(s, e.message);
        }
        AlikeWaited(w, e, n, s, x.replicas[n]);
      }
    }
  }

  lemma InvOf(cfg: Config, w: World, n: Node, s: State)
    requires ReplicaOk(cfg, w, n, s)
    ensures ViewChanges.Inv(s)
  {
  }

  lemma TakesStep(s: State, m: Change, verdict: Verdict)
    requires ViewChanges.Inv(s) && (s.phase.Syncing? || s.phase.StoppingData?)
    ensures s.phase.Syncing? ==> StillWaits(s, Process(s, m, verdict).state) || m == SyncFor(s)
    ensures s.phase.StoppingData? ==> StillCollects(s, Process(s, m, verdict).state) || IsFresh(s, m)
  {
    hide Process, ViewChanges.Inv;
    if s.phase.Syncing? {
      SyncingTakes(s, m, verdict);
    } else {
      CollectingTakes(s, m, verdict);
    }
  }

  /** Over all executions: a replica leaves `Syncing` only in a step in which it processes the SYNC
      of the leader of its next view. */
  lemma LeavesSyncingOnlyBySync(cfg: Config, trace: seq<World>, events: seq<Event>, k: nat, n: Node)
    requires IsExecution(cfg, trace, events) && k < |events|
    requires n in trace[k].replicas && trace[k].replicas[n].phase.Syncing?
    ensures var s := trace[k].replicas[n];
            && n in trace[k + 1].replicas && s.next.Some? && s.next.value.members != []
            && (|| StillWaits(s, trace[k + 1].replicas[n])
                || (Handles(trace[k], events[k], n, SyncFor(s)) && SyncFor(s) in trace[k].sent))
  {
    hide Enabled, StepTo, WorldInv, Handles;
    ReachableOk(cfg, trace, events, k);
    WaitingStep(cfg, trace[k], events[k], trace[k + 1], n);
  }

  /** So a silent leader holds a correct replica forever: as long as its SYNC was not sent, the
      replica waits in the same view, whatever timeouts and STOPs there are. */
  lemma {:induction false} WaitsForItsLeader(cfg: Config, trace: seq<World>, events: seq<Event>, j: nat, k: nat,
                                             n: Node)
    requires IsExecution(cfg, trace, events) && j <= k <= |events|
    requires n in trace[j].replicas && trace[j].replicas[n].phase.Syncing?
    requires var s := trace[j].replicas[n];
             s.next.Some? && s.next.value.members != [] && SyncFor(s) !in trace[k].sent
    ensures n in trace[k].replicas && StillWaits(trace[j].replicas[n], trace[k].replicas[n])
  {
    hide Enabled, StepTo, WorldInv, Handles;
    if j < k {
      ReachableOk(cfg, trace, events, k - 1);
      StepKeeps(cfg, trace[k - 1], events[k - 1], trace[k]);
      WaitsForItsLeader(cfg, trace, events, j, k - 1, n);
      LeavesSyncingOnlyBySync(cfg, trace, events, k - 1, n);
    }
  }

  /** A replica that is to lead the next view has collected nothing more, as long as nobody new sent
      it a STOP-DATA for that view. */
  lemma {:induction false} CollectsOnlyFresh(cfg: Config, trace: seq<World>, events: seq<Event>, j: nat, k: nat,
                                             n: Node)
    requires IsExecution(cfg, trace, events) && j <= k <= |events|
    requires n in trace[j].replicas && trace[j].replicas[n].phase.StoppingData?
    requires forall m :: m in trace[k].sent ==> !IsFresh(trace[j].replicas[n], m)
    ensures n in trace[k].replicas && StillCollects(trace[j].replicas[n], trace[k].replicas[n])
  {
    hide Enabled, StepTo, WorldInv, Handles;
    if j < k {
      ReachableOk(cfg, trace, events, k - 1);
      StepKeeps(cfg, trace[k - 1], events[k - 1], trace[k]);
      CollectsOnlyFresh(cfg, trace, events, j, k - 1, n);
      WaitingStep(cfg, trace[k - 1], events[k - 1], trace[k], n);
    }
  }
}
