/**
 View changes across the system: faulty replicas alone can neither make a correct one ask
 for a new view nor make it leave the one it is in.
 */
module StopSafety {
  import opened Messages
  import opened Slotting
  import opened Views
  import opened ViewChanges
  import Quorums

  datatype Config = Config(faulty: set<Node>, correct: set<Node>, first: View) {
    ghost predicate Valid() {
      correct !! faulty && first.members != [] && |faulty| <= first.F()
    }
  }

  /** `timeouts` and `joins` remember for which next views a correct replica timed out, or was
      told to admit a node. */
  datatype World = World(replicas: map<Node, State>, sent: set<Change>, timeouts: set<nat>, joins: set<nat>)

  datatype Event =
    | Inject(message: Change)
    | Receive(node: Node, message: Change, verdict: Verdict)
    | PutAside(node: Node, message: Change)
    | Signal(node: Node)
    | PollNext(node: Node, verdict: Verdict)
    | TimedOut(node: Node)
    | ToldToAdmit(node: Node, joining: Node)

  /** Faulty replicas send what they like. STOP-DATA and SYNC messages of correct ones are
      left unconstrained, so they too may say anything. */
  ghost predicate Enabled(cfg: Config, w: World, e: Event) {
    match e
    case Inject(m) => m.from in cfg.faulty || m.kind.StopData? || m.kind.Sync?
    case Receive(n, m, _) => n in w.replicas && m in w.sent && !w.replicas[n].phase.SyncingState?
    case PutAside(n, m) => n in w.replicas && m in w.sent
    case Signal(n) => n in w.replicas
    case PollNext(n, _) => n in w.replicas
    case TimedOut(n) => n in w.replicas
    case ToldToAdmit(n, _) => n in w.replicas
  }

  function With(w: World, n: Node, s: State, sent: Option<Change>): World {
    w.(replicas := w.replicas[n := s], sent := if sent.Some? then w.sent + {sent.value} else w.sent)
  }

  ghost predicate Takes(w: World, n: Node, m: Change, verdict: Verdict, x: World)
    requires n in w.replicas
  {
    var s := w.replicas[n];
    ViewChanges.Inv(s) && !s.phase.SyncingState? ==>
      x == With(w, n, Process(s, m, verdict).state, Process(s, m, verdict).sent)
  }

  ghost predicate StepTo(w: World, e: Event, x: World) {
    match e
    case Inject(m) => x == w.(sent := w.sent + {m})
    case Receive(n, m, verdict) => n in w.replicas && Takes(w, n, m, verdict, x)
    case PutAside(n, m) => n in w.replicas && x == With(w, n, Queue(w.replicas[n], m), None)
    case Signal(n) => n in w.replicas && x == With(w, n, w.replicas[n].(getQueue := true), None)
    case PollNext(n, verdict) =>
      n in w.replicas &&
      var (s, r) := Poll(w.replicas[n]);
      if r.NextMessage? then Takes(With(w, n, s, None), n, r.message, verdict, x) else x == With(w, n, s, None)
    case TimedOut(n) =>
      n in w.replicas &&
      var s := w.replicas[n];
      x == With(w, n, TimeOut(s).state, TimeOut(s).sent).(timeouts := w.timeouts + {s.view.seqNo + 1})
    case ToldToAdmit(n, joining) =>
      n in w.replicas &&
      var s := w.replicas[n];
      x == With(w, n, StartJoin(s, joining).state, StartJoin(s, joining).sent).(joins := w.joins + {s.view.seqNo + 1})
  }

  ghost predicate IsExecution(cfg: Config, trace: seq<World>, events: seq<Event>) {
    && cfg.Valid() && |trace| == |events| + 1
    && trace[0].replicas.Keys == cfg.correct
    && trace[0].sent == {} && trace[0].timeouts == {} && trace[0].joins == {}
    && (forall n :: n in trace[0].replicas ==> trace[0].replicas[n] == Start(n, cfg.first))
    && (forall k :: 0 <= k < |events| ==>
          Enabled(cfg, trace[k], events[k]) && StepTo(trace[k], events[k], trace[k + 1]))
  }

  // The invariant

  /** Some correct replica had reason to ask for view `k`: it timed out in the view before, or
      it was told in that or an earlier one to admit a node. */
  ghost predicate Caused(w: World, k: nat) {
    k in w.timeouts || exists j :: j in w.joins && j <= k
  }

  ghost predicate RequestsJustified(cfg: Config, w: World) {
    forall m :: m in w.sent ==>
      && (m.kind.Stop? ==> m.from in cfg.faulty || (m.from in cfg.correct && m.seqNo in w.timeouts))
      && (m.kind.Join? ==> m.from in cfg.faulty || (m.from in cfg.correct && m.seqNo in w.joins))
  }

  ghost predicate QueueKnown(sent: set<Change>, queue: ViewChanges.Slots) {
    forall j: nat, m :: m in Slot(queue, j) ==> m in sent
  }

  ghost predicate JoinSent(sent: set<Change>, s: State, n: Node, voter: Node) {
    exists m :: m in sent && m.from == voter && m.kind == Join(n) && m.seqNo <= s.view.seqNo + 1
  }

  /** Every sender on record did send; every vote on record, however old, was cast. */
  ghost predicate RecordsKnown(sent: set<Change>, s: State) {
    && QueueKnown(sent, s.stop) && QueueKnown(sent, s.stopData) && QueueKnown(sent, s.sync)
    && (forall x :: x in s.stopped ==> Change(x, s.view.seqNo + 1, Stop) in sent)
    && (forall n, x :: n in s.votes && x in s.votes[n] ==> JoinSent(sent, s, n, x))
  }

  ghost predicate MovesCaused(cfg: Config, w: World, s: State) {
    && (s.phase.Leaving() ==> Caused(w, s.view.seqNo + 1))
    && (forall k :: cfg.first.seqNo < k <= s.view.seqNo ==> Caused(w, k))
  }

  ghost predicate Traced(cfg: Config, w: World, n: Node, s: State) {
    && s.me == n && s.view.members != [] && s.view.F() >= cfg.first.F()
    && RecordsKnown(w.sent, s) && MovesCaused(cfg, w, s)
  }

  ghost predicate ReplicaOk(cfg: Config, w: World, n: Node, s: State) {
    ViewChanges.Inv(s) && Traced(cfg, w, n, s)
  }

  ghost predicate WorldInv(cfg: Config, w: World) {
    && cfg.Valid() && w.replicas.Keys == cfg.correct
    && RequestsJustified(cfg, w)
    && (forall n :: n in w.replicas ==> ReplicaOk(cfg, w, n, w.replicas[n]))
  }

  // Growth

  ghost predicate Grows(w: World, x: World) {
    w.sent <= x.sent && w.timeouts <= x.timeouts && w.joins <= x.joins
  }

  lemma CausedGrows(w: World, x: World, k: nat)
    requires Grows(w, x) && Caused(w, k)
    ensures Caused(x, k)
  {
  }

  lemma RecordsGrow(sent: set<Change>, more: set<Change>, s: State)
    requires sent <= more && RecordsKnown(sent, s)
    ensures RecordsKnown(more, s)
  {
    hide Slot;
    forall n, x | n in s.votes && x in s.votes[n] ensures JoinSent(more, s, n, x) {
      assert JoinSent(sent, s, n, x);
    }
  }

  lemma ReplicaOkGrows(cfg: Config, w: World, x: World, n: Node, s: State)
    requires Grows(w, x) && ReplicaOk(cfg, w, n, s)
    ensures ReplicaOk(cfg, x, n, s)
  {
    hide RecordsKnown, ViewChanges.Inv, Caused;
    RecordsGrow(w.sent, x.sent, s);
    forall k | Caused(w, k) ensures Caused(x, k) {
      CausedGrows(w, x, k);
    }
  }

  /** One replica moves, perhaps sending something it has reason to send. */
  lemma MoveKeeps(cfg: Config, w: World, x: World, n: Node)
    requires WorldInv(cfg, w) && n in w.replicas && Grows(w, x)
    requires x.replicas.Keys == w.replicas.Keys
    requires forall k :: k in w.replicas && k != n ==> x.replicas[k] == w.replicas[k]
    requires ReplicaOk(cfg, x, n, x.replicas[n]) && RequestsJustified(cfg, x)
    ensures WorldInv(cfg, x)
  {
    hide ReplicaOk, RequestsJustified;
    forall k | k in x.replicas ensures ReplicaOk(cfg, x, k, x.replicas[k]) {
      if k != n {
        ReplicaOkGrows(cfg, w, x, k, w.replicas[k]);
      }
    }
  }

  // More senders than there are faulty replicas

  lemma StopsCaused(cfg: Config, w: World, s: State, senders: set<Node>)
    requires cfg.Valid() && RequestsJustified(cfg, w) && s.view.F() >= cfg.first.F() && |senders| > s.view.F()
    requires forall x :: x in senders ==> Change(x, s.view.seqNo + 1, Stop) in w.sent
    ensures s.view.seqNo + 1 in w.timeouts
  {
    var x := Quorums.SomeCorrect(senders, cfg.faulty);
    assert Change(x, s.view.seqNo + 1, Stop) in w.sent;
  }

  lemma JoinsCaused(cfg: Config, w: World, s: State, n: Node, voters: set<Node>)
    requires cfg.Valid() && RequestsJustified(cfg, w) && s.view.F() >= cfg.first.F() && |voters| > s.view.F()
    requires forall x :: x in voters ==> JoinSent(w.sent, s, n, x)
    ensures Caused(w, s.view.seqNo + 1)
  {
    var x := Quorums.SomeCorrect(voters, cfg.faulty);
    assert JoinSent(w.sent, s, n, x);
  }

  // Records stay true

  lemma FileKnown(sent: set<Change>, queue: ViewChanges.Slots, view: View, m: Change)
    requires QueueKnown(sent, queue) && m in sent
    ensures QueueKnown(sent, File(queue, view, m))
  {
    hide Slot, Push;
    forall j: nat, x | x in Slot(File(queue, view, m), j) ensures x in sent {
      if m.seqNo > view.seqNo {
        PushAt(queue, m.seqNo - view.seqNo - 1, m, j);
      }
    }
  }

  lemma DropKnown(sent: set<Change>, queue: ViewChanges.Slots)
    requires QueueKnown(sent, queue)
    ensures QueueKnown(sent, Drop(queue, 1))
  {
    forall j: nat, x | x in Slot(Drop(queue, 1), j) ensures x in sent {
      DropAt(queue, 1, j);
    }
  }

  lemma RestKnown(sent: set<Change>, queue: ViewChanges.Slots)
    requires QueueKnown(sent, queue)
    ensures QueueKnown(sent, Rest(queue))
    ensures Slot(queue, 0) != [] ==> Slot(queue, 0)[0] in sent
  {
    forall j: nat, x | x in Slot(Rest(queue), j) ensures x in sent {
      assert x in Slot(queue, j);
    }
  }

  lemma QueueRecords(sent: set<Change>, s: State, m: Change)
    requires RecordsKnown(sent, s) && m in sent
    ensures RecordsKnown(sent, Queue(s, m))
  {
    hide QueueKnown, File;
    var t := Queue(s, m);
    FileKnown(sent, s.stop, s.view, m);
    FileKnown(sent, s.stopData, s.view, m);
    FileKnown(sent, s.sync, s.view, m);
    forall n, x | n in t.votes && x in t.votes[n] ensures JoinSent(sent, t, n, x) {
      assert JoinSent(sent, s, n, x);
    }
  }

  /** The records depend on few parts of the state. */
  lemma SameRecords(sent: set<Change>, s: State, t: State)
    requires RecordsKnown(sent, s)
    requires t.view == s.view && t.stop == s.stop && t.stopData == s.stopData && t.sync == s.sync
    requires t.stopped <= s.stopped && (t.votes == s.votes || t.votes == map[])
    ensures RecordsKnown(sent, t)
  {
    hide QueueKnown;
    forall n, x | n in t.votes && x in t.votes[n] ensures JoinSent(sent, t, n, x) {
      assert JoinSent(sent, s, n, x);
    }
  }

  lemma StoppedRecords(sent: set<Change>, s: State, x: Node)
    requires RecordsKnown(sent, s) && Change(x, s.view.seqNo + 1, Stop) in sent
    ensures RecordsKnown(sent, s.(stopped := s.stopped + {x}))
  {
    hide QueueKnown;
    forall n, v | n in s.votes && v in s.votes[n] ensures JoinSent(sent, s.(stopped := s.stopped + {x}), n, v) {
      assert JoinSent(sent, s, n, v);
    }
  }

  lemma VoteRecords(sent: set<Change>, s: State, m: Change)
    requires RecordsKnown(sent, s) && m in sent && m.kind.Join? && m.seqNo == s.view.seqNo + 1
    ensures RecordsKnown(sent, s.(votes := Record(s.votes, m.kind.node, m.from)))
  {
    hide QueueKnown;
    var t := s.(votes := Record(s.votes, m.kind.node, m.from));
    forall n, x | n in t.votes && x in t.votes[n] ensures JoinSent(sent, t, n, x) {
      if n == m.kind.node && x == m.from {
        assert m in sent;
      } else {
        assert n in s.votes && x in s.votes[n];
        assert JoinSent(sent, s, n, x);
      }
    }
  }

  lemma EnterRecords(sent: set<Change>, s: State)
    requires RecordsKnown(sent, s) && ViewChanges.Inv(s) && s.phase.Leaving()
    ensures RecordsKnown(sent, EnterNext(s))
  {
    hide QueueKnown;
    var t := EnterNext(s);
    DropKnown(sent, s.stop);
    DropKnown(sent, s.stopData);
    DropKnown(sent, s.sync);
    forall n, x | n in t.votes && x in t.votes[n] ensures JoinSent(sent, t, n, x) {
      assert JoinSent(sent, s, n, x);
    }
  }

  // Each phase

  ghost predicate StepOk(cfg: Config, w: World, n: Node, step: Step) {
    && ReplicaOk(cfg, w, n, step.state)
    && (step.sent.Some? ==>
          && step.sent.value.from == n
          && ((step.sent.value.kind.Stop? && step.sent.value.seqNo in w.timeouts)
              || (step.sent.value.kind.Join? && step.sent.value.seqNo in w.joins)))
  }

  lemma QueueOk(cfg: Config, w: World, n: Node, s: State, m: Change)
    requires ReplicaOk(cfg, w, n, s) && m in w.sent
    ensures ReplicaOk(cfg, w, n, Queue(s, m))
  {
    QueueRecords(w.sent, s, m);
    QueueKeeps(s, m);
    hide RecordsKnown, ViewChanges.Inv, File, Caused;
  }

  lemma MoveOnTraced(cfg: Config, w: World, n: Node, s: State, next: View)
    requires Traced(cfg, w, n, s) && Caused(w, s.view.seqNo + 1) && next.members != []
    ensures Traced(cfg, w, n, MoveOn(s, next))
  {
    hide RecordsKnown, Caused, View.F, View.Leader;
    SameRecords(w.sent, s, MoveOn(s, next));
  }

  lemma StoppingOk(cfg: Config, w: World, n: Node, s: State, m: Change)
    requires cfg.Valid() && RequestsJustified(cfg, w) && ReplicaOk(cfg, w, n, s) && m in w.sent
    requires s.phase.Stopping? || s.phase.Stopping2?
    ensures StepOk(cfg, w, n, ProcessStopping(s, m))
  {
    StoppingKeeps(s, m);
    QueueOk(cfg, w, n, s, m);
    if m.kind.Stop? && m.seqNo == s.view.seqNo + 1 && m.from !in s.stopped {
      assert m == Change(m.from, s.view.seqNo + 1, Stop);
      StopTraced(cfg, w, n, s, m);
    }
    hide RequestsJustified, ViewChanges.Inv, Queue, NextView, View.F, View.Quorum, Traced, Caused;
    var t := s.(stopped := s.stopped + {m.from});
    if s.phase.Stopping2? && |t.stopped| >= s.view.Quorum() && Traced(cfg, w, n, t) && Caused(w, s.view.seqNo + 1) {
      MoveOnTraced(cfg, w, n, t, NextView(s.view));
    }
  }

  /** One more sender on record; with more than f of them there is a cause. */
  lemma StopTraced(cfg: Config, w: World, n: Node, s: State, m: Change)
    requires cfg.Valid() && RequestsJustified(cfg, w) && Traced(cfg, w, n, s) && m in w.sent
    requires s.phase.Stopping? || s.phase.Stopping2?
    requires m == Change(m.from, s.view.seqNo + 1, Stop)
    ensures var t := s.(stopped := s.stopped + {m.from});
            && Traced(cfg, w, n, t) && Traced(cfg, w, n, t.(phase := Stopping2))
            && (|t.stopped| > s.view.F() ==> s.view.seqNo + 1 in w.timeouts && Caused(w, s.view.seqNo + 1))
  {
    var t := s.(stopped := s.stopped + {m.from});
    StoppedRecords(w.sent, s, m.from);
    SameRecords(w.sent, t, t.(phase := Stopping2));
    if |t.stopped| > s.view.F() {
      StopsCaused(cfg, w, s, t.stopped);
    }
    hide RequestsJustified, RecordsKnown, View.F;
  }

  lemma ViewStoppingOk(cfg: Config, w: World, n: Node, s: State, m: Change, received: nat)
    requires cfg.Valid() && RequestsJustified(cfg, w) && ReplicaOk(cfg, w, n, s) && m in w.sent
    requires s.phase.ViewStopping? || s.phase.ViewStopping2?
    ensures StepOk(cfg, w, n, ProcessViewStopping(s, m, received))
  {
    ViewStoppingKeeps(s, m, received);
    QueueOk(cfg, w, n, s, m);
    QueueSame(s, m);
    hide RequestsJustified, ViewChanges.Inv, Queue, RecordsKnown, Caused, ProcessJoin;
    if m.kind.Join? && m.seqNo == s.view.seqNo + 1 {
      JoinTraced(cfg, w, n, s, m, received + 1);
    } else if m.kind.Stop? {
      SameRecords(w.sent, Queue(s, m), Queue(s, m).(phase := Stopping));
    }
  }

  lemma AdmitTraced(cfg: Config, w: World, n: Node, s: State, node: Node, received: nat)
    requires cfg.Valid() && RequestsJustified(cfg, w) && Traced(cfg, w, n, s) && s.votes != map[]
    ensures Traced(cfg, w, n, Admit(s, node, received).state) && Admit(s, node, received).sent.None?
  {
    var top := Top(s.votes);
    if |s.votes[top]| >= s.view.Quorum() {
      JoinsCaused(cfg, w, s, top, s.votes[top]);
      hide RequestsJustified, RecordsKnown, Top, NextViewWithNode, View.F;
      SameRecords(w.sent, s, s.(adding := Some(node)));
      MoveOnTraced(cfg, w, n, s.(adding := Some(node)), NextViewWithNode(s.view, top));
    }
  }

  lemma JoinTraced(cfg: Config, w: World, n: Node, s: State, m: Change, received: nat)
    requires cfg.Valid() && RequestsJustified(cfg, w) && Traced(cfg, w, n, s) && m in w.sent
    requires s.phase.ViewStopping? || s.phase.ViewStopping2?
    requires m.kind.Join? && m.seqNo == s.view.seqNo + 1
    ensures Traced(cfg, w, n, ProcessJoin(s, m, received).state) && ProcessJoin(s, m, received).sent.None?
  {
    VoteRecords(w.sent, s, m);
    hide RequestsJustified, RecordsKnown, Record, Admit, View.F, View.Quorum, Caused;
    var t := s.(votes := Record(s.votes, m.kind.node, m.from));
    SameRecords(w.sent, t, t.(phase := ViewStopping(received)));
    SameRecords(w.sent, t, t.(phase := ViewStopping2(received)));
    if received >= s.view.Quorum() {
      AdmitTraced(cfg, w, n, t.(phase := ViewStopping(received)), m.kind.node, received);
    }
  }

  lemma FinalizeOk(cfg: Config, w: World, n: Node, s: State, verdict: Verdict)
    requires ReplicaOk(cfg, w, n, s) && s.phase.Leaving()
    ensures StepOk(cfg, w, n, Finalize(s, verdict))
  {
    EnterRecords(w.sent, s);
    FinalizeKeeps(s, verdict);
    SameRecords(w.sent, s, s.(phase := SyncingState));
    hide RecordsKnown, Caused, View.F;
  }

  lemma CollectOk(cfg: Config, w: World, n: Node, s: State, m: Change, verdict: Verdict)
    requires ReplicaOk(cfg, w, n, s) && m in w.sent && s.phase.StoppingData?
    ensures StepOk(cfg, w, n, ProcessStoppingData(s, m, verdict))
  {
    QueueOk(cfg, w, n, s, m);
    var t := s.(collects := s.collects + {m.from});
    SameRecords(w.sent, s, t);
    SameRecords(w.sent, s, t.(phase := StoppingData(s.phase.collected + 1)));
    hide RecordsKnown, Caused, View.F, View.Quorum, View.Leader, Queue, Finalize, NewView;
    FinalizeOk(cfg, w, n, t, verdict);
  }

  lemma ProcessOk(cfg: Config, w: World, n: Node, s: State, m: Change, verdict: Verdict)
    requires cfg.Valid() && RequestsJustified(cfg, w) && ReplicaOk(cfg, w, n, s) && m in w.sent
    requires !s.phase.SyncingState?
    ensures StepOk(cfg, w, n, Process(s, m, verdict))
  {
    QueueOk(cfg, w, n, s, m);
    hide RequestsJustified, RecordsKnown, MovesCaused, View.F, Queue;
    hide ProcessStopping, ProcessViewStopping, ProcessStoppingData, Finalize;
    match s.phase {
      case Init =>
      case Stopping => StoppingOk(cfg, w, n, s, m);
      case Stopping2 => StoppingOk(cfg, w, n, s, m);
      case ViewStopping(received) => ViewStoppingOk(cfg, w, n, s, m, received);
      case ViewStopping2(received) => ViewStoppingOk(cfg, w, n, s, m, received);
      case StoppingData(_) => CollectOk(cfg, w, n, s, m, verdict);
      case Syncing => FinalizeOk(cfg, w, n, s, verdict);
    }
  }

  lemma PollRecords(sent: set<Change>, s: State)
    requires RecordsKnown(sent, s)
    ensures RecordsKnown(sent, Poll(s).0)
    ensures Poll(s).1.NextMessage? ==> Poll(s).1.message in sent
  {
    RestKnown(sent, s.stop);
    RestKnown(sent, s.stopData);
    RestKnown(sent, s.sync);
    hide QueueKnown, Rest;
    var t := Poll(s).0;
    forall n, x | n in t.votes && x in t.votes[n] ensures JoinSent(sent, t, n, x) {
      assert JoinSent(sent, s, n, x);
    }
  }

  lemma PollOk(cfg: Config, w: World, n: Node, s: State)
    requires ReplicaOk(cfg, w, n, s)
    ensures ReplicaOk(cfg, w, n, Poll(s).0)
    ensures Poll(s).1.NextMessage? ==> Poll(s).1.message in w.sent && !Poll(s).0.phase.SyncingState?
  {
    PollRecords(w.sent, s);
    PollKeeps(s);
    hide RecordsKnown, Rest, Slot, Caused, ViewChanges.Inv;
  }

  // Whole executions

  lemma TakeKeeps(cfg: Config, w: World, n: Node, m: Change, verdict: Verdict, x: World)
    requires WorldInv(cfg, w) && n in w.replicas && m in w.sent && !w.replicas[n].phase.SyncingState?
    requires Takes(w, n, m, verdict, x)
    ensures WorldInv(cfg, x) && Grows(w, x)
  {
    var s := w.replicas[n];
    ProcessOk(cfg, w, n, s, m, verdict);
    assert ViewChanges.Inv(s);
    hide Process, ReplicaOk, ViewChanges.Inv, View.F, RequestsJustified, Config.Valid;
    var step := Process(s, m, verdict);
    SentJustified(cfg, w, x, n, step.sent);
    ReplicaOkGrows(cfg, w, x, n, step.state);
    MoveKeeps(cfg, w, x, n);
  }

  lemma SentJustified(cfg: Config, w: World, x: World, n: Node, sent: Option<Change>)
    requires RequestsJustified(cfg, w) && n in cfg.correct && Grows(w, x)
    requires x.sent == if sent.Some? then w.sent + {sent.value} else w.sent
    requires sent.Some? ==>
               sent.value.from == n && ((sent.value.kind.Stop? && sent.value.seqNo in x.timeouts)
                                        || (sent.value.kind.Join? && sent.value.seqNo in x.joins))
    ensures RequestsJustified(cfg, x)
  {
  }

  lemma QuietKeeps(cfg: Config, w: World, n: Node, s: State)
    requires WorldInv(cfg, w) && n in w.replicas && ReplicaOk(cfg, w, n, s)
    ensures WorldInv(cfg, With(w, n, s, None)) && Grows(w, With(w, n, s, None))
  {
    hide ReplicaOk;
    var x := With(w, n, s, None);
    ReplicaOkGrows(cfg, w, x, n, s);
    MoveKeeps(cfg, w, x, n);
  }

  lemma InjectKeeps(cfg: Config, w: World, m: Change)
    requires WorldInv(cfg, w) && Enabled(cfg, w, Inject(m))
    ensures WorldInv(cfg, w.(sent := w.sent + {m}))
  {
    hide ReplicaOk;
    var x := w.(sent := w.sent + {m});
    forall k | k in x.replicas ensures ReplicaOk(cfg, x, k, x.replicas[k]) {
      ReplicaOkGrows(cfg, w, x, k, w.replicas[k]);
    }
  }

  lemma TimeOutOk(cfg: Config, w: World, n: Node, s: State)
    requires ReplicaOk(cfg, w, n, s)
    ensures ReplicaOk(cfg, w, n, TimeOut(s).state)
  {
    hide ViewChanges.Inv, View.F, Caused, RecordsKnown;
    TriggerKeeps(s, n);
    SameRecords(w.sent, s, TimeOut(s).state);
  }

  lemma StartJoinOk(cfg: Config, w: World, n: Node, s: State, joining: Node)
    requires ReplicaOk(cfg, w, n, s)
    ensures ReplicaOk(cfg, w, n, StartJoin(s, joining).state)
  {
    hide ViewChanges.Inv, View.F, Caused, RecordsKnown;
    TriggerKeeps(s, joining);
    SameRecords(w.sent, s, StartJoin(s, joining).state);
  }

  /** A local trigger is its own cause. */
  lemma TriggerOk(cfg: Config, w: World, n: Node, x: World, s: State, sent: Option<Change>, k: nat)
    requires WorldInv(cfg, w) && n in w.replicas && ReplicaOk(cfg, w, n, s) && Grows(w, x)
    requires x == With(w, n, s, sent).(timeouts := x.timeouts, joins := x.joins)
    requires sent.Some? ==> sent.value == Change(n, k, sent.value.kind)
                            && ((sent.value.kind.Stop? && k in x.timeouts) || (sent.value.kind.Join? && k in x.joins))
    ensures WorldInv(cfg, x)
  {
    hide ReplicaOk, Config.Valid, RequestsJustified;
    SentJustified(cfg, w, x, n, sent);
    ReplicaOkGrows(cfg, w, x, n, s);
    MoveKeeps(cfg, w, x, n);
  }

  lemma TimedOutOk(cfg: Config, w: World, n: Node, x: World)
    requires WorldInv(cfg, w) && n in w.replicas && StepTo(w, TimedOut(n), x)
    ensures WorldInv(cfg, x) && Grows(w, x)
  {
    var s := w.replicas[n];
    assert s.me == n;
    hide ReplicaOk, Config.Valid, RequestsJustified;
    TimeOutOk(cfg, w, n, s);
    TriggerOk(cfg, w, n, x, TimeOut(s).state, TimeOut(s).sent, s.view.seqNo + 1);
  }

  lemma ToldOk(cfg: Config, w: World, n: Node, joining: Node, x: World)
    requires WorldInv(cfg, w) && n in w.replicas && StepTo(w, ToldToAdmit(n, joining), x)
    ensures WorldInv(cfg, x) && Grows(w, x)
  {
    var s := w.replicas[n];
    assert s.me == n;
    hide ReplicaOk, Config.Valid, RequestsJustified;
    StartJoinOk(cfg, w, n, s, joining);
    TriggerOk(cfg, w, n, x, StartJoin(s, joining).state, StartJoin(s, joining).sent, s.view.seqNo + 1);
  }

  lemma StepKeeps(cfg: Config, w: World, e: Event, x: World)
    requires WorldInv(cfg, w) && Enabled(cfg, w, e) && StepTo(w, e, x)
    ensures WorldInv(cfg, x) && Grows(w, x)
  {
    hide RecordsKnown, MovesCaused, View.F, Takes, RequestsJustified, TimeOut, StartJoin;
    match e {
      case Inject(m) => InjectKeeps(cfg, w, m);
      case Receive(n, m, verdict) => TakeKeeps(cfg, w, n, m, verdict, x);
      case PutAside(n, m) =>
        QueueOk(cfg, w, n, w.replicas[n], m);
        QuietKeeps(cfg, w, n, Queue(w.replicas[n], m));
      case Signal(n) =>
        SameRecords(w.sent, w.replicas[n], w.replicas[n].(getQueue := true));
        SignalOk(cfg, w, n, w.replicas[n]);
        QuietKeeps(cfg, w, n, w.replicas[n].(getQueue := true));
      case PollNext(n, verdict) =>
        PollOk(cfg, w, n, w.replicas[n]);
        var (s, r) := Poll(w.replicas[n]);
        QuietKeeps(cfg, w, n, s);
        if r.NextMessage? {
          TakeKeeps(cfg, With(w, n, s, None), n, r.message, verdict, x);
        }
      case TimedOut(n) => TimedOutOk(cfg, w, n, x);
      case ToldToAdmit(n, joining) => ToldOk(cfg, w, n, joining, x);
    }
  }

  lemma SignalOk(cfg: Config, w: World, n: Node, s: State)
    requires ReplicaOk(cfg, w, n, s)
    ensures ReplicaOk(cfg, w, n, s.(getQueue := true))
  {
    hide RecordsKnown, Caused;
    SameRecords(w.sent, s, s.(getQueue := true));
  }

  lemma {:induction false} ReachableOk(cfg: Config, trace: seq<World>, events: seq<Event>, k: nat)
    requires IsExecution(cfg, trace, events) && k <= |events|
    ensures WorldInv(cfg, trace[k])
  {
    hide StepTo, Enabled;
    if k == 0 {
      StartOk(cfg, trace[0]);
    } else {
      hide WorldInv;
      ReachableOk(cfg, trace, events, k - 1);
      StepKeeps(cfg, trace[k - 1], events[k - 1], trace[k]);
    }
  }

  lemma StartOk(cfg: Config, w: World)
    requires cfg.Valid() && w.replicas.Keys == cfg.correct && w.sent == {}
    requires forall n :: n in w.replicas ==> w.replicas[n] == Start(n, cfg.first)
    ensures WorldInv(cfg, w)
  {
  }

  // The causes, read off the run

  ghost predicate TimedOutBefore(trace: seq<World>, events: seq<Event>, k: nat, view: nat)
    requires |trace| == |events| + 1 && k <= |events|
  {
    exists j :: 0 <= j < k && events[j].TimedOut? && events[j].node in trace[j].replicas
      && trace[j].replicas[events[j].node].view.seqNo + 1 == view
  }

  ghost predicate ToldBefore(trace: seq<World>, events: seq<Event>, k: nat, view: nat)
    requires |trace| == |events| + 1 && k <= |events|
  {
    exists j :: 0 <= j < k && events[j].ToldToAdmit? && events[j].node in trace[j].replicas
      && trace[j].replicas[events[j].node].view.seqNo + 1 <= view
  }

  lemma {:induction false} CausesHappened(cfg: Config, trace: seq<World>, events: seq<Event>, k: nat)
    requires IsExecution(cfg, trace, events) && k <= |events|
    ensures forall v :: v in trace[k].timeouts ==> TimedOutBefore(trace, events, k, v)
    ensures forall v, u :: v in trace[k].joins && v <= u ==> ToldBefore(trace, events, k, u)
  {
    if k > 0 {
      CausesHappened(cfg, trace, events, k - 1);
      ReachableOk(cfg, trace, events, k - 1);
      CausesStep(cfg, trace[k - 1], events[k - 1], trace[k]);
      hide StepTo, Enabled, WorldInv;
      forall v | v in trace[k].timeouts ensures TimedOutBefore(trace, events, k, v) {
        assert v in trace[k - 1].timeouts ==> TimedOutBefore(trace, events, k - 1, v);
      }
      forall v, u | v in trace[k].joins && v <= u ensures ToldBefore(trace, events, k, u) {
        assert v in trace[k - 1].joins ==> ToldBefore(trace, events, k - 1, u);
      }
    }
  }

  lemma CausesStep(cfg: Config, w: World, e: Event, x: World)
    requires WorldInv(cfg, w) && Enabled(cfg, w, e) && StepTo(w, e, x)
    ensures forall v :: v in x.timeouts && v !in w.timeouts ==>
              e.TimedOut? && e.node in w.replicas && w.replicas[e.node].view.seqNo + 1 == v
    ensures forall v :: v in x.joins && v !in w.joins ==>
              e.ToldToAdmit? && e.node in w.replicas && w.replicas[e.node].view.seqNo + 1 == v
  {
    hide RecordsKnown, MovesCaused, Process, TimeOut, StartJoin, Queue;
    if e.PollNext? {
      PollOk(cfg, w, e.node, w.replicas[e.node]);
    }
  }

  /** No view change without a cause. A correct replica asks for view k only if some correct
      replica timed out in the view before. It leaves a view, or has left it, only if some
      correct replica timed out there, or was told in that or an earlier view to admit a node. */
  lemma NoViewChangeWithoutCause(cfg: Config, trace: seq<World>, events: seq<Event>, k: nat)
    requires IsExecution(cfg, trace, events) && k <= |events|
    ensures forall m :: m in trace[k].sent && m.from in cfg.correct && m.kind.Stop? ==>
              TimedOutBefore(trace, events, k, m.seqNo)
    ensures forall n :: n in trace[k].replicas && trace[k].replicas[n].phase.Leaving() ==>
              var v := trace[k].replicas[n].view.seqNo + 1;
              TimedOutBefore(trace, events, k, v) || ToldBefore(trace, events, k, v)
    ensures forall n, v :: n in trace[k].replicas && cfg.first.seqNo < v <= trace[k].replicas[n].view.seqNo ==>
              TimedOutBefore(trace, events, k, v) || ToldBefore(trace, events, k, v)
  {
    ReachableOk(cfg, trace, events, k);
    CausesHappened(cfg, trace, events, k);
    hide StepTo, Enabled, TimedOutBefore, ToldBefore, RecordsKnown, ViewChanges.Inv, View.F;
    forall n, v | n in trace[k].replicas && Caused(trace[k], v)
      ensures TimedOutBefore(trace, events, k, v) || ToldBefore(trace, events, k, v)
    {
    }
    forall n, v | n in trace[k].replicas && cfg.first.seqNo < v <= trace[k].replicas[n].view.seqNo
      ensures TimedOutBefore(trace, events, k, v) || ToldBefore(trace, events, k, v)
    {
      assert ReplicaOk(cfg, trace[k], n, trace[k].replicas[n]);
      assert Caused(trace[k], v);
    }
  }
}
