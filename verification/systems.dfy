/**
 The whole system: correct replicas that take the steps of their windows, faulty replicas
 that send anything in their own name, and the growing set of everything ever sent.
 */
module Systems {
  import opened Messages
  import opened Instances
  import opened Views
  import opened Windows
  import opened WindowRuns

  /** The views of a deployment, its faulty members and everyone else. */
  datatype Config = Config(views: nat -> View, faulty: set<Node>, correct: set<Node>, watermark: nat) {
    ghost predicate Valid() {
      && watermark >= 1 && correct !! faulty
      && (forall k :: ViewOk(k))
    }

    /** 3f + 1 members of which at most f are faulty. */
    ghost predicate ViewOk(k: nat) {
      && views(k).Valid() && views(k).seqNo == k
      && |views(k).members| % 3 == 1 && |faulty| <= views(k).F()
      && views(k).MemberSet() <= faulty + correct
    }
  }

  /** A correct replica: its window, whether it is in the synchronisation phase, and the
      proof of the last batch it finalised. */
  datatype Replica = Replica(window: Window, syncing: bool, last: Option<CompletedBatch>)

  datatype System = System(replicas: map<Node, Replica>, sent: set<Message>)

  datatype Event =
    | Inject(message: Message)
    | StartSync(node: Node)
    | Act(node: Node, op: Op)
    | CatchUp(node: Node, n: nat, last: Option<CompletedBatch>)

  predicate IsVote(m: Message) {
    !m.kind.PrePrepare?
  }

  /** What a replica can receive: something sent, by a member of the view it is for. */
  ghost predicate Known(cfg: Config, sent: set<Message>, m: Message) {
    m in sent && m.from in cfg.views(m.view).members
  }

  /** A quorum of equal votes for one sequence number and view. */
  ghost predicate Certificate(cfg: Config, sent: set<Message>, log: seq<Message>, view: nat, seqNo: nat, vote: Kind) {
    && DistinctSenders(log) && |log| >= cfg.views(view).Quorum()
    && (forall k :: 0 <= k < |log| ==>
          Known(cfg, sent, log[k]) && log[k].view == view && log[k].seqNo == seqNo && log[k].kind == vote)
  }

  function ProofView(p: CompletedBatch): nat {
    if p.commits == [] then 0 else p.commits[0].view
  }

  ghost predicate Certified(cfg: Config, sent: set<Message>, p: CompletedBatch) {
    Certificate(cfg, sent, p.commits, ProofView(p), p.seqNo, Commit(p.digest))
  }

  // Steps

  ghost predicate Enabled(cfg: Config, s: System, e: Event) {
    match e
    case Inject(m) => Authentic(m) && (IsVote(m) ==> m.from in cfg.faulty)
    case StartSync(n) => n in s.replicas
    case Act(n, op) => n in s.replicas && MayAct(cfg, s.sent, s.replicas[n], op)
    case CatchUp(n, k, last) =>
      n in s.replicas && k >= s.replicas[n].window.seqNo && (last.Some? ==> Certified(cfg, s.sent, last.value))
  }

  /** In the synchronisation phase consensus messages are only filed; that phase ends with
      the next view. Nothing is finalised before it is decided. */
  ghost predicate MayAct(cfg: Config, sent: set<Message>, r: Replica, op: Op) {
    match op
    case QueueOp(m) => Known(cfg, sent, m)
    case DeliverOp(m) => Known(cfg, sent, m) && !r.syncing
    case PollOp => !r.syncing
    case NextOp => !r.syncing && r.window.decisions != [] && r.window.decisions[0].stage.Decided?
    case InstallSeqOp(_) => false
    case InstallViewOp(v) => v == cfg.views(v.seqNo)
    case EnterViewOp(v) => v == cfg.views(v.seqNo) && v.seqNo > r.window.view.seqNo
    case ProposeOp => true
  }

  ghost function Sends(w: Window, op: Op): Option<Message>
    requires op.PollOp? ==> SignalsInWindow(w)
  {
    match op
    case DeliverOp(m) => Deliver(w, m).sent
    case PollOp =>
      var (x, m) := PollWindow(w);
      if m.Some? then Deliver(x, m.value).sent else None
    case _ => None
  }

  ghost function Outcome(r: Replica, op: Op): Replica
    requires Allowed(r.window, op) && Safe(r.window, op)
  {
    Replica(Apply(r.window, op),
            r.syncing && !op.EnterViewOp?,
            if op.NextOp? then Some(Complete(r.window.decisions[0])) else r.last)
  }

  function With(s: System, n: Node, r: Replica, out: Option<Message>): System {
    System(s.replicas[n := r], if out.Some? then s.sent + {out.value} else s.sent)
  }

  /** The system after an event; an operation that could panic leads nowhere in particular. */
  ghost predicate StepTo(s: System, e: Event, t: System) {
    match e
    case Inject(m) => t == s.(sent := s.sent + {m})
    case StartSync(n) => n in s.replicas && t == With(s, n, s.replicas[n].(syncing := true), None)
    case Act(n, op) =>
      n in s.replicas &&
      var r := s.replicas[n];
      Allowed(r.window, op) && (Safe(r.window, op) ==> t == With(s, n, Outcome(r, op), Sends(r.window, op)))
    case CatchUp(n, k, last) =>
      n in s.replicas &&
      var r := s.replicas[n];
      Safe(r.window, InstallSeqOp(k)) ==> t == With(s, n, Replica(InstallSeq(r.window, k), r.syncing, last), None)
  }

  ghost predicate Start(cfg: Config, s: System) {
    && s.replicas.Keys == cfg.correct && s.sent == {}
    && (forall n :: n in s.replicas ==>
          s.replicas[n] == Replica(Create(n, cfg.watermark, 0, cfg.views(0)), false, None))
  }

  ghost predicate IsExecution(cfg: Config, trace: seq<System>, events: seq<Event>) {
    && cfg.Valid() && |trace| == |events| + 1 && Start(cfg, trace[0])
    && (forall k :: 0 <= k < |events| ==>
          Enabled(cfg, trace[k], events[k]) && StepTo(trace[k], events[k], trace[k + 1]))
  }
}
