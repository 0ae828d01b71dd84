/**
 What a view change sees of a decided value. With f >= 1 its quorum of prepares is on record with
 any quorum of members; whatever f is, its proof is, since replicas finalise what they decide
 before they turn to a view change.
 */
module Visibility {
  import opened Messages
  import opened Slotting
  import opened Instances
  import opened Views
  import opened Windows
  import opened WindowInvariants
  import opened WindowRouting
  import opened WindowRuns
  import opened Systems
  import opened SystemInvariants
  import opened Agreement

  // Decisions stay

  /** The window has left view `v` or number `seqNo` behind, or has decided that number. */
  predicate Past(w: Window, v: nat, seqNo: nat) {
    || w.view.seqNo > v
    || (w.view.seqNo == v && w.seqNo > seqNo)
    || (w.view.seqNo == v && w.seqNo <= seqNo < w.Top() && w.decisions[seqNo - w.seqNo].stage.Decided?)
  }

  lemma PastAdvances(w: Window, x: Window, v: nat, seqNo: nat)
    requires Past(w, v, seqNo) && Advances(w, x)
    ensures Past(x, v, seqNo)
  {
    if x.view == w.view && w.view.seqNo == v && x.seqNo <= seqNo {
      assert Evolves(w.decisions[seqNo - w.seqNo], x.decisions[seqNo - x.seqNo]);
    }
  }

  /** In every step the window of a correct replica stays, or advances. */
  lemma StepAdvances(cfg: Config, s: System, e: Event, t: System, c: Node)
    requires SysInv(cfg, s) && Enabled(cfg, s, e) && StepTo(s, e, t) && c in s.replicas
    ensures c in t.replicas
    ensures t.replicas[c].window == s.replicas[c].window || Advances(s.replicas[c].window, t.replicas[c].window)
  {
    assert ReplicaOk(cfg, s.sent, c, s.replicas[c]);
    hide LogsKnown, QueuesKnown, Inv, WellRouted, VotesUnique, VotesStand, Config.Valid, AllAuthentic, Advances;
    match e {
      case Inject(m) =>
      case StartSync(n) =>
      case Act(n, op) =>
        if n == c {
          StepGood(s.replicas[c].window, op);
          OpAdvances(s.replicas[c].window, op);
        }
      case CatchUp(n, k, last) =>
        if n == c {
          InstallSeqOk(cfg, s.sent, s.replicas[c].window, k);
        }
    }
  }

  lemma {:induction false} StaysPast(cfg: Config, trace: seq<System>, events: seq<Event>, c: Node, v: nat, seqNo: nat,
                                     j: nat, k: nat)
    requires IsExecution(cfg, trace, events) && j <= k <= |events|
    requires c in trace[j].replicas && Past(trace[j].replicas[c].window, v, seqNo)
    ensures c in trace[k].replicas && Past(trace[k].replicas[c].window, v, seqNo)
  {
    hide SysInv, Enabled, StepTo, Start, Config.Valid, Past, Advances;
    if j < k {
      StaysPast(cfg, trace, events, c, v, seqNo, j, k - 1);
      ReachableOk(cfg, trace, events, k - 1);
      StepAdvances(cfg, trace[k - 1], events[k - 1], trace[k], c);
      if trace[k].replicas[c].window != trace[k - 1].replicas[c].window {
        PastAdvances(trace[k - 1].replicas[c].window, trace[k].replicas[c].window, v, seqNo);
      }
    }
  }

  // Nothing is decided in the synchronisation phase

  /** In the same view, the instances of `x` stand where they stood in `w`, or are new. */
  ghost predicate StandStill(w: Window, x: Window) {
    && x.view == w.view && w.seqNo <= x.seqNo
    && (forall k :: 0 <= k < |x.decisions| ==>
          if x.seqNo - w.seqNo + k < |w.decisions|
          then x.decisions[k].stage == w.decisions[x.seqNo - w.seqNo + k].stage
          else x.decisions[k].stage.Initialize?)
  }

  /** What is not for the synchronisation phase. */
  predicate Progresses(op: Op) {
    op.DeliverOp? || op.PollOp? || op.NextOp? || op.InstallSeqOp?
  }

  lemma QuietOp(w: Window, op: Op)
    requires Inv(w) && Allowed(w, op) && Safe(w, op) && !Progresses(op)
    ensures var x := Apply(w, op);
            && x.seqNo == w.seqNo && x.decisions != []
            && (StandStill(w, x) || (x.view.seqNo > w.view.seqNo && !x.decisions[0].stage.Decided?))
  {
    hide Numbered, Awake, OffersStarted, Queue, InstallView, EnterView, Propose, StandStill;
    SameStands(w, w);
    match op {
      case QueueOp(m) =>
        QueueStages(w, m);
        SameStands(w, Queue(w, m));
      case InstallViewOp(v) =>
        InstallViewKeeps(w, v);
        SameView(w, v);
      case EnterViewOp(v) => EnterViewKeeps(w, v);
      case ProposeOp =>
        ProposeStages(w);
        SameStands(w, Propose(w).0);
    }
  }

  lemma QueueStages(w: Window, m: Message)
    ensures var x := Queue(w, m);
            && x.view == w.view && x.seqNo == w.seqNo && |x.decisions| == |w.decisions|
            && (forall k :: 0 <= k < |w.decisions| ==> x.decisions[k].stage == w.decisions[k].stage)
  {
    hide Push;
  }

  lemma ProposeStages(w: Window)
    ensures Propose(w).0.decisions == w.decisions && Propose(w).0.view == w.view && Propose(w).0.seqNo == w.seqNo
  {
  }

  lemma SameView(w: Window, v: View)
    ensures v.seqNo <= w.view.seqNo ==> InstallView(w, v) == w
  {
  }

  lemma SameStands(w: Window, x: Window)
    requires x.view == w.view && x.seqNo == w.seqNo && |x.decisions| == |w.decisions|
    requires forall k :: 0 <= k < |w.decisions| ==> x.decisions[k].stage == w.decisions[k].stage
    ensures StandStill(w, x)
  {
  }

  lemma QuietJump(w: Window, n: nat)
    requires Inv(w) && n >= w.seqNo
    ensures StandStill(w, InstallSeq(w, n)) && InstallSeq(w, n).seqNo == n
  {
  }

  /** In the synchronisation phase of view `v` the number `seqNo` is undecided, or both are left
      behind. */
  predicate Undecided(r: Replica, v: nat, seqNo: nat) {
    || r.window.view.seqNo > v
    || (r.window.view.seqNo == v && r.syncing
        && (r.window.seqNo <= seqNo < r.window.Top() ==>
              !r.window.decisions[seqNo - r.window.seqNo].stage.Decided?))
  }

  lemma StillUndecided(r: Replica, q: Replica, v: nat, seqNo: nat)
    requires Undecided(r, v, seqNo)
    requires || (StandStill(r.window, q.window) && q.syncing == r.syncing)
             || q.window.view.seqNo > r.window.view.seqNo
    ensures Undecided(q, v, seqNo)
  {
  }

  lemma UndecidedStep(cfg: Config, s: System, e: Event, t: System, c: Node, v: nat, seqNo: nat)
    requires SysInv(cfg, s) && Enabled(cfg, s, e) && StepTo(s, e, t)
    requires c in s.replicas && Undecided(s.replicas[c], v, seqNo)
    ensures c in t.replicas && Undecided(t.replicas[c], v, seqNo)
  {
    assert ReplicaOk(cfg, s.sent, c, s.replicas[c]);
    hide LogsKnown, QueuesKnown, Inv, WellRouted, VotesUnique, VotesStand, Config.Valid, AllAuthentic;
    hide StandStill, Apply, Sends;
    var r := s.replicas[c];
    match e {
      case Inject(m) =>
      case StartSync(n) =>
      case Act(n, op) =>
        if n == c {
          StepGood(r.window, op);
          ActPhase(cfg, s.sent, r, op);
          if r.window.view.seqNo == v {
            QuietOp(r.window, op);
            StillUndecided(r, t.replicas[c], v, seqNo);
          }
        }
      case CatchUp(n, k, last) =>
        if n == c {
          InstallSeqOk(cfg, s.sent, r.window, k);
          QuietJump(r.window, k);
          StillUndecided(r, t.replicas[c], v, seqNo);
        }
    }
  }

  lemma {:induction false} StaysUndecided(cfg: Config, trace: seq<System>, events: seq<Event>, c: Node, v: nat,
                                          seqNo: nat, j: nat, k: nat)
    requires IsExecution(cfg, trace, events) && j <= k <= |events|
    requires c in trace[j].replicas && Undecided(trace[j].replicas[c], v, seqNo)
    ensures c in trace[k].replicas && Undecided(trace[k].replicas[c], v, seqNo)
  {
    hide SysInv, Enabled, StepTo, Start, Config.Valid, Undecided;
    if j < k {
      StaysUndecided(cfg, trace, events, c, v, seqNo, j, k - 1);
      ReachableOk(cfg, trace, events, k - 1);
      UndecidedStep(cfg, trace[k - 1], events[k - 1], trace[k], c, v, seqNo);
    }
  }

  // Visibility

  /** The replica has a decided instance at the front of its window, not yet finalised. */
  ghost predicate FrontDecided(s: System, n: Node) {
    && n in s.replicas && s.replicas[n].window.decisions != []
    && s.replicas[n].window.decisions[0].stage.Decided?
  }

  /** Who hands in a collect with nothing decided at the front, and has ever decided `seqNo` in
      view `v`, has finalised it. */
  lemma DeciderFinalised(cfg: Config, trace: seq<System>, events: seq<Event>, v: nat, seqNo: nat, a: nat, x: Node,
                         i: Instance, b: nat)
    requires IsExecution(cfg, trace, events) && a <= |events| && b <= |events|
    requires Holds(trace[a], x, v, seqNo, i) && i.stage.Decided?
    requires ReadyToReport(trace[b], x, v, seqNo) && !FrontDecided(trace[b], x)
    ensures trace[b].replicas[x].window.seqNo == seqNo + 1
  {
    hide Enabled, StepTo, Start, Config.Valid;
    if a <= b {
      StaysPast(cfg, trace, events, x, v, seqNo, a, b);
    } else {
      StaysUndecided(cfg, trace, events, x, v, seqNo, b, a);
    }
  }

  lemma FinalisedReports(cfg: Config, s: System, c: Node, v: nat, seqNo: nat, d: Digest, all: set<Message>,
                         log: seq<Message>)
    requires SysInv(cfg, s) && ReadyToReport(s, c, v, seqNo) && s.replicas[c].window.seqNo == seqNo + 1
    requires s.sent <= all && VotesUnique(cfg, all) && Certificate(cfg, all, log, v, seqNo, Commit(d))
    ensures s.replicas[c].window.decisions != [] && Reports(s, c, cfg.views(v).F(), v, seqNo, d)
  {
    assert ReplicaOk(cfg, s.sent, c, s.replicas[c]);
    hide Config.ViewOk, LogsKnown, QueuesKnown, WellRouted, Awake, OffersStarted, Numbered;
    hide DigestOf, WriteSet, VotesUnique, Certificate;
    var p := s.replicas[c].last.value;
    if ProofView(p) == v {
      CertificateGrows(cfg, s.sent, all, p.commits, v, seqNo, Commit(p.digest));
      CertificatesAgree(cfg, all, p.commits, log, v, seqNo, Commit(p.digest), Commit(d));
    }
  }

  lemma Alone(cfg: Config, v: nat) returns (x: Node)
    requires cfg.Valid() && cfg.views(v).F() == 0
    ensures cfg.views(v).members == [x] && x in cfg.correct
  {
    assert cfg.ViewOk(v);
    x := cfg.views(v).members[0];
    assert x in cfg.views(v).MemberSet();
    assert cfg.faulty == {};
  }

  /** A decided value is visible. If a correct replica ever decides in view `v`, some correct
      collect of any quorum taken in that view shows the value: always with f >= 1, and with f = 0
      if the one who decides is a member, and the correct ones have finalised what they decided
      when they hand in their collects. */
  lemma DecidedValueVisible(cfg: Config, trace: seq<System>, events: seq<Event>, v: nat, seqNo: nat,
                            a: nat, x: Node, i: Instance, when: map<Node, nat>) returns (c: Node)
    requires Collected(cfg, trace, events, v, seqNo, a, x, i, when)
    requires || cfg.views(v).F() >= 1
             || (&& x in cfg.views(v).members
                 && (forall n :: n in when && n in cfg.correct ==> !FrontDecided(trace[when[n]], n)))
    ensures Reported(cfg, trace, v, seqNo, i, when, c)
  {
    if cfg.views(v).F() >= 1 {
      c := VisibleCollect(cfg, trace, events, v, seqNo, a, x, i, when);
    } else {
      c := Alone(cfg, v);
      assert x == c && c in when by { SoleReporter(cfg, v, c, when); }
      hide Enabled, StepTo, Start, Coupled, DigestOf, Reports, VotesUnique, VotesStand, WindowOk, FrontDecided;
      var end, b := |events|, when[c];
      ReachableOk(cfg, trace, events, a);
      ReachableOk(cfg, trace, events, b);
      ReachableOk(cfg, trace, events, end);
      HeldOk(cfg, trace[a], x, v, seqNo, i);
      SentGrows(cfg, trace, events, a, end);
      SentGrows(cfg, trace, events, b, end);
      CertificateGrows(cfg, trace[a].sent, trace[end].sent, i.commits, v, seqNo, Commit(DigestOf(i)));
      DeciderFinalised(cfg, trace, events, v, seqNo, a, x, i, b);
      FinalisedReports(cfg, trace[b], c, v, seqNo, DigestOf(i), trace[end].sent, i.commits);
    }
  }

  lemma SoleReporter(cfg: Config, v: nat, c: Node, when: map<Node, nat>)
    requires cfg.views(v).members == [c]
    requires when.Keys <= cfg.views(v).MemberSet() && |when.Keys| >= cfg.views(v).Quorum()
    ensures c in when
  {
    var n :| n in when.Keys;
    assert n in cfg.views(v).MemberSet();
  }

  // Replicas that finalise what they decide

  /** As the driver runs them: every call that decides also finalises, so that the synchronisation
      phase is entered with nothing decided at the front, and nobody jumps during that phase. */
  ghost predicate Finalising(trace: seq<System>, events: seq<Event>) {
    forall k :: 0 <= k < |events| && k < |trace| ==>
      && (events[k].StartSync? ==> !FrontDecided(trace[k], events[k].node))
      && (events[k].CatchUp? ==> events[k].node in trace[k].replicas && !trace[k].replicas[events[k].node].syncing)
  }

  lemma QuietStep(cfg: Config, s: System, e: Event, t: System, c: Node)
    requires SysInv(cfg, s) && Enabled(cfg, s, e) && StepTo(s, e, t) && c in s.replicas && c in t.replicas
    requires e.StartSync? ==> !FrontDecided(s, e.node)
    requires e.CatchUp? ==> !s.replicas[e.node].syncing
    requires s.replicas[c].syncing ==> !FrontDecided(s, c)
    ensures t.replicas[c].syncing ==> !FrontDecided(t, c)
  {
    assert ReplicaOk(cfg, s.sent, c, s.replicas[c]);
    hide LogsKnown, QueuesKnown, Inv, WellRouted, VotesUnique, VotesStand, Config.Valid, AllAuthentic, Apply, Sends;
    var r := s.replicas[c];
    if e.Act? && e.node == c {
      StepGood(r.window, e.op);
      if r.syncing {
        QuietFront(r.window, e.op);
      }
    } else if e.CatchUp? && e.node == c {
      InstallSeqOk(cfg, s.sent, r.window, e.n);
    }
  }

  lemma QuietFront(w: Window, op: Op)
    requires Inv(w) && Allowed(w, op) && Safe(w, op) && !Progresses(op)
    requires w.decisions != [] ==> !w.decisions[0].stage.Decided?
    ensures var x := Apply(w, op); x.decisions != [] && !x.decisions[0].stage.Decided?
  {
    assert w.decisions != [];
    hide Inv, Apply;
    QuietOp(w, op);
  }

  lemma {:induction false} NothingDecidedInSync(cfg: Config, trace: seq<System>, events: seq<Event>, c: Node, k: nat)
    requires IsExecution(cfg, trace, events) && Finalising(trace, events) && k <= |events|
    requires c in trace[k].replicas && trace[k].replicas[c].syncing
    ensures !FrontDecided(trace[k], c)
  {
    hide SysInv, Enabled, StepTo, Config.Valid, FrontDecided;
    if k > 0 {
      ReachableOk(cfg, trace, events, k - 1);
      assert c in trace[k - 1].replicas by { SameReplicas(cfg, trace, events, k); }
      if trace[k - 1].replicas[c].syncing {
        NothingDecidedInSync(cfg, trace, events, c, k - 1);
      }
      QuietStep(cfg, trace[k - 1], events[k - 1], trace[k], c);
    }
  }

  lemma SameReplicas(cfg: Config, trace: seq<System>, events: seq<Event>, k: nat)
    requires IsExecution(cfg, trace, events) && 0 < k <= |events|
    ensures trace[k - 1].replicas.Keys == trace[k].replicas.Keys
  {
    ReachableOk(cfg, trace, events, k - 1);
    ReachableOk(cfg, trace, events, k);
  }

  /** So a value decided by a correct member is visible, whatever f is, in every execution in which
      replicas finalise what they decide. */
  lemma FinalisersShowTheirValue(cfg: Config, trace: seq<System>, events: seq<Event>, v: nat, seqNo: nat,
                                 a: nat, x: Node, i: Instance, when: map<Node, nat>) returns (c: Node)
    requires Collected(cfg, trace, events, v, seqNo, a, x, i, when)
    requires Finalising(trace, events) && x in cfg.views(v).members
    ensures Reported(cfg, trace, v, seqNo, i, when, c)
  {
    hide Enabled, StepTo, Start, Config.Valid, Finalising, FrontDecided, Holds;
    forall n | n in when && n in cfg.correct ensures !FrontDecided(trace[when[n]], n) {
      NothingDecidedInSync(cfg, trace, events, n, when[n]);
    }
    c := DecidedValueVisible(cfg, trace, events, v, seqNo, a, x, i, when);
  }
}
