/**
 The replica that ties the window of instances to the log of decisions.
 */
module OrderProtocols {
  import opened Messages
  import opened Instances
  import opened Windows
  import opened WindowInvariants
  import opened ConsensusHandler
  import opened Proofs
  import opened DecidedLog

  function Retire(w: Window, n: nat): Window
    requires w.decisions != []
    ensures |Retire(w, n).decisions| == |w.decisions|
  {
    if n == 0 then w else Next(Retire(w, n - 1))
  }

  /** Retiring a decided instance shortens the decided prefix by one: the instance that opens
      at the far end has not even started. */
  lemma {:induction false} PrefixAfterNext(ds: seq<Instance>, i: Instance)
    requires ds != [] && ds[0].stage.Decided? && !i.stage.Decided?
    ensures DecidedPrefix(ds[1..] + [i]) == DecidedPrefix(ds) - 1
  {
    PrefixBefore(ds[1..], i);
  }

  lemma {:induction false} PrefixBefore(ds: seq<Instance>, i: Instance)
    requires !i.stage.Decided?
    ensures DecidedPrefix(ds + [i]) == DecidedPrefix(ds)
  {
    if ds == [] {
      assert ds + [i] == [i];
    } else if ds[0].stage.Decided? {
      PrefixBefore(ds[1..], i);
      assert (ds + [i])[1..] == ds[1..] + [i];
    }
  }

  lemma {:induction false} RetireAt(w: Window, n: nat, k: nat)
    requires w.decisions != [] && n + k < |w.decisions|
    ensures Retire(w, n).decisions[k] == w.decisions[n + k]
  {
    if n > 0 {
      RetireAt(w, n - 1, k + 1);
      NextAt(Retire(w, n - 1));
      hide Next;
    }
  }

  lemma NextAt(w: Window)
    requires w.decisions != []
    ensures Next(w).seqNo == w.seqNo + 1 && |Next(w).decisions| == |w.decisions|
    ensures forall k :: 0 <= k < |w.decisions| - 1 ==> Next(w).decisions[k] == w.decisions[k + 1]
  {
  }

  lemma InstanceCertifies(w: Window, k: nat)
    requires Inv(w) && k < |w.decisions| && w.decisions[k].stage.Decided?
    ensures Certifies(ProofOf(Complete(w.decisions[k])), w.view, w.seqNo + k)
  {
    hide Awake, OffersStarted, Coupled, Complete, Certifies;
    ProofCertifies(w.decisions[k]);
  }

  lemma FrontCertifies(w: Window)
    requires Inv(w)
    ensures w.decisions != []
    ensures w.decisions[0].stage.Decided? ==> Certifies(ProofOf(Complete(w.decisions[0])), w.view, w.seqNo)
  {
    hide Awake, OffersStarted, Coupled, Complete, Certifies;
    if w.decisions[0].stage.Decided? {
      InstanceCertifies(w, 0);
    }
  }

  class OrderProtocol {
    const consensus: Consensus
    const log: Log

    ghost predicate Valid()
      reads consensus, consensus.signals, consensus.tbo, consensus.guard
    {
      consensus.Valid()
    }

    constructor (consensus: Consensus, log: Log)
      requires consensus.Valid()
      ensures Valid() && this.consensus == consensus && this.log == log
    {
      this.consensus, this.log := consensus, log;
    }

    method FinalizeFront() returns (decision: BatchDecision)
      requires Valid() && consensus.CanFinalize()
      modifies consensus, consensus.signals, consensus.tbo, log
      ensures Valid() && consensus.Model() == Next(old(consensus.Model()))
      ensures decision == DecisionOf(Complete(old(consensus.decisions)[0]))
      ensures log.last == Some(ProofOf(Complete(old(consensus.decisions)[0])))
      ensures Certifies(log.last.value, old(consensus.view), old(consensus.seqNo))
    {
      FrontCertifies(consensus.Model());
      hide Inv, Complete, Next, Certifies;
      var completed := consensus.Finalize();
      decision := log.FinalizeBatch(completed.value);
    }

    /** Finalise while the front instance is decided. The loop ends after exactly the decided
        prefix of the window; the batches come out in order and without a gap. */
    method FinalizeAllPossible() returns (finalized: seq<BatchDecision>)
      requires Valid()
      modifies consensus, consensus.signals, consensus.tbo, log
      ensures Valid() && !consensus.CanFinalize()
      ensures AllFinalised(old(consensus.Model()), finalized, consensus.Model(), old(log.last), log.last)
      ensures finalized != [] ==>
                log.last.Some?
                && Certifies(log.last.value, old(consensus.view), old(consensus.seqNo) + |finalized| - 1)
    {
      finalized := [];
      ghost var w := consensus.Model();
      ProgressStarts(w, log.last);
      hide Inv, Next, DecidedPrefix, Progress, AllFinalised, Elements, Certifies, Complete, ProofOf, DecisionOf;
      while consensus.CanFinalize()
        invariant Valid() && Progress(w, finalized, consensus.Model(), old(log.last), log.last)
        decreases DecidedPrefix(consensus.decisions)
      {
        ProgressGoesOn(w, finalized, consensus.Model(), old(log.last), log.last);
        var decision := FinalizeFront();
        finalized := finalized + [decision];
      }
      ProgressEnds(w, finalized, consensus.Model(), old(log.last), log.last);
      LastCertifies(w, finalized, consensus.Model(), old(log.last), log.last);
    }
  }

  /** The proof on record after finalising certifies the last of the batches. */
  lemma LastCertifies(w: Window, finalized: seq<BatchDecision>, x: Window, first: Option<ProofData>,
                      last: Option<ProofData>)
    requires Inv(w) && AllFinalised(w, finalized, x, first, last)
    ensures finalized != [] ==> last.Some? && Certifies(last.value, w.view, w.seqNo + |finalized| - 1)
  {
    hide Inv, Complete, Certifies, Retire;
    if finalized != [] {
      PrefixDecided(w.decisions, |finalized| - 1);
      InstanceCertifies(w, |finalized| - 1);
    }
  }

  lemma {:induction false} PrefixDecided(ds: seq<Instance>, k: nat)
    requires k < DecidedPrefix(ds)
    ensures k < |ds| && ds[k].stage.Decided?
  {
    if k > 0 {
      PrefixDecided(ds[1..], k - 1);
    }
  }

  /** `finalized` are the batches of the decided prefix of `w`, under consecutive numbers from
      that of `w`; they are retired in `x`, and the last of them is on record. */
  ghost predicate AllFinalised(w: Window, finalized: seq<BatchDecision>, x: Window, first: Option<ProofData>,
                               last: Option<ProofData>)
  {
    && w.decisions != [] && |finalized| == DecidedPrefix(w.decisions) && x == Retire(w, |finalized|)
    && (forall k :: 0 <= k < |finalized| ==>
          finalized[k] == DecisionOf(Complete(w.decisions[k])) && finalized[k].seqNo == w.seqNo + k)
    && last == if finalized == [] then first else Some(ProofOf(Complete(w.decisions[|finalized| - 1])))
  }

  /** `x` is `w` with as many batches finalised, all of them decided in `w`. */
  ghost predicate Progress(w: Window, finalized: seq<BatchDecision>, x: Window, first: Option<ProofData>,
                           last: Option<ProofData>)
  {
    var n := |finalized|;
    && w.decisions != [] && n <= |w.decisions| && x == Retire(w, n)
    && DecidedPrefix(w.decisions) == n + DecidedPrefix(x.decisions)
    && (forall k :: 0 <= k < n ==> finalized[k] == DecisionOf(Complete(w.decisions[k])))
    && last == if n == 0 then first else Some(ProofOf(Complete(w.decisions[n - 1])))
  }

  lemma ProgressStarts(w: Window, last: Option<ProofData>)
    requires Inv(w)
    ensures Progress(w, [], w, last, last)
  {
    ReadyNumbers(w);
    hide Inv;
  }

  lemma ProgressGoesOn(w: Window, finalized: seq<BatchDecision>, x: Window, first: Option<ProofData>,
                       last: Option<ProofData>)
    requires Inv(w) && Progress(w, finalized, x, first, last) && x.decisions != [] && x.decisions[0].stage.Decided?
    ensures var i := x.decisions[0];
            Progress(w, finalized + [DecisionOf(Complete(i))], Next(x), first, Some(ProofOf(Complete(i))))
    ensures DecidedPrefix(Next(x).decisions) < DecidedPrefix(x.decisions)
  {
    hide Inv, Complete, DecidedPrefix, Retire, Next, DecisionOf, ProofOf;
    Continues(w, |finalized|);
  }

  lemma ProgressEnds(w: Window, finalized: seq<BatchDecision>, x: Window, first: Option<ProofData>,
                       last: Option<ProofData>)
    requires Inv(w) && Progress(w, finalized, x, first, last) && !(x.decisions != [] && x.decisions[0].stage.Decided?)
    ensures AllFinalised(w, finalized, x, first, last)
  {
    hide Inv;
    NumbersFollow(w, finalized);
  }

  lemma NumbersFollow(w: Window, finalized: seq<BatchDecision>)
    requires Inv(w) && |finalized| <= |w.decisions|
    requires forall k :: 0 <= k < |finalized| ==> finalized[k] == DecisionOf(Complete(w.decisions[k]))
    ensures forall k :: 0 <= k < |finalized| ==> finalized[k].seqNo == w.seqNo + k
  {
    ReadyNumbers(w);
    hide Inv;
  }

  lemma Continues(w: Window, n: nat)
    requires Inv(w) && w.decisions != [] && n <= |w.decisions|
    requires Retire(w, n).decisions[0].stage.Decided?
    requires DecidedPrefix(w.decisions) == n + DecidedPrefix(Retire(w, n).decisions)
    ensures n < |w.decisions| && Retire(w, n).decisions[0] == w.decisions[n]
    ensures Retire(w, n + 1) == Next(Retire(w, n))
    ensures DecidedPrefix(Retire(w, n + 1).decisions) == DecidedPrefix(Retire(w, n).decisions) - 1
  {
    hide Inv;
    if n < |w.decisions| {
      RetireAt(w, n, 0);
    }
    var x := Retire(w, n);
    PrefixAfterNext(x.decisions, Init(x.Top(), x.view, x.tbo.InboxAt(0)));
  }
}
