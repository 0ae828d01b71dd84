/**
 Proofs of decisions: checking, restoring and rebuilding the order of their pre-prepares.
 */
module Proofs {
  import opened Messages
  import opened Instances

  datatype ProofError =
    | WrongPrePrepareCount(expected: nat, found: nat)
    | BatchDigestsDoNotMatch
    | PrePrepareNotContainedInMetadata
    | PrePrepareListNotComplete

  datatype Outcome<+T> = Ok(value: T) | Err(error: ProofError)

  datatype ProofData = ProofData(
    metadata: Metadata, prePrepares: seq<Message>, prepares: seq<Message>, commits: seq<Message>)

  function Headers(ms: seq<Message>): (d: seq<Digest>)
    ensures |d| == |ms| && forall k :: 0 <= k < |ms| ==> d[k] == ms[k].header
  {
    if ms == [] then [] else Headers(ms[..|ms| - 1]) + [ms[|ms| - 1].header]
  }

  ghost predicate IsOrdered(p: ProofData) {
    Headers(p.prePrepares) == p.metadata.ordering
  }

  ghost predicate Permutes(a: seq<Message>, b: seq<Message>) {
    multiset(a) == multiset(b)
  }

  // Sequences without repetition

  ghost predicate NoRepeats<T>(s: seq<T>) {
    forall j, k :: 0 <= j < k < |s| ==> s[j] != s[k]
  }

  lemma {:induction false} CountOnce<T>(s: seq<T>, x: T)
    requires NoRepeats(s)
    ensures multiset(s)[x] == if x in s then 1 else 0
  {
    if s != [] {
      var rest, last := s[..|s| - 1], s[|s| - 1];
      CountOnce(rest, x);
      assert s == rest + [last];
    }
  }

  lemma SameElements<T>(a: seq<T>, b: seq<T>)
    requires NoRepeats(a) && NoRepeats(b) && forall x :: x in a <==> x in b
    ensures multiset(a) == multiset(b)
  {
    forall x ensures multiset(a)[x] == multiset(b)[x] {
      CountOnce(a, x);
      CountOnce(b, x);
    }
  }

  lemma {:induction false} CountAtLeastTwo<T>(s: seq<T>, j: nat, k: nat)
    requires j < k < |s| && s[j] == s[k]
    ensures multiset(s)[s[j]] >= 2
  {
    var rest, last := s[..|s| - 1], s[|s| - 1];
    assert s == rest + [last];
    if k < |rest| {
      CountAtLeastTwo(rest, j, k);
    } else {
      assert rest[j] in multiset(rest);
    }
  }

  lemma NoRepeatsByCount<T>(a: seq<T>, b: seq<T>)
    requires NoRepeats(a) && multiset(a) == multiset(b)
    ensures NoRepeats(b) && forall x :: x in a <==> x in b
  {
    forall j, k | 0 <= j < k < |b| ensures b[j] != b[k] {
      if b[j] == b[k] {
        CountAtLeastTwo(b, j, k);
        CountOnce(a, b[j]);
      }
    }
    forall x ensures x in a <==> x in b {
      assert x in a <==> x in multiset(a);
      assert x in b <==> x in multiset(b);
    }
  }

  function SwapRemove<T>(s: seq<T>, i: nat): (r: seq<T>)
    requires i < |s|
    ensures |r| == |s| - 1
  {
    s[i := s[|s| - 1]][..|s| - 1]
  }

  lemma SwapRemoved<T>(s: seq<T>, i: nat)
    requires i < |s|
    ensures multiset(SwapRemove(s, i)) + multiset{s[i]} == multiset(s)
  {
    var t := s[i := s[|s| - 1]];
    assert t == SwapRemove(s, i) + [s[|s| - 1]];
    assert multiset(t) == multiset(s) - multiset{s[i]} + multiset{s[|s| - 1]};
  }

  // Filters

  function OfKind(ms: seq<Message>, t: Tag): seq<Message> {
    if ms == [] then []
    else OfKind(ms[..|ms| - 1], t) + if TagOf(ms[|ms| - 1]) == t then [ms[|ms| - 1]] else []
  }

  lemma {:induction false} OfKindConcat(a: seq<Message>, b: seq<Message>, t: Tag)
    ensures OfKind(a + b, t) == OfKind(a, t) + OfKind(b, t)
  {
    if b == [] {
      assert a + b == a;
    } else {
      OfKindConcat(a, b[..|b| - 1], t);
      assert (a + b)[..|a + b| - 1] == a + b[..|b| - 1];
    }
  }

  lemma {:induction false} OfKindUniform(ms: seq<Message>, t: Tag, u: Tag)
    requires forall m :: m in ms ==> TagOf(m) == u
    ensures OfKind(ms, t) == if t == u then ms else []
  {
    if ms != [] {
      OfKindUniform(ms[..|ms| - 1], t, u);
    }
  }

  // Placing pre-prepares by their digests

  function Position(ds: seq<Digest>, d: Digest): (r: Option<nat>)
    ensures r.Some? ==> r.value < |ds| && ds[r.value] == d && d !in ds[..r.value]
    ensures r.None? ==> d !in ds
  {
    if ds == [] then None
    else
      var before := Position(ds[..|ds| - 1], d);
      if before.Some? then before else if ds[|ds| - 1] == d then Some(|ds| - 1) else None
  }

  /** The last message whose digest is first found at slot `k`. */
  function LastAt(ms: seq<Message>, ordering: seq<Digest>, k: nat): (r: Option<Message>)
    ensures r.Some? ==> r.value in ms && Position(ordering, r.value.header) == Some(k)
    ensures r.None? ==> forall m :: m in ms ==> Position(ordering, m.header) != Some(k)
  {
    if ms == [] then None
    else if Position(ordering, ms[|ms| - 1].header) == Some(k) then Some(ms[|ms| - 1])
    else LastAt(ms[..|ms| - 1], ordering, k)
  }

  /** What comes of a heap of messages: every pre-prepare must be known to the ordering, and
      every place of the ordering must be taken. */
  ghost predicate Restores(metadata: Metadata, ms: seq<Message>, r: Outcome<ProofData>) {
    var pre, ordering := OfKind(ms, PrePrepareTag), metadata.ordering;
    match r
    case Ok(p) =>
      && (forall m :: m in pre ==> m.header in ordering)
      && p.metadata == metadata && |p.prePrepares| == |ordering|
      && (forall k :: 0 <= k < |ordering| ==> LastAt(pre, ordering, k) == Some(p.prePrepares[k]))
      && p.prepares == OfKind(ms, PrepareTag) && p.commits == OfKind(ms, CommitTag)
    case Err(error) =>
      if forall m :: m in pre ==> m.header in ordering
      then error == PrePrepareListNotComplete && exists k :: 0 <= k < |ordering| && LastAt(pre, ordering, k) == None
      else error == PrePrepareNotContainedInMetadata
  }

  /** Messages of a proof in any order that keeps prepares and commits in sequence. */
  ghost predicate Shuffled(p: ProofData, ms: seq<Message>) {
    && Permutes(OfKind(ms, PrePrepareTag), p.prePrepares)
    && OfKind(ms, PrepareTag) == p.prepares && OfKind(ms, CommitTag) == p.commits
  }

  ghost predicate WellKinded(p: ProofData) {
    && (forall m :: m in p.prePrepares ==> m.kind.PrePrepare?)
    && (forall m :: m in p.prepares ==> m.kind.Prepare?)
    && (forall m :: m in p.commits ==> m.kind.Commit?)
  }

  lemma PartsOfKind(p: ProofData, t: Tag)
    requires WellKinded(p)
    ensures OfKind(p.prePrepares + p.prepares + p.commits, t) ==
            match t { case PrePrepareTag => p.prePrepares case PrepareTag => p.prepares case CommitTag => p.commits }
  {
    hide OfKind;
    OfKindConcat(p.prePrepares + p.prepares, p.commits, t);
    OfKindConcat(p.prePrepares, p.prepares, t);
    OfKindUniform(p.prePrepares, t, PrePrepareTag);
    OfKindUniform(p.prepares, t, PrepareTag);
    OfKindUniform(p.commits, t, CommitTag);
  }

  lemma PartsAreShuffled(p: ProofData)
    requires WellKinded(p)
    ensures Shuffled(p, p.prePrepares + p.prepares + p.commits)
  {
    hide OfKind;
    PartsOfKind(p, PrePrepareTag);
    PartsOfKind(p, PrepareTag);
    PartsOfKind(p, CommitTag);
  }

  /** Two ordered arrangements of the same messages are the same if the digests differ. */
  lemma OrderUnique(a: seq<Message>, b: seq<Message>)
    requires Permutes(a, b) && Headers(a) == Headers(b) && NoRepeats(Headers(a))
    ensures a == b
  {
    forall k | 0 <= k < |a| ensures a[k] == b[k] {
      assert a[k] in multiset(b);
      var j :| 0 <= j < |b| && b[j] == a[k];
      assert Headers(b)[j] == Headers(a)[k];
    }
  }

  /** Taking a proof apart and putting it together again, under any shuffle that keeps the
      prepares and the commits in sequence, gives the ordered proof. */
  lemma RestoredInOrder(p: ProofData, ms: seq<Message>, r: Outcome<ProofData>)
    requires NoRepeats(p.metadata.ordering) && multiset(Headers(p.prePrepares)) == multiset(p.metadata.ordering)
    requires Shuffled(p, ms) && Restores(p.metadata, ms, r)
    ensures r.Ok? && IsOrdered(r.value) && Permutes(r.value.prePrepares, p.prePrepares)
    ensures r.value == p.(prePrepares := r.value.prePrepares)
  {
    hide OfKind, LastAt, Position, Headers, WellKinded;
    var ordering, pre := p.metadata.ordering, OfKind(ms, PrePrepareTag);
    NoRepeatsByCount(ordering, Headers(p.prePrepares));
    SameMembers(pre, p.prePrepares);
    EverySlotTaken(p, pre);
    RestoredSlots(p, pre, r, ms);
    SlotsPermute(p, r.value.prePrepares);
  }

  lemma RestoredSlots(p: ProofData, pre: seq<Message>, r: Outcome<ProofData>, ms: seq<Message>)
    requires pre == OfKind(ms, PrePrepareTag) && Restores(p.metadata, ms, r)
    requires forall m :: m in pre ==> m.header in p.metadata.ordering
    requires forall k :: 0 <= k < |p.metadata.ordering| ==>
              var at := LastAt(pre, p.metadata.ordering, k); at.Some? && at.value.header == p.metadata.ordering[k]
    ensures r.Ok? && Headers(r.value.prePrepares) == p.metadata.ordering
    ensures forall m :: m in r.value.prePrepares ==> m in pre
  {
    hide OfKind, Position;
  }

  lemma SameMembers(a: seq<Message>, b: seq<Message>)
    requires Permutes(a, b)
    ensures forall m :: m in a <==> m in b
  {
    forall m ensures m in a <==> m in b {
      assert m in a <==> m in multiset(a);
      assert m in b <==> m in multiset(b);
    }
  }

  lemma EverySlotTaken(p: ProofData, pre: seq<Message>)
    requires NoRepeats(p.metadata.ordering)
    requires forall d :: d in p.metadata.ordering <==> d in Headers(p.prePrepares)
    requires forall m :: m in pre <==> m in p.prePrepares
    ensures forall m :: m in pre ==> m.header in p.metadata.ordering
    ensures forall k :: 0 <= k < |p.metadata.ordering| ==>
              var at := LastAt(pre, p.metadata.ordering, k); at.Some? && at.value.header == p.metadata.ordering[k]
  {
    var ordering := p.metadata.ordering;
    forall m | m in pre ensures m.header in ordering {
      var k :| 0 <= k < |p.prePrepares| && p.prePrepares[k] == m;
      assert Headers(p.prePrepares)[k] == m.header;
    }
    forall k | 0 <= k < |ordering| ensures LastAt(pre, ordering, k).Some? {
      assert ordering[k] in Headers(p.prePrepares);
      var j :| 0 <= j < |p.prePrepares| && Headers(p.prePrepares)[j] == ordering[k];
      var m := p.prePrepares[j];
      assert m in pre && Position(ordering, m.header) == Some(k);
    }
  }

  lemma SlotsPermute(p: ProofData, q: seq<Message>)
    requires NoRepeats(Headers(p.prePrepares)) && NoRepeats(Headers(q))
    requires forall m :: m in q ==> m in p.prePrepares
    requires forall d :: d in Headers(q) <==> d in Headers(p.prePrepares)
    ensures Permutes(q, p.prePrepares)
  {
    var pre := p.prePrepares;
    forall j, k | 0 <= j < k < |q| ensures q[j] != q[k] { assert Headers(q)[j] != Headers(q)[k]; }
    forall j, k | 0 <= j < k < |pre| ensures pre[j] != pre[k] { assert Headers(pre)[j] != Headers(pre)[k]; }
    forall m | m in pre ensures m in q {
      var k :| 0 <= k < |pre| && pre[k] == m;
      assert Headers(pre)[k] in Headers(q);
      var j :| 0 <= j < |q| && Headers(q)[j] == Headers(pre)[k];
      assert q[j] in pre;
      var i :| 0 <= i < |pre| && pre[i] == q[j];
      assert Headers(pre)[i] == Headers(pre)[k];
    }
    SameElements(q, pre);
  }

  // Sorting by repeated removal

  /** The first `k` places are filled, and nothing of `all` is lost. */
  ghost predicate Sorting(ordered: seq<Message>, left: seq<Message>, ordering: seq<Digest>, k: nat, all: seq<Message>) {
    && k <= |ordering| && Headers(ordered) == ordering[..k]
    && multiset(ordered) + multiset(left) == multiset(all)
    && multiset(ordering[..k]) + multiset(Headers(left)) == multiset(Headers(all))
  }

  lemma SortingStarts(ordering: seq<Digest>, all: seq<Message>)
    ensures Sorting([], all, ordering, 0, all)
  {
    assert ordering[..0] == [];
  }

  lemma SortingGoesOn(ordered: seq<Message>, left: seq<Message>, ordering: seq<Digest>, k: nat, all: seq<Message>,
                      i: nat)
    requires Sorting(ordered, left, ordering, k, all) && k < |ordering| && i < |left| && left[i].header == ordering[k]
    ensures Sorting(ordered + [left[i]], SwapRemove(left, i), ordering, k + 1, all)
  {
    PrefixGrows(ordering, k);
    MoveOne(ordered, left, i);
    MoveOne(ordering[..k], Headers(left), i);
    HeadersMove(ordered, left, i);
    hide Headers, SwapRemove;
  }

  lemma MoveOne<T>(done: seq<T>, left: seq<T>, i: nat)
    requires i < |left|
    ensures multiset(done + [left[i]]) + multiset(SwapRemove(left, i)) == multiset(done) + multiset(left)
  {
    SwapRemoved(left, i);
    hide SwapRemove;
    calc {
      multiset(done + [left[i]]) + multiset(SwapRemove(left, i));
      multiset(done) + (multiset(SwapRemove(left, i)) + multiset{left[i]});
    }
  }

  lemma HeadersMove(ordered: seq<Message>, left: seq<Message>, i: nat)
    requires i < |left|
    ensures Headers(SwapRemove(left, i)) == SwapRemove(Headers(left), i)
    ensures Headers(ordered + [left[i]]) == Headers(ordered) + [left[i].header]
  {
  }

  lemma SortingFails(ordered: seq<Message>, left: seq<Message>, ordering: seq<Digest>, k: nat, all: seq<Message>)
    requires Sorting(ordered, left, ordering, k, all) && k < |ordering| && ordering[k] !in Headers(left)
    ensures multiset(Headers(all)) != multiset(ordering)
  {
    hide Headers;
    Missing(ordering, k, Headers(left), Headers(all));
  }

  lemma SortingEnds(ordered: seq<Message>, left: seq<Message>, ordering: seq<Digest>, all: seq<Message>)
    requires Sorting(ordered, left, ordering, |ordering|, all) && left == []
    ensures Headers(ordered) == ordering && Permutes(ordered, all) && multiset(Headers(all)) == multiset(ordering)
  {
    assert ordering[..|ordering|] == ordering;
  }

  // The proof object

  class Proof {
    const metadata: Metadata
    var prePrepares: seq<Message>
    var prepares: seq<Message>
    var commits: seq<Message>

    ghost function Data(): ProofData
      reads this
    {
      ProofData(metadata, prePrepares, prepares, commits)
    }

    constructor (metadata: Metadata, prePrepares: seq<Message>, prepares: seq<Message>, commits: seq<Message>)
      ensures Data() == ProofData(metadata, prePrepares, prepares, commits)
    {
      this.metadata, this.prePrepares, this.prepares, this.commits := metadata, prePrepares, prepares, commits;
    }

    /** Whether the stored order is the one that the metadata gives. */
    method ArePrePreparesOrdered() returns (r: Outcome<bool>)
      ensures r.Err? <==> |metadata.ordering| != |prePrepares|
      ensures r.Err? ==> r.error == WrongPrePrepareCount(|metadata.ordering|, |prePrepares|)
      ensures r.Ok? ==> (r.value <==> IsOrdered(Data()))
    {
      if |metadata.ordering| != |prePrepares| {
        return Err(WrongPrePrepareCount(|metadata.ordering|, |prePrepares|));
      }
      for k := 0 to |metadata.ordering|
        invariant forall j :: 0 <= j < k ==> metadata.ordering[j] == prePrepares[j].header
      {
        if metadata.ordering[k] != prePrepares[k].header {
          assert Headers(prePrepares)[k] != metadata.ordering[k];
          return Ok(false);
        }
      }
      return Ok(true);
    }

    /** Put the pre-prepares into the order of the metadata: possible exactly if the digests
        agree as multisets, and then nothing is lost or invented. */
    method OrderPrePrepares() returns (r: Outcome<()>)
      modifies `prePrepares
      ensures |metadata.ordering| != |old(prePrepares)| ==>
                && r == Err(WrongPrePrepareCount(|metadata.ordering|, |old(prePrepares)|))
                && prePrepares == old(prePrepares)
      ensures |metadata.ordering| == |old(prePrepares)| ==>
                && (r.Ok? <==> multiset(Headers(old(prePrepares))) == multiset(metadata.ordering))
                && (r.Err? ==> r.error == BatchDigestsDoNotMatch)
      ensures r.Ok? ==> IsOrdered(Data()) && Permutes(prePrepares, old(prePrepares))
    {
      var ordering := metadata.ordering;
      if |ordering| != |prePrepares| {
        return Err(WrongPrePrepareCount(|ordering|, |prePrepares|));
      }
      var ordered := [];
      SortingStarts(ordering, prePrepares);
      for k := 0 to |ordering|
        invariant |prePrepares| == |ordering| - k && Sorting(ordered, prePrepares, ordering, k, old(prePrepares))
      {
        hide Sorting, Headers, SwapRemove;
        var index := FindHeader(prePrepares, ordering[k]);
        if index.None? {
          SortingFails(ordered, prePrepares, ordering, k, old(prePrepares));
          return Err(BatchDigestsDoNotMatch);
        }
        SortingGoesOn(ordered, prePrepares, ordering, k, old(prePrepares), index.value);
        var message := prePrepares[index.value];
        prePrepares := SwapRemove(prePrepares, index.value);
        ordered := ordered + [message];
      }
      SortingEnds(ordered, prePrepares, ordering, old(prePrepares));
      hide Sorting;
      prePrepares := ordered;
      return Ok(());
    }

    method IntoParts() returns (data: Metadata, messages: seq<Message>)
      ensures data == metadata && messages == prePrepares + prepares + commits
    {
      messages := [];
      for k := 0 to |prePrepares|
        invariant messages == prePrepares[..k]
      {
        messages := messages + [prePrepares[k]];
      }
      for k := 0 to |prepares|
        invariant messages == prePrepares + prepares[..k]
      {
        messages := messages + [prepares[k]];
      }
      for k := 0 to |commits|
        invariant messages == prePrepares + prepares + commits[..k]
      {
        messages := messages + [commits[k]];
      }
      return metadata, messages;
    }
  }

  lemma PrefixGrows<T>(s: seq<T>, k: nat)
    requires k < |s|
    ensures s[..k + 1] == s[..k] + [s[k]]
    ensures multiset(s) == multiset(s[..k]) + multiset{s[k]} + multiset(s[k + 1..])
  {
    assert s == s[..k] + [s[k]] + s[k + 1..];
  }

  /** A digest that is due but no longer there was there too rarely from the start. */
  lemma Missing(ordering: seq<Digest>, k: nat, left: seq<Digest>, all: seq<Digest>)
    requires k < |ordering| && ordering[k] !in left
    requires multiset(ordering[..k]) + multiset(left) == multiset(all)
    ensures multiset(all) != multiset(ordering)
  {
    PrefixGrows(ordering, k);
    assert multiset(left)[ordering[k]] == 0;
    assert multiset(ordering)[ordering[k]] >= multiset(ordering[..k])[ordering[k]] + 1;
  }

  method FindHeader(ms: seq<Message>, d: Digest) returns (r: Option<nat>)
    ensures r.Some? ==> r.value < |ms| && ms[r.value].header == d
    ensures r.None? ==> d !in Headers(ms)
  {
    for k := 0 to |ms|
      invariant forall j :: 0 <= j < k ==> ms[j].header != d
    {
      if ms[k].header == d {
        return Some(k);
      }
    }
    return None;
  }

  // From a heap of messages

  lemma {:induction false} OfKindMembers(ms: seq<Message>, t: Tag, m: Message)
    ensures m in OfKind(ms, t) <==> m in ms && TagOf(m) == t
  {
    if ms != [] {
      OfKindMembers(ms[..|ms| - 1], t, m);
      assert ms == ms[..|ms| - 1] + [ms[|ms| - 1]];
    }
  }

  lemma OfKindNext(ms: seq<Message>, i: nat, t: Tag)
    requires i < |ms|
    ensures OfKind(ms[..i + 1], t) == if TagOf(ms[i]) == t then OfKind(ms[..i], t) + [ms[i]] else OfKind(ms[..i], t)
  {
    assert ms[..i + 1][..i] == ms[..i];
  }

  lemma LastAtNext(pre: seq<Message>, m: Message, ordering: seq<Digest>, k: nat)
    ensures LastAt(pre + [m], ordering, k) ==
            if Position(ordering, m.header) == Some(k) then Some(m) else LastAt(pre, ordering, k)
  {
    assert (pre + [m])[..|pre|] == pre;
  }

  /** Each place of the ordering holds the last pre-prepare seen for it. */
  ghost predicate Placed(slots: seq<Option<Message>>, pre: seq<Message>, ordering: seq<Digest>) {
    && |slots| == |ordering|
    && (forall m :: m in pre ==> m.header in ordering)
    && (forall k :: 0 <= k < |slots| ==> slots[k] == LastAt(pre, ordering, k))
  }

  lemma PlacedNext(slots: seq<Option<Message>>, pre: seq<Message>, ordering: seq<Digest>, m: Message)
    requires Placed(slots, pre, ordering) && Position(ordering, m.header).Some?
    ensures Placed(slots[Position(ordering, m.header).value := Some(m)], pre + [m], ordering)
  {
    hide LastAt;
    forall k | 0 <= k < |slots| ensures LastAt(pre + [m], ordering, k) ==
                                        if Position(ordering, m.header) == Some(k) then Some(m) else slots[k]
    {
      LastAtNext(pre, m, ordering, k);
    }
  }

  method Place(metadata: Metadata, messages: seq<Message>)
    returns (ok: bool, slots: seq<Option<Message>>, prepares: seq<Message>, commits: seq<Message>)
    ensures ok ==> Placed(slots, OfKind(messages, PrePrepareTag), metadata.ordering)
                   && prepares == OfKind(messages, PrepareTag) && commits == OfKind(messages, CommitTag)
    ensures !ok ==> exists m :: m in OfKind(messages, PrePrepareTag) && m.header !in metadata.ordering
  {
    var ordering := metadata.ordering;
    slots, prepares, commits := seq(|ordering|, _ => None), [], [];
    for i := 0 to |messages|
      invariant Placed(slots, OfKind(messages[..i], PrePrepareTag), ordering)
      invariant prepares == OfKind(messages[..i], PrepareTag) && commits == OfKind(messages[..i], CommitTag)
    {
      var m := messages[i];
      OfKindNext(messages, i, PrePrepareTag);
      OfKindNext(messages, i, PrepareTag);
      OfKindNext(messages, i, CommitTag);
      hide OfKind, Placed, Position;
      match m.kind {
        case PrePrepare(_) =>
          var at := Position(ordering, m.header);
          if at.None? {
            OfKindMembers(messages, PrePrepareTag, m);
            return false, slots, prepares, commits;
          }
          assert at.value < |slots| by { PlacedLength(slots, OfKind(messages[..i], PrePrepareTag), ordering); }
          PlacedNext(slots, OfKind(messages[..i], PrePrepareTag), ordering, m);
          slots := slots[at.value := Some(m)];
        case Prepare(_) => prepares := prepares + [m];
        case Commit(_) => commits := commits + [m];
      }
    }
    assert messages[..|messages|] == messages;
    return true, slots, prepares, commits;
  }

  lemma PlacedLength(slots: seq<Option<Message>>, pre: seq<Message>, ordering: seq<Digest>)
    requires Placed(slots, pre, ordering)
    ensures |slots| == |ordering|
  {
  }

  /** Rebuild a proof from its messages in any order. */
  method InitFromMessages(metadata: Metadata, messages: seq<Message>) returns (r: Outcome<Proof>)
    ensures Restores(metadata, messages, match r { case Ok(p) => Ok(p.Data()) case Err(e) => Err(e) })
    ensures r.Ok? ==> fresh(r.value)
  {
    var ok, slots, prepares, commits := Place(metadata, messages);
    if !ok {
      return Err(PrePrepareNotContainedInMetadata);
    }
    hide OfKind, LastAt;
    var complete := [];
    for k := 0 to |slots|
      invariant |complete| == k && forall j :: 0 <= j < k ==> slots[j] == Some(complete[j])
    {
      if slots[k].None? {
        return Err(PrePrepareListNotComplete);
      }
      complete := complete + [slots[k].value];
    }
    var p := new Proof(metadata, complete, prepares, commits);
    return Ok(p);
  }
}
