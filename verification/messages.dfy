/**
 The vocabulary of the protocol: nodes, client requests, digests and the three
 kinds of consensus message.
 */
module Messages {

  datatype Option<+T> = None | Some(value: T)

  type Node = nat

  type Byte = b: int | 0 <= b < 256

  datatype Request = Request(client: Node, session: nat, seqNo: nat, digest: seq<Byte>, operation: nat)

  /** What the protocol remembers about a request once its payload is put aside. */
  datatype RequestInfo = RequestInfo(digest: seq<Byte>, sender: Node, seqNo: nat, session: nat)

  function InfoOf(r: Request): RequestInfo {
    RequestInfo(r.digest, r.client, r.seqNo, r.session)
  }

  function InfosOf(rs: seq<Request>): seq<RequestInfo> {
    seq(|rs|, k requires 0 <= k < |rs| => InfoOf(rs[k]))
  }

  /** The info is about the request: same client and session, same number, same digest. */
  predicate Describes(info: RequestInfo, r: Request) {
    info.sender == r.client && info.session == r.session && info.seqNo == r.seqNo && info.digest == r.digest
  }

  predicate DescribesAll(infos: seq<RequestInfo>, rs: seq<Request>) {
    |infos| == |rs| && forall k :: 0 <= k < |rs| ==> Describes(infos[k], rs[k])
  }

  /** Infos tell requests apart by what they describe, and by nothing else. */
  lemma InfosDescribeExactly(infos: seq<RequestInfo>, rs: seq<Request>)
    ensures DescribesAll(infos, rs) <==> infos == InfosOf(rs)
  {
  }

  /** An ideal hash: distinct contents have distinct digests. `Other` stands for
      every digest that is not the hash of something the protocol hashes. */
  datatype Digest =
    | OfProposal(nonce: nat, view: nat, seqNo: nat, requests: seq<Request>)
    | OfBatch(parts: seq<Digest>)
    | Other(id: nat)

  datatype Kind =
    | PrePrepare(requests: seq<Request>)
    | Prepare(digest: Digest)
    | Commit(digest: Digest)

  /** A consensus message with the part of its wire header that the protocol reads. */
  datatype Message = Message(from: Node, seqNo: nat, view: nat, kind: Kind, header: Digest)

  /** The wire layer rejects a message whose header digest is not the hash of its content. */
  predicate Authentic(m: Message) {
    m.kind.PrePrepare? ==>
      && m.header.OfProposal?
      && m.header.view == m.view
      && m.header.seqNo == m.seqNo
      && m.header.requests == m.kind.requests
  }

  datatype Tag = PrePrepareTag | PrepareTag | CommitTag

  function TagOf(m: Message): Tag {
    match m.kind
    case PrePrepare(_) => PrePrepareTag
    case Prepare(_) => PrepareTag
    case Commit(_) => CommitTag
  }

  /** One value for each kind of consensus message. */
  datatype PerKind<T> = PerKind(pre: T, prep: T, com: T) {
    function Get(t: Tag): T {
      match t
      case PrePrepareTag => pre
      case PrepareTag => prep
      case CommitTag => com
    }

    function Set(t: Tag, v: T): PerKind<T> {
      match t
      case PrePrepareTag => this.(pre := v)
      case PrepareTag => this.(prep := v)
      case CommitTag => this.(com := v)
    }
  }

  // Logs of votes

  ghost predicate DistinctSenders(log: seq<Message>) {
    forall a, b :: 0 <= a < b < |log| ==> log[a].from != log[b].from
  }

  function Senders(log: seq<Message>): set<Node> {
    if log == [] then {} else Senders(log[..|log| - 1]) + {log[|log| - 1].from}
  }

  predicate Voted(log: seq<Message>, n: Node) {
    n in Senders(log)
  }

  lemma {:induction false} SendersAre(log: seq<Message>)
    ensures forall k :: 0 <= k < |log| ==> log[k].from in Senders(log)
    ensures forall n :: n in Senders(log) ==> exists k :: 0 <= k < |log| && log[k].from == n
  {
    if log != [] {
      var rest, last := log[..|log| - 1], log[|log| - 1];
      SendersAre(rest);
      assert Senders(log) == Senders(rest) + {last.from};
      hide Senders;
      assert forall k :: 0 <= k < |rest| ==> rest[k] == log[k];
      forall n | n in Senders(log) ensures exists k :: 0 <= k < |log| && log[k].from == n {
        if n == last.from {
          assert log[|log| - 1].from == n;
        } else {
          assert n in Senders(rest);
          var k :| 0 <= k < |rest| && rest[k].from == n;
          assert log[k].from == n;
        }
      }
    }
  }

  lemma {:induction false} SendersCount(log: seq<Message>)
    requires DistinctSenders(log)
    ensures |Senders(log)| == |log|
  {
    if log != [] {
      var rest := log[..|log| - 1];
      SendersCount(rest);
      SendersAre(rest);
    }
  }

  lemma SendersAppend(log: seq<Message>, m: Message)
    ensures Senders(log + [m]) == Senders(log) + {m.from}
    ensures DistinctSenders(log) && !Voted(log, m.from) ==> DistinctSenders(log + [m])
  {
    assert (log + [m])[..|log|] == log;
    SendersAre(log);
  }
}
