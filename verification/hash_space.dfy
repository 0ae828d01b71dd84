/**
 Division of the digest space among the leaders of a view. Bounds travel as
 big-endian byte strings; a slice is the closed interval between its two bounds.
 */
module HashSpace {
  import opened Messages

  type Bytes = seq<Byte>
  type Slice = (Bytes, Bytes)

  // Big-endian numbers

  function FromBytes(b: Bytes): nat {
    if b == [] then 0 else FromBytes(b[..|b| - 1]) * 256 + b[|b| - 1]
  }

  function ToBytes(n: nat): Bytes {
    if n < 256 then [n] else ToBytes(n / 256) + [n % 256]
  }

  function Pow256(w: nat): (p: nat)
    ensures p >= 1
  {
    if w == 0 then 1 else 256 * Pow256(w - 1)
  }

  lemma {:induction false} BytesRoundTrip(n: nat)
    ensures FromBytes(ToBytes(n)) == n
  {
    if n >= 256 {
      BytesRoundTrip(n / 256);
      var b := ToBytes(n);
      assert b[..|b| - 1] == ToBytes(n / 256);
    } else {
      var b: Bytes := [n];
      assert FromBytes(b[..0]) == 0;
    }
  }

  lemma {:induction false} FromBytesBound(b: Bytes)
    ensures FromBytes(b) < Pow256(|b|)
  {
    if b != [] {
      FromBytesBound(b[..|b| - 1]);
    }
  }

  function AllOnes(width: nat): (b: Bytes)
    ensures |b| == width
  {
    seq(width, _ => 0xFF)
  }

  lemma {:induction false} AllOnesIsLargest(width: nat)
    ensures FromBytes(AllOnes(width)) == Pow256(width) - 1
  {
    if width > 0 {
      AllOnesIsLargest(width - 1);
      assert AllOnes(width)[..width - 1] == AllOnes(width - 1);
    }
  }

  // The division

  function Largest(width: nat): nat {
    Pow256(width) - 1
  }

  function Stride(width: nat, count: nat): nat
    requires count >= 1
  {
    Largest(width) / count + 1
  }

  function Start(width: nat, count: nat, k: nat): nat
    requires count >= 1
  {
    k * Stride(width, count)
  }

  function End(width: nat, count: nat, k: nat): nat
    requires k < count
  {
    if k == count - 1 then Largest(width) else Start(width, count, k) + Stride(width, count) - 1
  }

  function Slices(width: nat, count: nat): (s: seq<Slice>)
    requires count >= 1
    ensures |s| == count
  {
    seq(count, k requires 0 <= k < count => (ToBytes(Start(width, count, k)), ToBytes(End(width, count, k))))
  }

  predicate InSlice(digest: Bytes, slice: Slice) {
    FromBytes(slice.0) <= FromBytes(digest) <= FromBytes(slice.1)
  }

  method DivideHashSpace(width: nat, count: nat) returns (slices: seq<Slice>)
    requires count >= 1
    ensures slices == Slices(width, count)
  {
    var start := 0;
    var end := FromBytes(AllOnes(width));
    AllOnesIsLargest(width);
    var increment := end / count;
    slices := [];
    for i := 1 to count + 1
      invariant start == Start(width, count, i - 1)
      invariant slices == Slices(width, count)[..i - 1]
    {
      var sliceStart := ToBytes(start);
      start := start + increment;
      var sliceEnd := if i == count then ToBytes(end) else ToBytes(start);
      start := start + 1;
      assert Slices(width, count)[i - 1] == (sliceStart, sliceEnd);
      slices := slices + [(sliceStart, sliceEnd)];
    }
  }

  /** The slice a number falls in. */
  function OwnerOf(width: nat, count: nat, x: nat): nat
    requires count >= 1
  {
    if x / Stride(width, count) < count - 1 then x / Stride(width, count) else count - 1
  }

  lemma DivideBounds(x: nat, d: nat, k: nat)
    requires d >= 1
    ensures k * d <= x < k * d + d <==> x / d == k
    ensures k <= x / d <==> k * d <= x
  {
    var q := x / d;
    assert q * d <= x < q * d + d;
    if k < q {
      assert (k + 1) * d <= q * d;
    } else if k > q {
      assert (q + 1) * d <= k * d;
    }
  }

  /** Every digest lies in exactly one slice, for every width and every count, also
      when there are more leaders than digests. */
  lemma EachDigestInExactlyOneSlice(width: nat, count: nat, digest: Bytes, k: nat)
    requires count >= 1 && |digest| == width && k < count
    ensures OwnerOf(width, count, FromBytes(digest)) < count
    ensures InSlice(digest, Slices(width, count)[k]) <==> k == OwnerOf(width, count, FromBytes(digest))
  {
    var x, d := FromBytes(digest), Stride(width, count);
    FromBytesBound(digest);
    BytesRoundTrip(Start(width, count, k));
    BytesRoundTrip(End(width, count, k));
    DivideBounds(x, d, k);
  }

  /** A slice is empty exactly when it is the last one and the even strides have
      already used up the space. */
  lemma NoSliceEmptyExactly(width: nat, count: nat)
    requires count >= 1
    ensures (forall k :: 0 <= k < count ==> Start(width, count, k) <= End(width, count, k))
            <==> Largest(width) / count + Largest(width) % count >= count - 1
  {
    var q, r := Largest(width) / count, Largest(width) % count;
    assert Largest(width) == count * q + r;
    assert Start(width, count, count - 1) == count * q + count - q - 1 by {
      assert (count - 1) * (q + 1) == count * q + count - q - 1;
    }
  }

  /** Seventeen leaders leave nothing of a one-byte space to the last of them. */
  lemma LastSliceMayBeEmpty(digest: Bytes)
    requires |digest| == 1
    ensures Start(1, 17, 16) > End(1, 17, 16) && !InSlice(digest, Slices(1, 17)[16])
  {
    assert Pow256(0) == 1;
    assert Largest(1) == 255;
    BytesRoundTrip(Start(1, 17, 16));
    BytesRoundTrip(End(1, 17, 16));
  }

  function Size(width: nat, count: nat, k: nat): int
    requires k < count
  {
    End(width, count, k) - Start(width, count, k) + 1
  }

  /** Slices are even: any two differ by less than the number of leaders. */
  lemma SlicesAreEven(width: nat, count: nat, j: nat, k: nat)
    requires j < count && k < count
    ensures Size(width, count, j) < Size(width, count, k) + count
  {
    var q, r := Largest(width) / count, Largest(width) % count;
    assert Largest(width) == count * q + r;
    assert Start(width, count, count - 1) == count * q + count - q - 1 by {
      assert (count - 1) * (q + 1) == count * q + count - q - 1;
    }
  }

  /** Quadratically many digests are enough for every leader to get some. */
  lemma LargeSpaceLeavesNoSliceEmpty(width: nat, count: nat)
    requires count >= 1 && Largest(width) >= count * (count - 1)
    ensures forall k :: 0 <= k < count ==> Start(width, count, k) <= End(width, count, k)
  {
    DivideBounds(Largest(width), count, count - 1);
    NoSliceEmptyExactly(width, count);
  }

  // Slices by leader

  ghost predicate Distinct(nodes: seq<Node>) {
    forall a, b :: 0 <= a < b < |nodes| ==> nodes[a] != nodes[b]
  }

  function Division(width: nat, leaders: seq<Node>): (m: map<Node, Slice>)
    requires leaders != []
    ensures m.Keys == set n | n in leaders
  {
    map n | n in leaders :: Slices(width, |leaders|)[LastIndex(leaders, n)]
  }

  function LastIndex(nodes: seq<Node>, n: Node): (k: nat)
    requires n in nodes
    ensures k < |nodes| && nodes[k] == n
    ensures forall j :: k < j < |nodes| ==> nodes[j] != n
  {
    if nodes[|nodes| - 1] == n then |nodes| - 1
    else
      assert n in nodes[..|nodes| - 1];
      LastIndex(nodes[..|nodes| - 1], n)
  }

  method CalculateHashSpaceDivision(width: nat, leaders: seq<Node>) returns (m: map<Node, Slice>)
    requires leaders != []
    ensures m == Division(width, leaders)
  {
    var slices := DivideHashSpace(width, |leaders|);
    m := map[];
    for i := 0 to |leaders|
      invariant m.Keys == set n | n in leaders[..i]
      invariant forall n :: n in leaders[..i] ==> m[n] == slices[LastIndex(leaders[..i], n)]
    {
      assert leaders[..i + 1] == leaders[..i] + [leaders[i]];
      forall n | n in leaders[..i] && n != leaders[i]
        ensures LastIndex(leaders[..i + 1], n) == LastIndex(leaders[..i], n)
      {
        assert leaders[..i + 1][..i] == leaders[..i];
      }
      m := m[leaders[i] := slices[i]];
    }
    assert leaders[..|leaders|] == leaders;
  }

  /** With distinct leaders, exactly one leader may propose a given request. */
  lemma OneLeaderPerRequest(width: nat, leaders: seq<Node>, digest: Bytes)
    requires leaders != [] && Distinct(leaders) && |digest| == width
    ensures exists n :: n in leaders && InSlice(digest, Division(width, leaders)[n])
    ensures forall a, b | a in leaders && b in leaders ::
              InSlice(digest, Division(width, leaders)[a]) && InSlice(digest, Division(width, leaders)[b])
              ==> a == b
  {
    var count := |leaders|;
    var owner := OwnerOf(width, count, FromBytes(digest));
    forall n | n in leaders
      ensures InSlice(digest, Division(width, leaders)[n]) <==> LastIndex(leaders, n) == owner
    {
      EachDigestInExactlyOneSlice(width, count, digest, LastIndex(leaders, n));
    }
    EachDigestInExactlyOneSlice(width, count, digest, 0);
    assert LastIndex(leaders, leaders[owner]) == owner;
    assert leaders[owner] in leaders;
  }
}
