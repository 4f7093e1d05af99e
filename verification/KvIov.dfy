/** Copying between value buffers and the scatter list of a command. */
module KvIov {
  import opened KvSpec
  import opened KvTable

  function Min(a: nat, b: nat): nat { if a < b then a else b }

  function Zeros(n: nat): seq<byte> { seq(n, _ => 0) }

  /** The bytes of a scatter list, one piece after the other. */
  ghost function Flat(iov: seq<array<byte>>): seq<byte>
    reads iov
  {
    if iov == [] then [] else Flat(iov[..|iov| - 1]) + iov[|iov| - 1][..]
  }

  lemma FlatTo(iov: seq<array<byte>>, i: nat)
    requires i < |iov|
    ensures Flat(iov[..i + 1]) == Flat(iov[..i]) + iov[i][..]
  {
    assert iov[..i + 1][..i] == iov[..i];
  }

  lemma {:induction false} FlatGrows(iov: seq<array<byte>>, i: nat)
    requires i <= |iov|
    ensures Flat(iov[..i]) <= Flat(iov)
    decreases |iov| - i
  {
    if i < |iov| {
      FlatTo(iov, i);
      FlatGrows(iov, i + 1);
    } else {
      assert iov[..i] == iov;
    }
  }

  /** Only pieces the list names matter. */
  twostate lemma {:induction false} FlatSame(iov: seq<array<byte>>)
    requires forall a :: a in iov ==> a[..] == old(a[..])
    ensures Flat(iov) == old(Flat(iov))
    decreases iov
  {
    if iov != [] {
      FlatSame(iov[..|iov| - 1]);
    }
  }

  /** Writing to the pieces does not change how much they hold. */
  twostate lemma {:induction false} FlatLength(iov: seq<array<byte>>)
    ensures |Flat(iov)| == old(|Flat(iov)|)
    decreases iov
  {
    if iov != [] {
      FlatLength(iov[..|iov| - 1]);
    }
  }

  /** Gather: the first bytes of the list, as many as there are up to len. */
  method IovToBuf(b: Buf, len: nat, iov: seq<array<byte>>) returns (done: nat)
    requires len <= |b.bytes|
    modifies b`bytes
    ensures done == Min(len, |Flat(iov)|)
    ensures b.bytes == Flat(iov)[..done] + old(b.bytes)[done..]
  {
    hide Flat;
    done := 0;
    var i := 0;
    assert Flat(iov[..0]) == [] by { NothingShown([], 0, iov[..0]); }
    while i < |iov| && done < len
      invariant i <= |iov| && done == Min(len, |Flat(iov[..i])|)
      invariant |b.bytes| == |old(b.bytes)| && b.bytes[..done] == Flat(iov[..i])[..done]
      invariant b.bytes[done..] == old(b.bytes)[done..]
    {
      var n := Min(iov[i].Length, len - done);
      FlatTo(iov, i);
      MoreGathered(b.bytes, Flat(iov[..i]), done, iov[i][..], n);
      b.bytes := b.bytes[..done] + iov[i][..n] + b.bytes[done + n..];
      done := done + n;
      i := i + 1;
    }
    FlatGrows(iov, i);
    assert iov[..|iov|] == iov;
    assert b.bytes == b.bytes[..done] + b.bytes[done..];
  }

  lemma MoreGathered(was: seq<byte>, flat: seq<byte>, done: nat, piece: seq<byte>, n: nat)
    requires done == |flat| && n <= |piece| && done + n <= |was| && was[..done] == flat
    ensures var now := was[..done] + piece[..n] + was[done + n..];
            && |now| == |was| && now[..done + n] == (flat + piece)[..done + n]
            && now[done + n..] == was[done..][n..] == was[done + n..]
  {}

  /** What a list of the given size shows of n bytes: those that fit, then zeros. */
  function Shown(src: seq<byte>, n: nat, size: nat): (r: seq<byte>)
    requires n <= |src|
    ensures |r| == size
  {
    if n <= size then src[..n] + Zeros(size - n) else src[..size]
  }

  /** The first bytes of a value, as many as the host's limits allow, and zeros after them. */
  function Clip(v: seq<byte>, hbs: nat, size: nat): seq<byte> {
    var n := Min(|v|, Min(hbs, size));
    v[..n] + Zeros(size - n)
  }

  /** Scatter: every byte of the list is written, with data or with zero. */
  method BufToIov(iov: seq<array<byte>>, src: seq<byte>, len: nat)
    requires len <= |src| && forall i, j :: 0 <= i < j < |iov| ==> iov[i] != iov[j]
    modifies iov
    ensures |Flat(iov)| == old(|Flat(iov)|)
    ensures Flat(iov) == Shown(src, len, |Flat(iov)|)
  {
    hide Shown, Flat;
    var done := 0;
    var i := 0;
    assert Flat(iov[..0]) == Shown(src, len, 0) by { NothingShown(src, len, iov[..0]); }
    while i < |iov|
      invariant i <= |iov| && done == Min(len, |Flat(iov[..i])|)
      invariant Flat(iov[..i]) == Shown(src, len, |Flat(iov[..i])|)
      modifies iov
    {
      var n := Min(iov[i].Length, len - done);
      ghost var before := Flat(iov[..i]);
      label L:
      CopyIn(iov[i], src, done, n);
      FlatSame@L(iov[..i]);
      FlatTo(iov, i);
      assert before == Shown(src, len, |before|);
      ShownMore(src, len, |before|, iov[i][..], n);
      done := done + n;
      i := i + 1;
    }
    assert iov[..|iov|] == iov;
    FlatLength(iov);
  }

  lemma NothingShown(src: seq<byte>, len: nat, iov: seq<array<byte>>)
    requires len <= |src| && iov == []
    ensures Flat(iov) == Shown(src, len, 0) == []
  {}

  lemma ShownMore(src: seq<byte>, len: nat, size: nat, piece: seq<byte>, n: nat)
    requires len <= |src| && n == Min(|piece|, len - Min(len, size))
    requires piece == src[Min(len, size)..Min(len, size) + n] + Zeros(|piece| - n)
    ensures Shown(src, len, size) + piece == Shown(src, len, size + |piece|)
  {}

  /** memcpy of n bytes and memset of the rest. */
  method CopyIn(a: array<byte>, src: seq<byte>, off: nat, n: nat)
    requires off + n <= |src| && n <= a.Length
    modifies a
    ensures a[..] == src[off..off + n] + Zeros(a.Length - n)
  {
    forall k | 0 <= k < a.Length {
      a[k] := if k < n then src[off + k] else 0;
    }
  }
}
