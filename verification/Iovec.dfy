/** Scatter and gather: copying between lists of buffers in one memory. */
module Iovec {
  datatype Segment = Segment(base: nat, len: nat)

  function Run(base: int, len: nat): (r: seq<int>)
    ensures |r| == len && forall k :: 0 <= k < len ==> r[k] == base + k
  {
    seq(len, k => base + k)
  }

  /** The addresses that a list of buffers covers, in order. */
  function Addresses(iov: seq<Segment>): seq<int> {
    if iov == [] then [] else Run(iov[0].base, iov[0].len) + Addresses(iov[1..])
  }

  /** The bytes that a list of buffers holds, in order: what the list means to its owner. */
  function Flat(mem: seq<int>, iov: seq<Segment>): seq<int>
    requires InBounds(iov, |mem|)
  {
    if iov == [] then [] else mem[iov[0].base..iov[0].base + iov[0].len] + Flat(mem, iov[1..])
  }

  /** top laid over the front of under. */
  function Overlaid(under: seq<int>, top: seq<int>): seq<int>
    requires |top| <= |under|
  {
    top + under[|top|..]
  }

  predicate InBounds(iov: seq<Segment>, size: nat) {
    forall i :: 0 <= i < |iov| ==> iov[i].base + iov[i].len <= size
  }

  ghost predicate Within(addresses: seq<int>, size: nat) {
    forall k :: 0 <= k < |addresses| ==> 0 <= addresses[k] < size
  }

  /** No byte of to occurs twice in it or at all in from. */
  ghost predicate Disjoint(from: seq<int>, to: seq<int>) {
    && (forall i, j :: 0 <= i < j < |to| ==> to[i] != to[j])
    && (forall i, j :: 0 <= i < |from| && 0 <= j < |to| ==> from[i] != to[j])
  }

  lemma {:induction false} FlatIsAddressed(mem: seq<int>, iov: seq<Segment>)
    requires InBounds(iov, |mem|)
    ensures Within(Addresses(iov), |mem|) && |Flat(mem, iov)| == |Addresses(iov)|
    ensures forall k :: 0 <= k < |Addresses(iov)| ==> Flat(mem, iov)[k] == mem[Addresses(iov)[k]]
  {
    if iov != [] { FlatIsAddressed(mem, iov[1..]); }
  }

  /** `iov_length` */
  method IovLength(iov: seq<Segment>) returns (ret: nat)
    ensures ret == |Addresses(iov)|
  {
    ret := 0;
    for i := 0 to |iov|
      invariant ret + |Addresses(iov[i..])| == |Addresses(iov)|
    {
      assert iov[i..][0] == iov[i] && iov[i..][1..] == iov[i + 1..];
      ret := ret + iov[i].len;
    }
  }

  /** From position n on, the list runs over len consecutive addresses. */
  ghost predicate At(addresses: seq<int>, n: nat, base: int, len: nat) {
    n + len <= |addresses| && forall k :: n <= k < n + len ==> addresses[k] == base + (k - n)
  }

  /** A place in a list of buffers: what is left of the current one, and the ones after it. */
  class Iter {
    var iov: seq<Segment>
    var buf: int
    var len: nat

    constructor (iov: seq<Segment>)
      ensures Rest() == Addresses(iov)
    {
      this.iov := iov;
      buf, len := 0, 0;
    }

    /** The addresses still to come. */
    ghost function Rest(): seq<int>
      reads this
    {
      Run(buf, len) + Addresses(iov)
    }

    lemma Here(addresses: seq<int>, n: nat, m: nat)
      requires n <= |addresses| && addresses[n..] == Rest() && m <= len
      ensures At(addresses, n, buf, m) && n + len <= |addresses|
    {
      forall k | n <= k < n + m ensures addresses[k] == buf + (k - n) {
        assert addresses[k] == addresses[n..][k - n];
      }
    }

    /** `iov_advance`: step over used and empty buffers; then nothing is left in the current one only
        if nothing is left at all. */
    method Advance()
      modifies this
      ensures Rest() == old(Rest()) && (len == 0 <==> Rest() == [])
    {
      while len == 0 && iov != []
        invariant Rest() == old(Rest())
        decreases |iov|
      {
        buf := iov[0].base;
        len := iov[0].len;
        iov := iov[1..];
      }
    }

    method Skip(n: nat)
      requires n <= len
      modifies this
      ensures iov == old(iov) && buf == old(buf) + n && len == old(len) - n
      ensures Rest() == old(Rest())[n..]
    {
      assert Run(buf, len)[n..] == Run(buf + n, len - n);
      buf := buf + n;
      len := len - n;
    }
  }

  lemma DropDrop(s: seq<int>, m: nat, n: nat)
    requires m + n <= |s|
    ensures s[m..][n..] == s[m + n..]
  {
  }

  method Memcpy(mem: array<int>, to: int, from: int, len: nat)
    requires 0 <= to && to + len <= mem.Length && 0 <= from && from + len <= mem.Length
    requires to + len <= from || from + len <= to || len == 0
    modifies mem
    ensures forall a :: to <= a < to + len ==> mem[a] == old(mem[from + (a - to)])
    ensures forall a :: 0 <= a < mem.Length && !(to <= a < to + len) ==> mem[a] == old(mem[a])
  {
    for k := 0 to len
      invariant forall a :: to <= a < to + k ==> mem[a] == old(mem[from + (a - to)])
      invariant forall a :: 0 <= a < mem.Length && !(to <= a < to + k) ==> mem[a] == old(mem[a])
    {
      mem[to + k] := mem[from + k];
    }
  }

  /** The first n bytes of from have been copied to the first n places of to, and nothing else has
      been touched. */
  ghost predicate Copied(was: seq<int>, mem: seq<int>, from: seq<int>, to: seq<int>, n: nat)
    requires |was| == |mem| && Within(from, |was|) && Within(to, |was|) && n <= |from| && n <= |to|
  {
    && (forall k :: 0 <= k < n ==> mem[to[k]] == was[from[k]])
    && (forall a :: 0 <= a < |was| && (forall k :: 0 <= k < n ==> to[k] != a) ==> mem[a] == was[a])
  }

  lemma Apart(from: seq<int>, to: seq<int>, n: nat, src: int, dst: int, len: nat, size: nat)
    requires Within(from, size) && Within(to, size)
    requires Disjoint(from, to) && At(from, n, src, len) && At(to, n, dst, len) && len > 0
    ensures dst + len <= src || src + len <= dst
    ensures 0 <= src && src + len <= size && 0 <= dst && dst + len <= size
  {
    var i := if src <= dst < src + len then dst - src else 0;
    var j := if dst <= src < dst + len then src - dst else 0;
    assert 0 <= from[n] && from[n + len - 1] < size && 0 <= to[n] && to[n + len - 1] < size;
    assert from[n + i] != to[n] && from[n] != to[n + j];
  }

  lemma CopyStep(was: seq<int>, mid: seq<int>, mem: seq<int>, from: seq<int>, to: seq<int>, n: nat, src: int, dst: int, len: nat)
    requires |was| == |mid| == |mem| && Within(from, |was|) && Within(to, |was|) && Disjoint(from, to)
    requires At(from, n, src, len) && At(to, n, dst, len) && len > 0
    requires Copied(was, mid, from, to, n)
    requires 0 <= src && src + len <= |was| && 0 <= dst && dst + len <= |was|
    requires forall a :: dst <= a < dst + len ==> mem[a] == mid[src + (a - dst)]
    requires forall a :: 0 <= a < |was| && !(dst <= a < dst + len) ==> mem[a] == mid[a]
    ensures Copied(was, mem, from, to, n + len)
  {
    forall k | 0 <= k < n + len ensures mem[to[k]] == was[from[k]] {
      if k < n {
        var i := if dst <= to[k] < dst + len then to[k] - dst else 0;
        assert to[k] != to[n + i];
      } else {
        assert to[k] == dst + (k - n) && from[k] == src + (k - n);
        assert mid[from[k]] == was[from[k]];
      }
    }
    forall a | 0 <= a < |was| && (forall k :: 0 <= k < n + len ==> to[k] != a) ensures mem[a] == was[a] {
      var i := if dst <= a < dst + len then a - dst else 0;
      assert to[n + i] != a;
    }
  }

  lemma NoneCopied(was: seq<int>, from: seq<int>, to: seq<int>)
    requires Within(from, |was|) && Within(to, |was|)
    ensures Copied(was, was, from, to, 0)
  {
  }

  lemma AllCopied(was: seq<int>, mem: seq<int>, srciov: seq<Segment>, dstiov: seq<Segment>)
    requires |was| == |mem| && InBounds(srciov, |was|) && InBounds(dstiov, |was|)
    requires Disjoint(Addresses(srciov), Addresses(dstiov)) && |Addresses(srciov)| <= |Addresses(dstiov)|
    requires Within(Addresses(srciov), |was|) && Within(Addresses(dstiov), |was|)
    requires Copied(was, mem, Addresses(srciov), Addresses(dstiov), |Addresses(srciov)|)
    ensures |Flat(was, srciov)| <= |Flat(was, dstiov)|
    ensures Flat(mem, dstiov) == Overlaid(Flat(was, dstiov), Flat(was, srciov))
  {
    hide Flat, Addresses, Run;
    FlatIsAddressed(was, srciov);
    FlatIsAddressed(was, dstiov);
    FlatIsAddressed(mem, dstiov);
    var from, to := Addresses(srciov), Addresses(dstiov);
    forall k | |from| <= k < |to| ensures mem[to[k]] == was[to[k]] {
      assert forall j :: 0 <= j < |from| ==> to[j] != to[k];
    }
  }

  lemma Untouched(was: seq<int>, mem: seq<int>, from: seq<int>, to: seq<int>, n: nat)
    requires |was| == |mem| && Within(from, |was|) && Within(to, |was|) && n <= |from| && n <= |to|
    requires Copied(was, mem, from, to, n)
    ensures forall a :: 0 <= a < |was| && a !in to ==> mem[a] == was[a]
  {
  }

  /** `iov_copy`.  It panics exactly when the source is longer than the destination; otherwise the
      destination begins with the source's bytes, its other bytes and all other memory are as before. */
  method IovCopy(mem: array<int>, srciov: seq<Segment>, dstiov: seq<Segment>) returns (ok: bool)
    requires InBounds(srciov, mem.Length) && InBounds(dstiov, mem.Length)
    requires Disjoint(Addresses(srciov), Addresses(dstiov))
    modifies mem
    ensures ok <==> |old(Flat(mem[..], srciov))| <= |old(Flat(mem[..], dstiov))|
    ensures ok ==> Flat(mem[..], dstiov) == Overlaid(old(Flat(mem[..], dstiov)), old(Flat(mem[..], srciov)))
    ensures forall a :: 0 <= a < mem.Length && a !in Addresses(dstiov) ==> mem[a] == old(mem[a])
  {
    hide Run, Iter.Rest, Addresses, Flat, Disjoint, Copied, Within, At;
    ghost var from, to, was := Addresses(srciov), Addresses(dstiov), mem[..];
    FlatIsAddressed(was, srciov);
    FlatIsAddressed(was, dstiov);
    var src := new Iter(srciov);
    var dst := new Iter(dstiov);
    src.Advance();
    dst.Advance();
    ghost var n := 0;
    assert Copied(was, was, from, to, 0) by { NoneCopied(was, from, to); }
    assert src.Rest() == from[0..] && dst.Rest() == to[0..];
    while src.len != 0
      invariant n <= |from| && n <= |to| && src.Rest() == from[n..] && dst.Rest() == to[n..]
      invariant (src.len == 0 <==> src.Rest() == []) && (dst.len == 0 <==> dst.Rest() == [])
      invariant Copied(was, mem[..], from, to, n)
      decreases |from| - n
    {
      if dst.len == 0 {
        Untouched(was, mem[..], from, to, n);
        return false;
      }
      var len := if src.len < dst.len then src.len else dst.len;
      src.Here(from, n, len);
      dst.Here(to, n, len);
      Apart(from, to, n, src.buf, dst.buf, len, |was|);
      ghost var mid := mem[..];
      Memcpy(mem, dst.buf, src.buf, len);
      CopyStep(was, mid, mem[..], from, to, n, src.buf, dst.buf, len);
      src.Skip(len);
      dst.Skip(len);
      DropDrop(from, n, len);
      DropDrop(to, n, len);
      src.Advance();
      dst.Advance();
      n := n + len;
    }
    Untouched(was, mem[..], from, to, n);
    AllCopied(was, mem[..], srciov, dstiov);
    return true;
  }
}
