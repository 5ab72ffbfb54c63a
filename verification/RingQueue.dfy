/** The circular buffers of the user library: a queue in a fixed array that wraps around. */
module RingQueue {
  /** The place i steps after idx in an array of n cells. */
  function Cell(n: int, idx: int, i: int): int {
    if idx + i < n then idx + i else idx + i - n
  }

  /** Stepping with a remainder, as the code does, comes to the same. */
  lemma CellIsRemainder(n: int, idx: int, i: int)
    requires 0 <= idx < n && 0 <= i <= n
    ensures (idx + i) % n == if i == n then idx else Cell(n, idx, i)
  {
    var q, r := if idx + i < n then 0 else 1, if idx + i < n then idx + i else idx + i - n;
    assert n * 0 == 0 && n * 1 == n;
    Unique(n, idx + i, q, r);
  }

  lemma Unique(n: int, k: int, q: int, r: int)
    requires n > 0 && k == n * q + r && 0 <= r < n
    ensures k % n == r
  {
    var d := k / n - q;
    assert k % n == r - n * d;
    Multiple(n, d);
  }

  lemma Multiple(n: int, d: int)
    requires n > 0
    ensures (d > 0 ==> n * d >= n) && (d < 0 ==> n * d <= -n)
  {
  }

  class Queue<T(0)> {
    const arr: array<T>
    var idx: int
    var len: int

    ghost predicate Valid()
      reads this
    {
      0 <= idx < arr.Length && 0 <= len <= arr.Length
    }

    /** What is queued, oldest first. */
    ghost function Contents(): (r: seq<T>)
      requires Valid()
      reads this, arr
      ensures |r| == len
    {
      seq(len, i requires 0 <= i < len reads this, arr requires Valid() => arr[Cell(arr.Length, idx, i)])
    }

    constructor (arr: array<T>)
      requires arr.Length > 0
      ensures Valid() && Contents() == [] && this.arr == arr
    {
      this.arr := arr;
      idx, len := 0, 0;
    }

    /** Callers check that there is room. */
    method Push(v: T)
      requires Valid() && len < arr.Length
      modifies this`len, arr
      ensures Valid() && Contents() == old(Contents()) + [v]
    {
      CellIsRemainder(arr.Length, idx, len);
      ghost var before := Contents();
      arr[(idx + len) % arr.Length] := v;
      len := len + 1;
      assert forall i :: 0 <= i < len - 1 ==> Contents()[i] == before[i];
    }

    method Front() returns (v: T)
      requires Valid() && len > 0
      ensures v == Contents()[0]
    {
      v := arr[idx];
    }

    /** Callers check that there is something to take. */
    method Pop() returns (v: T)
      requires Valid() && len > 0
      modifies this`idx, this`len
      ensures Valid() && old(Contents()) == [v] + Contents()
    {
      CellIsRemainder(arr.Length, idx, 1);
      ghost var before := Contents();
      v := arr[idx];
      idx := (idx + 1) % arr.Length;
      len := len - 1;
      assert forall i :: 0 <= i < len ==> Contents()[i] == before[i + 1];
    }

    method Empty() returns (b: bool)
      requires Valid()
      ensures b <==> Contents() == []
    {
      b := len == 0;
    }

    method Full() returns (b: bool)
      requires Valid()
      ensures b <==> |Contents()| == arr.Length
    {
      b := len == arr.Length;
    }
  }
}
