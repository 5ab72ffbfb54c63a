/** Open-addressing hash tables with linear probing and tombstones, for any hash function and any
    number of cells. */
module HashTable {
  const HT_NOKEY := -1

  /** One cell.  It is unused until first activated; a deleted cell stays on the probe paths. */
  datatype Item<V> = Item(key: int, value: V, deleted: bool, valid: bool)

  predicate Active<V>(item: Item<V>) {
    item.valid && !item.deleted
  }

  /** The j-th cell of a probe that starts at start. */
  function Cell(n: int, start: int, j: int): int {
    if start + j < n then start + j else start + j - n
  }

  /** How many steps lead from start to cell i. */
  function Steps(n: int, start: int, i: int): int {
    if i >= start then i - start else i - start + n
  }

  /** The cells before cell i on the probe from start have all been used. */
  ghost predicate Reached<V>(items: seq<Item<V>>, start: int, i: int)
    requires 0 <= start < |items| && 0 <= i < |items|
  {
    forall j :: 0 <= j < Steps(|items|, start, i) ==> items[Cell(|items|, start, j)].valid
  }

  function Home(hash: int -> nat, n: nat, key: int): (i: nat)
    requires n > 0
    ensures i < n
  {
    hash(key) % n
  }

  ghost predicate DistinctKeys<V>(items: seq<Item<V>>) {
    forall i, j :: 0 <= i < j < |items| && Active(items[i]) && Active(items[j]) ==> items[i].key != items[j].key
  }

  /** Active keys occur once, each reachable along used cells from where its probe starts. */
  ghost predicate WellFormed<V>(items: seq<Item<V>>, hash: int -> nat) {
    && |items| > 0 && DistinctKeys(items)
    && (forall i :: 0 <= i < |items| && Active(items[i]) ==> Reached(items, Home(hash, |items|, items[i].key), i))
  }

  lemma KeysDistinct<V>(items: seq<Item<V>>, hash: int -> nat)
    requires WellFormed(items, hash)
    ensures DistinctKeys(items)
  {
  }

  ghost predicate HasKey<V>(items: seq<Item<V>>, key: int) {
    exists i :: 0 <= i < |items| && Active(items[i]) && items[i].key == key
  }

  ghost predicate AllUsed<V>(items: seq<Item<V>>) {
    forall i :: 0 <= i < |items| ==> items[i].valid
  }

  /** Cell i may be given to key: it is free, on the probe path of key, and key is nowhere else. */
  ghost predicate Reserved<V>(items: seq<Item<V>>, hash: int -> nat, key: int, i: int) {
    && 0 <= i < |items| && !Active(items[i]) && !HasKey(items, key) && Reached(items, Home(hash, |items|, key), i)
  }

  /** What reserve may answer: the cell that holds key, or one that may be given to it. */
  ghost predicate GivenTo<V>(items: seq<Item<V>>, hash: int -> nat, key: int, i: int) {
    0 <= i < |items| && if Active(items[i]) then items[i].key == key else Reserved(items, hash, key, i)
  }

  /** The finite map that a table stands for. */
  ghost function Contents<V>(items: seq<Item<V>>): (m: map<int, V>)
    requires DistinctKeys(items)
    ensures forall k {:trigger k in m} {:trigger HasKey(items, k)} :: k in m <==> HasKey(items, k)
    ensures forall i :: 0 <= i < |items| && Active(items[i]) ==> items[i].key in m && m[items[i].key] == items[i].value
  {
    if items == [] then map[]
    else
      var last := items[|items| - 1];
      var m := Contents(items[..|items| - 1]);
      assert forall k :: HasKey(items, k) <==> HasKey(items[..|items| - 1], k) || (Active(last) && last.key == k) by {
        assert forall i :: 0 <= i < |items| - 1 ==> items[..|items| - 1][i] == items[i];
      }
      if Active(last) then m[last.key := last.value] else m
  }

  lemma {:induction false} NoKeys<V>(items: seq<Item<V>>)
    requires forall i :: 0 <= i < |items| ==> !Active(items[i])
    ensures Contents(items) == map[]
  {
    if items != [] { NoKeys(items[..|items| - 1]); }
  }

  /** What a probe for key knows after passing j cells. */
  ghost predicate Passed<V>(items: seq<Item<V>>, start: int, key: int, j: int)
    requires 0 <= start < |items| && 0 <= j <= |items|
  {
    forall d :: 0 <= d < j ==>
      var item := items[Cell(|items|, start, d)]; item.valid && !(Active(item) && item.key == key)
  }

  /** A cell that is reached from start lies no further than the first unused cell. */
  lemma NotBeyond<V>(items: seq<Item<V>>, start: int, i: int, j: int)
    requires 0 <= start < |items| && 0 <= i < |items| && 0 <= j
    ensures Reached(items, start, i) ==> Steps(|items|, start, i) <= j || items[Cell(|items|, start, j)].valid
  {
  }

  /** A probe that stops at an unused cell, or after all cells, has missed nothing. */
  lemma ProbeMissed<V>(items: seq<Item<V>>, hash: int -> nat, key: int, j: int)
    requires WellFormed(items, hash) && 0 <= j <= |items| && Passed(items, Home(hash, |items|, key), key, j)
    requires j == |items| || !items[Cell(|items|, Home(hash, |items|, key), j)].valid
    ensures !HasKey(items, key)
  {
    var n, start := |items|, Home(hash, |items|, key);
    forall i | 0 <= i < n && Active(items[i]) ensures items[i].key != key {
      var d := Steps(n, start, i);
      assert Cell(n, start, d) == i;
      assert Reached(items, Home(hash, n, items[i].key), i);
      NotBeyond(items, start, i, j);
    }
  }

  lemma PassedReaches<V>(items: seq<Item<V>>, start: int, key: int, j: int)
    requires 0 <= start < |items| && 0 <= j < |items| && Passed(items, start, key, j)
    ensures forall d :: 0 <= d <= j ==> Reached(items, start, Cell(|items|, start, d))
  {
    forall d | 0 <= d <= j ensures Reached(items, start, Cell(|items|, start, d)) {
      assert Steps(|items|, start, Cell(|items|, start, d)) == d;
    }
  }

  lemma AllPassed<V>(items: seq<Item<V>>, start: int, key: int)
    requires 0 <= start < |items| && Passed(items, start, key, |items|)
    ensures AllUsed(items)
  {
    forall i | 0 <= i < |items| ensures items[i].valid {
      assert Cell(|items|, start, Steps(|items|, start, i)) == i;
    }
  }

  // ----- What the callers do with a cell -----

  /** Filling in and activating a reserved cell adds the key. */
  lemma Activated<V>(items: seq<Item<V>>, hash: int -> nat, key: int, value: V, i: int)
    requires WellFormed(items, hash) && Reserved(items, hash, key, i)
    ensures var r := items[i := Item(key, value, false, true)];
            WellFormed(r, hash) && Contents(r) == Contents(items)[key := value]
  {
    var r := items[i := Item(key, value, false, true)];
    assert forall j :: 0 <= j < |items| && j != i ==> r[j] == items[j];
    forall j | 0 <= j < |r| && Active(r[j]) ensures Reached(r, Home(hash, |r|, r[j].key), j) {
      if j != i { assert Reached(items, Home(hash, |items|, items[j].key), j); }
    }
    forall j, k | 0 <= j < k < |r| && Active(r[j]) && Active(r[k]) ensures r[j].key != r[k].key {
      assert j != i ==> Active(items[j]) && items[j].key != key;
      assert k != i ==> Active(items[k]) && items[k].key != key;
    }
    SameMap(Contents(r), Contents(items)[key := value], items, r, key, i);
  }

  lemma SameMap<V>(m: map<int, V>, m': map<int, V>, items: seq<Item<V>>, r: seq<Item<V>>, key: int, i: int)
    requires 0 <= i < |items| && |r| == |items| && !Active(items[i]) && Active(r[i]) && r[i].key == key && !HasKey(items, key)
    requires forall j :: 0 <= j < |items| && j != i ==> r[j] == items[j]
    requires forall k :: k in m <==> HasKey(r, k)
    requires forall j :: 0 <= j < |r| && Active(r[j]) ==> r[j].key in m && m[r[j].key] == r[j].value
    requires forall k :: k in m' <==> HasKey(items, k) || k == key
    requires forall j :: 0 <= j < |items| && Active(items[j]) ==> items[j].key in m' && m'[items[j].key] == items[j].value
    requires key in m' && m'[key] == r[i].value
    ensures m == m'
  {
    forall k ensures k in m <==> k in m' {
      if HasKey(items, k) { var j :| 0 <= j < |items| && Active(items[j]) && items[j].key == k; assert Active(r[j]); }
      if HasKey(r, k) { var j :| 0 <= j < |r| && Active(r[j]) && r[j].key == k; assert j != i ==> Active(items[j]); }
    }
    forall k | k in m ensures m[k] == m'[k] {
      var j :| 0 <= j < |r| && Active(r[j]) && r[j].key == k;
    }
  }

  /** Deleting an active cell removes its key, and leaves every reservation good. */
  lemma Deleted<V>(items: seq<Item<V>>, hash: int -> nat, i: int)
    requires WellFormed(items, hash) && 0 <= i < |items| && Active(items[i])
    ensures var r := items[i := items[i].(deleted := true)];
            && WellFormed(r, hash) && Contents(r) == Contents(items) - {items[i].key}
            && (forall key, j :: Reserved(items, hash, key, j) ==> Reserved(r, hash, key, j))
  {
    var r := items[i := items[i].(deleted := true)];
    forall j, start | 0 <= j < |items| && 0 <= start < |items| && Reached(items, start, j) ensures Reached(r, start, j) {}
    forall k | HasKey(r, k) ensures HasKey(items, k) {
      var j :| 0 <= j < |r| && Active(r[j]) && r[j].key == k;
      assert Active(items[j]);
    }
    var m, m' := Contents(r), Contents(items) - {items[i].key};
    forall k ensures k in m <==> k in m' {
      if k in m' { var j :| 0 <= j < |items| && Active(items[j]) && items[j].key == k; assert Active(r[j]); }
      if k in m { var j :| 0 <= j < |r| && Active(r[j]) && r[j].key == k; assert j != i && Active(items[j]); }
    }
    forall k | k in m ensures m[k] == m'[k] {
      var j :| 0 <= j < |r| && Active(r[j]) && r[j].key == k;
      assert Active(items[j]);
    }
  }

  // ----- The table -----

  class Table<V(0)> {
    const arr: array<Item<V>>
    const hash: int -> nat

    ghost predicate Valid()
      reads arr
    {
      WellFormed(arr[..], hash)
    }

    /** `hashtable_init` */
    constructor (arr: array<Item<V>>, hash: int -> nat)
      requires arr.Length > 0
      modifies arr
      ensures this.arr == arr && this.hash == hash && Valid() && Contents(arr[..]) == map[]
    {
      this.arr := arr;
      this.hash := hash;
      new;
      var i := 0;
      while i < arr.Length
        invariant 0 <= i <= arr.Length && forall j :: 0 <= j < i ==> !arr[j].valid
      {
        arr[i] := arr[i].(valid := false);
        i := i + 1;
      }
      NoKeys(arr[..]);
    }

    /** `hashtable_get`: the cell of an active key, or none exactly when the key is not in the table. */
    method Get(key: int) returns (r: int)
      requires Valid()
      ensures r == HT_NOKEY <==> key !in Contents(arr[..])
      ensures r != HT_NOKEY ==> 0 <= r < arr.Length && Active(arr[r]) && arr[r].key == key && arr[r].value == Contents(arr[..])[key]
    {
      ghost var items := arr[..];
      var i: int := Home(hash, arr.Length, key);
      var count := arr.Length;
      ghost var start := i;
      while arr[i].valid
        invariant 0 < count <= arr.Length && i == Cell(arr.Length, start, arr.Length - count)
        invariant 0 <= i < arr.Length && Passed(items, start, key, arr.Length - count)
        decreases count
      {
        if !arr[i].deleted && arr[i].key == key {
          assert Active(items[i]);
          return i;
        }
        i := i + 1;
        count := count - 1;
        if i >= arr.Length { i := i - arr.Length; }
        if count == 0 {
          ProbeMissed(items, hash, key, arr.Length);
          return HT_NOKEY;
        }
      }
      ProbeMissed(items, hash, key, arr.Length - count);
      return HT_NOKEY;
    }

    /** `hashtable_reserve`: the cell of an active key, else one to put it in; it fails exactly when
        the key is absent and every cell has been used, tombstones included. */
    method Reserve(key: int) returns (r: int)
      requires Valid()
      ensures r == HT_NOKEY <==> key !in Contents(arr[..]) && AllUsed(arr[..])
      ensures r != HT_NOKEY ==> 0 <= r < arr.Length && GivenTo(arr[..], hash, key, r)
    {
      ghost var items := arr[..];
      var i: int := Home(hash, arr.Length, key);
      var count := arr.Length;
      var firstDeleted := -1;
      ghost var start := i;
      while arr[i].valid
        invariant 0 < count <= arr.Length && i == Cell(arr.Length, start, arr.Length - count)
        invariant 0 <= i < arr.Length && Passed(items, start, key, arr.Length - count)
        invariant firstDeleted >= 0 ==> firstDeleted < arr.Length && !Active(arr[firstDeleted]) && Reached(items, start, firstDeleted)
        decreases count
      {
        if !arr[i].deleted && arr[i].key == key {
          assert Active(items[i]);
          return i;
        }
        PassedReaches(items, start, key, arr.Length - count);
        if arr[i].deleted && firstDeleted < 0 { firstDeleted := i; }
        i := i + 1;
        count := count - 1;
        if i >= arr.Length { i := i - arr.Length; }
        if count == 0 {
          ProbeMissed(items, hash, key, arr.Length);
          AllPassed(items, start, key);
          return HT_NOKEY;
        }
      }
      ProbeMissed(items, hash, key, arr.Length - count);
      PassedReaches(items, start, key, arr.Length - count);
      assert !items[i].valid;
      if firstDeleted < 0 { return i; }
      return firstDeleted;
    }

    /** `delete_ht_item` */
    method Delete(i: int)
      requires Valid() && 0 <= i < arr.Length && Active(arr[i])
      modifies arr
      ensures Valid() && arr[..] == old(arr[..])[i := old(arr[i]).(deleted := true)]
      ensures Contents(arr[..]) == old(Contents(arr[..])) - {old(arr[i].key)}
      ensures forall key, j :: old(Reserved(arr[..], hash, key, j)) ==> Reserved(arr[..], hash, key, j)
    {
      Deleted(arr[..], hash, i);
      arr[i] := arr[i].(deleted := true);
    }

    /** The callers' way to add a key: fill in a reserved cell, then `activate_ht_item`. */
    method Put(i: int, key: int, value: V)
      requires Valid() && Reserved(arr[..], hash, key, i)
      modifies arr
      ensures Valid() && arr[..] == old(arr[..])[i := Item(key, value, false, true)]
      ensures Contents(arr[..]) == old(Contents(arr[..]))[key := value]
    {
      Activated(arr[..], hash, key, value, i);
      arr[i] := arr[i].(key := key);
      arr[i] := arr[i].(value := value);
      // activate_ht_item
      arr[i] := arr[i].(valid := true, deleted := false);
    }
  }
}
