/** The address cache of the network server: a hash table from addresses to cells of an array of
    hardware addresses, with a queue that remembers the order in which addresses came in. */
module ArpCache {
  import opened Seqs
  import opened HashTable
  import RingQueue

  /** A hardware address: six bytes, read as one number. */
  type Mac = nat

  datatype Entry = Entry(addr: int, mac: Mac)

  /** The cache as its users see it: its entries, oldest first. */
  type Cache = seq<Entry>

  ghost predicate Knows(c: Cache, addr: int) {
    exists k :: 0 <= k < |c| && c[k].addr == addr
  }

  /** Storing a pair: an address already known keeps its age; when the cache is full the entry that
      came in first makes room. */
  ghost function Stored(c: Cache, capacity: int, addr: int, mac: Mac): Cache {
    if Knows(c, addr) then seq(|c|, k requires 0 <= k < |c| => if c[k].addr == addr then Entry(addr, mac) else c[k])
    else if |c| == capacity && c != [] then c[1..] + [Entry(addr, mac)]
    else c + [Entry(addr, mac)]
  }

  // ----- What the cache remembers of what was stored -----

  /** The cache after all these pairs have been stored, one after the other. */
  ghost function StoredAll(capacity: int, pairs: seq<Entry>): Cache {
    if pairs == [] then []
    else
      var last := pairs[|pairs| - 1];
      Stored(StoredAll(capacity, pairs[..|pairs| - 1]), capacity, last.addr, last.mac)
  }

  /** The pair was stored, and its address not again later. */
  ghost predicate Newest(pairs: seq<Entry>, e: Entry) {
    exists i :: 0 <= i < |pairs| && pairs[i] == e && forall j :: i < j < |pairs| ==> pairs[j].addr != e.addr
  }

  lemma NewestStill(pairs: seq<Entry>, e: Entry, last: Entry)
    ensures Newest(pairs + [last], last)
    ensures Newest(pairs, e) && e.addr != last.addr ==> Newest(pairs + [last], e)
  {
    var all := pairs + [last];
    assert all[|pairs|] == last;
    if Newest(pairs, e) && e.addr != last.addr {
      var i :| 0 <= i < |pairs| && pairs[i] == e && forall j :: i < j < |pairs| ==> pairs[j].addr != e.addr;
      assert all[i] == e && forall j :: i < j < |all| ==> all[j].addr != e.addr;
    }
  }

  /** Whatever the cache holds of an address is what was stored last for it. */
  lemma {:induction false} HoldsNewest(capacity: int, pairs: seq<Entry>, k: nat)
    requires k < |StoredAll(capacity, pairs)|
    ensures Newest(pairs, StoredAll(capacity, pairs)[k])
  {
    var front, last := pairs[..|pairs| - 1], pairs[|pairs| - 1];
    var c := StoredAll(capacity, front);
    assert pairs == front + [last];
    forall e ensures Newest(pairs, last) && (Newest(front, e) && e.addr != last.addr ==> Newest(pairs, e)) {
      NewestStill(front, e, last);
    }
    forall i | 0 <= i < |c| ensures Newest(front, c[i]) { HoldsNewest(capacity, front, i); }
    hide Newest;
    var e := StoredAll(capacity, pairs)[k];
    if Knows(c, last.addr) {
      assert e == if c[k].addr == last.addr then last else c[k];
    } else {
      assert e == last || e in c;
    }
  }

  /** The last of the pairs, at most n. */
  function Last(pairs: seq<Entry>, n: nat): seq<Entry> {
    if |pairs| <= n then pairs else pairs[|pairs| - n..]
  }

  ghost predicate Different(pairs: seq<Entry>) {
    forall i, j :: 0 <= i < j < |pairs| ==> pairs[i].addr != pairs[j].addr
  }

  lemma StoredLast(capacity: nat, front: seq<Entry>, last: Entry)
    requires capacity > 0 && Different(front + [last])
    ensures Different(front) && Stored(Last(front, capacity), capacity, last.addr, last.mac) == Last(front + [last], capacity)
  {
    var c, all := Last(front, capacity), front + [last];
    assert forall k :: 0 <= k < |front| ==> all[k] == front[k];
    assert !Knows(c, last.addr) by {
      forall k | 0 <= k < |c| ensures c[k].addr != last.addr { assert c[k] == all[|front| - |c| + k] && all[|front|] == last; }
    }
    hide Knows, Different;
    assert Last(all, capacity) == if |front| < capacity then front + [last] else front[|front| - capacity + 1..] + [last];
  }

  /** Of different addresses stored one after the other the cache holds exactly the last ones, as many as
      there is room for, in that order. */
  lemma {:induction false} HoldsLast(capacity: nat, pairs: seq<Entry>)
    requires capacity > 0 && Different(pairs)
    ensures StoredAll(capacity, pairs) == Last(pairs, capacity)
  {
    if pairs != [] {
      hide Different, Last, Stored;
      var front, last := pairs[..|pairs| - 1], pairs[|pairs| - 1];
      assert pairs == front + [last];
      StoredLast(capacity, front, last);
      HoldsLast(capacity, front);
    } else {
      assert Last(pairs, capacity) == [];
    }
  }

  ghost predicate Owned(slots: map<int, int>, k: int) {
    exists a :: a in slots && slots[a] == k
  }

  /** The queue lists exactly the addresses of the table, once each, and their cells in the array are
      exactly the first ones, no two addresses sharing a cell. */
  ghost predicate Consistent(order: seq<int>, slots: map<int, int>, capacity: int) {
    && |order| <= capacity && NoDup(order)
    && (forall k :: 0 <= k < |order| ==> order[k] in slots && 0 <= slots[order[k]] < |order|)
    && (forall a :: a in slots ==> a in order)
    && (forall a, b :: a in slots && b in slots && a != b ==> slots[a] != slots[b])
    && (forall k :: 0 <= k < |order| ==> Owned(slots, k))
  }

  ghost function View(order: seq<int>, slots: map<int, int>, macs: seq<Mac>): (c: Cache)
    requires Consistent(order, slots, |macs|)
  {
    seq(|order|, k requires 0 <= k < |order| => Entry(order[k], macs[slots[order[k]]]))
  }

  lemma ViewKeys(order: seq<int>, slots: map<int, int>, macs: seq<Mac>)
    requires Consistent(order, slots, |macs|)
    ensures |order| <= |macs| && forall a :: a in slots ==> 0 <= slots[a] < |order|
    ensures forall a :: Knows(View(order, slots, macs), a) <==> a in slots
    ensures |order| == |macs| && order != [] ==> order[0] in slots
  {
    if order != [] { assert order[0] in slots; }
    forall a ensures Knows(View(order, slots, macs), a) <==> a in slots
      ensures a in slots ==> 0 <= slots[a] < |order| {
      if a in slots {
        assert a in order;
        var k :| 0 <= k < |order| && order[k] == a;
        assert View(order, slots, macs)[k].addr == a;
      }
    }
  }

  /** A known address: only its cell changes. */
  lemma UpdatedEntry(order: seq<int>, slots: map<int, int>, macs: seq<Mac>, addr: int, mac: Mac)
    requires Consistent(order, slots, |macs|) && addr in slots
    ensures 0 <= slots[addr] < |macs|
    ensures View(order, slots, macs[slots[addr] := mac]) == Stored(View(order, slots, macs), |macs|, addr, mac)
  {
    ViewKeys(order, slots, macs);
  }

  /** A new address in a cache with room takes the next cell. */
  lemma AddedEntry(order: seq<int>, slots: map<int, int>, macs: seq<Mac>, addr: int, mac: Mac)
    requires Consistent(order, slots, |macs|) && addr !in slots && |order| < |macs|
    ensures var slots' := slots[addr := |order|]; var order' := order + [addr];
            && Consistent(order', slots', |macs|)
            && View(order', slots', macs[|order| := mac]) == Stored(View(order, slots, macs), |macs|, addr, mac)
  {
    var slots', order' := slots[addr := |order|], order + [addr];
    assert forall a :: a in order' <==> a in order || a == addr;
    forall k | 0 <= k < |order'| ensures Owned(slots', k) {
      if k < |order| {
        assert Owned(slots, k);
        var a :| a in slots && slots[a] == k;
        assert a in slots' && slots'[a] == k;
      } else {
        assert addr in slots' && slots'[addr] == k;
      }
    }
    ViewKeys(order, slots, macs);
  }

  /** A new address in a full cache takes the cell of the oldest entry. */
  lemma ReplacedConsistent(order: seq<int>, slots: map<int, int>, capacity: int, addr: int)
    requires Consistent(order, slots, capacity) && addr !in slots && order != []
    ensures order[0] in slots && 0 <= slots[order[0]] < |order|
    ensures Consistent(order[1..] + [addr], (slots - {order[0]})[addr := slots[order[0]]], capacity)
  {
    var oldest := order[0];
    var loc := slots[oldest];
    var slots', order' := (slots - {oldest})[addr := loc], order[1..] + [addr];
    forall a | a in slots' ensures a in order' {
      if a != addr {
        assert a in order;
        var k :| 0 <= k < |order| && order[k] == a;
        assert order'[k - 1] == a;
      }
    }
    forall k | 0 <= k < |order'| ensures Owned(slots', k) {
      assert Owned(slots, k);
      var a :| a in slots && slots[a] == k;
      assert a == oldest ==> addr in slots' && slots'[addr] == k;
      assert a != oldest ==> a in slots' && slots'[a] == k;
    }
  }

  lemma ReplacedEntry(order: seq<int>, slots: map<int, int>, macs: seq<Mac>, addr: int, mac: Mac)
    requires Consistent(order, slots, |macs|) && addr !in slots && |order| == |macs| && order != []
    ensures order[0] in slots && 0 <= slots[order[0]] < |macs|
    ensures var loc := slots[order[0]];
            var slots' := (slots - {order[0]})[addr := loc]; var order' := order[1..] + [addr];
            && Consistent(order', slots', |macs|)
            && View(order', slots', macs[loc := mac]) == Stored(View(order, slots, macs), |macs|, addr, mac)
  {
    ViewKeys(order, slots, macs);
    ReplacedConsistent(order, slots, |macs|, addr);
    var loc := slots[order[0]];
    var slots', order' := (slots - {order[0]})[addr := loc], order[1..] + [addr];
    var c, c' := View(order, slots, macs), View(order', slots', macs[loc := mac]);
    forall k | 0 <= k < |order| - 1 ensures c'[k] == c[k + 1] {
      assert order'[k] == order[k + 1] && order[k + 1] != order[0];
      assert slots'[order'[k]] == slots[order[k + 1]] != loc;
    }
  }

  class ArpServer {
    const macArr: array<Mac>
    const ipq: RingQueue.Queue<int>
    const addrmap: Table<int>

    /** The objects the cache is built from, all different. */
    ghost predicate Separate()
      reads this, ipq
    {
      && macArr as object != ipq.arr && macArr as object != addrmap.arr && ipq.arr as object != addrmap.arr
      && ipq as object != macArr && ipq as object != ipq.arr && ipq as object != addrmap.arr
      && ipq as object != addrmap && this as object != ipq
    }

    ghost predicate Valid()
      reads this, ipq, ipq.arr, addrmap, addrmap.arr
    {
      && Separate() && ipq.Valid() && addrmap.Valid() && macArr.Length == ipq.arr.Length
      && Consistent(ipq.Contents(), Contents(addrmap.arr[..]), macArr.Length)
    }

    /** What the cache holds. */
    ghost function Holds(): (c: Cache)
      requires Valid()
      reads this, ipq, ipq.arr, addrmap, addrmap.arr, macArr
    {
      View(ipq.Contents(), Contents(addrmap.arr[..]), macArr[..])
    }

    constructor (macArr: array<Mac>, ipq: RingQueue.Queue<int>, addrmap: Table<int>)
      requires macArr as object != ipq.arr && macArr as object != addrmap.arr && ipq.arr as object != addrmap.arr
      requires ipq.Valid() && addrmap.Valid() && macArr.Length == ipq.arr.Length
      requires ipq.Contents() == [] && Contents(addrmap.arr[..]) == map[]
      ensures this.macArr == macArr && this.ipq == ipq && this.addrmap == addrmap
      ensures Valid() && Holds() == []
    {
      this.macArr := macArr;
      this.ipq := ipq;
      this.addrmap := addrmap;
    }

    /** `arpserver_store`; it runs out of space exactly when the address is new and every cell of the
        hash table has been used, and a used cell never becomes unused again. */
    method Store(addr: int, mac: Mac) returns (ok: bool)
      requires Valid()
      modifies macArr, ipq, ipq.arr, addrmap.arr
      ensures Valid()
      ensures ok <==> Knows(old(Holds()), addr) || !old(AllUsed(addrmap.arr[..]))
      ensures Holds() == if ok then Stored(old(Holds()), macArr.Length, addr, mac) else old(Holds())
      ensures forall j :: 0 <= j < addrmap.arr.Length && old(addrmap.arr[j].valid) ==> addrmap.arr[j].valid
    {
      hide RingQueue.Cell, View, Stored, Knows, Consistent, WellFormed, DistinctKeys, HasKey, Reached, Home, AllUsed, Contents;
      KeysDistinct(addrmap.arr[..], addrmap.hash);
      ghost var order, slots, macs := ipq.Contents(), Contents(addrmap.arr[..]), macArr[..];
      ViewKeys(order, slots, macs);
      var i := addrmap.Reserve(addr);
      if i < 0 {
        return false;
      } else if Active(addrmap.arr[i]) {
        UpdatedEntry(order, slots, macs, addr, mac);
        var loc := addrmap.arr[i].value;
        macArr[loc] := mac;
        return true;
      }
      var full := ipq.Full();
      var loc;
      if full {
        ReplacedEntry(order, slots, macs, addr, mac);
        var oldAddr := ipq.Front();
        var oldIdx := addrmap.Get(oldAddr);
        assert oldIdx >= 0;
        loc := addrmap.arr[oldIdx].value;
        addrmap.Delete(oldIdx);
        var popped := ipq.Pop();
      } else {
        AddedEntry(order, slots, macs, addr, mac);
        loc := ipq.len;
      }
      KeysDistinct(addrmap.arr[..], addrmap.hash);
      ghost var order', slots' := ipq.Contents() + [addr], Contents(addrmap.arr[..])[addr := loc];
      assert Consistent(order', slots', |macs|);
      assert View(order', slots', macs[loc := mac]) == Stored(View(order, slots, macs), |macs|, addr, mac);
      macArr[loc] := mac;
      addrmap.Put(i, addr, loc);
      ipq.Push(addr);
      assert macArr[..] == macs[loc := mac];
      return true;
    }

    /** `ARP_QUERY_MSG`: the hardware address of a cached address, or none. */
    method Query(addr: int) returns (found: bool, mac: Mac)
      requires Valid()
      ensures found <==> Knows(Holds(), addr)
      ensures found ==> Entry(addr, mac) in Holds()
    {
      var idx := addrmap.Get(addr);
      if idx < 0 { return false, 0; }
      ViewKeys(ipq.Contents(), Contents(addrmap.arr[..]), macArr[..]);
      ghost var k :| 0 <= k < |Holds()| && Holds()[k].addr == addr;
      found, mac := true, macArr[addrmap.arr[idx].value];
      assert Holds()[k] == Entry(addr, mac);
    }
  }
}
