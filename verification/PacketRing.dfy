/** The packet buffers of the network server: records of different sizes in a ring, the oldest of which
    make room for new ones. */
module PacketRing {
  const UDP_BUF_MAX := 65536
  /** The size of a record's header, and where in it the length of the data is. */
  const HEADER := 16
  const LENGTH := 12

  /** Records lie at word boundaries. */
  predicate Aligned(n: nat) {
    n % 4 == 0
  }

  lemma AlignedSum(m: nat, n: nat)
    requires Aligned(m) && Aligned(n)
    ensures Aligned(m + n)
  {
  }

  /** `calc_rec_size` */
  function RecSize(dataLen: nat): (r: nat)
    ensures Aligned(r) && HEADER + dataLen <= r < HEADER + dataLen + 4
  {
    (dataLen + HEADER + 3) / 4 * 4
  }

  /** The buffer, and where records begin and end in it; top is where the last lap ended. */
  datatype Ring = Ring(mem: seq<int>, head: nat, tail: nat, top: nat)

  /** The data length in a header.  Nothing is known of memory beyond the buffer; it reads as zero. */
  function LenAt(mem: seq<int>, at: nat): nat {
    if at + LENGTH < |mem| && mem[at + LENGTH] >= 0 then mem[at + LENGTH] else 0
  }

  function Popped(r: Ring): Ring {
    if r.head == r.tail then r
    else
      var head := r.head + RecSize(LenAt(r.mem, r.head));
      r.(head := if head == r.top then 0 else head)
  }

  /** Dropping old records until the next one fits before them. */
  function MakeRoom(r: Ring, size: nat): (r': Ring)
    ensures r' == r.(head := r'.head) && !(r'.tail < r'.head <= r'.tail + size)
    decreases if r.tail < r.head <= r.tail + size then r.tail + size + 1 - r.head else 0
  {
    if r.tail < r.head <= r.tail + size then MakeRoom(Popped(r), size) else r
  }

  function Restarted(r: Ring): Ring {
    if r.head == r.tail then r.(head := 0, tail := 0, top := 0) else r
  }

  function Wrapped(r: Ring): Ring {
    var r' := r.(top := r.tail);
    (if r.head == 0 then Popped(r') else r').(tail := 0)
  }

  /** The ring when a record has its place, which begins at tail, and is not counted yet. */
  function Cleared(r: Ring, size: nat): (r': Ring)
    ensures size < UDP_BUF_MAX ==> r'.tail + size < UDP_BUF_MAX
    ensures r'.mem == r.mem && !(r'.tail < r'.head <= r'.tail + size)
  {
    var r1 := Restarted(r);
    MakeRoom(if r1.tail + size >= UDP_BUF_MAX then Wrapped(r1) else r1, size)
  }

  function Patched(mem: seq<int>, at: nat, bytes: seq<int>): (r: seq<int>)
    requires at + |bytes| <= |mem|
    ensures |r| == |mem| && forall i :: 0 <= i < |mem| && !(at <= i < at + |bytes|) ==> r[i] == mem[i]
    ensures r[at..at + |bytes|] == bytes
  {
    mem[..at] + bytes + mem[at + |bytes|..]
  }

  /** `alloc_pkt`, after which the caller fills the record in; nothing happens if it is too large. */
  function Added(r: Ring, bytes: seq<int>): Ring
    requires |r.mem| == UDP_BUF_MAX
  {
    if |bytes| >= UDP_BUF_MAX then Restarted(r)
    else
      var r' := Cleared(r, |bytes|);
      r'.(mem := Patched(r'.mem, r'.tail, bytes), tail := r'.tail + |bytes|)
  }

  /* ---------- Layout ---------- */

  datatype Rec = Rec(at: nat, bytes: seq<int>)

  ghost predicate IsRecord(bytes: seq<int>) {
    |bytes| >= HEADER && bytes[LENGTH] >= 0 && |bytes| == RecSize(bytes[LENGTH])
  }

  function End(rec: Rec): nat {
    rec.at + |rec.bytes|
  }

  /** The records lie in the buffer one after the other and fill it from one place to another. */
  ghost predicate Chain(mem: seq<int>, from: nat, to: nat, recs: seq<Rec>)
    decreases |recs|
  {
    if recs == [] then from == to
    else
      && recs[0].at == from && IsRecord(recs[0].bytes) && End(recs[0]) <= |mem|
      && mem[from..End(recs[0])] == recs[0].bytes && Chain(mem, End(recs[0]), to, recs[1..])
  }

  ghost predicate Avoids(recs: seq<Rec>, top: nat) {
    forall k :: 0 <= k < |recs| ==> End(recs[k]) != top
  }

  /** The records of the ring, oldest first: those of the last lap, and those of this one. */
  ghost predicate Layout(r: Ring, last: seq<Rec>, lap: seq<Rec>) {
    && |r.mem| == UDP_BUF_MAX && r.top <= UDP_BUF_MAX && Aligned(r.head) && Aligned(r.tail)
    && if r.tail < r.head then last != [] && Chain(r.mem, r.head, r.top, last) && Chain(r.mem, 0, r.tail, lap)
       else last == [] && Chain(r.mem, r.head, r.tail, lap) && Avoids(lap, r.top)
  }

  /** The ring holds exactly these records, oldest first. */
  ghost predicate Holds(r: Ring, live: seq<Rec>) {
    exists last, lap :: Layout(r, last, lap) && live == last + lap
  }

  lemma ChainHead(mem: seq<int>, from: nat, to: nat, recs: seq<Rec>)
    requires Chain(mem, from, to, recs) && recs != []
    ensures recs[0].at == from && End(recs[0]) == from + RecSize(LenAt(mem, from))
    ensures Chain(mem, End(recs[0]), to, recs[1..])
  {
    assert recs[0].bytes[LENGTH] == mem[from..End(recs[0])][LENGTH];
  }

  lemma {:induction false} ChainBounds(mem: seq<int>, from: nat, to: nat, recs: seq<Rec>)
    requires Chain(mem, from, to, recs)
    ensures from <= to && (recs != [] ==> from + HEADER <= to <= |mem|)
    ensures forall k :: 0 <= k < |recs| ==> from <= recs[k].at && recs[k].at + HEADER <= End(recs[k]) <= to
    decreases |recs|
  {
    if recs != [] { ChainBounds(mem, End(recs[0]), to, recs[1..]); }
  }

  lemma {:induction false} ChainAppend(mem: seq<int>, from: nat, to: nat, recs: seq<Rec>, rec: Rec)
    requires Chain(mem, from, to, recs) && Chain(mem, to, End(rec), [rec])
    ensures Chain(mem, from, End(rec), recs + [rec])
    decreases |recs|
  {
    if recs == [] {
      assert recs + [rec] == [rec];
    } else {
      ChainAppend(mem, End(recs[0]), to, recs[1..], rec);
      assert (recs + [rec])[1..] == recs[1..] + [rec];
    }
  }

  lemma {:induction false} ChainKept(mem: seq<int>, mem': seq<int>, from: nat, to: nat, recs: seq<Rec>)
    requires Chain(mem, from, to, recs) && |mem| == |mem'| && forall i :: from <= i < to <= |mem| ==> mem[i] == mem'[i]
    ensures Chain(mem', from, to, recs)
    decreases |recs|
  {
    if recs != [] {
      ChainBounds(mem, from, to, recs);
      assert mem'[from..End(recs[0])] == mem[from..End(recs[0])];
      ChainKept(mem, mem', End(recs[0]), to, recs[1..]);
    }
  }

  /* ---------- Taking a record out ---------- */

  /** The oldest record leaves.  While the last lap has records, it is one of those. */
  lemma PoppedLast(r: Ring, last: seq<Rec>, lap: seq<Rec>)
    requires Layout(r, last, lap) && r.tail < r.head
    ensures last[0].at == r.head && Popped(r) == r.(head := Popped(r).head)
    ensures if |last| == 1 then Popped(r).head == 0 && Layout(Popped(r), [], lap)
            else Popped(r).head > r.head && Layout(Popped(r), last[1..], lap)
  {
    AlignedSum(r.head, RecSize(LenAt(r.mem, r.head)));
    hide RecSize, IsRecord, Aligned;
    ChainHead(r.mem, r.head, r.top, last);
    ChainBounds(r.mem, r.head, r.top, last);
    ChainBounds(r.mem, 0, r.tail, lap);
    ChainBounds(r.mem, End(last[0]), r.top, last[1..]);
    assert |last| == 1 ==> last[1..] == [];
  }

  lemma PoppedLap(r: Ring, lap: seq<Rec>)
    requires Layout(r, [], lap) && r.head < r.tail
    ensures lap != [] && lap[0].at == r.head && Popped(r) == r.(head := Popped(r).head)
    ensures Layout(Popped(r), [], lap[1..])
  {
    AlignedSum(r.head, RecSize(LenAt(r.mem, r.head)));
    hide RecSize, IsRecord, Aligned;
    ChainHead(r.mem, r.head, r.tail, lap);
    ChainBounds(r.mem, r.head, r.tail, lap);
    ChainBounds(r.mem, End(lap[0]), r.tail, lap[1..]);
    assert Avoids(lap[1..], r.top);
  }

  lemma EmptyWhen(r: Ring, last: seq<Rec>, lap: seq<Rec>)
    requires Layout(r, last, lap)
    ensures r.head == r.tail <==> last + lap == []
  {
    if r.tail >= r.head { ChainBounds(r.mem, r.head, r.tail, lap); }
  }

  /** `pop_pkt` takes the oldest record. */
  lemma PoppedHolds(r: Ring, live: seq<Rec>)
    requires Holds(r, live)
    ensures r.head == r.tail <==> live == []
    ensures live != [] ==> live[0].at == r.head && Holds(Popped(r), live[1..])
  {
    hide Layout, Popped;
    var last, lap :| Layout(r, last, lap) && live == last + lap;
    EmptyWhen(r, last, lap);
    Sides(r, last, lap);
    if live == [] {
    } else if r.tail < r.head {
      PoppedLast(r, last, lap);
      assert live[1..] == last[1..] + lap;
      if |last| == 1 { assert last[1..] == []; }
    } else {
      PoppedLap(r, lap);
      assert live == lap && live[1..] == [] + lap[1..];
    }
  }

  lemma Sides(r: Ring, last: seq<Rec>, lap: seq<Rec>)
    requires Layout(r, last, lap)
    ensures r.tail < r.head <==> last != []
  {
  }

  lemma {:induction false} ChainRecords(mem: seq<int>, from: nat, to: nat, recs: seq<Rec>, i: nat, j: nat)
    requires Chain(mem, from, to, recs) && i <= j < |recs|
    ensures recs[i].at <= End(recs[i]) <= |mem| && mem[recs[i].at..End(recs[i])] == recs[i].bytes
    ensures i < j ==> End(recs[i]) <= recs[j].at
    decreases |recs|
  {
    if i > 0 {
      ChainRecords(mem, End(recs[0]), to, recs[1..], i - 1, j - 1);
    } else if j > 0 {
      ChainBounds(mem, End(recs[0]), to, recs[1..]);
      assert recs[j] == recs[1..][j - 1];
    }
  }

  /** What the ring holds is intact, within the buffer and nowhere overlapping. */
  lemma RecordsApart(r: Ring, live: seq<Rec>, i: nat, j: nat)
    requires Holds(r, live) && i <= j < |live|
    ensures End(live[i]) <= |r.mem| && r.mem[live[i].at..End(live[i])] == live[i].bytes
    ensures i < j ==> End(live[i]) <= live[j].at || End(live[j]) <= live[i].at
  {
    hide Chain;
    var last, lap :| Layout(r, last, lap) && live == last + lap;
    if r.tail >= r.head {
      ChainRecords(r.mem, r.head, r.tail, lap, i, j);
    } else if j < |last| {
      ChainRecords(r.mem, r.head, r.top, last, i, j);
    } else if i >= |last| {
      ChainRecords(r.mem, 0, r.tail, lap, i - |last|, j - |last|);
    } else {
      ChainBounds(r.mem, r.head, r.top, last);
      ChainBounds(r.mem, 0, r.tail, lap);
      ChainRecords(r.mem, r.head, r.top, last, i, i);
    }
  }

  /* ---------- Putting a record in ---------- */

  /** The record goes on in this lap, or begins a new one while the last is done with, and does not end
      where top will be. */
  predicate Clean(r: Ring, size: nat) {
    var r1 := Restarted(r);
    if r1.tail + size >= UDP_BUF_MAX then r1.head <= r1.tail && size != r1.tail
    else r1.tail + size != r1.top
  }

  /** The place from tail on is free. */
  predicate Fits(r: Ring, size: nat) {
    && r.tail + size < UDP_BUF_MAX && !(r.tail < r.head <= r.tail + size)
    && (r.head <= r.tail ==> r.tail + size != r.top)
  }

  /** These records were in the way of a new one of this size. */
  ghost predicate InTheWay(recs: seq<Rec>, at: nat, size: nat) {
    forall k :: 0 <= k < |recs| ==> at <= recs[k].at <= at + size
  }

  lemma {:induction false} RoomMade(r: Ring, last: seq<Rec>, lap: seq<Rec>, size: nat) returns (d: nat)
    requires Layout(r, last, lap)
    ensures d <= |last| && Layout(MakeRoom(r, size), last[d..], lap) && InTheWay(last[..d], r.tail, size)
    decreases |last|
  {
    hide Layout, Popped;
    d := 0;
    Sides(r, last, lap);
    if r.tail < r.head <= r.tail + size {
      PoppedLast(r, last, lap);
      assert |last| == 1 ==> last[1..] == [];
      var d' := RoomMade(Popped(r), last[1..], lap, size);
      d := d' + 1;
      assert last[d..] == last[1..][d'..] && last[..d] == [last[0]] + last[1..][..d'];
    } else {
      assert last[0..] == last;
    }
  }

  /** Beginning a new lap: what this lap holds is now the last one. */
  lemma LapEnds(r: Ring, lap: seq<Rec>) returns (d: nat)
    requires Layout(r, [], lap) && lap != []
    ensures d <= |lap| && Layout(Wrapped(r), lap[d..], []) && InTheWay(lap[..d], 0, 0)
    ensures Wrapped(r).tail == 0 && Wrapped(r).top == r.tail
  {
    AlignedSum(r.head, RecSize(LenAt(r.mem, r.head)));
    hide RecSize, IsRecord, Aligned;
    ChainHead(r.mem, r.head, r.tail, lap);
    ChainBounds(r.mem, r.head, r.tail, lap);
    ChainBounds(r.mem, End(lap[0]), r.tail, lap[1..]);
    d := if r.head == 0 then 1 else 0;
    assert lap[0..] == lap;
    assert |lap| == 1 ==> lap[1..] == [];
  }

  lemma Restart(r: Ring, last: seq<Rec>, lap: seq<Rec>)
    requires Layout(r, last, lap)
    ensures Layout(Restarted(r), last, lap)
  {
    EmptyWhen(r, last, lap);
  }

  /** Old records leave, oldest first and only if they are in the way, until the new one fits. */
  lemma ClearedLayout(r: Ring, last: seq<Rec>, lap: seq<Rec>, size: nat)
    returns (last': seq<Rec>, lap': seq<Rec>, d: nat)
    requires Layout(r, last, lap) && 0 < size < UDP_BUF_MAX && Clean(r, size)
    ensures d <= |last + lap| && last' + lap' == (last + lap)[d..] && Layout(Cleared(r, size), last', lap')
    ensures InTheWay((last + lap)[..d], Cleared(r, size).tail, size) && Fits(Cleared(r, size), size)
  {
    hide Layout, InTheWay;
    var r1 := Restarted(r);
    Restart(r, last, lap);
    Sides(r1, last, lap);
    if r1.tail + size >= UDP_BUF_MAX {
      EmptyWhen(r1, last, lap);
      var d1 := LapEnds(r1, lap);
      var d2 := RoomMade(Wrapped(r1), lap[d1..], [], size);
      last', lap', d := lap[d1..][d2..], [], d1 + d2;
      assert last + lap == lap && lap[d..] == lap[d1..][d2..] && lap[..d] == lap[..d1] + lap[d1..][..d2];
      BothInTheWay(lap[..d1], lap[d1..][..d2], size);
    } else {
      d := RoomMade(r1, last, lap, size);
      last', lap' := last[d..], lap;
      assert (last + lap)[d..] == last[d..] + lap && (last + lap)[..d] == last[..d];
    }
  }

  lemma BothInTheWay(a: seq<Rec>, b: seq<Rec>, size: nat)
    requires InTheWay(a, 0, 0) && InTheWay(b, 0, size)
    ensures InTheWay(a + b, 0, size)
  {
  }

  lemma FilledChain(mem: seq<int>, from: nat, at: nat, recs: seq<Rec>, bytes: seq<int>)
    requires Chain(mem, from, at, recs) && IsRecord(bytes) && at + |bytes| <= |mem|
    ensures Chain(Patched(mem, at, bytes), from, at + |bytes|, recs + [Rec(at, bytes)])
  {
    hide RecSize, Patched, IsRecord;
    var mem', rec := Patched(mem, at, bytes), Rec(at, bytes);
    ChainKept(mem, mem', from, at, recs);
    assert [rec][1..] == [];
    assert Chain(mem', End(rec), End(rec), [rec][1..]);
    assert Chain(mem', at, End(rec), [rec]);
    ChainAppend(mem', from, at, recs, rec);
  }

  lemma AvoidsMore(recs: seq<Rec>, rec: Rec, top: nat)
    requires Avoids(recs, top) && End(rec) != top
    ensures Avoids(recs + [rec], top)
  {
  }

  lemma FilledBefore(r: Ring, last: seq<Rec>, lap: seq<Rec>, bytes: seq<int>)
    requires Layout(r, last, lap) && Fits(r, |bytes|) && IsRecord(bytes) && r.tail < r.head
    ensures Layout(r.(mem := Patched(r.mem, r.tail, bytes), tail := r.tail + |bytes|), last, lap + [Rec(r.tail, bytes)])
  {
    SizeAligned(bytes);
    AlignedSum(r.tail, |bytes|);
    hide RecSize, Patched, Chain, Avoids, IsRecord, Aligned;
    FilledChain(r.mem, 0, r.tail, lap, bytes);
    ChainBounds(r.mem, r.head, r.top, last);
    ChainKept(r.mem, Patched(r.mem, r.tail, bytes), r.head, r.top, last);
  }

  lemma FilledAfter(r: Ring, lap: seq<Rec>, bytes: seq<int>)
    requires Layout(r, [], lap) && Fits(r, |bytes|) && IsRecord(bytes) && r.head <= r.tail
    ensures Layout(r.(mem := Patched(r.mem, r.tail, bytes), tail := r.tail + |bytes|), [], lap + [Rec(r.tail, bytes)])
  {
    SizeAligned(bytes);
    AlignedSum(r.tail, |bytes|);
    hide RecSize, Patched, Chain, Avoids, IsRecord, Aligned;
    FilledChain(r.mem, r.head, r.tail, lap, bytes);
    AvoidsMore(lap, Rec(r.tail, bytes), r.top);
  }

  /** Filling the free place in adds the record and leaves the others intact. */
  lemma FilledLayout(r: Ring, last: seq<Rec>, lap: seq<Rec>, bytes: seq<int>)
    requires Layout(r, last, lap) && Fits(r, |bytes|) && IsRecord(bytes)
    ensures Layout(r.(mem := Patched(r.mem, r.tail, bytes), tail := r.tail + |bytes|), last, lap + [Rec(r.tail, bytes)])
  {
    hide Layout, Patched, IsRecord;
    Sides(r, last, lap);
    if r.tail < r.head {
      FilledBefore(r, last, lap, bytes);
    } else {
      FilledAfter(r, lap, bytes);
    }
  }

  lemma SizeAligned(bytes: seq<int>)
    requires IsRecord(bytes)
    ensures Aligned(|bytes|)
  {
  }

  /** The ring is a queue that drops its oldest entries: a new record goes behind the others, of which
      only those leave that are in its way. */
  lemma AddedHolds(r: Ring, live: seq<Rec>, bytes: seq<int>) returns (d: nat)
    requires Holds(r, live) && |r.mem| == UDP_BUF_MAX && IsRecord(bytes) && |bytes| < UDP_BUF_MAX && Clean(r, |bytes|)
    ensures d <= |live| && Holds(Added(r, bytes), live[d..] + [Rec(Cleared(r, |bytes|).tail, bytes)])
    ensures InTheWay(live[..d], Cleared(r, |bytes|).tail, |bytes|)
  {
    hide Layout, Clean, Cleared, Fits, Patched;
    var last, lap :| Layout(r, last, lap) && live == last + lap;
    var last', lap';
    last', lap', d := ClearedLayout(r, last, lap, |bytes|);
    var rec := Rec(Cleared(r, |bytes|).tail, bytes);
    FilledLayout(Cleared(r, |bytes|), last', lap', bytes);
    assert live[d..] + [rec] == last' + (lap' + [rec]);
  }

  /* ---------- When it goes wrong ---------- */

  lemma {:induction false} ChainEnd(mem: seq<int>, from: nat, to: nat, recs: seq<Rec>)
    requires Chain(mem, from, to, recs) && recs != []
    ensures End(recs[|recs| - 1]) == to
    decreases |recs|
  {
    if |recs| > 1 { ChainEnd(mem, End(recs[0]), to, recs[1..]); }
  }

  /** The last record ends where the next lap would be taken to begin. */
  predicate Jammed(r: Ring) {
    r.tail == r.top > 0 && r.head != r.tail
  }

  /** The oldest record lies behind the end of its lap. */
  predicate Lost(r: Ring) {
    r.tail < r.head && r.top < r.head
  }

  lemma NothingHeld(r: Ring, live: seq<Rec>)
    requires Jammed(r) || Lost(r)
    ensures !Holds(r, live)
  {
    forall last, lap | Layout(r, last, lap) ensures false {
      if r.tail < r.head {
        ChainBounds(r.mem, r.head, r.top, last);
      } else {
        EmptyWhen(r, last, lap);
        ChainEnd(r.mem, r.head, r.tail, lap);
      }
    }
  }

  lemma {:induction false} LostMakingRoom(r: Ring, size: nat)
    requires Lost(r)
    ensures Lost(MakeRoom(r, size))
    decreases r.tail + size + 1 - r.head
  {
    if r.head <= r.tail + size { LostMakingRoom(Popped(r), size); }
  }

  lemma UncleanGoesWrong(r: Ring, bytes: seq<int>)
    requires |r.mem| == UDP_BUF_MAX && 0 < |bytes| < UDP_BUF_MAX && !Clean(r, |bytes|)
    ensures var r1 := Restarted(r);
            if r1.tail + |bytes| >= UDP_BUF_MAX && r1.tail < r1.head then Lost(Added(r, bytes)) else Jammed(Added(r, bytes))
  {
    var r1 := Restarted(r);
    if r1.tail + |bytes| >= UDP_BUF_MAX && r1.tail < r1.head { LostMakingRoom(Wrapped(r1), |bytes|); }
  }

  /** The ring holds records in order afterwards exactly when the record was added cleanly. */
  lemma CleanIffHeld(r: Ring, live: seq<Rec>, bytes: seq<int>)
    requires Holds(r, live) && |r.mem| == UDP_BUF_MAX && IsRecord(bytes) && |bytes| < UDP_BUF_MAX
    ensures (exists live' :: Holds(Added(r, bytes), live')) <==> Clean(r, |bytes|)
  {
    hide Holds, Clean, Added, Jammed, Lost;
    if Clean(r, |bytes|) {
      var d := AddedHolds(r, live, bytes);
    } else {
      UncleanGoesWrong(r, bytes);
      forall live' ensures !Holds(Added(r, bytes), live') { NothingHeld(Added(r, bytes), live'); }
    }
  }

  function PoppedTimes(r: Ring, n: nat): Ring
    decreases n
  {
    if n == 0 then r else PoppedTimes(Popped(r), n - 1)
  }

  lemma {:induction false} HoldsRunsEmpty(r: Ring, live: seq<Rec>)
    requires Holds(r, live)
    ensures PoppedTimes(r, |live|).head == PoppedTimes(r, |live|).tail
    decreases |live|
  {
    hide Holds, Popped;
    PoppedHolds(r, live);
    if live != [] { HoldsRunsEmpty(Popped(r), live[1..]); }
  }

  /** A ring whose last record ends at top never becomes empty, whatever is in its memory: at top, head
      goes back to the beginning instead of meeting tail. */
  lemma {:induction false} JammedForGood(r: Ring, n: nat)
    requires Jammed(r)
    ensures Jammed(PoppedTimes(r, n))
    decreases n
  {
    if n > 0 { JammedForGood(Popped(r), n - 1); }
  }

  /** Two records of half the buffer's size, one after the other, already jam the ring. */
  lemma TwoHalves(r: Ring, first: seq<int>, second: seq<int>, n: nat)
    requires |r.mem| == UDP_BUF_MAX && r.head == r.tail && |first| == |second| == UDP_BUF_MAX / 2
    ensures !Clean(Added(r, first), |second|)
    ensures var r' := PoppedTimes(Added(Added(r, first), second), n); r'.head != r'.tail
  {
    UncleanGoesWrong(Added(r, first), second);
    JammedForGood(Added(Added(r, first), second), n);
  }

  class PacketBuffer {
    const mem: array<int>
    var head: nat
    var tail: nat
    var top: nat

    ghost function Now(): Ring
      reads this, mem
    {
      Ring(mem[..], head, tail, top)
    }

    constructor (mem: array<int>)
      requires mem.Length == UDP_BUF_MAX
      ensures this.mem == mem && Holds(Now(), [])
    {
      this.mem := mem;
      head, tail, top := 0, 0, 0;
      new;
      assert Layout(Now(), [], []);
    }

    /** `pop_pkt`: the place of the oldest record, or none. */
    method PopPkt() returns (found: bool, pkt: nat)
      modifies this`head
      ensures Now() == Popped(old(Now()))
      ensures found <==> old(head) != tail
      ensures found ==> pkt == old(head)
    {
      if head == tail { return false, 0; }
      found, pkt := true, head;
      var dataLen := if head + LENGTH < mem.Length && mem[head + LENGTH] >= 0 then mem[head + LENGTH] else 0;
      head := head + RecSize(dataLen);
      if head == top { head := 0; }
    }

    /** `alloc_pkt`: the place for a new record, or none. */
    method AllocPkt(size: nat) returns (found: bool, pkt: nat)
      modifies this
      ensures found <==> size < UDP_BUF_MAX
      ensures found ==> pkt == Cleared(old(Now()), size).tail
      ensures found ==> Now() == Cleared(old(Now()), size).(tail := pkt + size)
      ensures !found ==> Now() == Restarted(old(Now()))
    {
      if head == tail { head, tail, top := 0, 0, 0; }
      if size >= UDP_BUF_MAX { return false, 0; }
      if tail + size >= UDP_BUF_MAX {
        top := tail;
        if head == 0 { var _, _ := PopPkt(); }
        tail := 0;
      }
      ghost var r := Now();
      while tail < head && tail + size >= head
        invariant Now() == r.(head := head) && MakeRoom(Now(), size) == MakeRoom(r, size)
        decreases if tail < head <= tail + size then tail + size + 1 - head else 0
      {
        var _, _ := PopPkt();
      }
      found, pkt := true, tail;
      tail := tail + size;
    }

    method Fill(pkt: nat, bytes: seq<int>)
      requires pkt + |bytes| <= mem.Length
      modifies mem
      ensures mem[..] == Patched(old(mem[..]), pkt, bytes)
    {
      hide Patched;
      for i := 0 to |bytes|
        invariant forall j :: 0 <= j < i ==> mem[pkt + j] == bytes[j]
        invariant forall j :: 0 <= j < mem.Length && !(pkt <= j < pkt + i) ==> mem[j] == old(mem[j])
      {
        mem[pkt + i] := bytes[i];
      }
      IsPatched(old(mem[..]), mem[..], pkt, bytes);
    }

    /** A packet comes in. */
    method Dispatch(bytes: seq<int>)
      requires mem.Length == UDP_BUF_MAX
      modifies this, mem
      ensures Now() == Added(old(Now()), bytes)
    {
      var found, pkt := AllocPkt(|bytes|);
      if found { Fill(pkt, bytes); }
    }
  }

  lemma IsPatched(mem: seq<int>, mem': seq<int>, at: nat, bytes: seq<int>)
    requires at + |bytes| <= |mem| == |mem'|
    requires forall i :: 0 <= i < |mem| && !(at <= i < at + |bytes|) ==> mem'[i] == mem[i]
    requires forall j {:trigger bytes[j]} :: 0 <= j < |bytes| ==> mem'[at + j] == bytes[j]
    ensures mem' == Patched(mem, at, bytes)
  {
    assert mem'[at..at + |bytes|] == bytes;
    assert mem'[..at] == mem[..at] && mem'[at + |bytes|..] == mem[at + |bytes|..];
  }
}
