/** The clock server: delays wait in a binary heap and are answered by the tick they fall due at. */
module ClockServer {
  const DELAYS := 5000
  const INT_SIZE := 4
  const EINVAL := -3
  const ENOMEM := -4
  const ENOFUNC := -7

  datatype Info = Info(tid: int, time: int)

  /* ---------- Heap order ---------- */

  function Parent(i: int): int {
    (i - 1) / 2
  }

  /** No element is due before its parent. */
  ghost predicate Heap(s: seq<Info>) {
    forall i {:trigger Parent(i)} :: 1 <= i < |s| ==> s[Parent(i)].time <= s[i].time
  }

  /** Heap order but for the element at c, which may be due before its parent. */
  ghost predicate HeapUp(s: seq<Info>, c: int) {
    && (forall i {:trigger Parent(i)} :: 1 <= i < |s| && i != c ==> s[Parent(i)].time <= s[i].time)
    && (forall i {:trigger Parent(i)} :: 1 <= i < |s| && 1 <= c == Parent(i) ==> s[Parent(c)].time <= s[i].time)
  }

  /** Heap order but for the element at c, which may be due after its children. */
  ghost predicate HeapDown(s: seq<Info>, c: int) {
    && (forall i {:trigger Parent(i)} :: 1 <= i < |s| && Parent(i) != c ==> s[Parent(i)].time <= s[i].time)
    && (forall i {:trigger Parent(i)} :: 1 <= i < |s| && 1 <= c == Parent(i) ==> s[Parent(c)].time <= s[i].time)
  }

  function Swap(s: seq<Info>, i: int, j: int): seq<Info>
    requires 0 <= i < |s| && 0 <= j < |s|
  {
    s[i := s[j]][j := s[i]]
  }

  lemma SwapKeeps(s: seq<Info>, i: int, j: int)
    requires 0 <= i < |s| && 0 <= j < |s|
    ensures multiset(Swap(s, i, j)) == multiset(s)
  {
  }

  lemma SiftedUp(s: seq<Info>, c: int)
    requires HeapUp(s, c) && 1 <= c < |s| && s[c].time < s[Parent(c)].time
    ensures HeapUp(Swap(s, c, Parent(c)), Parent(c))
  {
  }

  lemma SettledUp(s: seq<Info>, c: int)
    requires HeapUp(s, c) && 0 <= c < |s| && (c >= 1 ==> s[c].time >= s[Parent(c)].time)
    ensures Heap(s)
  {
  }

  lemma SiftedDown(s: seq<Info>, c: int, child: int)
    requires HeapDown(s, c) && 0 <= c < child < |s| && FirstChild(s, c, child) && s[child].time < s[c].time
    ensures HeapDown(Swap(s, c, child), child)
  {
  }

  lemma SettledDown(s: seq<Info>, c: int, child: int)
    requires HeapDown(s, c) && 0 <= c < child < |s| && FirstChild(s, c, child) && s[c].time <= s[child].time
    ensures Heap(s)
  {
  }

  lemma Childless(s: seq<Info>, c: int)
    requires HeapDown(s, c) && 0 <= c && 2 * c + 1 >= |s|
    ensures Heap(s)
  {
  }

  /** The child that is due first. */
  ghost predicate FirstChild(s: seq<Info>, c: int, child: int)
    requires 0 <= child < |s|
  {
    && Parent(child) == c
    && forall i {:trigger Parent(i)} :: 1 <= i < |s| && Parent(i) == c ==> s[child].time <= s[i].time
  }

  lemma Children(s: seq<Info>, c: nat, child: int)
    requires child == (if 2 * c + 2 < |s| && s[2 * c + 2].time < s[2 * c + 1].time then 2 * c + 2 else 2 * c + 1)
    requires 2 * c + 1 < |s|
    ensures FirstChild(s, c, child)
  {
    forall i {:trigger Parent(i)} | 1 <= i < |s| && Parent(i) == c ensures i == 2 * c + 1 || i == 2 * c + 2 {}
  }

  /** The first element of a heap is due no later than any other. */
  lemma {:induction false} FirstIsDue(s: seq<Info>, i: int)
    requires Heap(s) && 0 <= i < |s|
    ensures s[0].time <= s[i].time
    decreases i
  {
    if i > 0 { FirstIsDue(s, Parent(i)); }
  }

  /** The array holds s, except that the place c, where s has v, is about to be overwritten. */
  ghost predicate Holed(d: seq<Info>, s: seq<Info>, c: int, v: Info) {
    0 <= c < |s| <= |d| && s[c] == v && forall k :: 0 <= k < |s| && k != c ==> d[k] == s[k]
  }

  lemma HoleMoved(d: seq<Info>, s: seq<Info>, c: int, j: int, v: Info)
    requires Holed(d, s, c, v) && 0 <= j < |s| && j != c
    ensures d[j] == s[j] && Holed(d[c := d[j]], Swap(s, c, j), j, v) && multiset(Swap(s, c, j)) == multiset(s)
  {
    SwapKeeps(s, c, j);
  }

  lemma HoleFilled(d: seq<Info>, s: seq<Info>, c: int, v: Info)
    requires Holed(d, s, c, v)
    ensures d[c := v][..|s|] == s
  {
  }

  lemma Appended(d: seq<Info>, n: nat, v: Info)
    requires n < |d| && Heap(d[..n])
    ensures HeapUp(d[..n] + [v], n) && Holed(d, d[..n] + [v], n, v)
    ensures multiset(d[..n] + [v]) == multiset(d[..n]) + multiset{v}
  {
  }

  lemma Shortened(d: seq<Info>, n: nat)
    requires 1 < n <= |d| && Heap(d[..n])
    ensures var s := d[..n - 1][0 := d[n - 1]];
            HeapDown(s, 0) && Holed(d, s, 0, d[n - 1]) && multiset(s) + multiset{d[0]} == multiset(d[..n])
  {
    var s := d[..n - 1][0 := d[n - 1]];
    forall i {:trigger Parent(i)} | 1 <= i < |s| && Parent(i) != 0 ensures s[Parent(i)].time <= s[i].time {
      assert s[Parent(i)] == d[..n][Parent(i)] && s[i] == d[..n][i];
    }
    assert d[..n] == [d[0]] + d[1..n - 1] + [d[n - 1]] && s == [d[n - 1]] + d[1..n - 1];
  }

  lemma Empty(s: seq<Info>)
    requires s == []
    ensures Heap(s)
  {
  }

  /** `delayinfoheap_push` */
  method Push(delays: array<Info>, n: nat, value: Info) returns (n': nat)
    requires n < delays.Length && Heap(delays[..n])
    modifies delays
    ensures n' == n + 1 && Heap(delays[..n'])
    ensures multiset(delays[..n']) == old(multiset(delays[..n])) + multiset{value}
  {
    hide HeapUp, Heap, Holed, Swap;
    n' := n + 1;
    var current := n' - 1;
    var parent := if current == 0 then 0 else Parent(current);
    ghost var s := delays[..n] + [value];
    ghost var size := delays.Length;
    Appended(delays[..], n, value);
    assert delays[..][..n] == delays[..n];
    while current > 0 && value.time < delays[parent].time
      invariant 0 <= current < n' && parent == (if current == 0 then 0 else Parent(current))
      invariant |s| == n' && Holed(delays[..], s, current, value) && HeapUp(s, current)
      invariant multiset(s) == old(multiset(delays[..n])) + multiset{value}
      decreases current
    {
      HoleAt(delays[..], s, current, parent, value);
      HoleMoved(delays[..], s, current, parent, value);
      SiftedUp(s, current);
      s := Swap(s, current, parent);
      delays[current] := delays[parent];
      current := parent;
      parent := if current == 0 then 0 else Parent(current);
    }
    HoleAt(delays[..], s, current, parent, value);
    SettledUp(s, current);
    HoleFilled(delays[..], s, current, value);
    delays[current] := value;
    assert delays[..n'] == delays[..][..n'];
  }

  lemma HoleAt(d: seq<Info>, s: seq<Info>, c: int, j: int, v: Info)
    requires Holed(d, s, c, v) && 0 <= j < |s|
    ensures s[c] == v && |s| <= |d| && (j != c ==> d[j] == s[j])
  {
  }

  /** The part of `delayinfoheap_pop` that chooses between the two children of a place. */
  method EarlierChild(delays: array<Info>, n: nat, location: nat, ghost s: seq<Info>, ghost current: Info) returns (child: nat)
    requires |s| == n <= delays.Length && 2 * location + 1 < n && Holed(delays[..], s, location, current)
    ensures location < child < n && FirstChild(s, location, child) && s[child] == delays[child] && s[location] == current
  {
    hide Holed, FirstChild;
    child := 2 * location + 1;
    if 2 * location + 2 < n && delays[2 * location + 2].time < delays[child].time {
      child := 2 * location + 2;
    }
    HoleAt(delays[..], s, location, 2 * location + 1, current);
    if 2 * location + 2 < n { HoleAt(delays[..], s, location, 2 * location + 2, current); }
    Children(s, location, child);
  }

  /** `delayinfoheap_pop` */
  method Pop(delays: array<Info>, n: nat) returns (ret: Info, n': nat)
    requires 0 < n <= delays.Length && Heap(delays[..n])
    modifies delays
    ensures n' == n - 1 && Heap(delays[..n'])
    ensures multiset(delays[..n']) + multiset{ret} == old(multiset(delays[..n]))
    ensures ret == old(delays[0]) && forall k :: 0 <= k < n ==> ret.time <= old(delays[k].time)
  {
    hide HeapDown, Heap, Holed, Swap, Parent, FirstChild;
    forall k | 0 <= k < n ensures delays[0].time <= delays[k].time {
      FirstIsDue(delays[..n], k);
    }
    ret := delays[0];
    n' := n - 1;
    var location := 0;
    var current := delays[n'];
    ghost var s := delays[..n'];
    assert delays[..][..n] == delays[..n] && delays[..][..n'] == delays[..n'];
    if n' > 0 {
      Shortened(delays[..], n);
      s := s[0 := current];
    } else {
      assert delays[..n] == [ret];
      Empty(s);
    }
    while 2 * location + 1 < n'
      invariant 0 <= location && |s| == n' && (location < n' || location == 0)
      invariant if n' > 0 then Holed(delays[..], s, location, current) && HeapDown(s, location) else Heap(s)
      invariant multiset(s) + multiset{ret} == old(multiset(delays[..n]))
      decreases n' - location
    {
      var child := EarlierChild(delays, n', location, s, current);
      if current.time <= delays[child].time {
        SettledDown(s, location, child);
        break;
      }
      SiftedDown(s, location, child);
      HoleMoved(delays[..], s, location, child, current);
      s := Swap(s, location, child);
      delays[location] := delays[child];
      location := child;
    }
    if n' > 0 {
      if 2 * location + 1 >= n' { Childless(s, location); }
      HoleFilled(delays[..], s, location, current);
    }
    delays[location] := current;
    assert delays[..n'] == s by { assert delays[..n'] == delays[..][..n']; }
  }

  /* ---------- The server ---------- */

  /** What the server receives; a delay carries the length of its data and the milliseconds asked. */
  datatype Msg = Notify(tid: int) | Delay(tid: int, len: nat, ms: int) | Time(tid: int) | Other(tid: int)

  /** An answer, with the time at which it was given. */
  datatype Reply = Reply(tid: int, status: int, at: int)

  datatype Clock = Clock(now: int, pending: multiset<Info>, replies: seq<Reply>)

  /** The one answer a message is entitled to, and when. */
  function Owed(c: Clock, m: Msg): Reply {
    match m
    case Notify(tid) => Reply(tid, 0, c.now)
    case Time(tid) => Reply(tid, c.now, c.now)
    case Other(tid) => Reply(tid, ENOFUNC, c.now)
    case Delay(tid, len, ms) =>
      if len < INT_SIZE then Reply(tid, EINVAL, c.now)
      else if ms <= 0 then Reply(tid, 0, c.now)
      else if |c.pending| == DELAYS then Reply(tid, ENOMEM, c.now)
      else Reply(tid, 0, c.now + ms)
  }

  function Accepted(c: Clock, m: Msg): bool {
    m.Delay? && m.len >= INT_SIZE && m.ms > 0 && |c.pending| < DELAYS
  }

  function Answers(batch: seq<Info>, at: int): (r: seq<Reply>) {
    if batch == [] then [] else Answers(batch[..|batch| - 1], at) + [Reply(batch[|batch| - 1].tid, 0, at)]
  }

  /** A tick answers, in some order, the delays that are due and leaves the others. */
  ghost predicate Ticked(c: Clock, tid: int, batch: seq<Info>, c': Clock) {
    && c'.now == c.now + 1 && c'.replies == c.replies + [Reply(tid, 0, c.now)] + Answers(batch, c'.now)
    && multiset(batch) + c'.pending == c.pending
    && (forall i :: i in batch ==> i.time <= c'.now) && (forall i :: i in c'.pending ==> i.time > c'.now)
  }

  /** One message handled. */
  ghost predicate Next(c: Clock, m: Msg, c': Clock) {
    if m.Notify? then exists batch :: Ticked(c, m.tid, batch, c')
    else if Accepted(c, m) then c' == c.(pending := c.pending + multiset{Info(m.tid, c.now + m.ms)})
    else c' == c.(replies := c.replies + [Owed(c, m)])
  }

  /** Everything pending lies in the future, every answer in the past. */
  ghost predicate Timely(c: Clock) {
    && |c.pending| <= DELAYS && (forall i :: i in c.pending ==> i.time > c.now)
    && (forall r :: r in c.replies ==> r.at <= c.now)
  }

  /** How often the answer r has been given or is still to come. */
  function Promised(c: Clock, r: Reply): nat {
    multiset(c.replies)[r] + if r.status == 0 then c.pending[Info(r.tid, r.at)] else 0
  }

  lemma {:induction false} AnswersCount(batch: seq<Info>, at: int, r: Reply)
    requires forall i :: i in batch ==> i.time == at
    ensures multiset(Answers(batch, at))[r] == if r.status == 0 && r.at == at then multiset(batch)[Info(r.tid, at)] else 0
    ensures forall x :: x in Answers(batch, at) ==> x.at == at
  {
    if batch != [] {
      var front, last := batch[..|batch| - 1], batch[|batch| - 1];
      assert batch == front + [last];
      AnswersCount(front, at, r);
    }
  }

  lemma TickedTimely(c: Clock, tid: int, batch: seq<Info>, c': Clock)
    requires Timely(c) && Ticked(c, tid, batch, c')
    ensures Timely(c') && forall i: Info :: i in batch ==> i.time == c'.now
  {
    hide Promised, Owed;
    forall i: Info | i in batch ensures i.time == c'.now {
      assert i in multiset(batch) && i in c.pending;
    }
    forall i | i in c'.pending ensures i.time > c'.now {}
    AnswersCount(batch, c'.now, Reply(0, 0, 0));
    assert |c.pending| == |multiset(batch)| + |c'.pending|;
  }

  lemma TickedPromised(c: Clock, tid: int, batch: seq<Info>, c': Clock, r: Reply)
    requires Ticked(c, tid, batch, c') && forall i: Info :: i in batch ==> i.time == c'.now
    ensures Promised(c', r) == Promised(c, r) + if r == Reply(tid, 0, c.now) then 1 else 0
  {
    AnswersCount(batch, c'.now, r);
    var first, answers := [Reply(tid, 0, c.now)], Answers(batch, c'.now);
    assert multiset(c'.replies) == multiset(c.replies) + multiset(first) + multiset(answers);
    var i := Info(r.tid, r.at);
    assert c.pending[i] == multiset(batch)[i] + c'.pending[i];
    assert i in multiset(batch) ==> i in batch;
  }

  /** Every message adds exactly the answer it is entitled to, to be given when it falls due. */
  lemma NextPromised(c: Clock, m: Msg, c': Clock, r: Reply)
    requires Timely(c) && Next(c, m, c')
    ensures Timely(c')
    ensures Promised(c', r) == Promised(c, r) + if r == Owed(c, m) then 1 else 0
  {
    if m.Notify? {
      hide Timely, Promised, Owed, Ticked;
      var batch :| Ticked(c, m.tid, batch, c');
      TickedTimely(c, m.tid, batch, c');
      TickedPromised(c, m.tid, batch, c', r);
      assert Owed(c, m) == Reply(m.tid, 0, c.now) by { OwedTick(c, m); }
    } else {
      AnsweredAtOnce(c, m, c', r);
    }
  }

  lemma OwedTick(c: Clock, m: Msg)
    requires m.Notify?
    ensures Owed(c, m) == Reply(m.tid, 0, c.now)
  {
  }

  lemma AnsweredAtOnce(c: Clock, m: Msg, c': Clock, r: Reply)
    requires Timely(c) && Next(c, m, c') && !m.Notify?
    ensures Timely(c')
    ensures Promised(c', r) == Promised(c, r) + if r == Owed(c, m) then 1 else 0
  {
    var i := Info(r.tid, r.at);
    if Accepted(c, m) {
      var added := Info(m.tid, c.now + m.ms);
      assert |c'.pending| == |c.pending| + 1;
      assert i != added ==> c'.pending[i] == c.pending[i];
    } else {
      assert Owed(c, m).at == c.now;
    }
  }

  ghost predicate IsRun(states: seq<Clock>, msgs: seq<Msg>) {
    && |states| == |msgs| + 1 && states[0] == Clock(0, multiset{}, [])
    && forall k :: 0 <= k < |msgs| ==> Next(states[k], msgs[k], states[k + 1])
  }

  /** How many of the first n messages are entitled to exactly the answer r. */
  ghost function Entitled(states: seq<Clock>, msgs: seq<Msg>, n: nat, r: Reply): nat
    requires n <= |msgs| <= |states|
  {
    if n == 0 then 0 else Entitled(states, msgs, n - 1, r) + if Owed(states[n - 1], msgs[n - 1]) == r then 1 else 0
  }

  lemma Fresh(r: Reply)
    ensures Timely(Clock(0, multiset{}, [])) && Promised(Clock(0, multiset{}, []), r) == 0
  {
  }

  lemma {:induction false} RunPromised(states: seq<Clock>, msgs: seq<Msg>, n: nat, r: Reply)
    requires IsRun(states, msgs) && n <= |msgs|
    ensures Timely(states[n]) && Promised(states[n], r) == Entitled(states, msgs, n, r)
  {
    hide Next, Owed, Promised, Timely;
    if n == 0 {
      Fresh(r);
    } else {
      RunPromised(states, msgs, n - 1, r);
      NextPromised(states[n - 1], msgs[n - 1], states[n], r);
    }
  }

  /** After any messages, an answer whose time has come has been given as often as messages are
      entitled to it, and no answer has been given before its time: every accepted delay is answered
      exactly once, by the tick it asked for. */
  lemma AnsweredOnTime(states: seq<Clock>, msgs: seq<Msg>, n: nat, r: Reply)
    requires IsRun(states, msgs) && n <= |msgs|
    ensures multiset(states[n].replies)[r] == if r.at <= states[n].now then Entitled(states, msgs, n, r) else 0
  {
    RunPromised(states, msgs, n, r);
  }

  // ----- What the messages alone say -----

  /** How many ticks there are among the first n messages. */
  function Ticks(msgs: seq<Msg>, n: nat): (r: nat)
    requires n <= |msgs|
    ensures r <= n
  {
    if n == 0 then 0 else Ticks(msgs, n - 1) + if msgs[n - 1].Notify? then 1 else 0
  }

  /** Those of the delays that are due after a time. */
  function After(waiting: seq<Info>, time: int): seq<Info> {
    if waiting == [] then []
    else After(waiting[..|waiting| - 1], time) + if waiting[|waiting| - 1].time > time then [waiting[|waiting| - 1]] else []
  }

  /** The delays that have been asked for and are not over yet after n messages, in the order in which
      they were asked for; 5000 of them are as many as there can be. */
  function Waiting(msgs: seq<Msg>, n: nat): seq<Info>
    requires n <= |msgs|
    decreases n, 0
  {
    if n == 0 then []
    else if msgs[n - 1].Notify? then After(Waiting(msgs, n - 1), Ticks(msgs, n))
    else if Taken(msgs, n - 1) then Waiting(msgs, n - 1) + [Info(msgs[n - 1].tid, Ticks(msgs, n - 1) + msgs[n - 1].ms)]
    else Waiting(msgs, n - 1)
  }

  /** Is message j a delay that is taken on? */
  predicate Taken(msgs: seq<Msg>, j: nat)
    requires j < |msgs|
    decreases j, 1
  {
    msgs[j].Delay? && msgs[j].len >= 4 && msgs[j].ms > 0 && |Waiting(msgs, j)| < 5000
  }

  lemma {:induction false} AfterCount(waiting: seq<Info>, time: int, i: Info)
    ensures multiset(After(waiting, time))[i] == if i.time > time then multiset(waiting)[i] else 0
  {
    if waiting != [] {
      var front, last := waiting[..|waiting| - 1], waiting[|waiting| - 1];
      assert waiting == front + [last];
      AfterCount(front, time, i);
    }
  }

  /** A tick leaves exactly the delays that are due later. */
  lemma TickedWaiting(c: Clock, tid: int, batch: seq<Info>, c': Clock, waiting: seq<Info>)
    requires Ticked(c, tid, batch, c') && c.pending == multiset(waiting)
    ensures c'.now == c.now + 1 && c'.pending == multiset(After(waiting, c'.now))
  {
    forall i: Info ensures c'.pending[i] == multiset(After(waiting, c'.now))[i] {
      AfterCount(waiting, c'.now, i);
      assert c.pending[i] == multiset(batch)[i] + c'.pending[i];
      assert multiset(batch)[i] > 0 ==> i in batch;
      assert c'.pending[i] > 0 ==> i.time > c'.now;
    }
  }

  /** The delays that wait after a message, if these waited before it at time k. */
  function Rest(waiting: seq<Info>, m: Msg, k: int): seq<Info> {
    if m.Notify? then After(waiting, k + 1)
    else if m.Delay? && m.len >= 4 && m.ms > 0 && |waiting| < 5000 then waiting + [Info(m.tid, k + m.ms)]
    else waiting
  }

  lemma NextWaiting(c: Clock, m: Msg, c': Clock, waiting: seq<Info>)
    requires Next(c, m, c') && c.pending == multiset(waiting)
    ensures c'.now == c.now + if m.Notify? then 1 else 0
    ensures c'.pending == multiset(Rest(waiting, m, c.now))
  {
    hide Ticked, After, Owed;
    Size(waiting);
    if m.Notify? {
      var batch :| Ticked(c, m.tid, batch, c');
      TickedWaiting(c, m.tid, batch, c', waiting);
    } else if Accepted(c, m) {
      OneMore(waiting, Info(m.tid, c.now + m.ms));
    }
  }

  lemma Size(waiting: seq<Info>)
    ensures |multiset(waiting)| == |waiting|
  {
  }

  lemma OneMore(waiting: seq<Info>, i: Info)
    ensures multiset(waiting + [i]) == multiset(waiting) + multiset{i}
  {
  }

  lemma WaitingStep(msgs: seq<Msg>, n: nat)
    requires n < |msgs|
    ensures Waiting(msgs, n + 1) == Rest(Waiting(msgs, n), msgs[n], Ticks(msgs, n))
    ensures Ticks(msgs, n + 1) == Ticks(msgs, n) + if msgs[n].Notify? then 1 else 0
  {
    hide After;
  }

  /** The clock has counted the ticks and keeps the delays that are not over. */
  lemma {:induction false} ClockIs(states: seq<Clock>, msgs: seq<Msg>, n: nat)
    requires IsRun(states, msgs) && n <= |msgs|
    ensures states[n].now == Ticks(msgs, n) && states[n].pending == multiset(Waiting(msgs, n))
    ensures |states[n].pending| == |Waiting(msgs, n)| <= 5000
  {
    hide Next, Rest, Promised, Entitled;
    RunPromised(states, msgs, n, Reply(0, 0, 0));
    if n > 0 {
      ClockIs(states, msgs, n - 1);
      NextWaiting(states[n - 1], msgs[n - 1], states[n], Waiting(msgs, n - 1));
      hide Waiting, Ticks;
      WaitingStep(msgs, n - 1);
    }
    Size(Waiting(msgs, n));
  }

  /** The answer that message j is to be given, with its time. */
  predicate AsksFor(msgs: seq<Msg>, j: nat, r: Reply)
    requires j < |msgs|
  {
    var k := Ticks(msgs, j);
    match msgs[j]
    case Notify(tid) => r == Reply(tid, 0, k)
    case Time(tid) => r == Reply(tid, k, k)
    case Other(tid) => r == Reply(tid, -7, k)
    case Delay(tid, len, ms) =>
      if Taken(msgs, j) then r == Reply(tid, 0, k + ms)
      else r == Reply(tid, if len < 4 then -3 else if ms <= 0 then 0 else -4, k)
  }

  /** Those of the first n messages that are to be given the answer r. */
  ghost function AskingFor(msgs: seq<Msg>, n: nat, r: Reply): set<nat>
    requires n <= |msgs|
  {
    set j: nat | j < n && AsksFor(msgs, j, r)
  }

  lemma OwedAsAsked(states: seq<Clock>, msgs: seq<Msg>, j: nat, r: Reply)
    requires IsRun(states, msgs) && j < |msgs|
    ensures AsksFor(msgs, j, r) <==> r == Owed(states[j], msgs[j])
  {
    ClockIs(states, msgs, j);
    hide Next, Waiting, Ticks;
  }

  lemma {:induction false} EntitledAsAsked(states: seq<Clock>, msgs: seq<Msg>, n: nat, r: Reply)
    requires IsRun(states, msgs) && n <= |msgs|
    ensures Entitled(states, msgs, n, r) == |AskingFor(msgs, n, r)|
  {
    hide Next, AsksFor, Owed;
    if n == 0 {
      assert AskingFor(msgs, 0, r) == {};
    } else {
      EntitledAsAsked(states, msgs, n - 1, r);
      OwedAsAsked(states, msgs, n - 1, r);
      var before := AskingFor(msgs, n - 1, r);
      assert AskingFor(msgs, n, r) == if AsksFor(msgs, n - 1, r) then before + {n - 1} else before;
    }
  }

  /** The same on the messages alone: after n of them every answer has been given as many times as there
      are messages that ask for it, if its time has come, and never before. */
  lemma AnsweredAsAsked(states: seq<Clock>, msgs: seq<Msg>, n: nat, r: Reply)
    requires IsRun(states, msgs) && n <= |msgs|
    ensures multiset(states[n].replies)[r] == if r.at <= Ticks(msgs, n) then |AskingFor(msgs, n, r)| else 0
  {
    hide IsRun, Entitled, AsksFor;
    ClockIs(states, msgs, n);
    AnsweredOnTime(states, msgs, n, r);
    EntitledAsAsked(states, msgs, n, r);
  }

  /** A request for the time is answered at once with the number of ticks so far. */
  lemma TimeAnswered(states: seq<Clock>, msgs: seq<Msg>, j: nat)
    requires IsRun(states, msgs) && j < |msgs| && msgs[j].Time?
    ensures states[j + 1].replies == states[j].replies + [Reply(msgs[j].tid, Ticks(msgs, j), Ticks(msgs, j))]
    ensures states[j + 1].now == states[j].now && states[j + 1].pending == states[j].pending
  {
    ClockIs(states, msgs, j);
    assert Next(states[j], msgs[j], states[j + 1]);
  }

  /** A delay of at least four bytes and more than no time, with fewer than 5000 waiting, is answered with
      0 when so many more ticks have come, and once: of all answers it asks for this one. */
  lemma DelayAnswered(states: seq<Clock>, msgs: seq<Msg>, j: nat, n: nat)
    requires IsRun(states, msgs) && j < n <= |msgs|
    requires msgs[j].Delay? && msgs[j].len >= 4 && msgs[j].ms > 0 && |Waiting(msgs, j)| < 5000
    ensures var r := Reply(msgs[j].tid, 0, Ticks(msgs, j) + msgs[j].ms);
            && j in AskingFor(msgs, n, r) && (forall x :: x != r ==> j !in AskingFor(msgs, n, x))
            && (Ticks(msgs, n) >= r.at ==> r in states[n].replies) && (Ticks(msgs, n) < r.at ==> r !in states[n].replies)
            && states[j + 1].replies == states[j].replies
  {
    hide Next, Ticks, AsksFor, Waiting;
    DelayTaken(states, msgs, j);
    DelayAsked(msgs, j, n);
    var r := Reply(msgs[j].tid, 0, Ticks(msgs, j) + msgs[j].ms);
    AnsweredAsAsked(states, msgs, n, r);
    assert multiset(states[n].replies)[r] > 0 <==> r in states[n].replies;
  }

  lemma DelayTaken(states: seq<Clock>, msgs: seq<Msg>, j: nat)
    requires IsRun(states, msgs) && j < |msgs| && Taken(msgs, j)
    ensures states[j + 1].replies == states[j].replies
  {
    ClockIs(states, msgs, j);
    hide Waiting, Owed;
    assert Next(states[j], msgs[j], states[j + 1]);
  }

  lemma DelayAsked(msgs: seq<Msg>, j: nat, n: nat)
    requires j < n <= |msgs| && Taken(msgs, j)
    ensures var r := Reply(msgs[j].tid, 0, Ticks(msgs, j) + msgs[j].ms);
            j in AskingFor(msgs, n, r) && |AskingFor(msgs, n, r)| > 0 && forall x :: x != r ==> j !in AskingFor(msgs, n, x)
  {
    hide Ticks, Waiting;
    assert AsksFor(msgs, j, Reply(msgs[j].tid, 0, Ticks(msgs, j) + msgs[j].ms));
  }

  /** Delays that are too short, over at once or too many, and unknown messages, are answered at once. */
  lemma RefusedAnswered(states: seq<Clock>, msgs: seq<Msg>, j: nat)
    requires IsRun(states, msgs) && j < |msgs| && (msgs[j].Delay? || msgs[j].Other?) && !Taken(msgs, j)
    ensures var m, k := msgs[j], Ticks(msgs, j);
            && states[j + 1].pending == states[j].pending && states[j + 1].now == states[j].now
            && states[j + 1].replies == states[j].replies + [Reply(m.tid,
                 if m.Other? then -7 else if m.len < 4 then -3 else if m.ms <= 0 then 0 else -4, k)]
  {
    ClockIs(states, msgs, j);
    assert Next(states[j], msgs[j], states[j + 1]);
  }

  class ClockServer {
    const delays: array<Info>
    var numDelays: nat
    var now: int
    /** What `MsgReplyStatus` was called with so far. */
    var replies: seq<Reply>

    ghost predicate Valid()
      reads this, delays
    {
      delays.Length == DELAYS && numDelays <= DELAYS && Heap(delays[..numDelays])
    }

    ghost function State(): Clock
      requires Valid()
      reads this, delays
    {
      Clock(now, multiset(delays[..numDelays]), replies)
    }

    constructor ()
      ensures Valid() && State() == Clock(0, multiset{}, [])
    {
      delays := new Info[DELAYS](i => Info(0, 0));
      numDelays, now, replies := 0, 0, [];
    }

    method ReplyStatus(tid: int, status: int)
      modifies this`replies
      ensures replies == old(replies) + [Reply(tid, status, now)]
    {
      replies := replies + [Reply(tid, status, now)];
    }

    /** The tick: answer everything that is due. */
    method Tick(tid: int)
      requires Valid()
      modifies this, delays
      ensures Valid() && exists batch :: Ticked(old(State()), tid, batch, State())
    {
      ReplyStatus(tid, 0);
      now := now + 1;
      ghost var batch: seq<Info> := [];
      ghost var given := replies;
      while numDelays > 0 && delays[0].time <= now
        invariant Valid() && now == old(now) + 1
        invariant replies == given + Answers(batch, now)
        invariant multiset(batch) + multiset(delays[..numDelays]) == old(State()).pending
        invariant forall i :: i in batch ==> i.time <= now
        decreases numDelays
      {
        var info;
        info, numDelays := Pop(delays, numDelays);
        ReplyStatus(info.tid, 0);
        batch := batch + [info];
      }
      forall i | i in multiset(delays[..numDelays]) ensures i.time > now {
        assert i in delays[..numDelays];
        var k :| 0 <= k < numDelays && delays[..numDelays][k] == i;
        FirstIsDue(delays[..numDelays], k);
      }
      assert Ticked(old(State()), tid, batch, State());
    }

    /** One pass of the server's loop. */
    method Handle(m: Msg)
      requires Valid()
      modifies this, delays
      ensures Valid() && Next(old(State()), m, State())
    {
      match m
      case Notify(tid) => Tick(tid);
      case Time(tid) => ReplyStatus(tid, now);
      case Other(tid) => ReplyStatus(tid, ENOFUNC);
      case Delay(tid, len, ms) =>
        if len < INT_SIZE {
          ReplyStatus(tid, EINVAL);
          return;
        }
        var due := ms + now;
        if due <= now {
          ReplyStatus(tid, 0);
        } else if numDelays == DELAYS {
          ReplyStatus(tid, ENOMEM);
        } else {
          numDelays := Push(delays, numDelays, Info(tid, due));
        }
    }
  }
}
