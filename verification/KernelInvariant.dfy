/** What holds of the kernel between any two system calls. */
module KernelInvariant {
  import opened Seqs
  import opened KernelState

  // ----- Scheduling -----

  /** Every task is on exactly one queue, once: the one it names. */
  ghost predicate QueuesOk(sc: Sched) {
    && (forall q {:trigger NoDup(Q(sc, q))} :: NoDup(Q(sc, q)))
    && (forall q, t {:trigger t in Q(sc, q)} :: t in Q(sc, q) ==> 0 <= t < |sc.procs| && sc.procs[t].queue == q)
    && (forall t :: 0 <= t < |sc.procs| ==> t in Q(sc, sc.procs[t].queue))
  }

  /** The queue that the state of a task dictates. */
  ghost function Home(p: Proc): QueueId {
    match p.status
    case Running => Ready(p.prio)
    case SendBlocked => Senders(if p.req.Sending? then p.req.chan else NONE)
    case RecvBlocked => Receivers(if p.req.Receiving? then p.req.chan else NONE)
    case Dead => Free
    case EventBlocked => Waiting(if p.req.Awaiting? then p.req.event else NONE)
    case PollBlocked => Polling
  }

  ghost predicate ProcOk(p: Proc) {
    && p.queue == Home(p)
    && 0 <= p.prio < TASK_NPRIO
    && (p.status == SendBlocked ==> p.req.Sending?)
    && (p.status == RecvBlocked ==> p.req.Receiving?)
    && (p.status == EventBlocked ==> p.req.Awaiting? && 0 <= p.req.event < NEVENTS)
  }

  ghost predicate PlacedOk(sc: Sched) {
    forall t :: 0 <= t < |sc.procs| ==> ProcOk(sc.procs[t])
  }

  ghost function Live(sc: Sched): set<int> {
    set t | 0 <= t < |sc.procs| && sc.procs[t].status != Dead
  }

  ghost function LiveUser(sc: Sched): set<int> {
    set t | 0 <= t < |sc.procs| && sc.procs[t].status != Dead && !sc.procs[t].daemon
  }

  ghost predicate CountsOk(sc: Sched) {
    sc.live == |Live(sc)| && sc.nondaemon == |LiveUser(sc)|
  }

  /** The i-th message sent on c met the i-th receive asked of c; the unmet ones are those waiting. */
  ghost predicate LogOk(sc: Sched, c: int) {
    var log := LogOf(sc, c);
    var senders := Q(sc, Senders(c));
    && |log.met| <= |log.sent| && |log.met| <= |log.asked|
    && (forall i :: 0 <= i < |log.met| ==> log.met[i] == (log.sent[i], log.asked[i]))
    && |senders| == |log.sent| - |log.met|
    && (forall i :: 0 <= i < |senders| ==> Waits(sc, senders[i], log.sent[|log.met| + i]))
    && Q(sc, Receivers(c)) == log.asked[|log.met|..]
  }

  ghost predicate Waits(sc: Sched, t: int, parcel: Parcel) {
    0 <= t < |sc.procs| && sc.procs[t].req.Sending? && parcel == Parcel(t, sc.procs[t].req.msg, sc.procs[t].req.pass)
  }

  ghost predicate LogsOk(sc: Sched) {
    forall c :: LogOk(sc, c)
  }

  ghost predicate SchedOk(sc: Sched) {
    QueuesOk(sc) && PlacedOk(sc) && CountsOk(sc) && LogsOk(sc)
  }

  /** No channel has both a blocked sender and a blocked receiver. */
  ghost predicate Rendezvous(sc: Sched) {
    forall c :: Q(sc, Senders(c)) == [] || Q(sc, Receivers(c)) == []
  }

  // ----- Descriptors -----

  ghost function Naming(ch: Chans, c: int): set<Fd> {
    set f | f in ch.fds && ch.fds[f].chan == c
  }

  ghost predicate FdsOk(ch: Chans) {
    forall f :: f in ch.fds ==> 0 <= f.task < |ch.pools| && 0 <= f.no < MAX_TASK_CHANNELS && 0 <= ch.fds[f].chan < |ch.refs|
  }

  /** The numbers of t below `next` are split between the open descriptors and the free list. */
  ghost predicate PoolOk(ch: Chans, t: int)
    requires 0 <= t < |ch.pools|
  {
    var p := ch.pools[t];
    && 0 <= p.next <= MAX_TASK_CHANNELS
    && NoDup(p.free)
    && (forall no :: no in p.free <==> 0 <= no < p.next && Fd(t, no) !in ch.fds)
    && (forall no :: Fd(t, no) in ch.fds ==> 0 <= no < p.next)
  }

  ghost predicate PoolsOk(ch: Chans) {
    forall t :: 0 <= t < |ch.pools| ==> PoolOk(ch, t)
  }

  /** Reference counts are the numbers of open descriptors. */
  ghost predicate RefsOk(ch: Chans) {
    forall c :: 0 <= c < |ch.refs| ==> ch.refs[c] == |Naming(ch, c)|
  }

  ghost predicate FreeOk(ch: Chans) {
    && NoDup(ch.freeChans)
    && (forall c :: c in ch.freeChans <==> 0 <= c < |ch.refs| && ch.refs[c] == 0)
  }

  ghost predicate ChansOk(ch: Chans) {
    FdsOk(ch) && PoolsOk(ch) && RefsOk(ch) && FreeOk(ch)
  }

  ghost predicate Holds(ch: Chans, t: int, c: int) {
    exists f :: f in Naming(ch, c) && f.task == t
  }

  /** A blocked task keeps a descriptor of the channel it waits on and of the one it passes. */
  ghost predicate Keeps(ch: Chans, t: int, p: Proc) {
    && (p.status == SendBlocked && p.req.Sending? ==>
          Holds(ch, t, p.req.chan) && (p.req.pass.Pass? ==> Holds(ch, t, p.req.pass.chan)))
    && (p.status == RecvBlocked && p.req.Receiving? ==> Holds(ch, t, p.req.chan))
  }

  ghost predicate KeepOk(sc: Sched, ch: Chans) {
    && (forall t :: 0 <= t < |sc.procs| ==> Keeps(ch, t, sc.procs[t]))
    && (forall f :: f in ch.fds && 0 <= f.task < |sc.procs| ==> sc.procs[f.task].status != Dead)
  }

  // ----- Polling -----

  ghost predicate ListsOk(po: Polls) {
    && (forall l {:trigger NoDup(L(po, l))} :: NoDup(L(po, l)))
    && (forall l, f {:trigger f in L(po, l)} :: f in L(po, l) ==> Node(f, l.ev) in po.at && po.at[Node(f, l.ev)] == l)
    && (forall f, ev :: Node(f, ev) in po.at ==> po.at[Node(f, ev)].ev == ev && f in L(po, po.at[Node(f, ev)]))
  }

  /** A linked node belongs to an open descriptor and is on its channel's list or its task's queue. */
  ghost predicate NodesOk(ch: Chans, po: Polls) {
    forall f, ev :: Node(f, ev) in po.at ==>
      f in ch.fds && (po.at[Node(f, ev)] == OnChannel(ch.fds[f].chan, ev) || po.at[Node(f, ev)] == OnTask(f.task, ev))
  }

  ghost function NodesOf(po: Polls, t: int): set<Node> {
    set n | n in po.at && n.fd.task == t
  }

  ghost predicate PollCountsOk(po: Polls) {
    forall t :: 0 <= t < |po.counts| ==> po.counts[t] >= |NodesOf(po, t)|
  }

  /** An active event has nothing left on its channel's poll list. */
  ghost predicate Quiet(sc: Sched, po: Polls) {
    forall c, ev :: Active(sc, c, ev) ==> L(po, OnChannel(c, ev)) == []
  }

  /** A task blocked in poll_wait has nothing queued. */
  ghost predicate Asleep(sc: Sched, po: Polls) {
    forall t, ev :: 0 <= t < |sc.procs| && sc.procs[t].status == PollBlocked ==> L(po, OnTask(t, ev)) == []
  }

  ghost predicate PollsOk(ch: Chans, po: Polls) {
    ListsOk(po) && NodesOk(ch, po) && PollCountsOk(po)
  }

  ghost predicate Inv(s: State) {
    && Sized(s)
    && SchedOk(s.sched) && Rendezvous(s.sched)
    && ChansOk(s.chans) && KeepOk(s.sched, s.chans)
    && PollsOk(s.chans, s.polls) && Quiet(s.sched, s.polls) && Asleep(s.sched, s.polls)
  }

  // ----- Moving a task -----

  /** The queues after a move. */
  lemma MovedShape(sc: Sched, t: int, status: Status, q: QueueId)
    requires 0 <= t < |sc.procs|
    ensures var r := Moved(sc, t, status, q);
            var from := sc.procs[t].queue;
            && (forall x :: x != q && x != from ==> Q(r, x) == Q(sc, x))
            && Q(r, q) == (if from == q then Without(Q(sc, q), t) else Q(sc, q)) + [t]
            && (from != q ==> Q(r, from) == Without(Q(sc, from), t))
  {
  }

  /** Queues stay well formed when t leaves its own and goes to the end of q. */
  lemma MovedQueuesOk(sc: Sched, r: Sched, t: int, q: QueueId)
    requires QueuesOk(sc) && 0 <= t < |sc.procs| == |r.procs| && r.procs[t].queue == q
    requires forall u :: 0 <= u < |sc.procs| && u != t ==> r.procs[u].queue == sc.procs[u].queue
    requires forall x :: x != q && x != sc.procs[t].queue ==> Q(r, x) == Q(sc, x)
    requires Q(r, q) == (if sc.procs[t].queue == q then Without(Q(sc, q), t) else Q(sc, q)) + [t]
    requires sc.procs[t].queue != q ==> Q(r, sc.procs[t].queue) == Without(Q(sc, sc.procs[t].queue), t)
    ensures QueuesOk(r)
  {
    var from := sc.procs[t].queue;
    var base := if from == q then Without(Q(sc, q), t) else Q(sc, q);
    assert NoDup(Q(sc, q)) && NoDup(Q(sc, from));
    assert forall u :: u in base <==> u in Q(sc, q) && u != t;
    NoDupAppend(base, t);
    forall x ensures NoDup(Q(r, x)) { assert x != q && x != from ==> NoDup(Q(sc, x)); }
    forall x, u {:trigger u in Q(r, x)} | u in Q(r, x) ensures 0 <= u < |r.procs| && r.procs[u].queue == x {
      assert (u == t && x == q) || (u != t && u in Q(sc, x));
    }
    forall u | 0 <= u < |r.procs| ensures u in Q(r, r.procs[u].queue) {
      if u != t { assert u in Q(sc, sc.procs[u].queue); }
    }
  }

  lemma MovedQueues(sc: Sched, t: int, status: Status, q: QueueId)
    requires QueuesOk(sc) && 0 <= t < |sc.procs|
    ensures var r := Moved(sc, t, status, q);
            var from := sc.procs[t].queue;
            && QueuesOk(r)
            && (forall x :: x != q && x != from ==> Q(r, x) == Q(sc, x))
            && Q(r, q) == (if from == q then Without(Q(sc, q), t) else Q(sc, q)) + [t]
            && (from != q ==> Q(r, from) == Without(Q(sc, from), t))
  {
    hide QueuesOk, Q;
    MovedShape(sc, t, status, q);
    MovedQueuesOk(sc, Moved(sc, t, status, q), t, q);
  }

  lemma SameQueues(sc: Sched, r: Sched)
    requires QueuesOk(sc) && |r.procs| == |sc.procs|
    requires forall q :: Q(r, q) == Q(sc, q)
    requires forall t :: 0 <= t < |sc.procs| ==> r.procs[t].queue == sc.procs[t].queue
    ensures QueuesOk(r)
  {
    forall q ensures NoDup(Q(r, q)) { assert NoDup(Q(sc, q)); }
    forall q, t | t in Q(r, q) ensures 0 <= t < |r.procs| && r.procs[t].queue == q { assert t in Q(sc, q); }
    forall t | 0 <= t < |r.procs| ensures t in Q(r, r.procs[t].queue) { assert t in Q(sc, sc.procs[t].queue); }
  }

  /** A change to one live task, live before and after, keeps the counts. */
  lemma SameCounts(sc: Sched, r: Sched)
    requires CountsOk(sc) && r.live == sc.live && r.nondaemon == sc.nondaemon && |r.procs| == |sc.procs|
    requires forall t :: 0 <= t < |sc.procs| ==>
      (r.procs[t].status == Dead <==> sc.procs[t].status == Dead) && r.procs[t].daemon == sc.procs[t].daemon
    ensures CountsOk(r)
  {
    assert Live(r) == Live(sc);
    assert LiveUser(r) == LiveUser(sc);
  }

  /** Histories only look at the channel queues and the requests of the tasks on them. */
  lemma SameLogs(sc: Sched, r: Sched)
    requires LogsOk(sc) && r.logs == sc.logs && |sc.procs| <= |r.procs|
    requires forall c :: Q(r, Senders(c)) == Q(sc, Senders(c)) && Q(r, Receivers(c)) == Q(sc, Receivers(c))
    requires forall c, t :: t in Q(sc, Senders(c)) && 0 <= t < |sc.procs| ==> r.procs[t].req == sc.procs[t].req
    ensures LogsOk(r)
  {
    forall c ensures LogOk(r, c) {
      assert LogOk(sc, c);
      var senders := Q(sc, Senders(c));
      forall i | 0 <= i < |senders| ensures Waits(r, senders[i], LogOf(r, c).sent[|LogOf(r, c).met| + i]) {
        assert senders[i] in senders;
      }
    }
  }

  ghost predicate SameChannelQueues(sc: Sched, r: Sched) {
    forall c :: Q(r, Senders(c)) == Q(sc, Senders(c)) && Q(r, Receivers(c)) == Q(sc, Receivers(c))
  }

  ghost predicate OnlyChanged(sc: Sched, r: Sched, t: int) {
    |r.procs| == |sc.procs| && forall u :: 0 <= u < |sc.procs| && u != t ==> r.procs[u] == sc.procs[u]
  }

  ghost predicate OnChannelQueue(p: Proc) {
    p.status == SendBlocked || p.status == RecvBlocked
  }

  /** Waking a task that waits on no channel. */
  lemma WokenOk(sc: Sched, t: int)
    requires SchedOk(sc) && 0 <= t < |sc.procs|
    requires sc.procs[t].status != Dead && !OnChannelQueue(sc.procs[t])
    ensures var r := Woken(sc, t); SchedOk(r) && SameChannelQueues(sc, r) && OnlyChanged(sc, r, t)
  {
    var r := Woken(sc, t);
    assert ProcOk(sc.procs[t]);
    MovedQueues(sc, t, Running, Ready(sc.procs[t].prio));
    SameCounts(sc, r);
    forall c, u | u in Q(sc, Senders(c)) && 0 <= u < |sc.procs| ensures r.procs[u].req == sc.procs[u].req {}
    SameLogs(sc, r);
  }

  /** A running task that blocks, but not on a channel. */
  lemma BlockedOk(sc: Sched, t: int, status: Status, q: QueueId, req: Request)
    requires SchedOk(sc) && 0 <= t < |sc.procs| && sc.procs[t].status == Running
    requires status == PollBlocked || status == EventBlocked
    requires ProcOk(sc.procs[t].(status := status, queue := q, req := req))
    ensures var r := Blocked(sc, t, status, q, req); SchedOk(r) && SameChannelQueues(sc, r) && OnlyChanged(sc, r, t)
  {
    var r := Blocked(sc, t, status, q, req);
    var mid := Moved(sc, t, status, q);
    assert ProcOk(sc.procs[t]);
    MovedQueues(sc, t, status, q);
    SameQueues(mid, r);
    SameCounts(sc, r);
    forall c, u | u in Q(sc, Senders(c)) && 0 <= u < |sc.procs| ensures r.procs[u].req == sc.procs[u].req {}
    SameLogs(sc, r);
  }

  /** A running task that blocks on a channel leaves every other channel queue alone. */
  lemma BlockedOnChannel(sc: Sched, t: int, status: Status, q: QueueId, req: Request)
    requires QueuesOk(sc) && PlacedOk(sc) && CountsOk(sc)
    requires 0 <= t < |sc.procs| && sc.procs[t].status == Running
    requires status == SendBlocked || status == RecvBlocked
    requires ProcOk(sc.procs[t].(status := status, queue := q, req := req))
    ensures var r := Blocked(sc, t, status, q, req);
            && QueuesOk(r) && PlacedOk(r) && CountsOk(r) && OnlyChanged(sc, r, t)
            && Q(r, q) == Q(sc, q) + [t]
            && r.procs[t] == sc.procs[t].(status := status, queue := q, req := req)
            && (forall c :: Senders(c) != q ==> Q(r, Senders(c)) == Q(sc, Senders(c)))
            && (forall c :: Receivers(c) != q ==> Q(r, Receivers(c)) == Q(sc, Receivers(c)))
  {
    var r := Blocked(sc, t, status, q, req);
    var mid := Moved(sc, t, status, q);
    assert ProcOk(sc.procs[t]);
    MovedQueues(sc, t, status, q);
    SameQueues(mid, r);
    SameCounts(sc, r);
  }

  lemma OfferedLogs(sc: Sched, r: Sched, t: int, c: int, msg: seq<int>, pass: Pass)
    requires QueuesOk(sc) && LogsOk(sc) && 0 <= t < |sc.procs| && sc.procs[t].queue.Ready?
    requires OnlyChanged(sc, r, t) && r.procs[t].req == Sending(c, msg, pass)
    requires Q(r, Senders(c)) == Q(sc, Senders(c)) + [t]
    requires forall d :: d != c ==> Q(r, Senders(d)) == Q(sc, Senders(d))
    requires forall d :: Q(r, Receivers(d)) == Q(sc, Receivers(d))
    requires r.logs == sc.logs[c := LogOf(sc, c).(sent := LogOf(sc, c).sent + [Parcel(t, msg, pass)])]
    ensures LogsOk(r)
  {
    forall d ensures LogOk(r, d) {
      assert LogOk(sc, d);
      var before := Q(sc, Senders(d));
      var senders := Q(r, Senders(d));
      var log := LogOf(r, d);
      forall i | 0 <= i < |senders| ensures Waits(r, senders[i], log.sent[|log.met| + i]) {
        if i < |before| {
          assert senders[i] == before[i] && before[i] in before;
          assert Waits(sc, before[i], LogOf(sc, d).sent[|log.met| + i]);
        }
      }
    }
  }

  lemma AskedLogs(sc: Sched, r: Sched, t: int, c: int)
    requires QueuesOk(sc) && LogsOk(sc) && 0 <= t < |sc.procs| && sc.procs[t].queue.Ready?
    requires OnlyChanged(sc, r, t)
    requires Q(r, Receivers(c)) == Q(sc, Receivers(c)) + [t]
    requires forall d :: d != c ==> Q(r, Receivers(d)) == Q(sc, Receivers(d))
    requires forall d :: Q(r, Senders(d)) == Q(sc, Senders(d))
    requires r.logs == sc.logs[c := LogOf(sc, c).(asked := LogOf(sc, c).asked + [t])]
    ensures LogsOk(r)
  {
    forall d ensures LogOk(r, d) {
      assert LogOk(sc, d);
      var senders := Q(r, Senders(d));
      var log := LogOf(r, d);
      forall i | 0 <= i < |senders| ensures Waits(r, senders[i], log.sent[|log.met| + i]) {
        assert senders[i] in Q(sc, Senders(d));
        assert Waits(sc, senders[i], log.sent[|log.met| + i]);
      }
    }
  }

  lemma MetLogs(sc: Sched, r: Sched, c: int, snd: int, rcv: int)
    requires QueuesOk(sc) && LogsOk(sc) && |r.procs| == |sc.procs|
    requires 0 <= snd < |sc.procs| && sc.procs[snd].req.Sending?
    requires forall u :: 0 <= u < |sc.procs| ==> r.procs[u].req == sc.procs[u].req
    requires Q(sc, Senders(c)) != [] && Q(sc, Senders(c))[0] == snd && Q(r, Senders(c)) == Q(sc, Senders(c))[1..]
    requires Q(sc, Receivers(c)) != [] && Q(sc, Receivers(c))[0] == rcv && Q(r, Receivers(c)) == Q(sc, Receivers(c))[1..]
    requires forall d :: d != c ==> Q(r, Senders(d)) == Q(sc, Senders(d)) && Q(r, Receivers(d)) == Q(sc, Receivers(d))
    requires r.logs == sc.logs[c := LogOf(sc, c).(met := LogOf(sc, c).met + [(Parcel(snd, sc.procs[snd].req.msg, sc.procs[snd].req.pass), rcv)])]
    ensures LogsOk(r)
  {
    forall d ensures LogOk(r, d) {
      assert LogOk(sc, d);
      var before := Q(sc, Senders(d));
      var senders := Q(r, Senders(d));
      var old_, log := LogOf(sc, d), LogOf(r, d);
      if d == c { assert Waits(sc, before[0], old_.sent[|old_.met| + 0]); }
      forall i | 0 <= i < |senders| ensures Waits(r, senders[i], log.sent[|log.met| + i]) {
        var j := if d == c then i + 1 else i;
        assert Waits(sc, before[j], old_.sent[|old_.met| + j]);
      }
    }
  }

  lemma OfferedOk(s: State, t: int, c: int, msg: seq<int>, pass: Pass)
    requires Sized(s) && SchedOk(s.sched) && IsTask(s, t) && s.sched.procs[t].status == Running
    ensures var r := Offered(s, t, c, msg, pass).sched;
            && SchedOk(r) && OnlyChanged(s.sched, r, t)
            && r.procs[t] == s.sched.procs[t].(status := SendBlocked, queue := Senders(c), req := Sending(c, msg, pass))
            && Q(r, Senders(c)) == Q(s.sched, Senders(c)) + [t]
            && (forall d :: d != c ==> Q(r, Senders(d)) == Q(s.sched, Senders(d)))
            && (forall d :: Q(r, Receivers(d)) == Q(s.sched, Receivers(d)))
  {
    var sc := s.sched;
    assert ProcOk(sc.procs[t]);
    BlockedOnChannel(sc, t, SendBlocked, Senders(c), Sending(c, msg, pass));
    var mid := Blocked(sc, t, SendBlocked, Senders(c), Sending(c, msg, pass));
    var r := Offered(s, t, c, msg, pass).sched;
    assert r == mid.(logs := r.logs);
    SameQueues(mid, r);
    SameCounts(mid, r);
    OfferedLogs(sc, r, t, c, msg, pass);
  }

  lemma AskedOk(s: State, t: int, c: int, cap: nat, wants: bool)
    requires Sized(s) && SchedOk(s.sched) && IsTask(s, t) && s.sched.procs[t].status == Running
    ensures var r := Asked(s, t, c, cap, wants).sched;
            && SchedOk(r) && OnlyChanged(s.sched, r, t)
            && r.procs[t] == s.sched.procs[t].(status := RecvBlocked, queue := Receivers(c), req := Receiving(c, cap, wants))
            && Q(r, Receivers(c)) == Q(s.sched, Receivers(c)) + [t]
            && (forall d :: d != c ==> Q(r, Receivers(d)) == Q(s.sched, Receivers(d)))
            && (forall d :: Q(r, Senders(d)) == Q(s.sched, Senders(d)))
  {
    var sc := s.sched;
    assert ProcOk(sc.procs[t]);
    BlockedOnChannel(sc, t, RecvBlocked, Receivers(c), Receiving(c, cap, wants));
    var mid := Blocked(sc, t, RecvBlocked, Receivers(c), Receiving(c, cap, wants));
    var r := Asked(s, t, c, cap, wants).sched;
    assert r == mid.(logs := r.logs);
    SameQueues(mid, r);
    SameCounts(mid, r);
    AskedLogs(sc, r, t, c);
  }

  ghost predicate MetTasks(sc: Sched, r: Sched, c: int, snd: int, rcv: int)
    requires 0 <= snd < |sc.procs| && 0 <= rcv < |sc.procs|
  {
    && |r.procs| == |sc.procs| && snd != rcv
    && r.procs[snd] == sc.procs[snd].(status := Running, queue := Ready(sc.procs[snd].prio))
    && r.procs[rcv] == sc.procs[rcv].(status := Running, queue := Ready(sc.procs[rcv].prio))
    && (forall u :: 0 <= u < |sc.procs| && u != snd && u != rcv ==> r.procs[u] == sc.procs[u])
    && Q(sc, Senders(c)) == [snd] + Q(r, Senders(c))
    && Q(sc, Receivers(c)) == [rcv] + Q(r, Receivers(c))
    && (forall d :: d != c ==> Q(r, Senders(d)) == Q(sc, Senders(d)) && Q(r, Receivers(d)) == Q(sc, Receivers(d)))
  }

  lemma WokenPair(sc: Sched, c: int, snd: int, rcv: int)
    requires QueuesOk(sc) && PlacedOk(sc)
    requires Q(sc, Senders(c)) != [] && Q(sc, Senders(c))[0] == snd
    requires Q(sc, Receivers(c)) != [] && Q(sc, Receivers(c))[0] == rcv
    requires IsSender(sc, snd) && IsReceiver(sc, rcv)
    ensures QueuesOk(Woken(Woken(sc, rcv), snd)) && MetTasks(sc, Woken(Woken(sc, rcv), snd), c, snd, rcv)
  {
    assert snd in Q(sc, Senders(c)) && rcv in Q(sc, Receivers(c));
    assert ProcOk(sc.procs[snd]) && ProcOk(sc.procs[rcv]);
    var mid := Woken(sc, rcv);
    MovedQueues(sc, rcv, Running, Ready(sc.procs[rcv].prio));
    assert mid.procs[snd] == sc.procs[snd] && Q(mid, Senders(c)) == Q(sc, Senders(c));
    MovedQueues(mid, snd, Running, Ready(sc.procs[snd].prio));
  }

  lemma MetPlaced(sc: Sched, r: Sched, c: int, snd: int, rcv: int)
    requires PlacedOk(sc) && CountsOk(sc) && 0 <= snd < |sc.procs| && 0 <= rcv < |sc.procs|
    requires sc.procs[snd].status != Dead && sc.procs[rcv].status != Dead
    requires MetTasks(sc, r, c, snd, rcv) && r.live == sc.live && r.nondaemon == sc.nondaemon
    ensures PlacedOk(r) && CountsOk(r)
  {
    forall t | 0 <= t < |r.procs| ensures ProcOk(r.procs[t]) { assert ProcOk(sc.procs[t]); }
    SameCounts(sc, r);
  }

  /** A meeting takes the two heads off their queues and lets them run. */
  lemma MetOk(s: State, c: int, snd: int, rcv: int)
    requires Sized(s) && SchedOk(s.sched)
    requires Q(s.sched, Senders(c)) != [] && Q(s.sched, Senders(c))[0] == snd
    requires Q(s.sched, Receivers(c)) != [] && Q(s.sched, Receivers(c))[0] == rcv
    requires IsSender(s.sched, snd) && IsReceiver(s.sched, rcv)
    ensures SchedOk(Met(s, c, snd, rcv).sched) && MetTasks(s.sched, Met(s, c, snd, rcv).sched, c, snd, rcv)
  {
    hide QueuesOk, PlacedOk, LogsOk, CountsOk, Moved, Woken, ProcOk;
    var sc := s.sched;
    WokenPair(sc, c, snd, rcv);
    WokenFields(sc, rcv);
    var end := Woken(Woken(sc, rcv), snd);
    var r := Met(s, c, snd, rcv).sched;
    WokenFields(Woken(sc, rcv), snd);
    assert r == end.(logs := r.logs);
    assert forall x :: Q(r, x) == Q(end, x);
    SameQueues(end, r);
    MetPlaced(sc, r, c, snd, rcv);
    MetLogs(sc, r, c, snd, rcv);
  }

  lemma WokenFields(sc: Sched, t: int)
    requires 0 <= t < |sc.procs|
    ensures var r := Woken(sc, t); r.logs == sc.logs && r.live == sc.live && r.nondaemon == sc.nondaemon && |r.procs| == |sc.procs|
  {
  }

  // ----- Opening and closing a descriptor -----

  /** Free list as it is while c is off it, about to be opened. */
  ghost predicate FreeBut(ch: Chans, c: int) {
    && NoDup(ch.freeChans)
    && 0 <= c < |ch.refs|
    && (forall d :: d in ch.freeChans <==> 0 <= d < |ch.refs| && ch.refs[d] == 0 && d != c)
  }

  lemma TakenOk(ch: Chans, t: int)
    requires 0 <= t < |ch.pools| && PoolOk(ch, t) && HasNumber(ch.pools[t])
    ensures var (p, no) := TakeNumber(ch.pools[t]);
            && 0 <= no < MAX_TASK_CHANNELS && Fd(t, no) !in ch.fds
            && 0 <= p.next <= MAX_TASK_CHANNELS && NoDup(p.free)
            && (forall n :: n in p.free <==> 0 <= n < p.next && n != no && Fd(t, n) !in ch.fds)
            && no < p.next && (forall n :: Fd(t, n) in ch.fds ==> 0 <= n < p.next)
  {
    var pool := ch.pools[t];
    var (p, no) := TakeNumber(pool);
    if pool.free != [] {
      assert no == pool.free[0] && no in pool.free;
      assert pool.free == [no] + p.free;
      forall n ensures n in p.free <==> n in pool.free && n != no {
        if n in p.free { var i :| 0 <= i < |p.free| && p.free[i] == n; assert pool.free[i + 1] == n; }
      }
    } else {
      assert forall n :: n !in pool.free;
    }
  }

  lemma InstalledNaming(ch: Chans, f: Fd, c: int, flags: int)
    requires f !in ch.fds && 0 <= c < |ch.refs| && RefsOk(ch)
    ensures var r := Installed(ch, f, c, flags);
            && Naming(r, c) == Naming(ch, c) + {f} && RefsOk(r)
            && (forall d :: d != c ==> Naming(r, d) == Naming(ch, d))
            && |r.refs| == |ch.refs| && r.refs[c] == ch.refs[c] + 1
  {
    var r := Installed(ch, f, c, flags);
    assert Naming(r, c) == Naming(ch, c) + {f};
    forall d | d != c ensures Naming(r, d) == Naming(ch, d) {}
  }

  lemma OpenedOk(ch: Chans, t: int, c: int, flags: int)
    requires FdsOk(ch) && PoolsOk(ch) && RefsOk(ch) && FreeBut(ch, c)
    requires 0 <= t < |ch.pools| && HasNumber(ch.pools[t])
    ensures var r := Opened(ch, t, c, flags);
            var f := Fd(t, TakeNumber(ch.pools[t]).1);
            && ChansOk(r) && f !in ch.fds && r.fds == ch.fds[f := Cd(c, flags)] && |r.pools| == |ch.pools|
            && (forall d :: Naming(ch, d) <= Naming(r, d))
  {
    var (p, no) := TakeNumber(ch.pools[t]);
    var f := Fd(t, no);
    TakenOk(ch, t);
    var mid := ch.(pools := ch.pools[t := p]);
    var r := Opened(ch, t, c, flags);
    assert RefsOk(mid) by { assert forall d :: Naming(mid, d) == Naming(ch, d); }
    InstalledNaming(mid, f, c, flags);
    forall u | 0 <= u < |r.pools| ensures PoolOk(r, u) {
      assert PoolOk(ch, u);
      if u != t {
        assert forall n :: Fd(u, n) in r.fds <==> Fd(u, n) in ch.fds;
      }
    }
    assert forall d :: Naming(mid, d) == Naming(ch, d);
    forall d ensures d in r.freeChans <==> 0 <= d < |r.refs| && r.refs[d] == 0 {
      if d == c { assert r.refs[c] == |Naming(mid, c)| + 1; }
    }
  }

  lemma DroppedOk(ch: Chans, f: Fd)
    requires ChansOk(ch) && f in ch.fds
    ensures var r := Dropped(ch, f); var c := ChanAt(ch, f);
            && ChansOk(r) && r.fds == ch.fds - {f} && |r.pools| == |ch.pools| && |r.refs| == |ch.refs|
            && 0 <= c < |r.refs| && r.refs[c] == |Naming(r, c)|
            && Naming(r, c) == Naming(ch, c) - {f} && (forall d :: d != c ==> Naming(r, d) == Naming(ch, d))
  {
    var r := Dropped(ch, f);
    var c := ChanAt(ch, f);
    assert f in Naming(ch, c);
    assert Naming(r, c) == Naming(ch, c) - {f};
    forall d | d != c ensures Naming(r, d) == Naming(ch, d) {}
    assert RefsOk(r);
    var pool := ch.pools[f.task];
    assert PoolOk(ch, f.task);
    assert f == Fd(f.task, f.no);
    assert f.no !in pool.free;
    forall u | 0 <= u < |r.pools| ensures PoolOk(r, u) {
      assert PoolOk(ch, u);
      if u == f.task {
        assert r.pools[u].free == [f.no] + pool.free;
        assert forall n :: Fd(u, n) in r.fds <==> Fd(u, n) in ch.fds && n != f.no;
      } else {
        assert forall n :: Fd(u, n) in r.fds <==> Fd(u, n) in ch.fds;
      }
    }
    assert ch.refs[c] == |Naming(ch, c)| > 0;
    assert c !in ch.freeChans;
    forall d ensures d in r.freeChans <==> 0 <= d < |r.refs| && r.refs[d] == 0 {
      if r.refs[c] == 0 { assert r.freeChans == [c] + ch.freeChans; }
    }
  }

  /** Other tasks keep what they hold when f is closed. */
  lemma DroppedKeeps(sc: Sched, ch: Chans, f: Fd)
    requires ChansOk(ch) && KeepOk(sc, ch) && f in ch.fds && 0 <= f.task < |sc.procs|
    requires sc.procs[f.task].status == Running
    ensures KeepOk(sc, Dropped(ch, f))
  {
    var r := Dropped(ch, f);
    DroppedOk(ch, f);
    forall t, c | t != f.task && Holds(ch, t, c) ensures Holds(r, t, c) {
      var g :| g in Naming(ch, c) && g.task == t;
      assert g in Naming(r, c);
    }
    forall t | 0 <= t < |sc.procs| ensures Keeps(r, t, sc.procs[t]) { assert Keeps(ch, t, sc.procs[t]); }
  }

  lemma MoreKeeps(sc: Sched, ch: Chans, r: Chans)
    requires KeepOk(sc, ch) && (forall c :: Naming(ch, c) <= Naming(r, c))
    requires forall f :: f in r.fds && 0 <= f.task < |sc.procs| ==> sc.procs[f.task].status != Dead
    ensures KeepOk(sc, r)
  {
    forall t, c | Holds(ch, t, c) ensures Holds(r, t, c) {
      var g :| g in Naming(ch, c) && g.task == t;
      assert g in Naming(r, c);
    }
    forall t | 0 <= t < |sc.procs| ensures Keeps(r, t, sc.procs[t]) { assert Keeps(ch, t, sc.procs[t]); }
  }

  // ----- Poll lists -----

  lemma LinkedOk(po: Polls, f: Fd, l: ListId)
    requires ListsOk(po) && Node(f, l.ev) !in po.at
    ensures var r := Linked(po, f, l);
            && ListsOk(r) && L(r, l) == L(po, l) + [f] && (forall x :: x != l ==> L(r, x) == L(po, x))
            && NodesOf(r, f.task) == NodesOf(po, f.task) + {Node(f, l.ev)}
            && (forall t :: t != f.task ==> NodesOf(r, t) == NodesOf(po, t))
  {
    var r := Linked(po, f, l);
    assert f !in L(po, l);
    NoDupAppend(L(po, l), f);
    forall x ensures NoDup(L(r, x)) { assert x != l ==> L(r, x) == L(po, x); }
    forall x, g {:trigger g in L(r, x)} | g in L(r, x) ensures Node(g, x.ev) in r.at && r.at[Node(g, x.ev)] == x {
      assert (x == l && g == f) || g in L(po, x);
    }
    forall g, e | Node(g, e) in r.at ensures r.at[Node(g, e)].ev == e && g in L(r, r.at[Node(g, e)]) {
      if Node(g, e) != Node(f, l.ev) { assert g in L(po, po.at[Node(g, e)]); }
    }
    forall t | t != f.task ensures NodesOf(r, t) == NodesOf(po, t) {}
  }

  lemma UnlinkedOk(po: Polls, f: Fd, ev: Ev)
    requires ListsOk(po)
    ensures var r := Unlinked(po, f, ev); var n := Node(f, ev);
            && ListsOk(r) && r.at == po.at - {n} && r.counts == po.counts
            && (n in po.at ==> L(r, po.at[n]) == Without(L(po, po.at[n]), f))
            && (forall x :: n !in po.at || x != po.at[n] ==> L(r, x) == L(po, x))
            && NodesOf(r, f.task) == NodesOf(po, f.task) - {n}
            && (forall t :: t != f.task ==> NodesOf(r, t) == NodesOf(po, t))
  {
    var r := Unlinked(po, f, ev);
    var n := Node(f, ev);
    if n in po.at {
      var l := po.at[n];
      assert l.ev == ev && f in L(po, l);
      forall x ensures NoDup(L(r, x)) { assert x != l ==> L(r, x) == L(po, x); }
      forall x, g {:trigger g in L(r, x)} | g in L(r, x) ensures Node(g, x.ev) in r.at && r.at[Node(g, x.ev)] == x {
        assert g in L(po, x);
        assert x == l ==> g != f;
      }
      forall g, e | Node(g, e) in r.at ensures r.at[Node(g, e)].ev == e && g in L(r, r.at[Node(g, e)]) {
        assert g in L(po, po.at[Node(g, e)]);
        assert po.at[Node(g, e)] == l ==> g != f;
      }
    }
    forall t | t != f.task ensures NodesOf(r, t) == NodesOf(po, t) {}
  }

  /** Everything in the invariant but what relates blocked tasks to poll lists and to each other. */
  ghost predicate Mid(s: State) {
    && Sized(s) && SchedOk(s.sched) && ChansOk(s.chans) && KeepOk(s.sched, s.chans) && PollsOk(s.chans, s.polls)
  }

  /** Quiet, apart from event ev of channel c. */
  ghost predicate QuietBut(sc: Sched, po: Polls, c: int, ev: Ev) {
    forall d, e :: Active(sc, d, e) && !(d == c && e == ev) ==> L(po, OnChannel(d, e)) == []
  }

  /** Between two turns of poll_trigger_all on (c, ev). */
  ghost predicate Triggering(s: State, c: int, ev: Ev) {
    Mid(s) && Rendezvous(s.sched) && QuietBut(s.sched, s.polls, c, ev) && Asleep(s.sched, s.polls) && Active(s.sched, c, ev)
  }

  /** Asleep, apart from task u. */
  ghost predicate AsleepBut(sc: Sched, po: Polls, u: int) {
    forall t, ev :: 0 <= t < |sc.procs| && t != u && sc.procs[t].status == PollBlocked ==> L(po, OnTask(t, ev)) == []
  }

  /** The lists after a linked node has moved to list l. */
  lemma RelinkedShape(po: Polls, f: Fd, ev: Ev, l: ListId)
    requires Node(f, ev) in po.at && l.ev == ev
    ensures var r := Linked(Unlinked(po, f, ev), f, l); var from := po.at[Node(f, ev)];
            && r.counts == po.counts && r.at == po.at[Node(f, ev) := l]
            && (forall x :: x != l && x != from ==> L(r, x) == L(po, x))
            && (from != l ==> L(r, from) == Without(L(po, from), f) && L(r, l) == L(po, l) + [f])
            && (from == l ==> L(r, l) == Without(L(po, l), f) + [f])
  {
  }

  lemma RelinkedLists(po: Polls, f: Fd, ev: Ev, l: ListId)
    requires ListsOk(po) && Node(f, ev) in po.at && l.ev == ev
    ensures ListsOk(Linked(Unlinked(po, f, ev), f, l))
  {
    UnlinkedOk(po, f, ev);
    LinkedOk(Unlinked(po, f, ev), f, l);
  }

  /** Moving a descriptor from one list to another it may be on. */
  lemma RelinkedOk(ch: Chans, po: Polls, f: Fd, ev: Ev, l: ListId)
    requires PollsOk(ch, po) && f in ch.fds && Node(f, ev) in po.at && l.ev == ev
    requires l == OnChannel(ch.fds[f].chan, ev) || l == OnTask(f.task, ev)
    ensures PollsOk(ch, Linked(Unlinked(po, f, ev), f, l))
  {
    var r := Linked(Unlinked(po, f, ev), f, l);
    RelinkedLists(po, f, ev, l);
    RelinkedShape(po, f, ev, l);
    forall t | 0 <= t < |r.counts| ensures r.counts[t] >= |NodesOf(r, t)| {
      assert NodesOf(r, t) == NodesOf(po, t);
    }
  }

  /** Telling a task blocked in poll_wait of an event keeps the structure. */
  lemma ReportedOk(s: State, f: Fd, ev: Ev)
    requires Mid(s) && IsTask(s, f.task) && s.sched.procs[f.task].status == PollBlocked
    ensures var r := Reported(s, f, ev);
            && Mid(r) && SameChannelQueues(s.sched, r.sched) && OnlyChanged(s.sched, r.sched, f.task)
            && r.sched.procs[f.task].status == Running
  {
    WokenOk(s.sched, f.task);
    var r := Reported(s, f, ev);
    forall t | 0 <= t < |r.sched.procs| ensures Keeps(r.chans, t, r.sched.procs[t]) {
      assert Keeps(s.chans, t, s.sched.procs[t]);
    }
  }

  /** Moving a linked descriptor between its two possible lists keeps the structure. */
  lemma RelinkedMid(s: State, f: Fd, ev: Ev, l: ListId)
    requires Mid(s) && Node(f, ev) in s.polls.at && l.ev == ev
    requires l == OnChannel(ChanAt(s.chans, f), ev) || l == OnTask(f.task, ev)
    ensures Mid(s.(polls := Linked(Unlinked(s.polls, f, ev), f, l)))
  {
    assert f in s.chans.fds;
    RelinkedOk(s.chans, s.polls, f, ev, l);
    RelinkedShape(s.polls, f, ev, l);
  }

  /** The head of a channel's poll list is a linked node of an open descriptor of that channel. */
  lemma HeadOfList(s: State, l: ListId)
    requires Mid(s) && L(s.polls, l) != []
    ensures var f := L(s.polls, l)[0];
            && Node(f, l.ev) in s.polls.at && s.polls.at[Node(f, l.ev)] == l && f in s.chans.fds && IsTask(s, f.task)
            && Without(L(s.polls, l), f) == L(s.polls, l)[1..]
            && match l { case OnChannel(c, _) => ChanAt(s.chans, f) == c case OnTask(t, _) => f.task == t }
  {
    var f := L(s.polls, l)[0];
    assert f in L(s.polls, l);
    assert Node(f, l.ev) in s.polls.at;
  }

  /** One descriptor of the active list (c, ev) moves to its task u, which is not left asleep. */
  lemma TriggeredRelations(sc: Sched, po: Polls, r: Sched, po': Polls, c: int, ev: Ev, u: int)
    requires Rendezvous(sc) && QuietBut(sc, po, c, ev) && Asleep(sc, po)
    requires SameChannelQueues(sc, r) && OnlyChanged(sc, r, u)
    requires 0 <= u < |sc.procs| && r.procs[u].status != PollBlocked
    requires forall x :: x != OnTask(u, ev) && x != OnChannel(c, ev) ==> L(po', x) == L(po, x)
    ensures Rendezvous(r) && QuietBut(r, po', c, ev) && Asleep(r, po')
  {
    forall d, e | Active(r, d, e) && !(d == c && e == ev) ensures L(po', OnChannel(d, e)) == [] {
      assert Active(sc, d, e);
    }
  }

  lemma TriggerOneOk(s: State, c: int, ev: Ev)
    requires Mid(s) && Rendezvous(s.sched) && QuietBut(s.sched, s.polls, c, ev) && Asleep(s.sched, s.polls)
    requires L(s.polls, OnChannel(c, ev)) != []
    ensures var r := TriggerOne(s, L(s.polls, OnChannel(c, ev))[0], ev);
            && Mid(r) && Rendezvous(r.sched) && QuietBut(r.sched, r.polls, c, ev) && Asleep(r.sched, r.polls)
            && L(r.polls, OnChannel(c, ev)) == L(s.polls, OnChannel(c, ev))[1..]
            && SameChannelQueues(s.sched, r.sched)
  {
    var f := L(s.polls, OnChannel(c, ev))[0];
    HeadOfList(s, OnChannel(c, ev));
    RelinkedMid(s, f, ev, OnTask(f.task, ev));
    RelinkedShape(s.polls, f, ev, OnTask(f.task, ev));
    var s1 := s.(polls := Linked(Unlinked(s.polls, f, ev), f, OnTask(f.task, ev)));
    if s.sched.procs[f.task].status == PollBlocked {
      ReportedOk(s1, f, ev);
    }
    var r := TriggerOne(s, f, ev);
    TriggeredRelations(s.sched, s.polls, r.sched, r.polls, c, ev, f.task);
  }

  lemma {:induction false} TriggerOk(s: State, c: int, ev: Ev)
    requires Mid(s) && Rendezvous(s.sched) && QuietBut(s.sched, s.polls, c, ev) && Asleep(s.sched, s.polls)
    ensures Inv(TriggerAll(s, c, ev)) && SameChannelQueues(s.sched, TriggerAll(s, c, ev).sched)
    decreases |L(s.polls, OnChannel(c, ev))|
  {
    var fs := L(s.polls, OnChannel(c, ev));
    if fs == [] {
    } else {
      TriggerOneOk(s, c, ev);
      TriggerOk(TriggerOne(s, fs[0], ev), c, ev);
    }
  }

  /** Moving the head of t's queue, where its event is active or back to its inactive channel. */
  lemma DrainedRelations(sc: Sched, po: Polls, po': Polls, c: int, ev: Ev, t: int)
    requires Quiet(sc, po) && AsleepBut(sc, po, t) && !Active(sc, c, ev)
    requires forall x :: x != OnTask(t, ev) && x != OnChannel(c, ev) ==> L(po', x) == L(po, x)
    ensures Quiet(sc, po') && AsleepBut(sc, po', t)
  {
  }

  lemma ReportedRelations(sc: Sched, po: Polls, r: Sched, po': Polls, ev: Ev, t: int)
    requires Rendezvous(sc) && Quiet(sc, po) && AsleepBut(sc, po, t)
    requires SameChannelQueues(sc, r) && OnlyChanged(sc, r, t)
    requires forall x :: x != OnTask(t, ev) ==> L(po', x) == L(po, x)
    ensures Rendezvous(r) && Quiet(r, po') && AsleepBut(r, po', t)
  {
    forall d, e | Active(r, d, e) ensures L(po', OnChannel(d, e)) == [] { assert Active(sc, d, e); }
  }

  /** What holds while handle_poll works on the queues of t. */
  ghost predicate Draining(s: State, t: int) {
    Mid(s) && Rendezvous(s.sched) && Quiet(s.sched, s.polls) && AsleepBut(s.sched, s.polls, t) && IsTask(s, t)
  }

  /** The head of t's queue moved to list l. */
  function Rotated(s: State, t: int, ev: Ev, l: ListId): State
    requires L(s.polls, OnTask(t, ev)) != []
  {
    var f := L(s.polls, OnTask(t, ev))[0];
    s.(polls := Linked(Unlinked(s.polls, f, ev), f, l))
  }

  lemma PollHit(s: State, t: int, ev: Ev)
    requires Draining(s, t) && s.sched.procs[t].status == PollBlocked
    requires L(s.polls, OnTask(t, ev)) != []
    requires Active(s.sched, ChanAt(s.chans, L(s.polls, OnTask(t, ev))[0]), ev)
    ensures L(s.polls, OnTask(t, ev))[0].task == t
    ensures var f := L(s.polls, OnTask(t, ev))[0];
            var r := Reported(Rotated(s, t, ev, OnTask(t, ev)), f, ev);
            && HandlePoll(s, t, ev) == Go(r) && Draining(r, t) && r.sched.procs[t].status == Running
            && (forall x :: x != OnTask(t, ev) ==> L(r.polls, x) == L(s.polls, x))
            && SameChannelQueues(s.sched, r.sched)
  {
    var f := L(s.polls, OnTask(t, ev))[0];
    HeadOfList(s, OnTask(t, ev));
    RelinkedMid(s, f, ev, OnTask(t, ev));
    RelinkedShape(s.polls, f, ev, OnTask(t, ev));
    var s1 := Rotated(s, t, ev, OnTask(t, ev));
    ReportedOk(s1, f, ev);
    ReportedRelations(s.sched, s.polls, Reported(s1, f, ev).sched, s1.polls, ev, t);
  }

  lemma PollMiss(s: State, t: int, ev: Ev)
    requires Draining(s, t)
    requires L(s.polls, OnTask(t, ev)) != []
    requires !Active(s.sched, ChanAt(s.chans, L(s.polls, OnTask(t, ev))[0]), ev)
    ensures var f := L(s.polls, OnTask(t, ev))[0];
            var r := Rotated(s, t, ev, OnChannel(ChanAt(s.chans, f), ev));
            && HandlePoll(s, t, ev) == HandlePoll(r, t, ev) && Draining(r, t)
            && L(r.polls, OnTask(t, ev)) == L(s.polls, OnTask(t, ev))[1..]
            && (forall x :: x != OnTask(t, ev) && x != OnChannel(ChanAt(s.chans, f), ev) ==> L(r.polls, x) == L(s.polls, x))
  {
    var f := L(s.polls, OnTask(t, ev))[0];
    HeadOfList(s, OnTask(t, ev));
    var l := OnChannel(ChanAt(s.chans, f), ev);
    RelinkedMid(s, f, ev, l);
    RelinkedShape(s.polls, f, ev, l);
    DrainedRelations(s.sched, s.polls, Rotated(s, t, ev, l).polls, ChanAt(s.chans, f), ev, t);
  }

  /** handle_poll leaves the task running, or blocked with its queue drained. */
  lemma {:induction false} HandlePollOk(s: State, t: int, ev: Ev)
    requires Draining(s, t) && s.sched.procs[t].status == PollBlocked
    ensures HandlePoll(s, t, ev).Go?
    ensures var r := HandlePoll(s, t, ev).s;
            && Draining(r, t) && SameChannelQueues(s.sched, r.sched)
            && (r.sched.procs[t].status == Running || (r.sched == s.sched && L(r.polls, OnTask(t, ev)) == []))
            && (forall e :: e != ev ==> L(r.polls, OnTask(t, e)) == L(s.polls, OnTask(t, e)))
    decreases |L(s.polls, OnTask(t, ev))|
  {
    hide Mid, Rendezvous, Quiet, AsleepBut;
    var queue := L(s.polls, OnTask(t, ev));
    if queue == [] {
    } else if Active(s.sched, ChanAt(s.chans, queue[0]), ev) {
      PollHit(s, t, ev);
    } else {
      PollMiss(s, t, ev);
      HandlePollOk(Rotated(s, t, ev, OnChannel(ChanAt(s.chans, queue[0]), ev)), t, ev);
    }
  }
}
