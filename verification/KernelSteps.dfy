/** Every system call and interrupt keeps the invariant, and the only panics it can reach are the
    three that a message can cause. */
module KernelSteps {
  import opened Seqs
  import opened KernelState
  import opened KernelInvariant

  /** The panics that a badly matched pair of send and receive can cause. */
  predicate MessageFault(fault: Fault) {
    fault.MessageTooLong? || fault.UnwillingReceiver? || fault.OutOfDescriptors?
  }

  /** Results and request registers play no part in the invariant. */
  lemma ReturnOk(s: State, t: int, v: int)
    requires Inv(s) && IsTask(s, t)
    ensures Inv(Return(s, t, v))
  {
  }

  // ----- Send and receive -----

  /** No new event is active and no new task is asleep. */
  lemma CalmerRelations(sc: Sched, po: Polls, r: Sched)
    requires Rendezvous(sc) && Quiet(sc, po) && Asleep(sc, po)
    requires forall c, ev :: Active(r, c, ev) ==> Active(sc, c, ev)
    requires |r.procs| == |sc.procs|
    requires forall t :: 0 <= t < |sc.procs| && r.procs[t].status == PollBlocked ==> sc.procs[t].status == PollBlocked
    ensures Rendezvous(r) && Quiet(r, po) && Asleep(r, po)
  {
    forall c ensures Q(r, Senders(c)) == [] || Q(r, Receivers(c)) == [] {
      assert Active(r, c, EvRecv) ==> Active(sc, c, EvRecv);
      assert Active(r, c, EvSend) ==> Active(sc, c, EvSend);
    }
  }

  lemma HoldsOpen(ch: Chans, f: Fd)
    requires f in ch.fds
    ensures Holds(ch, f.task, ch.fds[f].chan)
  {
    assert f in Naming(ch, ch.fds[f].chan);
  }

  lemma OfferedMid(s: State, t: int, c: int, msg: seq<int>, pass: Pass)
    requires Mid(s) && IsTask(s, t) && s.sched.procs[t].status == Running
    requires Holds(s.chans, t, c) && (pass.Pass? ==> Holds(s.chans, t, pass.chan))
    ensures Mid(Offered(s, t, c, msg, pass))
  {
    OfferedOk(s, t, c, msg, pass);
    var r := Offered(s, t, c, msg, pass);
    forall u | 0 <= u < |r.sched.procs| ensures Keeps(r.chans, u, r.sched.procs[u]) {
      assert Keeps(s.chans, u, s.sched.procs[u]);
    }
  }

  lemma AskedMid(s: State, t: int, c: int, cap: nat, wants: bool)
    requires Mid(s) && IsTask(s, t) && s.sched.procs[t].status == Running && Holds(s.chans, t, c)
    ensures Mid(Asked(s, t, c, cap, wants))
  {
    AskedOk(s, t, c, cap, wants);
    var r := Asked(s, t, c, cap, wants);
    forall u | 0 <= u < |r.sched.procs| ensures Keeps(r.chans, u, r.sched.procs[u]) {
      assert Keeps(s.chans, u, s.sched.procs[u]);
    }
  }

  /** Whoever waits in a channel's queues is blocked on that channel. */
  lemma HeadsBlocked(sc: Sched, c: int)
    requires QueuesOk(sc) && PlacedOk(sc)
    ensures forall t :: t in Q(sc, Senders(c)) ==> IsSender(sc, t) && sc.procs[t].req.chan == c
    ensures forall t :: t in Q(sc, Receivers(c)) ==> IsReceiver(sc, t) && sc.procs[t].req.chan == c
  {
    forall t | t in Q(sc, Senders(c)) ensures IsSender(sc, t) && sc.procs[t].req.chan == c {
      assert ProcOk(sc.procs[t]);
    }
    forall t | t in Q(sc, Receivers(c)) ensures IsReceiver(sc, t) && sc.procs[t].req.chan == c {
      assert ProcOk(sc.procs[t]);
    }
  }

  /** A channel that somebody holds is counted, so it is not on the free list. */
  lemma HeldIsLive(ch: Chans, t: int, c: int)
    requires ChansOk(ch) && Holds(ch, t, c)
    ensures 0 <= c < |ch.refs| && ch.refs[c] > 0 && FreeBut(ch, c)
  {
    var f :| f in Naming(ch, c) && f.task == t;
    assert ch.refs[c] == |Naming(ch, c)|;
  }

  /** One more descriptor, of a channel in use, for a task that is not dead. */
  lemma OpenedKeeps(sc: Sched, ch: Chans, po: Polls, t: int, c: int, flags: int)
    requires ChansOk(ch) && KeepOk(sc, ch) && NodesOk(ch, po) && FreeBut(ch, c)
    requires 0 <= t < |ch.pools| == |sc.procs| && HasNumber(ch.pools[t]) && sc.procs[t].status != Dead
    ensures var r := Opened(ch, t, c, flags);
            ChansOk(r) && KeepOk(sc, r) && NodesOk(r, po) && |r.pools| == |ch.pools|
  {
    OpenedOk(ch, t, c, flags);
    MoreKeeps(sc, ch, Opened(ch, t, c, flags));
  }

  lemma MetChans(s: State, c: int, snd: int, rcv: int)
    requires Mid(s) && IsSender(s.sched, snd) && IsReceiver(s.sched, rcv)
    requires s.sched.procs[snd].req.pass.Pass? ==> HasNumber(s.chans.pools[rcv])
    ensures var r := Met(s, c, snd, rcv).chans;
            ChansOk(r) && KeepOk(s.sched, r) && NodesOk(r, s.polls) && |r.pools| == |s.chans.pools|
  {
    var pass := s.sched.procs[snd].req.pass;
    if pass.Pass? {
      assert Keeps(s.chans, snd, s.sched.procs[snd]);
      HeldIsLive(s.chans, snd, pass.chan);
      OpenedKeeps(s.sched, s.chans, s.polls, rcv, pass.chan, pass.flags);
    }
  }

  lemma MetMid(s: State, c: int, snd: int, rcv: int)
    requires Mid(s)
    requires Q(s.sched, Senders(c)) != [] && Q(s.sched, Senders(c))[0] == snd
    requires Q(s.sched, Receivers(c)) != [] && Q(s.sched, Receivers(c))[0] == rcv
    requires IsSender(s.sched, snd) && IsReceiver(s.sched, rcv)
    requires s.sched.procs[snd].req.pass.Pass? ==> HasNumber(s.chans.pools[rcv])
    ensures Mid(Met(s, c, snd, rcv)) && MetTasks(s.sched, Met(s, c, snd, rcv).sched, c, snd, rcv)
  {
    hide SchedOk, ChansOk, ListsOk, NodesOk, PollCountsOk;
    MetOk(s, c, snd, rcv);
    MetChans(s, c, snd, rcv);
    var r := Met(s, c, snd, rcv);
    forall u | 0 <= u < |r.sched.procs| ensures Keeps(r.chans, u, r.sched.procs[u]) {
      assert Keeps(r.chans, u, s.sched.procs[u]);
    }
  }

  /** A delivery happens when both queues have somebody and the two calls fit. */
  lemma DeliverOk(s: State, c: int)
    requires Mid(s)
    ensures match Deliver(s, c)
            case Panic(fault) => MessageFault(fault)
            case Go(r) =>
              && Mid(r) && r.polls == s.polls
              && (if Q(s.sched, Senders(c)) == [] || Q(s.sched, Receivers(c)) == [] then r == s
                  else MetTasks(s.sched, r.sched, c, Q(s.sched, Senders(c))[0], Q(s.sched, Receivers(c))[0]))
  {
    HeadsBlocked(s.sched, c);
    if Q(s.sched, Senders(c)) != [] && Q(s.sched, Receivers(c)) != [] && Deliver(s, c).Go? {
      MetMid(s, c, Q(s.sched, Senders(c))[0], Q(s.sched, Receivers(c))[0]);
    }
  }

  /** The state after a meeting in which the caller found somebody waiting. */
  lemma MetCalm(s: State, mid: State, r: State, c: int, t: int, snd: int, rcv: int)
    requires Inv(s) && Mid(r) && r.polls == s.polls
    requires |mid.sched.procs| == |s.sched.procs| && OnlyChanged(s.sched, mid.sched, t)
    requires 0 <= snd < |s.sched.procs| && 0 <= rcv < |s.sched.procs| && (t == snd || t == rcv)
    requires MetTasks(mid.sched, r.sched, c, snd, rcv)
    requires forall d :: d != c ==> Q(mid.sched, Senders(d)) == Q(s.sched, Senders(d))
    requires forall d :: d != c ==> Q(mid.sched, Receivers(d)) == Q(s.sched, Receivers(d))
    requires (Q(r.sched, Senders(c)) != [] ==> Q(s.sched, Senders(c)) != [])
    requires (Q(r.sched, Receivers(c)) != [] ==> Q(s.sched, Receivers(c)) != [])
    ensures Inv(r)
  {
    forall d, ev | Active(r.sched, d, ev) ensures Active(s.sched, d, ev) {
      if d != c {
        assert Q(r.sched, Senders(d)) == Q(mid.sched, Senders(d));
        assert Q(r.sched, Receivers(d)) == Q(mid.sched, Receivers(d));
      }
    }
    CalmerRelations(s.sched, s.polls, r.sched);
  }

  lemma SendOk(s: State, t: int, no: int, msg: seq<int>, sch: int, flags: int)
    requires Inv(s) && IsTask(s, t) && s.sched.procs[t].status == Running
    ensures match SysSend(s, t, no, msg, sch, flags)
            case Panic(fault) => MessageFault(fault)
            case Go(r) => Inv(r)
  {
    var out := SysSend(s, t, no, msg, sch, flags);
    if out.Go? && out.s == Return(s, t, EBADF) { ReturnOk(s, t, EBADF); return; }
    if out.Go? && out.s == Return(s, t, EWOULDBLOCK) { ReturnOk(s, t, EWOULDBLOCK); return; }
    var cd := s.chans.fds[Fd(t, no)];
    var c := cd.chan;
    var pass := if sch == NONE then NoPass else Pass(s.chans.fds[Fd(t, sch)].chan, s.chans.fds[Fd(t, sch)].flags);
    HoldsOpen(s.chans, Fd(t, no));
    if sch != NONE { HoldsOpen(s.chans, Fd(t, sch)); }
    SendQueued(s, t, c, msg, pass);
  }

  /** The caller t found nobody: it waits, and event ev of c, that it makes active, is triggered. */
  lemma QueuedCalm(s: State, mid: State, c: int, ev: Ev, t: int)
    requires Inv(s) && Mid(mid) && mid.polls == s.polls && OnlyChanged(s.sched, mid.sched, t)
    requires IsTask(s, t) && mid.sched.procs[t].status != PollBlocked
    requires forall d, e :: Active(mid.sched, d, e) ==> Active(s.sched, d, e) || (d == c && e == ev)
    requires forall e :: Active(mid.sched, c, e) <==> e == ev
    ensures Triggering(mid, c, ev) && Inv(TriggerAll(mid, c, ev))
  {
    forall d ensures Q(mid.sched, Senders(d)) == [] || Q(mid.sched, Receivers(d)) == [] {
      if d == c {
        assert !Active(mid.sched, c, if ev == EvRecv then EvSend else EvRecv);
      } else {
        assert Active(mid.sched, d, EvRecv) ==> Active(s.sched, d, EvRecv);
        assert Active(mid.sched, d, EvSend) ==> Active(s.sched, d, EvSend);
      }
    }
    TriggerOk(mid, c, ev);
  }

  lemma SendQueued(s: State, t: int, c: int, msg: seq<int>, pass: Pass)
    requires Inv(s) && IsTask(s, t) && s.sched.procs[t].status == Running
    requires Holds(s.chans, t, c) && (pass.Pass? ==> Holds(s.chans, t, pass.chan))
    ensures match Deliver(Offered(s, t, c, msg, pass), c)
            case Panic(fault) => MessageFault(fault)
            case Go(r) =>
              && (Q(r.sched, Senders(c)) != [] ==> Triggering(r, c, EvRecv))
              && Inv(if Q(r.sched, Senders(c)) != [] then TriggerAll(r, c, EvRecv) else r)
  {
    hide SchedOk, ChansOk, KeepOk, PollsOk, Quiet, Asleep, Triggering;
    var mid := Offered(s, t, c, msg, pass);
    OfferedOk(s, t, c, msg, pass);
    OfferedMid(s, t, c, msg, pass);
    DeliverOk(mid, c);
    if Q(s.sched, Receivers(c)) == [] {
      QueuedCalm(s, mid, c, EvRecv, t);
    } else if Deliver(mid, c).Go? {
      assert Q(s.sched, Senders(c)) == [];
      MetCalm(s, mid, Deliver(mid, c).s, c, t, t, Q(s.sched, Receivers(c))[0]);
    }
  }

  lemma ReceiveQueued(s: State, t: int, c: int, cap: nat, wants: bool)
    requires Inv(s) && IsTask(s, t) && s.sched.procs[t].status == Running && Holds(s.chans, t, c)
    ensures match Deliver(Asked(s, t, c, cap, wants), c)
            case Panic(fault) => MessageFault(fault)
            case Go(r) =>
              && (Q(r.sched, Receivers(c)) != [] ==> Triggering(r, c, EvSend))
              && Inv(if Q(r.sched, Receivers(c)) != [] then TriggerAll(r, c, EvSend) else r)
  {
    hide SchedOk, ChansOk, KeepOk, PollsOk, Quiet, Asleep, Triggering;
    var mid := Asked(s, t, c, cap, wants);
    AskedOk(s, t, c, cap, wants);
    AskedMid(s, t, c, cap, wants);
    DeliverOk(mid, c);
    if Q(s.sched, Senders(c)) == [] {
      QueuedCalm(s, mid, c, EvSend, t);
    } else if Deliver(mid, c).Go? {
      assert Q(s.sched, Receivers(c)) == [];
      MetCalm(s, mid, Deliver(mid, c).s, c, t, Q(s.sched, Senders(c))[0], t);
    }
  }

  lemma ReceiveOk(s: State, t: int, no: int, cap: nat, wants: bool, flags: int)
    requires Inv(s) && IsTask(s, t) && s.sched.procs[t].status == Running
    ensures match SysRecv(s, t, no, cap, wants, flags)
            case Panic(fault) => MessageFault(fault)
            case Go(r) => Inv(r)
  {
    var out := SysRecv(s, t, no, cap, wants, flags);
    if out.Go? && out.s == Return(s, t, EBADF) { ReturnOk(s, t, EBADF); return; }
    if out.Go? && out.s == Return(s, t, EWOULDBLOCK) { ReturnOk(s, t, EWOULDBLOCK); return; }
    HoldsOpen(s.chans, Fd(t, no));
    ReceiveQueued(s, t, s.chans.fds[Fd(t, no)].chan, cap, wants);
  }

  // ----- Polling -----

  lemma PolledInv(s: State, po: Polls)
    requires Inv(s) && |po.counts| == |s.polls.counts|
    requires PollsOk(s.chans, po) && Quiet(s.sched, po) && Asleep(s.sched, po)
    ensures Inv(s.(polls := po))
  {
  }

  lemma AddedRelations(sc: Sched, po: Polls, r: Polls, f: Fd, ev: Ev, l: ListId, c: int)
    requires Quiet(sc, po) && Asleep(sc, po) && (forall x :: x != l ==> L(r, x) == L(po, x))
    requires 0 <= f.task < |sc.procs| && sc.procs[f.task].status == Running
    requires l == if Active(sc, c, ev) then OnTask(f.task, ev) else OnChannel(c, ev)
    ensures Quiet(sc, r) && Asleep(sc, r)
  {
  }

  lemma PollAddedOk(s: State, f: Fd, ev: Ev, c: int, l: ListId, po: Polls)
    requires Inv(s) && f in s.chans.fds && IsTask(s, f.task) && s.sched.procs[f.task].status == Running
    requires Node(f, ev) !in s.polls.at && c == s.chans.fds[f].chan
    requires l == if Active(s.sched, c, ev) then OnTask(f.task, ev) else OnChannel(c, ev)
    requires po == Linked(s.polls, f, l).(counts := s.polls.counts[f.task := s.polls.counts[f.task] + 1])
    ensures Inv(s.(polls := po))
  {
    hide SchedOk, ChansOk, KeepOk, ListsOk, NodesOk, PollCountsOk;
    AddedPolls(s.chans, s.polls, f, l);
    AddedRelations(s.sched, s.polls, po, f, ev, l, c);
    PolledInv(s, po);
  }

  lemma PollAddOneOk(s: State, f: Fd, ev: Ev, flags: int)
    requires Inv(s) && f in s.chans.fds && IsTask(s, f.task) && s.sched.procs[f.task].status == Running
    ensures Inv(PollAddOne(s, f, ev, flags))
    ensures PollAddOne(s, f, ev, flags).sched == s.sched && PollAddOne(s, f, ev, flags).chans == s.chans
  {
    hide SchedOk, Rendezvous, FdsOk, PoolsOk, RefsOk, FreeOk, KeepOk, PollsOk, Quiet, Asleep;
    if Wanted(flags, ev) && Node(f, ev) !in s.polls.at {
      var c := s.chans.fds[f].chan;
      var l := if Active(s.sched, c, ev) then OnTask(f.task, ev) else OnChannel(c, ev);
      PollAddedOk(s, f, ev, c, l, PollAddOne(s, f, ev, flags).polls);
    }
  }

  lemma AddedPolls(ch: Chans, po: Polls, f: Fd, l: ListId)
    requires PollsOk(ch, po) && f in ch.fds && 0 <= f.task < |po.counts| && Node(f, l.ev) !in po.at
    requires l == OnTask(f.task, l.ev) || l == OnChannel(ch.fds[f].chan, l.ev)
    ensures var r := Linked(po, f, l).(counts := po.counts[f.task := po.counts[f.task] + 1]);
            && PollsOk(ch, r) && L(r, l) == L(po, l) + [f] && (forall x :: x != l ==> L(r, x) == L(po, x))
  {
    var mid := Linked(po, f, l);
    LinkedOk(po, f, l);
    var r := mid.(counts := po.counts[f.task := po.counts[f.task] + 1]);
    assert forall x :: L(r, x) == L(mid, x);
    assert ListsOk(r);
    forall t | 0 <= t < |r.counts| ensures r.counts[t] >= |NodesOf(r, t)| {
      assert NodesOf(r, t) == NodesOf(mid, t);
      assert po.counts[t] >= |NodesOf(po, t)|;
    }
  }

  lemma RemovedPolls(ch: Chans, po: Polls, f: Fd, ev: Ev)
    requires PollsOk(ch, po) && 0 <= f.task < |po.counts| && Node(f, ev) in po.at
    ensures var r := Unlinked(po, f, ev).(counts := po.counts[f.task := po.counts[f.task] - 1]);
            && PollsOk(ch, r) && (forall x :: L(po, x) == [] ==> L(r, x) == [])
  {
    var mid := Unlinked(po, f, ev);
    UnlinkedOk(po, f, ev);
    var r := mid.(counts := po.counts[f.task := po.counts[f.task] - 1]);
    assert forall x :: L(r, x) == L(mid, x);
    assert ListsOk(r);
    assert Node(f, ev) in NodesOf(po, f.task);
    forall t | 0 <= t < |r.counts| ensures r.counts[t] >= |NodesOf(r, t)| {
      assert NodesOf(r, t) == NodesOf(mid, t);
      assert po.counts[t] >= |NodesOf(po, t)|;
    }
  }

  lemma PollRemoveOneOk(s: State, f: Fd, ev: Ev, flags: int)
    requires Inv(s) && IsTask(s, f.task) && s.sched.procs[f.task].status == Running
    ensures Inv(PollRemoveOne(s, f, ev, flags))
    ensures PollRemoveOne(s, f, ev, flags).sched == s.sched && PollRemoveOne(s, f, ev, flags).chans == s.chans
  {
    hide SchedOk, ChansOk, KeepOk, ListsOk, NodesOk, PollCountsOk;
    if Wanted(flags, ev) && Node(f, ev) in s.polls.at {
      RemovedPolls(s.chans, s.polls, f, ev);
      PolledInv(s, PollRemoveOne(s, f, ev, flags).polls);
    }
  }

  lemma PollAddOk(s: State, t: int, no: int, flags: int)
    requires Inv(s) && IsTask(s, t) && s.sched.procs[t].status == Running
    ensures SysPollAdd(s, t, no, flags).Go? && Inv(SysPollAdd(s, t, no, flags).s)
  {
    var r := SysPollAdd(s, t, no, flags).s;
    if r == Return(s, t, EBADF) {
      ReturnOk(s, t, EBADF);
    } else {
      var f := Fd(t, no);
      PollAddOneOk(s, f, EvRecv, flags);
      PollAddOneOk(PollAddOne(s, f, EvRecv, flags), f, EvSend, flags);
      ReturnOk(PollAddOne(PollAddOne(s, f, EvRecv, flags), f, EvSend, flags), t, 0);
    }
  }

  lemma PollRemoveOk(s: State, t: int, no: int, flags: int)
    requires Inv(s) && IsTask(s, t) && s.sched.procs[t].status == Running
    ensures SysPollRemove(s, t, no, flags).Go? && Inv(SysPollRemove(s, t, no, flags).s)
  {
    var r := SysPollRemove(s, t, no, flags).s;
    if r == Return(s, t, EBADF) {
      ReturnOk(s, t, EBADF);
    } else {
      var f := Fd(t, no);
      PollRemoveOneOk(s, f, EvRecv, flags);
      PollRemoveOneOk(PollRemoveOne(s, f, EvRecv, flags), f, EvSend, flags);
      ReturnOk(PollRemoveOne(PollRemoveOne(s, f, EvRecv, flags), f, EvSend, flags), t, 0);
    }
  }

  /** A running task that blocks in poll_wait or event_wait. */
  lemma ParkedMid(s: State, t: int, status: Status, q: QueueId, req: Request)
    requires Inv(s) && IsTask(s, t) && s.sched.procs[t].status == Running
    requires status == PollBlocked || status == EventBlocked
    requires ProcOk(s.sched.procs[t].(status := status, queue := q, req := req))
    ensures var r := s.(sched := Blocked(s.sched, t, status, q, req));
            && Draining(r, t) && SameChannelQueues(s.sched, r.sched) && OnlyChanged(s.sched, r.sched, t)
            && r.sched.procs[t].status == status
  {
    BlockedOk(s.sched, t, status, q, req);
    var r := s.(sched := Blocked(s.sched, t, status, q, req));
    forall u | 0 <= u < |r.sched.procs| ensures Keeps(r.chans, u, r.sched.procs[u]) {
      assert Keeps(s.chans, u, s.sched.procs[u]);
    }
    CalmerRelationsBut(s.sched, s.polls, r.sched, t);
  }

  lemma CalmerRelationsBut(sc: Sched, po: Polls, r: Sched, t: int)
    requires Rendezvous(sc) && Quiet(sc, po) && Asleep(sc, po)
    requires SameChannelQueues(sc, r) && OnlyChanged(sc, r, t)
    ensures Rendezvous(r) && Quiet(r, po) && AsleepBut(r, po, t)
  {
    forall c, ev | Active(r, c, ev) ensures L(po, OnChannel(c, ev)) == [] { assert Active(sc, c, ev); }
  }

  lemma DrainedInv(s: State, t: int)
    requires Draining(s, t)
    requires s.sched.procs[t].status != PollBlocked || forall ev :: L(s.polls, OnTask(t, ev)) == []
    ensures Inv(s)
  {
  }

  lemma PollWaitOk(s: State, t: int, presult: bool)
    requires Inv(s) && IsTask(s, t) && s.sched.procs[t].status == Running
    ensures SysPollWait(s, t, presult).Go? && Inv(SysPollWait(s, t, presult).s)
  {
    hide ChansOk, KeepOk, PollsOk, Quiet, QueuesOk, CountsOk, LogsOk, Rendezvous;
    if s.polls.counts[t] == 0 || !presult {
      ReturnOk(s, t, EINVAL);
      ReturnOk(s, t, EFAULT);
    } else {
      var s0 := s.(sched := Blocked(s.sched, t, PollBlocked, Polling, Nothing));
      assert ProcOk(s.sched.procs[t]);
      ParkedMid(s, t, PollBlocked, Polling, Nothing);
      HandlePollOk(s0, t, EvRecv);
      var s1 := HandlePoll(s0, t, EvRecv).s;
      if s1.sched.procs[t].status == Running {
        DrainedInv(s1, t);
      } else {
        HandlePollOk(s1, t, EvSend);
        var s2 := HandlePoll(s1, t, EvSend).s;
        forall ev | s2.sched.procs[t].status != Running ensures L(s2.polls, OnTask(t, ev)) == [] {
          if ev == EvRecv { assert ev != EvSend; }
        }
        DrainedInv(s2, t);
      }
    }
  }

  lemma EventWaitOk(s: State, t: int, event: int)
    requires Inv(s) && IsTask(s, t) && s.sched.procs[t].status == Running
    ensures SysEventWait(s, t, event).Go? && Inv(SysEventWait(s, t, event).s)
  {
    if event < 0 || event >= NEVENTS {
      ReturnOk(s, t, EINVAL);
    } else {
      assert ProcOk(s.sched.procs[t]);
      ParkedMid(s, t, EventBlocked, Waiting(event), Awaiting(event));
      var r := s.(sched := Blocked(s.sched, t, EventBlocked, Waiting(event), Awaiting(event)));
      DrainedInv(r, t);
      ReturnOk(r, t, EINTR);
    }
  }

  // ----- Interrupts and scheduling -----

  lemma AwakeQueue(sc: Sched, t: int)
    requires 0 <= t < |sc.procs|
    ensures Woken(sc, t).procs[t] == sc.procs[t].(status := Running, queue := Ready(sc.procs[t].prio))
  {
  }

  lemma WakeOneOk(s: State, t: int)
    requires Inv(s) && IsTask(s, t) && s.sched.procs[t].status == EventBlocked
    ensures Inv(s.(sched := Woken(s.sched, t)))
  {
    hide SchedOk, ChansOk, PollsOk, Woken, Rendezvous, Quiet, Asleep, AsleepBut;
    AwakeQueue(s.sched, t);
    WokenOk(s.sched, t);
    var r := s.(sched := Woken(s.sched, t));
    forall u | 0 <= u < |r.sched.procs| ensures Keeps(r.chans, u, r.sched.procs[u]) {
      assert Keeps(s.chans, u, s.sched.procs[u]);
    }
    CalmerRelationsBut(s.sched, s.polls, r.sched, t);
    DrainedInv(r, t);
  }

  lemma {:induction false} WakeAllOk(s: State, ts: seq<int>, v: int)
    requires Inv(s) && NoDup(ts)
    requires forall t :: t in ts ==> IsTask(s, t) && s.sched.procs[t].status == EventBlocked
    ensures Inv(WakeAll(s, ts, v))
    decreases |ts|
  {
    if ts == [] {
    } else {
      var t := ts[0];
      assert t in ts;
      WakeOneOk(s, t);
      var s1 := Return(s.(sched := Woken(s.sched, t)), t, v);
      ReturnOk(s.(sched := Woken(s.sched, t)), t, v);
      forall u | u in ts[1..] ensures IsTask(s1, u) && s1.sched.procs[u].status == EventBlocked {
        var i :| 0 <= i < |ts[1..]| && ts[1..][i] == u;
        assert ts[i + 1] == u && u != t && u in ts;
      }
      WakeAllOk(s1, ts[1..], v);
    }
  }

  lemma InterruptOk(s: State, event: int, v: int)
    requires Inv(s)
    ensures Inv(Interrupt(s, event, v))
  {
    forall t | t in Q(s.sched, Waiting(event)) ensures IsTask(s, t) && s.sched.procs[t].status == EventBlocked {
      assert ProcOk(s.sched.procs[t]);
    }
    WakeAllOk(s, Q(s.sched, Waiting(event)), v);
  }

  lemma ScheduledOk(s: State)
    requires Inv(s)
    ensures Scheduled(s) == Panic(NothingToSchedule) || (Scheduled(s).Go? && Inv(Scheduled(s).s))
  {
    if Scheduled(s).Go? {
      var p := FirstReady(s.sched, 0);
      var sc, r := s.sched, Scheduled(s).s.sched;
      var q := Q(sc, Ready(p));
      assert Q(r, Ready(p)) == q[1..] + [q[0]];
      assert q == [q[0]] + q[1..];
      assert forall x :: x != Ready(p) ==> Q(r, x) == Q(sc, x);
      RotatedQueues(sc, r, Ready(p));
      SameCounts(sc, r);
      SameLogs(sc, r);
      CalmerRelations(sc, s.polls, r);
    }
  }

  lemma RotatedQueues(sc: Sched, r: Sched, q: QueueId)
    requires QueuesOk(sc) && r.procs == sc.procs && Q(sc, q) != []
    requires Q(r, q) == Q(sc, q)[1..] + [Q(sc, q)[0]]
    requires forall x :: x != q ==> Q(r, x) == Q(sc, x)
    ensures QueuesOk(r)
  {
    var old_ := Q(sc, q);
    assert old_ == [old_[0]] + old_[1..];
    forall x ensures NoDup(Q(r, x)) { assert NoDup(Q(sc, x)); }
    forall x, t {:trigger t in Q(r, x)} | t in Q(r, x) ensures 0 <= t < |r.procs| && r.procs[t].queue == x {
      assert t in Q(sc, x);
    }
    forall t | 0 <= t < |r.procs| ensures t in Q(r, r.procs[t].queue) {
      assert t in Q(sc, sc.procs[t].queue);
    }
  }

  // ----- Channels and descriptors -----

  /** A channel that no descriptor names has nobody waiting on it and nothing on its lists. */
  lemma UnnamedIsIdle(s: State, c: int)
    requires Mid(s)
    ensures Naming(s.chans, c) == {} ==> Q(s.sched, Senders(c)) == [] && Q(s.sched, Receivers(c)) == []
    ensures Naming(s.chans, c) == {} ==> forall ev :: L(s.polls, OnChannel(c, ev)) == []
  {
    HeadsBlocked(s.sched, c);
    var senders, receivers := Q(s.sched, Senders(c)), Q(s.sched, Receivers(c));
    if senders != [] {
      assert senders[0] in senders;
      assert Keeps(s.chans, senders[0], s.sched.procs[senders[0]]);
    }
    if receivers != [] {
      assert receivers[0] in receivers;
      assert Keeps(s.chans, receivers[0], s.sched.procs[receivers[0]]);
    }
    forall ev | L(s.polls, OnChannel(c, ev)) != [] ensures Naming(s.chans, c) != {} {
      HeadOfList(s, OnChannel(c, ev));
      assert L(s.polls, OnChannel(c, ev))[0] in Naming(s.chans, c);
    }
  }

  lemma FreshOk(ch: Chans)
    requires ChansOk(ch)
    ensures var (r, c) := FreshChannel(ch);
            && FdsOk(r) && PoolsOk(r) && RefsOk(r) && FreeBut(r, c) && Naming(ch, c) == {}
            && r.fds == ch.fds && r.pools == ch.pools && (forall d :: Naming(r, d) == Naming(ch, d))
  {
    var (r, c) := FreshChannel(ch);
    assert forall d :: Naming(r, d) == Naming(ch, d);
    if ch.freeChans == [] {
      assert forall d :: d !in ch.freeChans;
      assert Naming(ch, c) == {};
    } else {
      assert c in ch.freeChans && ch.refs[c] == |Naming(ch, c)| == 0;
      assert ch.freeChans == [c] + r.freeChans;
      forall d ensures d in r.freeChans <==> d in ch.freeChans && d != c {
        if d in r.freeChans { var i :| 0 <= i < |r.freeChans| && r.freeChans[i] == d; assert ch.freeChans[i + 1] == d; }
      }
      assert RefsOk(r);
    }
    forall t | 0 <= t < |r.pools| ensures PoolOk(r, t) { assert PoolOk(ch, t); }
  }

  /** Emptying the queues and the history of an idle channel. */
  lemma ResetOk(sc: Sched, c: int)
    requires SchedOk(sc) && Q(sc, Senders(c)) == [] && Q(sc, Receivers(c)) == []
    ensures var r := sc.(queues := sc.queues[Senders(c) := []][Receivers(c) := []], logs := sc.logs[c := Log([], [], [])]);
            SchedOk(r) && SameChannelQueues(sc, r) && r.procs == sc.procs
  {
    var r := sc.(queues := sc.queues[Senders(c) := []][Receivers(c) := []], logs := sc.logs[c := Log([], [], [])]);
    assert forall q :: Q(r, q) == Q(sc, q);
    SameQueues(sc, r);
    SameCounts(sc, r);
    forall d ensures LogOk(r, d) {
      assert LogOk(sc, d);
      var senders := Q(r, Senders(d));
      forall i | 0 <= i < |senders| ensures Waits(r, senders[i], LogOf(r, d).sent[|LogOf(r, d).met| + i]) {
        assert Waits(sc, senders[i], LogOf(sc, d).sent[|LogOf(sc, d).met| + i]);
      }
    }
  }

  lemma SameLists(ch: Chans, po: Polls, r: Polls)
    requires PollsOk(ch, po) && r.at == po.at && r.counts == po.counts && (forall l :: L(r, l) == L(po, l))
    ensures PollsOk(ch, r)
  {
    forall l ensures NoDup(L(r, l)) { assert NoDup(L(po, l)); }
    forall f, ev | Node(f, ev) in r.at ensures r.at[Node(f, ev)].ev == ev && f in L(r, r.at[Node(f, ev)]) {}
    forall l, f {:trigger f in L(r, l)} | f in L(r, l) ensures Node(f, l.ev) in r.at && r.at[Node(f, l.ev)] == l {
      assert f in L(po, l);
    }
    assert ListsOk(r);
    forall t | 0 <= t < |r.counts| ensures r.counts[t] >= |NodesOf(r, t)| {
      assert NodesOf(r, t) == NodesOf(po, t);
    }
  }

  lemma ChannelOk(s: State, t: int)
    requires Inv(s) && IsTask(s, t) && s.sched.procs[t].status == Running
    ensures SysChannel(s, t).Go? && Inv(SysChannel(s, t).s)
  {
    hide SchedOk, FdsOk, PoolsOk, RefsOk, FreeOk, ListsOk, NodesOk, PollCountsOk, FreeBut;
    if !HasNumber(s.chans.pools[t]) {
      ReturnOk(s, t, EMFILE);
    } else {
      var (ch, c) := FreshChannel(s.chans);
      FreshOk(s.chans);
      UnnamedIsIdle(s, c);
      ResetOk(s.sched, c);
      OpenedOk(ch, t, c, CHAN_RECV + CHAN_SEND);
      var chans := Opened(ch, t, c, CHAN_RECV + CHAN_SEND);
      OpenedNodes(s.chans, chans, s.polls, t, c);
      MoreKeeps(s.sched, s.chans, chans);
      var sched := s.sched.(queues := s.sched.queues[Senders(c) := []][Receivers(c) := []],
                            logs := s.sched.logs[c := Log([], [], [])]);
      var polls := s.polls.(lists := s.polls.lists[OnChannel(c, EvRecv) := []][OnChannel(c, EvSend) := []]);
      assert forall l :: L(polls, l) == L(s.polls, l);
      SameLists(chans, s.polls, polls);
      CalmerRelations(s.sched, s.polls, sched);
      var s1 := s.(chans := chans, sched := sched, polls := polls);
      assert Inv(s1);
      ReturnOk(s1, t, TakeNumber(s.chans.pools[t]).1);
    }
  }

  /** More descriptors, none of the old ones changed: poll nodes stay in order. */
  lemma OpenedNodes(ch: Chans, r: Chans, po: Polls, t: int, c: int)
    requires PollsOk(ch, po) && (forall f :: f in ch.fds ==> f in r.fds && r.fds[f].chan == ch.fds[f].chan)
    ensures PollsOk(r, po)
  {
  }

  /** Closing an open descriptor of a running task reaches no panic. */
  lemma CloseOk(s: State, f: Fd)
    requires Inv(s) && f in s.chans.fds && IsTask(s, f.task) && s.sched.procs[f.task].status == Running
    ensures Close(s, f).Go?
    ensures var r := Close(s, f).s;
            Inv(r) && r.sched == s.sched && r.chans == Dropped(s.chans, f) && r.chans.fds == s.chans.fds - {f} && r.outs == s.outs
  {
    hide SchedOk, FdsOk, PoolsOk, RefsOk, FreeOk, KeepOk, ListsOk, NodesOk, PollCountsOk;
    var c := ChanAt(s.chans, f);
    var mid := Unlinked(s.polls, f, EvRecv);
    var po := Unlinked(mid, f, EvSend);
    DroppedOk(s.chans, f);
    DroppedKeeps(s.sched, s.chans, f);
    ClosedPolls(s.chans, Dropped(s.chans, f), s.polls, f);
    var s1 := s.(chans := Dropped(s.chans, f), polls := po);
    assert Inv(s1);
    if RefOf(s1.chans, c) == 0 {
      UnnamedIsIdle(s1, c);
    }
  }

  lemma ClosedLists(po: Polls, f: Fd)
    requires ListsOk(po)
    ensures var r := Unlinked(Unlinked(po, f, EvRecv), f, EvSend);
            && ListsOk(r) && r.counts == po.counts && r.at == po.at - {Node(f, EvRecv), Node(f, EvSend)}
            && (forall l :: L(po, l) == [] ==> L(r, l) == [])
  {
    hide ListsOk;
    var mid := Unlinked(po, f, EvRecv);
    var r := Unlinked(mid, f, EvSend);
    UnlinkedOk(po, f, EvRecv);
    UnlinkedOk(mid, f, EvSend);
    assert r.at == po.at - {Node(f, EvRecv), Node(f, EvSend)};
    forall l | L(po, l) == [] ensures L(r, l) == [] { assert L(mid, l) == []; }
  }

  lemma ClosedPolls(ch: Chans, ch': Chans, po: Polls, f: Fd)
    requires PollsOk(ch, po) && f in ch.fds && ch'.fds == ch.fds - {f}
    ensures var r := Unlinked(Unlinked(po, f, EvRecv), f, EvSend);
            && PollsOk(ch', r) && r.counts == po.counts
            && (forall l :: L(po, l) == [] ==> L(r, l) == [])
  {
    hide ListsOk, Unlinked;
    var r := Unlinked(Unlinked(po, f, EvRecv), f, EvSend);
    ClosedLists(po, f);
    forall t | 0 <= t < |r.counts| ensures r.counts[t] >= |NodesOf(r, t)| {
      assert NodesOf(r, t) <= NodesOf(po, t);
      SubsetSize(NodesOf(r, t), NodesOf(po, t));
      assert po.counts[t] >= |NodesOf(po, t)|;
    }
    forall g, ev | Node(g, ev) in r.at
      ensures g in ch'.fds && (r.at[Node(g, ev)] == OnChannel(ch'.fds[g].chan, ev) || r.at[Node(g, ev)] == OnTask(g.task, ev))
    {
      assert ev == EvRecv || ev == EvSend;
      assert Node(g, ev) in po.at && g != f;
    }
  }

  lemma SubsetSize<T>(a: set<T>, b: set<T>)
    requires a <= b
    ensures |a| <= |b|
  {
    assert b == a + (b - a);
  }

  lemma SysCloseOk(s: State, t: int, no: int)
    requires Inv(s) && IsTask(s, t) && s.sched.procs[t].status == Running
    ensures SysClose(s, t, no).Go? && Inv(SysClose(s, t, no).s)
  {
    if !ValidChannel(s, t, no) {
      ReturnOk(s, t, EBADF);
    } else {
      CloseOk(s, Fd(t, no));
      ReturnOk(Close(s, Fd(t, no)).s, t, 0);
    }
  }

  lemma OpenedInv(s: State, t: int, c: int, flags: int)
    requires Inv(s) && IsTask(s, t) && s.sched.procs[t].status != Dead && Holds(s.chans, t, c) && HasNumber(s.chans.pools[t])
    ensures Inv(s.(chans := Opened(s.chans, t, c, flags)))
    ensures Fd(t, TakeNumber(s.chans.pools[t]).1) !in s.chans.fds && 0 <= TakeNumber(s.chans.pools[t]).1 < MAX_TASK_CHANNELS
  {
    hide SchedOk, FdsOk, PoolsOk, RefsOk, FreeOk, ListsOk, NodesOk, PollCountsOk, FreeBut;
    HeldIsLive(s.chans, t, c);
    OpenedOk(s.chans, t, c, flags);
    var chans := Opened(s.chans, t, c, flags);
    OpenedNodes(s.chans, chans, s.polls, t, c);
    MoreKeeps(s.sched, s.chans, chans);
    assert PoolsOk(s.chans);
    NumberInRange(s.chans, t);
  }

  lemma NumberInRange(ch: Chans, t: int)
    requires PoolsOk(ch) && 0 <= t < |ch.pools| && HasNumber(ch.pools[t])
    ensures 0 <= TakeNumber(ch.pools[t]).1 < MAX_TASK_CHANNELS
  {
    assert PoolOk(ch, t);
    TakenOk(ch, t);
  }

  /** New flags on an open descriptor. */
  lemma ReflaggedOk(s: State, f: Fd, flags: int)
    requires Inv(s) && f in s.chans.fds
    ensures Inv(s.(chans := s.chans.(fds := s.chans.fds[f := s.chans.fds[f].(flags := flags)])))
  {
    var ch := s.chans;
    var r := ch.(fds := ch.fds[f := ch.fds[f].(flags := flags)]);
    ReflaggedChans(ch, r);
    hide SchedOk, FdsOk, PoolsOk, RefsOk, FreeOk, ListsOk, NodesOk, PollCountsOk;
    MoreKeeps(s.sched, ch, r);
    OpenedNodes(ch, r, s.polls, f.task, ch.fds[f].chan);
  }

  lemma ReflaggedChans(ch: Chans, r: Chans)
    requires ChansOk(ch) && r == ch.(fds := r.fds) && r.fds.Keys == ch.fds.Keys
    requires forall f :: f in ch.fds ==> r.fds[f].chan == ch.fds[f].chan
    ensures ChansOk(r) && forall c :: Naming(r, c) == Naming(ch, c)
  {
    forall c ensures Naming(r, c) == Naming(ch, c) {}
    forall t | 0 <= t < |r.pools| ensures PoolOk(r, t) {
      assert PoolOk(ch, t);
      forall no ensures Fd(t, no) in r.fds <==> Fd(t, no) in ch.fds {
        assert Fd(t, no) in r.fds.Keys <==> Fd(t, no) in ch.fds.Keys;
      }
    }
  }

  /** Duplicating onto the lowest free number, onto itself, or onto an impossible number. */
  predicate DupSafe(oldfd: int, newfd: int) {
    newfd == oldfd || !(0 <= newfd < MAX_TASK_CHANNELS)
  }

  lemma DupSafeOk(s: State, t: int, oldfd: int, newfd: int, flags: int)
    requires Inv(s) && IsTask(s, t) && s.sched.procs[t].status == Running
    requires DupSafe(oldfd, newfd) || !ValidChannel(s, t, oldfd)
    ensures SysDup(s, t, oldfd, newfd, flags).Go? && Inv(SysDup(s, t, oldfd, newfd, flags).s)
  {
    assert Sized(s);
    hide Inv;
    var from := Fd(t, oldfd);
    if !ValidChannel(s, t, oldfd) {
      ReturnOk(s, t, EBADF);
    } else if oldfd == newfd {
      ReflaggedOk(s, from, flags);
      ReturnOk(s.(chans := s.chans.(fds := s.chans.fds[from := s.chans.fds[from].(flags := flags)])), t, newfd);
    } else if newfd == NONE {
      if !HasNumber(s.chans.pools[t]) {
        ReturnOk(s, t, EMFILE);
      } else {
        HoldsOpen(s.chans, from);
        var cd := s.chans.fds[from];
        OpenedInv(s, t, cd.chan, cd.flags);
        ReturnOk(s.(chans := Opened(s.chans, t, cd.chan, cd.flags)), t, TakeNumber(s.chans.pools[t]).1);
      }
    } else {
      ReturnOk(s, t, EBADF);
    }
  }

  /** Duplicating onto an explicit other number leaves that number open and up for allocation. */
  lemma DupUnsafe(s: State, t: int, oldfd: int, newfd: int, flags: int)
    requires Inv(s) && IsTask(s, t) && s.sched.procs[t].status == Running
    requires !DupSafe(oldfd, newfd) && ValidChannel(s, t, oldfd)
    ensures SysDup(s, t, oldfd, newfd, flags).Go?
    ensures var r := SysDup(s, t, oldfd, newfd, flags).s.chans;
            && Fd(t, newfd) in r.fds && (newfd in r.pools[t].free || newfd >= r.pools[t].next)
            && !PoolOk(r, t)
  {
    hide SchedOk, FdsOk, RefsOk, FreeOk, KeepOk, PollsOk;
    var f := Fd(t, newfd);
    assert PoolOk(s.chans, t);
    if f in s.chans.fds {
      CloseOk(s, f);
    }
  }

  /** `dup` keeps the invariant exactly when it fails or does not name another number. */
  lemma DupOk(s: State, t: int, oldfd: int, newfd: int, flags: int)
    requires Inv(s) && IsTask(s, t) && s.sched.procs[t].status == Running
    ensures SysDup(s, t, oldfd, newfd, flags).Go?
    ensures Inv(SysDup(s, t, oldfd, newfd, flags).s) <==> DupSafe(oldfd, newfd) || !ValidChannel(s, t, oldfd)
  {
    hide Mid, SchedOk, FdsOk, RefsOk, FreeOk, KeepOk, PollsOk, PoolOk, SysDup;
    if DupSafe(oldfd, newfd) || !ValidChannel(s, t, oldfd) {
      DupSafeOk(s, t, oldfd, newfd, flags);
    } else {
      DupUnsafe(s, t, oldfd, newfd, flags);
    }
  }

  // ----- Exit -----

  /** Closing reads the queues but not the counters. */
  lemma {:induction false} CloseBelowCounters(s: State, t: int, n: nat, live: int, nondaemon: int)
    requires Sized(s) && IsTask(s, t)
    ensures var s' := s.(sched := s.sched.(live := live, nondaemon := nondaemon));
            CloseBelow(s', t, n) == match CloseBelow(s, t, n)
                                    case Panic(fault) => Panic(fault)
                                    case Go(r) => Go(r.(sched := r.sched.(live := live, nondaemon := nondaemon)))
  {
    if n > 0 {
      CloseBelowCounters(s, t, n - 1, live, nondaemon);
      match CloseBelow(s, t, n - 1)
      case Panic(_) =>
      case Go(r) =>
        var r' := r.(sched := r.sched.(live := live, nondaemon := nondaemon));
        assert forall q :: Q(r'.sched, q) == Q(r.sched, q);
    }
  }

  /** The open descriptors of t numbered below n. */
  ghost function OwnBelow(ch: Chans, t: int, n: int): set<Fd> {
    set f | f in ch.fds && f.task == t && 0 <= f.no < n
  }

  lemma OwnBelowNone(ch: Chans, t: int)
    ensures OwnBelow(ch, t, 0) == {}
  {
  }

  lemma OwnBelowStep(ch: Chans, r: map<Fd, Cd>, t: int, n: nat)
    requires n > 0 && r == ch.fds - OwnBelow(ch, t, n - 1)
    ensures Fd(t, n - 1) in r <==> Fd(t, n - 1) in ch.fds
    ensures r - {Fd(t, n - 1)} == ch.fds - OwnBelow(ch, t, n)
  {
    assert OwnBelow(ch, t, n) <= OwnBelow(ch, t, n - 1) + {Fd(t, n - 1)};
  }

  /** All descriptors of t below n are closed, nothing else is. */
  lemma {:induction false} CloseBelowOk(s: State, t: int, n: nat)
    requires Sized(s) && Inv(s) && IsTask(s, t) && s.sched.procs[t].status == Running
    ensures CloseBelow(s, t, n).Go?
    ensures Inv(CloseBelow(s, t, n).s) && CloseBelow(s, t, n).s.sched == s.sched
    ensures CloseBelow(s, t, n).s.chans.fds == s.chans.fds - OwnBelow(s.chans, t, n)
  {
    hide Inv, Close, Dropped, OwnBelow;
    if n > 0 {
      CloseBelowOk(s, t, n - 1);
      var r := CloseBelow(s, t, n - 1).s;
      var f := Fd(t, n - 1);
      OwnBelowStep(s.chans, r.chans.fds, t, n);
      if f in r.chans.fds { CloseOk(r, f); }
    } else {
      OwnBelowNone(s.chans, t);
    }
  }

  /** A task with no descriptors leaves the ready queue for the free queue. */
  lemma DeadOk(s: State, t: int)
    requires Inv(s) && IsTask(s, t) && s.sched.procs[t].status == Running
    requires forall f :: f in s.chans.fds ==> f.task != t
    ensures var sc := s.sched.(live := s.sched.live - 1,
                               nondaemon := if s.sched.procs[t].daemon then s.sched.nondaemon else s.sched.nondaemon - 1);
            Inv(s.(sched := Moved(sc, t, Dead, Free)))
  {
    var sc := s.sched.(live := s.sched.live - 1,
                       nondaemon := if s.sched.procs[t].daemon then s.sched.nondaemon else s.sched.nondaemon - 1);
    hide SchedOk, ChansOk, PollsOk, Moved, Rendezvous, Quiet, Asleep, AsleepBut;
    DeadSched(s.sched, sc, t);
    var r := s.(sched := Moved(sc, t, Dead, Free));
    forall u | 0 <= u < |r.sched.procs| ensures Keeps(r.chans, u, r.sched.procs[u]) {
      assert Keeps(s.chans, u, s.sched.procs[u]);
    }
    CalmerRelationsBut(s.sched, s.polls, r.sched, t);
    DrainedInv(r, t);
  }

  lemma DeadCounts(sc: Sched, r: Sched, t: int)
    requires CountsOk(sc) && 0 <= t < |sc.procs| && sc.procs[t].status != Dead
    requires OnlyChanged(sc, r, t) && r.procs[t].status == Dead && r.live == sc.live - 1
    requires r.nondaemon == if sc.procs[t].daemon then sc.nondaemon else sc.nondaemon - 1
    ensures CountsOk(r)
  {
    assert t in Live(sc);
    assert Live(r) == Live(sc) - {t};
    if sc.procs[t].daemon {
      assert LiveUser(r) == LiveUser(sc);
    } else {
      assert t in LiveUser(sc);
      assert LiveUser(r) == LiveUser(sc) - {t};
    }
  }

  lemma DeadSched(sc: Sched, sc1: Sched, t: int)
    requires SchedOk(sc) && 0 <= t < |sc.procs| && sc.procs[t].status == Running
    requires sc1 == sc.(live := sc.live - 1, nondaemon := if sc.procs[t].daemon then sc.nondaemon else sc.nondaemon - 1)
    ensures var r := Moved(sc1, t, Dead, Free);
            SchedOk(r) && SameChannelQueues(sc, r) && OnlyChanged(sc, r, t) && r.procs[t].status == Dead
  {
    assert forall q :: Q(sc1, q) == Q(sc, q);
    SameQueues(sc, sc1);
    assert ProcOk(sc.procs[t]);
    MovedQueues(sc1, t, Dead, Free);
    var r := Moved(sc1, t, Dead, Free);
    hide LogsOk, CountsOk;
    DeadCounts(sc, r, t);
    forall c, u | u in Q(sc, Senders(c)) && 0 <= u < |sc.procs| ensures r.procs[u].req == sc.procs[u].req {}
    SameLogs(sc, r);
  }

  /** Exiting closes every descriptor of the task, and no panic is met on the way. */
  lemma ExitOk(s: State, t: int)
    requires Inv(s) && IsTask(s, t) && s.sched.procs[t].status == Running
    ensures SysExit(s, t).Go? && Inv(SysExit(s, t).s)
    ensures SysExit(s, t).s.chans.fds == s.chans.fds - OwnBelow(s.chans, t, MAX_TASK_CHANNELS)
    ensures forall f :: f in SysExit(s, t).s.chans.fds ==> f.task != t
  {
    var nondaemon := if s.sched.procs[t].daemon then s.sched.nondaemon else s.sched.nondaemon - 1;
    CloseBelowOk(s, t, MAX_TASK_CHANNELS);
    CloseBelowCounters(s, t, MAX_TASK_CHANNELS, s.sched.live - 1, nondaemon);
    var r := CloseBelow(s, t, MAX_TASK_CHANNELS).s;
    assert FdsOk(s.chans);
    hide Inv, CloseBelow;
    forall f | f in r.chans.fds ensures f.task != t {}
    DeadOk(r, t);
    var sc := r.sched.(live := s.sched.live - 1, nondaemon := nondaemon);
    ReturnOk(r.(sched := Moved(sc, t, Dead, Free)), t, 0);
  }

  // ----- Spawn -----

  /** A task that may be handed out: dead, holding nothing, with nothing queued. */
  ghost predicate Vacant(s: State, t: int) {
    && IsTask(s, t) && s.sched.procs[t].status == Dead
    && (forall f :: f in s.chans.fds ==> f.task != t)
    && (forall ev :: L(s.polls, OnTask(t, ev)) == [])
  }

  /** A dead task holds no descriptor, so nothing of its is on any list. */
  lemma DeadIsVacant(s: State, t: int)
    requires Inv(s) && IsTask(s, t)
    ensures s.sched.procs[t].status == Dead ==> Vacant(s, t)
  {
    hide SchedOk, FdsOk, PoolsOk, RefsOk, FreeOk, ListsOk, NodesOk, PollCountsOk, Quiet, Asleep;
    forall ev | L(s.polls, OnTask(t, ev)) != [] ensures exists f :: f in s.chans.fds && f.task == t {
      HeadOfList(s, OnTask(t, ev));
      assert L(s.polls, OnTask(t, ev))[0] in s.chans.fds;
    }
  }

  lemma NewTaskSched(sc: Sched)
    requires SchedOk(sc) && Q(sc, Free) == []
    ensures var t := |sc.procs|;
            var r := sc.(procs := sc.procs + [Proc(0, 0, 0, false, Dead, Free, Nothing)], queues := sc.queues[Free := [t]]);
            SchedOk(r) && SameChannelQueues(sc, r)
  {
    var t := |sc.procs|;
    var r := sc.(procs := sc.procs + [Proc(0, 0, 0, false, Dead, Free, Nothing)], queues := sc.queues[Free := [t]]);
    assert Q(r, Free) == [t] && forall q :: q != Free ==> Q(r, q) == Q(sc, q);
    forall q ensures NoDup(Q(r, q)) { assert NoDup(Q(sc, q)); }
    forall q, u {:trigger u in Q(r, q)} | u in Q(r, q) ensures 0 <= u < |r.procs| && r.procs[u].queue == q {
      assert q != Free ==> u in Q(sc, q);
    }
    forall u | 0 <= u < |r.procs| ensures u in Q(r, r.procs[u].queue) {
      if u < t { assert u in Q(sc, sc.procs[u].queue); }
    }
    assert QueuesOk(r);
    assert Live(r) == Live(sc) && LiveUser(r) == LiveUser(sc);
    SameLogs(sc, r);
  }

  lemma NewTaskChans(ch: Chans)
    requires ChansOk(ch)
    ensures ChansOk(ch.(pools := ch.pools + [Pool([], 0)]))
  {
    var r := ch.(pools := ch.pools + [Pool([], 0)]);
    assert forall c :: Naming(r, c) == Naming(ch, c);
    forall t | 0 <= t < |r.pools| ensures PoolOk(r, t) {
      if t < |ch.pools| { assert PoolOk(ch, t); }
    }
  }

  lemma NewTaskPolls(ch: Chans, po: Polls)
    requires FdsOk(ch) && PollsOk(ch, po) && |po.counts| == |ch.pools|
    ensures PollsOk(ch.(pools := ch.pools + [Pool([], 0)]), po.(counts := po.counts + [0]))
  {
    var r := po.(counts := po.counts + [0]);
    assert forall l :: L(r, l) == L(po, l);
    forall l ensures NoDup(L(r, l)) { assert NoDup(L(po, l)); }
    forall l, f {:trigger f in L(r, l)} | f in L(r, l) ensures Node(f, l.ev) in r.at && r.at[Node(f, l.ev)] == l {
      assert f in L(po, l);
    }
    forall t | 0 <= t < |r.counts| ensures r.counts[t] >= |NodesOf(r, t)| {
      assert NodesOf(r, t) == NodesOf(po, t);
      if t == |po.counts| {
        forall n | n in po.at ensures n.fd.task != t { assert Node(n.fd, n.ev) in po.at; }
        assert NodesOf(r, t) == {};
      }
    }
  }

  lemma NewTaskOk(s: State)
    requires Inv(s) && Q(s.sched, Free) == [] && |s.sched.procs| + 1 < MAX_TASKS
    ensures var r := AllocTask(s, true).0; Inv(r) && Vacant(r, |s.sched.procs|)
  {
    var t := |s.sched.procs|;
    var r := AllocTask(s, true).0;
    NewTaskSched(s.sched);
    NewTaskChans(s.chans);
    NewTaskPolls(s.chans, s.polls);
    assert FdsOk(s.chans);
    hide SchedOk, ChansOk, PollsOk;
    assert forall c :: Naming(r.chans, c) == Naming(s.chans, c);
    forall u, c | Holds(s.chans, u, c) ensures Holds(r.chans, u, c) {
      var f :| f in Naming(s.chans, c) && f.task == u;
      assert f in Naming(r.chans, c);
    }
    forall u | 0 <= u < |r.sched.procs| ensures Keeps(r.chans, u, r.sched.procs[u]) {
      if u < t { assert Keeps(s.chans, u, s.sched.procs[u]); }
    }
    assert forall l :: L(r.polls, l) == L(s.polls, l);
    forall c, ev | Active(r.sched, c, ev) ensures L(r.polls, OnChannel(c, ev)) == [] { assert Active(s.sched, c, ev); }
    assert Inv(r);
    DeadIsVacant(r, t);
  }

  /** Fields of a task that only describe it: generation, parent. */
  lemma RenamedOk(s: State, t: int, gen: int)
    requires Inv(s) && IsTask(s, t)
    ensures Inv(s.(sched := s.sched.(procs := s.sched.procs[t := s.sched.procs[t].(gen := gen)])))
  {
    var sc := s.sched.(procs := s.sched.procs[t := s.sched.procs[t].(gen := gen)]);
    var r := s.(sched := sc);
    RenamedSched(s.sched, sc);
    hide SchedOk, ChansOk, PollsOk, Moved;
    forall u | 0 <= u < |r.sched.procs| ensures Keeps(r.chans, u, r.sched.procs[u]) {
      assert Keeps(s.chans, u, s.sched.procs[u]);
    }
    CalmerRelations(s.sched, s.polls, sc);
  }

  lemma RenamedSched(sc: Sched, r: Sched)
    requires SchedOk(sc) && r == sc.(procs := r.procs) && |r.procs| == |sc.procs|
    requires forall t :: 0 <= t < |sc.procs| ==> r.procs[t] == sc.procs[t].(gen := r.procs[t].gen)
    ensures SchedOk(r) && SameChannelQueues(sc, r) && (forall c, ev :: Active(r, c, ev) <==> Active(sc, c, ev))
  {
    assert forall q :: Q(r, q) == Q(sc, q);
    SameQueues(sc, r);
    SameCounts(sc, r);
    SameLogs(sc, r);
    forall t | 0 <= t < |r.procs| ensures ProcOk(r.procs[t]) { assert ProcOk(sc.procs[t]); }
  }

  lemma ReusedTaskOk(s: State)
    requires Inv(s) && Q(s.sched, Free) != []
    ensures var (r, t) := AllocTask(s, true);
            && IsTask(s, t) && s.sched.procs[t].status == Dead && Inv(r) && Vacant(r, t)
            && (forall u :: 0 <= u < |s.sched.procs| && u != t ==> r.sched.procs[u] == s.sched.procs[u])
  {
    hide QueuesOk, PlacedOk, CountsOk, LogsOk, ChansOk, KeepOk, PollsOk, Rendezvous, Quiet, Asleep, Vacant;
    var t := Q(s.sched, Free)[0];
    FreeIsDead(s.sched, t);
    RenamedOk(s, t, s.sched.procs[t].gen + 1);
    DeadIsVacant(AllocTask(s, true).0, t);
  }

  lemma FreeIsDead(sc: Sched, t: int)
    requires QueuesOk(sc) && PlacedOk(sc) && t in Q(sc, Free)
    ensures 0 <= t < |sc.procs| && sc.procs[t].status == Dead
  {
    assert ProcOk(sc.procs[t]);
  }

  lemma AllocTaskOk(s: State, memory: bool)
    requires Sized(s) && Inv(s)
    ensures var (r, t) := AllocTask(s, memory);
            && (t == NONE <==> Q(s.sched, Free) == [] && (|s.sched.procs| + 1 >= MAX_TASKS || !memory))
            && (t == NONE ==> r == s)
            && (t != NONE ==> Inv(r) && Vacant(r, t) && r.chans.fds == s.chans.fds)
            && |r.sched.procs| >= |s.sched.procs|
            && (forall u :: 0 <= u < |s.sched.procs| && u != t ==> r.sched.procs[u] == s.sched.procs[u])
            && (t != NONE && IsTask(s, t) ==> s.sched.procs[t].status == Dead)
  {
    hide Inv, Vacant;
    if Q(s.sched, Free) == [] {
      if |s.sched.procs| + 1 < MAX_TASKS && memory { NewTaskOk(s); }
    } else {
      ReusedTaskOk(s);
    }
  }

  /** A vacant task that goes to its ready queue, now counted. */
  lemma StartedSched(sc: Sched, sc1: Sched, t: int)
    requires SchedOk(sc) && 0 <= t < |sc.procs| && sc.procs[t].status == Dead
    requires |sc1.procs| == |sc.procs| && sc1 == Sched(sc.procs[t := sc1.procs[t]], sc.queues, sc.live + 1, sc1.nondaemon, sc.logs)
    requires sc1.procs[t] == sc.procs[t].(parent := sc1.procs[t].parent, prio := sc1.procs[t].prio, daemon := sc1.procs[t].daemon)
    requires 0 <= sc1.procs[t].prio < TASK_NPRIO
    requires sc1.nondaemon == if sc1.procs[t].daemon then sc.nondaemon else sc.nondaemon + 1
    ensures var r := Woken(sc1, t);
            SchedOk(r) && SameChannelQueues(sc, r) && OnlyChanged(sc, r, t) && r.procs[t].status == Running
  {
    assert forall q :: Q(sc1, q) == Q(sc, q);
    assert ProcOk(sc.procs[t]);
    SameQueues(sc, sc1);
    MovedQueues(sc1, t, Running, Ready(sc1.procs[t].prio));
    var r := Woken(sc1, t);
    hide LogsOk, CountsOk;
    StartedCounts(sc, r, t);
    forall c, u | u in Q(sc, Senders(c)) && 0 <= u < |sc.procs| ensures r.procs[u].req == sc.procs[u].req {}
    SameLogs(sc, r);
  }

  lemma LiveAgain(sc: Sched, r: Sched, t: int)
    requires 0 <= t < |sc.procs| && sc.procs[t].status == Dead && OnlyChanged(sc, r, t) && r.procs[t].status != Dead
    ensures t !in Live(sc) && Live(r) == Live(sc) + {t}
  {
  }

  lemma LiveUserAgain(sc: Sched, r: Sched, t: int)
    requires 0 <= t < |sc.procs| && sc.procs[t].status == Dead && OnlyChanged(sc, r, t) && r.procs[t].status != Dead
    ensures t !in LiveUser(sc) && LiveUser(r) == if r.procs[t].daemon then LiveUser(sc) else LiveUser(sc) + {t}
  {
  }

  lemma StartedCounts(sc: Sched, r: Sched, t: int)
    requires CountsOk(sc) && 0 <= t < |sc.procs| && sc.procs[t].status == Dead
    requires OnlyChanged(sc, r, t) && r.procs[t].status != Dead && r.live == sc.live + 1
    requires r.nondaemon == if r.procs[t].daemon then sc.nondaemon else sc.nondaemon + 1
    ensures CountsOk(r)
  {
    LiveAgain(sc, r, t);
    LiveUserAgain(sc, r, t);
    hide Live, LiveUser;
  }

  /** One more descriptor of a channel that already has one. */
  lemma InstalledOk(ch: Chans, f: Fd, c: int, flags: int)
    requires FdsOk(ch) && RefsOk(ch) && FreeOk(ch) && f !in ch.fds && Naming(ch, c) != {}
    requires 0 <= f.task < |ch.pools| && 0 <= f.no < MAX_TASK_CHANNELS
    ensures var r := Installed(ch, f, c, flags);
            && FdsOk(r) && RefsOk(r) && FreeOk(r) && |r.refs| == |ch.refs| && r.pools == ch.pools
            && r.fds == ch.fds[f := Cd(c, flags)] && r.freeChans == ch.freeChans
  {
    var g :| g in Naming(ch, c);
    assert ch.refs[c] == |Naming(ch, c)| > 0;
    InstalledNaming(ch, f, c, flags);
  }

  ghost predicate Copied(ch: Chans, r: Chans, parent: int, child: int, nos: seq<int>, n: nat)
    requires n <= |nos| && forall i :: 0 <= i < |nos| ==> Fd(parent, nos[i]) in ch.fds
  {
    && (forall f :: f in r.fds <==> f in ch.fds || (f.task == child && 0 <= f.no < n))
    && (forall f :: f in ch.fds ==> r.fds[f] == ch.fds[f])
    && (forall i :: 0 <= i < n ==> r.fds[Fd(child, i)] == ch.fds[Fd(parent, nos[i])])
  }

  /** The descriptors of `child` after n of the parent's channels were copied to it. */
  lemma {:induction false} InheritedOk(ch: Chans, parent: int, child: int, nos: seq<int>, n: nat)
    requires FdsOk(ch) && RefsOk(ch) && FreeOk(ch) && n <= |nos| <= MAX_TASK_CHANNELS && 0 <= child < |ch.pools|
    requires forall f :: f in ch.fds ==> f.task != child
    requires forall i :: 0 <= i < |nos| ==> Fd(parent, nos[i]) in ch.fds
    ensures var r := Inherited(ch, parent, child, nos, n);
            FdsOk(r) && RefsOk(r) && FreeOk(r) && Copied(ch, r, parent, child, nos, n)
  {
    hide FdsOk, RefsOk, FreeOk, Installed;
    if n > 0 {
      InheritedOk(ch, parent, child, nos, n - 1);
      var r := Inherited(ch, parent, child, nos, n - 1);
      var from := Fd(parent, nos[n - 1]);
      assert from in Naming(r, ch.fds[from].chan);
      InstalledOk(r, Fd(child, n - 1), ch.fds[from].chan, ch.fds[from].flags);
    }
  }

  /** The pools of all tasks once the child has exactly the numbers below |nos| open. */
  lemma InheritedPools(ch: Chans, r: Chans, parent: int, child: int, nos: seq<int>)
    requires PoolsOk(ch) && 0 <= child < |ch.pools| && |nos| <= MAX_TASK_CHANNELS
    requires forall f :: f in ch.fds ==> f.task != child
    requires forall i :: 0 <= i < |nos| ==> Fd(parent, nos[i]) in ch.fds
    requires Copied(ch, r, parent, child, nos, |nos|) && r.pools == ch.pools[child := Pool([], |nos|)]
    ensures PoolsOk(r)
  {
    forall t | 0 <= t < |r.pools| ensures PoolOk(r, t) {
      assert PoolOk(ch, t);
      if t != child {
        forall no ensures Fd(t, no) in r.fds <==> Fd(t, no) in ch.fds {}
      }
    }
  }

  lemma InheritedChans(ch: Chans, parent: int, child: int, nos: seq<int>)
    requires ChansOk(ch) && 0 <= child < |ch.pools| && |nos| <= MAX_TASK_CHANNELS
    requires forall f :: f in ch.fds ==> f.task != child
    requires forall i :: 0 <= i < |nos| ==> Fd(parent, nos[i]) in ch.fds
    ensures var ch0 := ch.(pools := ch.pools[child := Pool([], |nos|)]);
            var r := Inherited(ch0, parent, child, nos, |nos|);
            ChansOk(r) && Copied(ch, r, parent, child, nos, |nos|) && |r.pools| == |ch.pools|
  {
    var ch0 := ch.(pools := ch.pools[child := Pool([], |nos|)]);
    assert forall c :: Naming(ch0, c) == Naming(ch, c);
    assert FdsOk(ch0) && RefsOk(ch0) && FreeOk(ch0);
    InheritedOk(ch0, parent, child, nos, |nos|);
    InheritedPools(ch, Inherited(ch0, parent, child, nos, |nos|), parent, child, nos);
  }

  lemma ClearedPolls(ch: Chans, po: Polls, t: int)
    requires PollsOk(ch, po) && 0 <= t < |po.counts|
    requires (forall f :: f in ch.fds ==> f.task != t) && (forall ev :: L(po, OnTask(t, ev)) == [])
    ensures var r := po.(lists := po.lists[OnTask(t, EvRecv) := []][OnTask(t, EvSend) := []], counts := po.counts[t := 0]);
            PollsOk(ch, r) && (forall l :: L(r, l) == L(po, l))
  {
    var mid := po.(lists := po.lists[OnTask(t, EvRecv) := []][OnTask(t, EvSend) := []]);
    assert forall l :: L(mid, l) == L(po, l);
    SameLists(ch, po, mid);
    var r := mid.(counts := po.counts[t := 0]);
    assert forall l :: L(r, l) == L(mid, l);
    assert ListsOk(r);
    forall u | 0 <= u < |r.counts| ensures r.counts[u] >= |NodesOf(r, u)| {
      assert NodesOf(r, u) == NodesOf(mid, u);
      if u == t {
        forall n | n in r.at ensures n.fd.task != t { assert Node(n.fd, n.ev) in r.at; }
        assert NodesOf(r, t) == {};
      } else {
        assert mid.counts[u] >= |NodesOf(mid, u)|;
      }
    }
  }

  /** The three parts of a started task put together. */
  lemma StartedInv(s: State, r: State, parent: int, t: int, nos: seq<int>)
    requires Inv(s) && Sized(r) && OnlyChanged(s.sched, r.sched, t) && IsTask(s, t)
    requires SchedOk(r.sched) && SameChannelQueues(s.sched, r.sched) && r.sched.procs[t].status == Running
    requires forall i :: 0 <= i < |nos| ==> Fd(parent, nos[i]) in s.chans.fds
    requires ChansOk(r.chans) && Copied(s.chans, r.chans, parent, t, nos, |nos|)
    requires PollsOk(s.chans, r.polls) && forall l :: L(r.polls, l) == L(s.polls, l)
    ensures Inv(r)
  {
    hide SchedOk, ChansOk, ListsOk, PollCountsOk;
    OpenedNodes(s.chans, r.chans, r.polls, t, 0);
    StartedKeeps(s, r, t);
    StartedRelations(s.sched, s.polls, r.sched, r.polls, t);
  }

  lemma StartedOk(s: State, parent: int, t: int, prio: int, daemon: bool, nos: seq<int>)
    requires Inv(s) && Vacant(s, t) && (parent == NONE || IsTask(s, parent))
    requires 0 <= prio < TASK_NPRIO && |nos| <= MAX_TASK_CHANNELS
    requires forall i :: 0 <= i < |nos| ==> Fd(parent, nos[i]) in s.chans.fds
    ensures var r := Started(s, parent, t, prio, daemon, nos);
            && Inv(r) && Copied(s.chans, r.chans, parent, t, nos, |nos|)
            && r.sched.procs[t].status == Running && OnlyChanged(s.sched, r.sched, t)
  {
    hide SchedOk, ChansOk, PollsOk, KeepOk, Quiet, Asleep, Rendezvous, Woken, Inherited, Copied;
    var r := Started(s, parent, t, prio, daemon, nos);
    var proc := s.sched.procs[t].(parent := if parent == NONE then 0 else Tid(s, parent), prio := prio, daemon := daemon);
    var sc1 := Sched(s.sched.procs[t := proc], s.sched.queues, s.sched.live + 1,
                     if daemon then s.sched.nondaemon else s.sched.nondaemon + 1, s.sched.logs);
    StartedSched(s.sched, sc1, t);
    InheritedChans(s.chans, parent, t, nos);
    ClearedPolls(s.chans, s.polls, t);
    StartedInv(s, r, parent, t, nos);
  }

  lemma StartedRelations(sc: Sched, po: Polls, r: Sched, po': Polls, t: int)
    requires Rendezvous(sc) && Quiet(sc, po) && Asleep(sc, po) && (forall l :: L(po', l) == L(po, l))
    requires SameChannelQueues(sc, r) && OnlyChanged(sc, r, t) && 0 <= t < |sc.procs| && r.procs[t].status == Running
    ensures Rendezvous(r) && Quiet(r, po') && Asleep(r, po')
  {
    forall c, ev | Active(r, c, ev) ensures L(po', OnChannel(c, ev)) == [] { assert Active(sc, c, ev); }
  }

  lemma StartedKeeps(s: State, r: State, t: int)
    requires KeepOk(s.sched, s.chans) && OnlyChanged(s.sched, r.sched, t) && 0 <= t < |s.sched.procs|
    requires r.sched.procs[t].status == Running
    requires forall f :: f in s.chans.fds ==> f in r.chans.fds && r.chans.fds[f] == s.chans.fds[f]
    requires forall f :: f in r.chans.fds ==> f in s.chans.fds || f.task == t
    ensures KeepOk(r.sched, r.chans)
  {
    forall u, c | Holds(s.chans, u, c) ensures Holds(r.chans, u, c) {
      var f :| f in Naming(s.chans, c) && f.task == u;
      assert f in Naming(r.chans, c);
    }
    forall u | 0 <= u < |r.sched.procs| ensures Keeps(r.chans, u, r.sched.procs[u]) {
      assert Keeps(s.chans, u, s.sched.procs[u]);
    }
  }

  /** The arguments that spawn accepts. */
  predicate SpawnArgs(s: State, parent: int, prio: int, nos: seq<int>, len: int, flags: int) {
    && (flags == 0 || flags == SPAWN_DAEMON) && 0 <= prio < TASK_NPRIO && 0 <= len <= MAX_TASK_CHANNELS && len <= |nos|
    && forall i :: 0 <= i < len ==> ValidChannel(s, parent, nos[i])
  }

  lemma SpawnedOk(s: State, parent: int, prio: int, nos: seq<int>, len: int, flags: int, memory: bool)
    requires Sized(s) && Inv(s) && (parent == NONE || IsTask(s, parent)) && SpawnArgs(s, parent, prio, nos, len, flags)
    requires AllocTask(s, memory).1 != NONE
    ensures var (s1, t) := AllocTask(s, memory);
            && (parent == NONE || IsTask(s1, parent))
            && Inv(ReturnTo(Started(s1, parent, t, prio, flags == SPAWN_DAEMON, nos[..len]), parent, Tid(s1, t)))
  {
    hide Inv, Started, AllocTask;
    var (s1, t) := AllocTask(s, memory);
    AllocTaskOk(s, memory);
    var head := nos[..len];
    forall i | 0 <= i < |head| ensures Fd(parent, head[i]) in s1.chans.fds { assert ValidChannel(s, parent, nos[i]); }
    StartedOk(s1, parent, t, prio, flags == SPAWN_DAEMON, head);
    ReturnedOk(Started(s1, parent, t, prio, flags == SPAWN_DAEMON, head), parent, Tid(s1, t));
  }

  lemma SpawnOk(s: State, parent: int, prio: int, nos: seq<int>, len: int, flags: int, memory: bool)
    requires Sized(s) && Inv(s) && (parent == NONE || IsTask(s, parent)) && len <= |nos|
    ensures SysSpawn(s, parent, prio, nos, len, flags, memory).Go?
    ensures Inv(SysSpawn(s, parent, prio, nos, len, flags, memory).s)
  {
    hide Inv, Started, AllocTask, ReturnTo, ValidChannel;
    ReturnedOk(s, parent, EINVAL);
    ReturnedOk(s, parent, EBADF);
    ReturnedOk(s, parent, ENOMEM);
    if SpawnArgs(s, parent, prio, nos, len, flags) && AllocTask(s, memory).1 != NONE {
      SpawnedOk(s, parent, prio, nos, len, flags, memory);
    }
  }

  lemma ReturnedOk(s: State, t: int, v: int)
    requires Inv(s) && (t == NONE || IsTask(s, t))
    ensures Inv(ReturnTo(s, t, v))
  {
    if t != NONE { ReturnOk(s, t, v); }
  }
}
