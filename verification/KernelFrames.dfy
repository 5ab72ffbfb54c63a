/** What a step of one task leaves alone: other tasks, and the queues of channels it does not name. */
module KernelFrames {
  import opened Seqs
  import opened KernelState
  import opened KernelInvariant
  import opened KernelSteps
  import opened KernelRuns

  /** The task that makes the call, or none for interrupts and scheduling. */
  function Actor(a: Action): int {
    match a
    case Unblock(_, _) => NONE
    case Schedule => NONE
    case _ => a.t
  }

  /** Action a is a send or receive on an open descriptor of c. */
  predicate Touches(s: State, a: Action, c: int) {
    (a.Send? || a.Receive?) && ValidChannel(s, a.t, a.no) && ChanAt(s.chans, Fd(a.t, a.no)) == c
  }

  /** Task u across a step that it does not make.  It keeps its descriptors and its poll
      registrations; if it was running nothing about it changes; if it was blocked in poll_wait it
      either sleeps on or is told of an event it is registered for. */
  ghost predicate Undisturbed(s: State, r: State, u: int)
    requires IsTask(s, u) && IsTask(r, u) && Sized(s) && Sized(r)
  {
    && (s.sched.procs[u].status == Running || s.sched.procs[u].status == PollBlocked ==>
          (r.sched.procs[u] == s.sched.procs[u] && r.outs[u] == s.outs[u]) || ToldOf(s, r, u))
    && (forall no :: Fd(u, no) in s.chans.fds ==> Fd(u, no) in r.chans.fds && r.chans.fds[Fd(u, no)] == s.chans.fds[Fd(u, no)])
    && (forall no, ev :: Node(Fd(u, no), ev) in r.polls.at <==> Node(Fd(u, no), ev) in s.polls.at)
  }

  ghost predicate ToldOf(s: State, r: State, u: int)
    requires IsTask(s, u) && IsTask(r, u) && Sized(s) && Sized(r)
  {
    && s.sched.procs[u].status == PollBlocked && r.sched.procs[u].status == Running && r.outs[u].r0 == 0
    && Node(Fd(u, r.outs[u].pollFd), r.outs[u].pollEv) in s.polls.at
  }

  /** Task u as it is where only scheduling and results of other tasks change. */
  ghost predicate SameTask(s: State, r: State, u: int)
    requires IsTask(s, u) && IsTask(r, u) && Sized(s) && Sized(r)
  {
    r.sched.procs[u] == s.sched.procs[u] && r.outs[u] == s.outs[u]
  }

  lemma OnlyChangedUndisturbed(s: State, r: State, t: int, u: int)
    requires Sized(s) && Sized(r) && OnlyChanged(s.sched, r.sched, t) && IsTask(s, u) && u != t
    requires r.outs[u] == s.outs[u]
    requires forall f :: f in s.chans.fds && f.task != t ==> f in r.chans.fds && r.chans.fds[f] == s.chans.fds[f]
    requires forall f: Fd, ev :: f.task != t ==> (Node(f, ev) in r.polls.at <==> Node(f, ev) in s.polls.at)
    ensures Undisturbed(s, r, u)
  {
  }

  // ----- Messages -----

  /** A delivery, and the triggering after it, seen by a task that is on neither side of it. */
  lemma DeliveredFrame(s: State, mid: State, c: int, ev: Ev, t: int, u: int)
    requires Inv(s) && Mid(mid) && Fits(s, mid) && OnlyChanged(s.sched, mid.sched, t) && IsTask(s, u) && u != t
    requires mid.chans == s.chans && mid.polls == s.polls && mid.outs == s.outs
    requires Deliver(mid, c).Go?
    ensures Undisturbed(s, Deliver(mid, c).s, u)
    ensures Undisturbed(s, TriggerAll(Deliver(mid, c).s, c, ev), u)
  {
    hide Inv, Undisturbed, Met;
    DeliverOk(mid, c);
    var r := Deliver(mid, c).s;
    DeliverFrame(s, mid, c, t, u);
    TriggerFrame(s, r, c, ev, u);
  }

  lemma DeliverFrame(s: State, mid: State, c: int, t: int, u: int)
    requires Mid(mid) && Sized(s) && Fits(s, mid) && OnlyChanged(s.sched, mid.sched, t) && IsTask(s, u) && u != t
    requires mid.chans == s.chans && mid.polls == s.polls && mid.outs == s.outs
    requires Deliver(mid, c).Go?
    ensures Undisturbed(s, Deliver(mid, c).s, u)
  {
    hide CountsOk, LogsOk, QueuesOk, PlacedOk, FdsOk, PoolsOk, RefsOk, FreeOk, KeepOk, PollsOk, Undisturbed, MetTasks, Met;
    QueueHeadsBlocked(mid.sched, c);
    DeliverOk(mid, c);
    var senders, receivers := Q(mid.sched, Senders(c)), Q(mid.sched, Receivers(c));
    if senders != [] && receivers != [] {
      MetFds(mid, c, senders[0], receivers[0]);
      MetFrame(s, mid, Deliver(mid, c).s, c, senders[0], receivers[0], t, u);
    } else {
      OnlyChangedUndisturbed(s, mid, t, u);
    }
  }

  lemma QueueHeadsBlocked(sc: Sched, c: int)
    requires QueuesOk(sc) && PlacedOk(sc)
    ensures Q(sc, Senders(c)) != [] ==> IsSender(sc, Q(sc, Senders(c))[0])
    ensures Q(sc, Receivers(c)) != [] ==> IsReceiver(sc, Q(sc, Receivers(c))[0])
  {
    HeadsBlocked(sc, c);
    if Q(sc, Senders(c)) != [] { assert Q(sc, Senders(c))[0] in Q(sc, Senders(c)); }
    if Q(sc, Receivers(c)) != [] { assert Q(sc, Receivers(c))[0] in Q(sc, Receivers(c)); }
  }

  lemma MetFrame(s: State, mid: State, r: State, c: int, snd: int, rcv: int, t: int, u: int)
    requires Sized(s) && Fits(s, mid) && OnlyChanged(s.sched, mid.sched, t) && IsTask(s, u) && u != t
    requires mid.chans == s.chans && mid.polls == s.polls && mid.outs == s.outs && Fits(s, r)
    requires IsSender(mid.sched, snd) && IsReceiver(mid.sched, rcv)
    requires MetTasks(mid.sched, r.sched, c, snd, rcv) && r.polls == mid.polls
    requires forall f :: f in mid.chans.fds ==> f in r.chans.fds && r.chans.fds[f] == mid.chans.fds[f]
    requires forall v :: 0 <= v < |mid.outs| && v != snd && v != rcv ==> r.outs[v] == mid.outs[v]
    ensures Undisturbed(s, r, u)
  {
    if u != snd && u != rcv {
      assert r.sched.procs[u] == mid.sched.procs[u];
    }
  }

  /** A meeting adds at most one descriptor, at a number that was not open. */
  lemma MetFds(s: State, c: int, snd: int, rcv: int)
    requires Sized(s) && IsSender(s.sched, snd) && IsReceiver(s.sched, rcv) && PoolsOk(s.chans)
    requires s.sched.procs[snd].req.pass.Pass? ==> HasNumber(s.chans.pools[rcv])
    ensures var r := Met(s, c, snd, rcv);
            var pass := s.sched.procs[snd].req.pass;
            && r.polls == s.polls
            && (if pass.Pass? then
                  var f := Fd(rcv, TakeNumber(s.chans.pools[rcv]).1);
                  f !in s.chans.fds && r.chans.fds == s.chans.fds[f := Cd(pass.chan, pass.flags)] && r.outs[rcv].gotFd == f.no
                else r.chans == s.chans)
            && (forall u :: 0 <= u < |s.outs| && u != snd && u != rcv ==> r.outs[u] == s.outs[u])
  {
    assert PoolOk(s.chans, rcv);
    if s.sched.procs[snd].req.pass.Pass? { TakenOk(s.chans, rcv); }
  }

  lemma TriggerFrame(s: State, mid: State, c: int, ev: Ev, u: int)
    requires Mid(mid) && Sized(s) && Fits(s, mid) && IsTask(s, u) && Undisturbed(s, mid, u) && mid.polls == s.polls
    ensures Undisturbed(s, TriggerAll(mid, c, ev), u)
  {
    assert PollsOk(mid.chans, mid.polls) && FdsOk(mid.chans) && ListsOk(mid.polls);
    hide Mid, PollsOk, ListsOk, NodesOk, PollCountsOk, FdsOk;
    var fs := L(mid.polls, OnChannel(c, ev));
    TriggerEffect(mid, c, ev, u);
    var own := OwnedBy(fs, u);
    if mid.sched.procs[u].status == PollBlocked && own != [] {
      assert own[0] in own;
      ListedIsLinked(mid.polls, OnChannel(c, ev), own[0]);
      assert Fd(u, own[0].no) == own[0];
    }
  }

  lemma ListedIsLinked(po: Polls, l: ListId, f: Fd)
    requires ListsOk(po) && f in L(po, l)
    ensures Node(f, l.ev) in po.at && po.at[Node(f, l.ev)] == l
  {
  }

  // ----- Every step -----

  /** No step disturbs a task that does not make it. */
  lemma StepUndisturbed(s: State, a: Action, u: int)
    requires Sized(s) && Inv(s) && Enabled(s, a) && Safe(s, a) && Step(s, a).Go? && IsTask(s, u) && u != Actor(a)
    ensures Undisturbed(s, Step(s, a).s, u)
  {
    hide Inv, Undisturbed, SysSpawn, SysSend, SysRecv, SysDup, SysExit,
         SysClose, SysChannel, SysPollAdd, SysPollRemove, SysPollWait, SysEventWait, Interrupt, Scheduled;
    match a
    case Spawn(t, prio, nos, len, flags, memory) => SpawnFrame(s, t, prio, nos, len, flags, memory, u);
    case Channel(t) => ChannelFrame(s, t, u);
    case CloseFd(t, no) => CloseFrame(s, t, no, u);
    case Dup(t, oldfd, newfd, flags) => DupFrame(s, t, oldfd, newfd, flags, u);
    case Exit(t) => ExitFrame(s, t, u);
    case Send(t, no, msg, sch, flags) => SendFrame(s, t, no, msg, sch, flags, u);
    case Receive(t, no, cap, wants, flags) => ReceiveFrame(s, t, no, cap, wants, flags, u);
    case PollAdd(t, no, flags) => PollAddFrame(s, t, no, flags, u);
    case PollRemove(t, no, flags) => PollRemoveFrame(s, t, no, flags, u);
    case PollWait(t, presult) => PollWaitFrame(s, t, presult, u);
    case EventWait(t, event) => EventWaitFrame(s, t, event, u);
    case Other(t, v) => ReturnFrame(s, t, v, u);
    case Unblock(event, v) => InterruptFrame(s, event, v, u);
    case Schedule => ScheduledFrame(s, u);
  }

  lemma ReturnFrame(s: State, t: int, v: int, u: int)
    requires Sized(s) && IsTask(s, t) && IsTask(s, u) && u != t
    ensures Undisturbed(s, Return(s, t, v), u)
  {
  }

  lemma SendFrame(s: State, t: int, no: int, msg: seq<int>, sch: int, flags: int, u: int)
    requires Inv(s) && IsTask(s, t) && s.sched.procs[t].status == Running && IsTask(s, u) && u != t
    requires SysSend(s, t, no, msg, sch, flags).Go?
    ensures Undisturbed(s, SysSend(s, t, no, msg, sch, flags).s, u)
  {
    hide Mid, SchedOk, ChansOk, KeepOk, PollsOk, Rendezvous, Quiet, Asleep, Deliver, Offered, Undisturbed, HasFlag, TriggerAll;
    ReturnFrame(s, t, EBADF, u);
    ReturnFrame(s, t, EWOULDBLOCK, u);
    if ValidChannel(s, t, no) && (sch == NONE || ValidChannel(s, t, sch)) {
      var c := s.chans.fds[Fd(t, no)].chan;
      var pass := if sch == NONE then NoPass else Pass(s.chans.fds[Fd(t, sch)].chan, s.chans.fds[Fd(t, sch)].flags);
      HoldsOpen(s.chans, Fd(t, no));
      if sch != NONE { HoldsOpen(s.chans, Fd(t, sch)); }
      OfferedMid(s, t, c, msg, pass);
      OfferedParts(s, t, c, msg, pass);
      if Deliver(Offered(s, t, c, msg, pass), c).Go? {
        DeliveredFrame(s, Offered(s, t, c, msg, pass), c, EvRecv, t, u);
      }
    }
  }

  lemma OfferedParts(s: State, t: int, c: int, msg: seq<int>, pass: Pass)
    requires Inv(s) && IsTask(s, t) && s.sched.procs[t].status == Running
    ensures var r := Offered(s, t, c, msg, pass);
            r.chans == s.chans && r.polls == s.polls && r.outs == s.outs && OnlyChanged(s.sched, r.sched, t)
  {
    OfferedOk(s, t, c, msg, pass);
  }

  lemma AskedParts(s: State, t: int, c: int, cap: nat, wants: bool)
    requires Inv(s) && IsTask(s, t) && s.sched.procs[t].status == Running
    ensures var r := Asked(s, t, c, cap, wants);
            r.chans == s.chans && r.polls == s.polls && r.outs == s.outs && OnlyChanged(s.sched, r.sched, t)
  {
    AskedOk(s, t, c, cap, wants);
  }

  lemma ReceiveFrame(s: State, t: int, no: int, cap: nat, wants: bool, flags: int, u: int)
    requires Inv(s) && IsTask(s, t) && s.sched.procs[t].status == Running && IsTask(s, u) && u != t
    requires SysRecv(s, t, no, cap, wants, flags).Go?
    ensures Undisturbed(s, SysRecv(s, t, no, cap, wants, flags).s, u)
  {
    hide Mid, SchedOk, ChansOk, KeepOk, PollsOk, Rendezvous, Quiet, Asleep, Deliver, Asked, Undisturbed, HasFlag, TriggerAll;
    ReturnFrame(s, t, EBADF, u);
    ReturnFrame(s, t, EWOULDBLOCK, u);
    if ValidChannel(s, t, no) {
      var c := s.chans.fds[Fd(t, no)].chan;
      HoldsOpen(s.chans, Fd(t, no));
      AskedMid(s, t, c, cap, wants);
      AskedParts(s, t, c, cap, wants);
      if Deliver(Asked(s, t, c, cap, wants), c).Go? {
        DeliveredFrame(s, Asked(s, t, c, cap, wants), c, EvSend, t, u);
      }
    }
  }

  lemma PollAddFrame(s: State, t: int, no: int, flags: int, u: int)
    requires Inv(s) && IsTask(s, t) && IsTask(s, u) && u != t && SysPollAdd(s, t, no, flags).Go?
    ensures Undisturbed(s, SysPollAdd(s, t, no, flags).s, u)
  {
    hide Mid, SchedOk, ChansOk, KeepOk, PollsOk, Rendezvous, Quiet, Asleep, HasFlag;
  }

  lemma PollRemoveFrame(s: State, t: int, no: int, flags: int, u: int)
    requires Inv(s) && IsTask(s, t) && IsTask(s, u) && u != t && SysPollRemove(s, t, no, flags).Go?
    ensures Undisturbed(s, SysPollRemove(s, t, no, flags).s, u)
  {
    hide Mid, SchedOk, ChansOk, KeepOk, PollsOk, Rendezvous, Quiet, Asleep, HasFlag;
  }

  /** handle_poll moves nodes from list to list and touches one task. */
  lemma {:induction false} HandlePollFrame(s: State, t: int, ev: Ev, u: int)
    requires Sized(s) && IsTask(s, t) && IsTask(s, u) && u != t && KernelState.HandlePoll(s, t, ev).Go?
    ensures var r := KernelState.HandlePoll(s, t, ev).s;
            && OnlyChanged(s.sched, r.sched, t) && r.chans == s.chans && r.outs[u] == s.outs[u]
            && r.polls.at.Keys == s.polls.at.Keys
    decreases |L(s.polls, OnTask(t, ev))|
  {
    var queue := L(s.polls, OnTask(t, ev));
    if queue != [] {
      var f := queue[0];
      var c := ChanAt(s.chans, f);
      if !Active(s.sched, c, ev) {
        var s1 := s.(polls := Linked(Unlinked(s.polls, f, ev), f, OnChannel(c, ev)));
        HandlePollFrame(s1, t, ev, u);
        assert s1.polls.at.Keys == s.polls.at.Keys;
      }
    }
  }

  lemma PollWaitFrame(s: State, t: int, presult: bool, u: int)
    requires Inv(s) && IsTask(s, t) && s.sched.procs[t].status == Running && IsTask(s, u) && u != t
    requires SysPollWait(s, t, presult).Go?
    ensures Undisturbed(s, SysPollWait(s, t, presult).s, u)
  {
    hide Mid, SchedOk, ChansOk, KeepOk, PollsOk, Rendezvous, Quiet, Asleep, KernelState.HandlePoll, Undisturbed;
    ReturnFrame(s, t, EINVAL, u);
    ReturnFrame(s, t, EFAULT, u);
    if s.polls.counts[t] != 0 && presult {
      var s0 := s.(sched := Blocked(s.sched, t, PollBlocked, Polling, Nothing));
      HandlePollFrame(s0, t, EvRecv, u);
      var s1 := KernelState.HandlePoll(s0, t, EvRecv).s;
      if s1.sched.procs[t].status != Running {
        HandlePollFrame(s1, t, EvSend, u);
        KeysUndisturbed(s, KernelState.HandlePoll(s1, t, EvSend).s, t, u);
      } else {
        KeysUndisturbed(s, s1, t, u);
      }
    }
  }

  lemma KeysUndisturbed(s: State, r: State, t: int, u: int)
    requires Sized(s) && Sized(r) && OnlyChanged(s.sched, r.sched, t) && IsTask(s, u) && u != t && r.outs[u] == s.outs[u]
    requires r.chans == s.chans && r.polls.at.Keys == s.polls.at.Keys
    ensures Undisturbed(s, r, u)
  {
    forall n ensures n in r.polls.at <==> n in s.polls.at { assert n in r.polls.at.Keys <==> n in s.polls.at.Keys; }
  }

  lemma EventWaitFrame(s: State, t: int, event: int, u: int)
    requires Inv(s) && IsTask(s, t) && IsTask(s, u) && u != t && SysEventWait(s, t, event).Go?
    ensures Undisturbed(s, SysEventWait(s, t, event).s, u)
  {
    hide Mid, SchedOk, ChansOk, KeepOk, PollsOk, Rendezvous, Quiet, Asleep;
  }

  lemma ChannelFrame(s: State, t: int, u: int)
    requires Inv(s) && IsTask(s, t) && s.sched.procs[t].status == Running && IsTask(s, u) && u != t
    ensures SysChannel(s, t).Go? && Undisturbed(s, SysChannel(s, t).s, u)
  {
    hide Inv, TakeNumber, PoolsOk;
    Pooled(s);
    if HasNumber(s.chans.pools[t]) { NewFd(s.chans, t); }
  }

  lemma Pooled(s: State)
    requires Inv(s)
    ensures Sized(s) && ChansOk(s.chans) && PoolsOk(s.chans)
  {
    hide SchedOk, KeepOk, PollsOk, Rendezvous, Quiet, Asleep, FdsOk, RefsOk, FreeOk;
  }

  lemma NewFd(ch: Chans, t: int)
    requires PoolsOk(ch) && 0 <= t < |ch.pools| && HasNumber(ch.pools[t])
    ensures Fd(t, TakeNumber(ch.pools[t]).1) !in ch.fds
  {
    assert PoolOk(ch, t);
    TakenOk(ch, t);
  }

  lemma CloseFrame(s: State, t: int, no: int, u: int)
    requires Inv(s) && IsTask(s, t) && IsTask(s, u) && u != t && SysClose(s, t, no).Go?
    ensures Undisturbed(s, SysClose(s, t, no).s, u)
  {
    hide Mid, SchedOk, ChansOk, KeepOk, PollsOk, Rendezvous, Quiet, Asleep;
  }

  lemma DupFrame(s: State, t: int, oldfd: int, newfd: int, flags: int, u: int)
    requires Inv(s) && IsTask(s, t) && IsTask(s, u) && u != t && SysDup(s, t, oldfd, newfd, flags).Go?
    ensures Undisturbed(s, SysDup(s, t, oldfd, newfd, flags).s, u)
  {
    hide Mid, SchedOk, ChansOk, KeepOk, PollsOk, Rendezvous, Quiet, Asleep, DupOnto, TakeNumber, HasNumber;
    if ValidChannel(s, t, oldfd) && oldfd != newfd {
      if newfd == NONE && HasNumber(s.chans.pools[t]) {
        var (p, no) := TakeNumber(s.chans.pools[t]);
        DupOntoFrame(s.(chans := s.chans.(pools := s.chans.pools[t := p])), Fd(t, oldfd), Fd(t, no), u);
      } else if 0 <= newfd < MAX_TASK_CHANNELS {
        DupOntoFrame(s, Fd(t, oldfd), Fd(t, newfd), u);
      }
    }
  }

  lemma DupOntoFrame(s: State, from: Fd, f: Fd, u: int)
    requires Sized(s) && IsTask(s, f.task) && IsTask(s, u) && u != f.task && DupOnto(s, from, f).Go?
    ensures var r := DupOnto(s, from, f).s;
            && SameTask(s, r, u)
            && (forall g: Fd :: g.task == u && g in s.chans.fds ==> g in r.chans.fds && r.chans.fds[g] == s.chans.fds[g])
            && (forall g: Fd, ev :: g.task == u ==> (Node(g, ev) in r.polls.at <==> Node(g, ev) in s.polls.at))
  {
  }

  lemma {:induction false} CloseBelowFrame(s: State, t: int, n: nat)
    requires Sized(s) && IsTask(s, t) && CloseBelow(s, t, n).Go?
    ensures var r := CloseBelow(s, t, n).s;
            && r.outs == s.outs && r.sched == s.sched
            && (forall f: Fd :: f.task != t && f in s.chans.fds ==> f in r.chans.fds && r.chans.fds[f] == s.chans.fds[f])
            && (forall f: Fd, ev :: f.task != t ==> (Node(f, ev) in r.polls.at <==> Node(f, ev) in s.polls.at))
  {
    if n > 0 { CloseBelowFrame(s, t, n - 1); }
  }

  lemma ExitFrame(s: State, t: int, u: int)
    requires Inv(s) && IsTask(s, t) && s.sched.procs[t].status == Running && IsTask(s, u) && u != t
    requires SysExit(s, t).Go?
    ensures Undisturbed(s, SysExit(s, t).s, u)
  {
    hide Mid, SchedOk, ChansOk, KeepOk, PollsOk, Rendezvous, Quiet, Asleep, CloseBelow;
    var sc := s.sched;
    var s0 := s.(sched := sc.(live := sc.live - 1, nondaemon := if sc.procs[t].daemon then sc.nondaemon else sc.nondaemon - 1));
    CloseBelowFrame(s0, t, MAX_TASK_CHANNELS);
  }

  lemma {:induction false} InheritedFrame(ch: Chans, parent: int, child: int, nos: seq<int>, n: nat)
    requires n <= |nos|
    ensures var r := Inherited(ch, parent, child, nos, n);
            forall f :: f in ch.fds && f.task != child ==> f in r.fds && r.fds[f] == ch.fds[f]
  {
    if n > 0 { InheritedFrame(ch, parent, child, nos, n - 1); }
  }

  lemma SpawnFrame(s: State, t: int, prio: int, nos: seq<int>, len: int, flags: int, memory: bool, u: int)
    requires Sized(s) && Inv(s) && IsTask(s, t) && len <= |nos| && IsTask(s, u) && u != t && SysSpawn(s, t, prio, nos, len, flags, memory).Go?
    ensures Undisturbed(s, SysSpawn(s, t, prio, nos, len, flags, memory).s, u)
  {
    hide Inv, Started, AllocTask, Undisturbed, Vacant, ValidChannel;
    AllocTaskOk(s, memory);
    DeadHoldsNothing(s, u);
    ReturnFrame(s, t, EINVAL, u);
    ReturnFrame(s, t, EBADF, u);
    ReturnFrame(s, t, ENOMEM, u);
    var (s1, child) := AllocTask(s, memory);
    if SpawnArgs(s, t, prio, nos, len, flags) && child != NONE {
      AllocFrame(s, memory, u);
      StartedFrame(s, s1, t, child, prio, flags == SPAWN_DAEMON, nos[..len], u);
    }
  }

  lemma DeadHoldsNothing(s: State, u: int)
    requires Inv(s) && IsTask(s, u)
    ensures s.sched.procs[u].status == Dead ==> forall no :: Fd(u, no) !in s.chans.fds
  {
    forall f | f in s.chans.fds ensures s.sched.procs[f.task].status != Dead {}
  }

  lemma AllocFrame(s: State, memory: bool, u: int)
    requires Sized(s) && IsTask(s, u) && AllocTask(s, memory).1 != NONE
    ensures var r := AllocTask(s, memory).0;
            IsTask(r, u) && r.outs[u] == s.outs[u] && r.polls.at == s.polls.at && r.chans.fds == s.chans.fds
  {
  }

  lemma StartedFrame(s: State, s1: State, t: int, child: int, prio: int, daemon: bool, nos: seq<int>, u: int)
    requires Sized(s) && Sized(s1) && IsTask(s, u) && IsTask(s1, u) && IsTask(s, t) && IsTask(s1, t) && IsTask(s1, child) && u != t
    requires s1.outs[u] == s.outs[u] && s1.polls.at == s.polls.at && s1.chans.fds == s.chans.fds
    requires u != child ==> s1.sched.procs[u] == s.sched.procs[u]
    requires u == child ==> s.sched.procs[u].status == Dead && forall no :: Fd(u, no) !in s.chans.fds
    ensures Undisturbed(s, ReturnTo(Started(s1, t, child, prio, daemon, nos), t, Tid(s1, child)), u)
  {
    InheritedFrame(s1.chans.(pools := s1.chans.pools[child := Pool([], |nos|)]), t, child, nos, |nos|);
  }

  lemma {:induction false} WakeAllFrame(s: State, ts: seq<int>, v: int, u: int)
    requires Sized(s) && IsTask(s, u) && u !in ts
    ensures var r := WakeAll(s, ts, v);
            r.sched.procs[u] == s.sched.procs[u] && r.outs[u] == s.outs[u] && r.chans == s.chans && r.polls == s.polls
    decreases |ts|
  {
    if ts != [] {
      assert ts[0] in ts;
      if IsTask(s, ts[0]) {
        WakeAllFrame(Return(s.(sched := Woken(s.sched, ts[0])), ts[0], v), ts[1..], v, u);
      } else {
        WakeAllFrame(s, ts[1..], v, u);
      }
    }
  }

  lemma {:induction false} WakeAllKeeps(s: State, ts: seq<int>, v: int)
    requires Sized(s)
    ensures WakeAll(s, ts, v).chans == s.chans && WakeAll(s, ts, v).polls == s.polls
    decreases |ts|
  {
    if ts != [] {
      if IsTask(s, ts[0]) {
        WakeAllKeeps(Return(s.(sched := Woken(s.sched, ts[0])), ts[0], v), ts[1..], v);
      } else {
        WakeAllKeeps(s, ts[1..], v);
      }
    }
  }

  lemma InterruptFrame(s: State, event: int, v: int, u: int)
    requires Inv(s) && IsTask(s, u)
    ensures Undisturbed(s, Interrupt(s, event, v), u)
  {
    var ts := Q(s.sched, Waiting(event));
    WakeAllKeeps(s, ts, v);
    if u !in ts {
      WakeAllFrame(s, ts, v, u);
    } else {
      assert ProcOk(s.sched.procs[u]);
    }
  }

  lemma ScheduledFrame(s: State, u: int)
    requires Inv(s) && IsTask(s, u) && Scheduled(s).Go?
    ensures Undisturbed(s, Scheduled(s).s, u)
  {
    hide Mid, SchedOk, ChansOk, KeepOk, PollsOk, Rendezvous, Quiet, Asleep;
  }

  // ----- Channels that a step does not name -----

  /** Both queues of c and its history. */
  ghost predicate SameChannel(sc: Sched, r: Sched, c: int) {
    Q(r, Senders(c)) == Q(sc, Senders(c)) && Q(r, Receivers(c)) == Q(sc, Receivers(c)) && LogOf(r, c) == LogOf(sc, c)
  }

  /** Only a send or receive on c, or its creation, changes who waits on c. */
  lemma StepSameChannel(s: State, a: Action, c: int)
    requires Sized(s) && Inv(s) && Enabled(s, a) && Safe(s, a) && Step(s, a).Go?
    requires !Touches(s, a, c) && Naming(s.chans, c) != {}
    ensures SameChannel(s.sched, Step(s, a).s.sched, c)
  {
    hide Inv, SameChannel, SysSpawn, SysSend, SysRecv, SysDup, SysExit,
         SysClose, SysChannel, SysPollAdd, SysPollRemove, SysPollWait, SysEventWait, Interrupt, Scheduled;
    match a
    case Spawn(t, prio, nos, len, flags, memory) => SpawnSame(s, t, prio, nos, len, flags, memory, c);
    case Channel(t) => ChannelSame(s, t, c);
    case CloseFd(t, no) => CloseSame(s, t, no, c);
    case Dup(t, oldfd, newfd, flags) => DupSame(s, t, oldfd, newfd, flags, c);
    case Exit(t) => ExitSame(s, t, c);
    case Send(t, no, msg, sch, flags) => SendSame(s, t, no, msg, sch, flags, c);
    case Receive(t, no, cap, wants, flags) => ReceiveSame(s, t, no, cap, wants, flags, c);
    case PollAdd(t, no, flags) => PollAddSame(s, t, no, flags, c);
    case PollRemove(t, no, flags) => PollRemoveSame(s, t, no, flags, c);
    case PollWait(t, presult) => PollWaitSame(s, t, presult, c);
    case EventWait(t, event) => EventWaitSame(s, t, event, c);
    case Other(t, v) => ReturnSame(s, t, v, c);
    case Unblock(event, v) => InterruptSame(s, event, v, c);
    case Schedule => ScheduledSame(s, c);
  }

  lemma ReturnSame(s: State, t: int, v: int, c: int)
    requires Sized(s) && IsTask(s, t)
    ensures SameChannel(s.sched, Return(s, t, v).sched, c)
  {
  }

  lemma QueuesAndLogs(sc: Sched, r: Sched, c: int)
    requires SameChannelQueues(sc, r) && r.logs == sc.logs
    ensures SameChannel(sc, r, c)
  {
  }

  lemma {:induction false} TriggerLogs(s: State, fs: seq<Fd>, ev: Ev)
    requires Sized(s)
    ensures Trigger(s, fs, ev).sched.logs == s.sched.logs
    decreases |fs|
  {
    if fs != [] { TriggerLogs(TriggerOne(s, fs[0], ev), fs[1..], ev); }
  }

  lemma {:induction false} HandlePollLogs(s: State, t: int, ev: Ev)
    requires Sized(s) && IsTask(s, t) && KernelState.HandlePoll(s, t, ev).Go?
    ensures KernelState.HandlePoll(s, t, ev).s.sched.logs == s.sched.logs
    decreases |L(s.polls, OnTask(t, ev))|
  {
    var queue := L(s.polls, OnTask(t, ev));
    if queue != [] && !Active(s.sched, ChanAt(s.chans, queue[0]), ev) {
      var f := queue[0];
      HandlePollLogs(s.(polls := Linked(Unlinked(s.polls, f, ev), f, OnChannel(ChanAt(s.chans, f), ev))), t, ev);
    }
  }

  lemma SendSame(s: State, t: int, no: int, msg: seq<int>, sch: int, flags: int, c: int)
    requires Inv(s) && IsTask(s, t) && s.sched.procs[t].status == Running && SysSend(s, t, no, msg, sch, flags).Go?
    requires ValidChannel(s, t, no) ==> ChanAt(s.chans, Fd(t, no)) != c
    ensures SameChannel(s.sched, SysSend(s, t, no, msg, sch, flags).s.sched, c)
  {
    hide Mid, SchedOk, ChansOk, KeepOk, PollsOk, Rendezvous, Quiet, Asleep, Deliver, Offered, HasFlag, TriggerAll, Triggering, SameChannel;
    ReturnSame(s, t, EBADF, c);
    ReturnSame(s, t, EWOULDBLOCK, c);
    if ValidChannel(s, t, no) && (sch == NONE || ValidChannel(s, t, sch)) {
      var d := s.chans.fds[Fd(t, no)].chan;
      var pass := if sch == NONE then NoPass else Pass(s.chans.fds[Fd(t, sch)].chan, s.chans.fds[Fd(t, sch)].flags);
      HoldsOpen(s.chans, Fd(t, no));
      if sch != NONE { HoldsOpen(s.chans, Fd(t, sch)); }
      var mid := Offered(s, t, d, msg, pass);
      OfferedMid(s, t, d, msg, pass);
      OfferedSame(s, t, d, msg, pass, c);
      SendQueued(s, t, d, msg, pass);
      if Deliver(mid, d).Go? { DeliveredSame(s, mid, d, EvRecv, c); }
    }
  }

  lemma OfferedSame(s: State, t: int, d: int, msg: seq<int>, pass: Pass, c: int)
    requires Inv(s) && IsTask(s, t) && s.sched.procs[t].status == Running && d != c
    ensures SameChannel(s.sched, Offered(s, t, d, msg, pass).sched, c)
  {
    OfferedOk(s, t, d, msg, pass);
  }

  lemma AskedSame(s: State, t: int, d: int, cap: nat, wants: bool, c: int)
    requires Inv(s) && IsTask(s, t) && s.sched.procs[t].status == Running && d != c
    ensures SameChannel(s.sched, Asked(s, t, d, cap, wants).sched, c)
  {
    AskedOk(s, t, d, cap, wants);
  }

  lemma DeliveredSame(s: State, mid: State, d: int, ev: Ev, c: int)
    requires Mid(mid) && SameChannel(s.sched, mid.sched, c) && d != c && Deliver(mid, d).Go?
    ensures SameChannel(s.sched, Deliver(mid, d).s.sched, c)
    ensures Triggering(Deliver(mid, d).s, d, ev) ==> SameChannel(s.sched, TriggerAll(Deliver(mid, d).s, d, ev).sched, c)
  {
    DeliverOk(mid, d);
    hide Mid, Rendezvous, QuietBut, Asleep;
    var r := Deliver(mid, d).s;
    if Triggering(r, d, ev) {
      TriggerOk(r, d, ev);
      TriggerLogs(r, L(r.polls, OnChannel(d, ev)), ev);
    }
  }

  lemma ReceiveSame(s: State, t: int, no: int, cap: nat, wants: bool, flags: int, c: int)
    requires Inv(s) && IsTask(s, t) && s.sched.procs[t].status == Running && SysRecv(s, t, no, cap, wants, flags).Go?
    requires ValidChannel(s, t, no) ==> ChanAt(s.chans, Fd(t, no)) != c
    ensures SameChannel(s.sched, SysRecv(s, t, no, cap, wants, flags).s.sched, c)
  {
    hide Mid, SchedOk, ChansOk, KeepOk, PollsOk, Rendezvous, Quiet, Asleep, Deliver, Asked, HasFlag, TriggerAll, Triggering, SameChannel;
    ReturnSame(s, t, EBADF, c);
    ReturnSame(s, t, EWOULDBLOCK, c);
    if ValidChannel(s, t, no) {
      var d := s.chans.fds[Fd(t, no)].chan;
      HoldsOpen(s.chans, Fd(t, no));
      var mid := Asked(s, t, d, cap, wants);
      AskedMid(s, t, d, cap, wants);
      AskedSame(s, t, d, cap, wants, c);
      ReceiveQueued(s, t, d, cap, wants);
      if Deliver(mid, d).Go? { DeliveredSame(s, mid, d, EvSend, c); }
    }
  }

  lemma PollAddSame(s: State, t: int, no: int, flags: int, c: int)
    requires Inv(s) && IsTask(s, t) && SysPollAdd(s, t, no, flags).Go?
    ensures SameChannel(s.sched, SysPollAdd(s, t, no, flags).s.sched, c)
  {
    hide Mid, SchedOk, ChansOk, KeepOk, PollsOk, Rendezvous, Quiet, Asleep, HasFlag;
  }

  lemma PollRemoveSame(s: State, t: int, no: int, flags: int, c: int)
    requires Inv(s) && IsTask(s, t) && SysPollRemove(s, t, no, flags).Go?
    ensures SameChannel(s.sched, SysPollRemove(s, t, no, flags).s.sched, c)
  {
    hide Mid, SchedOk, ChansOk, KeepOk, PollsOk, Rendezvous, Quiet, Asleep, HasFlag;
  }

  lemma PollWaitSame(s: State, t: int, presult: bool, c: int)
    requires Inv(s) && IsTask(s, t) && s.sched.procs[t].status == Running && SysPollWait(s, t, presult).Go?
    ensures SameChannel(s.sched, SysPollWait(s, t, presult).s.sched, c)
  {
    hide Mid, SchedOk, ChansOk, KeepOk, PollsOk, Rendezvous, Quiet, Asleep, AsleepBut, KernelState.HandlePoll, Draining, Moved;
    if s.polls.counts[t] != 0 && presult {
      ParkedInPoll(s, t);
      var s0 := s.(sched := Blocked(s.sched, t, PollBlocked, Polling, Nothing));
      HandlePollOk(s0, t, EvRecv);
      HandlePollLogs(s0, t, EvRecv);
      BlockedLogs(s.sched, t, PollBlocked, Polling, Nothing);
      var s1 := KernelState.HandlePoll(s0, t, EvRecv).s;
      if s1.sched.procs[t].status != Running {
        HandlePollOk(s1, t, EvSend);
        HandlePollLogs(s1, t, EvSend);
      }
    }
  }

  lemma BlockedLogs(sc: Sched, t: int, status: Status, q: QueueId, req: Request)
    requires 0 <= t < |sc.procs|
    ensures Blocked(sc, t, status, q, req).logs == sc.logs
  {
  }

  lemma EventWaitSame(s: State, t: int, event: int, c: int)
    requires Inv(s) && IsTask(s, t) && s.sched.procs[t].status == Running && SysEventWait(s, t, event).Go?
    ensures SameChannel(s.sched, SysEventWait(s, t, event).s.sched, c)
  {
    assert ProcOk(s.sched.procs[t]);
    hide Mid, SchedOk, ChansOk, KeepOk, PollsOk, Rendezvous, Quiet, Asleep, AsleepBut, Draining;
    if 0 <= event < NEVENTS {
      ParkedMid(s, t, EventBlocked, Waiting(event), Awaiting(event));
      BlockedLogs(s.sched, t, EventBlocked, Waiting(event), Awaiting(event));
    }
  }

  lemma ChannelSame(s: State, t: int, c: int)
    requires Inv(s) && IsTask(s, t) && Naming(s.chans, c) != {} && SysChannel(s, t).Go?
    ensures SameChannel(s.sched, SysChannel(s, t).s.sched, c)
  {
    hide Inv, Naming, TakeNumber, FreshChannel;
    FreshIdle(s);
  }

  lemma FreshIdle(s: State)
    requires Inv(s)
    ensures var c := FreshChannel(s.chans).1;
            Naming(s.chans, c) == {} && Q(s.sched, Senders(c)) == [] && Q(s.sched, Receivers(c)) == []
  {
    hide CountsOk, LogsOk, FdsOk, PoolsOk, RefsOk, FreeOk, Quiet, Asleep;
    FreshOk(s.chans);
    UnnamedIsIdle(s, FreshChannel(s.chans).1);
  }

  lemma CloseSame(s: State, t: int, no: int, c: int)
    requires Inv(s) && IsTask(s, t) && s.sched.procs[t].status == Running && SysClose(s, t, no).Go?
    ensures SameChannel(s.sched, SysClose(s, t, no).s.sched, c)
  {
    hide Mid, SchedOk, ChansOk, KeepOk, PollsOk, Rendezvous, Quiet, Asleep;
  }

  lemma DupSame(s: State, t: int, oldfd: int, newfd: int, flags: int, c: int)
    requires Inv(s) && IsTask(s, t) && SysDup(s, t, oldfd, newfd, flags).Go?
    ensures SameChannel(s.sched, SysDup(s, t, oldfd, newfd, flags).s.sched, c)
  {
    hide Mid, SchedOk, ChansOk, KeepOk, PollsOk, Rendezvous, Quiet, Asleep;
  }

  lemma ExitSame(s: State, t: int, c: int)
    requires Sized(s) && Inv(s) && IsTask(s, t) && s.sched.procs[t].status == Running && SysExit(s, t).Go?
    ensures SameChannel(s.sched, SysExit(s, t).s.sched, c)
  {
    hide Inv, Moved, CloseBelow, OwnBelow;
    var sc := s.sched;
    var sc1 := sc.(live := sc.live - 1, nondaemon := if sc.procs[t].daemon then sc.nondaemon else sc.nondaemon - 1);
    CloseBelowOk(s, t, MAX_TASK_CHANNELS);
    CloseBelowCounters(s, t, MAX_TASK_CHANNELS, sc1.live, sc1.nondaemon);
    DeadQueues(s, sc1, t);
    assert SysExit(s, t).s.sched == Moved(sc1, t, Dead, Free);
    QueuesAndLogs(sc, Moved(sc1, t, Dead, Free), c);
  }

  lemma DeadQueues(s: State, sc1: Sched, t: int)
    requires Inv(s) && IsTask(s, t) && s.sched.procs[t].status == Running
    requires sc1 == s.sched.(live := s.sched.live - 1, nondaemon := if s.sched.procs[t].daemon then s.sched.nondaemon else s.sched.nondaemon - 1)
    ensures SameChannelQueues(s.sched, Moved(sc1, t, Dead, Free)) && Moved(sc1, t, Dead, Free).logs == s.sched.logs
  {
    DeadSched(s.sched, sc1, t);
  }

  lemma SpawnSame(s: State, t: int, prio: int, nos: seq<int>, len: int, flags: int, memory: bool, c: int)
    requires Sized(s) && Inv(s) && IsTask(s, t) && len <= |nos| && SysSpawn(s, t, prio, nos, len, flags, memory).Go?
    ensures SameChannel(s.sched, SysSpawn(s, t, prio, nos, len, flags, memory).s.sched, c)
  {
    hide Inv, Started, AllocTask, Vacant, ValidChannel, SameChannel;
    ReturnSame(s, t, EINVAL, c);
    ReturnSame(s, t, EBADF, c);
    ReturnSame(s, t, ENOMEM, c);
    var (s1, child) := AllocTask(s, memory);
    if SpawnArgs(s, t, prio, nos, len, flags) && child != NONE {
      AllocTaskOk(s, memory);
      AllocSame(s, memory, c);
      StartedSame(s1, t, child, prio, flags == SPAWN_DAEMON, nos[..len], c);
      SameTwice(s.sched, s1.sched, Started(s1, t, child, prio, flags == SPAWN_DAEMON, nos[..len]).sched, c);
    }
  }

  lemma SameTwice(sc: Sched, mid: Sched, r: Sched, c: int)
    requires SameChannel(sc, mid, c) && SameChannel(mid, r, c)
    ensures SameChannel(sc, r, c)
  {
  }

  lemma AllocSame(s: State, memory: bool, c: int)
    requires Sized(s)
    ensures SameChannel(s.sched, AllocTask(s, memory).0.sched, c)
  {
  }

  lemma StartedSame(s: State, parent: int, t: int, prio: int, daemon: bool, nos: seq<int>, c: int)
    requires Inv(s) && Vacant(s, t) && (parent == NONE || IsTask(s, parent)) && 0 <= prio < TASK_NPRIO
    ensures SameChannel(s.sched, Started(s, parent, t, prio, daemon, nos).sched, c)
  {
    var proc := s.sched.procs[t].(parent := if parent == NONE then 0 else Tid(s, parent), prio := prio, daemon := daemon);
    var sc1 := Sched(s.sched.procs[t := proc], s.sched.queues, s.sched.live + 1,
                     if daemon then s.sched.nondaemon else s.sched.nondaemon + 1, s.sched.logs);
    hide SchedOk, ChansOk, PollsOk, KeepOk, Quiet, Asleep, Rendezvous, Inherited;
    StartedSched(s.sched, sc1, t);
    WokenFields(sc1, t);
    QueuesAndLogs(s.sched, Woken(sc1, t), c);
  }

  lemma {:induction false} WakeAllSame(s: State, ts: seq<int>, v: int, c: int)
    requires Sized(s) && Inv(s) && NoDup(ts)
    requires forall t :: t in ts ==> IsTask(s, t) && s.sched.procs[t].status == EventBlocked
    ensures SameChannel(s.sched, WakeAll(s, ts, v).sched, c)
    decreases |ts|
  {
    if ts != [] {
      var t := ts[0];
      assert t in ts;
      WakeOneSame(s, t, c);
      WakeOneOk(s, t);
      var s1 := Return(s.(sched := Woken(s.sched, t)), t, v);
      ReturnOk(s.(sched := Woken(s.sched, t)), t, v);
      hide Inv;
      forall u | u in ts[1..] ensures IsTask(s1, u) && s1.sched.procs[u].status == EventBlocked {
        var i :| 0 <= i < |ts[1..]| && ts[1..][i] == u;
        assert ts[i + 1] == u && u != t && u in ts;
      }
      WakeAllSame(s1, ts[1..], v, c);
    }
  }

  lemma WakeOneSame(s: State, t: int, c: int)
    requires Inv(s) && IsTask(s, t) && s.sched.procs[t].status == EventBlocked
    ensures SameChannel(s.sched, Woken(s.sched, t), c)
  {
    WokenOk(s.sched, t);
    WokenFields(s.sched, t);
  }

  lemma InterruptSame(s: State, event: int, v: int, c: int)
    requires Sized(s) && Inv(s)
    ensures SameChannel(s.sched, Interrupt(s, event, v).sched, c)
  {
    forall t | t in Q(s.sched, Waiting(event)) ensures IsTask(s, t) && s.sched.procs[t].status == EventBlocked {
      assert ProcOk(s.sched.procs[t]);
    }
    assert NoDup(Q(s.sched, Waiting(event)));
    hide Inv;
    WakeAllSame(s, Q(s.sched, Waiting(event)), v, c);
  }

  lemma ScheduledSame(s: State, c: int)
    requires Sized(s) && Scheduled(s).Go?
    ensures SameChannel(s.sched, Scheduled(s).s.sched, c)
  {
  }

  // ----- Descriptors that a task does not name -----

  /** Action a may close, replace or re-register descriptor number no of its own task. */
  predicate Names(a: Action, no: int) {
    match a
    case CloseFd(_, n) => n == no
    case Dup(_, _, n, _) => n == no
    case PollAdd(_, n, _) => n == no
    case PollRemove(_, n, _) => n == no
    case Exit(_) => true
    case _ => false
  }

  /** Descriptor f is open on the same channel with the same flags, and registered for the same events. */
  ghost predicate SameFd(s: State, r: State, f: Fd) {
    && (f in s.chans.fds ==> f in r.chans.fds && r.chans.fds[f] == s.chans.fds[f])
    && (forall ev :: Node(f, ev) in r.polls.at <==> Node(f, ev) in s.polls.at)
  }

  /** A task's own call leaves its open descriptors alone, but for the one it names. */
  lemma OwnFdKept(s: State, a: Action, no: int)
    requires Sized(s) && Inv(s) && Enabled(s, a) && Safe(s, a) && Step(s, a).Go? && Actor(a) != NONE
    requires Fd(Actor(a), no) in s.chans.fds && !Names(a, no)
    ensures SameFd(s, Step(s, a).s, Fd(Actor(a), no))
  {
    var f := Fd(Actor(a), no);
    hide Mid, SchedOk, KeepOk, PollsOk, FdsOk, RefsOk, FreeOk, Rendezvous, Quiet, Asleep, SameFd, PoolsOk,
         SysSpawn, SysSend, SysRecv, SysDup, SysExit,
         SysClose, SysChannel, SysPollAdd, SysPollRemove, SysPollWait, SysEventWait, Interrupt, Scheduled;
    match a
    case Spawn(t, prio, nos, len, flags, memory) => OwnSpawn(s, t, prio, nos, len, flags, memory, f);
    case Channel(t) => OwnChannel(s, t, f);
    case CloseFd(t, n) => OwnClose(s, t, n, f);
    case Dup(t, oldfd, newfd, flags) => OwnDup(s, t, oldfd, newfd, flags, f);
    case Send(t, n, msg, sch, flags) => OwnSend(s, t, n, msg, sch, flags, f);
    case Receive(t, n, cap, wants, flags) => OwnReceive(s, t, n, cap, wants, flags, f);
    case PollAdd(t, n, flags) => OwnPollAdd(s, t, n, flags, f);
    case PollRemove(t, n, flags) => OwnPollRemove(s, t, n, flags, f);
    case PollWait(t, presult) => OwnPollWait(s, t, presult, f);
    case EventWait(t, event) => OwnEventWait(s, t, event, f);
    case Other(t, v) => OwnReturn(s, t, v, f);
  }

  lemma OwnReturn(s: State, t: int, v: int, f: Fd)
    requires Sized(s) && IsTask(s, t)
    ensures SameFd(s, Return(s, t, v), f)
  {
  }

  lemma OwnEventWait(s: State, t: int, event: int, f: Fd)
    requires Sized(s) && IsTask(s, t) && SysEventWait(s, t, event).Go?
    ensures SameFd(s, SysEventWait(s, t, event).s, f)
  {
  }

  lemma OwnPollAdd(s: State, t: int, no: int, flags: int, f: Fd)
    requires Sized(s) && IsTask(s, t) && f != Fd(t, no) && SysPollAdd(s, t, no, flags).Go?
    ensures SameFd(s, SysPollAdd(s, t, no, flags).s, f)
  {
    hide HasFlag;
  }

  lemma OwnPollRemove(s: State, t: int, no: int, flags: int, f: Fd)
    requires Sized(s) && IsTask(s, t) && f != Fd(t, no) && SysPollRemove(s, t, no, flags).Go?
    ensures SameFd(s, SysPollRemove(s, t, no, flags).s, f)
  {
    hide HasFlag;
  }

  lemma OwnClose(s: State, t: int, no: int, f: Fd)
    requires Sized(s) && IsTask(s, t) && f != Fd(t, no) && SysClose(s, t, no).Go?
    ensures SameFd(s, SysClose(s, t, no).s, f)
  {
  }

  lemma OwnChannel(s: State, t: int, f: Fd)
    requires Sized(s) && PoolsOk(s.chans) && IsTask(s, t) && f in s.chans.fds && SysChannel(s, t).Go?
    ensures SameFd(s, SysChannel(s, t).s, f)
  {
    if HasNumber(s.chans.pools[t]) { NewFd(s.chans, t); }
    hide TakeNumber, PoolsOk;
  }

  lemma OwnDup(s: State, t: int, oldfd: int, newfd: int, flags: int, f: Fd)
    requires Sized(s) && PoolsOk(s.chans) && IsTask(s, t) && f in s.chans.fds && f != Fd(t, newfd) && SysDup(s, t, oldfd, newfd, flags).Go?
    ensures SameFd(s, SysDup(s, t, oldfd, newfd, flags).s, f)
  {
    if HasNumber(s.chans.pools[t]) { NewFd(s.chans, t); }
    hide TakeNumber, PoolsOk, HasNumber;
  }

  lemma OwnSpawn(s: State, t: int, prio: int, nos: seq<int>, len: int, flags: int, memory: bool, f: Fd)
    requires Sized(s) && Inv(s) && IsTask(s, t) && s.sched.procs[t].status == Running && len <= |nos|
    requires f.task == t && SysSpawn(s, t, prio, nos, len, flags, memory).Go?
    ensures SameFd(s, SysSpawn(s, t, prio, nos, len, flags, memory).s, f)
  {
    hide Inv, Started, AllocTask, Vacant, ValidChannel, SameFd;
    OwnReturn(s, t, EINVAL, f);
    OwnReturn(s, t, EBADF, f);
    OwnReturn(s, t, ENOMEM, f);
    AllocTaskOk(s, memory);
    var (s1, child) := AllocTask(s, memory);
    if SpawnArgs(s, t, prio, nos, len, flags) && child != NONE {
      AllocFrame(s, memory, t);
      OwnStarted(s, s1, t, child, prio, flags == SPAWN_DAEMON, nos[..len], f);
    }
  }

  lemma OwnStarted(s: State, s1: State, t: int, child: int, prio: int, daemon: bool, nos: seq<int>, f: Fd)
    requires Sized(s) && Sized(s1) && IsTask(s1, t) && IsTask(s1, child) && child != t && f.task == t
    requires s1.polls.at == s.polls.at && s1.chans.fds == s.chans.fds
    ensures SameFd(s, ReturnTo(Started(s1, t, child, prio, daemon, nos), t, Tid(s1, child)), f)
  {
    InheritedFrame(s1.chans.(pools := s1.chans.pools[child := Pool([], |nos|)]), t, child, nos, |nos|);
  }

  lemma OwnPollWait(s: State, t: int, presult: bool, f: Fd)
    requires Sized(s) && IsTask(s, t) && SysPollWait(s, t, presult).Go?
    ensures SameFd(s, SysPollWait(s, t, presult).s, f)
  {
    hide KernelState.HandlePoll;
    if s.polls.counts[t] != 0 && presult {
      var s0 := s.(sched := Blocked(s.sched, t, PollBlocked, Polling, Nothing));
      HandlePollNodes(s0, t, EvRecv);
      var s1 := KernelState.HandlePoll(s0, t, EvRecv).s;
      if s1.sched.procs[t].status != Running {
        HandlePollNodes(s1, t, EvSend);
        KeysSameFd(s, KernelState.HandlePoll(s1, t, EvSend).s, f);
      } else {
        KeysSameFd(s, s1, f);
      }
    }
  }

  lemma KeysSameFd(s: State, r: State, f: Fd)
    requires r.chans == s.chans && r.polls.at.Keys == s.polls.at.Keys
    ensures SameFd(s, r, f)
  {
    forall n ensures n in r.polls.at <==> n in s.polls.at { assert n in r.polls.at.Keys <==> n in s.polls.at.Keys; }
  }

  lemma DeliverSameFd(s: State, mid: State, c: int, f: Fd)
    requires Mid(mid) && mid.chans == s.chans && mid.polls == s.polls && f in s.chans.fds && Deliver(mid, c).Go?
    ensures SameFd(s, Deliver(mid, c).s, f)
  {
    hide CountsOk, LogsOk, QueuesOk, PlacedOk, KeepOk, PollsOk, FdsOk, RefsOk, FreeOk, PoolsOk, Met;
    QueueHeadsBlocked(mid.sched, c);
    if Q(mid.sched, Senders(c)) != [] && Q(mid.sched, Receivers(c)) != [] {
      MetFds(mid, c, Q(mid.sched, Senders(c))[0], Q(mid.sched, Receivers(c))[0]);
    }
  }

  /** A delivery and the triggering after it keep every open descriptor. */
  lemma DeliveredSameFd(s: State, mid: State, c: int, ev: Ev, f: Fd)
    requires Sized(mid) && Mid(mid) && mid.chans == s.chans && mid.polls == s.polls && f in s.chans.fds && Deliver(mid, c).Go?
    ensures SameFd(s, Deliver(mid, c).s, f)
    ensures SameFd(s, TriggerAll(Deliver(mid, c).s, c, ev), f)
  {
    hide Mid, SameFd, Deliver;
    DeliverOk(mid, c);
    DeliverSameFd(s, mid, c, f);
    TriggerSameFd(s, Deliver(mid, c).s, c, ev, f);
  }

  lemma TriggerSameFd(s: State, mid: State, c: int, ev: Ev, f: Fd)
    requires Mid(mid) && SameFd(s, mid, f) && mid.polls == s.polls
    ensures SameFd(s, TriggerAll(mid, c, ev), f)
  {
    hide SchedOk, ChansOk, KeepOk, ListsOk, NodesOk, PollCountsOk;
    var fs := L(mid.polls, OnChannel(c, ev));
    TriggerKeys(mid, fs, c, ev);
    forall n ensures n in TriggerAll(mid, c, ev).polls.at <==> n in mid.polls.at {
      assert n in TriggerAll(mid, c, ev).polls.at.Keys <==> n in mid.polls.at.Keys;
    }
  }

  lemma {:induction false} TriggerKeys(s: State, fs: seq<Fd>, c: int, ev: Ev)
    requires Sized(s) && ListsOk(s.polls) && fs == L(s.polls, OnChannel(c, ev))
    ensures var r := Trigger(s, fs, ev); r.polls.at.Keys == s.polls.at.Keys && r.chans == s.chans
    decreases |fs|
  {
    hide ListsOk, TriggerOne;
    if fs != [] {
      TriggerOneShape(s, fs, c, ev);
      TriggerKeys(TriggerOne(s, fs[0], ev), fs[1..], c, ev);
    }
  }

  lemma OwnSend(s: State, t: int, no: int, msg: seq<int>, sch: int, flags: int, f: Fd)
    requires Inv(s) && IsTask(s, t) && s.sched.procs[t].status == Running && f in s.chans.fds
    requires SysSend(s, t, no, msg, sch, flags).Go?
    ensures SameFd(s, SysSend(s, t, no, msg, sch, flags).s, f)
  {
    hide Mid, SchedOk, ChansOk, KeepOk, PollsOk, Rendezvous, Quiet, Asleep, Deliver, Offered, SameFd, HasFlag, TriggerAll;
    OwnReturn(s, t, EBADF, f);
    OwnReturn(s, t, EWOULDBLOCK, f);
    if ValidChannel(s, t, no) && (sch == NONE || ValidChannel(s, t, sch)) {
      var c := s.chans.fds[Fd(t, no)].chan;
      var pass := if sch == NONE then NoPass else Pass(s.chans.fds[Fd(t, sch)].chan, s.chans.fds[Fd(t, sch)].flags);
      HoldsOpen(s.chans, Fd(t, no));
      if sch != NONE { HoldsOpen(s.chans, Fd(t, sch)); }
      OfferedMid(s, t, c, msg, pass);
      OfferedParts(s, t, c, msg, pass);
      if Deliver(Offered(s, t, c, msg, pass), c).Go? {
        DeliveredSameFd(s, Offered(s, t, c, msg, pass), c, EvRecv, f);
      }
    }
  }

  lemma OwnReceive(s: State, t: int, no: int, cap: nat, wants: bool, flags: int, f: Fd)
    requires Inv(s) && IsTask(s, t) && s.sched.procs[t].status == Running && f in s.chans.fds
    requires SysRecv(s, t, no, cap, wants, flags).Go?
    ensures SameFd(s, SysRecv(s, t, no, cap, wants, flags).s, f)
  {
    hide Mid, SchedOk, ChansOk, KeepOk, PollsOk, Rendezvous, Quiet, Asleep, Deliver, Asked, SameFd, HasFlag, TriggerAll;
    OwnReturn(s, t, EBADF, f);
    OwnReturn(s, t, EWOULDBLOCK, f);
    if ValidChannel(s, t, no) {
      var c := s.chans.fds[Fd(t, no)].chan;
      HoldsOpen(s.chans, Fd(t, no));
      AskedMid(s, t, c, cap, wants);
      AskedParts(s, t, c, cap, wants);
      if Deliver(Asked(s, t, c, cap, wants), c).Go? {
        DeliveredSameFd(s, Asked(s, t, c, cap, wants), c, EvSend, f);
      }
    }
  }

  // ----- What a send or receive does to its channel -----

  lemma NeverBoth(sc: Sched, c: int)
    requires Rendezvous(sc)
    ensures Q(sc, Senders(c)) == [] || Q(sc, Receivers(c)) == []
  {
  }

  /** Task t has queued its message on c, and the kernel has matched what it could. */
  ghost predicate SentOn(sc: Sched, r: Sched, c: int, p: Parcel) {
    var log := LogOf(sc, c);
    if Q(sc, Receivers(c)) == [] then
      && Q(r, Senders(c)) == Q(sc, Senders(c)) + [p.from] && Q(r, Receivers(c)) == []
      && LogOf(r, c) == log.(sent := log.sent + [p])
    else
      && Q(r, Senders(c)) == [] && Q(r, Receivers(c)) == Q(sc, Receivers(c))[1..]
      && LogOf(r, c) == log.(sent := log.sent + [p], met := log.met + [(p, Q(sc, Receivers(c))[0])])
  }

  /** Task t has asked to receive from c, and the kernel has matched what it could. */
  ghost predicate ReceivedOn(sc: Sched, r: Sched, c: int, t: int) {
    var log := LogOf(sc, c);
    if Q(sc, Senders(c)) == [] then
      && Q(r, Receivers(c)) == Q(sc, Receivers(c)) + [t] && Q(r, Senders(c)) == []
      && LogOf(r, c) == log.(asked := log.asked + [t])
    else
      && Q(r, Receivers(c)) == [] && Q(r, Senders(c)) == Q(sc, Senders(c))[1..]
      && |log.met| < |log.sent| && log.sent[|log.met|].from == Q(sc, Senders(c))[0]
      && LogOf(r, c) == log.(asked := log.asked + [t], met := log.met + [(log.sent[|log.met|], t)])
  }

  lemma SendShape(s: State, t: int, c: int, msg: seq<int>, pass: Pass)
    requires Inv(s) && IsTask(s, t) && s.sched.procs[t].status == Running
    requires Holds(s.chans, t, c) && (pass.Pass? ==> Holds(s.chans, t, pass.chan))
    requires Deliver(Offered(s, t, c, msg, pass), c).Go?
    ensures var r := Deliver(Offered(s, t, c, msg, pass), c).s;
            && SentOn(s.sched, r.sched, c, Parcel(t, msg, pass))
            && (Q(r.sched, Senders(c)) != [] ==> SentOn(s.sched, TriggerAll(r, c, EvRecv).sched, c, Parcel(t, msg, pass)))
  {
    hide SchedOk, ChansOk, KeepOk, PollsOk, Quiet, Asleep, Triggering, Moved, TriggerAll;
    var mid := Offered(s, t, c, msg, pass);
    OfferedOk(s, t, c, msg, pass);
    OfferedMid(s, t, c, msg, pass);
    SendQueued(s, t, c, msg, pass);
    DeliverOk(mid, c);
    var r := Deliver(mid, c).s;
    OfferedLog(s, t, c, msg, pass);
    if Q(s.sched, Receivers(c)) != [] {
      MetLog(mid, c);
    }
    if Q(r.sched, Senders(c)) != [] {
      TriggeredSame(r, c, EvRecv, c);
    }
  }

  lemma ReceiveShape(s: State, t: int, c: int, cap: nat, wants: bool)
    requires Inv(s) && IsTask(s, t) && s.sched.procs[t].status == Running && Holds(s.chans, t, c)
    requires Deliver(Asked(s, t, c, cap, wants), c).Go?
    ensures var r := Deliver(Asked(s, t, c, cap, wants), c).s;
            && ReceivedOn(s.sched, r.sched, c, t)
            && (Q(r.sched, Receivers(c)) != [] ==> ReceivedOn(s.sched, TriggerAll(r, c, EvSend).sched, c, t))
  {
    FirstParcel(s.sched, c);
    hide SchedOk, ChansOk, KeepOk, PollsOk, Quiet, Asleep, Triggering, Moved, TriggerAll;
    var mid := Asked(s, t, c, cap, wants);
    AskedOk(s, t, c, cap, wants);
    AskedMid(s, t, c, cap, wants);
    ReceiveQueued(s, t, c, cap, wants);
    DeliverOk(mid, c);
    var r := Deliver(mid, c).s;
    AskedLog(s, t, c, cap, wants);
    if Q(s.sched, Senders(c)) != [] {
      MetLog(mid, c);
    }
    if Q(r.sched, Receivers(c)) != [] {
      TriggeredSame(r, c, EvSend, c);
    }
  }

  /** The task at the head of the senders sent the first message not yet received. */
  lemma FirstParcel(sc: Sched, c: int)
    requires SchedOk(sc)
    ensures Q(sc, Senders(c)) != [] ==>
              var log := LogOf(sc, c);
              var snd := Q(sc, Senders(c))[0];
              |log.met| < |log.sent| && Waits(sc, snd, log.sent[|log.met|])
  {
    assert LogOk(sc, c);
    if Q(sc, Senders(c)) != [] {
      assert Waits(sc, Q(sc, Senders(c))[0], LogOf(sc, c).sent[|LogOf(sc, c).met| + 0]);
    }
  }

  lemma OfferedLog(s: State, t: int, c: int, msg: seq<int>, pass: Pass)
    requires Sized(s) && IsTask(s, t)
    ensures LogOf(Offered(s, t, c, msg, pass).sched, c) == LogOf(s.sched, c).(sent := LogOf(s.sched, c).sent + [Parcel(t, msg, pass)])
  {
  }

  lemma AskedLog(s: State, t: int, c: int, cap: nat, wants: bool)
    requires Sized(s) && IsTask(s, t)
    ensures LogOf(Asked(s, t, c, cap, wants).sched, c) == LogOf(s.sched, c).(asked := LogOf(s.sched, c).asked + [t])
  {
  }

  lemma MetLog(s: State, c: int)
    requires Sized(s) && Q(s.sched, Senders(c)) != [] && Q(s.sched, Receivers(c)) != [] && Deliver(s, c).Go? && SchedOk(s.sched)
    ensures var log := LogOf(s.sched, c);
            && |log.met| < |log.sent|
            && LogOf(Deliver(s, c).s.sched, c) == log.(met := log.met + [(log.sent[|log.met|], Q(s.sched, Receivers(c))[0])])
  {
    FirstParcel(s.sched, c);
  }

  lemma TriggeredSame(s: State, d: int, ev: Ev, c: int)
    requires Triggering(s, d, ev)
    ensures SameChannel(s.sched, TriggerAll(s, d, ev).sched, c)
  {
    TriggerOk(s, d, ev);
    TriggerLogs(s, L(s.polls, OnChannel(d, ev)), ev);
  }
}
