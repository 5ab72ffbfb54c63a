/** Runs of the kernel: what holds in every state that booting and any sequence of system calls,
    interrupts and scheduling decisions can reach. */
module KernelRuns {
  import opened Seqs
  import opened KernelState
  import opened KernelInvariant
  import opened KernelSteps

  // ----- Steps and runs -----

  /** Everything but a successful `dup` onto an explicit other descriptor number. */
  predicate Safe(s: State, a: Action) {
    a.Dup? ==> DupSafe(a.oldfd, a.newfd) || !ValidChannel(s, a.t, a.oldfd)
  }

  lemma StepOk(s: State, a: Action)
    requires Inv(s) && Enabled(s, a) && Safe(s, a)
    ensures match Step(s, a)
            case Go(r) => Inv(r)
            case Panic(fault) => if a.Schedule? then fault == NothingToSchedule else (a.Send? || a.Receive?) && MessageFault(fault)
  {
    hide Mid, SchedOk, ChansOk, KeepOk, PollsOk, Rendezvous, Quiet, Asleep, SysSpawn, SysSend, SysRecv, SysDup, SysExit,
         SysClose, SysChannel, SysPollAdd, SysPollRemove, SysPollWait, SysEventWait, Interrupt, Scheduled;
    match a
    case Spawn(t, prio, nos, len, flags, memory) => SpawnOk(s, t, prio, nos, len, flags, memory);
    case Channel(t) => ChannelOk(s, t);
    case CloseFd(t, no) => SysCloseOk(s, t, no);
    case Dup(t, oldfd, newfd, flags) => DupOk(s, t, oldfd, newfd, flags);
    case Exit(t) => ExitOk(s, t);
    case Send(t, no, msg, sch, flags) => SendOk(s, t, no, msg, sch, flags);
    case Receive(t, no, cap, wants, flags) => ReceiveOk(s, t, no, cap, wants, flags);
    case PollAdd(t, no, flags) => PollAddOk(s, t, no, flags);
    case PollRemove(t, no, flags) => PollRemoveOk(s, t, no, flags);
    case PollWait(t, presult) => PollWaitOk(s, t, presult);
    case EventWait(t, event) => EventWaitOk(s, t, event);
    case Other(t, v) => ReturnOk(s, t, v);
    case Unblock(event, v) => InterruptOk(s, event, v);
    case Schedule => ScheduledOk(s);
  }

  /** `main` before its loop: the idle task, then the first user task. */
  function Booted(): (r: State)
    ensures Sized(r)
  {
    var s1 := SysSpawn(INIT, NONE, 7, [], 0, SPAWN_DAEMON, true);
    if s1.Panic? then INIT
    else
      var s2 := SysSpawn(s1.s, NONE, 6, [], 0, 0, true);
      if s2.Panic? then INIT else s2.s
  }

  lemma BootOk()
    ensures Inv(Booted()) && |Booted().sched.procs| == 2
    ensures Booted().sched.procs[0].status == Running && Booted().sched.procs[0].prio == 7
  {
    assert Live(INIT.sched) == {} && LiveUser(INIT.sched) == {};
    assert Inv(INIT);
    SpawnOk(INIT, NONE, 7, [], 0, SPAWN_DAEMON, true);
    var s1 := SysSpawn(INIT, NONE, 7, [], 0, SPAWN_DAEMON, true).s;
    BootIdle();
    SpawnOk(s1, NONE, 6, [], 0, 0, true);
    BootInit(s1);
  }

  lemma BootIdle()
    ensures SysSpawn(INIT, NONE, 7, [], 0, SPAWN_DAEMON, true).Go?
    ensures var s1 := SysSpawn(INIT, NONE, 7, [], 0, SPAWN_DAEMON, true).s;
            |s1.sched.procs| == 1 && s1.sched.procs[0].status == Running && s1.sched.procs[0].prio == 7 && Q(s1.sched, Free) == []
  {
    var (s0, t) := AllocTask(INIT, true);
    assert t == 0 && Q(s0.sched, Free) == [0];
    assert Without([0], 0) == [];
  }

  lemma BootInit(s1: State)
    requires Sized(s1) && |s1.sched.procs| == 1 && s1.sched.procs[0].status == Running && s1.sched.procs[0].prio == 7
    requires Q(s1.sched, Free) == []
    ensures SysSpawn(s1, NONE, 6, [], 0, 0, true).Go?
    ensures var s2 := SysSpawn(s1, NONE, 6, [], 0, 0, true).s;
            |s2.sched.procs| == 2 && s2.sched.procs[0] == s1.sched.procs[0]
  {
  }

  /** A run from s: each action is taken only where it is enabled and safe. */
  ghost predicate IsRun(s: State, acts: seq<Action>, r: State)
    requires Sized(s)
    decreases |acts|
  {
    if acts == [] then r == s
    else
      && Enabled(s, acts[0]) && Safe(s, acts[0])
      && Step(s, acts[0]).Go? && IsRun(Step(s, acts[0]).s, acts[1..], r)
  }

  lemma {:induction false} RunOk(s: State, acts: seq<Action>, r: State)
    requires Inv(s) && IsRun(s, acts, r)
    ensures Inv(r)
    decreases |acts|
  {
    if acts != [] {
      hide Mid, SchedOk, ChansOk, KeepOk, PollsOk, Rendezvous, Quiet, Asleep;
      StepOk(s, acts[0]);
      RunOk(Step(s, acts[0]).s, acts[1..], r);
    }
  }

  ghost predicate Reachable(r: State) {
    exists acts :: IsRun(Booted(), acts, r)
  }

  lemma ReachableOk(r: State)
    requires Reachable(r)
    ensures Inv(r)
  {
    hide Inv;
    var acts :| IsRun(Booted(), acts, r);
    BootOk();
    RunOk(Booted(), acts, r);
  }

  /** Every task is on the one queue that its state dictates, once, and on no other; and the two counters
      are the numbers of live tasks and of those that are not daemons. */
  lemma OnItsQueue(r: State, t: int, q: QueueId)
    requires Reachable(r) && IsTask(r, t)
    ensures t in Q(r.sched, q) <==> q == Home(r.sched.procs[t])
    ensures NoDup(Q(r.sched, q)) && forall u :: u in Q(r.sched, q) ==> IsTask(r, u)
    ensures r.sched.live == |Live(r.sched)| && r.sched.nondaemon == |LiveUser(r.sched)|
  {
    ReachableOk(r);
    assert QueuesOk(r.sched) && PlacedOk(r.sched) && CountsOk(r.sched);
    hide Inv, SchedOk;
    assert ProcOk(r.sched.procs[t]);
    assert t in Q(r.sched, r.sched.procs[t].queue);
  }

  /** The i-th message sent on a channel meets the i-th receive asked of it, whatever is not met yet
      still waits in that order, and never on both sides. */
  lemma PairedInOrder(r: State, c: int)
    requires Reachable(r)
    ensures var log := LogOf(r.sched, c);
            && |log.met| <= |log.sent| && |log.met| <= |log.asked|
            && (forall i :: 0 <= i < |log.met| ==> log.met[i] == (log.sent[i], log.asked[i]))
            && |Q(r.sched, Senders(c))| == |log.sent| - |log.met| && Q(r.sched, Receivers(c)) == log.asked[|log.met|..]
            && (forall i :: 0 <= i < |Q(r.sched, Senders(c))| ==> Q(r.sched, Senders(c))[i] == log.sent[|log.met| + i].from)
            && (|log.met| == |log.sent| || |log.met| == |log.asked|)
  {
    ReachableOk(r);
    assert LogOk(r.sched, c) && Rendezvous(r.sched);
    hide Inv;
    var senders := Q(r.sched, Senders(c));
    forall i | 0 <= i < |senders| ensures senders[i] == LogOf(r.sched, c).sent[|LogOf(r.sched, c).met| + i].from {
      assert Waits(r.sched, senders[i], LogOf(r.sched, c).sent[|LogOf(r.sched, c).met| + i]);
    }
    assert senders == [] || Q(r.sched, Receivers(c)) == [];
  }

  /** Reference counts are the numbers of open descriptors, a channel is free exactly when it has none,
      and the numbers a task has used so far are either open or free, never both. */
  lemma Conserved(r: State, c: int, t: int, no: int)
    requires Reachable(r) && Sized(r) && 0 <= c < |r.chans.refs| && IsTask(r, t)
    ensures r.chans.refs[c] == |Naming(r.chans, c)|
    ensures c in r.chans.freeChans <==> Naming(r.chans, c) == {}
    ensures var p := r.chans.pools[t];
            && NoDup(p.free) && (0 <= no < p.next <==> no in p.free || Fd(t, no) in r.chans.fds)
            && !(no in p.free && Fd(t, no) in r.chans.fds)
  {
    hide Inv, Reachable, Naming;
    ReachableOk(r);
    ChansParts(r, t);
    assert Naming(r.chans, c) == {} <==> |Naming(r.chans, c)| == 0;
  }

  lemma ChansParts(r: State, t: int)
    requires Inv(r) && IsTask(r, t)
    ensures RefsOk(r.chans) && FreeOk(r.chans) && 0 <= t < |r.chans.pools| && PoolOk(r.chans, t)
  {
    hide SchedOk, KeepOk, PollsOk, Rendezvous, Quiet, Asleep, FdsOk, RefsOk, FreeOk;
  }

  // ----- Polling -----

  /** Whatever a task asleep in poll_wait is registered for is inactive and on its channel's list. */
  lemma SleeperIsCalm(s: State, t: int, no: int, ev: Ev)
    requires Inv(s) && IsTask(s, t) && s.sched.procs[t].status == PollBlocked
    ensures L(s.polls, OnTask(t, ev)) == []
    ensures Node(Fd(t, no), ev) in s.polls.at ==>
              var c := ChanAt(s.chans, Fd(t, no));
              Fd(t, no) in s.chans.fds && !Active(s.sched, c, ev) && Fd(t, no) in L(s.polls, OnChannel(c, ev))
  {
    if Node(Fd(t, no), ev) in s.polls.at {
      hide SchedOk, ChansOk, PollCountsOk;
      var l := s.polls.at[Node(Fd(t, no), ev)];
      assert Fd(t, no) in L(s.polls, l);
    }
  }

  /** A task blocked in poll_wait has empty poll queues, and whatever it polls is inactive and is
      registered with its channel, so that the next sender or receiver will wake it. */
  lemma NoLostWakeup(s: State, t: int, no: int, ev: Ev)
    requires Reachable(s) && IsTask(s, t) && s.sched.procs[t].status == PollBlocked
    ensures L(s.polls, OnTask(t, ev)) == []
    ensures Node(Fd(t, no), ev) in s.polls.at ==>
              var c := ChanAt(s.chans, Fd(t, no));
              Fd(t, no) in s.chans.fds && !Active(s.sched, c, ev) && Fd(t, no) in L(s.polls, OnChannel(c, ev))
  {
    ReachableOk(s);
    SleeperIsCalm(s, t, no, ev);
  }

  /** handle_poll reports an event that is registered and active. */
  lemma {:induction false} HandlePollReports(s: State, t: int, ev: Ev)
    requires Sized(s) && Draining(s, t) && s.sched.procs[t].status == PollBlocked
    ensures KernelState.HandlePoll(s, t, ev).Go?
    ensures var r := KernelState.HandlePoll(s, t, ev).s;
            r.sched.procs[t].status == Running ==> Reports(s, r, t) && r.outs[t].pollEv == ev
    decreases |L(s.polls, OnTask(t, ev))|
  {
    hide Mid, Rendezvous, Quiet, AsleepBut;
    var queue := L(s.polls, OnTask(t, ev));
    if queue == [] {
    } else if Active(s.sched, ChanAt(s.chans, queue[0]), ev) {
      PollHit(s, t, ev);
      HeadOfList(s, OnTask(t, ev));
      assert queue[0] == Fd(t, queue[0].no);
      var r := Reported(Rotated(s, t, ev, OnTask(t, ev)), queue[0], ev);
      assert r.outs[t] == s.outs[t].(r0 := 0, pollFd := queue[0].no, pollEv := ev);
    } else {
      PollMiss(s, t, ev);
      HeadOfList(s, OnTask(t, ev));
      HandlePollReports(Rotated(s, t, ev, OnChannel(ChanAt(s.chans, queue[0]), ev)), t, ev);
    }
  }

  /** What poll_wait reported to t in r is, in s, registered and active. */
  ghost predicate Reports(s: State, r: State, t: int)
    requires 0 <= t < |r.outs|
  {
    var f := Fd(t, r.outs[t].pollFd);
    var ev := r.outs[t].pollEv;
    Node(f, ev) in s.polls.at && Active(s.sched, ChanAt(s.chans, f), ev) && r.outs[t].r0 == 0
  }

  /** poll_wait of a task with something registered sleeps, or returns an active event of its own. */
  lemma PollWaitReports(s: State, t: int)
    requires Inv(s) && IsTask(s, t) && s.sched.procs[t].status == Running && s.polls.counts[t] > 0
    ensures SysPollWait(s, t, true).Go?
    ensures var r := SysPollWait(s, t, true).s;
            && (r.sched.procs[t].status == PollBlocked || r.sched.procs[t].status == Running)
            && (r.sched.procs[t].status == Running ==> Reports(s, r, t))
            && SameChannelQueues(s.sched, r.sched) && r.chans == s.chans && r.polls.at.Keys == s.polls.at.Keys
  {
    hide Mid, SchedOk, ChansOk, KeepOk, PollsOk, Rendezvous, Quiet, Asleep, Draining, Reports, KernelState.HandlePoll, Blocked;
    ParkedInPoll(s, t);
    var s0 := s.(sched := Blocked(s.sched, t, PollBlocked, Polling, Nothing));
    PolledOnce(s0, t, EvRecv);
    var s1 := KernelState.HandlePoll(s0, t, EvRecv).s;
    if s1.sched.procs[t].status != Running {
      PolledOnce(s1, t, EvSend);
      var s2 := KernelState.HandlePoll(s1, t, EvSend).s;
      if s2.sched.procs[t].status == Running { ReportsSame(s1, s, s2, t); }
    } else {
      ReportsSame(s0, s, s1, t);
    }
  }

  lemma ParkedInPoll(s: State, t: int)
    requires Inv(s) && IsTask(s, t) && s.sched.procs[t].status == Running
    ensures var s0 := s.(sched := Blocked(s.sched, t, PollBlocked, Polling, Nothing));
            && Sized(s0) && Draining(s0, t) && s0.sched.procs[t].status == PollBlocked && SameChannelQueues(s.sched, s0.sched)
  {
    assert ProcOk(s.sched.procs[t]);
    ParkedMid(s, t, PollBlocked, Polling, Nothing);
  }

  lemma PolledOnce(s: State, t: int, ev: Ev)
    requires Sized(s) && Draining(s, t) && s.sched.procs[t].status == PollBlocked
    ensures KernelState.HandlePoll(s, t, ev).Go?
    ensures var r := KernelState.HandlePoll(s, t, ev).s;
            && Draining(r, t) && (r.sched.procs[t].status == Running || r.sched == s.sched)
            && (r.sched.procs[t].status == Running ==> Reports(s, r, t))
            && SameChannelQueues(s.sched, r.sched) && r.chans == s.chans && r.polls.at.Keys == s.polls.at.Keys
  {
    hide Mid, Rendezvous, Quiet, AsleepBut, KernelState.HandlePoll;
    HandlePollOk(s, t, ev);
    HandlePollReports(s, t, ev);
    HandlePollNodes(s, t, ev);
  }

  /** A report is about registrations and waiting tasks, which poll_wait itself leaves alone. */
  lemma ReportsSame(s: State, s0: State, r: State, t: int)
    requires 0 <= t < |r.outs| && Reports(s, r, t)
    requires SameChannelQueues(s0.sched, s.sched) && s.chans == s0.chans && s.polls.at.Keys == s0.polls.at.Keys
    ensures Reports(s0, r, t)
  {
    var n := Node(Fd(t, r.outs[t].pollFd), r.outs[t].pollEv);
    assert n in s.polls.at.Keys <==> n in s0.polls.at.Keys;
  }

  lemma {:induction false} HandlePollNodes(s: State, t: int, ev: Ev)
    requires Sized(s) && IsTask(s, t) && KernelState.HandlePoll(s, t, ev).Go?
    ensures var r := KernelState.HandlePoll(s, t, ev).s; r.chans == s.chans && r.polls.at.Keys == s.polls.at.Keys
    decreases |L(s.polls, OnTask(t, ev))|
  {
    var queue := L(s.polls, OnTask(t, ev));
    if queue != [] {
      var f := queue[0];
      var c := ChanAt(s.chans, f);
      if !Active(s.sched, c, ev) {
        var s1 := s.(polls := Linked(Unlinked(s.polls, f, ev), f, OnChannel(c, ev)));
        HandlePollNodes(s1, t, ev);
        assert s1.polls.at.Keys == s.polls.at.Keys;
      }
    }
  }

  /** With an active event registered, poll_wait does not sleep. */
  lemma PollWaitReady(s: State, t: int, no: int, ev: Ev)
    requires Inv(s) && IsTask(s, t) && s.sched.procs[t].status == Running
    requires Node(Fd(t, no), ev) in s.polls.at && Active(s.sched, ChanAt(s.chans, Fd(t, no)), ev)
    ensures SysPollWait(s, t, true).Go? && SysPollWait(s, t, true).s.sched.procs[t].status == Running
    ensures Reports(s, SysPollWait(s, t, true).s, t)
  {
    RegisteredCounts(s, t, no, ev);
    hide Mid, SchedOk, ChansOk, KeepOk, PollsOk, Rendezvous, Quiet, Asleep, SysPollWait;
    PollWaitReports(s, t);
    PollWaitOk(s, t, true);
    var r := SysPollWait(s, t, true).s;
    assert Node(Fd(t, no), ev) in r.polls.at.Keys;
    if r.sched.procs[t].status == PollBlocked {
      SleeperIsCalm(r, t, no, ev);
    }
  }

  lemma RegisteredCounts(s: State, t: int, no: int, ev: Ev)
    requires Inv(s) && IsTask(s, t) && Node(Fd(t, no), ev) in s.polls.at
    ensures s.polls.counts[t] > 0
  {
    assert Node(Fd(t, no), ev) in NodesOf(s.polls, t);
    assert s.polls.counts[t] >= |NodesOf(s.polls, t)|;
  }

  /** Every node is on its channel's poll list, or on its task's queue, or on no list at all; never
      on two lists, nor twice on one; and a closed descriptor is on none. */
  lemma PollPlacement(s: State, f: Fd, ev: Ev)
    requires Reachable(s)
    ensures var onChannel := f in L(s.polls, OnChannel(ChanAt(s.chans, f), ev));
            var onTask := f in L(s.polls, OnTask(f.task, ev));
            && (Node(f, ev) in s.polls.at <==> onChannel || onTask)
            && !(onChannel && onTask)
            && (f !in s.chans.fds ==> !onChannel && !onTask)
            && (forall l :: f in L(s.polls, l) && l.ev == ev ==> l == OnChannel(ChanAt(s.chans, f), ev) || l == OnTask(f.task, ev))
    ensures forall l {:trigger NoDup(L(s.polls, l))} :: NoDup(L(s.polls, l))
  {
    ReachableOk(s);
    hide SchedOk, ChansOk, KeepOk, PollCountsOk, Quiet, Asleep, Rendezvous;
    forall l | f in L(s.polls, l) && l.ev == ev ensures l == OnChannel(ChanAt(s.chans, f), ev) || l == OnTask(f.task, ev) {
      assert Node(f, ev) in s.polls.at;
    }
  }

  ghost function OwnedBy(fs: seq<Fd>, t: int): (r: seq<Fd>)
    ensures forall f :: f in r <==> f in fs && f.task == t
  {
    if fs == [] then []
    else
      assert fs == [fs[0]] + fs[1..];
      (if fs[0].task == t then [fs[0]] else []) + OwnedBy(fs[1..], t)
  }

  /** What poll_trigger_all does to task t: blocked in poll_wait with descriptors on the list, it
      runs and is told of the first of them; otherwise it does not notice. */
  ghost predicate Notified(s: State, r: State, fs: seq<Fd>, ev: Ev, t: int)
    requires Fits(s, r) && IsTask(s, t) && Sized(s)
  {
    var own := OwnedBy(fs, t);
    if s.sched.procs[t].status == PollBlocked && own != [] then
      && r.sched.procs[t] == s.sched.procs[t].(status := Running, queue := Ready(s.sched.procs[t].prio))
      && r.outs[t] == s.outs[t].(r0 := 0, pollFd := own[0].no, pollEv := ev)
    else
      r.sched.procs[t] == s.sched.procs[t] && r.outs[t] == s.outs[t]
  }

  lemma TriggerOneNotifies(s: State, f: Fd, ev: Ev, t: int)
    requires Sized(s) && IsTask(s, t) && IsTask(s, f.task)
    ensures Notified(s, TriggerOne(s, f, ev), [f], ev, t)
  {
    hide Linked, Unlinked;
    assert OwnedBy([f], t) == if f.task == t then [f] else [];
  }

  lemma {:induction false} TriggerNotifies(s: State, fs: seq<Fd>, ev: Ev, t: int)
    requires Sized(s) && IsTask(s, t) && forall f :: f in fs ==> IsTask(s, f.task)
    ensures Notified(s, Trigger(s, fs, ev), fs, ev, t)
    decreases |fs|
  {
    hide TriggerOne;
    if fs != [] {
      assert fs[0] in fs && fs == [fs[0]] + fs[1..];
      TriggerOneNotifies(s, fs[0], ev, t);
      assert OwnedBy([fs[0]], t) == if fs[0].task == t then [fs[0]] else [];
      TriggerNotifies(TriggerOne(s, fs[0], ev), fs[1..], ev, t);
    }
  }

  /** A send that has to wait tells every task blocked on polling that channel, and leaves on each
      task's queue, in order, the descriptors that were on the channel's list. */
  lemma TriggerEffect(s: State, c: int, ev: Ev, t: int)
    requires Sized(s) && PollsOk(s.chans, s.polls) && FdsOk(s.chans) && IsTask(s, t)
    ensures var fs := L(s.polls, OnChannel(c, ev));
            var r := TriggerAll(s, c, ev);
            && Notified(s, r, fs, ev, t)
            && L(r.polls, OnTask(t, ev)) == L(s.polls, OnTask(t, ev)) + OwnedBy(fs, t)
            && r.polls.at.Keys == s.polls.at.Keys && r.chans == s.chans
  {
    var fs := L(s.polls, OnChannel(c, ev));
    forall f | f in fs ensures IsTask(s, f.task) { assert Node(f, ev) in s.polls.at; }
    TriggerNotifies(s, fs, ev, t);
    TriggerQueues(s, fs, c, ev, t);
  }

  lemma TriggerOneShape(s: State, fs: seq<Fd>, c: int, ev: Ev)
    requires Sized(s) && ListsOk(s.polls) && fs == L(s.polls, OnChannel(c, ev)) && fs != []
    ensures var r := TriggerOne(s, fs[0], ev);
            && ListsOk(r.polls) && r.chans == s.chans && r.polls.at.Keys == s.polls.at.Keys
            && L(r.polls, OnChannel(c, ev)) == fs[1..]
            && L(r.polls, OnTask(fs[0].task, ev)) == L(s.polls, OnTask(fs[0].task, ev)) + [fs[0]]
            && (forall l :: l != OnChannel(c, ev) && l != OnTask(fs[0].task, ev) ==> L(r.polls, l) == L(s.polls, l))
  {
    var f := fs[0];
    assert f in fs && Node(f, ev) in s.polls.at && s.polls.at[Node(f, ev)] == OnChannel(c, ev);
    RelinkedShape(s.polls, f, ev, OnTask(f.task, ev));
    RelinkedLists(s.polls, f, ev, OnTask(f.task, ev));
    assert Without(fs, f) == fs[1..];
  }

  lemma {:induction false} TriggerQueues(s: State, fs: seq<Fd>, c: int, ev: Ev, t: int)
    requires Sized(s) && ListsOk(s.polls) && IsTask(s, t) && fs == L(s.polls, OnChannel(c, ev))
    ensures var r := Trigger(s, fs, ev);
            && L(r.polls, OnTask(t, ev)) == L(s.polls, OnTask(t, ev)) + OwnedBy(fs, t)
            && r.polls.at.Keys == s.polls.at.Keys && r.chans == s.chans
    decreases |fs|
  {
    hide ListsOk, TriggerOne;
    if fs != [] {
      TriggerOneShape(s, fs, c, ev);
      TriggerQueues(TriggerOne(s, fs[0], ev), fs[1..], c, ev, t);
      assert OwnedBy(fs, t) == (if fs[0].task == t then [fs[0]] else []) + OwnedBy(fs[1..], t);
    }
  }

  // ----- Rendezvous -----

  /** A call that may not wait never leaves its caller waiting. */
  lemma NonblockingSend(s: State, t: int, no: int, msg: seq<int>, sch: int, flags: int)
    requires Inv(s) && IsTask(s, t) && s.sched.procs[t].status == Running && ValidChannel(s, t, no)
    requires HasFlag(s.chans.fds[Fd(t, no)].flags, CHAN_NONBLOCK) || HasFlag(flags, RECV_NONBLOCK)
    requires SysSend(s, t, no, msg, sch, flags).Go?
    ensures SysSend(s, t, no, msg, sch, flags).s.sched.procs[t].status == Running
  {
    var c := s.chans.fds[Fd(t, no)].chan;
    if Q(s.sched, Receivers(c)) != [] && HasFlag(s.chans.fds[Fd(t, no)].flags, CHAN_SEND) && (sch == NONE || ValidChannel(s, t, sch)) {
      var pass := if sch == NONE then NoPass else Pass(s.chans.fds[Fd(t, sch)].chan, s.chans.fds[Fd(t, sch)].flags);
      HoldsOpen(s.chans, Fd(t, no));
      if sch != NONE { HoldsOpen(s.chans, Fd(t, sch)); }
      SendMeets(s, t, c, msg, pass);
    }
  }

  /** A sender that finds a receiver pairs with the one that has waited longest. */
  lemma SendMeets(s: State, t: int, c: int, msg: seq<int>, pass: Pass)
    requires Inv(s) && IsTask(s, t) && s.sched.procs[t].status == Running && Q(s.sched, Receivers(c)) != []
    requires Holds(s.chans, t, c) && (pass.Pass? ==> Holds(s.chans, t, pass.chan))
    ensures var out := Deliver(Offered(s, t, c, msg, pass), c);
            out.Go? ==>
              var rcv := Q(s.sched, Receivers(c))[0];
              && IsTask(s, rcv) && rcv != t
              && out.s.sched.procs[t].status == Running && out.s.sched.procs[rcv].status == Running
              && out.s.outs[t].r0 == 0 && out.s.outs[rcv].r0 == |msg| && out.s.outs[rcv].inbox == msg
              && Q(out.s.sched, Senders(c)) == [] && Q(s.sched, Receivers(c)) == [rcv] + Q(out.s.sched, Receivers(c))
              && (forall u :: 0 <= u < |s.sched.procs| && u != t && u != rcv ==>
                    out.s.sched.procs[u] == s.sched.procs[u] && out.s.outs[u] == s.outs[u])
  {
    hide SchedOk, ChansOk, KeepOk, PollsOk, Quiet, Asleep;
    var mid := Offered(s, t, c, msg, pass);
    OfferedOk(s, t, c, msg, pass);
    OfferedMid(s, t, c, msg, pass);
    DeliverOk(mid, c);
  }

  /** A receiver that finds a sender pairs with the one that has waited longest. */
  lemma ReceiveMeets(s: State, t: int, c: int, cap: nat, wants: bool)
    requires Inv(s) && IsTask(s, t) && s.sched.procs[t].status == Running && Q(s.sched, Senders(c)) != []
    requires Holds(s.chans, t, c)
    ensures var out := Deliver(Asked(s, t, c, cap, wants), c);
            out.Go? ==>
              var snd := Q(s.sched, Senders(c))[0];
              && IsTask(s, snd) && snd != t && s.sched.procs[snd].req.Sending?
              && out.s.sched.procs[t].status == Running && out.s.sched.procs[snd].status == Running
              && out.s.outs[snd].r0 == 0
              && out.s.outs[t].r0 == |s.sched.procs[snd].req.msg| && out.s.outs[t].inbox == s.sched.procs[snd].req.msg
              && Q(out.s.sched, Receivers(c)) == [] && Q(s.sched, Senders(c)) == [snd] + Q(out.s.sched, Senders(c))
              && (forall u :: 0 <= u < |s.sched.procs| && u != t && u != snd ==>
                    out.s.sched.procs[u] == s.sched.procs[u] && out.s.outs[u] == s.outs[u])
  {
    hide SchedOk, ChansOk, KeepOk, PollsOk, Quiet, Asleep;
    var mid := Asked(s, t, c, cap, wants);
    AskedOk(s, t, c, cap, wants);
    AskedMid(s, t, c, cap, wants);
    DeliverOk(mid, c);
    assert mid.sched.procs[t] == s.sched.procs[t].(status := RecvBlocked, queue := Receivers(c), req := Receiving(c, cap, wants));
  }

  lemma NonblockingReceive(s: State, t: int, no: int, cap: nat, wants: bool, flags: int)
    requires Inv(s) && IsTask(s, t) && s.sched.procs[t].status == Running && ValidChannel(s, t, no)
    requires HasFlag(s.chans.fds[Fd(t, no)].flags, CHAN_NONBLOCK) || HasFlag(flags, RECV_NONBLOCK)
    requires SysRecv(s, t, no, cap, wants, flags).Go?
    ensures SysRecv(s, t, no, cap, wants, flags).s.sched.procs[t].status == Running
  {
    var c := s.chans.fds[Fd(t, no)].chan;
    if Q(s.sched, Senders(c)) != [] && HasFlag(s.chans.fds[Fd(t, no)].flags, CHAN_RECV) {
      HoldsOpen(s.chans, Fd(t, no));
      ReceiveMeets(s, t, c, cap, wants);
    }
  }

  /** Closing a descriptor takes it off the poll lists but leaves the poll count as it was: a count that
      was exact stays exact exactly when the descriptor was not registered for anything. */
  lemma CloseAndPollCount(s: State, t: int, no: int)
    requires Sized(s) && Inv(s) && IsTask(s, t) && s.sched.procs[t].status == Running && ValidChannel(s, t, no)
    requires s.polls.counts[t] == |NodesOf(s.polls, t)|
    ensures SysClose(s, t, no).Go?
    ensures var r := SysClose(s, t, no).s;
            r.polls.counts[t] == |NodesOf(r.polls, t)| <==> forall ev :: Node(Fd(t, no), ev) !in s.polls.at
  {
    hide Inv, NodesOf;
    ClosedNodes(s, t, no);
    var r := SysClose(s, t, no).s;
    NodesLeft(s.polls, r.polls, t, no);
  }

  lemma ClosedNodes(s: State, t: int, no: int)
    requires Sized(s) && Inv(s) && IsTask(s, t) && s.sched.procs[t].status == Running && ValidChannel(s, t, no)
    ensures SysClose(s, t, no).Go?
    ensures var r := SysClose(s, t, no).s.polls;
            r.counts == s.polls.counts && r.at == s.polls.at - {Node(Fd(t, no), EvRecv), Node(Fd(t, no), EvSend)}
  {
    hide Mid, SchedOk, ChansOk, KeepOk, Rendezvous, Quiet, Asleep, ListsOk, NodesOk, PollCountsOk;
    ClosedLists(s.polls, Fd(t, no));
    hide Inv, Unlinked;
    CloseOk(s, Fd(t, no));
  }

  lemma NodesLeft(po: Polls, r: Polls, t: int, no: int)
    requires r.at == po.at - {Node(Fd(t, no), EvRecv), Node(Fd(t, no), EvSend)}
    ensures |NodesOf(r, t)| == |NodesOf(po, t)| <==> forall ev :: Node(Fd(t, no), ev) !in po.at
  {
    var gone := NodesOf(po, t) - NodesOf(r, t);
    assert NodesOf(po, t) == NodesOf(r, t) + gone;
    assert |NodesOf(po, t)| == |NodesOf(r, t)| + |gone|;
    forall ev ensures Node(Fd(t, no), ev) in gone <==> Node(Fd(t, no), ev) in po.at {
      assert ev == EvRecv || ev == EvSend;
    }
    if gone != {} {
      var n :| n in gone;
      assert n == Node(Fd(t, no), n.ev);
    }
  }
}
