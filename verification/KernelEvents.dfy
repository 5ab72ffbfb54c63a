/** Interrupts find exactly the tasks that wait for them: who waits for an event, by the calls made so
    far, and what waking them does. */
module KernelEvents {
  import opened Seqs
  import opened KernelState
  import opened KernelInvariant
  import opened KernelSteps
  import opened KernelRuns
  import opened KernelFrames

  // ----- What leaves the waiting tasks of an event alone -----

  ghost predicate SameWaiting(sc: Sched, r: Sched, e: int) {
    Q(r, Waiting(e)) == Q(sc, Waiting(e))
  }

  lemma SameWaitingTwice(sc: Sched, mid: Sched, r: Sched, e: int)
    ensures SameWaiting(sc, sc, e) && (SameWaiting(sc, mid, e) && SameWaiting(mid, r, e) ==> SameWaiting(sc, r, e))
  {
  }

  lemma MovedWaiting(sc: Sched, t: int, status: Status, q: QueueId, e: int)
    requires 0 <= t < |sc.procs| && sc.procs[t].queue != Waiting(e) && q != Waiting(e)
    ensures SameWaiting(sc, Moved(sc, t, status, q), e)
    ensures var r := Moved(sc, t, status, q);
            |r.procs| == |sc.procs| && r.procs[t] == sc.procs[t].(status := status, queue := q) &&
            forall u :: 0 <= u < |sc.procs| && u != t ==> r.procs[u] == sc.procs[u]
  {
  }

  lemma SameSchedWaiting(s: State, a: Action, e: int)
    requires Sized(s) && Enabled(s, a) && (a.PollAdd? || a.PollRemove? || a.CloseFd? || a.Dup? || a.Other?)
    ensures Step(s, a).Go? ==> Step(s, a).s.sched == s.sched
  {
    hide HasFlag, Linked, Unlinked, Dropped, Installed;
  }

  lemma ChannelWaiting(s: State, t: int, e: int)
    requires Sized(s) && IsTask(s, t) && SysChannel(s, t).Go?
    ensures SameWaiting(s.sched, SysChannel(s, t).s.sched, e)
  {
    hide Opened, TakeNumber, HasNumber;
  }

  /** The queue of a task, by what it is doing. */
  lemma HomeQueue(sc: Sched, t: int)
    requires SchedOk(sc) && 0 <= t < |sc.procs|
    ensures sc.procs[t].queue == Home(sc.procs[t])
  {
    assert ProcOk(sc.procs[t]);
  }

  lemma ExitWaiting(s: State, t: int, e: int)
    requires Sized(s) && Inv(s) && IsTask(s, t) && s.sched.procs[t].status == Running && SysExit(s, t).Go?
    ensures SameWaiting(s.sched, SysExit(s, t).s.sched, e)
  {
    HomeQueue(s.sched, t);
    var sc := s.sched;
    var s0 := s.(sched := sc.(live := sc.live - 1, nondaemon := if sc.procs[t].daemon then sc.nondaemon else sc.nondaemon - 1));
    hide Inv, CloseBelow, Moved;
    CloseBelowFrame(s0, t, MAX_TASK_CHANNELS);
    MovedWaiting(s0.sched, t, Dead, Free, e);
  }

  lemma SpawnWaiting(s: State, parent: int, prio: int, nos: seq<int>, len: int, flags: int, memory: bool, e: int)
    requires Sized(s) && Inv(s) && (parent == NONE || IsTask(s, parent)) && len <= |nos|
    requires SysSpawn(s, parent, prio, nos, len, flags, memory).Go?
    ensures SameWaiting(s.sched, SysSpawn(s, parent, prio, nos, len, flags, memory).s.sched, e)
  {
    hide Inv, Started, AllocTask, Vacant, ValidChannel;
    var (s1, child) := AllocTask(s, memory);
    if SpawnArgs(s, parent, prio, nos, len, flags) && child != NONE {
      AllocTaskOk(s, memory);
      AllocWaiting(s, memory, e);
      ChildQueue(s1, child);
      StartedWaiting(s1, parent, child, prio, flags == SPAWN_DAEMON, nos[..len], e);
    }
  }

  lemma ChildQueue(s: State, t: int)
    requires Inv(s) && Vacant(s, t)
    ensures s.sched.procs[t].queue == Free
  {
    HomeQueue(s.sched, t);
  }

  lemma AllocWaiting(s: State, memory: bool, e: int)
    requires Sized(s)
    ensures SameWaiting(s.sched, AllocTask(s, memory).0.sched, e)
  {
  }

  lemma StartedWaiting(s: State, parent: int, child: int, prio: int, daemon: bool, nos: seq<int>, e: int)
    requires Sized(s) && IsTask(s, child) && (parent == NONE || IsTask(s, parent)) && s.sched.procs[child].queue == Free
    ensures SameWaiting(s.sched, Started(s, parent, child, prio, daemon, nos).sched, e)
  {
    hide Moved, Inherited;
    var proc := s.sched.procs[child].(parent := if parent == NONE then 0 else Tid(s, parent), prio := prio, daemon := daemon);
    var sc1 := s.sched.(live := s.sched.live + 1, nondaemon := if daemon then s.sched.nondaemon else s.sched.nondaemon + 1,
                        procs := s.sched.procs[child := proc]);
    MovedWaiting(sc1, child, Running, Ready(prio), e);
  }

  lemma {:induction false} HandlePollWaiting(s: State, t: int, ev: Ev, e: int)
    requires Sized(s) && IsTask(s, t) && s.sched.procs[t].queue == Polling && KernelState.HandlePoll(s, t, ev).Go?
    ensures var r := KernelState.HandlePoll(s, t, ev).s;
            SameWaiting(s.sched, r.sched, e) && (r.sched == s.sched || r.sched.procs[t].status == Running)
    decreases |L(s.polls, OnTask(t, ev))|
  {
    hide Moved;
    var queue := L(s.polls, OnTask(t, ev));
    if queue != [] {
      var f := queue[0];
      var c := ChanAt(s.chans, f);
      if Active(s.sched, c, ev) {
        MovedWaiting(s.sched, t, Running, Ready(s.sched.procs[t].prio), e);
      } else {
        HandlePollWaiting(s.(polls := Linked(Unlinked(s.polls, f, ev), f, OnChannel(c, ev))), t, ev, e);
      }
    }
  }

  lemma PollWaitWaiting(s: State, t: int, presult: bool, e: int)
    requires Sized(s) && Inv(s) && IsTask(s, t) && s.sched.procs[t].status == Running && SysPollWait(s, t, presult).Go?
    ensures SameWaiting(s.sched, SysPollWait(s, t, presult).s.sched, e)
  {
    HomeQueue(s.sched, t);
    hide Inv, KernelState.HandlePoll, Moved;
    if s.polls.counts[t] != 0 && presult {
      MovedWaiting(s.sched, t, PollBlocked, Polling, e);
      var s0 := s.(sched := Blocked(s.sched, t, PollBlocked, Polling, Nothing));
      HandlePollWaiting(s0, t, EvRecv, e);
      var s1 := KernelState.HandlePoll(s0, t, EvRecv).s;
      if s1.sched.procs[t].status != Running {
        HandlePollWaiting(s1, t, EvSend, e);
      }
    }
  }

  /** Tasks asleep in poll_wait are not waiting for an event. */
  ghost predicate Pollers(sc: Sched) {
    forall u :: 0 <= u < |sc.procs| && sc.procs[u].status == PollBlocked ==> sc.procs[u].queue == Polling
  }

  lemma {:induction false} TriggerWaiting(s: State, fs: seq<Fd>, ev: Ev, e: int)
    requires Sized(s) && Pollers(s.sched)
    ensures SameWaiting(s.sched, Trigger(s, fs, ev).sched, e)
    decreases |fs|
  {
    hide TriggerOne;
    if fs != [] {
      TriggerOneWaiting(s, fs[0], ev, e);
      TriggerWaiting(TriggerOne(s, fs[0], ev), fs[1..], ev, e);
    }
  }

  lemma TriggerOneWaiting(s: State, f: Fd, ev: Ev, e: int)
    requires Sized(s) && Pollers(s.sched)
    ensures SameWaiting(s.sched, TriggerOne(s, f, ev).sched, e) && Pollers(TriggerOne(s, f, ev).sched)
  {
    hide Linked, Unlinked, Moved;
    if IsTask(s, f.task) && s.sched.procs[f.task].status == PollBlocked {
      MovedWaiting(s.sched, f.task, Running, Ready(s.sched.procs[f.task].prio), e);
    }
  }

  /** Whoever is blocked on a channel waits in a queue of that channel. */
  ghost predicate Talkers(sc: Sched) {
    forall u :: 0 <= u < |sc.procs| && (sc.procs[u].status == SendBlocked || sc.procs[u].status == RecvBlocked) ==>
      sc.procs[u].queue.Senders? || sc.procs[u].queue.Receivers?
  }

  lemma QueuesByStatus(sc: Sched)
    requires SchedOk(sc)
    ensures Pollers(sc) && Talkers(sc)
  {
    forall u | 0 <= u < |sc.procs| ensures sc.procs[u].queue == Home(sc.procs[u]) { HomeQueue(sc, u); }
  }

  lemma DeliverWaiting(s: State, c: int, ev: Ev, e: int)
    requires Sized(s) && Pollers(s.sched) && Talkers(s.sched) && Deliver(s, c).Go?
    ensures SameWaiting(s.sched, Deliver(s, c).s.sched, e)
    ensures SameWaiting(s.sched, TriggerAll(Deliver(s, c).s, c, ev).sched, e)
  {
    hide Moved, Opened, TakeNumber, HasNumber, Trigger;
    var senders, receivers := Q(s.sched, Senders(c)), Q(s.sched, Receivers(c));
    var r := Deliver(s, c).s;
    if senders != [] && receivers != [] {
      var snd, rcv := senders[0], receivers[0];
      MovedWaiting(s.sched, rcv, Running, Ready(s.sched.procs[rcv].prio), e);
      var mid := Woken(s.sched, rcv);
      MovedWaiting(mid, snd, Running, Ready(mid.procs[snd].prio), e);
    }
    TriggerWaiting(r, L(r.polls, OnChannel(c, ev)), ev, e);
  }

  lemma OfferedWaiting(s: State, t: int, c: int, msg: seq<int>, pass: Pass, e: int)
    requires Sized(s) && IsTask(s, t) && s.sched.procs[t].queue.Ready? && Pollers(s.sched) && Talkers(s.sched)
    ensures var r := Offered(s, t, c, msg, pass).sched; SameWaiting(s.sched, r, e) && Pollers(r) && Talkers(r)
  {
    hide Moved;
    MovedWaiting(s.sched, t, SendBlocked, Senders(c), e);
  }

  lemma AskedWaiting(s: State, t: int, c: int, cap: nat, wants: bool, e: int)
    requires Sized(s) && IsTask(s, t) && s.sched.procs[t].queue.Ready? && Pollers(s.sched) && Talkers(s.sched)
    ensures var r := Asked(s, t, c, cap, wants).sched; SameWaiting(s.sched, r, e) && Pollers(r) && Talkers(r)
  {
    hide Moved;
    MovedWaiting(s.sched, t, RecvBlocked, Receivers(c), e);
  }

  lemma SendWaiting(s: State, t: int, no: int, msg: seq<int>, sch: int, flags: int, e: int)
    requires Sized(s) && Inv(s) && IsTask(s, t) && s.sched.procs[t].status == Running && SysSend(s, t, no, msg, sch, flags).Go?
    ensures SameWaiting(s.sched, SysSend(s, t, no, msg, sch, flags).s.sched, e)
  {
    HomeQueue(s.sched, t);
    QueuesByStatus(s.sched);
    hide Inv, Deliver, Offered, TriggerAll, Pollers, Talkers, HasFlag, SameWaiting;
    SameWaitingTwice(s.sched, s.sched, s.sched, e);
    if ValidChannel(s, t, no) && (sch == NONE || ValidChannel(s, t, sch)) {
      var c := s.chans.fds[Fd(t, no)].chan;
      var pass := if sch == NONE then NoPass else Pass(s.chans.fds[Fd(t, sch)].chan, s.chans.fds[Fd(t, sch)].flags);
      OfferedWaiting(s, t, c, msg, pass, e);
      var mid := Offered(s, t, c, msg, pass);
      if Deliver(mid, c).Go? {
        DeliverWaiting(mid, c, EvRecv, e);
        SameWaitingTwice(s.sched, mid.sched, Deliver(mid, c).s.sched, e);
        SameWaitingTwice(s.sched, mid.sched, TriggerAll(Deliver(mid, c).s, c, EvRecv).sched, e);
      }
    }
  }

  lemma ReceiveWaiting(s: State, t: int, no: int, cap: nat, wants: bool, flags: int, e: int)
    requires Sized(s) && Inv(s) && IsTask(s, t) && s.sched.procs[t].status == Running && SysRecv(s, t, no, cap, wants, flags).Go?
    ensures SameWaiting(s.sched, SysRecv(s, t, no, cap, wants, flags).s.sched, e)
  {
    HomeQueue(s.sched, t);
    QueuesByStatus(s.sched);
    hide Inv, Deliver, Asked, TriggerAll, Pollers, Talkers, HasFlag, SameWaiting;
    SameWaitingTwice(s.sched, s.sched, s.sched, e);
    if ValidChannel(s, t, no) {
      var c := s.chans.fds[Fd(t, no)].chan;
      AskedWaiting(s, t, c, cap, wants, e);
      var mid := Asked(s, t, c, cap, wants);
      if Deliver(mid, c).Go? {
        DeliverWaiting(mid, c, EvSend, e);
        SameWaitingTwice(s.sched, mid.sched, Deliver(mid, c).s.sched, e);
        SameWaitingTwice(s.sched, mid.sched, TriggerAll(Deliver(mid, c).s, c, EvSend).sched, e);
      }
    }
  }

  lemma ScheduledWaiting(s: State, e: int)
    requires Sized(s) && Scheduled(s).Go?
    ensures SameWaiting(s.sched, Scheduled(s).s.sched, e)
  {
  }

  // ----- Calling and waking -----

  /** A task that calls event_wait is blocked, last in the queue of that event and of no other. */
  lemma EventWaitQueues(s: State, t: int, event: int)
    requires Inv(s) && Enabled(s, EventWait(t, event)) && 0 <= event < 5
    ensures Step(s, EventWait(t, event)).Go?
    ensures var r := Step(s, EventWait(t, event)).s;
            && IsTask(r, t) && r.sched.procs[t].status == EventBlocked && r.outs[t].r0 == -5
            && Q(r.sched, Waiting(event)) == Q(s.sched, Waiting(event)) + [t]
            && (forall e :: e != event ==> Q(r.sched, Waiting(e)) == Q(s.sched, Waiting(e)))
            && (forall u :: IsTask(s, u) && u != t ==> r.sched.procs[u] == s.sched.procs[u] && r.outs[u] == s.outs[u])
  {
    HomeQueue(s.sched, t);
    hide Inv;
  }

  /** For an event that there is not, it returns at once. */
  lemma EventWaitRefused(s: State, t: int, event: int)
    requires Inv(s) && Enabled(s, EventWait(t, event)) && !(0 <= event < 5)
    ensures Step(s, EventWait(t, event)).Go?
    ensures var r := Step(s, EventWait(t, event)).s; r.sched == s.sched && IsTask(r, t) && r.outs[t].r0 == -3
  {
    assert Sized(s);
    hide Inv;
  }

  /** t runs with result v, or is as it was. */
  ghost predicate WokenOr(s: State, r: State, t: int, woken: bool, v: int)
    requires Sized(s) && IsTask(s, t)
  {
    && Sized(r) && IsTask(r, t)
    && if woken then
         && r.sched.procs[t] == s.sched.procs[t].(status := Running, queue := Ready(s.sched.procs[t].prio))
         && r.outs[t] == s.outs[t].(r0 := v)
       else r.sched.procs[t] == s.sched.procs[t] && r.outs[t] == s.outs[t]
  }

  lemma {:induction false} WakeAllWakes(s: State, ts: seq<int>, v: int, event: int, e: int)
    requires Sized(s) && NoDup(ts) && forall t :: t in ts ==> IsTask(s, t) && s.sched.procs[t].queue == Waiting(event)
    ensures forall t :: IsTask(s, t) ==> WokenOr(s, WakeAll(s, ts, v), t, t in ts, v)
    ensures e != event ==> SameWaiting(s.sched, WakeAll(s, ts, v).sched, e)
    ensures Q(s.sched, Waiting(event)) == ts ==> Q(WakeAll(s, ts, v).sched, Waiting(event)) == []
    decreases |ts|
  {
    hide Moved;
    if ts != [] {
      assert ts == [ts[0]] + ts[1..] && ts[0] in ts && ts[0] !in ts[1..];
      WokenOne(s.sched, ts[0], event, e);
      var s1 := Return(s.(sched := Woken(s.sched, ts[0])), ts[0], v);
      forall t | t in ts[1..] ensures IsTask(s1, t) && s1.sched.procs[t].queue == Waiting(event) { assert t in ts; }
      WakeAllWakes(s1, ts[1..], v, event, e);
      forall t | IsTask(s, t) ensures WokenOr(s, WakeAll(s, ts, v), t, t in ts, v) {
        assert IsTask(s1, t) && WokenOr(s1, WakeAll(s1, ts[1..], v), t, t in ts[1..], v);
      }
      if Q(s.sched, Waiting(event)) == ts { assert Without(ts, ts[0]) == ts[1..]; }
    }
  }

  lemma WokenOne(sc: Sched, t: int, event: int, e: int)
    requires 0 <= t < |sc.procs| && sc.procs[t].queue == Waiting(event)
    ensures var r := Woken(sc, t);
            && |r.procs| == |sc.procs| && r.procs[t] == sc.procs[t].(status := Running, queue := Ready(sc.procs[t].prio))
            && (forall u :: 0 <= u < |sc.procs| && u != t ==> r.procs[u] == sc.procs[u])
            && Q(r, Waiting(event)) == Without(Q(sc, Waiting(event)), t) && (e != event ==> SameWaiting(sc, r, e))
  {
  }

  /** An interrupt makes exactly the tasks in the queue of its event run, each with its result. */
  lemma InterruptWakes(s: State, event: int, v: int, e: int)
    requires Inv(s)
    ensures Step(s, Unblock(event, v)).Go?
    ensures var r := Step(s, Unblock(event, v)).s;
            && (forall t :: IsTask(s, t) ==> WokenOr(s, r, t, t in Q(s.sched, Waiting(event)), v))
            && Q(r.sched, Waiting(event)) == [] && (e != event ==> SameWaiting(s.sched, r.sched, e))
  {
    assert QueuesOk(s.sched);
    var ts := Q(s.sched, Waiting(event));
    assert NoDup(ts);
    hide Inv;
    WakeAllWakes(s, ts, v, event, e);
  }

  // ----- Over a run -----

  /** Who waits for event e after action a, if these did before it. */
  function NowWaiting(waiting: seq<int>, a: Action, e: int): seq<int> {
    if a.EventWait? && a.event == e && 0 <= e < 5 then waiting + [a.t]
    else if a.Unblock? && a.event == e then []
    else waiting
  }

  lemma StepWaiting(s: State, a: Action, e: int)
    requires Inv(s) && Enabled(s, a) && Safe(s, a) && Step(s, a).Go?
    ensures Q(Step(s, a).s.sched, Waiting(e)) == NowWaiting(Q(s.sched, Waiting(e)), a, e)
  {
    assert Sized(s);
    hide Inv, SysSpawn, SysSend, SysRecv, SysDup, SysExit,
         SysClose, SysChannel, SysPollAdd, SysPollRemove, SysPollWait, SysEventWait, Interrupt, Scheduled;
    match a
    case Spawn(t, prio, nos, len, flags, memory) => SpawnWaiting(s, t, prio, nos, len, flags, memory, e);
    case Channel(t) => ChannelWaiting(s, t, e);
    case CloseFd(t, no) => SameSchedWaiting(s, a, e);
    case Dup(t, oldfd, newfd, flags) => SameSchedWaiting(s, a, e);
    case Exit(t) => ExitWaiting(s, t, e);
    case Send(t, no, msg, sch, flags) => SendWaiting(s, t, no, msg, sch, flags, e);
    case Receive(t, no, cap, wants, flags) => ReceiveWaiting(s, t, no, cap, wants, flags, e);
    case PollAdd(t, no, flags) => SameSchedWaiting(s, a, e);
    case PollRemove(t, no, flags) => SameSchedWaiting(s, a, e);
    case PollWait(t, presult) => PollWaitWaiting(s, t, presult, e);
    case EventWait(t, event) => if 0 <= event < 5 { EventWaitQueues(s, t, event); } else { EventWaitRefused(s, t, event); }
    case Other(t, v) => SameSchedWaiting(s, a, e);
    case Unblock(event, v) => InterruptWakes(s, event, v, e);
    case Schedule => ScheduledWaiting(s, e);
  }

  /** The tasks that have called event_wait(e) since the last interrupt of that event, in order. */
  function Callers(waiting: seq<int>, acts: seq<Action>, e: int): seq<int>
    decreases |acts|
  {
    if acts == [] then waiting else Callers(NowWaiting(waiting, acts[0], e), acts[1..], e)
  }

  lemma {:induction false} RunWaiting(s: State, acts: seq<Action>, r: State, e: int)
    requires Sized(s) && Inv(s) && IsRun(s, acts, r)
    ensures Q(r.sched, Waiting(e)) == Callers(Q(s.sched, Waiting(e)), acts, e)
    decreases |acts|
  {
    hide Inv, Step;
    if acts != [] {
      StepOk(s, acts[0]);
      StepWaiting(s, acts[0], e);
      RunWaiting(Step(s, acts[0]).s, acts[1..], r, e);
    }
  }

  lemma BootedWaiting(e: int)
    ensures Inv(Booted()) && Q(Booted().sched, Waiting(e)) == []
  {
    hide Inv, SysSpawn;
    BootOk();
    InitOk();
    SpawnOk(INIT, NONE, 7, [], 0, SPAWN_DAEMON, true);
    SpawnWaiting(INIT, NONE, 7, [], 0, SPAWN_DAEMON, true, e);
    var s1 := SysSpawn(INIT, NONE, 7, [], 0, SPAWN_DAEMON, true).s;
    SpawnOk(s1, NONE, 6, [], 0, 0, true);
    SpawnWaiting(s1, NONE, 6, [], 0, 0, true, e);
  }

  lemma InitOk()
    ensures Inv(INIT)
  {
    assert Live(INIT.sched) == {} && LiveUser(INIT.sched) == {};
  }

  /** In every reachable state the tasks that wait for an event are those that have called event_wait for it
      since its last interrupt, in that order; they are blocked, and wait for nothing else. */
  lemma WaitersAreCallers(acts: seq<Action>, r: State, e: int)
    requires IsRun(Booted(), acts, r)
    ensures Sized(r) && Inv(r) && Q(r.sched, Waiting(e)) == Callers([], acts, e)
    ensures forall t :: t in Callers([], acts, e) ==> IsTask(r, t) && r.sched.procs[t].status == EventBlocked && r.sched.procs[t].queue == Waiting(e)
    ensures forall t :: IsTask(r, t) && r.sched.procs[t].status == EventBlocked && r.sched.procs[t].queue == Waiting(e) ==> t in Callers([], acts, e)
  {
    BootedWaiting(e);
    RunWaiting(Booted(), acts, r, e);
    RunOk(Booted(), acts, r);
    WaitersAre(r, e);
    hide Inv;
  }

  lemma WaitersAre(r: State, e: int)
    requires Inv(r)
    ensures forall t :: t in Q(r.sched, Waiting(e)) ==> IsTask(r, t) && r.sched.procs[t].status == EventBlocked && r.sched.procs[t].queue == Waiting(e)
    ensures forall t :: IsTask(r, t) && r.sched.procs[t].queue == Waiting(e) ==> t in Q(r.sched, Waiting(e))
  {
    forall t | t in Q(r.sched, Waiting(e)) ensures IsTask(r, t) && r.sched.procs[t].status == EventBlocked && r.sched.procs[t].queue == Waiting(e) {
      HomeQueue(r.sched, t);
    }
  }

  /** After any run, an interrupt makes exactly the tasks run that have called event_wait for its event and
      not been woken since, each with the interrupt's result; every other task stays as it is. */
  lemma WokenByTheirEvent(acts: seq<Action>, r: State, event: int, v: int, t: int)
    requires IsRun(Booted(), acts, r) && IsTask(r, t)
    ensures Sized(r) && Step(r, Unblock(event, v)).Go?
    ensures var r' := Step(r, Unblock(event, v)).s;
            && Sized(r') && IsTask(r', t)
            && if t in Callers([], acts, event) then
                 r.sched.procs[t].status == EventBlocked && r'.sched.procs[t].status == Running && r'.outs[t].r0 == v
               else r'.sched.procs[t] == r.sched.procs[t] && r'.outs[t] == r.outs[t]
  {
    hide Inv, Step;
    WaitersAreCallers(acts, r, event);
    InterruptWakes(r, event, v, event);
    assert WokenOr(r, Step(r, Unblock(event, v)).s, t, t in Q(r.sched, Waiting(event)), v);
  }
}
