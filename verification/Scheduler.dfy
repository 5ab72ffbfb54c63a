/** Who runs next: the order of the ready queues over any steps of the kernel. */
module Scheduler {
  import opened Seqs
  import opened KernelState
  import opened KernelInvariant
  import opened KernelSteps
  import opened KernelRuns
  import opened KernelFrames

  // ----- Places in a queue -----

  /** How many elements come before the first x. */
  function Place(xs: seq<int>, x: int): (i: nat)
    requires x in xs
    ensures i < |xs| && xs[i] == x && x !in xs[..i]
  {
    if xs[0] == x then 0
    else
      assert xs == [xs[0]] + xs[1..];
      var i := Place(xs[1..], x) + 1;
      assert xs[..i] == [xs[0]] + xs[1..][..i - 1];
      i
  }

  lemma {:induction false} PlaceWithout(xs: seq<int>, y: int, x: int)
    requires x in xs && x != y
    ensures x in Without(xs, y) && Place(Without(xs, y), x) <= Place(xs, x)
  {
    if xs[0] == y {
      assert xs == [xs[0]] + xs[1..];
    } else if xs[0] != x {
      assert xs == [xs[0]] + xs[1..];
      PlaceWithout(xs[1..], y, x);
      var rest := Without(xs[1..], y);
      assert Without(xs, y) == [xs[0]] + rest;
      assert ([xs[0]] + rest)[1..] == rest;
    } else {
      assert Without(xs, y)[0] == x;
    }
  }

  lemma {:induction false} PlaceAppend(xs: seq<int>, y: int, x: int)
    requires x in xs
    ensures x in xs + [y] && Place(xs + [y], x) == Place(xs, x)
  {
    if xs[0] != x {
      assert xs == [xs[0]] + xs[1..];
      PlaceAppend(xs[1..], y, x);
      assert (xs + [y])[1..] == xs[1..] + [y];
    }
  }

  // ----- A task that waits its turn -----

  /** Task t is on the ready queue of its priority. */
  predicate IsReady(sc: Sched, t: int) {
    0 <= t < |sc.procs| && t in Q(sc, Ready(sc.procs[t].prio))
  }

  function PlaceOf(sc: Sched, t: int): nat
    requires IsReady(sc, t)
  {
    Place(Q(sc, Ready(sc.procs[t].prio)), t)
  }

  /** t is still ready at the same priority, and nobody has come in before it. */
  ghost predicate NotPassed(sc: Sched, r: Sched, t: int)
    requires IsReady(sc, t)
  {
    IsReady(r, t) && r.procs[t].prio == sc.procs[t].prio && PlaceOf(r, t) <= PlaceOf(sc, t)
  }

  lemma NotPassedTwice(sc: Sched, mid: Sched, r: Sched, t: int)
    requires IsReady(sc, t) && NotPassed(sc, mid, t) && NotPassed(mid, r, t)
    ensures NotPassed(sc, r, t)
  {
  }

  lemma SameQueue(sc: Sched, r: Sched, t: int)
    requires IsReady(sc, t) && |r.procs| >= |sc.procs| && r.procs[t].prio == sc.procs[t].prio
    requires Q(r, Ready(sc.procs[t].prio)) == Q(sc, Ready(sc.procs[t].prio))
    ensures NotPassed(sc, r, t)
  {
  }

  /** Moving another task. */
  lemma MovedPlace(sc: Sched, u: int, status: Status, q: QueueId, t: int)
    requires IsReady(sc, t) && 0 <= u < |sc.procs| && u != t
    ensures NotPassed(sc, Moved(sc, u, status, q), t)
  {
    var ready := Ready(sc.procs[t].prio);
    var from := sc.procs[u].queue;
    MovedShape(sc, u, status, q);
    PlaceWithout(Q(sc, ready), u, t);
    PlaceAppend(Q(sc, ready), u, t);
    PlaceAppend(Without(Q(sc, ready), u), u, t);
  }

  lemma BlockedPlace(sc: Sched, u: int, status: Status, q: QueueId, req: Request, t: int)
    requires IsReady(sc, t) && 0 <= u < |sc.procs| && u != t
    ensures NotPassed(sc, Blocked(sc, u, status, q, req), t)
  {
    MovedPlace(sc, u, status, q, t);
  }

  // ----- Steps of other tasks -----

  /** No step of another task, short of picking t, lets anyone pass t. */
  lemma StepNotPassed(s: State, a: Action, t: int)
    requires Sized(s) && Inv(s) && Enabled(s, a) && Safe(s, a) && Step(s, a).Go?
    requires IsReady(s.sched, t) && t != Actor(a) && s.sched.procs[t].status == Running
    requires a.Schedule? ==> Picked(s) != t
    ensures NotPassed(s.sched, Step(s, a).s.sched, t)
  {
    hide Inv, NotPassed, IsReady, SysSpawn, SysSend, SysRecv, SysDup, SysExit,
         SysClose, SysChannel, SysPollAdd, SysPollRemove, SysPollWait, SysEventWait, Interrupt, Scheduled;
    match a
    case Spawn(u, prio, nos, len, flags, memory) => SpawnPlace(s, u, prio, nos, len, flags, memory, t);
    case Channel(u) => ChannelPlace(s, u, t);
    case CloseFd(u, no) => ClosePlace(s, u, no, t);
    case Dup(u, oldfd, newfd, flags) => DupPlace(s, u, oldfd, newfd, flags, t);
    case Exit(u) => ExitPlace(s, u, t);
    case Send(u, no, msg, sch, flags) => SendPlace(s, u, no, msg, sch, flags, t);
    case Receive(u, no, cap, wants, flags) => ReceivePlace(s, u, no, cap, wants, flags, t);
    case PollAdd(u, no, flags) => PollAddPlace(s, u, no, flags, t);
    case PollRemove(u, no, flags) => PollRemovePlace(s, u, no, flags, t);
    case PollWait(u, presult) => PollWaitPlace(s, u, presult, t);
    case EventWait(u, event) => EventWaitPlace(s, u, event, t);
    case Other(u, v) => ReturnPlace(s, u, v, t);
    case Unblock(event, v) => InterruptPlace(s, event, v, t);
    case Schedule => ScheduledPlace(s, t);
  }

  lemma ReturnPlace(s: State, u: int, v: int, t: int)
    requires Sized(s) && IsTask(s, u) && IsReady(s.sched, t)
    ensures NotPassed(s.sched, Return(s, u, v).sched, t)
  {
  }

  lemma PollAddPlace(s: State, u: int, no: int, flags: int, t: int)
    requires Sized(s) && IsTask(s, u) && IsReady(s.sched, t) && SysPollAdd(s, u, no, flags).Go?
    ensures NotPassed(s.sched, SysPollAdd(s, u, no, flags).s.sched, t)
  {
    hide HasFlag;
  }

  lemma PollRemovePlace(s: State, u: int, no: int, flags: int, t: int)
    requires Sized(s) && IsTask(s, u) && IsReady(s.sched, t) && SysPollRemove(s, u, no, flags).Go?
    ensures NotPassed(s.sched, SysPollRemove(s, u, no, flags).s.sched, t)
  {
    hide HasFlag;
  }

  lemma ChannelPlace(s: State, u: int, t: int)
    requires Sized(s) && IsTask(s, u) && IsReady(s.sched, t) && SysChannel(s, u).Go?
    ensures NotPassed(s.sched, SysChannel(s, u).s.sched, t)
  {
  }

  lemma ClosePlace(s: State, u: int, no: int, t: int)
    requires Sized(s) && IsTask(s, u) && IsReady(s.sched, t) && SysClose(s, u, no).Go?
    ensures NotPassed(s.sched, SysClose(s, u, no).s.sched, t)
  {
  }

  lemma DupPlace(s: State, u: int, oldfd: int, newfd: int, flags: int, t: int)
    requires Sized(s) && IsTask(s, u) && IsReady(s.sched, t) && SysDup(s, u, oldfd, newfd, flags).Go?
    ensures NotPassed(s.sched, SysDup(s, u, oldfd, newfd, flags).s.sched, t)
  {
  }

  lemma ExitPlace(s: State, u: int, t: int)
    requires Sized(s) && IsTask(s, u) && u != t && IsReady(s.sched, t) && SysExit(s, u).Go?
    ensures NotPassed(s.sched, SysExit(s, u).s.sched, t)
  {
    var sc := s.sched;
    var s0 := s.(sched := sc.(live := sc.live - 1, nondaemon := if sc.procs[u].daemon then sc.nondaemon else sc.nondaemon - 1));
    hide CloseBelow, Moved;
    CloseBelowFrame(s0, u, MAX_TASK_CHANNELS);
    SameQueue(sc, s0.sched, t);
    MovedPlace(s0.sched, u, Dead, Free, t);
  }

  lemma SpawnPlace(s: State, u: int, prio: int, nos: seq<int>, len: int, flags: int, memory: bool, t: int)
    requires Sized(s) && Inv(s) && IsTask(s, u) && len <= |nos| && IsReady(s.sched, t) && s.sched.procs[t].status == Running
    requires SysSpawn(s, u, prio, nos, len, flags, memory).Go?
    ensures NotPassed(s.sched, SysSpawn(s, u, prio, nos, len, flags, memory).s.sched, t)
  {
    hide Inv, Started, AllocTask, Vacant, ValidChannel, NotPassed, IsReady;
    ReturnPlace(s, u, EINVAL, t);
    ReturnPlace(s, u, EBADF, t);
    ReturnPlace(s, u, ENOMEM, t);
    var (s1, child) := AllocTask(s, memory);
    if SpawnArgs(s, u, prio, nos, len, flags) && child != NONE {
      AllocTaskOk(s, memory);
      AllocPlace(s, memory, t);
      ReadyIsTask(s.sched, t);
      StillReady(s.sched, s1.sched, t);
      StartedPlace(s1, u, child, prio, flags == SPAWN_DAEMON, nos[..len], t);
      NotPassedTwice(s.sched, s1.sched, Started(s1, u, child, prio, flags == SPAWN_DAEMON, nos[..len]).sched, t);
    }
  }

  lemma ReadyIsTask(sc: Sched, t: int)
    requires IsReady(sc, t)
    ensures 0 <= t < |sc.procs|
  {
  }

  lemma AllocPlace(s: State, memory: bool, t: int)
    requires Sized(s) && IsReady(s.sched, t)
    ensures NotPassed(s.sched, AllocTask(s, memory).0.sched, t)
  {
  }

  lemma StartedPlace(s: State, parent: int, child: int, prio: int, daemon: bool, nos: seq<int>, t: int)
    requires Sized(s) && IsTask(s, child) && (parent == NONE || IsTask(s, parent)) && child != t && IsReady(s.sched, t)
    ensures NotPassed(s.sched, Started(s, parent, child, prio, daemon, nos).sched, t)
  {
    hide Moved, Inherited;
    var proc := s.sched.procs[child].(parent := if parent == NONE then 0 else Tid(s, parent), prio := prio, daemon := daemon);
    var sc1 := s.sched.(live := s.sched.live + 1, nondaemon := if daemon then s.sched.nondaemon else s.sched.nondaemon + 1,
                        procs := s.sched.procs[child := proc]);
    SameQueue(s.sched, sc1, t);
    MovedPlace(sc1, child, Running, Ready(prio), t);
  }

  lemma EventWaitPlace(s: State, u: int, event: int, t: int)
    requires Sized(s) && IsTask(s, u) && u != t && IsReady(s.sched, t) && SysEventWait(s, u, event).Go?
    ensures NotPassed(s.sched, SysEventWait(s, u, event).s.sched, t)
  {
    hide Blocked;
    BlockedPlace(s.sched, u, EventBlocked, Waiting(event), Awaiting(event), t);
  }

  lemma {:induction false} HandlePollPlace(s: State, u: int, ev: Ev, t: int)
    requires Sized(s) && IsTask(s, u) && u != t && IsReady(s.sched, t) && KernelState.HandlePoll(s, u, ev).Go?
    ensures NotPassed(s.sched, KernelState.HandlePoll(s, u, ev).s.sched, t)
    decreases |L(s.polls, OnTask(u, ev))|
  {
    hide Moved, NotPassed, IsReady;
    var queue := L(s.polls, OnTask(u, ev));
    if queue == [] {
      ReturnPlace(s, u, 0, t);
    } else {
      var f := queue[0];
      var c := ChanAt(s.chans, f);
      if Active(s.sched, c, ev) {
        MovedPlace(s.sched, u, Running, Ready(s.sched.procs[u].prio), t);
      } else {
        HandlePollPlace(s.(polls := Linked(Unlinked(s.polls, f, ev), f, OnChannel(c, ev))), u, ev, t);
      }
    }
  }

  lemma PollWaitPlace(s: State, u: int, presult: bool, t: int)
    requires Sized(s) && IsTask(s, u) && u != t && IsReady(s.sched, t) && SysPollWait(s, u, presult).Go?
    ensures NotPassed(s.sched, SysPollWait(s, u, presult).s.sched, t)
  {
    hide KernelState.HandlePoll, NotPassed, IsReady, Moved;
    ReturnPlace(s, u, EINVAL, t);
    ReturnPlace(s, u, EFAULT, t);
    if s.polls.counts[u] != 0 && presult {
      var s0 := s.(sched := Blocked(s.sched, u, PollBlocked, Polling, Nothing));
      BlockedPlace(s.sched, u, PollBlocked, Polling, Nothing, t);
      StillReady(s.sched, s0.sched, t);
      HandlePollPlace(s0, u, EvRecv, t);
      var s1 := KernelState.HandlePoll(s0, u, EvRecv).s;
      NotPassedTwice(s.sched, s0.sched, s1.sched, t);
      if s1.sched.procs[u].status != Running {
        StillReady(s.sched, s1.sched, t);
        HandlePollPlace(s1, u, EvSend, t);
        NotPassedTwice(s.sched, s1.sched, KernelState.HandlePoll(s1, u, EvSend).s.sched, t);
      }
    }
  }

  lemma StillReady(sc: Sched, r: Sched, t: int)
    requires IsReady(sc, t) && NotPassed(sc, r, t)
    ensures IsReady(r, t)
  {
  }

  lemma {:induction false} WakeAllPlace(s: State, ts: seq<int>, v: int, t: int)
    requires Sized(s) && IsReady(s.sched, t) && t !in ts
    ensures NotPassed(s.sched, WakeAll(s, ts, v).sched, t)
    decreases |ts|
  {
    hide NotPassed, IsReady, Moved;
    if ts == [] {
      ThereStill(s.sched, t);
    } else {
      assert ts[0] in ts;
      if IsTask(s, ts[0]) {
        WokenFields(s.sched, ts[0]);
        var s1 := Return(s.(sched := Woken(s.sched, ts[0])), ts[0], v);
        MovedPlace(s.sched, ts[0], Running, Ready(s.sched.procs[ts[0]].prio), t);
        StillReady(s.sched, s1.sched, t);
        WakeAllPlace(s1, ts[1..], v, t);
        NotPassedTwice(s.sched, s1.sched, WakeAll(s1, ts[1..], v).sched, t);
      } else {
        WakeAllPlace(s, ts[1..], v, t);
      }
    }
  }

  lemma ThereStill(sc: Sched, t: int)
    requires IsReady(sc, t)
    ensures NotPassed(sc, sc, t)
  {
  }

  lemma InterruptPlace(s: State, event: int, v: int, t: int)
    requires Inv(s) && IsReady(s.sched, t)
    ensures NotPassed(s.sched, Interrupt(s, event, v).sched, t)
  {
    assert s.sched.procs[t].queue == Ready(s.sched.procs[t].prio);
    assert t !in Q(s.sched, Waiting(event));
    hide Inv;
    WakeAllPlace(s, Q(s.sched, Waiting(event)), v, t);
  }

  lemma ScheduledPlace(s: State, t: int)
    requires Sized(s) && IsReady(s.sched, t) && Scheduled(s).Go? && Picked(s) != t
    ensures NotPassed(s.sched, Scheduled(s).s.sched, t)
    ensures FirstReady(s.sched, 0) == s.sched.procs[t].prio ==> PlaceOf(Scheduled(s).s.sched, t) < PlaceOf(s.sched, t)
  {
    var p := FirstReady(s.sched, 0);
    if p == s.sched.procs[t].prio {
      var q := Q(s.sched, Ready(p));
      assert q == [q[0]] + q[1..];
      assert t in q[1..];
      PlaceAppend(q[1..], q[0], t);
    }
  }

  // ----- Messages -----

  lemma {:induction false} TriggerPlace(s: State, fs: seq<Fd>, ev: Ev, t: int)
    requires Sized(s) && IsReady(s.sched, t) && s.sched.procs[t].status != PollBlocked
    ensures NotPassed(s.sched, Trigger(s, fs, ev).sched, t)
    decreases |fs|
  {
    hide NotPassed, IsReady, TriggerOne;
    if fs == [] {
      ThereStill(s.sched, t);
    } else {
      TriggerOnePlace(s, fs[0], ev, t);
      var s1 := TriggerOne(s, fs[0], ev);
      StillReady(s.sched, s1.sched, t);
      TriggerPlace(s1, fs[1..], ev, t);
      NotPassedTwice(s.sched, s1.sched, Trigger(s1, fs[1..], ev).sched, t);
    }
  }

  lemma TriggerOnePlace(s: State, f: Fd, ev: Ev, t: int)
    requires Sized(s) && IsReady(s.sched, t) && s.sched.procs[t].status != PollBlocked
    ensures NotPassed(s.sched, TriggerOne(s, f, ev).sched, t) && TriggerOne(s, f, ev).sched.procs[t] == s.sched.procs[t]
  {
    hide Linked, Unlinked;
    if IsTask(s, f.task) && s.sched.procs[f.task].status == PollBlocked {
      MovedPlace(s.sched, f.task, Running, Ready(s.sched.procs[f.task].prio), t);
    }
  }

  /** A delivery and the triggering after it. */
  lemma DeliverPlace(s: State, c: int, ev: Ev, t: int)
    requires Sized(s) && IsReady(s.sched, t) && s.sched.procs[t].status == Running && Deliver(s, c).Go?
    ensures NotPassed(s.sched, Deliver(s, c).s.sched, t)
    ensures NotPassed(s.sched, TriggerAll(Deliver(s, c).s, c, ev).sched, t)
  {
    hide Moved, Opened, TakeNumber, Trigger;
    var senders, receivers := Q(s.sched, Senders(c)), Q(s.sched, Receivers(c));
    var r := Deliver(s, c).s;
    if senders != [] && receivers != [] {
      var snd, rcv := senders[0], receivers[0];
      MovedPlace(s.sched, rcv, Running, Ready(s.sched.procs[rcv].prio), t);
      WokenFields(s.sched, rcv);
      var mid := Woken(s.sched, rcv);
      MovedPlace(mid, snd, Running, Ready(mid.procs[snd].prio), t);
      NotPassedTwice(s.sched, mid, Woken(mid, snd), t);
      OtherProc(s.sched, rcv, t);
      OtherProc(mid, snd, t);
    }
    TriggerPlace(r, L(r.polls, OnChannel(c, ev)), ev, t);
    NotPassedTwice(s.sched, r.sched, TriggerAll(r, c, ev).sched, t);
  }

  lemma OtherProc(sc: Sched, u: int, t: int)
    requires 0 <= u < |sc.procs| && 0 <= t < |sc.procs| && u != t
    ensures |Woken(sc, u).procs| == |sc.procs| && Woken(sc, u).procs[t] == sc.procs[t]
  {
  }

  lemma SendPlace(s: State, u: int, no: int, msg: seq<int>, sch: int, flags: int, t: int)
    requires Sized(s) && IsTask(s, u) && u != t && IsReady(s.sched, t) && s.sched.procs[t].status == Running
    requires SysSend(s, u, no, msg, sch, flags).Go?
    ensures NotPassed(s.sched, SysSend(s, u, no, msg, sch, flags).s.sched, t)
  {
    hide Deliver, Offered, TriggerAll, NotPassed, IsReady, HasFlag;
    ReturnPlace(s, u, EBADF, t);
    ReturnPlace(s, u, EWOULDBLOCK, t);
    if ValidChannel(s, u, no) && (sch == NONE || ValidChannel(s, u, sch)) {
      var c := s.chans.fds[Fd(u, no)].chan;
      var pass := if sch == NONE then NoPass else Pass(s.chans.fds[Fd(u, sch)].chan, s.chans.fds[Fd(u, sch)].flags);
      var mid := Offered(s, u, c, msg, pass);
      OfferedPlace(s, u, c, msg, pass, t);
      if Deliver(mid, c).Go? {
        DeliverPlace(mid, c, EvRecv, t);
        NotPassedTwice(s.sched, mid.sched, Deliver(mid, c).s.sched, t);
        NotPassedTwice(s.sched, mid.sched, TriggerAll(Deliver(mid, c).s, c, EvRecv).sched, t);
      }
    }
  }

  lemma OfferedPlace(s: State, u: int, c: int, msg: seq<int>, pass: Pass, t: int)
    requires Sized(s) && IsTask(s, u) && u != t && IsReady(s.sched, t)
    ensures var r := Offered(s, u, c, msg, pass).sched; NotPassed(s.sched, r, t) && IsReady(r, t) && r.procs[t] == s.sched.procs[t]
  {
    MovedPlace(s.sched, u, SendBlocked, Senders(c), t);
  }

  lemma AskedPlace(s: State, u: int, c: int, cap: nat, wants: bool, t: int)
    requires Sized(s) && IsTask(s, u) && u != t && IsReady(s.sched, t)
    ensures var r := Asked(s, u, c, cap, wants).sched; NotPassed(s.sched, r, t) && IsReady(r, t) && r.procs[t] == s.sched.procs[t]
  {
    MovedPlace(s.sched, u, RecvBlocked, Receivers(c), t);
  }

  lemma ReceivePlace(s: State, u: int, no: int, cap: nat, wants: bool, flags: int, t: int)
    requires Sized(s) && IsTask(s, u) && u != t && IsReady(s.sched, t) && s.sched.procs[t].status == Running
    requires SysRecv(s, u, no, cap, wants, flags).Go?
    ensures NotPassed(s.sched, SysRecv(s, u, no, cap, wants, flags).s.sched, t)
  {
    hide Deliver, Asked, TriggerAll, NotPassed, IsReady, HasFlag;
    ReturnPlace(s, u, EBADF, t);
    ReturnPlace(s, u, EWOULDBLOCK, t);
    if ValidChannel(s, u, no) {
      var c := s.chans.fds[Fd(u, no)].chan;
      var mid := Asked(s, u, c, cap, wants);
      AskedPlace(s, u, c, cap, wants, t);
      if Deliver(mid, c).Go? {
        DeliverPlace(mid, c, EvSend, t);
        NotPassedTwice(s.sched, mid.sched, Deliver(mid, c).s.sched, t);
        NotPassedTwice(s.sched, mid.sched, TriggerAll(Deliver(mid, c).s, c, EvSend).sched, t);
      }
    }
  }

  // ----- Main results -----

  /** In this run t makes no call and is never picked. */
  ghost predicate PassedOver(s: State, acts: seq<Action>, t: int)
    requires Sized(s)
    decreases |acts|
  {
    acts != [] ==>
      && Enabled(s, acts[0]) && Safe(s, acts[0]) && Step(s, acts[0]).Go? && Actor(acts[0]) != t
      && (acts[0].Schedule? ==> Picked(s) != t)
      && PassedOver(Step(s, acts[0]).s, acts[1..], t)
  }

  /** How often the run picks a task of priority p. */
  ghost function Picks(s: State, acts: seq<Action>, p: int): nat
    requires Sized(s)
    decreases |acts|
  {
    if acts == [] || !Enabled(s, acts[0]) || Step(s, acts[0]).Panic? then 0
    else (if acts[0].Schedule? && FirstReady(s.sched, 0) == p then 1 else 0) + Picks(Step(s, acts[0]).s, acts[1..], p)
  }

  /** A ready task with k tasks before it on its queue is passed over at most k times by tasks of its
      own priority, whatever else happens in the meantime. */
  lemma {:induction false} NoStarvation(s: State, acts: seq<Action>, t: int)
    requires Sized(s) && Inv(s) && IsReady(s.sched, t) && s.sched.procs[t].status == Running && PassedOver(s, acts, t)
    ensures Picks(s, acts, s.sched.procs[t].prio) <= PlaceOf(s.sched, t)
    decreases |acts|
  {
    hide Inv, Step, Undisturbed, Scheduled;
    if acts != [] {
      var r := Step(s, acts[0]).s;
      StepOk(s, acts[0]);
      StepUndisturbed(s, acts[0], t);
      StepNotPassed(s, acts[0], t);
      RunningKept(s, r, t);
      if acts[0].Schedule? {
        ScheduleStep(s);
        ScheduledPlace(s, t);
      }
      NoStarvation(r, acts[1..], t);
    }
  }

  lemma RunningKept(s: State, r: State, t: int)
    requires IsTask(s, t) && IsTask(r, t) && Sized(s) && Sized(r) && Undisturbed(s, r, t) && s.sched.procs[t].status == Running
    ensures r.sched.procs[t] == s.sched.procs[t]
  {
  }

  lemma ScheduleStep(s: State)
    requires Sized(s)
    ensures Step(s, Schedule) == Scheduled(s)
  {
  }

  /** Scheduling takes the head of the highest non-empty priority. */
  lemma PicksHighest(s: State, u: int)
    requires Sized(s) && Inv(s) && IsTask(s, u) && s.sched.procs[u].status == Running
    ensures var t := Picked(s);
            && IsTask(s, t) && s.sched.procs[t].status == Running && s.sched.procs[t].prio <= s.sched.procs[u].prio
            && Q(s.sched, Ready(s.sched.procs[t].prio))[..1] == [t]
  {
    assert ProcOk(s.sched.procs[u]);
    var p := FirstReady(s.sched, 0);
    assert u in Q(s.sched, Ready(s.sched.procs[u].prio));
    assert p <= s.sched.procs[u].prio;
    var t := Q(s.sched, Ready(p))[0];
    assert t in Q(s.sched, Ready(p));
    assert ProcOk(s.sched.procs[t]);
  }

  /** The idle task only ever suspends. */
  predicate IdleOnlySuspends(a: Action) {
    Actor(a) == 0 ==> a.Other?
  }

  ghost predicate IdleAlive(s: State) {
    IsTask(s, 0) && s.sched.procs[0].status == Running
  }

  lemma {:induction false} IdleLives(s: State, acts: seq<Action>, r: State)
    requires Sized(s) && Inv(s) && IdleAlive(s) && IsRun(s, acts, r) && forall a :: a in acts ==> IdleOnlySuspends(a)
    ensures Sized(r) && Inv(r) && IdleAlive(r)
    decreases |acts|
  {
    hide Inv, Step, Undisturbed;
    if acts != [] {
      assert acts[0] in acts;
      var s1 := Step(s, acts[0]).s;
      StepOk(s, acts[0]);
      if Actor(acts[0]) != 0 {
        StepUndisturbed(s, acts[0], 0);
        RunningKept(s, s1, 0);
      } else {
        OtherStep(s, acts[0].v);
      }
      IdleLives(s1, acts[1..], r);
    }
  }

  lemma OtherStep(s: State, v: int)
    requires Sized(s) && Enabled(s, Other(0, v))
    ensures Step(s, Other(0, v)) == Go(Return(s, 0, v))
  {
  }

  /** Once booted, with the idle task doing nothing but suspend, there is always a task to run. */
  lemma AlwaysSomethingToRun(acts: seq<Action>, r: State)
    requires IsRun(Booted(), acts, r) && forall a :: a in acts ==> IdleOnlySuspends(a)
    ensures Sized(r) && Scheduled(r).Go? && IsTask(r, Picked(r)) && r.sched.procs[Picked(r)].status == Running
  {
    hide Inv, Booted;
    BootOk();
    IdleLives(Booted(), acts, r);
    PicksHighest(r, 0);
    assert FirstReady(r.sched, 0) < TASK_NPRIO;
  }
}
