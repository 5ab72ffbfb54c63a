/** The kernel as it runs: tables in memory that the system calls update in place, with the loops of the
    original.  Tasks, poll lists and descriptor numbers are the linked structures of `KernelTables`; the
    sequences and maps of `KernelState` that they stand for are what every method is specified by. */
module KernelMachine {
  import opened Seqs
  import opened KernelState
  import opened KernelInvariant
  import opened KernelSteps
  import opened KernelRuns
  import opened KernelPlans
  import opened IntrusiveLists
  import opened LinkedLists
  import opened KernelTables

  class Kernel {
    const h: Tables
    var live: int
    var nondaemon: int
    /** The history of every channel, which no call reads. */
    ghost var logs: map<int, Log>
    var fds: map<Fd, Cd>
    var refs: seq<int>
    var freeChans: seq<int>
    var counts: seq<int>
    var outs: seq<Out>

    ghost function S(): Sched
      reads this, h
    {
      Sched(h.procs, h.qs, live, nondaemon, logs)
    }

    ghost function C(): Chans
      reads this, h
    {
      Chans(fds, h.pools, refs, freeChans)
    }

    ghost function P(): Polls
      reads this, h
    {
      Polls(h.lists, h.at, counts)
    }

    /** What the tables stand for. */
    ghost function Now(): State
      reads this, h
    {
      State(S(), C(), P(), outs)
    }

    /** All links are in order, every channel has its queues, and every open descriptor its nodes. */
    ghost predicate Valid()
      reads this`fds, this`refs, h, h.Repr
    {
      this !in h.Repr && h !in h.Repr && h.Valid() && h.channels == |refs| && forall f, ev :: f in fds ==> Node(f, ev) in h.nodes
    }

    /** `init_tasks` */
    constructor ()
      ensures Valid() && Now() == INIT
    {
      h := new Tables();
      live, nondaemon, logs := 0, 0, map[];
      fds, refs, freeChans := map[], [], [];
      counts, outs := [], [];
    }

    // ----- Queues -----

    /** `set_task_state`: the task leaves the queue it is linked into and goes to the back of queue q. */
    method SetTaskState(t: int, status: Status, q: QueueId)
      requires Valid() && 0 <= t < |h.procs| && q in h.queues
      modifies h`procs, h`qs, h.Repr
      ensures Valid() && S() == Moved(old(S()), t, status, q)
    {
      hide Tables.Valid, Moved;
      MovedParts(S(), t, status, q);
      h.SetTaskState(t, status, q);
    }

    /** `set_task_running` */
    method SetTaskRunning(t: int)
      requires Valid() && 0 <= t < |h.procs| && 0 <= h.procs[t].prio < TASK_NPRIO
      modifies h`procs, h`qs, h.Repr
      ensures Valid() && S() == Woken(old(S()), t)
    {
      h.KernelQueues();
      hide Tables.Valid, Moved;
      SetTaskState(t, Running, Ready(h.procs[t].prio));
    }

    method SetResult(t: int, v: int)
      requires 0 <= t < |outs|
      modifies this`outs
      ensures outs == old(outs)[t := old(outs)[t].(r0 := v)]
    {
      outs := outs[t := outs[t].(r0 := v)];
    }

    // ----- Scheduling -----

    /** `schedule`: the head of the highest non-empty priority, or none exactly where it panics. */
    method PickTask() returns (t: int)
      requires Valid() && Sized(Now()) && Inv(Now())
      modifies h`qs, h.Repr
      ensures Valid() && t == Picked(old(Now()))
      ensures match Scheduled(old(Now()))
              case Go(s) => t != NONE && Now() == s
              case Panic(_) => t == NONE && Now() == old(Now())
    {
      hide Inv, Tables.Valid, Scheduled;
      h.KernelQueues();
      ScheduledAt(Now());
      var i := 0;
      while i < TASK_NPRIO && h.IsEmpty(Ready(i))
        invariant 0 <= i <= TASK_NPRIO && FirstReady(S(), 0) == FirstReady(S(), i)
      {
        i := i + 1;
      }
      t := NONE;
      if i < TASK_NPRIO {
        t := h.Advance(Ready(i));
      }
    }

    /** `event_unblock_one` */
    method UnblockOne(event: int, v: int)
      requires Valid() && Sized(Now()) && Inv(Now()) && 0 <= event < NEVENTS
      modifies this`outs, h`procs, h`qs, h.Repr
      ensures Valid()
      ensures var q := Q(old(S()), Waiting(event));
              Now() == WakeAll(old(Now()), if q == [] then [] else [q[0]], v)
    {
      hide Inv, Tables.Valid, Moved;
      h.KernelQueues();
      if !h.IsEmpty(Waiting(event)) {
        WaitingHead(Now(), event);
        WokenRotated(S(), Waiting(event));
        WakeFirst(Now(), Q(S(), Waiting(event))[0], v);
        var t := h.Advance(Waiting(event));
        SetResult(t, v);
        SetTaskRunning(t);
      }
    }

    /** `event_unblock_all` */
    method UnblockAll(event: int, v: int)
      requires Valid() && Sized(Now()) && Inv(Now()) && 0 <= event < NEVENTS
      modifies this`outs, h`procs, h`qs, h.Repr
      ensures Valid() && Now() == Interrupt(old(Now()), event, v)
    {
      hide Inv, Tables.Valid, Interrupt, Moved;
      h.KernelQueues();
      ghost var s0 := Now();
      while !h.IsEmpty(Waiting(event))
        invariant Valid() && Sized(Now()) && Inv(Now())
        invariant Interrupt(Now(), event, v) == Interrupt(s0, event, v)
        decreases |Q(S(), Waiting(event))|
      {
        ghost var s := Now();
        UnblockOne(event, v);
        UnblockedHead(s, event, v);
        WakeFirst(s, Q(s.sched, Waiting(event))[0], v);
      }
      InterruptNone(Now(), event, v);
    }

    // ----- Polling -----

    /** `cdnode_append` */
    method Append(f: Fd, l: ListId)
      requires Valid() && l in h.heads && Node(f, l.ev) in h.nodes && Node(f, l.ev) !in h.at
      modifies h`lists, h`at, h.Repr
      ensures Valid() && P() == Linked(old(P()), f, l)
    {
      hide Tables.Valid;
      h.Append(f, l);
    }

    /** `cdnode_delete` */
    method Delete(f: Fd, ev: Ev)
      requires Valid() && Node(f, ev) in h.nodes
      modifies h`lists, h`at, h.Repr
      ensures Valid() && P() == Unlinked(old(P()), f, ev) && Node(f, ev) !in h.at
    {
      hide Tables.Valid, Without;
      h.Delete(f, ev);
    }

    /** `poll_check` */
    predicate PollCheck(c: int, ev: Ev)
      requires Valid() && 0 <= c < |refs|
      reads this, h, h.Repr
      ensures PollCheck(c, ev) <==> Active(S(), c, ev)
    {
      h.ChannelParts(c);
      match ev
      case EvRecv => !h.IsEmpty(Senders(c))
      case EvSend => !h.IsEmpty(Receivers(c))
    }

    /** The part of `handle_poll` that reports an active event. */
    method Report(f: Fd, ev: Ev)
      requires Valid() && Sized(Now()) && IsTask(Now(), f.task) && 0 <= h.procs[f.task].prio < TASK_NPRIO
      requires Node(f, ev) in h.nodes && Node(f, ev) !in h.at
      modifies this`outs, h`procs, h`qs, h`lists, h`at, h.Repr
      ensures Valid() && h.procs[f.task].status == Running
      ensures Now() == Reported(old(Now()).(polls := Linked(old(P()), f, OnTask(f.task, ev))), f, ev)
    {
      hide Linked, Moved, Tables.Valid;
      h.TaskParts(f.task);
      outs := outs[f.task := outs[f.task].(pollFd := f.no, pollEv := ev)];
      Append(f, OnTask(f.task, ev));
      WokenStatus(S(), f.task);
      SetTaskRunning(f.task);
      SetResult(f.task, 0);
    }

    /** One turn of `handle_poll`; every descriptor on the queue belongs to t, so its panic is out of reach. */
    method PollFirst(t: int, ev: Ev) returns (hit: bool)
      requires Valid() && Pollable(Now(), t, ev) && L(P(), OnTask(t, ev)) != []
      modifies this`outs, h`procs, h`qs, h.Repr, h`lists, h`at
      ensures Valid() && IsTask(Now(), t)
      ensures hit ==> Polled(old(Now()), t, ev, Now()) && h.procs[t].status == Running
      ensures !hit ==> S() == old(S()) && PolledAlike(old(Now()), t, ev, Now())
      ensures !hit ==> |L(P(), OnTask(t, ev))| < |old(L(P(), OnTask(t, ev)))|
    {
      hide KernelState.HandlePoll, OwnQueue, OwnOpen, Linked, Unlinked, Active, Reported, Tables.Valid;
      h.TaskParts(t);
      ghost var s := Now();
      var f := h.First(OnTask(t, ev));
      h.HeadNode(OnTask(t, ev));
      PollStep(s, t, ev);
      OpenStep(s, t, ev);
      assert f.task == t; // the "unrecognized channel descriptor" panic
      var c := fds[f].chan;
      Delete(f, ev);
      hit := PollCheck(c, ev);
      if hit {
        Report(f, ev);
      } else {
        h.ChannelParts(c);
        Append(f, OnChannel(c, ev));
      }
    }

    /** `handle_poll` */
    method HandlePoll(t: int, ev: Ev) returns (hit: bool)
      requires Valid() && Pollable(Now(), t, ev)
      modifies this`outs, h`procs, h`qs, h.Repr, h`lists, h`at
      ensures Valid() && Polled(old(Now()), t, ev, Now())
      ensures hit ==> 0 <= t < |h.procs| && h.procs[t].status == Running
      ensures !hit ==> S() == old(S())
    {
      hide Pollable, Polled, PolledAlike, Tables.Valid;
      ghost var s0 := Now();
      PollableParts(s0, t, ev);
      h.TaskParts(t);
      while !h.IsListEmpty(OnTask(t, ev))
        invariant Valid() && IsTask(Now(), t) && S() == s0.sched && PolledAlike(s0, t, ev, Now()) && OnTask(t, ev) in h.heads
        decreases |L(P(), OnTask(t, ev))|
      {
        ghost var s := Now();
        AlikePollable(s0, t, ev, s);
        hit := PollFirst(t, ev);
        if hit { PolledThen(s0, t, ev, s, Now()); return; }
        AlikeThen(s0, t, ev, s, Now());
        h.TaskParts(t);
      }
      PolledEnd(s0, t, ev, Now());
      return false;
    }

    /** One turn of `poll_trigger_all`. */
    method TriggerFirst(c: int, ev: Ev)
      requires Valid() && 0 <= c < |refs| && Triggerable(Now(), c, ev) && L(P(), OnChannel(c, ev)) != []
      modifies this`outs, h`procs, h`qs, h`lists, h`at, h.Repr
      ensures Valid() && Triggerable(Now(), c, ev) && Sized(old(Now())) && TriggerAll(Now(), c, ev) == TriggerAll(old(Now()), c, ev)
      ensures |L(P(), OnChannel(c, ev))| < |old(L(P(), OnChannel(c, ev)))|
    {
      hide Triggering, Linked, Unlinked, Moved, Active, TriggerAll, KernelState.HandlePoll, OwnQueue, OwnOpen, TriggerOne, Tables.Valid;
      h.ChannelParts(c);
      ghost var s := Now();
      var f := h.First(OnChannel(c, ev));
      h.HeadNode(OnChannel(c, ev));
      TriggerStep(s, c, ev);
      TriggerOpen(s, c, ev);
      h.TaskParts(f.task);
      Delete(f, ev);
      Append(f, OnTask(f.task, ev));
      if h.procs[f.task].status == PollBlocked {
        var hit := HandlePoll(f.task, ev);
      }
    }

    /** `poll_trigger_all`: it empties the list, because a triggered descriptor never comes back. */
    method PollTriggerAll(c: int, ev: Ev)
      requires Valid() && 0 <= c < |refs| && Triggerable(Now(), c, ev)
      modifies this`outs, h`procs, h`qs, h`lists, h`at, h.Repr
      ensures Valid() && Sized(old(Now())) && Now() == TriggerAll(old(Now()), c, ev)
      ensures L(P(), OnChannel(c, ev)) == []
    {
      hide Triggerable, TriggerAll, Tables.Valid;
      h.ChannelParts(c);
      assert Sized(Now()) by { TriggerableSized(Now(), c, ev); }
      ghost var s0 := Now();
      while !h.IsListEmpty(OnChannel(c, ev))
        invariant Valid() && Triggerable(Now(), c, ev) && Sized(Now()) && TriggerAll(Now(), c, ev) == TriggerAll(s0, c, ev)
        decreases |L(P(), OnChannel(c, ev))|
      {
        TriggerFirst(c, ev);
        TriggerableSized(Now(), c, ev);
      }
      TriggerAllEnd(Now(), c, ev);
    }

    // ----- Messages -----

    /** `alloc_channel_desc` */
    method AllocDesc(t: int) returns (no: int)
      requires Valid() && 0 <= t < |h.descs|
      modifies h`pools, h.Repr
      ensures Valid() && |old(h.pools)| == |old(h.descs)|
      ensures var (p, n) := TakeNumber(old(h.pools)[t]); no == n && C() == old(C()).(pools := old(h.pools)[t := p])
    {
      hide Tables.Valid, TakeNumber;
      no := h.AllocDesc(t);
    }

    /** Count a reference to c and make f an open descriptor of it, with poll nodes of its own. */
    method Install(f: Fd, c: int, flags: int)
      requires Valid() && Node(f, EvRecv) !in h.at && Node(f, EvSend) !in h.at
      modifies this`fds, this`refs, h`nodes, h`Repr, h.Repr
      ensures Valid() && fresh(h.Repr - old(h.Repr)) && C() == Installed(old(C()), f, c, flags)
    {
      hide Tables.Valid;
      if 0 <= c < |refs| { refs := refs[c := refs[c] + 1]; }
      h.InitNodes(f);
      fds := fds[f := Cd(c, flags)];
      forall g, ev | g in fds ensures Node(g, ev) in h.nodes { assert ev == EvRecv || ev == EvSend; }
    }

    /** The part of `handle_receive` that transfers a channel to the receiver: its new descriptor. */
    method PassChannel(rcv: int, pass: Pass, wants: bool) returns (ok: bool, no: int)
      requires Valid() && Sized(Now()) && IsTask(Now(), rcv) && pass.Pass? && NextNumber(Now(), rcv)
      modifies this`fds, this`refs, h`nodes, h`pools, h`Repr, h.Repr
      ensures Valid() && fresh(h.Repr - old(h.Repr)) && |old(h.pools)| == |old(h.procs)|
      ensures ok <==> wants && HasNumber(old(h.pools)[rcv])
      ensures ok ==> C() == Opened(old(C()), rcv, pass.chan, pass.flags) && no == TakeNumber(old(h.pools)[rcv]).1
    {
      hide Tables.Valid, TakeNumber, HasNumber, Installed;
      h.TaskParts(rcv);
      no := NONE;
      ok := wants;
      if ok {
        no := AllocDesc(rcv);
        ok := no >= 0;
        if ok { Install(Fd(rcv, no), pass.chan, pass.flags); }
      }
    }

    /** The end of `handle_receive`: both tasks run, the receiver with the message, its length and
        the descriptor it was given. */
    method UnblockPair(c: int, snd: int, rcv: int, msg: seq<int>, pass: Pass, got: int)
      requires Valid() && Pairable(Now(), snd, rcv)
      modifies this`outs, this`logs, h`procs, h`qs, h.Repr
      ensures Valid() && Paired(old(Now()), c, snd, rcv, Parcel(snd, msg, pass), got, Now())
    {
      hide Moved, Tables.Valid;
      WokenProcs(S(), rcv);
      SetTaskRunning(rcv);
      SetResult(rcv, |msg|);
      outs := outs[rcv := outs[rcv].(inbox := msg, gotFd := got)];
      SetTaskRunning(snd);
      SetResult(snd, 0);
      ghost var log := LogOf(S(), c);
      logs := logs[c := log.(met := log.met + [(Parcel(snd, msg, pass), rcv)])];
    }

    /** The part of `handle_receive` after both tasks are found: their message is handed over. */
    method HandOver(c: int, snd: int, rcv: int) returns (ok: bool)
      requires Valid() && Deliverable(Now(), c) && Heads(S(), c, snd, rcv)
      modifies this`fds, this`refs, this`outs, this`logs, h`procs, h`qs, h`nodes, h`pools, h`Repr, h.Repr
      ensures Valid() && fresh(h.Repr - old(h.Repr)) && Delivered(old(Now()), c, ok, Now())
    {
      hide Deliverable, Delivered, Pairable, Paired, NextNumber, Tables.Valid, Opened, HasNumber, TakeNumber;
      ghost var s := Now();
      MeetingHeads(s, c);
      assert IsSender(S(), snd) && IsReceiver(S(), rcv); // the "non-blocked task" panics
      var req := h.procs[snd].req;
      if |req.msg| > h.procs[rcv].req.cap { DeliveredNot(s, c); return false; }
      var got := outs[rcv].gotFd;
      if req.pass.Pass? {
        ok, got := PassChannel(rcv, req.pass, h.procs[rcv].req.wants);
        if !ok { DeliveredNot(s, c); return; }
      }
      h.TaskParts(rcv);
      PairableStill(s, Now(), snd, rcv);
      ghost var s1 := Now();
      UnblockPair(c, snd, rcv, req.msg, req.pass, got);
      DeliveredPair(s, s1, Now(), c, got);
      ok := true;
    }

    /** `handle_receive`; the result is whether it got through without a panic. */
    method HandleReceive(c: int) returns (ok: bool)
      requires Valid() && Deliverable(Now(), c)
      modifies this`fds, this`refs, this`outs, this`logs, h`procs, h`qs, h`nodes, h`pools, h`Repr, h.Repr
      ensures Valid() && fresh(h.Repr - old(h.Repr)) && Delivered(old(Now()), c, ok, Now())
    {
      hide Deliverable, Delivered, Tables.Valid;
      MeetingHeads(Now(), c);
      h.ChannelParts(c);
      if h.IsEmpty(Receivers(c)) || h.IsEmpty(Senders(c)) { DeliveredNone(Now(), c); return true; }
      var snd, rcv := h.Peek(Senders(c)), h.Peek(Receivers(c));
      ok := HandOver(c, snd, rcv);
    }

    // ----- System calls -----

    /** `valid_channel` */
    predicate IsOpen(t: int, no: int)
      reads this`fds
    {
      0 <= no < MAX_TASK_CHANNELS && Fd(t, no) in fds
    }

    /** The part of `syscall_send` that queues the caller. */
    method BlockOnSend(t: int, c: int, msg: seq<int>, pass: Pass)
      requires Valid() && Sized(Now()) && IsTask(Now(), t) && 0 <= c < |refs|
      modifies this`logs, h`procs, h`qs, h.Repr
      ensures Valid() && Now() == Offered(old(Now()), t, c, msg, pass)
    {
      hide Moved, Tables.Valid;
      h.ChannelParts(c);
      MovedQueue(S(), t, SendBlocked, Senders(c));
      SetTaskState(t, SendBlocked, Senders(c));
      h.SetProc(t, h.procs[t].(req := Sending(c, msg, pass)));
      ghost var log := LogOf(S(), c);
      logs := logs[c := log.(sent := log.sent + [Parcel(t, msg, pass)])];
    }

    /** The end of `syscall_send` and `syscall_recv`: hand over a message if there are two to meet, then
        tell of event ev if it is active. */
    method Meet(c: int, ev: Ev) returns (ok: bool)
      requires Valid() && Meetable(Now(), c, ev)
      modifies this, h, h.Repr
      ensures Valid() && fresh(h.Repr - old(h.Repr)) && Meeting(old(Now()), c, ev, ok, Now())
    {
      hide Meetable, Meeting, Deliverable, Delivered, Triggerable, TriggerAll, Active, Tables.Valid;
      ghost var s := Now();
      MeetableNow(s, c, ev);
      ok := HandleReceive(c);
      MeetableThen(s, c, ev, ok, Now());
      if ok && PollCheck(c, ev) { PollTriggerAll(c, ev); }
    }

    /** `syscall_send` */
    method Send(t: int, no: int, msg: seq<int>, sch: int, flags: int) returns (ok: bool)
      requires Valid() && Calling(Now(), t)
      modifies this, h, h.Repr
      ensures Valid() && fresh(h.Repr - old(h.Repr)) && Stepped(old(Now()), Action.Send(t, no, msg, sch, flags), ok, Now())
    {
      hide Calling, Stepped, HasFlag, Meetable, Meeting, Offered, Tables.Valid, Holds;
      ghost var s := Now();
      CallingSized(s, t);
      hide Inv;
      if !IsOpen(t, no) { SetResult(t, EBADF); SendRefused(s, t, no, msg, sch, flags, EBADF, Now()); return true; }
      var cd := fds[Fd(t, no)];
      var c := cd.chan;
      OpenChannel(s, t, no);
      h.ChannelParts(c);
      if !HasFlag(cd.flags, CHAN_SEND) { SetResult(t, EBADF); SendRefused(s, t, no, msg, sch, flags, EBADF, Now()); return true; }
      var nonblock := HasFlag(cd.flags, CHAN_NONBLOCK) || HasFlag(flags, RECV_NONBLOCK);
      if nonblock && h.IsEmpty(Receivers(c)) {
        SetResult(t, EWOULDBLOCK);
        SendRefused(s, t, no, msg, sch, flags, EWOULDBLOCK, Now());
        return true;
      }
      var pass := NoPass;
      if sch != NONE {
        if !IsOpen(t, sch) { SetResult(t, EBADF); SendRefused(s, t, no, msg, sch, flags, EBADF, Now()); return true; }
        pass := Pass(fds[Fd(t, sch)].chan, fds[Fd(t, sch)].flags);
        OpenChannel(s, t, sch);
      }
      SendPlan(s, t, c, msg, pass);
      BlockOnSend(t, c, msg, pass);
      ok := Meet(c, EvRecv);
      SendDone(s, t, no, msg, sch, flags, c, pass, ok, Now());
    }

    /** The part of `syscall_recv` that queues the caller. */
    method BlockOnReceive(t: int, c: int, cap: nat, wants: bool)
      requires Valid() && Sized(Now()) && IsTask(Now(), t) && 0 <= c < |refs|
      modifies this`logs, h`procs, h`qs, h.Repr
      ensures Valid() && Now() == Asked(old(Now()), t, c, cap, wants)
    {
      hide Moved, Tables.Valid;
      h.ChannelParts(c);
      MovedQueue(S(), t, RecvBlocked, Receivers(c));
      SetTaskState(t, RecvBlocked, Receivers(c));
      h.SetProc(t, h.procs[t].(req := Receiving(c, cap, wants)));
      ghost var log := LogOf(S(), c);
      logs := logs[c := log.(asked := log.asked + [t])];
    }

    /** `syscall_recv` */
    method Receive(t: int, no: int, cap: nat, wants: bool, flags: int) returns (ok: bool)
      requires Valid() && Calling(Now(), t)
      modifies this, h, h.Repr
      ensures Valid() && fresh(h.Repr - old(h.Repr)) && Stepped(old(Now()), Action.Receive(t, no, cap, wants, flags), ok, Now())
    {
      hide Calling, Stepped, HasFlag, Meetable, Meeting, Asked, Tables.Valid, Holds;
      ghost var s := Now();
      CallingSized(s, t);
      hide Inv;
      if !IsOpen(t, no) { SetResult(t, EBADF); ReceiveRefused(s, t, no, cap, wants, flags, EBADF, Now()); return true; }
      var cd := fds[Fd(t, no)];
      var c := cd.chan;
      OpenChannel(s, t, no);
      h.ChannelParts(c);
      if !HasFlag(cd.flags, CHAN_RECV) { SetResult(t, EBADF); ReceiveRefused(s, t, no, cap, wants, flags, EBADF, Now()); return true; }
      var nonblock := HasFlag(cd.flags, CHAN_NONBLOCK) || HasFlag(flags, RECV_NONBLOCK);
      if nonblock && h.IsEmpty(Senders(c)) {
        SetResult(t, EWOULDBLOCK);
        ReceiveRefused(s, t, no, cap, wants, flags, EWOULDBLOCK, Now());
        return true;
      }
      ReceivePlan(s, t, c, cap, wants);
      BlockOnReceive(t, c, cap, wants);
      ok := Meet(c, EvSend);
      ReceiveDone(s, t, no, cap, wants, flags, c, ok, Now());
    }

    // ----- Polling calls -----

    /** The body of the loop of `syscall_poll_add`. */
    method PollAddEvent(f: Fd, ev: Ev, flags: int)
      requires Valid() && Sized(Now()) && IsTask(Now(), f.task) && f in fds && 0 <= fds[f].chan < |refs|
      modifies this`counts, h`lists, h`at, h.Repr
      ensures Valid() && Now() == PollAddOne(old(Now()), f, ev, flags)
    {
      hide Tables.Valid, Active, Wanted, Linked;
      h.TaskParts(f.task);
      var c := fds[f].chan;
      h.ChannelParts(c);
      if Wanted(flags, ev) && !h.IsListed(f, ev) {
        if PollCheck(c, ev) {
          Append(f, OnTask(f.task, ev));
        } else {
          Append(f, OnChannel(c, ev));
        }
        LinkedCounts(P(), f, ev);
        counts := counts[f.task := counts[f.task] + 1];
      }
    }

    /** `syscall_poll_add` */
    method PollAdd(t: int, no: int, flags: int)
      requires Valid() && Calling(Now(), t)
      modifies this`counts, this`outs, h`lists, h`at, h.Repr
      ensures Valid() && Stepped(old(Now()), Action.PollAdd(t, no, flags), true, Now())
    {
      hide Inv, Calling, HasFlag, Wanted, PollAddOne, Tables.Valid;
      CallingSized(Now(), t);
      PollAddOk(Now(), t, no, flags);
      if !IsOpen(t, no) { SetResult(t, EBADF); return; }
      OpenChannel(Now(), t, no);
      var f := Fd(t, no);
      if Wanted(flags, EvRecv) && !HasFlag(fds[f].flags, CHAN_RECV) { SetResult(t, EBADF); return; }
      if Wanted(flags, EvSend) && !HasFlag(fds[f].flags, CHAN_SEND) { SetResult(t, EBADF); return; }
      PollAddEvent(f, EvRecv, flags);
      PollAddEvent(f, EvSend, flags);
      SetResult(t, 0);
    }

    /** The body of the loop of `syscall_poll_remove`. */
    method PollRemoveEvent(f: Fd, ev: Ev, flags: int)
      requires Valid() && Sized(Now()) && IsTask(Now(), f.task) && f in fds
      modifies this`counts, h`lists, h`at, h.Repr
      ensures Valid() && Now() == PollRemoveOne(old(Now()), f, ev, flags)
    {
      hide Tables.Valid, Wanted, Unlinked;
      if Wanted(flags, ev) && h.IsListed(f, ev) {
        UnlinkedCounts(P(), f, ev);
        Delete(f, ev);
        counts := counts[f.task := counts[f.task] - 1];
      }
    }

    /** `syscall_poll_remove` */
    method PollRemove(t: int, no: int, flags: int)
      requires Valid() && Calling(Now(), t)
      modifies this`counts, this`outs, h`lists, h`at, h.Repr
      ensures Valid() && Stepped(old(Now()), Action.PollRemove(t, no, flags), true, Now())
    {
      hide Inv, Calling, PollRemoveOne, Tables.Valid;
      CallingSized(Now(), t);
      PollRemoveOk(Now(), t, no, flags);
      if !IsOpen(t, no) { SetResult(t, EBADF); return; }
      PollRemoveEvent(Fd(t, no), EvRecv, flags);
      PollRemoveEvent(Fd(t, no), EvSend, flags);
      SetResult(t, 0);
    }

    /** Block the running task t with a request. */
    method Park(t: int, status: Status, q: QueueId, req: Request)
      requires Valid() && 0 <= t < |h.procs| && q in h.queues
      modifies h`procs, h`qs, h.Repr
      ensures Valid() && S() == Blocked(old(S()), t, status, q, req)
    {
      hide Moved, Tables.Valid;
      MovedQueue(S(), t, status, q);
      SetTaskState(t, status, q);
      h.SetProc(t, h.procs[t].(req := req));
    }

    /** `syscall_poll_wait` */
    method PollWait(t: int, presult: bool)
      requires Valid() && Calling(Now(), t)
      modifies this`outs, h`procs, h`qs, h.Repr, h`lists, h`at
      ensures Valid() && Stepped(old(Now()), Action.PollWait(t, presult), true, Now())
    {
      hide Inv, Calling, Blocked, Draining, Pollable, Polled, Stepped, Tables.Valid;
      ghost var s := Now();
      CallingSized(s, t);
      if counts[t] == 0 || !presult {
        SetResult(t, if counts[t] == 0 then EINVAL else EFAULT);
        PollWaitRefused(s, t, presult, Now());
        return;
      }
      ParkedPollable(s, t);
      h.KernelQueues();
      Park(t, PollBlocked, Polling, Nothing);
      ghost var s0 := Now();
      var hit := HandlePoll(t, EvRecv);
      ghost var s1 := Now();
      PolledSize(s0, t, EvRecv, s1);
      if !hit {
        PolledAgain(s0, t, s1);
        hit := HandlePoll(t, EvSend);
      }
      PollWaitDone(s, t, s1, Now());
    }

    /** `syscall_event_wait` */
    method EventWait(t: int, event: int)
      requires Valid() && Calling(Now(), t)
      modifies this`outs, h`procs, h`qs, h.Repr
      ensures Valid() && Stepped(old(Now()), Action.EventWait(t, event), true, Now())
    {
      hide Inv, Calling, Blocked, Tables.Valid;
      CallingSized(Now(), t);
      EventWaitOk(Now(), t, event);
      if event < 0 || event >= NEVENTS { SetResult(t, EINVAL); return; }
      h.KernelQueues();
      Park(t, EventBlocked, Waiting(event), Awaiting(event));
      SetResult(t, EINTR);
    }

    // ----- Descriptors -----

    /** The channel that `syscall_channel` takes off the free list or allocates. */
    method AllocChannel() returns (c: int)
      requires Valid() && FreshNow(Now())
      modifies this`refs, this`freeChans, h`queues, h`heads, h`channels, h`Repr
      ensures Valid() && fresh(h.Repr - old(h.Repr)) && (C(), c) == FreshChannel(old(C()))
    {
      hide Tables.Valid;
      if freeChans == [] {
        c := |refs|;
        refs := refs + [0];
        h.AddChannel();
      } else {
        c := freeChans[0];
        freeChans := freeChans[1..];
        refs := refs[c := 0];
      }
    }

    /** `taskqueue_init` and `cdlist_init` for the channel that is taken into use. */
    method TakeChannel() returns (c: int)
      requires Valid() && FreshNow(Now())
      modifies this`refs, this`freeChans, this`logs, h`queues, h`heads, h`channels, h`qs, h`lists, h`Repr, h.Repr
      ensures Valid() && fresh(h.Repr - old(h.Repr)) && Now() == Taken(old(Now())) && c == FreshChannel(old(C())).1
    {
      hide Tables.Valid;
      c := AllocChannel();
      h.ClearChannel(c);
      logs := logs[c := Log([], [], [])];
    }

    /** The rest of `syscall_channel`, after it has a number. */
    method OpenNew(t: int, no: int)
      requires Valid() && FreshNow(Now()) && Node(Fd(t, no), EvRecv) !in h.at && Node(Fd(t, no), EvSend) !in h.at
      modifies this`fds, this`refs, this`freeChans, this`logs, h`queues, h`heads, h`channels, h`nodes, h`qs, h`lists, h`Repr, h.Repr
      ensures Valid() && fresh(h.Repr - old(h.Repr)) && Now() == OpenedNew(old(Now()), t, no)
    {
      hide Tables.Valid, Installed, Taken, FreshNow;
      TakenPolls(Now());
      var c := TakeChannel();
      Install(Fd(t, no), c, CHAN_RECV + CHAN_SEND);
    }

    /** `syscall_channel` */
    method NewChannel(t: int)
      requires Valid() && Calling(Now(), t)
      modifies this, h, h.Repr
      ensures Valid() && fresh(h.Repr - old(h.Repr)) && Stepped(old(Now()), Action.Channel(t), true, Now())
    {
      hide Calling, Mid, FreshNow, OpenedNew, Stepped, Tables.Valid, TakeNumber, HasNumber;
      ghost var s := Now();
      CallingSized(s, t);
      CallingMid(s, t);
      NextNumberOk(s, t);
      h.TaskParts(t);
      var no := AllocDesc(t);
      if no < 0 { SetResult(t, EMFILE); ChannelNot(s, t, Now()); return; }
      FreshNowOk(s, Now());
      OpenNew(t, no);
      ghost var r := Now();
      SetResult(t, no);
      ChannelDone(s, t, no, r, Now());
    }

    /** The part of `close_channel` that gives the number back to its task, and the channel to the channel
        free list when nothing names it any more. */
    method Release(f: Fd, c: int) returns (last: bool)
      requires Valid() && 0 <= c < |refs| && 0 <= f.task < |h.descs| && |h.pools| == |h.descs|
      requires 0 <= f.no < h.pools[f.task].next && f.no !in h.pools[f.task].free
      modifies this`refs, this`freeChans, h`pools, h.Repr
      ensures Valid() && C() == Released(old(C()), f, c) && |refs| == |old(refs)| && (last <==> refs[c] == 0)
    {
      hide Tables.Valid;
      h.FreeDesc(f.task, f.no);
      refs := refs[c := refs[c] - 1];
      last := refs[c] == 0;
      if last { freeChans := [c] + freeChans; }
    }

    /** The part of `close_channel` that takes the descriptor out of its table and off the poll lists. */
    method Forget(f: Fd)
      requires Valid() && f in fds
      modifies this`fds, h`lists, h`at, h.Repr
      ensures Valid() && fds == old(fds) - {f} && P() == Unlinked(Unlinked(old(P()), f, EvRecv), f, EvSend)
      ensures Node(f, EvRecv) !in h.at && Node(f, EvSend) !in h.at
    {
      hide Tables.Valid, Unlinked;
      fds := fds - {f};
      Delete(f, EvRecv);
      UnlinkedStays(P(), f, EvRecv, EvSend);
      Delete(f, EvSend);
    }

    /** `close_channel`; none of its three panics can be reached. */
    method CloseChannel(f: Fd)
      requires Valid() && Closable(Now(), f)
      modifies this`fds, this`refs, this`freeChans, h`lists, h`at, h.Repr, h`pools
      ensures Valid() && Closed(old(Now()), f, Now()) && Node(f, EvRecv) !in h.at && Node(f, EvSend) !in h.at
    {
      hide Closable, Closed, Unlinked, Dropped, KernelState.Close, RefOf, Released, Tables.Valid;
      ghost var s := Now();
      ClosePlan(s, f);
      ReleasedIs(s.chans, f);
      h.TaskParts(f.task);
      var c := fds[f].chan;
      Forget(f);
      var last := Release(f, c);
      assert last ==> Q(S(), Receivers(c)) == [] && Q(S(), Senders(c)) == [] by { RefIs(C(), c); }
      assert last ==> L(P(), OnChannel(c, EvRecv)) == [] && L(P(), OnChannel(c, EvSend)) == [] by { RefIs(C(), c); }
      ClosedCalling(s, f, Now());
    }

    /** `syscall_close` */
    method CloseCall(t: int, no: int)
      requires Valid() && Calling(Now(), t)
      modifies this`fds, this`refs, this`freeChans, this`outs, h`lists, h`at, h.Repr, h`pools
      ensures Valid() && Stepped(old(Now()), Action.CloseFd(t, no), true, Now())
    {
      hide Calling, Closable, Closed, Stepped, Tables.Valid;
      ghost var s := Now();
      CallingSized(s, t);
      if !IsOpen(t, no) { SetResult(t, EBADF); CloseNot(s, t, no, Now()); return; }
      OwnClosable(s, t, no);
      CloseChannel(Fd(t, no));
      ghost var r := Now();
      ClosedSized(s, Fd(t, no), r);
      SetResult(t, 0);
      CloseDone(s, t, no, r, Now());
    }

    /** The end of `syscall_dup`. */
    method CopyOnto(from: Fd, f: Fd)
      requires Valid() && Sized(Now()) && IsTask(Now(), f.task) && from in fds && from != f
      requires if f in fds then Closable(Now(), f) else Node(f, EvRecv) !in h.at && Node(f, EvSend) !in h.at
      modifies this`fds, this`refs, this`freeChans, this`outs, h`nodes, h`lists, h`at, h.Repr, h`pools, h`Repr
      ensures Valid() && fresh(h.Repr - old(h.Repr)) && Dupped(old(Now()), from, f, Now())
    {
      hide Closable, Closed, Dupped, Installed, Tables.Valid;
      ghost var s := Now();
      if f in fds {
        CloseChannel(f);
        ClosedSized(s, f, Now());
        ClosedOthers(s, f, Now());
      }
      ghost var r1 := Now();
      Install(f, fds[from].chan, fds[from].flags);
      ghost var r2 := Now();
      SetResult(f.task, f.no);
      DuppedOnto(s, from, f, r1, r2, Now());
    }

    /** `syscall_dup` where the kernel chooses the number. */
    method DupLowest(t: int, from: Fd)
      requires Valid() && Calling(Now(), t) && from in fds
      modifies this`fds, this`refs, this`freeChans, this`outs, h`nodes, h`lists, h`at, h.Repr, h`pools, h`Repr
      ensures Valid() && fresh(h.Repr - old(h.Repr)) && DuppedLowest(old(Now()), t, from, Now())
    {
      hide Calling, Closable, Dupped, NumberTaken, TakeNumber, HasNumber, Mid, Tables.Valid;
      ghost var s := Now();
      CallingSized(s, t);
      CallingMid(s, t);
      NextNumberOk(s, t);
      h.TaskParts(t);
      NumberTakenIs(s, t);
      var no := AllocDesc(t);
      if no < 0 { SetResult(t, EMFILE); return; }
      CopyOnto(from, Fd(t, no));
    }

    /** `syscall_dup` onto a number that the caller chooses. */
    method DupExplicit(t: int, oldfd: int, newfd: int)
      requires Valid() && Calling(Now(), t) && IsOpen(t, oldfd) && newfd != oldfd && 0 <= newfd < MAX_TASK_CHANNELS
      modifies this`fds, this`refs, this`freeChans, this`outs, h`nodes, h`lists, h`at, h.Repr, h`pools, h`Repr
      ensures Valid() && fresh(h.Repr - old(h.Repr)) && Dupped(old(Now()), Fd(t, oldfd), Fd(t, newfd), Now())
    {
      hide Calling, Closable, Dupped, Mid, Tables.Valid;
      CallingSized(Now(), t);
      CallingMid(Now(), t);
      if IsOpen(t, newfd) { OwnClosable(Now(), t, newfd); } else { UnlistedNodes(Now(), Fd(t, newfd)); }
      CopyOnto(Fd(t, oldfd), Fd(t, newfd));
    }

    /** The part of `syscall_dup` after the old descriptor is found. */
    method DupOpen(t: int, oldfd: int, newfd: int, flags: int)
      requires Valid() && Calling(Now(), t) && IsOpen(t, oldfd)
      modifies this`fds, this`refs, this`freeChans, this`outs, h`nodes, h`lists, h`at, h.Repr, h`pools, h`Repr
      ensures Valid() && fresh(h.Repr - old(h.Repr)) && Reached(old(Now()), Action.Dup(t, oldfd, newfd, flags), true, Now())
    {
      hide Calling, Closable, Dupped, DuppedLowest, Reached, Mid, Tables.Valid;
      ghost var s := Now();
      CallingSized(s, t);
      var from := Fd(t, oldfd);
      if oldfd == newfd {
        fds := fds[from := fds[from].(flags := flags)];
        SetResult(t, newfd);
        DupSame(s, t, oldfd, flags, Now());
      } else if newfd == NONE {
        DupLowest(t, from);
        DupLowestDone(s, t, oldfd, flags, Now());
      } else if newfd < 0 || newfd >= MAX_TASK_CHANNELS {
        SetResult(t, EBADF);
        DupNot(s, t, oldfd, newfd, flags, Now());
      } else {
        DupExplicit(t, oldfd, newfd);
        DupExplicitDone(s, t, oldfd, newfd, flags, Now());
      }
    }

    /** `syscall_dup`; where it does not keep the invariant, it does what the original does. */
    method DupCall(t: int, oldfd: int, newfd: int, flags: int)
      requires Valid() && Calling(Now(), t)
      modifies this`fds, this`refs, this`freeChans, this`outs, h`nodes, h`lists, h`at, h.Repr, h`pools, h`Repr
      ensures Valid() && fresh(h.Repr - old(h.Repr)) && Reached(old(Now()), Action.Dup(t, oldfd, newfd, flags), true, Now())
      ensures Inv(Now()) <==> DupSafe(oldfd, newfd) || !ValidChannel(old(Now()), t, oldfd)
    {
      hide Calling, Reached, Inv, Tables.Valid;
      ghost var s := Now();
      CallingSized(s, t);
      if !IsOpen(t, oldfd) {
        SetResult(t, EBADF);
        DupNot(s, t, oldfd, newfd, flags, Now());
      } else {
        DupOpen(t, oldfd, newfd, flags);
      }
      DupInv(s, t, oldfd, newfd, flags, Now());
    }

    // ----- Tasks -----

    /** The loop of `exit_task`. */
    method CloseAll(t: int)
      requires Valid() && Calling(Counted(Now()), t)
      modifies this`fds, this`refs, this`freeChans, h`lists, h`at, h.Repr, h`pools
      ensures Valid() && ClosedBelow(old(Now()), t, MAX_TASK_CHANNELS, Now())
    {
      hide Calling, Closed, Closable, ClosedBelow, Tables.Valid;
      ghost var s0 := Now();
      ClosedBelowNone(s0, t);
      var i := 0;
      while i < MAX_TASK_CHANNELS
        invariant 0 <= i <= MAX_TASK_CHANNELS && Valid() && Calling(Counted(Now()), t) && ClosedBelow(s0, t, i, Now())
      {
        ghost var s := Now();
        if Fd(t, i) in fds {
          OpenClosable(s, Fd(t, i));
          CloseChannel(Fd(t, i));
          ClosedCounted(s, Fd(t, i), Now());
        }
        ClosedBelowStep(s0, t, i, s, Now());
        i := i + 1;
      }
    }

    /** The counters that `exit_task` lowers. */
    method LowerCounters(t: int)
      requires Valid() && IsTask(Now(), t)
      modifies this`live, this`nondaemon
      ensures Valid() && Now() == Uncounted(old(Now()), t)
    {
      hide Tables.Valid;
      if !h.procs[t].daemon { nondaemon := nondaemon - 1; }
      live := live - 1;
    }

    /** The end of `exit_task`. */
    method Bury(t: int)
      requires Valid() && Sized(Now()) && IsTask(Now(), t)
      modifies this`outs, h`procs, h`qs, h.Repr
      ensures Valid() && Now() == Buried(old(Now()), t)
    {
      hide Moved, Tables.Valid;
      h.KernelQueues();
      MovedQueue(S(), t, Dead, Free);
      SetTaskState(t, Dead, Free);
      SetResult(t, 0);
    }

    /** `exit_task` */
    method ExitTask(t: int)
      requires Valid() && Calling(Now(), t)
      modifies this, h`lists, h`at, h.Repr, h`procs, h`qs, h`pools
      ensures Valid() && Stepped(old(Now()), Action.Exit(t), true, Now())
    {
      hide Calling, ClosedBelow, Counted, Uncounted, Buried, Stepped, Tables.Valid;
      ghost var s := Now();
      ExitCounted(s, t);
      LowerCounters(t);
      ghost var s0 := Now();
      CloseAll(t);
      ghost var s1 := Now();
      ClosedBelowSched(s0, t, s1);
      Bury(t);
      ExitDone(s, t, s1, Now());
    }

    /** `task_alloc` */
    method TaskAlloc(memory: bool) returns (t: int)
      requires Valid() && Sized(Now()) && Inv(Now())
      modifies this`counts, this`outs, h`procs, h`links, h`qs, h`heads, h`descs, h`pools, h`Repr, h.Repr
      ensures Valid() && fresh(h.Repr - old(h.Repr)) && (Now(), t) == AllocTask(old(Now()), memory)
    {
      hide Inv, Tables.Valid;
      h.KernelQueues();
      if h.IsEmpty(Free) {
        if |h.procs| + 1 >= MAX_TASKS || !memory { return NONE; }
        t := |h.procs|;
        assert Q(S(), Free) + [t] == [t];
        h.AddTask();
        counts := counts + [0];
        outs := outs + [Out(0, [], NONE, NONE, EvRecv)];
      } else {
        t := h.Peek(Free);
        h.SetProc(t, h.procs[t].(gen := h.procs[t].gen + 1));
      }
    }

    /** The part of `syscall_spawn` that sets the fields of the new task and the counters. */
    method FillIn(parent: int, t: int, prio: int, daemon: bool)
      requires Valid() && IsTask(Now(), t) && (parent == NONE || IsTask(Now(), parent))
      modifies this`live, this`nondaemon, h`procs
      ensures Valid() && Now() == Filled(old(Now()), parent, t, prio, daemon)
    {
      hide Tables.Valid;
      if !daemon { nondaemon := nondaemon + 1; }
      live := live + 1;
      var ptid := if parent == NONE then 0 else h.procs[parent].gen * 4096 + parent + 1;
      h.SetProc(t, h.procs[t].(parent := ptid, prio := prio, daemon := daemon));
    }

    /** The part of `syscall_spawn` that readies the poll lists and the numbers of the new task. */
    method ClearTask(t: int, n: int)
      requires Valid() && Sized(Now()) && IsTask(Now(), t) && 0 <= n <= MAX_TASK_CHANNELS
      requires L(P(), OnTask(t, EvRecv)) == [] && L(P(), OnTask(t, EvSend)) == []
      modifies this`counts, h`lists, h`pools, h.Repr
      ensures Valid() && Now() == TaskCleared(old(Now()), t, n)
    {
      hide Tables.Valid;
      h.TaskParts(t);
      ClearedLists(h.lists, OnTask(t, EvRecv), OnTask(t, EvSend));
      h.InitList(OnTask(t, EvRecv));
      h.InitList(OnTask(t, EvSend));
      counts := counts[t := 0];
      h.RestartDescs(t, n);
    }

    /** The loop of `syscall_spawn` that copies the listed channels of the parent. */
    method Inherit(parent: int, child: int, nos: seq<int>)
      requires Valid() && (forall i :: 0 <= i < |nos| ==> Fd(parent, nos[i]) in fds) && parent != child
      requires forall i :: 0 <= i < |nos| ==> Node(Fd(child, i), EvRecv) !in h.at && Node(Fd(child, i), EvSend) !in h.at
      modifies this`fds, this`refs, h`nodes, h`Repr, h.Repr
      ensures Valid() && fresh(h.Repr - old(h.Repr)) && C() == Inherited(old(C()), parent, child, nos, |nos|)
    {
      hide Installed, Inherited, Tables.Valid;
      ghost var ch := C();
      InheritedNone(ch, parent, child, nos);
      var i := 0;
      while i < |nos|
        invariant 0 <= i <= |nos| && Valid() && fresh(h.Repr - old(h.Repr)) && C() == Inherited(ch, parent, child, nos, i)
        invariant forall f :: f in ch.fds && f.task != child ==> f in fds && fds[f] == ch.fds[f]
      {
        var cd := fds[Fd(parent, nos[i])];
        InheritedMore(ch, parent, child, nos, i);
        InstalledFds(C(), Fd(child, i), cd.chan, cd.flags);
        Install(Fd(child, i), cd.chan, cd.flags);
        i := i + 1;
      }
    }

    /** The part of `syscall_spawn` that fills in the new task. */
    method StartTask(parent: int, t: int, prio: int, daemon: bool, nos: seq<int>)
      requires Valid() && Startable(Now(), parent, t, prio, nos)
      modifies this, h`procs, h`qs, h`lists, h`pools, h`nodes, h`Repr, h.Repr
      ensures Valid() && fresh(h.Repr - old(h.Repr)) && IsStarted(old(Now()), parent, t, prio, daemon, nos, Now())
    {
      hide Startable, IsStarted, Filled, TaskCleared, Moved, Inherited, Tables.Valid;
      ghost var s := Now();
      StartableParts(s, parent, t, prio, daemon, nos);
      FillIn(parent, t, prio, daemon);
      ghost var s1 := Now();
      ClearTask(t, |nos|);
      ghost var s2 := Now();
      Inherit(parent, t, nos);
      ghost var s3 := Now();
      StartableStill(s, parent, t, prio, daemon, nos);
      SetTaskRunning(t);
      StartedParts(s, s3, parent, t, prio, daemon, nos, Now());
    }

    /** The loop of `syscall_spawn` that checks the listed channels. */
    method AllOpen(t: int, nos: seq<int>, len: int) returns (ok: bool)
      requires 0 <= len <= |nos|
      ensures ok <==> forall i :: 0 <= i < len ==> ValidChannel(Now(), t, nos[i])
    {
      var i := 0;
      while i < len
        invariant 0 <= i <= len && forall j :: 0 <= j < i ==> ValidChannel(Now(), t, nos[j])
      {
        if !IsOpen(t, nos[i]) { return false; }
        i := i + 1;
      }
      return true;
    }

    /** Hand a result to the caller of spawn, if there is one. */
    method ReturnParent(parent: int, v: int)
      requires Sized(Now()) && (parent == NONE || IsTask(Now(), parent))
      modifies this`outs
      ensures Now() == ReturnTo(old(Now()), parent, v)
    {
      if parent != NONE { SetResult(parent, v); }
    }

    /** The part of `syscall_spawn` after its arguments are found to be in order. */
    method SpawnTask(parent: int, prio: int, nos: seq<int>, flags: int, memory: bool)
      requires Valid() && Spawning(Now(), parent) && SpawnArgs(Now(), parent, prio, nos, |nos|, flags)
      modifies this, h, h.Repr
      ensures Valid() && fresh(h.Repr - old(h.Repr)) && Spawned(old(Now()), parent, prio, nos, flags, memory, Now())
    {
      hide Inv, Spawning, SpawnArgs, Spawned, AllocTask, Startable, IsStarted, Tables.Valid;
      ghost var s := Now();
      SpawningSized(s, parent);
      var t := TaskAlloc(memory);
      ghost var s1 := Now();
      if t == NONE {
        SpawnedNone(s, parent, prio, nos, flags, memory);
        ReturnParent(parent, ENOMEM);
        return;
      }
      StartableOk(s, parent, prio, nos, flags, memory);
      var tid := h.procs[t].gen * 4096 + t + 1;
      StartTask(parent, t, prio, flags == SPAWN_DAEMON, nos);
      ghost var r := Now();
      IsStartedSize(s1, parent, t, prio, flags == SPAWN_DAEMON, nos, r);
      ReturnParent(parent, tid);
      SpawnedDone(s, parent, prio, nos, flags, memory, r, Now());
    }

    /** `syscall_spawn`, with no parent at boot. */
    method SpawnCall(parent: int, prio: int, nos: seq<int>, len: int, flags: int, memory: bool)
      requires Valid() && Spawning(Now(), parent) && len <= |nos|
      modifies this, h, h.Repr
      ensures Valid() && fresh(h.Repr - old(h.Repr)) && SpawnStepped(old(Now()), parent, prio, nos, len, flags, memory, Now())
    {
      hide Inv, Spawning, Spawned, SpawnStepped, Tables.Valid;
      ghost var s := Now();
      SpawningSized(s, parent);
      if (flags != 0 && flags != SPAWN_DAEMON) || prio < 0 || prio >= TASK_NPRIO || len < 0 || len > MAX_TASK_CHANNELS {
        ReturnParent(parent, EINVAL);
        SpawnRefused(s, parent, prio, nos, len, flags, memory, Now());
        return;
      }
      var open := AllOpen(parent, nos, len);
      if !open {
        ReturnParent(parent, EBADF);
        SpawnRefused(s, parent, prio, nos, len, flags, memory, Now());
        return;
      }
      SpawnTask(parent, prio, nos[..len], flags, memory);
      SpawnDone(s, parent, prio, nos, len, flags, memory, Now());
    }

    // ----- Runs -----

    /** `task_syscall`: the call that the running task makes. */
    method TaskSyscall(a: Action) returns (ok: bool)
      requires Valid() && Inv(Now()) && Enabled(Now(), a) && !a.Unblock? && !a.Schedule?
      modifies this, h, h.Repr
      ensures Valid() && fresh(h.Repr - old(h.Repr)) && Performed(old(Now()), a, ok, Now())
    {
      hide Inv, Calling, Reached, Stepped, Performed, Spawning, SpawnStepped, Tables.Valid;
      ghost var s := Now();
      CallerOk(s, a);
      ok := true;
      match a {
        case Spawn(t, prio, nos, len, flags, memory) =>
          SpawnCall(t, prio, nos, len, flags, memory);
          SpawnPerformed(s, t, prio, nos, len, flags, memory, Now());
          return;
        case Dup(t, oldfd, newfd, flags) =>
          DupCall(t, oldfd, newfd, flags);
          DupPerformed(s, a, Now());
          return;
        case Channel(t) => NewChannel(t);
        case CloseFd(t, no) => CloseCall(t, no);
        case Exit(t) => ExitTask(t);
        case Send(t, no, msg, sch, flags) => ok := Send(t, no, msg, sch, flags);
        case Receive(t, no, cap, wants, flags) => ok := Receive(t, no, cap, wants, flags);
        case PollAdd(t, no, flags) => PollAdd(t, no, flags);
        case PollRemove(t, no, flags) => PollRemove(t, no, flags);
        case PollWait(t, presult) => PollWait(t, presult);
        case EventWait(t, event) => EventWait(t, event);
        case Other(t, v) =>
          CallingSized(s, t);
          SetResult(t, v);
          OtherStepped(s, t, v, Now());
      }
      StepPerformed(s, a, ok, Now());
    }

    /** One thing that happens: a call of a running task, an interrupt, or a turn of the loop of `main`. */
    method Perform(a: Action) returns (ok: bool)
      requires Valid() && Inv(Now()) && Enabled(Now(), a) && (a.Unblock? ==> 0 <= a.event < NEVENTS)
      modifies this, h, h.Repr
      ensures Valid() && fresh(h.Repr - old(h.Repr)) && Performed(old(Now()), a, ok, Now())
    {
      hide Inv, Performed, Tables.Valid, Interrupt, Scheduled;
      ghost var s := Now();
      assert Sized(s) by { InvSized(s); }
      ok := true;
      if a.Unblock? {
        UnblockAll(a.event, a.v);
        InterruptPerformed(s, a.event, a.v, Now());
      } else if a.Schedule? {
        var t := PickTask();
        ok := t != NONE;
        SchedulePerformed(s, ok, Now());
      } else {
        ok := TaskSyscall(a);
      }
    }

    /** What happens one after the other: any run of the specification is one of the kernel. */
    method Follow(acts: seq<Action>, ghost r: State)
      requires Valid() && Inv(Now()) && Sized(Now()) && IsRun(Now(), acts, r)
      requires forall i :: 0 <= i < |acts| && acts[i].Unblock? ==> 0 <= acts[i].event < NEVENTS
      modifies this, h, h.Repr
      ensures Valid() && fresh(h.Repr - old(h.Repr)) && Now() == r && Inv(r)
    {
      hide Inv, Performed, Tables.Valid, IsRun, Enabled;
      var i := 0;
      while i < |acts|
        invariant 0 <= i <= |acts| && Valid() && fresh(h.Repr - old(h.Repr)) && Sized(Now()) && Inv(Now())
        invariant IsRun(Now(), acts[i..], r)
      {
        ghost var s := Now();
        NextOfRun(s, acts[i..], r);
        var ok := Perform(acts[i]);
        PerformedRun(s, acts[i..], r, ok, Now());
        assert acts[i..][1..] == acts[i + 1..];
        i := i + 1;
      }
      EndOfRun(Now(), acts[i..], r);
    }

    /** `main` before its loop. */
    method Boot()
      requires Valid() && Now() == INIT
      modifies this, h, h.Repr
      ensures Valid() && fresh(h.Repr - old(h.Repr)) && Now() == Booted() && Inv(Now())
    {
      hide Inv, SpawnStepped, Tables.Valid;
      InitialOk();
      SpawnCall(NONE, 7, [], 0, SPAWN_DAEMON, true);
      FirstSpawned(Now());
      SpawnCall(NONE, 6, [], 0, 0, true);
      BothSpawned(Now());
    }
  }

  /** Every task is linked into the queue that its state dictates, and into no other; all queues are
      circles, and a task remembers the one that it is in. */
  lemma InOneQueue(k: Kernel, t: int, q: QueueId)
    requires k.Valid() && Inv(k.Now()) && 0 <= t < |k.h.procs| && q in k.h.queues
    ensures |k.h.links| == |k.h.procs| && Home(k.h.procs[t]) in k.h.queues
    ensures k.h.links[t].queue == k.h.queues[Home(k.h.procs[t])]
    ensures k.h.queues[q].Valid() && (k.h.links[t] in k.h.queues[q].contents <==> q == Home(k.h.procs[t]))
  {
    assert ProcOk(k.S().procs[t]);
    hide Inv;
    var queues, links, qs := k.h.queues, k.h.links, k.h.qs;
    var home := k.h.procs[t].queue;
    k.h.SeatOf(t);
    LinkFacts(queues, links, qs, home, t);
    QueueFacts(queues, links, qs, q);
    QueueFacts(queues, links, qs, home);
  }

  /** The node of an event of an open descriptor is linked into the list that it is noted to be on, and
      into no other; the list is a circle from its head. */
  lemma OnOneList(k: Kernel, f: Fd, ev: Ev, l: ListId)
    requires k.Valid() && f in k.fds && l in k.h.heads
    ensures AllNodes(k.h.nodes, Listed(k.h.lists, l), l.ev)
    ensures var circle := Round(k.h.heads, k.h.nodes, l, Listed(k.h.lists, l));
            && circle[0] == k.h.heads[l] && Circle(circle) && Distinct(circle) && Node(f, ev) in k.h.nodes
            && (k.h.nodes[Node(f, ev)] in circle <==> Node(f, ev) in k.h.at && k.h.at[Node(f, ev)] == l)
  {
    var heads, nodes, lists, at := k.h.heads, k.h.nodes, k.h.lists, k.h.at;
    RoundFacts(heads, nodes, lists, at, l);
    var n, fs := Node(f, ev), Listed(lists, l);
    var circle := Round(heads, nodes, l, fs);
    if nodes[n] in circle {
      var i :| 0 <= i < |circle| && circle[i] == nodes[n];
      assert nodes[n].item == OfNode(n);
    }
    if n in at && at[n] == l {
      assert f in fs;
      var i :| 0 <= i < |fs| && fs[i] == f;
      assert circle[i + 1] == nodes[n];
    }
  }

  /** handle_poll still has the same to do in r as it had in s. */
  ghost predicate PolledAlike(s: State, t: int, ev: Ev, r: State) {
    Pollable(s, t, ev) && Pollable(r, t, ev) && KernelState.HandlePoll(r, t, ev) == KernelState.HandlePoll(s, t, ev)
  }

  lemma PollableParts(s: State, t: int, ev: Ev)
    requires Pollable(s, t, ev)
    ensures Sized(s) && IsTask(s, t) && PolledAlike(s, t, ev, s)
  {
    hide OwnQueue, OwnOpen, KernelState.HandlePoll;
  }

  lemma AlikePollable(s: State, t: int, ev: Ev, r: State)
    requires PolledAlike(s, t, ev, r)
    ensures Pollable(r, t, ev)
  {
    hide Pollable, KernelState.HandlePoll;
  }

  lemma AlikeThen(s: State, t: int, ev: Ev, s1: State, r: State)
    requires PolledAlike(s, t, ev, s1) && PolledAlike(s1, t, ev, r)
    ensures PolledAlike(s, t, ev, r)
  {
    hide OwnQueue, OwnOpen, KernelState.HandlePoll;
  }

  lemma PolledThen(s: State, t: int, ev: Ev, s1: State, r: State)
    requires PolledAlike(s, t, ev, s1) && Polled(s1, t, ev, r)
    ensures Polled(s, t, ev, r)
  {
    hide OwnQueue, OwnOpen, KernelState.HandlePoll;
  }

  lemma PolledEnd(s: State, t: int, ev: Ev, s1: State)
    requires PolledAlike(s, t, ev, s1) && L(s1.polls, OnTask(t, ev)) == []
    ensures Polled(s, t, ev, s1)
  {
    hide OwnQueue, OwnOpen;
  }
}
