/** What the parts of a system call come to, on states: the facts with which `KernelMachine` shows that its
    methods, a few table updates at a time, take the steps that `KernelState` specifies. */
module KernelPlans {
  import opened Seqs
  import opened KernelState
  import opened KernelInvariant
  import opened KernelSteps
  import opened KernelRuns
  import opened LinkedLists

  // ----- Scheduling and events -----

  /** Priorities are those of the ready queues. */
  lemma HeadPrio(sc: Sched, q: QueueId)
    requires QueuesOk(sc) && PlacedOk(sc)
    ensures Q(sc, q) != [] ==> 0 <= Q(sc, q)[0] < |sc.procs| && 0 <= sc.procs[Q(sc, q)[0]].prio < TASK_NPRIO
  {
    if Q(sc, q) != [] {
      assert Q(sc, q)[0] in Q(sc, q);
      assert ProcOk(sc.procs[Q(sc, q)[0]]);
    }
  }

  /** What `schedule` does, in terms of the queue that it finds. */
  lemma ScheduledAt(s: State)
    requires Inv(s)
    ensures Sized(s)
    ensures var p := FirstReady(s.sched, 0);
            if p == TASK_NPRIO then Scheduled(s) == Panic(NothingToSchedule) && Picked(s) == NONE
            else
              var q := Q(s.sched, Ready(p));
              && q[0] >= 0 && Picked(s) == q[0]
              && Scheduled(s) == Go(s.(sched := s.sched.(queues := s.sched.queues[Ready(p) := q[1..] + [q[0]]])))
  {
    assert QueuesOk(s.sched) && PlacedOk(s.sched);
    hide Inv;
    var p := FirstReady(s.sched, 0);
    HeadPrio(s.sched, Ready(p));
  }

  lemma WaitingHead(s: State, event: int)
    requires Inv(s) && Q(s.sched, Waiting(event)) != []
    ensures var q := Q(s.sched, Waiting(event));
            && IsTask(s, q[0]) && 0 <= s.sched.procs[q[0]].prio < TASK_NPRIO
            && NoDup(q) && s.sched.procs[q[0]].queue == Waiting(event)
  {
    assert QueuesOk(s.sched) && PlacedOk(s.sched);
    hide Inv;
    HeadIsWaiting(s.sched, event);
    HeadPrio(s.sched, Waiting(event));
  }

  /** Waking the head of a queue after it has gone to the back is waking the head. */
  lemma WokenRotated(sc: Sched, q: QueueId)
    requires Q(sc, q) != [] && NoDup(Q(sc, q)) && !q.Ready?
    requires var t := Q(sc, q)[0]; 0 <= t < |sc.procs| && sc.procs[t].queue == q
    ensures var t := Q(sc, q)[0];
            Woken(sc.(queues := sc.queues[q := Q(sc, q)[1..] + [t]]), t) == Woken(sc, t)
  {
    var t := Q(sc, q)[0];
    RotatedHead(Q(sc, q));
    assert Woken(sc.(queues := sc.queues[q := Q(sc, q)[1..] + [t]]), t).queues == Woken(sc, t).queues;
  }

  lemma WakeFirst(s: State, t: int, v: int)
    requires Sized(s) && IsTask(s, t)
    ensures WakeAll(s, [t], v) == Return(s.(sched := Woken(s.sched, t)), t, v)
  {
    assert [t][1..] == [];
  }

  lemma InterruptNone(s: State, event: int, v: int)
    requires Sized(s)
    ensures Q(s.sched, Waiting(event)) == [] ==> Interrupt(s, event, v) == s
  {
  }

  // ----- Polling -----

  /** What handle_poll may rely on. */
  ghost predicate Pollable(s: State, t: int, ev: Ev) {
    Sized(s) && IsTask(s, t) && 0 <= s.sched.procs[t].prio < TASK_NPRIO && OwnQueue(s.polls, t, ev) && OwnOpen(s, t, ev)
  }

  ghost predicate Polled(s: State, t: int, ev: Ev, r: State) {
    Sized(s) && IsTask(s, t) && KernelState.HandlePoll(s, t, ev) == Go(r)
  }

  ghost predicate Triggerable(s: State, c: int, ev: Ev) {
    Sized(s) && Triggering(s, c, ev)
  }

  /** What handle_poll may rely on when it is called for the first descriptor on the list of c. */
  lemma TriggerOpen(s: State, c: int, ev: Ev)
    requires Triggerable(s, c, ev) && L(s.polls, OnChannel(c, ev)) != []
    ensures var f := L(s.polls, OnChannel(c, ev))[0];
            var s1 := s.(polls := Linked(Unlinked(s.polls, f, ev), f, OnTask(f.task, ev)));
            && IsTask(s, f.task) && 0 <= s.sched.procs[f.task].prio < TASK_NPRIO
            && (s.sched.procs[f.task].status == PollBlocked ==> OwnOpen(s1, f.task, ev))
  {
    hide Linked, Unlinked, CountsOk, LogsOk, Quiet, KeepOk, RefsOk, FreeOk, PoolsOk, PollCountsOk;
    var f := L(s.polls, OnChannel(c, ev))[0];
    HeadOfList(s, OnChannel(c, ev));
    assert ProcOk(s.sched.procs[f.task]);
    RelinkedShape(s.polls, f, ev, OnTask(f.task, ev));
  }

  lemma TriggerableSized(s: State, c: int, ev: Ev)
    requires Triggerable(s, c, ev)
    ensures Sized(s)
  {
  }

  // ----- Messages -----

  /** The number that t gets next, if any, is a proper one whose nodes are on no list. */
  ghost predicate NextNumber(s: State, t: int) {
    && 0 <= t < |s.chans.pools|
    && var no := TakeNumber(s.chans.pools[t]).1;
       if HasNumber(s.chans.pools[t]) then
         0 <= no < MAX_TASK_CHANNELS && Fd(t, no) !in s.chans.fds && forall ev :: Node(Fd(t, no), ev) !in s.polls.at
       else no == NONE
  }

  lemma NextNumberOk(s: State, t: int)
    requires Mid(s) && IsTask(s, t)
    ensures NextNumber(s, t)
  {
    assert PoolOk(s.chans, t);
    hide SchedOk, FdsOk, RefsOk, FreeOk, KeepOk, ListsOk, PollCountsOk;
    if HasNumber(s.chans.pools[t]) { TakenOk(s.chans, t); }
  }

  /** Descriptors queued on t are open, on channels that there are. */
  ghost predicate OwnOpen(s: State, t: int, ev: Ev) {
    forall f :: f in L(s.polls, OnTask(t, ev)) ==> f in s.chans.fds && 0 <= s.chans.fds[f].chan < |s.chans.refs|
  }

  lemma OpenStep(s: State, t: int, ev: Ev)
    requires OwnOpen(s, t, ev) && L(s.polls, OnTask(t, ev)) != []
    requires Node(L(s.polls, OnTask(t, ev))[0], ev) in s.polls.at && s.polls.at[Node(L(s.polls, OnTask(t, ev))[0], ev)] == OnTask(t, ev)
    ensures var f := L(s.polls, OnTask(t, ev))[0];
            && f in s.chans.fds && 0 <= s.chans.fds[f].chan < |s.chans.refs| && ChanAt(s.chans, f) == s.chans.fds[f].chan
            && OwnOpen(s.(polls := Linked(Unlinked(s.polls, f, ev), f, OnChannel(ChanAt(s.chans, f), ev))), t, ev)
  {
    var fs := L(s.polls, OnTask(t, ev));
    var f := fs[0];
    assert f in fs;
    assert Without(fs, f) == fs[1..];
  }

  /** Moving a task looks at tasks and queues only. */
  lemma MovedParts(sc: Sched, t: int, status: Status, q: QueueId)
    requires 0 <= t < |sc.procs|
    ensures var m := Moved(Sched(sc.procs, sc.queues, 0, 0, map[]), t, status, q);
            Moved(sc, t, status, q) == sc.(procs := m.procs, queues := m.queues)
  {
  }

  /** Two tasks that may be woken one after the other. */
  ghost predicate Pairable(s: State, snd: int, rcv: int) {
    && Sized(s) && IsTask(s, snd) && IsTask(s, rcv) && snd != rcv
    && 0 <= s.sched.procs[snd].prio < TASK_NPRIO && 0 <= s.sched.procs[rcv].prio < TASK_NPRIO
  }

  /** Both tasks have been woken and the meeting is noted. */
  ghost predicate Paired(s: State, c: int, snd: int, rcv: int, parcel: Parcel, got: int, r: State) {
    && Pairable(s, snd, rcv) && |Woken(s.sched, rcv).procs| == |s.sched.procs|
    && var log := LogOf(s.sched, c);
       r == s.(sched := Woken(Woken(s.sched, rcv), snd).(logs := s.sched.logs[c := log.(met := log.met + [(parcel, rcv)])]),
               outs := s.outs[rcv := s.outs[rcv].(r0 := |parcel.msg|, inbox := parcel.msg, gotFd := got)][snd := s.outs[snd].(r0 := 0)])
  }

  lemma WokenProcs(sc: Sched, t: int)
    requires 0 <= t < |sc.procs|
    ensures var r := Woken(sc, t);
            && r.logs == sc.logs && r.live == sc.live && r.nondaemon == sc.nondaemon && |r.procs| == |sc.procs|
            && forall u :: 0 <= u < |sc.procs| ==> r.procs[u].prio == sc.procs[u].prio
  {
  }

  /** What handle_receive may rely on. */
  ghost predicate Deliverable(s: State, c: int) {
    Mid(s) && 0 <= c < |s.chans.refs|
  }

  ghost predicate Delivered(s: State, c: int, ok: bool, r: State) {
    Sized(s) && Became(Deliver(s, c), ok, r)
  }

  lemma DeliveredNone(s: State, c: int)
    requires Deliverable(s, c) && (Q(s.sched, Receivers(c)) == [] || Q(s.sched, Senders(c)) == [])
    ensures Delivered(s, c, true, s)
  {
    hide SchedOk, ChansOk, KeepOk, PollsOk;
  }

  /** The heads of the queues of c: blocked there, different, and fit to be woken and handed a descriptor. */
  lemma MeetingHeads(s: State, c: int)
    requires Deliverable(s, c)
    ensures Sized(s) && 0 <= c < |s.chans.refs|
    ensures Q(s.sched, Senders(c)) != [] && Q(s.sched, Receivers(c)) != [] ==>
              var snd, rcv := Q(s.sched, Senders(c))[0], Q(s.sched, Receivers(c))[0];
              && IsSender(s.sched, snd) && IsReceiver(s.sched, rcv) && Pairable(s, snd, rcv)
              && NextNumber(s, rcv)
  {
    if Q(s.sched, Senders(c)) != [] && Q(s.sched, Receivers(c)) != [] {
      var snd, rcv := Q(s.sched, Senders(c))[0], Q(s.sched, Receivers(c))[0];
      assert Mid(s);
      HeadsBlocked(s.sched, c);
      HeadPrio(s.sched, Senders(c));
      HeadPrio(s.sched, Receivers(c));
      hide Mid, SchedOk, ChansOk, KeepOk, PollsOk, NextNumber;
      assert snd in Q(s.sched, Senders(c)) && rcv in Q(s.sched, Receivers(c));
      NextNumberOk(s, rcv);
    }
  }

  /** The two panics about the message itself. */
  lemma DeliveredNot(s: State, c: int)
    requires Deliverable(s, c) && Q(s.sched, Receivers(c)) != [] && Q(s.sched, Senders(c)) != []
    requires var snd, rcv := Q(s.sched, Senders(c))[0], Q(s.sched, Receivers(c))[0];
             && IsSender(s.sched, snd) && IsReceiver(s.sched, rcv) && 0 <= rcv < |s.chans.pools|
             && var req := s.sched.procs[snd].req;
                || |req.msg| > s.sched.procs[rcv].req.cap
                || (req.pass.Pass? && !(s.sched.procs[rcv].req.wants && HasNumber(s.chans.pools[rcv])))
    ensures forall r :: Delivered(s, c, false, r)
  {
    hide SchedOk, ChansOk, KeepOk, PollsOk, HasNumber;
  }

  /** Handing over a descriptor and waking the two tasks is meeting. */
  lemma DeliveredPair(s: State, s1: State, r: State, c: int, got: int)
    requires Deliverable(s, c) && Q(s.sched, Receivers(c)) != [] && Q(s.sched, Senders(c)) != []
    requires var snd, rcv := Q(s.sched, Senders(c))[0], Q(s.sched, Receivers(c))[0];
             && IsSender(s.sched, snd) && IsReceiver(s.sched, rcv) && 0 <= rcv < |s.chans.pools| && rcv < |s.outs|
             && var req := s.sched.procs[snd].req;
                && |req.msg| <= s.sched.procs[rcv].req.cap
                && (if req.pass.Pass? then
                      && s.sched.procs[rcv].req.wants && HasNumber(s.chans.pools[rcv])
                      && s1 == s.(chans := Opened(s.chans, rcv, req.pass.chan, req.pass.flags))
                      && got == TakeNumber(s.chans.pools[rcv]).1
                    else s1 == s && got == s.outs[rcv].gotFd)
                && Paired(s1, c, snd, rcv, Parcel(snd, req.msg, req.pass), got, r)
    ensures Delivered(s, c, true, r)
  {
    hide SchedOk, ChansOk, KeepOk, PollsOk, HasNumber, Opened, TakeNumber, Moved;
    var snd, rcv := Q(s.sched, Senders(c))[0], Q(s.sched, Receivers(c))[0];
    WokenProcs(s.sched, rcv);
    WokenProcs(Woken(s.sched, rcv), snd);
  }

  lemma PairableStill(s: State, s1: State, snd: int, rcv: int)
    requires Pairable(s, snd, rcv) && Sized(s1) && s1.sched == s.sched
    ensures Pairable(s1, snd, rcv)
  {
  }

  /** What a system call may rely on: it is made by a running task, between calls. */
  ghost predicate Calling(s: State, t: int) {
    Inv(s) && IsTask(s, t) && s.sched.procs[t].status == Running
  }

  /** What a call did is the step of the kernel; ok is whether it got through without a panic. */
  ghost predicate Reached(s: State, a: Action, ok: bool, r: State) {
    Sized(s) && Enabled(s, a) && Became(Step(s, a), ok, r)
  }

  ghost predicate Stepped(s: State, a: Action, ok: bool, r: State) {
    Reached(s, a, ok, r) && (ok ==> Inv(r))
  }

  lemma CallingSized(s: State, t: int)
    requires Calling(s, t)
    ensures Sized(s) && IsTask(s, t) && s.sched.procs[t].status == Running && Inv(s)
  {
    hide SchedOk, ChansOk, KeepOk, PollsOk, Quiet, Asleep, Rendezvous;
  }

  /** The channel that an open descriptor of the caller names. */
  lemma OpenChannel(s: State, t: int, no: int)
    requires Calling(s, t) && ValidChannel(s, t, no)
    ensures var c := s.chans.fds[Fd(t, no)].chan; 0 <= c < |s.chans.refs| && Holds(s.chans, t, c)
  {
    HoldsOpen(s.chans, Fd(t, no));
    hide SchedOk, PoolsOk, RefsOk, FreeOk, KeepOk, PollsOk, Quiet, Asleep, Rendezvous, Holds;
  }

  /** What the end of send and recv may rely on. */
  ghost predicate Meetable(s: State, c: int, ev: Ev) {
    && Deliverable(s, c)
    && match Deliver(s, c)
       case Panic(_) => true
       case Go(r) => Active(r.sched, c, ev) ==> Triggerable(r, c, ev)
  }

  /** The end of send and recv: messages are handed over, and what is active then is announced. */
  ghost predicate Meeting(s: State, c: int, ev: Ev, ok: bool, r: State) {
    && Sized(s)
    && match Deliver(s, c)
       case Panic(_) => !ok
       case Go(r1) => ok && r == if Active(r1.sched, c, ev) then TriggerAll(r1, c, ev) else r1
  }

  lemma MeetableThen(s: State, c: int, ev: Ev, ok: bool, r1: State)
    requires Meetable(s, c, ev) && Delivered(s, c, ok, r1)
    ensures Deliverable(s, c)
    ensures ok ==> Sized(r1) && (Active(r1.sched, c, ev) ==> Triggerable(r1, c, ev))
    ensures if ok then Meeting(s, c, ev, true, if Active(r1.sched, c, ev) then TriggerAll(r1, c, ev) else r1)
            else forall r :: Meeting(s, c, ev, false, r)
  {
    hide Deliverable, Triggerable, TriggerAll, Deliver, Active;
  }

  lemma MeetableNow(s: State, c: int, ev: Ev)
    requires Meetable(s, c, ev)
    ensures Deliverable(s, c) && 0 <= c < |s.chans.refs|
  {
    hide Mid, Deliver;
  }

  /** The state in which send leaves its caller queued. */
  lemma SendPlan(s: State, t: int, c: int, msg: seq<int>, pass: Pass)
    requires Calling(s, t) && 0 <= c < |s.chans.refs| && Holds(s.chans, t, c) && (pass.Pass? ==> Holds(s.chans, t, pass.chan))
    ensures Sized(s) && Meetable(Offered(s, t, c, msg, pass), c, EvRecv)
  {
    hide SchedOk, ChansOk, KeepOk, PollsOk, Quiet, Asleep, Rendezvous, Holds, Triggering, Offered, Deliver;
    OfferedMid(s, t, c, msg, pass);
    SendQueued(s, t, c, msg, pass);
    OfferedChans(s, t, c, msg, pass);
  }

  lemma OfferedChans(s: State, t: int, c: int, msg: seq<int>, pass: Pass)
    requires Sized(s) && IsTask(s, t)
    ensures Offered(s, t, c, msg, pass).chans == s.chans
  {
  }

  /** A send that was blocked, delivered and triggered is the whole of the call. */
  lemma SendDone(s: State, t: int, no: int, msg: seq<int>, sch: int, flags: int, c: int, pass: Pass, ok: bool, r: State)
    requires Calling(s, t) && Sized(s) && ValidChannel(s, t, no) && c == s.chans.fds[Fd(t, no)].chan
    requires HasFlag(s.chans.fds[Fd(t, no)].flags, CHAN_SEND)
    requires !((HasFlag(s.chans.fds[Fd(t, no)].flags, CHAN_NONBLOCK) || HasFlag(flags, RECV_NONBLOCK)) && Q(s.sched, Receivers(c)) == [])
    requires if sch == NONE then pass == NoPass
             else ValidChannel(s, t, sch) && pass == Pass(s.chans.fds[Fd(t, sch)].chan, s.chans.fds[Fd(t, sch)].flags)
    requires Meeting(Offered(s, t, c, msg, pass), c, EvRecv, ok, r)
    ensures Stepped(s, Action.Send(t, no, msg, sch, flags), ok, r)
  {
    hide Inv, Offered, Deliver, TriggerAll, HasFlag;
    SendOk(s, t, no, msg, sch, flags);
  }

  /** A call that is turned down. */
  lemma SendRefused(s: State, t: int, no: int, msg: seq<int>, sch: int, flags: int, v: int, r: State)
    requires Calling(s, t) && Sized(s) && r == Return(s, t, v)
    requires
      || (!ValidChannel(s, t, no) && v == EBADF)
      || (ValidChannel(s, t, no)
          && var cd := s.chans.fds[Fd(t, no)];
             var nonblock := (HasFlag(cd.flags, CHAN_NONBLOCK) || HasFlag(flags, RECV_NONBLOCK)) && Q(s.sched, Receivers(cd.chan)) == [];
             || (!HasFlag(cd.flags, CHAN_SEND) && v == EBADF)
             || (HasFlag(cd.flags, CHAN_SEND) && nonblock && v == EWOULDBLOCK)
             || (HasFlag(cd.flags, CHAN_SEND) && !nonblock && sch != NONE && !ValidChannel(s, t, sch) && v == EBADF))
    ensures Stepped(s, Action.Send(t, no, msg, sch, flags), true, r)
  {
    hide Inv, Offered, Deliver, TriggerAll, HasFlag;
    SendOk(s, t, no, msg, sch, flags);
  }

  lemma MovedQueue(sc: Sched, t: int, status: Status, q: QueueId)
    requires 0 <= t < |sc.procs|
    ensures var r := Moved(sc, t, status, q); |r.procs| == |sc.procs| && r.procs[t] == sc.procs[t].(status := status, queue := q)
  {
  }

  /** The first tasks waiting on each side of c. */
  ghost predicate Heads(sc: Sched, c: int, snd: int, rcv: int) {
    && Q(sc, Senders(c)) != [] && Q(sc, Receivers(c)) != []
    && snd == Q(sc, Senders(c))[0] && rcv == Q(sc, Receivers(c))[0]
  }

  lemma LinkedCounts(po: Polls, f: Fd, ev: Ev)
    ensures forall l :: Linked(po, f, l).counts == po.counts
  {
  }

  lemma UnlinkedCounts(po: Polls, f: Fd, ev: Ev)
    ensures Unlinked(po, f, ev).counts == po.counts
  {
  }

  lemma PolledSize(s: State, t: int, ev: Ev, r: State)
    requires Polled(s, t, ev, r)
    ensures IsTask(r, t)
  {
    hide KernelState.HandlePoll;
  }

  /** The state in which recv leaves its caller queued. */
  lemma ReceivePlan(s: State, t: int, c: int, cap: nat, wants: bool)
    requires Calling(s, t) && 0 <= c < |s.chans.refs| && Holds(s.chans, t, c)
    ensures Sized(s) && Meetable(Asked(s, t, c, cap, wants), c, EvSend)
  {
    hide SchedOk, ChansOk, KeepOk, PollsOk, Quiet, Asleep, Rendezvous, Holds, Triggering, Asked, Deliver;
    AskedMid(s, t, c, cap, wants);
    ReceiveQueued(s, t, c, cap, wants);
    AskedChans(s, t, c, cap, wants);
  }

  lemma AskedChans(s: State, t: int, c: int, cap: nat, wants: bool)
    requires Sized(s) && IsTask(s, t)
    ensures Asked(s, t, c, cap, wants).chans == s.chans
  {
  }

  /** A receive that was blocked, delivered and triggered is the whole of the call. */
  lemma ReceiveDone(s: State, t: int, no: int, cap: nat, wants: bool, flags: int, c: int, ok: bool, r: State)
    requires Calling(s, t) && Sized(s) && ValidChannel(s, t, no) && c == s.chans.fds[Fd(t, no)].chan
    requires HasFlag(s.chans.fds[Fd(t, no)].flags, CHAN_RECV)
    requires !((HasFlag(s.chans.fds[Fd(t, no)].flags, CHAN_NONBLOCK) || HasFlag(flags, RECV_NONBLOCK)) && Q(s.sched, Senders(c)) == [])
    requires Meeting(Asked(s, t, c, cap, wants), c, EvSend, ok, r)
    ensures Stepped(s, Action.Receive(t, no, cap, wants, flags), ok, r)
  {
    hide Inv, Asked, Deliver, TriggerAll, HasFlag;
    ReceiveOk(s, t, no, cap, wants, flags);
  }

  lemma ReceiveRefused(s: State, t: int, no: int, cap: nat, wants: bool, flags: int, v: int, r: State)
    requires Calling(s, t) && Sized(s) && r == Return(s, t, v)
    requires
      || (!ValidChannel(s, t, no) && v == EBADF)
      || (ValidChannel(s, t, no)
          && var cd := s.chans.fds[Fd(t, no)];
             || (!HasFlag(cd.flags, CHAN_RECV) && v == EBADF)
             || (HasFlag(cd.flags, CHAN_RECV) && v == EWOULDBLOCK && Q(s.sched, Senders(cd.chan)) == []
                 && (HasFlag(cd.flags, CHAN_NONBLOCK) || HasFlag(flags, RECV_NONBLOCK))))
    ensures Stepped(s, Action.Receive(t, no, cap, wants, flags), true, r)
  {
    hide Inv, Asked, Deliver, TriggerAll, HasFlag;
    ReceiveOk(s, t, no, cap, wants, flags);
  }

  /** The state in which poll_wait leaves its caller parked. */
  ghost function Parked(s: State, t: int): State {
    if IsTask(s, t) then s.(sched := Blocked(s.sched, t, PollBlocked, Polling, Nothing)) else s
  }

  lemma ParkedPollable(s: State, t: int)
    requires Calling(s, t)
    ensures Draining(Parked(s, t), t) && Pollable(Parked(s, t), t, EvRecv) && Parked(s, t).sched.procs[t].status == PollBlocked
  {
    assert ProcOk(s.sched.procs[t]);
    ParkedMid(s, t, PollBlocked, Polling, Nothing);
    hide Inv, Blocked, Draining;
    assert Mid(Parked(s, t)) by { DrainingMid(Parked(s, t), t); }
    MidPollable(Parked(s, t), t);
  }

  lemma DrainingMid(s: State, t: int)
    requires Draining(s, t)
    ensures Mid(s)
  {
    hide Mid, Rendezvous, Quiet, AsleepBut;
  }

  /** What handle_poll may rely on holds of a task in any well-formed state. */
  lemma MidPollable(s: State, t: int)
    requires Mid(s) && IsTask(s, t)
    ensures Pollable(s, t, EvRecv) && Pollable(s, t, EvSend)
  {
    OwnQueues(s, t);
    OwnOpens(s, t);
    assert ProcOk(s.sched.procs[t]);
    hide SchedOk, ChansOk, KeepOk, PollsOk, OwnQueue, OwnOpen;
  }

  /** The other queue as poll_wait comes to it. */
  lemma PolledAgain(s: State, t: int, s1: State)
    requires Draining(s, t) && IsTask(s, t) && s.sched.procs[t].status == PollBlocked && Polled(s, t, EvRecv, s1)
    ensures Pollable(s1, t, EvSend)
  {
    hide Draining, KernelState.HandlePoll, Pollable;
    HandlePollOk(s, t, EvRecv);
    DrainingMid(s1, t);
    MidPollable(s1, t);
  }

  /** One or two queues drained is the whole of the call. */
  lemma PollWaitDone(s: State, t: int, r1: State, r: State)
    requires Calling(s, t) && 0 <= t < |s.polls.counts| && s.polls.counts[t] != 0
    requires Polled(Parked(s, t), t, EvRecv, r1) && IsTask(r1, t)
    requires if r1.sched.procs[t].status == Running then r == r1 else Polled(r1, t, EvSend, r)
    ensures Stepped(s, Action.PollWait(t, true), true, r)
  {
    hide Inv, Blocked, KernelState.HandlePoll;
    PollWaitOk(s, t, true);
  }

  lemma OwnOpens(s: State, t: int)
    requires Mid(s)
    ensures OwnOpen(s, t, EvRecv) && OwnOpen(s, t, EvSend)
  {
    hide SchedOk, PoolsOk, RefsOk, FreeOk, KeepOk, PollCountsOk;
    forall ev, f | f in L(s.polls, OnTask(t, ev)) ensures f in s.chans.fds && 0 <= s.chans.fds[f].chan < |s.chans.refs| {
      assert Node(f, ev) in s.polls.at;
    }
  }

  lemma PollWaitRefused(s: State, t: int, presult: bool, r: State)
    requires Calling(s, t) && Sized(s) && (s.polls.counts[t] == 0 || !presult)
    requires r == Return(s, t, if s.polls.counts[t] == 0 then EINVAL else EFAULT)
    ensures Stepped(s, Action.PollWait(t, presult), true, r)
  {
    hide Inv, Blocked, KernelState.HandlePoll;
    PollWaitOk(s, t, presult);
  }

  // ----- Descriptors -----

  /** The channel that is to be taken into use is there, or is the next one, and nothing waits for it. */
  ghost predicate FreshNow(s: State) {
    var (ch, c) := FreshChannel(s.chans);
    && 0 <= c < |ch.refs| && Q(s.sched, Senders(c)) == [] && Q(s.sched, Receivers(c)) == []
    && L(s.polls, OnChannel(c, EvRecv)) == [] && L(s.polls, OnChannel(c, EvSend)) == []
  }

  lemma FreshNowOk(s: State, s1: State)
    requires Mid(s) && s1.sched == s.sched && s1.polls == s.polls && s1.chans == s.chans.(pools := s1.chans.pools)
    ensures FreshNow(s1)
  {
    FreshOk(s.chans);
    UnnamedIsIdle(s, FreshChannel(s.chans).1);
    hide SchedOk, ChansOk, KeepOk, PollsOk;
  }

  /** A channel taken into use. */
  ghost function Taken(s: State): State {
    var (ch, c) := FreshChannel(s.chans);
    s.(chans := ch,
       sched := s.sched.(queues := s.sched.queues[Senders(c) := []][Receivers(c) := []], logs := s.sched.logs[c := Log([], [], [])]),
       polls := s.polls.(lists := s.polls.lists[OnChannel(c, EvRecv) := []][OnChannel(c, EvSend) := []]))
  }

  lemma TakenPolls(s: State)
    ensures Taken(s).polls.at == s.polls.at
  {
  }

  /** Descriptor no of t opened on the channel taken into use. */
  ghost function OpenedNew(s: State, t: int, no: int): State {
    Taken(s).(chans := Installed(Taken(s).chans, Fd(t, no), FreshChannel(s.chans).1, CHAN_RECV + CHAN_SEND))
  }

  lemma CallingMid(s: State, t: int)
    requires Calling(s, t)
    ensures Mid(s)
  {
    hide SchedOk, ChansOk, KeepOk, PollsOk, Rendezvous, Quiet, Asleep;
  }

  /** The state with the next number of t taken. */
  ghost function NumberTaken(s: State, t: int): State {
    if 0 <= t < |s.chans.pools| then s.(chans := s.chans.(pools := s.chans.pools[t := TakeNumber(s.chans.pools[t]).0])) else s
  }

  /** A number taken and a channel opened under it is the whole of the call. */
  lemma ChannelDone(s: State, t: int, no: int, r1: State, r: State)
    requires Calling(s, t) && Sized(s) && HasNumber(s.chans.pools[t]) && no == TakeNumber(s.chans.pools[t]).1
    requires r1 == OpenedNew(NumberTaken(s, t), t, no) && Sized(r1) && IsTask(r1, t) && r == Return(r1, t, no)
    ensures Stepped(s, Action.Channel(t), true, r)
  {
    ChannelOk(s, t);
    hide Inv;
  }

  lemma ChannelNot(s: State, t: int, r: State)
    requires Calling(s, t) && Sized(s) && !HasNumber(s.chans.pools[t])
    requires var s1 := NumberTaken(s, t); Sized(s1) && r == Return(s1, t, EMFILE)
    ensures Stepped(s, Action.Channel(t), true, r)
  {
    ChannelOk(s, t);
    hide Inv;
    SameNumber(s.chans.pools, t);
  }

  lemma SameNumber(pools: seq<Pool>, t: int)
    requires 0 <= t < |pools| && !HasNumber(pools[t])
    ensures pools[t := TakeNumber(pools[t]).0] == pools
  {
  }

  /** What a task that closes a descriptor of its own may rely on, however the tasks are counted. */
  ghost predicate Closable(s: State, f: Fd) {
    Calling(Counted(s), f.task) && f in s.chans.fds
  }

  /** The state with its tasks counted anew. */
  ghost function Counted(s: State): State {
    s.(sched := s.sched.(live := |Live(s.sched)|, nondaemon := |LiveUser(s.sched)|))
  }

  lemma CountedCalling(s: State, t: int)
    requires Calling(s, t)
    ensures Counted(s) == s
  {
    assert CountsOk(s.sched);
    hide Inv;
  }

  /** close without its panics. */
  lemma ClosePlan(s: State, f: Fd)
    requires Closable(s, f)
    ensures Sized(s) && IsTask(s, f.task) && |s.chans.pools| == |s.sched.procs|
    ensures 0 <= f.no < s.chans.pools[f.task].next && f.no !in s.chans.pools[f.task].free
    ensures var c := ChanAt(s.chans, f);
            var po := Unlinked(Unlinked(s.polls, f, EvRecv), f, EvSend);
            && 0 <= c < |s.chans.refs| && KernelState.Close(s, f) == Go(s.(chans := Dropped(s.chans, f), polls := po))
            && (RefOf(Dropped(s.chans, f), c) == 0 ==>
                  && Q(s.sched, Receivers(c)) == [] && Q(s.sched, Senders(c)) == []
                  && L(po, OnChannel(c, EvRecv)) == [] && L(po, OnChannel(c, EvSend)) == [])
  {
    CallingSized(Counted(s), f.task);
    assert PoolOk(s.chans, f.task);
    hide Inv, Unlinked, Dropped, PoolOk;
    CloseOk(Counted(s), f);
  }

  /** The descriptor is closed, and the next may be. */
  ghost predicate Closed(s: State, f: Fd, r: State) {
    && Sized(s) && IsTask(s, f.task) && KernelState.Close(s, f) == Go(r)
    && Calling(Counted(r), f.task) && r.sched == s.sched && r.outs == s.outs
  }

  lemma ClosedCalling(s: State, f: Fd, r: State)
    requires Closable(s, f) && Sized(s) && IsTask(s, f.task) && KernelState.Close(s, f) == Go(r)
    ensures Closed(s, f, r)
  {
    CallingSized(Counted(s), f.task);
    CloseOk(Counted(s), f);
    ClosedParts(s, f);
    hide Inv, KernelState.Close;
  }

  lemma ClosedParts(s: State, f: Fd)
    requires Sized(s) && IsTask(s, f.task)
    ensures match KernelState.Close(s, f)
            case Go(r) => r.sched == s.sched && r.outs == s.outs && KernelState.Close(Counted(s), f) == Go(Counted(r))
            case Panic(_) => KernelState.Close(Counted(s), f).Panic?
  {
    hide Unlinked, Dropped, Live, LiveUser;
  }

  /** close gets through to a state with the invariant. */
  lemma CloseDone(s: State, t: int, no: int, r1: State, r: State)
    requires Calling(s, t) && ValidChannel(s, t, no) && Closed(s, Fd(t, no), r1)
    requires Sized(r1) && IsTask(r1, t) && r == Return(r1, t, 0)
    ensures Stepped(s, Action.CloseFd(t, no), true, r)
  {
    hide Inv, KernelState.Close;
    SysCloseOk(s, t, no);
  }

  lemma CloseNot(s: State, t: int, no: int, r: State)
    requires Calling(s, t) && Sized(s) && !ValidChannel(s, t, no) && r == Return(s, t, EBADF)
    ensures Stepped(s, Action.CloseFd(t, no), true, r)
  {
    hide Inv, KernelState.Close;
    SysCloseOk(s, t, no);
  }

  lemma OwnClosable(s: State, t: int, no: int)
    requires Calling(s, t) && ValidChannel(s, t, no)
    ensures Closable(s, Fd(t, no))
  {
    hide Inv, Live, LiveUser;
    CountedCalling(s, t);
  }

  /** What is not open is on no list. */
  lemma UnlistedNodes(s: State, f: Fd)
    requires Mid(s) && f !in s.chans.fds
    ensures Node(f, EvRecv) !in s.polls.at && Node(f, EvSend) !in s.polls.at
  {
    hide SchedOk, ChansOk, KeepOk, PollCountsOk, ListsOk;
  }

  /** The copying half of dup has put `from` at f. */
  ghost predicate Dupped(s: State, from: Fd, f: Fd, r: State) {
    Sized(s) && IsTask(s, f.task) && DupOnto(s, from, f) == Go(r)
  }

  lemma DuppedOnto(s: State, from: Fd, f: Fd, r1: State, r2: State, r: State)
    requires Sized(s) && IsTask(s, f.task) && from in s.chans.fds && from != f && (if f in s.chans.fds then Closed(s, f, r1) else r1 == s)
    requires from in r1.chans.fds && r2 == r1.(chans := Installed(r1.chans, f, r1.chans.fds[from].chan, r1.chans.fds[from].flags))
    requires Sized(r2) && IsTask(r2, f.task) && r == Return(r2, f.task, f.no)
    ensures Dupped(s, from, f, r)
  {
    hide KernelState.Close, Calling, Installed;
  }

  lemma ClosedOthers(s: State, f: Fd, r: State)
    requires Closed(s, f, r)
    ensures forall g :: g != f && g in s.chans.fds ==> g in r.chans.fds
  {
    hide Calling, Unlinked;
  }

  /** The number of f handed back, and the channel too when it was its last reference. */
  ghost function Released(ch: Chans, f: Fd, c: int): Chans {
    if 0 <= f.task < |ch.pools| then
      var ch1 := AddRef(ch.(pools := ch.pools[f.task := ch.pools[f.task].(free := [f.no] + ch.pools[f.task].free)]), c, -1);
      if RefOf(ch1, c) == 0 then ch1.(freeChans := [c] + ch1.freeChans) else ch1
    else ch
  }

  lemma ReleasedIs(ch: Chans, f: Fd)
    requires 0 <= f.task < |ch.pools|
    ensures Dropped(ch, f) == Released(ch.(fds := ch.fds - {f}), f, ChanAt(ch, f))
  {
  }

  lemma UnlinkedStays(po: Polls, f: Fd, ev: Ev, ev': Ev)
    requires Node(f, ev) !in po.at
    ensures Node(f, ev) !in Unlinked(po, f, ev').at
  {
  }

  lemma RefIs(ch: Chans, c: int)
    requires 0 <= c < |ch.refs|
    ensures RefOf(ch, c) == ch.refs[c]
  {
  }

  lemma ClosedSized(s: State, f: Fd, r: State)
    requires Closed(s, f, r)
    ensures Sized(r) && IsTask(r, f.task)
  {
    hide Calling, KernelState.Close;
  }

  ghost predicate DuppedLowest(s: State, t: int, from: Fd, r: State) {
    && 0 <= t < |s.chans.pools|
    && var (p, no) := TakeNumber(s.chans.pools[t]);
       if HasNumber(s.chans.pools[t]) then Dupped(NumberTaken(s, t), from, Fd(t, no), r)
       else Sized(NumberTaken(s, t)) && IsTask(s, t) && r == Return(NumberTaken(s, t), t, EMFILE)
  }

  lemma NumberTakenIs(s: State, t: int)
    requires Sized(s) && IsTask(s, t)
    ensures var s1 := NumberTaken(s, t);
            Sized(s1) && s1 == s.(chans := s.chans.(pools := s.chans.pools[t := TakeNumber(s.chans.pools[t]).0]))
  {
  }

  lemma DupLowestDone(s: State, t: int, oldfd: int, flags: int, r: State)
    requires Calling(s, t) && ValidChannel(s, t, oldfd) && DuppedLowest(s, t, Fd(t, oldfd), r)
    ensures Reached(s, Action.Dup(t, oldfd, NONE, flags), true, r)
  {
    hide Inv, DupOnto;
    CallingSized(s, t);
    if !HasNumber(s.chans.pools[t]) { SameNumber(s.chans.pools, t); }
  }

  lemma DupExplicitDone(s: State, t: int, oldfd: int, newfd: int, flags: int, r: State)
    requires Calling(s, t) && ValidChannel(s, t, oldfd) && newfd != oldfd && 0 <= newfd < MAX_TASK_CHANNELS
    requires Dupped(s, Fd(t, oldfd), Fd(t, newfd), r)
    ensures Reached(s, Action.Dup(t, oldfd, newfd, flags), true, r)
  {
    hide Inv, DupOnto;
  }

  lemma DupSame(s: State, t: int, oldfd: int, flags: int, r: State)
    requires Calling(s, t) && Sized(s) && ValidChannel(s, t, oldfd)
    requires var f := Fd(t, oldfd);
             r == Return(s.(chans := s.chans.(fds := s.chans.fds[f := s.chans.fds[f].(flags := flags)])), t, oldfd)
    ensures Reached(s, Action.Dup(t, oldfd, oldfd, flags), true, r)
  {
    hide Inv, DupOnto;
  }

  lemma DupNot(s: State, t: int, oldfd: int, newfd: int, flags: int, r: State)
    requires Calling(s, t) && Sized(s) && r == Return(s, t, EBADF)
    requires !ValidChannel(s, t, oldfd) || (newfd != oldfd && newfd != NONE && !(0 <= newfd < MAX_TASK_CHANNELS))
    ensures Reached(s, Action.Dup(t, oldfd, newfd, flags), true, r)
  {
    hide Inv, DupOnto;
  }

  lemma DupInv(s: State, t: int, oldfd: int, newfd: int, flags: int, r: State)
    requires Calling(s, t) && Reached(s, Action.Dup(t, oldfd, newfd, flags), true, r)
    ensures Inv(r) <==> DupSafe(oldfd, newfd) || !ValidChannel(s, t, oldfd)
  {
    hide Inv, SysDup;
    DupOk(s, t, oldfd, newfd, flags);
  }

  // ----- Exit -----

  /** The descriptors of t below n are closed. */
  ghost predicate ClosedBelow(s: State, t: int, n: nat, r: State) {
    Sized(s) && IsTask(s, t) && CloseBelow(s, t, n) == Go(r) && Sized(r) && r.sched == s.sched && r.outs == s.outs
  }

  lemma ClosedBelowNone(s: State, t: int)
    requires Calling(Counted(s), t)
    ensures ClosedBelow(s, t, 0, s)
  {
    CallingSized(Counted(s), t);
    hide Inv;
  }

  lemma ClosedBelowStep(s0: State, t: int, i: nat, s: State, r: State)
    requires ClosedBelow(s0, t, i, s)
    requires if Fd(t, i) in s.chans.fds then Closed(s, Fd(t, i), r) else r == s
    ensures ClosedBelow(s0, t, i + 1, r)
  {
    hide KernelState.Close, Calling;
    ClosedBelowMore(s0, t, i);
  }

  lemma ClosedBelowMore(s: State, t: int, i: nat)
    requires Sized(s) && IsTask(s, t)
    ensures CloseBelow(s, t, i + 1) ==
            match CloseBelow(s, t, i)
            case Panic(fault) => Panic(fault)
            case Go(s1) => if Fd(t, i) in s1.chans.fds then KernelState.Close(s1, Fd(t, i)) else Go(s1)
  {
    hide KernelState.Close;
  }

  lemma ClosedBelowSched(s: State, t: int, r: State)
    requires ClosedBelow(s, t, MAX_TASK_CHANNELS, r)
    ensures Sized(r) && IsTask(r, t)
  {
    hide CloseBelow;
  }

  lemma OpenClosable(s: State, f: Fd)
    requires Calling(Counted(s), f.task) && f in s.chans.fds
    ensures Closable(s, f)
  {
    hide Calling;
  }

  lemma ClosedCounted(s: State, f: Fd, r: State)
    requires Closed(s, f, r)
    ensures Calling(Counted(r), f.task)
  {
    hide Calling;
  }

  /** The state with the counters that exit leaves. */
  ghost function Uncounted(s: State, t: int): State {
    if IsTask(s, t) then
      s.(sched := s.sched.(live := s.sched.live - 1,
                           nondaemon := if s.sched.procs[t].daemon then s.sched.nondaemon else s.sched.nondaemon - 1))
    else s
  }

  /** Counted anew, the tasks are as they were before exit lowered its counters. */
  lemma ExitCounted(s: State, t: int)
    requires Calling(s, t)
    ensures IsTask(s, t) && Calling(Counted(Uncounted(s, t)), t)
  {
    CountedCalling(s, t);
    hide Inv;
    assert Counted(Uncounted(s, t)) == Counted(s);
  }

  /** A task that has gone to the free queue. */
  ghost function Buried(s: State, t: int): State {
    if Sized(s) && IsTask(s, t) then
      s.(sched := Moved(s.sched, t, Dead, Free), outs := s.outs[t := s.outs[t].(r0 := 0)])
    else s
  }

  lemma ExitDone(s: State, t: int, s1: State, r: State)
    requires Calling(s, t) && ClosedBelow(Uncounted(s, t), t, MAX_TASK_CHANNELS, s1) && r == Buried(s1, t)
    ensures Stepped(s, Action.Exit(t), true, r)
  {
    CallingSized(s, t);
    ExitOk(s, t);
    hide Inv, CloseBelow, Moved;
  }

  // ----- Spawn -----

  ghost function Filled(s: State, parent: int, t: int, prio: int, daemon: bool): State {
    if IsTask(s, t) && (parent == NONE || IsTask(s, parent)) then
      var proc := s.sched.procs[t].(parent := if parent == NONE then 0 else Tid(s, parent), prio := prio, daemon := daemon);
      s.(sched := s.sched.(live := s.sched.live + 1, nondaemon := if daemon then s.sched.nondaemon else s.sched.nondaemon + 1,
                           procs := s.sched.procs[t := proc]))
    else s
  }

  ghost function TaskCleared(s: State, t: int, n: int): State {
    if Sized(s) && IsTask(s, t) then
      s.(chans := s.chans.(pools := s.chans.pools[t := Pool([], n)]),
         polls := s.polls.(lists := s.polls.lists[OnTask(t, EvRecv) := []][OnTask(t, EvSend) := []],
                           counts := s.polls.counts[t := 0]))
    else s
  }

  lemma ClearedLists(lists: map<ListId, seq<Fd>>, l: ListId, l': ListId)
    requires Listed(lists, l') == []
    ensures Listed(lists[l := []], l') == []
  {
  }

  lemma InheritedNone(ch: Chans, parent: int, child: int, nos: seq<int>)
    ensures Inherited(ch, parent, child, nos, 0) == ch
  {
  }

  lemma InheritedMore(ch: Chans, parent: int, child: int, nos: seq<int>, i: nat)
    requires i < |nos| && Fd(parent, nos[i]) in ch.fds
    ensures var cd := ch.fds[Fd(parent, nos[i])];
            Inherited(ch, parent, child, nos, i + 1) == Installed(Inherited(ch, parent, child, nos, i), Fd(child, i), cd.chan, cd.flags)
  {
  }

  /** A task that may be filled in. */
  ghost predicate Startable(s: State, parent: int, t: int, prio: int, nos: seq<int>) {
    && Inv(s) && Vacant(s, t) && (parent == NONE || IsTask(s, parent)) && parent != t
    && 0 <= prio < TASK_NPRIO && |nos| <= MAX_TASK_CHANNELS
    && forall i :: 0 <= i < |nos| ==> Fd(parent, nos[i]) in s.chans.fds
  }

  ghost predicate IsStarted(s: State, parent: int, t: int, prio: int, daemon: bool, nos: seq<int>, r: State) {
    Sized(s) && IsTask(s, t) && (parent == NONE || IsTask(s, parent)) && r == Started(s, parent, t, prio, daemon, nos)
  }

  lemma StartableParts(s: State, parent: int, t: int, prio: int, daemon: bool, nos: seq<int>)
    requires Startable(s, parent, t, prio, nos)
    ensures Sized(s) && IsTask(s, t) && (parent == NONE || IsTask(s, parent)) && parent != t && |nos| <= MAX_TASK_CHANNELS
    ensures forall i :: 0 <= i < |nos| ==> Fd(parent, nos[i]) in s.chans.fds
    ensures forall i :: Node(Fd(t, i), EvRecv) !in s.polls.at && Node(Fd(t, i), EvSend) !in s.polls.at
    ensures L(s.polls, OnTask(t, EvRecv)) == [] && L(s.polls, OnTask(t, EvSend)) == []
    ensures var s1 := Filled(s, parent, t, prio, daemon);
            && Sized(s1) && IsTask(s1, t) && s1.polls == s.polls && s1.chans == s.chans
            && var s2 := TaskCleared(s1, t, |nos|); s2.polls.at == s.polls.at && s2.chans.fds == s.chans.fds && s2.sched == s1.sched
  {
    hide SchedOk, ChansOk, KeepOk, ListsOk, PollCountsOk, Rendezvous, Quiet, Asleep;
    assert IsTask(s, t);
  }

  lemma StartableStill(s: State, parent: int, t: int, prio: int, daemon: bool, nos: seq<int>)
    requires Startable(s, parent, t, prio, nos)
    ensures var s1 := Filled(s, parent, t, prio, daemon);
            IsTask(s1, t) && 0 <= s1.sched.procs[t].prio < TASK_NPRIO
  {
    hide Inv;
  }

  /** The parts of a started task put together. */
  lemma StartedParts(s: State, s3: State, parent: int, t: int, prio: int, daemon: bool, nos: seq<int>, r: State)
    requires Startable(s, parent, t, prio, nos)
    requires var s2 := TaskCleared(Filled(s, parent, t, prio, daemon), t, |nos|);
             s3 == s2.(chans := Inherited(s2.chans, parent, t, nos, |nos|))
    requires IsTask(s3, t) && r == s3.(sched := Woken(s3.sched, t))
    ensures IsStarted(s, parent, t, prio, daemon, nos, r)
  {
    hide Inv, Inherited, Moved;
    StartableParts(s, parent, t, prio, daemon, nos);
  }

  lemma IsStartedSize(s: State, parent: int, t: int, prio: int, daemon: bool, nos: seq<int>, r: State)
    requires IsStarted(s, parent, t, prio, daemon, nos, r)
    ensures Sized(r) && |r.sched.procs| == |s.sched.procs|
  {
    hide Started;
  }

  /** spawn is called by a running task, or at boot. */
  ghost predicate Spawning(s: State, parent: int) {
    Inv(s) && (parent == NONE || (IsTask(s, parent) && s.sched.procs[parent].status == Running))
  }

  lemma SpawningSized(s: State, parent: int)
    requires Spawning(s, parent)
    ensures Sized(s) && Inv(s) && (parent == NONE || IsTask(s, parent))
  {
    hide SchedOk, ChansOk, KeepOk, PollsOk, Rendezvous, Quiet, Asleep;
  }

  /** What spawn does with arguments that are in order. */
  ghost predicate Spawned(s: State, parent: int, prio: int, nos: seq<int>, flags: int, memory: bool, r: State) {
    && Sized(s) && (parent == NONE || IsTask(s, parent))
    && var (s1, t) := AllocTask(s, memory);
       if t == NONE then r == ReturnTo(s, parent, ENOMEM)
       else
         && (parent == NONE || IsTask(s1, parent))
         && r == ReturnTo(Started(s1, parent, t, prio, flags == SPAWN_DAEMON, nos), parent, Tid(s1, t))
  }

  lemma SpawnedNone(s: State, parent: int, prio: int, nos: seq<int>, flags: int, memory: bool)
    requires Spawning(s, parent) && Sized(s) && AllocTask(s, memory).1 == NONE
    ensures AllocTask(s, memory).0 == s && (parent == NONE || IsTask(s, parent))
    ensures Spawned(s, parent, prio, nos, flags, memory, ReturnTo(s, parent, ENOMEM))
  {
    hide Inv, Vacant, AllocTask, Started;
    AllocTaskOk(s, memory);
  }

  /** The task that is allocated may be filled in. */
  lemma StartableOk(s: State, parent: int, prio: int, nos: seq<int>, flags: int, memory: bool)
    requires Spawning(s, parent) && Sized(s) && SpawnArgs(s, parent, prio, nos, |nos|, flags) && AllocTask(s, memory).1 != NONE
    ensures var (s1, t) := AllocTask(s, memory);
            Startable(s1, parent, t, prio, nos) && Sized(s1) && IsTask(s1, t) && (parent == NONE || IsTask(s1, parent))
  {
    hide Inv, Vacant, AllocTask;
    AllocTaskOk(s, memory);
  }

  lemma SpawnedDone(s: State, parent: int, prio: int, nos: seq<int>, flags: int, memory: bool, r1: State, r: State)
    requires Spawning(s, parent) && Sized(s) && AllocTask(s, memory).1 != NONE
    requires var (s1, t) := AllocTask(s, memory);
             && IsTask(s1, t) && IsStarted(s1, parent, t, prio, flags == SPAWN_DAEMON, nos, r1)
             && Sized(r1) && (parent == NONE || IsTask(r1, parent)) && r == ReturnTo(r1, parent, Tid(s1, t))
    ensures Spawned(s, parent, prio, nos, flags, memory, r)
  {
    hide Inv, AllocTask, Started;
  }

  /** A call of spawn got through to the state that the specification gives, with the invariant. */
  ghost predicate SpawnStepped(s: State, parent: int, prio: int, nos: seq<int>, len: int, flags: int, memory: bool, r: State) {
    && Sized(s) && (parent == NONE || IsTask(s, parent)) && len <= |nos|
    && SysSpawn(s, parent, prio, nos, len, flags, memory) == Go(r) && Inv(r)
  }

  lemma SpawnRefused(s: State, parent: int, prio: int, nos: seq<int>, len: int, flags: int, memory: bool, r: State)
    requires Spawning(s, parent) && Sized(s) && len <= |nos| && !SpawnArgs(s, parent, prio, nos, len, flags)
    requires (parent == NONE || IsTask(s, parent))
    requires var bad := (flags != 0 && flags != SPAWN_DAEMON) || prio < 0 || prio >= TASK_NPRIO || len < 0 || len > MAX_TASK_CHANNELS;
             r == ReturnTo(s, parent, if bad then EINVAL else EBADF)
    ensures SpawnStepped(s, parent, prio, nos, len, flags, memory, r)
  {
    hide Inv, AllocTask, Started, ReturnTo, ValidChannel;
    SpawnOk(s, parent, prio, nos, len, flags, memory);
  }

  lemma SpawnDone(s: State, parent: int, prio: int, nos: seq<int>, len: int, flags: int, memory: bool, r: State)
    requires Spawning(s, parent) && len <= |nos| && SpawnArgs(s, parent, prio, nos, len, flags)
    requires Spawned(s, parent, prio, nos[..len], flags, memory, r)
    ensures SpawnStepped(s, parent, prio, nos, len, flags, memory, r)
  {
    hide Inv, AllocTask, Started, ReturnTo, ValidChannel;
    SpawningSized(s, parent);
    SpawnOk(s, parent, prio, nos, len, flags, memory);
  }

  // ----- Runs -----

  /** What happened is the step of the specification, and keeps the invariant where that step does. */
  ghost predicate Performed(s: State, a: Action, ok: bool, r: State) {
    Reached(s, a, ok, r) && (ok && Safe(s, a) ==> Inv(r))
  }

  lemma InvSized(s: State)
    requires Inv(s)
    ensures Sized(s)
  {
    hide SchedOk, ChansOk, KeepOk, PollsOk, Rendezvous, Quiet, Asleep;
  }

  lemma CallerOk(s: State, a: Action)
    requires Inv(s) && Enabled(s, a) && !a.Unblock? && !a.Schedule?
    ensures Calling(s, a.t) && (a.Spawn? ==> Spawning(s, a.t) && a.len <= |a.nos|)
  {
    hide Inv;
  }

  lemma StepPerformed(s: State, a: Action, ok: bool, r: State)
    requires Stepped(s, a, ok, r)
    ensures Performed(s, a, ok, r)
  {
    hide Inv, Reached;
  }

  lemma OtherStepped(s: State, t: int, v: int, r: State)
    requires Calling(s, t) && Sized(s) && IsTask(s, t) && r == Return(s, t, v)
    ensures Stepped(s, Other(t, v), true, r)
  {
    hide Inv;
    ReturnOk(s, t, v);
  }

  lemma SpawnPerformed(s: State, t: int, prio: int, nos: seq<int>, len: int, flags: int, memory: bool, r: State)
    requires Calling(s, t) && SpawnStepped(s, t, prio, nos, len, flags, memory, r)
    ensures Performed(s, Spawn(t, prio, nos, len, flags, memory), true, r)
  {
    hide Inv, SysSpawn;
  }

  lemma DupPerformed(s: State, a: Action, r: State)
    requires a.Dup? && Reached(s, a, true, r)
    requires Inv(r) <==> DupSafe(a.oldfd, a.newfd) || !ValidChannel(s, a.t, a.oldfd)
    ensures Performed(s, a, true, r)
  {
    hide Inv, Reached;
  }

  lemma InterruptPerformed(s: State, event: int, v: int, r: State)
    requires Inv(s) && Sized(s) && r == Interrupt(s, event, v)
    ensures Performed(s, Unblock(event, v), true, r)
  {
    hide Inv, Interrupt;
    InterruptOk(s, event, v);
  }

  lemma SchedulePerformed(s: State, ok: bool, r: State)
    requires Inv(s) && Sized(s)
    requires match Scheduled(s)
             case Go(x) => ok && r == x
             case Panic(_) => !ok
    ensures Performed(s, Schedule, ok, r)
  {
    hide Inv, Scheduled;
    ScheduledOk(s);
  }

  lemma NextOfRun(s: State, acts: seq<Action>, r: State)
    requires Sized(s) && IsRun(s, acts, r) && acts != []
    ensures Enabled(s, acts[0])
  {
    hide Step;
  }

  lemma PerformedRun(s: State, acts: seq<Action>, r: State, ok: bool, s1: State)
    requires Sized(s) && IsRun(s, acts, r) && acts != [] && Performed(s, acts[0], ok, s1)
    ensures Sized(s1) && Inv(s1) && IsRun(s1, acts[1..], r)
  {
    hide Inv, Step;
  }

  lemma EndOfRun(s: State, acts: seq<Action>, r: State)
    requires Sized(s) && IsRun(s, acts, r) && acts == []
    ensures s == r
  {
  }

  lemma InitialOk()
    ensures Inv(INIT) && Spawning(INIT, NONE)
  {
    assert Live(INIT.sched) == {} && LiveUser(INIT.sched) == {};
  }

  ghost function FirstTask(): Outcome {
    SysSpawn(INIT, NONE, 7, [], 0, SPAWN_DAEMON, true)
  }

  lemma FirstSpawned(s1: State)
    requires SpawnStepped(INIT, NONE, 7, [], 0, SPAWN_DAEMON, true, s1)
    ensures FirstTask() == Go(s1) && Spawning(s1, NONE)
  {
    hide Inv, SysSpawn;
  }

  lemma BothSpawned(s2: State)
    requires FirstTask().Go? && SpawnStepped(FirstTask().s, NONE, 6, [], 0, 0, true, s2)
    ensures s2 == Booted() && Inv(s2)
  {
    hide Inv, SysSpawn;
  }

  // ----- The loops, one turn at a time -----



  lemma InstalledFds(ch: Chans, f: Fd, c: int, flags: int)
    ensures Installed(ch, f, c, flags).fds == ch.fds[f := Cd(c, flags)]
  {
  }

  lemma OwnQueues(s: State, t: int)
    requires Mid(s) && IsTask(s, t)
    ensures OwnQueue(s.polls, t, EvRecv) && OwnQueue(s.polls, t, EvSend)
  {
    hide SchedOk, ChansOk, KeepOk, PollCountsOk;
    forall ev ensures OwnQueue(s.polls, t, ev) {
      assert NoDup(L(s.polls, OnTask(t, ev)));
      forall f | f in L(s.polls, OnTask(t, ev)) ensures f.task == t && Node(f, ev) in s.polls.at && s.polls.at[Node(f, ev)] == OnTask(t, ev) {
        assert Node(f, ev) in s.polls.at;
      }
    }
  }

  /** What a call did is what the specification says: it got through to that state, or it panicked. */
  ghost predicate Became(out: Outcome, ok: bool, s: State) {
    match out
    case Go(r) => ok && s == r
    case Panic(_) => !ok
  }

  /** One turn of poll_trigger_all: the head goes to its task's queue, and if that task sleeps in
      poll_wait, handle_poll reports the head to it. */
  lemma TriggerStep(s: State, c: int, ev: Ev)
    requires Sized(s) && Triggering(s, c, ev) && L(s.polls, OnChannel(c, ev)) != []
    ensures var f := L(s.polls, OnChannel(c, ev))[0];
            var s1 := s.(polls := Linked(Unlinked(s.polls, f, ev), f, OnTask(f.task, ev)));
            var r := TriggerOne(s, f, ev);
            && IsTask(s, f.task) && Triggering(r, c, ev) && TriggerAll(r, c, ev) == TriggerAll(s, c, ev)
            && L(r.polls, OnChannel(c, ev)) == L(s.polls, OnChannel(c, ev))[1..]
            && (if s.sched.procs[f.task].status == PollBlocked then
                  OwnQueue(s1.polls, f.task, ev) && KernelState.HandlePoll(s1, f.task, ev) == Go(r)
                else s1 == r)
  {
    hide Mid, Rendezvous, QuietBut, Asleep, Linked, Unlinked, Moved, TriggerAll, KernelState.HandlePoll, OwnQueue;
    HeadOfList(s, OnChannel(c, ev));
    TriggerOneOk(s, c, ev);
    TriggerAllStep(s, c, ev);
    var f := L(s.polls, OnChannel(c, ev))[0];
    if s.sched.procs[f.task].status == PollBlocked {
      FirstTriggered(s, s.(polls := Linked(Unlinked(s.polls, f, ev), f, OnTask(f.task, ev))), f, c, ev);
    }
  }

  lemma WokenStatus(sc: Sched, t: int)
    requires 0 <= t < |sc.procs|
    ensures Woken(sc, t).procs[t].status == Running && |Woken(sc, t).procs| == |sc.procs|
  {
  }

  lemma TriggerAllStep(s: State, c: int, ev: Ev)
    requires Sized(s) && L(s.polls, OnChannel(c, ev)) != []
    requires var r := TriggerOne(s, L(s.polls, OnChannel(c, ev))[0], ev);
             L(r.polls, OnChannel(c, ev)) == L(s.polls, OnChannel(c, ev))[1..] && SameChannelQueues(s.sched, r.sched)
    ensures var r := TriggerOne(s, L(s.polls, OnChannel(c, ev))[0], ev);
            TriggerAll(r, c, ev) == TriggerAll(s, c, ev) && (Active(r.sched, c, ev) <==> Active(s.sched, c, ev))
  {
  }

  lemma TriggerAllEnd(s: State, c: int, ev: Ev)
    requires Sized(s) && L(s.polls, OnChannel(c, ev)) == []
    ensures TriggerAll(s, c, ev) == s
  {
  }

  /** Descriptors queued on t are linked there and belong to t. */
  ghost predicate OwnQueue(po: Polls, t: int, ev: Ev) {
    var l := OnTask(t, ev);
    && NoDup(L(po, l))
    && forall f :: f in L(po, l) ==> f.task == t && Node(f, ev) in po.at && po.at[Node(f, ev)] == l
  }

  lemma OwnHead(po: Polls, t: int, ev: Ev)
    requires OwnQueue(po, t, ev) && L(po, OnTask(t, ev)) != []
    ensures var f := L(po, OnTask(t, ev))[0]; f.task == t && Node(f, ev) in po.at && po.at[Node(f, ev)] == OnTask(t, ev)
  {
    assert L(po, OnTask(t, ev))[0] in L(po, OnTask(t, ev));
  }

  /** One turn of handle_poll. */
  lemma PollStep(s: State, t: int, ev: Ev)
    requires Sized(s) && IsTask(s, t) && OwnQueue(s.polls, t, ev) && L(s.polls, OnTask(t, ev)) != []
    ensures L(s.polls, OnTask(t, ev))[0].task == t
    ensures var f := L(s.polls, OnTask(t, ev))[0];
            var c := ChanAt(s.chans, f);
            if Active(s.sched, c, ev) then
              KernelState.HandlePoll(s, t, ev) ==
                Go(Reported(s.(polls := Linked(Unlinked(s.polls, f, ev), f, OnTask(t, ev))), f, ev))
            else
              var r := s.(polls := Linked(Unlinked(s.polls, f, ev), f, OnChannel(c, ev)));
              && KernelState.HandlePoll(s, t, ev) == KernelState.HandlePoll(r, t, ev)
              && OwnQueue(r.polls, t, ev) && L(r.polls, OnTask(t, ev)) == L(s.polls, OnTask(t, ev))[1..]
  {
    var fs := L(s.polls, OnTask(t, ev));
    var f := fs[0];
    OwnHead(s.polls, t, ev);
    var c := ChanAt(s.chans, f);
    if !Active(s.sched, c, ev) {
      RelinkedShape(s.polls, f, ev, OnChannel(c, ev));
      assert Without(fs, f) == fs[1..];
      var r := Linked(Unlinked(s.polls, f, ev), f, OnChannel(c, ev));
      forall g | g in L(r, OnTask(t, ev)) ensures g.task == t && Node(g, ev) in r.at && r.at[Node(g, ev)] == OnTask(t, ev) {
        assert g in fs && g != f;
      }
    }
  }

  /** The first descriptor triggered for a sleeping task: handle_poll finds it active and reports it. */
  lemma FirstTriggered(s: State, s1: State, f: Fd, c: int, ev: Ev)
    requires Mid(s) && Asleep(s.sched, s.polls) && Active(s.sched, c, ev)
    requires L(s.polls, OnChannel(c, ev)) != [] && f == L(s.polls, OnChannel(c, ev))[0]
    requires IsTask(s, f.task) && s.sched.procs[f.task].status == PollBlocked
    requires s1 == s.(polls := Linked(Unlinked(s.polls, f, ev), f, OnTask(f.task, ev)))
    ensures OwnQueue(s1.polls, f.task, ev) && Sized(s1)
    ensures KernelState.HandlePoll(s1, f.task, ev) == Go(TriggerOne(s, f, ev))
  {
    HeadOfList(s, OnChannel(c, ev));
    var l := OnTask(f.task, ev);
    assert L(s.polls, l) == [];
    hide Mid, Asleep;
    RelinkedShape(s.polls, f, ev, l);
    assert L(s1.polls, l) == [f];
    PollStep(s1, f.task, ev);
    RotatedAlone(s1.polls, f, l);
  }

  /** Moving the only node of a list to its end changes nothing. */
  lemma RotatedAlone(po: Polls, f: Fd, l: ListId)
    requires l in po.lists && L(po, l) == [f] && Node(f, l.ev) in po.at && po.at[Node(f, l.ev)] == l
    ensures Linked(Unlinked(po, f, l.ev), f, l) == po
  {
    var r := Linked(Unlinked(po, f, l.ev), f, l);
    assert Without([f], f) == [];
    assert r.lists[l] == [] + [f] == po.lists[l];
    assert r.lists.Keys == po.lists.Keys;
    assert r.lists == po.lists;
    assert r.at == po.at;
  }

  lemma HeadIsWaiting(sc: Sched, event: int)
    requires QueuesOk(sc) && PlacedOk(sc)
    ensures Q(sc, Waiting(event)) != [] ==>
            var t := Q(sc, Waiting(event))[0];
            0 <= t < |sc.procs| && sc.procs[t].status == EventBlocked && sc.procs[t].queue == Waiting(event) && NoDup(Q(sc, Waiting(event)))
  {
    if Q(sc, Waiting(event)) != [] {
      var t := Q(sc, Waiting(event))[0];
      assert t in Q(sc, Waiting(event));
      assert ProcOk(sc.procs[t]);
    }
  }

  /** Removing the head of a rotated queue is removing the head. */
  lemma RotatedHead(q: seq<int>)
    requires q != [] && NoDup(q)
    ensures Without(q[1..] + [q[0]], q[0]) == q[1..] == Without(q, q[0])
  {
    WithoutAppend(q[1..], [q[0]], q[0]);
    assert Without([q[0]], q[0]) == [];
  }

  lemma UnblockedHead(s: State, event: int, v: int)
    requires Inv(s) && Q(s.sched, Waiting(event)) != []
    ensures var t := Q(s.sched, Waiting(event))[0];
            && IsTask(s, t)
            && var r := Return(s.(sched := Woken(s.sched, t)), t, v);
               Inv(r) && Q(r.sched, Waiting(event)) == Q(s.sched, Waiting(event))[1..] && Interrupt(r, event, v) == Interrupt(s, event, v)
  {
    HeadIsWaiting(s.sched, event);
    var t := Q(s.sched, Waiting(event))[0];
    WakeOneOk(s, t);
    ReturnOk(s.(sched := Woken(s.sched, t)), t, v);
    MovedShape(s.sched, t, Running, Ready(s.sched.procs[t].prio));
  }
}
