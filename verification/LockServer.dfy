/** Locks by rendezvous: to lock a channel is to send on it, to unlock it is to receive from it.
    The lock server stands in for the other side, and a task that unlocks may hand the lock straight
    to one that is waiting.  Everything here runs on the kernel of `KernelState`, one system call at
    a time, among any other tasks. */
module LockServer {
  import opened KernelState
  import opened KernelInvariant
  import opened KernelSteps
  import opened KernelRuns
  import opened KernelFrames

  /** A registered lock: its channel, the server task and the server's descriptor of it. */
  datatype Lock = Lock(chan: int, server: int, fd: int)

  /** Where the server is in its loop, as far as this lock goes.  `held` is which of the two events
      of the lock it has registered for. */
  datatype Pc =
    | Loop(held: bool)    // about to call poll_wait, or busy with another descriptor
    | Polled(held: bool)  // has called poll_wait
    | Took | TookOff      // received from a locker; then stopped polling RECV
    | Gave | GaveOff      // sent to an unlocker; then stopped polling SEND

  /** The kernel, the server, the tasks that hold the lock (nothing here says that there is but one), and
      the lockers in the order they called and in the order they acquired. */
  datatype Sys = Sys(k: State, pc: Pc, holders: set<int>, called: seq<int>, acquired: seq<int>)

  function Waiters(l: Lock, k: State): seq<int> {
    Q(k.sched, Senders(l.chan))
  }

  function Releasers(l: Lock, k: State): seq<int> {
    Q(k.sched, Receivers(l.chan))
  }

  /** Has the server taken the lock out of service for others? */
  predicate Held(pc: Pc) {
    match pc
    case Loop(held) => held
    case Polled(held) => held
    case Took => true
    case TookOff => true
    case Gave => false
    case GaveOff => false
  }

  /** The server's registrations for this lock. */
  predicate PollsRecv(pc: Pc) {
    match pc
    case Loop(held) => !held
    case Polled(held) => !held
    case Took => true
    case _ => false
  }

  predicate PollsSend(pc: Pc) {
    match pc
    case Loop(held) => held
    case Polled(held) => held
    case Gave => true
    case _ => false
  }

  // ----- Moves -----

  datatype Move =
    | LockCall(t: int, no: int)    // lock_channel by task t on its descriptor no
    | UnlockCall(t: int, no: int)  // unlock_channel by a holder
    | ServerWait                   // poll_wait
    | ServerSkip                   // poll_wait reported another descriptor
    | ServerTake                   // RECV reported: receive without waiting
    | ServerGive                   // SEND reported: send without waiting
    | ServerDrop                   // poll_remove of the event just served
    | ServerAdd                    // poll_add of the other event
    | ServerOther(a: Action)       // the server's work on other descriptors
    | Others(a: Action)            // any other task, an interrupt, the scheduler

  /** The system call that a move makes. */
  function ActionOf(l: Lock, m: Move, pc: Pc): Action {
    match m
    case LockCall(t, no) => Send(t, no, [], NONE, 0)
    case UnlockCall(t, no) => Receive(t, no, 0, false, 0)
    case ServerWait => PollWait(l.server, true)
    case ServerSkip => Schedule
    case ServerTake => Receive(l.server, l.fd, 0, false, RECV_NONBLOCK)
    case ServerGive => Send(l.server, l.fd, [], NONE, RECV_NONBLOCK)
    case ServerDrop => PollRemove(l.server, l.fd, if pc == Took then 1 else 2)
    case ServerAdd => PollAdd(l.server, l.fd, if pc == TookOff then 2 else 1)
    case ServerOther(a) => a
    case Others(a) => a
  }

  /** Task t may wait on the lock through its descriptor no. */
  predicate Usable(l: Lock, k: State, t: int, no: int, bit: int)
    requires bit > 0
  {
    && IsTask(k, t) && t != l.server && ValidChannel(k, t, no) && ChanAt(k.chans, Fd(t, no)) == l.chan
    && HasFlag(k.chans.fds[Fd(t, no)].flags, bit) && !HasFlag(k.chans.fds[Fd(t, no)].flags, CHAN_NONBLOCK)
  }

  /** When a move may be made.  Tasks keep to the protocol: whoever holds the lock does not lock it
      again, only a holder unlocks, and nobody else sends or receives on the channel. */
  predicate Allowed(l: Lock, x: Sys, m: Move)
    requires Sized(x.k)
  {
    && (m.ServerSkip? || (Enabled(x.k, ActionOf(l, m, x.pc)) && Safe(x.k, ActionOf(l, m, x.pc))))
    && match m
       case LockCall(t, no) => Usable(l, x.k, t, no, CHAN_SEND) && t !in x.holders
       case UnlockCall(t, no) => Usable(l, x.k, t, no, CHAN_RECV) && t in x.holders
       case ServerWait => x.pc.Loop?
       case ServerSkip => Returned(l, x) && x.k.outs[l.server].pollFd != l.fd
       case ServerTake => Returned(l, x) && x.k.outs[l.server].pollFd == l.fd && x.k.outs[l.server].pollEv == EvRecv
       case ServerGive => Returned(l, x) && x.k.outs[l.server].pollFd == l.fd && x.k.outs[l.server].pollEv == EvSend
       case ServerDrop => x.pc == Took || x.pc == Gave
       case ServerAdd => x.pc == TookOff || x.pc == GaveOff
       case ServerOther(a) => x.pc.Loop? && Actor(a) == l.server && !Touches(x.k, a, l.chan) && !Names(a, l.fd) && !a.PollWait?
       case Others(a) => Actor(a) != l.server && !Touches(x.k, a, l.chan)
  }

  /** The server's poll_wait has returned. */
  predicate Returned(l: Lock, x: Sys)
    requires Sized(x.k)
  {
    x.pc.Polled? && IsTask(x.k, l.server) && x.k.sched.procs[l.server].status == Running
  }

  /** The server's next position; after serving an event it looks at what its call returned. */
  function NextPc(l: Lock, x: Sys, m: Move, k: State): Pc
    requires Sized(k) && IsTask(k, l.server)
  {
    match m
    case ServerWait => if x.pc.Loop? then Polled(x.pc.held) else x.pc
    case ServerSkip => if x.pc.Polled? then Loop(x.pc.held) else x.pc
    case ServerTake => if k.outs[l.server].r0 < 0 then (if x.pc.Polled? then Loop(x.pc.held) else x.pc) else Took
    case ServerGive => if k.outs[l.server].r0 < 0 then (if x.pc.Polled? then Loop(x.pc.held) else x.pc) else Gave
    case ServerDrop => if x.pc == Took then TookOff else GaveOff
    case ServerAdd => if x.pc == TookOff then Loop(true) else Loop(false)
    case _ => x.pc
  }

  /** Who comes to hold the lock.  A locker holds it when its send has returned: at once, when it found
      a receiver, or when somebody received from it. */
  function Acquirer(l: Lock, x: Sys, m: Move, k: State): int {
    if m.LockCall? && m.t !in Waiters(l, k) then m.t
    else if |Waiters(l, k)| < |Waiters(l, x.k)| then Waiters(l, x.k)[0]
    else NONE
  }

  function After(l: Lock, x: Sys, m: Move, k: State): Sys
    requires Sized(k) && IsTask(k, l.server)
  {
    var t := Acquirer(l, x, m, k);
    Sys(k, NextPc(l, x, m, k),
        (if m.UnlockCall? then x.holders - {m.t} else x.holders) + (if t != NONE then {t} else {}),
        if m.LockCall? then x.called + [m.t] else x.called,
        if t != NONE then x.acquired + [t] else x.acquired)
  }

  // ----- Invariant -----

  ghost predicate LockInv(l: Lock, x: Sys) {
    && Sized(x.k) && Inv(x.k) && IsTask(x.k, l.server)
    && ServerOk(l, x) && OwnersOk(l, x)
    && x.called == x.acquired + Waiters(l, x.k)
  }

  /** The server keeps its descriptor, is registered for what its position says, and is never itself
      waiting on the channel. */
  ghost predicate ServerOk(l: Lock, x: Sys)
    requires Sized(x.k) && IsTask(x.k, l.server)
  {
    var f := Fd(l.server, l.fd);
    var out := x.k.outs[l.server];
    var status := x.k.sched.procs[l.server].status;
    && 0 <= l.fd < MAX_TASK_CHANNELS && f in x.k.chans.fds && x.k.chans.fds[f] == Cd(l.chan, CHAN_RECV + CHAN_SEND)
    && (PollsRecv(x.pc) <==> Node(f, EvRecv) in x.k.polls.at)
    && (PollsSend(x.pc) <==> Node(f, EvSend) in x.k.polls.at)
    && l.server !in Waiters(l, x.k) && l.server !in Releasers(l, x.k)
    && (!x.pc.Loop? ==> status == Running || (x.pc.Polled? && status == PollBlocked))
    && (x.pc.Polled? && status == Running && out.pollFd == l.fd ==> out.pollEv == if x.pc.held then EvSend else EvRecv)
  }

  /** While the lock is held there is one holder or one task releasing it, otherwise neither; and
      every waiting locker waits with an empty message. */
  ghost predicate OwnersOk(l: Lock, x: Sys) {
    && |x.holders| + |Releasers(l, x.k)| == (if Held(x.pc) then 1 else 0)
    && EmptyParcels(LogOf(x.k.sched, l.chan))
  }

  /** Messages not yet received are empty and carry no channel. */
  ghost predicate EmptyParcels(log: Log) {
    forall i :: |log.met| <= i < |log.sent| ==> log.sent[i].msg == [] && log.sent[i].pass == NoPass
  }

  // ----- The calls on the lock's channel -----

  /** A locker's send: it waits, or takes the lock straight from a task that is releasing it. */
  lemma PlainSend(k: State, t: int, no: int, c: int, flags: int)
    requires Inv(k) && IsTask(k, t) && k.sched.procs[t].status == Running
    requires ValidChannel(k, t, no) && ChanAt(k.chans, Fd(t, no)) == c && HasFlag(k.chans.fds[Fd(t, no)].flags, CHAN_SEND)
    requires (!HasFlag(k.chans.fds[Fd(t, no)].flags, CHAN_NONBLOCK) && !HasFlag(flags, RECV_NONBLOCK)) || Q(k.sched, Receivers(c)) != []
    ensures SysSend(k, t, no, [], NONE, flags).Go?
    ensures SentOn(k.sched, SysSend(k, t, no, [], NONE, flags).s.sched, c, Parcel(t, [], NoPass))
    ensures Q(k.sched, Receivers(c)) != [] ==> SysSend(k, t, no, [], NONE, flags).s.outs[t].r0 == 0
  {
    HoldsOpen(k.chans, Fd(t, no));
    SendFits(k, t, c);
    hide Mid, SchedOk, ChansOk, KeepOk, PollsOk, Rendezvous, Quiet, Asleep, Deliver, Offered, HasFlag, TriggerAll, SentOn;
    SendShape(k, t, c, [], NoPass);
    if Q(k.sched, Receivers(c)) != [] {
      SendMeets(k, t, c, [], NoPass);
    }
  }

  /** An empty message without a channel fits any receiver. */
  lemma SendFits(k: State, t: int, c: int)
    requires Inv(k) && IsTask(k, t) && k.sched.procs[t].status == Running && Holds(k.chans, t, c)
    ensures Deliver(Offered(k, t, c, [], NoPass), c).Go?
  {
    assert Rendezvous(k.sched);
    hide ChansOk, KeepOk, PollsOk, Rendezvous, Quiet, Asleep, CountsOk, LogsOk, Blocked, HasNumber;
    OfferedOk(k, t, c, [], NoPass);
    var mid := Offered(k, t, c, [], NoPass);
    QueueHeadsBlocked(mid.sched, c);
    NeverBoth(k.sched, c);
  }

  /** The holder's receive: it waits, or hands the lock to the first locker. */
  lemma PlainReceive(k: State, t: int, no: int, c: int, flags: int)
    requires Inv(k) && IsTask(k, t) && k.sched.procs[t].status == Running && EmptyParcels(LogOf(k.sched, c))
    requires ValidChannel(k, t, no) && ChanAt(k.chans, Fd(t, no)) == c && HasFlag(k.chans.fds[Fd(t, no)].flags, CHAN_RECV)
    requires (!HasFlag(k.chans.fds[Fd(t, no)].flags, CHAN_NONBLOCK) && !HasFlag(flags, RECV_NONBLOCK)) || Q(k.sched, Senders(c)) != []
    ensures SysRecv(k, t, no, 0, false, flags).Go?
    ensures ReceivedOn(k.sched, SysRecv(k, t, no, 0, false, flags).s.sched, c, t)
    ensures Q(k.sched, Senders(c)) != [] ==> SysRecv(k, t, no, 0, false, flags).s.outs[t].r0 == 0
  {
    HoldsOpen(k.chans, Fd(t, no));
    ReceiveFits(k, t, c);
    hide Mid, SchedOk, ChansOk, KeepOk, PollsOk, Rendezvous, Quiet, Asleep, Deliver, Asked, HasFlag, TriggerAll, ReceivedOn;
    ReceiveShape(k, t, c, 0, false);
    if Q(k.sched, Senders(c)) != [] {
      ReceiveMeets(k, t, c, 0, false);
    }
  }

  lemma ReceiveFits(k: State, t: int, c: int)
    requires Inv(k) && IsTask(k, t) && k.sched.procs[t].status == Running && EmptyParcels(LogOf(k.sched, c))
    ensures Deliver(Asked(k, t, c, 0, false), c).Go?
    ensures Q(k.sched, Senders(c)) != [] ==> k.sched.procs[Q(k.sched, Senders(c))[0]].req.Sending? && k.sched.procs[Q(k.sched, Senders(c))[0]].req.msg == []
  {
    assert Rendezvous(k.sched);
    hide ChansOk, KeepOk, PollsOk, Rendezvous, Quiet, Asleep, CountsOk, LogsOk, Blocked, HasNumber;
    FirstParcel(k.sched, c);
    AskedOk(k, t, c, 0, false);
    var mid := Asked(k, t, c, 0, false);
    QueueHeadsBlocked(mid.sched, c);
    NeverBoth(k.sched, c);
  }

  // ----- Each move keeps the invariant -----

  /** A step of another task, after which the server is not waiting on the channel. */
  lemma ServerUndisturbed(l: Lock, x: Sys, r: Sys)
    requires Sized(x.k) && Sized(r.k) && IsTask(x.k, l.server) && IsTask(r.k, l.server) && ServerOk(l, x) && r.pc == x.pc
    requires Undisturbed(x.k, r.k, l.server)
    requires l.server !in Waiters(l, r.k) && l.server !in Releasers(l, r.k)
    ensures ServerOk(l, r)
  {
    assert forall ev :: Node(Fd(l.server, l.fd), ev) in r.k.polls.at <==> Node(Fd(l.server, l.fd), ev) in x.k.polls.at;
  }

  lemma NamedByServer(l: Lock, x: Sys)
    requires Sized(x.k) && IsTask(x.k, l.server) && ServerOk(l, x)
    ensures Naming(x.k.chans, l.chan) != {}
  {
    assert Fd(l.server, l.fd) in Naming(x.k.chans, l.chan);
  }

  /** Nothing about the owners changes while the channel's queues and history stay the same. */
  lemma SameOwners(l: Lock, x: Sys, m: Move, k: State)
    requires Sized(x.k) && Sized(k) && IsTask(k, l.server) && IsTask(x.k, l.server)
    requires OwnersOk(l, x) && x.called == x.acquired + Waiters(l, x.k) && SameChannel(x.k.sched, k.sched, l.chan)
    requires !m.LockCall? && !m.UnlockCall? && Held(NextPc(l, x, m, k)) == Held(x.pc)
    ensures var r := After(l, x, m, k); OwnersOk(l, r) && r.called == r.acquired + Waiters(l, r.k)
    ensures Waiters(l, k) == Waiters(l, x.k) && Releasers(l, k) == Releasers(l, x.k)
  {
  }

  lemma OthersOk(l: Lock, x: Sys, a: Action)
    requires Sized(x.k) && IsTask(x.k, l.server) && Enabled(x.k, a) && Step(x.k, a).Go?
    requires LockInv(l, x) && Allowed(l, x, Others(a))
    ensures LockInv(l, After(l, x, Others(a), Step(x.k, a).s))
  {
    hide Inv, ServerOk, OwnersOk, SameChannel, Undisturbed, Step, Waiters, Releasers, Enabled, Safe, Touches, Naming;
    NamedByServer(l, x);
    StepOk(x.k, a);
    StepUndisturbed(x.k, a, l.server);
    StepSameChannel(x.k, a, l.chan);
    NotWaiting(l, x);
    SameOwners(l, x, Others(a), Step(x.k, a).s);
    ServerUndisturbed(l, x, After(l, x, Others(a), Step(x.k, a).s));
  }

  lemma NotWaiting(l: Lock, x: Sys)
    requires Sized(x.k) && IsTask(x.k, l.server) && ServerOk(l, x)
    ensures l.server !in Waiters(l, x.k) && l.server !in Releasers(l, x.k)
  {
  }

  lemma LockCallOwners(l: Lock, x: Sys, t: int, no: int, k: State)
    requires Sized(x.k) && Sized(k) && IsTask(k, l.server) && IsTask(x.k, l.server)
    requires OwnersOk(l, x) && x.called == x.acquired + Waiters(l, x.k)
    requires SentOn(x.k.sched, k.sched, l.chan, Parcel(t, [], NoPass))
    requires Rendezvous(x.k.sched) && t != l.server && t != NONE
    ensures var r := After(l, x, LockCall(t, no), k); OwnersOk(l, r) && r.called == r.acquired + Waiters(l, r.k) && r.pc == x.pc
    ensures l.server !in Waiters(l, x.k) ==> l.server !in Waiters(l, k)
    ensures l.server !in Releasers(l, x.k) ==> l.server !in Releasers(l, k)
  {
    assert Waiters(l, x.k) == [] || Releasers(l, x.k) == [];
    var r := After(l, x, LockCall(t, no), k);
    if Releasers(l, x.k) == [] {
      assert t in Waiters(l, k);
      assert Waiters(l, k) == Waiters(l, x.k) + [t];
    }
  }

  lemma LockCallStep(l: Lock, x: Sys, t: int, no: int)
    requires LockInv(l, x) && Allowed(l, x, LockCall(t, no))
    ensures var out := SysSend(x.k, t, no, [], NONE, 0);
            && out.Go? && Inv(out.s) && IsTask(out.s, l.server) && Undisturbed(x.k, out.s, l.server)
            && SentOn(x.k.sched, out.s.sched, l.chan, Parcel(t, [], NoPass))
  {
    hide Mid, SchedOk, ChansOk, KeepOk, PollsOk, Rendezvous, Quiet, Asleep, ServerOk, OwnersOk, SentOn, Undisturbed, SysSend, HasFlag, Waiters, Releasers;
    NoFlag();
    PlainSend(x.k, t, no, l.chan, 0);
    StepOk(x.k, Send(t, no, [], NONE, 0));
    StepUndisturbed(x.k, Send(t, no, [], NONE, 0), l.server);
  }

  lemma NoFlag()
    ensures !HasFlag(0, RECV_NONBLOCK) && HasFlag(RECV_NONBLOCK, RECV_NONBLOCK)
    ensures HasFlag(CHAN_RECV + CHAN_SEND, CHAN_SEND) && HasFlag(CHAN_RECV + CHAN_SEND, CHAN_RECV)
  {
  }

  /** lock_channel never panics, and keeps the lock in order. */
  lemma LockCallOk(l: Lock, x: Sys, t: int, no: int)
    requires LockInv(l, x) && Allowed(l, x, LockCall(t, no))
    ensures SysSend(x.k, t, no, [], NONE, 0).Go?
    ensures LockInv(l, After(l, x, LockCall(t, no), SysSend(x.k, t, no, [], NONE, 0).s))
  {
    hide Mid, SchedOk, ChansOk, KeepOk, PollsOk, Rendezvous, Quiet, Asleep, ServerOk, OwnersOk, SentOn, Undisturbed, SysSend, HasFlag, Waiters, Releasers, After;
    LockCallStep(l, x, t, no);
    var k := SysSend(x.k, t, no, [], NONE, 0).s;
    NotWaiting(l, x);
    LockCallOwners(l, x, t, no, k);
    AfterState(l, x, LockCall(t, no), k);
    ServerUndisturbed(l, x, After(l, x, LockCall(t, no), k));
  }

  lemma AfterState(l: Lock, x: Sys, m: Move, k: State)
    requires Sized(k) && IsTask(k, l.server)
    ensures After(l, x, m, k).k == k && After(l, x, m, k).pc == NextPc(l, x, m, k)
  {
  }

  /** A running task waits on no channel. */
  lemma Distinct(k: State, t: int, c: int)
    requires Inv(k) && IsTask(k, t) && k.sched.procs[t].status == Running
    ensures t !in Q(k.sched, Senders(c)) && t !in Q(k.sched, Receivers(c))
  {
    HeadsBlocked(k.sched, c);
  }

  lemma UnlockCallOwners(l: Lock, x: Sys, t: int, no: int, k: State)
    requires Sized(x.k) && Sized(k) && IsTask(k, l.server) && IsTask(x.k, l.server)
    requires OwnersOk(l, x) && x.called == x.acquired + Waiters(l, x.k)
    requires ReceivedOn(x.k.sched, k.sched, l.chan, t)
    requires t != l.server && t != NONE && t in x.holders && NONE !in Waiters(l, x.k)
    ensures var r := After(l, x, UnlockCall(t, no), k); OwnersOk(l, r) && r.called == r.acquired + Waiters(l, r.k) && r.pc == x.pc
    ensures l.server !in Waiters(l, x.k) ==> l.server !in Waiters(l, k)
    ensures l.server !in Releasers(l, x.k) ==> l.server !in Releasers(l, k)
  {
    assert forall u :: u in Waiters(l, k) ==> u in Waiters(l, x.k);
    if Waiters(l, x.k) != [] {
      assert Waiters(l, x.k)[0] in Waiters(l, x.k);
      assert Waiters(l, x.k) == [Waiters(l, x.k)[0]] + Waiters(l, k);
    }
  }

  /** Whoever waits in a queue is a task. */
  lemma WaitersAreTasks(k: State, c: int)
    requires Inv(k)
    ensures NONE !in Q(k.sched, Senders(c)) && NONE !in Q(k.sched, Receivers(c))
  {
    HeadsBlocked(k.sched, c);
  }

  lemma UnlockCallStep(l: Lock, x: Sys, t: int, no: int)
    requires LockInv(l, x) && Allowed(l, x, UnlockCall(t, no))
    ensures var out := SysRecv(x.k, t, no, 0, false, 0);
            && out.Go? && Inv(out.s) && IsTask(out.s, l.server) && Undisturbed(x.k, out.s, l.server)
            && ReceivedOn(x.k.sched, out.s.sched, l.chan, t) && NONE !in Waiters(l, x.k)
  {
    hide Inv, ServerOk, EmptyParcels, ReceivedOn, Undisturbed, SysRecv, HasFlag, Releasers;
    NoFlag();
    WaitersAreTasks(x.k, l.chan);
    PlainReceive(x.k, t, no, l.chan, 0);
    StepOk(x.k, Receive(t, no, 0, false, 0));
    StepUndisturbed(x.k, Receive(t, no, 0, false, 0), l.server);
  }

  /** unlock_channel by a holder never panics; it hands over to the first locker if there is one. */
  lemma UnlockCallOk(l: Lock, x: Sys, t: int, no: int)
    requires LockInv(l, x) && Allowed(l, x, UnlockCall(t, no))
    ensures SysRecv(x.k, t, no, 0, false, 0).Go?
    ensures LockInv(l, After(l, x, UnlockCall(t, no), SysRecv(x.k, t, no, 0, false, 0).s))
  {
    hide Inv, ServerOk, OwnersOk, ReceivedOn, Undisturbed, SysRecv, HasFlag, Waiters, Releasers, After;
    UnlockCallStep(l, x, t, no);
    var k := SysRecv(x.k, t, no, 0, false, 0).s;
    NotWaiting(l, x);
    UnlockCallOwners(l, x, t, no, k);
    AfterState(l, x, UnlockCall(t, no), k);
    ServerUndisturbed(l, x, After(l, x, UnlockCall(t, no), k));
  }

  // ----- The server's own calls -----

  lemma ServerBusy(l: Lock, x: Sys, r: Sys)
    requires Sized(x.k) && Sized(r.k) && IsTask(x.k, l.server) && IsTask(r.k, l.server) && ServerOk(l, x) && r.pc == x.pc && x.pc.Loop?
    requires SameFd(x.k, r.k, Fd(l.server, l.fd))
    requires Waiters(l, r.k) == Waiters(l, x.k) && Releasers(l, r.k) == Releasers(l, x.k)
    ensures ServerOk(l, r)
  {
  }

  /** After a call of the server that is not on the channel and does not name its descriptor. */
  lemma ServerOtherOk(l: Lock, x: Sys, a: Action)
    requires Sized(x.k) && IsTask(x.k, l.server) && Enabled(x.k, a) && Step(x.k, a).Go?
    requires LockInv(l, x) && Allowed(l, x, ServerOther(a))
    ensures LockInv(l, After(l, x, ServerOther(a), Step(x.k, a).s))
  {
    hide Inv, ServerOk, OwnersOk, SameChannel, SameFd, Step, Waiters, Releasers, Enabled, Safe, Touches, Names, Naming;
    NamedByServer(l, x);
    StepOk(x.k, a);
    OpenToServer(l, x);
    OwnFdKept(x.k, a, l.fd);
    StepSameChannel(x.k, a, l.chan);
    SameOwners(l, x, ServerOther(a), Step(x.k, a).s);
    ServerBusy(l, x, After(l, x, ServerOther(a), Step(x.k, a).s));
  }

  lemma OpenToServer(l: Lock, x: Sys)
    requires Sized(x.k) && IsTask(x.k, l.server) && ServerOk(l, x)
    ensures Fd(l.server, l.fd) in x.k.chans.fds && ValidChannel(x.k, l.server, l.fd)
    ensures x.k.chans.fds[Fd(l.server, l.fd)] == Cd(l.chan, CHAN_RECV + CHAN_SEND)
  {
  }

  lemma ServerSkipOk(l: Lock, x: Sys)
    requires LockInv(l, x) && Allowed(l, x, ServerSkip)
    ensures LockInv(l, After(l, x, ServerSkip, x.k))
  {
    hide Inv;
  }

  /** poll_wait on the server's registrations. */
  lemma ServerWaitOk(l: Lock, x: Sys)
    requires LockInv(l, x) && Allowed(l, x, ServerWait)
    ensures SysPollWait(x.k, l.server, true).Go?
    ensures LockInv(l, After(l, x, ServerWait, SysPollWait(x.k, l.server, true).s))
  {
    hide Mid, SchedOk, ChansOk, KeepOk, PollsOk, Rendezvous, Quiet, Asleep, OwnersOk, SysPollWait, SameChannel;
    var f := Fd(l.server, l.fd);
    RegisteredCounts(x.k, l.server, l.fd, if x.pc.held then EvSend else EvRecv);
    PollWaitReports(x.k, l.server);
    PollWaitOk(x.k, l.server, true);
    PollWaitSame(x.k, l.server, true, l.chan);
    var k := SysPollWait(x.k, l.server, true).s;
    SameOwners(l, x, ServerWait, k);
    forall ev ensures Node(f, ev) in k.polls.at <==> Node(f, ev) in x.k.polls.at {
      assert Node(f, ev) in k.polls.at.Keys <==> Node(f, ev) in x.k.polls.at.Keys;
    }
    var out := k.outs[l.server];
    if k.sched.procs[l.server].status == Running && out.pollFd == l.fd {
      assert Node(f, out.pollEv) in x.k.polls.at;
    }
  }

  lemma ServerTakeOwners(l: Lock, x: Sys, k: State)
    requires Sized(x.k) && Sized(k) && IsTask(k, l.server) && IsTask(x.k, l.server)
    requires OwnersOk(l, x) && x.called == x.acquired + Waiters(l, x.k) && !Held(x.pc) && x.pc.Polled?
    requires Waiters(l, x.k) != [] && NONE !in Waiters(l, x.k) && ReceivedOn(x.k.sched, k.sched, l.chan, l.server) && k.outs[l.server].r0 == 0
    ensures var r := After(l, x, ServerTake, k);
            && OwnersOk(l, r) && r.called == r.acquired + Waiters(l, r.k) && r.pc == Took
            && r.holders == {Waiters(l, x.k)[0]} && r.acquired == x.acquired + [Waiters(l, x.k)[0]]
  {
    assert Waiters(l, x.k)[0] in Waiters(l, x.k);
    assert Waiters(l, x.k) == [Waiters(l, x.k)[0]] + Waiters(l, k);
  }

  /** The server's position after a call on its own descriptor that left it running. */
  lemma ServerMoved(l: Lock, x: Sys, r: Sys)
    requires Sized(x.k) && Sized(r.k) && IsTask(x.k, l.server) && IsTask(r.k, l.server) && ServerOk(l, x)
    requires SameFd(x.k, r.k, Fd(l.server, l.fd)) && !r.pc.Polled?
    requires PollsRecv(r.pc) == PollsRecv(x.pc) && PollsSend(r.pc) == PollsSend(x.pc)
    requires Inv(r.k) && r.k.sched.procs[l.server].status == Running
    ensures ServerOk(l, r)
  {
    Distinct(r.k, l.server, l.chan);
  }

  /** The kernel's part of the server's receive. */
  lemma ServerTakeStep(l: Lock, x: Sys)
    requires LockInv(l, x) && Allowed(l, x, ServerTake)
    ensures SysRecv(x.k, l.server, l.fd, 0, false, RECV_NONBLOCK).Go? && x.pc == Polled(false) && NONE !in Waiters(l, x.k)
    ensures var k := SysRecv(x.k, l.server, l.fd, 0, false, RECV_NONBLOCK).s;
            && Inv(k) && IsTask(k, l.server) && k.sched.procs[l.server].status == Running && SameFd(x.k, k, Fd(l.server, l.fd))
            && (if Waiters(l, x.k) == [] then k == Return(x.k, l.server, EWOULDBLOCK)
                else ReceivedOn(x.k.sched, k.sched, l.chan, l.server) && k.outs[l.server].r0 == 0)
  {
    hide Mid, SchedOk, ChansOk, KeepOk, PollsOk, Rendezvous, Quiet, Asleep, EmptyParcels, ReceivedOn, HasFlag, SameFd, Deliver, Asked, TriggerAll, Enabled, Safe;
    NoFlag();
    WaitersAreTasks(x.k, l.chan);
    var f := Fd(l.server, l.fd);
    if Waiters(l, x.k) != [] {
      PlainReceive(x.k, l.server, l.fd, l.chan, RECV_NONBLOCK);
    }
    NonblockingReceive(x.k, l.server, l.fd, 0, false, RECV_NONBLOCK);
    ReceiveOk(x.k, l.server, l.fd, 0, false, RECV_NONBLOCK);
    OwnReceive(x.k, l.server, l.fd, 0, false, RECV_NONBLOCK, f);
  }

  /** The server takes the lock for the first locker, or finds that it has gone. */
  lemma ServerTakeOk(l: Lock, x: Sys)
    requires LockInv(l, x) && Allowed(l, x, ServerTake)
    ensures SysRecv(x.k, l.server, l.fd, 0, false, RECV_NONBLOCK).Go?
    ensures LockInv(l, After(l, x, ServerTake, SysRecv(x.k, l.server, l.fd, 0, false, RECV_NONBLOCK).s))
  {
    hide Inv, ServerOk, OwnersOk, ReceivedOn, SameFd, SysRecv, After, Waiters, Releasers, Returned;
    ServerTakeStep(l, x);
    var k := SysRecv(x.k, l.server, l.fd, 0, false, RECV_NONBLOCK).s;
    AfterState(l, x, ServerTake, k);
    if Waiters(l, x.k) != [] {
      ServerTakeOwners(l, x, k);
    } else {
      ReturnSame(x.k, l.server, EWOULDBLOCK, l.chan);
      SameOwners(l, x, ServerTake, k);
    }
    ServerMoved(l, x, After(l, x, ServerTake, k));
  }

  lemma ServerGiveOwners(l: Lock, x: Sys, k: State)
    requires Sized(x.k) && Sized(k) && IsTask(k, l.server) && IsTask(x.k, l.server)
    requires OwnersOk(l, x) && x.called == x.acquired + Waiters(l, x.k) && Held(x.pc) && x.pc.Polled?
    requires Releasers(l, x.k) != [] && Waiters(l, x.k) == []
    requires SentOn(x.k.sched, k.sched, l.chan, Parcel(l.server, [], NoPass)) && k.outs[l.server].r0 == 0
    ensures var r := After(l, x, ServerGive, k);
            OwnersOk(l, r) && r.called == r.acquired + Waiters(l, r.k) && r.pc == Gave && r.holders == {}
  {
  }

  lemma ServerGiveStep(l: Lock, x: Sys)
    requires LockInv(l, x) && Allowed(l, x, ServerGive)
    ensures SysSend(x.k, l.server, l.fd, [], NONE, RECV_NONBLOCK).Go? && x.pc == Polled(true)
    ensures Releasers(l, x.k) != [] ==> Waiters(l, x.k) == []
    ensures var k := SysSend(x.k, l.server, l.fd, [], NONE, RECV_NONBLOCK).s;
            && Inv(k) && IsTask(k, l.server) && k.sched.procs[l.server].status == Running && SameFd(x.k, k, Fd(l.server, l.fd))
            && (if Releasers(l, x.k) == [] then k == Return(x.k, l.server, EWOULDBLOCK)
                else SentOn(x.k.sched, k.sched, l.chan, Parcel(l.server, [], NoPass)) && k.outs[l.server].r0 == 0)
  {
    hide Mid, SchedOk, ChansOk, KeepOk, PollsOk, Rendezvous, Quiet, Asleep, EmptyParcels, SentOn, HasFlag, SameFd, Deliver, Offered, TriggerAll, Enabled, Safe;
    NoFlag();
    NeverBoth(x.k.sched, l.chan);
    var f := Fd(l.server, l.fd);
    if Releasers(l, x.k) != [] {
      PlainSend(x.k, l.server, l.fd, l.chan, RECV_NONBLOCK);
    }
    NonblockingSend(x.k, l.server, l.fd, [], NONE, RECV_NONBLOCK);
    SendOk(x.k, l.server, l.fd, [], NONE, RECV_NONBLOCK);
    OwnSend(x.k, l.server, l.fd, [], NONE, RECV_NONBLOCK, f);
  }

  /** The server completes an unlock, or finds that a locker was faster. */
  lemma ServerGiveOk(l: Lock, x: Sys)
    requires LockInv(l, x) && Allowed(l, x, ServerGive)
    ensures SysSend(x.k, l.server, l.fd, [], NONE, RECV_NONBLOCK).Go?
    ensures LockInv(l, After(l, x, ServerGive, SysSend(x.k, l.server, l.fd, [], NONE, RECV_NONBLOCK).s))
  {
    hide Inv, ServerOk, OwnersOk, SentOn, SameFd, SysSend, After, Waiters, Releasers, Returned;
    ServerGiveStep(l, x);
    var k := SysSend(x.k, l.server, l.fd, [], NONE, RECV_NONBLOCK).s;
    AfterState(l, x, ServerGive, k);
    if Releasers(l, x.k) != [] {
      ServerGiveOwners(l, x, k);
    } else {
      ReturnSame(x.k, l.server, EWOULDBLOCK, l.chan);
      SameOwners(l, x, ServerGive, k);
    }
    ServerMoved(l, x, After(l, x, ServerGive, k));
  }

  /** poll_remove and poll_add on the server's descriptor change its registrations only. */
  lemma Unregistered(k: State, t: int, no: int, flags: int)
    requires Inv(k) && IsTask(k, t) && k.sched.procs[t].status == Running && 0 <= no < MAX_TASK_CHANNELS
    requires Fd(t, no) in k.chans.fds && (flags == 1 || flags == 2)
    ensures var out := SysPollRemove(k, t, no, flags);
            && out.Go? && Inv(out.s) && IsTask(out.s, t) && out.s.sched == k.sched && out.s.chans == k.chans
            && (forall ev :: Node(Fd(t, no), ev) in out.s.polls.at <==>
                  !((ev == EvRecv) == (flags == 1)) && Node(Fd(t, no), ev) in k.polls.at)
  {
    hide Mid, SchedOk, ChansOk, KeepOk, PollsOk, Rendezvous, Quiet, Asleep;
    PollRemoveOk(k, t, no, flags);
  }

  lemma Registered(k: State, t: int, no: int, flags: int)
    requires Inv(k) && IsTask(k, t) && k.sched.procs[t].status == Running && 0 <= no < MAX_TASK_CHANNELS
    requires Fd(t, no) in k.chans.fds && k.chans.fds[Fd(t, no)].flags == CHAN_RECV + CHAN_SEND
    requires flags == 1 || flags == 2
    ensures var out := SysPollAdd(k, t, no, flags);
            && out.Go? && Inv(out.s) && IsTask(out.s, t) && out.s.sched == k.sched && out.s.chans == k.chans
            && (forall ev :: Node(Fd(t, no), ev) in out.s.polls.at <==>
                  (ev == EvRecv) == (flags == 1) || Node(Fd(t, no), ev) in k.polls.at)
  {
    hide Mid, SchedOk, ChansOk, KeepOk, PollsOk, Rendezvous, Quiet, Asleep;
    PollAddOk(k, t, no, flags);
  }

  lemma ServerDropOk(l: Lock, x: Sys)
    requires LockInv(l, x) && Allowed(l, x, ServerDrop)
    ensures var flags := if x.pc == Took then 1 else 2;
            && SysPollRemove(x.k, l.server, l.fd, flags).Go?
            && LockInv(l, After(l, x, ServerDrop, SysPollRemove(x.k, l.server, l.fd, flags).s))
  {
    hide Inv, SysPollRemove, SysPollAdd;
    Unregistered(x.k, l.server, l.fd, if x.pc == Took then 1 else 2);
  }

  lemma ServerAddOk(l: Lock, x: Sys)
    requires LockInv(l, x) && Allowed(l, x, ServerAdd)
    ensures var flags := if x.pc == TookOff then 2 else 1;
            && SysPollAdd(x.k, l.server, l.fd, flags).Go?
            && LockInv(l, After(l, x, ServerAdd, SysPollAdd(x.k, l.server, l.fd, flags).s))
  {
    hide Inv, SysPollRemove, SysPollAdd;
    Registered(x.k, l.server, l.fd, if x.pc == TookOff then 2 else 1);
  }

  // ----- Main results -----

  /** The kernel state after a move, where the kernel does not panic. */
  ghost predicate Next(l: Lock, x: Sys, m: Move, y: Sys)
    requires Sized(x.k) && IsTask(x.k, l.server)
  {
    && Allowed(l, x, m)
    && if m.ServerSkip? then y == After(l, x, m, x.k)
       else Step(x.k, ActionOf(l, m, x.pc)).Go? && IsTask(Step(x.k, ActionOf(l, m, x.pc)).s, l.server) &&
            y == After(l, x, m, Step(x.k, ActionOf(l, m, x.pc)).s)
  }

  /** Every move of every task keeps the invariant. */
  lemma MoveOk(l: Lock, x: Sys, m: Move, y: Sys)
    requires LockInv(l, x) && Next(l, x, m, y)
    ensures LockInv(l, y)
  {
    hide Inv, ServerOk, OwnersOk, After, SysSend, SysRecv, SysPollWait, SysPollAdd, SysPollRemove;
    match m
    case LockCall(t, no) => LockCallOk(l, x, t, no);
    case UnlockCall(t, no) => UnlockCallOk(l, x, t, no);
    case ServerWait => ServerWaitOk(l, x);
    case ServerSkip => ServerSkipOk(l, x);
    case ServerTake => ServerTakeOk(l, x);
    case ServerGive => ServerGiveOk(l, x);
    case ServerDrop => ServerDropOk(l, x);
    case ServerAdd => ServerAddOk(l, x);
    case ServerOther(a) => ServerOtherOk(l, x, a);
    case Others(a) => OthersOk(l, x, a);
  }

  /** A freshly registered lock: the server has an ordinary descriptor of the channel and polls RECV
      on it, nobody waits to release, and only lockers wait to send. */
  lemma RegisteredOk(l: Lock, k: State)
    requires Sized(k) && Inv(k) && IsTask(k, l.server) && 0 <= l.fd < MAX_TASK_CHANNELS
    requires var f := Fd(l.server, l.fd);
             && f in k.chans.fds && k.chans.fds[f] == Cd(l.chan, CHAN_RECV + CHAN_SEND)
             && Node(f, EvRecv) in k.polls.at && Node(f, EvSend) !in k.polls.at
    requires Releasers(l, k) == [] && l.server !in Waiters(l, k) && EmptyParcels(LogOf(k.sched, l.chan))
    ensures LockInv(l, Sys(k, Loop(false), {}, Waiters(l, k), []))
  {
    hide Inv;
  }

  ghost predicate IsLockRun(l: Lock, x: Sys, ms: seq<Move>, y: Sys)
    decreases |ms|
  {
    if ms == [] then y == x
    else Sized(x.k) && IsTask(x.k, l.server) && exists z :: Next(l, x, ms[0], z) && IsLockRun(l, z, ms[1..], y)
  }

  lemma {:induction false} LockRunOk(l: Lock, x: Sys, ms: seq<Move>, y: Sys)
    requires LockInv(l, x) && IsLockRun(l, x, ms, y)
    ensures LockInv(l, y)
    decreases |ms|
  {
    hide LockInv, Next;
    if ms != [] {
      var z :| Next(l, x, ms[0], z) && IsLockRun(l, z, ms[1..], y);
      MoveOk(l, x, ms[0], z);
      LockRunOk(l, z, ms[1..], y);
    }
  }

  /** The tasks that hold the lock or are giving it back. */
  ghost function Owners(l: Lock, x: Sys): set<int> {
    x.holders + (set t | t in Releasers(l, x.k))
  }

  /** However the moves interleave, at most one task holds the lock or is giving it back, none does both,
      and lockers acquire it in the order in which they called, those still waiting coming next in that
      order. */
  lemma MutualExclusion(l: Lock, x: Sys, ms: seq<Move>, y: Sys)
    requires LockInv(l, x) && IsLockRun(l, x, ms, y)
    ensures |y.holders| + |Releasers(l, y.k)| <= 1
    ensures forall t, u :: t in Owners(l, y) && u in Owners(l, y) ==> t == u
    ensures y.called == y.acquired + Waiters(l, y.k)
  {
    hide Inv, ServerOk, IsLockRun;
    LockRunOk(l, x, ms, y);
    forall t, u | t in Owners(l, y) && u in Owners(l, y) ensures t == u {
      if t in y.holders { OnlyOne(y.holders, t); }
    }
  }

  lemma OnlyOne(s: set<int>, t: int)
    requires t in s && |s| <= 1
    ensures s == {t}
  {
    assert s == {t} + (s - {t});
    assert |s - {t}| == 0;
  }

  /** Moves of other tasks and of the server, other than its receive, take nobody off the waiting lockers. */
  lemma WaitersStay(l: Lock, x: Sys, m: Move, y: Sys)
    requires LockInv(l, x) && Next(l, x, m, y) && !m.LockCall? && !m.UnlockCall? && !m.ServerTake?
    ensures y.acquired == x.acquired
  {
    hide Inv, OwnersOk, SysSend, SysPollWait, SysPollAdd, SysPollRemove, Safe, Touches, Naming, SameFd, SameChannel;
    SameWaitersAcquire(l, x, m, y);
    match m
    case ServerWait => PollWaitSame(x.k, l.server, true, l.chan); Unchanged(x.k.sched, y.k.sched, l.chan);
    case ServerSkip =>
    case ServerGive => ServerGiveStep(l, x); WaitersKept(l, x, y.k);
    case ServerDrop => Unregistered(x.k, l.server, l.fd, if x.pc == Took then 1 else 2);
    case ServerAdd => Registered(x.k, l.server, l.fd, if x.pc == TookOff then 2 else 1);
    case ServerOther(a) => NamedByServer(l, x); StepSameChannel(x.k, a, l.chan); Unchanged(x.k.sched, y.k.sched, l.chan);
    case Others(a) => NamedByServer(l, x); StepSameChannel(x.k, a, l.chan); Unchanged(x.k.sched, y.k.sched, l.chan);
  }

  lemma Unchanged(sc: Sched, r: Sched, c: int)
    requires SameChannel(sc, r, c)
    ensures Q(r, Senders(c)) == Q(sc, Senders(c))
  {
  }

  lemma SameWaitersAcquire(l: Lock, x: Sys, m: Move, y: Sys)
    requires Sized(x.k) && IsTask(x.k, l.server) && Next(l, x, m, y) && !m.LockCall?
    ensures Waiters(l, y.k) == Waiters(l, x.k) ==> y.acquired == x.acquired
  {
    hide Step, Allowed;
  }

  lemma WaitersKept(l: Lock, x: Sys, k: State)
    requires Sized(x.k) && Sized(k) && IsTask(x.k, l.server) && IsTask(k, l.server)
    requires if Releasers(l, x.k) == [] then k == Return(x.k, l.server, EWOULDBLOCK)
             else Waiters(l, x.k) == [] && SentOn(x.k.sched, k.sched, l.chan, Parcel(l.server, [], NoPass))
    ensures Waiters(l, k) == Waiters(l, x.k)
  {
  }

  /** The lock is acquired only when nobody holds it, or by the very move in which its one holder unlocks. */
  lemma AcquiredWhenFree(l: Lock, x: Sys, m: Move, y: Sys)
    requires LockInv(l, x) && Next(l, x, m, y) && y.acquired != x.acquired
    ensures y.acquired == x.acquired + [y.acquired[|x.acquired|]] && y.holders == {y.acquired[|x.acquired|]}
    ensures x.holders == {} || (m.UnlockCall? && x.holders == {m.t})
  {
    hide Inv, Step, SysSend, SysRecv, SysPollWait, SysPollAdd, SysPollRemove, Safe, Enabled, Usable, Waiters;
    MoveOk(l, x, m, y);
    assert y.acquired == x.acquired + [y.acquired[|x.acquired|]];
    OnlyOne(y.holders, y.acquired[|x.acquired|]);
    if m.UnlockCall? {
      OnlyOne(x.holders, m.t);
    } else if !m.LockCall? && !m.ServerTake? {
      WaitersStay(l, x, m, y);
    }
  }

  /** Nobody owns the lock exactly when the server offers it. */
  lemma FreeWhenOffered(l: Lock, x: Sys)
    requires LockInv(l, x)
    ensures Owners(l, x) == {} <==> !Held(x.pc)
  {
    hide Inv, ServerOk;
    if Releasers(l, x.k) != [] {
      assert Releasers(l, x.k)[0] in Owners(l, x);
    }
  }

  /** A free lock with a waiting locker, or a task waiting to release, keeps the server going: it is
      never asleep in poll_wait, and its next poll_wait returns at once with an active event. */
  lemma ServerNotAsleep(l: Lock, x: Sys)
    requires LockInv(l, x)
    requires x.pc.Loop? || x.pc.Polled? ==> if x.pc.held then Releasers(l, x.k) != [] else Waiters(l, x.k) != []
    ensures x.pc.Loop? || x.k.sched.procs[l.server].status == Running
    ensures x.pc.Loop? && x.k.sched.procs[l.server].status == Running ==>
              && SysPollWait(x.k, l.server, true).Go?
              && SysPollWait(x.k, l.server, true).s.sched.procs[l.server].status == Running
              && Reports(x.k, SysPollWait(x.k, l.server, true).s, l.server)
  {
    hide Mid, SchedOk, ChansOk, KeepOk, PollsOk, Rendezvous, Quiet, Asleep, OwnersOk, SysPollWait, Reports;
    if x.pc.Polled? && x.k.sched.procs[l.server].status == PollBlocked {
      SleeperIsCalm(x.k, l.server, l.fd, if x.pc.held then EvSend else EvRecv);
    } else if x.pc.Loop? && x.k.sched.procs[l.server].status == Running {
      PollWaitReady(x.k, l.server, l.fd, if x.pc.held then EvSend else EvRecv);
    }
  }
}
