/** Who may come to hold a descriptor of a channel, who may lose one, and who passes one on. */
module KernelNames {
  import opened KernelState
  import opened KernelInvariant
  import opened KernelSteps
  import opened KernelRuns
  import opened KernelFrames

  // ----- Descriptors that come and go -----

  /** Descriptor f is not what it was. */
  predicate Written(ch: Chans, r: Chans, f: Fd) {
    if f in ch.fds then f !in r.fds || r.fds[f] != ch.fds[f] else f in r.fds
  }

  /** Action a may close or reflag descriptor number no of its own task. */
  predicate Ends(a: Action, no: int) {
    match a
    case CloseFd(_, n) => n == no
    case Dup(_, oldfd, newfd, _) => oldfd == no && newfd == no
    case Exit(_) => true
    case _ => false
  }

  /** Action a may give the channel of descriptor number no of its own task a further descriptor. */
  predicate Copies(a: Action, no: int) {
    match a
    case Dup(_, oldfd, _, _) => oldfd == no
    case Send(_, _, _, sch, _) => sch == no
    case Spawn(_, _, nos, _, _, _) => no in nos
    case _ => false
  }

  ghost predicate CopiesChannel(s: State, a: Action, c: int) {
    exists no :: Copies(a, no) && Fd(Actor(a), no) in s.chans.fds && s.chans.fds[Fd(Actor(a), no)].chan == c
  }

  /** Task t is blocked sending a message that carries channel c. */
  predicate Passes(sc: Sched, t: int, c: int) {
    IsSender(sc, t) && sc.procs[t].req.pass.Pass? && sc.procs[t].req.pass.chan == c
  }

  /** Action a receives the message of a task that passes c. */
  predicate TakesChannel(s: State, a: Action, c: int) {
    && a.Receive? && ValidChannel(s, a.t, a.no)
    && var senders := Q(s.sched, Senders(ChanAt(s.chans, Fd(a.t, a.no))));
       senders != [] && Passes(s.sched, senders[0], c)
  }

  /** Action a sends a message to task t, which waits for it. */
  predicate SendsTo(s: State, a: Action, t: int) {
    && a.Send? && ValidChannel(s, a.t, a.no)
    && var receivers := Q(s.sched, Receivers(ChanAt(s.chans, Fd(a.t, a.no))));
       receivers != [] && receivers[0] == t
  }

  /** Task t is a new one after action a. */
  predicate Starts(s: State, a: Action, t: int) {
    a.Spawn? && (!IsTask(s, t) || s.sched.procs[t].status == Dead)
  }

  /** What may become of descriptor f in action a: only its own task ends it, and it is opened only by
      its own task, in a new task, or in a task that is sent a message; and the channel it is opened on
      is new, or named by the action, or carried by the message received. */
  ghost predicate MayWrite(s: State, a: Action, r: Chans, f: Fd) {
    && (f in s.chans.fds ==> f.task == Actor(a) && Ends(a, f.no))
    && (f !in s.chans.fds ==> f.task == Actor(a) || Starts(s, a, f.task) || SendsTo(s, a, f.task))
    && (f in r.fds ==>
          var c := r.fds[f].chan;
          Naming(s.chans, c) == {} || CopiesChannel(s, a, c) || TakesChannel(s, a, c))
  }

  lemma StepWrites(s: State, a: Action, f: Fd)
    requires Sized(s) && Inv(s) && Enabled(s, a) && Safe(s, a) && Step(s, a).Go?
    requires Written(s.chans, Step(s, a).s.chans, f)
    ensures MayWrite(s, a, Step(s, a).s.chans, f)
  {
    hide Inv, MayWrite, Written, SysSpawn, SysSend, SysRecv, SysDup, SysExit,
         SysClose, SysChannel, SysPollAdd, SysPollRemove, SysPollWait, SysEventWait, Interrupt, Scheduled;
    match a
    case Spawn(t, prio, nos, len, flags, memory) => SpawnWrites(s, t, prio, nos, len, flags, memory, f);
    case Channel(t) => ChannelWrites(s, t, f);
    case CloseFd(t, no) => CloseWrites(s, t, no, f);
    case Dup(t, oldfd, newfd, flags) => DupWrites(s, t, oldfd, newfd, flags, f);
    case Exit(t) => ExitWrites(s, t, f);
    case Send(t, no, msg, sch, flags) => SendWrites(s, t, no, msg, sch, flags, f);
    case Receive(t, no, cap, wants, flags) => ReceiveWrites(s, t, no, cap, wants, flags, f);
    case PollAdd(t, no, flags) => PollAddChans(s, t, no, flags); NotWritten(s.chans, f);
    case PollRemove(t, no, flags) => PollRemoveChans(s, t, no, flags); NotWritten(s.chans, f);
    case PollWait(t, presult) => PollWaitChans(s, t, presult); NotWritten(s.chans, f);
    case EventWait(t, event) => EventWaitChans(s, t, event); NotWritten(s.chans, f);
    case Other(t, v) => NotWritten(s.chans, f);
    case Unblock(event, v) => InterruptChans(s, event, v); NotWritten(s.chans, f);
    case Schedule => ScheduledChans(s); NotWritten(s.chans, f);
  }

  lemma NotWritten(ch: Chans, f: Fd)
    ensures !Written(ch, ch, f)
  {
  }

  lemma PollAddChans(s: State, t: int, no: int, flags: int)
    requires Sized(s) && IsTask(s, t)
    ensures SysPollAdd(s, t, no, flags).Go? && SysPollAdd(s, t, no, flags).s.chans == s.chans
  {
  }

  lemma PollRemoveChans(s: State, t: int, no: int, flags: int)
    requires Sized(s) && IsTask(s, t)
    ensures SysPollRemove(s, t, no, flags).Go? && SysPollRemove(s, t, no, flags).s.chans == s.chans
  {
  }

  lemma {:induction false} HandlePollChans(s: State, t: int, ev: Ev)
    requires Sized(s) && IsTask(s, t) && KernelState.HandlePoll(s, t, ev).Go?
    ensures KernelState.HandlePoll(s, t, ev).s.chans == s.chans
    decreases |L(s.polls, OnTask(t, ev))|
  {
    var queue := L(s.polls, OnTask(t, ev));
    if queue != [] {
      var f := queue[0];
      var po := Unlinked(s.polls, f, ev);
      var c := ChanAt(s.chans, f);
      if !Active(s.sched, c, ev) {
        HandlePollChans(s.(polls := Linked(po, f, OnChannel(c, ev))), t, ev);
      }
    }
  }

  lemma PollWaitChans(s: State, t: int, presult: bool)
    requires Sized(s) && IsTask(s, t) && SysPollWait(s, t, presult).Go?
    ensures SysPollWait(s, t, presult).s.chans == s.chans
  {
    hide KernelState.HandlePoll;
    if s.polls.counts[t] != 0 && presult {
      var s0 := s.(sched := Blocked(s.sched, t, PollBlocked, Polling, Nothing));
      HandlePollChans(s0, t, EvRecv);
      var s1 := KernelState.HandlePoll(s0, t, EvRecv).s;
      if s1.sched.procs[t].status != Running { HandlePollChans(s1, t, EvSend); }
    }
  }

  lemma EventWaitChans(s: State, t: int, event: int)
    requires Sized(s) && IsTask(s, t)
    ensures SysEventWait(s, t, event).Go? && SysEventWait(s, t, event).s.chans == s.chans
  {
  }

  lemma InterruptChans(s: State, event: int, v: int)
    requires Sized(s)
    ensures Interrupt(s, event, v).chans == s.chans
  {
    WakeAllKeeps(s, Q(s.sched, Waiting(event)), v);
  }

  lemma ScheduledChans(s: State)
    requires Sized(s) && Scheduled(s).Go?
    ensures Scheduled(s).s.chans == s.chans
  {
  }

  lemma ChannelWrites(s: State, t: int, f: Fd)
    requires Sized(s) && Inv(s) && IsTask(s, t) && SysChannel(s, t).Go? && Written(s.chans, SysChannel(s, t).s.chans, f)
    ensures MayWrite(s, Channel(t), SysChannel(s, t).s.chans, f)
  {
    hide Inv, FdsOk, RefsOk, FreeOk, PoolsOk, TakeNumber, Naming;
    Pooled(s);
    FreshOk(s.chans);
    if HasNumber(s.chans.pools[t]) { NewFd(s.chans, t); }
  }

  lemma CloseWrites(s: State, t: int, no: int, f: Fd)
    requires Sized(s) && Inv(s) && IsTask(s, t) && s.sched.procs[t].status == Running && SysClose(s, t, no).Go?
    requires Written(s.chans, SysClose(s, t, no).s.chans, f)
    ensures MayWrite(s, CloseFd(t, no), SysClose(s, t, no).s.chans, f)
  {
    hide Inv, Close, Naming;
    if ValidChannel(s, t, no) { CloseOk(s, Fd(t, no)); }
  }

  lemma DupWrites(s: State, t: int, oldfd: int, newfd: int, flags: int, f: Fd)
    requires Sized(s) && Inv(s) && IsTask(s, t) && SysDup(s, t, oldfd, newfd, flags).Go?
    requires DupSafe(oldfd, newfd) || !ValidChannel(s, t, oldfd)
    requires Written(s.chans, SysDup(s, t, oldfd, newfd, flags).s.chans, f)
    ensures MayWrite(s, Dup(t, oldfd, newfd, flags), SysDup(s, t, oldfd, newfd, flags).s.chans, f)
  {
    var a := Dup(t, oldfd, newfd, flags);
    hide Inv, PoolsOk, TakeNumber, Naming, HasNumber;
    Pooled(s);
    assert Copies(a, oldfd) && Actor(a) == t;
    if ValidChannel(s, t, oldfd) {
      assert CopiesChannel(s, a, s.chans.fds[Fd(t, oldfd)].chan);
      if HasNumber(s.chans.pools[t]) { NewFd(s.chans, t); }
    }
  }

  lemma ExitWrites(s: State, t: int, f: Fd)
    requires Sized(s) && Inv(s) && IsTask(s, t) && s.sched.procs[t].status == Running && SysExit(s, t).Go?
    requires Written(s.chans, SysExit(s, t).s.chans, f)
    ensures MayWrite(s, Exit(t), SysExit(s, t).s.chans, f)
  {
    hide Inv, CloseBelow, Naming;
    var sc := s.sched;
    CloseBelowOk(s, t, MAX_TASK_CHANNELS);
    CloseBelowCounters(s, t, MAX_TASK_CHANNELS, sc.live - 1, if sc.procs[t].daemon then sc.nondaemon else sc.nondaemon - 1);
  }

  // ----- Messages -----

  /** A meeting opens at most the descriptor that the receiver gets. */
  lemma DeliverChans(mid: State, c: int)
    requires Mid(mid) && Deliver(mid, c).Go?
    ensures var senders, receivers := Q(mid.sched, Senders(c)), Q(mid.sched, Receivers(c));
            var r := Deliver(mid, c).s;
            if senders != [] && receivers != [] && IsSender(mid.sched, senders[0]) && mid.sched.procs[senders[0]].req.pass.Pass? then
              var pass := mid.sched.procs[senders[0]].req.pass;
              && 0 <= receivers[0] < |r.outs|
              && var g := Fd(receivers[0], r.outs[receivers[0]].gotFd);
                 g !in mid.chans.fds && r.chans.fds == mid.chans.fds[g := Cd(pass.chan, pass.flags)]
            else r.chans == mid.chans
  {
    hide CountsOk, LogsOk, QueuesOk, PlacedOk, KeepOk, PollsOk, FdsOk, RefsOk, FreeOk, PoolsOk, Met;
    QueueHeadsBlocked(mid.sched, c);
    if Q(mid.sched, Senders(c)) != [] && Q(mid.sched, Receivers(c)) != [] {
      MetFds(mid, c, Q(mid.sched, Senders(c))[0], Q(mid.sched, Receivers(c))[0]);
    }
  }

  lemma TriggerChans(s: State, c: int, ev: Ev)
    requires Sized(s)
    ensures TriggerAll(s, c, ev).chans == s.chans
  {
    TriggerFsChans(s, L(s.polls, OnChannel(c, ev)), ev);
  }

  lemma {:induction false} TriggerFsChans(s: State, fs: seq<Fd>, ev: Ev)
    requires Sized(s)
    ensures Trigger(s, fs, ev).chans == s.chans
    decreases |fs|
  {
    if fs != [] { TriggerFsChans(TriggerOne(s, fs[0], ev), fs[1..], ev); }
  }

  /** What becomes of the descriptors when t sends on c. */
  ghost predicate SentFds(s: State, r: State, c: int, pass: Pass)
    requires Sized(r)
  {
    var receivers := Q(s.sched, Receivers(c));
    if receivers != [] && pass.Pass? then
      && IsTask(r, receivers[0])
      && var g := Fd(receivers[0], r.outs[receivers[0]].gotFd);
         g !in s.chans.fds && r.chans.fds == s.chans.fds[g := Cd(pass.chan, pass.flags)]
    else r.chans == s.chans
  }

  lemma SentChans(s: State, t: int, c: int, msg: seq<int>, pass: Pass)
    requires Inv(s) && IsTask(s, t) && s.sched.procs[t].status == Running
    requires Holds(s.chans, t, c) && (pass.Pass? ==> Holds(s.chans, t, pass.chan))
    requires Deliver(Offered(s, t, c, msg, pass), c).Go?
    ensures var r := Deliver(Offered(s, t, c, msg, pass), c).s;
            && SentFds(s, r, c, pass)
            && (Q(r.sched, Senders(c)) != [] ==> SentFds(s, TriggerAll(r, c, EvRecv), c, pass))
  {
    assert Rendezvous(s.sched);
    hide ChansOk, KeepOk, PollsOk, Rendezvous, Quiet, Asleep, CountsOk, LogsOk, Blocked, Deliver, TriggerAll;
    var mid := Offered(s, t, c, msg, pass);
    OfferedOk(s, t, c, msg, pass);
    OfferedMid(s, t, c, msg, pass);
    OfferedParts(s, t, c, msg, pass);
    QueueHeadsBlocked(mid.sched, c);
    NeverBoth(s.sched, c);
    DeliverChans(mid, c);
    var r := Deliver(mid, c).s;
    TriggerChans(r, c, EvRecv);
    if Q(s.sched, Receivers(c)) != [] { SendMeets(s, t, c, msg, pass); }
  }

  lemma SendWrites(s: State, t: int, no: int, msg: seq<int>, sch: int, flags: int, f: Fd)
    requires Sized(s) && Inv(s) && IsTask(s, t) && s.sched.procs[t].status == Running && SysSend(s, t, no, msg, sch, flags).Go?
    requires Written(s.chans, SysSend(s, t, no, msg, sch, flags).s.chans, f)
    ensures MayWrite(s, Send(t, no, msg, sch, flags), SysSend(s, t, no, msg, sch, flags).s.chans, f)
  {
    hide Inv, Deliver, Offered, HasFlag, TriggerAll, Naming;
    var a := Send(t, no, msg, sch, flags);
    assert Copies(a, sch) && Actor(a) == t;
    if ValidChannel(s, t, no) && (sch == NONE || ValidChannel(s, t, sch)) {
      var c := s.chans.fds[Fd(t, no)].chan;
      var pass := if sch == NONE then NoPass else Pass(s.chans.fds[Fd(t, sch)].chan, s.chans.fds[Fd(t, sch)].flags);
      HoldsOpen(s.chans, Fd(t, no));
      if sch != NONE {
        HoldsOpen(s.chans, Fd(t, sch));
        assert CopiesChannel(s, a, pass.chan);
      }
      if Deliver(Offered(s, t, c, msg, pass), c).Go? {
        SentChans(s, t, c, msg, pass);
      }
    }
  }

  /** What becomes of the descriptors when t receives from c. */
  ghost predicate ReceivedFds(s: State, r: State, c: int, t: int)
    requires Sized(r) && IsTask(r, t)
  {
    var senders := Q(s.sched, Senders(c));
    if senders != [] && IsSender(s.sched, senders[0]) && s.sched.procs[senders[0]].req.pass.Pass? then
      var pass := s.sched.procs[senders[0]].req.pass;
      var g := Fd(t, r.outs[t].gotFd);
      g !in s.chans.fds && r.chans.fds == s.chans.fds[g := Cd(pass.chan, pass.flags)]
    else r.chans == s.chans
  }

  lemma ReceivedChans(s: State, t: int, c: int, cap: nat, wants: bool)
    requires Inv(s) && IsTask(s, t) && s.sched.procs[t].status == Running && Holds(s.chans, t, c)
    requires Deliver(Asked(s, t, c, cap, wants), c).Go?
    ensures var r := Deliver(Asked(s, t, c, cap, wants), c).s;
            && ReceivedFds(s, r, c, t)
            && (Q(r.sched, Receivers(c)) != [] ==> ReceivedFds(s, TriggerAll(r, c, EvSend), c, t))
  {
    assert Rendezvous(s.sched);
    hide ChansOk, KeepOk, PollsOk, Rendezvous, Quiet, Asleep, CountsOk, LogsOk, Blocked, Deliver, TriggerAll;
    var mid := Asked(s, t, c, cap, wants);
    AskedOk(s, t, c, cap, wants);
    AskedMid(s, t, c, cap, wants);
    AskedParts(s, t, c, cap, wants);
    QueueHeadsBlocked(s.sched, c);
    QueueHeadsBlocked(mid.sched, c);
    NeverBoth(s.sched, c);
    DeliverChans(mid, c);
    var r := Deliver(mid, c).s;
    TriggerChans(r, c, EvSend);
    if Q(s.sched, Senders(c)) != [] { ReceiveMeets(s, t, c, cap, wants); }
  }

  lemma ReceiveWrites(s: State, t: int, no: int, cap: nat, wants: bool, flags: int, f: Fd)
    requires Sized(s) && Inv(s) && IsTask(s, t) && s.sched.procs[t].status == Running && SysRecv(s, t, no, cap, wants, flags).Go?
    requires Written(s.chans, SysRecv(s, t, no, cap, wants, flags).s.chans, f)
    ensures MayWrite(s, Receive(t, no, cap, wants, flags), SysRecv(s, t, no, cap, wants, flags).s.chans, f)
  {
    hide Inv, Deliver, Asked, HasFlag, TriggerAll, Naming;
    if ValidChannel(s, t, no) {
      var c := s.chans.fds[Fd(t, no)].chan;
      HoldsOpen(s.chans, Fd(t, no));
      if Deliver(Asked(s, t, c, cap, wants), c).Go? {
        ReceivedChans(s, t, c, cap, wants);
      }
    }
  }

  // ----- Spawn -----

  lemma SpawnWrites(s: State, t: int, prio: int, nos: seq<int>, len: int, flags: int, memory: bool, f: Fd)
    requires Sized(s) && Inv(s) && IsTask(s, t) && s.sched.procs[t].status == Running && len <= |nos|
    requires SysSpawn(s, t, prio, nos, len, flags, memory).Go?
    requires Written(s.chans, SysSpawn(s, t, prio, nos, len, flags, memory).s.chans, f)
    ensures MayWrite(s, Spawn(t, prio, nos, len, flags, memory), SysSpawn(s, t, prio, nos, len, flags, memory).s.chans, f)
  {
    hide Inv, Started, AllocTask, MayWrite, L;
    AllocTaskOk(s, memory);
    var (s1, child) := AllocTask(s, memory);
    if SpawnArgs(s, t, prio, nos, len, flags) && child != NONE {
      AllocFrame(s, memory, t);
      StartedWrites(s, s1, Spawn(t, prio, nos, len, flags, memory), child, nos[..len], f);
    } else {
      NotWritten(s.chans, f);
    }
  }

  lemma StartedWrites(s: State, s1: State, a: Action, child: int, nos: seq<int>, f: Fd)
    requires Sized(s) && Sized(s1) && IsTask(s1, child) && a.Spawn? && IsTask(s1, a.t) && (a.len >= 0 && nos <= a.nos)
    requires s1.chans.fds == s.chans.fds && Starts(s, a, child)
    requires forall i :: 0 <= i < |nos| ==> Fd(a.t, nos[i]) in s.chans.fds
    requires forall g :: g in s.chans.fds ==> g.task != child
    requires Written(s.chans, Started(s1, a.t, child, a.prio, a.flags == SPAWN_DAEMON, nos).chans, f)
    ensures MayWrite(s, a, Started(s1, a.t, child, a.prio, a.flags == SPAWN_DAEMON, nos).chans, f)
  {
    hide Naming;
    var ch := s1.chans.(pools := s1.chans.pools[child := Pool([], |nos|)]);
    InheritedFrame(ch, a.t, child, nos, |nos|);
    InheritedOrigin(ch, a.t, child, nos, |nos|, f);
    var r := Started(s1, a.t, child, a.prio, a.flags == SPAWN_DAEMON, nos).chans;
    if f !in s.chans.fds {
      var i :| 0 <= i < |nos| && r.fds[f] == s.chans.fds[Fd(a.t, nos[i])];
      assert nos[i] == a.nos[i] && a.nos[i] in a.nos;
      assert Copies(a, nos[i]);
    }
  }

  lemma {:induction false} InheritedOrigin(ch: Chans, parent: int, child: int, nos: seq<int>, n: nat, f: Fd)
    requires n <= |nos| && forall i :: 0 <= i < |nos| ==> Fd(parent, nos[i]) in ch.fds
    ensures var r := Inherited(ch, parent, child, nos, n);
            f in r.fds && f !in ch.fds ==> f.task == child && exists i :: 0 <= i < |nos| && r.fds[f] == ch.fds[Fd(parent, nos[i])]
  {
    if n > 0 { InheritedOrigin(ch, parent, child, nos, n - 1, f); }
  }

  // ----- Tasks that block sending -----

  /** Whoever is blocked sending in r was so before, with the same message. */
  predicate NoneBlocks(sc: Sched, r: Sched) {
    forall u :: 0 <= u < |r.procs| && r.procs[u].status == SendBlocked ==> u < |sc.procs| && r.procs[u] == sc.procs[u]
  }

  /** Only a send makes its caller block sending, with the message and the channel that it names. */
  lemma StepBlocks(s: State, a: Action, u: int)
    requires Sized(s) && Inv(s) && Enabled(s, a) && Safe(s, a) && Step(s, a).Go?
    requires IsTask(Step(s, a).s, u) && Step(s, a).s.sched.procs[u].status == SendBlocked
    ensures (IsTask(s, u) && Step(s, a).s.sched.procs[u] == s.sched.procs[u]) || (a.Send? && u == a.t && SendsAs(s, a, Step(s, a).s.sched.procs[u].req))
  {
    hide Inv, SysSpawn, SysSend, SysRecv, SysDup, SysExit,
         SysClose, SysChannel, SysPollAdd, SysPollRemove, SysPollWait, SysEventWait, Interrupt, Scheduled;
    match a
    case Spawn(t, prio, nos, len, flags, memory) => SpawnBlocks(s, t, prio, nos, len, flags, memory);
    case Channel(t) => ChannelBlocks(s, t);
    case CloseFd(t, no) => CloseBlocks(s, t, no);
    case Dup(t, oldfd, newfd, flags) => DupBlocks(s, t, oldfd, newfd, flags);
    case Exit(t) => ExitBlocks(s, t);
    case Send(t, no, msg, sch, flags) => SendBlocks(s, t, no, msg, sch, flags);
    case Receive(t, no, cap, wants, flags) => ReceiveBlocks(s, t, no, cap, wants, flags);
    case PollAdd(t, no, flags) => PollCallsBlock(s, t, no, flags);
    case PollRemove(t, no, flags) => PollCallsBlock(s, t, no, flags);
    case PollWait(t, presult) => PollWaitBlocks(s, t, presult);
    case EventWait(t, event) => EventWaitBlocks(s, t, event);
    case Other(t, v) =>
    case Unblock(event, v) => WakeAllBlocks(s, Q(s.sched, Waiting(event)), v); InterruptIs(s, event, v);
    case Schedule => ScheduledBlocks(s);
  }

  /** The request of a task that blocks in action a. */
  predicate SendsAs(s: State, a: Action, req: Request)
    requires a.Send?
  {
    && ValidChannel(s, a.t, a.no) && (a.sch == NONE || ValidChannel(s, a.t, a.sch))
    && req == Sending(s.chans.fds[Fd(a.t, a.no)].chan, a.msg,
                      if a.sch == NONE then NoPass
                      else Pass(s.chans.fds[Fd(a.t, a.sch)].chan, s.chans.fds[Fd(a.t, a.sch)].flags))
  }

  lemma InterruptIs(s: State, event: int, v: int)
    requires Sized(s)
    ensures Interrupt(s, event, v) == WakeAll(s, Q(s.sched, Waiting(event)), v)
  {
  }

  lemma ParkedBlocks(sc: Sched, t: int, status: Status, q: QueueId, req: Request)
    requires 0 <= t < |sc.procs| && status != SendBlocked
    ensures NoneBlocks(sc, Blocked(sc, t, status, q, req))
  {
  }

  lemma {:induction false} WakeAllBlocks(s: State, ts: seq<int>, v: int)
    requires Sized(s)
    ensures NoneBlocks(s.sched, WakeAll(s, ts, v).sched)
    decreases |ts|
  {
    if ts != [] {
      if IsTask(s, ts[0]) {
        WakeAllBlocks(Return(s.(sched := Woken(s.sched, ts[0])), ts[0], v), ts[1..], v);
      } else {
        WakeAllBlocks(s, ts[1..], v);
      }
    }
  }

  lemma ScheduledBlocks(s: State)
    requires Sized(s) && Scheduled(s).Go?
    ensures NoneBlocks(s.sched, Scheduled(s).s.sched)
  {
  }

  lemma PollCallsBlock(s: State, t: int, no: int, flags: int)
    requires Sized(s) && IsTask(s, t)
    ensures SysPollAdd(s, t, no, flags).Go? && SysPollAdd(s, t, no, flags).s.sched == s.sched
    ensures SysPollRemove(s, t, no, flags).Go? && SysPollRemove(s, t, no, flags).s.sched == s.sched
  {
  }

  lemma EventWaitBlocks(s: State, t: int, event: int)
    requires Sized(s) && IsTask(s, t)
    ensures SysEventWait(s, t, event).Go? && NoneBlocks(s.sched, SysEventWait(s, t, event).s.sched)
  {
  }

  lemma {:induction false} HandlePollBlocks(s: State, t: int, ev: Ev)
    requires Sized(s) && IsTask(s, t) && KernelState.HandlePoll(s, t, ev).Go?
    ensures NoneBlocks(s.sched, KernelState.HandlePoll(s, t, ev).s.sched)
    decreases |L(s.polls, OnTask(t, ev))|
  {
    var queue := L(s.polls, OnTask(t, ev));
    if queue != [] {
      var f := queue[0];
      var po := Unlinked(s.polls, f, ev);
      var c := ChanAt(s.chans, f);
      if !Active(s.sched, c, ev) {
        HandlePollBlocks(s.(polls := Linked(po, f, OnChannel(c, ev))), t, ev);
      }
    }
  }

  lemma PollWaitBlocks(s: State, t: int, presult: bool)
    requires Sized(s) && IsTask(s, t) && SysPollWait(s, t, presult).Go?
    ensures NoneBlocks(s.sched, SysPollWait(s, t, presult).s.sched)
  {
    hide KernelState.HandlePoll, Blocked;
    if s.polls.counts[t] != 0 && presult {
      var s0 := s.(sched := Blocked(s.sched, t, PollBlocked, Polling, Nothing));
      ParkedBlocks(s.sched, t, PollBlocked, Polling, Nothing);
      HandlePollBlocks(s0, t, EvRecv);
      var s1 := KernelState.HandlePoll(s0, t, EvRecv).s;
      if s1.sched.procs[t].status != Running { HandlePollBlocks(s1, t, EvSend); }
    }
  }

  lemma {:induction false} TriggerBlocks(s: State, fs: seq<Fd>, ev: Ev)
    requires Sized(s)
    ensures NoneBlocks(s.sched, Trigger(s, fs, ev).sched)
    decreases |fs|
  {
    if fs != [] { TriggerBlocks(TriggerOne(s, fs[0], ev), fs[1..], ev); }
  }

  lemma DeliverBlocks(s: State, c: int)
    requires Sized(s) && Deliver(s, c).Go?
    ensures NoneBlocks(s.sched, Deliver(s, c).s.sched)
  {
    hide TakeNumber;
  }

  lemma SendBlocks(s: State, t: int, no: int, msg: seq<int>, sch: int, flags: int)
    requires Sized(s) && IsTask(s, t) && SysSend(s, t, no, msg, sch, flags).Go?
    ensures var r := SysSend(s, t, no, msg, sch, flags).s;
            forall u :: IsTask(r, u) && r.sched.procs[u].status == SendBlocked ==>
              (IsTask(s, u) && r.sched.procs[u] == s.sched.procs[u]) ||
              (u == t && SendsAs(s, Send(t, no, msg, sch, flags), r.sched.procs[u].req))
  {
    hide Deliver, HasFlag, Moved;
    if ValidChannel(s, t, no) && (sch == NONE || ValidChannel(s, t, sch)) {
      var c := s.chans.fds[Fd(t, no)].chan;
      var pass := if sch == NONE then NoPass else Pass(s.chans.fds[Fd(t, sch)].chan, s.chans.fds[Fd(t, sch)].flags);
      var mid := Offered(s, t, c, msg, pass);
      OfferedProcs(s, t, c, msg, pass);
      if Deliver(mid, c).Go? {
        DeliverBlocks(mid, c);
        TriggerBlocks(Deliver(mid, c).s, L(Deliver(mid, c).s.polls, OnChannel(c, EvRecv)), EvRecv);
      }
    }
  }

  lemma OfferedProcs(s: State, t: int, c: int, msg: seq<int>, pass: Pass)
    requires Sized(s) && IsTask(s, t)
    ensures var r := Offered(s, t, c, msg, pass).sched.procs;
            && |r| == |s.sched.procs| && r[t].req == Sending(c, msg, pass)
            && forall u :: 0 <= u < |r| && u != t ==> r[u] == s.sched.procs[u]
  {
  }

  lemma ReceiveBlocks(s: State, t: int, no: int, cap: nat, wants: bool, flags: int)
    requires Sized(s) && IsTask(s, t) && SysRecv(s, t, no, cap, wants, flags).Go?
    ensures NoneBlocks(s.sched, SysRecv(s, t, no, cap, wants, flags).s.sched)
  {
    hide Deliver, HasFlag;
    if ValidChannel(s, t, no) {
      var c := s.chans.fds[Fd(t, no)].chan;
      var mid := Asked(s, t, c, cap, wants);
      if Deliver(mid, c).Go? {
        DeliverBlocks(mid, c);
        TriggerBlocks(Deliver(mid, c).s, L(Deliver(mid, c).s.polls, OnChannel(c, EvSend)), EvSend);
      }
    }
  }

  lemma ChannelBlocks(s: State, t: int)
    requires Sized(s) && IsTask(s, t) && SysChannel(s, t).Go?
    ensures SysChannel(s, t).s.sched.procs == s.sched.procs
  {
  }

  lemma CloseBlocks(s: State, t: int, no: int)
    requires Sized(s) && IsTask(s, t) && SysClose(s, t, no).Go?
    ensures SysClose(s, t, no).s.sched == s.sched
  {
  }

  lemma DupBlocks(s: State, t: int, oldfd: int, newfd: int, flags: int)
    requires Sized(s) && IsTask(s, t) && SysDup(s, t, oldfd, newfd, flags).Go?
    ensures SysDup(s, t, oldfd, newfd, flags).s.sched == s.sched
  {
  }

  lemma ExitBlocks(s: State, t: int)
    requires Sized(s) && IsTask(s, t) && SysExit(s, t).Go?
    ensures NoneBlocks(s.sched, SysExit(s, t).s.sched)
  {
    hide CloseBelow;
    var sc := s.sched;
    var s0 := s.(sched := sc.(live := sc.live - 1, nondaemon := if sc.procs[t].daemon then sc.nondaemon else sc.nondaemon - 1));
    CloseBelowFrame(s0, t, MAX_TASK_CHANNELS);
  }

  lemma SpawnBlocks(s: State, t: int, prio: int, nos: seq<int>, len: int, flags: int, memory: bool)
    requires Sized(s) && Inv(s) && IsTask(s, t) && len <= |nos| && SysSpawn(s, t, prio, nos, len, flags, memory).Go?
    ensures NoneBlocks(s.sched, SysSpawn(s, t, prio, nos, len, flags, memory).s.sched)
  {
    hide Inv, Started, AllocTask;
    AllocBlocks(s, memory);
    var (s1, child) := AllocTask(s, memory);
    if SpawnArgs(s, t, prio, nos, len, flags) && child != NONE {
      StartedBlocks(s1, t, child, prio, flags == SPAWN_DAEMON, nos[..len]);
    }
  }

  lemma AllocBlocks(s: State, memory: bool)
    requires Sized(s) && Inv(s)
    ensures NoneBlocks(s.sched, AllocTask(s, memory).0.sched)
    ensures AllocTask(s, memory).1 != NONE ==> |AllocTask(s, memory).0.sched.procs| >= |s.sched.procs|
  {
    hide CountsOk, LogsOk, Rendezvous, ChansOk, KeepOk, PollsOk, Quiet, Asleep;
    if Q(s.sched, Free) != [] {
      assert Q(s.sched, Free)[0] in Q(s.sched, Free);
      FreeIsDead(s.sched, Q(s.sched, Free)[0]);
    }
  }

  lemma StartedBlocks(s: State, parent: int, t: int, prio: int, daemon: bool, nos: seq<int>)
    requires Sized(s) && IsTask(s, t) && IsTask(s, parent)
    ensures NoneBlocks(s.sched, Started(s, parent, t, prio, daemon, nos).sched)
  {
  }
}
