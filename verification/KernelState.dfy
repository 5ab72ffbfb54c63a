/** The state of the kernel and, for every system call and interrupt, the state it leads to.

    Structs are identified by number instead of by address: a task by its index in the lookup
    table, a channel by the order in which it was first allocated, a channel descriptor by its
    task and its descriptor number.  The fields of `struct task` and `struct channel` are grouped
    by the subsystem that uses them: scheduling, descriptors, polling, and results handed to the
    user. */
module KernelState {
  import opened Seqs

  const MAX_TASKS := 4095
  const MAX_TASK_CHANNELS := 64
  const TASK_NPRIO := 8
  const NEVENTS := 5

  const EINVAL := -3
  const ENOMEM := -4
  const EINTR := -5
  const EMFILE := -8
  const EBADF := -9
  const EWOULDBLOCK := -15
  const EFAULT := -16

  const CHAN_RECV := 1
  const CHAN_SEND := 2
  const CHAN_NONBLOCK := 4
  const RECV_NONBLOCK := 1
  const SPAWN_DAEMON := 1

  /** No task, channel or descriptor. */
  const NONE := -1

  /** Bit test on a two's complement word: `flags & bit`, for a bit that is a power of two. */
  predicate HasFlag(flags: int, bit: int)
    requires bit > 0
  {
    (flags / bit) % 2 == 1
  }

  // ----- Scheduling -----

  datatype Status = Running | SendBlocked | RecvBlocked | Dead | EventBlocked | PollBlocked

  datatype QueueId =
    | Ready(prio: int) | Senders(chan: int) | Receivers(chan: int)
    | Waiting(event: int) | Polling | Free

  /** The channel that travels with a message. */
  datatype Pass = NoPass | Pass(chan: int, flags: int)

  /** What a blocked task asked for: the union inside `struct task`. */
  datatype Request =
    | Nothing
    | Sending(chan: int, msg: seq<int>, pass: Pass)
    | Receiving(chan: int, cap: nat, wants: bool)
    | Awaiting(event: int)

  datatype Proc = Proc(gen: int, parent: int, prio: int, daemon: bool,
                       status: Status, queue: QueueId, req: Request)

  /** A message as its sender queued it. */
  datatype Parcel = Parcel(from: int, msg: seq<int>, pass: Pass)

  /** History of one channel: the messages sent on it and the receives asked of it, each in the
      order the calls blocked, and the meetings of a message with a receiver in the order they took
      place. */
  datatype Log = Log(sent: seq<Parcel>, asked: seq<int>, met: seq<(Parcel, int)>)

  datatype Sched = Sched(procs: seq<Proc>, queues: map<QueueId, seq<int>>,
                         live: int, nondaemon: int, logs: map<int, Log>)

  function Q(sc: Sched, q: QueueId): seq<int> {
    if q in sc.queues then sc.queues[q] else []
  }

  function LogOf(sc: Sched, c: int): Log {
    if c in sc.logs then sc.logs[c] else Log([], [], [])
  }

  /** `set_task_state`: take t off the queue it is on and put it at the end of q. */
  function Moved(sc: Sched, t: int, status: Status, q: QueueId): Sched
    requires 0 <= t < |sc.procs|
  {
    var from := sc.procs[t].queue;
    var qs := sc.queues[from := Without(Q(sc, from), t)];
    sc.(queues := qs[q := (if q in qs then qs[q] else []) + [t]],
        procs := sc.procs[t := sc.procs[t].(status := status, queue := q)])
  }

  function Woken(sc: Sched, t: int): Sched
    requires 0 <= t < |sc.procs|
  {
    Moved(sc, t, Running, Ready(sc.procs[t].prio))
  }

  /** Block t with a request recorded. */
  function Blocked(sc: Sched, t: int, status: Status, q: QueueId, req: Request): Sched
    requires 0 <= t < |sc.procs|
  {
    var r := Moved(sc, t, status, q);
    r.(procs := r.procs[t := r.procs[t].(req := req)])
  }

  // ----- Descriptors and channels -----

  datatype Fd = Fd(task: int, no: int)
  datatype Cd = Cd(chan: int, flags: int)

  /** Descriptor numbers of one task: those handed back, last one first, and the first never used. */
  datatype Pool = Pool(free: seq<int>, next: int)

  /** Open descriptors, number pools, reference counts and the free list of channels. */
  datatype Chans = Chans(fds: map<Fd, Cd>, pools: seq<Pool>, refs: seq<int>, freeChans: seq<int>)

  function ChanAt(ch: Chans, f: Fd): int {
    if f in ch.fds then ch.fds[f].chan else NONE
  }

  function RefOf(ch: Chans, c: int): int {
    if 0 <= c < |ch.refs| then ch.refs[c] else 0
  }

  function AddRef(ch: Chans, c: int, d: int): Chans {
    if 0 <= c < |ch.refs| then ch.(refs := ch.refs[c := ch.refs[c] + d]) else ch
  }

  /** `alloc_channel_desc` */
  function TakeNumber(p: Pool): (Pool, int) {
    if p.free == [] then
      if p.next >= MAX_TASK_CHANNELS then (p, NONE) else (p.(next := p.next + 1), p.next)
    else (p.(free := p.free[1..]), p.free[0])
  }

  predicate HasNumber(p: Pool) {
    p.free != [] || p.next < MAX_TASK_CHANNELS
  }

  /** Make f an open descriptor of c, counted. */
  function Installed(ch: Chans, f: Fd, c: int, flags: int): Chans {
    AddRef(ch, c, 1).(fds := ch.fds[f := Cd(c, flags)])
  }

  /** Take a number from the pool of t and open it on c. */
  function Opened(ch: Chans, t: int, c: int, flags: int): Chans
    requires 0 <= t < |ch.pools|
  {
    var (p, no) := TakeNumber(ch.pools[t]);
    Installed(ch.(pools := ch.pools[t := p]), Fd(t, no), c, flags)
  }

  /** The descriptor half of `close_channel`. */
  function Dropped(ch: Chans, f: Fd): Chans
    requires 0 <= f.task < |ch.pools|
  {
    var c := ChanAt(ch, f);
    var ch1 := AddRef(ch.(fds := ch.fds - {f},
                          pools := ch.pools[f.task := ch.pools[f.task].(free := [f.no] + ch.pools[f.task].free)]),
                      c, -1);
    if RefOf(ch1, c) == 0 then ch1.(freeChans := [c] + ch1.freeChans) else ch1
  }

  // ----- Polling -----

  datatype Ev = EvRecv | EvSend

  /** Is the bit of ev set in the flags of poll_add or poll_remove? */
  predicate Wanted(flags: int, ev: Ev) {
    match ev
    case EvRecv => HasFlag(flags, 1)
    case EvSend => HasFlag(flags, 2)
  }

  datatype ListId = OnChannel(chan: int, ev: Ev) | OnTask(task: int, ev: Ev)
  datatype Node = Node(fd: Fd, ev: Ev)

  /** The poll lists, the list every linked node is on, and `poll_count` of each task.  A node
      outside `at` is a singleton. */
  datatype Polls = Polls(lists: map<ListId, seq<Fd>>, at: map<Node, ListId>, counts: seq<int>)

  function L(po: Polls, l: ListId): seq<Fd> {
    if l in po.lists then po.lists[l] else []
  }

  /** `cdnode_append` */
  function Linked(po: Polls, f: Fd, l: ListId): Polls {
    po.(lists := po.lists[l := L(po, l) + [f]], at := po.at[Node(f, l.ev) := l])
  }

  /** `cdnode_delete`; a singleton is left alone. */
  function Unlinked(po: Polls, f: Fd, ev: Ev): Polls {
    var n := Node(f, ev);
    if n !in po.at then po
    else po.(lists := po.lists[po.at[n] := Without(L(po, po.at[n]), f)], at := po.at - {n})
  }

  // ----- The whole state -----

  /** Results handed to a task: the return register and the user memory the kernel writes. */
  datatype Out = Out(r0: int, inbox: seq<int>, gotFd: int, pollFd: int, pollEv: Ev)

  datatype State = State(sched: Sched, chans: Chans, polls: Polls, outs: seq<Out>)

  /** Reasons for a kernel panic. */
  datatype Fault =
    | MessageTooLong | UnwillingReceiver | OutOfDescriptors | NothingToSchedule
    | BadQueue | BadRefcount | BadPollNode | NullChannel | NotRunning

  datatype Outcome = Go(s: State) | Panic(fault: Fault)

  predicate Sized(s: State) {
    |s.sched.procs| == |s.chans.pools| == |s.polls.counts| == |s.outs| < MAX_TASKS
  }

  predicate IsTask(s: State, t: int) {
    0 <= t < |s.sched.procs|
  }

  /** Same number of tasks on both sides, and r well sized. */
  predicate Fits(s: State, r: State) {
    Sized(r) && |r.sched.procs| == |s.sched.procs|
  }

  function Return(s: State, t: int, v: int): (r: State)
    requires Sized(s) && IsTask(s, t)
    ensures Fits(s, r)
  {
    s.(outs := s.outs[t := s.outs[t].(r0 := v)])
  }

  predicate ValidChannel(s: State, t: int, no: int) {
    0 <= no < MAX_TASK_CHANNELS && Fd(t, no) in s.chans.fds
  }

  function Tid(s: State, t: int): int
    requires IsTask(s, t)
  {
    s.sched.procs[t].gen * 4096 + t + 1
  }

  // ----- Poll transitions -----

  /** `poll_check`: a sender makes RECV active, a receiver makes SEND active. */
  predicate Active(sc: Sched, c: int, ev: Ev) {
    match ev
    case EvRecv => Q(sc, Senders(c)) != []
    case EvSend => Q(sc, Receivers(c)) != []
  }

  /** Report event ev of descriptor f to its task and let the task run. */
  function Reported(s: State, f: Fd, ev: Ev): (r: State)
    requires Sized(s) && IsTask(s, f.task)
    ensures Fits(s, r)
  {
    s.(sched := Woken(s.sched, f.task),
       outs := s.outs[f.task := s.outs[f.task].(r0 := 0, pollFd := f.no, pollEv := ev)])
  }

  /** `handle_poll`: drop inactive descriptors off the front of t's queue, back to their channels;
      report the first active one, moving it to the end of the queue. */
  function HandlePoll(s: State, t: int, ev: Ev): (r: Outcome)
    requires Sized(s) && IsTask(s, t)
    ensures r.Go? ==> Fits(s, r.s)
    decreases |L(s.polls, OnTask(t, ev))|
  {
    var queue := L(s.polls, OnTask(t, ev));
    if queue == [] then Go(s)
    else
      var f := queue[0];
      if f.task != t || Node(f, ev) !in s.polls.at || s.polls.at[Node(f, ev)] != OnTask(t, ev) then Panic(BadPollNode)
      else
        var po := Unlinked(s.polls, f, ev);
        var c := ChanAt(s.chans, f);
        if Active(s.sched, c, ev) then
          Go(Reported(s.(polls := Linked(po, f, OnTask(t, ev))), f, ev))
        else
          HandlePoll(s.(polls := Linked(po, f, OnChannel(c, ev))), t, ev)
  }

  /** What triggering one descriptor comes to: it moves to its task's queue, and a task blocked in
      poll_wait is told of it. */
  function TriggerOne(s: State, f: Fd, ev: Ev): (r: State)
    requires Sized(s)
    ensures Fits(s, r)
  {
    var s1 := s.(polls := Linked(Unlinked(s.polls, f, ev), f, OnTask(f.task, ev)));
    if IsTask(s, f.task) && s.sched.procs[f.task].status == PollBlocked then Reported(s1, f, ev) else s1
  }

  /** `poll_trigger_all`, as one pass over the descriptors that were on the list. */
  function Trigger(s: State, fs: seq<Fd>, ev: Ev): (r: State)
    requires Sized(s)
    ensures Fits(s, r)
    decreases |fs|
  {
    if fs == [] then s else Trigger(TriggerOne(s, fs[0], ev), fs[1..], ev)
  }

  function TriggerAll(s: State, c: int, ev: Ev): (r: State)
    requires Sized(s)
    ensures Fits(s, r)
  {
    Trigger(s, L(s.polls, OnChannel(c, ev)), ev)
  }

  // ----- Messages -----

  predicate IsSender(sc: Sched, t: int) {
    0 <= t < |sc.procs| && sc.procs[t].status == SendBlocked && sc.procs[t].req.Sending?
  }

  predicate IsReceiver(sc: Sched, t: int) {
    0 <= t < |sc.procs| && sc.procs[t].status == RecvBlocked && sc.procs[t].req.Receiving?
  }

  /** Hand the message of snd to rcv, with the channel that travels with it, and wake both. */
  function Met(s: State, c: int, snd: int, rcv: int): (r: State)
    requires Sized(s) && IsSender(s.sched, snd) && IsReceiver(s.sched, rcv)
    ensures Fits(s, r)
  {
    var req := s.sched.procs[snd].req;
    var passing := req.pass.Pass?;
    var chans := if passing then Opened(s.chans, rcv, req.pass.chan, req.pass.flags) else s.chans;
    var got := if passing then TakeNumber(s.chans.pools[rcv]).1 else s.outs[rcv].gotFd;
    var log := LogOf(s.sched, c);
    var sched := Woken(Woken(s.sched, rcv), snd);
    State(sched.(logs := s.sched.logs[c := log.(met := log.met + [(Parcel(snd, req.msg, req.pass), rcv)])]),
          chans,
          s.polls,
          s.outs[rcv := s.outs[rcv].(r0 := |req.msg|, inbox := req.msg, gotFd := got)][snd := s.outs[snd].(r0 := 0)])
  }

  /** `handle_receive` */
  function Deliver(s: State, c: int): (r: Outcome)
    requires Sized(s)
    ensures r.Go? ==> Fits(s, r.s)
  {
    if Q(s.sched, Receivers(c)) == [] || Q(s.sched, Senders(c)) == [] then Go(s)
    else
      var snd := Q(s.sched, Senders(c))[0];
      var rcv := Q(s.sched, Receivers(c))[0];
      if !IsSender(s.sched, snd) || !IsReceiver(s.sched, rcv) then Panic(BadQueue)
      else
        var req := s.sched.procs[snd].req;
        if |req.msg| > s.sched.procs[rcv].req.cap then Panic(MessageTooLong)
        else if req.pass.Pass? && !s.sched.procs[rcv].req.wants then Panic(UnwillingReceiver)
        else if req.pass.Pass? && !HasNumber(s.chans.pools[rcv]) then Panic(OutOfDescriptors)
        else Go(Met(s, c, snd, rcv))
  }

  /** Put t on the senders of c with its message, noting the call in the channel's history. */
  function Offered(s: State, t: int, c: int, msg: seq<int>, pass: Pass): (r: State)
    requires Sized(s) && IsTask(s, t)
    ensures Fits(s, r)
  {
    var log := LogOf(s.sched, c);
    s.(sched := Blocked(s.sched, t, SendBlocked, Senders(c), Sending(c, msg, pass))
                .(logs := s.sched.logs[c := log.(sent := log.sent + [Parcel(t, msg, pass)])]))
  }

  function Asked(s: State, t: int, c: int, cap: nat, wants: bool): (r: State)
    requires Sized(s) && IsTask(s, t)
    ensures Fits(s, r)
  {
    var log := LogOf(s.sched, c);
    s.(sched := Blocked(s.sched, t, RecvBlocked, Receivers(c), Receiving(c, cap, wants))
                .(logs := s.sched.logs[c := log.(asked := log.asked + [t])]))
  }

  function SysSend(s: State, t: int, no: int, msg: seq<int>, sch: int, flags: int): (r: Outcome)
    requires Sized(s) && IsTask(s, t)
    ensures r.Go? ==> Fits(s, r.s)
  {
    if !ValidChannel(s, t, no) then Go(Return(s, t, EBADF))
    else
      var cd := s.chans.fds[Fd(t, no)];
      if !HasFlag(cd.flags, CHAN_SEND) then Go(Return(s, t, EBADF))
      else if (HasFlag(cd.flags, CHAN_NONBLOCK) || HasFlag(flags, RECV_NONBLOCK)) && Q(s.sched, Receivers(cd.chan)) == []
      then Go(Return(s, t, EWOULDBLOCK))
      else if sch != NONE && !ValidChannel(s, t, sch) then Go(Return(s, t, EBADF))
      else
        var pass := if sch == NONE then NoPass
                    else Pass(s.chans.fds[Fd(t, sch)].chan, s.chans.fds[Fd(t, sch)].flags);
        match Deliver(Offered(s, t, cd.chan, msg, pass), cd.chan)
        case Panic(fault) => Panic(fault)
        case Go(s1) =>
          Go(if Q(s1.sched, Senders(cd.chan)) != [] then TriggerAll(s1, cd.chan, EvRecv) else s1)
  }

  function SysRecv(s: State, t: int, no: int, cap: nat, wants: bool, flags: int): (r: Outcome)
    requires Sized(s) && IsTask(s, t)
    ensures r.Go? ==> Fits(s, r.s)
  {
    if !ValidChannel(s, t, no) then Go(Return(s, t, EBADF))
    else
      var cd := s.chans.fds[Fd(t, no)];
      if !HasFlag(cd.flags, CHAN_RECV) then Go(Return(s, t, EBADF))
      else if (HasFlag(cd.flags, CHAN_NONBLOCK) || HasFlag(flags, RECV_NONBLOCK)) && Q(s.sched, Senders(cd.chan)) == []
      then Go(Return(s, t, EWOULDBLOCK))
      else
        match Deliver(Asked(s, t, cd.chan, cap, wants), cd.chan)
        case Panic(fault) => Panic(fault)
        case Go(s1) =>
          Go(if Q(s1.sched, Receivers(cd.chan)) != [] then TriggerAll(s1, cd.chan, EvSend) else s1)
  }

  // ----- Polling calls -----

  function PollAddOne(s: State, f: Fd, ev: Ev, flags: int): (r: State)
    requires Sized(s) && IsTask(s, f.task)
    ensures Fits(s, r)
  {
    if !Wanted(flags, ev) || Node(f, ev) in s.polls.at then s
    else
      var c := ChanAt(s.chans, f);
      var po := Linked(s.polls, f, if Active(s.sched, c, ev) then OnTask(f.task, ev) else OnChannel(c, ev));
      s.(polls := po.(counts := po.counts[f.task := po.counts[f.task] + 1]))
  }

  function SysPollAdd(s: State, t: int, no: int, flags: int): (r: Outcome)
    requires Sized(s) && IsTask(s, t)
    ensures r.Go? ==> Fits(s, r.s)
  {
    if !ValidChannel(s, t, no) then Go(Return(s, t, EBADF))
    else
      var f := Fd(t, no);
      if Wanted(flags, EvRecv) && !HasFlag(s.chans.fds[f].flags, CHAN_RECV) then Go(Return(s, t, EBADF))
      else if Wanted(flags, EvSend) && !HasFlag(s.chans.fds[f].flags, CHAN_SEND) then Go(Return(s, t, EBADF))
      else Go(Return(PollAddOne(PollAddOne(s, f, EvRecv, flags), f, EvSend, flags), t, 0))
  }

  function PollRemoveOne(s: State, f: Fd, ev: Ev, flags: int): (r: State)
    requires Sized(s) && IsTask(s, f.task)
    ensures Fits(s, r)
  {
    if !Wanted(flags, ev) || Node(f, ev) !in s.polls.at then s
    else
      var po := Unlinked(s.polls, f, ev);
      s.(polls := po.(counts := po.counts[f.task := po.counts[f.task] - 1]))
  }

  function SysPollRemove(s: State, t: int, no: int, flags: int): (r: Outcome)
    requires Sized(s) && IsTask(s, t)
    ensures r.Go? ==> Fits(s, r.s)
  {
    if !ValidChannel(s, t, no) then Go(Return(s, t, EBADF))
    else Go(Return(PollRemoveOne(PollRemoveOne(s, Fd(t, no), EvRecv, flags), Fd(t, no), EvSend, flags), t, 0))
  }

  /** `presult` is whether the caller supplied somewhere to put the result. */
  function SysPollWait(s: State, t: int, presult: bool): (r: Outcome)
    requires Sized(s) && IsTask(s, t)
    ensures r.Go? ==> Fits(s, r.s)
  {
    if s.polls.counts[t] == 0 then Go(Return(s, t, EINVAL))
    else if !presult then Go(Return(s, t, EFAULT))
    else
      var s0 := s.(sched := Blocked(s.sched, t, PollBlocked, Polling, Nothing));
      match HandlePoll(s0, t, EvRecv)
      case Panic(fault) => Panic(fault)
      case Go(s1) =>
        if s1.sched.procs[t].status == Running then Go(s1) else HandlePoll(s1, t, EvSend)
  }

  // ----- Descriptor calls -----

  /** A channel off the free list, or a new one; its reference count starts at 0. */
  function FreshChannel(ch: Chans): (Chans, int) {
    if ch.freeChans == [] then (ch.(refs := ch.refs + [0]), |ch.refs|)
    else
      var c := ch.freeChans[0];
      (ch.(freeChans := ch.freeChans[1..], refs := if 0 <= c < |ch.refs| then ch.refs[c := 0] else ch.refs), c)
  }

  function SysChannel(s: State, t: int): (r: Outcome)
    requires Sized(s) && IsTask(s, t)
    ensures r.Go? ==> Fits(s, r.s)
  {
    if !HasNumber(s.chans.pools[t]) then Go(Return(s, t, EMFILE))
    else
      var (ch, c) := FreshChannel(s.chans);
      var no := TakeNumber(s.chans.pools[t]).1;
      var s1 := s.(chans := Opened(ch, t, c, CHAN_RECV + CHAN_SEND),
                   sched := s.sched.(queues := s.sched.queues[Senders(c) := []][Receivers(c) := []],
                                     logs := s.sched.logs[c := Log([], [], [])]),
                   polls := s.polls.(lists := s.polls.lists[OnChannel(c, EvRecv) := []][OnChannel(c, EvSend) := []]));
      Go(Return(s1, t, no))
  }

  /** `close_channel` */
  function Close(s: State, f: Fd): (r: Outcome)
    requires Sized(s) && IsTask(s, f.task)
    ensures r.Go? ==> Fits(s, r.s)
  {
    var c := ChanAt(s.chans, f);
    var s1 := s.(chans := Dropped(s.chans, f), polls := Unlinked(Unlinked(s.polls, f, EvRecv), f, EvSend));
    if RefOf(s1.chans, c) == 0 &&
       (Q(s.sched, Receivers(c)) != [] || Q(s.sched, Senders(c)) != [] ||
        L(s1.polls, OnChannel(c, EvRecv)) != [] || L(s1.polls, OnChannel(c, EvSend)) != [])
    then Panic(BadRefcount)
    else Go(s1)
  }

  function SysClose(s: State, t: int, no: int): (r: Outcome)
    requires Sized(s) && IsTask(s, t)
    ensures r.Go? ==> Fits(s, r.s)
  {
    if !ValidChannel(s, t, no) then Go(Return(s, t, EBADF))
    else
      match Close(s, Fd(t, no))
      case Panic(fault) => Panic(fault)
      case Go(s1) => Go(Return(s1, t, 0))
  }

  /** The end of `syscall_dup`: put a copy of `from` at descriptor f of the same task. */
  function DupOnto(s: State, from: Fd, f: Fd): (r: Outcome)
    requires Sized(s) && IsTask(s, f.task)
    ensures r.Go? ==> Fits(s, r.s)
  {
    match (if f in s.chans.fds then Close(s, f) else Go(s))
    case Panic(fault) => Panic(fault)
    case Go(s1) =>
      if from !in s1.chans.fds then Panic(NullChannel)
      else
        var cd := s1.chans.fds[from];
        Go(Return(s1.(chans := Installed(s1.chans, f, cd.chan, cd.flags)), f.task, f.no))
  }

  function SysDup(s: State, t: int, oldfd: int, newfd: int, flags: int): (r: Outcome)
    requires Sized(s) && IsTask(s, t)
    ensures r.Go? ==> Fits(s, r.s)
  {
    if !ValidChannel(s, t, oldfd) then Go(Return(s, t, EBADF))
    else if oldfd == newfd then
      var cd := s.chans.fds[Fd(t, oldfd)].(flags := flags);
      Go(Return(s.(chans := s.chans.(fds := s.chans.fds[Fd(t, oldfd) := cd])), t, newfd))
    else if newfd == NONE then
      if !HasNumber(s.chans.pools[t]) then Go(Return(s, t, EMFILE))
      else
        var (p, no) := TakeNumber(s.chans.pools[t]);
        DupOnto(s.(chans := s.chans.(pools := s.chans.pools[t := p])), Fd(t, oldfd), Fd(t, no))
    else if !(0 <= newfd < MAX_TASK_CHANNELS) then Go(Return(s, t, EBADF))
    else DupOnto(s, Fd(t, oldfd), Fd(t, newfd))
  }

  // ----- Tasks -----

  /** Close the open descriptors of t below n, in ascending order. */
  function CloseBelow(s: State, t: int, n: nat): (r: Outcome)
    requires Sized(s) && IsTask(s, t)
    ensures r.Go? ==> Fits(s, r.s)
  {
    if n == 0 then Go(s)
    else
      match CloseBelow(s, t, n - 1)
      case Panic(fault) => Panic(fault)
      case Go(s1) => if Fd(t, n - 1) in s1.chans.fds then Close(s1, Fd(t, n - 1)) else Go(s1)
  }

  function SysExit(s: State, t: int): (r: Outcome)
    requires Sized(s) && IsTask(s, t)
    ensures r.Go? ==> Fits(s, r.s)
  {
    if s.sched.procs[t].status != Running then Panic(NotRunning)
    else
      var sc := s.sched;
      var s0 := s.(sched := sc.(live := sc.live - 1,
                                nondaemon := if sc.procs[t].daemon then sc.nondaemon else sc.nondaemon - 1));
      match CloseBelow(s0, t, MAX_TASK_CHANNELS)
      case Panic(fault) => Panic(fault)
      case Go(s1) => Go(Return(s1.(sched := Moved(s1.sched, t, Dead, Free)), t, 0))
  }

  /** `task_alloc`: the head of the free queue with its generation raised, or a new dead task put on
      the free queue, or none.  `memory` is whether the allocator can supply a new task. */
  function AllocTask(s: State, memory: bool): (r: (State, int))
    requires Sized(s)
    ensures r.1 != NONE ==> Sized(r.0) && IsTask(r.0, r.1)
  {
    if Q(s.sched, Free) == [] then
      if |s.sched.procs| + 1 >= MAX_TASKS || !memory then (s, NONE)
      else
        var t := |s.sched.procs|;
        (State(s.sched.(procs := s.sched.procs + [Proc(0, 0, 0, false, Dead, Free, Nothing)],
                        queues := s.sched.queues[Free := [t]]),
               s.chans.(pools := s.chans.pools + [Pool([], 0)]),
               s.polls.(counts := s.polls.counts + [0]),
               s.outs + [Out(0, [], NONE, NONE, EvRecv)]), t)
    else
      var t := Q(s.sched, Free)[0];
      if !IsTask(s, t) then (s, NONE)
      else (s.(sched := s.sched.(procs := s.sched.procs[t := s.sched.procs[t].(gen := s.sched.procs[t].gen + 1)])), t)
  }

  /** The first n channels of the list `nos` of the parent, copied to descriptors 0 .. n of the child. */
  function Inherited(ch: Chans, parent: int, child: int, nos: seq<int>, n: nat): (r: Chans)
    requires n <= |nos|
    ensures r.pools == ch.pools
  {
    if n == 0 then ch
    else
      var ch1 := Inherited(ch, parent, child, nos, n - 1);
      var from := Fd(parent, nos[n - 1]);
      if from in ch.fds then Installed(ch1, Fd(child, n - 1), ch.fds[from].chan, ch.fds[from].flags) else ch1
  }

  /** Fill in a newly allocated task. */
  function Started(s: State, parent: int, t: int, prio: int, daemon: bool, nos: seq<int>): (r: State)
    requires Sized(s) && IsTask(s, t) && (parent == NONE || IsTask(s, parent))
    ensures Fits(s, r)
  {
    var sc := s.sched;
    var proc := sc.procs[t].(parent := if parent == NONE then 0 else Tid(s, parent), prio := prio, daemon := daemon);
    var sc1 := sc.(live := sc.live + 1, nondaemon := if daemon then sc.nondaemon else sc.nondaemon + 1,
                   procs := sc.procs[t := proc]);
    State(Woken(sc1, t),
          Inherited(s.chans.(pools := s.chans.pools[t := Pool([], |nos|)]), parent, t, nos, |nos|),
          s.polls.(lists := s.polls.lists[OnTask(t, EvRecv) := []][OnTask(t, EvSend) := []],
                   counts := s.polls.counts[t := 0]),
          s.outs)
  }

  function ReturnTo(s: State, t: int, v: int): (r: State)
    requires Sized(s) && (t == NONE || IsTask(s, t))
    ensures Fits(s, r)
  {
    if t == NONE then s else Return(s, t, v)
  }

  /** `nos` is the array of channels to hand on and `len` its length; no parent at boot. */
  function SysSpawn(s: State, parent: int, prio: int, nos: seq<int>, len: int, flags: int, memory: bool): (r: Outcome)
    requires Sized(s) && (parent == NONE || IsTask(s, parent))
    requires len <= |nos|
    ensures r.Go? ==> Sized(r.s) && |r.s.sched.procs| >= |s.sched.procs|
  {
    if flags != 0 && flags != SPAWN_DAEMON then Go(ReturnTo(s, parent, EINVAL))
    else if prio < 0 || prio >= TASK_NPRIO then Go(ReturnTo(s, parent, EINVAL))
    else if len < 0 || len > MAX_TASK_CHANNELS then Go(ReturnTo(s, parent, EINVAL))
    else if exists i :: 0 <= i < len && !ValidChannel(s, parent, nos[i]) then Go(ReturnTo(s, parent, EBADF))
    else
      var (s1, t) := AllocTask(s, memory);
      if t == NONE then Go(ReturnTo(s, parent, ENOMEM))
      else Go(ReturnTo(Started(s1, parent, t, prio, flags == SPAWN_DAEMON, nos[..len]), parent, Tid(s1, t)))
  }

  // ----- Events and scheduling -----

  function SysEventWait(s: State, t: int, event: int): (r: Outcome)
    requires Sized(s) && IsTask(s, t)
    ensures r.Go? ==> Fits(s, r.s)
  {
    if event < 0 || event >= NEVENTS then Go(Return(s, t, EINVAL))
    else Go(Return(s.(sched := Blocked(s.sched, t, EventBlocked, Waiting(event), Awaiting(event))), t, EINTR))
  }

  /** Wake the tasks of ts in order, each with result v. */
  function WakeAll(s: State, ts: seq<int>, v: int): (r: State)
    requires Sized(s)
    ensures Fits(s, r)
    decreases |ts|
  {
    if ts == [] then s
    else if !IsTask(s, ts[0]) then WakeAll(s, ts[1..], v)
    else WakeAll(Return(s.(sched := Woken(s.sched, ts[0])), ts[0], v), ts[1..], v)
  }

  /** `event_unblock_all` */
  function Interrupt(s: State, event: int, v: int): (r: State)
    requires Sized(s)
    ensures Fits(s, r)
  {
    WakeAll(s, Q(s.sched, Waiting(event)), v)
  }

  /** The first priority from p on with a ready task. */
  function FirstReady(sc: Sched, p: int): (r: int)
    requires 0 <= p <= TASK_NPRIO
    ensures p <= r <= TASK_NPRIO
    ensures r < TASK_NPRIO ==> Q(sc, Ready(r)) != []
    ensures forall i :: p <= i < r ==> Q(sc, Ready(i)) == []
    decreases TASK_NPRIO - p
  {
    if p == TASK_NPRIO || Q(sc, Ready(p)) != [] then p else FirstReady(sc, p + 1)
  }

  /** `schedule`: the task picked goes to the end of its queue. */
  function Scheduled(s: State): (r: Outcome)
    requires Sized(s)
    ensures r.Go? ==> Fits(s, r.s)
  {
    var p := FirstReady(s.sched, 0);
    if p == TASK_NPRIO then Panic(NothingToSchedule)
    else
      var q := Q(s.sched, Ready(p));
      Go(s.(sched := s.sched.(queues := s.sched.queues[Ready(p) := q[1..] + [q[0]]])))
  }

  function Picked(s: State): int {
    var p := FirstReady(s.sched, 0);
    if p == TASK_NPRIO then NONE else Q(s.sched, Ready(p))[0]
  }

  // ----- Steps -----

  datatype Action =
    | Spawn(t: int, prio: int, nos: seq<int>, len: int, flags: int, memory: bool)
    | Channel(t: int)
    | CloseFd(t: int, no: int)
    | Dup(t: int, oldfd: int, newfd: int, flags: int)
    | Exit(t: int)
    | Send(t: int, no: int, msg: seq<int>, sch: int, flags: int)
    | Receive(t: int, no: int, cap: nat, wants: bool, flags: int)
    | PollAdd(t: int, no: int, flags: int)
    | PollRemove(t: int, no: int, flags: int)
    | PollWait(t: int, presult: bool)
    | EventWait(t: int, event: int)
    | Other(t: int, v: int)       // calls that only return a value
    | Unblock(event: int, v: int) // an interrupt
    | Schedule

  /** System calls are made by running tasks only. */
  predicate Enabled(s: State, a: Action) {
    match a
    case Unblock(_, _) => true
    case Schedule => true
    case _ => IsTask(s, a.t) && s.sched.procs[a.t].status == Running && (a.Spawn? ==> a.len <= |a.nos|)
  }

  function Step(s: State, a: Action): (r: Outcome)
    requires Sized(s) && Enabled(s, a)
    ensures r.Go? ==> Sized(r.s) && |r.s.sched.procs| >= |s.sched.procs|
  {
    match a
    case Spawn(t, prio, nos, len, flags, memory) => SysSpawn(s, t, prio, nos, len, flags, memory)
    case Channel(t) => SysChannel(s, t)
    case CloseFd(t, no) => SysClose(s, t, no)
    case Dup(t, oldfd, newfd, flags) => SysDup(s, t, oldfd, newfd, flags)
    case Exit(t) => SysExit(s, t)
    case Send(t, no, msg, sch, flags) => SysSend(s, t, no, msg, sch, flags)
    case Receive(t, no, cap, wants, flags) => SysRecv(s, t, no, cap, wants, flags)
    case PollAdd(t, no, flags) => SysPollAdd(s, t, no, flags)
    case PollRemove(t, no, flags) => SysPollRemove(s, t, no, flags)
    case PollWait(t, presult) => SysPollWait(s, t, presult)
    case EventWait(t, event) => SysEventWait(s, t, event)
    case Other(t, v) => Go(Return(s, t, v))
    case Unblock(event, v) => Go(Interrupt(s, event, v))
    case Schedule => Scheduled(s)
  }

  /** The state after `init_tasks`. */
  const INIT: State := State(Sched([], map[], 0, 0, map[]), Chans(map[], [], [], []), Polls(map[], map[], []), [])
}
