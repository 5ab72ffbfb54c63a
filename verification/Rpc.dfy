/** Request and reply over channels: a client sends its request together with a new reply channel and
    waits for an answer there; whoever receives the request answers on the descriptor that came with it
    and closes it.  One such call is followed here through the kernel of `KernelState`, among any number
    of other clients, servers and tasks. */
module Rpc {
  import opened KernelState
  import opened KernelInvariant
  import opened KernelSteps
  import opened KernelRuns
  import opened KernelFrames
  import opened KernelNames

  /** The call of `MsgSend` that is followed: the client, its descriptor of the service channel svc, its
      descriptor of the reply channel rc, the request, and the descriptor numbers that it had open
      before it made the reply channel. */
  datatype Call = Call(client: int, no: int, svc: int, fd: int, rc: int, req: seq<int>, base: set<int>)

  /** How far the request has come.  `x` is the descriptor of the reply channel that its receiver got. */
  datatype Phase =
    | Idle                                                         // about to be sent
    | Queued                                                       // waiting on the service channel
    | Taken(server: int, x: int)                                   // received
    | Answered(server: int, x: int, reply: seq<int>, pass: Pass)   // the reply has been sent

  /** The kernel, the request, and which of the remaining calls have been made: the client's receive on
      the reply channel, its close, and the server's close. */
  datatype Sys = Sys(k: State, phase: Phase, asked: bool, closed: bool, dropped: bool)

  const FULL := CHAN_RECV + CHAN_SEND

  predicate Received(p: Phase) {
    p.Taken? || p.Answered?
  }

  // ----- Moves -----

  datatype Move =
    | SendCall                                // MsgSend: send the request
    | AskCall(cap: nat, wants: bool)          // MsgSend: receive on the reply channel
    | CloseCall                               // MsgSend: close the reply channel
    | ReplyCall(reply: seq<int>, sch: int)    // MsgReply: send the reply
    | DropCall                                // MsgReply: close the reply channel
    | Others(a: Action)                       // anything else, by any task

  function ServerOf(p: Phase): Fd {
    if Received(p) then Fd(p.server, p.x) else Fd(NONE, NONE)
  }

  /** The system call that a move makes. */
  function ActionOf(l: Call, x: Sys, m: Move): Action {
    match m
    case SendCall => Send(l.client, l.no, l.req, l.fd, 0)
    case AskCall(cap, wants) => Receive(l.client, l.fd, cap, wants, 0)
    case CloseCall => CloseFd(l.client, l.fd)
    case ReplyCall(reply, sch) => Send(ServerOf(x.phase).task, ServerOf(x.phase).no, reply, sch, 0)
    case DropCall => CloseFd(ServerOf(x.phase).task, ServerOf(x.phase).no)
    case Others(a) => a
  }

  /** Action a leaves descriptor number no of its task to `MsgReply`. */
  predicate LeavesReply(a: Action, no: int) {
    !Ends(a, no) && !Copies(a, no) && (a.Send? || a.Receive? ==> a.no != no)
  }

  /** When a move may be made.  The client makes no other calls meanwhile, and the server uses the
      descriptor that came with the request only to answer. */
  predicate Allowed(l: Call, x: Sys, m: Move)
    requires Sized(x.k)
  {
    && Enabled(x.k, ActionOf(l, x, m)) && Safe(x.k, ActionOf(l, x, m))
    && match m
       case SendCall => x.phase == Idle
       case AskCall(_, _) => x.phase != Idle && !x.asked
       case CloseCall => x.asked && !x.closed
       case ReplyCall(reply, sch) => x.phase.Taken? && (sch == NONE || (ValidChannel(x.k, x.phase.server, sch) && sch != x.phase.x))
       case DropCall => x.phase.Answered? && !x.dropped
       case Others(a) =>
         && (Actor(a) == l.client ==> x.closed)
         && (Received(x.phase) && !x.dropped && Actor(a) == x.phase.server ==> LeavesReply(a, x.phase.x))
  }

  /** The descriptor that task t was handed last. */
  function Got(k: State, t: int): int {
    if 0 <= t < |k.outs| then k.outs[t].gotFd else NONE
  }

  /** The channel that descriptor sch lets a message carry. */
  function PassOf(k: State, t: int, sch: int): Pass {
    if sch == NONE || Fd(t, sch) !in k.chans.fds then NoPass else Pass(k.chans.fds[Fd(t, sch)].chan, k.chans.fds[Fd(t, sch)].flags)
  }

  function NextPhase(l: Call, x: Sys, m: Move, k: State): Phase {
    match m
    case SendCall =>
      var receivers := Q(x.k.sched, Receivers(l.svc));
      if receivers == [] then Queued else Taken(receivers[0], Got(k, receivers[0]))
    case ReplyCall(reply, sch) =>
      if !x.phase.Taken? then x.phase
      else Answered(x.phase.server, x.phase.x, reply, PassOf(x.k, x.phase.server, sch))
    case Others(a) =>
      if x.phase == Queued && l.client !in Q(k.sched, Senders(l.svc)) then Taken(Actor(a), Got(k, Actor(a))) else x.phase
    case _ => x.phase
  }

  function After(l: Call, x: Sys, m: Move, k: State): Sys {
    Sys(k, NextPhase(l, x, m, k), x.asked || m.AskCall?, x.closed || m.CloseCall?, x.dropped || m.DropCall?)
  }

  // ----- Invariant -----

  /** Who holds a descriptor of the reply channel: the client until it closes it, and whoever received
      the request until it closes its own. */
  predicate Holder(l: Call, x: Sys, f: Fd) {
    || (f == Fd(l.client, l.fd) && !x.closed)
    || (Received(x.phase) && f == Fd(x.phase.server, x.phase.x) && !x.dropped)
  }

  ghost predicate NamesOk(l: Call, x: Sys) {
    && (forall f :: f in x.k.chans.fds && x.k.chans.fds[f].chan == l.rc ==> Holder(l, x, f))
    && (forall f :: Holder(l, x, f) ==> f in x.k.chans.fds && x.k.chans.fds[f] == Cd(l.rc, FULL))
  }

  /** The reply channel travels only with the request. */
  ghost predicate PassesOk(l: Call, x: Sys) {
    forall t :: Passes(x.k.sched, t, l.rc) ==> x.phase == Queued && t == l.client
  }

  /** At most one message is ever sent on the reply channel, and one receive asked of it. */
  ghost predicate LogIs(l: Call, x: Sys) {
    var log := LogOf(x.k.sched, l.rc);
    && log.sent == (if x.phase.Answered? then [Parcel(x.phase.server, x.phase.reply, x.phase.pass)] else [])
    && log.asked == (if x.asked then [l.client] else [])
    && |log.met| == if x.phase.Answered? && x.asked then 1 else 0
  }

  ghost predicate ClientOk(l: Call, x: Sys)
    requires Sized(x.k) && IsTask(x.k, l.client)
  {
    var p := x.k.sched.procs[l.client];
    var out := x.k.outs[l.client];
    match x.phase
    case Idle =>
      && p.status == Running && l.no != l.fd && ValidChannel(x.k, l.client, l.no)
      && var cd := x.k.chans.fds[Fd(l.client, l.no)];
         cd.chan == l.svc && HasFlag(cd.flags, CHAN_SEND) && !HasFlag(cd.flags, CHAN_NONBLOCK)
    case Queued =>
      p.status == SendBlocked && l.client in Q(x.k.sched, Senders(l.svc)) && p.req == Sending(l.svc, l.req, Pass(l.rc, FULL))
    case Taken(_, _) =>
      !x.asked ==> p.status == Running && out.r0 == 0
    case Answered(_, _, reply, _) =>
      p.status == Running && (x.asked ==> out.inbox == reply && out.r0 == |reply|)
  }

  /** The client's descriptors: those it had, the reply channel's, and one that came with the reply. */
  ghost predicate BaseOk(l: Call, x: Sys) {
    forall n :: Fd(l.client, n) in x.k.chans.fds <==>
      n in l.base || n == l.fd || (x.phase.Answered? && x.asked && x.phase.pass.Pass? && n == Got(x.k, l.client))
  }

  ghost predicate ShapeOk(l: Call, x: Sys) {
    && l.svc != l.rc && 0 <= l.fd < MAX_TASK_CHANNELS && l.fd !in l.base
    && (Received(x.phase) ==> x.phase.server != l.client && (x.dropped || IsTask(x.k, x.phase.server)))
    && (x.asked ==> Received(x.phase)) && (x.closed ==> x.asked && x.phase.Answered?) && (x.dropped ==> x.phase.Answered?)
  }

  ghost predicate CallInv(l: Call, x: Sys) {
    && Sized(x.k) && Inv(x.k) && IsTask(x.k, l.client) && ShapeOk(l, x)
    && (!x.closed || !x.dropped ==> NamesOk(l, x) && PassesOk(l, x) && LogIs(l, x))
    && (!x.closed ==> ClientOk(l, x) && BaseOk(l, x))
  }

  // ----- The two calls on a channel, once more, with all they do -----

  /** Everything that a send on c does to the channel, the descriptors and the receiver. */
  ghost predicate SendDone(s: State, r: State, t: int, c: int, msg: seq<int>, pass: Pass)
    requires Sized(s) && Sized(r) && IsTask(s, t) && IsTask(r, t)
  {
    && SentOn(s.sched, r.sched, c, Parcel(t, msg, pass)) && SentFds(s, r, c, pass)
    && (Q(s.sched, Receivers(c)) != [] ==>
          var rcv := Q(s.sched, Receivers(c))[0];
          && IsTask(s, rcv) && IsTask(r, rcv) && rcv != t
          && r.sched.procs[t].status == Running && r.sched.procs[rcv].status == Running
          && r.outs[t].r0 == 0 && r.outs[rcv].r0 == |msg| && r.outs[rcv].inbox == msg)
  }

  lemma SendDoes(s: State, t: int, no: int, msg: seq<int>, sch: int, flags: int)
    requires Sized(s) && Inv(s) && IsTask(s, t) && s.sched.procs[t].status == Running && ValidChannel(s, t, no)
    requires sch == NONE || ValidChannel(s, t, sch)
    requires SysSend(s, t, no, msg, sch, flags).Go?
    ensures var r := SysSend(s, t, no, msg, sch, flags).s;
            var cd := s.chans.fds[Fd(t, no)];
            var pass := if sch == NONE then NoPass else Pass(s.chans.fds[Fd(t, sch)].chan, s.chans.fds[Fd(t, sch)].flags);
            if HasFlag(cd.flags, CHAN_SEND) && ((!HasFlag(cd.flags, CHAN_NONBLOCK) && !HasFlag(flags, RECV_NONBLOCK)) || Q(s.sched, Receivers(cd.chan)) != [])
            then SendDone(s, r, t, cd.chan, msg, pass)
            else r.sched == s.sched && r.chans == s.chans
  {
    hide Inv, Deliver, Offered, HasFlag, TriggerAll, SentOn, SentFds;
    var c := s.chans.fds[Fd(t, no)].chan;
    var pass := if sch == NONE then NoPass else Pass(s.chans.fds[Fd(t, sch)].chan, s.chans.fds[Fd(t, sch)].flags);
    HoldsOpen(s.chans, Fd(t, no));
    if sch != NONE { HoldsOpen(s.chans, Fd(t, sch)); }
    if Deliver(Offered(s, t, c, msg, pass), c).Go? {
      SendShape(s, t, c, msg, pass);
      SentChans(s, t, c, msg, pass);
      if Q(s.sched, Receivers(c)) != [] { SendMeets(s, t, c, msg, pass); }
    }
  }

  /** Everything that a receive from c does to the channel, the descriptors and the sender. */
  ghost predicate ReceiveDone(s: State, r: State, t: int, c: int)
    requires Sized(s) && Sized(r) && IsTask(s, t) && IsTask(r, t)
  {
    && ReceivedOn(s.sched, r.sched, c, t) && ReceivedFds(s, r, c, t)
    && (Q(s.sched, Senders(c)) != [] ==>
          var snd := Q(s.sched, Senders(c))[0];
          && IsTask(s, snd) && IsTask(r, snd) && snd != t && s.sched.procs[snd].req.Sending?
          && r.sched.procs[t].status == Running && r.sched.procs[snd].status == Running
          && r.outs[snd].r0 == 0
          && r.outs[t].r0 == |s.sched.procs[snd].req.msg| && r.outs[t].inbox == s.sched.procs[snd].req.msg)
  }

  lemma ReceiveDoes(s: State, t: int, no: int, cap: nat, wants: bool, flags: int)
    requires Sized(s) && Inv(s) && IsTask(s, t) && s.sched.procs[t].status == Running && ValidChannel(s, t, no)
    requires SysRecv(s, t, no, cap, wants, flags).Go?
    ensures var r := SysRecv(s, t, no, cap, wants, flags).s;
            var cd := s.chans.fds[Fd(t, no)];
            if HasFlag(cd.flags, CHAN_RECV) && ((!HasFlag(cd.flags, CHAN_NONBLOCK) && !HasFlag(flags, RECV_NONBLOCK)) || Q(s.sched, Senders(cd.chan)) != [])
            then ReceiveDone(s, r, t, cd.chan)
            else r.sched == s.sched && r.chans == s.chans
  {
    hide Inv, Deliver, Asked, HasFlag, TriggerAll, ReceivedOn, ReceivedFds;
    var c := s.chans.fds[Fd(t, no)].chan;
    HoldsOpen(s.chans, Fd(t, no));
    if Deliver(Asked(s, t, c, cap, wants), c).Go? {
      ReceiveShape(s, t, c, cap, wants);
      ReceivedChans(s, t, c, cap, wants);
      if Q(s.sched, Senders(c)) != [] { ReceiveMeets(s, t, c, cap, wants); }
    }
  }

  // ----- What other tasks leave alone -----

  /** Somebody holds the reply channel as long as one side has not closed it. */
  lemma Named(l: Call, x: Sys)
    requires NamesOk(l, x) && (!x.closed || (Received(x.phase) && !x.dropped))
    ensures Naming(x.k.chans, l.rc) != {}
  {
    var f := if x.closed then Fd(x.phase.server, x.phase.x) else Fd(l.client, l.fd);
    assert Holder(l, x, f);
    assert f in Naming(x.k.chans, l.rc);
  }

  /** No other action sends or receives on the reply channel, or copies it. */
  lemma NotUsed(l: Call, x: Sys, a: Action)
    requires Sized(x.k) && NamesOk(l, x) && Allowed(l, x, Others(a))
    ensures !Touches(x.k, a, l.rc) && !CopiesChannel(x.k, a, l.rc)
    ensures a.Send? && a.sch != NONE && ValidChannel(x.k, a.t, a.sch) ==> x.k.chans.fds[Fd(a.t, a.sch)].chan != l.rc
  {
    forall no | Fd(Actor(a), no) in x.k.chans.fds && x.k.chans.fds[Fd(Actor(a), no)].chan == l.rc
      ensures !Copies(a, no) && !Ends(a, no) && (a.Send? || a.Receive? ==> a.no != no)
    {
      assert Holder(l, x, Fd(Actor(a), no));
    }
  }

  /** Action a receives from the service channel while the request is the first one there. */
  predicate MayTake(l: Call, x: Sys, a: Action) {
    && x.phase == Queued && a.Receive? && ValidChannel(x.k, a.t, a.no) && ChanAt(x.k.chans, Fd(a.t, a.no)) == l.svc
    && Q(x.k.sched, Senders(l.svc)) != [] && Q(x.k.sched, Senders(l.svc))[0] == l.client
  }

  lemma OnlyRequestTakes(l: Call, x: Sys, a: Action)
    requires Sized(x.k) && IsTask(x.k, l.client) && QueuesOk(x.k.sched) && PlacedOk(x.k.sched) && PassesOk(l, x)
    requires x.phase == Queued ==> x.k.sched.procs[l.client].req == Sending(l.svc, l.req, Pass(l.rc, FULL))
    requires TakesChannel(x.k, a, l.rc)
    ensures MayTake(l, x, a)
  {
    var c := ChanAt(x.k.chans, Fd(a.t, a.no));
    HeadsBlocked(x.k.sched, c);
    assert Q(x.k.sched, Senders(c))[0] in Q(x.k.sched, Senders(c));
  }

  /** The descriptors of the reply channel stay with their holders. */
  lemma OthersNames(l: Call, x: Sys, a: Action, r: Sys)
    requires Sized(x.k) && Inv(x.k) && IsTask(x.k, l.client) && Allowed(l, x, Others(a)) && Step(x.k, a).Go?
    requires NamesOk(l, x) && PassesOk(l, x) && (!x.closed || (Received(x.phase) && !x.dropped))
    requires x.phase == Queued ==> x.k.sched.procs[l.client].req == Sending(l.svc, l.req, Pass(l.rc, FULL))
    requires !MayTake(l, x, a)
    requires r.k == Step(x.k, a).s && r.phase == x.phase && r.closed == x.closed && r.dropped == x.dropped
    ensures NamesOk(l, r)
  {
    forall f ensures Written(x.k.chans, r.k.chans, f) ==>
      !(f in x.k.chans.fds && x.k.chans.fds[f].chan == l.rc) && !(f in r.k.chans.fds && r.k.chans.fds[f].chan == l.rc)
    {
      if Written(x.k.chans, r.k.chans, f) { NotOfReply(l, x, a, f); }
    }
    forall f ensures Holder(l, r, f) <==> Holder(l, x, f) {}
    forall f | Holder(l, r, f) ensures f in r.k.chans.fds && r.k.chans.fds[f] == Cd(l.rc, FULL) {
      assert !Written(x.k.chans, r.k.chans, f);
    }
    forall f | f in r.k.chans.fds && r.k.chans.fds[f].chan == l.rc ensures Holder(l, r, f) {
      assert !Written(x.k.chans, r.k.chans, f);
    }
  }

  lemma NotOfReply(l: Call, x: Sys, a: Action, f: Fd)
    requires Sized(x.k) && Inv(x.k) && IsTask(x.k, l.client) && Allowed(l, x, Others(a)) && Step(x.k, a).Go?
    requires NamesOk(l, x) && PassesOk(l, x) && (!x.closed || (Received(x.phase) && !x.dropped))
    requires x.phase == Queued ==> x.k.sched.procs[l.client].req == Sending(l.svc, l.req, Pass(l.rc, FULL))
    requires !MayTake(l, x, a) && Written(x.k.chans, Step(x.k, a).s.chans, f)
    ensures !(f in x.k.chans.fds && x.k.chans.fds[f].chan == l.rc)
    ensures !(f in Step(x.k, a).s.chans.fds && Step(x.k, a).s.chans.fds[f].chan == l.rc)
  {
    assert QueuesOk(x.k.sched) && PlacedOk(x.k.sched);
    hide Inv, Step, Naming, CopiesChannel, TakesChannel, PassesOk, QueuesOk, PlacedOk, Written, MayTake;
    StepWrites(x.k, a, f);
    NotUsed(l, x, a);
    Named(l, x);
    if TakesChannel(x.k, a, l.rc) { OnlyRequestTakes(l, x, a); }
  }

  /** Nobody else begins to pass the reply channel. */
  lemma OthersPasses(l: Call, x: Sys, a: Action, t: int)
    requires Sized(x.k) && Inv(x.k) && Allowed(l, x, Others(a)) && Step(x.k, a).Go? && NamesOk(l, x)
    requires Passes(Step(x.k, a).s.sched, t, l.rc)
    ensures Passes(x.k.sched, t, l.rc) && Step(x.k, a).s.sched.procs[t] == x.k.sched.procs[t]
  {
    hide Inv, Step, NamesOk, Touches, CopiesChannel;
    StepBlocks(x.k, a, t);
    NotUsed(l, x, a);
  }

  lemma OthersLog(l: Call, x: Sys, a: Action, r: Sys)
    requires Sized(x.k) && Inv(x.k) && Allowed(l, x, Others(a)) && Step(x.k, a).Go?
    requires NamesOk(l, x) && LogIs(l, x) && (!x.closed || (Received(x.phase) && !x.dropped))
    requires r.k == Step(x.k, a).s && r.asked == x.asked && r.phase.Answered? == x.phase.Answered?
    requires x.phase.Answered? ==> r.phase == x.phase
    ensures LogIs(l, r)
  {
    hide Inv, Step, NamesOk, Touches, CopiesChannel, Naming;
    NotUsed(l, x, a);
    Named(l, x);
    StepSameChannel(x.k, a, l.rc);
  }

  lemma ClientProc(l: Call, x: Sys)
    requires Sized(x.k) && IsTask(x.k, l.client) && ClientOk(l, x)
    ensures x.phase == Queued ==> x.k.sched.procs[l.client].req == Sending(l.svc, l.req, Pass(l.rc, FULL))
    ensures x.phase == Queued ==> x.k.sched.procs[l.client].status == SendBlocked && l.client in Q(x.k.sched, Senders(l.svc))
    ensures x.phase != Queued && !(x.phase.Taken? && x.asked) ==> x.k.sched.procs[l.client].status == Running
  {
  }

  /** A waiting sender waits on when another task sends on the channel. */
  lemma WaitsThroughSend(s: State, a: Action, u: int, c: int)
    requires Sized(s) && Inv(s) && Enabled(s, a) && a.Send? && Touches(s, a, c) && u in Q(s.sched, Senders(c))
    requires SysSend(s, a.t, a.no, a.msg, a.sch, a.flags).Go?
    ensures u in Q(SysSend(s, a.t, a.no, a.msg, a.sch, a.flags).s.sched, Senders(c))
  {
    assert Rendezvous(s.sched);
    hide Inv, Rendezvous, HasFlag, SentFds, Deliver, Offered, TriggerAll;
    NeverBoth(s.sched, c);
    if a.sch == NONE || ValidChannel(s, a.t, a.sch) {
      SendDoes(s, a.t, a.no, a.msg, a.sch, a.flags);
      hide SysSend;
    }
  }

  /** When another task receives, a waiting sender waits on unless it is the first. */
  lemma WaitsThroughReceive(s: State, a: Action, u: int, c: int)
    requires Sized(s) && Inv(s) && Enabled(s, a) && a.Receive? && Touches(s, a, c) && u in Q(s.sched, Senders(c))
    requires SysRecv(s, a.t, a.no, a.cap, a.wants, a.flags).Go?
    ensures var r := SysRecv(s, a.t, a.no, a.cap, a.wants, a.flags).s;
            || (r.sched == s.sched && r.chans == s.chans)
            || (ReceiveDone(s, r, a.t, c) && (Q(s.sched, Senders(c))[0] != u ==> u in Q(r.sched, Senders(c))))
  {
    hide Inv, HasFlag, ReceivedFds, SysRecv;
    ReceiveDoes(s, a.t, a.no, a.cap, a.wants, a.flags);
    var senders := Q(s.sched, Senders(c));
    assert senders == [senders[0]] + senders[1..];
  }

  /** While the request waits, either it goes on waiting or it is received. */
  lemma QueuedStays(l: Call, x: Sys, a: Action)
    requires Sized(x.k) && Inv(x.k) && IsTask(x.k, l.client) && ClientOk(l, x) && x.phase == Queued
    requires Enabled(x.k, a) && Safe(x.k, a) && Actor(a) != l.client && Step(x.k, a).Go?
    ensures !MayTake(l, x, a) ==> l.client in Q(Step(x.k, a).s.sched, Senders(l.svc))
    ensures MayTake(l, x, a) ==>
              var r := Step(x.k, a).s;
              IsTask(r, a.t) && ((r.sched == x.k.sched && r.chans == x.k.chans) || ReceiveDone(x.k, r, a.t, l.svc))
  {
    ServiceNamed(l, x);
    ClientProc(l, x);
    hide Inv, ClientOk, Step, HasFlag, ReceiveDone, Naming, Safe;
    StepIs(x.k, a);
    if !Touches(x.k, a, l.svc) {
      StepSameChannel(x.k, a, l.svc);
    } else if a.Send? {
      WaitsThroughSend(x.k, a, l.client, l.svc);
    } else {
      WaitsThroughReceive(x.k, a, l.client, l.svc);
    }
  }

  lemma ServiceNamed(l: Call, x: Sys)
    requires Sized(x.k) && Inv(x.k) && IsTask(x.k, l.client) && ClientOk(l, x) && x.phase == Queued
    ensures Naming(x.k.chans, l.svc) != {}
  {
    assert Keeps(x.k.chans, l.client, x.k.sched.procs[l.client]);
    hide Inv;
  }

  lemma StepIs(s: State, a: Action)
    requires Sized(s) && Enabled(s, a)
    ensures a.Send? ==> Step(s, a) == SysSend(s, a.t, a.no, a.msg, a.sch, a.flags)
    ensures a.Receive? ==> Step(s, a) == SysRecv(s, a.t, a.no, a.cap, a.wants, a.flags)
    ensures a.CloseFd? ==> Step(s, a) == SysClose(s, a.t, a.no)
  {
  }

  /** The client waits for the reply on the reply channel only. */
  lemma WaitsForReply(l: Call, x: Sys)
    requires Sized(x.k) && Inv(x.k) && LogIs(l, x) && x.asked && !x.phase.Answered?
    ensures Q(x.k.sched, Receivers(l.rc)) == [l.client] && Q(x.k.sched, Senders(l.rc)) == []
  {
    assert LogOk(x.k.sched, l.rc);
    hide Inv;
  }

  lemma NotSentTo(l: Call, x: Sys, a: Action)
    requires Sized(x.k) && Inv(x.k) && IsTask(x.k, l.client) && !x.closed && Allowed(l, x, Others(a))
    requires NamesOk(l, x) && ClientOk(l, x) && LogIs(l, x)
    ensures !SendsTo(x.k, a, l.client)
  {
    if SendsTo(x.k, a, l.client) {
      var c := ChanAt(x.k.chans, Fd(a.t, a.no));
      assert QueuesOk(x.k.sched) && PlacedOk(x.k.sched);
      hide Inv, NamesOk, Safe, Enabled;
      HeadsBlocked(x.k.sched, c);
      assert l.client in Q(x.k.sched, Receivers(c));
      WaitsForReply(l, x);
      HeadsBlocked(x.k.sched, l.rc);
      assert l.client in Q(x.k.sched, Receivers(l.rc));
      NotUsed(l, x, a);
    }
  }

  /** Other tasks neither open nor close descriptors of the client. */
  lemma OthersBase(l: Call, x: Sys, a: Action, n: int)
    requires Sized(x.k) && Inv(x.k) && IsTask(x.k, l.client) && !x.closed && Allowed(l, x, Others(a)) && Step(x.k, a).Go?
    requires NamesOk(l, x) && ClientOk(l, x) && LogIs(l, x)
    ensures Fd(l.client, n) in Step(x.k, a).s.chans.fds <==> Fd(l.client, n) in x.k.chans.fds
  {
    hide Inv, Step, NamesOk, ClientOk, LogIs, Safe, Enabled, SendsTo;
    NotSentTo(l, x, a);
    ClientAlive(l, x);
    OwnedKept(x.k, a, Fd(l.client, n));
  }

  lemma OwnedKept(s: State, a: Action, f: Fd)
    requires Sized(s) && Inv(s) && Enabled(s, a) && Safe(s, a) && Step(s, a).Go?
    requires IsTask(s, f.task) && Actor(a) != f.task && !SendsTo(s, a, f.task) && s.sched.procs[f.task].status != Dead
    ensures f in Step(s, a).s.chans.fds <==> f in s.chans.fds
  {
    hide Inv, Step, Safe, Enabled, SendsTo, CopiesChannel, TakesChannel, Naming;
    if Written(s.chans, Step(s, a).s.chans, f) { StepWrites(s, a, f); }
  }

  lemma ClientAlive(l: Call, x: Sys)
    requires Sized(x.k) && Inv(x.k) && IsTask(x.k, l.client) && ClientOk(l, x) && LogIs(l, x)
    ensures x.k.sched.procs[l.client].status != Dead
  {
    if x.phase.Taken? && x.asked {
      assert QueuesOk(x.k.sched) && PlacedOk(x.k.sched);
      WaitsForReply(l, x);
      hide Inv;
      HeadsBlocked(x.k.sched, l.rc);
      assert l.client in Q(x.k.sched, Receivers(l.rc));
    }
  }

  /** A running task keeps everything through the steps of others. */
  lemma RunningKept(s: State, a: Action, u: int)
    requires Sized(s) && Inv(s) && Enabled(s, a) && Safe(s, a) && Step(s, a).Go?
    requires IsTask(s, u) && Actor(a) != u && s.sched.procs[u].status == Running
    ensures var r := Step(s, a).s;
            && IsTask(r, u) && r.sched.procs[u] == s.sched.procs[u] && r.outs[u] == s.outs[u]
            && forall no :: Fd(u, no) in s.chans.fds ==> Fd(u, no) in r.chans.fds && r.chans.fds[Fd(u, no)] == s.chans.fds[Fd(u, no)]
  {
    hide Inv, Step, Safe, Enabled;
    StepUndisturbed(s, a, u);
  }

  /** So does one that goes on waiting to send. */
  lemma SenderKept(s: State, a: Action, u: int, c: int)
    requires Sized(s) && Inv(s) && Enabled(s, a) && Safe(s, a) && Step(s, a).Go? && Inv(Step(s, a).s)
    requires IsTask(s, u) && Actor(a) != u && u in Q(Step(s, a).s.sched, Senders(c))
    ensures var r := Step(s, a).s; IsTask(r, u) && r.sched.procs[u] == s.sched.procs[u]
  {
    assert QueuesOk(Step(s, a).s.sched) && PlacedOk(Step(s, a).s.sched);
    hide Inv, Step, Safe, Enabled;
    HeadsBlocked(Step(s, a).s.sched, c);
    StepBlocks(s, a, u);
  }

  /** The client through a step of another task that does not receive its request. */
  lemma OthersClient(l: Call, x: Sys, a: Action, r: Sys)
    requires Sized(x.k) && Inv(x.k) && IsTask(x.k, l.client) && Enabled(x.k, a) && Safe(x.k, a) && Step(x.k, a).Go?
    requires Actor(a) != l.client && ClientOk(l, x)
    requires r == Sys(Step(x.k, a).s, x.phase, x.asked, x.closed, x.dropped) && IsTask(r.k, l.client) && Inv(r.k)
    requires x.phase == Queued ==> l.client in Q(r.k.sched, Senders(l.svc))
    ensures x.phase.Answered? ==> Got(r.k, l.client) == Got(x.k, l.client)
    ensures ClientOk(l, r)
  {
    hide Inv, Step, Safe, Enabled, HasFlag;
    ClientProc(l, x);
    if x.phase == Queued {
      SenderKept(x.k, a, l.client, l.svc);
    } else if !(x.phase.Taken? && x.asked) {
      RunningKept(x.k, a, l.client);
    }
  }

  /** Any step of the rest of the system, short of receiving the request. */
  lemma OthersOk(l: Call, x: Sys, a: Action, r: Sys)
    requires CallInv(l, x) && Allowed(l, x, Others(a)) && Step(x.k, a).Go? && !(x.closed && x.dropped)
    requires r == Sys(Step(x.k, a).s, x.phase, x.asked, x.closed, x.dropped) && !MayTake(l, x, a)
    requires x.phase == Queued ==> l.client in Q(r.k.sched, Senders(l.svc))
    ensures CallInv(l, r)
  {
    hide Inv, Step, NamesOk, LogIs, ClientOk, Safe, Enabled, MayTake, BaseOk;
    StepOk(x.k, a);
    ClientQueued(l, x);
    OthersNames(l, x, a, r);
    OthersLog(l, x, a, r);
    forall t | Passes(r.k.sched, t, l.rc) ensures r.phase == Queued && t == l.client {
      OthersPasses(l, x, a, t);
    }
    if !x.closed {
      OthersClient(l, x, a, r);
      OthersBaseOk(l, x, a, r);
    }
  }

  lemma ClientQueued(l: Call, x: Sys)
    requires CallInv(l, x)
    ensures x.phase == Queued ==> x.k.sched.procs[l.client].req == Sending(l.svc, l.req, Pass(l.rc, FULL))
  {
    hide Inv;
  }

  lemma OthersBaseOk(l: Call, x: Sys, a: Action, r: Sys)
    requires Sized(x.k) && Inv(x.k) && IsTask(x.k, l.client) && !x.closed && Allowed(l, x, Others(a)) && Step(x.k, a).Go?
    requires NamesOk(l, x) && ClientOk(l, x) && LogIs(l, x) && ShapeOk(l, x) && BaseOk(l, x)
    requires r == Sys(Step(x.k, a).s, x.phase, x.asked, x.closed, x.dropped) && IsTask(r.k, l.client) && Inv(r.k)
    requires x.phase == Queued ==> l.client in Q(r.k.sched, Senders(l.svc))
    ensures BaseOk(l, r)
  {
    hide Inv, Step, NamesOk, LogIs, ClientOk, Safe, Enabled;
    OthersClient(l, x, a, r);
    forall n ensures Fd(l.client, n) in r.k.chans.fds <==> Fd(l.client, n) in x.k.chans.fds {
      OthersBase(l, x, a, n);
    }
  }

  /** The request is received: the receiver, and nobody else, comes to hold the reply channel. */
  ghost predicate TakenBy(l: Call, x: Sys, r: Sys, t: int)
    requires Sized(x.k) && IsTask(x.k, l.client) && Sized(r.k)
  {
    && IsTask(r.k, t) && IsTask(r.k, l.client) && t != l.client && r.k.outs[t].inbox == l.req
    && r.k.sched.procs[l.client].status == Running && r.k.outs[l.client].r0 == 0
    && var g := Fd(t, Got(r.k, t));
       g !in x.k.chans.fds && r.k.chans.fds == x.k.chans.fds[g := Cd(l.rc, FULL)]
  }

  lemma TakenReceive(l: Call, x: Sys, r: Sys, t: int)
    requires Sized(x.k) && Sized(r.k) && IsTask(x.k, l.client) && ClientOk(l, x) && x.phase == Queued
    requires IsTask(x.k, t) && IsTask(r.k, t) && ReceiveDone(x.k, r.k, t, l.svc)
    requires Q(x.k.sched, Senders(l.svc)) != [] && Q(x.k.sched, Senders(l.svc))[0] == l.client
    ensures TakenBy(l, x, r, t)
  {
    hide ReceivedOn;
  }

  lemma TakenNames(l: Call, x: Sys, r: Sys, t: int)
    requires Sized(x.k) && IsTask(x.k, l.client) && Sized(r.k) && TakenBy(l, x, r, t)
    requires NamesOk(l, x) && BaseOk(l, x) && !Received(x.phase) && !x.closed
    requires r.phase == Taken(t, Got(r.k, t)) && !r.closed && !r.dropped
    ensures NamesOk(l, r) && BaseOk(l, r)
  {
    var g := Fd(t, Got(r.k, t));
    forall f ensures Holder(l, r, f) <==> Holder(l, x, f) || f == g {}
  }

  /** A task receives from the service channel when the request is first in line. */
  lemma TakeOk(l: Call, x: Sys, a: Action, r: Sys)
    requires CallInv(l, x) && Allowed(l, x, Others(a)) && Step(x.k, a).Go? && MayTake(l, x, a)
    requires r == After(l, x, Others(a), Step(x.k, a).s)
    ensures CallInv(l, r)
    ensures r.phase.Taken? ==> r.phase == Taken(a.t, Got(r.k, a.t)) && TakenBy(l, x, r, a.t)
  {
    hide Inv, Step, NamesOk, LogIs, ClientOk, Safe, BaseOk, TakenBy, ReceiveDone, PassesOk;
    StepOk(x.k, a);
    ClientProc(l, x);
    QueuedStays(l, x, a);
    if r.k.sched == x.k.sched && r.k.chans == x.k.chans {
      StillQueued(l, x, r);
    } else {
      TakenReceive(l, x, r, a.t);
      NotQueued(l, x, r, a.t);
      TakenNames(l, x, r, a.t);
      TakenClient(l, x, r, a.t);
      TakenRest(l, x, a, r);
    }
  }

  lemma TakenRest(l: Call, x: Sys, a: Action, r: Sys)
    requires Sized(x.k) && Inv(x.k) && IsTask(x.k, l.client) && Allowed(l, x, Others(a)) && Step(x.k, a).Go?
    requires NamesOk(l, x) && PassesOk(l, x) && LogIs(l, x) && x.phase == Queued && !x.closed
    requires r.k == Step(x.k, a).s && r.phase.Taken? && r.asked == x.asked && TakenBy(l, x, r, Actor(a))
    ensures PassesOk(l, r) && LogIs(l, r)
  {
    hide Inv, Step, NamesOk, LogIs, Safe, Enabled;
    OthersLog(l, x, a, r);
    forall t ensures !Passes(r.k.sched, t, l.rc) {
      if Passes(r.k.sched, t, l.rc) { OthersPasses(l, x, a, t); }
    }
  }

  lemma StillQueued(l: Call, x: Sys, r: Sys)
    requires Sized(x.k) && Sized(r.k) && IsTask(x.k, l.client) && r.k.sched == x.k.sched && r.k.chans == x.k.chans
    requires x.phase == r.phase == Queued && r.asked == x.asked && r.closed == x.closed && r.dropped == x.dropped
    ensures NamesOk(l, x) ==> NamesOk(l, r)
    ensures LogIs(l, x) ==> LogIs(l, r)
    ensures ClientOk(l, x) ==> ClientOk(l, r)
    ensures BaseOk(l, x) ==> BaseOk(l, r)
    ensures PassesOk(l, x) ==> PassesOk(l, r)
    ensures x.phase == Queued && ClientOk(l, x) ==> l.client in Q(r.k.sched, Senders(l.svc))
  {
  }

  lemma NotQueued(l: Call, x: Sys, r: Sys, t: int)
    requires Sized(x.k) && IsTask(x.k, l.client) && Sized(r.k) && Inv(r.k) && TakenBy(l, x, r, t)
    ensures l.client !in Q(r.k.sched, Senders(l.svc))
  {
    assert QueuesOk(r.k.sched) && PlacedOk(r.k.sched);
    hide Inv;
    HeadsBlocked(r.k.sched, l.svc);
  }

  lemma TakenClient(l: Call, x: Sys, r: Sys, t: int)
    requires Sized(x.k) && IsTask(x.k, l.client) && Sized(r.k) && TakenBy(l, x, r, t) && r.phase.Taken?
    ensures ClientOk(l, r)
  {
  }

  // ----- The client's and the server's own calls -----

  lemma FullFlags()
    ensures HasFlag(FULL, CHAN_SEND) && HasFlag(FULL, CHAN_RECV) && !HasFlag(FULL, CHAN_NONBLOCK) && !HasFlag(0, RECV_NONBLOCK)
  {
    BothFlags(FULL);
  }

  lemma BothFlags(flags: int)
    requires flags == CHAN_RECV + CHAN_SEND
    ensures HasFlag(flags, CHAN_SEND) && HasFlag(flags, CHAN_RECV) && !HasFlag(flags, CHAN_NONBLOCK)
  {
  }

  /** Nobody passes the reply channel after an action that does not name it. */
  lemma StillNotPassed(l: Call, x: Sys, a: Action, t: int)
    requires Sized(x.k) && Inv(x.k) && Enabled(x.k, a) && Safe(x.k, a) && Step(x.k, a).Go?
    requires PassesOk(l, x) && x.phase != Queued && Passes(Step(x.k, a).s.sched, t, l.rc)
    ensures a.Send? && t == a.t && SendsAs(x.k, a, Step(x.k, a).s.sched.procs[t].req)
  {
    hide Inv, Step, Enabled, Safe, SendsAs;
    assert !Passes(x.k.sched, t, l.rc);
    StepBlocks(x.k, a, t);
  }

  lemma SendCallDone(l: Call, x: Sys, r: State)
    requires CallInv(l, x) && Allowed(l, x, SendCall) && SysSend(x.k, l.client, l.no, l.req, l.fd, 0) == Go(r) && IsTask(r, l.client)
    ensures Sized(r) && SendDone(x.k, r, l.client, l.svc, l.req, Pass(l.rc, FULL))
    ensures !Touches(x.k, Send(l.client, l.no, l.req, l.fd, 0), l.rc) && Naming(x.k.chans, l.rc) != {}
    ensures SendsAs(x.k, Send(l.client, l.no, l.req, l.fd, 0), Sending(l.svc, l.req, Pass(l.rc, FULL)))
  {
    hide Inv, LogIs, PassesOk, BaseOk, SendDone, SysSend, HasFlag, Naming;
    FullFlags();
    Named(l, x);
    assert Holder(l, x, Fd(l.client, l.fd));
    SendDoes(x.k, l.client, l.no, l.req, l.fd, 0);
  }

  /** The request goes out: to a task that waits for one, or into the queue. */
  lemma SendCallOk(l: Call, x: Sys, r: Sys)
    requires CallInv(l, x) && Allowed(l, x, SendCall) && Step(x.k, ActionOf(l, x, SendCall)).Go?
    requires r == After(l, x, SendCall, Step(x.k, ActionOf(l, x, SendCall)).s)
    ensures CallInv(l, r)
    ensures r.phase.Taken? ==> TakenBy(l, x, r, r.phase.server)
  {
    hide Inv, Step, NamesOk, LogIs, SysSend, SendDone, Naming, Safe, ClientOk, PassesOk, BaseOk, TakenBy;
    var a := ActionOf(l, x, SendCall);
    StepOk(x.k, a);
    StepIs(x.k, a);
    SendCallDone(l, x, r.k);
    StepSameChannel(x.k, a, l.rc);
    SameLog(l, x, r);
    SendCallClient(l, x, a, r);
    SendCallPasses(l, x, a, r);
    if r.phase.Taken? {
      TakenNames(l, x, r, r.phase.server);
    } else {
      SameNames(l, x, r);
    }
  }

  lemma SameLog(l: Call, x: Sys, r: Sys)
    requires LogIs(l, x) && SameChannel(x.k.sched, r.k.sched, l.rc) && r.asked == x.asked && !r.phase.Answered? && !x.phase.Answered?
    ensures LogIs(l, r)
  {
  }

  lemma SameNames(l: Call, x: Sys, r: Sys)
    requires NamesOk(l, x) && BaseOk(l, x) && r.k.chans.fds == x.k.chans.fds && !x.phase.Answered? && !r.phase.Answered?
    requires r.closed == x.closed && r.dropped == x.dropped && ServerOf(r.phase) == ServerOf(x.phase) && Received(r.phase) == Received(x.phase)
    ensures NamesOk(l, r) && BaseOk(l, r)
  {
    forall f ensures Holder(l, r, f) <==> Holder(l, x, f) {}
  }

  lemma SendCallClient(l: Call, x: Sys, a: Action, r: Sys)
    requires Sized(x.k) && Inv(x.k) && IsTask(x.k, l.client) && a == Send(l.client, l.no, l.req, l.fd, 0) && Enabled(x.k, a) && Safe(x.k, a)
    requires Step(x.k, a) == Go(r.k) && IsTask(r.k, l.client) && Inv(r.k) && x.phase == Idle && !x.asked && !r.asked
    requires r.phase == NextPhase(l, x, SendCall, r.k)
    requires SendDone(x.k, r.k, l.client, l.svc, l.req, Pass(l.rc, FULL))
    requires SendsAs(x.k, a, Sending(l.svc, l.req, Pass(l.rc, FULL)))
    ensures ClientOk(l, r)
    ensures if r.phase.Taken? then TakenBy(l, x, r, r.phase.server) else r.phase == Queued && r.k.chans == x.k.chans
    ensures r.phase.Taken? ==> IsTask(r.k, r.phase.server) && r.phase.server != l.client && r.phase.x == Got(r.k, r.phase.server)
  {
    hide Inv, Step, Safe, SendsAs, TakenBy;
    if Q(x.k.sched, Receivers(l.svc)) == [] {
      SendCallQueued(l, x, a, r);
    } else {
      SendCallTaken(l, x, r);
    }
  }

  /** Nobody waits for the request: the client is blocked with it. */
  lemma SendCallQueued(l: Call, x: Sys, a: Action, r: Sys)
    requires Sized(x.k) && Inv(x.k) && IsTask(x.k, l.client) && a == Send(l.client, l.no, l.req, l.fd, 0) && Enabled(x.k, a) && Safe(x.k, a)
    requires Step(x.k, a) == Go(r.k) && IsTask(r.k, l.client) && Inv(r.k) && !r.asked
    requires r.phase == NextPhase(l, x, SendCall, r.k) && Q(x.k.sched, Receivers(l.svc)) == []
    requires SendDone(x.k, r.k, l.client, l.svc, l.req, Pass(l.rc, FULL))
    requires SendsAs(x.k, a, Sending(l.svc, l.req, Pass(l.rc, FULL)))
    ensures ClientOk(l, r) && r.phase == Queued && r.k.chans == x.k.chans
  {
    assert QueuesOk(r.k.sched) && PlacedOk(r.k.sched);
    hide Inv, Step, Safe;
    assert l.client in Q(r.k.sched, Senders(l.svc));
    HeadsBlocked(r.k.sched, l.svc);
    StepBlocks(x.k, a, l.client);
  }

  /** The first task that waits takes the request. */
  lemma SendCallTaken(l: Call, x: Sys, r: Sys)
    requires Sized(x.k) && Sized(r.k) && IsTask(x.k, l.client) && IsTask(r.k, l.client) && x.phase == Idle && !r.asked
    requires r.phase == NextPhase(l, x, SendCall, r.k) && Q(x.k.sched, Receivers(l.svc)) != []
    requires SendDone(x.k, r.k, l.client, l.svc, l.req, Pass(l.rc, FULL))
    ensures ClientOk(l, r) && r.phase.Taken? && TakenBy(l, x, r, r.phase.server)
    ensures IsTask(r.k, r.phase.server) && r.phase.server != l.client && r.phase.x == Got(r.k, r.phase.server)
  {
  }

  lemma SendCallPasses(l: Call, x: Sys, a: Action, r: Sys)
    requires Sized(x.k) && Inv(x.k) && IsTask(x.k, l.client) && a == Send(l.client, l.no, l.req, l.fd, 0) && Enabled(x.k, a) && Safe(x.k, a)
    requires Step(x.k, a) == Go(r.k) && IsTask(r.k, l.client) && x.phase == Idle && PassesOk(l, x)
    requires ClientOk(l, r) && (r.phase.Taken? || r.phase == Queued) && !r.asked
    ensures PassesOk(l, r)
  {
    hide Inv, Step, Safe, SendsAs;
    forall t | Passes(r.k.sched, t, l.rc) ensures r.phase == Queued && t == l.client {
      StillNotPassed(l, x, a, t);
    }
  }

  /** Who waits on the reply channel. */
  lemma ReplyQueues(l: Call, x: Sys)
    requires Sized(x.k) && Inv(x.k) && LogIs(l, x)
    ensures var senders, receivers := Q(x.k.sched, Senders(l.rc)), Q(x.k.sched, Receivers(l.rc));
            && receivers == (if x.asked && !x.phase.Answered? then [l.client] else [])
            && (if x.phase.Answered? && !x.asked then
                  && senders == [x.phase.server] && IsSender(x.k.sched, x.phase.server)
                  && x.k.sched.procs[x.phase.server].req == Sending(l.rc, x.phase.reply, x.phase.pass)
                else senders == [])
  {
    assert LogOk(x.k.sched, l.rc) && QueuesOk(x.k.sched) && PlacedOk(x.k.sched);
    hide Inv;
    HeadsBlocked(x.k.sched, l.rc);
    var senders := Q(x.k.sched, Senders(l.rc));
    if x.phase.Answered? && !x.asked {
      assert senders[0] in senders;
      assert Waits(x.k.sched, senders[0], LogOf(x.k.sched, l.rc).sent[0 + 0]);
    }
  }

  lemma AskCallDone(l: Call, x: Sys, cap: nat, wants: bool, r: State)
    requires CallInv(l, x) && Allowed(l, x, AskCall(cap, wants)) && SysRecv(x.k, l.client, l.fd, cap, wants, 0) == Go(r) && IsTask(r, l.client)
    ensures Sized(r) && ReceiveDone(x.k, r, l.client, l.rc) && Received(x.phase) && !x.closed
  {
    ClientRuns(l, x);
    hide Inv, LogIs, PassesOk, BaseOk, ReceiveDone, SysRecv, HasFlag, ClientOk;
    FullFlags();
    assert Holder(l, x, Fd(l.client, l.fd));
    ReceiveDoes(x.k, l.client, l.fd, cap, wants, 0);
  }

  lemma WaitingClient(l: Call, x: Sys)
    requires CallInv(l, x) && x.phase.Taken? && x.asked && !x.closed
    ensures x.k.sched.procs[l.client].status == RecvBlocked
  {
    ReplyQueues(l, x);
    assert QueuesOk(x.k.sched) && PlacedOk(x.k.sched);
    hide Inv;
    HeadsBlocked(x.k.sched, l.rc);
    assert l.client in Q(x.k.sched, Receivers(l.rc));
  }

  /** A running client is not waiting for anything. */
  lemma ClientRuns(l: Call, x: Sys)
    requires CallInv(l, x) && x.k.sched.procs[l.client].status == Running
    ensures x.phase != Queued || x.closed
    ensures x.asked && !x.closed ==> x.phase.Answered?
  {
    if x.phase.Taken? && x.asked && !x.closed { WaitingClient(l, x); }
  }

  /** The client asks for the reply: it gets it at once, or waits for it. */
  lemma AskCallOk(l: Call, x: Sys, cap: nat, wants: bool, r: Sys)
    requires CallInv(l, x) && Allowed(l, x, AskCall(cap, wants)) && Step(x.k, ActionOf(l, x, AskCall(cap, wants))).Go?
    requires r == After(l, x, AskCall(cap, wants), Step(x.k, ActionOf(l, x, AskCall(cap, wants))).s)
    ensures CallInv(l, r)
  {
    hide Inv, Step, NamesOk, LogIs, SysRecv, ReceiveDone, Naming, Safe, ClientOk, PassesOk, BaseOk;
    var a := ActionOf(l, x, AskCall(cap, wants));
    StepOk(x.k, a);
    StepIs(x.k, a);
    AskCallDone(l, x, cap, wants, r.k);
    ReplyQueues(l, x);
    AskedLogIs(l, x, r);
    AskedNames(l, x, r);
    AskedClient(l, x, r);
    NoPasses(l, x, a, r);
  }

  lemma AskedLogIs(l: Call, x: Sys, r: Sys)
    requires Sized(x.k) && Sized(r.k) && IsTask(x.k, l.client) && IsTask(r.k, l.client) && LogIs(l, x) && ReceiveDone(x.k, r.k, l.client, l.rc)
    requires !x.asked && r.asked && r.phase == x.phase
    requires Q(x.k.sched, Senders(l.rc)) == [] <==> !x.phase.Answered?
    ensures LogIs(l, r)
  {
    hide ReceivedFds;
  }

  lemma AskedNames(l: Call, x: Sys, r: Sys)
    requires Sized(x.k) && Sized(r.k) && IsTask(x.k, l.client) && IsTask(r.k, l.client) && ReceiveDone(x.k, r.k, l.client, l.rc)
    requires NamesOk(l, x) && BaseOk(l, x) && PassesOk(l, x) && !x.asked && r.asked && r.phase == x.phase && x.phase != Queued
    requires r.closed == x.closed && r.dropped == x.dropped
    requires var senders := Q(x.k.sched, Senders(l.rc));
             if x.phase.Answered? then
               && senders == [x.phase.server] && IsSender(x.k.sched, x.phase.server)
               && x.k.sched.procs[x.phase.server].req == Sending(l.rc, x.phase.reply, x.phase.pass)
             else senders == []
    ensures NamesOk(l, r) && BaseOk(l, r)
  {
    hide ReceivedOn;
    forall f ensures Holder(l, r, f) <==> Holder(l, x, f) {}
    if x.phase.Answered? && x.phase.pass.Pass? {
      assert !Passes(x.k.sched, x.phase.server, l.rc);
    }
  }

  lemma AskedClient(l: Call, x: Sys, r: Sys)
    requires Sized(x.k) && Sized(r.k) && IsTask(x.k, l.client) && IsTask(r.k, l.client) && ReceiveDone(x.k, r.k, l.client, l.rc)
    requires r.asked && r.phase == x.phase && Received(x.phase)
    requires var senders := Q(x.k.sched, Senders(l.rc));
             if x.phase.Answered? then
               && senders == [x.phase.server] && IsSender(x.k.sched, x.phase.server)
               && x.k.sched.procs[x.phase.server].req == Sending(l.rc, x.phase.reply, x.phase.pass)
             else senders == []
    ensures ClientOk(l, r)
  {
    hide ReceivedOn, ReceivedFds;
  }

  /** An action other than a send passes nothing. */
  lemma NoPasses(l: Call, x: Sys, a: Action, r: Sys)
    requires Sized(x.k) && Inv(x.k) && Enabled(x.k, a) && Safe(x.k, a) && Step(x.k, a) == Go(r.k)
    requires PassesOk(l, x) && x.phase != Queued && !a.Send?
    ensures PassesOk(l, r)
  {
    hide Inv, Step, Safe, SendsAs, Enabled;
    forall t ensures !Passes(r.k.sched, t, l.rc) {
      if Passes(r.k.sched, t, l.rc) { StillNotPassed(l, x, a, t); }
    }
  }

  // ----- The reply -----

  lemma ReplyCallDone(l: Call, x: Sys, reply: seq<int>, sch: int, r: State)
    requires CallInv(l, x) && Allowed(l, x, ReplyCall(reply, sch))
    requires SysSend(x.k, x.phase.server, x.phase.x, reply, sch, 0) == Go(r) && IsTask(r, x.phase.server)
    ensures Sized(r) && IsTask(x.k, x.phase.server) && SendDone(x.k, r, x.phase.server, l.rc, reply, PassOf(x.k, x.phase.server, sch))
    ensures !x.closed && !x.dropped && x.phase.server != l.client
    ensures PassOf(x.k, x.phase.server, sch).Pass? ==> PassOf(x.k, x.phase.server, sch).chan != l.rc
  {
    hide Inv, LogIs, PassesOk, BaseOk, SendDone, SysSend, HasFlag, ClientOk;
    FullFlags();
    var f := Fd(x.phase.server, x.phase.x);
    assert Holder(l, x, f);
    NumberOpen(x.k, f);
    if sch != NONE { assert !Holder(l, x, Fd(x.phase.server, sch)); }
    SendDoes(x.k, x.phase.server, x.phase.x, reply, sch, 0);
  }

  lemma NumberOpen(k: State, f: Fd)
    requires Inv(k) && f in k.chans.fds
    ensures ValidChannel(k, f.task, f.no)
  {
    assert FdsOk(k.chans);
    hide Inv;
  }

  /** The server answers: the client gets the reply if it waits for it, else the reply waits. */
  lemma ReplyCallOk(l: Call, x: Sys, reply: seq<int>, sch: int, r: Sys)
    requires CallInv(l, x) && Allowed(l, x, ReplyCall(reply, sch)) && Step(x.k, ActionOf(l, x, ReplyCall(reply, sch))).Go?
    requires r == After(l, x, ReplyCall(reply, sch), Step(x.k, ActionOf(l, x, ReplyCall(reply, sch))).s)
    ensures CallInv(l, r)
  {
    hide Inv, Step, NamesOk, LogIs, SysSend, SendDone, Naming, Safe, ClientOk, PassesOk, BaseOk;
    var a := ActionOf(l, x, ReplyCall(reply, sch));
    StepOk(x.k, a);
    StepIs(x.k, a);
    ReplyCallDone(l, x, reply, sch, r.k);
    ReplyQueues(l, x);
    RepliedLogIs(l, x, r);
    RepliedNames(l, x, r);
    RepliedClient(l, x, a, r);
    RepliedPasses(l, x, a, r);
  }

  lemma RepliedLogIs(l: Call, x: Sys, r: Sys)
    requires Sized(x.k) && Sized(r.k) && LogIs(l, x) && x.phase.Taken? && r.phase.Answered? && r.phase.server == x.phase.server
    requires IsTask(x.k, x.phase.server) && IsTask(r.k, x.phase.server) && r.asked == x.asked
    requires SendDone(x.k, r.k, x.phase.server, l.rc, r.phase.reply, r.phase.pass)
    requires Q(x.k.sched, Receivers(l.rc)) == if x.asked then [l.client] else []
    ensures LogIs(l, r)
  {
    hide SentFds;
  }

  lemma RepliedNames(l: Call, x: Sys, r: Sys)
    requires Sized(x.k) && Sized(r.k) && NamesOk(l, x) && BaseOk(l, x) && x.phase.Taken? && r.phase.Answered?
    requires ServerOf(r.phase) == ServerOf(x.phase) && r.asked == x.asked && r.closed == x.closed && r.dropped == x.dropped
    requires IsTask(x.k, x.phase.server) && IsTask(r.k, x.phase.server) && IsTask(r.k, l.client)
    requires SendDone(x.k, r.k, x.phase.server, l.rc, r.phase.reply, r.phase.pass)
    requires r.phase.pass.Pass? ==> r.phase.pass.chan != l.rc
    requires Q(x.k.sched, Receivers(l.rc)) == if x.asked then [l.client] else []
    ensures NamesOk(l, r) && BaseOk(l, r)
  {
    hide SentOn;
    forall f ensures Holder(l, r, f) <==> Holder(l, x, f) {}
  }

  lemma RepliedClient(l: Call, x: Sys, a: Action, r: Sys)
    requires Sized(x.k) && Inv(x.k) && IsTask(x.k, l.client) && ClientOk(l, x) && x.phase.Taken? && r.phase.Answered? && r.asked == x.asked
    requires Enabled(x.k, a) && Safe(x.k, a) && Step(x.k, a) == Go(r.k) && Actor(a) == x.phase.server != l.client
    requires IsTask(x.k, x.phase.server) && IsTask(r.k, x.phase.server) && IsTask(r.k, l.client)
    requires SendDone(x.k, r.k, x.phase.server, l.rc, r.phase.reply, r.phase.pass)
    requires Q(x.k.sched, Receivers(l.rc)) == if x.asked then [l.client] else []
    ensures ClientOk(l, r)
  {
    hide Inv, Step, Safe, Enabled, SentOn, SentFds;
    StepUndisturbed(x.k, a, l.client);
  }

  lemma RepliedPasses(l: Call, x: Sys, a: Action, r: Sys)
    requires Sized(x.k) && Inv(x.k) && Enabled(x.k, a) && Safe(x.k, a) && Step(x.k, a) == Go(r.k)
    requires PassesOk(l, x) && x.phase.Taken? && a.Send?
    requires PassOf(x.k, a.t, a.sch).Pass? ==> PassOf(x.k, a.t, a.sch).chan != l.rc
    ensures PassesOk(l, r)
  {
    hide Inv, Step, Safe, Enabled;
    forall t ensures !Passes(r.k.sched, t, l.rc) {
      if Passes(r.k.sched, t, l.rc) { StillNotPassed(l, x, a, t); }
    }
  }

  // ----- Closing -----

  lemma CloseDone(k: State, t: int, no: int)
    requires Sized(k) && Inv(k) && IsTask(k, t) && k.sched.procs[t].status == Running && ValidChannel(k, t, no)
    ensures SysClose(k, t, no).Go?
    ensures var r := SysClose(k, t, no).s;
            && r.sched == k.sched && r.chans.fds == k.chans.fds - {Fd(t, no)} && r.outs == k.outs[t := k.outs[t].(r0 := 0)]
            && |r.chans.refs| == |k.chans.refs|
  {
    hide Inv, Close;
    CloseOk(k, Fd(t, no));
  }

  /** A side that closes the reply channel no longer holds it. */
  lemma ClosedNames(l: Call, x: Sys, r: Sys, f: Fd)
    requires NamesOk(l, x) && LogIs(l, x) && PassesOk(l, x) && Received(x.phase) && x.phase.server != l.client
    requires r.k.sched == x.k.sched && r.k.chans.fds == x.k.chans.fds - {f} && r.phase == x.phase && r.asked == x.asked
    requires (f == Fd(l.client, l.fd) && !x.closed && r.closed && r.dropped == x.dropped)
          || (f == ServerOf(x.phase) && !x.dropped && r.dropped && r.closed == x.closed)
    ensures NamesOk(l, r) && LogIs(l, r) && PassesOk(l, r)
  {
    forall g ensures Holder(l, r, g) <==> Holder(l, x, g) && g != f {}
  }

  /** When both sides have closed it, the reply channel is free again. */
  lemma Freed(l: Call, r: Sys)
    requires Inv(r.k) && NamesOk(l, r) && r.closed && r.dropped && 0 <= l.rc < |r.k.chans.refs|
    ensures Naming(r.k.chans, l.rc) == {} && l.rc in r.k.chans.freeChans
  {
    var ch := r.k.chans;
    assert RefsOk(ch) && FreeOk(ch);
    hide Inv;
    forall f ensures f !in Naming(ch, l.rc) {}
    assert Naming(ch, l.rc) == {};
  }

  lemma ChannelExists(k: State, f: Fd)
    requires Inv(k) && f in k.chans.fds
    ensures 0 <= k.chans.fds[f].chan < |k.chans.refs|
  {
    assert FdsOk(k.chans);
    hide Inv;
  }

  /** The client closes the reply channel: it is left with the descriptors that it had before the call
      and the one that came with the reply, if any. */
  lemma CloseCallOk(l: Call, x: Sys, r: Sys)
    requires CallInv(l, x) && Allowed(l, x, CloseCall) && Step(x.k, ActionOf(l, x, CloseCall)).Go?
    requires r == After(l, x, CloseCall, Step(x.k, ActionOf(l, x, CloseCall)).s)
    ensures CallInv(l, r) && r.phase.Answered?
    ensures forall n :: Fd(l.client, n) in r.k.chans.fds <==>
              n in l.base || (r.phase.pass.Pass? && n == Got(r.k, l.client) && n != l.fd)
    ensures r.dropped ==> l.rc in r.k.chans.freeChans && Naming(r.k.chans, l.rc) == {}
  {
    hide Inv, Step, LogIs, SysClose, Naming, Safe, ClientOk, PassesOk;
    var f := Fd(l.client, l.fd);
    StepOk(x.k, ActionOf(l, x, CloseCall));
    ClientRuns(l, x);
    StepIs(x.k, ActionOf(l, x, CloseCall));
    assert Holder(l, x, f);
    NumberOpen(x.k, f);
    ChannelExists(x.k, f);
    CloseDone(x.k, l.client, l.fd);
    ClosedNames(l, x, r, f);
    if r.dropped { Freed(l, r); }
  }

  /** The server closes the reply channel, and is left with its other descriptors. */
  lemma DropCallOk(l: Call, x: Sys, r: Sys)
    requires CallInv(l, x) && Allowed(l, x, DropCall) && Step(x.k, ActionOf(l, x, DropCall)).Go?
    requires r == After(l, x, DropCall, Step(x.k, ActionOf(l, x, DropCall)).s)
    ensures CallInv(l, r) && r.k.chans.fds == x.k.chans.fds - {Fd(x.phase.server, x.phase.x)}
    ensures r.closed ==> l.rc in r.k.chans.freeChans && Naming(r.k.chans, l.rc) == {}
  {
    hide Inv, Step, LogIs, SysClose, Naming, Safe, PassesOk, ClientOk, BaseOk;
    var f := ServerOf(x.phase);
    StepOk(x.k, ActionOf(l, x, DropCall));
    StepIs(x.k, ActionOf(l, x, DropCall));
    assert Holder(l, x, f);
    NumberOpen(x.k, f);
    ChannelExists(x.k, f);
    CloseDone(x.k, f.task, f.no);
    ClosedNames(l, x, r, f);
    if r.closed { Freed(l, r); } else { DroppedClient(l, x, r, f); }
  }

  lemma DroppedClient(l: Call, x: Sys, r: Sys, f: Fd)
    requires Sized(x.k) && Sized(r.k) && IsTask(x.k, l.client) && IsTask(r.k, l.client) && ClientOk(l, x) && BaseOk(l, x)
    requires r.k.sched == x.k.sched && r.k.chans.fds == x.k.chans.fds - {f} && r.phase == x.phase && r.asked == x.asked
    requires x.phase.Answered? && f.task != l.client && r.k.outs[l.client] == x.k.outs[l.client]
    ensures ClientOk(l, r) && BaseOk(l, r)
  {
  }

  // ----- Whole runs -----

  ghost predicate Next(l: Call, x: Sys, m: Move, y: Sys) {
    Sized(x.k) && Allowed(l, x, m) && Step(x.k, ActionOf(l, x, m)).Go? && y == After(l, x, m, Step(x.k, ActionOf(l, x, m)).s)
  }

  /** From x to y the request is handed to server, with descriptor d of the reply channel, newly opened. */
  ghost predicate Handed(l: Call, x: Sys, y: Sys, server: int, d: int) {
    && (x.phase == Idle || x.phase == Queued) && y.phase == Taken(server, d)
    && Sized(y.k) && IsTask(y.k, server) && server != l.client && y.k.outs[server].inbox == l.req && y.k.outs[server].gotFd == d
    && Fd(server, d) !in x.k.chans.fds && Fd(server, d) in y.k.chans.fds && y.k.chans.fds[Fd(server, d)] == Cd(l.rc, FULL)
  }

  /** Every move keeps the call in order.  The request is received by whoever is handed it, and answered
      only by that task's reply on the descriptor that it was handed. */
  lemma MoveOk(l: Call, x: Sys, m: Move, y: Sys)
    requires CallInv(l, x) && Next(l, x, m, y)
    ensures CallInv(l, y)
    ensures Received(y.phase) ==>
              (Received(x.phase) && ServerOf(x.phase) == ServerOf(y.phase)) || Handed(l, x, y, ServerOf(y.phase).task, ServerOf(y.phase).no)
    ensures y.phase.Answered? && y.phase != x.phase ==> x.phase.Taken? && m.ReplyCall? && m.reply == y.phase.reply && ServerOf(y.phase) == ServerOf(x.phase)
  {
    hide Inv, NamesOk, LogIs, PassesOk, ClientOk, BaseOk, Step, SendDone, ReceiveDone, Safe, Enabled;
    match m
    case SendCall => SendCallOk(l, x, y);
    case AskCall(cap, wants) => AskCallOk(l, x, cap, wants, y);
    case CloseCall => CloseCallOk(l, x, y);
    case ReplyCall(reply, sch) => ReplyCallOk(l, x, reply, sch, y);
    case DropCall => DropCallOk(l, x, y);
    case Others(a) => AnyOtherOk(l, x, a, y);
  }

  lemma AnyOtherOk(l: Call, x: Sys, a: Action, y: Sys)
    requires CallInv(l, x) && Next(l, x, Others(a), y)
    ensures CallInv(l, y)
    ensures y.phase == x.phase || (x.phase == Queued && y.phase.Taken? && TakenBy(l, x, y, y.phase.server) && y.phase.x == Got(y.k, y.phase.server))
  {
    hide Inv, NamesOk, LogIs, PassesOk, ClientOk, BaseOk, Step, SendDone, ReceiveDone, Safe, Enabled, TakenBy;
    if x.closed && x.dropped {
      BothClosedOk(l, x, a, y);
    } else if MayTake(l, x, a) {
      TakeOk(l, x, a, y);
    } else {
      if x.phase == Queued { QueuedStays(l, x, a); }
      OthersOk(l, x, a, y);
    }
  }

  lemma BothClosedOk(l: Call, x: Sys, a: Action, y: Sys)
    requires CallInv(l, x) && Next(l, x, Others(a), y) && x.closed && x.dropped
    ensures CallInv(l, y) && y.phase == x.phase
  {
    hide Inv, Step;
    StepOk(x.k, a);
  }

  /** What making a channel does. */
  lemma ChannelDoes(k: State, t: int)
    requires Sized(k) && Inv(k) && IsTask(k, t) && k.sched.procs[t].status == Running && HasNumber(k.chans.pools[t])
    ensures SysChannel(k, t).Go? && Inv(SysChannel(k, t).s)
    ensures var r := SysChannel(k, t).s;
            var c := FreshChannel(k.chans).1;
            && Sized(r) && IsTask(r, t) && r.sched.procs == k.sched.procs && LogOf(r.sched, c) == Log([], [], [])
            && 0 <= r.outs[t].r0 < MAX_TASK_CHANNELS && Fd(t, r.outs[t].r0) !in k.chans.fds
            && r.chans.fds == k.chans.fds[Fd(t, r.outs[t].r0) := Cd(c, FULL)] && Naming(k.chans, c) == {}
  {
    assert ChansOk(k.chans);
    ChannelOk(k, t);
    hide Inv, FdsOk, RefsOk, FreeOk, PoolOk, TakeNumber, Naming;
    FreshOk(k.chans);
    NewFd(k.chans, t);
    NumberInRange(k.chans, t);
  }

  /** The state between making the reply channel and sending the request. */
  lemma BeginOk(k: State, t: int, no: int, req: seq<int>)
    requires Sized(k) && Inv(k) && IsTask(k, t) && k.sched.procs[t].status == Running && HasNumber(k.chans.pools[t])
    requires ValidChannel(k, t, no) && HasFlag(k.chans.fds[Fd(t, no)].flags, CHAN_SEND) && !HasFlag(k.chans.fds[Fd(t, no)].flags, CHAN_NONBLOCK)
    ensures SysChannel(k, t).Go?
    ensures var r := SysChannel(k, t).s;
            var fd := r.outs[t].r0;
            CallInv(Call(t, no, k.chans.fds[Fd(t, no)].chan, fd, ChanAt(r.chans, Fd(t, fd)), req, Numbers(k.chans, t)),
                    Sys(r, Idle, false, false, false))
  {
    hide Inv, HasFlag, SysChannel, FreshChannel, Passes, Naming;
    ChannelDoes(k, t);
    var c := FreshChannel(k.chans).1;
    NonePasses(k, c);
    Began(k, SysChannel(k, t).s, t, no, req, c);
  }

  lemma NonePasses(k: State, c: int)
    requires Inv(k) && Naming(k.chans, c) == {}
    ensures forall u :: !Passes(k.sched, u, c)
  {
    assert KeepOk(k.sched, k.chans);
    hide Inv;
    forall u ensures !Passes(k.sched, u, c) { NotPassedYet(k, u, c); }
  }

  lemma Began(k: State, r: State, t: int, no: int, req: seq<int>, c: int)
    requires Sized(k) && Sized(r) && Inv(r) && IsTask(k, t) && IsTask(r, t) && k.sched.procs[t].status == Running
    requires ValidChannel(k, t, no) && HasFlag(k.chans.fds[Fd(t, no)].flags, CHAN_SEND) && !HasFlag(k.chans.fds[Fd(t, no)].flags, CHAN_NONBLOCK)
    requires r.sched.procs == k.sched.procs && LogOf(r.sched, c) == Log([], [], [])
    requires 0 <= r.outs[t].r0 < MAX_TASK_CHANNELS && Fd(t, r.outs[t].r0) !in k.chans.fds
    requires r.chans.fds == k.chans.fds[Fd(t, r.outs[t].r0) := Cd(c, FULL)] && Naming(k.chans, c) == {}
    requires forall u :: !Passes(k.sched, u, c)
    ensures CallInv(Call(t, no, k.chans.fds[Fd(t, no)].chan, r.outs[t].r0, c, req, Numbers(k.chans, t)),
                    Sys(r, Idle, false, false, false))
    ensures ChanAt(r.chans, Fd(t, r.outs[t].r0)) == c
  {
    hide Inv, HasFlag, Passes;
    var l := Call(t, no, k.chans.fds[Fd(t, no)].chan, r.outs[t].r0, c, req, Numbers(k.chans, t));
    var x := Sys(r, Idle, false, false, false);
    forall f ensures f in k.chans.fds ==> k.chans.fds[f].chan != c { assert f !in Naming(k.chans, c); }
    forall u ensures !Passes(r.sched, u, c) { SamePasses(k.sched, r.sched, u, c); }
    forall n ensures n in Numbers(k.chans, t) <==> Fd(t, n) in k.chans.fds {
      if Fd(t, n) in k.chans.fds { assert Fd(t, n).no == n; }
    }
    assert BaseOk(l, x) && ClientOk(l, x);
  }

  lemma SamePasses(sc: Sched, r: Sched, u: int, c: int)
    requires r.procs == sc.procs
    ensures Passes(r, u, c) == Passes(sc, u, c)
  {
  }

  ghost function Numbers(ch: Chans, t: int): set<int> {
    set f: Fd | f in ch.fds && f.task == t :: f.no
  }

  /** Nobody passes a channel that nobody holds. */
  lemma NotPassedYet(k: State, u: int, c: int)
    requires KeepOk(k.sched, k.chans) && Naming(k.chans, c) == {}
    ensures !Passes(k.sched, u, c)
  {
    assert 0 <= u < |k.sched.procs| ==> Keeps(k.chans, u, k.sched.procs[u]);
  }

  ghost predicate IsCallRun(l: Call, xs: seq<Sys>, ms: seq<Move>) {
    && |xs| == |ms| + 1 && xs[0].phase == Idle && CallInv(l, xs[0])
    && forall i :: 0 <= i < |ms| ==> Next(l, xs[i], ms[i], xs[i + 1])
  }

  /** Where in the run the request was handed over, and where it was answered. */
  ghost predicate HandedAt(l: Call, xs: seq<Sys>, i: int, f: Fd) {
    0 <= i < |xs| - 1 && Handed(l, xs[i], xs[i + 1], f.task, f.no)
  }

  ghost predicate AnsweredAt(xs: seq<Sys>, ms: seq<Move>, j: int, f: Fd, reply: seq<int>) {
    0 <= j < |ms| && j < |xs| && xs[j].phase == Taken(f.task, f.no) && ms[j].ReplyCall? && ms[j].reply == reply
  }

  lemma {:induction false} History(l: Call, xs: seq<Sys>, ms: seq<Move>, n: nat)
    requires IsCallRun(l, xs, ms) && n < |xs|
    ensures CallInv(l, xs[n])
    ensures Received(xs[n].phase) ==> exists i :: i < n && HandedAt(l, xs, i, ServerOf(xs[n].phase))
    ensures xs[n].phase.Answered? ==> exists j :: j < n && AnsweredAt(xs, ms, j, ServerOf(xs[n].phase), xs[n].phase.reply)
  {
    hide CallInv, Next, Handed;
    if n > 0 {
      History(l, xs, ms, n - 1);
      assert Next(l, xs[n - 1], ms[n - 1], xs[n - 1 + 1]);
      MoveOk(l, xs[n - 1], ms[n - 1], xs[n]);
      var x, y := xs[n - 1], xs[n];
      if Received(y.phase) && !(Received(x.phase) && ServerOf(x.phase) == ServerOf(y.phase)) {
        assert HandedAt(l, xs, n - 1, ServerOf(y.phase));
      }
      if y.phase.Answered? && y.phase != x.phase {
        assert AnsweredAt(xs, ms, n - 1, ServerOf(y.phase), y.phase.reply);
      }
    }
  }

  /** Whatever else goes on: when the client's receive has returned, it has returned exactly the reply
      that was sent, on the descriptor handed over with this request, by the task that was handed it. */
  lemma OwnReply(l: Call, xs: seq<Sys>, ms: seq<Move>, n: nat)
    requires IsCallRun(l, xs, ms) && n < |xs|
    requires Sized(xs[n].k) && IsTask(xs[n].k, l.client)
    requires xs[n].asked && !xs[n].closed && xs[n].k.sched.procs[l.client].status == Running
    ensures var out := xs[n].k.outs[l.client];
            exists f, i, j :: i < n && j < n && HandedAt(l, xs, i, f) && AnsweredAt(xs, ms, j, f, out.inbox) && out.r0 == |out.inbox|
  {
    History(l, xs, ms, n);
    ClientRuns(l, xs[n]);
    hide Inv, IsCallRun, NamesOk, LogIs, PassesOk, BaseOk, HandedAt, AnsweredAt;
    var i :| i < n && HandedAt(l, xs, i, ServerOf(xs[n].phase));
    var j :| j < n && AnsweredAt(xs, ms, j, ServerOf(xs[n].phase), xs[n].phase.reply);
  }

  /** Whenever both sides have closed the reply channel it goes back to the free channels, in the very
      step in which the second one closes it. */
  lemma ReplyChannelFreed(l: Call, x: Sys, m: Move, y: Sys)
    requires CallInv(l, x) && Next(l, x, m, y) && !(x.closed && x.dropped) && y.closed && y.dropped
    ensures l.rc in y.k.chans.freeChans && Naming(y.k.chans, l.rc) == {}
  {
    hide Inv, NamesOk, LogIs, PassesOk, ClientOk, BaseOk, Step, Safe, Enabled;
    if m.CloseCall? {
      CloseCallOk(l, x, y);
    } else {
      DropCallOk(l, x, y);
    }
  }
}
