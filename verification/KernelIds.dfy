/** Task ids: what spawn returns tells the new task from every other, now and at any earlier time. */
module KernelIds {
  import opened Seqs
  import opened KernelState
  import opened KernelInvariant
  import opened KernelSteps
  import opened KernelRuns
  import opened KernelFrames

  // ----- Ids and slots -----

  /** An id is made of the place in the lookup table and of how often that has been taken before. */
  lemma TidParts(s: State, t: int)
    requires Sized(s) && IsTask(s, t)
    ensures Tid(s, t) % 4096 == t + 1 && Tid(s, t) / 4096 == s.sched.procs[t].gen
  {
  }

  lemma TidsDiffer(s: State, t: int, u: int)
    requires Sized(s) && IsTask(s, t) && IsTask(s, u) && Tid(s, t) == Tid(s, u)
    ensures t == u
  {
    TidParts(s, t);
    TidParts(s, u);
  }

  /** No place has been taken fewer than no times. */
  ghost predicate GensOk(sc: Sched) {
    forall t :: 0 <= t < |sc.procs| ==> sc.procs[t].gen >= 0
  }

  /** Is x the id of a task that there is, or of one that had its place before? */
  predicate Used(s: State, x: int) {
    IsTask(s, x % 4096 - 1) && x / 4096 <= s.sched.procs[x % 4096 - 1].gen
  }

  // ----- Places are kept -----

  ghost predicate SameGens(sc: Sched, r: Sched) {
    |r.procs| == |sc.procs| && forall t :: 0 <= t < |sc.procs| ==> r.procs[t].gen == sc.procs[t].gen
  }

  lemma {:induction false} TriggerGens(s: State, fs: seq<Fd>, ev: Ev)
    requires Sized(s)
    ensures SameGens(s.sched, Trigger(s, fs, ev).sched)
    decreases |fs|
  {
    hide Linked, Unlinked;
    if fs != [] { TriggerGens(TriggerOne(s, fs[0], ev), fs[1..], ev); }
  }

  lemma {:induction false} HandlePollGens(s: State, t: int, ev: Ev)
    requires Sized(s) && IsTask(s, t) && KernelState.HandlePoll(s, t, ev).Go?
    ensures SameGens(s.sched, KernelState.HandlePoll(s, t, ev).s.sched)
    decreases |L(s.polls, OnTask(t, ev))|
  {
    var queue := L(s.polls, OnTask(t, ev));
    if queue != [] {
      var f := queue[0];
      var c := ChanAt(s.chans, f);
      if !Active(s.sched, c, ev) {
        HandlePollGens(s.(polls := Linked(Unlinked(s.polls, f, ev), f, OnChannel(c, ev))), t, ev);
      }
    }
  }

  lemma {:induction false} WakeAllGens(s: State, ts: seq<int>, v: int)
    requires Sized(s)
    ensures SameGens(s.sched, WakeAll(s, ts, v).sched)
    decreases |ts|
  {
    if ts != [] {
      WakeAllGens(if IsTask(s, ts[0]) then Return(s.(sched := Woken(s.sched, ts[0])), ts[0], v) else s, ts[1..], v);
    }
  }

  lemma DeliverGens(s: State, c: int, ev: Ev)
    requires Sized(s) && Deliver(s, c).Go?
    ensures SameGens(s.sched, Deliver(s, c).s.sched) && SameGens(s.sched, TriggerAll(Deliver(s, c).s, c, ev).sched)
  {
    hide Opened, TakeNumber, HasNumber, Trigger;
    var r := Deliver(s, c).s;
    TriggerGens(r, L(r.polls, OnChannel(c, ev)), ev);
  }

  lemma SendGens(s: State, t: int, no: int, msg: seq<int>, sch: int, flags: int)
    requires Sized(s) && IsTask(s, t) && SysSend(s, t, no, msg, sch, flags).Go?
    ensures SameGens(s.sched, SysSend(s, t, no, msg, sch, flags).s.sched)
  {
    hide Deliver, TriggerAll, HasFlag;
    if ValidChannel(s, t, no) && (sch == NONE || ValidChannel(s, t, sch)) {
      var c := s.chans.fds[Fd(t, no)].chan;
      var pass := if sch == NONE then NoPass else Pass(s.chans.fds[Fd(t, sch)].chan, s.chans.fds[Fd(t, sch)].flags);
      if Deliver(Offered(s, t, c, msg, pass), c).Go? { DeliverGens(Offered(s, t, c, msg, pass), c, EvRecv); }
    }
  }

  lemma ReceiveGens(s: State, t: int, no: int, cap: nat, wants: bool, flags: int)
    requires Sized(s) && IsTask(s, t) && SysRecv(s, t, no, cap, wants, flags).Go?
    ensures SameGens(s.sched, SysRecv(s, t, no, cap, wants, flags).s.sched)
  {
    hide Deliver, TriggerAll, HasFlag;
    if ValidChannel(s, t, no) {
      var c := s.chans.fds[Fd(t, no)].chan;
      if Deliver(Asked(s, t, c, cap, wants), c).Go? { DeliverGens(Asked(s, t, c, cap, wants), c, EvSend); }
    }
  }

  lemma PollWaitGens(s: State, t: int, presult: bool)
    requires Sized(s) && IsTask(s, t) && SysPollWait(s, t, presult).Go?
    ensures SameGens(s.sched, SysPollWait(s, t, presult).s.sched)
  {
    hide KernelState.HandlePoll;
    if s.polls.counts[t] != 0 && presult {
      var s0 := s.(sched := Blocked(s.sched, t, PollBlocked, Polling, Nothing));
      HandlePollGens(s0, t, EvRecv);
      var s1 := KernelState.HandlePoll(s0, t, EvRecv).s;
      if s1.sched.procs[t].status != Running { HandlePollGens(s1, t, EvSend); }
    }
  }

  lemma ExitGens(s: State, t: int)
    requires Sized(s) && IsTask(s, t) && SysExit(s, t).Go?
    ensures SameGens(s.sched, SysExit(s, t).s.sched)
  {
    var sc := s.sched;
    var s0 := s.(sched := sc.(live := sc.live - 1, nondaemon := if sc.procs[t].daemon then sc.nondaemon else sc.nondaemon - 1));
    hide CloseBelow;
    CloseBelowFrame(s0, t, MAX_TASK_CHANNELS);
  }

  lemma SmallCallGens(s: State, a: Action)
    requires Sized(s) && Enabled(s, a) && Step(s, a).Go?
    requires a.PollAdd? || a.PollRemove? || a.CloseFd? || a.Dup? || a.Other? || a.Channel? || a.EventWait? || a.Schedule?
    ensures SameGens(s.sched, Step(s, a).s.sched)
  {
    hide HasFlag, Linked, Unlinked, Dropped, Installed, Opened, TakeNumber, HasNumber;
  }

  /** Only spawn changes how often a place has been taken. */
  lemma StepGens(s: State, a: Action)
    requires Sized(s) && Enabled(s, a) && Step(s, a).Go? && !a.Spawn?
    ensures SameGens(s.sched, Step(s, a).s.sched)
  {
    hide SysSpawn, SysSend, SysRecv, SysExit, SysPollWait, SameGens;
    match a {
      case Exit(t) => ExitGens(s, t);
      case Send(t, no, msg, sch, flags) => SendGens(s, t, no, msg, sch, flags);
      case Receive(t, no, cap, wants, flags) => ReceiveGens(s, t, no, cap, wants, flags);
      case PollWait(t, presult) => PollWaitGens(s, t, presult);
      case Unblock(event, v) => WakeAllGens(s, Q(s.sched, Waiting(event)), v);
      case _ => SmallCallGens(s, a);
    }
  }

  // ----- Spawn -----

  /** What spawn returns to its caller. */
  function Returned(s: State, a: Action): int
    requires Sized(s) && Enabled(s, a) && a.Spawn? && Step(s, a).Go?
  {
    Step(s, a).s.outs[a.t].r0
  }

  lemma AllocGens(s: State, memory: bool)
    requires Sized(s) && GensOk(s.sched) && AllocTask(s, memory).1 != NONE
    ensures var (r, t) := AllocTask(s, memory);
            && Sized(r) && IsTask(r, t) && GensOk(r.sched) && |r.sched.procs| >= |s.sched.procs|
            && (IsTask(s, t) ==> r.sched.procs[t].gen == s.sched.procs[t].gen + 1)
            && (forall u :: IsTask(s, u) && u != t ==> r.sched.procs[u] == s.sched.procs[u])
            && (forall u :: IsTask(r, u) && u != t ==> IsTask(s, u))
            && (forall q :: q != Free ==> Q(r.sched, q) == Q(s.sched, q))
            && r.sched.live == s.sched.live && r.sched.nondaemon == s.sched.nondaemon
  {
  }

  lemma StartedProcs(s: State, parent: int, t: int, prio: int, daemon: bool, nos: seq<int>)
    requires Sized(s) && IsTask(s, t) && IsTask(s, parent) && s.sched.procs[t].queue == Free
    ensures var r := Started(s, parent, t, prio, daemon, nos);
            && Fits(s, r) && r.outs == s.outs
            && r.sched.procs[t] == Proc(s.sched.procs[t].gen, Tid(s, parent), prio, daemon, Running, Ready(prio), s.sched.procs[t].req)
            && (forall u :: IsTask(s, u) && u != t ==> r.sched.procs[u] == s.sched.procs[u])
            && Q(r.sched, Ready(prio)) == Q(s.sched, Ready(prio)) + [t]
            && r.sched.live == s.sched.live + 1 && r.sched.nondaemon == s.sched.nondaemon + if daemon then 0 else 1
  {
    hide Inherited;
  }

  /** The arguments that spawn accepts, and a task that can be had. */
  predicate Succeeds(s: State, a: Action)
    requires Sized(s) && a.Spawn?
  {
    SpawnArgs(s, a.t, a.prio, a.nos, a.len, a.flags) && AllocTask(s, a.memory).1 != NONE
  }

  /** When spawn fails, and with what; nothing else changes. */
  lemma SpawnFails(s: State, a: Action)
    requires Inv(s) && a.Spawn? && Enabled(s, a) && Sized(s) && !Succeeds(s, a)
    ensures Step(s, a).Go?
    ensures var bad := !(a.flags == 0 || a.flags == 1) || !(0 <= a.prio < 8) || !(0 <= a.len <= 64);
            var error := if bad then -3
                         else if exists i :: 0 <= i < a.len && !(0 <= a.nos[i] < 64 && Fd(a.t, a.nos[i]) in s.chans.fds) then -9
                         else -4;
            Step(s, a).s == s.(outs := s.outs[a.t := s.outs[a.t].(r0 := error)])
  {
    hide Inv, Started, AllocTask, Vacant;
    AllocTaskOk(s, a.memory);
  }

  /** The place of the task that a successful spawn starts. */
  ghost predicate Starts(s: State, a: Action, r: State, id: int) {
    var t := id % 4096 - 1;
    && a.Spawn? && id > 0 && IsTask(s, a.t) && IsTask(r, a.t) && IsTask(r, t) && t != a.t && Tid(r, t) == id
    && r.sched.procs[t].parent == Tid(s, a.t) && r.sched.procs[t].prio == a.prio && r.sched.procs[t].daemon == (a.flags == 1)
    && r.sched.procs[t].status == Running && Q(r.sched, Ready(a.prio)) == Q(s.sched, Ready(a.prio)) + [t]
    && (IsTask(s, t) ==> s.sched.procs[t].status == Dead)
    && (forall u :: IsTask(r, u) && u != t ==> IsTask(s, u) && r.sched.procs[u] == s.sched.procs[u])
    && r.sched.live == s.sched.live + 1 && r.sched.nondaemon == s.sched.nondaemon + if a.flags == 1 then 0 else 1
  }

  /** A spawn that succeeds returns the id of the task that it has started, at the end of the ready queue of
      its priority, with its caller's id as parent; nobody has or has had that id before. */
  lemma SpawnReturns(s: State, a: Action)
    requires Inv(s) && Sized(s) && GensOk(s.sched) && a.Spawn? && Enabled(s, a) && Succeeds(s, a)
    ensures Step(s, a).Go?
    ensures var r, id := Step(s, a).s, Returned(s, a);
            && Starts(s, a, r, id) && GensOk(r.sched) && !Used(s, id) && Used(r, id)
            && (forall x :: Used(s, x) ==> Used(r, x))
  {
    hide Inv, AllocTask, Started, Starts, GensOk, Used;
    var (s1, t) := AllocTask(s, a.memory);
    SpawnIs(s, a);
    ChildOk(s, a);
    ChildProcs(s, a);
    ChildStarts(s, a, s1, t, Started(s1, a.t, t, a.prio, a.flags == SPAWN_DAEMON, a.nos[..a.len]));
    ChildIsNew(s, s1, t, Step(s, a).s);
  }

  lemma SpawnIs(s: State, a: Action)
    requires Inv(s) && Sized(s) && a.Spawn? && Enabled(s, a) && Succeeds(s, a)
    ensures var (s1, t) := AllocTask(s, a.memory);
            && Sized(s1) && IsTask(s1, t) && IsTask(s1, a.t)
            && Step(s, a) == Go(Return(Started(s1, a.t, t, a.prio, a.flags == SPAWN_DAEMON, a.nos[..a.len]), a.t, Tid(s1, t)))
  {
    hide Inv, Started, AllocTask, Vacant;
    AllocTaskOk(s, a.memory);
  }

  /** The task that is filled in: dead before, and not the caller. */
  lemma ChildOk(s: State, a: Action)
    requires Inv(s) && Sized(s) && a.Spawn? && Enabled(s, a) && Succeeds(s, a)
    ensures var (s1, t) := AllocTask(s, a.memory);
            && IsTask(s1, t) && t != a.t && s1.sched.procs[t].queue == Free && (IsTask(s, t) ==> s.sched.procs[t].status == Dead)
  {
    var (s1, t) := AllocTask(s, a.memory);
    AllocTaskOk(s, a.memory);
    hide Inv, AllocTask, SpawnArgs;
    VacantOnFree(s1, t);
  }

  /** It is filled in, and everybody else stays as before. */
  ghost predicate FilledIn(s: State, a: Action, s1: State, t: int, r: State) {
    && a.Spawn? && Sized(s) && Sized(s1) && Sized(r) && IsTask(s, a.t) && IsTask(s1, t) && |r.sched.procs| == |s1.sched.procs|
    && r.sched.procs[t] == Proc(s1.sched.procs[t].gen, Tid(s, a.t), a.prio, a.flags == 1, Running, Ready(a.prio), s1.sched.procs[t].req)
    && (forall u :: IsTask(r, u) && u != t ==> IsTask(s, u) && r.sched.procs[u] == s.sched.procs[u])
    && |r.sched.procs| >= |s.sched.procs|
    && Q(r.sched, Ready(a.prio)) == Q(s.sched, Ready(a.prio)) + [t]
    && r.sched.live == s.sched.live + 1 && r.sched.nondaemon == s.sched.nondaemon + (if a.flags == 1 then 0 else 1)
    && GensOk(s.sched) && GensOk(s1.sched) && (IsTask(s, t) ==> s1.sched.procs[t].gen == s.sched.procs[t].gen + 1)
  }

  lemma ChildProcs(s: State, a: Action)
    requires Inv(s) && Sized(s) && GensOk(s.sched) && a.Spawn? && Enabled(s, a) && Succeeds(s, a)
    ensures var (s1, t) := AllocTask(s, a.memory);
            && Sized(s1) && IsTask(s1, t) && IsTask(s1, a.t)
            && FilledIn(s, a, s1, t, Started(s1, a.t, t, a.prio, a.flags == SPAWN_DAEMON, a.nos[..a.len]))
  {
    hide Inv, AllocTask, Started, GensOk;
    var (s1, t) := AllocTask(s, a.memory);
    AllocGens(s, a.memory);
    ChildOk(s, a);
    StartedProcs(s1, a.t, t, a.prio, a.flags == SPAWN_DAEMON, a.nos[..a.len]);
  }

  lemma ChildStarts(s: State, a: Action, s1: State, t: int, r: State)
    requires Inv(s) && FilledIn(s, a, s1, t, r) && t != a.t && (IsTask(s, t) ==> s.sched.procs[t].status == Dead)
    ensures Tid(s1, t) > 0 && Starts(s, a, Return(r, a.t, Tid(s1, t)), Tid(s1, t))
  {
    hide Inv;
    TidParts(s1, t);
    assert s1.sched.procs[t].gen >= 0;
  }

  lemma ChildIsNew(s: State, s1: State, t: int, r: State)
    requires Sized(s) && Sized(s1) && IsTask(s1, t) && IsTask(r, t) && r.sched.procs[t].gen == s1.sched.procs[t].gen
    requires GensOk(s.sched) && GensOk(s1.sched) && |r.sched.procs| >= |s.sched.procs|
    requires forall u :: IsTask(r, u) && u != t ==> IsTask(s, u) && r.sched.procs[u].gen == s.sched.procs[u].gen
    requires IsTask(s, t) ==> s1.sched.procs[t].gen == s.sched.procs[t].gen + 1
    ensures GensOk(r.sched) && !Used(s, Tid(s1, t)) && Used(r, Tid(s1, t)) && forall x :: Used(s, x) ==> Used(r, x)
  {
    TidParts(s1, t);
  }

  lemma VacantOnFree(s: State, t: int)
    requires Inv(s) && Vacant(s, t)
    ensures s.sched.procs[t].queue == Free
  {
    assert ProcOk(s.sched.procs[t]);
  }

  // ----- Over a run -----

  /** The ids that successful spawns of a run return, in order. */
  ghost function Ids(s: State, acts: seq<Action>): seq<int>
    requires Sized(s)
    decreases |acts|
  {
    if acts == [] || !Enabled(s, acts[0]) || Step(s, acts[0]).Panic? then []
    else
      (if acts[0].Spawn? && Succeeds(s, acts[0]) then [Returned(s, acts[0])] else []) + Ids(Step(s, acts[0]).s, acts[1..])
  }

  /** Any step leaves an id used that is, and returns none that is used before. */
  lemma StepIds(s: State, a: Action)
    requires Sized(s) && Inv(s) && GensOk(s.sched) && Enabled(s, a) && Safe(s, a) && Step(s, a).Go?
    ensures var r := Step(s, a).s;
            && Inv(r) && GensOk(r.sched) && (forall x :: Used(s, x) ==> Used(r, x))
            && (a.Spawn? && Succeeds(s, a) ==> !Used(s, Returned(s, a)) && Used(r, Returned(s, a)))
  {
    hide Inv, Step, Succeeds;
    StepOk(s, a);
    if !a.Spawn? {
      StepGens(s, a);
    } else if Succeeds(s, a) {
      SpawnReturns(s, a);
    } else {
      SpawnFails(s, a);
    }
  }

  /** Over any run, no id is returned twice, and none that was used before it. */
  lemma {:induction false} IdsNew(s: State, acts: seq<Action>, r: State)
    requires Sized(s) && Inv(s) && GensOk(s.sched) && IsRun(s, acts, r)
    ensures NoDup(Ids(s, acts)) && forall x :: x in Ids(s, acts) ==> !Used(s, x)
    ensures Sized(r) && GensOk(r.sched)
    decreases |acts|
  {
    hide Inv, Step, Used, GensOk, Succeeds;
    if acts != [] {
      StepIds(s, acts[0]);
      IdsNew(Step(s, acts[0]).s, acts[1..], r);
    }
  }

  /** A spawn at boot takes the next place for the first time. */
  lemma BootSpawn(s: State, prio: int, flags: int)
    requires Sized(s) && |s.sched.procs| < 2 && Q(s.sched, Free) == [] && 0 <= prio < 8 && (flags == 0 || flags == 1)
    ensures SysSpawn(s, NONE, prio, [], 0, flags, true).Go?
    ensures var r, n := SysSpawn(s, NONE, prio, [], 0, flags, true).s, |s.sched.procs|;
            && |r.sched.procs| == n + 1 && r.sched.procs[n].gen == 0 && Q(r.sched, Free) == []
            && forall u :: 0 <= u < n ==> r.sched.procs[u] == s.sched.procs[u]
  {
    var n := |s.sched.procs|;
    var (s0, t) := AllocTask(s, true);
    assert t == n && Q(s0.sched, Free) == [n] && s0.sched.procs[n].queue == Free && s0.sched.procs[n].gen == 0;
    assert Without([n], n) == [];
    hide AllocTask;
    StartedFree(s0, n, prio, flags == SPAWN_DAEMON);
  }

  lemma StartedFree(s: State, t: int, prio: int, daemon: bool)
    requires Sized(s) && IsTask(s, t) && s.sched.procs[t].queue == Free
    ensures var r := Started(s, NONE, t, prio, daemon, []);
            && |r.sched.procs| == |s.sched.procs| && r.sched.procs[t].gen == s.sched.procs[t].gen
            && (forall u :: IsTask(s, u) && u != t ==> r.sched.procs[u] == s.sched.procs[u])
            && Q(r.sched, Free) == Without(Q(s.sched, Free), t)
  {
    hide Inherited, Without;
  }

  lemma BootedIds()
    ensures Inv(Booted()) && GensOk(Booted().sched) && |Booted().sched.procs| == 2 && Tid(Booted(), 0) == 1 && Tid(Booted(), 1) == 2
  {
    hide Inv, SysSpawn;
    BootOk();
    BootSpawn(INIT, 7, SPAWN_DAEMON);
    var s1 := SysSpawn(INIT, NONE, 7, [], 0, SPAWN_DAEMON, true).s;
    BootSpawn(s1, 6, 0);
  }

  /** From boot on, spawn never returns an id twice, nor that of one of the two first tasks; and in every
      reachable state different tasks have different ids. */
  lemma IdsUnique(acts: seq<Action>, r: State, t: int, u: int)
    requires IsRun(Booted(), acts, r) && IsTask(r, t) && IsTask(r, u)
    ensures NoDup(Ids(Booted(), acts)) && 1 !in Ids(Booted(), acts) && 2 !in Ids(Booted(), acts)
    ensures Tid(r, t) == Tid(r, u) ==> t == u
  {
    BootedIds();
    hide Inv;
    IdsNew(Booted(), acts, r);
    assert Used(Booted(), 1) && Used(Booted(), 2);
    if Tid(r, t) == Tid(r, u) { TidsDiffer(r, t, u); }
  }
}
