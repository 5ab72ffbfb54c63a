/** What the system calls hand back, and what they have done then: errors, numbers and registrations. */
module KernelResults {
  import opened KernelState
  import opened KernelInvariant
  import opened KernelSteps

  /** The bit of a flag is the binary digit at its place, for all flags, negative ones too. */
  lemma FlagBit(flags: int, bit: int)
    requires bit == 1 || bit == 2 || bit == 4
    ensures HasFlag(flags, bit) <==> flags % (2 * bit) >= bit
  {
  }

  /** Is no an open descriptor of t? */
  predicate IsOpen(s: State, t: int, no: int) {
    0 <= no < 64 && Fd(t, no) in s.chans.fds
  }

  /** A call that only returns the result v. */
  predicate Only(s: State, a: Action, v: int)
    requires Sized(s) && Enabled(s, a) && !a.Unblock? && !a.Schedule?
  {
    Step(s, a) == Go(s.(outs := s.outs[a.t := s.outs[a.t].(r0 := v)]))
  }

  // ----- Messages -----

  /** When send refuses, and with what: bad descriptors, and nonblocking sends that would block. */
  lemma SendRefused(s: State, a: Action)
    requires Inv(s) && a.Send? && Sized(s) && Enabled(s, a)
    ensures !IsOpen(s, a.t, a.no) ==> Only(s, a, -9)
    ensures IsOpen(s, a.t, a.no) ==>
              var cd := s.chans.fds[Fd(a.t, a.no)];
              var sends, nonblock := cd.flags / 2 % 2 == 1, cd.flags / 4 % 2 == 1 || a.flags % 2 == 1;
              var wouldBlock := nonblock && Q(s.sched, Receivers(cd.chan)) == [];
              && (!sends ==> Only(s, a, -9))
              && (sends && wouldBlock ==> Only(s, a, -15))
              && (sends && !wouldBlock && a.sch != -1 && !IsOpen(s, a.t, a.sch) ==> Only(s, a, -9))
  {
    hide Inv, Deliver, Offered, TriggerAll;
    assert a.flags / 1 == a.flags;
  }

  /** The same for recv. */
  lemma ReceiveRefused(s: State, a: Action)
    requires Inv(s) && a.Receive? && Sized(s) && Enabled(s, a)
    ensures !IsOpen(s, a.t, a.no) ==> Only(s, a, -9)
    ensures IsOpen(s, a.t, a.no) ==>
              var cd := s.chans.fds[Fd(a.t, a.no)];
              var receives, nonblock := cd.flags % 2 == 1, cd.flags / 4 % 2 == 1 || a.flags % 2 == 1;
              var wouldBlock := nonblock && Q(s.sched, Senders(cd.chan)) == [];
              && (!receives ==> Only(s, a, -9))
              && (receives && wouldBlock ==> Only(s, a, -15))
  {
    hide Inv, Deliver, Asked, TriggerAll;
    assert a.flags / 1 == a.flags;
    if IsOpen(s, a.t, a.no) {
      var flags := s.chans.fds[Fd(a.t, a.no)].flags;
      assert flags / 1 == flags;
    }
  }

  // ----- Polling -----

  /** The events that the flags of poll_add and poll_remove name: 1 for RECV, 2 for SEND. */
  predicate Asks(flags: int, ev: Ev) {
    (if ev == EvRecv then flags else flags / 2) % 2 == 1
  }

  lemma AsksWanted(flags: int, ev: Ev)
    ensures Asks(flags, ev) <==> Wanted(flags, ev)
  {
    assert flags / 1 == flags;
  }

  /** May events of this kind be polled on a descriptor with these flags? */
  predicate Permits(flags: int, ev: Ev) {
    (if ev == EvRecv then flags else flags / 2) % 2 == 1
  }

  lemma PermitsFlag(flags: int, ev: Ev)
    ensures Permits(flags, ev) <==> HasFlag(flags, if ev == EvRecv then CHAN_RECV else CHAN_SEND)
  {
    assert flags / 1 == flags;
  }

  /** poll_add refuses closed descriptors, and events that the descriptor does not permit. */
  lemma PollAddRefused(s: State, a: Action)
    requires Inv(s) && a.PollAdd? && Sized(s) && Enabled(s, a)
    ensures var f := Fd(a.t, a.no);
            !IsOpen(s, a.t, a.no) || (exists ev :: Asks(a.flags, ev) && !Permits(s.chans.fds[f].flags, ev)) ==> Only(s, a, -9)
  {
    hide Inv, PollAddOne, HasFlag, Asks, Permits;
    AsksWanted(a.flags, EvRecv);
    AsksWanted(a.flags, EvSend);
    if IsOpen(s, a.t, a.no) {
      PermitsFlag(s.chans.fds[Fd(a.t, a.no)].flags, EvRecv);
      PermitsFlag(s.chans.fds[Fd(a.t, a.no)].flags, EvSend);
      forall ev | Asks(a.flags, ev) ensures ev == EvRecv || ev == EvSend {}
    }
  }

  /** One for an event that is asked for and is not registered. */
  function New(s: State, f: Fd, ev: Ev, flags: int): int {
    if Asks(flags, ev) && Node(f, ev) !in s.polls.at then 1 else 0
  }

  /** One for an event that is asked for and is registered. */
  function Gone(s: State, f: Fd, ev: Ev, flags: int): int {
    if Asks(flags, ev) && Node(f, ev) in s.polls.at then 1 else 0
  }

  /** Otherwise it returns 0, and each event that is asked for and was not registered is then, at the end of
      the caller's own queue if it is active and else of its channel's list, and is counted; nothing else is touched. */
  lemma PollAddRegisters(s: State, a: Action)
    requires Inv(s) && a.PollAdd? && Sized(s) && Enabled(s, a) && IsOpen(s, a.t, a.no)
    requires forall ev :: Asks(a.flags, ev) ==> Permits(s.chans.fds[Fd(a.t, a.no)].flags, ev)
    ensures Step(s, a).Go?
    ensures var r, f := Step(s, a).s, Fd(a.t, a.no);
            && r.sched == s.sched && r.chans == s.chans && r.outs == s.outs[a.t := s.outs[a.t].(r0 := 0)]
            && forall ev ::
                 var n, c := Node(f, ev), s.chans.fds[f].chan;
                 var l := if Active(s.sched, c, ev) then OnTask(a.t, ev) else OnChannel(c, ev);
                 if Asks(a.flags, ev) && n !in s.polls.at then
                   n in r.polls.at && r.polls.at[n] == l && L(r.polls, l) == L(s.polls, l) + [f]
                 else (n in r.polls.at <==> n in s.polls.at) && (n in s.polls.at ==> r.polls.at[n] == s.polls.at[n])
    ensures var r, f := Step(s, a).s, Fd(a.t, a.no);
            && (forall n :: n in r.polls.at && n.fd != f ==> n in s.polls.at && r.polls.at[n] == s.polls.at[n])
            && r.polls.counts == s.polls.counts[a.t := s.polls.counts[a.t] + New(s, f, EvRecv, a.flags) + New(s, f, EvSend, a.flags)]
  {
    hide Inv, PollAddOne, HasFlag, Asks, Permits, Wanted, Active;
    AsksWanted(a.flags, EvRecv);
    AsksWanted(a.flags, EvSend);
    PermitsFlag(s.chans.fds[Fd(a.t, a.no)].flags, EvRecv);
    PermitsFlag(s.chans.fds[Fd(a.t, a.no)].flags, EvSend);
    var f := Fd(a.t, a.no);
    var s1 := PollAddOne(s, f, EvRecv, a.flags);
    AddOne(s, f, EvRecv, a.flags);
    AddOne(s1, f, EvSend, a.flags);
    assert forall ev :: Node(f, ev) == Node(f, EvRecv) || Node(f, ev) == Node(f, EvSend);
  }

  /** One event registered, or not asked for, or registered before. */
  lemma AddOne(s: State, f: Fd, ev: Ev, flags: int)
    requires Sized(s) && IsTask(s, f.task) && f in s.chans.fds
    ensures var r, n, c := PollAddOne(s, f, ev, flags), Node(f, ev), s.chans.fds[f].chan;
            var l := if Active(s.sched, c, ev) then OnTask(f.task, ev) else OnChannel(c, ev);
            && r.sched == s.sched && r.chans == s.chans && r.outs == s.outs && |r.polls.counts| == |s.polls.counts|
            && r.polls.counts == s.polls.counts[f.task := s.polls.counts[f.task] + if Wanted(flags, ev) && n !in s.polls.at then 1 else 0]
            && (if Wanted(flags, ev) && n !in s.polls.at then
                  && n in r.polls.at && r.polls.at[n] == l && L(r.polls, l) == L(s.polls, l) + [f]
                  && (forall k :: k != l ==> L(r.polls, k) == L(s.polls, k))
                else r == s)
            && (forall m :: m != n ==> (m in r.polls.at <==> m in s.polls.at) && (m in s.polls.at ==> r.polls.at[m] == s.polls.at[m]))
  {
    hide Active, Wanted;
  }

  /** poll_remove returns 0 for an open descriptor, and then exactly the events that it names are not
      registered any more. */
  lemma PollRemoveUnregisters(s: State, a: Action)
    requires Inv(s) && a.PollRemove? && Sized(s) && Enabled(s, a)
    ensures !IsOpen(s, a.t, a.no) ==> Only(s, a, -9)
    ensures IsOpen(s, a.t, a.no) ==>
              && Step(s, a).Go?
              && var r, f := Step(s, a).s, Fd(a.t, a.no);
                 && r.sched == s.sched && r.chans == s.chans && r.outs == s.outs[a.t := s.outs[a.t].(r0 := 0)]
                 && (forall n :: n in r.polls.at <==> n in s.polls.at && !(n.fd == f && Asks(a.flags, n.ev)))
                 && (forall n :: n in r.polls.at ==> r.polls.at[n] == s.polls.at[n])
                 && r.polls.counts == s.polls.counts[a.t := s.polls.counts[a.t] - Gone(s, f, EvRecv, a.flags) - Gone(s, f, EvSend, a.flags)]
  {
    hide Inv, Asks, Wanted, PollRemoveOne;
    AsksWanted(a.flags, EvRecv);
    AsksWanted(a.flags, EvSend);
    if IsOpen(s, a.t, a.no) {
      var f := Fd(a.t, a.no);
      RemoveOne(s, f, EvRecv, a.flags);
      RemoveOne(PollRemoveOne(s, f, EvRecv, a.flags), f, EvSend, a.flags);
      forall n: Node ensures n.ev == EvRecv || n.ev == EvSend {}
    }
  }

  /** One event unregistered, or not asked for, or not registered. */
  lemma RemoveOne(s: State, f: Fd, ev: Ev, flags: int)
    requires Sized(s) && IsTask(s, f.task)
    ensures var r, n := PollRemoveOne(s, f, ev, flags), Node(f, ev);
            && r.sched == s.sched && r.chans == s.chans && r.outs == s.outs && |r.polls.counts| == |s.polls.counts|
            && r.polls.counts == s.polls.counts[f.task := s.polls.counts[f.task] - if Wanted(flags, ev) && n in s.polls.at then 1 else 0]
            && (forall m :: m in r.polls.at <==> m in s.polls.at && !(m == n && Wanted(flags, ev)))
            && (forall m :: m in r.polls.at ==> r.polls.at[m] == s.polls.at[m])
  {
    hide Wanted;
  }

  /** poll_wait refuses a task that has nothing registered, or nowhere to put the result. */
  lemma PollWaitRefused(s: State, a: Action)
    requires Inv(s) && a.PollWait? && Sized(s) && Enabled(s, a)
    ensures s.polls.counts[a.t] == 0 ==> Only(s, a, -3)
    ensures s.polls.counts[a.t] != 0 && !a.presult ==> Only(s, a, -16)
  {
    hide Inv, KernelState.HandlePoll;
  }

  // ----- Descriptors -----

  /** channel refuses a task that has all 64 numbers in use. */
  lemma ChannelRefused(s: State, a: Action)
    requires Inv(s) && a.Channel? && Sized(s) && Enabled(s, a)
    ensures (forall no :: 0 <= no < 64 ==> Fd(a.t, no) in s.chans.fds) ==> Only(s, a, -8)
  {
    assert PoolOk(s.chans, a.t);
    hide SchedOk, FdsOk, RefsOk, FreeOk, KeepOk, PollsOk, Quiet, Asleep, Rendezvous;
    var p := s.chans.pools[a.t];
    if forall no :: 0 <= no < 64 ==> Fd(a.t, no) in s.chans.fds {
      if p.free != [] { assert p.free[0] in p.free; }
      assert Fd(a.t, 63) in s.chans.fds;
    }
  }

  /** Otherwise its result is a number that was not open, and is the only descriptor of a channel on which
      nobody waits, good for sending and receiving. */
  lemma ChannelOpens(s: State, a: Action)
    requires Inv(s) && a.Channel? && Sized(s) && Enabled(s, a) && exists no :: 0 <= no < 64 && Fd(a.t, no) !in s.chans.fds
    ensures Step(s, a).Go?
    ensures var r := Step(s, a).s; var no := r.outs[a.t].r0; var f := Fd(a.t, no);
            && 0 <= no < 64 && f !in s.chans.fds && f in r.chans.fds && r.chans.fds[f].flags == 3
            && Naming(r.chans, r.chans.fds[f].chan) == {f} && RefOf(r.chans, r.chans.fds[f].chan) == 1
            && Q(r.sched, Senders(r.chans.fds[f].chan)) == [] && Q(r.sched, Receivers(r.chans.fds[f].chan)) == []
            && r.chans.fds == s.chans.fds[f := r.chans.fds[f]] && r.sched.procs == s.sched.procs
  {
    var no :| 0 <= no < 64 && Fd(a.t, no) !in s.chans.fds;
    NumberLeft(s, a.t, no);
    ChannelOk(s, a.t);
    hide Inv, Step;
    ChannelShape(s, a.t);
    ChannelStep(s, a.t);
    var r := SysChannel(s, a.t).s;
    OneRef(r, Fd(a.t, r.outs[a.t].r0));
  }

  lemma ChannelStep(s: State, t: int)
    requires Sized(s) && Enabled(s, Channel(t))
    ensures Step(s, Channel(t)) == SysChannel(s, t)
  {
    hide SysChannel;
  }

  lemma OneRef(s: State, f: Fd)
    requires Inv(s) && f in s.chans.fds && Naming(s.chans, s.chans.fds[f].chan) == {f}
    ensures RefOf(s.chans, s.chans.fds[f].chan) == 1
  {
    assert FdsOk(s.chans) && RefsOk(s.chans);
    hide Inv;
  }

  /** A number that is not open can be had. */
  lemma NumberLeft(s: State, t: int, no: int)
    requires Inv(s) && IsTask(s, t) && 0 <= no < 64 && Fd(t, no) !in s.chans.fds
    ensures HasNumber(s.chans.pools[t])
  {
    assert PoolOk(s.chans, t);
    hide SchedOk, FdsOk, RefsOk, FreeOk, KeepOk, PollsOk, Quiet, Asleep, Rendezvous;
    var p := s.chans.pools[t];
    if p.next >= 64 { assert no in p.free; }
  }

  lemma ChannelShape(s: State, t: int)
    requires Inv(s) && IsTask(s, t) && Sized(s) && HasNumber(s.chans.pools[t])
    ensures SysChannel(s, t).Go?
    ensures var r := SysChannel(s, t).s; var no := r.outs[t].r0; var f := Fd(t, no);
            && Sized(r) && 0 <= no < 64 && f !in s.chans.fds && f in r.chans.fds && r.chans.fds[f].flags == 3
            && Naming(r.chans, r.chans.fds[f].chan) == {f}
            && Q(r.sched, Senders(r.chans.fds[f].chan)) == [] && Q(r.sched, Receivers(r.chans.fds[f].chan)) == []
            && r.chans.fds == s.chans.fds[f := r.chans.fds[f]] && r.sched.procs == s.sched.procs
  {
    assert PoolOk(s.chans, t);
    TakenOk(s.chans, t);
    FreshOk(s.chans);
    hide SchedOk, FdsOk, PoolOk, RefsOk, FreeOk, KeepOk, PollsOk, Quiet, Asleep, Rendezvous, TakeNumber, HasNumber, FreeBut;
    var r := SysChannel(s, t).s;
    var c, f := FreshChannel(s.chans).1, Fd(t, r.outs[t].r0);
    hide FreshChannel;
    forall g ensures g in Naming(r.chans, c) <==> g == f { assert g in Naming(s.chans, c) <==> false; }
  }

  /** close returns 0 for an open descriptor, which is gone then, and nothing but it. */
  lemma CloseEnds(s: State, a: Action)
    requires Inv(s) && a.CloseFd? && Sized(s) && Enabled(s, a)
    ensures !IsOpen(s, a.t, a.no) ==> Only(s, a, -9)
    ensures IsOpen(s, a.t, a.no) ==>
              && Step(s, a).Go?
              && var r := Step(s, a).s;
                 && r.sched == s.sched && r.outs == s.outs[a.t := s.outs[a.t].(r0 := 0)]
                 && r.chans.fds == s.chans.fds - {Fd(a.t, a.no)}
  {
    hide Inv, KernelState.Close;
    if IsOpen(s, a.t, a.no) {
      SysCloseOk(s, a.t, a.no);
      CloseShape(s, Fd(a.t, a.no));
    }
  }

  lemma CloseShape(s: State, f: Fd)
    requires Sized(s) && IsTask(s, f.task)
    ensures match KernelState.Close(s, f)
            case Go(r) => r.sched == s.sched && r.outs == s.outs && r.chans.fds == s.chans.fds - {f}
            case Panic(_) => true
  {
    hide Unlinked;
  }

  /** What dup refuses: a closed descriptor, an impossible number, and a further one when all are in use. */
  lemma DupRefused(s: State, a: Action)
    requires Inv(s) && a.Dup? && Sized(s) && Enabled(s, a)
    ensures !IsOpen(s, a.t, a.oldfd) || (a.newfd != -1 && !(0 <= a.newfd < 64)) ==> Only(s, a, -9)
    ensures IsOpen(s, a.t, a.oldfd) && a.newfd == -1 && (forall no :: 0 <= no < 64 ==> Fd(a.t, no) in s.chans.fds) ==> Only(s, a, -8)
  {
    assert PoolOk(s.chans, a.t);
    hide SchedOk, FdsOk, RefsOk, FreeOk, KeepOk, PollsOk, Quiet, Asleep, Rendezvous, DupOnto;
    var p := s.chans.pools[a.t];
    if forall no :: 0 <= no < 64 ==> Fd(a.t, no) in s.chans.fds {
      if p.free != [] { assert p.free[0] in p.free; }
      assert Fd(a.t, 63) in s.chans.fds;
    }
  }

  /** Otherwise its result is the number asked for, or one that was not open, and that is a copy of the old
      descriptor, or the old one itself with new flags; the caller's other descriptors, and those of all
      other tasks, are as before. */
  lemma DupCopies(s: State, a: Action)
    requires Inv(s) && a.Dup? && Sized(s) && Enabled(s, a) && IsOpen(s, a.t, a.oldfd)
    requires if a.newfd == -1 then exists no :: 0 <= no < 64 && Fd(a.t, no) !in s.chans.fds else 0 <= a.newfd < 64
    ensures Step(s, a).Go?
    ensures var r := Step(s, a).s; var no := r.outs[a.t].r0; var from := s.chans.fds[Fd(a.t, a.oldfd)];
            && r.sched == s.sched && 0 <= no < 64 && (if a.newfd == -1 then Fd(a.t, no) !in s.chans.fds else no == a.newfd)
            && r.chans.fds == s.chans.fds[Fd(a.t, no) := Cd(from.chan, if a.newfd == a.oldfd then a.flags else from.flags)]
  {
    hide SchedOk, PoolOk, FdsOk, RefsOk, FreeOk, KeepOk, PollsOk, Quiet, Asleep, Rendezvous, Dropped, Installed, Unlinked, TakeNumber, HasNumber;
    if a.newfd == -1 {
      var no :| 0 <= no < 64 && Fd(a.t, no) !in s.chans.fds;
      NumberLeft(s, a.t, no);
      assert PoolOk(s.chans, a.t);
      TakenOk(s.chans, a.t);
      InstalledIs(s, a.t, a.oldfd);
    } else if a.newfd != a.oldfd {
      DupOk(s, a.t, a.oldfd, a.newfd, a.flags);
      ExplicitIs(s, a.t, a.oldfd, a.newfd);
    }
  }

  lemma InstalledIs(s: State, t: int, oldfd: int)
    requires Sized(s) && IsTask(s, t) && IsOpen(s, t, oldfd) && HasNumber(s.chans.pools[t])
    requires Fd(t, TakeNumber(s.chans.pools[t]).1) !in s.chans.fds
    ensures var (p, no) := TakeNumber(s.chans.pools[t]);
            var out := DupOnto(s.(chans := s.chans.(pools := s.chans.pools[t := p])), Fd(t, oldfd), Fd(t, no));
            && out.Go? && out.s.sched == s.sched && out.s.outs[t].r0 == no
            && out.s.chans.fds == s.chans.fds[Fd(t, no) := s.chans.fds[Fd(t, oldfd)]]
  {
    hide KernelState.Close, TakeNumber, HasNumber;
  }

  lemma ExplicitIs(s: State, t: int, oldfd: int, newfd: int)
    requires Sized(s) && IsTask(s, t) && IsOpen(s, t, oldfd) && newfd != oldfd && DupOnto(s, Fd(t, oldfd), Fd(t, newfd)).Go?
    ensures var r := DupOnto(s, Fd(t, oldfd), Fd(t, newfd)).s;
            r.sched == s.sched && r.outs[t].r0 == newfd && r.chans.fds == s.chans.fds[Fd(t, newfd) := s.chans.fds[Fd(t, oldfd)]]
  {
    hide Unlinked;
  }
}
