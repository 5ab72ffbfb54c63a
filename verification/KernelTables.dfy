/** What the kernel keeps in memory: tasks and the queues they are linked into, the poll nodes of
    descriptors and the lists they are linked into, and the free descriptor numbers of every task.
    The structures stand for sequences and maps of `KernelState`; every operation is proved to keep all
    of them in order and to do to the sequences and maps what `KernelState` says. */
module KernelTables {
  import opened Seqs
  import opened KernelState
  import opened IntrusiveLists
  import opened LinkedLists
  import opened DescriptorPool

  /** The free numbers of every task, in lists of their own. */
  ghost predicate AllPools(descs: seq<Descriptors>, pools: seq<Pool>)
    reads descs, set d | d in descs :: d.link
  {
    && |descs| == |pools|
    && (forall t :: 0 <= t < |descs| ==> descs[t].Valid() && descs[t].Now() == pools[t])
    && (forall i, j :: 0 <= i < j < |descs| ==> descs[i] != descs[j] && descs[i].link != descs[j].link)
  }

  /** The queues and heads that there are: those of the kernel itself, those of every channel and those
      of every task. */
  ghost predicate Complete(queues: map<QueueId, TaskQueue>, heads: map<ListId, Link>, tasks: nat, numbers: nat, channels: nat) {
    && numbers == tasks && (forall q :: q in queues <==> IsQueue(q, channels)) && (forall l :: l in heads <==> IsList(l, tasks, channels))
  }

  predicate IsQueue(q: QueueId, channels: nat) {
    match q
    case Ready(p) => 0 <= p < TASK_NPRIO
    case Senders(c) => 0 <= c < channels
    case Receivers(c) => 0 <= c < channels
    case Waiting(e) => 0 <= e < NEVENTS
    case Polling => true
    case Free => true
  }

  predicate IsList(l: ListId, tasks: nat, channels: nat) {
    match l
    case OnChannel(c, _) => 0 <= c < channels
    case OnTask(t, _) => 0 <= t < tasks
  }

  lemma AtFirst(queues: map<QueueId, TaskQueue>)
    requires forall q :: q in queues <==> IsQueue(q, 0)
    ensures Complete(queues, map[], 0, 0, 0)
  {
  }

  lemma NoneYet(queues: map<QueueId, TaskQueue>, heads: map<ListId, Link>, tasks: nat, numbers: nat, channels: nat)
    requires Complete(queues, heads, tasks, numbers, channels)
    ensures numbers == tasks
    ensures OnTask(tasks, EvRecv) !in heads && OnTask(tasks, EvSend) !in heads && Free in queues
    ensures OnChannel(channels, EvRecv) !in heads && OnChannel(channels, EvSend) !in heads
    ensures Senders(channels) !in queues && Receivers(channels) !in queues
  {
  }

  ghost predicate TwoMore<K(!new), V>(m: map<K, V>, m': map<K, V>, a: K, b: K) {
    forall k :: k in m' <==> k in m || k == a || k == b
  }

  lemma CompleteTask(queues: map<QueueId, TaskQueue>, heads: map<ListId, Link>, heads': map<ListId, Link>, tasks: nat, channels: nat)
    requires Complete(queues, heads, tasks, tasks, channels) && TwoMore(heads, heads', OnTask(tasks, EvRecv), OnTask(tasks, EvSend))
    ensures Complete(queues, heads', tasks + 1, tasks + 1, channels)
  {
    forall l: ListId ensures l.ev == EvRecv || l.ev == EvSend {}
  }

  lemma CompleteChannel(queues: map<QueueId, TaskQueue>, heads: map<ListId, Link>, queues': map<QueueId, TaskQueue>, heads': map<ListId, Link>,
                        tasks: nat, channels: nat)
    requires Complete(queues, heads, tasks, tasks, channels)
    requires TwoMore(queues, queues', Senders(channels), Receivers(channels))
    requires TwoMore(heads, heads', OnChannel(channels, EvRecv), OnChannel(channels, EvSend))
    ensures Complete(queues', heads', tasks, tasks, channels + 1)
  {
    forall l: ListId ensures l.ev == EvRecv || l.ev == EvSend {}
  }

  /** `taskqueue_init` of a queue of the kernel itself, while there are no tasks. */
  method InitQueue(queues: map<QueueId, TaskQueue>, q: QueueId) returns (r: map<QueueId, TaskQueue>)
    requires AllLinked(queues, [], map[]) && q !in queues
    ensures AllLinked(r, [], map[]) && fresh(r.Values - queues.Values) && forall k :: k in r <==> k in queues || k == q
  {
    hide AllLinked;
    var queue := AddQueue(queues, [], map[], q);
    r := queues[q := queue];
    assert r.Values <= queues.Values + {queue};
  }

  /** `init_tasks`: the queues of the kernel itself, empty. */
  method InitTasks() returns (queues: map<QueueId, TaskQueue>)
    ensures AllLinked(queues, [], map[]) && fresh(queues.Values) && forall q :: q in queues <==> IsQueue(q, 0)
  {
    hide AllLinked;
    assert AllLinked(map[], [], map[]) by { NoneLinked(); }
    queues := InitQueue(map[], Free);
    queues := InitQueue(queues, Polling);
    for i := 0 to TASK_NPRIO
      invariant AllLinked(queues, [], map[]) && fresh(queues.Values)
      invariant forall q :: q in queues <==> q == Free || q == Polling || (q.Ready? && 0 <= q.prio < i)
    {
      queues := InitQueue(queues, Ready(i));
    }
    for i := 0 to NEVENTS
      invariant AllLinked(queues, [], map[]) && fresh(queues.Values)
      invariant forall q :: q in queues <==> q == Free || q == Polling || (q.Ready? && 0 <= q.prio < TASK_NPRIO) || (q.Waiting? && 0 <= q.event < i)
    {
      queues := InitQueue(queues, Waiting(i));
    }
  }

  lemma NoneLinked()
    ensures AllLinked(map[], [], map[])
  {
  }

  lemma NoneChained()
    ensures AllChained(map[], map[], map[], map[])
  {
    forall l ensures NoDup(Listed(map[], l)) {}
  }

  lemma PoolAt(descs: seq<Descriptors>, pools: seq<Pool>, t: int)
    requires AllPools(descs, pools) && 0 <= t < |descs|
    ensures |pools| == |descs| && descs[t].Valid() && descs[t].Now() == pools[t]
  {
  }

  /** `alloc_channel_desc` for task t. */
  method TakeFrom(descs: seq<Descriptors>, ghost pools: seq<Pool>, t: int) returns (no: int)
    requires AllPools(descs, pools) && 0 <= t < |descs|
    modifies descs[t]
    ensures |pools| == |descs| && no == TakeNumber(pools[t]).1 && AllPools(descs, pools[t := TakeNumber(pools[t]).0])
  {
    hide Descriptors.Valid, Descriptors.Now, TakeNumber;
    no := descs[t].AllocDesc();
  }

  /** `free_channel_desc` for task t. */
  method GiveBack(descs: seq<Descriptors>, ghost pools: seq<Pool>, t: int, no: int)
    requires AllPools(descs, pools) && 0 <= t < |descs| && |pools| == |descs|
    requires 0 <= no < pools[t].next && no !in pools[t].free
    modifies descs[t], descs[t].link
    ensures AllPools(descs, pools[t := pools[t].(free := [no] + pools[t].free)])
  {
    PoolAt(descs, pools, t);
    hide Descriptors.Valid;
    descs[t].FreeDesc(no);
  }

  /** The numbers of a task that starts with n descriptors. */
  method StartOver(descs: seq<Descriptors>, ghost pools: seq<Pool>, t: int, n: int)
    requires AllPools(descs, pools) && 0 <= t < |descs| && 0 <= n <= MAX_TASK_CHANNELS
    modifies descs[t]
    ensures |pools| == |descs| && AllPools(descs, pools[t := Pool([], n)])
  {
    hide Descriptors.Valid, Descriptors.Now;
    descs[t].Restart(n);
  }

  /** Every task is on the queue that it names. */
  ghost predicate Seated(procs: seq<Proc>, queues: map<QueueId, TaskQueue>, qs: map<QueueId, seq<int>>) {
    forall t :: 0 <= t < |procs| ==> procs[t].queue in queues && t in Queued(qs, procs[t].queue)
  }

  lemma SeatedMoved(procs: seq<Proc>, queues: map<QueueId, TaskQueue>, qs: map<QueueId, seq<int>>, t: int, status: Status, q: QueueId)
    requires Seated(procs, queues, qs) && 0 <= t < |procs| && q in queues && NoDup(Queued(qs, procs[t].queue))
    ensures Seated(procs[t := procs[t].(status := status, queue := q)], queues, Requeued(qs, t, procs[t].queue, q))
    ensures var sc := Moved(Sched(procs, qs, 0, 0, map[]), t, status, q);
            sc.procs == procs[t := procs[t].(status := status, queue := q)] && sc.queues == Requeued(qs, t, procs[t].queue, q)
  {
    hide Without, NoDup, Queued, Requeued;
    var from := procs[t].queue;
    RequeuedAt(qs, t, from, q);
    assert t in Queued(qs, from) + [t] && t in Without(Queued(qs, from), t) + [t] && t in Queued(qs, q) + [t] by {
      LastIn(Queued(qs, from), t);
      LastIn(Without(Queued(qs, from), t), t);
      LastIn(Queued(qs, q), t);
    }
    assert Moved(Sched(procs, qs, 0, 0, map[]), t, status, q).queues == Requeued(qs, t, from, q) by { MovedIs(procs, qs, t, status, q); }
  }

  lemma LastIn(s: seq<int>, t: int)
    ensures t in s + [t]
  {
    assert (s + [t])[|s|] == t;
  }

  lemma MovedIs(procs: seq<Proc>, qs: map<QueueId, seq<int>>, t: int, status: Status, q: QueueId)
    requires 0 <= t < |procs|
    ensures Moved(Sched(procs, qs, 0, 0, map[]), t, status, q).queues == Requeued(qs, t, procs[t].queue, q)
  {
  }

  class Tables {
    // `task_lookup`: the fields of every task, and the links inside it
    var procs: seq<Proc>
    var links: seq<Link>
    // every task queue there is, and the sequences that they stand for
    var queues: map<QueueId, TaskQueue>
    ghost var qs: map<QueueId, seq<int>>
    // the heads of all poll lists and the poll nodes of all descriptors, and what is on the lists
    var heads: map<ListId, Link>
    var nodes: map<Node, Link>
    ghost var lists: map<ListId, seq<Fd>>
    ghost var at: map<Node, ListId>
    // the free descriptor numbers of every task
    var descs: seq<Descriptors>
    ghost var pools: seq<Pool>
    // how many channels there are in memory
    var channels: nat
    // all the objects of the structures
    ghost var Repr: set<object>

    /** Each task is linked into the queue that it names, and all queues are in order. */
    ghost predicate TasksOk()
      reads this`procs, this`links, this`queues, this`qs, queues.Values, links
    {
      |procs| == |links| && AllLinked(queues, links, qs) && Seated(procs, queues, qs)
    }

    ghost predicate AllThere()
      reads this`links, this`queues, this`heads, this`descs, this`channels
    {
      Complete(queues, heads, |links|, |descs|, channels)
    }

    ghost predicate Valid()
      reads this, Repr
    {
      this !in Repr && Parts() && AllThere()
    }

    ghost predicate Parts()
      reads this`procs, this`links, this`queues, this`qs, this`heads, this`nodes, this`lists, this`at, this`descs, this`pools, this`Repr, Repr
    {
      Inside() && TasksOk() && AllChained(heads, nodes, lists, at) && AllPools(descs, pools)
    }

    ghost predicate Inside()
      reads this`queues, this`links, this`heads, this`nodes, this`descs, this`Repr
    {
      && (forall q :: q in queues ==> queues[q] in Repr) && (forall t :: 0 <= t < |links| ==> links[t] in Repr)
      && (forall l :: l in heads ==> heads[l] in Repr) && (forall n :: n in nodes ==> nodes[n] in Repr)
      && (forall t :: 0 <= t < |descs| ==> descs[t] in Repr && descs[t].link in Repr)
    }

    /** Poll lists and task queues have no link in common. */
    lemma Separate()
      requires AllLinked(queues, links, qs) && AllChained(heads, nodes, lists, at)
      ensures forall i :: 0 <= i < |links| ==> links[i] !in heads.Values && links[i] !in nodes.Values
    {
    }

    lemma SeatOf(t: int)
      requires Seated(procs, queues, qs) && 0 <= t < |procs|
      ensures procs[t].queue in queues && t in Queued(qs, procs[t].queue)
    {
    }

    /** `init_tasks` */
    constructor ()
      ensures Valid() && procs == [] && qs == map[] && lists == map[] && at == map[] && pools == [] && channels == 0
      ensures nodes == map[] && fresh(Repr)
    {
      hide Parts, AllThere, AllLinked, IsQueue;
      var initial := InitTasks();
      procs, links, queues, qs := [], [], initial, map[];
      heads, nodes, lists, at := map[], map[], map[], map[];
      descs, pools, channels := [], [], 0;
      Repr := set q | q in initial.Values :: q as object;
      new;
      AtFirstValid();
    }

    lemma AtFirstValid()
      requires procs == [] && links == [] && qs == map[] && heads == map[] && nodes == map[] && lists == map[] && at == map[]
      requires descs == [] && pools == [] && channels == 0 && Repr == set q | q in queues.Values :: q as object
      requires AllLinked(queues, [], map[]) && forall q :: q in queues <==> IsQueue(q, 0)
      ensures Parts() && AllThere()
    {
      hide AllLinked, AllChained, Complete;
      forall q | q in queues ensures queues[q] in Repr { assert queues[q] in queues.Values; }
      NoneChained();
      AtFirst(queues);
    }

    /** `task_move` */
    method MoveTask(t: int, q: QueueId, ghost from: QueueId)
      requires Valid() && 0 <= t < |links| && q in queues && from in queues && t in Queued(qs, from)
      modifies this`qs, Repr
      ensures qs == Requeued(old(qs), t, from, q) && AllLinked(queues, links, qs)
      ensures Inside() && AllChained(heads, nodes, lists, at) && AllPools(descs, pools) && AllThere()
    {
      hide AllLinked, AllChained, AllPools, AllThere, Seated, Requeued;
      Separate();
      Relink(queues, links, qs, t, from, q);
      qs := Requeued(qs, t, from, q);
    }

    /** `set_task_state` */
    method SetTaskState(t: int, status: Status, q: QueueId)
      requires Valid() && 0 <= t < |procs| && q in queues
      modifies this`procs, this`qs, Repr
      ensures Valid()
      ensures var sc := Moved(Sched(old(procs), old(qs), 0, 0, map[]), t, status, q);
              procs == sc.procs && qs == sc.queues
    {
      hide AllLinked, AllChained, AllPools, AllThere, Seated, Requeued, Moved, NoDup, Queued;
      ghost var from := procs[t].queue;
      SeatOf(t);
      QueueFacts(queues, links, qs, from);
      SeatedMoved(procs, queues, qs, t, status, q);
      MoveTask(t, q, from);
      procs := procs[t := procs[t].(status := status, queue := q)];
    }

    /** `taskqueue_empty` */
    predicate IsEmpty(q: QueueId)
      requires Valid() && q in queues
      reads this, Repr
      ensures IsEmpty(q) <==> Queued(qs, q) == []
    {
      QueueFacts(queues, links, qs, q);
      queues[q].IsEmpty()
    }

    /** `taskqueue_peek`, of a queue with a task in it. */
    function Peek(q: QueueId): (t: int)
      requires Valid() && q in queues && Queued(qs, q) != []
      reads this, Repr
      ensures t == Queued(qs, q)[0] && 0 <= t < |procs|
    {
      FirstQueued(queues, links, qs, q);
      queues[q].start.item.t
    }

    /** `taskqueue_advance` */
    method Advance(q: QueueId) returns (t: int)
      requires Valid() && q in queues && Queued(qs, q) != []
      modifies this`qs, Repr
      ensures Valid() && t == old(Queued(qs, q))[0] && qs == old(qs)[q := old(Queued(qs, q))[1..] + [t]]
    {
      hide AllLinked, AllChained, AllPools, AllThere, Seated, Queued;
      ghost var was := qs;
      t := Rotate(queues, links, qs, q);
      qs := qs[q := Queued(qs, q)[1..] + [t]];
      SeatedRotated(procs, queues, was, q);
    }

    /** Other fields of a task. */
    method SetProc(t: int, p: Proc)
      requires Valid() && 0 <= t < |procs| && p.queue == procs[t].queue
      modifies this`procs
      ensures Valid() && procs == old(procs)[t := p]
    {
      hide AllLinked, AllChained, AllPools, AllThere, Queued;
      procs := procs[t := p];
    }

    /** `cdlist_empty` */
    predicate IsListEmpty(l: ListId)
      requires Valid() && l in heads
      reads this, Repr
      ensures IsListEmpty(l) <==> Listed(lists, l) == []
    {
      FirstOf(heads, nodes, lists, at, l);
      Singleton(heads[l])
    }

    /** The descriptor of the first node on a list. */
    function First(l: ListId): (f: Fd)
      requires Valid() && l in heads && Listed(lists, l) != []
      reads this, Repr
      ensures f == Listed(lists, l)[0]
    {
      FirstOf(heads, nodes, lists, at, l);
      heads[l].next.item.node.fd
    }

    /** Whether the node of event ev of descriptor f is on a list. */
    predicate IsListed(f: Fd, ev: Ev)
      requires Valid() && Node(f, ev) in nodes
      reads this, Repr
      ensures IsListed(f, ev) <==> Node(f, ev) in at
    {
      ListedIs(heads, nodes, lists, at, Node(f, ev));
      !Singleton(nodes[Node(f, ev)])
    }

    /** `cdnode_append`; it would panic for a node that is on a list. */
    method Append(f: Fd, l: ListId)
      requires Valid() && l in heads && Node(f, l.ev) in nodes && Node(f, l.ev) !in at
      modifies this`lists, this`at, Repr
      ensures Valid() && lists == old(lists)[l := Listed(old(lists), l) + [f]] && at == old(at)[Node(f, l.ev) := l]
    {
      hide AllLinked, AllChained, AllPools, AllThere, Seated, Listed;
      Separate();
      ChainAppend(heads, nodes, lists, at, f, l);
      lists := lists[l := Listed(lists, l) + [f]];
      at := at[Node(f, l.ev) := l];
    }

    /** `cdnode_delete`; a node that is on no list is left alone. */
    method Delete(f: Fd, ev: Ev)
      requires Valid() && Node(f, ev) in nodes
      modifies this`lists, this`at, Repr
      ensures Valid()
      ensures var po := Unlinked(Polls(old(lists), old(at), []), f, ev); lists == po.lists && at == po.at
    {
      hide AllLinked, AllChained, AllPools, AllThere, Seated, Unlisted;
      Separate();
      UnlinkedIs(lists, at, f, ev);
      ChainDelete(heads, nodes, lists, at, Node(f, ev));
      lists, at := Unlisted(lists, at, Node(f, ev)), at - {Node(f, ev)};
      assert TasksOk() && AllPools(descs, pools);
    }

    /** `cdnode_init` of a node of descriptor f. */
    method InitOne(n: Node)
      requires Valid() && n !in at
      modifies this`nodes, this`Repr, Repr
      ensures Valid() && fresh(Repr - old(Repr)) && nodes.Keys == old(nodes.Keys) + {n}
    {
      hide AllLinked, AllChained, AllPools, AllThere, Seated;
      Separate();
      if n in nodes {
        ResetNode(heads, nodes, lists, at, n);
      } else {
        var node := AddNode(heads, nodes, lists, at, n);
        nodes := nodes[n := node];
        Repr := Repr + {node};
      }
    }

    /** `cdnodes_init` */
    method InitNodes(f: Fd)
      requires Valid() && Node(f, EvRecv) !in at && Node(f, EvSend) !in at
      modifies this`nodes, this`Repr, Repr
      ensures Valid() && fresh(Repr - old(Repr))
      ensures nodes.Keys == old(nodes.Keys) + {Node(f, EvRecv), Node(f, EvSend)}
    {
      hide Parts, AllThere;
      InitOne(Node(f, EvRecv));
      InitOne(Node(f, EvSend));
    }

    /** `cdlist_init` of a list that is there, and empty. */
    method InitList(l: ListId)
      requires Valid() && l in heads && Listed(lists, l) == []
      modifies this`lists, Repr
      ensures Valid() && lists == old(lists)[l := []]
    {
      hide AllLinked, AllChained, AllPools, AllThere, Seated, Listed;
      Separate();
      ResetHead(heads, nodes, lists, at, l);
      Cleared(heads, nodes, lists, at, l);
      lists := lists[l := []];
    }

    // ----- Descriptor numbers -----

    /** `alloc_channel_desc` */
    method AllocDesc(t: int) returns (no: int)
      requires Valid() && 0 <= t < |descs|
      modifies this`pools, Repr
      ensures Valid() && |old(pools)| == |old(descs)|
      ensures var (p, n) := TakeNumber(old(pools)[t]); no == n && pools == old(pools)[t := p]
    {
      hide AllLinked, AllChained, AllPools, AllThere, Seated, TakeNumber;
      no := TakeFrom(descs, pools, t);
      pools := pools[t := TakeNumber(pools[t]).0];
    }

    /** `free_channel_desc`, of a number that is in use. */
    method FreeDesc(t: int, no: int)
      requires Valid() && 0 <= t < |descs| && |pools| == |descs| && 0 <= no < pools[t].next && no !in pools[t].free
      modifies this`pools, Repr
      ensures Valid() && |old(pools)| == |old(descs)|
      ensures pools == old(pools)[t := old(pools)[t].(free := [no] + old(pools)[t].free)]
    {
      hide AllLinked, AllChained, AllPools, AllThere, Seated;
      GiveBack(descs, pools, t, no);
      pools := pools[t := pools[t].(free := [no] + pools[t].free)];
    }

    /** The numbers of a task that starts with n descriptors. */
    method RestartDescs(t: int, n: int)
      requires Valid() && 0 <= t < |descs| && 0 <= n <= MAX_TASK_CHANNELS
      modifies this`pools, Repr
      ensures Valid() && |old(pools)| == |old(descs)| && pools == old(pools)[t := Pool([], n)]
    {
      hide AllLinked, AllChained, AllPools, AllThere, Seated;
      StartOver(descs, pools, t, n);
      pools := pools[t := Pool([], n)];
    }

    // ----- More memory -----

    /** A poll list more. */
    method AddOneHead(l: ListId)
      requires this !in Repr && Parts() && l !in heads
      modifies this`heads, this`Repr
      ensures this !in Repr && Parts() && fresh(Repr - old(Repr))
      ensures forall k :: k in heads <==> k in old(heads) || k == l
    {
      hide AllLinked, AllChained, AllPools, Seated;
      var head := AddHead(heads, nodes, lists, at, l);
      heads := heads[l := head];
      Repr := Repr + {head};
    }

    method AddHeads(l: ListId, l': ListId)
      requires this !in Repr && Parts() && l !in heads && l' !in heads && l != l'
      modifies this`heads, this`Repr
      ensures this !in Repr && Parts() && fresh(Repr - old(Repr)) && TwoMore(old(heads), heads, l, l')
    {
      hide Parts;
      AddOneHead(l);
      AddOneHead(l');
    }

    /** The descriptor numbers of a new task. */
    method AddNumbers()
      requires this !in Repr && Parts()
      modifies this`descs, this`pools, this`Repr
      ensures this !in Repr && Parts()
      ensures pools == old(pools) + [Pool([], 0)] && |descs| == |old(descs)| + 1
      ensures fresh(Repr - old(Repr))
    {
      hide AllLinked, AllChained, AllPools, Seated;
      var desc := new Descriptors();
      MorePools(descs, pools, desc);
      descs := descs + [desc];
      pools := pools + [Pool([], 0)];
      Repr := Repr + {desc, desc.link};
    }

    /** The links of a new task, at the back of the free queue. */
    method AddLinks()
      requires this !in Repr && Parts() && Free in queues
      modifies this`links, this`qs, this`Repr, Repr
      ensures this !in Repr && Inside() && AllChained(heads, nodes, lists, at) && AllPools(descs, pools)
      ensures AllLinked(queues, links, qs) && |links| == |old(links)| + 1
      ensures qs == old(qs)[Free := Queued(old(qs), Free) + [|old(links)|]] && fresh(Repr - old(Repr))
    {
      hide AllLinked, AllChained, AllPools, Seated, Queued;
      Separate();
      var link := AddLink(queues, links, qs, Free);
      qs := qs[Free := Queued(qs, Free) + [|links|]];
      links := links + [link];
      Repr := Repr + {link};
    }

    /** A new task, which goes on the free queue. */
    method AddSeat()
      requires this !in Repr && Parts() && Free in queues
      modifies this`procs, this`links, this`qs, this`Repr, Repr
      ensures this !in Repr && Parts()
      ensures procs == old(procs) + [Proc(0, 0, 0, false, Dead, Free, Nothing)] && |links| == |old(links)| + 1 == |procs|
      ensures qs == old(qs)[Free := Queued(old(qs), Free) + [|old(links)|]]
      ensures fresh(Repr - old(Repr))
    {
      hide Inside, AllLinked, AllChained, AllPools, Seated, Queued;
      SeatedMore(procs, queues, qs, |links|);
      AddLinks();
      procs := procs + [Proc(0, 0, 0, false, Dead, Free, Nothing)];
    }

    lemma SameSize()
      requires TasksOk()
      ensures |links| == |procs|
    {
    }

    /** The memory of a new task. */
    method AddTask()
      requires Valid()
      modifies this`procs, this`links, this`qs, this`heads, this`descs, this`pools, this`Repr, Repr
      ensures Valid() && fresh(Repr - old(Repr))
      ensures procs == old(procs) + [Proc(0, 0, 0, false, Dead, Free, Nothing)] && pools == old(pools) + [Pool([], 0)]
      ensures qs == old(qs)[Free := Queued(old(qs), Free) + [|old(links)|]] && |old(links)| == |old(procs)|
    {
      hide AllLinked, AllChained, AllPools, Complete, Seated, Queued, TasksOk;
      SameSize();
      var n := |links|;
      NoneYet(queues, heads, n, |descs|, channels);
      AddHeads(OnTask(n, EvRecv), OnTask(n, EvSend));
      AddNumbers();
      AddSeat();
      CompleteTask(queues, old(heads), heads, n, channels);
    }

    /** A queue more. */
    method AddOneQueue(q: QueueId)
      requires this !in Repr && Parts() && q !in queues
      modifies this`queues, this`Repr
      ensures this !in Repr && Parts() && fresh(Repr - old(Repr))
      ensures forall k :: k in queues <==> k in old(queues) || k == q
    {
      hide AllLinked, AllChained, AllPools;
      var queue := AddQueue(queues, links, qs, q);
      queues := queues[q := queue];
      Repr := Repr + {queue};
    }

    method AddQueues(q: QueueId, q': QueueId)
      requires this !in Repr && Parts() && q !in queues && q' !in queues && q != q'
      modifies this`queues, this`Repr
      ensures this !in Repr && Parts() && fresh(Repr - old(Repr)) && TwoMore(old(queues), queues, q, q')
    {
      hide Parts;
      AddOneQueue(q);
      AddOneQueue(q');
    }

    /** The queues and lists of channel c. */
    method AddParts(c: int)
      requires this !in Repr && Parts()
      requires Senders(c) !in queues && Receivers(c) !in queues && OnChannel(c, EvRecv) !in heads && OnChannel(c, EvSend) !in heads
      modifies this`queues, this`heads, this`Repr
      ensures this !in Repr && Parts()
      ensures fresh(Repr - old(Repr)) && TwoMore(old(queues), queues, Senders(c), Receivers(c))
      ensures TwoMore(old(heads), heads, OnChannel(c, EvRecv), OnChannel(c, EvSend))
    {
      hide Parts;
      AddQueues(Senders(c), Receivers(c));
      AddHeads(OnChannel(c, EvRecv), OnChannel(c, EvSend));
    }

    /** The memory of a new channel. */
    method AddChannel()
      requires Valid()
      modifies this`queues, this`heads, this`channels, this`Repr
      ensures Valid() && fresh(Repr - old(Repr)) && channels == old(channels) + 1
    {
      hide Parts, Complete, TwoMore;
      NoneYet(queues, heads, |links|, |descs|, channels);
      AddParts(channels);
      CompleteChannel(old(queues), old(heads), queues, heads, |links|, channels);
      channels := channels + 1;
    }

    /** The queues that there are from the start. */
    lemma KernelQueues()
      requires Valid()
      ensures forall p :: 0 <= p < TASK_NPRIO ==> Ready(p) in queues
      ensures forall e :: 0 <= e < NEVENTS ==> Waiting(e) in queues
      ensures Polling in queues && Free in queues
    {
    }

    lemma TaskParts(t: int)
      requires Valid() && 0 <= t < |procs|
      ensures OnTask(t, EvRecv) in heads && OnTask(t, EvSend) in heads && |descs| == |procs| == |pools|
    {
    }

    /** What is on a list has a node. */
    lemma HeadNode(l: ListId)
      requires Valid() && l in heads && Listed(lists, l) != []
      ensures var n := Node(Listed(lists, l)[0], l.ev); n in nodes && n in at && at[n] == l
    {
      assert Listed(lists, l)[0] in Listed(lists, l);
    }

    lemma ChannelParts(c: int)
      requires Valid() && 0 <= c < channels
      ensures Senders(c) in queues && Receivers(c) in queues && OnChannel(c, EvRecv) in heads && OnChannel(c, EvSend) in heads
    {
    }

    /** `taskqueue_init` */
    method ClearQueue(q: QueueId)
      requires Valid() && q in queues && Queued(qs, q) == []
      modifies this`qs, Repr
      ensures Valid() && qs == old(qs)[q := []]
    {
      hide AllLinked, AllChained, AllPools, AllThere, Seated, Queued;
      ResetQueue(queues, links, qs, q);
      ClearedQueue(queues, links, qs, q);
      SeatedCleared(procs, queues, qs, q);
      qs := qs[q := []];
    }

    /** The queues and lists of a channel that is taken into use. */
    method ClearChannel(c: int)
      requires Valid() && 0 <= c < channels && Queued(qs, Senders(c)) == [] && Queued(qs, Receivers(c)) == []
      requires Listed(lists, OnChannel(c, EvRecv)) == [] && Listed(lists, OnChannel(c, EvSend)) == []
      modifies this`qs, this`lists, Repr
      ensures Valid()
      ensures qs == old(qs)[Senders(c) := []][Receivers(c) := []]
      ensures lists == old(lists)[OnChannel(c, EvRecv) := []][OnChannel(c, EvSend) := []]
    {
      hide Parts, AllThere, Queued, Listed;
      ChannelParts(c);
      QueuedUpdate(qs, Senders(c), []);
      ListedUpdate(lists, OnChannel(c, EvRecv), []);
      ClearQueue(Senders(c));
      ClearQueue(Receivers(c));
      InitList(OnChannel(c, EvRecv));
      InitList(OnChannel(c, EvSend));
    }
  }

  lemma UnlinkedIs(lists: map<ListId, seq<Fd>>, at: map<Node, ListId>, f: Fd, ev: Ev)
    ensures var po := Unlinked(Polls(lists, at, []), f, ev); po.lists == Unlisted(lists, at, Node(f, ev)) && po.at == at - {Node(f, ev)}
  {
    if Node(f, ev) !in at { assert at - {Node(f, ev)} == at; }
  }

  lemma SeatedCleared(procs: seq<Proc>, queues: map<QueueId, TaskQueue>, qs: map<QueueId, seq<int>>, q: QueueId)
    requires Seated(procs, queues, qs) && Queued(qs, q) == []
    ensures Seated(procs, queues, qs[q := []])
  {
    QueuedUpdate(qs, q, []);
  }

  lemma SeatedMore(procs: seq<Proc>, queues: map<QueueId, TaskQueue>, qs: map<QueueId, seq<int>>, n: int)
    requires Seated(procs, queues, qs) && n == |procs| && Free in queues
    ensures Seated(procs + [Proc(0, 0, 0, false, Dead, Free, Nothing)], queues, qs[Free := Queued(qs, Free) + [n]])
  {
    QueuedUpdate(qs, Free, Queued(qs, Free) + [n]);
    LastIn(Queued(qs, Free), n);
  }

  lemma MorePools(descs: seq<Descriptors>, pools: seq<Pool>, desc: Descriptors)
    requires AllPools(descs, pools) && desc.Valid() && desc.Now() == Pool([], 0)
    requires forall t :: 0 <= t < |descs| ==> descs[t] != desc && descs[t].link != desc.link
    ensures AllPools(descs + [desc], pools + [Pool([], 0)])
  {
    hide Descriptors.Valid;
  }

  lemma SeatedRotated(procs: seq<Proc>, queues: map<QueueId, TaskQueue>, qs: map<QueueId, seq<int>>, q: QueueId)
    requires Seated(procs, queues, qs) && Queued(qs, q) != []
    ensures Seated(procs, queues, qs[q := Queued(qs, q)[1..] + [Queued(qs, q)[0]]])
  {
    var ts := Queued(qs, q);
    QueuedUpdate(qs, q, ts[1..] + [ts[0]]);
    forall t | t in ts ensures t in ts[1..] + [ts[0]] {
      assert ts == [ts[0]] + ts[1..];
    }
  }
}
