/** All the circular lists of the kernel at once: the task queues, and the poll lists with the nodes
    that are on none.  Every operation on one of them leaves the links of all the others in order. */
module LinkedLists {
  import opened Seqs
  import opened KernelState
  import opened IntrusiveLists

  // ----- Tasks and their queues -----

  /** The tasks on queue q, first one first. */
  function Queued(qs: map<QueueId, seq<int>>, q: QueueId): seq<int> {
    if q in qs then qs[q] else []
  }

  ghost predicate InRange(ts: seq<int>, n: nat) {
    forall k :: 0 <= k < |ts| ==> 0 <= ts[k] < n
  }

  /** The links inside the tasks of ts. */
  ghost function LinksOf(links: seq<Link>, ts: seq<int>): (r: seq<Link>)
    requires InRange(ts, |links|)
    ensures |r| == |ts| && forall k :: 0 <= k < |ts| ==> r[k] == links[ts[k]] && r[k] in links
  {
    seq(|ts|, k requires 0 <= k < |ts| => links[ts[k]])
  }

  ghost predicate Numbered(links: seq<Link>) {
    forall t :: 0 <= t < |links| ==> links[t].item == OfTask(t)
  }

  /** All queues at once: different queues are different objects, and each is a circle of links through
      exactly the tasks that it should have, in order. */
  ghost predicate AllLinked(queues: map<QueueId, TaskQueue>, links: seq<Link>, qs: map<QueueId, seq<int>>)
    reads queues.Values, links
  {
    && Numbered(links) && (forall q :: q in qs ==> q in queues)
    && (forall p, q :: p in queues && q in queues && p != q ==> queues[p] != queues[q])
    && (forall q :: q in queues ==> InRange(Queued(qs, q), |links|) && queues[q].contents == LinksOf(links, Queued(qs, q)) && queues[q].Valid())
  }

  lemma QueueFacts(queues: map<QueueId, TaskQueue>, links: seq<Link>, qs: map<QueueId, seq<int>>, q: QueueId)
    requires AllLinked(queues, links, qs) && q in queues
    ensures var ts := Queued(qs, q);
            && InRange(ts, |links|) && queues[q].contents == LinksOf(links, ts) && queues[q].Valid()
            && NoDup(ts) && forall k :: 0 <= k < |ts| ==> queues[q].contents[k] in links
  {
    var ts, c := Queued(qs, q), queues[q].contents;
    forall i, j | 0 <= i < j < |ts| ensures ts[i] != ts[j] {
      assert c[i] != c[j];
    }
  }

  lemma LinkFacts(queues: map<QueueId, TaskQueue>, links: seq<Link>, qs: map<QueueId, seq<int>>, q: QueueId, t: int)
    requires AllLinked(queues, links, qs) && q in queues && t in Queued(qs, q)
    ensures 0 <= t < |links| && links[t].queue == queues[q] && links[t] in queues[q].contents
    ensures var ts, c := Queued(qs, q), queues[q].contents; |c| == |ts| && forall i :: 0 <= i < |c| && c[i] == links[t] ==> ts[i] == t
  {
    var ts := Queued(qs, q);
    var k :| 0 <= k < |ts| && ts[k] == t;
    assert queues[q].contents[k] == links[t];
  }

  /** Taking a task off a sequence is cutting its link out of the circle. */
  lemma WithoutLink(links: seq<Link>, ts: seq<int>, i: nat)
    requires InRange(ts, |links|) && NoDup(ts) && i < |ts|
    ensures InRange(Without(ts, ts[i]), |links|) && Cut(LinksOf(links, ts), i) == LinksOf(links, Without(ts, ts[i]))
  {
    hide LinksOf, Without, NoDup, Cut, InRange;
    WithoutAt(ts, i);
    CutLinks(links, ts, ts[..i] + ts[i + 1..], i);
  }

  lemma CutLinks(links: seq<Link>, ts: seq<int>, w: seq<int>, i: nat)
    requires InRange(ts, |links|) && i < |ts| && w == ts[..i] + ts[i + 1..]
    ensures InRange(w, |links|) && Cut(LinksOf(links, ts), i) == LinksOf(links, w)
  {
    hide LinksOf, Cut;
    assert forall k :: 0 <= k < |w| ==> w[k] == ts[if k < i then k else k + 1];
    var c, r := LinksOf(links, w), Cut(LinksOf(links, ts), i);
    assert |c| == |r|;
    forall k | 0 <= k < |c| ensures c[k] == r[k] {}
  }

  lemma WithLink(links: seq<Link>, ts: seq<int>, t: int)
    requires InRange(ts, |links|) && 0 <= t < |links|
    ensures InRange(ts + [t], |links|) && LinksOf(links, ts + [t]) == LinksOf(links, ts) + [links[t]]
  {
  }

  /** Task t goes from one queue to the back of another. */
  ghost function Requeued(qs: map<QueueId, seq<int>>, t: int, from: QueueId, q: QueueId): map<QueueId, seq<int>> {
    var r := qs[from := Without(Queued(qs, from), t)];
    r[q := Queued(r, q) + [t]]
  }

  /** The sequences of the two queues and of the others afterwards. */
  lemma RequeuedAt(qs: map<QueueId, seq<int>>, t: int, from: QueueId, q: QueueId)
    ensures var r := Requeued(qs, t, from, q);
            && (forall p :: p != from && p != q ==> Queued(r, p) == Queued(qs, p))
            && (if from == q then Queued(r, q) == Without(Queued(qs, q), t) + [t]
                else Queued(r, from) == Without(Queued(qs, from), t) && Queued(r, q) == Queued(qs, q) + [t])
            && (forall p :: p in r ==> p in qs || p == from || p == q)
  {
  }

  /** `task_move`, of the task with number t. */
  method Relink(queues: map<QueueId, TaskQueue>, links: seq<Link>, ghost qs: map<QueueId, seq<int>>, t: int, ghost from: QueueId, q: QueueId)
    requires AllLinked(queues, links, qs) && q in queues && from in queues && 0 <= t < |links| && t in Queued(qs, from)
    modifies queues.Values, links
    ensures AllLinked(queues, links, Requeued(qs, t, from, q))
  {
    hide LinksOf, TaskQueue.Valid, Without, NoDup, Cut, InRange, Numbered, Queued, Requeued;
    ghost var s, r := Queued(qs, from), Queued(qs, q);
    QueueFacts(queues, links, qs, from);
    QueueFacts(queues, links, qs, q);
    LinkFacts(queues, links, qs, from, t);
    RequeuedAt(qs, t, from, q);
    ghost var i := Move(links[t], queues[q]);
    WithoutLink(links, s, i);
    if from == q { WithLink(links, Without(s, t), t); } else { WithLink(links, r, t); }
  }

  lemma QueuedUpdate(qs: map<QueueId, seq<int>>, q: QueueId, ts: seq<int>)
    ensures forall p :: Queued(qs[q := ts], p) == if p == q then ts else Queued(qs, p)
  {
    forall p ensures Queued(qs[q := ts], p) == if p == q then ts else Queued(qs, p) {}
  }

  lemma LinksRotated(links: seq<Link>, ts: seq<int>)
    requires InRange(ts, |links|) && ts != [] && Numbered(links)
    ensures 0 <= ts[0] < |links| && links[ts[0]].item == OfTask(ts[0])
    ensures InRange(ts[1..] + [ts[0]], |links|)
    ensures LinksOf(links, ts[1..] + [ts[0]]) == LinksOf(links, ts)[1..] + [LinksOf(links, ts)[0]]
  {
  }

  /** `taskqueue_advance` */
  method Rotate(queues: map<QueueId, TaskQueue>, links: seq<Link>, ghost qs: map<QueueId, seq<int>>, q: QueueId) returns (t: int)
    requires AllLinked(queues, links, qs) && q in queues && Queued(qs, q) != []
    modifies queues[q]
    ensures t == Queued(qs, q)[0] && AllLinked(queues, links, qs[q := Queued(qs, q)[1..] + [t]])
  {
    hide LinksOf, TaskQueue.Valid, NoDup, Numbered, InRange, Queued;
    QueueFacts(queues, links, qs, q);
    LinksRotated(links, Queued(qs, q));
    QueuedUpdate(qs, q, Queued(qs, q)[1..] + [Queued(qs, q)[0]]);
    var link := queues[q].Advance();
    t := link.item.t;
  }

  /** One task more. */
  lemma OneLinkMore(links: seq<Link>, link: Link, ts: seq<int>)
    requires InRange(ts, |links|)
    ensures InRange(ts, |links + [link]|) && LinksOf(links + [link], ts) == LinksOf(links, ts)
  {
  }

  lemma NumberedMore(links: seq<Link>, link: Link)
    requires Numbered(links) && link.item == OfTask(|links|)
    ensures Numbered(links + [link])
  {
  }

  /** A new task, at the back of a queue. */
  method AddLink(queues: map<QueueId, TaskQueue>, links: seq<Link>, ghost qs: map<QueueId, seq<int>>, q: QueueId) returns (link: Link)
    requires AllLinked(queues, links, qs) && q in queues
    modifies queues[q], links
    ensures fresh(link) && AllLinked(queues, links + [link], qs[q := Queued(qs, q) + [|links|]])
  {
    hide LinksOf, TaskQueue.Valid, NoDup, InRange, Numbered, Queued;
    link := new Link(OfTask(|links|));
    QueueFacts(queues, links, qs, q);
    LinkJoins(queues, links, link, qs, q);
    queues[q].Enqueue(link);
    ghost var qs' := qs[q := Queued(qs, q) + [|links|]];
    forall p | p in queues ensures queues[p].contents == LinksOf(links + [link], Queued(qs', p)) && queues[p].Valid() {
      if p != q { assert old(allocated(queues[p])) && old(queues[p].Valid()); }
    }
  }

  /** What the queues should hold when a new task has joined queue q. */
  lemma LinkJoins(queues: map<QueueId, TaskQueue>, links: seq<Link>, link: Link, qs: map<QueueId, seq<int>>, q: QueueId)
    requires AllLinked(queues, links, qs) && q in queues && link.item == OfTask(|links|)
    ensures var qs' := qs[q := Queued(qs, q) + [|links|]];
            && Numbered(links + [link])
            && (forall p :: p in queues ==>
                  && InRange(Queued(qs', p), |links + [link]|)
                  && LinksOf(links + [link], Queued(qs', p)) == if p == q then queues[p].contents + [link] else queues[p].contents)
  {
    hide LinksOf, TaskQueue.Valid, NoDup, InRange, Numbered, Queued;
    NumberedMore(links, link);
    QueuedUpdate(qs, q, Queued(qs, q) + [|links|]);
    forall p | p in queues
      ensures InRange(Queued(qs, p), |links + [link]|) && LinksOf(links + [link], Queued(qs, p)) == queues[p].contents
    {
      OneLinkMore(links, link, Queued(qs, p));
    }
    WithLink(links + [link], Queued(qs, q), |links|);
  }

  /** `taskqueue_init`, of a queue that nobody is in. */
  method ResetQueue(queues: map<QueueId, TaskQueue>, links: seq<Link>, ghost qs: map<QueueId, seq<int>>, q: QueueId)
    requires AllLinked(queues, links, qs) && Queued(qs, q) == [] && q in queues
    modifies queues[q]
    ensures AllLinked(queues, links, qs)
  {
    hide TaskQueue.Valid, NoDup, Numbered, Queued, LinksOf, InRange;
    QueueFacts(queues, links, qs, q);
    queues[q].Reset();
  }

  /** A queue more. */
  method AddQueue(queues: map<QueueId, TaskQueue>, links: seq<Link>, ghost qs: map<QueueId, seq<int>>, q: QueueId) returns (queue: TaskQueue)
    requires AllLinked(queues, links, qs) && q !in queues
    ensures fresh(queue) && AllLinked(queues[q := queue], links, qs)
  {
    hide TaskQueue.Valid, NoDup, Numbered;
    queue := new TaskQueue();
  }

  /** A queue that is empty may as well be said to be. */
  lemma ClearedQueue(queues: map<QueueId, TaskQueue>, links: seq<Link>, qs: map<QueueId, seq<int>>, q: QueueId)
    requires AllLinked(queues, links, qs) && Queued(qs, q) == [] && q in queues
    ensures AllLinked(queues, links, qs[q := []]) && forall p :: Queued(qs[q := []], p) == Queued(qs, p)
  {
    hide Queued, TaskQueue.Valid, Numbered, LinksOf, InRange;
    QueuedUpdate(qs, q, []);
  }

  /** The first task on a queue, and whether there is one. */
  lemma FirstQueued(queues: map<QueueId, TaskQueue>, links: seq<Link>, qs: map<QueueId, seq<int>>, q: QueueId)
    requires AllLinked(queues, links, qs) && q in queues
    ensures queues[q].start == null <==> Queued(qs, q) == []
    ensures Queued(qs, q) != [] ==>
              var t := Queued(qs, q)[0]; 0 <= t < |links| && queues[q].start == links[t] && links[t].item == OfTask(t)
  {
  }

  // ----- Poll nodes and their lists -----

  /** The descriptors on list l, first one first. */
  function Listed(lists: map<ListId, seq<Fd>>, l: ListId): seq<Fd> {
    if l in lists then lists[l] else []
  }

  ghost predicate AllNodes(nodes: map<Node, Link>, fs: seq<Fd>, ev: Ev) {
    forall k :: 0 <= k < |fs| ==> Node(fs[k], ev) in nodes
  }

  /** The circle that begins with the head of list l. */
  ghost function Round(heads: map<ListId, Link>, nodes: map<Node, Link>, l: ListId, fs: seq<Fd>): (r: seq<Link>)
    requires l in heads && AllNodes(nodes, fs, l.ev)
    ensures |r| == |fs| + 1 && r[0] == heads[l] && forall k :: 0 <= k < |fs| ==> r[k + 1] == nodes[Node(fs[k], l.ev)]
  {
    [heads[l]] + seq(|fs|, k requires 0 <= k < |fs| => nodes[Node(fs[k], l.ev)])
  }

  /** A node is listed exactly where it is said to be, once. */
  ghost predicate Placed(heads: map<ListId, Link>, nodes: map<Node, Link>, lists: map<ListId, seq<Fd>>, at: map<Node, ListId>) {
    && (forall l :: l in lists ==> l in heads)
    && (forall l, f {:trigger f in Listed(lists, l)} :: f in Listed(lists, l) ==> Node(f, l.ev) in at && at[Node(f, l.ev)] == l)
    && (forall l {:trigger NoDup(Listed(lists, l))} :: NoDup(Listed(lists, l)))
    && (forall n :: n in at ==> n in nodes && at[n] in heads && at[n].ev == n.ev && n.fd in Listed(lists, at[n]))
  }

  ghost predicate Named(heads: map<ListId, Link>, nodes: map<Node, Link>) {
    && (forall l :: l in heads ==> heads[l].item == OfHead(l))
    && (forall n :: n in nodes ==> nodes[n].item == OfNode(n))
  }

  /** All poll lists at once: each is a circle through its head and exactly the nodes that it should
      have, in order, and every other node is on its own. */
  ghost predicate AllChained(heads: map<ListId, Link>, nodes: map<Node, Link>, lists: map<ListId, seq<Fd>>, at: map<Node, ListId>)
    reads heads.Values, nodes.Values
  {
    && Named(heads, nodes) && Placed(heads, nodes, lists, at)
    && (forall l :: l in heads ==> AllNodes(nodes, Listed(lists, l), l.ev) && Circle(Round(heads, nodes, l, Listed(lists, l))))
    && (forall n :: n in nodes && n !in at ==> Circle([nodes[n]]))
  }

  /** What is linked in one list, told apart by what the links are inside of. */
  lemma RoundFacts(heads: map<ListId, Link>, nodes: map<Node, Link>, lists: map<ListId, seq<Fd>>, at: map<Node, ListId>, l: ListId)
    requires AllChained(heads, nodes, lists, at) && l in heads
    ensures AllNodes(nodes, Listed(lists, l), l.ev)
    ensures var c := Round(heads, nodes, l, Listed(lists, l));
            && Circle(c) && Distinct(c) && (forall k :: 0 <= k < |c| ==> c[k] in heads.Values || c[k] in nodes.Values)
            && (forall k :: 0 <= k < |c| ==> c[k].item == OfHead(l) || (c[k].item.OfNode? && c[k].item.node in at && at[c[k].item.node] == l))
  {
    hide Circle, Distinct, NoDup, Round, Named;
    assert NoDup(Listed(lists, l));
    RoundItems(heads, nodes, lists, at, l);
    RoundDistinct(heads, nodes, l, Listed(lists, l));
  }

  lemma RoundItems(heads: map<ListId, Link>, nodes: map<Node, Link>, lists: map<ListId, seq<Fd>>, at: map<Node, ListId>, l: ListId)
    requires Named(heads, nodes) && Placed(heads, nodes, lists, at) && l in heads && AllNodes(nodes, Listed(lists, l), l.ev)
    ensures var c := Round(heads, nodes, l, Listed(lists, l));
            && (forall k :: 0 <= k < |c| ==> c[k] in heads.Values || c[k] in nodes.Values)
            && (forall k :: 0 <= k < |c| ==> c[k].item == OfHead(l) || (c[k].item.OfNode? && c[k].item.node in at && at[c[k].item.node] == l))
  {
    var fs := Listed(lists, l);
    var c := Round(heads, nodes, l, fs);
    hide Round, NoDup;
    forall k | 0 <= k < |c|
      ensures c[k] in heads.Values || c[k] in nodes.Values
      ensures c[k].item == OfHead(l) || (c[k].item.OfNode? && c[k].item.node in at && at[c[k].item.node] == l)
    {
      if k > 0 { assert c[(k - 1) + 1] == nodes[Node(fs[k - 1], l.ev)] && fs[k - 1] in fs; }
    }
  }

  lemma RoundDistinct(heads: map<ListId, Link>, nodes: map<Node, Link>, l: ListId, fs: seq<Fd>)
    requires Named(heads, nodes) && l in heads && AllNodes(nodes, fs, l.ev) && NoDup(fs)
    ensures Distinct(Round(heads, nodes, l, fs))
  {
    var c := Round(heads, nodes, l, fs);
    forall k | 0 <= k < |fs| ensures c[k + 1].item == OfNode(Node(fs[k], l.ev)) {}
    forall i, j | 0 <= i < j < |c| ensures c[i] != c[j] {
      assert c[j].item == OfNode(Node(fs[j - 1], l.ev)) by { assert c[(j - 1) + 1].item == OfNode(Node(fs[j - 1], l.ev)); }
      if i > 0 { assert c[(i - 1) + 1].item == OfNode(Node(fs[i - 1], l.ev)) && fs[i - 1] != fs[j - 1]; }
    }
  }

  ghost predicate Apart(s: seq<Link>, t: seq<Link>) {
    forall i, j :: 0 <= i < |s| && 0 <= j < |t| ==> s[i] != t[j]
  }

  /** Different lists have no link in common, and nodes that are not listed are in none. */
  lemma RoundsApart(heads: map<ListId, Link>, nodes: map<Node, Link>, lists: map<ListId, seq<Fd>>, at: map<Node, ListId>, l: ListId)
    requires AllChained(heads, nodes, lists, at) && l in heads
    ensures AllNodes(nodes, Listed(lists, l), l.ev)
    ensures forall p :: p in heads && p != l ==>
              AllNodes(nodes, Listed(lists, p), p.ev) && Apart(Round(heads, nodes, p, Listed(lists, p)), Round(heads, nodes, l, Listed(lists, l)))
    ensures forall n :: n in nodes && n !in at ==> Apart([nodes[n]], Round(heads, nodes, l, Listed(lists, l)))
  {
    hide Circle, Distinct, Round, Placed;
    RoundFacts(heads, nodes, lists, at, l);
    forall p | p in heads && p != l
      ensures AllNodes(nodes, Listed(lists, p), p.ev) && Apart(Round(heads, nodes, p, Listed(lists, p)), Round(heads, nodes, l, Listed(lists, l)))
    {
      RoundFacts(heads, nodes, lists, at, p);
    }
    var c := Round(heads, nodes, l, Listed(lists, l));
    forall n | n in nodes && n !in at ensures Apart([nodes[n]], c) {
      assert nodes[n].item == OfNode(n);
    }
  }

  lemma ListedUpdate(lists: map<ListId, seq<Fd>>, l: ListId, fs: seq<Fd>)
    ensures forall p :: Listed(lists[l := fs], p) == if p == l then fs else Listed(lists, p)
  {
    forall p ensures Listed(lists[l := fs], p) == if p == l then fs else Listed(lists, p) {}
  }

  lemma RoundMore(heads: map<ListId, Link>, nodes: map<Node, Link>, l: ListId, fs: seq<Fd>, f: Fd)
    requires l in heads && AllNodes(nodes, fs, l.ev) && Node(f, l.ev) in nodes
    ensures AllNodes(nodes, fs + [f], l.ev) && Round(heads, nodes, l, fs + [f]) == Round(heads, nodes, l, fs) + [nodes[Node(f, l.ev)]]
  {
    assert forall k :: 0 <= k < |fs| + 1 ==> (fs + [f])[k] == if k < |fs| then fs[k] else f;
    var c, r := Round(heads, nodes, l, fs + [f]), Round(heads, nodes, l, fs);
    assert c == r + [nodes[Node(f, l.ev)]];
  }

  lemma PlacedMore(heads: map<ListId, Link>, nodes: map<Node, Link>, lists: map<ListId, seq<Fd>>, at: map<Node, ListId>, f: Fd, l: ListId)
    requires Placed(heads, nodes, lists, at) && l in heads && Node(f, l.ev) in nodes && Node(f, l.ev) !in at
    ensures Placed(heads, nodes, lists[l := Listed(lists, l) + [f]], at[Node(f, l.ev) := l])
  {
    var fs := Listed(lists, l);
    var lists', at' := lists[l := fs + [f]], at[Node(f, l.ev) := l];
    ListedUpdate(lists, l, fs + [f]);
    assert NoDup(fs) && f !in fs;
    forall p, g {:trigger g in Listed(lists', p)} | g in Listed(lists', p) ensures Node(g, p.ev) in at' && at'[Node(g, p.ev)] == p {
      if p != l || g != f { assert g in Listed(lists, p); }
    }
    forall p ensures NoDup(Listed(lists', p)) { assert NoDup(Listed(lists, p)); }
    forall n | n in at' ensures n in nodes && at'[n] in heads && at'[n].ev == n.ev && n.fd in Listed(lists', at'[n]) {
      if n == Node(f, l.ev) { assert (fs + [f])[|fs|] == f; }
    }
  }

  /** A node that is not listed is linked to nothing else. */
  lemma Alone(heads: map<ListId, Link>, nodes: map<Node, Link>, lists: map<ListId, seq<Fd>>, at: map<Node, ListId>, n: Node)
    requires AllChained(heads, nodes, lists, at) && n in nodes && n !in at
    ensures Circle([nodes[n]]) && Distinct([nodes[n]]) && Cut([nodes[n]], 0) == []
    ensures forall m :: m in nodes && m != n ==> Apart([nodes[m]], [nodes[n]])
    ensures forall l :: l in heads ==>
              AllNodes(nodes, Listed(lists, l), l.ev) && Apart(Round(heads, nodes, l, Listed(lists, l)), [nodes[n]])
  {
    hide Circle, Round, Placed;
    forall m | m in nodes && m != n ensures Apart([nodes[m]], [nodes[n]]) {
      assert nodes[m].item == OfNode(m) && nodes[n].item == OfNode(n);
    }
    forall l | l in heads ensures AllNodes(nodes, Listed(lists, l), l.ev) && Apart([nodes[n]], Round(heads, nodes, l, Listed(lists, l))) {
      RoundsApart(heads, nodes, lists, at, l);
    }
  }

  /** `cdnode_append` */
  method ChainAppend(heads: map<ListId, Link>, nodes: map<Node, Link>, ghost lists: map<ListId, seq<Fd>>, ghost at: map<Node, ListId>, f: Fd, l: ListId)
    requires AllChained(heads, nodes, lists, at) && l in heads && Node(f, l.ev) in nodes && Node(f, l.ev) !in at
    modifies heads.Values, nodes.Values
    ensures AllChained(heads, nodes, lists[l := Listed(lists, l) + [f]], at[Node(f, l.ev) := l])
  {
    hide Circle, Distinct, Round, Placed, Listed, AllNodes;
    var node := nodes[Node(f, l.ev)];
    ghost var fs := Listed(lists, l);
    RoundFacts(heads, nodes, lists, at, l);
    RoundsApart(heads, nodes, lists, at, l);
    Alone(heads, nodes, lists, at, Node(f, l.ev));
    ListedUpdate(lists, l, fs + [f]);
    RoundMore(heads, nodes, l, fs, f);
    PlacedMore(heads, nodes, lists, at, f, l);
    NodeAppend(heads[l], node, Round(heads, nodes, l, fs));
    ghost var lists', at' := lists[l := fs + [f]], at[Node(f, l.ev) := l];
    forall p | p in heads ensures AllNodes(nodes, Listed(lists', p), p.ev) && Circle(Round(heads, nodes, p, Listed(lists', p))) {
      if p == l {
        assert Circle(Round(heads, nodes, l, fs) + [node]);
        assert Listed(lists', l) == fs + [f];
      } else {
        assert Listed(lists', p) == Listed(lists, p);
        assert old(Circle(Round(heads, nodes, p, Listed(lists, p))));
        assert Apart(Round(heads, nodes, p, Listed(lists, p)), Round(heads, nodes, l, fs));
        assert Apart([node], Round(heads, nodes, p, Listed(lists, p)));
        assert Circle(Round(heads, nodes, p, Listed(lists, p)));
      }
    }
    forall n | n in nodes && n !in at' ensures Circle([nodes[n]]) {}
  }

  lemma PlacedLess(heads: map<ListId, Link>, nodes: map<Node, Link>, lists: map<ListId, seq<Fd>>, at: map<Node, ListId>, n: Node)
    requires Placed(heads, nodes, lists, at) && n in at
    ensures Placed(heads, nodes, lists[at[n] := Without(Listed(lists, at[n]), n.fd)], at - {n})
  {
    var l := at[n];
    var fs := Listed(lists, l);
    assert NoDup(fs);
    var w := Without(fs, n.fd);
    var lists', at' := lists[l := w], at - {n};
    ListedUpdate(lists, l, w);
    forall p, g {:trigger g in Listed(lists', p)} | g in Listed(lists', p) ensures Node(g, p.ev) in at' && at'[Node(g, p.ev)] == p {
      assert g in Listed(lists, p);
    }
    forall p ensures NoDup(Listed(lists', p)) { assert NoDup(Listed(lists, p)); }
    forall m | m in at' ensures m in nodes && at'[m] in heads && at'[m].ev == m.ev && m.fd in Listed(lists', at'[m]) {
      assert m.fd in Listed(lists, at[m]);
      assert at[m] == l ==> m.fd != n.fd;
    }
  }

  lemma RoundLess(heads: map<ListId, Link>, nodes: map<Node, Link>, l: ListId, fs: seq<Fd>, i: nat)
    requires l in heads && AllNodes(nodes, fs, l.ev) && NoDup(fs) && i < |fs|
    ensures AllNodes(nodes, Without(fs, fs[i]), l.ev)
    ensures Round(heads, nodes, l, Without(fs, fs[i])) == Cut(Round(heads, nodes, l, fs), i + 1)
  {
    hide Cut, NoDup, Without, Round;
    WithoutAt(fs, i);
    RoundCut(heads, nodes, l, fs, fs[..i] + fs[i + 1..], i);
  }

  lemma RoundCut(heads: map<ListId, Link>, nodes: map<Node, Link>, l: ListId, fs: seq<Fd>, w: seq<Fd>, i: nat)
    requires l in heads && AllNodes(nodes, fs, l.ev) && i < |fs| && w == fs[..i] + fs[i + 1..]
    ensures AllNodes(nodes, w, l.ev) && Round(heads, nodes, l, w) == Cut(Round(heads, nodes, l, fs), i + 1)
  {
    hide Round, Cut;
    assert forall k :: 0 <= k < |w| ==> w[k] == fs[if k < i then k else k + 1];
    var c, r := Round(heads, nodes, l, w), Cut(Round(heads, nodes, l, fs), i + 1);
    assert |c| == |r|;
    forall k | 0 <= k < |c| ensures c[k] == r[k] {
      if k > 0 { assert c[k - 1 + 1] == nodes[Node(w[k - 1], l.ev)]; }
    }
  }

  /** Where a listed node is in its circle. */
  lemma ListedAt(heads: map<ListId, Link>, nodes: map<Node, Link>, lists: map<ListId, seq<Fd>>, at: map<Node, ListId>, n: Node) returns (i: nat)
    requires AllChained(heads, nodes, lists, at) && n in at
    ensures at[n] in heads && n in nodes && AllNodes(nodes, Listed(lists, at[n]), at[n].ev) && NoDup(Listed(lists, at[n]))
    ensures i < |Listed(lists, at[n])| && Listed(lists, at[n])[i] == n.fd
    ensures Round(heads, nodes, at[n], Listed(lists, at[n]))[i + 1] == nodes[n]
  {
    var fs := Listed(lists, at[n]);
    assert n.fd in fs;
    i :| 0 <= i < |fs| && fs[i] == n.fd;
    assert Node(fs[i], at[n].ev) == n;
  }

  /** The lists without node n. */
  ghost function Unlisted(lists: map<ListId, seq<Fd>>, at: map<Node, ListId>, n: Node): map<ListId, seq<Fd>> {
    if n in at then lists[at[n] := Without(Listed(lists, at[n]), n.fd)] else lists
  }

  /** The circle that node n is in, its place there, and what is to become of all lists. */
  lemma DeletePlan(heads: map<ListId, Link>, nodes: map<Node, Link>, lists: map<ListId, seq<Fd>>, at: map<Node, ListId>, n: Node)
    returns (circle: seq<Link>, i: nat)
    requires AllChained(heads, nodes, lists, at) && n in nodes
    ensures i < |circle| && circle[i] == nodes[n] && Circle(circle) && Distinct(circle)
    ensures forall k :: 0 <= k < |circle| ==> circle[k] in heads.Values || circle[k] in nodes.Values
    ensures var lists' := Unlisted(lists, at, n);
            && Placed(heads, nodes, lists', at - {n})
            && forall p :: p in heads ==>
                 && AllNodes(nodes, Listed(lists', p), p.ev)
                 && if n in at && p == at[n] then Round(heads, nodes, p, Listed(lists', p)) == Cut(circle, i)
                    else Circle(Round(heads, nodes, p, Listed(lists', p))) && Apart(Round(heads, nodes, p, Listed(lists', p)), circle)
    ensures forall m :: m in nodes && m !in at && m != n ==> Circle([nodes[m]]) && Apart([nodes[m]], circle)
  {
    hide Circle, Distinct, Round, Placed, Listed, AllNodes, Without, NoDup, Cut;
    if n in at {
      var l := at[n];
      var k := ListedAt(heads, nodes, lists, at, n);
      RoundFacts(heads, nodes, lists, at, l);
      RoundsApart(heads, nodes, lists, at, l);
      ListedUpdate(lists, l, Without(Listed(lists, l), n.fd));
      RoundLess(heads, nodes, l, Listed(lists, l), k);
      PlacedLess(heads, nodes, lists, at, n);
      circle, i := Round(heads, nodes, l, Listed(lists, l)), k + 1;
    } else {
      circle, i := [nodes[n]], 0;
      Alone(heads, nodes, lists, at, n);
      assert at - {n} == at;
    }
  }

  /** `cdnode_delete`; a node that is not listed is left alone. */
  method ChainDelete(heads: map<ListId, Link>, nodes: map<Node, Link>, ghost lists: map<ListId, seq<Fd>>, ghost at: map<Node, ListId>, n: Node)
    requires AllChained(heads, nodes, lists, at) && n in nodes
    modifies heads.Values, nodes.Values
    ensures AllChained(heads, nodes, Unlisted(lists, at, n), at - {n})
  {
    hide Circle, Distinct, Round, Placed, Listed, AllNodes, Cut, Unlisted;
    ghost var circle, i := DeletePlan(heads, nodes, lists, at, n);
    NodeDelete(nodes[n], circle, i);
    ghost var lists', at' := Unlisted(lists, at, n), at - {n};
    forall p | p in heads ensures AllNodes(nodes, Listed(lists', p), p.ev) && Circle(Round(heads, nodes, p, Listed(lists', p))) {
      if n !in at || p != at[n] {
        assert old(Circle(Round(heads, nodes, p, Listed(lists', p))));
        assert Apart(Round(heads, nodes, p, Listed(lists', p)), circle);
      }
    }
    forall m | m in nodes && m !in at' ensures Circle([nodes[m]]) {
      if m != n {
        assert old(Circle([nodes[m]]));
        assert Apart([nodes[m]], circle);
      }
    }
  }

  lemma PlacedMoreHeads(heads: map<ListId, Link>, nodes: map<Node, Link>, lists: map<ListId, seq<Fd>>, at: map<Node, ListId>, heads': map<ListId, Link>)
    requires Placed(heads, nodes, lists, at) && heads.Keys <= heads'.Keys
    ensures Placed(heads', nodes, lists, at)
  {
  }

  lemma PlacedMoreNodes(heads: map<ListId, Link>, nodes: map<Node, Link>, lists: map<ListId, seq<Fd>>, at: map<Node, ListId>, nodes': map<Node, Link>)
    requires Placed(heads, nodes, lists, at) && nodes.Keys <= nodes'.Keys
    ensures Placed(heads, nodes', lists, at)
  {
  }

  lemma RoundSame(heads: map<ListId, Link>, nodes: map<Node, Link>, heads': map<ListId, Link>, nodes': map<Node, Link>, l: ListId, fs: seq<Fd>)
    requires l in heads && l in heads' && heads[l] == heads'[l] && AllNodes(nodes, fs, l.ev)
    requires forall n :: n in nodes ==> n in nodes' && nodes'[n] == nodes[n]
    ensures AllNodes(nodes', fs, l.ev) && Round(heads', nodes', l, fs) == Round(heads, nodes, l, fs)
  {
  }

  lemma EmptyRound(heads: map<ListId, Link>, nodes: map<Node, Link>, l: ListId)
    requires l in heads
    ensures AllNodes(nodes, [], l.ev) && Round(heads, nodes, l, []) == [heads[l]]
  {
  }

  /** `cdnode_init` of the head of a list that nothing is on. */
  method ResetHead(heads: map<ListId, Link>, nodes: map<Node, Link>, ghost lists: map<ListId, seq<Fd>>, ghost at: map<Node, ListId>, l: ListId)
    requires AllChained(heads, nodes, lists, at) && Listed(lists, l) == [] && l in heads
    modifies heads[l]
    ensures AllChained(heads, nodes, lists, at)
  {
    hide Circle, Distinct, Round, Placed, Listed, AllNodes;
    RoundsApart(heads, nodes, lists, at, l);
    EmptyRound(heads, nodes, l);
    NodeInit(heads[l]);
    forall p | p in heads ensures AllNodes(nodes, Listed(lists, p), p.ev) && Circle(Round(heads, nodes, p, Listed(lists, p))) {
      if p != l {
        assert old(Circle(Round(heads, nodes, p, Listed(lists, p))));
        assert Apart(Round(heads, nodes, p, Listed(lists, p)), [heads[l]]);
      }
    }
    forall n | n in nodes && n !in at ensures Circle([nodes[n]]) {
      assert Apart([nodes[n]], [heads[l]]);
    }
  }

  /** The head of a new list. */
  method AddHead(heads: map<ListId, Link>, nodes: map<Node, Link>, ghost lists: map<ListId, seq<Fd>>, ghost at: map<Node, ListId>, l: ListId)
    returns (head: Link)
    requires AllChained(heads, nodes, lists, at) && l !in heads
    ensures fresh(head) && AllChained(heads[l := head], nodes, lists, at)
  {
    hide Circle, Distinct, Round, AllNodes;
    head := new Link(OfHead(l));
    NodeInit(head);
    ghost var heads' := heads[l := head];
    EmptyRound(heads', nodes, l);
    PlacedMoreHeads(heads, nodes, lists, at, heads');
    forall p | p in heads' ensures AllNodes(nodes, Listed(lists, p), p.ev) && Circle(Round(heads', nodes, p, Listed(lists, p))) {
      if p != l {
        assert old(Circle(Round(heads, nodes, p, Listed(lists, p))));
        assert Circle(Round(heads, nodes, p, Listed(lists, p)));
        RoundSame(heads, nodes, heads', nodes, p, Listed(lists, p));
      }
    }
  }

  /** A list that is empty may as well be said to be. */
  lemma Cleared(heads: map<ListId, Link>, nodes: map<Node, Link>, lists: map<ListId, seq<Fd>>, at: map<Node, ListId>, l: ListId)
    requires AllChained(heads, nodes, lists, at) && Listed(lists, l) == [] && l in heads
    ensures AllChained(heads, nodes, lists[l := []], at) && forall p :: Listed(lists[l := []], p) == Listed(lists, p)
  {
    hide Circle, Round, Listed, AllNodes, NoDup;
    ListedUpdate(lists, l, []);
    var lists' := lists[l := []];
    forall p ensures NoDup(Listed(lists', p)) { assert NoDup(Listed(lists, p)); }
    forall p, f {:trigger f in Listed(lists', p)} | f in Listed(lists', p) ensures Node(f, p.ev) in at && at[Node(f, p.ev)] == p {
      assert f in Listed(lists, p);
    }
  }

  /** The first descriptor on a list, and whether there is one. */
  lemma FirstOf(heads: map<ListId, Link>, nodes: map<Node, Link>, lists: map<ListId, seq<Fd>>, at: map<Node, ListId>, l: ListId)
    requires AllChained(heads, nodes, lists, at) && l in heads
    ensures Singleton(heads[l]) <==> Listed(lists, l) == []
    ensures Listed(lists, l) != [] ==> heads[l].next != null && heads[l].next.item == OfNode(Node(Listed(lists, l)[0], l.ev))
  {
    RoundFacts(heads, nodes, lists, at, l);
    var fs := Listed(lists, l);
    var c := Round(heads, nodes, l, fs);
    SingletonIs(heads[l], c, 0);
    if fs != [] {
      assert c[0].next == c[0 + 1] == nodes[Node(fs[0], l.ev)];
      assert Node(fs[0], l.ev) in nodes;
    }
  }

  /** Whether a node is on a list. */
  lemma ListedIs(heads: map<ListId, Link>, nodes: map<Node, Link>, lists: map<ListId, seq<Fd>>, at: map<Node, ListId>, n: Node)
    requires AllChained(heads, nodes, lists, at) && n in nodes
    ensures Singleton(nodes[n]) <==> n !in at
  {
    if n in at {
      var i := ListedAt(heads, nodes, lists, at, n);
      RoundFacts(heads, nodes, lists, at, at[n]);
      SingletonIs(nodes[n], Round(heads, nodes, at[n], Listed(lists, at[n])), i + 1);
    } else {
      SingletonIs(nodes[n], [nodes[n]], 0);
    }
  }

  /** `cdnode_init` of a node that is on no list. */
  method ResetNode(heads: map<ListId, Link>, nodes: map<Node, Link>, ghost lists: map<ListId, seq<Fd>>, ghost at: map<Node, ListId>, n: Node)
    requires AllChained(heads, nodes, lists, at) && n !in at && n in nodes
    modifies nodes[n]
    ensures AllChained(heads, nodes, lists, at)
  {
    hide Circle, Distinct, Round, Placed, Listed, AllNodes;
    Alone(heads, nodes, lists, at, n);
    NodeInit(nodes[n]);
    forall p | p in heads ensures AllNodes(nodes, Listed(lists, p), p.ev) && Circle(Round(heads, nodes, p, Listed(lists, p))) {
      assert old(Circle(Round(heads, nodes, p, Listed(lists, p))));
      assert Apart(Round(heads, nodes, p, Listed(lists, p)), [nodes[n]]);
    }
    forall m | m in nodes && m !in at ensures Circle([nodes[m]]) {
      if m != n { assert Apart([nodes[m]], [nodes[n]]); }
    }
  }

  /** The poll node of a descriptor that never had one. */
  method AddNode(heads: map<ListId, Link>, nodes: map<Node, Link>, ghost lists: map<ListId, seq<Fd>>, ghost at: map<Node, ListId>, n: Node)
    returns (node: Link)
    requires AllChained(heads, nodes, lists, at) && n !in at && n !in nodes
    ensures fresh(node) && AllChained(heads, nodes[n := node], lists, at)
  {
    hide Circle, Distinct, Round, Placed, Listed, AllNodes;
    node := new Link(OfNode(n));
    NodeInit(node);
    ghost var nodes' := nodes[n := node];
    PlacedMoreNodes(heads, nodes, lists, at, nodes');
    forall p | p in heads ensures AllNodes(nodes', Listed(lists, p), p.ev) && Circle(Round(heads, nodes', p, Listed(lists, p))) {
      assert old(Circle(Round(heads, nodes, p, Listed(lists, p))));
      assert Circle(Round(heads, nodes, p, Listed(lists, p)));
      RoundSame(heads, nodes, heads, nodes', p, Listed(lists, p));
    }
  }
}
