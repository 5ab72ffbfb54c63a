/** The circular doubly linked lists of the kernel.  The links run through the things that are listed:
    tasks, in the queues that point at their first task, and the nodes of channel descriptors, in the
    poll lists that begin with a head of their own. */
module IntrusiveLists {
  import opened KernelState

  /** What links are inside of: a task, a poll node of a descriptor, or the head of a poll list. */
  datatype Item = OfTask(t: int) | OfNode(node: Node) | OfHead(list: ListId)

  /** The links inside a task, a node or a head; only a task remembers the queue that it is in. */
  class Link {
    const item: Item
    var next: Link?
    var prev: Link?
    var queue: TaskQueue?

    constructor (item: Item)
      ensures this.item == item && queue == null
    {
      this.item := item;
      next, prev, queue := null, null, null;
    }
  }

  /** The links go around s both ways. */
  ghost predicate Circle(s: seq<Link>)
    reads s
  {
    && (forall k :: 0 <= k < |s| - 1 ==> s[k].next == s[k + 1] && s[k + 1].prev == s[k])
    && (s != [] ==> s[|s| - 1].next == s[0] && s[0].prev == s[|s| - 1])
  }

  /** A circle may be read from any place. */
  lemma Rotated(a: seq<Link>, b: seq<Link>)
    requires Circle(a + b)
    ensures Circle(b + a)
  {
    var s, t := a + b, b + a;
    if a == [] || b == [] {
      assert s == t;
    } else {
      assert s[|a| - 1].next == s[|a|] && s[|a|].prev == s[|a| - 1];
      forall k | 0 <= k < |t| - 1 ensures t[k].next == t[k + 1] && t[k + 1].prev == t[k] {
        if k < |b| - 1 {
          assert t[k] == s[|a| + k] && t[k + 1] == s[|a| + k + 1];
        } else if k >= |b| {
          assert t[k] == s[k - |b|] && t[k + 1] == s[k - |b| + 1];
        }
      }
    }
  }

  /** Every one of these tasks remembers that it is in the queue. */
  ghost predicate Belong(s: seq<Link>, queue: TaskQueue?)
    reads s
  {
    forall i :: 0 <= i < |s| ==> s[i].queue == queue
  }

  ghost predicate Distinct(s: seq<Link>) {
    forall i, j :: 0 <= i < j < |s| ==> s[i] != s[j]
  }

  /** s without its i-th element. */
  function Cut(s: seq<Link>, i: nat): (r: seq<Link>)
    requires i < |s|
    ensures |r| == |s| - 1 && forall k :: 0 <= k < |r| ==> r[k] == s[if k < i then k else k + 1]
  {
    s[..i] + s[i + 1..]
  }

  class TaskQueue {
    var start: Link?
    /** The tasks in the queue, first one first. */
    ghost var contents: seq<Link>

    ghost predicate Valid()
      reads this, contents
    {
      && Distinct(contents) && Circle(contents) && start == (if contents == [] then null else contents[0])
      && Belong(contents, this)
    }

    /** `taskqueue_init` */
    constructor ()
      ensures Valid() && contents == []
    {
      start := null;
      contents := [];
    }

    /** `taskqueue_init` again, of a queue that nobody is in. */
    method Reset()
      requires Valid() && contents == []
      modifies this
      ensures Valid() && contents == []
    {
      start := null;
    }

    /** `taskqueue_empty` */
    predicate IsEmpty()
      requires Valid()
      reads this, contents
      ensures IsEmpty() <==> contents == []
    {
      start == null
    }

    /** `taskqueue_advance`: the first task goes to the back. */
    method Advance() returns (task: Link)
      requires Valid() && contents != []
      modifies this
      ensures Valid() && task == old(contents[0]) && contents == old(contents[1..] + [contents[0]])
    {
      assert contents == contents[..1] + contents[1..];
      Rotated(contents[..1], contents[1..]);
      assert contents[1..] + contents[..1] == contents[1..] + [contents[0]];
      task := start;
      start := start.next;
      contents := contents[1..] + [contents[0]];
    }

    /** `taskqueue_enqueue`, of a task that is in no queue; it leaves every other queue as it is. */
    method Enqueue(task: Link)
      requires Valid() && task.queue == null
      modifies this, task, contents
      ensures Valid() && contents == old(contents) + [task]
      ensures forall p: TaskQueue :: old(allocated(p)) && old(p.Valid()) && p != this ==>
                p.Valid() && p.contents == old(p.contents)
    {
      forall p: TaskQueue | allocated(p) && p.Valid() && p != this
        ensures forall i, j :: 0 <= i < |p.contents| && 0 <= j < |contents| ==> p.contents[i] != contents[j]
        ensures forall i :: 0 <= i < |p.contents| ==> p.contents[i] != task
      {
        QueuesApart(p, this);
      }
      LinkIn(task);
    }

    /** The links that `taskqueue_enqueue` writes. */
    method LinkIn(task: Link)
      requires Valid() && task.queue == null
      modifies this, task, contents
      ensures Valid() && contents == old(contents) + [task]
    {
      if start == null {
        start := task;
        task.next := task;
        task.prev := task;
      } else {
        var next := start;
        var prev := next.prev;
        task.next := next;
        task.prev := prev;
        prev.next := task;
        next.prev := task;
      }
      task.queue := this;
      contents := contents + [task];
    }
  }

  /** The circle of s read from its i-th element on. */
  function Around(s: seq<Link>, i: nat): (r: seq<Link>)
    requires i < |s|
    ensures |r| == |s| && r[0] == s[i]
  {
    s[i..] + s[..i]
  }

  lemma ReadAround(s: seq<Link>, i: nat)
    requires i < |s| && Circle(s) && Distinct(s)
    ensures Circle(Around(s, i)) && Distinct(Around(s, i)) && forall k :: 0 <= k < |s| ==> Around(s, i)[k] in s
    ensures forall q :: Belong(s, q) ==> Belong(Around(s, i), q)
  {
    assert s == s[..i] + s[i..];
    Rotated(s[..i], s[i..]);
  }

  lemma CutCircle(s: seq<Link>, i: nat)
    requires i < |s| && Circle(Around(s, i)[1..])
    ensures Circle(Cut(s, i))
  {
    assert Around(s, i)[1..] == s[i + 1..] + s[..i];
    Rotated(s[i + 1..], s[..i]);
  }

  lemma CutBelong(s: seq<Link>, i: nat, queue: TaskQueue?)
    requires i < |s| && Belong(Around(s, i), queue)
    ensures Belong(Cut(s, i), queue)
  {
    forall k | 0 <= k < |s| - 1 ensures Cut(s, i)[k].queue == queue {
      assert Cut(s, i)[k] == if k < i then Around(s, i)[|s| - i + k] else Around(s, i)[k + 1 - i];
    }
  }

  lemma CutFacts(s: seq<Link>, i: nat)
    requires i < |s| && Distinct(s)
    ensures Distinct(Cut(s, i)) && s[i] !in Cut(s, i)
    ensures s[0] == s[i] <==> i == 0
    ensures |s| > 1 ==> Cut(s, i)[0] == if i == 0 then Around(s, i)[1] else s[0]
  {
  }

  /** The first of a circle leaves the others linked. */
  method Unlink(task: Link, ghost around: seq<Link>, ghost queue: TaskQueue?)
    requires around != [] && around[0] == task && Circle(around) && Distinct(around)
    modifies around
    ensures Circle(around[1..]) && (old(Belong(around, queue)) ==> Belong(around, queue))
    ensures task.next == old(task.next) == if |around| == 1 then task else around[1]
  {
    assert around[|around| - 1] in around && (|around| > 1 ==> around[0].next == around[1] && around[1] in around);
    task.next.prev := task.prev;
    task.prev.next := task.next;
  }

  /** The last steps of taking a task out, when its neighbours no longer point to it. */
  method Forget(task: Link, ghost was: seq<Link>, ghost i: nat)
    requires task.queue != null && i < |was| && task !in Cut(was, i)
    requires Circle(Cut(was, i)) && Distinct(Cut(was, i)) && Belong(Cut(was, i), task.queue)
    requires task.next == task <==> |was| == 1
    requires |was| > 1 ==> task.queue.start == Cut(was, i)[0]
    modifies task`queue, task.queue
    ensures task.queue == null && old(task.queue).Valid() && old(task.queue).contents == Cut(was, i)
  {
    hide Circle, Distinct;
    var queue := task.queue;
    if task.next == task { task.queue.start := null; }
    task.queue := null;
    queue.contents := Cut(was, i);
  }

  /** `taskqueue_dequeue`, which goes by the queue that the task itself remembers; i is its place. */
  method Dequeue(task: Link) returns (ghost i: nat)
    requires task.queue != null && task.queue.Valid() && task in task.queue.contents
    modifies task.queue, task.queue.contents
    ensures task.queue == null && i < |old(task.queue.contents)| && old(task.queue.contents)[i] == task
    ensures old(task.queue).Valid() && old(task.queue).contents == Cut(old(task.queue.contents), i)
  {
    hide Circle, Distinct, Around, Cut, Belong;
    ghost var was := task.queue.contents;
    i :| 0 <= i < |was| && was[i] == task;
    ReadAround(was, i);
    CutFacts(was, i);
    if task.queue.start == task { task.queue.start := task.next; }
    Unlink(task, Around(was, i), task.queue);
    CutCircle(was, i);
    CutBelong(was, i, task.queue);
    Forget(task, was, i);
  }

  lemma QueuesApart(q: TaskQueue, q': TaskQueue)
    requires q.Valid() && q'.Valid() && q != q'
    ensures forall i, j :: 0 <= i < |q.contents| && 0 <= j < |q'.contents| ==> q.contents[i] != q'.contents[j]
  {
  }

  lemma Outside(q: TaskQueue, task: Link)
    requires q.Valid() && task.queue != q
    ensures forall i :: 0 <= i < |q.contents| ==> q.contents[i] != task
  {
  }

  /** `task_move`, which leaves every other queue as it is. */
  method Move(task: Link, queue: TaskQueue) returns (ghost i: nat)
    requires task.queue != null && task.queue.Valid() && task in task.queue.contents && queue.Valid()
    modifies task.queue, task.queue.contents, queue, queue.contents
    ensures i < |old(task.queue.contents)| && old(task.queue.contents)[i] == task
    ensures queue.Valid() && old(task.queue).Valid()
    ensures if queue == old(task.queue) then queue.contents == Cut(old(queue.contents), i) + [task]
            else old(task.queue).contents == Cut(old(task.queue.contents), i) && queue.contents == old(queue.contents) + [task]
    ensures forall p: TaskQueue :: old(allocated(p)) && old(p.Valid()) && p != queue && p != old(task.queue) ==>
              p.Valid() && p.contents == old(p.contents)
  {
    hide Circle, Distinct, Belong, Cut;
    ghost var from := task.queue;
    forall p: TaskQueue | allocated(p) && p.Valid() && p != queue && p != from
      ensures forall i, j :: 0 <= i < |p.contents| && 0 <= j < |queue.contents| ==> p.contents[i] != queue.contents[j]
      ensures forall i, j :: 0 <= i < |p.contents| && 0 <= j < |from.contents| ==> p.contents[i] != from.contents[j]
    {
      QueuesApart(p, queue);
      QueuesApart(p, from);
    }
    if from != queue { QueuesApart(from, queue); }
    i := Dequeue(task);
    assert queue.Valid();
    Outside(from, task);
    if from != queue { QueuesApart(from, queue); }
    queue.Enqueue(task);
  }

  /* ---------- Poll lists: a circle that begins with the head of the list ---------- */

  /** `cdnode_init` */
  method NodeInit(node: Link)
    modifies node
    ensures Circle([node])
  {
    node.next, node.prev := node, node;
  }

  /** `cdnode_singleton`, and `cdlist_empty` for the head of a list. */
  predicate Singleton(node: Link)
    reads node
  {
    node.next == node || node.prev == node
  }

  /** A node is a singleton exactly when the circle that it is on has one element. */
  lemma SingletonIs(node: Link, circle: seq<Link>, i: nat)
    requires Circle(circle) && Distinct(circle) && i < |circle| && circle[i] == node
    ensures node.next != null && node.prev != null && (Singleton(node) <==> |circle| == 1)
  {
    assert i > 0 ==> circle[i - 1].next == circle[i];
    assert i < |circle| - 1 ==> circle[i].next == circle[i + 1];
  }

  /** `cdnode_append`: a node that is on its own goes to the back of the list. */
  method NodeAppend(list: Link, node: Link, ghost circle: seq<Link>)
    requires circle != [] && circle[0] == list && Circle(circle) && Distinct(circle)
    requires Circle([node]) && node !in circle
    modifies node, circle
    ensures Circle(circle + [node]) && Distinct(circle + [node])
  {
    ghost var n := |circle|;
    assert list in circle && circle[n - 1] in circle && node != list;
    node.prev := list.prev;
    node.next := list;
    list.prev.next := node;
    list.prev := node;
  }

  /** `cdnode_delete`: the node is on its own afterwards, and the others stay in order. */
  method NodeDelete(node: Link, ghost circle: seq<Link>, ghost i: nat)
    requires i < |circle| && circle[i] == node && Circle(circle) && Distinct(circle)
    modifies circle
    ensures Circle([node]) && Circle(Cut(circle, i)) && Distinct(Cut(circle, i))
  {
    hide Circle, Distinct, Around, Cut;
    SingletonIs(node, circle, i);
    if Singleton(node) {
      assert circle == [node];
      CutFacts(circle, i);
      assert Circle(Cut(circle, i)) by { EmptyCircle(Cut(circle, i)); }
      return;
    }
    ReadAround(circle, i);
    CutFacts(circle, i);
    Unlink(node, Around(circle, i), null);
    CutCircle(circle, i);
    NodeInit(node);
  }

  lemma EmptyCircle(s: seq<Link>)
    requires s == []
    ensures Circle(s)
  {
  }
}
