/** The free descriptors of a task as the kernel keeps them: a list linked by numbers through the
    descriptors themselves, in front of those never used. */
module DescriptorPool {
  import opened Seqs
  import opened KernelState

  class Descriptors {
    /** `next_free_cd` of every descriptor */
    const link: array<int>
    var freeHead: int
    var nextFree: int
    /** The numbers on the list, first one first. */
    ghost var free: seq<int>

    /** Following the links from the head meets the listed numbers, each once, and ends. */
    ghost predicate Valid()
      reads this, link
    {
      && link.Length == MAX_TASK_CHANNELS && 0 <= nextFree <= MAX_TASK_CHANNELS && NoDup(free)
      && (forall k :: 0 <= k < |free| ==> 0 <= free[k] < nextFree)
      && (if free == [] then freeHead < 0 else freeHead == free[0] && link[free[|free| - 1]] < 0)
      && forall k {:trigger free[k]} :: 0 <= k < |free| - 1 ==> link[free[k]] == free[k + 1]
    }

    ghost function Now(): Pool
      reads this
    {
      Pool(free, nextFree)
    }

    constructor ()
      ensures Valid() && Now() == Pool([], 0) && fresh(link)
    {
      link := new int[MAX_TASK_CHANNELS];
      freeHead, nextFree, free := -1, 0, [];
    }

    /** The numbers of a new task, of which the first n are in use. */
    method Restart(n: int)
      requires Valid() && 0 <= n <= MAX_TASK_CHANNELS
      modifies this
      ensures Valid() && Now() == Pool([], n)
    {
      freeHead, nextFree, free := -1, n, [];
    }

    /** `free_channel_desc`, of a number that is in use. */
    method FreeDesc(no: int)
      requires Valid() && 0 <= no < nextFree && no !in free
      modifies this, link
      ensures Valid() && Now() == old(Now()).(free := [no] + old(free))
    {
      link[no] := freeHead;
      freeHead := no;
      free := [no] + free;
    }

    /** `alloc_channel_desc` */
    method AllocDesc() returns (no: int)
      requires Valid()
      modifies this
      ensures Valid() && (Now(), no) == TakeNumber(old(Now()))
      ensures no >= 0 ==> no !in free && no < nextFree && (no in old(free) || no == old(nextFree))
      ensures no < 0 <==> old(free) == [] && old(nextFree) == MAX_TASK_CHANNELS
    {
      if freeHead < 0 {
        if nextFree >= MAX_TASK_CHANNELS { return NONE; }
        no := nextFree;
        nextFree := nextFree + 1;
      } else {
        no := freeHead;
        freeHead := link[no];
        free := free[1..];
      }
    }
  }

  /** A number that is freed is the next one to be given out. */
  lemma LastFreedFirst(p: Pool, no: int)
    ensures TakeNumber(p.(free := [no] + p.free)) == (p, no)
  {
    assert ([no] + p.free)[1..] == p.free;
  }
}
