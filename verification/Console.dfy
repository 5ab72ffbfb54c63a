/** The console transmitter: bytes go to the UART as long as it takes them and wait in a queue
    otherwise. */
module Console {
  import opened Seqs
  import RingQueue

  const ENOMEM := -4
  const ENOFUNC := -7

  datatype Reply = Reply(tid: int, status: int)
  datatype Msg = TxNotify(tid: int) | Write(tid: int, data: string) | Other(tid: int)

  /** What a message should come out as: its first newline gets a carriage return. */
  function Expanded(data: string, newlineSeen: bool): string {
    if data == "" then ""
    else if !newlineSeen && data[0] == '\n' then "\r\n" + Expanded(data[1..], true)
    else [data[0]] + Expanded(data[1..], newlineSeen)
  }

  /** What terminals want: every newline with its carriage return. */
  function FullyExpanded(data: string): string {
    if data == "" then ""
    else (if data[0] == '\n' then "\r\n" else [data[0]]) + FullyExpanded(data[1..])
  }

  function Newlines(data: string): nat {
    if data == "" then 0 else (if data[0] == '\n' then 1 else 0) + Newlines(data[1..])
  }

  lemma {:induction false} ExpandedLength(data: string, newlineSeen: bool)
    ensures |Expanded(data, newlineSeen)| == |data| + if newlineSeen || Newlines(data) == 0 then 0 else 1
    ensures |FullyExpanded(data)| == |data| + Newlines(data)
  {
    if data != "" {
      ExpandedLength(data[1..], newlineSeen || data[0] == '\n');
    }
  }

  lemma {:induction false} NothingToExpand(data: string, newlineSeen: bool)
    requires Newlines(data) == 0
    ensures Expanded(data, newlineSeen) == data == FullyExpanded(data)
  {
    if data != "" { NothingToExpand(data[1..], newlineSeen); }
  }

  lemma {:induction false} OneNewline(data: string)
    requires Newlines(data) <= 1
    ensures Expanded(data, false) == FullyExpanded(data)
  {
    if data != "" {
      if data[0] == '\n' {
        NothingToExpand(data[1..], true);
      } else {
        OneNewline(data[1..]);
      }
    }
  }

  /** A message comes out as terminals want it exactly when it has at most one newline. */
  lemma ExpandedFully(data: string)
    ensures Expanded(data, false) == FullyExpanded(data) <==> Newlines(data) <= 1
  {
    ExpandedLength(data, false);
    if Newlines(data) <= 1 { OneNewline(data); }
  }

  /** A message comes out as it is, but for a carriage return before its first newline. */
  lemma {:induction false} FirstNewline(front: string, rest: string)
    requires '\n' !in front
    ensures Expanded(front, false) == front && Expanded(front + ("\n" + rest), false) == front + ("\r\n" + rest)
  {
    if front == "" {
      AsItIs(rest);
      assert "" + ("\n" + rest) == "\n" + rest && ("\n" + rest)[1..] == rest;
    } else {
      var c, tail := front[0], front[1..];
      assert c in front && front == [c] + tail;
      FirstNewline(tail, rest);
      assert (front + ("\n" + rest))[1..] == tail + ("\n" + rest);
    }
  }

  lemma {:induction false} AsItIs(data: string)
    ensures Expanded(data, true) == data
  {
    if data != "" {
      AsItIs(data[1..]);
      assert data == [data[0]] + data[1..];
    }
  }

  /* ---------- What handling a message does ---------- */

  /** All bytes taken so far, sent or queued, and the replies given. */
  datatype Line = Line(taken: string, replies: seq<Reply>)

  ghost predicate IsPrefix(p: string, s: string) {
    |p| <= |s| && p == s[..|p|]
  }

  /** The message is answered once.  A write is taken as a whole if it is told so, else only a proper
      beginning of it. */
  ghost predicate Handled(l: Line, m: Msg, part: string, status: int, l': Line) {
    && l' == Line(l.taken + part, l.replies + [Reply(m.tid, status)])
    && match m
       case TxNotify(_) => part == "" && status == 0
       case Other(_) => part == "" && status == ENOFUNC
       case Write(_, data) =>
         if status == 0 then part == Expanded(data, false)
         else status == ENOMEM && IsPrefix(part, Expanded(data, false)) && part != Expanded(data, false)
  }

  ghost predicate IsRun(lines: seq<Line>, msgs: seq<Msg>, parts: seq<string>, statuses: seq<int>) {
    && |parts| == |statuses| == |msgs| && |lines| == |msgs| + 1 && lines[0] == Line("", [])
    && forall k :: 0 <= k < |msgs| ==> Handled(lines[k], msgs[k], parts[k], statuses[k], lines[k + 1])
  }

  function Joined(parts: seq<string>): string {
    if parts == [] then "" else Joined(parts[..|parts| - 1]) + parts[|parts| - 1]
  }

  /** After any messages: what was sent or still waits is the accepted parts of the messages in order,
      and every message has had exactly one reply. */
  lemma {:induction false} RunConserves(lines: seq<Line>, msgs: seq<Msg>, parts: seq<string>, statuses: seq<int>, n: nat)
    requires IsRun(lines, msgs, parts, statuses) && n <= |msgs|
    ensures lines[n].taken == Joined(parts[..n]) && |lines[n].replies| == n
    ensures forall k :: 0 <= k < n ==> lines[n].replies[k] == Reply(msgs[k].tid, statuses[k])
  {
    if n > 0 {
      RunConserves(lines, msgs, parts, statuses, n - 1);
      assert Handled(lines[n - 1], msgs[n - 1], parts[n - 1], statuses[n - 1], lines[n]);
      assert parts[..n][..n - 1] == parts[..n - 1];
    }
  }

  /** What they were answered: notifications 0, unknown messages -7, and writes 0 when the whole of the message
      was accepted, else -4. */
  lemma RunAnswers(lines: seq<Line>, msgs: seq<Msg>, parts: seq<string>, statuses: seq<int>, k: nat)
    requires IsRun(lines, msgs, parts, statuses) && k < |msgs|
    ensures match msgs[k]
            case TxNotify(tid) => lines[k + 1].replies == lines[k].replies + [Reply(tid, 0)] && parts[k] == ""
            case Other(tid) => lines[k + 1].replies == lines[k].replies + [Reply(tid, -7)] && parts[k] == ""
            case Write(tid, data) =>
              && lines[k + 1].replies == lines[k].replies + [Reply(tid, if parts[k] == Expanded(data, false) then 0 else -4)]
              && IsPrefix(parts[k], Expanded(data, false))
  {
    assert Handled(lines[k], msgs[k], parts[k], statuses[k], lines[k + 1]);
  }

  class Transmitter {
    const chq: RingQueue.Queue<char>
    /** What the UART has been given. */
    var sent: string
    var replies: seq<Reply>
    /** Whether the interrupt that says there is room has been asked for. */
    var irq: bool

    ghost predicate Valid()
      reads this, chq
    {
      chq.Valid()
    }

    ghost function State(): Line
      requires Valid()
      reads this, chq, chq.arr
    {
      Line(sent + chq.Contents(), replies)
    }

    constructor (chq: RingQueue.Queue<char>)
      requires chq.Valid() && chq.Contents() == []
      ensures Valid() && State() == Line("", []) && this.chq == chq && fresh(this)
    {
      this.chq := chq;
      sent, replies, irq := "", [], false;
    }

    /** The UART may be full at any time. */
    method TxFull() returns (full: bool)
    {
      full := *;
    }

    /** Send queued bytes until the UART is full. */
    method Drain()
      requires Valid()
      modifies this`sent, chq
      ensures Valid() && State() == old(State())
    {
      hide RingQueue.Queue.Contents;
      var full := TxFull();
      while chq.len != 0 && !full
        invariant Valid() && State() == old(State())
        decreases chq.len
      {
        ghost var s, rest := sent, chq.Contents();
        var c := chq.Pop();
        sent := sent + [c];
        Join(s, [c], chq.Contents());
        full := TxFull();
      }
    }

    /** `CONSOLE_TX_NOTIFY_MSG` */
    method NotifyMsg(tid: int)
      requires Valid()
      modifies this, chq
      ensures Valid() && Handled(old(State()), TxNotify(tid), "", 0, State())
      ensures chq.Contents() != [] ==> irq
    {
      replies := replies + [Reply(tid, 0)];
      Drain();
      if chq.len != 0 { irq := true; }
    }

    /** Send new data until the UART is full; cur bytes are done, and part is what that sent. */
    method SendNew(data: string) returns (cur: nat, newlineSeen: bool, ghost part: string)
      modifies this`sent
      ensures cur <= |data| && sent == old(sent) + part
      ensures part + Expanded(data[cur..], newlineSeen) == Expanded(data, false)
    {
      cur, newlineSeen, part := 0, false, "";
      var full := TxFull();
      while cur < |data| && !full
        invariant 0 <= cur <= |data| && sent == old(sent) + part
        invariant part + Expanded(data[cur..], newlineSeen) == Expanded(data, false)
        decreases |data| - cur, !newlineSeen
      {
        hide Expanded;
        Next(data, cur, newlineSeen);
        if !newlineSeen && data[cur] == '\n' {
          Join(part, ['\r'], Expanded(data[cur..], true));
          sent, part := sent + ['\r'], part + ['\r'];
          newlineSeen := true;
        } else {
          Join(part, [data[cur]], Expanded(data[cur + 1..], newlineSeen));
          sent, part := sent + [data[cur]], part + [data[cur]];
          cur := cur + 1;
        }
        full := TxFull();
      }
    }

    /** Queue the rest of the new data while there is room. */
    method QueueNew(data: string, cur0: nat, seen0: bool) returns (cur: nat, ghost part: string, ghost rest: string)
      requires Valid() && cur0 <= |data|
      modifies chq, chq.arr
      ensures Valid() && chq.Contents() == old(chq.Contents()) + part && cur <= |data|
      ensures part + rest == Expanded(data[cur0..], seen0)
      ensures if cur == |data| then rest == "" else rest != "" && chq.len == chq.arr.Length
    {
      hide RingQueue.Queue.Contents, Expanded;
      cur, part := cur0, "";
      var newlineSeen := seen0;
      while cur < |data|
        invariant Valid() && 0 <= cur <= |data| && chq.Contents() == old(chq.Contents()) + part
        invariant part + Expanded(data[cur..], newlineSeen) == Expanded(data[cur0..], seen0)
        decreases |data| - cur, !newlineSeen
      {
        Next(data, cur, newlineSeen);
        if chq.len == chq.arr.Length { break; }
        if !newlineSeen && data[cur] == '\n' {
          Join(part, ['\r'], Expanded(data[cur..], true));
          Join(old(chq.Contents()), part, ['\r']);
          chq.Push('\r');
          part := part + ['\r'];
          newlineSeen := true;
        } else {
          Join(part, [data[cur]], Expanded(data[cur + 1..], newlineSeen));
          Join(old(chq.Contents()), part, [data[cur]]);
          chq.Push(data[cur]);
          part := part + [data[cur]];
          cur := cur + 1;
        }
      }
      rest := Expanded(data[cur..], newlineSeen);
      if cur == |data| { NothingLeft(data, newlineSeen); }
    }

    /** `STDOUT_WRITE_MSG` */
    method WriteMsg(tid: int, data: string) returns (ghost part: string, status: int)
      requires Valid()
      modifies this, chq, chq.arr
      ensures Valid() && Handled(old(State()), Write(tid, data), part, status, State())
      ensures status == ENOMEM ==> chq.len == chq.arr.Length
      ensures chq.Contents() != [] ==> irq
    {
      hide RingQueue.Queue.Contents, Expanded;
      Drain();
      ghost var was := sent + chq.Contents();
      var cur, newlineSeen := 0, false;
      ghost var first, second, rest := "", "", "";
      if chq.len == 0 {
        assert was == sent;
        cur, newlineSeen, first := SendNew(data);
      }
      assert data[0..] == data && sent + chq.Contents() == was + first;
      ghost var queued := chq.Contents();
      cur, second, rest := QueueNew(data, cur, newlineSeen);
      Join(sent, queued, second);
      Join(was, first, second);
      part := first + second;
      Join(first, second, rest);
      status := if cur == |data| then 0 else ENOMEM;
      replies := replies + [Reply(tid, status)];
      if chq.len != 0 { irq := true; }
    }
  }

  lemma NothingLeft(data: string, newlineSeen: bool)
    ensures Expanded(data[|data|..], newlineSeen) == ""
  {
  }

  /** The next byte to send or queue. */
  lemma Next(data: string, cur: nat, newlineSeen: bool)
    requires cur < |data|
    ensures var more := Expanded(data[cur..], newlineSeen);
            if !newlineSeen && data[cur] == '\n' then more == ['\r'] + Expanded(data[cur..], true)
            else more == [data[cur]] + Expanded(data[cur + 1..], newlineSeen)
    ensures Expanded(data[cur..], newlineSeen) != ""
  {
  }
}
