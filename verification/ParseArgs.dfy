/** Splitting a command line into arguments, within the buffer that holds the line. */
module ParseArgs {
  predicate IsSeparator(c: char) {
    c == ' ' || c == '\t' || c == '\n'
  }

  /** What the rest s of a line adds to the arguments found so far; word is the unfinished one.  An
      argument is finished by a separator outside quotes if it is not empty and there is room. */
  function Parse(s: string, quoted: bool, word: string, args: seq<string>, room: nat): seq<string> {
    if s == "" then args
    else if s[0] == '\\' then
      if |s| == 1 then args
      else if !quoted && s[1] == '\n' then Parse(s[2..], quoted, word, args, room)
      else Parse(s[2..], quoted, word + [s[1]], args, room)
    else if s[0] == '"' then Parse(s[1..], !quoted, word, args, room)
    else if quoted || !IsSeparator(s[0]) then Parse(s[1..], quoted, word + [s[0]], args, room)
    else
      var finished := word != "" && |args| < room;
      var args' := if finished then args + [word] else args;
      if s[0] == '\n' then args' else Parse(s[1..], quoted, if finished then "" else word, args', room)
  }

  function Arguments(line: string, room: nat): seq<string> {
    Parse(line, false, "", [], room)
  }

  /** Does the scan of the rest s of a line come to a backslash with nothing behind it? */
  predicate EndsInEscape(s: string, quoted: bool) {
    if s == "" then false
    else if s[0] == '\\' then |s| == 1 || EndsInEscape(s[2..], quoted)
    else if s[0] == '"' then EndsInEscape(s[1..], !quoted)
    else (quoted || s[0] != '\n') && EndsInEscape(s[1..], quoted)
  }

  /** Does the scan come to a newline that is neither quoted nor escaped, and stop there? */
  predicate StopsEarly(s: string, quoted: bool) {
    if s == "" then false
    else if s[0] == '\\' then |s| > 1 && StopsEarly(s[2..], quoted)
    else if s[0] == '"' then StopsEarly(s[1..], !quoted)
    else (!quoted && s[0] == '\n') || StopsEarly(s[1..], quoted)
  }

  /** The number of backslashes at the end. */
  function Backslashes(s: string): (r: nat)
    ensures r <= |s|
  {
    if s == "" || s[|s| - 1] != '\\' then 0 else 1 + Backslashes(s[..|s| - 1])
  }

  lemma {:induction false} BackslashesBehind(s: string)
    requires s != ""
    ensures Backslashes(s) == Backslashes(s[1..]) + if Backslashes(s[1..]) == |s| - 1 && s[0] == '\\' then 1 else 0
  {
    var n := |s| - 1;
    if n == 0 {
      assert s[..0] == "";
    } else if s[n] == '\\' {
      BackslashesBehind(s[..n]);
      assert s[..n][1..] == s[1..][..n - 1];
    }
  }

  /** What the scan reads at once changes nothing about the number of backslashes at the end being odd. */
  lemma OddBehind(s: string)
    requires s != ""
    ensures s[0] != '\\' ==> Backslashes(s) == Backslashes(s[1..])
    ensures s[0] == '\\' && |s| > 1 ==> Backslashes(s) == Backslashes(s[2..]) || Backslashes(s) == Backslashes(s[2..]) + 2
  {
    hide Backslashes;
    BackslashesBehind(s);
    if |s| > 1 {
      BackslashesBehind(s[1..]);
      assert s[1..][1..] == s[2..];
    }
  }

  lemma LoneOrNone(c: char)
    ensures Backslashes("") == 0 && Backslashes([c]) == if c == '\\' then 1 else 0
  {
    assert [c][..0] == "";
  }

  /** The scan runs into the end of the line within an escape exactly when no newline stops it and an odd
      number of backslashes ends the line. */
  lemma {:induction false} EscapeIsOdd(s: string, quoted: bool)
    ensures EndsInEscape(s, quoted) <==> !StopsEarly(s, quoted) && Backslashes(s) % 2 == 1
    decreases |s|
  {
    hide Backslashes;
    LoneOrNone('\\');
    if s == "" {
    } else if s[0] == '\\' {
      if |s| > 1 {
        OddBehind(s);
        EscapeIsOdd(s[2..], quoted);
      } else {
        assert s == ['\\'];
      }
    } else {
      OddBehind(s);
      EscapeIsOdd(s[1..], if s[0] == '"' then !quoted else quoted);
    }
  }

  /** The text that starts at a place in the buffer and is ended by a NUL. */
  ghost predicate Holds(buf: seq<char>, start: int, arg: string) {
    0 <= start && start + |arg| < |buf| && buf[start..start + |arg|] == arg && buf[start + |arg|] == '\0'
  }

  /** The arguments lie in the buffer before the place top. */
  ghost predicate Stored(buf: seq<char>, argv: seq<int>, args: seq<string>, top: int) {
    |args| <= |argv| && forall k :: 0 <= k < |args| ==> Holds(buf, argv[k], args[k]) && argv[k] + |args[k]| < top
  }

  const NULL := -1

  lemma StoredKept(buf: seq<char>, buf': seq<char>, argv: seq<int>, args: seq<string>, top: nat)
    requires Stored(buf, argv, args, top) && top <= |buf| == |buf'| && forall i :: 0 <= i < top ==> buf[i] == buf'[i]
    ensures Stored(buf', argv, args, top)
  {
    forall k | 0 <= k < |args| ensures Holds(buf', argv[k], args[k]) {
      assert Holds(buf, argv[k], args[k]);
      assert buf'[argv[k]..argv[k] + |args[k]|] == buf[argv[k]..argv[k] + |args[k]|];
    }
  }

  lemma StoredMore(buf: seq<char>, argv: seq<int>, args: seq<string>, start: nat, cur: nat)
    requires Stored(buf, argv, args, start) && |args| < |argv| && start <= cur < |buf| && buf[cur] == '\0'
    ensures Stored(buf, argv[|args| := start], args + [buf[start..cur]], cur + 1)
  {
  }

  lemma StoredNull(buf: seq<char>, argv: seq<int>, args: seq<string>, top: nat, top': nat)
    requires Stored(buf, argv, args, top) && top <= top'
    ensures Stored(buf, argv, args, top') && (|args| < |argv| ==> Stored(buf, argv[|args| := NULL], args, top'))
  {
  }

  lemma NoneStored(buf: seq<char>, argv: seq<int>)
    ensures Stored(buf, argv, [], 0)
  {
  }

  /** Writing the next character of the current word. */
  lemma Added(buf: seq<char>, argv: seq<int>, args: seq<string>, start: nat, cur: nat, c: char)
    requires Stored(buf, argv, args, start) && start <= cur < |buf|
    ensures Stored(buf[cur := c], argv, args, start) && buf[cur := c][start..cur + 1] == buf[start..cur] + [c]
  {
    StoredKept(buf, buf[cur := c], argv, args, start);
  }

  /** Ending the current word. */
  lemma Ended(buf: seq<char>, argv: seq<int>, args: seq<string>, start: nat, cur: nat)
    requires Stored(buf, argv, args, start) && |args| < |argv| && start <= cur < |buf|
    ensures Stored(buf[cur := '\0'], argv[|args| := start], args + [buf[start..cur]], cur + 1)
  {
    StoredKept(buf, buf[cur := '\0'], argv, args, start);
    StoredMore(buf[cur := '\0'], argv, args, start, cur);
    assert buf[cur := '\0'][start..cur] == buf[start..cur];
  }

  /** One round of the loop, on the text. */
  lemma Stepped(line: string, i: nat, quoted: bool, word: string, args: seq<string>, room: nat)
    requires i < |line|
    ensures var c := line[i]; var p := Parse(line[i..], quoted, word, args, room);
            if c == '\\' then
              i + 1 < |line| ==> p == Parse(line[i + 2..], quoted, if !quoted && line[i + 1] == '\n' then word else word + [line[i + 1]], args, room)
            else if c == '"' then p == Parse(line[i + 1..], !quoted, word, args, room)
            else if quoted || !IsSeparator(c) then p == Parse(line[i + 1..], quoted, word + [c], args, room)
            else
              var finished := word != "" && |args| < room;
              var args' := if finished then args + [word] else args;
              p == if c == '\n' then args' else Parse(line[i + 1..], quoted, if finished then "" else word, args', room)
  {
    var s := line[i..];
    assert s[0] == line[i] && s[1..] == line[i + 1..];
    if i + 1 < |line| { assert s[1] == line[i + 1] && s[2..] == line[i + 2..]; }
  }

  /** The same round, on where the line ends. */
  lemma EscapeStepped(line: string, i: nat, quoted: bool)
    requires i < |line|
    ensures var c := line[i]; var p := EndsInEscape(line[i..], quoted);
            if c == '\\' then (if i + 1 == |line| then p else p == EndsInEscape(line[i + 2..], quoted))
            else if c == '"' then p == EndsInEscape(line[i + 1..], !quoted)
            else p == ((quoted || c != '\n') && EndsInEscape(line[i + 1..], quoted))
  {
    var s := line[i..];
    assert s[0] == line[i] && s[1..] == line[i + 1..];
    if i + 1 < |line| { assert s[2..] == line[i + 2..]; }
  }

  lemma LineDone(line: string, quoted: bool, word: string, args: seq<string>, room: nat)
    ensures Parse(line[|line|..], quoted, word, args, room) == args && !EndsInEscape(line[|line|..], quoted)
  {
  }

  lemma LineBegun(line: string, room: nat)
    ensures Parse(line[0..], false, "", [], room) == Arguments(line, room)
    ensures EndsInEscape(line[0..], false) == EndsInEscape(line, false)
  {
    assert line[0..] == line;
  }

  /** `*cur++ = c`, in the word that begins at start. */
  method Put(mem: array<char>, cur: nat, c: char, ghost argv: seq<int>, ghost args: seq<string>, ghost start: nat)
    returns (cur': nat)
    requires start <= cur < mem.Length && Stored(mem[..], argv, args, start)
    modifies mem
    ensures cur' == cur + 1 && mem[start..cur'] == old(mem[start..cur]) + [c]
    ensures Stored(mem[..], argv, args, start)
    ensures forall i :: 0 <= i < mem.Length && i != cur ==> mem[i] == old(mem[i])
  {
    Added(mem[..], argv, args, start, cur, c);
    mem[cur] := c;
    return cur + 1;
  }

  /** The word from start to cur becomes an argument. */
  method Finish(mem: array<char>, argv: array<int>, argc: nat, start: nat, cur: nat, ghost args: seq<string>)
    returns (cur': nat)
    requires start <= cur < mem.Length && argc < argv.Length
    requires |args| == argc && Stored(mem[..], argv[..], args, start)
    modifies mem, argv
    ensures cur' == cur + 1 && Stored(mem[..], argv[..], args + [old(mem[start..cur])], cur')
    ensures forall i :: 0 <= i < mem.Length && i != cur ==> mem[i] == old(mem[i])
  {
    Ended(mem[..], argv[..], args, start, cur);
    mem[cur] := '\0';
    argv[argc] := start;
    return cur + 1;
  }

  /** `parse_args`.  The first n characters of the buffer are the line.  The write cursor cur never passes
      the read cursor buf.  overrun is whether a read behind a backslash takes the NUL that ends the line;
      the original goes on reading behind it then, and this method stops. */
  method Split(mem: array<char>, argv: array<int>, n: nat) returns (argc: nat, overrun: bool)
    requires n < mem.Length && mem[n] == '\0' && (forall i :: 0 <= i < n ==> mem[i] != '\0')
    modifies mem, argv
    ensures overrun <==> EndsInEscape(old(mem[..n]), false)
    ensures !overrun ==>
              var args := Arguments(old(mem[..n]), argv.Length);
              argc == |args| && Stored(mem[..], argv[..], args, n + 1)
    ensures !overrun && argc < argv.Length ==> argv[argc] == NULL
    ensures forall i :: n <= i < mem.Length ==> mem[i] == old(mem[i])
  {
    hide Parse, Stored, Holds, Arguments, EndsInEscape;
    argc, overrun := 0, false;
    var inQuote := false;
    var buf, cur, argstart := 0, 0, 0;
    ghost var line, args: seq<string> := mem[..n], [];
    LineBegun(line, argv.Length);
    NoneStored(mem[..], argv[..]);
    assert mem[argstart..cur] == "";
    while mem[buf] != '\0'
      invariant 0 <= argstart <= cur <= buf <= n && |args| == argc <= argv.Length
      invariant forall i :: buf <= i < n ==> mem[i] == line[i]
      invariant forall i :: n <= i < mem.Length ==> mem[i] == old(mem[i])
      invariant Stored(mem[..], argv[..], args, argstart)
      invariant Parse(line[buf..], inQuote, mem[argstart..cur], args, argv.Length) == Arguments(line, argv.Length)
      invariant EndsInEscape(line[buf..], inQuote) == EndsInEscape(line, false)
      decreases n - buf
    {
      var c := mem[buf];
      ghost var was, word := mem[..], mem[argstart..cur];
      Stepped(line, buf, inQuote, word, args, argv.Length);
      EscapeStepped(line, buf, inQuote);
      buf := buf + 1;
      if inQuote {
        if c == '\\' {
          if mem[buf] == '\0' { return argc, true; }
          cur := Put(mem, cur, mem[buf], argv[..], args, argstart);
          buf := buf + 1;
        } else if c == '"' {
          inQuote := false;
        } else {
          cur := Put(mem, cur, c, argv[..], args, argstart);
        }
        continue;
      }
      if IsSeparator(c) {
        if cur - argstart > 0 && argc < argv.Length {
          cur := Finish(mem, argv, argc, argstart, cur, args);
          args := args + [word];
          argc := argc + 1;
          argstart := cur;
          assert mem[argstart..cur] == "";
        }
        if c == '\n' { break; }
      } else if c == '"' {
        inQuote := true;
      } else {
        if c == '\\' {
          if mem[buf] == '\0' { return argc, true; }
          c := mem[buf];
          buf := buf + 1;
          if c == '\n' { continue; }
        }
        cur := Put(mem, cur, c, argv[..], args, argstart);
      }
    }
    LineDone(line, inQuote, mem[argstart..cur], args, argv.Length);
    StoredNull(mem[..], argv[..], args, argstart, n + 1);
    if argc < argv.Length {
      argv[argc] := NULL;
    }
  }

  /** The shortest line that is read past its end. */
  lemma LoneBackslash()
    ensures EndsInEscape("\\", false) && !EndsInEscape("\\\\", false) && !EndsInEscape("\n\\", false)
  {
    assert "\\\\"[2..] == "";
  }

  /* ---------- Plain words ---------- */

  /** A word as one types it: not empty, and without blank, tab, newline, quote or backslash. */
  predicate Plain(word: string) {
    word != "" && forall k :: 0 <= k < |word| ==>
      word[k] != ' ' && word[k] != '\t' && word[k] != '\n' && word[k] != '"' && word[k] != '\\'
  }

  predicate Gap(gap: string) {
    forall k :: 0 <= k < |gap| ==> gap[k] == ' ' || gap[k] == '\t'
  }

  /** Blanks and tabs before every word, and at least one between two words. */
  predicate Spaced(words: seq<string>, gaps: seq<string>) {
    && |gaps| == |words| && (forall k :: 0 <= k < |gaps| ==> Gap(gaps[k])) && (forall k :: 0 < k < |gaps| ==> gaps[k] != "")
    && (forall k :: 0 <= k < |words| ==> Plain(words[k]))
  }

  /** Every word behind its gap, and then the end. */
  function Typed(words: seq<string>, gaps: seq<string>, end: string): string
    requires |gaps| == |words|
  {
    if words == [] then end else gaps[0] + (words[0] + Typed(words[1..], gaps[1..], end))
  }

  lemma {:induction false} GapParsed(gap: string, rest: string, word: string, args: seq<string>, room: nat)
    requires Gap(gap)
    ensures var finished := gap != "" && word != "" && |args| < room;
            Parse(gap + rest, false, word, args, room) ==
            Parse(rest, false, if finished then "" else word, if finished then args + [word] else args, room)
    decreases |gap|
  {
    if gap == "" {
      assert gap + rest == rest;
    } else {
      assert gap[0] == ' ' || gap[0] == '\t';
      assert (gap + rest)[1..] == gap[1..] + rest;
      var finished := word != "" && |args| < room;
      GapParsed(gap[1..], rest, if finished then "" else word, if finished then args + [word] else args, room);
    }
  }

  lemma {:induction false} WordParsed(w: string, rest: string, word: string, args: seq<string>, room: nat)
    requires w == "" || Plain(w)
    ensures Parse(w + rest, false, word, args, room) == Parse(rest, false, word + w, args, room)
    decreases |w|
  {
    if w == "" {
      assert w + rest == rest && word + w == word;
    } else {
      assert (w + rest)[1..] == w[1..] + rest;
      assert (word + [w[0]]) + w[1..] == word + w;
      WordParsed(w[1..], rest, word + [w[0]], args, room);
    }
  }

  function Upto(words: seq<string>, n: nat): seq<string> {
    if |words| <= n then words else words[..n]
  }

  /** Once there is no room, nothing is found any more. */
  lemma {:induction false} NoRoom(s: string, quoted: bool, word: string, args: seq<string>, room: nat)
    requires |args| >= room
    ensures Parse(s, quoted, word, args, room) == args
    decreases |s|
  {
    if s == "" || (s[0] == '\\' && |s| == 1) {
    } else if s[0] == '\\' {
      NoRoom(s[2..], quoted, if !quoted && s[1] == '\n' then word else word + [s[1]], args, room);
    } else if s[0] == '"' {
      NoRoom(s[1..], !quoted, word, args, room);
    } else if quoted || !IsSeparator(s[0]) {
      NoRoom(s[1..], quoted, word + [s[0]], args, room);
    } else {
      NoRoom(s[1..], quoted, word, args, room);
    }
  }

  /** The end of a line of words, with the last one unfinished: nothing, or a newline and whatever. */
  predicate LineEnd(end: string) {
    end == "" || end[0] == '\n'
  }

  /** Words that follow the unfinished word, if there is one. */
  lemma {:induction false} TypedParsed(words: seq<string>, gaps: seq<string>, gap: string, end: string, word: string,
                                       args: seq<string>, room: nat)
    requires Spaced(words, gaps) && Gap(gap) && LineEnd(end) && |args| <= room
    requires word != "" && words != [] ==> gaps[0] != ""
    ensures var all := if word == "" then words else [word] + words;
            var ended := if gap + end == "" && all != [] then all[..|all| - 1] else all;
            Parse(Typed(words, gaps, gap + end), false, word, args, room) == args + Upto(ended, room - |args|)
    decreases |words|
  {
    hide Parse;
    if |args| == room {
      NoRoom(Typed(words, gaps, gap + end), false, word, args, room);
    } else if words == [] {
      GapParsed(gap, end, word, args, room);
      EndParsed(gap, end, word, args, room);
    } else {
      var rest := Typed(words[1..], gaps[1..], gap + end);
      var finished := word != "";
      var args' := if finished then args + [word] else args;
      GapParsed(gaps[0], words[0] + rest, word, args, room);
      WordParsed(words[0], rest, "", args', room);
      assert "" + words[0] == words[0];
      TypedParsed(words[1..], gaps[1..], gap, end, words[0], args', room);
      assert [words[0]] + words[1..] == words;
      Regrouped(word, words, args, room, gap + end == "");
    }
  }

  lemma EndParsed(gap: string, end: string, word: string, args: seq<string>, room: nat)
    requires LineEnd(end) && |args| < room
    ensures var finished := gap != "" && word != "";
            var word', args' := if finished then "" else word, if finished then args + [word] else args;
            Parse(end, false, word', args', room) == args + (if word == "" || gap + end == "" then [] else [word])
  {
  }

  /** Finishing one word first makes no difference to what is found in the end. */
  lemma Regrouped(word: string, words: seq<string>, args: seq<string>, room: nat, cut: bool)
    requires |args| < room && words != []
    ensures var all := if word == "" then words else [word] + words;
            var args' := if word == "" then args else args + [word];
            args' + Upto(if cut then words[..|words| - 1] else words, room - |args'|) ==
            args + Upto(if cut then all[..|all| - 1] else all, room - |args|)
  {
    if word != "" {
      var all := [word] + words;
      assert all[..|all| - 1] == [word] + words[..|words| - 1];
      var ended, ended' := if cut then all[..|all| - 1] else all, if cut then words[..|words| - 1] else words;
      assert ended == [word] + ended';
      assert Upto(ended, room - |args|) == [word] + Upto(ended', room - |args| - 1);
    }
  }

  /** A line of words with blanks and tabs between them gives exactly those words, as many as there is
      room for, whatever follows its newline. */
  lemma WordsSplit(words: seq<string>, gaps: seq<string>, gap: string, rest: string, room: nat)
    requires Spaced(words, gaps) && Gap(gap)
    ensures Arguments(Typed(words, gaps, gap + ("\n" + rest)), room) == Upto(words, room)
  {
    TypedParsed(words, gaps, gap, "\n" + rest, "", [], room);
  }

  /** Without a newline the last word is found exactly if something separates it from the end. */
  lemma LastWord(words: seq<string>, gaps: seq<string>, gap: string, room: nat)
    requires Spaced(words, gaps) && Gap(gap) && words != []
    ensures Arguments(Typed(words, gaps, gap), room) == Upto(if gap == "" then words[..|words| - 1] else words, room)
  {
    assert gap + "" == gap;
    TypedParsed(words, gaps, gap, "", "", [], room);
  }

  /** Every character behind a backslash. */
  function Backslashed(arg: string): string {
    if arg == "" then "" else ['\\', arg[0]] + Backslashed(arg[1..])
  }

  /** A backslash outside quotes takes any character into the word but a newline. */
  lemma {:induction false} BackslashedParsed(arg: string, rest: string, word: string, args: seq<string>, room: nat)
    requires '\n' !in arg
    ensures Parse(Backslashed(arg) + rest, false, word, args, room) == Parse(rest, false, word + arg, args, room)
  {
    if arg == "" {
      assert "" + rest == rest && word + arg == word;
    } else {
      var c, tail := arg[0], Backslashed(arg[1..]) + rest;
      assert c in arg;
      Joined(c, arg[1..], rest);
      BackslashedParsed(arg[1..], rest, word + [c], args, room);
      hide Parse;
      assert (word + [c]) + arg[1..] == word + arg;
      OneTaken(c, tail, word, args, room);
      assert Backslashed(arg) + rest == ['\\', c] + tail;
    }
  }

  lemma Joined(c: char, arg: string, rest: string)
    ensures (['\\', c] + Backslashed(arg)) + rest == ['\\', c] + (Backslashed(arg) + rest)
  {
  }

  /** One escape outside quotes: at a newline the word goes on in the next line. */
  lemma OneTaken(c: char, rest: string, word: string, args: seq<string>, room: nat)
    ensures Parse(['\\', c] + rest, false, word, args, room) == Parse(rest, false, if c == '\n' then word else word + [c], args, room)
  {
    assert (['\\', c] + rest)[2..] == rest;
  }

  /* ---------- Quoting ---------- */

  function Escaped(arg: string): string {
    if arg == "" then ""
    else (if arg[0] == '"' || arg[0] == '\\' then ['\\', arg[0]] else [arg[0]]) + Escaped(arg[1..])
  }

  /** Every argument in double quotes, separated by blanks. */
  function Line(args: seq<string>): string {
    if args == [] then "\n"
    else "\"" + Escaped(args[0]) + "\"" + (if |args| == 1 then "" else " ") + Line(args[1..])
  }

  lemma {:induction false} EscapedParsed(arg: string, rest: string, word: string, args: seq<string>, room: nat)
    ensures Parse(Escaped(arg) + "\"" + rest, true, word, args, room) == Parse(rest, false, word + arg, args, room)
  {
    var s := Escaped(arg) + "\"" + rest;
    if arg == "" {
      assert s[1..] == rest && word + arg == word;
    } else {
      var tail := Escaped(arg[1..]) + "\"" + rest;
      var word' := word + [arg[0]];
      if arg[0] == '"' || arg[0] == '\\' {
        assert s == ['\\', arg[0]] + tail && s[2..] == tail;
      } else {
        assert s == [arg[0]] + tail && s[1..] == tail;
      }
      EscapedParsed(arg[1..], rest, word', args, room);
      assert word' + arg[1..] == word + arg;
    }
  }

  lemma {:induction false} LineParsed(args: seq<string>, found: seq<string>, room: nat)
    requires forall k :: 0 <= k < |args| ==> args[k] != ""
    requires |found| + |args| <= room
    ensures Parse(Line(args), false, "", found, room) == found + args
  {
    if args != [] {
      var rest := (if |args| == 1 then "" else " ") + Line(args[1..]);
      var s := Line(args);
      assert s == "\"" + (Escaped(args[0]) + "\"" + rest);
      assert s[1..] == Escaped(args[0]) + "\"" + rest;
      EscapedParsed(args[0], rest, "", found, room);
      assert "" + args[0] == args[0];
      var found' := found + [args[0]];
      assert found' + args[1..] == found + args;
      if |args| == 1 {
        assert rest == "\n";
      } else {
        assert rest[1..] == Line(args[1..]);
        LineParsed(args[1..], found', room);
      }
    }
  }

  lemma {:induction false} WordsFound(s: string, quoted: bool, word: string, args: seq<string>, room: nat)
    requires |args| <= room && forall k :: 0 <= k < |args| ==> args[k] != ""
    ensures var r := Parse(s, quoted, word, args, room);
            |r| <= room && forall k :: 0 <= k < |r| ==> r[k] != ""
    decreases |s|
  {
    if s == "" || (s[0] == '\\' && |s| == 1) {
    } else if s[0] == '\\' {
      WordsFound(s[2..], quoted, if !quoted && s[1] == '\n' then word else word + [s[1]], args, room);
    } else if s[0] == '"' {
      WordsFound(s[1..], !quoted, word, args, room);
    } else if quoted || !IsSeparator(s[0]) {
      WordsFound(s[1..], quoted, word + [s[0]], args, room);
    } else {
      var finished := word != "" && |args| < room;
      WordsFound(s[1..], quoted, if finished then "" else word, if finished then args + [word] else args, room);
    }
  }

  lemma {:induction false} LineEnds(args: seq<string>)
    ensures Line(args) != "" && Line(args)[|Line(args)| - 1] == '\n'
  {
    if args != [] { LineEnds(args[1..]); }
  }

  /** A quoted line is read to its end and no further. */
  lemma QuotedStays(args: seq<string>)
    ensures !EndsInEscape(Line(args), false)
  {
    hide Line, StopsEarly;
    LineEnds(args);
    EscapeIsOdd(Line(args), false);
  }

  /** Parsing undoes quoting exactly for the lists of arguments that are not empty and not too many. */
  lemma QuotingUndone(args: seq<string>, room: nat)
    ensures Arguments(Line(args), room) == args <==> |args| <= room && forall k :: 0 <= k < |args| ==> args[k] != ""
  {
    WordsFound(Line(args), false, "", [], room);
    if |args| <= room && forall k :: 0 <= k < |args| ==> args[k] != "" {
      LineParsed(args, [], room);
    }
  }
}
