/**
 From the bytes a client sends to commands (Project1/src/netshell.c): packets are
 joined until a newline, the batch is cut into lines, lines into commands and
 words. Strings here hold no NUL.
 */
module FrontEnd {
  import opened Common

  type Delims = set<char>

  /** The maximal runs of characters that are not delimiters, in order. */
  function Words(s: string, d: Delims): (w: seq<string>)
    ensures s != [] && s[|s| - 1] !in d ==> w != []
  {
    if s == [] then []
    else
      var front, c := s[..|s| - 1], s[|s| - 1];
      if c in d then Words(front, d)
      else if front == [] || front[|front| - 1] in d then Words(front, d) + [[c]]
      else Extend(Words(front, d), c)
  }

  /** One more character for the last word. */
  function Extend(w: seq<string>, c: char): seq<string>
    requires w != []
  {
    w[..|w| - 1] + [w[|w| - 1] + [c]]
  }

  /** A place where no word can be going on. */
  predicate Boundary(s: string, d: Delims) { s == [] || s[|s| - 1] in d }

  /** What one more character does to the words so far. */
  lemma WordsSnoc(s: string, c: char, d: Delims)
    ensures c in d ==> Words(s + [c], d) == Words(s, d)
    ensures c !in d && Boundary(s, d) ==> Words(s + [c], d) == Words(s, d) + [[c]]
    ensures c !in d && !Boundary(s, d) ==> Words(s, d) != [] && Words(s + [c], d) == Extend(Words(s, d), c)
  {
    assert (s + [c])[..|s + [c]| - 1] == s;
  }

  /** Cutting after a delimiter cuts no word. */
  lemma {:induction false} WordsConcat(a: string, b: string, d: Delims)
    requires Boundary(a, d)
    ensures Words(a + b, d) == Words(a, d) + Words(b, d)
  {
    if b == [] {
      assert a + b == a;
    } else {
      var front, c := b[..|b| - 1], b[|b| - 1];
      WordsConcat(a, front, d);
      WordsSnoc(front, c, d);
      WordsSnoc(a + front, c, d);
      hide Words;
      assert b == front + [c] && a + b == a + front + [c];
      assert Boundary(front, d) <==> Boundary(a + front, d) by {
        assert front == [] ==> a + front == a;
      }
      if c !in d && !Boundary(front, d) {
        ExtendRight(Words(a, d), Words(front, d), c);
      }
    }
  }

  lemma ExtendRight(v: seq<string>, w: seq<string>, c: char)
    requires w != []
    ensures Extend(v + w, c) == v + Extend(w, c)
  {
  }

  predicate Plain(s: string, d: Delims) { s != [] && forall i :: 0 <= i < |s| ==> s[i] !in d }

  lemma {:induction false} PlainIsOneWord(s: string, d: Delims)
    requires Plain(s, d)
    ensures Words(s, d) == [s]
  {
    hide Words;
    var front, c := s[..|s| - 1], s[|s| - 1];
    WordsSnoc(front, c, d);
    assert s == front + [c];
    if front == [] {
      DelimsHoldNoWord(front, d);
      assert [] + [[c]] == [s];
    } else {
      PlainIsOneWord(front, d);
      assert Extend([front], c) == [s];
    }
  }

  lemma {:induction false} DelimsHoldNoWord(s: string, d: Delims)
    requires forall i :: 0 <= i < |s| ==> s[i] in d
    ensures Words(s, d) == []
  {
    if s != [] {
      DelimsHoldNoWord(s[..|s| - 1], d);
    }
  }

  /** The words from i on, when only delimiters come before `start` and the next word ends at `end`. */
  lemma NextWord(s: string, i: nat, start: nat, end: nat, d: Delims)
    requires i <= start < end <= |s|
    requires forall k :: i <= k < start ==> s[k] in d
    requires forall k :: start <= k < end ==> s[k] !in d
    requires end < |s| ==> s[end] in d
    ensures Words(s[i..], d) == [s[start..end]] + Words(s[if end < |s| then end + 1 else end..], d)
  {
    hide Words;
    var next := if end < |s| then end + 1 else end;
    var skip, word, rest := s[i..start], s[start..end], s[next..];
    DelimsHoldNoWord(skip, d);
    PlainIsOneWord(word, d);
    if end < |s| {
      WordsSnoc(word, s[end], d);
      WordsConcat(skip, word + [s[end]], d);
      WordsConcat(skip + (word + [s[end]]), rest, d);
      assert s[i..] == skip + (word + [s[end]]) + rest;
    } else {
      WordsConcat(skip, word, d);
      assert s[i..] == skip + word;
      DelimsHoldNoWord(rest, d);
    }
  }

  /** strtok_r from position i: the next word and where to go on. */
  method Strtok(s: string, i: nat, d: Delims) returns (tok: Option<string>, next: nat)
    requires i <= |s|
    ensures i <= next <= |s| && (tok.Some? ==> i < next)
    ensures Words(s[i..], d) == if tok.Some? then [tok.value] + Words(s[next..], d) else []
  {
    hide Words;
    var start := i;
    while start < |s| && s[start] in d
      invariant i <= start <= |s|
      invariant forall k :: i <= k < start ==> s[k] in d
    {
      start := start + 1;
    }
    if start == |s| {
      DelimsHoldNoWord(s[i..], d);
      return None, start;
    }
    var end := start;
    while end < |s| && s[end] !in d
      invariant start <= end <= |s|
      invariant forall k :: start <= k < end ==> s[k] !in d
    {
      end := end + 1;
    }
    NextWord(s, i, start, end, d);
    tok := Some(s[start..end]);
    next := if end < |s| then end + 1 else end;
  }

  // ---------- rm_fespace ----------

  predicate IsSpace(c: char) { c in {' ', '\t', '\n', '\r', '\U{0B}', '\U{0C}'} }

  function SkipSpaces(s: string): string {
    if s != [] && IsSpace(s[0]) then SkipSpaces(s[1..]) else s
  }

  function DropBlanks(s: string): string {
    if s != [] && s[|s| - 1] == ' ' then DropBlanks(s[..|s| - 1]) else s
  }

  /** All white space gone in front, all blanks gone at the end. */
  function Trim(s: string): string { DropBlanks(SkipSpaces(s)) }

  /** `rm_fespace`. */
  method RmFespace(line: string) returns (r: string)
    ensures r == Trim(line)
  {
    r := line;
    while r != [] && IsSpace(r[0])
      invariant SkipSpaces(r) == SkipSpaces(line)
      decreases |r|
    {
      r := r[1..];
    }
    var count := |r| - 1;
    ghost var skipped := r;
    while count >= 0
      invariant -1 <= count == |r| - 1
      invariant DropBlanks(r) == DropBlanks(skipped)
    {
      if r[count] == ' ' {
        r := r[..count];
      } else {
        break;
      }
      count := count - 1;
    }
  }

  /** A text that begins and ends with something else comes out of its margins unchanged. */
  lemma {:induction false} TrimMargins(pre: string, s: string, post: string)
    requires s != [] && !IsSpace(s[0]) && s[|s| - 1] != ' '
    requires forall i :: 0 <= i < |pre| ==> IsSpace(pre[i])
    requires forall i :: 0 <= i < |post| ==> post[i] == ' '
    ensures Trim(pre + s + post) == s
    decreases |pre| + |post|
  {
    var t := pre + s + post;
    if pre != [] {
      assert t[1..] == pre[1..] + s + post;
      TrimMargins(pre[1..], s, post);
    } else if post != [] {
      assert t[..|t| - 1] == pre + s + post[..|post| - 1];
      TrimMargins(pre, s, post[..|post| - 1]);
      assert t[0] == s[0];
    } else {
      assert t == s;
    }
  }

  /** The same in characters: which ones are white space, and which may be left. */
  lemma MarginsGo(pre: string, s: string, post: string)
    requires s != "" && s[0] !in " \t\n\r\U{0B}\U{0C}" && s[|s| - 1] != ' '
    requires forall i :: 0 <= i < |pre| ==> pre[i] in " \t\n\r\U{0B}\U{0C}"
    requires forall i :: 0 <= i < |post| ==> post[i] == ' '
    ensures Trim(pre + s + post) == s
  {
    TrimMargins(pre, s, post);
  }

  // ---------- packets to lines ----------

  const CRLF: Delims := {'\r', '\n'}

  function Concat(packets: seq<string>): string {
    if packets == [] then [] else Concat(packets[..|packets| - 1]) + packets[|packets| - 1]
  }

  function TrimAll(w: seq<string>): seq<string> {
    if w == [] then [] else TrimAll(w[..|w| - 1]) + [Trim(w[|w| - 1])]
  }

  lemma {:induction false} TrimAllConcat(v: seq<string>, w: seq<string>)
    ensures TrimAll(v + w) == TrimAll(v) + TrimAll(w)
  {
    if w == [] {
      assert v + w == v;
    } else {
      TrimAllConcat(v, w[..|w| - 1]);
      assert (v + w)[..|v + w| - 1] == v + w[..|w| - 1];
    }
  }

  lemma TrimNone()
    ensures TrimAll([]) == []
  {
  }

  lemma TrimAllCons(x: string, w: seq<string>)
    ensures TrimAll([x] + w) == [Trim(x)] + TrimAll(w)
  {
    TrimAllConcat([x], w);
    assert [x][..0] == [];
  }

  /** The lines of a whole stream, cut at CR and LF and trimmed. */
  function Lines(stream: string): seq<string> { TrimAll(Words(stream, CRLF)) }

  /** The lines before the first `exit`. */
  function UpToExit(lines: seq<string>): seq<string> {
    if lines == [] || lines[0] == "exit" then [] else [lines[0]] + UpToExit(lines[1..])
  }

  lemma {:induction false} NoExitYet(a: seq<string>, b: seq<string>)
    requires "exit" !in a
    ensures UpToExit(a + b) == a + UpToExit(b)
  {
    if a == [] {
      assert a + b == b;
    } else {
      assert (a + b)[1..] == a[1..] + b;
      assert a == [a[0]] + a[1..];
      NoExitYet(a[1..], b);
    }
  }

  lemma AllBeforeExit(a: seq<string>)
    requires "exit" !in a
    ensures UpToExit(a) == a
  {
    NoExitYet(a, []);
    assert a + [] == a;
  }

  lemma ExitFirst(rest: seq<string>)
    ensures UpToExit(["exit"] + rest) == []
  {
  }

  lemma LinesConcat(a: string, b: string)
    requires Boundary(a, CRLF)
    ensures Lines(a + b) == Lines(a) + Lines(b)
  {
    WordsConcat(a, b, CRLF);
    TrimAllConcat(Words(a, CRLF), Words(b, CRLF));
  }

  /** One more line of a stream, ended by a newline, a carriage return or both: it is
      added without its margins, unless it is empty. */
  lemma LineByLine(stream: string, text: string, end: string)
    requires stream == "" || stream[|stream| - 1] == '\n' || stream[|stream| - 1] == '\r'
    requires forall c :: c in text ==> c != '\n' && c != '\r'
    requires end == "\n" || end == "\r\n" || end == "\r"
    ensures Lines(stream + (text + end)) == Lines(stream) + if text == "" then [] else [Trim(text)]
  {
    hide Words, TrimAll, Trim;
    LinesConcat(stream, text + end);
    TrimNone();
    TrimAllCons(text, []);
    assert [text] + [] == [text] && [Trim(text)] + [] == [Trim(text)];
    if text == "" {
      DelimsHoldNoWord(text + end, CRLF);
    } else {
      forall i | 0 <= i < |text| ensures text[i] !in CRLF {
        assert text[i] in text;
      }
      PlainIsOneWord(text, CRLF);
      WordsSnoc(text, end[0], CRLF);
      WordsSnoc(text + [end[0]], '\n', CRLF);
      assert |end| == 1 ==> text + end == text + [end[0]];
      assert |end| == 2 ==> text + end == text + [end[0]] + ['\n'];
    }
  }

  lemma ConcatSnoc(packets: seq<string>, n: nat)
    requires n < |packets|
    ensures Concat(packets[..n + 1]) == Concat(packets[..n]) + packets[n]
  {
    assert packets[..n + 1][..n] == packets[..n];
  }

  predicate Closed(s: string) { s != [] && s[|s| - 1] == '\n' }

  /** Packets are joined until one ends with a newline: the batches so far, and what
      is not closed yet. */
  function Group(packets: seq<string>): (seq<string>, string) {
    if packets == [] then ([], "")
    else
      var (batches, open) := Group(packets[..|packets| - 1]);
      var buffer := open + packets[|packets| - 1];
      if Closed(buffer) then (batches + [buffer], "") else (batches, buffer)
  }

  function Batches(packets: seq<string>): seq<string> { Group(packets).0 }

  lemma GroupSnoc(packets: seq<string>, n: nat)
    requires n < |packets|
    ensures var (batches, open) := Group(packets[..n]);
            var buffer := open + packets[n];
            Group(packets[..n + 1]) == if Closed(buffer) then (batches + [buffer], "") else (batches, buffer)
  {
    assert packets[..n + 1][..n] == packets[..n];
  }

  function Flat(w: seq<seq<string>>): seq<string> {
    if w == [] then [] else Flat(w[..|w| - 1]) + w[|w| - 1]
  }

  /** What is dispatched of each batch, until a batch with `exit`, and whether there was one. */
  ghost predicate Dispatched(batches: seq<string>, lines: seq<seq<string>>, exited: bool) {
    && |lines| <= |batches|
    && (forall b :: 0 <= b < |lines| ==> lines[b] == UpToExit(Lines(batches[b])))
    && (forall b :: 0 <= b < |lines| ==> ("exit" in Lines(batches[b]) <==> exited && b == |lines| - 1))
    && (exited ==> lines != []) && (!exited ==> |lines| == |batches|)
  }

  lemma DispatchedMore(batches: seq<string>, lines: seq<seq<string>>, buffer: string, more: seq<string>, exited: bool)
    requires Dispatched(batches, lines, false)
    requires more == UpToExit(Lines(buffer)) && (exited <==> "exit" in Lines(buffer))
    ensures Dispatched(batches + [buffer], lines + [more], exited)
    ensures Flat(lines + [more]) == Flat(lines) + more
  {
    hide UpToExit, Lines;
    assert (lines + [more])[..|lines|] == lines;
  }

  lemma {:induction false} DispatchedAnyway(batches: seq<string>, all: seq<string>, lines: seq<seq<string>>)
    requires Dispatched(batches, lines, true) && batches <= all
    ensures Dispatched(all, lines, true)
  {
  }

  lemma {:induction false} GroupGrows(packets: seq<string>, n: nat)
    requires n <= |packets|
    ensures Group(packets[..n]).0 <= Batches(packets)
    decreases |packets| - n
  {
    if n == |packets| {
      assert packets[..n] == packets;
    } else {
      GroupSnoc(packets, n);
      GroupGrows(packets, n + 1);
    }
  }

  /** The loop of `recv_cli_cmd` on a stream that arrives in any nonempty pieces and
      ends with a newline: which lines are dispatched, and their order, depends on
      the stream alone; which of them come in one batch depends on its pieces. */
  method Receive(packets: seq<string>) returns (lines: seq<seq<string>>, exited: bool)
    requires forall n :: 0 <= n < |packets| ==> packets[n] != []
    requires packets != [] ==> packets[|packets| - 1][|packets[|packets| - 1]| - 1] == '\n'
    ensures Flat(lines) == UpToExit(Lines(Concat(packets)))
    ensures Dispatched(Batches(packets), lines, exited)
  {
    hide Lines, UpToExit, Words, Dispatched, Group;
    lines, exited := [], false;
    var n := 0;
    ghost var done, batches := [], [];
    NothingReceived(packets);
    while n < |packets|
      invariant n <= |packets| && done == Concat(packets[..n]) && Boundary(done, CRLF)
      invariant Group(packets[..n]) == (batches, "") && Dispatched(batches, lines, false)
      invariant Flat(lines) == Lines(done) && "exit" !in Flat(lines) && !exited
    {
      var buffer := packets[n];
      ConcatSnoc(packets, n);
      GroupSnoc(packets, n);
      assert "" + buffer == buffer;
      n := n + 1;
      while buffer[|buffer| - 1] != '\n'
        invariant n <= |packets| && buffer != [] && Concat(packets[..n]) == done + buffer
        invariant Group(packets[..n]) == if Closed(buffer) then (batches + [buffer], "") else (batches, buffer)
        invariant buffer[|buffer| - 1] == packets[n - 1][|packets[n - 1]| - 1]
        decreases |packets| - n
      {
        ConcatSnoc(packets, n);
        GroupSnoc(packets, n);
        buffer := buffer + packets[n];
        n := n + 1;
      }
      ghost var before := Flat(lines);
      LinesConcat(done, buffer);
      var more;
      exited, more := Dispatch(buffer, []);
      assert [] + UpToExit(Lines(buffer)) == UpToExit(Lines(buffer));
      assert [] + Lines(buffer) == Lines(buffer);
      DispatchedMore(batches, lines, buffer, more, exited);
      lines, batches := lines + [more], batches + [buffer];
      if exited {
        StreamSplits(packets, n, done, buffer, before);
        GroupGrows(packets, n);
        DispatchedAnyway(batches, Batches(packets), lines);
        return;
      }
      done := done + buffer;
    }
    assert packets[..n] == packets;
    AllBeforeExit(Flat(lines));
  }

  lemma NothingReceived(packets: seq<string>)
    ensures Group(packets[..0]) == ([], "") && Dispatched([], [], false)
    ensures Lines([]) == [] && Concat(packets[..0]) == []
  {
  }

  lemma StreamSplits(packets: seq<string>, n: nat, done: string, buffer: string, before: seq<string>)
    requires n <= |packets| && Concat(packets[..n]) == done + buffer && buffer != [] && buffer[|buffer| - 1] == '\n'
    requires Boundary(done, CRLF) && before == Lines(done) && "exit" !in before
    requires "exit" in Lines(buffer)
    ensures UpToExit(Lines(Concat(packets))) == before + UpToExit(Lines(buffer))
  {
    hide Words, TrimAll, Lines, UpToExit, Concat;
    var rest := Rest(packets, n);
    LinesConcat(done, buffer);
    LinesConcat(done + buffer, rest);
    NoExitYet(before, Lines(buffer) + Lines(rest));
    assert before + Lines(buffer) + Lines(rest) == before + (Lines(buffer) + Lines(rest));
    ExitHidesRest(Lines(buffer), Lines(rest));
  }

  lemma {:induction false} ExitHidesRest(a: seq<string>, b: seq<string>)
    requires "exit" in a
    ensures UpToExit(a + b) == UpToExit(a)
  {
    assert (a + b)[0] == a[0] && (a + b)[1..] == a[1..] + b;
    if a[0] != "exit" {
      ExitHidesRest(a[1..], b);
    }
  }

  lemma {:induction false} Rest(packets: seq<string>, n: nat) returns (rest: string)
    requires n <= |packets|
    ensures Concat(packets) == Concat(packets[..n]) + rest
    decreases |packets| - n
  {
    if n == |packets| {
      rest := [];
      assert packets[..n] == packets;
    } else {
      var r := Rest(packets, n + 1);
      ConcatSnoc(packets, n);
      rest := packets[n] + r;
    }
  }

  /** One batch: every line of it in turn, until `exit`. */
  method Dispatch(buffer: string, before: seq<string>) returns (exited: bool, lines: seq<string>)
    requires "exit" !in before
    ensures exited <==> "exit" in Lines(buffer)
    ensures lines == before + UpToExit(Lines(buffer))
    ensures !exited ==> lines == before + Lines(buffer) && "exit" !in lines
  {
    hide Words, UpToExit, TrimAll, Trim;
    TrimNone();
    lines := before;
    var tok, pos;
    tok, pos := Strtok(buffer, 0, CRLF);
    assert buffer[0..] == buffer;
    if tok.Some? {
      TrimAllCons(tok.value, Words(buffer[pos..], CRLF));
    }
    ghost var sofar: seq<string> := [];
    ghost var left := Lines(buffer);
    while tok.Some?
      invariant pos <= |buffer| && "exit" !in sofar && lines == before + sofar
      invariant Lines(buffer) == sofar + left
      invariant if tok.Some? then left == [Trim(tok.value)] + TrimAll(Words(buffer[pos..], CRLF)) else left == []
      decreases if tok.Some? then |buffer| - pos + 1 else 0
    {
      var line := RmFespace(tok.value);
      ghost var rest := TrimAll(Words(buffer[pos..], CRLF));
      if line == "exit" {
        ExitHere(sofar, rest);
        return true, lines;
      }
      NextLine(before, sofar, line, rest);
      lines := lines + [line];
      sofar := sofar + [line];
      left := rest;
      tok, pos := Strtok(buffer, pos, CRLF);
      if tok.Some? {
        TrimAllCons(tok.value, Words(buffer[pos..], CRLF));
      }
    }
    exited := false;
    assert sofar + [] == sofar;
    AllBeforeExit(sofar);
  }

  lemma NextLine(before: seq<string>, sofar: seq<string>, line: string, rest: seq<string>)
    requires line != "exit" && "exit" !in sofar
    ensures sofar + ([line] + rest) == (sofar + [line]) + rest
    ensures before + sofar + [line] == before + (sofar + [line])
    ensures "exit" !in sofar + [line]
  {
  }

  lemma ExitHere(sofar: seq<string>, rest: seq<string>)
    requires "exit" !in sofar
    ensures UpToExit(sofar + (["exit"] + rest)) == sofar
    ensures "exit" in sofar + (["exit"] + rest)
  {
    NoExitYet(sofar, ["exit"] + rest);
    ExitFirst(rest);
    assert (["exit"] + rest)[0] == "exit";
  }
}
