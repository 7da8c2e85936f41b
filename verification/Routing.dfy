/**
 What the numbered pipes of the shell are for, with no descriptors and no list
 of lines: first a post office that keeps one parcel per later line (`Step`),
 then the relation "line j writes to line j + N" on a whole session
 (`Routed`), and the lemmas that make the two agree.
 */
module Routing {
  import opened Common

  /** What a command finds on its standard input. */
  datatype Input = Terminal | Piped(data: Bytes)

  /** One write of a command, to its standard output or its standard error. */
  datatype Chunk = Out(data: Bytes) | Err(data: Bytes)

  /** All a command does: its writes in order, and whether it exits with EXIT_FAILURE. */
  datatype Outcome = Outcome(output: seq<Chunk>, failed: bool)

  type Command = Input -> Outcome

  datatype Sink = ToClient | ToFile(name: string) | ToLine(ahead: pos, withErr: bool)

  /** A line the shell answers itself (`setenv`, `printenv`), or a pipeline to execute. */
  datatype Line = Builtin(reply: Bytes) | Run(cmds: seq<Command>, sink: Sink)

  /** The three programs that share the engine: Project1, Project2/select and Project2/shm. */
  datatype Variant = Ras | Select | Shm

  function Outs(chunks: seq<Chunk>): Bytes {
    if chunks == [] then []
    else (if chunks[0].Out? then chunks[0].data else []) + Outs(chunks[1..])
  }

  function Errs(chunks: seq<Chunk>): Bytes {
    if chunks == [] then []
    else (if chunks[0].Err? then chunks[0].data else []) + Errs(chunks[1..])
  }

  function All(chunks: seq<Chunk>): Bytes {
    if chunks == [] then [] else chunks[0].data + All(chunks[1..])
  }

  /** A whole pipeline: the inputs handed to its commands, what the client saw of
      the commands before the last, and the writes of the last (None: given up earlier). */
  datatype Flow = Flow(log: seq<Input>, client: Bytes, last: Option<seq<Chunk>>)

  function Pipeline(cmds: seq<Command>, input: Input, stops: bool): Flow
    requires cmds != []
  {
    var o := cmds[0](input);
    if |cmds| == 1 then
      Flow([input], [], Some(o.output))
    else if stops && o.failed then
      Flow([input], Errs(o.output), None)
    else
      var rest := Pipeline(cmds[1..], Piped(Outs(o.output)), stops);
      Flow([input] + rest.log, Errs(o.output) + rest.client, rest.last)
  }

  // ---------- the post office ----------

  /** After `line` lines: the bytes waiting for each later line, what the client
      and the files hold, the inputs handed out so far, and how many read ends and
      write ends of pipes past lines have left open for good. */
  datatype Office = Office(line: nat, waiting: map<nat, Bytes>, client: Bytes,
                           files: map<string, Bytes>, log: seq<Input>, lost: nat, wasted: nat)

  function AsInput(mail: Option<Bytes>): Input {
    match mail
    case None => Terminal
    case Some(b) => Piped(b)
  }

  function Lookup(waiting: map<nat, Bytes>, k: nat): Option<Bytes> {
    if k in waiting then Some(waiting[k]) else None
  }

  function Post(waiting: map<nat, Bytes>, k: nat, b: Bytes): map<nat, Bytes> {
    waiting[k := Lookup(waiting, k).GetOr([]) + b]
  }

  function Stops(v: Variant): bool { !v.Ras? }

  predicate Executes(l: Line) { l.Run? && l.cmds != [] }

  /** The pipeline of an executed line, given the mail that waited for the line. */
  function FlowOf(v: Variant, l: Line, mail: Option<Bytes>): Flow
    requires Executes(l)
  {
    Pipeline(l.cmds, AsInput(mail), Stops(v))
  }

  /** What the last command writes for the line its sink names. */
  function Parcel(last: Option<seq<Chunk>>, sink: Sink): Option<Bytes> {
    if last.None? || !sink.ToLine? then None
    else Some(if sink.withErr then All(last.value) else Outs(last.value))
  }

  /** What the last command writes to the client. */
  function Shown(last: Option<seq<Chunk>>, sink: Sink): Bytes {
    match last
    case None => []
    case Some(chunks) =>
      if sink.ToClient? then All(chunks)
      else if sink.ToLine? && sink.withErr then []
      else Errs(chunks)
  }

  function Filed(files: map<string, Bytes>, last: Option<seq<Chunk>>, sink: Sink): map<string, Bytes> {
    if last.Some? && sink.ToFile? then files[sink.name := Outs(last.value)] else files
  }

  /** Read ends an executed line leaves open for good. */
  function Left(v: Variant, piped: bool, last: Option<seq<Chunk>>): nat {
    (if piped && !v.Shm? then 1 else 0) + (if last.None? then 1 else 0)
  }

  /** One line of the session. */
  function Step(v: Variant, o: Office, l: Line): Office {
    var k := o.line + 1;
    var mail := Lookup(o.waiting, k);
    if Executes(l) then
      var f := FlowOf(v, l, mail);
      var parcel := Parcel(f.last, l.sink);
      Office(k,
             if parcel.Some? then Post(o.waiting - {k}, k + l.sink.ahead, parcel.value) else o.waiting - {k},
             o.client + (f.client + Shown(f.last, l.sink)),
             Filed(o.files, f.last, l.sink),
             o.log + f.log,
             o.lost + Left(v, mail.Some?, f.last), o.wasted)
    else
      Office(k, o.waiting - {k}, o.client + if l.Builtin? then l.reply else [], o.files, o.log,
             o.lost + (if mail.Some? then 1 else 0), o.wasted + if mail.Some? then 1 else 0)
  }

  const Opening := Office(0, map[], [], map[], [], 0, 0)

  /** The office after the first `n` lines of a session. */
  function Session(v: Variant, lines: seq<Line>, n: nat): Office
    requires n <= |lines|
  {
    if n == 0 then Opening else Step(v, Session(v, lines, n - 1), lines[n - 1])
  }

  /** What a line puts on the client's screen. */
  function Reply(v: Variant, o: Office, l: Line): Bytes {
    if Executes(l) then
      var f := FlowOf(v, l, Lookup(o.waiting, o.line + 1));
      f.client + Shown(f.last, l.sink)
    else if l.Builtin? then l.reply
    else []
  }

  /** It is added to whatever the screen shows, and nothing else depends on the screen. */
  lemma StepReplies(v: Variant, o: Office, l: Line, client: Bytes)
    ensures Step(v, o.(client := client), l) == Step(v, o, l).(client := client + Reply(v, o, l))
    ensures Step(v, o, l).client == o.client + Reply(v, o, l)
  {
    hide Pipeline, Shown, Filed, Left, Parcel;
  }

  lemma {:induction false} SessionOfPrefix(v: Variant, lines: seq<Line>, l: Line, n: nat)
    requires n <= |lines|
    ensures Session(v, lines + [l], n) == Session(v, lines, n)
  {
    if n != 0 {
      SessionOfPrefix(v, lines, l, n - 1);
      assert (lines + [l])[n - 1] == lines[n - 1];
    }
  }

  lemma SessionGrows(v: Variant, lines: seq<Line>, l: Line)
    ensures Session(v, lines + [l], |lines| + 1) == Step(v, Session(v, lines, |lines|), l)
  {
    SessionOfPrefix(v, lines, l, |lines|);
    assert (lines + [l])[|lines|] == l;
  }

  /** The input pipe line n + 1 finds when it starts. */
  function MailFor(v: Variant, lines: seq<Line>, n: nat): Option<Bytes>
    requires n < |lines|
  {
    Lookup(Session(v, lines, n).waiting, n + 1)
  }

  // ---------- the routing relation ----------
  // Line numbers count from 1; mails[j - 1] is the input pipe of line j.

  /** Line j is a pipeline that names line k as the reader of its output. */
  predicate Addresses(lines: seq<Line>, j: nat, k: nat)
    requires 1 <= j <= |lines|
  {
    var l := lines[j - 1];
    Executes(l) && l.sink.ToLine? && j + l.sink.ahead == k
  }

  /** What line `l` writes for another line: nothing if its last command was never reached. */
  function Sent(v: Variant, l: Line, mail: Option<Bytes>): Option<Bytes> {
    if Executes(l) then Parcel(FlowOf(v, l, mail).last, l.sink) else None
  }

  /** What lines 1..upto sent to line k, in line order. */
  function Gathered(v: Variant, lines: seq<Line>, mails: seq<Option<Bytes>>, k: nat, upto: nat): Option<Bytes>
    requires upto <= |lines| == |mails|
  {
    if upto == 0 then None
    else
      var before := Gathered(v, lines, mails, k, upto - 1);
      if Addresses(lines, upto, k) && Sent(v, lines[upto - 1], mails[upto - 1]).Some?
      then Some(before.GetOr([]) + Sent(v, lines[upto - 1], mails[upto - 1]).value)
      else before
  }

  /** The input of every line is what exactly the earlier lines that name it sent. */
  ghost predicate Routed(v: Variant, lines: seq<Line>, mails: seq<Option<Bytes>>) {
    && |mails| == |lines|
    && forall n :: 0 <= n < |lines| ==> mails[n] == Gathered(v, lines, mails, n + 1, n)
  }

  /** A line has no input pipe exactly when no earlier line reached its last
      command and named it. */
  lemma {:induction false} PipeIffSender(v: Variant, lines: seq<Line>, mails: seq<Option<Bytes>>, k: nat, upto: nat)
    requires upto <= |lines| == |mails|
    ensures Gathered(v, lines, mails, k, upto).Some? <==>
            exists j :: 1 <= j <= upto && Addresses(lines, j, k) && Sent(v, lines[j - 1], mails[j - 1]).Some?
  {
    if upto != 0 {
      PipeIffSender(v, lines, mails, k, upto - 1);
      assert Addresses(lines, upto, k) || !Addresses(lines, upto, k);
    }
  }

  lemma {:induction false} SessionLine(v: Variant, lines: seq<Line>, n: nat)
    requires n <= |lines|
    ensures Session(v, lines, n).line == n
  {
    if n != 0 {
      SessionLine(v, lines, n - 1);
    }
  }

  /** One more line keeps the office and the relation in step. */
  lemma StepGathers(v: Variant, lines: seq<Line>, mails: seq<Option<Bytes>>, n: nat, k: nat, o: Office)
    requires n < |lines| == |mails| && n + 1 < k
    requires o.line == n && mails[n] == Lookup(o.waiting, n + 1)
    requires Lookup(o.waiting, k) == Gathered(v, lines, mails, k, n)
    ensures Lookup(Step(v, o, lines[n]).waiting, k) == Gathered(v, lines, mails, k, n + 1)
  {
    hide Pipeline, FlowOf, Shown, Filed, Left;
  }

  /** The office holds for each later line exactly what the relation says. */
  lemma {:induction false} OfficeHoldsGathered(v: Variant, lines: seq<Line>, mails: seq<Option<Bytes>>, n: nat, k: nat)
    requires n <= |lines| == |mails| && n < k
    requires forall i :: 0 <= i < n ==> mails[i] == MailFor(v, lines, i)
    ensures Lookup(Session(v, lines, n).waiting, k) == Gathered(v, lines, mails, k, n)
  {
    hide Step, Pipeline, FlowOf, Sent;
    if n != 0 {
      OfficeHoldsGathered(v, lines, mails, n - 1, k);
      SessionLine(v, lines, n - 1);
      StepGathers(v, lines, mails, n - 1, k, Session(v, lines, n - 1));
    }
  }

  ghost function Mails(v: Variant, lines: seq<Line>): (mails: seq<Option<Bytes>>)
    ensures |mails| == |lines|
    ensures forall i :: 0 <= i < |lines| ==> mails[i] == MailFor(v, lines, i)
  {
    seq(|lines|, i requires 0 <= i < |lines| => MailFor(v, lines, i))
  }

  /** Routing, first half: the inputs the shell hands out satisfy the relation. */
  lemma MailsAreRouted(v: Variant, lines: seq<Line>)
    ensures Routed(v, lines, Mails(v, lines))
  {
    hide Step, Pipeline, FlowOf, Sent, Gathered;
    forall n | 0 <= n < |lines|
      ensures Mails(v, lines)[n] == Gathered(v, lines, Mails(v, lines), n + 1, n)
    {
      OfficeHoldsGathered(v, lines, Mails(v, lines), n, n + 1);
    }
  }

  /** Routing, second half: nothing else does. */
  lemma {:induction false} RoutingIsUnique(v: Variant, lines: seq<Line>, mails: seq<Option<Bytes>>, n: nat)
    requires Routed(v, lines, mails)
    requires n <= |lines|
    ensures forall i :: 0 <= i < n ==> mails[i] == MailFor(v, lines, i)
  {
    hide Step, Pipeline, FlowOf, Sent, Gathered;
    if n != 0 {
      RoutingIsUnique(v, lines, mails, n - 1);
      OfficeHoldsGathered(v, lines, mails, n - 1, n);
      assert mails[n - 1] == Gathered(v, lines, mails, n, n - 1);
    }
  }

  /** The inputs of a line's commands start with the line's mail and nothing else
      is handed out while it runs. */
  lemma LineLog(v: Variant, lines: seq<Line>, n: nat)
    requires n < |lines|
    ensures var before, after := Session(v, lines, n).log, Session(v, lines, n + 1).log;
            if Executes(lines[n])
            then |before| < |after| && after[..|before|] == before && after[|before|] == AsInput(MailFor(v, lines, n))
            else after == before
  {
    SessionLine(v, lines, n);
    if Executes(lines[n]) {
      FirstInput(lines[n].cmds, AsInput(MailFor(v, lines, n)), Stops(v));
    }
  }

  lemma FirstInput(cmds: seq<Command>, input: Input, stops: bool)
    requires cmds != []
    ensures Pipeline(cmds, input, stops).log != []
    ensures Pipeline(cmds, input, stops).log[0] == input
  {
  }

  /** Routing: an assignment of inputs to lines is the one the shell hands out if
      and only if every line gets the concatenation, in line order, of what
      exactly the earlier lines that name it sent. */
  lemma RoutingTheorem(v: Variant, lines: seq<Line>, mails: seq<Option<Bytes>>)
    ensures Routed(v, lines, mails) <==> mails == Mails(v, lines)
  {
    MailsAreRouted(v, lines);
    if Routed(v, lines, mails) {
      RoutingIsUnique(v, lines, mails, |lines|);
      assert mails == Mails(v, lines);
    }
  }

  // ---------- descriptors left behind ----------

  /** Line `l`, started with `mail`, is given up before its last command. */
  predicate GivenUp(v: Variant, l: Line, mail: Option<Bytes>) {
    Executes(l) && FlowOf(v, l, mail).last.None?
  }

  function CountGivenUp(v: Variant, lines: seq<Line>, mails: seq<Option<Bytes>>, n: nat): nat
    requires n <= |lines| == |mails|
  {
    if n == 0 then 0
    else CountGivenUp(v, lines, mails, n - 1) + if GivenUp(v, lines[n - 1], mails[n - 1]) then 1 else 0
  }

  /** Executed lines that found an input pipe. */
  function CountPiped(lines: seq<Line>, mails: seq<Option<Bytes>>, n: nat): nat
    requires n <= |lines| == |mails|
  {
    if n == 0 then 0
    else CountPiped(lines, mails, n - 1) + if Executes(lines[n - 1]) && mails[n - 1].Some? then 1 else 0
  }

  /** Lines that execute nothing although some line wrote to them. */
  function CountForgotten(lines: seq<Line>, mails: seq<Option<Bytes>>, n: nat): nat
    requires n <= |lines| == |mails|
  {
    if n == 0 then 0
    else CountForgotten(lines, mails, n - 1) + if !Executes(lines[n - 1]) && mails[n - 1].Some? then 1 else 0
  }

  /** What every session leaves open: one read end for each line given up half way;
      except in Project2/shm, one read end for each executed line that read a pipe;
      and both ends of each pipe to a line that executes nothing (which the
      written rules want closed). */
  lemma {:induction false} LostDescriptors(v: Variant, lines: seq<Line>, mails: seq<Option<Bytes>>, n: nat)
    requires Routed(v, lines, mails) && n <= |lines|
    ensures Session(v, lines, n).lost ==
            CountGivenUp(v, lines, mails, n) + (if v.Shm? then 0 else CountPiped(lines, mails, n))
            + CountForgotten(lines, mails, n)
    ensures Session(v, lines, n).wasted == CountForgotten(lines, mails, n)
  {
    hide Step, GivenUp, Gathered, Pipeline, FlowOf, Executes;
    if n != 0 {
      LostDescriptors(v, lines, mails, n - 1);
      SessionLine(v, lines, n - 1);
      MailAt(v, lines, mails, n - 1);
      StepLoses(v, Session(v, lines, n - 1), lines[n - 1], mails[n - 1]);
    }
  }

  /** `echo |1`, then `setenv`: one read end and one write end stay open for good. */
  lemma PipeToBuiltinStaysOpen(v: Variant, echo: Command)
    ensures var lines := [Run([echo], ToLine(1, false)), Builtin([])];
            Session(v, lines, 2).lost == 1 && Session(v, lines, 2).wasted == 1
  {
    var lines := [Run([echo], ToLine(1, false)), Builtin([])];
    assert FlowOf(v, lines[0], None).last == Some(echo(Terminal).output);
    var first := Session(v, lines, 1);
    assert Session(v, lines, 0) == Opening;
    assert first == Step(v, Opening, lines[0]);
    assert first.line == 1 && first.lost == 0 && first.wasted == 0 && 2 in first.waiting;
    assert Session(v, lines, 2) == Step(v, first, lines[1]);
  }

  lemma MailAt(v: Variant, lines: seq<Line>, mails: seq<Option<Bytes>>, n: nat)
    requires Routed(v, lines, mails) && n < |lines|
    ensures mails[n] == Lookup(Session(v, lines, n).waiting, n + 1)
  {
    RoutingIsUnique(v, lines, mails, n + 1);
    assert mails[n] == MailFor(v, lines, n);
  }

  lemma StepLoses(v: Variant, o: Office, l: Line, mail: Option<Bytes>)
    requires mail == Lookup(o.waiting, o.line + 1)
    ensures Step(v, o, l).lost == o.lost + (if GivenUp(v, l, mail) then 1 else 0)
                                         + (if Executes(l) && mail.Some? && !v.Shm? then 1 else 0)
                                         + (if !Executes(l) && mail.Some? then 1 else 0)
    ensures Step(v, o, l).wasted == o.wasted + if !Executes(l) && mail.Some? then 1 else 0
  {
  }

  /** Project1 never gives up a line: every command of every pipeline runs. */
  lemma {:induction false} RasReachesLast(cmds: seq<Command>, input: Input)
    requires cmds != []
    ensures Pipeline(cmds, input, false).last.Some?
    ensures |Pipeline(cmds, input, false).log| == |cmds|
  {
    if |cmds| > 1 {
      RasReachesLast(cmds[1..], Piped(Outs(cmds[0](input).output)));
    }
  }
}
