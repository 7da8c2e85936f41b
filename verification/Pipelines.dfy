/**
 What running one line means for each of the three programs, command by command:
 what each command reads, how many of them run, and where the writes of the last
 one go.
 */
module Pipelines {
  import opened Common
  import opened Routing

  /** The standard input of command i of a line that found `mail`. */
  function InputOf(cmds: seq<Command>, mail: Option<Bytes>, i: nat): Input
    requires i < |cmds|
    decreases i, 0
  {
    if i > 0 then Piped(Outs(OutcomeOf(cmds, mail, i - 1).output))
    else if mail.Some? then Piped(mail.value)
    else Terminal
  }

  /** What command i does when it is reached. */
  function OutcomeOf(cmds: seq<Command>, mail: Option<Bytes>, i: nat): Outcome
    requires i < |cmds|
    decreases i, 1
  {
    cmds[i](InputOf(cmds, mail, i))
  }

  /** The errors of commands c..k-1, in order. */
  function ErrsOf(cmds: seq<Command>, mail: Option<Bytes>, c: nat, k: nat): Bytes
    requires c <= k <= |cmds|
    decreases k - c
  {
    if c == k then [] else Errs(OutcomeOf(cmds, mail, c).output) + ErrsOf(cmds, mail, c + 1, k)
  }

  /** The first k commands run, and no others. */
  ghost predicate Ran(v: Variant, cmds: seq<Command>, mail: Option<Bytes>, k: nat) {
    && 1 <= k <= |cmds|
    && match v
       case Ras => k == |cmds|
       case Select => UpToFailure(cmds, mail, k)
       case Shm => UpToFailure(cmds, mail, k)
  }

  /** Command k is the first to fail, or all run; how the last one ends does not matter. */
  ghost predicate UpToFailure(cmds: seq<Command>, mail: Option<Bytes>, k: nat)
    requires 1 <= k <= |cmds|
  {
    && (forall i :: 0 <= i < k - 1 ==> !OutcomeOf(cmds, mail, i).failed)
    && (k < |cmds| ==> OutcomeOf(cmds, mail, k - 1).failed)
  }

  /** What is put on the screen by a last command that wrote `o`. */
  function ScreenOf(o: seq<Chunk>, sink: Sink): Bytes {
    match sink
    case ToClient => All(o)
    case ToFile(_) => Errs(o)
    case ToLine(_, false) => Errs(o)
    case ToLine(_, true) => []
  }

  /** What k commands of line n + 1 leave of the office. */
  ghost predicate LineDone(cmds: seq<Command>, sink: Sink, mail: Option<Bytes>, k: nat, n: nat,
                           before: Office, after: Office)
    requires 1 <= k <= |cmds|
  {
    && |after.log| == |before.log| + k && after.log[..|before.log|] == before.log
    && (forall i :: 0 <= i < k ==> after.log[|before.log| + i] == InputOf(cmds, mail, i))
    && var rest := before.waiting - {n + 1};
       if k < |cmds| then
         after.client == before.client + ErrsOf(cmds, mail, 0, k)
         && after.files == before.files && after.waiting == rest
       else
         var o := OutcomeOf(cmds, mail, |cmds| - 1).output;
         && after.client == before.client + (ErrsOf(cmds, mail, 0, k - 1) + ScreenOf(o, sink))
         && after.files == (if sink.ToFile? then before.files[sink.name := Outs(o)] else before.files)
         && after.waiting == (if !sink.ToLine? then rest
                              else
                                var t := n + 1 + sink.ahead;
                                var sent := if sink.withErr then All(o) else Outs(o);
                                rest[t := if t in rest then rest[t] + sent else sent])
  }

  /** The commands from c on, when k in all run. */
  lemma {:induction false} FromCommand(v: Variant, cmds: seq<Command>, mail: Option<Bytes>, k: nat, c: nat)
    requires Ran(v, cmds, mail, k) && c < k
    ensures var f := Pipeline(cmds[c..], InputOf(cmds, mail, c), Stops(v));
            && |f.log| == k - c && (forall i :: c <= i < k ==> f.log[i - c] == InputOf(cmds, mail, i))
            && (k < |cmds| ==> f.last == None && f.client == ErrsOf(cmds, mail, c, k))
            && (k == |cmds| ==> f.last == Some(OutcomeOf(cmds, mail, k - 1).output)
                                && f.client == ErrsOf(cmds, mail, c, k - 1))
    decreases k - c
  {
    hide Outs, Errs;
    assert cmds[c..][0] == cmds[c];
    if c + 1 < k {
      FromCommand(v, cmds, mail, k, c + 1);
      assert cmds[c..][1..] == cmds[c + 1..];
    }
  }

  /** Some number of commands runs. */
  lemma {:induction false} SomeRan(v: Variant, cmds: seq<Command>, mail: Option<Bytes>) returns (k: nat)
    requires cmds != []
    ensures Ran(v, cmds, mail, k)
  {
    k := |cmds|;
    if v != Ras {
      k := 1;
      while k < |cmds| && !OutcomeOf(cmds, mail, k - 1).failed
        invariant 1 <= k <= |cmds|
        invariant forall i :: 0 <= i < k - 1 ==> !OutcomeOf(cmds, mail, i).failed
      {
        k := k + 1;
      }
    }
  }

  /** Every session of every program: command i of an executed line reads what the
      command before it wrote, the first one the line's mail. Project1 runs them all;
      the other two stop after the first that fails. Only a last command that is
      reached writes to the line's sink. */
  lemma LineRuns(v: Variant, lines: seq<Line>, n: nat, k: nat)
    requires n < |lines| && lines[n].Run? && lines[n].cmds != []
    requires Ran(v, lines[n].cmds, MailFor(v, lines, n), k)
    ensures LineDone(lines[n].cmds, lines[n].sink, MailFor(v, lines, n), k, n,
                     Session(v, lines, n), Session(v, lines, n + 1))
  {
    hide Pipeline, ErrsOf, OutcomeOf, InputOf, UpToFailure, LineDone, Step;
    var cmds, mail := lines[n].cmds, MailFor(v, lines, n);
    SessionLine(v, lines, n);
    WholeLine(v, cmds, mail, k);
    StepIsDone(v, Session(v, lines, n), lines[n], mail, k, n);
  }

  lemma WholeLine(v: Variant, cmds: seq<Command>, mail: Option<Bytes>, k: nat)
    requires Ran(v, cmds, mail, k)
    ensures var f := Pipeline(cmds, AsInput(mail), Stops(v));
            && |f.log| == k && (forall i :: 0 <= i < k ==> f.log[i] == InputOf(cmds, mail, i))
            && (k < |cmds| ==> f.last == None && f.client == ErrsOf(cmds, mail, 0, k))
            && (k == |cmds| ==> f.last == Some(OutcomeOf(cmds, mail, k - 1).output)
                                && f.client == ErrsOf(cmds, mail, 0, k - 1))
  {
    hide Pipeline, ErrsOf, OutcomeOf, UpToFailure, Stops;
    FromCommand(v, cmds, mail, k, 0);
    assert cmds[0..] == cmds;
  }

  lemma StepIsDone(v: Variant, o: Office, l: Line, mail: Option<Bytes>, k: nat, n: nat)
    requires l.Run? && l.cmds != [] && o.line == n && mail == Lookup(o.waiting, n + 1) && 1 <= k <= |l.cmds|
    requires var f := FlowOf(v, l, mail);
             && |f.log| == k && (forall i :: 0 <= i < k ==> f.log[i] == InputOf(l.cmds, mail, i))
             && (k < |l.cmds| ==> f.last == None && f.client == ErrsOf(l.cmds, mail, 0, k))
             && (k == |l.cmds| ==> f.last == Some(OutcomeOf(l.cmds, mail, k - 1).output)
                                   && f.client == ErrsOf(l.cmds, mail, 0, k - 1))
    ensures LineDone(l.cmds, l.sink, mail, k, n, o, Step(v, o, l))
  {
    hide FlowOf, ErrsOf, OutcomeOf, InputOf, Left, All, Outs, Errs;
    var f := FlowOf(v, l, mail);
    assert (o.log + f.log)[..|o.log|] == o.log;
    if k < |l.cmds| {
      assert f.client + [] == f.client;
    } else {
      assert Parcel(f.last, l.sink).Some? <==> l.sink.ToLine?;
      assert [] + All(f.last.value) == All(f.last.value) && [] + Outs(f.last.value) == Outs(f.last.value);
    }
  }

  /** Every other line: the shell's own answer is all that is seen of it, and what
      waited for it is gone unread. */
  lemma OtherLines(v: Variant, lines: seq<Line>, n: nat)
    requires n < |lines| && (lines[n].Builtin? || lines[n].cmds == [])
    ensures var before, after := Session(v, lines, n), Session(v, lines, n + 1);
            && after.client == before.client + (if lines[n].Builtin? then lines[n].reply else [])
            && after.waiting == before.waiting - {n + 1}
            && after.files == before.files && after.log == before.log
  {
    hide Pipeline;
    SessionLine(v, lines, n);
  }

  /** A line is given up exactly by select and shm, when a command before the last fails. */
  lemma GivenUpIff(v: Variant, l: Line, mail: Option<Bytes>)
    ensures GivenUp(v, l, mail) <==>
            && (v == Select || v == Shm) && l.Run?
            && exists i :: 0 <= i < |l.cmds| - 1 && OutcomeOf(l.cmds, mail, i).failed
  {
    if Executes(l) {
      var k := SomeRan(v, l.cmds, mail);
      WholeLine(v, l.cmds, mail, k);
      assert GivenUp(v, l, mail) <==> k < |l.cmds|;
      if k < |l.cmds| {
        assert OutcomeOf(l.cmds, mail, k - 1).failed;
        assert exists i :: 0 <= i < |l.cmds| - 1 && OutcomeOf(l.cmds, mail, i).failed;
      }
    }
  }

  /** What a line sends to a later one is what its last command wrote, unless it was given up. */
  lemma SentIs(v: Variant, l: Line, mail: Option<Bytes>)
    ensures Sent(v, l, mail) ==
            if !l.Run? || l.cmds == [] || !l.sink.ToLine? || GivenUp(v, l, mail) then None
            else
              var o := OutcomeOf(l.cmds, mail, |l.cmds| - 1).output;
              Some(if l.sink.withErr then All(o) else Outs(o))
  {
    if Executes(l) {
      var k := SomeRan(v, l.cmds, mail);
      WholeLine(v, l.cmds, mail, k);
    }
  }

  /** `f | c` where f fails: Project1 runs c, select and shm do not and leave the
      read end of the pipe between them open. */
  lemma FailingCommand(f: Command, c: Command)
    requires f(Terminal) == Outcome([], true)
    ensures var lines := [Run([f, c], ToClient)];
            && Session(Ras, lines, 1).log == [Terminal, Piped([])] && Session(Ras, lines, 1).lost == 0
            && Session(Select, lines, 1).log == [Terminal] && Session(Select, lines, 1).lost == 1
            && Session(Shm, lines, 1).log == [Terminal] && Session(Shm, lines, 1).lost == 1
  {
    var cmds := [f, c];
    var lines := [Run(cmds, ToClient)];
    assert cmds[1..] == [c] && Outs([]) == [];
    forall v: Variant ensures Session(v, lines, 1) == Step(v, Opening, lines[0]) {
      assert Session(v, lines, 0) == Opening;
    }
    assert Pipeline(cmds, Terminal, false).log == [Terminal, Piped([])];
    assert Pipeline(cmds, Terminal, true).log == [Terminal];
  }
}
