/**
 One client of Project1 from its packets to its screen (`recv_cli_cmd` with all
 it calls): the bytes it sends become lines, the lines commands with a sink, and
 the engine runs them.
 */
module Client {
  import opened Common
  import opened Routing
  import opened Text
  import opened FrontEnd
  import opened CommandLine
  import opened Engine

  /** The programs and the environment of the server. What a row of `argvs` runs,
      and what `printenv` answers, may depend on every line typed so far. */
  datatype Site = Site(exec: (seq<string>, Argv) -> Command, answer: seq<string> -> Bytes)

  function Exec(site: Site, typed: seq<string>, row: Argv): Command { site.exec(typed, row) }

  function Commands(site: Site, typed: seq<string>, rows: seq<Argv>): (cmds: seq<Command>)
    ensures |cmds| == |rows|
  {
    seq(|rows|, i requires 0 <= i < |rows| => Exec(site, typed, rows[i]))
  }

  lemma NumberIsPositive(line: string)
    ensures KindOf(line).ToLine? ==> KindOf(line).n >= 1
  {
    hide EndsInNumber, EndsInFile;
    if EndsInNumber(line, '!') {
      SuffixOnly(line, '!');
    } else if EndsInNumber(line, '|') {
      SuffixOnly(line, '|');
    }
  }

  /** The meaning of the last line typed. */
  function LineOf(site: Site, typed: seq<string>): Line
    requires typed != []
  {
    var line := typed[|typed| - 1];
    NumberIsPositive(line);
    match KindOf(line)
    case Setenv => Builtin([])
    case Printenv => Builtin(site.answer(typed))
    case ToFile(body, name) => Run(Commands(site, typed, Parsed(body)), Sink.ToFile(name))
    case ToLine(body, n, withErr) => Run(Commands(site, typed, Parsed(body)), Sink.ToLine(n, withErr))
    case Simple(body) => Run(Commands(site, typed, Parsed(body)), ToClient)
  }

  function LinesOf(site: Site, typed: seq<string>): (lines: seq<Line>)
    ensures |lines| == |typed|
  {
    seq(|typed|, i requires 0 <= i < |typed| => LineOf(site, typed[..i + 1]))
  }

  // ---------- what a typed line runs ----------

  /** Commands of one to fifteen words each, and not too many. */
  ghost predicate Printable(cmds: seq<seq<string>>) {
    cmds != [] && |cmds| <= 15001 && GoodLine(cmds) && forall i :: 0 <= i < |cmds| ==> |cmds[i]| <= 15
  }

  ghost predicate Builtinish(line: string) { StartsWith(line, "setenv") || StartsWith(line, "printenv") }

  /** The line prints `cmds` and nothing else. */
  ghost predicate Prints(line: string, cmds: seq<seq<string>>) {
    && Printable(cmds) && line == PrintLine(cmds)
    && !Builtinish(line) && !EndsInFile(line) && !EndsInNumber(line, '!') && !EndsInNumber(line, '|')
  }

  /** The line prints `cmds` and ends in `|n` or `!n`. */
  ghost predicate PrintsTo(line: string, cmds: seq<seq<string>>, gap: string, mark: char, n: nat) {
    && Printable(cmds) && Blank(gap) && n >= 1 && mark in "|!" && line == PrintLine(cmds) + gap + [mark] + Dec(n)
    && !Builtinish(line) && (mark == '!' ==> !OpenRedirection(PrintLine(cmds) + gap))
  }

  /** The line prints `cmds` and ends in `> name`. */
  ghost predicate PrintsFile(line: string, cmds: seq<seq<string>>, gap: string, margin: string, name: string) {
    && Printable(cmds) && Blank(gap) && Blank(margin) && line == PrintLine(cmds) + gap + ">" + (margin + name)
    && !Builtinish(line) && GoodWord(name) && forall c :: c in name ==> c !in "/\\>"
  }

  /** The commands of the line are those printed, in their order, with all their words. */
  ghost predicate Runs(site: Site, typed: seq<string>, cmds: seq<seq<string>>, sink: Sink, l: Line) {
    && l.Run? && l.sink == sink && |l.cmds| == |cmds|
    && forall i :: 0 <= i < |cmds| ==> l.cmds[i] == site.exec(typed, Argv(cmds[i], true))
  }

  /** What the last line typed means, for every way of printing a pipeline and for the builtins. */
  ghost predicate Understood(site: Site, typed: seq<string>, l: Line)
    requires typed != []
  {
    var line := typed[|typed| - 1];
    && (StartsWith(line, "setenv") ==> l == Builtin([]))
    && (StartsWith(line, "printenv") ==> l == Builtin(site.answer(typed)))
    && (forall cmds :: Prints(line, cmds) ==> Runs(site, typed, cmds, ToClient, l))
    && (forall cmds, gap, n: nat :: PrintsTo(line, cmds, gap, '|', n) && n >= 1 ==>
          Runs(site, typed, cmds, Sink.ToLine(n, false), l))
    && (forall cmds, gap, n: nat :: PrintsTo(line, cmds, gap, '!', n) && n >= 1 ==>
          Runs(site, typed, cmds, Sink.ToLine(n, true), l))
    && (forall cmds, gap, margin, name :: PrintsFile(line, cmds, gap, margin, name) ==>
          Runs(site, typed, cmds, Sink.ToFile(name), l))
  }

  lemma CommandsRun(site: Site, typed: seq<string>, cmds: seq<seq<string>>, gap: string, sink: Sink)
    requires Printable(cmds) && Blank(gap)
    ensures Runs(site, typed, cmds, sink, Run(Commands(site, typed, Parsed(PrintLine(cmds) + gap)), sink))
  {
    hide Parsed, PrintLine;
    PipelineRoundTrip(cmds, gap);
  }

  lemma UnderstandsPlain(site: Site, typed: seq<string>, cmds: seq<seq<string>>)
    requires typed != [] && Prints(typed[|typed| - 1], cmds)
    ensures Runs(site, typed, cmds, ToClient, LineOf(site, typed))
  {
    hide Parsed, PrintLine, EndsInFile, EndsInNumber, Runs, Commands;
    CommandsRun(site, typed, cmds, "", ToClient);
    assert PrintLine(cmds) + "" == PrintLine(cmds);
  }

  lemma UnderstandsNumber(site: Site, typed: seq<string>, cmds: seq<seq<string>>, gap: string, mark: char, n: nat)
    requires typed != [] && PrintsTo(typed[|typed| - 1], cmds, gap, mark, n) && n >= 1
    ensures Runs(site, typed, cmds, Sink.ToLine(n, mark == '!'), LineOf(site, typed))
  {
    hide Parsed, PrintLine, KindOf, Runs, Commands;
    var body := PrintLine(cmds) + gap;
    if mark == '|' {
      PipeSuffixKind(body, n);
      assert body + "|" + Dec(n) == typed[|typed| - 1];
    } else {
      BangSuffixKind(body, n);
      assert body + "!" + Dec(n) == typed[|typed| - 1];
    }
    CommandsRun(site, typed, cmds, gap, Sink.ToLine(n, mark == '!'));
  }

  lemma UnderstandsFile(site: Site, typed: seq<string>, cmds: seq<seq<string>>, gap: string, margin: string,
                        name: string)
    requires typed != [] && PrintsFile(typed[|typed| - 1], cmds, gap, margin, name)
    ensures Runs(site, typed, cmds, Sink.ToFile(name), LineOf(site, typed))
  {
    hide Parsed, PrintLine, KindOf, Runs, Commands, Trim;
    var body := PrintLine(cmds) + gap;
    FileKind(body, margin + name);
    TrimMargins(margin, name, "");
    assert margin + name + "" == margin + name;
    CommandsRun(site, typed, cmds, gap, Sink.ToFile(name));
  }

  lemma LineUnderstood(site: Site, typed: seq<string>)
    requires typed != []
    ensures Understood(site, typed, LineOf(site, typed))
  {
    hide Parsed, PrintLine, Prints, PrintsTo, PrintsFile, Runs, EndsInFile, EndsInNumber;
    var line := typed[|typed| - 1];
    KindTheorem(line);
    forall cmds | Prints(line, cmds) ensures Runs(site, typed, cmds, ToClient, LineOf(site, typed)) {
      UnderstandsPlain(site, typed, cmds);
    }
    forall cmds, gap, mark, n: nat | PrintsTo(line, cmds, gap, mark, n) && n >= 1
      ensures Runs(site, typed, cmds, Sink.ToLine(n, mark == '!'), LineOf(site, typed))
    {
      UnderstandsNumber(site, typed, cmds, gap, mark, n);
    }
    forall cmds, gap, margin, name | PrintsFile(line, cmds, gap, margin, name)
      ensures Runs(site, typed, cmds, Sink.ToFile(name), LineOf(site, typed))
    {
      UnderstandsFile(site, typed, cmds, gap, margin, name);
    }
  }

  /** The body of the loop over lines, up to the engine. */
  method Interpret(site: Site, typed: seq<string>) returns (l: Line)
    requires typed != []
    ensures l == LineOf(site, typed) && Understood(site, typed, l)
  {
    hide Parsed, KindOf, Understood;
    LineUnderstood(site, typed);
    var line := typed[|typed| - 1];
    var kind := Classify(line);
    NumberIsPositive(line);
    if kind.Setenv? || kind.Printenv? {
      return Builtin(if kind.Setenv? then [] else site.answer(typed));
    }
    var rows := ParseCmdSeq(kind.body);
    var cmds := Commands(site, typed, rows);
    if kind.ToFile? {
      l := Run(cmds, Sink.ToFile(kind.name));
    } else if kind.ToLine? {
      l := Run(cmds, Sink.ToLine(kind.n, kind.withErr));
    } else {
      l := Run(cmds, ToClient);
    }
  }

  // ---------- the screen ----------

  /** "% ", written before every read. */
  const PROMPT: Bytes := [37, 32]

  /** What the lines typed so far have put on the screen. */
  function Output(site: Site, typed: seq<string>): Bytes {
    Session(Ras, LinesOf(site, typed), |typed|).client
  }

  /** The screen after batches of lines: a prompt before each, then what its lines
      put there. */
  function Screen(site: Site, batches: seq<seq<string>>): Bytes {
    if batches == [] then []
    else
      var front := batches[..|batches| - 1];
      Screen(site, front) + PROMPT + Added(site, Flat(front), batches[|batches| - 1])
  }

  /** What `more` lines add to the output of those typed before. */
  function Added(site: Site, typed: seq<string>, more: seq<string>): Bytes {
    if more == [] then []
    else
      var front := typed + more[..|more| - 1];
      Added(site, typed, more[..|more| - 1])
      + Reply(Ras, Session(Ras, LinesOf(site, front), |front|), LineOf(site, front + [more[|more| - 1]]))
  }

  lemma LinesGrow(site: Site, typed: seq<string>, line: string)
    ensures LinesOf(site, typed + [line]) == LinesOf(site, typed) + [LineOf(site, typed + [line])]
  {
    var more := typed + [line];
    assert more[..|more|] == more;
    forall i | 0 <= i < |typed| ensures LinesOf(site, more)[i] == LinesOf(site, typed)[i] {
      assert more[..i + 1] == typed[..i + 1];
    }
  }

  lemma OutputGrows(site: Site, typed: seq<string>, line: string)
    ensures Session(Ras, LinesOf(site, typed + [line]), |typed| + 1) ==
            Step(Ras, Session(Ras, LinesOf(site, typed), |typed|), LineOf(site, typed + [line]))
  {
    hide LineOf, Session;
    LinesGrow(site, typed, line);
    SessionGrows(Ras, LinesOf(site, typed), LineOf(site, typed + [line]));
  }

  /** What is added is what the whole output gains. */
  lemma {:induction false} AddedIsGain(site: Site, typed: seq<string>, more: seq<string>)
    ensures Output(site, typed + more) == Output(site, typed) + Added(site, typed, more)
  {
    hide LineOf, Session, Step, Reply;
    if more == [] {
      assert typed + more == typed;
    } else {
      var front, line := typed + more[..|more| - 1], more[|more| - 1];
      AddedIsGain(site, typed, more[..|more| - 1]);
      OutputGrows(site, front, line);
      StepReplies(Ras, Session(Ras, LinesOf(site, front), |front|), LineOf(site, front + [line]), []);
      assert typed + more == front + [line];
    }
  }

  /** The screen without its prompts. */
  function WithoutPrompts(site: Site, batches: seq<seq<string>>): Bytes {
    if batches == [] then []
    else
      var front := batches[..|batches| - 1];
      WithoutPrompts(site, front) + Added(site, Flat(front), batches[|batches| - 1])
  }

  /** All that the way a stream is cut decides is where the prompts are: without
      them the screen is the output of the lines, and there is one for each batch. */
  lemma {:induction false} OnlyPromptsDiffer(site: Site, batches: seq<seq<string>>)
    ensures WithoutPrompts(site, batches) == Output(site, Flat(batches))
    ensures |Screen(site, batches)| == |Output(site, Flat(batches))| + 2 * |batches|
  {
    hide LineOf, Session, LinesOf;
    if batches == [] {
      NothingTyped(site);
    } else {
      var front, last := batches[..|batches| - 1], batches[|batches| - 1];
      OnlyPromptsDiffer(site, front);
      AddedIsGain(site, Flat(front), last);
    }
  }

  lemma NothingTyped(site: Site)
    ensures Output(site, []) == []
  {
  }

  lemma {:induction false} AddedSplits(site: Site, typed: seq<string>, a: seq<string>, b: seq<string>)
    ensures Added(site, typed, a + b) == Added(site, typed, a) + Added(site, typed + a, b)
  {
    hide LineOf, Session, LinesOf, Reply;
    if b == [] {
      assert a + b == a;
    } else {
      var front := b[..|b| - 1];
      AddedSplits(site, typed, a, front);
      assert (a + b)[..|a + b| - 1] == a + front;
      assert typed + (a + front) == typed + a + front;
    }
  }

  /** Lines that come in one read have one prompt before them; in two reads there
      is another one between them. */
  lemma CutShowsPrompt(site: Site, before: seq<seq<string>>, a: seq<string>, b: seq<string>)
    ensures var t := Flat(before);
            && Screen(site, before + [a + b]) ==
               Screen(site, before) + PROMPT + Added(site, t, a) + Added(site, t + a, b)
            && Screen(site, before + [a] + [b]) ==
               Screen(site, before) + PROMPT + Added(site, t, a) + PROMPT + Added(site, t + a, b)
  {
    hide Added;
    AddedSplits(site, Flat(before), a, b);
    assert (before + [a + b])[..|before|] == before && (before + [a])[..|before|] == before;
    assert (before + [a] + [b])[..|before| + 1] == before + [a];
  }

  // ---------- one client, from packets to screen ----------

  /** One line is interpreted and run. */
  method RunOne(site: Site, sh: Shell, typed: seq<string>, line: string, ghost shown: Bytes)
    requires sh.v == Ras && sh.Valid()
    requires sh.Abs() == Session(Ras, LinesOf(site, typed), |typed|).(client := shown)
    modifies sh`hand, sh`low, sh`pid, sh`spent, sh`wasted, sh.os, sh.list, sh.list.nodes
    ensures sh.Valid()
    ensures var l := LineOf(site, typed + [line]);
            sh.Abs() == Session(Ras, LinesOf(site, typed + [line]), |typed| + 1)
                        .(client := shown + Reply(Ras, Session(Ras, LinesOf(site, typed), |typed|), l))
    ensures forall i :: 0 <= i < |sh.list.nodes| ==> sh.list.nodes[i] in old(sh.list.nodes) || fresh(sh.list.nodes[i])
  {
    hide *;
    var l := Interpret(site, typed + [line]);
    sh.RunLine(l);
    OutputGrows(site, typed, line);
    StepReplies(Ras, Session(Ras, LinesOf(site, typed), |typed|), l, shown);
  }

  /** The lines of one batch. */
  method RunBatch(site: Site, sh: Shell, typed: seq<string>, more: seq<string>, ghost shown: Bytes)
    requires sh.v == Ras && sh.Valid()
    requires sh.Abs() == Session(Ras, LinesOf(site, typed), |typed|).(client := shown)
    modifies sh`hand, sh`low, sh`pid, sh`spent, sh`wasted, sh.os, sh.list, sh.list.nodes
    ensures sh.Valid()
    ensures sh.Abs() == Session(Ras, LinesOf(site, typed + more), |typed + more|)
                        .(client := shown + Added(site, typed, more))
    ensures forall i :: 0 <= i < |sh.list.nodes| ==> sh.list.nodes[i] in old(sh.list.nodes) || fresh(sh.list.nodes[i])
  {
    hide LineOf, Session, LinesOf, Reply, Shell.Valid, Shell.Abs;
    assert typed + more[..0] == typed && shown + [] == shown;
    for i := 0 to |more|
      invariant sh.Valid()
      invariant sh.Abs() == Session(Ras, LinesOf(site, typed + more[..i]), |typed + more[..i]|)
                            .(client := shown + Added(site, typed, more[..i]))
      invariant forall j :: 0 <= j < |sh.list.nodes| ==>
                  sh.list.nodes[j] in old(sh.list.nodes) || fresh(sh.list.nodes[j])
    {
      RunOne(site, sh, typed + more[..i], more[i], shown + Added(site, typed, more[..i]));
      assert typed + more[..i] + [more[i]] == typed + more[..i + 1] && more[..i + 1][..i] == more[..i];
    }
    assert more[..|more|] == more;
  }

  /** Whatever packets a newline-terminated stream arrives in: the files and the
      inputs of the commands are those the post office prescribes for the lines of
      the whole stream before the first `exit`; the screen is their output, with a
      prompt before each batch and one more if there was no `exit`. */
  method Serve(site: Site, clifd: int, packets: seq<string>)
    returns (client: Bytes, files: map<string, Bytes>, inputs: seq<Input>,
             ghost batches: seq<seq<string>>, exited: bool)
    requires clifd >= 3
    requires forall n :: 0 <= n < |packets| ==> packets[n] != []
    requires packets != [] ==> packets[|packets| - 1][|packets[|packets| - 1]| - 1] == '\n'
    ensures Dispatched(Batches(packets), batches, exited)
    ensures client == Screen(site, batches) + if exited then [] else PROMPT
    ensures var typed := UpToExit(Lines(Concat(packets)));
            var o := Session(Ras, LinesOf(site, typed), |typed|);
            && Flat(batches) == typed && files == o.files && inputs == o.log
            && WithoutPrompts(site, batches) == o.client
    ensures var typed := UpToExit(Lines(Concat(packets)));
            forall i :: 0 <= i < |typed| ==> Understood(site, typed[..i + 1], LinesOf(site, typed)[i])
  {
    hide LineOf, Concat, Lines, UpToExit, Session, LinesOf, Dispatched, Shell.Valid, Added, Understood;
    var received;
    received, exited := Receive(packets);
    batches := received;
    var sh := OnlyClient(Ras, clifd, 1);
    StartsEmpty(site);
    ghost var typed: seq<string> := [];
    for b := 0 to |received|
      invariant sh.v == Ras && sh.Valid() && typed == Flat(received[..b])
      invariant sh.Abs() == Session(Ras, LinesOf(site, typed), |typed|).(client := Screen(site, received[..b]))
      invariant fresh(sh) && fresh(sh.os) && fresh(sh.list)
      invariant forall j :: 0 <= j < |sh.list.nodes| ==> fresh(sh.list.nodes[j])
    {
      sh.Say(PROMPT);
      RunBatch(site, sh, Flat(received[..b]), received[b], Screen(site, received[..b]) + PROMPT);
      assert received[..b + 1][..b] == received[..b];
      typed := typed + received[b];
    }
    assert received[..|received|] == received;
    if !exited {
      sh.Say(PROMPT);
    }
    OnlyPromptsDiffer(site, received);
    AllUnderstood(site, UpToExit(Lines(Concat(packets))));
    client, files, inputs := sh.os.io.client, sh.os.io.files, sh.os.io.log;
  }

  lemma AllUnderstood(site: Site, typed: seq<string>)
    ensures forall i :: 0 <= i < |typed| ==> Understood(site, typed[..i + 1], LinesOf(site, typed)[i])
  {
    hide LineOf, Understood;
    forall i | 0 <= i < |typed| ensures Understood(site, typed[..i + 1], LinesOf(site, typed)[i]) {
      LineUnderstood(site, typed[..i + 1]);
    }
  }

  lemma StartsEmpty(site: Site)
    ensures Session(Ras, LinesOf(site, []), 0) == Opening
  {
  }
}
