/**
 What one line means (Project1/src/netshell.c): its kind, the number or file name
 at its end, its commands and their words.
 */
module CommandLine {
  import opened Common
  import opened Text
  import opened FrontEnd

  // ---------- numbers at the end of a line ----------

  /** The index of the last character that is no digit, or -1. */
  function LastNonDigit(line: string): (k: int)
    ensures -1 <= k < |line| && (k >= 0 ==> !IsDigit(line[k]))
    ensures forall m :: k < m < |line| ==> IsDigit(line[m])
  {
    if line == [] then -1
    else if !IsDigit(line[|line| - 1]) then |line| - 1
    else LastNonDigit(line[..|line| - 1])
  }

  /** What stands before the last character that is no digit, and the number after it. */
  function SplitNumber(line: string): (string, nat)
    requires LastNonDigit(line) >= 0
  {
    var k := LastNonDigit(line);
    (line[..k], Atoi(line[k + 1..]))
  }

  /** `get_endnum`. */
  method GetEndnum(line: string) returns (body: string, n: nat)
    requires exists i :: 0 <= i < |line| && !IsDigit(line[i])
    ensures LastNonDigit(line) >= 0 && (body, n) == SplitNumber(line)
  {
    var count := |line| - 1;
    while count >= 0
      invariant -1 <= count < |line|
      invariant forall m :: count < m < |line| ==> IsDigit(line[m])
    {
      if !IsDigit(line[count]) {
        break;
      }
      count := count - 1;
    }
    NonDigitAt(line, count);
    body, n := line[..count], Atoi(line[count + 1..]);
  }

  lemma {:induction false} NonDigitAt(line: string, k: nat)
    requires k < |line| && !IsDigit(line[k]) && forall m :: k < m < |line| ==> IsDigit(line[m])
    ensures LastNonDigit(line) == k
  {
    if k < |line| - 1 {
      NonDigitAt(line[..|line| - 1], k);
    }
  }

  /** The pattern `c[1-9][0-9]*$`. */
  predicate EndsInNumber(line: string, c: char) {
    exists k :: 0 <= k < |line| && NumberAt(line, c, k)
  }

  predicate NumberAt(line: string, c: char, k: nat) {
    && k + 1 < |line| && line[k] == c && '1' <= line[k + 1] <= '9'
    && forall m :: k < m < |line| ==> IsDigit(line[m])
  }

  /** For every body and number, the suffix matches and is taken apart again, even
      when the body ends in digits. */
  lemma SuffixRoundTrip(body: string, c: char, n: nat)
    requires !IsDigit(c) && n >= 1
    ensures var line := body + [c] + Dec(n);
            && EndsInNumber(line, c)
            && LastNonDigit(line) == |body| && SplitNumber(line) == (body, n)
  {
    var line := body + [c] + Dec(n);
    DecCanonical(n);
    AtoiDec(n);
    NonDigitAt(line, |body|);
    assert line[..|body|] == body && line[|body| + 1..] == Dec(n);
    assert NumberAt(line, c, |body|);
  }

  /** Nothing else matches. */
  lemma SuffixOnly(line: string, c: char)
    requires !IsDigit(c) && EndsInNumber(line, c)
    ensures LastNonDigit(line) >= 0
    ensures var (body, n) := SplitNumber(line); n >= 1 && line == body + [c] + Dec(n)
  {
    var k :| 0 <= k < |line| && NumberAt(line, c, k);
    NonDigitAt(line, k);
    var digits := line[k + 1..];
    assert Canonical(digits);
    DecAtoi(digits);
    assert line == line[..k] + [c] + digits;
  }

  // ---------- the kind of a line ----------

  datatype Kind =
    | Setenv
    | Printenv
    | ToFile(body: string, name: string)
    | ToLine(body: string, n: nat, withErr: bool)
    | Simple(body: string)

  predicate StartsWith(line: string, p: string) { |p| <= |line| && line[..|p|] == p }

  predicate BarsFileName(c: char) { c in {'|', '/', '\\'} }

  /** The pattern `>[ ]*[^\\|/]+$`. */
  predicate EndsInFile(line: string) {
    exists k :: 0 <= k < |line| && FileAt(line, k)
  }

  predicate FileAt(line: string, k: nat) {
    k + 1 < |line| && line[k] == '>' && forall m :: k < m < |line| ==> !BarsFileName(line[m])
  }

  /** The index of the last `>`, where `get_filename` cuts. */
  function LastGt(line: string): (k: int)
    ensures -1 <= k < |line| && (k >= 0 ==> line[k] == '>')
    ensures forall m :: k < m < |line| ==> line[m] != '>'
  {
    if line == [] then -1 else if line[|line| - 1] == '>' then |line| - 1 else LastGt(line[..|line| - 1])
  }

  /** `get_filename`. */
  method GetFilename(line: string) returns (body: string, name: string)
    requires '>' in line
    ensures LastGt(line) >= 0 && body == line[..LastGt(line)] && name == line[LastGt(line) + 1..]
  {
    var count := |line| - 1;
    while count >= 0
      invariant -1 <= count < |line|
      invariant forall m :: count < m < |line| ==> line[m] != '>'
    {
      if line[count] == '>' {
        break;
      }
      count := count - 1;
    }
    GtAt(line, count);
    body, name := line[..count], line[count + 1..];
  }

  lemma {:induction false} GtAt(line: string, k: nat)
    requires k < |line| && line[k] == '>' && forall m :: k < m < |line| ==> line[m] != '>'
    ensures LastGt(line) == k
  {
    if k < |line| - 1 {
      GtAt(line[..|line| - 1], k);
    }
  }

  /** What `recv_cli_cmd` does with a line. */
  function KindOf(line: string): Kind {
    if StartsWith(line, "setenv") then Setenv
    else if StartsWith(line, "printenv") then Printenv
    else if EndsInFile(line) then
      var k := LastGt(line);
      if k < 0 then Simple(line) else ToFile(line[..k], Trim(line[k + 1..]))
    else if (EndsInNumber(line, '!') || EndsInNumber(line, '|')) && LastNonDigit(line) >= 0 then
      ToLine(SplitNumber(line).0, SplitNumber(line).1, EndsInNumber(line, '!'))
    else Simple(line)
  }

  /** Lines 174-219 of `recv_cli_cmd`. */
  method Classify(line: string) returns (kind: Kind)
    ensures kind == KindOf(line)
  {
    hide EndsInFile, FileAt, NumberAt, Trim;
    var isSetenv := StartsWith(line, "setenv");
    var isPrintenv := StartsWith(line, "printenv");
    if isSetenv || isPrintenv {
      return if isSetenv then Setenv else Printenv;
    }
    var isTofile := EndsInFile(line);
    if isTofile {
      FileHasGt(line);
      var body, name := GetFilename(line);
      name := RmFespace(name);
      return ToFile(body, name);
    }
    var pipeErr := EndsInNumber(line, '!');
    var pipeOut := EndsInNumber(line, '|');
    if !pipeErr && !pipeOut {
      return Simple(line);
    }
    SuffixOnly(line, if pipeErr then '!' else '|');
    var body, n := GetEndnum(line);
    kind := ToLine(body, n, pipeErr);
  }

  lemma FileHasGt(line: string)
    requires EndsInFile(line)
    ensures '>' in line && LastGt(line) >= 0
  {
    var k :| 0 <= k < |line| && FileAt(line, k);
    assert line[k] == '>';
  }

  /** `... |N` always writes to the line N lines ahead. */
  lemma PipeSuffixKind(body: string, n: nat)
    requires n >= 1
    ensures var line := body + "|" + Dec(n);
            !StartsWith(line, "setenv") && !StartsWith(line, "printenv") ==> KindOf(line) == ToLine(body, n, false)
  {
    var line := body + "|" + Dec(n);
    SuffixRoundTrip(body, '|', n);
    assert line[|body|] == '|';
    forall k: nat ensures !NumberAt(line, '!', k) && !FileAt(line, k) {
      assert k > |body| && k < |line| ==> IsDigit(line[k]);
    }
  }

  ghost predicate OpenAt(body: string, k: nat) {
    k < |body| && body[k] == '>' && forall m :: k < m < |body| ==> !BarsFileName(body[m])
  }

  /** A `>` in the body that no `|`, `/` or backslash follows. */
  ghost predicate OpenRedirection(body: string) {
    exists k :: OpenAt(body, k)
  }

  lemma FileAtBody(body: string, n: nat, k: nat)
    requires n >= 1
    ensures FileAt(body + "!" + Dec(n), k) <==> OpenAt(body, k)
    ensures OpenAt(body, k) ==> k < |body|
  {
    var line := body + "!" + Dec(n);
    if k < |body| {
      forall m | k < m < |body| ensures line[m] == body[m] {
      }
      forall m | |body| < m < |line| ensures IsDigit(line[m]) {
      }
    } else {
      assert k == |body| || k >= |line| || IsDigit(line[k]);
    }
  }

  /** `... !N` does so exactly when the body has no open redirection; otherwise
      `!N` becomes part of a file name. */
  lemma BangSuffixKind(body: string, n: nat)
    requires n >= 1
    requires var line := body + "!" + Dec(n); !StartsWith(line, "setenv") && !StartsWith(line, "printenv")
    ensures KindOf(body + "!" + Dec(n)) == ToLine(body, n, true) <==> !OpenRedirection(body)
  {
    hide FileAt, OpenAt, EndsInNumber, SplitNumber, LastNonDigit;
    var line := body + "!" + Dec(n);
    SuffixRoundTrip(body, '!', n);
    if OpenRedirection(body) {
      var k: nat :| OpenAt(body, k);
      FileAtBody(body, n, k);
      assert EndsInFile(line);
    } else {
      forall k: nat ensures !FileAt(line, k) {
        FileAtBody(body, n, k);
      }
    }
  }

  /** `... > name`: the name is what follows the last `>`, without its margins. */
  lemma FileKind(body: string, rest: string)
    requires rest != [] && forall c: char :: c in rest ==> c !in "|/\\>"
    ensures var line := body + ">" + rest;
            !StartsWith(line, "setenv") && !StartsWith(line, "printenv") ==> KindOf(line) == ToFile(body, Trim(rest))
  {
    var line := body + ">" + rest;
    assert line[|body|] == '>';
    forall m | |body| < m < |line| ensures line[m] in rest {
    }
    assert FileAt(line, |body|);
    GtAt(line, |body|);
    assert line[..|body|] == body && line[|body| + 1..] == rest;
  }

  /** What the kind of a line says about the line, for every line. */
  lemma KindTheorem(line: string)
    ensures KindOf(line).Setenv? <==> StartsWith(line, "setenv")
    ensures KindOf(line).Printenv? <==> StartsWith(line, "printenv")
    ensures KindOf(line).ToFile? <==>
            !StartsWith(line, "setenv") && !StartsWith(line, "printenv") && EndsInFile(line)
    ensures KindOf(line).ToFile? ==>
              exists rest :: line == KindOf(line).body + ">" + rest && '>' !in rest && KindOf(line).name == Trim(rest)
    ensures KindOf(line).ToLine? ==>
              var mark := if KindOf(line).withErr then "!" else "|";
              KindOf(line).n >= 1 && line == KindOf(line).body + mark + Dec(KindOf(line).n)
    ensures KindOf(line).Simple? ==> KindOf(line).body == line
  {
    hide KindOf;
    KindByFront(line);
    if KindOf(line).ToFile? {
      FileShape(line);
    } else if KindOf(line).ToLine? {
      NumberShape(line);
    }
  }

  lemma KindByFront(line: string)
    ensures KindOf(line).Setenv? <==> StartsWith(line, "setenv")
    ensures KindOf(line).Printenv? <==> StartsWith(line, "printenv")
    ensures KindOf(line).ToFile? <==>
            !StartsWith(line, "setenv") && !StartsWith(line, "printenv") && EndsInFile(line)
    ensures KindOf(line).Simple? ==> KindOf(line).body == line
  {
    hide Trim, SplitNumber, EndsInFile, EndsInNumber, FileAt;
    FileIsPattern(line);
    assert StartsWith(line, "setenv") ==> line[0] == 's';
    assert StartsWith(line, "printenv") ==> line[0] == 'p';
  }

  lemma FileShape(line: string)
    requires KindOf(line).ToFile?
    ensures exists rest :: line == KindOf(line).body + ">" + rest && '>' !in rest && KindOf(line).name == Trim(rest)
  {
    hide Trim, SplitNumber, EndsInFile, EndsInNumber;
    var rest := line[LastGt(line) + 1..];
    assert line == KindOf(line).body + ">" + rest && '>' !in rest;
  }

  lemma NumberShape(line: string)
    requires KindOf(line).ToLine?
    ensures var mark := if KindOf(line).withErr then "!" else "|";
            KindOf(line).n >= 1 && line == KindOf(line).body + mark + Dec(KindOf(line).n)
  {
    hide Trim, EndsInFile, SplitNumber;
    SuffixOnly(line, if EndsInNumber(line, '!') then '!' else '|');
  }

  /** The pattern for a redirection, in characters. */
  lemma FileIsPattern(line: string)
    ensures EndsInFile(line) <==>
            exists k :: 0 <= k < |line| - 1 && line[k] == '>' && forall m :: k < m < |line| ==> line[m] !in "|/\\"
    ensures EndsInFile(line) ==> LastGt(line) >= 0
  {
    if EndsInFile(line) {
      var k :| 0 <= k < |line| && FileAt(line, k);
      FileHasGt(line);
      assert forall m :: k < m < |line| ==> line[m] !in "|/\\";
    }
    if k :| 0 <= k < |line| - 1 && line[k] == '>' && forall m :: k < m < |line| ==> line[m] !in "|/\\" {
      assert forall m :: k < m < |line| ==> !BarsFileName(line[m]);
      assert FileAt(line, k);
    }
  }

  /** `cat >a!1` writes to a file named "a!1". */
  lemma BangIsSwallowed()
    ensures KindOf("cat >a!1") == ToFile("cat ", "a!1")
  {
    var line := "cat >a!1";
    assert FileAt(line, 4);
    GtAt(line, 4);
    assert line[..4] == "cat " && line[5..] == "a!1";
  }

  // ---------- commands and words ----------

  const MAX_ARG_COUNT := 15
  const MAX_CMD_COUNT := 15000
  const BLANKS: Delims := {' ', '\t', '\n', '\r'}
  const BAR: Delims := {'|'}

  /** One row of `argvs`: the words stored, and whether a NULL stands after them. */
  datatype Argv = Argv(words: seq<string>, terminated: bool)

  function First(s: seq<string>, n: nat): seq<string> { if |s| <= n then s else s[..n] }

  /** At most sixteen words fit, and only fifteen leave room for the NULL. */
  function ArgvOf(cmd: string): Argv {
    Argv(First(Words(cmd, BLANKS), MAX_ARG_COUNT + 1), |Words(cmd, BLANKS)| <= MAX_ARG_COUNT)
  }

  function ArgvAll(cmds: seq<string>): seq<Argv> {
    if cmds == [] then [] else ArgvAll(cmds[..|cmds| - 1]) + [ArgvOf(cmds[|cmds| - 1])]
  }

  /** The rows of `argvs` for a line. */
  function Parsed(line: string): seq<Argv> {
    ArgvAll(First(TrimAll(Words(line, BAR)), MAX_CMD_COUNT + 1))
  }

  /** `parse_cmd_seq`. */
  method ParseCmdSeq(str: string) returns (argvs: seq<Argv>)
    ensures argvs == Parsed(str)
  {
    var cmds := SplitCommands(str);
    argvs := [];
    var i := 0;
    while i < |cmds|
      invariant i <= |cmds| && argvs == ArgvAll(cmds[..i])
    {
      var row := SplitWords(cmds[i]);
      argvs := argvs + [row];
      assert cmds[..i + 1][..i] == cmds[..i];
      i := i + 1;
    }
    assert cmds[..i] == cmds;
  }

  /** The first loop: commands between bars, trimmed. */
  method SplitCommands(str: string) returns (cmds: seq<string>)
    ensures cmds == First(TrimAll(Words(str, BAR)), MAX_CMD_COUNT + 1)
  {
    hide Words, TrimAll, Trim;
    cmds := [];
    var tok, last := Strtok(str, 0, BAR);
    assert str[0..] == str;
    ghost var left := TrimAll(Words(str, BAR));
    TrimNone();
    if tok.Some? {
      TrimAllCons(tok.value, Words(str[last..], BAR));
    }
    while tok.Some? && |cmds| <= MAX_CMD_COUNT
      invariant last <= |str| && |cmds| <= MAX_CMD_COUNT + 1
      invariant TrimAll(Words(str, BAR)) == cmds + left
      invariant if tok.Some? then left == [Trim(tok.value)] + TrimAll(Words(str[last..], BAR)) else left == []
      decreases if tok.Some? then |str| - last + 1 else 0
    {
      var cmd := RmFespace(tok.value);
      left := TrimAll(Words(str[last..], BAR));
      MoveOne(cmds, cmd, left);
      cmds := cmds + [cmd];
      tok, last := Strtok(str, last, BAR);
      if tok.Some? {
        TrimAllCons(tok.value, Words(str[last..], BAR));
      }
    }
    FirstOf(cmds, left, MAX_CMD_COUNT + 1);
  }

  /** The inner loop: words, as many as fit. */
  method SplitWords(cmd: string) returns (row: Argv)
    ensures row == ArgvOf(cmd)
  {
    hide Words;
    var words := [];
    var tok, last := Strtok(cmd, 0, BLANKS);
    assert cmd[0..] == cmd;
    ghost var left := Words(cmd, BLANKS);
    while tok.Some? && |words| <= MAX_ARG_COUNT
      invariant last <= |cmd| && |words| <= MAX_ARG_COUNT + 1
      invariant Words(cmd, BLANKS) == words + left
      invariant if tok.Some? then left == [tok.value] + Words(cmd[last..], BLANKS) else left == []
      decreases if tok.Some? then |cmd| - last + 1 else 0
    {
      left := Words(cmd[last..], BLANKS);
      MoveOne(words, tok.value, left);
      words := words + [tok.value];
      tok, last := Strtok(cmd, last, BLANKS);
    }
    FirstOf(words, left, MAX_ARG_COUNT + 1);
    row := Argv(words, tok == None && |words| <= MAX_ARG_COUNT);
  }

  lemma MoveOne(done: seq<string>, x: string, rest: seq<string>)
    ensures done + ([x] + rest) == (done + [x]) + rest
  {
  }

  lemma FirstOf(done: seq<string>, left: seq<string>, n: nat)
    requires |done| <= n && (left == [] || |done| == n)
    ensures First(done + left, n) == done
  {
    assert left == [] ==> done + left == done;
  }

  // ---------- printing and parsing ----------

  function Join(w: seq<string>, sep: string): string {
    if w == [] then [] else if |w| == 1 then w[0] else Join(w[..|w| - 1], sep) + sep + w[|w| - 1]
  }

  predicate GoodWord(w: string) { w != [] && forall i :: 0 <= i < |w| ==> !IsSpace(w[i]) && w[i] != '|' }

  predicate GoodCommand(cmd: seq<string>) { cmd != [] && forall i :: 0 <= i < |cmd| ==> GoodWord(cmd[i]) }

  function PrintCommand(cmd: seq<string>): string { Join(cmd, " ") }

  function PrintAll(cmds: seq<seq<string>>): seq<string> {
    if cmds == [] then [] else PrintAll(cmds[..|cmds| - 1]) + [PrintCommand(cmds[|cmds| - 1])]
  }

  /** Words by blanks, commands by " | ". */
  function PrintLine(cmds: seq<seq<string>>): string {
    if cmds == [] then []
    else if |cmds| == 1 then PrintCommand(cmds[0])
    else PrintLine(cmds[..|cmds| - 1]) + " | " + PrintCommand(cmds[|cmds| - 1])
  }

  lemma {:induction false} JoinWords(w: seq<string>, c: char, d: Delims)
    requires c in d && forall i :: 0 <= i < |w| ==> Plain(w[i], d)
    ensures Words(Join(w, [c]), d) == w
  {
    hide Words;
    if w == [] {
      DelimsHoldNoWord("", d);
    } else if |w| == 1 {
      PlainIsOneWord(w[0], d);
      assert w == [w[0]];
    } else {
      var front, last := w[..|w| - 1], w[|w| - 1];
      JoinWords(front, c, d);
      WordsSnoc(Join(front, [c]), c, d);
      WordsConcat(Join(front, [c]) + [c], last, d);
      PlainIsOneWord(last, d);
      assert w == front + [last];
      assert Join(w, [c]) == Join(front, [c]) + [c] + last;
    }
  }

  /** A printed command starts and ends with a character of a word and has no bar. */
  lemma {:induction false} PrintedCommand(cmd: seq<string>)
    requires GoodCommand(cmd)
    ensures var p := PrintCommand(cmd);
            && p != [] && !IsSpace(p[0]) && !IsSpace(p[|p| - 1])
            && forall i :: 0 <= i < |p| ==> p[i] != '|'
  {
    if |cmd| > 1 {
      var front := cmd[..|cmd| - 1];
      PrintedCommand(front);
      assert GoodWord(cmd[|cmd| - 1]);
      var p, f := PrintCommand(cmd), PrintCommand(front);
      assert p == f + " " + cmd[|cmd| - 1];
      assert p[0] == f[0];
    } else {
      assert GoodWord(cmd[0]);
    }
  }

  lemma CommandWords(cmd: seq<string>)
    requires GoodCommand(cmd)
    ensures Words(PrintCommand(cmd), BLANKS) == cmd
  {
    forall i | 0 <= i < |cmd| ensures Plain(cmd[i], BLANKS) {
      assert GoodWord(cmd[i]);
    }
    JoinWords(cmd, ' ', BLANKS);
  }

  /** Words may stand apart by any of the four blanks. */
  lemma WordsByBlanks(cmd: seq<string>, c: char)
    requires c in " \t\n\r" && forall i :: 0 <= i < |cmd| ==> cmd[i] != ""
    requires forall i, k :: 0 <= i < |cmd| && 0 <= k < |cmd[i]| ==> cmd[i][k] !in " \t\n\r"
    ensures Words(Join(cmd, [c]), BLANKS) == cmd
  {
    JoinWords(cmd, c, BLANKS);
  }

  ghost predicate GoodLine(cmds: seq<seq<string>>) { forall i :: 0 <= i < |cmds| ==> GoodCommand(cmds[i]) }

  /** The pieces between the bars of a printed line, trimmed, are the printed commands. */
  lemma {:induction false} PrintedPieces(cmds: seq<seq<string>>)
    requires GoodLine(cmds) && cmds != []
    ensures var w := Words(PrintLine(cmds), BAR);
            && TrimAll(w) == PrintAll(cmds) && w != [] && !Boundary(PrintLine(cmds), BAR)
            && (w[|w| - 1] == PrintCommand(cmds[|cmds| - 1]) || w[|w| - 1] == " " + PrintCommand(cmds[|cmds| - 1]))
  {
    var last := PrintCommand(cmds[|cmds| - 1]);
    PrintedCommand(cmds[|cmds| - 1]);
    if |cmds| == 1 {
      PlainIsOneWord(last, BAR);
      TrimMargins("", last, "");
      assert "" + last + "" == last;
      assert TrimAll([last]) == [Trim(last)] by {
        TrimNone();
        assert [last][..0] == [];
      }
      assert PrintAll(cmds) == [last] by {
        assert cmds[..0] == [];
      }
    } else {
      PrintedPieces(cmds[..|cmds| - 1]);
      OnePieceMore(cmds);
    }
  }

  lemma OnePieceMore(cmds: seq<seq<string>>)
    requires GoodLine(cmds) && |cmds| > 1
    requires var front := cmds[..|cmds| - 1];
             var w := Words(PrintLine(front), BAR);
             && TrimAll(w) == PrintAll(front) && w != [] && !Boundary(PrintLine(front), BAR)
             && (w[|w| - 1] == PrintCommand(front[|front| - 1]) || w[|w| - 1] == " " + PrintCommand(front[|front| - 1]))
    ensures var w := Words(PrintLine(cmds), BAR);
            && TrimAll(w) == PrintAll(cmds) && w != [] && !Boundary(PrintLine(cmds), BAR)
            && w[|w| - 1] == " " + PrintCommand(cmds[|cmds| - 1])
  {
    hide Words, TrimAll, Trim, PrintAll, PrintLine, PrintCommand, GoodCommand, Extend;
    PrintMore(cmds);
    var front := cmds[..|cmds| - 1];
    var last, text, w := PrintCommand(cmds[|cmds| - 1]), PrintLine(front), Words(PrintLine(front), BAR);
    PrintedCommand(cmds[|cmds| - 1]);
    PrintedCommand(front[|front| - 1]);
    WordsSnoc(text, ' ', BAR);
    WordsSnoc(text + " ", '|', BAR);
    PlainIsOneWord(" " + last, BAR);
    WordsConcat(text + " " + "|", " " + last, BAR);
    assert text + " | " + last == text + " " + "|" + (" " + last);
    var w1 := Extend(w, ' ');
    assert Words(PrintLine(cmds), BAR) == w1 + [" " + last];
    TrimExtended(w, PrintCommand(front[|front| - 1]));
    TrimMargins(" ", last, "");
    assert " " + last + "" == " " + last;
    TrimAllConcat(w1, [" " + last]);
    TrimOne(" " + last);
  }

  lemma PrintMore(cmds: seq<seq<string>>)
    requires GoodLine(cmds) && |cmds| > 1
    ensures var front, last := cmds[..|cmds| - 1], PrintCommand(cmds[|cmds| - 1]);
            && PrintLine(cmds) == PrintLine(front) + " | " + last && PrintAll(cmds) == PrintAll(front) + [last]
            && GoodCommand(cmds[|cmds| - 1]) && GoodCommand(front[|front| - 1])
  {
  }

  lemma TrimOne(x: string)
    ensures TrimAll([x]) == [Trim(x)]
  {
    TrimAllCons(x, []);
    TrimNone();
    assert [x] + [] == [x];
    assert [Trim(x)] + [] == [Trim(x)];
  }

  /** A blank after the last piece is trimmed away. */
  lemma TrimExtended(w: seq<string>, p: string)
    requires w != [] && (w[|w| - 1] == p || w[|w| - 1] == " " + p)
    requires p != [] && !IsSpace(p[0]) && !IsSpace(p[|p| - 1])
    ensures TrimAll(Extend(w, ' ')) == TrimAll(w)
  {
    hide TrimAll, Trim, IsSpace;
    var v, x := w[..|w| - 1], w[|w| - 1];
    MarginTrimmed(p, x);
    LastTrimmed(v, x);
    assert w == v + [x];
  }

  lemma MarginTrimmed(p: string, x: string)
    requires p != [] && !IsSpace(p[0]) && !IsSpace(p[|p| - 1]) && (x == p || x == " " + p)
    ensures Trim(x) == p && Trim(x + [' ']) == p
  {
    hide Trim;
    if x == p {
      TrimMargins("", p, "");
      TrimMargins("", p, " ");
      assert "" + p + "" == x && "" + p + " " == x + [' '];
    } else {
      TrimMargins(" ", p, "");
      TrimMargins(" ", p, " ");
      assert " " + p + "" == x && " " + p + " " == x + [' '];
    }
  }

  lemma LastTrimmed(v: seq<string>, x: string)
    requires Trim(x) == Trim(x + [' '])
    ensures TrimAll(v + [x + [' ']]) == TrimAll(v + [x])
  {
    hide TrimAll, Trim;
    TrimAllConcat(v, [x]);
    TrimAllConcat(v, [x + [' ']]);
    TrimOne(x);
    TrimOne(x + [' ']);
  }

  function Rows(cmds: seq<seq<string>>): seq<Argv> {
    seq(|cmds|, i requires 0 <= i < |cmds| => Argv(cmds[i], true))
  }

  lemma RowsSnoc(front: seq<seq<string>>, last: seq<string>)
    ensures PrintAll(front + [last]) == PrintAll(front) + [PrintCommand(last)]
    ensures Rows(front + [last]) == Rows(front) + [Argv(last, true)]
    ensures ArgvAll(PrintAll(front) + [PrintCommand(last)]) == ArgvAll(PrintAll(front)) + [ArgvOf(PrintCommand(last))]
  {
    hide PrintCommand, ArgvOf;
    assert (front + [last])[..|front|] == front;
    var w, x := PrintAll(front), PrintCommand(last);
    assert (w + [x])[..|w|] == w;
  }

  lemma {:induction false} PrintedRows(cmds: seq<seq<string>>)
    requires GoodLine(cmds) && forall i :: 0 <= i < |cmds| ==> |cmds[i]| <= MAX_ARG_COUNT
    ensures |PrintAll(cmds)| == |cmds| && ArgvAll(PrintAll(cmds)) == Rows(cmds)
  {
    hide PrintAll, ArgvAll, Rows, PrintCommand, ArgvOf, GoodCommand;
    if cmds == [] {
      NoRows();
    } else {
      var front, last := cmds[..|cmds| - 1], cmds[|cmds| - 1];
      assert GoodCommand(last) && GoodLine(front);
      PrintedRows(front);
      FittingRow(last);
      RowsSnoc(front, last);
      assert cmds == front + [last];
    }
  }

  lemma NoRows()
    ensures PrintAll([]) == [] && Rows([]) == [] && ArgvAll([]) == []
  {
  }

  lemma FittingRow(cmd: seq<string>)
    requires GoodCommand(cmd) && |cmd| <= MAX_ARG_COUNT
    ensures ArgvOf(PrintCommand(cmd)) == Argv(cmd, true)
  {
    hide ArgvOf, PrintCommand;
    RowIntactIff(cmd);
  }

  ghost predicate Blank(gap: string) { forall i :: 0 <= i < |gap| ==> gap[i] == ' ' }

  /** Blanks after the last piece belong to that piece. */
  lemma {:induction false} WordsGap(text: string, gap: string)
    requires !Boundary(text, BAR) && Blank(gap)
    ensures var w := Words(text, BAR);
            w != [] && Words(text + gap, BAR) == w[..|w| - 1] + [w[|w| - 1] + gap]
  {
    hide Words;
    WordsSnoc(text, ' ', BAR);
    var v := Words(text, BAR);
    if gap == [] {
      assert text + gap == text && v[|v| - 1] + gap == v[|v| - 1];
    } else {
      var front := gap[..|gap| - 1];
      WordsGap(text, front);
      WordsSnoc(text + front, ' ', BAR);
      assert text + gap == text + front + [' '] && !Boundary(text + front, BAR);
      assert v[|v| - 1] + gap == v[|v| - 1] + front + [' '];
    }
  }

  /** Blanks at the end of a printed line change nothing. */
  lemma PaddedPieces(cmds: seq<seq<string>>, gap: string)
    requires GoodLine(cmds) && cmds != [] && Blank(gap)
    ensures TrimAll(Words(PrintLine(cmds) + gap, BAR)) == PrintAll(cmds)
  {
    hide Words, TrimAll, Trim, PrintAll, PrintLine, PrintCommand, GoodCommand;
    PrintedPieces(cmds);
    var w, p := Words(PrintLine(cmds), BAR), PrintCommand(cmds[|cmds| - 1]);
    PrintedCommand(cmds[|cmds| - 1]);
    WordsGap(PrintLine(cmds), gap);
    var front, x := w[..|w| - 1], w[|w| - 1];
    GapTrimmed(p, x, gap);
    TrimAllConcat(front, [x]);
    TrimAllConcat(front, [x + gap]);
    TrimOne(x);
    TrimOne(x + gap);
    assert w == front + [x];
  }

  lemma GapTrimmed(p: string, x: string, gap: string)
    requires p != [] && !IsSpace(p[0]) && !IsSpace(p[|p| - 1]) && (x == p || x == " " + p) && Blank(gap)
    ensures Trim(x) == p && Trim(x + gap) == p
  {
    hide Trim;
    var pre := if x == p then "" else " ";
    TrimMargins(pre, p, "");
    TrimMargins(pre, p, gap);
    assert pre + p + "" == x && pre + p + gap == x + gap;
  }

  lemma {:induction false} PrintAllFirst(cmds: seq<seq<string>>, n: nat)
    requires n <= |cmds|
    ensures |PrintAll(cmds)| == |cmds| && |PrintAll(cmds[..n])| == n && PrintAll(cmds)[..n] == PrintAll(cmds[..n])
    decreases |cmds|
  {
    if n < |cmds| {
      PrintAllFirst(cmds[..|cmds| - 1], n);
      assert cmds[..|cmds| - 1][..n] == cmds[..n];
    } else {
      assert cmds[..n] == cmds;
      if cmds != [] {
        PrintAllFirst(cmds[..|cmds| - 1], |cmds| - 1);
      }
    }
  }

  /** Round trip: commands of one to fifteen words each, printed on a line, come back
      with the same words, every row closed by a NULL; of more than 15001 commands the
      first 15001. */
  lemma PipelineRoundTrip(cmds: seq<seq<string>>, gap: string)
    requires cmds != [] && GoodLine(cmds) && forall i :: 0 <= i < |cmds| ==> |cmds[i]| <= 15
    requires forall i :: 0 <= i < |gap| ==> gap[i] == ' '
    ensures Parsed(PrintLine(cmds) + gap) == Rows(if |cmds| <= 15001 then cmds else cmds[..15001])
  {
    hide Words, TrimAll, PrintAll, PrintLine, ArgvAll;
    PaddedPieces(cmds, gap);
    PrintedRows(cmds);
    if |cmds| > 15001 {
      PrintAllFirst(cmds, 15001);
      PrintedRows(cmds[..15001]);
    }
  }

  /** A command keeps its words and its NULL exactly when it has at most fifteen; of
      more than sixteen words the first sixteen are stored. */
  lemma RowIntactIff(cmd: seq<string>)
    requires GoodCommand(cmd)
    ensures ArgvOf(PrintCommand(cmd)) == Argv(cmd, true) <==> |cmd| <= 15
    ensures ArgvOf(PrintCommand(cmd)).words == if |cmd| <= 16 then cmd else cmd[..16]
  {
    CommandWords(cmd);
  }
}
