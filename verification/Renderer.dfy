/**
 `script_content` of Project4/Part1_CGISocketClient/cgi.c: text becomes the inside
 of a JavaScript string literal that is appended to a table cell.
 */
module Renderer {
  import opened Common

  /** The six colours `[3Nm` can name, by N - 1. */
  const COLOURS: seq<string> := ["red", "green", "yellow", "blue", "magenta", "cyan"]

  function FontTag(k: nat): string
    requires k < 6
  {
    "<font color=\\\"" + COLOURS[k] + "\\\">"
  }

  /** strncmp(buffer + i, p, |p|) == 0, the text ending with a NUL. */
  predicate At(s: string, i: nat, p: string) {
    i + |p| <= |s| && s[i..i + |p|] == p
  }

  /** A recognised colour start at i: only "[3" and the digit are compared. */
  predicate IsColour(s: string, i: nat) {
    i + 3 <= |s| && s[i] == '[' && s[i + 1] == '3' && '1' <= s[i + 2] <= '6'
  }

  predicate IsReset(s: string, i: nat) {
    i + 2 <= |s| && s[i] == '[' && s[i + 1] == '0'
  }

  function ColourIndex(c: char): (k: nat)
    requires '1' <= c <= '6'
    ensures k < 6
  {
    c as int - '1' as int
  }

  /** What is printed for one ordinary character. */
  function Escape(c: char): string {
    if c == '<' then "&lt"
    else if c == '>' then "&gt"
    else if c == ' ' then "&nbsp;"
    else if c == '\r' then ""
    else if c == '\n' then "<br>"
    else if c == '\\' then "&#039"
    else if c == '"' then "&quot;"
    else [c]
  }

  /** How far the loop moves, and what it prints, at index i. */
  function StepAt(s: string, i: nat): (string, nat)
    requires i < |s|
  {
    if IsColour(s, i) then (FontTag(ColourIndex(s[i + 2])), 4)
    else if IsReset(s, i) then ("</font>", 3)
    else (Escape(s[i]), 1)
  }

  /** The text printed from index i on; None when the loop runs past the end of the text. */
  function Body(s: string, i: nat): Option<string>
    decreases |s| - i
  {
    if i > |s| then None
    else if i == |s| then Some("")
    else
      match Body(s, i + StepAt(s, i).1)
      case None => None
      case Some(rest) => Some(StepAt(s, i).0 + rest)
  }

  function Quoted(body: string, bold: bool): string {
    (if bold then "<b>" else "") + body + (if bold then "</b>" else "")
  }

  /** The switch of `script_content`: what is printed at i, and where the loop goes on. */
  method PrintAt(buffer: string, i: nat) returns (out: string, next: nat)
    requires i < |buffer|
    ensures out == StepAt(buffer, i).0 && i < next == i + StepAt(buffer, i).1
  {
    hide FontTag;
    FontTags();
    var c := buffer[i];
    next := i + 1;
    if c == '<' {
      out := "&lt";
    } else if c == '>' {
      out := "&gt";
    } else if c == ' ' {
      out := "&nbsp;";
    } else if c == '\r' {
      out := "";
    } else if c == '\n' {
      out := "<br>";
    } else if c == '\\' {
      out := "&#039";
    } else if c == '"' {
      out := "&quot;";
    } else if c == '[' {
      if At(buffer, i, "[31") {
        out, next := "<font color=\\\"red\\\">", i + 4;
      } else if At(buffer, i, "[32") {
        out, next := "<font color=\\\"green\\\">", i + 4;
      } else if At(buffer, i, "[33") {
        out, next := "<font color=\\\"yellow\\\">", i + 4;
      } else if At(buffer, i, "[34") {
        out, next := "<font color=\\\"blue\\\">", i + 4;
      } else if At(buffer, i, "[35") {
        out, next := "<font color=\\\"magenta\\\">", i + 4;
      } else if At(buffer, i, "[36") {
        out, next := "<font color=\\\"cyan\\\">", i + 4;
      } else if At(buffer, i, "[0") {
        out, next := "</font>", i + 3;
      } else {
        out := [c];
      }
    } else {
      out := [c];
    }
  }

  lemma FontTags()
    ensures FontTag(0) == "<font color=\\\"red\\\">" && FontTag(1) == "<font color=\\\"green\\\">"
    ensures FontTag(2) == "<font color=\\\"yellow\\\">" && FontTag(3) == "<font color=\\\"blue\\\">"
    ensures FontTag(4) == "<font color=\\\"magenta\\\">" && FontTag(5) == "<font color=\\\"cyan\\\">"
  {
  }

  /** `script_content` between the quotes. `inside` is false when the loop has
      stepped over the NUL that ends the text: exactly when the text is cut short. */
  method ScriptContent(buffer: string, bold: bool) returns (inside: bool, text: string)
    ensures inside <==> !CutShort(buffer)
    ensures inside <==> Body(buffer, 0).Some?
    ensures inside ==> text == Quoted(Body(buffer, 0).value, bold)
  {
    hide StepAt, Quoted;
    var done := "";
    var i := 0;
    while i < |buffer|
      invariant Body(buffer, 0).Some? <==> Body(buffer, i).Some?
      invariant Body(buffer, 0).Some? ==> Body(buffer, 0).value == done + Body(buffer, i).value
      decreases |buffer| - i
    {
      var out, next := PrintAt(buffer, i);
      if Body(buffer, next).Some? {
        assert done + (out + Body(buffer, next).value) == done + out + Body(buffer, next).value;
      }
      done, i := done + out, next;
    }
    inside := i == |buffer|;
    if inside {
      assert done + "" == done;
    }
    text := Quoted(done, bold);
    LeavesTextIff(buffer);
  }

  // ---------- the text is a well-formed string literal ----------

  /** One character of a JavaScript string literal: the length of the character or
      escape at the front, 0 where the literal cannot go on. */
  function LexOne(t: string): nat {
    if t == "" || t[0] == '"' || t[0] == '\n' || t[0] == '\r' then 0
    else if t[0] == '\\' then (if |t| >= 2 && t[1] != '\n' && t[1] != '\r' then 2 else 0)
    else 1
  }

  /** The literal's text is read to its end without meeting the closing quote or a line break. */
  predicate LiteralText(t: string) {
    t == "" || (LexOne(t) > 0 && LexOne(t) <= |t| && LiteralText(t[LexOne(t)..]))
  }

  /** Where a lexer started in the literal `t` finds the closing quote; None: it does not. */
  function CloseAt(t: string): Option<nat>
    decreases |t|
  {
    if t == "" then None
    else if t[0] == '"' then Some(0)
    else if LexOne(t) == 0 || LexOne(t) > |t| then None
    else
      match CloseAt(t[LexOne(t)..])
      case None => None
      case Some(n) => Some(n + LexOne(t))
  }

  lemma {:induction false} LiteralConcat(a: string, b: string)
    requires LiteralText(a) && LiteralText(b)
    ensures LiteralText(a + b)
    decreases |a|
  {
    if a == "" {
      assert a + b == b;
    } else {
      var n := LexOne(a);
      assert LexOne(a + b) == n && (a + b)[n..] == a[n..] + b;
      LiteralConcat(a[n..], b);
    }
  }

  /** The literal is closed by the final quote and by nothing before it. */
  lemma {:induction false} ClosedByFinalQuote(t: string, rest: string)
    requires LiteralText(t)
    ensures CloseAt(t + "\"" + rest) == Some(|t|)
    decreases |t|
  {
    var u := t + "\"" + rest;
    if t == "" {
      assert u[0] == '"';
    } else {
      var n := LexOne(t);
      assert u[n..] == t[n..] + "\"" + rest && LexOne(u) == n;
      ClosedByFinalQuote(t[n..], rest);
    }
  }

  predicate NoSpecial(t: string) {
    forall i :: 0 <= i < |t| ==> t[i] != '"' && t[i] != '\\' && t[i] != '\n' && t[i] != '\r'
  }

  lemma {:induction false} NoSpecialIsLiteral(t: string)
    requires NoSpecial(t)
    ensures LiteralText(t)
  {
    if t != "" {
      NoSpecialIsLiteral(t[1..]);
    }
  }

  lemma EscapedQuoteIsLiteral()
    ensures LiteralText("\\\"")
  {
    assert "\\\""[2..] == "";
  }

  lemma FontTagIsLiteral(k: nat)
    requires k < 6
    ensures LiteralText(FontTag(k))
  {
    var a, q, c, z := "<font color=", "\\\"", COLOURS[k], ">";
    EscapedQuoteIsLiteral();
    ColourIsPlain(k);
    NoSpecialIsLiteral(a);
    NoSpecialIsLiteral(c);
    NoSpecialIsLiteral(z);
    FontTagPieces(k);
    FivePieces(a, q, c, q, z);
  }

  lemma ColourIsPlain(k: nat)
    requires k < 6
    ensures NoSpecial(COLOURS[k]) && forall i :: 0 <= i < |COLOURS[k]| ==> COLOURS[k][i] != '<'
  {
  }

  lemma FontTagPieces(k: nat)
    requires k < 6
    ensures FontTag(k) == "<font color=" + "\\\"" + COLOURS[k] + "\\\"" + ">"
  {
    hide COLOURS;
    assert "<font color=\\\"" == "<font color=" + "\\\"";
    assert "\\\">" == "\\\"" + ">";
  }

  lemma FivePieces(a: string, b: string, c: string, d: string, e: string)
    requires LiteralText(a) && LiteralText(b) && LiteralText(c) && LiteralText(d) && LiteralText(e)
    ensures LiteralText(a + b + c + d + e)
  {
    hide LiteralText;
    LiteralConcat(a, b);
    LiteralConcat(a + b, c);
    LiteralConcat(a + b + c, d);
    LiteralConcat(a + b + c + d, e);
  }

  // ---------- only three kinds of tag ----------

  predicate IsTag(t: string) {
    t in {"<br>", "<b>", "</b>", "</font>"} || exists k: nat | k < 6 :: t == FontTag(k)
  }

  /** Every `<` in the text starts one of the allowed tags. */
  ghost predicate TagsOnly(t: string) {
    forall i :: 0 <= i < |t| && t[i] == '<' ==> TagAt(t, i)
  }

  ghost predicate TagAt(t: string, i: nat) {
    exists n :: TagOf(t, i, n)
  }

  ghost predicate TagOf(t: string, i: nat, n: nat) {
    i + n <= |t| && IsTag(t[i..i + n])
  }

  lemma TagsConcat(a: string, b: string)
    requires TagsOnly(a) && TagsOnly(b)
    ensures TagsOnly(a + b)
  {
    var t := a + b;
    forall i: nat | i < |t| && t[i] == '<' ensures TagAt(t, i) {
      if i < |a| {
        assert TagAt(a, i);
        var n: nat :| TagOf(a, i, n);
        assert t[i..i + n] == a[i..i + n];
        assert TagOf(t, i, n);
      } else {
        var m := i - |a|;
        assert TagAt(b, m);
        var n: nat :| TagOf(b, m, n);
        assert t[i..i + n] == b[m..m + n];
        assert TagOf(t, i, n);
      }
    }
  }

  lemma TagIsTags(t: string)
    requires IsTag(t) && t != "" && t[0] == '<' && forall i :: 1 <= i < |t| ==> t[i] != '<'
    ensures TagsOnly(t)
  {
    assert t[0..0 + |t|] == t;
    assert TagOf(t, 0, |t|);
  }

  lemma FontTagShape(k: nat)
    requires k < 6
    ensures FontTag(k) != "" && FontTag(k)[0] == '<' && forall i :: 1 <= i < |FontTag(k)| ==> FontTag(k)[i] != '<'
    ensures IsTag(FontTag(k))
  {
    ColourIsPlain(k);
    FontTagPieces(k);
  }

  ghost predicate Fine(t: string) { LiteralText(t) && TagsOnly(t) }

  lemma FontTagIsFine(k: nat)
    requires k < 6
    ensures Fine(FontTag(k))
  {
    hide FontTag, LiteralText, TagsOnly;
    FontTagIsLiteral(k);
    FontTagShape(k);
    TagIsTags(FontTag(k));
  }

  lemma EscapeIsFine(c: char)
    ensures Fine(Escape(c))
  {
    hide LiteralText, IsTag, TagsOnly, Escape;
    EscapeIsPlain(c);
    NoSpecialIsLiteral(Escape(c));
    if c == '\n' {
      BreakIsTag();
      TagIsTags("<br>");
    } else {
      NoTagIn(Escape(c));
    }
  }

  lemma EscapeIsPlain(c: char)
    ensures NoSpecial(Escape(c)) && (c == '\n' ==> Escape(c) == "<br>")
    ensures c != '\n' ==> forall i :: 0 <= i < |Escape(c)| ==> Escape(c)[i] != '<'
  {
  }

  lemma NoTagIn(t: string)
    requires forall i :: 0 <= i < |t| ==> t[i] != '<'
    ensures TagsOnly(t)
  {
  }

  lemma BreakIsTag()
    ensures IsTag("<br>") && IsTag("</font>") && IsTag("<b>") && IsTag("</b>")
  {
  }

  lemma StepIsFine(s: string, i: nat)
    requires i < |s|
    ensures Fine(StepAt(s, i).0)
  {
    hide FontTag, Fine, Escape, IsTag;
    if IsColour(s, i) {
      FontTagIsFine(ColourIndex(s[i + 2]));
    } else if IsReset(s, i) {
      ResetIsFine();
    } else {
      EscapeIsFine(s[i]);
    }
  }

  lemma ResetIsFine()
    ensures Fine("</font>")
  {
    hide LiteralText, IsTag;
    BreakIsTag();
    NoSpecialIsLiteral("</font>");
    TagIsTags("</font>");
  }

  lemma {:induction false} BodyIsFine(s: string, i: nat)
    requires i <= |s| && Body(s, i).Some?
    ensures Fine(Body(s, i).value)
    decreases |s| - i
  {
    if i < |s| {
      BodyIsFine(s, i + StepAt(s, i).1);
      StepIsFine(s, i);
      var rest := Body(s, i + StepAt(s, i).1).value;
      LiteralConcat(StepAt(s, i).0, rest);
      TagsConcat(StepAt(s, i).0, rest);
    }
  }

  // ---------- when the loop stays inside the text ----------

  /** The character at n belongs to a colour or reset before it, as its last one
      (whatever it is). A prefix whose own `[` is swallowed does not count. */
  predicate Swallowed(s: string, n: nat)
    requires n <= |s|
  {
    || (n >= 3 && IsColour(s, n - 3) && !Swallowed(s, n - 3))
    || (n >= 2 && IsReset(s, n - 2) && !Swallowed(s, n - 2))
  }

  /** The text ends in "[31" to "[36", or in "[0", that no earlier prefix swallows. */
  predicate CutShort(s: string) {
    || (|s| >= 3 && IsColour(s, |s| - 3) && !Swallowed(s, |s| - 3))
    || (|s| >= 2 && IsReset(s, |s| - 2) && !Swallowed(s, |s| - 2))
  }

  /** Starting at i, the loop comes to n. */
  predicate Comes(s: string, i: nat, n: nat)
    decreases |s| - i
  {
    i == n || (i < |s| && Comes(s, i + StepAt(s, i).1, n))
  }

  lemma {:induction false} ComesForward(s: string, i: nat, n: nat)
    requires Comes(s, i, n)
    ensures i <= n
    decreases |s| - i
  {
    if i != n {
      ComesForward(s, i + StepAt(s, i).1, n);
    }
  }

  /** A run through m comes to n exactly when the run from m does. */
  lemma {:induction false} ComesThrough(s: string, i: nat, m: nat, n: nat)
    requires Comes(s, i, m) && m <= n
    ensures Comes(s, i, n) <==> Comes(s, m, n)
    decreases |s| - i
  {
    if i != m {
      ComesForward(s, i + StepAt(s, i).1, m);
      ComesThrough(s, i + StepAt(s, i).1, m, n);
    }
  }

  /** The last place before n that the loop comes to. */
  lemma {:induction false} LastBefore(s: string, i: nat, n: nat) returns (m: nat)
    requires i < n <= |s|
    ensures i <= m < n && Comes(s, i, m) && m + StepAt(s, m).1 >= n
    decreases n - i
  {
    var next := i + StepAt(s, i).1;
    if next >= n {
      m := i;
    } else {
      m := LastBefore(s, next, n);
    }
  }

  /** The loop comes to a `[`, or to the end, exactly when that place is not swallowed. */
  lemma {:induction false} ComesIff(s: string, n: nat)
    requires n <= |s| && (n < |s| ==> s[n] == '[')
    ensures Comes(s, 0, n) <==> !Swallowed(s, n)
    decreases n, 2
  {
    if n > 0 {
      var m := LastBefore(s, 0, n);
      var next := m + StepAt(s, m).1;
      ComesThrough(s, 0, m, n);
      if next > n {
        JumpedOver(s, m, n);
        ComesIff(s, m);
        if Comes(s, next, n) {
          ComesForward(s, next, n);
        }
      } else {
        NotSwallowed(s, m, n);
      }
    }
  }

  /** Only the last place of a prefix can be a `[` or the end. */
  lemma JumpedOver(s: string, m: nat, n: nat)
    requires m < n <= |s| && m + StepAt(s, m).1 > n && (n < |s| ==> s[n] == '[')
    ensures s[m] == '[' && ((IsColour(s, m) && n == m + 3) || (IsReset(s, m) && n == m + 2))
  {
  }

  /** Nothing else swallows a place the loop comes to. */
  lemma {:induction false} NotSwallowed(s: string, m: nat, n: nat)
    requires m < n <= |s| && Comes(s, 0, m) && m + StepAt(s, m).1 == n
    ensures !Swallowed(s, n)
    decreases n, 1
  {
    ComesThrough(s, 0, m, n);
    if n >= 3 && IsColour(s, n - 3) && !Swallowed(s, n - 3) {
      Overtaken(s, n - 3, n);
    }
    if n >= 2 && IsReset(s, n - 2) && !Swallowed(s, n - 2) {
      Overtaken(s, n - 2, n);
    }
  }

  /** A prefix the loop comes to is jumped over whole. */
  lemma {:induction false} Overtaken(s: string, k: nat, n: nat)
    requires k < n <= |s| && s[k] == '[' && !Swallowed(s, k) && k + StepAt(s, k).1 > n
    ensures !Comes(s, 0, n)
    decreases k, 3
  {
    ComesIff(s, k);
    ComesThrough(s, 0, k, n);
    if Comes(s, k + StepAt(s, k).1, n) {
      ComesForward(s, k + StepAt(s, k).1, n);
    }
  }

  lemma {:induction false} InsideIffComes(s: string, i: nat)
    requires i <= |s|
    ensures Body(s, i).Some? <==> Comes(s, i, |s|)
    decreases |s| - i
  {
    if i < |s| {
      if i + StepAt(s, i).1 <= |s| {
        InsideIffComes(s, i + StepAt(s, i).1);
      }
    }
  }

  /** The loop leaves the text exactly when the text is cut short. */
  lemma LeavesTextIff(s: string)
    ensures Body(s, 0) == None <==> CutShort(s)
  {
    InsideIffComes(s, 0);
    ComesIff(s, |s|);
  }

  /** "[31" alone leaves the text; behind a reset its `[` is swallowed, and it does not. */
  lemma ColourAtTheEnd()
    ensures Body("[31", 0) == None && Body("[0[31", 0).Some?
  {
    LeavesTextIff("[31");
    LeavesTextIff("[0[31");
  }

  // ---------- the emitted script ----------

  /** Whatever the text, unless it is cut short: the emitted text is one string
      literal closed only by the final quote, and its only tags are font, br and b. */
  lemma RenderedScript(s: string, bold: bool, rest: string)
    requires !CutShort(s)
    ensures Body(s, 0).Some?
    ensures var t := Quoted(Body(s, 0).value, bold);
            LiteralText(t) && CloseAt(t + "\"" + rest) == Some(|t|) && TagsOnly(t)
  {
    hide LiteralText, TagsOnly, CutShort, IsTag, Body;
    LeavesTextIff(s);
    BodyIsFine(s, 0);
    QuotedIsFine(Body(s, 0).value, bold);
    ClosedByFinalQuote(Quoted(Body(s, 0).value, bold), rest);
  }

  lemma QuotedIsFine(b: string, bold: bool)
    requires Fine(b)
    ensures Fine(Quoted(b, bold))
  {
    hide LiteralText, TagsOnly, IsTag;
    var pre, post := if bold then "<b>" else "", if bold then "</b>" else "";
    BoldIsFine();
    NoSpecialIsLiteral("");
    NoTagIn("");
    LiteralConcat(pre, b);
    LiteralConcat(pre + b, post);
    TagsConcat(pre, b);
    TagsConcat(pre + b, post);
  }

  lemma BoldIsFine()
    ensures Fine("<b>") && Fine("</b>")
  {
    hide LiteralText, IsTag;
    BreakIsTag();
    NoSpecialIsLiteral("<b>");
    NoSpecialIsLiteral("</b>");
    TagIsTags("<b>");
    TagIsTags("</b>");
  }
}
