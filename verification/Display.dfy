/**
 What a browser shows of the text `script_content` emits (cgi.c of
 Project4/Part1_CGISocketClient): a reader of the emitted literal, written without
 the renderer, and the theorem that it gives back the characters of the text, each
 with its colour. The reader knows the character references the renderer uses, and
 like a browser takes a semicolon behind them as their end.
 */
module Display {
  import opened Common
  import opened Text
  import opened Renderer

  /** One character on the screen, with its innermost colour. */
  datatype Glyph = Glyph(c: char, colour: Option<string>, bold: bool)

  function Top(fonts: seq<string>): Option<string> { if fonts == [] then None else Some(fonts[|fonts| - 1]) }

  function Pop(fonts: seq<string>): seq<string> { if fonts == [] then [] else fonts[..|fonts| - 1] }

  // ---------- the reader ----------

  const FONT := "<font color=\\\""
  const FONT_END := "\\\">"

  predicate Starts(t: string, p: string) { |p| <= |t| && t[..|p|] == p }

  /** What comes before the next backslash. */
  function UpToBackslash(t: string): (n: string)
    ensures n <= t
  {
    if t == "" || t[0] == '\\' then "" else [t[0]] + UpToBackslash(t[1..])
  }

  function SkipSemicolon(t: string): string { if t != "" && t[0] == ';' then t[1..] else t }

  /** What the reader finds at the front of a text. */
  datatype Item = Shown(c: char) | Bold(on: bool) | Font(colour: string) | EndFont | Unknown

  /** A tag, and its length. */
  function TagItem(t: string): (Item, nat) {
    if Starts(t, "<br>") then (Shown('\n'), 4)
    else if Starts(t, "<b>") then (Bold(true), 3)
    else if Starts(t, "</b>") then (Bold(false), 4)
    else if Starts(t, "</font>") then (EndFont, 7)
    else if Starts(t, FONT) && Starts(t[|FONT|..][|UpToBackslash(t[|FONT|..])|..], FONT_END) then
      (Font(UpToBackslash(t[|FONT|..])), |FONT| + |UpToBackslash(t[|FONT|..])| + 3)
    else (Unknown, 1)
  }

  /** A character reference, and its length without its semicolon. */
  function ReferenceItem(t: string): (Item, nat) {
    if Starts(t, "&lt") then (Shown('<'), 3)
    else if Starts(t, "&gt") then (Shown('>'), 3)
    else if Starts(t, "&nbsp") then (Shown(' '), 5)
    else if Starts(t, "&quot") then (Shown('"'), 5)
    else if Starts(t, "&#") && LeadingDigits(t[2..]) != "" then
      var code := Atoi(LeadingDigits(t[2..]));
      (Shown(if code < 0xD800 then code as char else '\U{FFFD}'), 2 + |LeadingDigits(t[2..])|)
    else (Shown('&'), 1)
  }

  /** The item at the front, and the text behind it. */
  function Split(t: string): (r: (Item, string))
    requires t != ""
    ensures |r.1| < |t|
  {
    if t[0] == '<' then (TagItem(t).0, if TagItem(t).1 <= |t| then t[TagItem(t).1..] else "")
    else if t[0] == '&' then
      (ReferenceItem(t).0, if ReferenceItem(t).1 <= |t| then SkipSemicolon(t[ReferenceItem(t).1..]) else "")
    else (Shown(t[0]), t[1..])
  }

  /** The characters shown for an emitted text. */
  function Show(t: string, fonts: seq<string>, bold: bool): seq<Glyph>
    decreases |t|
  {
    if t == "" then []
    else
      match Split(t).0
      case Shown(c) => [Glyph(c, Top(fonts), bold)] + Show(Split(t).1, fonts, bold)
      case Bold(on) => Show(Split(t).1, fonts, on)
      case Font(colour) => Show(Split(t).1, fonts + [colour], bold)
      case EndFont => Show(Split(t).1, Pop(fonts), bold)
      case Unknown => Show(Split(t).1, fonts, bold)
  }

  // ---------- what the text means ----------

  function ColourName(c: char): string
    requires c in "123456"
  {
    match c
    case '1' => "red"
    case '2' => "green"
    case '3' => "yellow"
    case '4' => "blue"
    case '5' => "magenta"
    case _ => "cyan"
  }

  /** The characters of the text from i on, each in the colour of the last "[3Nm" that
      no "[0m" has ended; carriage returns are not shown. If `lossy`, a semicolon is
      left out when only carriage returns are between it and a `<` or `>` before it;
      `after` says that this is so at i. */
  function Meant(s: string, i: nat, fonts: seq<string>, bold: bool, lossy: bool, after: bool): seq<Glyph>
    decreases |s| - i
  {
    if i >= |s| then []
    else if s[i] == '[' && i + 2 < |s| && s[i + 1] == '3' && s[i + 2] in "123456" then
      Meant(s, i + 4, fonts + [ColourName(s[i + 2])], bold, lossy, false)
    else if s[i] == '[' && i + 1 < |s| && s[i + 1] == '0' then Meant(s, i + 3, Pop(fonts), bold, lossy, false)
    else if s[i] == '\r' then Meant(s, i + 1, fonts, bold, lossy, after)
    else if lossy && after && s[i] == ';' then Meant(s, i + 1, fonts, bold, lossy, false)
    else [Glyph(s[i], Top(fonts), bold)] + Meant(s, i + 1, fonts, bold, lossy, s[i] in "<>")
  }

  /** The text as its author means it. */
  function Intended(s: string, bold: bool): seq<Glyph> { Meant(s, 0, [], bold, false, false) }

  // ---------- one step of the renderer under the reader ----------

  lemma SplitReference(rest: string)
    ensures Split("&lt" + rest) == (Shown('<'), SkipSemicolon(rest))
    ensures Split("&gt" + rest) == (Shown('>'), SkipSemicolon(rest))
  {
    var a, b := "&lt" + rest, "&gt" + rest;
    assert a[..3] == "&lt" && a[3..] == rest;
    assert b[..3] == "&gt" && b[3..] == rest && b[1] == 'g';
  }

  lemma SplitSpace(rest: string)
    ensures Split("&nbsp;" + rest) == (Shown(' '), rest)
  {
    var t := "&nbsp;" + rest;
    assert t[1] == 'n' && t[..5] == "&nbsp" && t[5] == ';' && t[5..][1..] == rest;
  }

  lemma SplitQuote(rest: string)
    ensures Split("&quot;" + rest) == (Shown('"'), rest)
  {
    var t := "&quot;" + rest;
    assert t[1] == 'q' && t[..5] == "&quot" && t[5] == ';' && t[5..][1..] == rest;
  }

  lemma SplitBreak(rest: string)
    ensures Split("<br>" + rest) == (Shown('\n'), rest)
  {
    var t := "<br>" + rest;
    assert t[0] == '<' && t[..4] == "<br>" && t[4..] == rest;
  }

  lemma SplitBold(rest: string)
    ensures Split("<b>" + rest) == (Bold(true), rest)
  {
    var t := "<b>" + rest;
    assert t[0] == '<' && t[2] == '>' && t[..3] == "<b>" && t[3..] == rest;
  }

  lemma SplitBoldEnd(rest: string)
    ensures Split("</b>" + rest) == (Bold(false), rest)
  {
    var t := "</b>" + rest;
    assert t[0] == '<' && t[1] == '/' && t[..4] == "</b>" && t[4..] == rest;
  }

  lemma SplitReset(rest: string)
    ensures Split("</font>" + rest) == (EndFont, rest)
  {
    var t := "</font>" + rest;
    assert t[0] == '<' && t[1] == '/' && t[2] == 'f' && t[..7] == "</font>" && t[7..] == rest;
  }

  lemma {:induction false} UpToIs(name: string, rest: string)
    requires '\\' !in name
    ensures UpToBackslash(name + "\\" + rest) == name
  {
    var t := name + "\\" + rest;
    if name == "" {
      assert t[0] == '\\';
    } else {
      assert t[0] == name[0] && t[1..] == name[1..] + "\\" + rest;
      UpToIs(name[1..], rest);
    }
  }

  lemma SplitFont(k: nat, rest: string)
    requires k < 6
    ensures Split(FontTag(k) + rest) == (Font(COLOURS[k]), rest)
  {
    hide UpToBackslash, Split;
    ColourIsPlain(k);
    SplitFontTag(COLOURS[k], rest);
    assert FontTag(k) + rest == FONT + (COLOURS[k] + (FONT_END + rest));
  }

  lemma SplitFontTag(name: string, rest: string)
    requires '\\' !in name
    ensures Split(FONT + (name + (FONT_END + rest))) == (Font(name), rest)
  {
    hide UpToBackslash, TagItem;
    var tail := name + (FONT_END + rest);
    var u := FONT + tail;
    FontItem(u, name, rest);
    assert u[0] == '<' && u[|FONT| + |name| + 3..] == rest;
  }

  lemma FontItem(u: string, name: string, rest: string)
    requires '\\' !in name && u == FONT + (name + (FONT_END + rest))
    ensures TagItem(u) == (Font(name), |FONT| + |name| + 3)
  {
    hide UpToBackslash;
    var tail := name + (FONT_END + rest);
    assert u[1] == 'f' && u[..|FONT|] == FONT && u[|FONT|..] == tail;
    assert tail == name + "\\" + ("\">" + rest);
    UpToIs(name, "\">" + rest);
    assert tail[|name|..] == FONT_END + rest && (FONT_END + rest)[..3] == FONT_END;
  }

  // ---------- what is shown is what is meant ----------

  /** No ampersand and no backslash from i on. */
  ghost predicate Ordinary(s: string, i: nat) { forall k :: i <= k < |s| ==> s[k] != '&' && s[k] != '\\' }

  function Seen(after: bool, t: string): string { if after then SkipSemicolon(t) else t }

  lemma SkipsNothing(t: string)
    requires t == "" || t[0] != ';'
    ensures SkipSemicolon(t) == t
  {
  }

  lemma NameOfColour(c: char)
    requires '1' <= c <= '6'
    ensures COLOURS[ColourIndex(c)] == ColourName(c)
  {
  }

  /** A colour or a reset at i. */
  lemma ShowsTag(s: string, i: nat, rest: string, fonts: seq<string>, bold: bool, after: bool)
    requires i < |s| && (IsColour(s, i) || IsReset(s, i))
    ensures var next := if IsColour(s, i) then fonts + [ColourName(s[i + 2])] else Pop(fonts);
            Show(Seen(after, StepAt(s, i).0 + rest), fonts, bold) == Show(rest, next, bold)
  {
    hide Split, FontTag;
    if IsColour(s, i) {
      var k := ColourIndex(s[i + 2]);
      FontTagShape(k);
      SplitFont(k, rest);
      NameOfColour(s[i + 2]);
      SkipsNothing(FontTag(k) + rest);
    } else {
      SplitReset(rest);
      SkipsNothing("</font>" + rest);
    }
  }

  /** An ordinary character at i. */
  lemma ShowsChar(c: char, rest: string, fonts: seq<string>, bold: bool, after: bool)
    requires c != '\r' && c != '&' && c != '\\'
    ensures Show(Seen(after, Escape(c) + rest), fonts, bold) ==
            if after && c == ';' then Show(rest, fonts, bold)
            else [Glyph(c, Top(fonts), bold)] + Show(Seen(c in "<>", rest), fonts, bold)
  {
    hide TagItem, ReferenceItem;
    if c == '<' || c == '>' {
      SplitReference(rest);
      SkipsNothing(Escape(c) + rest);
    } else if c == ' ' {
      SplitSpace(rest);
      SkipsNothing(Escape(c) + rest);
    } else if c == '"' {
      SplitQuote(rest);
      SkipsNothing(Escape(c) + rest);
    } else if c == '\n' {
      SplitBreak(rest);
      SkipsNothing(Escape(c) + rest);
    } else {
      assert ([c] + rest)[1..] == rest;
    }
  }

  lemma EndMeans(s: string, i: nat, fonts: seq<string>, bold: bool, after: bool)
    requires i >= |s|
    ensures Meant(s, i, fonts, bold, true, after) == []
  {
  }

  lemma OneBody(s: string, i: nat)
    requires i <= |s| && Body(s, i).Some?
    ensures i == |s| ==> Body(s, i) == Some("")
    ensures i < |s| ==> i + StepAt(s, i).1 <= |s| && Body(s, i + StepAt(s, i).1).Some?
                        && Body(s, i).value == StepAt(s, i).0 + Body(s, i + StepAt(s, i).1).value
  {
    hide Escape, FontTag;
  }

  lemma OneMeans(s: string, i: nat, fonts: seq<string>, bold: bool, after: bool)
    requires i < |s|
    ensures var next := i + StepAt(s, i).1;
            Meant(s, i, fonts, bold, true, after) ==
            if IsColour(s, i) then Meant(s, next, fonts + [ColourName(s[i + 2])], bold, true, false)
            else if IsReset(s, i) then Meant(s, next, Pop(fonts), bold, true, false)
            else if s[i] == '\r' then Meant(s, next, fonts, bold, true, after)
            else if after && s[i] == ';' then Meant(s, next, fonts, bold, true, false)
            else [Glyph(s[i], Top(fonts), bold)] + Meant(s, next, fonts, bold, true, s[i] in "<>")
  {
    hide Escape, FontTag, ColourName, Pop, Top;
  }

  /** The reader gives back the text from i on, but for lost semicolons. */
  lemma {:induction false} ShownIsMeant(s: string, i: nat, fonts: seq<string>, bold: bool, after: bool, tail: string)
    requires i <= |s| && Body(s, i).Some? && Ordinary(s, i) && (tail == "" || tail == "</b>")
    ensures Show(Seen(after, Body(s, i).value + tail), fonts, bold) == Meant(s, i, fonts, bold, true, after)
    decreases |s| - i
  {
    hide Escape, FontTag, SkipSemicolon, Show, Pop, Top, ColourName, Meant, Body;
    OneBody(s, i);
    if i == |s| {
      EndMeans(s, i, fonts, bold, after);
      SkipsNothing(tail);
      assert "" + tail == tail;
      ShowsTail(tail, fonts, bold);
    } else {
      var (out, n) := StepAt(s, i);
      var rest := Body(s, i + n).value + tail;
      assert Body(s, i).value + tail == out + rest;
      OneMeans(s, i, fonts, bold, after);
      if IsColour(s, i) || IsReset(s, i) {
        ShowsTag(s, i, rest, fonts, bold, after);
        var next := if IsColour(s, i) then fonts + [ColourName(s[i + 2])] else Pop(fonts);
        ShownIsMeant(s, i + n, next, bold, false, tail);
      } else if s[i] == '\r' {
        ReturnIsNothing(rest);
        ShownIsMeant(s, i + n, fonts, bold, after, tail);
      } else {
        ShowsChar(s[i], rest, fonts, bold, after);
        ShownIsMeant(s, i + n, fonts, bold, s[i] in "<>", tail);
      }
    }
  }

  lemma ReturnIsNothing(rest: string)
    ensures Escape('\r') + rest == rest
  {
  }

  lemma ShowsTail(tail: string, fonts: seq<string>, bold: bool)
    requires tail == "" || tail == "</b>"
    ensures Show(tail, fonts, bold) == []
  {
    if tail == "</b>" {
      hide Split;
      SplitBoldEnd("");
      assert "</b>" + "" == tail;
    }
  }

  // ---------- lost semicolons ----------

  /** Nothing but carriage returns comes before the next semicolon. */
  predicate SemicolonNext(s: string, k: nat)
    decreases |s| - k
  {
    k < |s| && (s[k] == ';' || (s[k] == '\r' && SemicolonNext(s, k + 1)))
  }

  ghost predicate LosesAt(s: string, i: nat, a: nat) {
    a < |s| && Comes(s, i, a) && s[a] in "<>" && SemicolonNext(s, a + 1)
  }

  /** From i on, the loop comes to a `<` or `>` with a semicolon next. */
  ghost predicate Loses(s: string, i: nat) { exists a :: LosesAt(s, i, a) }

  lemma LosesStep(s: string, i: nat)
    requires i < |s|
    ensures var next := i + StepAt(s, i).1;
            Loses(s, i) <==> (s[i] in "<>" && SemicolonNext(s, i + 1)) || Loses(s, next)
  {
    hide SemicolonNext;
    var next := i + StepAt(s, i).1;
    if Loses(s, next) {
      var a :| LosesAt(s, next, a);
      assert LosesAt(s, i, a);
    }
    if s[i] in "<>" && SemicolonNext(s, i + 1) {
      assert LosesAt(s, i, i);
    }
    if Loses(s, i) {
      var a :| LosesAt(s, i, a);
      assert a == i || LosesAt(s, next, a);
    }
  }

  /** The lossy meaning is the full one exactly when no semicolon is lost. */
  lemma {:induction false} LossyIff(s: string, i: nat, fonts: seq<string>, bold: bool, after: bool)
    ensures var all, some := Meant(s, i, fonts, bold, false, after), Meant(s, i, fonts, bold, true, after);
            && |some| <= |all|
            && (some == all <==> |some| == |all|)
            && (some == all <==> !Loses(s, i) && !(after && SemicolonNext(s, i)))
    decreases |s| - i
  {
    hide Loses, ColourName, Pop, Top, Escape, FontTag;
    if i < |s| {
      LosesStep(s, i);
      var next := i + StepAt(s, i).1;
      if IsColour(s, i) {
        LossyIff(s, next, fonts + [ColourName(s[i + 2])], bold, false);
      } else if IsReset(s, i) {
        LossyIff(s, next, Pop(fonts), bold, false);
      } else if s[i] == '\r' {
        LossyIff(s, next, fonts, bold, after);
      } else if after && s[i] == ';' {
        LossyIff(s, next, fonts, bold, false);
        AfterDoesNotMatter(s, next, fonts, bold);
      } else {
        LossyIff(s, next, fonts, bold, s[i] in "<>");
      }
    } else {
      LosesNothing(s, i);
    }
  }

  lemma LosesNothing(s: string, i: nat)
    requires i >= |s|
    ensures !Loses(s, i)
  {
  }

  lemma {:induction false} AfterDoesNotMatter(s: string, i: nat, fonts: seq<string>, bold: bool)
    ensures Meant(s, i, fonts, bold, false, true) == Meant(s, i, fonts, bold, false, false)
    decreases |s| - i
  {
    if i < |s| && s[i] == '\r' {
      AfterDoesNotMatter(s, i + 1, fonts, bold);
    }
  }

  /** Every text without `&` and backslash that is not cut short: a browser shows its
      characters, each in the colour in force there and bold if asked for, exactly when
      no `<` or `>` the loop comes to has a semicolon next; that one would be lost. */
  lemma DisplayTheorem(s: string, bold: bool)
    requires !CutShort(s) && Ordinary(s, 0)
    ensures Body(s, 0).Some?
    ensures Show(Quoted(Body(s, 0).value, bold), [], false) == Intended(s, bold) <==> !Loses(s, 0)
  {
    hide Body, CutShort, Meant, Show, Ordinary;
    LeavesTextIff(s);
    var b := Body(s, 0).value;
    ShownIsMeant(s, 0, [], bold, false, if bold then "</b>" else "");
    LossyIff(s, 0, [], bold, false);
    QuotedShows(b, bold);
  }

  lemma QuotedShows(b: string, bold: bool)
    ensures Show(Quoted(b, bold), [], false) == Show(b + if bold then "</b>" else "", [], bold)
  {
    hide Split;
    if bold {
      SplitBold(b + "</b>");
      assert Quoted(b, bold) == "<b>" + (b + "</b>");
    } else {
      assert Quoted(b, bold) == b && b + "" == b;
    }
  }

  /** What the theorem leaves out is not shown as it is: a backslash comes out as an
      apostrophe, and the text "&lt" as "<". */
  lemma BackslashIsApostrophe()
    ensures Body("\\", 0) == Some("&#039") && Show("&#039", [], false) == [Glyph('\'', None, false)]
  {
    hide ReferenceItem, TagItem;
    assert Body("\\", 1) == Some("") && Escape('\\') + "" == "&#039";
    NumberRead();
    assert Split("&#039") == (Shown('\''), "");
  }

  lemma NumberRead()
    ensures ReferenceItem("&#039") == (Shown('\''), 5)
  {
    hide Atoi, LeadingDigits;
    var t := "&#039";
    assert t[1] == '#' && t[..2] == "&#" && t[2..] == "039";
    AllLeading("039");
    ThirtyNine();
  }

  lemma ThirtyNine()
    ensures Atoi("039") == 39
  {
    assert "039"[..2] == "03" && "03"[..1] == "0" && "0"[..0] == "";
    assert Atoi("0") == 0 && Atoi("03") == 3;
  }

  lemma AmpersandIsRead()
    ensures Body("&lt", 0) == Some("&lt") && Show("&lt", [], false) == [Glyph('<', None, false)]
  {
    hide Split;
    var s := "&lt";
    assert Body(s, 3) == Some("");
    assert Body(s, 2) == Some("t" + "") && Body(s, 1) == Some("l" + ("t" + ""));
    assert "l" + ("t" + "") == "lt" && "&" + "lt" == s;
    SplitReference("");
    assert "&lt" + "" == s;
  }

  /** "<;" loses its semicolon. */
  lemma SemicolonIsLost()
    ensures Loses("<;", 0)
  {
    assert LosesAt("<;", 0, 0);
  }
}
