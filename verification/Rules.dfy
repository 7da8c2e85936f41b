/**
 socks.conf and the decision (socksServer.c, getFirewallRules and
 firewallAccessCheck), against rules read as addresses, prefixes and ports.
 */
module Rules {
  import opened Common
  import opened Text
  import opened FrontEnd
  import opened Firewall
  import opened Address

  const MAX_RULE := 100
  const SEPARATORS: Delims := {' ', '/', '\r', '\n'}

  /** FirewallRule: what a line of the file is turned into. */
  datatype Compiled = Compiled(mode: string, srcip: nat, srcmask: nat, srcport: string,
                               dstip: nat, dstmask: nat, dstport: string)

  /** Connection: what the server knows about a request. */
  datatype Connection = Connection(mode: string, srcip: string, srcport: string, dstip: string, dstport: string)

  // ---------- reading the file ----------

  /** One end of a rule: the words it takes, its address under the mask, and the
      mask. None: a word is missing or is no address, prefix or number. */
  function ParseEnd(w: seq<string>): Option<(nat, nat, seq<string>)> {
    if w == [] then None
    else if w[0] == "-" then Some((0, 0, w[1..]))
    else
      match InetAton(w[0])
      case None => None
      case Some(v) =>
        if |w| < 2 || !Canonical(w[1]) || !(1 <= Atoi(w[1]) <= 32) then None
        else
          var mask := ShiftedOnes(32 - Atoi(w[1]));
          Some((And(v, mask), mask, w[2..]))
  }

  datatype Reading = Ignored | Malformed | Permit(rule: Compiled)

  /** One line of the file. Short lines and lines that do not start with "permit" are ignored. */
  function ReadLine(line: string): Reading {
    var w := Words(line, SEPARATORS);
    if |line| < 6 then Ignored
    else if w == [] then Malformed
    else if w[0] != "permit" then Ignored
    else if |w| < 2 then Malformed
    else
      match ParseEnd(w[2..])
      case None => Malformed
      case Some((srcip, srcmask, w1)) =>
        if w1 == [] then Malformed
        else
          match ParseEnd(w1[1..])
          case None => Malformed
          case Some((dstip, dstmask, w2)) =>
            if w2 == [] then Malformed
            else Permit(Compiled(w[1], srcip, srcmask, w1[0], dstip, dstmask, w2[0]))
  }

  /** The rules of the first `n` lines, in order. */
  function Loaded(conf: seq<string>, n: nat): seq<Compiled>
    requires n <= |conf|
  {
    if n == 0 then []
    else
      match ReadLine(conf[n - 1])
      case Permit(rule) => Loaded(conf, n - 1) + [rule]
      case _ => Loaded(conf, n - 1)
  }

  function Capped(rules: seq<Compiled>): seq<Compiled> {
    if |rules| <= MAX_RULE then rules else rules[..MAX_RULE]
  }

  predicate Matches(cnt: Connection, r: Compiled, src: nat, dst: nat) {
    && cnt.mode == r.mode
    && And(src, r.srcmask) == r.srcip
    && (r.srcport == "-" || cnt.srcport == r.srcport)
    && And(dst, r.dstmask) == r.dstip
    && (r.dstport == "-" || cnt.dstport == r.dstport)
  }

  /** Some rule of the table matches in every column. */
  ghost predicate PermittedBy(cnt: Connection, rules: seq<Compiled>)
    requires InetAton(cnt.srcip).Some? && InetAton(cnt.dstip).Some?
  {
    exists k :: 0 <= k < |rules| && Matches(cnt, rules[k], InetAton(cnt.srcip).value, InetAton(cnt.dstip).value)
  }

  class WhiteList {
    var rules: array<Compiled>
    var sum: nat

    constructor ()
      ensures fresh(rules) && rules.Length == MAX_RULE && sum == 0
    {
      rules := new Compiled[MAX_RULE](i => Compiled("", 0, 0, "", 0, 0, ""));
      sum := 0;
    }

    /** `getFirewallRules`: at most a hundred rules are kept, the first ones; no line after them is read. */
    method GetFirewallRules(conf: seq<string>)
      requires rules.Length == MAX_RULE
      requires forall n :: 0 <= n < |conf| && |Loaded(conf, n)| < MAX_RULE ==> ReadLine(conf[n]) != Malformed
      modifies this`sum, rules
      ensures sum <= MAX_RULE && rules[..sum] == Capped(Loaded(conf, |conf|))
    {
      hide ReadLine;
      var n := 0;
      sum := 0;
      while n < |conf|
        invariant n <= |conf| && sum < MAX_RULE && rules[..sum] == Loaded(conf, n)
      {
        var reading := ReadLine(conf[n]);
        n := n + 1;
        if reading.Permit? {
          rules[sum] := reading.rule;
          sum := sum + 1;
          if sum >= MAX_RULE {
            LoadedGrows(conf, n, |conf|);
            break;
          }
        }
      }
    }

    /** `firewallAccessCheck`. */
    method FirewallAccessCheck(cnt: Connection) returns (permit: bool)
      requires sum <= rules.Length
      requires InetAton(cnt.srcip).Some? && InetAton(cnt.dstip).Some?
      ensures permit <==> PermittedBy(cnt, rules[..sum])
    {
      var srcip := InetAton(cnt.srcip).value;
      var dstip := InetAton(cnt.dstip).value;
      var i := 0;
      permit := false;
      while i < sum && !permit
        invariant i <= sum
        invariant permit ==> i < sum && Matches(cnt, rules[i], srcip, dstip)
        invariant !permit ==> forall k :: 0 <= k < i ==> !Matches(cnt, rules[k], srcip, dstip)
        decreases sum - i, !permit
      {
        if cnt.mode != rules[i].mode {
          i := i + 1;
          continue;
        }
        if And(srcip, rules[i].srcmask) != rules[i].srcip {
          i := i + 1;
          continue;
        }
        if rules[i].srcport != "-" && cnt.srcport != rules[i].srcport {
          i := i + 1;
          continue;
        }
        if And(dstip, rules[i].dstmask) != rules[i].dstip {
          i := i + 1;
          continue;
        }
        if rules[i].dstport != "-" && cnt.dstport != rules[i].dstport {
          i := i + 1;
          continue;
        }
        assert rules[..sum][i] == rules[i];
        permit := true;
      }
      assert !permit ==> forall k :: 0 <= k < sum ==> rules[..sum][k] == rules[k];
    }
  }

  lemma {:induction false} LoadedGrows(conf: seq<string>, m: nat, n: nat)
    requires m <= n <= |conf|
    ensures Loaded(conf, m) <= Loaded(conf, n)
  {
    hide ReadLine;
    if m < n {
      LoadedGrows(conf, m, n - 1);
    }
  }

  // ---------- what the lines mean ----------

  datatype End = AnyAddress | Net(q: Quad, prefix: nat)
  datatype Port = AnyPort | Only(n: nat)

  /** A rule as its author means it. */
  datatype Rule = Rule(bind: bool, src: End, srcPort: Port, dst: End, dstPort: Port)

  predicate GoodEnd(e: End) { e.Net? ==> 1 <= e.prefix <= 32 }

  predicate GoodRule(r: Rule) { GoodEnd(r.src) && GoodEnd(r.dst) }

  /** A connection as numbers. */
  datatype Flow = Flow(bind: bool, src: Quad, srcPort: nat, dst: Quad, dstPort: nat)

  predicate InEnd(e: End, v: nat)
    requires GoodEnd(e)
  {
    e.Net? ==> InNet(v, Value(e.q), e.prefix)
  }

  predicate InPort(p: Port, n: nat) { p.Only? ==> p.n == n }

  predicate Allows(r: Rule, f: Flow)
    requires GoodRule(r)
  {
    r.bind == f.bind && InEnd(r.src, Value(f.src)) && InPort(r.srcPort, f.srcPort)
    && InEnd(r.dst, Value(f.dst)) && InPort(r.dstPort, f.dstPort)
  }

  function PrintMode(bind: bool): string { if bind then "b" else "c" }

  function PrintPort(p: Port): string { if p.AnyPort? then "-" else Dec(p.n) }

  /** The words of an end, each with the separator before it. */
  function EndParts(e: End): seq<(char, string)> {
    if e.AnyAddress? then [(' ', "-")] else [(' ', PrintQuad(e.q)), ('/', Dec(e.prefix))]
  }

  function Parts(r: Rule): seq<(char, string)> {
    [(' ', PrintMode(r.bind))] + EndParts(r.src) + [(' ', PrintPort(r.srcPort))]
    + EndParts(r.dst) + [(' ', PrintPort(r.dstPort))]
  }

  function Chain(parts: seq<(char, string)>): string {
    if parts == [] then [] else Chain(parts[..|parts| - 1]) + [parts[|parts| - 1].0] + parts[|parts| - 1].1
  }

  function Texts(parts: seq<(char, string)>): seq<string> {
    if parts == [] then [] else Texts(parts[..|parts| - 1]) + [parts[|parts| - 1].1]
  }

  /** permit <mode> <address>/<prefix> <port> <address>/<prefix> <port> */
  function PrintRule(r: Rule): string { "permit" + Chain(Parts(r)) + "\n" }

  ghost predicate GoodParts(parts: seq<(char, string)>) {
    forall i :: 0 <= i < |parts| ==> parts[i].0 in SEPARATORS && Plain(parts[i].1, SEPARATORS)
  }

  lemma {:induction false} ChainWords(parts: seq<(char, string)>)
    requires GoodParts(parts)
    ensures Words("permit" + Chain(parts), SEPARATORS) == ["permit"] + Texts(parts)
  {
    hide Words;
    if parts == [] {
      PlainIsOneWord("permit", SEPARATORS);
      assert "permit" + [] == "permit";
      assert ["permit"] + [] == ["permit"];
    } else {
      var front, last := parts[..|parts| - 1], parts[|parts| - 1];
      ChainWords(front);
      WordsAdd("permit" + Chain(front), last.0, last.1, SEPARATORS);
      assert "permit" + Chain(parts) == "permit" + Chain(front) + [last.0] + last.1;
      assert ["permit"] + Texts(parts) == ["permit"] + Texts(front) + [last.1];
    }
  }

  lemma QuadPlain(q: Quad)
    ensures Plain(PrintQuad(q), SEPARATORS) && PrintQuad(q) != "-"
  {
    var s := PrintQuad(q);
    assert forall i :: 0 <= i < |s| ==> IsDigit(s[i]) || s[i] == '.';
  }

  lemma PartsGood(r: Rule)
    ensures GoodParts(Parts(r))
  {
    EndPartsGood(r.src);
    EndPartsGood(r.dst);
    PortPlain(r.srcPort);
    PortPlain(r.dstPort);
  }

  lemma EndPartsGood(e: End)
    ensures GoodParts(EndParts(e))
  {
    if e.Net? {
      QuadPlain(e.q);
      DecPlain(e.prefix, SEPARATORS);
    }
  }

  lemma PortPlain(p: Port)
    ensures Plain(PrintPort(p), SEPARATORS)
  {
    if p.Only? {
      DecPlain(p.n, SEPARATORS);
    }
  }

  function EndTexts(e: End): seq<string> {
    if e.AnyAddress? then ["-"] else [PrintQuad(e.q), Dec(e.prefix)]
  }

  function RuleTexts(r: Rule): seq<string> {
    [PrintMode(r.bind)] + EndTexts(r.src) + [PrintPort(r.srcPort)] + EndTexts(r.dst) + [PrintPort(r.dstPort)]
  }

  lemma {:induction false} TextsConcat(a: seq<(char, string)>, b: seq<(char, string)>)
    ensures Texts(a + b) == Texts(a) + Texts(b)
  {
    if b == [] {
      assert a + b == a;
    } else {
      assert (a + b)[..|a + b| - 1] == a + b[..|b| - 1];
      TextsConcat(a, b[..|b| - 1]);
    }
  }

  lemma OneText(p: (char, string))
    ensures Texts([p]) == [p.1]
  {
    assert [p][..0] == [];
  }

  lemma EndPartsTexts(e: End)
    ensures Texts(EndParts(e)) == EndTexts(e)
  {
    if e.AnyAddress? {
      OneText((' ', "-"));
    } else {
      var p, q := (' ', PrintQuad(e.q)), ('/', Dec(e.prefix));
      OneText(p);
      OneText(q);
      TextsConcat([p], [q]);
      assert [p] + [q] == EndParts(e);
    }
  }

  lemma PartsTexts(r: Rule)
    ensures Texts(Parts(r)) == RuleTexts(r)
  {
    hide Texts;
    var m, sp, dp := (' ', PrintMode(r.bind)), (' ', PrintPort(r.srcPort)), (' ', PrintPort(r.dstPort));
    OneText(m);
    OneText(sp);
    OneText(dp);
    EndPartsTexts(r.src);
    EndPartsTexts(r.dst);
    TextsConcat([m], EndParts(r.src));
    TextsConcat([m] + EndParts(r.src), [sp]);
    TextsConcat([m] + EndParts(r.src) + [sp], EndParts(r.dst));
    TextsConcat([m] + EndParts(r.src) + [sp] + EndParts(r.dst), [dp]);
  }

  function MaskOf(e: End): nat
    requires GoodEnd(e)
  {
    if e.AnyAddress? then 0 else ShiftedOnes(32 - e.prefix)
  }

  function BaseOf(e: End): nat
    requires GoodEnd(e)
  {
    if e.AnyAddress? then 0 else And(Value(e.q), MaskOf(e))
  }

  function Compile(r: Rule): Compiled
    requires GoodRule(r)
  {
    Compiled(PrintMode(r.bind), BaseOf(r.src), MaskOf(r.src), PrintPort(r.srcPort),
             BaseOf(r.dst), MaskOf(r.dst), PrintPort(r.dstPort))
  }

  lemma ParsePrintedEnd(e: End, rest: seq<string>)
    requires GoodEnd(e)
    ensures ParseEnd(EndTexts(e) + rest) == Some((BaseOf(e), MaskOf(e), rest))
  {
    hide InetAton, And, ShiftedOnes, Words;
    var w := EndTexts(e) + rest;
    if e.AnyAddress? {
      assert w[1..] == rest;
    } else {
      AtonNtoa(e.q);
      QuadPlain(e.q);
      AtoiDec(e.prefix);
      DecCanonical(e.prefix);
      assert w[2..] == rest;
    }
  }

  lemma RuleWords(r: Rule)
    ensures Words(PrintRule(r), SEPARATORS) == ["permit"] + RuleTexts(r)
    ensures |PrintRule(r)| >= 6
  {
    hide Words;
    PartsGood(r);
    ChainWords(Parts(r));
    PartsTexts(r);
    WordsSnoc("permit" + Chain(Parts(r)), '\n', SEPARATORS);
  }

  /** A printed rule is read back as its masks and texts. */
  lemma ReadPrintedRule(r: Rule)
    requires GoodRule(r)
    ensures ReadLine(PrintRule(r)) == Permit(Compile(r))
  {
    hide Words, ParseEnd, PrintRule, BaseOf, MaskOf;
    RuleWords(r);
    var w := ["permit"] + RuleTexts(r);
    var w1 := [PrintPort(r.srcPort)] + EndTexts(r.dst) + [PrintPort(r.dstPort)];
    assert w[2..] == EndTexts(r.src) + w1;
    ParsePrintedEnd(r.src, w1);
    assert w1[1..] == EndTexts(r.dst) + [PrintPort(r.dstPort)];
    ParsePrintedEnd(r.dst, [PrintPort(r.dstPort)]);
  }

  /** The same when the line ends as on Windows. */
  lemma ReadWithReturn(r: Rule)
    requires GoodRule(r)
    ensures ReadLine("permit" + Chain(Parts(r)) + "\r\n") == ReadLine(PrintRule(r))
  {
    hide Words, ParseEnd, Parts, Chain;
    var text := "permit" + Chain(Parts(r));
    WordsSnoc(text, '\n', SEPARATORS);
    WordsSnoc(text, '\r', SEPARATORS);
    WordsSnoc(text + "\r", '\n', SEPARATORS);
    assert text + "\r\n" == text + "\r" + "\n";
  }

  // ---------- the decision ----------

  /** A line of the file: a comment, or a rule. */
  datatype ConfLine = Comment(text: string) | Line(rule: Rule)

  predicate GoodLine(c: ConfLine) {
    match c
    case Comment(text) => |text| < 6 || (Words(text, SEPARATORS) != [] && Words(text, SEPARATORS)[0] != "permit")
    case Line(rule) => GoodRule(rule)
  }

  function PrintConfLine(c: ConfLine): string {
    match c
    case Comment(text) => text
    case Line(rule) => PrintRule(rule)
  }

  function PrintConf(conf: seq<ConfLine>): (lines: seq<string>)
    ensures |lines| == |conf| && forall i :: 0 <= i < |conf| ==> lines[i] == PrintConfLine(conf[i])
  {
    seq(|conf|, i requires 0 <= i < |conf| => PrintConfLine(conf[i]))
  }

  ghost predicate GoodConf(conf: seq<ConfLine>) { forall i :: 0 <= i < |conf| ==> GoodLine(conf[i]) }

  /** The rules among the first n lines. */
  function RulesOf(conf: seq<ConfLine>, n: nat): seq<Rule>
    requires n <= |conf|
  {
    if n == 0 then []
    else if conf[n - 1].Line? then RulesOf(conf, n - 1) + [conf[n - 1].rule] else RulesOf(conf, n - 1)
  }

  lemma {:induction false} LoadedPrinted(conf: seq<ConfLine>, n: nat)
    requires GoodConf(conf) && n <= |conf|
    ensures |Loaded(PrintConf(conf), n)| == |RulesOf(conf, n)|
    ensures forall k :: 0 <= k < |RulesOf(conf, n)| ==>
              GoodRule(RulesOf(conf, n)[k]) && Loaded(PrintConf(conf), n)[k] == Compile(RulesOf(conf, n)[k])
    ensures forall k :: 0 <= k < n ==> ReadLine(PrintConf(conf)[k]) != Malformed
  {
    hide Compile, PrintRule, ReadLine, GoodRule;
    if n != 0 {
      LoadedPrinted(conf, n - 1);
      assert GoodLine(conf[n - 1]);
      ReadPrintedLine(conf[n - 1]);
    }
  }

  lemma ReadPrintedLine(c: ConfLine)
    requires GoodLine(c)
    ensures c.Line? ==> GoodRule(c.rule) && ReadLine(PrintConfLine(c)) == Permit(Compile(c.rule))
    ensures c.Comment? ==> ReadLine(PrintConfLine(c)) == Ignored
  {
    if c.Line? {
      ReadPrintedRule(c.rule);
    }
  }

  /** The strings the server prints for a connection. */
  function ConnectionOf(f: Flow): (cnt: Connection) {
    Connection(PrintMode(f.bind), PrintQuad(f.src), Dec(f.srcPort), PrintQuad(f.dst), Dec(f.dstPort))
  }

  lemma EndMatches(e: End, v: nat)
    requires GoodEnd(e) && v < TWO32
    ensures And(v, MaskOf(e)) == BaseOf(e) <==> InEnd(e, v)
  {
    if e.Net? {
      MaskedEqualIffInNet(v, Value(e.q), e.prefix);
    }
  }

  /** A prefix of 32 is exactly one address. */
  lemma HostMatchesIff(p: Quad, q: Quad)
    ensures And(Value(p), MaskOf(Net(q, 32))) == BaseOf(Net(q, 32)) <==> p == q
  {
    hide And, Value, MaskOf, BaseOf;
    ValueBounds(p);
    EndMatches(Net(q, 32), Value(p));
    assert Pow2(0) == 1;
    if Value(p) == Value(q) {
      ValueInjective(p, q);
    }
  }

  /** A prefix of 8, 16 or 24 compares the first one, two or three bytes. */
  lemma PrefixIsBytes(p: Quad, q: Quad)
    ensures InEnd(Net(q, 8), Value(p)) <==> p.a == q.a
    ensures InEnd(Net(q, 16), Value(p)) <==> p.a == q.a && p.b == q.b
    ensures InEnd(Net(q, 24), Value(p)) <==> p.a == q.a && p.b == q.b && p.c == q.c
  {
    assert Front(p) == Front(q) <==> p.a == q.a && p.b == q.b && p.c == q.c;
    hide InEnd;
    OneByte(p, q);
    TwoBytes(p, q);
    ThreeBytes(p, q);
  }

  lemma OneByte(p: Quad, q: Quad)
    ensures InEnd(Net(q, 8), Value(p)) <==> p.a == q.a
  {
    hide Pow2;
    PowersOfBytes();
    BlockOf(p.a as nat, q.a as nat, 0x100_0000, Rest(p), Rest(q));
  }

  lemma TwoBytes(p: Quad, q: Quad)
    ensures InEnd(Net(q, 16), Value(p)) <==> p.a == q.a && p.b == q.b
  {
    hide Pow2;
    PowersOfBytes();
    BlockOf(p.a as nat * 256 + p.b as nat, q.a as nat * 256 + q.b as nat, 0x1_0000,
            p.c as nat * 256 + p.d as nat, q.c as nat * 256 + q.d as nat);
  }

  lemma ThreeBytes(p: Quad, q: Quad)
    ensures InEnd(Net(q, 24), Value(p)) <==> p.a == q.a && p.b == q.b && p.c == q.c
  {
    assert Front(p) == Front(q) <==> p.a == q.a && p.b == q.b && p.c == q.c;
    hide Pow2, Value;
    PowersOfBytes();
    LastByte(p);
    LastByte(q);
    hide Front;
    BlockOf(Front(p), Front(q), 0x100, p.d as nat, q.d as nat);
  }

  function Front(q: Quad): nat { (q.a as nat * 256 + q.b as nat) * 256 + q.c as nat }

  lemma LastByte(q: Quad)
    ensures Value(q) == Front(q) * 256 + q.d as nat
  {
  }

  function Rest(q: Quad): nat { (q.b as nat * 256 + q.c as nat) * 256 + q.d as nat }

  lemma PowersOfBytes()
    ensures Pow2(8) == 0x100 && Pow2(16) == 0x1_0000 && Pow2(24) == 0x100_0000
  {
    assert Pow2(4) == 16;
    assert Pow2(8) == 0x100;
    assert Pow2(12) == 0x1000;
    assert Pow2(16) == 0x1_0000;
    assert Pow2(20) == 0x10_0000;
  }

  lemma BlockOf(k: nat, l: nat, m: nat, r: nat, t: nat)
    requires m > 0 && r < m && t < m
    ensures var x, y := k * m + r, l * m + t; y - y % m <= x < y - y % m + m <==> k == l
  {
    DivModUnique(k * m + r, m, k, r);
    DivModUnique(l * m + t, m, l, t);
    Times(k, l, m);
    if k > l {
      AtLeast(k - l, m);
    } else if l > k {
      AtLeast(l - k, m);
    }
  }

  lemma PortMatches(p: Port, n: nat)
    ensures PrintPort(p) == "-" || Dec(n) == PrintPort(p) <==> InPort(p, n)
  {
    if p.Only? {
      assert PrintPort(p) != "-" by {
        assert IsDigit(Dec(p.n)[0]);
      }
      if Dec(n) == Dec(p.n) {
        DecInjective(n, p.n);
      }
    }
  }

  lemma MatchesIffAllows(r: Rule, f: Flow)
    requires GoodRule(r)
    ensures Matches(ConnectionOf(f), Compile(r), Value(f.src), Value(f.dst)) <==> Allows(r, f)
  {
    hide And, InNet, Value, Dec, PrintPort;
    assert PrintMode(f.bind) == PrintMode(r.bind) <==> f.bind == r.bind by {
      assert "b"[0] != "c"[0];
    }
    ValueBounds(f.src);
    ValueBounds(f.dst);
    EndMatches(r.src, Value(f.src));
    EndMatches(r.dst, Value(f.dst));
    PortMatches(r.srcPort, f.srcPort);
    PortMatches(r.dstPort, f.dstPort);
  }

  lemma ValueBounds(q: Quad)
    ensures Value(q) < TWO32
  {
  }

  /** The rules that count: the first hundred. */
  function InForce(conf: seq<ConfLine>): seq<Rule> {
    var rules := RulesOf(conf, |conf|);
    if |rules| <= MAX_RULE then rules else rules[..MAX_RULE]
  }

  ghost predicate Allowed(conf: seq<ConfLine>, f: Flow)
    requires GoodConf(conf)
  {
    exists k :: 0 <= k < |InForce(conf)| && GoodRule(InForce(conf)[k]) && Allows(InForce(conf)[k], f)
  }

  /** End to end: what masks and strings decide is what the rules in force say in numbers. */
  lemma FirewallEndToEnd(conf: seq<ConfLine>, f: Flow)
    requires GoodConf(conf)
    ensures InetAton(ConnectionOf(f).srcip) == Some(Value(f.src))
    ensures InetAton(ConnectionOf(f).dstip) == Some(Value(f.dst))
    ensures PermittedBy(ConnectionOf(f), Capped(Loaded(PrintConf(conf), |conf|))) <==> Allowed(conf, f)
  {
    hide Matches, Allows, Compile, Loaded, RulesOf, Value, InetAton;
    AtonNtoa(f.src);
    AtonNtoa(f.dst);
    LoadedPrinted(conf, |conf|);
    var table, rules := Capped(Loaded(PrintConf(conf), |conf|)), InForce(conf);
    forall k | 0 <= k < |rules|
      ensures GoodRule(rules[k])
      ensures Matches(ConnectionOf(f), table[k], Value(f.src), Value(f.dst)) <==> Allows(rules[k], f)
    {
      assert rules[k] == RulesOf(conf, |conf|)[k];
      MatchesIffAllows(rules[k], f);
    }
  }

  /** The whole check, from the lines of the file to the decision. */
  method Decide(conf: seq<ConfLine>, cnt: Connection, ghost f: Flow) returns (permit: bool)
    requires GoodConf(conf) && cnt == ConnectionOf(f)
    ensures permit <==> Allowed(conf, f)
  {
    hide *;
    FirewallEndToEnd(conf, f);
    var list := new WhiteList();
    NothingMalformed(conf);
    list.GetFirewallRules(PrintConf(conf));
    permit := list.FirewallAccessCheck(cnt);
  }

  lemma NothingMalformed(conf: seq<ConfLine>)
    requires GoodConf(conf)
    ensures |PrintConf(conf)| == |conf| && forall k :: 0 <= k < |conf| ==> ReadLine(PrintConf(conf)[k]) != Malformed
  {
    LoadedPrinted(conf, |conf|);
  }

  ghost predicate SomeRuleAllows(rules: seq<Rule>, f: Flow) {
    exists r :: r in rules && GoodRule(r) && Allows(r, f)
  }

  lemma AllowedByMember(conf: seq<ConfLine>, f: Flow)
    requires GoodConf(conf) && |RulesOf(conf, |conf|)| <= MAX_RULE
    ensures Allowed(conf, f) <==> SomeRuleAllows(RulesOf(conf, |conf|), f)
  {
    hide Allows, RulesOf, GoodRule, GoodConf;
    var rules := RulesOf(conf, |conf|);
    assert InForce(conf) == rules;
    if SomeRuleAllows(rules, f) {
      var r :| r in rules && GoodRule(r) && Allows(r, f);
      var k :| 0 <= k < |rules| && rules[k] == r;
      assert Allows(InForce(conf)[k], f);
    }
  }

  /** Up to a hundred rules, their order does not matter. */
  lemma OrderDoesNotMatter(conf: seq<ConfLine>, conf': seq<ConfLine>, f: Flow)
    requires GoodConf(conf) && GoodConf(conf')
    requires multiset(RulesOf(conf, |conf|)) == multiset(RulesOf(conf', |conf'|))
    requires |RulesOf(conf, |conf|)| <= 100
    ensures Allowed(conf, f) <==> Allowed(conf', f)
  {
    hide Allows, RulesOf, GoodRule, GoodConf, Allowed;
    var a, b := RulesOf(conf, |conf|), RulesOf(conf', |conf'|);
    assert |multiset(a)| == |a| && |multiset(b)| == |b|;
    AllowedByMember(conf, f);
    AllowedByMember(conf', f);
    forall r ensures r in a <==> r in b {
      assert r in multiset(a) <==> r in multiset(b);
    }
  }

  /** Beyond a hundred it does: a rule after the hundredth permits nothing. */
  lemma LateRuleIsIgnored(conf: seq<ConfLine>, late: Rule, f: Flow)
    requires GoodConf(conf) && GoodRule(late) && |RulesOf(conf, |conf|)| >= 100
    ensures GoodConf(conf + [Line(late)]) && (Allowed(conf + [Line(late)], f) <==> Allowed(conf, f))
  {
    hide Allows;
    var conf' := conf + [Line(late)];
    forall i | 0 <= i < |conf'| ensures GoodLine(conf'[i]) {
      assert i < |conf| ==> conf'[i] == conf[i];
    }
    SamePrefix(conf, conf', |conf|);
    assert InForce(conf') == InForce(conf);
  }

  /** A hundred rules for CONNECT, then one that permits every BIND: BIND is denied. */
  lemma RuleOneHundredAndOne(f: Flow)
    requires f.bind
    ensures var conf := seq(100, _ => Line(Anything(false))) + [Line(Anything(true))];
            && GoodConf(conf) && conf[100] == Line(Anything(true)) && Allows(Anything(true), f)
            && !Allowed(conf, f)
            && InetAton(ConnectionOf(f).srcip).Some? && InetAton(ConnectionOf(f).dstip).Some?
            && !PermittedBy(ConnectionOf(f), Capped(Loaded(PrintConf(conf), |conf|)))
  {
    hide InetAton, ConnectionOf, PermittedBy, Loaded, Capped;
    var front := seq(MAX_RULE, _ => Line(Anything(false)));
    OnlyThisRule(front, Anything(false), MAX_RULE);
    LateRuleIsIgnored(front, Anything(true), f);
    FirewallEndToEnd(front + [Line(Anything(true))], f);
  }

  /** The rule that permits every CONNECT, or every BIND. */
  function Anything(bind: bool): Rule { Rule(bind, AnyAddress, AnyPort, AnyAddress, AnyPort) }

  lemma {:induction false} OnlyThisRule(conf: seq<ConfLine>, r: Rule, n: nat)
    requires n <= |conf| && forall i :: 0 <= i < |conf| ==> conf[i] == Line(r)
    ensures |RulesOf(conf, n)| == n && forall k :: 0 <= k < n ==> RulesOf(conf, n)[k] == r
  {
    if n != 0 {
      OnlyThisRule(conf, r, n - 1);
    }
  }

  lemma {:induction false} SamePrefix(conf: seq<ConfLine>, conf': seq<ConfLine>, n: nat)
    requires n <= |conf| <= |conf'| && forall i :: 0 <= i < n ==> conf'[i] == conf[i]
    ensures RulesOf(conf', n) == RulesOf(conf, n)
  {
    if n != 0 {
      SamePrefix(conf, conf', n - 1);
    }
  }
}
