/** IPv4 addresses as four bytes, as text and as numbers (inet_ntoa, inet_aton, ntohl). */
module Address {
  import opened Common
  import opened Text
  import opened FrontEnd

  datatype Quad = Quad(a: byte, b: byte, c: byte, d: byte)

  /** ntohl: the number whose most significant byte is the first. */
  function Value(q: Quad): (v: nat)
    ensures v < 0x1_0000_0000
  {
    ((q.a as nat * 256 + q.b as nat) * 256 + q.c as nat) * 256 + q.d as nat
  }

  /** inet_ntoa, and "%u.%u.%u.%u". */
  function PrintQuad(q: Quad): string {
    Dec(q.a as nat) + "." + Dec(q.b as nat) + "." + Dec(q.c as nat) + "." + Dec(q.d as nat)
  }

  const DOT: Delims := {'.', '\r', '\n'}

  predicate IsByteText(s: string) { Canonical(s) && Atoi(s) < 256 }

  /** inet_aton on four canonical decimal bytes; nothing else is an address here. */
  function InetAton(s: string): Option<nat> {
    var w := Words(s, DOT);
    if |w| == 4 && IsByteText(w[0]) && IsByteText(w[1]) && IsByteText(w[2]) && IsByteText(w[3])
       && s == w[0] + "." + w[1] + "." + w[2] + "." + w[3]
    then Some(((Atoi(w[0]) * 256 + Atoi(w[1])) * 256 + Atoi(w[2])) * 256 + Atoi(w[3]))
    else None
  }

  /** Another word after a delimiter. */
  lemma WordsAdd(s: string, c: char, w: string, d: Delims)
    requires c in d && Plain(w, d)
    ensures Words(s + [c] + w, d) == Words(s, d) + [w]
  {
    WordsSnoc(s, c, d);
    WordsConcat(s + [c], w, d);
    PlainIsOneWord(w, d);
  }

  lemma DecPlain(n: nat, d: Delims)
    requires forall c :: c in d ==> !IsDigit(c)
    ensures Plain(Dec(n), d)
  {
  }

  lemma ByteText(b: byte)
    ensures IsByteText(Dec(b as nat)) && Atoi(Dec(b as nat)) == b as nat && Plain(Dec(b as nat), DOT)
  {
    DecCanonical(b as nat);
    AtoiDec(b as nat);
  }

  lemma QuadWords(q: Quad)
    ensures Words(PrintQuad(q), DOT) == [Dec(q.a as nat), Dec(q.b as nat), Dec(q.c as nat), Dec(q.d as nat)]
  {
    hide Words;
    ByteText(q.a);
    ByteText(q.b);
    ByteText(q.c);
    ByteText(q.d);
    PlainIsOneWord(Dec(q.a as nat), DOT);
    WordsAdd(Dec(q.a as nat), '.', Dec(q.b as nat), DOT);
    WordsAdd(Dec(q.a as nat) + "." + Dec(q.b as nat), '.', Dec(q.c as nat), DOT);
    WordsAdd(Dec(q.a as nat) + "." + Dec(q.b as nat) + "." + Dec(q.c as nat), '.', Dec(q.d as nat), DOT);
  }

  /** Reading a printed address gives its number. */
  lemma AtonNtoa(q: Quad)
    ensures InetAton(PrintQuad(q)) == Some(Value(q))
  {
    QuadWords(q);
    ByteText(q.a);
    ByteText(q.b);
    ByteText(q.c);
    ByteText(q.d);
  }

  /** Different addresses have different numbers. */
  lemma ValueInjective(p: Quad, q: Quad)
    requires Value(p) == Value(q)
    ensures p == q
  {
  }

  /** The loops that take an address text apart with strtok and atoi, as in the
      request of the client and the look-up of the server. */
  method QuadOfText(s: string) returns (bytes: seq<byte>)
    requires forall i :: 0 <= i < |Words(s, DOT)| ==> AllDigits(Words(s, DOT)[i])
    ensures |bytes| <= 4 && |bytes| == (if |Words(s, DOT)| < 4 then |Words(s, DOT)| else 4)
    ensures forall i :: 0 <= i < |bytes| ==> bytes[i] as nat == Atoi(Words(s, DOT)[i]) % 256
  {
    hide Words;
    bytes := [];
    var tok, last := Strtok(s, 0, DOT);
    assert s[0..] == s;
    ghost var w, left := Words(s, DOT), Words(s, DOT);
    while |bytes| <= 3 && tok.Some?
      invariant |bytes| <= 4 && last <= |s| && |bytes| <= |w| && left == w[|bytes|..]
      invariant if tok.Some? then left == [tok.value] + Words(s[last..], DOT) else left == []
      invariant forall i :: 0 <= i < |bytes| ==> bytes[i] as nat == Atoi(w[i]) % 256
      decreases if tok.Some? then |s| - last + 1 else 0
    {
      assert tok.value == left[0] == w[|bytes|];
      bytes := bytes + [(Atoi(tok.value) % 256) as byte];
      left := left[1..];
      tok, last := Strtok(s, last, DOT);
    }
  }
}
