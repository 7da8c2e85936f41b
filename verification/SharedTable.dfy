/**
 All clients of Project2/select in one process (netshell.c): one descriptor
 table, one shell per client, and one client served at a time. However their
 lines are interleaved, every client sees exactly what it would see alone.
 */
module SharedTable {
  import opened Common
  import opened Routing
  import opened Kernel
  import opened LineList
  import opened Ledger
  import opened Engine

  // ---------- what a client leaves to the others ----------

  /** A descriptor of this client; 0, 1 and 2 are everybody's. */
  predicate Mine(b: Books, f: int) { f in b.role && b.role[f] != Other }

  ghost predicate OwnsPipe(b: Books, p: nat) {
    exists f :: OwnEnd(b, f, p)
  }

  predicate OwnEnd(b: Books, f: int, p: nat) {
    Mine(b, f) && f in b.fds && IsEnd(b.fds[f]) && b.fds[f].pipe == p
  }

  /** What a client owns is as it left it, and nobody else has an end of its pipes. */
  ghost predicate Kept(b: Books, fds: Table, npipes: nat) {
    && (forall f :: Mine(b, f) ==> f in fds && f in b.fds && fds[f] == b.fds[f])
    && (forall f :: f in fds ==> f >= 0 && (IsEnd(fds[f]) ==> fds[f].pipe < npipes))
    && (forall f :: f in fds && !Mine(b, f) && IsEnd(fds[f]) ==> !OwnsPipe(b, fds[f].pipe))
  }

  /** Two clients share no descriptor but 0, 1 and 2. */
  ghost predicate Apart(b: Books, c: Books) {
    forall f :: Mine(b, f) && Mine(c, f) ==> f <= 2
  }

  /** The books of a client that is served again. */
  ghost function Adopted(b: Books, fds: Table, npipes: nat): Books {
    b.(fds := fds, role := map f | f in fds :: if Mine(b, f) then b.role[f] else Other, npipes := npipes,
       foreign := map f | f in fds && !Mine(b, f) :: fds[f],
       theirs := set p | p in Upto(npipes) && !OwnsPipe(b, p))
  }

  lemma AdoptedBalanced(b: Books, fds: Table, npipes: nat)
    requires Balanced(b) && Kept(b, fds, npipes)
    ensures Balanced(Adopted(b, fds, npipes))
  {
    hide Accounted, Wired, Standard;
    AdoptedStandard(b, fds, npipes);
    var b' := Adopted(b, fds, npipes);
    forall i | i in b'.pid ensures Wired(b', i) {
      AdoptedWired(b, fds, npipes, i);
    }
    forall f | f in b'.fds ensures f in b'.role && Accounted(b', f) {
      AdoptedAccounted(b, fds, npipes, f);
    }
  }

  lemma AdoptedStandard(b: Books, fds: Table, npipes: nat)
    requires Balanced(b) && Kept(b, fds, npipes)
    ensures Standard(Adopted(b, fds, npipes))
    ensures b.hand <= fds.Keys && b.spent <= fds.Keys && b.wasted <= fds.Keys
  {
    hide Balanced;
    StandardIn(b);
    forall f | f in b.hand + b.spent + b.wasted ensures f in fds {
      AccountedAt(b, f);
    }
  }

  lemma AdoptedWired(b: Books, fds: Table, npipes: nat, i: nat)
    requires Balanced(b) && Kept(b, fds, npipes) && i in b.pid
    ensures Wired(Adopted(b, fds, npipes), i)
  {
    hide Balanced;
    WiredAt(b, i);
    var w := b.nodes[i].fdWritein;
    assert OwnEnd(b, w, b.pid[i]);
    forall f | f in fds && fds[f] == WriteEnd(b.pid[i]) ensures f == w {
      assert Mine(b, f);
    }
  }

  lemma AdoptedAccounted(b: Books, fds: Table, npipes: nat, f: int)
    requires Balanced(b) && Kept(b, fds, npipes) && f in fds
    ensures f in Adopted(b, fds, npipes).role && Accounted(Adopted(b, fds, npipes), f)
  {
    hide Balanced;
    StandardIn(b);
    if f in b.fds {
      AccountedAt(b, f);
    }
    if Mine(b, f) && IsEnd(fds[f]) {
      assert OwnEnd(b, f, fds[f].pipe);
    }
  }

  /** While c is served, books `c1`, the others find everything as they left it. */
  lemma OthersKept(c0: Books, c1: Books, b: Books, t: Books, fds: Table, npipes: nat)
    requires Balanced(t) && Balanced(c1) && c0 == Adopted(b, fds, npipes)
    requires c1.foreign == c0.foreign && c1.theirs == c0.theirs
    requires Kept(t, fds, npipes) && Kept(b, fds, npipes) && Apart(b, t)
    ensures Kept(t, c1.fds, c1.npipes) && Apart(c1, t)
    ensures forall p: nat :: OwnsPipe(t, p) ==> p in c1.theirs
  {
    hide Balanced;
    StandardIn(c1);
    StandardIn(t);
    forall f | Mine(t, f) ensures f in c1.fds && f in t.fds && c1.fds[f] == t.fds[f] && (f > 2 ==> !Mine(c1, f)) {
      StaysForeign(c0, c1, b, t, fds, npipes, f);
    }
    forall p: nat | OwnsPipe(t, p) ensures p in c1.theirs {
      PipeStaysForeign(b, t, fds, npipes, p);
    }
    forall f | f in c1.fds && !Mine(t, f) && IsEnd(c1.fds[f]) ensures !OwnsPipe(t, c1.fds[f].pipe) {
      AccountedAt(c1, f);
    }
  }

  lemma StaysForeign(c0: Books, c1: Books, b: Books, t: Books, fds: Table, npipes: nat, f: int)
    requires Balanced(t) && Balanced(c1) && c0 == Adopted(b, fds, npipes) && c1.foreign == c0.foreign
    requires Kept(t, fds, npipes) && Apart(b, t) && Mine(t, f)
    ensures f in c1.fds && f in t.fds && c1.fds[f] == t.fds[f] && (f > 2 ==> !Mine(c1, f))
  {
    hide Balanced;
    StandardIn(c1);
    StandardIn(t);
    if f > 2 {
      assert f in c0.foreign && c0.foreign[f] == t.fds[f];
      AccountedAt(c1, f);
    }
  }

  lemma PipeStaysForeign(b: Books, t: Books, fds: Table, npipes: nat, p: nat)
    requires Balanced(t) && Kept(t, fds, npipes) && Kept(b, fds, npipes) && Apart(b, t) && OwnsPipe(t, p)
    ensures p in Adopted(b, fds, npipes).theirs
  {
    hide Balanced;
    StandardIn(t);
    var f :| OwnEnd(t, f, p);
    forall g ensures !OwnEnd(b, g, p) {
    }
    assert !OwnsPipe(b, p);
  }

  // ---------- what the clients should see ----------

  /** Somebody connects; client k (in the order of connecting) types a line, or leaves. */
  datatype Event = Join(linecount: int) | Types(k: nat, l: Line) | Leaves(k: nat)

  function Joined(events: seq<Event>): nat {
    if events == [] then 0
    else Joined(events[..|events| - 1]) + if events[|events| - 1].Join? then 1 else 0
  }

  /** Client k has connected and not left. */
  predicate Present(events: seq<Event>, k: nat) {
    events != [] &&
    var front, e := events[..|events| - 1], events[|events| - 1];
    if e.Join? && k == Joined(front) then true else e != Leaves(k) && Present(front, k)
  }

  lemma {:induction false} PresentJoined(events: seq<Event>, k: nat)
    requires Present(events, k)
    ensures k < Joined(events)
  {
    var front, e := events[..|events| - 1], events[|events| - 1];
    if !(e.Join? && k == Joined(front)) {
      PresentJoined(front, k);
    }
  }

  /** The lines of client k, in order. */
  function Typed(events: seq<Event>, k: nat): seq<Line> {
    if events == [] then []
    else
      var front, e := events[..|events| - 1], events[|events| - 1];
      Typed(front, k) + if e.Types? && e.k == k && Present(front, k) then [e.l] else []
  }

  /** A client's session, alone. */
  function Alone(v: Variant, lines: seq<Line>): Office { Session(v, lines, |lines|) }

  /** The files are all that clients share. */
  function Private(o: Office): Office { o.(files := map[]) }

  function Files(v: Variant, events: seq<Event>): map<string, Bytes> {
    if events == [] then map[]
    else
      var front, e := events[..|events| - 1], events[|events| - 1];
      if e.Types? && Present(front, e.k) then
        Step(v, Alone(v, Typed(front, e.k)).(files := Files(v, front)), e.l).files
      else Files(v, front)
  }

  /** The pipe ends a client has open. */
  function Ends(o: Office): nat { 2 * |o.waiting| + o.lost + o.wasted }

  /** The pipe ends that departed clients have left open. */
  function Leaked(v: Variant, events: seq<Event>): nat {
    if events == [] then 0
    else
      var front, e := events[..|events| - 1], events[|events| - 1];
      Leaked(v, front) + if e.Leaves? && Present(front, e.k) then Ends(Alone(v, Typed(front, e.k))) else 0
  }

  /** The pipe ends open in the table, those of the first n clients and those left behind. */
  function OpenUpTo(v: Variant, events: seq<Event>, n: nat): nat {
    if n == 0 then Leaked(v, events)
    else OpenUpTo(v, events, n - 1) + if Present(events, n - 1) then Ends(Alone(v, Typed(events, n - 1))) else 0
  }

  /** What a line does to the private part does not depend on the files. */
  lemma StepIsPrivate(v: Variant, o: Office, files: map<string, Bytes>, l: Line)
    ensures Private(Step(v, o.(files := files), l)) == Private(Step(v, o, l))
  {
    hide Pipeline, Shown, Filed, Left, Parcel;
  }

  lemma AloneGrows(v: Variant, lines: seq<Line>, l: Line)
    ensures Alone(v, lines + [l]) == Step(v, Alone(v, lines), l)
  {
    Routing.SessionGrows(v, lines, l);
  }

  lemma OneMoreEvent(events: seq<Event>, n: nat)
    requires n < |events|
    ensures events[..n + 1][..n] == events[..n] && events[..n + 1][n] == events[n]
  {
  }

  // ---------- one process for all ----------

  function DeskOf(io: Io, c: int): Desk {
    if c == io.socket then Desk(io.client, io.log)
    else if c in io.aside then io.aside[c]
    else Desk([], [])
  }

  ghost predicate HasDesk(io: Io, c: int) { c == io.socket || c in io.aside }

  lemma TurnedKeepsDesks(io: Io, c: int, d: int)
    requires c in io.aside && c != io.socket
    ensures DeskOf(Turned(io, c), d) == DeskOf(io, d)
    ensures HasDesk(io, d) ==> HasDesk(Turned(io, c), d)
  {
  }

  /** A client's share of the process, as the post office sees it; no files. */
  ghost function OfficeOf(s: Shell, io: Io): Office
    reads s, s.list
  {
    Office(s.list.at, Waiting(s.pid, io.pipes), DeskOf(io, s.clifd).client, map[], DeskOf(io, s.clifd).log,
           |s.spent|, |s.wasted|)
  }

  lemma WaitingKept(b: Books, pipes: seq<Bytes>, pipes': seq<Bytes>)
    requires Balanced(b)
    requires forall p: nat :: OwnsPipe(b, p) ==> p < |pipes| && p < |pipes'| && pipes'[p] == pipes[p]
    ensures Waiting(b.pid, pipes') == Waiting(b.pid, pipes)
  {
    hide Balanced;
    forall i | i in b.pid ensures b.pid[i] < |pipes| && b.pid[i] < |pipes'| && pipes'[b.pid[i]] == pipes[b.pid[i]] {
      WiredAt(b, i);
      assert OwnEnd(b, b.nodes[i].fdWritein, b.pid[i]);
      assert OwnsPipe(b, b.pid[i]);
    }
  }

  /** After its line a client's own books fit the process. */
  lemma SelfKept(c0: Books, c1: Books, b: Books, fds: Table, npipes: nat)
    requires Balanced(c1) && c0 == Adopted(b, fds, npipes) && Kept(b, fds, npipes)
    requires c1.foreign == c0.foreign && c1.theirs == c0.theirs
    ensures Kept(c1, c1.fds, c1.npipes)
  {
    hide Balanced;
    StandardIn(c1);
    forall f | f in c1.fds && !Mine(c1, f) && IsEnd(c1.fds[f]) ensures !OwnsPipe(c1, c1.fds[f].pipe) {
      AccountedAt(c1, f);
      var p := c1.fds[f].pipe;
      assert p in c1.theirs;
      forall g ensures !OwnEnd(c1, g, p) {
        if g in c1.fds {
          AccountedAt(c1, g);
        }
      }
    }
  }

  /** The books of one client fit the process as it is now. */
  ghost predicate Fits(b: Books, fds: Table, io: Io) {
    Kept(b, fds, |io.pipes|) && HasDesk(io, b.clifd)
  }

  /** One client's line leaves another client's share as it was. */
  lemma OtherSeated(b: Books, c1: Books, t: Books, fds: Table, io: Io, io': Io)
    requires Balanced(b) && Balanced(t) && Balanced(c1) && Kept(b, fds, |io.pipes|) && Fits(t, fds, io) && Apart(b, t)
    requires c1.foreign == Adopted(b, fds, |io.pipes|).foreign && c1.theirs == Adopted(b, fds, |io.pipes|).theirs
    requires c1.npipes == |io'.pipes| && io'.aside == io.aside && io'.socket == io.socket == b.clifd
    requires forall p :: p in c1.theirs ==> p < |io.pipes| && p < |io'.pipes| && io'.pipes[p] == io.pipes[p]
    ensures Fits(t, c1.fds, io') && Apart(c1, t) && Apart(t, c1)
    ensures Waiting(t.pid, io'.pipes) == Waiting(t.pid, io.pipes) && DeskOf(io', t.clifd) == DeskOf(io, t.clifd)
  {
    hide Balanced, Kept, Waiting, OwnsPipe;
    OthersKept(Adopted(b, fds, |io.pipes|), c1, b, t, fds, |io.pipes|);
    WaitingKept(t, io.pipes, io'.pipes);
    StandardIn(b);
    StandardIn(t);
    assert Mine(b, b.clifd) && Mine(t, t.clifd);
  }

  /** What every client relies on. */
  ghost predicate Ground(fds: Table, io: Io) {
    && 0 in fds && fds[0] == Console && 1 in fds && fds[1] == Console && 2 in fds && fds[2] == Console
    && (forall f :: f in fds ==> f >= 0 && (IsEnd(fds[f]) ==> fds[f].pipe < |io.pipes|))
    && (io.socket == -1 || io.socket in fds)
  }

  lemma ServedIsGround(b: Books, io: Io)
    requires Balanced(b) && b.npipes == |io.pipes| && io.socket == b.clifd
    ensures Ground(b.fds, io) && io.socket >= 3
  {
    hide Balanced;
    StandardIn(b);
  }

  /** The process once somebody has connected and is served. */
  function Accepted(io: Io, clifd: int): Io { Turned(io.(aside := io.aside[clifd := Desk([], [])]), clifd) }

  /** The number of the next socket. */
  ghost predicate CanAccept(fds: Table, io: Io, clifd: int) {
    clifd !in fds && clifd >= 3 && clifd != io.socket && -1 !in fds
  }

  lemma AllKept(rest: seq<Books>, here: seq<bool>, fds: Table, io: Io, clifd: int)
    requires |here| == |rest| && CanAccept(fds, io, clifd) && AllFit(rest, here, fds, io)
    requires var fds', io' := fds[clifd := Client(clifd)], Accepted(io, clifd);
             var b := Newcomer(fds', clifd, |io'.pipes|, Blank(0, 0)); Balanced(b) && Fits(b, fds', io')
    ensures var fds', io' := fds[clifd := Client(clifd)], Accepted(io, clifd);
            && AllFit(rest + [Newcomer(fds', clifd, |io'.pipes|, Blank(0, 0))], here + [true], fds', io')
            && io'.pipes == io.pipes && io'.files == io.files
            && forall j :: 0 <= j < |rest| && here[j] ==> DeskOf(io', rest[j].clifd) == DeskOf(io, rest[j].clifd)
  {
    hide Balanced, Fits, Apart, DeskOf, Newcomer;
    forall j | 0 <= j < |rest| && here[j]
      ensures var fds', io' := fds[clifd := Client(clifd)], Accepted(io, clifd);
              var b := Newcomer(fds', clifd, |io.pipes|, Blank(0, 0));
              && Fits(rest[j], fds', io') && DeskOf(io', rest[j].clifd) == DeskOf(io, rest[j].clifd)
              && Apart(b, rest[j]) && Apart(rest[j], b)
    {
      OldClientKept(rest[j], fds, io, clifd);
    }
  }

  lemma OldClientKept(t: Books, fds: Table, io: Io, clifd: int)
    requires Balanced(t) && Fits(t, fds, io) && CanAccept(fds, io, clifd)
    ensures var fds', io' := fds[clifd := Client(clifd)], Accepted(io, clifd);
            && Fits(t, fds', io') && DeskOf(io', t.clifd) == DeskOf(io, t.clifd)
            && Apart(Newcomer(fds', clifd, |io.pipes|, Blank(0, 0)), t)
            && Apart(t, Newcomer(fds', clifd, |io.pipes|, Blank(0, 0)))
  {
    hide Balanced;
    StandardIn(t);
    assert Mine(t, t.clifd);
  }

  lemma NewcomerFits(fds: Table, io: Io, clifd: int)
    requires Usable(fds, clifd, |io.pipes|) && io.socket == clifd
    ensures Fits(Newcomer(fds, clifd, |io.pipes|, Blank(0, 0)), fds, io)
  {
  }

  /** The books of all clients fit the process, and each other. */
  ghost predicate AllFit(rest: seq<Books>, here: seq<bool>, fds: Table, io: Io)
    requires |here| == |rest|
  {
    && (forall k :: 0 <= k < |rest| && here[k] ==> Balanced(rest[k]) && Fits(rest[k], fds, io))
    && (forall j, k :: 0 <= j < |rest| && 0 <= k < |rest| && here[j] && here[k] && j != k ==> Apart(rest[j], rest[k]))
  }

  /** The pipe ends that departed clients left: still open, and nobody's; every
      other pipe end belongs to somebody present. */
  ghost predicate Forsaken(orphans: map<int, Desc>, rest: seq<Books>, here: seq<bool>, fds: Table)
    requires |here| == |rest|
  {
    && (forall f :: f in orphans ==> f > 2 && f in fds && fds[f] == orphans[f] && IsEnd(fds[f]))
    && (forall k, f :: 0 <= k < |rest| && here[k] && f in orphans ==> !Mine(rest[k], f))
    && (forall f :: f in fds && IsEnd(fds[f]) && f !in orphans ==> HasOwner(rest, here, f))
  }

  ghost predicate HasOwner(rest: seq<Books>, here: seq<bool>, f: int)
    requires |here| == |rest|
  {
    exists k :: 0 <= k < |rest| && here[k] && Mine(rest[k], f)
  }

  lemma FitAgain(rest: seq<Books>, here: seq<bool>, fds: Table, io: Io, io': Io)
    requires |here| == |rest| && AllFit(rest, here, fds, io)
    requires io'.pipes == io.pipes && forall d :: HasDesk(io, d) ==> HasDesk(io', d)
    ensures AllFit(rest, here, fds, io')
  {
    hide Kept, HasDesk, Balanced, Apart;
  }

  lemma NewcomerOwnsNoEnd(orphans: map<int, Desc>, rest: seq<Books>, here: seq<bool>, fds: Table, clifd: int,
                          npipes: nat)
    requires |here| == |rest| && Forsaken(orphans, rest, here, fds) && clifd !in fds && clifd >= 3
    ensures var fds' := fds[clifd := Client(clifd)];
            Forsaken(orphans, rest + [Newcomer(fds', clifd, npipes, Blank(0, 0))], here + [true], fds')
  {
    var fds' := fds[clifd := Client(clifd)];
    var rest', here' := rest + [Newcomer(fds', clifd, npipes, Blank(0, 0))], here + [true];
    forall f | f in fds' && IsEnd(fds'[f]) && f !in orphans ensures HasOwner(rest', here', f) {
      assert HasOwner(rest, here, f);
      var k :| 0 <= k < |rest| && here[k] && Mine(rest[k], f);
      assert here'[k] && rest'[k] == rest[k];
    }
  }

  /** A line of client k leaves what departed clients left as it is. */
  lemma StillForsaken(orphans: map<int, Desc>, rest: seq<Books>, here: seq<bool>, k: nat, c: Books, fds: Table,
                      npipes: nat)
    requires k < |here| == |rest| && here[k] && Balanced(rest[k]) && Balanced(c)
    requires Forsaken(orphans, rest, here, fds) && Kept(rest[k], fds, npipes)
    requires c.foreign == Adopted(rest[k], fds, npipes).foreign
    ensures Forsaken(orphans, rest[k := c], here, c.fds)
  {
    hide Balanced;
    StandardIn(c);
    var rest' := rest[k := c];
    forall f | f in orphans ensures f in c.fds && c.fds[f] == orphans[f] && !Mine(c, f) {
      assert !Mine(rest[k], f) && f in c.foreign;
      AccountedAt(c, f);
    }
    forall f | f in c.fds && IsEnd(c.fds[f]) && f !in orphans ensures HasOwner(rest', here, f) {
      if Mine(c, f) {
        assert rest'[k] == c;
      } else {
        AccountedAt(c, f);
        assert f in fds && fds[f] == c.fds[f] && !Mine(rest[k], f);
        assert HasOwner(rest, here, f);
        var j :| 0 <= j < |rest| && here[j] && Mine(rest[j], f);
        assert rest'[j] == rest[j];
      }
    }
  }

  // ---------- a client leaves ----------

  /** The pipe ends a client has open. */
  function OwnEnds(b: Books): map<int, Desc> {
    map f | f in b.fds && Mine(b, f) && IsEnd(b.fds[f]) :: b.fds[f]
  }

  lemma {:induction false} ImageSize(s: set<nat>, g: nat -> int)
    requires forall i, j :: i in s && j in s && g(i) == g(j) ==> i == j
    ensures |set i | i in s :: g(i)| == |s|
  {
    if s != {} {
      var x :| x in s;
      ImageSize(s - {x}, g);
      assert (set i | i in s :: g(i)) == (set i | i in s - {x} :: g(i)) + {g(x)};
    }
  }

  /** They are the two ends of each pipe that waits for a later line, and those its
      lines left open. */
  lemma OwnEndsCount(b: Books)
    requires Balanced(b) && b.hand == {}
    ensures |OwnEnds(b)| == 2 * |b.pid| + |b.spent| + |b.wasted|
  {
    hide Balanced, OwnEnds, Wired, StoredRead, StoredWrite;
    StoredApart(b);
    var r, w := (i: nat) => StoredRead(b, i), (i: nat) => StoredWrite(b, i);
    var ins, outs := set i | i in b.pid.Keys :: r(i), set i | i in b.pid.Keys :: w(i);
    ImageSize(b.pid.Keys, r);
    ImageSize(b.pid.Keys, w);
    EndsByRole(b, ins, outs);
    FourParts(OwnEnds(b), ins, outs, b.spent, b.wasted);
    assert |b.pid.Keys| == |b.pid|;
  }

  lemma FourParts(m: map<int, Desc>, a: set<int>, b: set<int>, c: set<int>, d: set<int>)
    requires m.Keys == a + b + c + d && a !! b && (a + b) !! c && (a + b + c) !! d
    ensures |m| == |a| + |b| + |c| + |d|
  {
    assert |m.Keys| == |m|;
    assert |a + b| == |a| + |b| && |a + b + c| == |a + b| + |c|;
  }

  function StoredRead(b: Books, i: nat): int { if i < |b.nodes| then b.nodes[i].fdReadout else -1 }

  function StoredWrite(b: Books, i: nat): int { if i < |b.nodes| then b.nodes[i].fdWritein else -1 }

  /** No two nodes store the same end. */
  lemma StoredApart(b: Books)
    requires Balanced(b)
    ensures forall i :: i in b.pid ==> i < |b.nodes|
    ensures forall i, j :: i in b.pid && j in b.pid && StoredRead(b, i) == StoredRead(b, j) ==> i == j
    ensures forall i, j :: i in b.pid && j in b.pid && StoredWrite(b, i) == StoredWrite(b, j) ==> i == j
  {
    hide Balanced;
    forall i | i in b.pid ensures Wired(b, i) {
      WiredAt(b, i);
    }
  }

  lemma EndsByRole(b: Books, ins: set<int>, outs: set<int>)
    requires Balanced(b) && b.hand == {}
    requires ins == set i | i in b.pid.Keys :: StoredRead(b, i)
    requires outs == set i | i in b.pid.Keys :: StoredWrite(b, i)
    ensures OwnEnds(b).Keys == ins + outs + b.spent + b.wasted
    ensures ins !! outs && (ins + outs) !! b.spent && (ins + outs + b.spent) !! b.wasted
  {
    hide Balanced, OwnEnds, Wired, Holds, StoredRead, StoredWrite;
    forall f ensures f in ins <==> f in b.role && b.role[f].In? {
      StoredByRole(b, f);
    }
    forall f ensures f in outs <==> f in b.role && b.role[f].Into? {
      StoredByRole(b, f);
    }
    forall f ensures f in b.spent <==> f in b.role && b.role[f].Spent? {
      EndByRole(b, f);
    }
    forall f ensures f in b.wasted <==> f in b.role && b.role[f].Wasted? {
      EndByRole(b, f);
    }
    forall f ensures f in OwnEnds(b) <==> f in ins + outs + b.spent + b.wasted {
      EndByRole(b, f);
    }
  }

  /** The ends the nodes store are those with the role of a stored end. */
  lemma StoredByRole(b: Books, f: int)
    requires Balanced(b)
    ensures (exists i :: i in b.pid && StoredRead(b, i) == f) <==> f in b.role && b.role[f].In?
    ensures (exists i :: i in b.pid && StoredWrite(b, i) == f) <==> f in b.role && b.role[f].Into?
  {
    hide Balanced;
    StandardIn(b);
    forall i | i in b.pid ensures Wired(b, i) {
      WiredAt(b, i);
    }
    if f in b.role {
      AccountedAt(b, f);
      match b.role[f]
      case In(i) => assert StoredRead(b, i) == f;
      case Into(i) => assert StoredWrite(b, i) == f;
      case _ =>
    }
  }

  lemma EndByRole(b: Books, f: int)
    requires Balanced(b) && b.hand == {}
    ensures f in OwnEnds(b) <==>
            f in b.role && (b.role[f].In? || b.role[f].Into? || b.role[f].Spent? || b.role[f].Wasted?)
    ensures f in b.spent <==> f in b.role && b.role[f].Spent?
    ensures f in b.wasted <==> f in b.role && b.role[f].Wasted?
  {
    hide Balanced;
    StandardIn(b);
    if f in b.fds {
      AccountedAt(b, f);
      match b.role[f]
      case In(i) => WiredAt(b, i);
      case Into(i) => WiredAt(b, i);
      case _ =>
    }
  }

  /** The process once the client being served has hung up. */
  function HungUp(io: Io): Io { io.(socket := -1, client := [], log := []) }

  lemma StayerFits(b: Books, t: Books, fds: Table, io: Io)
    requires Balanced(b) && Balanced(t) && Fits(t, fds, io) && Apart(t, b) && io.socket == b.clifd
    ensures Fits(t, fds - {io.socket}, HungUp(io)) && DeskOf(HungUp(io), t.clifd) == DeskOf(io, t.clifd)
  {
    hide Balanced, OwnsPipe;
    StandardIn(b);
    StandardIn(t);
    assert Mine(b, b.clifd) && Mine(t, t.clifd);
  }

  /** Nobody who stays notices. */
  lemma StayersFit(rest: seq<Books>, here: seq<bool>, k: nat, fds: Table, io: Io)
    requires k < |here| == |rest| && here[k] && io.socket == rest[k].clifd && AllFit(rest, here, fds, io)
    ensures AllFit(rest, here[k := false], fds - {io.socket}, HungUp(io))
    ensures forall j :: 0 <= j < |rest| && here[j] && j != k ==>
              DeskOf(HungUp(io), rest[j].clifd) == DeskOf(io, rest[j].clifd)
  {
    hide Balanced, Fits, Apart, DeskOf, HungUp;
    forall j | 0 <= j < |rest| && here[j] && j != k
      ensures Fits(rest[j], fds - {io.socket}, HungUp(io))
      ensures DeskOf(HungUp(io), rest[j].clifd) == DeskOf(io, rest[j].clifd)
    {
      StayerFits(rest[k], rest[j], fds, io);
    }
  }

  lemma OwnEndsOpen(b: Books, fds: Table, io: Io)
    requires Balanced(b) && Fits(b, fds, io)
    ensures b.clifd !in OwnEnds(b)
    ensures forall f :: f in OwnEnds(b) ==> f > 2 && f in fds && fds[f] == OwnEnds(b)[f] && IsEnd(fds[f])
    ensures forall f :: f in fds && IsEnd(fds[f]) && Mine(b, f) ==> f in OwnEnds(b)
  {
    hide Balanced, OwnsPipe;
    StandardIn(b);
  }

  /** What the leaver had open stays open, and is nobody's. */
  lemma Departs(orphans: map<int, Desc>, rest: seq<Books>, here: seq<bool>, k: nat, fds: Table, io: Io)
    requires k < |here| == |rest| && here[k] && io.socket == rest[k].clifd
    requires AllFit(rest, here, fds, io) && Forsaken(orphans, rest, here, fds)
    ensures Forsaken(orphans + OwnEnds(rest[k]), rest, here[k := false], fds - {io.socket})
    ensures |orphans + OwnEnds(rest[k])| == |orphans| + |OwnEnds(rest[k])|
    ensures forall f :: f in orphans ==> f !in OwnEnds(rest[k])
  {
    hide Balanced, Fits, OwnEnds, AllFit, Mine, HasOwner, Apart, Forsaken, IsEnd;
    EndsStayOpen(orphans, rest, here, k, fds, io);
    DisjointSize(orphans, OwnEnds(rest[k]));
    OwnersStay(orphans, rest, here, k, fds, io);
    NobodysEnds(orphans, rest, here, k, fds, io);
    ForsakenFrom(orphans + OwnEnds(rest[k]), rest, here[k := false], fds - {io.socket});
  }

  lemma ForsakenFrom(orphans: map<int, Desc>, rest: seq<Books>, here: seq<bool>, fds: Table)
    requires |here| == |rest|
    requires forall f :: f in orphans ==> f > 2 && f in fds && fds[f] == orphans[f] && IsEnd(fds[f])
    requires forall j, f :: 0 <= j < |rest| && here[j] && f in orphans ==> !Mine(rest[j], f)
    requires forall f :: f in fds && IsEnd(fds[f]) && f !in orphans ==> HasOwner(rest, here, f)
    ensures Forsaken(orphans, rest, here, fds)
  {
    hide Mine, HasOwner, IsEnd;
  }

  lemma EndsStayOpen(orphans: map<int, Desc>, rest: seq<Books>, here: seq<bool>, k: nat, fds: Table, io: Io)
    requires k < |here| == |rest| && here[k] && io.socket == rest[k].clifd
    requires AllFit(rest, here, fds, io) && Forsaken(orphans, rest, here, fds)
    ensures orphans.Keys !! OwnEnds(rest[k]).Keys
    ensures var fds', all := fds - {io.socket}, orphans + OwnEnds(rest[k]);
            forall f :: f in all ==> f > 2 && f in fds' && fds'[f] == all[f] && IsEnd(fds'[f])
  {
    hide Balanced, Fits, OwnEnds, AllFit, Mine, HasOwner, Apart;
    FitOne(rest, here, k, fds, io);
    SocketIsNoEnd(rest[k], fds, io);
    OwnEndsOpen(rest[k], fds, io);
    OwnEndsMine(rest[k]);
  }

  lemma OwnersStay(orphans: map<int, Desc>, rest: seq<Books>, here: seq<bool>, k: nat, fds: Table, io: Io)
    requires k < |here| == |rest| && here[k]
    requires AllFit(rest, here, fds, io) && Forsaken(orphans, rest, here, fds)
    ensures forall f :: f in fds && IsEnd(fds[f]) && f !in orphans + OwnEnds(rest[k]) ==>
              HasOwner(rest, here[k := false], f)
  {
    hide Balanced, Fits, OwnEnds, AllFit, Mine, HasOwner, Apart;
    FitOne(rest, here, k, fds, io);
    OwnEndsOpen(rest[k], fds, io);
    forall f | f in fds && IsEnd(fds[f]) && f !in orphans + OwnEnds(rest[k])
      ensures HasOwner(rest, here[k := false], f)
    {
      OwnerStays(rest, here, k, f);
    }
  }

  lemma NobodysEnds(orphans: map<int, Desc>, rest: seq<Books>, here: seq<bool>, k: nat, fds: Table, io: Io)
    requires k < |here| == |rest| && here[k]
    requires AllFit(rest, here, fds, io) && Forsaken(orphans, rest, here, fds)
    ensures forall j, f :: 0 <= j < |rest| && here[k := false][j] && f in orphans + OwnEnds(rest[k]) ==>
              !Mine(rest[j], f)
  {
    hide Balanced, Fits, OwnEnds, AllFit, Mine, HasOwner, Apart;
    FitOne(rest, here, k, fds, io);
    OwnEndsOpen(rest[k], fds, io);
    OwnEndsMine(rest[k]);
    forall j, f | 0 <= j < |rest| && here[k := false][j] && f in orphans + OwnEnds(rest[k])
      ensures !Mine(rest[j], f)
    {
      if f in OwnEnds(rest[k]) {
        NotBoth(rest, here, fds, io, j, k, f);
      }
    }
  }

  lemma FitOne(rest: seq<Books>, here: seq<bool>, k: nat, fds: Table, io: Io)
    requires k < |here| == |rest| && here[k] && AllFit(rest, here, fds, io)
    ensures Balanced(rest[k]) && Fits(rest[k], fds, io)
  {
  }

  lemma SocketIsNoEnd(b: Books, fds: Table, io: Io)
    requires Balanced(b) && Fits(b, fds, io)
    ensures b.clifd in fds && !IsEnd(fds[b.clifd])
  {
    hide Balanced, OwnsPipe;
    StandardIn(b);
    assert Mine(b, b.clifd);
  }

  lemma OwnerStays(rest: seq<Books>, here: seq<bool>, k: nat, f: int)
    requires k < |here| == |rest| && HasOwner(rest, here, f) && !Mine(rest[k], f)
    ensures HasOwner(rest, here[k := false], f)
  {
    hide Mine;
    var j :| 0 <= j < |rest| && here[j] && Mine(rest[j], f);
    assert here[k := false][j];
  }

  lemma NotBoth(rest: seq<Books>, here: seq<bool>, fds: Table, io: Io, j: nat, k: nat, f: int)
    requires |here| == |rest| && AllFit(rest, here, fds, io) && j < |rest| && k < |rest| && j != k && here[j] && here[k]
    requires f > 2 && Mine(rest[k], f)
    ensures !Mine(rest[j], f)
  {
    hide Balanced, Fits, Mine;
    assert Apart(rest[j], rest[k]);
  }

  lemma OwnEndsMine(b: Books)
    ensures forall f :: f in OwnEnds(b) ==> Mine(b, f)
  {
  }

  lemma DisjointSize(a: map<int, Desc>, b: map<int, Desc>)
    requires a.Keys !! b.Keys
    ensures |a + b| == |a| + |b|
  {
    assert (a + b).Keys == a.Keys + b.Keys;
    assert |(a + b).Keys| == |a + b| && |a.Keys| == |a| && |b.Keys| == |b|;
  }

  lemma NobodyServed(fds: Table, io: Io)
    requires Ground(fds, io) && io.socket >= 3
    ensures Ground(fds - {io.socket}, HungUp(io))
  {
  }

  lemma WaitingSize(b: Books, pipes: seq<Bytes>)
    requires Balanced(b) && b.npipes == |pipes|
    ensures |Waiting(b.pid, pipes)| == |b.pid|
  {
    hide Balanced;
    forall i | i in b.pid ensures b.pid[i] < |pipes| {
      WiredAt(b, i);
    }
    assert Waiting(b.pid, pipes).Keys == b.pid.Keys;
    assert |Waiting(b.pid, pipes).Keys| == |Waiting(b.pid, pipes)| && |b.pid.Keys| == |b.pid|;
  }

  // ---------- every pipe end in the table ----------

  /** The pipe ends of those who have left, and of the first n clients. */
  ghost function Gathered(orphans: set<int>, rest: seq<Books>, here: seq<bool>, n: nat): set<int>
    requires n <= |here| == |rest|
  {
    if n == 0 then orphans
    else Gathered(orphans, rest, here, n - 1) + if here[n - 1] then OwnEnds(rest[n - 1]).Keys else {}
  }

  lemma {:induction false} GatheredFrom(orphans: set<int>, rest: seq<Books>, here: seq<bool>, n: nat, f: int)
    requires n <= |here| == |rest|
    ensures f in Gathered(orphans, rest, here, n) <==>
            f in orphans || exists j :: 0 <= j < n && here[j] && f in OwnEnds(rest[j])
  {
    hide OwnEnds;
    if n > 0 {
      GatheredFrom(orphans, rest, here, n - 1, f);
    }
  }

  function PipeEnds(fds: Table): set<int> { set f | f in fds && IsEnd(fds[f]) }

  /** No pipe end is missing from the books. */
  lemma AllGathered(orphans: map<int, Desc>, rest: seq<Books>, here: seq<bool>, fds: Table, io: Io)
    requires |here| == |rest| && AllFit(rest, here, fds, io) && Forsaken(orphans, rest, here, fds)
    ensures Gathered(orphans.Keys, rest, here, |rest|) == PipeEnds(fds)
  {
    hide Balanced, Fits, OwnEnds, AllFit, Mine, Apart;
    forall f ensures f in Gathered(orphans.Keys, rest, here, |rest|) <==> f in PipeEnds(fds) {
      GatheredFrom(orphans.Keys, rest, here, |rest|, f);
      forall j: nat | j < |rest| && here[j]
        ensures f in OwnEnds(rest[j]) <==> f in fds && IsEnd(fds[f]) && Mine(rest[j], f)
      {
        FitOne(rest, here, j, fds, io);
        OwnEndsOpen(rest[j], fds, io);
        OwnEndsMine(rest[j]);
      }
    }
  }

  /** None is counted twice. */
  lemma GatheredOnce(orphans: map<int, Desc>, rest: seq<Books>, here: seq<bool>, fds: Table, io: Io, n: nat)
    requires n < |here| == |rest| && here[n] && AllFit(rest, here, fds, io) && Forsaken(orphans, rest, here, fds)
    ensures |Gathered(orphans.Keys, rest, here, n + 1)| ==
            |Gathered(orphans.Keys, rest, here, n)| + |OwnEnds(rest[n])|
  {
    hide Balanced, Fits, OwnEnds, AllFit, Mine, Apart;
    var before := Gathered(orphans.Keys, rest, here, n);
    FitOne(rest, here, n, fds, io);
    OwnEndsOpen(rest[n], fds, io);
    OwnEndsMine(rest[n]);
    forall f | f in OwnEnds(rest[n]) ensures f !in before {
      GatheredFrom(orphans.Keys, rest, here, n, f);
      forall j: nat | j < n && here[j] ensures f !in OwnEnds(rest[j]) {
        NotBoth(rest, here, fds, io, j, n, f);
        OwnEndsMine(rest[j]);
      }
    }
    assert before !! OwnEnds(rest[n]).Keys;
    assert |before + OwnEnds(rest[n]).Keys| == |before| + |OwnEnds(rest[n]).Keys|;
    assert |OwnEnds(rest[n]).Keys| == |OwnEnds(rest[n])|;
  }

  class Process {
    const v: Variant
    const os: Os
    var shells: seq<Shell>
    ghost var rest: seq<Books>          // the books of each client, as it left them
    ghost var mem: seq<set<object>>     // the objects of each client
    var here: seq<bool>                 // who has not left
    ghost var orphans: map<int, Desc>   // the pipe ends of those who have

    ghost function Mem(): set<object>
      reads this
    {
      set k, o | 0 <= k < |mem| && o in mem[k] :: o
    }

    ghost predicate Owns(k: nat)
      reads this, Mem()
      requires k < |mem| == |shells|
    {
      && shells[k] in mem[k] && shells[k].list in mem[k] && this !in mem[k] && os !in mem[k]
      && shells[k].os == os && shells[k].v == v
      && forall i :: 0 <= i < |shells[k].list.nodes| ==> shells[k].list.nodes[i] in mem[k]
    }

    ghost predicate Valid()
      reads this, os, Mem()
    {
      && |rest| == |mem| == |here| == |shells| && !os.stalled && Ground(os.fds, os.io)
      && AllFit(rest, here, os.fds, os.io) && Forsaken(orphans, rest, here, os.fds)
      && (forall k :: 0 <= k < |shells| ==> Owns(k) && (here[k] ==> Seated(k)))
      && (forall j, k :: 0 <= j < |shells| && 0 <= k < |shells| && j != k ==> mem[j] !! mem[k])
    }

    ghost predicate Seated(k: nat)
      reads this, Mem()
      requires k < |rest| == |mem| == |shells| && Owns(k)
    {
      assert forall n :: n in shells[k].list.nodes ==> n in mem[k];
      shells[k].AtRest(rest[k])
    }

    constructor (v: Variant)
      ensures Valid() && shells == [] && this.v == v && fresh(os) && mem == [] && here == [] && orphans == map[]
      ensures os.io.files == map[]
    {
      this.v := v;
      os := new Os();
      shells, rest, mem, here, orphans := [], [], [], [], map[];
    }

    /** Somebody connects. */
    method Join(linecount: int)
      requires Valid()
      modifies this, os
      ensures Valid() && |shells| == old(|shells|) + 1 && shells[..old(|shells|)] == old(shells)
      ensures |mem| == old(|mem|) + 1 && mem[..old(|mem|)] == old(mem) && fresh(mem[old(|mem|)])
      ensures os.io.files == old(os.io.files)
      ensures here == old(here) + [true] && orphans == old(orphans)
      ensures OfficeOf(shells[old(|shells|)], os.io) == Opening
      ensures forall t :: 0 <= t < old(|shells|) && here[t] ==>
                OfficeOf(shells[t], os.io) == old(OfficeOf(shells[t], os.io))
    {
      hide Balanced, Kept, List.Valid, Waiting, Fits, Apart, DeskOf, Forsaken, HasOwner;
      hide Shell.AtRest, Process.Seated, IsEnd;
      hide Newcomer, Accepted, Ground, AllFit, OfficeOf, CanAccept;
      ghost var fds, io, n := os.fds, os.io, |shells|;
      var s := Admit(linecount);
      AllKept(rest, here, fds, io, s.clifd);
      NewcomerOwnsNoEnd(orphans, rest, here, fds, s.clifd, |os.io.pipes|);
      shells, rest, here := shells + [s], rest + [s.B()], here + [true];
      mem := mem + [{s, s.list} + (set o | o in s.list.nodes)];
      forall j, o | 0 <= j < n && o in old(mem)[j] ensures unchanged(o) {
        assert old(Owns(j)) && o != this && o != os;
      }
      NewMemory(mem[n]);
      OthersStay(io);
      NewcomerSeated(n);
    }

    /** The newcomer's objects are nobody else's. */
    twostate lemma NewMemory(new own: set<object>)
      requires old(Valid()) && fresh(own) && mem == old(mem) + [own]
      ensures forall j, k :: 0 <= j < |mem| && 0 <= k < |mem| && j != k ==> mem[j] !! mem[k]
    {
      hide Balanced, List.Valid, AllFit, Ground, Forsaken, Process.Seated;
    }

    lemma NewcomerSeated(n: nat)
      requires n < |rest| == |mem| == |shells| && Owns(n) && shells[n].Valid() && rest[n] == shells[n].B()
      ensures Seated(n)
    {
      hide Balanced, List.Valid;
    }

    /** Nobody who was here before the newcomer was touched. */
    twostate lemma OthersStay(io: Io)
      requires old(Valid()) && io == old(os.io) && io.pipes == os.io.pipes
      requires old(|shells|) <= |shells| && |shells| == |mem| == |rest| == |here|
      requires old(shells) <= shells && old(rest) <= rest && old(mem) <= mem && old(here) <= here
      requires forall j, o :: 0 <= j < old(|mem|) && o in old(mem)[j] ==> unchanged(o)
      requires forall j :: 0 <= j < old(|shells|) && here[j] ==>
                 DeskOf(os.io, rest[j].clifd) == DeskOf(io, rest[j].clifd)
      ensures forall j :: 0 <= j < old(|shells|) ==> Owns(j)
      ensures forall j :: 0 <= j < old(|shells|) && here[j] ==>
                Seated(j) && OfficeOf(shells[j], os.io) == old(OfficeOf(shells[j], os.io))
    {
      hide Balanced, List.Valid, Waiting, OfficeOf, DeskOf, AllFit, Ground, Forsaken;
      forall j | 0 <= j < old(|shells|)
        ensures Owns(j)
        ensures here[j] ==> Seated(j) && OfficeOf(shells[j], os.io) == old(OfficeOf(shells[j], os.io))
      {
        assert old(shells[j]) == shells[j] && old(rest[j]) == rest[j];
        assert old(mem[j]) == mem[j] && old(here[j]) == here[j];
        StillOwned(j);
        if here[j] {
          StillThere(j);
          SameOffice(j, io, io);
        }
      }
    }

    /** accept(2), and a shell for the new client. */
    method Admit(linecount: int) returns (s: Shell)
      requires Valid()
      modifies os
      ensures s.Valid() && s.v == v && s.os == os && fresh(s) && fresh(s.list) && fresh(s.list.nodes)
      ensures CanAccept(old(os.fds), old(os.io), s.clifd) && s.clifd !in old(os.fds) && s.clifd >= 3
      ensures os.fds == old(os.fds)[s.clifd := Client(s.clifd)] && os.io == Accepted(old(os.io), s.clifd)
      ensures s.B() == Newcomer(os.fds, s.clifd, |os.io.pipes|, Blank(0, 0)) && Fits(s.B(), os.fds, os.io)
      ensures OfficeOf(s, os.io) == Opening && Ground(os.fds, os.io)
    {
      hide Balanced, Kept, List.Valid, Waiting, Fits, Apart;
      var clifd := os.FreeNumber();
      os.Accept(clifd);
      os.Turn(clifd, NewRoles(os.fds, clifd));
      s := new Shell(v, os, clifd, linecount);
      NewcomerFits(os.fds, os.io, clifd);
    }

    /** Client k is served: its desk is in front, and it takes note of what belongs
        to the others. */
    method Resume(k: nat, s: Shell)
      requires Valid() && k < |shells| && s == shells[k] && here[k]
      modifies os`role, os`io, s`foreign, s`kept, s`away
      ensures s.Valid() && s.B() == Adopted(rest[k], os.fds, |os.io.pipes|)
      ensures s.Abs() == old(OfficeOf(s, os.io)).(files := os.io.files)
      ensures os.io.pipes == old(os.io.pipes) && os.io.files == old(os.io.files)
      ensures forall d :: DeskOf(os.io, d) == old(DeskOf(os.io, d))
      ensures forall d :: old(HasDesk(os.io, d)) ==> HasDesk(os.io, d)
    {
      hide Balanced, Kept, List.Valid, Ground;
      assert Seated(k) && Owns(k) && Fits(rest[k], os.fds, os.io);
      ghost var b := rest[k];
      ghost var b' := Adopted(b, os.fds, |os.io.pipes|);
      ghost var io := os.io;
      AdoptedBalanced(b, os.fds, |os.io.pipes|);
      if os.io.socket != s.clifd {
        os.Turn(s.clifd, b'.role);
        forall d ensures DeskOf(os.io, d) == DeskOf(io, d) && (HasDesk(io, d) ==> HasDesk(os.io, d)) {
          TurnedKeepsDesks(io, s.clifd, d);
        }
      } else {
        os.role := b'.role;
      }
      s.foreign := b'.foreign;
      s.kept := map p | p in b'.theirs :: os.io.pipes[p];
      s.away := os.io.aside;
      assert s.kept.Keys == b'.theirs;
      assert s.B() == b';
    }

    /** Client k runs a line; nobody else's objects are touched. */
    method Take(k: nat, s: Shell, l: Line) returns (ghost io: Io)
      requires Valid() && k < |shells| && s == shells[k] && here[k]
      modifies os, mem[k]
      ensures shells == old(shells) && rest == old(rest) && mem == old(mem) && |rest| == |mem| == |here| == |shells|
      ensures here == old(here) && orphans == old(orphans)
      ensures s.os == os && s.Valid() && s.Abs() == Step(v, old(OfficeOf(s, os.io)).(files := old(os.io.files)), l)
      ensures forall n :: n in s.list.nodes ==> n in mem[k] || fresh(n)
      ensures io.pipes == old(os.io.pipes) && (forall d :: DeskOf(io, d) == old(DeskOf(os.io, d)))
      ensures forall d :: old(HasDesk(os.io, d)) ==> HasDesk(io, d)
      ensures s.foreign == Adopted(rest[k], old(os.fds), |io.pipes|).foreign
      ensures s.kept.Keys == Adopted(rest[k], old(os.fds), |io.pipes|).theirs
      ensures forall p :: p in s.kept ==> p < |io.pipes| && s.kept[p] == io.pipes[p]
      ensures os.io.aside == io.aside && os.io.socket == io.socket == s.clifd == rest[k].clifd
    {
      hide Balanced, Kept, List.Valid, Adopted, Step, Waiting, Fits, Apart;
      assert Owns(k) && Seated(k) && Fits(rest[k], os.fds, os.io);
      assert forall n :: n in s.list.nodes ==> n in mem[k];
      Resume(k, s);
      io := os.io;
      s.RunLine(l);
    }

    /** Client k types a line. */
    method Serve(k: nat, s: Shell, l: Line)
      requires Valid() && k < |shells| && s == shells[k] && here[k]
      modifies this`rest, this`mem, os, mem[k]
      ensures shells == old(shells) && here == old(here) && orphans == old(orphans)
      ensures Valid() && |mem| == old(|mem|) && (forall t :: 0 <= t < |mem| && t != k ==> mem[t] == old(mem[t]))
      ensures fresh(mem[k] - old(mem[k]))
      ensures var o := old(OfficeOf(s, os.io).(files := os.io.files));
              OfficeOf(s, os.io).(files := os.io.files) == Step(v, o, l)
      ensures forall t :: 0 <= t < |shells| && t != k && here[t] ==>
                OfficeOf(shells[t], os.io) == old(OfficeOf(shells[t], os.io))
    {
      hide Balanced, Kept, List.Valid, Adopted, Step, Waiting, Fits, Apart, Ground, AllFit, HasDesk, Forsaken;
      assert Owns(k);
      ghost var others, before, fds := rest, os.io, os.fds;
      ghost var io := Take(k, s, l);
      FitAgain(others, here, fds, before, io);
      rest := rest[k := s.B()];
      mem := mem[k := mem[k] + (set n | n in s.list.nodes)];
      Settled(k, s, others, fds, io);
      ServedIsGround(s.B(), os.io);
      forall j | 0 <= j < |shells| && j != k
        ensures Owns(j)
        ensures here[j] ==> Seated(j) && OfficeOf(shells[j], os.io) == old(OfficeOf(shells[j], os.io))
      {
        StillOwned(j);
        if here[j] {
          StillThere(j);
          SameOffice(j, before, io);
        }
      }
      assert s.AtRest(rest[k]);
      assert Seated(k);
    }

    /** The socket of client k is closed, its pipe ends are not. */
    method Release(k: nat, s: Shell)
      requires Valid() && k < |shells| && s == shells[k] && here[k]
      modifies os, mem[k]
      ensures shells == old(shells) && rest == old(rest) && mem == old(mem) && |rest| == |mem| == |here| == |shells|
      ensures here == old(here) && orphans == old(orphans)
      ensures os.io.files == old(os.io.files) && os.io.pipes == old(os.io.pipes) && !os.stalled
      ensures var left := orphans + OwnEnds(rest[k]);
              && AllFit(rest, here[k := false], os.fds, os.io) && Forsaken(left, rest, here[k := false], os.fds)
              && Ground(os.fds, os.io) && |left| == |orphans| + Ends(old(OfficeOf(s, os.io)))
      ensures forall f :: f in orphans ==> f !in OwnEnds(rest[k])
      ensures forall j :: 0 <= j < |rest| && j != k && here[j] ==>
                DeskOf(os.io, rest[j].clifd) == old(DeskOf(os.io, rest[j].clifd))
      ensures shells[k].os == os && shells[k].v == v && Owns(k)
    {
      hide Balanced, Kept, List.Valid, Adopted, Waiting, Fits, Apart, Ground, AllFit, HasDesk, Forsaken, DeskOf;
      hide OwnEnds, Ends;
      assert Owns(k) && Seated(k);
      ghost var fds, before := os.fds, os.io;
      LeavesEnds(k, s);
      Resume(k, s);
      ghost var io := os.io;
      FitAgain(rest, here, fds, before, io);
      Departs(orphans, rest, here, k, fds, io);
      StayersFit(rest, here, k, fds, io);
      ServedIsGround(s.B(), io);
      NobodyServed(fds, io);
      ClientOpen(s.B());
      os.Hangup();
    }

    /** Client k leaves. */
    method Leave(k: nat, s: Shell)
      requires Valid() && k < |shells| && s == shells[k] && here[k]
      modifies this`here, this`orphans, os, mem[k]
      ensures Valid() && shells == old(shells) && mem == old(mem) && here == old(here)[k := false]
      ensures os.io.files == old(os.io.files)
      ensures |orphans| == |old(orphans)| + Ends(old(OfficeOf(s, os.io)))
      ensures forall f :: f in old(orphans) ==> f in orphans && orphans[f] == old(orphans)[f]
      ensures forall t :: 0 <= t < |shells| && here[t] ==>
                OfficeOf(shells[t], os.io) == old(OfficeOf(shells[t], os.io))
    {
      hide Balanced, Kept, List.Valid, Adopted, Waiting, Fits, Apart, Ground, AllFit, HasDesk, Forsaken, DeskOf;
      hide OwnEnds, Ends, OfficeOf;
      ghost var before := os.io;
      Release(k, s);
      here, orphans := here[k := false], orphans + OwnEnds(rest[k]);
      forall j | 0 <= j < |shells| && here[j]
        ensures Owns(j) && Seated(j) && OfficeOf(shells[j], os.io) == old(OfficeOf(shells[j], os.io))
      {
        StillOwned(j);
        StillThere(j);
        SameOffice(j, before, os.io);
      }
    }

    /** The pipe ends of client k, as its office counts them. */
    lemma LeavesEnds(k: nat, s: Shell)
      requires Valid() && k < |shells| && s == shells[k] && here[k]
      ensures |OwnEnds(rest[k])| == Ends(OfficeOf(s, os.io))
    {
      hide Balanced, Kept, List.Valid, Waiting, Ground, Forsaken, Adopted;
      assert Owns(k) && Seated(k);
      OwnEndsCount(rest[k]);
      AdoptedBalanced(rest[k], os.fds, |os.io.pipes|);
      AdoptedPid(rest[k], os.fds, |os.io.pipes|);
      WaitingSize(Adopted(rest[k], os.fds, |os.io.pipes|), os.io.pipes);
    }

    lemma AdoptedPid(b: Books, fds: Table, npipes: nat)
      ensures Adopted(b, fds, npipes).pid == b.pid && Adopted(b, fds, npipes).npipes == npipes
    {
    }

    twostate lemma StillOwned(j: nat)
      requires old(j < |shells| && |shells| == |mem| && Owns(j))
      requires j < |shells| == |mem|
      requires shells[j] == old(shells[j]) && mem[j] == old(mem[j])
      requires forall o :: o in old(mem[j]) ==> unchanged(o)
      ensures Owns(j)
    {
    }

    /** A client nobody touched. */
    twostate lemma StillThere(j: nat)
      requires old(j < |shells| && |shells| == |mem| == |rest| && Owns(j) && Seated(j))
      requires j < |shells| == |mem| == |rest|
      requires shells[j] == old(shells[j]) && mem[j] == old(mem[j]) && rest[j] == old(rest[j])
      requires forall o :: o in old(mem[j]) ==> unchanged(o)
      ensures Owns(j) && Seated(j)
      ensures forall io: Io :: OfficeOf(shells[j], io) == old(OfficeOf(shells[j], io))
    {
      hide Balanced, List.Valid, Waiting;
    }

    lemma SameOffice(j: nat, before: Io, io: Io)
      requires j < |shells| == |mem| == |rest| && Owns(j) && Seated(j)
      requires io.pipes == before.pipes && DeskOf(io, rest[j].clifd) == DeskOf(before, rest[j].clifd)
      requires Waiting(rest[j].pid, os.io.pipes) == Waiting(rest[j].pid, io.pipes)
      requires DeskOf(os.io, rest[j].clifd) == DeskOf(io, rest[j].clifd)
      ensures OfficeOf(shells[j], os.io) == OfficeOf(shells[j], before)
    {
      hide Balanced, List.Valid, Waiting, DeskOf;
    }

    /** Between Resume and the end of Serve: everybody else is still seated. */
    lemma Settled(k: nat, s: Shell, others: seq<Books>, fds: Table, io: Io)
      requires k < |shells| == |others| == |mem| == |here| && s == shells[k] && s.os == os && s.Valid() && here[k]
      requires rest == others[k := s.B()]
      requires AllFit(others, here, fds, io) && Forsaken(orphans, others, here, fds)
      requires s.foreign == Adopted(others[k], fds, |io.pipes|).foreign
      requires s.kept.Keys == Adopted(others[k], fds, |io.pipes|).theirs
      requires forall p :: p in s.kept ==> p < |io.pipes| && s.kept[p] == io.pipes[p]
      requires os.io.aside == io.aside && os.io.socket == io.socket == s.clifd == others[k].clifd
      ensures AllFit(rest, here, os.fds, os.io) && Forsaken(orphans, rest, here, os.fds)
      ensures forall j :: 0 <= j < |shells| && j != k && here[j] ==>
                && Waiting(others[j].pid, os.io.pipes) == Waiting(others[j].pid, io.pipes)
                && DeskOf(os.io, others[j].clifd) == DeskOf(io, others[j].clifd)
      ensures s.AtRest(rest[k])
    {
      hide Balanced, Kept, Waiting, Adopted, Apart;
      ghost var b, c1 := others[k], s.B();
      SelfKept(Adopted(b, fds, |io.pipes|), c1, b, fds, |io.pipes|);
      StillForsaken(orphans, others, here, k, c1, fds, |io.pipes|);
      forall j | 0 <= j < |shells| && j != k && here[j]
        ensures Fits(others[j], os.fds, os.io) && Apart(c1, others[j]) && Apart(others[j], c1)
        ensures Waiting(others[j].pid, os.io.pipes) == Waiting(others[j].pid, io.pipes)
        ensures DeskOf(os.io, others[j].clifd) == DeskOf(io, others[j].clifd)
      {
        OtherSeated(b, c1, others[j], fds, io, os.io);
      }
    }
  }

  // ---------- whole runs ----------

  lemma {:induction false} NotJoined(events: seq<Event>, k: nat)
    requires k >= Joined(events)
    ensures Typed(events, k) == []
  {
    if events != [] {
      var front := events[..|events| - 1];
      NotJoined(front, k);
      if Present(front, k) {
        PresentJoined(front, k);
      }
    }
  }

  /** The share of every client is its own session's. */
  ghost predicate AsAlone(p: Process, events: seq<Event>)
    reads p, p.os, p.Mem()
  {
    && p.Valid() && |p.shells| == Joined(events) && p.os.io.files == Files(p.v, events)
    && (forall k :: 0 <= k < |p.shells| ==> p.here[k] == Present(events, k))
    && (forall k :: 0 <= k < |p.shells| && p.here[k] ==> Shares(p, k, Private(Alone(p.v, Typed(events, k)))))
    && |p.orphans| == Leaked(p.v, events)
  }

  ghost predicate Shares(p: Process, k: nat, o: Office)
    reads p, p.os, p.Mem()
    requires p.Valid() && k < |p.shells|
  {
    assert p.Owns(k);
    OfficeOf(p.shells[k], p.os.io) == o
  }

  lemma Nobody(p: Process)
    requires p.Valid() && p.shells == [] && p.os.io.files == map[] && p.orphans == map[]
    ensures AsAlone(p, [])
  {
  }

  /** The last event concerns nobody, or one client. */
  lemma TypedGrows(events: seq<Event>, k: nat)
    requires events != []
    ensures var front, e := events[..|events| - 1], events[|events| - 1];
            Typed(events, k) == if e.Types? && e.k == k && Present(front, k) then Typed(front, k) + [e.l]
                                else Typed(front, k)
  {
    assert Typed(events[..|events| - 1], k) + [] == Typed(events[..|events| - 1], k);
  }

  method OneMore(p: Process, events: seq<Event>)
    requires events != [] && events[|events| - 1].Join? && AsAlone(p, events[..|events| - 1])
    modifies p, p.os
    ensures AsAlone(p, events)
    ensures |p.mem| == old(|p.mem|) + 1 && p.mem[..old(|p.mem|)] == old(p.mem) && fresh(p.mem[old(|p.mem|)])
  {
    hide OfficeOf, Alone, Typed, Process.Seated, Process.Owns;
    ghost var front, n := events[..|events| - 1], |p.shells|;
    p.Join(events[|events| - 1].linecount);
    NotJoined(front, n);
    AloneAtFirst(p.v);
    forall t | 0 <= t < |p.shells| && p.here[t] ensures Shares(p, t, Private(Alone(p.v, Typed(events, t)))) {
      TypedGrows(events, t);
      assert t < n ==> old(Shares(p, t, Private(Alone(p.v, Typed(front, t)))));
    }
  }

  lemma NoFiles(s: Shell, io: Io)
    ensures Private(OfficeOf(s, io)) == OfficeOf(s, io)
  {
  }

  /** Somebody leaves who is here, or nobody. */
  method OneLess(p: Process, events: seq<Event>)
    requires events != [] && events[|events| - 1].Leaves? && AsAlone(p, events[..|events| - 1])
    modifies p, p.os, p.Mem()
    ensures AsAlone(p, events)
    ensures |p.mem| == old(|p.mem|) && forall t :: 0 <= t < |p.mem| ==> fresh(p.mem[t] - old(p.mem[t]))
  {
    hide OfficeOf, Alone, Typed, Ends, Forsaken, AllFit, Ground, Process.Seated;
    ghost var front := events[..|events| - 1];
    var k := events[|events| - 1].k;
    if k < |p.shells| && p.here[k] {
      assert old(Shares(p, k, Private(Alone(p.v, Typed(front, k)))));
      PrivateEnds(Alone(p.v, Typed(front, k)));
      p.Leave(k, p.shells[k]);
    } else if Present(front, k) {
      PresentJoined(front, k);
      assert false;
    }
    forall t | 0 <= t < |p.shells| && p.here[t] ensures Shares(p, t, Private(Alone(p.v, Typed(events, t)))) {
      TypedGrows(events, t);
      assert old(Shares(p, t, Private(Alone(p.v, Typed(front, t)))));
    }
  }

  lemma PrivateEnds(o: Office)
    ensures Ends(Private(o)) == Ends(o)
  {
  }

  /** A line of somebody who has connected, or of nobody. */
  method OneLine(p: Process, events: seq<Event>)
    requires events != [] && events[|events| - 1].Types? && AsAlone(p, events[..|events| - 1])
    modifies p, p.os, p.Mem()
    ensures AsAlone(p, events)
    ensures |p.mem| == old(|p.mem|) && forall t :: 0 <= t < |p.mem| ==> fresh(p.mem[t] - old(p.mem[t]))
  {
    hide OfficeOf, Alone, Typed, Step, Forsaken, AllFit, Ground, Process.Seated;
    ghost var front := events[..|events| - 1];
    var k, l := events[|events| - 1].k, events[|events| - 1].l;
    if k < |p.shells| && p.here[k] {
      var s := p.shells[k];
      ghost var alone := Alone(p.v, Typed(front, k));
      assert old(Shares(p, k, Private(alone)));
      assert OfficeOf(s, p.os.io).(files := p.os.io.files) == alone.(files := Files(p.v, front));
      p.Serve(k, s, l);
      AloneGrows(p.v, Typed(front, k), l);
      StepIsPrivate(p.v, alone, Files(p.v, front), l);
      NoFiles(s, p.os.io);
      assert OfficeOf(s, p.os.io) == Private(Step(p.v, alone, l));
    } else if Present(front, k) {
      PresentJoined(front, k);
      assert false;
    }
    forall t | 0 <= t < |p.shells| && p.here[t] ensures Shares(p, t, Private(Alone(p.v, Typed(events, t)))) {
      TypedGrows(events, t);
      assert t != k ==> old(Shares(p, t, Private(Alone(p.v, Typed(front, t)))));
    }
  }

  lemma AloneAtFirst(v: Variant)
    ensures Private(Alone(v, [])) == Opening
  {
  }

  /** Every interleaving of every number of clients: what each of them sees, what
      waits for its later lines, what its commands were handed and what it leaves
      open is what it would be alone; the files hold what the lines wrote to them
      in the order in which they were run. */
  method Together(v: Variant, events: seq<Event>) returns (p: Process)
    ensures p.v == v && AsAlone(p, events)
  {
    hide Process.Valid, OfficeOf, Alone, Typed, Files, Joined, Shares, AsAlone;
    p := new Process(v);
    Nobody(p);
    for n := 0 to |events|
      invariant fresh(p) && fresh(p.os) && p.v == v && AsAlone(p, events[..n])
      invariant forall k :: 0 <= k < |p.mem| ==> fresh(p.mem[k])
    {
      OneMoreEvent(events, n);
      match events[n]
      case Join(_) => OneMore(p, events[..n + 1]);
      case Types(_, _) => OneLine(p, events[..n + 1]);
      case Leaves(_) => OneLess(p, events[..n + 1]);
    }
    assert events[..|events|] == events;
  }

  /** The table holds no pipe end but those every client has by its own session, and
      those that clients had when they left. */
  lemma {:induction false} TableUpTo(p: Process, events: seq<Event>, n: nat)
    requires AsAlone(p, events) && n <= |p.shells|
    ensures |Gathered(p.orphans.Keys, p.rest, p.here, n)| == OpenUpTo(p.v, events, n)
  {
    hide OfficeOf, Alone, Typed, Ends, Forsaken, AllFit, Ground, Leaked, Present, OwnEnds, Process.Seated, Files;
    if n == 0 {
      assert |p.orphans.Keys| == |p.orphans|;
    } else {
      TableUpTo(p, events, n - 1);
      if p.here[n - 1] {
        GatheredOnce(p.orphans, p.rest, p.here, p.os.fds, p.os.io, n - 1);
        p.LeavesEnds(n - 1, p.shells[n - 1]);
        assert Shares(p, n - 1, Private(Alone(p.v, Typed(events, n - 1))));
        PrivateEnds(Alone(p.v, Typed(events, n - 1)));
      }
    }
  }

  lemma TableSize(p: Process, events: seq<Event>)
    requires AsAlone(p, events)
    ensures |PipeEnds(p.os.fds)| == OpenUpTo(p.v, events, Joined(events))
  {
    hide OfficeOf, Alone, Typed, Ends, Forsaken, AllFit, Ground, Leaked, Present, OwnEnds, Process.Seated, Files;
    AllGathered(p.orphans, p.rest, p.here, p.os.fds, p.os.io);
    TableUpTo(p, events, |p.shells|);
  }

  /** What can be seen of all clients: the output of its lines on every screen and
      every command's input is what the client would have had alone; no command was
      started on a pipe that still had a writer; and the pipe ends open in the process
      are those of the sessions of all who are connected, and those that all who have
      left still had open. */
  method Observe(v: Variant, events: seq<Event>)
    returns (screens: seq<Bytes>, inputs: seq<seq<Input>>, files: map<string, Bytes>, stalled: bool,
             open: nat)
    ensures |screens| == |inputs| == Joined(events) && files == Files(v, events) && !stalled
    ensures open == OpenUpTo(v, events, Joined(events))
    ensures forall k :: 0 <= k < Joined(events) && Present(events, k) ==>
              screens[k] == Alone(v, Typed(events, k)).client && inputs[k] == Alone(v, Typed(events, k)).log
  {
    hide Alone, Typed, Files, Joined, Waiting;
    var p := Together(v, events);
    TableSize(p, events);
    screens, inputs, files, stalled, open := [], [], p.os.io.files, p.os.stalled, |PipeEnds(p.os.fds)|;
    for k := 0 to |p.shells|
      invariant |screens| == |inputs| == k
      invariant forall j :: 0 <= j < k && p.here[j] ==>
                  screens[j] == Alone(v, Typed(events, j)).client && inputs[j] == Alone(v, Typed(events, j)).log
    {
      assert p.here[k] ==> Shares(p, k, Private(Alone(v, Typed(events, k))));
      var desk := DeskOf(p.os.io, p.shells[k].clifd);
      screens, inputs := screens + [desk.client], inputs + [desk.log];
    }
  }
}
