/**
 Who owns which descriptor. `Balanced` ties the descriptor table to the list of
 line nodes: every open pipe end is either the end some later line's node
 stores, or in the hand of the line being executed, or left behind; and the only
 writer of a later line's pipe is the end stored in its node.
 */
module Ledger {
  import opened Kernel
  import opened LineList

  datatype Books = Books(
    fds: Table, role: map<int, Role>, clifd: int, npipes: nat,
    low: nat,               // the first line that has not consumed its pipe
    nodes: seq<Entry>,
    pid: map<nat, nat>,     // the pipe of each line that has one
    spent: set<int>,        // read ends nobody will close
    wasted: set<int>,       // write ends nobody will close
    hand: set<int>,         // descriptors of the line being executed
    foreign: map<int, Desc>,   // descriptors of other clients
    theirs: set<nat>)       // pipes of other clients

  ghost predicate Holds(b: Books, f: int, d: Desc, r: Role) {
    f in b.fds && f in b.role && b.fds[f] == d && b.role[f] == r
  }

  predicate IsEnd(d: Desc) { d.ReadEnd? || d.WriteEnd? }

  ghost predicate Standard(b: Books) {
    && b.clifd >= 3
    && Holds(b, 0, Console, Std) && Holds(b, 1, Console, Std) && Holds(b, 2, Console, Std)
    && Holds(b, b.clifd, Client(b.clifd), Std)
    && b.fds.Keys == b.role.Keys
    && (forall f :: f in b.fds ==> f >= 0 && (IsEnd(b.fds[f]) ==> b.fds[f].pipe < b.npipes))
  }

  /** The node of line i stores both ends of the line's pipe. */
  ghost predicate Wired(b: Books, i: nat)
    requires i in b.pid
  {
    && b.low <= i < |b.nodes| && b.pid[i] < b.npipes
    && Holds(b, b.nodes[i].fdReadout, ReadEnd(b.pid[i]), In(i))
    && Holds(b, b.nodes[i].fdWritein, WriteEnd(b.pid[i]), Into(i))
    && (forall f :: f in b.fds && b.fds[f] == WriteEnd(b.pid[i]) ==> f == b.nodes[i].fdWritein)
  }

  predicate Unwired(e: Entry) { e.fdReadout == -1 && e.fdWritein == -1 }

  /** Roles of the line being executed. */
  predicate OfLine(r: Role) { r.LinkIn? || r.LinkOut? || r.OutFile? }

  ghost predicate Accounted(b: Books, f: int)
    requires f in b.role && f in b.fds
  {
    var r := b.role[f];
    && (f in b.hand <==> OfLine(r)) && (f in b.spent <==> r.Spent?) && (f in b.wasted <==> r.Wasted?)
    && (f in b.foreign <==> r.Other?) && (!r.Other? && IsEnd(b.fds[f]) ==> b.fds[f].pipe !in b.theirs)
    && match r
       case Std => !IsEnd(b.fds[f]) && (f <= 2 || f == b.clifd)
       case In(i) => i in b.pid && i < |b.nodes| && b.nodes[i].fdReadout == f
       case Into(i) => i in b.pid && i < |b.nodes| && b.nodes[i].fdWritein == f
       case LinkIn => b.fds[f].ReadEnd?
       case LinkOut => b.fds[f].WriteEnd?
       case OutFile => b.fds[f].File?
       case Spent => b.fds[f].ReadEnd?
       case Wasted => b.fds[f].WriteEnd?
       case Other => b.fds[f] == b.foreign[f]
  }

  ghost predicate Balanced(b: Books) {
    && Standard(b)
    && (forall i :: i in b.pid ==> Wired(b, i))
    && (forall i :: b.low <= i < |b.nodes| && i !in b.pid ==> Unwired(b.nodes[i]))
    && b.hand <= b.fds.Keys && b.spent <= b.fds.Keys && b.wasted <= b.fds.Keys
    && b.foreign.Keys <= b.fds.Keys && (forall p :: p in b.theirs ==> p < b.npipes)
    && (forall f :: f in b.fds ==> Accounted(b, f))
  }

  function Upto(n: nat): (s: set<nat>)
    ensures forall p: nat :: p in s <==> p < n
  {
    if n == 0 then {} else Upto(n - 1) + {n - 1}
  }

  /** How a new client sees the descriptors. */
  function NewRoles(fds: Table, clifd: int): map<int, Role> {
    map f | f in fds :: if f == clifd || f <= 2 then Std else Other
  }

  /** A client that nothing has been done for yet. */
  ghost function Newcomer(fds: Table, clifd: int, npipes: nat, head: Entry): Books {
    Books(fds, NewRoles(fds, clifd), clifd, npipes, 1, [head], map[], {}, {}, {},
          map f | f in fds && f != clifd && f > 2 :: fds[f],
          Upto(npipes))
  }

  lemma OpeningBalanced(fds: Table, clifd: int, npipes: nat, head: Entry)
    requires Usable(fds, clifd, npipes)
    ensures Balanced(Newcomer(fds, clifd, npipes, head))
  {
  }

  /** The numbers 0, 1, 2 and a client's socket are what they should be. */
  ghost predicate Usable(fds: Table, clifd: int, npipes: nat) {
    && clifd >= 3
    && 0 in fds && fds[0] == Console && 1 in fds && fds[1] == Console && 2 in fds && fds[2] == Console
    && clifd in fds && fds[clifd] == Client(clifd)
    && (forall f :: f in fds ==> f >= 0 && (IsEnd(fds[f]) ==> fds[f].pipe < npipes))
  }

  lemma WiredAt(b: Books, i: nat)
    requires Balanced(b) && i in b.pid
    ensures Wired(b, i)
  {
  }

  lemma UnwiredAt(b: Books, i: nat)
    requires Balanced(b) && b.low <= i < |b.nodes| && i !in b.pid
    ensures Unwired(b.nodes[i])
  {
  }

  lemma AccountedAt(b: Books, f: int)
    requires Balanced(b) && f in b.fds
    ensures f in b.role && Accounted(b, f)
  {
  }

  lemma StandardIn(b: Books)
    requires Balanced(b)
    ensures Standard(b) && b.hand <= b.fds.Keys && b.spent <= b.fds.Keys && b.wasted <= b.fds.Keys
    ensures b.foreign.Keys <= b.fds.Keys && forall p :: p in b.theirs ==> p < b.npipes
  {
  }

  // ---------- what the shell does to the books ----------

  /** A pipe between two commands of the line. */
  ghost function AddLink(b: Books, r: int, w: int): Books {
    b.(fds := b.fds[r := ReadEnd(b.npipes)][w := WriteEnd(b.npipes)], role := b.role[r := LinkIn][w := LinkOut],
       npipes := b.npipes + 1, hand := b.hand + {r, w})
  }

  lemma AddLinkBalanced(b: Books, r: int, w: int)
    requires Balanced(b)
    requires LowestFree(b.fds, r) && LowestFree(b.fds[r := ReadEnd(b.npipes)], w)
    ensures Balanced(AddLink(b, r, w)) && r != w && r >= 3 && w >= 3
    ensures forall f :: f in AddLink(b, r, w).fds && AddLink(b, r, w).fds[f] == WriteEnd(b.npipes) ==> f == w
    ensures forall p: nat :: NoWriter(b.fds, p) && p < b.npipes ==> NoWriter(AddLink(b, r, w).fds, p)
  {
    hide Accounted, Wired, Standard;
    AddLinkStandard(b, r, w);
    var b' := AddLink(b, r, w);
    forall i | i in b'.pid ensures Wired(b', i) {
      AddLinkWired(b, r, w, i);
    }
    forall f | f in b'.fds ensures f in b'.role && Accounted(b', f) {
      AddLinkAccounted(b, r, w, f);
    }
  }

  lemma AddLinkStandard(b: Books, r: int, w: int)
    requires Balanced(b)
    requires LowestFree(b.fds, r) && LowestFree(b.fds[r := ReadEnd(b.npipes)], w)
    ensures Standard(AddLink(b, r, w)) && r >= 3 && w >= 3 && r != w
    ensures forall f :: f in AddLink(b, r, w).fds && AddLink(b, r, w).fds[f] == WriteEnd(b.npipes) ==> f == w
  {
    hide Balanced;
    StandardIn(b);
  }

  lemma AddLinkWired(b: Books, r: int, w: int, i: nat)
    requires Balanced(b) && i in b.pid && r !in b.fds && w !in b.fds && r != w
    ensures Wired(AddLink(b, r, w), i)
  {
    hide Balanced;
    WiredAt(b, i);
  }

  lemma AddLinkAccounted(b: Books, r: int, w: int, f: int)
    requires Balanced(b) && f in AddLink(b, r, w).fds && r !in b.fds && w !in b.fds && r != w
    ensures f in AddLink(b, r, w).role && Accounted(AddLink(b, r, w), f)
  {
    hide Balanced;
    StandardIn(b);
    if f in b.fds {
      AccountedAt(b, f);
    }
  }

  /** The pipe of a later line, stored in that line's node. */
  ghost function AddTarget(b: Books, t: nat, r: int, w: int): Books
    requires t < |b.nodes|
  {
    b.(fds := b.fds[r := ReadEnd(b.npipes)][w := WriteEnd(b.npipes)], role := b.role[r := In(t)][w := Into(t)],
       npipes := b.npipes + 1, pid := b.pid[t := b.npipes],
       nodes := b.nodes[t := b.nodes[t].(fdReadout := r, fdWritein := w)])
  }

  ghost predicate CanAddTarget(b: Books, t: nat, r: int, w: int) {
    && Balanced(b) && b.low <= t < |b.nodes| && t !in b.pid
    && LowestFree(b.fds, r) && LowestFree(b.fds[r := ReadEnd(b.npipes)], w)
  }

  lemma AddTargetWired(b: Books, t: nat, r: int, w: int, i: nat)
    requires CanAddTarget(b, t, r, w) && i in AddTarget(b, t, r, w).pid
    ensures Wired(AddTarget(b, t, r, w), i)
  {
    hide Balanced;
    StandardIn(b);
    if i != t {
      WiredAt(b, i);
    }
  }

  lemma AddTargetAccounted(b: Books, t: nat, r: int, w: int, f: int)
    requires CanAddTarget(b, t, r, w) && f in AddTarget(b, t, r, w).fds
    ensures f in AddTarget(b, t, r, w).role && Accounted(AddTarget(b, t, r, w), f)
  {
    hide Balanced;
    StandardIn(b);
    if f in b.fds {
      AccountedAt(b, f);
    }
  }

  lemma AddTargetBalanced(b: Books, t: nat, r: int, w: int)
    requires CanAddTarget(b, t, r, w)
    ensures Balanced(AddTarget(b, t, r, w)) && r >= 3 && w >= 3
    ensures forall p: nat :: NoWriter(b.fds, p) && p < b.npipes ==> NoWriter(AddTarget(b, t, r, w).fds, p)
  {
    hide Accounted, Wired, Standard;
    AddTargetStandard(b, t, r, w);
    var b' := AddTarget(b, t, r, w);
    forall i | i in b'.pid ensures Wired(b', i) {
      AddTargetWired(b, t, r, w, i);
    }
    forall f | f in b'.fds ensures f in b'.role && Accounted(b', f) {
      AddTargetAccounted(b, t, r, w, f);
    }
  }

  lemma AddTargetStandard(b: Books, t: nat, r: int, w: int)
    requires CanAddTarget(b, t, r, w)
    ensures Standard(AddTarget(b, t, r, w)) && r >= 3 && w >= 3
  {
    hide Balanced;
    StandardIn(b);
  }

  /** The output file of the line. */
  ghost function AddFile(b: Books, f: int, name: string): Books {
    b.(fds := b.fds[f := File(name)], role := b.role[f := OutFile], hand := b.hand + {f})
  }

  lemma AddFileBalanced(b: Books, f: int, name: string)
    requires Balanced(b) && LowestFree(b.fds, f)
    ensures Balanced(AddFile(b, f, name)) && f >= 3
    ensures forall p: nat :: NoWriter(b.fds, p) ==> NoWriter(AddFile(b, f, name).fds, p)
  {
    hide Accounted, Wired, Standard;
    AddFileStandard(b, f, name);
    var b' := AddFile(b, f, name);
    forall i | i in b'.pid ensures Wired(b', i) {
      AddFileWired(b, f, name, i);
    }
    forall g | g in b'.fds ensures g in b'.role && Accounted(b', g) {
      AddFileAccounted(b, f, name, g);
    }
  }

  lemma AddFileStandard(b: Books, f: int, name: string)
    requires Balanced(b) && LowestFree(b.fds, f)
    ensures Standard(AddFile(b, f, name)) && f >= 3
  {
    hide Balanced;
    StandardIn(b);
  }

  lemma AddFileWired(b: Books, f: int, name: string, i: nat)
    requires Balanced(b) && i in b.pid && f !in b.fds
    ensures Wired(AddFile(b, f, name), i)
  {
    hide Balanced;
    WiredAt(b, i);
  }

  lemma AddFileAccounted(b: Books, f: int, name: string, g: int)
    requires Balanced(b) && f !in b.fds && g in AddFile(b, f, name).fds
    ensures g in AddFile(b, f, name).role && Accounted(AddFile(b, f, name), g)
  {
    hide Balanced;
    StandardIn(b);
    if g in b.fds {
      AccountedAt(b, g);
    }
  }

  /** A descriptor in hand is closed. */
  ghost function Drop(b: Books, f: int): Books {
    b.(fds := b.fds - {f}, role := b.role - {f}, hand := b.hand - {f})
  }

  lemma DropBalanced(b: Books, f: int)
    requires Balanced(b) && f in b.hand
    ensures Balanced(Drop(b, f))
    ensures forall p: nat :: NoWriter(b.fds, p) ==> NoWriter(Drop(b, f).fds, p)
  {
    var b' := Drop(b, f);
    assert Accounted(b, f);
    forall i | i in b'.pid ensures Wired(b', i) {
      assert Wired(b, i);
    }
    forall g | g in b'.fds ensures Accounted(b', g) {
      assert Accounted(b, g);
    }
  }

  /** A read end in hand is forgotten without being closed. */
  ghost function Abandon(b: Books, f: int): Books {
    b.(role := b.role[f := Spent], hand := b.hand - {f}, spent := b.spent + {f})
  }

  lemma AbandonBalanced(b: Books, f: int)
    requires Balanced(b) && f in b.hand && b.role[f] == LinkIn
    ensures Balanced(Abandon(b, f)) && f !in b.spent && b.fds[f].ReadEnd?
    ensures |Abandon(b, f).spent| == |b.spent| + 1
  {
    var b' := Abandon(b, f);
    assert Accounted(b, f);
    forall i | i in b'.pid ensures Wired(b', i) {
      assert Wired(b, i);
    }
    forall g | g in b'.fds ensures Accounted(b', g) {
      assert Accounted(b, g);
    }
  }

  /** The line starts to read its pipe: the write end is closed, the read end in hand. */
  ghost function Retire(b: Books): Books
    requires b.low < |b.nodes|
  {
    var r, w := b.nodes[b.low].fdReadout, b.nodes[b.low].fdWritein;
    b.(fds := b.fds - {w}, role := (b.role - {w})[r := LinkIn],
       pid := b.pid - {b.low}, low := b.low + 1, hand := b.hand + {r})
  }

  lemma RetireAccounted(b: Books, f: int)
    requires Balanced(b) && b.low in b.pid && b.low < |b.nodes| && f in Retire(b).fds
    ensures f in Retire(b).role && Accounted(Retire(b), f)
  {
    hide Balanced;
    WiredAt(b, b.low);
    AccountedAt(b, f);
  }

  lemma RetireBalanced(b: Books)
    requires Balanced(b) && b.low in b.pid
    ensures b.low < |b.nodes| && Balanced(Retire(b)) && NoWriter(Retire(b).fds, b.pid[b.low])
    ensures var r := b.nodes[b.low].fdReadout;
            r !in b.hand && r in Retire(b).fds && Retire(b).fds[r] == ReadEnd(b.pid[b.low])
    ensures b.pid[b.low] !in Retire(b).pid.Values
  {
    hide Accounted, Standard;
    WiredAt(b, b.low);
    RetireStandard(b);
    var b' := Retire(b);
    forall i | i in b'.pid ensures Wired(b', i) && b.pid[i] != b.pid[b.low] {
      RetireWired(b, i);
    }
    forall f | f in b'.fds ensures f in b'.role && Accounted(b', f) {
      RetireAccounted(b, f);
    }
  }

  lemma RetireStandard(b: Books)
    requires Balanced(b) && b.low in b.pid && b.low < |b.nodes|
    ensures Standard(Retire(b)) && b.nodes[b.low].fdReadout !in b.hand
    ensures b.hand <= Retire(b).fds.Keys && b.spent <= Retire(b).fds.Keys && b.wasted <= Retire(b).fds.Keys
    ensures b.foreign.Keys <= Retire(b).fds.Keys
  {
    hide Balanced;
    StandardIn(b);
    WiredAt(b, b.low);
    AccountedAt(b, b.nodes[b.low].fdReadout);
    AccountedAt(b, b.nodes[b.low].fdWritein);
  }

  lemma RetireWired(b: Books, i: nat)
    requires Balanced(b) && b.low in b.pid && b.low < |b.nodes| && i in Retire(b).pid
    ensures Wired(Retire(b), i) && b.pid[i] != b.pid[b.low]
  {
    hide Balanced;
    WiredAt(b, b.low);
    WiredAt(b, i);
  }

  /** A line that executes nothing leaves both ends of its pipe open. */
  ghost function Forget(b: Books): Books
    requires b.low < |b.nodes|
  {
    var r, w := b.nodes[b.low].fdReadout, b.nodes[b.low].fdWritein;
    b.(role := b.role[r := Spent][w := Wasted], pid := b.pid - {b.low}, low := b.low + 1,
       spent := b.spent + {r}, wasted := b.wasted + {w})
  }

  lemma ForgetAccounted(b: Books, f: int)
    requires Balanced(b) && b.low in b.pid && b.low < |b.nodes| && f in b.fds
    ensures f in Forget(b).role && Accounted(Forget(b), f)
  {
    hide Balanced;
    WiredAt(b, b.low);
    AccountedAt(b, f);
  }

  lemma ForgetBalanced(b: Books)
    requires Balanced(b) && b.low in b.pid
    ensures b.low < |b.nodes| && Balanced(Forget(b))
  {
    hide Accounted, Standard;
    WiredAt(b, b.low);
    var b' := Forget(b);
    forall i | i in b'.pid ensures Wired(b', i) {
      ForgetWired(b, i);
    }
    ForgetStandard(b);
    forall f | f in b'.fds ensures f in b'.role && Accounted(b', f) {
      ForgetAccounted(b, f);
    }
  }

  lemma ForgetStandard(b: Books)
    requires Balanced(b) && b.low in b.pid && b.low < |b.nodes|
    ensures Standard(Forget(b)) && Forget(b).spent <= b.fds.Keys && Forget(b).wasted <= b.fds.Keys
  {
    hide Balanced;
    StandardIn(b);
    WiredAt(b, b.low);
  }

  lemma ForgetWired(b: Books, i: nat)
    requires Balanced(b) && b.low in b.pid && b.low < |b.nodes| && i in Forget(b).pid
    ensures Wired(Forget(b), i)
  {
    hide Balanced;
    WiredAt(b, b.low);
    WiredAt(b, i);
  }

  lemma ForgetSpends(b: Books)
    requires Balanced(b) && b.low in b.pid && b.low < |b.nodes|
    ensures |Forget(b).spent| == |b.spent| + 1 && |Forget(b).wasted| == |b.wasted| + 1
  {
    var r, w := b.nodes[b.low].fdReadout, b.nodes[b.low].fdWritein;
    assert Wired(b, b.low);
    assert Accounted(b, r) && Accounted(b, w);
  }

  /** The line has no pipe. */
  lemma SkipBalanced(b: Books)
    requires Balanced(b) && b.low < |b.nodes| && b.low !in b.pid
    ensures Balanced(b.(low := b.low + 1))
  {
    var b' := b.(low := b.low + 1);
    forall i | i in b'.pid ensures Wired(b', i) {
      assert Wired(b, i);
    }
    forall g | g in b'.fds ensures Accounted(b', g) {
      assert Accounted(b, g);
    }
  }

  /** Changes to the list that move no descriptor: fields of a line, and empty nodes at the end. */
  lemma NodesBalanced(b: Books, nodes: seq<Entry>)
    requires Balanced(b) && |b.nodes| <= |nodes|
    requires forall i :: 0 <= i < |b.nodes| ==>
               nodes[i].fdReadout == b.nodes[i].fdReadout && nodes[i].fdWritein == b.nodes[i].fdWritein
    requires forall i :: |b.nodes| <= i < |nodes| ==> Unwired(nodes[i])
    ensures Balanced(b.(nodes := nodes))
  {
    var b' := b.(nodes := nodes);
    forall i | i in b'.pid ensures Wired(b', i) {
      assert Wired(b, i);
    }
    forall i | b'.low <= i < |b'.nodes| && i !in b'.pid ensures Unwired(b'.nodes[i]) {
      assert i < |b.nodes| ==> Unwired(b.nodes[i]);
    }
    forall g | g in b'.fds ensures Accounted(b', g) {
      assert Accounted(b, g);
      assert b.role[g].In? ==> Wired(b, b.role[g].line);
      assert b.role[g].Into? ==> Wired(b, b.role[g].line);
    }
  }

  /** The descriptors stored in the nodes of the lines still to come. */
  ghost predicate StoredAhead(b: Books, f: int) {
    exists i :: b.low <= i < |b.nodes| && (f == b.nodes[i].fdReadout || f == b.nodes[i].fdWritein)
  }

  /** Conservation: between lines the open pipe descriptors are the ones left
      behind for good and exactly the two ends stored in each node ahead. */
  lemma OpenEndsAreStored(b: Books, f: int)
    requires Balanced(b) && b.hand == {}
    ensures f in b.fds && IsEnd(b.fds[f]) && f !in b.spent + b.wasted + b.foreign.Keys <==> f >= 0 && StoredAhead(b, f)
  {
    if f in b.fds && IsEnd(b.fds[f]) && f !in b.spent + b.wasted + b.foreign.Keys {
      assert Accounted(b, f);
      assert Wired(b, b.role[f].line);
    }
    if f >= 0 && StoredAhead(b, f) {
      var i :| b.low <= i < |b.nodes| && (f == b.nodes[i].fdReadout || f == b.nodes[i].fdWritein);
      assert i in b.pid ==> Wired(b, i);
      assert i !in b.pid ==> Unwired(b.nodes[i]);
      assert Accounted(b, f);
    }
  }
}
