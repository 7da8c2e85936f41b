/**
 `execute_cmdline`, `creat_proc` and the dispatch of lines (netshell.c of
 Project1, and of Project2 where it differs), on the list of line nodes and the
 descriptor table. Every line does to the real state what `Routing.Step` does
 to the post office; no command is ever started on a pipe that still has a
 writer; every close gives up a descriptor still open for the role it was made for.
 */
module Engine {
  import opened Common
  import opened Routing
  import opened Kernel
  import opened LineList
  import opened Ledger

  /** The bytes in the pipe of each later line. */
  ghost function Waiting(pid: map<nat, nat>, pipes: seq<Bytes>): map<nat, Bytes> {
    map i | i in pid && pid[i] < |pipes| :: pipes[pid[i]]
  }

  predicate Untouched(e: Entry) {
    e.filename == None && e.fdTofile == -1 && !e.pipeErr
  }

  /** The fields of the current node that say where its last command writes. */
  predicate Aimed(e: Entry, sink: Sink) {
    && e.fdTofile == -1
    && match sink
       case ToClient => e.filename == None && e.pipeto == 0 && !e.pipeErr
       case ToFile(name) => e.filename == Some(name) && e.pipeto == 0 && !e.pipeErr
       case ToLine(n, withErr) => e.filename == None && e.pipeto == n && e.pipeErr == withErr
  }

  predicate SafeNumbers(e: Entry) {
    e.fdReadout == -1 || (e.fdReadout >= 3 && e.fdWritein >= 3)
  }

  ghost predicate Spared(io: Io, kept: map<nat, Bytes>, away: map<int, Desk>) {
    io.aside == away && forall p :: p in kept ==> p < |io.pipes| && io.pipes[p] == kept[p]
  }

  lemma WritesSpare(io: Io, kept: map<nat, Bytes>, away: map<int, Desk>, out: Desc, err: Desc, chunks: seq<Chunk>)
    requires Spared(io, kept, away)
    requires (out.Client? ==> out.socket == io.socket) && (out.WriteEnd? ==> out.pipe !in kept)
    requires (err.Client? ==> err.socket == io.socket) && (err.WriteEnd? ==> err.pipe !in kept)
    ensures Spared(WriteAll(io, out, err, chunks), kept, away)
    ensures |WriteAll(io, out, err, chunks).pipes| == |io.pipes| && WriteAll(io, out, err, chunks).socket == io.socket
  {
    WriteAllFrame(io, out, err, chunks);
    WriteAllSpares(io, out, err, chunks);
  }

  lemma SparedLogs(io: Io, kept: map<nat, Bytes>, away: map<int, Desk>, log: seq<Input>)
    requires Spared(io, kept, away)
    ensures Spared(io.(log := log), kept, away)
  {
  }

  class Shell {
    const v: Variant
    const clifd: int
    const os: Os
    const list: List
    ghost var low: nat
    ghost var pid: map<nat, nat>
    ghost var spent: set<int>
    ghost var wasted: set<int>
    ghost var hand: set<int>
    ghost var foreign: map<int, Desc>     // what the other clients have open,
    ghost var kept: map<nat, Bytes>       // what is in their pipes,
    ghost var away: map<int, Desk>        // and what they have seen

    ghost function B(): Books
      reads this, os, list, list.nodes
    {
      Books(os.fds, os.role, clifd, |os.io.pipes|, low, list.Entries(), pid, spent, wasted, hand, foreign, kept.Keys)
    }

    /** The other clients find everything as they left it. */
    ghost predicate Spares()
      reads this, os
    {
      Spared(os.io, kept, away)
    }

    /** This client is being served. */
    ghost predicate Sound()
      reads this, os, list, list.nodes
    {
      list.Valid() && Balanced(B()) && !os.stalled && os.io.socket == clifd && Spares()
    }

    /** Between lines. */
    ghost predicate Valid()
      reads this, os, list, list.nodes
    {
      && Sound() && hand == {} && low == list.at + 1
      && BlankFrom(list.at + 1)
    }

    /** Not being served; `b` are the books as this client left them. */
    ghost predicate AtRest(b: Books)
      reads this, list, list.nodes
    {
      && list.Valid() && Balanced(b) && hand == b.hand == {} && low == b.low == list.at + 1
      && b.clifd == clifd && b.nodes == list.Entries() && b.pid == pid && b.spent == spent && b.wasted == wasted
      && BlankFrom(list.at + 1)
    }

    /** What the shell has done, as the post office sees it. */
    ghost function Abs(): Office
      reads this, os, list
    {
      Office(list.at, Waiting(pid, os.io.pipes), os.io.client, os.io.files, os.io.log, |spent|, |wasted|)
    }

    /** A client that has just been accepted and is served now. */
    constructor (v: Variant, os: Os, clifd: int, linecount: int)
      requires Usable(os.fds, clifd, |os.io.pipes|) && os.role == NewRoles(os.fds, clifd)
      requires os.io.socket == clifd && !os.stalled
      ensures Valid() && this.v == v && this.os == os && this.clifd == clifd
      ensures Abs() == Opening.(client := os.io.client, files := os.io.files, log := os.io.log)
      ensures B() == Newcomer(os.fds, clifd, |os.io.pipes|, Blank(0, 0))
      ensures fresh(list) && fresh(list.nodes)
    {
      hide Balanced, Usable, List.Valid;
      this.v, this.os, this.clifd := v, os, clifd;
      list := new List(linecount);
      low, pid, spent, wasted, hand := 1, map[], {}, {}, {};
      foreign := Newcomer(os.fds, clifd, |os.io.pipes|, Blank(0, 0)).foreign;
      kept := map p | p in Upto(|os.io.pipes|) :: os.io.pipes[p];
      away := os.io.aside;
      OpeningBalanced(os.fds, clifd, |os.io.pipes|, Blank(0, 0));
      new;
      assert kept.Keys == Upto(|os.io.pipes|);
      assert B() == Newcomer(os.fds, clifd, |os.io.pipes|, Blank(0, 0));
    }

    /** A pipe between command C and the next. */
    method NewLink() returns (r: int, w: int)
      requires Sound()
      modifies this`hand, os`fds, os`role, os`io
      ensures LowestFree(old(os.fds), r) && LowestFree(old(os.fds)[r := ReadEnd(|old(os.io.pipes)|)], w)
      ensures Sound() && B() == AddLink(old(B()), r, w) && r >= 3 && w >= 3 && r != w
      ensures os.io == old(os.io).(pipes := old(os.io.pipes) + [[]])
      ensures forall p: nat :: NoWriter(old(os.fds), p) && p < |old(os.io.pipes)| ==> NoWriter(os.fds, p)
      ensures forall f :: f in os.fds && os.fds[f] == WriteEnd(|old(os.io.pipes)|) ==> f == w
    {
      r, w := os.Pipe(LinkIn, LinkOut);
      hand := hand + {r, w};
      AddLinkBalanced(old(B()), r, w);
      assert B() == AddLink(old(B()), r, w);
    }

    /** Close a descriptor of the line being executed. */
    method CloseHand(f: int, ghost r: Role)
      requires Sound() && f in hand && os.role[f] == r
      modifies this`hand, os`fds, os`role
      ensures Sound() && B() == Drop(old(B()), f)
      ensures forall p: nat :: NoWriter(old(os.fds), p) ==> NoWriter(os.fds, p)
    {
      hide Accounted;
      os.Close(f, r);
      hand := hand - {f};
      DropBalanced(old(B()), f);
      assert B() == Drop(old(B()), f);
    }

    /** The current node stores a pipe exactly when some earlier line wrote to this one. */
    lemma CurrentPipe()
      requires Sound() && low == list.at
      ensures list.Entries()[low] == list.curnode.Contents()
      ensures if low in pid
              then && Holds(B(), list.curnode.fdReadout, ReadEnd(pid[low]), In(low)) && list.curnode.fdReadout >= 3
                   && Holds(B(), list.curnode.fdWritein, WriteEnd(pid[low]), Into(low)) && list.curnode.fdWritein >= 3
                   && pid[low] < |os.io.pipes|
              else list.curnode.fdReadout == -1 && list.curnode.fdWritein == -1
    {
      hide Balanced, Spared;
      StandardIn(B());
      if low in pid {
        WiredAt(B(), low);
      } else {
        UnwiredAt(B(), low);
      }
    }

    method CloseOwnWriter()
      requires Sound() && low == list.at && low in pid
      modifies this`hand, this`low, this`pid, os`fds, os`role
      ensures Sound() && B() == Retire(old(B()))
    {
      hide Balanced;
      CurrentPipe();
      RetireBalanced(B());
      ghost var b := B();
      os.Close(list.curnode.fdWritein, Into(low));
      os.Relabel(list.curnode.fdReadout, LinkIn);
      hand, pid, low := hand + {list.curnode.fdReadout}, pid - {low}, low + 1;
      assert B() == Retire(b);
    }

    /** Lines 444-447: the first command closes the write end of the line's pipe,
        so that the end of its input can be seen. */
    method CloseWriter(C: nat)
      requires Sound() && low == list.at + if C == 0 then 0 else 1
      modifies this`hand, this`low, this`pid, os`fds, os`role
      ensures Sound()
      ensures C == 0 && list.at in old(pid) ==> B() == Retire(old(B()))
      ensures C == 0 && list.at !in old(pid) ==> B() == old(B()).(low := list.at + 1)
      ensures C != 0 ==> B() == old(B())
    {
      hide Spared, Wired, Accounted, Standard;
      if C == 0 {
        CurrentPipe();
        if list.curnode.fdWritein >= 0 {
          CloseOwnWriter();
        } else {
          SkipBalanced(B());
          low := low + 1;
        }
      }
    }

    /** A read end the program never closes again. */
    ghost method LeaveOpen(f: int)
      requires Sound() && f in hand && os.role[f] == LinkIn
      modifies this`hand, this`spent, os`role
      ensures Sound() && B() == Abandon(old(B()), f) && |spent| == |old(spent)| + 1
    {
      hide List.Valid, Accounted, Spared;
      ghost var b := B();
      AbandonBalanced(b, f);
      os.Relabel(f, Spent);
      hand, spent := hand - {f}, spent + {f};
      assert B() == Abandon(b, f);
    }

    /** Lines 457-460, and Project2/shm/src/netshell.c:785-793: give up the input
        of command C. Only shm closes the pipe an earlier line wrote. */
    method CloseInput(C: nat, fdIn: int)
      requires Sound() && (if C == 0 && list.curnode.fdReadout == -1 then fdIn == 0 else InHand(B(), fdIn))
      requires C == 0 && list.curnode.fdReadout != -1 ==> fdIn == list.curnode.fdReadout >= 0
      modifies this`hand, this`spent, os`fds, os`role
      ensures Sound() && hand == old(hand) - {fdIn}
      ensures B().(fds := old(os.fds), role := old(os.role), hand := old(hand), spent := old(spent)) == old(B())
      ensures if C == 0 && fdIn != 0 && !v.Shm? then |spent| == |old(spent)| + 1 else spent == old(spent)
      ensures forall p: nat :: NoWriter(old(os.fds), p) ==> NoWriter(os.fds, p)
      ensures forall f :: f in old(hand) && f != fdIn ==>
                f in os.fds && f in os.role && os.fds[f] == old(os.fds[f]) && os.role[f] == old(os.role[f])
    {
      hide Balanced;
      HandOpen(B());
      if v.Shm? && C == 0 && list.curnode.fdReadout >= 0 {
        CloseHand(list.curnode.fdReadout, LinkIn);
      }
      if C != 0 {
        CloseHand(fdIn, LinkIn);
      }
      if C == 0 && fdIn != 0 && !v.Shm? {
        LeaveOpen(fdIn);
      }
    }

    /** A node ahead stores a pipe exactly when some line already wrote to it. */
    lemma NodePipe(t: nat)
      requires Sound() && low <= t < |list.nodes|
      ensures list.Entries()[t] == list.nodes[t].Contents()
      ensures t in pid <==> list.nodes[t].fdReadout != -1
      ensures t in pid ==> list.nodes[t].fdWritein >= 3
    {
      hide Balanced, Spared;
      StandardIn(B());
      if t in pid {
        WiredAt(B(), t);
      } else {
        UnwiredAt(B(), t);
      }
    }

    method NewTarget(tmpnode: Node, ghost t: nat) returns (r: int, w: int)
      requires Sound() && low <= t < |list.nodes| && t !in pid && tmpnode == list.nodes[t]
      modifies this`pid, os`fds, os`role, os`io, tmpnode`fdReadout, tmpnode`fdWritein
      ensures Sound() && B() == AddTarget(old(B()), t, r, w) && tmpnode.fdWritein == w
      ensures os.io == old(os.io).(pipes := old(os.io.pipes) + [[]])
      ensures r !in old(os.fds) && w !in old(os.fds) && w >= 3 && w != r
      ensures forall p: nat :: NoWriter(old(os.fds), p) && p < |old(os.io.pipes)| ==> NoWriter(os.fds, p)
    {
      hide Balanced, List.Valid;
      ghost var b := B();
      r, w := os.Pipe(In(t), Into(t));
      list.SetPipe(tmpnode, t, r, w);
      assert list.Entries()[t] == tmpnode.Contents();
      pid := pid[t := |os.io.pipes| - 1];
      assert list.Entries() == AddTarget(b, t, r, w).nodes;
      assert B() == AddTarget(b, t, r, w);
      AddTargetBalanced(b, t, r, w);
    }

    /** Lines 408-428: the write end of the pipe of the line `pipeto` lines ahead,
        made now if no earlier line made it. (The copy in `pipes_fd[C]` is dropped:
        no later command reads it.) */
    method OpenTarget(ghost t: nat) returns (fdOut: int)
      requires Sound()
      requires 1 <= list.at && low <= list.at + 1 && 1 <= list.curnode.pipeto
      requires t == list.at + list.curnode.pipeto < |list.nodes|
      modifies this`pid, os`fds, os`role, os`io, list.nodes
      ensures Sound() && fdOut >= 3
      ensures TargetOpened(old(B()), B(), old(os.io), os.io, t, fdOut)
      ensures forall p: nat :: NoWriter(old(os.fds), p) && p < |old(os.io.pipes)| ==> NoWriter(os.fds, p)
    {
      hide Balanced;
      ghost var b, io, steps := B(), os.io, 0;
      var tmpnode;
      tmpnode, steps := list.FindTarget();
      NodePipe(t);
      if tmpnode.fdReadout == -1 {
        var r, w := NewTarget(tmpnode, t);
        MadeTarget(b, io, t, r, w, B(), os.io);
      } else {
        FoundTarget(b, io, t);
      }
      fdOut := tmpnode.fdWritein;
    }

    /** Lines 399-403: the output file of the line, emptied. */
    method OpenFile() returns (fdOut: int)
      requires Sound() && list.curnode.filename.Some?
      modifies this`hand, os`fds, os`role, os`io, list.curnode`fdTofile
      ensures Sound() && fdOut >= 3 && list.curnode.fdTofile == fdOut && fdOut !in old(os.fds)
      ensures B() == AddFile(old(B()), fdOut, list.curnode.filename.value).(nodes := list.Entries())
      ensures list.Entries() == old(list.Entries())[list.at := old(list.Entries())[list.at].(fdTofile := fdOut)]
      ensures os.io == old(os.io).(files := old(os.io.files)[list.curnode.filename.value := []])
      ensures forall p: nat :: NoWriter(old(os.fds), p) ==> NoWriter(os.fds, p)
    {
      hide Balanced, List.Valid;
      ghost var b := B();
      fdOut := os.Open(list.curnode.filename.value, OutFile);
      list.SetTofile(fdOut);
      hand := hand + {fdOut};
      assert list.curnode.Contents() == list.Entries()[list.at];
      assert B() == AddFile(b, fdOut, list.curnode.filename.value).(nodes := list.Entries());
      FileOpened(b, fdOut, list.curnode.filename.value, list.Entries());
    }

    /** The child of `creat_proc` moves its three descriptors into place before it
        closes the numbers of its line's pipes, so it does not matter that some of
        those numbers were closed and handed out again meanwhile. */
    method ChildTable(fdIn: int, fdOut: int, fdErr: int, pipesCount: nat, pipesFd: seq<(int, int)>)
      returns (child: Table)
      requires (fdIn == 0 || fdIn >= 3) && fdOut >= 3 && fdErr >= 3
      requires {0, 1, 2, fdIn, fdOut, fdErr} <= os.fds.Keys
      requires pipesCount <= |pipesFd| && forall P :: 0 <= P < pipesCount ==> pipesFd[P].0 >= 3 && pipesFd[P].1 >= 3
      requires SafeNumbers(list.curnode.Contents())
      requires list.curnode.fdTofile < 0 || list.curnode.fdTofile >= 3
      ensures 0 in child && child[0] == os.fds[fdIn]
      ensures 1 in child && child[1] == os.fds[fdOut]
      ensures 2 in child && child[2] == os.fds[fdErr]
      ensures forall p: nat :: NoWriter(os.fds, p) ==> NoWriter(child, p)
    {
      child := os.fds;
      if fdIn != 0 {
        child := child[0 := child[fdIn]];
      }
      if fdOut != 1 {
        child := child[1 := child[fdOut]];
      }
      if fdErr != 2 {
        child := child[2 := child[fdErr]];
      }
      ghost var moved := child;
      var P := 0;
      while P < pipesCount
        invariant P <= pipesCount
        invariant 0 in child && 1 in child && 2 in child
        invariant forall f :: f in child ==> f in moved && child[f] == moved[f]
      {
        child := child - {pipesFd[P].0};
        child := child - {pipesFd[P].1};
        P := P + 1;
      }
      if list.curnode.fdReadout >= 0 {
        child := child - {list.curnode.fdReadout};
        child := child - {list.curnode.fdWritein};
      }
      if list.curnode.fdTofile >= 0 {
        child := child - {list.curnode.fdTofile};
      }
    }

    /** `creat_proc`. */
    method CreatProc(cmd: Command, fdIn: int, fdOut: int, fdErr: int, pipesCount: nat, pipesFd: seq<(int, int)>)
      returns (failed: bool)
      requires Sound() && (fdIn == 0 || fdIn >= 3) && fdOut >= 3 && fdErr >= 3
      requires {0, 1, 2, fdIn, fdOut, fdErr} <= os.fds.Keys && !os.fds[0].ReadEnd?
      requires os.fds[fdIn].ReadEnd? ==> NoWriter(os.fds, os.fds[fdIn].pipe)
      requires pipesCount <= |pipesFd| && forall P :: 0 <= P < pipesCount ==> pipesFd[P].0 >= 3 && pipesFd[P].1 >= 3
      requires fdOut !in foreign && fdErr !in foreign
      requires SafeNumbers(list.curnode.Contents())
      requires list.curnode.fdTofile < 0 || list.curnode.fdTofile >= 3
      modifies os`io, os`stalled
      ensures var input := InputFrom(old(os.io), os.fds[fdIn]);
              && failed == cmd(input).failed
              && os.io == WriteAll(old(os.io).(log := old(os.io.log) + [input]), os.fds[fdOut], os.fds[fdErr],
                                   cmd(input).output)
      ensures Sound() && B() == old(B())
    {
      hide Balanced, List.Valid, Spared, NoWriter, InputFrom;
      ghost var b := B();
      var child := ChildTable(fdIn, fdOut, fdErr, pipesCount, pipesFd);
      ghost var input := InputFrom(os.io, os.fds[fdIn]);
      ghost var io := os.io.(log := os.io.log + [input]);
      OwnDescriptor(b, fdOut);
      OwnDescriptor(b, fdErr);
      SparedLogs(os.io, kept, away, os.io.log + [input]);
      WritesSpare(io, kept, away, child[1], child[2], cmd(input).output);
      failed := os.Exec(cmd, child);
      assert B() == b;
    }

    /** Lines 384-387 for the first command: the descriptor it reads from. */
    function FirstInput(): int
      reads this, list, list.curnode
    {
      if list.curnode.fdReadout == -1 then 0 else list.curnode.fdReadout
    }

    /** What command C finds on `fdIn` once the writer of its pipe is closed. */
    ghost function Given(C: nat, fdIn: int): Input
      reads this, os, list
      requires C != 0 ==> fdIn in os.fds
    {
      if C == 0 then AsInput(Lookup(Waiting(pid, os.io.pipes), list.at)) else InputFrom(os.io, os.fds[fdIn])
    }

    method BeginReading(C: nat, fdIn: int)
      requires Sound()
      requires if C == 0 then low == list.at && fdIn == FirstInput() else low == list.at + 1 && InHand(B(), fdIn)
      modifies this`hand, this`low, this`pid, os`fds, os`role
      ensures Sound() && Reading(old(B()), B(), os.io, list.at, fdIn, old(Given(C, fdIn)))
      ensures hand == old(hand) + (if fdIn == 0 then {} else {fdIn})
      ensures C == 0 && fdIn != 0 ==> fdIn !in old(hand)
      ensures C == 0 ==> (fdIn == 0 <==> list.at !in old(Waiting(pid, os.io.pipes)))
      ensures C != 0 ==> B() == old(B())
    {
      hide Balanced;
      ghost var b := B();
      if C == 0 {
        CurrentPipe();
        if list.at in pid {
          RetireReads(b, os.io);
        } else {
          SkipReads(b, os.io);
        }
      } else {
        KeepReads(b, os.io, list.at, fdIn);
      }
      CloseWriter(C);
    }

    /** The loop of `execute_cmdline` before command C, which reads from `prev`
        when it is not the first. */
    ghost predicate Ready(C: nat, pipesFd: seq<(int, int)>)
      reads this, os, list, list.nodes
    {
      && Sound() && 1 <= list.at && C <= |pipesFd|
      && SafeNumbers(list.curnode.Contents()) && list.curnode.fdTofile == -1
      && (forall P :: 0 <= P < C ==> pipesFd[P].0 >= 3 && pipesFd[P].1 >= 3)
      && (if C == 0 then low == list.at && hand == {}
          else low == list.at + 1 && hand == {pipesFd[C - 1].0} && InHand(B(), pipesFd[C - 1].0))
    }

    function FdIn(C: nat, pipesFd: seq<(int, int)>): int
      reads this, list, list.curnode
      requires C <= |pipesFd|
    {
      if C == 0 then FirstInput() else pipesFd[C - 1].0
    }

    /** Lines 373-380, with what they leave alone. */
    method MakeLink(C: nat, fdIn: int) returns (r: int, w: int)
      requires Sound() && (if C == 0 then low == list.at && fdIn == FirstInput() else InHand(B(), fdIn))
      modifies this`hand, os`fds, os`role, os`io
      ensures Sound() && r >= 3 && w >= 3 && r != w && hand == old(hand) + {r, w}
      ensures B() == old(B()).(fds := os.fds, role := os.role, hand := hand, npipes := old(|os.io.pipes|) + 1)
      ensures fdIn != r && fdIn != w && (C != 0 ==> InHand(B(), fdIn))
      ensures Given(C, fdIn) == old(Given(C, fdIn))
      ensures Waiting(pid, os.io.pipes) == old(Waiting(pid, os.io.pipes))
      ensures os.io == old(os.io).(pipes := old(os.io.pipes) + [[]]) && old(|os.io.pipes|) !in pid.Values
      ensures Holds(B(), r, ReadEnd(old(|os.io.pipes|)), LinkIn) && Holds(B(), w, WriteEnd(old(|os.io.pipes|)), LinkOut)
      ensures forall f :: f in os.fds && os.fds[f] == WriteEnd(old(|os.io.pipes|)) ==> f == w
      ensures r !in old(os.fds) && w !in old(os.fds)
    {
      hide Balanced;
      ghost var b, io := B(), os.io;
      if C == 0 {
        CurrentPipe();
      }
      r, w := NewLink();
      LinkMade(b, io, r, w);
      if C != 0 {
        LinkKeepsInHand(b, r, w, fdIn);
      }
    }

    /** Lines 373-395 and 444-447 for a command that is not the last of its line. */
    method StartInner(C: nat, fdIn: int) returns (r: int, w: int)
      requires Sound()
      requires if C == 0 then low == list.at && hand == {} && fdIn == FirstInput()
               else low == list.at + 1 && hand == {fdIn} && InHand(B(), fdIn)
      modifies this`hand, this`low, this`pid, os`fds, os`role, os`io
      ensures Sound() && r >= 3 && w >= 3
      ensures Linked(B(), os.io, list.at, fdIn, r, w, [])
      ensures InputFrom(os.io, os.fds[fdIn]) == old(Given(C, fdIn))
      ensures C == 0 ==> (fdIn == 0 <==> list.at !in old(Waiting(pid, os.io.pipes)))
      ensures Waiting(pid, os.io.pipes) == old(Waiting(pid, os.io.pipes)) - {list.at}
      ensures os.io == old(os.io).(pipes := os.io.pipes) && spent == old(spent)
    {
      hide Balanced, List.Valid, Waiting, KeptBut;
      if C != 0 {
        InHandNumber(B(), fdIn);
      }
      r, w := MakeLink(C, fdIn);
      ghost var b, given := B(), Given(C, fdIn);
      BeginReading(C, fdIn);
      ReadingLinked(b, B(), os.io, list.at, fdIn, r, w, given);
    }

    /** Lines 451-460 for a command that is not the last of its line. */
    method FinishInner(C: nat, fdIn: int, r: int, w: int, ghost content: Bytes)
      requires Sound() && Linked(B(), os.io, list.at, fdIn, r, w, content)
      requires if C == 0 then fdIn == FirstInput() else fdIn != 0
      requires list.curnode.fdReadout == -1 || list.curnode.fdReadout >= 3
      modifies this`hand, this`spent, os`fds, os`role
      ensures Sound() && low == list.at + 1 && hand == {r} && InHand(B(), r)
      ensures InputFrom(os.io, os.fds[r]) == Piped(content)
      ensures |spent| == |old(spent)| + if C == 0 && fdIn != 0 && !v.Shm? then 1 else 0
    {
      hide Balanced, List.Valid;
      CloseHand(w, LinkOut);
      assert NoWriter(os.fds, os.fds[r].pipe);
      CloseInput(C, fdIn);
    }

    /** Line 449 for a command that is not the last of its line. */
    method ExecInner(C: nat, cmd: Command, fdIn: int, r: int, w: int, pipesFd: seq<(int, int)>) returns (failed: bool)
      requires Sound() && Linked(B(), os.io, list.at, fdIn, r, w, []) && w >= 3
      requires SafeNumbers(list.curnode.Contents()) && list.curnode.fdTofile == -1
      requires C <= |pipesFd| && forall P :: 0 <= P < C ==> pipesFd[P].0 >= 3 && pipesFd[P].1 >= 3
      modifies os`io, os`stalled
      ensures Sound() && B() == old(B())
      ensures var input := InputFrom(old(os.io), os.fds[fdIn]);
              var o := cmd(input);
              && failed == o.failed && Linked(B(), os.io, list.at, fdIn, r, w, Outs(o.output))
              && os.io.log == old(os.io.log) + [input] && os.io.client == old(os.io.client) + Errs(o.output)
              && os.io.files == old(os.io.files)
      ensures Waiting(pid, os.io.pipes) == old(Waiting(pid, os.io.pipes))
    {
      hide Wired, Accounted, Spared;
      ghost var io, input := os.io, InputFrom(os.io, os.fds[fdIn]);
      ClientOpen(B());
      if fdIn != 0 {
        InHandNumber(B(), fdIn);
      }
      NotForeign(B(), w);
      NotForeign(B(), clifd);
      failed := CreatProc(cmd, fdIn, w, clifd, C, pipesFd);
      LinkWritten(B(), io, fdIn, r, w, list.at, input, cmd(input).output);
    }

    /** The body of the loop for a command that is not the last of its line. */
    method RunInner(C: nat, cmd: Command, pipesFd: seq<(int, int)>) returns (failed: bool, pipesFd': seq<(int, int)>)
      requires Ready(C, pipesFd) && C + 1 < |pipesFd|
      modifies this`hand, this`low, this`pid, this`spent, os
      ensures |pipesFd'| == |pipesFd| && Ready(C + 1, pipesFd')
      ensures var input := old(Given(C, FdIn(C, pipesFd)));
              var o := cmd(input);
              && failed == o.failed
              && Given(C + 1, pipesFd'[C].0) == Piped(Outs(o.output))
              && os.io.log == old(os.io.log) + [input]
              && os.io.client == old(os.io.client) + Errs(o.output)
              && os.io.files == old(os.io.files)
      ensures Waiting(pid, os.io.pipes) == old(Waiting(pid, os.io.pipes)) - {list.at}
      ensures |spent| == |old(spent)| + if C == 0 && list.at in old(Waiting(pid, os.io.pipes)) && !v.Shm? then 1 else 0
    {
      hide Balanced, Waiting, Linked, InputFrom;
      var fdIn := FdIn(C, pipesFd);
      ghost var input := Given(C, fdIn);
      var r, w := StartInner(C, fdIn);
      pipesFd' := pipesFd[C := (r, w)];
      failed := ExecInner(C, cmd, fdIn, r, w, pipesFd');
      FinishInner(C, fdIn, r, w, Outs(cmd(input).output));
    }

    /** Lines 397-432 for the last command of the line. */
    method ChooseOutput(ghost sink: Sink) returns (fdOut: int)
      requires Sound() && 1 <= list.at && low <= list.at + 1
      requires Aimed(list.curnode.Contents(), sink)
      requires sink.ToLine? ==> list.at + sink.ahead < |list.nodes|
      modifies this`pid, this`hand, os`fds, os`role, os`io, list.nodes
      ensures Sound() && fdOut >= 3
      ensures OutputChosen(old(B()), B(), old(os.io), os.io, list.at, sink, fdOut)
    {
      hide Balanced, OutputChosen, TargetOpened, SameButPipe, Aiming, Holds, Waiting, Lookup, Post, Opened, Awaited;
      ghost var b, io := B(), os.io;
      ClientOpen(b);
      assert list.curnode.Contents() == b.nodes[list.at];
      if list.curnode.filename.Some? {
        fdOut := OpenFile();
        FileChosen(b, B(), io, os.io, list.at, sink, fdOut);
      } else if list.curnode.pipeto == 0 {
        fdOut := clifd;
        ClientChosen(b, io, list.at, sink);
      } else {
        fdOut := OpenTarget(list.at + sink.ahead);
        LineChosen(b, B(), io, os.io, list.at, sink, fdOut);
      }
    }

    /** Lines 382-447 for the last command of the line. */
    method StartLast(C: nat, fdIn: int, ghost sink: Sink) returns (fdOut: int)
      requires Sound() && 1 <= list.at
      requires if C == 0 then low == list.at && hand == {} && fdIn == FirstInput()
               else low == list.at + 1 && hand == {fdIn} && InHand(B(), fdIn)
      requires Aimed(list.curnode.Contents(), sink)
      requires sink.ToLine? ==> list.at + sink.ahead < |list.nodes|
      modifies this`low, this`pid, this`hand, os`fds, os`role, os`io, list.nodes
      ensures Sound() && fdOut >= 3
      ensures Poised(old(B()), B(), old(os.io), os.io, list.at, sink, fdIn, fdOut)
      ensures InputFrom(os.io, os.fds[fdIn]) == old(Given(C, fdIn))
      ensures C == 0 ==> (fdIn == 0 <==> list.at !in old(Waiting(pid, os.io.pipes)))
    {
      hide Balanced, Standard, Wired, Accounted, Aimed, Aiming, Waiting, Spared;
      hide Untouched, Unwired, NoWriter, LowestFree;
      ghost var b, io, given := B(), os.io, Given(C, fdIn);
      if C != 0 {
        InHandNumber(b, fdIn);
      }
      fdOut := ChooseOutput(sink);
      ghost var b1 := B();
      GivenKept(b, b1, io, os.io, list.at, sink, fdOut);
      assert list.curnode.Contents() == b1.nodes[list.at];
      BeginReading(C, fdIn);
      assert C != 0 ==> fdIn != 0;
      Poise(b, b1, B(), io, os.io, list.at, sink, fdIn, fdOut, given);
    }

    /** Lines 451-460 for the last command of the line. */
    method FinishLast(C: nat, fdIn: int, fdOut: int)
      requires Sound() && low == list.at + 1 && fdIn != fdOut
      requires (fdIn == 0 || InHand(B(), fdIn)) && (if C == 0 then fdIn == FirstInput() else fdIn != 0)
      requires list.curnode.fdReadout == -1 || list.curnode.fdReadout >= 3
      requires hand == (if list.curnode.fdTofile != -1 then {fdOut} else {}) + (if fdIn == 0 then {} else {fdIn})
      requires list.curnode.fdTofile != -1 ==> fdOut in os.role && os.role[fdOut] == OutFile
      modifies this`hand, this`spent, os`fds, os`role
      ensures Sound() && hand == {}
      ensures |spent| == |old(spent)| + if C == 0 && fdIn != 0 && !v.Shm? then 1 else 0
    {
      if list.curnode.fdTofile != -1 {
        CloseHand(fdOut, OutFile);
      }
      CloseInput(C, fdIn);
    }

    method LaunchLast(C: nat, cmd: Command, pipesFd: seq<(int, int)>, fdIn: int, ghost sink: Sink)
      returns (fdOut: int, failed: bool)
      requires Ready(C, pipesFd) && fdIn == FdIn(C, pipesFd)
      requires Aimed(list.curnode.Contents(), sink)
      requires sink.ToLine? ==> list.at + sink.ahead < |list.nodes|
      modifies this`hand, this`low, this`pid, os, list.nodes
      ensures Sound() && spent == old(spent)
      ensures LandedOn(old(list.Entries()), B(), list.at, sink, fdIn, fdOut)
      ensures var input := old(Given(C, fdIn));
              && failed == cmd(input).failed
              && LineWritten(old(pid), pid, old(os.io), os.io, list.at, sink, input, cmd(input).output)
      ensures C == 0 ==> (fdIn == 0 <==> list.at !in old(Waiting(pid, os.io.pipes)))
    {
      hide Spared, Wired, Accounted, Standard;
      ghost var b, io, input := B(), os.io, Given(C, fdIn);
      assert list.curnode.Contents() == b.nodes[list.at];
      fdOut := StartLast(C, fdIn, sink);
      failed := ExecLast(cmd, fdIn, fdOut, C, pipesFd, sink, input, b, io);
    }

    method ExecLast(cmd: Command, fdIn: int, fdOut: int, C: nat, pipesFd: seq<(int, int)>, ghost sink: Sink,
                    ghost input: Input, ghost b: Books, ghost io: Io) returns (failed: bool)
      requires Sound() && fdOut >= 3 && C <= |pipesFd|
      requires forall P :: 0 <= P < C ==> pipesFd[P].0 >= 3 && pipesFd[P].1 >= 3
      requires Poised(b, B(), io, os.io, list.at, sink, fdIn, fdOut) && InputFrom(os.io, os.fds[fdIn]) == input
      requires SafeNumbers(list.curnode.Contents()) && (list.curnode.pipeErr <==> sink.ToLine? && sink.withErr)
      modifies os`io, os`stalled
      ensures Sound() && B() == old(B()) && failed == cmd(input).failed
      ensures LandedOn(b.nodes, B(), list.at, sink, fdIn, fdOut)
      ensures LineWritten(b.pid, pid, io, os.io, list.at, sink, input, cmd(input).output)
    {
      hide Wired, Accounted, Spared, InputFrom, NoWriter;
      assert list.curnode.Contents() == list.Entries()[list.at];
      ghost var io1 := os.io;
      ClientOpen(B());
      NotForeign(B(), fdOut);
      NotForeign(B(), clifd);
      var fdErr := if list.curnode.pipeErr then fdOut else clifd;
      failed := CreatProc(cmd, fdIn, fdOut, fdErr, C, pipesFd);
      LastWritten(b, B(), io, io1, list.at, sink, fdIn, fdOut, input, cmd(input).output);
      Land(b, B(), io, io1, list.at, sink, fdIn, fdOut);
    }

    /** The body of the loop for the last command of its line. */
    method RunLast(C: nat, cmd: Command, pipesFd: seq<(int, int)>, ghost sink: Sink) returns (failed: bool)
      requires Ready(C, pipesFd)
      requires Aimed(list.curnode.Contents(), sink)
      requires sink.ToLine? ==> list.at + sink.ahead < |list.nodes|
      modifies this`hand, this`low, this`pid, this`spent, os, list.nodes
      ensures Sound() && hand == {} && low == list.at + 1
      ensures var input := old(Given(C, FdIn(C, pipesFd)));
              && failed == cmd(input).failed
              && LineWritten(old(pid), pid, old(os.io), os.io, list.at, sink, input, cmd(input).output)
      ensures |spent| == |old(spent)| + if C == 0 && list.at in old(Waiting(pid, os.io.pipes)) && !v.Shm? then 1 else 0
      ensures BlankAhead(old(list.Entries()), list.Entries(), list.at)
    {
      hide Balanced, Aimed, LandedOn, LineWritten, OnlyTofile, BlankAhead, InHand, Spared;
      if C != 0 {
        InHandNumber(B(), FdIn(C, pipesFd));
      }
      var fdIn := FdIn(C, pipesFd);
      ghost var before := list.Entries();
      AimedHasNoFile(sink);
      var fdOut;
      fdOut, failed := LaunchLast(C, cmd, pipesFd, fdIn, sink);
      Lands(before, sink, fdIn, fdOut);
      FinishLast(C, fdIn, fdOut);
    }

    lemma AimedHasNoFile(sink: Sink)
      requires list.Valid() && Aimed(list.curnode.Contents(), sink)
      ensures list.Entries()[list.at] == list.curnode.Contents() && list.curnode.fdTofile == -1
    {
    }

    lemma Lands(before: seq<Entry>, sink: Sink, fdIn: int, fdOut: int)
      requires Sound() && LandedOn(before, B(), list.at, sink, fdIn, fdOut)
      ensures list.curnode.Contents() == before[list.at].(fdTofile := if sink.ToFile? then fdOut else -1)
      ensures low == list.at + 1 && fdIn != fdOut && (fdIn == 0 || InHand(B(), fdIn))
      ensures hand == (if list.curnode.fdTofile != -1 then {fdOut} else {}) + (if fdIn == 0 then {} else {fdIn})
      ensures list.curnode.fdTofile != -1 ==> fdOut in os.role && os.role[fdOut] == OutFile
      ensures BlankAhead(before, list.Entries(), list.at)
    {
      hide Balanced;
      assert list.curnode.Contents() == list.Entries()[list.at];
    }

    /** Before command C: what is left of the pipeline completes what it should do to `o`. */
    ghost predicate InFlight(C: nat, cmds: seq<Command>, pipesFd: seq<(int, int)>, o: Office, flow: Flow)
      reads this, os, list, list.nodes
    {
      && C < |cmds| == |pipesFd| && Ready(C, pipesFd) && list.at == o.line + 1
      && Progress(v, C == 0, o, flow, os.io, Waiting(pid, os.io.pipes), |spent|,
                  Pipeline(cmds[C..], Given(C, FdIn(C, pipesFd)), Stops(v)))
    }

    method InnerStep(C: nat, cmds: seq<Command>, pipesFd: seq<(int, int)>, ghost o: Office, ghost flow: Flow)
      returns (failed: bool, pipesFd': seq<(int, int)>)
      requires C + 1 < |cmds| && InFlight(C, cmds, pipesFd, o, flow)
      modifies this`hand, this`low, this`pid, this`spent, os
      ensures |pipesFd'| == |pipesFd|
      ensures !(Stops(v) && failed) ==> InFlight(C + 1, cmds, pipesFd', o, flow)
      ensures Stops(v) && failed ==>
                && Ready(C + 1, pipesFd') && flow.last == None
                && Finished(v, o, flow, ToClient, os.io, Waiting(pid, os.io.pipes), |spent| + 1)
    {
      hide Balanced;
      ghost var input, io, waiting, lost := Given(C, FdIn(C, pipesFd)), os.io, Waiting(pid, os.io.pipes), |spent|;
      failed, pipesFd' := RunInner(C, cmds[C], pipesFd);
      FlowUnfolds(cmds, C);
      ProgressInner(v, C == 0, o, flow, io, waiting, lost, cmds[C..], input, os.io, Waiting(pid, os.io.pipes), |spent|);
    }

    lemma CurrentWaiting(C: nat)
      requires Sound() && (if C == 0 then low == list.at else low == list.at + 1)
      ensures list.at in pid <==> list.at in Waiting(pid, os.io.pipes)
    {
      assert list.at in pid ==> Wired(B(), list.at);
    }

    method LastStep(C: nat, cmds: seq<Command>, pipesFd: seq<(int, int)>,
                    ghost sink: Sink, ghost o: Office, ghost flow: Flow)
      returns (failed: bool)
      requires C + 1 == |cmds| && InFlight(C, cmds, pipesFd, o, flow)
      requires Aimed(list.curnode.Contents(), sink)
      requires sink.ToLine? ==> list.at + sink.ahead < |list.nodes|
      modifies this`hand, this`low, this`pid, this`spent, os, list.nodes
      ensures Sound() && hand == {} && low == list.at + 1
      ensures Finished(v, o, flow, sink, os.io, Waiting(pid, os.io.pipes), |spent|)
      ensures BlankAhead(old(list.Entries()), list.Entries(), list.at)
    {
      ghost var input, io, waiting, lost := Given(C, FdIn(C, pipesFd)), os.io, Waiting(pid, os.io.pipes), |spent|;
      ghost var b := B();
      failed := RunLast(C, cmds[C], pipesFd, sink);
      ProgressLast(v, C == 0, o, flow, io, waiting, lost, cmds[C..], input, sink,
                   os.io, Waiting(pid, os.io.pipes), |spent|);
    }

    ghost predicate Active(C: nat, cmds: seq<Command>, pipesFd: seq<(int, int)>, o: Office, flow: Flow, sink: Sink)
      reads this, os, list, list.nodes
    {
      && InFlight(C, cmds, pipesFd, o, flow) && Aimed(list.Entries()[list.at], sink)
      && (sink.ToLine? ==> list.at + sink.ahead < |list.nodes|)
      && BlankFrom(list.at + 1)
    }

    ghost predicate Done(o: Office, flow: Flow, sink: Sink)
      reads this, os, list, list.nodes
    {
      && Valid() && list.at == o.line + 1
      && Finished(v, o, flow, sink, os.io, Waiting(pid, os.io.pipes), |spent|)
    }

    method GiveUp(C: nat, pipesFd: seq<(int, int)>, ghost o: Office, ghost flow: Flow, ghost sink: Sink)
      requires C < |pipesFd| && Ready(C + 1, pipesFd) && flow.last == None && list.at == o.line + 1
      requires Finished(v, o, flow, ToClient, os.io, Waiting(pid, os.io.pipes), |spent| + 1)
      requires BlankFrom(list.at + 1)
      modifies this`hand, this`spent, os`role
      ensures Done(o, flow, sink)
    {
      hide Spared, Wired, Accounted, Standard;
      LeaveOpen(pipesFd[C].0);
    }

    /** One round of the loop. */
    method RunCommand(C: nat, cmds: seq<Command>, pipesFd: seq<(int, int)>,
                      ghost o: Office, ghost flow: Flow, ghost sink: Sink)
      returns (failed: bool, pipesFd': seq<(int, int)>)
      requires Active(C, cmds, pipesFd, o, flow, sink)
      modifies this`hand, this`low, this`pid, this`spent, os, list.nodes
      ensures if C + 1 == |cmds| || (Stops(v) && failed) then Done(o, flow, sink)
              else Active(C + 1, cmds, pipesFd', o, flow, sink)
    {
      hide Balanced, Progress, Aimed, Spared;
      assert list.curnode.Contents() == list.Entries()[list.at];
      if C < |cmds| - 1 {
        failed, pipesFd' := InnerStep(C, cmds, pipesFd, o, flow);
        if Stops(v) && failed {
          GiveUp(C, pipesFd', o, flow, sink);
        }
      } else {
        failed := LastStep(C, cmds, pipesFd, sink, o, flow);
        pipesFd' := pipesFd;
      }
    }

    lemma Activate(cmds: seq<Command>, pipesFd: seq<(int, int)>, o: Office, flow: Flow, sink: Sink)
      requires cmds != [] && Sound() && hand == {} && 1 <= list.at == low && |pipesFd| == |cmds|
      requires Aimed(list.curnode.Contents(), sink)
      requires sink.ToLine? ==> list.at + sink.ahead < |list.nodes|
      requires BlankFrom(list.at + 1)
      requires o == Abs().(line := list.at - 1)
      requires flow == Pipeline(cmds, AsInput(Lookup(o.waiting, list.at)), Stops(v))
      ensures Active(0, cmds, pipesFd, o, flow, sink) && o.wasted == |wasted|
    {
      hide Balanced;
      CurrentPipe();
      assert cmds[0..] == cmds;
    }

    lemma DoneIsStep(cmds: seq<Command>, o: Office, flow: Flow, sink: Sink)
      requires cmds != [] && Done(o, flow, sink) && o.wasted == |wasted|
      requires flow == Pipeline(cmds, AsInput(Lookup(o.waiting, o.line + 1)), Stops(v))
      ensures Valid() && Abs() == Step(v, o, Run(cmds, sink))
    {
      hide Balanced, Finished, Pipeline;
      FinishedIsStep(v, o, cmds, sink, flow, os.io, Waiting(pid, os.io.pipes), |spent|);
    }

    method RunAll(cmds: seq<Command>, pipesFd0: seq<(int, int)>, ghost o: Office, ghost flow: Flow, ghost sink: Sink)
      requires cmds != [] && Active(0, cmds, pipesFd0, o, flow, sink)
      modifies this`hand, this`low, this`pid, this`spent, os, list.nodes
      ensures Done(o, flow, sink)
    {
      hide *;
      var pipesFd := pipesFd0;
      var C := 0;
      while C < |cmds|
        invariant C <= |cmds|
        invariant C < |cmds| ==> Active(C, cmds, pipesFd, o, flow, sink)
        invariant C == |cmds| ==> Done(o, flow, sink)
      {
        var failed;
        failed, pipesFd := RunCommand(C, cmds, pipesFd, o, flow, sink);
        if Stops(v) && failed {
          break;
        }
        C := C + 1;
      }
    }

    method ExecuteCommands(cmds: seq<Command>, ghost sink: Sink)
      requires cmds != [] && Sound() && hand == {} && 1 <= list.at == low
      requires Aimed(list.curnode.Contents(), sink)
      requires sink.ToLine? ==> list.at + sink.ahead < |list.nodes|
      requires BlankFrom(list.at + 1)
      modifies this`hand, this`low, this`pid, this`spent, os, list.nodes
      ensures Valid()
      ensures Abs() == Step(v, old(Abs()).(line := list.at - 1), Run(cmds, sink))
    {
      hide *;
      ghost var o := Abs().(line := list.at - 1);
      ghost var flow := Pipeline(cmds, AsInput(Lookup(o.waiting, list.at)), Stops(v));
      var cmdCount := |cmds|;
      var pipesFd := seq(cmdCount, i => (-1, -1));
      Activate(cmds, pipesFd, o, flow, sink);
      RunAll(cmds, pipesFd, o, flow, sink);
      DoneIsStep(cmds, o, flow, sink);
    }

    /** A line that executes nothing: both ends of its pipe, if it has one, stay open. */
    ghost method SkipLine()
      requires Sound() && hand == {} && 1 <= list.at == low
      requires BlankFrom(list.at + 1)
      modifies this`low, this`pid, this`spent, this`wasted, os`role
      ensures Valid()
      ensures Abs() == old(Abs()).(waiting := old(Abs()).waiting - {list.at},
                                   lost := |old(spent)| + (if list.at in old(Abs()).waiting then 1 else 0),
                                   wasted := |old(wasted)| + if list.at in old(Abs()).waiting then 1 else 0)
    {
      hide Wired, Accounted, Standard, Waiting;
      CurrentPipe();
      CurrentWaiting(0);
      WaitingWithout(pid, os.io.pipes, list.at);
      if low in pid {
        ForgetLine();
      } else {
        SkipBalanced(B());
        assert pid - {low} == pid;
        low := low + 1;
      }
    }

    ghost method ForgetLine()
      requires Sound() && low == list.at && low in pid
      modifies this`low, this`pid, this`spent, this`wasted, os`role
      ensures Sound() && low == list.at + 1 && pid == old(pid) - {list.at}
      ensures |spent| == |old(spent)| + 1 && |wasted| == |old(wasted)| + 1
    {
      hide Balanced, List.Valid, Spared;
      CurrentPipe();
      ghost var b := B();
      ForgetBalanced(b);
      ForgetSpends(b);
      os.Relabel(list.curnode.fdReadout, Spent);
      os.Relabel(list.curnode.fdWritein, Wasted);
      spent, wasted := spent + {list.curnode.fdReadout}, wasted + {list.curnode.fdWritein};
      pid := pid - {low};
      low := low + 1;
      assert B() == Forget(b);
    }

    /** `execute_cmdline`. */
    method ExecuteCmdline(cmds: seq<Command>, ghost sink: Sink)
      requires Sound() && hand == {} && 1 <= list.at == low
      requires Aimed(list.curnode.Contents(), sink)
      requires sink.ToLine? ==> list.at + sink.ahead < |list.nodes|
      requires BlankFrom(list.at + 1)
      modifies this`hand, this`low, this`pid, this`spent, this`wasted, os, list.nodes
      ensures Valid()
      ensures Abs() == Step(v, old(Abs()).(line := list.at - 1), Run(cmds, sink))
    {
      hide Spared, Wired, Accounted, Standard;
      if |cmds| == 0 {
        SkipLine();
      } else {
        ExecuteCommands(cmds, sink);
      }
    }

    /** `create_linenode` between two lines. */
    method NewLine(pipetonum: nat)
      requires Valid()
      modifies list, list.nodes
      ensures Sound() && hand == {} && 1 <= list.at == low && Abs() == old(Abs()).(line := list.at)
      ensures list.at == old(list.at) + 1
      ensures forall i :: 0 <= i < |list.nodes| ==> list.nodes[i] in old(list.nodes) || fresh(list.nodes[i])
      ensures pipetonum > 0 ==> list.at + pipetonum < |list.nodes|
      ensures BlankFrom(list.at)
      ensures list.curnode.pipeto == pipetonum && list.curnode.Contents() == list.Entries()[list.at]
    {
      hide Balanced, Extended;
      ghost var b, at, n := B(), list.at, list.linecount;
      list.CreateLineNode(pipetonum);
      ExtendedKeeps(b.nodes, at, n, pipetonum);
      NodesBalanced(b, list.Entries());
      assert B() == b.(nodes := list.Entries());
      assert list.curnode.Contents() == list.Entries()[list.at];
    }

    /** Everything from node `from` on is as it was made. */
    ghost predicate BlankFrom(from: nat)
      reads list, list.nodes
    {
      forall i :: from <= i < |list.Entries()| ==> Untouched(list.Entries()[i])
    }

    method AimAtFile(name: string)
      requires Sound() && BlankFrom(list.at) && list.curnode.pipeto == 0
      modifies list.curnode`filename
      ensures Sound() && Abs() == old(Abs()) && BlankFrom(list.at + 1)
      ensures Aimed(list.curnode.Contents(), ToFile(name))
    {
      hide Balanced, Spared;
      ghost var b := B();
      assert list.curnode.Contents() == list.Entries()[list.at];
      list.SetFilename(name);
      assert list.curnode.Contents() == list.Entries()[list.at];
      NodesBalanced(b, list.Entries());
      assert B() == b.(nodes := list.Entries());
    }

    method AimErrors(n: pos, withErr: bool)
      requires Sound() && BlankFrom(list.at) && list.curnode.pipeto == n
      modifies list.curnode`pipeErr
      ensures Sound() && Abs() == old(Abs()) && BlankFrom(list.at + 1)
      ensures Aimed(list.curnode.Contents(), ToLine(n, withErr))
    {
      hide Balanced, Spared;
      ghost var b := B();
      assert list.curnode.Contents() == list.Entries()[list.at];
      if withErr {
        list.SetPipeErr();
      }
      assert list.curnode.Contents() == list.Entries()[list.at];
      NodesBalanced(b, list.Entries());
      assert B() == b.(nodes := list.Entries());
    }

    /** Something written to the client between lines. */
    method Say(text: Bytes)
      requires Valid()
      modifies os`io
      ensures Valid() && Abs() == old(Abs()).(client := old(Abs()).client + text)
    {
      hide Balanced, List.Valid;
      os.WriteClient(text);
    }

    method RunBuiltin(reply: Bytes)
      requires Valid()
      modifies this`low, this`pid, this`spent, this`wasted, os, list, list.nodes
      ensures Valid() && Abs() == Step(v, old(Abs()), Builtin(reply))
      ensures forall i :: 0 <= i < |list.nodes| ==> list.nodes[i] in old(list.nodes) || fresh(list.nodes[i])
    {
      hide Balanced, Step, List.Valid;
      NewLine(0);
      os.WriteClient(reply);
      SkipLine();
      StepSkips(v, old(Abs()), Builtin(reply));
    }

    method EnterToFile(name: string)
      requires Valid()
      modifies list, list.nodes
      ensures Sound() && hand == {} && 1 <= list.at == low && BlankFrom(list.at + 1)
      ensures Abs().(line := list.at - 1) == old(Abs()) && Aimed(list.curnode.Contents(), ToFile(name))
      ensures forall i :: 0 <= i < |list.nodes| ==> list.nodes[i] in old(list.nodes) || fresh(list.nodes[i])
    {
      hide Balanced, Waiting, Spared;
      NewLine(0);
      AimAtFile(name);
    }

    method RunToFile(cmds: seq<Command>, name: string)
      requires Valid()
      modifies this`hand, this`low, this`pid, this`spent, this`wasted, os, list, list.nodes
      ensures Valid() && Abs() == Step(v, old(Abs()), Run(cmds, ToFile(name)))
      ensures forall i :: 0 <= i < |list.nodes| ==> list.nodes[i] in old(list.nodes) || fresh(list.nodes[i])
    {
      hide *;
      EnterToFile(name);
      ExecuteCmdline(cmds, ToFile(name));
    }

    method EnterToLine(n: pos, withErr: bool)
      requires Valid()
      modifies list, list.nodes
      ensures Sound() && hand == {} && 1 <= list.at == low && BlankFrom(list.at + 1)
      ensures Abs().(line := list.at - 1) == old(Abs()) && Aimed(list.curnode.Contents(), ToLine(n, withErr))
      ensures list.at + n < |list.nodes|
      ensures forall i :: 0 <= i < |list.nodes| ==> list.nodes[i] in old(list.nodes) || fresh(list.nodes[i])
    {
      hide Balanced, Waiting, Spared;
      NewLine(n);
      AimErrors(n, withErr);
    }

    method RunToLine(cmds: seq<Command>, n: pos, withErr: bool)
      requires Valid()
      modifies this`hand, this`low, this`pid, this`spent, this`wasted, os, list, list.nodes
      ensures Valid() && Abs() == Step(v, old(Abs()), Run(cmds, ToLine(n, withErr)))
      ensures forall i :: 0 <= i < |list.nodes| ==> list.nodes[i] in old(list.nodes) || fresh(list.nodes[i])
    {
      hide *;
      EnterToLine(n, withErr);
      ExecuteCmdline(cmds, ToLine(n, withErr));
    }

    method EnterToClient()
      requires Valid()
      modifies list, list.nodes
      ensures Sound() && hand == {} && 1 <= list.at == low && BlankFrom(list.at + 1)
      ensures Abs().(line := list.at - 1) == old(Abs()) && Aimed(list.curnode.Contents(), ToClient)
      ensures forall i :: 0 <= i < |list.nodes| ==> list.nodes[i] in old(list.nodes) || fresh(list.nodes[i])
    {
      hide Balanced, Waiting, Spared;
      NewLine(0);
    }

    method RunToClient(cmds: seq<Command>)
      requires Valid()
      modifies this`hand, this`low, this`pid, this`spent, this`wasted, os, list, list.nodes
      ensures Valid() && Abs() == Step(v, old(Abs()), Run(cmds, ToClient))
      ensures forall i :: 0 <= i < |list.nodes| ==> list.nodes[i] in old(list.nodes) || fresh(list.nodes[i])
    {
      hide *;
      EnterToClient();
      ExecuteCmdline(cmds, ToClient);
    }

    /** One line of `recv_cli_cmd`, lines 174-221. */
    method RunLine(l: Line)
      requires Valid()
      modifies this`hand, this`low, this`pid, this`spent, this`wasted, os, list, list.nodes
      ensures Valid() && Abs() == Step(v, old(Abs()), l)
      ensures forall i :: 0 <= i < |list.nodes| ==> list.nodes[i] in old(list.nodes) || fresh(list.nodes[i])
    {
      hide *;
      match l
      case Builtin(reply) => RunBuiltin(reply);
      case Run(cmds, ToFile(name)) => RunToFile(cmds, name);
      case Run(cmds, ToLine(n, withErr)) => RunToLine(cmds, n, withErr);
      case Run(cmds, ToClient) => RunToClient(cmds);
    }

    /** Between lines the open pipe ends are those left behind for good and the
        ones stored in the nodes ahead. */
    lemma EndsStored()
      requires Valid()
      ensures |spent| == Abs().lost && |wasted| == Abs().wasted
      ensures forall f :: f in spent ==> f in os.fds && os.fds[f].ReadEnd?
      ensures forall f :: f in wasted ==> f in os.fds && os.fds[f].WriteEnd?
      ensures forall f :: f in os.fds && IsEnd(os.fds[f]) && f !in spent + wasted + foreign.Keys <==>
                          f >= 0 && StoredAhead(B(), f)
    {
      forall f | f in spent + wasted
        ensures f in os.fds && (if f in spent then os.fds[f].ReadEnd? else os.fds[f].WriteEnd?)
      {
        assert Accounted(B(), f);
      }
      forall f
        ensures f in os.fds && IsEnd(os.fds[f]) && f !in spent + wasted + foreign.Keys <==>
                f >= 0 && StoredAhead(B(), f)
      {
        OpenEndsAreStored(B(), f);
      }
    }
  }

  /** A client that has the descriptor table to itself. */
  method OnlyClient(v: Variant, clifd: int, linecount: int) returns (sh: Shell)
    requires clifd >= 3
    ensures sh.v == v && sh.Valid() && sh.Abs() == Opening && sh.foreign == map[]
    ensures fresh(sh) && fresh(sh.os) && fresh(sh.list) && fresh(sh.list.nodes)
  {
    hide Balanced, List.Valid;
    var os := new Os();
    os.Accept(clifd);
    os.Turn(clifd, NewRoles(os.fds, clifd));
    sh := new Shell(v, os, clifd, linecount);
    NobodyElse(os.fds, clifd, Blank(0, 0));
  }

  /** A whole session of one client; the line counter may start anywhere. */
  method RunSession(v: Variant, clifd: int, linecount: int, lines: seq<Line>) returns (sh: Shell)
    requires clifd >= 3
    ensures sh.v == v && sh.Valid() && sh.Abs() == Session(v, lines, |lines|)
    ensures |sh.spent| == Session(v, lines, |lines|).lost && |sh.wasted| == Session(v, lines, |lines|).wasted
    ensures forall f :: f in sh.spent ==> f in sh.os.fds && sh.os.fds[f].ReadEnd?
    ensures forall f :: f in sh.wasted ==> f in sh.os.fds && sh.os.fds[f].WriteEnd?
    ensures forall f :: f in sh.os.fds && IsEnd(sh.os.fds[f]) && f !in sh.spent + sh.wasted <==>
                        f >= 0 && StoredAhead(sh.B(), f)
  {
    hide *;
    sh := OnlyClient(v, clifd, linecount);
    SessionOpens(v, lines);
    for i := 0 to |lines|
      invariant sh.v == v && sh.Valid() && sh.Abs() == Session(v, lines, i) && sh.foreign == map[]
      invariant fresh(sh) && fresh(sh.os) && fresh(sh.list)
      invariant forall j :: 0 <= j < |sh.list.nodes| ==> fresh(sh.list.nodes[j])
    {
      sh.RunLine(lines[i]);
      SessionStep(v, lines, i);
    }
    sh.EndsStored();
  }

  /** What can be seen of a whole session: the output of its lines on the client's
      screen, the files, the inputs handed to commands, and that none of these was
      started on a pipe that still had a writer. */
  method Observe(v: Variant, clifd: int, linecount: int, lines: seq<Line>)
    returns (client: Bytes, files: map<string, Bytes>, inputs: seq<Input>, stalled: bool)
    requires clifd >= 3
    ensures var o := Session(v, lines, |lines|);
            client == o.client && files == o.files && inputs == o.log && !stalled
  {
    var sh := RunSession(v, clifd, linecount, lines);
    client, files, inputs, stalled := sh.os.io.client, sh.os.io.files, sh.os.io.log, sh.os.stalled;
  }

  lemma NobodyElse(fds: Table, clifd: int, head: Entry)
    requires fds == map[0 := Console, 1 := Console, 2 := Console, clifd := Client(clifd)]
    ensures Newcomer(fds, clifd, 0, head).foreign == map[]
  {
  }

  lemma SessionOpens(v: Variant, lines: seq<Line>)
    ensures Session(v, lines, 0) == Opening
  {
  }

  lemma SessionStep(v: Variant, lines: seq<Line>, n: nat)
    requires n < |lines|
    ensures Session(v, lines, n + 1) == Step(v, Session(v, lines, n), lines[n])
  {
  }

  lemma StepSkips(v: Variant, o: Office, l: Line)
    requires !Executes(l)
    ensures Step(v, o, l) ==
            Office(o.line + 1, o.waiting - {o.line + 1}, o.client + (if l.Builtin? then l.reply else []),
                   o.files, o.log,
                   o.lost + (if o.line + 1 in o.waiting then 1 else 0),
                   o.wasted + if o.line + 1 in o.waiting then 1 else 0)
  {
  }

  lemma ExtendedKeeps(s: seq<Entry>, at: nat, linecount: int, pipeto: nat)
    requires at < |s| && forall i :: at < i < |s| ==> Untouched(s[i])
    ensures var s' := Extended(s, at, linecount, pipeto);
            && |s| <= |s'| && at + 1 < |s'| && (pipeto > 0 ==> at + 1 + pipeto < |s'|)
            && s'[at + 1].pipeto == pipeto
            && (forall i :: at < i < |s'| ==> Untouched(s'[i]))
            && (forall i :: 0 <= i < |s| ==> s'[i].fdReadout == s[i].fdReadout && s'[i].fdWritein == s[i].fdWritein)
            && (forall i :: |s| <= i < |s'| ==> Unwired(s'[i]))
  {
  }

  lemma ProgressLast(v: Variant, first: bool, o: Office, flow: Flow, io: Io, waiting: map<nat, Bytes>, lost: nat,
                     cmds: seq<Command>, input: Input, sink: Sink, io': Io, waiting': map<nat, Bytes>, lost': nat)
    requires |cmds| == 1 && Progress(v, first, o, flow, io, waiting, lost, Pipeline(cmds, input, Stops(v)))
    requires var last := Some(cmds[0](input).output);
             && io'.log == io.log + [input] && io'.client == io.client + Shown(last, sink)
             && io'.files == Filed(io.files, last, sink)
             && waiting' == Posted(waiting - {o.line + 1}, o.line + 1, sink, Parcel(last, sink))
    requires lost' == lost + if first && o.line + 1 in waiting && !v.Shm? then 1 else 0
    ensures Finished(v, o, flow, sink, io', waiting', lost')
  {
    hide Pipeline, Shown, Filed, Posted, Parcel;
    LastFlow(cmds, input, Stops(v));
    var last := Some(cmds[0](input).output);
    assert waiting - {o.line + 1} == o.waiting - {o.line + 1};
    assert io.client + [] == io.client;
    assert io'.client == o.client + flow.client + Shown(last, sink);
  }

  lemma LastFlow(cmds: seq<Command>, input: Input, stops: bool)
    requires |cmds| == 1
    ensures Pipeline(cmds, input, stops) == Flow([input], [], Some(cmds[0](input).output))
  {
  }

  lemma FinishedIsStep(v: Variant, o: Office, cmds: seq<Command>, sink: Sink, flow: Flow,
                       io: Io, waiting: map<nat, Bytes>, lost: nat)
    requires cmds != [] && flow == Pipeline(cmds, AsInput(Lookup(o.waiting, o.line + 1)), Stops(v))
    requires Finished(v, o, flow, sink, io, waiting, lost)
    ensures Step(v, o, Run(cmds, sink)) == Office(o.line + 1, waiting, io.client, io.files, io.log, lost, o.wasted)
  {
  }

  /** `rest` is all that is missing from `io` to hold `o` and the whole of `flow`. */
  ghost predicate FlowAt(o: Office, flow: Flow, io: Io, rest: Flow) {
    && io.log + rest.log == o.log + flow.log
    && io.client + rest.client == o.client + flow.client
    && rest.last == flow.last && io.files == o.files
  }

  ghost predicate Progress(v: Variant, first: bool, o: Office, flow: Flow,
                           io: Io, waiting: map<nat, Bytes>, lost: nat, rest: Flow) {
    var k := o.line + 1;
    && FlowAt(o, flow, io, rest)
    && waiting == (if first then o.waiting else o.waiting - {k})
    && lost == o.lost + if !first && k in o.waiting && !v.Shm? then 1 else 0
  }

  /** The pipeline has done all it will do. */
  ghost predicate Finished(v: Variant, o: Office, flow: Flow, sink: Sink, io: Io, waiting: map<nat, Bytes>, lost: nat) {
    var k := o.line + 1;
    && io.log == o.log + flow.log
    && io.client == o.client + (flow.client + Shown(flow.last, sink))
    && io.files == Filed(o.files, flow.last, sink)
    && waiting == Posted(o.waiting - {k}, k, sink, Parcel(flow.last, sink))
    && lost == o.lost + Left(v, k in o.waiting, flow.last)
  }

  lemma FlowUnfolds(cmds: seq<Command>, C: nat)
    requires C + 1 < |cmds|
    ensures cmds[C..][0] == cmds[C] && cmds[C..][1..] == cmds[C + 1..]
  {
  }

  lemma FlowAdvances(o: Office, flow: Flow, io: Io, io': Io, cmds: seq<Command>, input: Input, stops: bool)
    requires |cmds| > 1 && FlowAt(o, flow, io, Pipeline(cmds, input, stops))
    requires io'.log == io.log + [input] && io'.client == io.client + Errs(cmds[0](input).output)
    requires io'.files == io.files
    ensures !(stops && cmds[0](input).failed) ==>
              FlowAt(o, flow, io', Pipeline(cmds[1..], Piped(Outs(cmds[0](input).output)), stops))
    ensures stops && cmds[0](input).failed ==>
              && flow.last == None && io'.log == o.log + flow.log
              && io'.client == o.client + flow.client && io'.files == o.files
  {
    var out := cmds[0](input);
    if !(stops && out.failed) {
      var rest := Pipeline(cmds[1..], Piped(Outs(out.output)), stops);
      assert io'.log + rest.log == io.log + ([input] + rest.log);
      assert io'.client + rest.client == io.client + (Errs(out.output) + rest.client);
    }
  }

  lemma ProgressInner(v: Variant, first: bool, o: Office, flow: Flow, io: Io, waiting: map<nat, Bytes>, lost: nat,
                      cmds: seq<Command>, input: Input, io': Io, waiting': map<nat, Bytes>, lost': nat)
    requires |cmds| > 1 && Progress(v, first, o, flow, io, waiting, lost, Pipeline(cmds, input, Stops(v)))
    requires io'.log == io.log + [input] && io'.client == io.client + Errs(cmds[0](input).output)
    requires io'.files == io.files
    requires waiting' == waiting - {o.line + 1}
    requires lost' == lost + if first && o.line + 1 in waiting && !v.Shm? then 1 else 0
    ensures !(Stops(v) && cmds[0](input).failed) ==>
              Progress(v, false, o, flow, io', waiting', lost',
                       Pipeline(cmds[1..], Piped(Outs(cmds[0](input).output)), Stops(v)))
    ensures Stops(v) && cmds[0](input).failed ==>
              flow.last == None && Finished(v, o, flow, ToClient, io', waiting', lost' + 1)
  {
    hide Pipeline, FlowAt;
    FlowAdvances(o, flow, io, io', cmds, input, Stops(v));
    assert waiting' == o.waiting - {o.line + 1};
    assert flow.client + [] == flow.client;
  }

  /** The effect of the last command of line k, on the mail, the client, the files and the log. */
  ghost predicate LineWritten(pid: map<nat, nat>, pid': map<nat, nat>, io: Io, io': Io,
                              k: nat, sink: Sink, input: Input, chunks: seq<Chunk>) {
    && io'.log == io.log + [input]
    && io'.client == io.client + Shown(Some(chunks), sink)
    && io'.files == Filed(io.files, Some(chunks), sink)
    && Waiting(pid', io'.pipes) == Posted(Waiting(pid, io.pipes) - {k}, k, sink, Parcel(Some(chunks), sink))
  }

  /** The mail of the lines ahead once line k has sent `parcel`. */
  function Posted(waiting: map<nat, Bytes>, k: nat, sink: Sink, parcel: Option<Bytes>): map<nat, Bytes> {
    if parcel.Some? && sink.ToLine? then Post(waiting, k + sink.ahead, parcel.value) else waiting
  }

  lemma PostAfterOpen(waiting: map<nat, Bytes>, k: nat, t: nat, parcel: Bytes)
    requires k != t
    ensures Post(Post(waiting, t, []) - {k}, t, parcel) == Post(waiting - {k}, t, parcel)
  {
    assert Lookup(waiting, t).GetOr([]) + [] == Lookup(waiting, t).GetOr([]);
  }

  lemma LastWritten(b: Books, b': Books, io: Io, io1: Io, k: nat, sink: Sink, fdIn: int, fdOut: int,
                    input: Input, chunks: seq<Chunk>)
    requires Balanced(b') && b'.npipes == |io1.pipes| && fdOut in b'.fds && b'.clifd == io1.socket
    requires Poised(b, b', io, io1, k, sink, fdIn, fdOut)
    ensures var err := if sink.ToLine? && sink.withErr then b'.fds[fdOut] else Client(io1.socket);
            var io' := WriteAll(io1.(log := io1.log + [input]), b'.fds[fdOut], err, chunks);
            |io'.pipes| == |io1.pipes| && LineWritten(b.pid, b'.pid, io, io', k, sink, input, chunks)
  {
    var io2 := io1.(log := io1.log + [input]);
    var err := if sink.ToLine? && sink.withErr then b'.fds[fdOut] else Client(io1.socket);
    SinkWritten(b', io2, k, sink, fdOut, chunks);
    WrittenFromPoised(b, b', io, io1, io2, WriteAll(io2, b'.fds[fdOut], err, chunks), k, sink, fdIn, fdOut,
                      input, chunks);
  }

  lemma WrittenFromPoised(b: Books, b': Books, io: Io, io1: Io, io2: Io, io': Io, k: nat, sink: Sink,
                          fdIn: int, fdOut: int, input: Input, chunks: seq<Chunk>)
    requires Poised(b, b', io, io1, k, sink, fdIn, fdOut) && io2 == io1.(log := io1.log + [input])
    requires Written(b', io2, io', k, sink, chunks)
    ensures LineWritten(b.pid, b'.pid, io, io', k, sink, input, chunks)
  {
    hide Aiming, InHand, OnlyTofile, Waiting;
    if sink.ToLine? {
      PostAfterOpen(Waiting(b.pid, io.pipes), k, k + sink.ahead, Parcel(Some(chunks), sink).value);
    }
  }

  lemma GivenKept(b: Books, b': Books, io: Io, io': Io, k: nat, sink: Sink, fdOut: int)
    requires OutputChosen(b, b', io, io', k, sink, fdOut)
    ensures Lookup(Waiting(b'.pid, io'.pipes), k) == Lookup(Waiting(b.pid, io.pipes), k)
  {
  }

  /** The last command of line k is about to be started. */
  ghost predicate Poised(b: Books, b': Books, io: Io, io': Io, k: nat, sink: Sink, fdIn: int, fdOut: int) {
    && Aiming(b', io', k, sink, fdOut) && fdIn != fdOut && fdOut >= 3 && b'.low == k + 1 && b'.spent == b.spent
    && b'.hand == (if sink.ToFile? then {fdOut} else {}) + (if fdIn == 0 then {} else {fdIn})
    && fdIn in b'.fds && (fdIn == 0 || InHand(b', fdIn))
    && Waiting(b'.pid, io'.pipes) == Awaited(Waiting(b.pid, io.pipes), k, sink) - {k}
    && io'.log == io.log && io'.client == io.client && io'.files == Opened(io.files, sink)
    && OnlyTofile(b.nodes, b'.nodes, k, if sink.ToFile? then fdOut else -1)
  }

  /** What is still in hand once the last command of line k has run. */
  ghost predicate LandedOn(before: seq<Entry>, b': Books, k: nat, sink: Sink, fdIn: int, fdOut: int) {
    && fdIn != fdOut && fdOut >= 3 && b'.low == k + 1
    && b'.hand == (if sink.ToFile? then {fdOut} else {}) + (if fdIn == 0 then {} else {fdIn})
    && (fdIn == 0 || InHand(b', fdIn))
    && (sink.ToFile? ==> fdOut in b'.role && b'.role[fdOut] == OutFile)
    && OnlyTofile(before, b'.nodes, k, if sink.ToFile? then fdOut else -1)
  }

  lemma Land(b: Books, b': Books, io: Io, io': Io, k: nat, sink: Sink, fdIn: int, fdOut: int)
    requires Poised(b, b', io, io', k, sink, fdIn, fdOut)
    ensures LandedOn(b.nodes, b', k, sink, fdIn, fdOut)
  {
  }

  ghost predicate BlankAhead(before: seq<Entry>, after: seq<Entry>, k: nat) {
    && |after| == |before|
    && forall i :: k < i < |before| && Untouched(before[i]) ==> Untouched(after[i])
  }

  lemma Poise(b: Books, b1: Books, b': Books, io: Io, io': Io, k: nat, sink: Sink, fdIn: int, fdOut: int, input: Input)
    requires Balanced(b1) && OutputChosen(b, b1, io, io', k, sink, fdOut) && Reading(b1, b', io', k, fdIn, input)
    requires b.hand == {} || (b.hand == {fdIn} && fdIn != 0)
    requires b'.hand == b1.hand + (if fdIn == 0 then {} else {fdIn})
    requires b.hand == {} && fdIn != 0 ==> fdIn !in b1.hand
    requires fdOut >= 3
    ensures Poised(b, b', io, io', k, sink, fdIn, fdOut)
  {
    hide Balanced, Aiming, Awaited, KeptBut, Untouched;
    AimingKept(b1, b', io', k, sink, fdOut);
    ReadsApart(b1, b', io', k, sink, fdIn, fdOut, input);
    ChosenNodes(b, b1, io, io', k, sink, fdOut);
  }

  lemma ReadsApart(b: Books, b': Books, io: Io, k: nat, sink: Sink, fdIn: int, fdOut: int, input: Input)
    requires Balanced(b) && Aiming(b', io, k, sink, fdOut) && Reading(b, b', io, k, fdIn, input) && fdOut >= 3
    ensures fdIn != fdOut
  {
    hide Balanced;
    ClientOpen(b);
  }

  lemma ChosenNodes(b: Books, b': Books, io: Io, io': Io, k: nat, sink: Sink, fdOut: int)
    requires OutputChosen(b, b', io, io', k, sink, fdOut)
    ensures OnlyTofile(b.nodes, b'.nodes, k, if sink.ToFile? then fdOut else -1)
  {
  }

  lemma AimingKept(b: Books, b': Books, io: Io, k: nat, sink: Sink, fdOut: int)
    requires Aiming(b, io, k, sink, fdOut) && KeptBut(b, b', k) && b'.clifd == b.clifd
    requires b'.pid == b.pid - {k} && b.hand <= b'.hand
    ensures Aiming(b', io, k, sink, fdOut)
  {
  }

  /** The current node has its output file; nodes ahead are as blank as before. */
  ghost predicate OnlyTofile(before: seq<Entry>, after: seq<Entry>, k: nat, fd: int) {
    && k < |before| == |after|
    && after[k] == before[k].(fdTofile := fd)
    && (forall i :: 0 <= i < |before| && Untouched(before[i]) && i != k ==> Untouched(after[i]))
  }

  /** The writes of the last command of line k have reached its sink. */
  ghost predicate Written(b: Books, io: Io, io': Io, k: nat, sink: Sink, chunks: seq<Chunk>) {
    && |io'.pipes| == |io.pipes| && io'.log == io.log
    && io'.client == io.client + Shown(Some(chunks), sink)
    && io'.files == (if sink.ToFile? then io.files[sink.name := Outs(chunks)] else io.files)
    && Waiting(b.pid, io'.pipes) ==
       (if sink.ToLine? then Post(Waiting(b.pid, io.pipes), k + sink.ahead, Parcel(Some(chunks), sink).value)
        else Waiting(b.pid, io.pipes))
  }

  lemma PipeWritten(b: Books, io: Io, t: nat, bytes: Bytes)
    requires Balanced(b) && b.npipes == |io.pipes| && t in b.pid && b.pid[t] < |io.pipes|
    ensures Waiting(b.pid, io.pipes[b.pid[t] := io.pipes[b.pid[t]] + bytes]) == Post(Waiting(b.pid, io.pipes), t, bytes)
  {
    hide Balanced;
    WiredAt(b, t);
    forall i | i in b.pid && i != t ensures b.pid[i] != b.pid[t] {
      WiredAt(b, i);
    }
    OnePipeWritten(b.pid, io.pipes, t, bytes);
  }

  lemma OnePipeWritten(pid: map<nat, nat>, pipes: seq<Bytes>, t: nat, bytes: Bytes)
    requires t in pid && pid[t] < |pipes| && forall i :: i in pid && i != t ==> pid[i] != pid[t]
    ensures Waiting(pid, pipes[pid[t] := pipes[pid[t]] + bytes]) == Post(Waiting(pid, pipes), t, bytes)
  {
  }

  lemma ToLineWritten(b: Books, io: Io, k: nat, sink: Sink, fdOut: int, chunks: seq<Chunk>)
    requires Balanced(b) && b.npipes == |io.pipes| && sink.ToLine?
    requires Aiming(b, io, k, sink, fdOut)
    ensures var err := if sink.withErr then b.fds[fdOut] else Client(io.socket);
            Written(b, io, WriteAll(io, b.fds[fdOut], err, chunks), k, sink, chunks)
  {
    hide Balanced;
    PipeWritten(b, io, k + sink.ahead, if sink.withErr then All(chunks) else Outs(chunks));
    if sink.withErr {
      WriteAllSame(io, b.fds[fdOut], chunks);
      assert io.client + [] == io.client;
    } else {
      WriteAllSplit(io, b.fds[fdOut], chunks);
    }
  }

  /** Two descriptors or one, the writes of the last command end where the sink says. */
  lemma SinkWritten(b: Books, io: Io, k: nat, sink: Sink, fdOut: int, chunks: seq<Chunk>)
    requires Balanced(b) && b.npipes == |io.pipes| && Aiming(b, io, k, sink, fdOut)
    requires fdOut in b.fds && b.clifd == io.socket
    ensures var err := if sink.ToLine? && sink.withErr then b.fds[fdOut] else Client(io.socket);
            Written(b, io, WriteAll(io, b.fds[fdOut], err, chunks), k, sink, chunks)
  {
    match sink
    case ToClient =>
      WriteAllSame(io, Client(io.socket), chunks);
    case ToFile(name) =>
      WriteAllSplit(io, b.fds[fdOut], chunks);
      assert [] + Outs(chunks) == Outs(chunks);
    case ToLine(_, _) =>
      ToLineWritten(b, io, k, sink, fdOut, chunks);
  }

  /** Where the last command of line k is going to write. */
  ghost predicate Aiming(b: Books, io: Io, k: nat, sink: Sink, fdOut: int) {
    match sink
    case ToClient => fdOut == b.clifd
    case ToFile(name) => && fdOut in b.hand && Holds(b, fdOut, File(name), OutFile)
                         && name in io.files && io.files[name] == []
    case ToLine(n, _) => && k + n in b.pid && b.pid[k + n] < |io.pipes|
                         && Holds(b, fdOut, WriteEnd(b.pid[k + n]), Into(k + n))
  }

  function Opened(files: map<string, Bytes>, sink: Sink): map<string, Bytes> {
    if sink.ToFile? then files[sink.name := []] else files
  }

  ghost function Awaited(waiting: map<nat, Bytes>, k: nat, sink: Sink): map<nat, Bytes> {
    if sink.ToLine? then Post(waiting, k + sink.ahead, []) else waiting
  }

  /** The books and the pipes once the last command of line k has its output. */
  ghost predicate OutputChosen(b: Books, b': Books, io: Io, io': Io, k: nat, sink: Sink, fdOut: int) {
    && Aiming(b', io', k, sink, fdOut)
    && b'.low == b.low && b'.spent == b.spent && b'.clifd == b.clifd && k < |b.nodes| == |b'.nodes|
    && b'.hand == b.hand + (if sink.ToFile? then {fdOut} else {}) && (sink.ToFile? ==> fdOut !in b.hand)
    && Waiting(b'.pid, io'.pipes) == Awaited(Waiting(b.pid, io.pipes), k, sink)
    && io'.files == Opened(io.files, sink) && io'.client == io.client && io'.log == io.log
    && (k in b'.pid <==> k in b.pid)
    && b'.nodes[k] == b.nodes[k].(fdTofile := if sink.ToFile? then fdOut else -1)
    && (forall i :: 0 <= i < |b.nodes| && Untouched(b.nodes[i]) && i != k ==> Untouched(b'.nodes[i]))
    && (forall f :: InHand(b, f) ==> InHand(b', f) && InputFrom(io', b'.fds[f]) == InputFrom(io, b.fds[f]))
  }

  lemma ClientChosen(b: Books, io: Io, k: nat, sink: Sink)
    requires k < |b.nodes| && sink.ToClient? && b.nodes[k].fdTofile == -1
    ensures OutputChosen(b, b, io, io, k, sink, b.clifd)
  {
  }

  lemma FileChosen(b: Books, b': Books, io: Io, io': Io, k: nat, sink: Sink, f: int)
    requires Balanced(b) && k < |b.nodes| && sink.ToFile?
    requires f !in b.fds && b' == AddFile(b, f, sink.name).(nodes := b.nodes[k := b.nodes[k].(fdTofile := f)])
    requires io' == io.(files := io.files[sink.name := []])
    ensures OutputChosen(b, b', io, io', k, sink, f)
  {
    hide Standard, Wired;
  }

  lemma LineChosen(b: Books, b': Books, io: Io, io': Io, k: nat, sink: Sink, f: int)
    requires Balanced(b) && k < |b.nodes| && sink.ToLine? && b.npipes == |io.pipes| && b'.npipes == |io'.pipes|
    requires b.nodes[k].fdTofile == -1
    requires TargetOpened(b, b', io, io', k + sink.ahead, f)
    requires forall p: nat :: NoWriter(b.fds, p) && p < |io.pipes| ==> NoWriter(b'.fds, p)
    ensures OutputChosen(b, b', io, io', k, sink, f)
  {
    hide Balanced;
    forall g | InHand(b, g)
      ensures InHand(b', g) && InputFrom(io', b'.fds[g]) == InputFrom(io, b.fds[g])
    {
      TargetKeepsInHand(b, b', io, io', k + sink.ahead, f, g);
    }
    forall i | 0 <= i < |b.nodes| && Untouched(b.nodes[i]) && i != k ensures Untouched(b'.nodes[i]) {
      assert i == k + sink.ahead || b'.nodes[i] == b.nodes[i];
    }
  }

  lemma TargetKeepsInHand(b: Books, b': Books, io: Io, io': Io, t: nat, f: int, g: int)
    requires InHand(b, g) && b.npipes == |io.pipes| && b'.npipes == |io'.pipes|
    requires TargetOpened(b, b', io, io', t, f)
    requires forall p: nat :: NoWriter(b.fds, p) && p < |io.pipes| ==> NoWriter(b'.fds, p)
    ensures InHand(b', g) && InputFrom(io', b'.fds[g]) == InputFrom(io, b.fds[g])
  {
    assert NoWriter(b'.fds, b.fds[g].pipe);
  }

  /** A read end in the hand of the line being executed, whose end can be seen. */
  ghost predicate InHand(b: Books, f: int) {
    && f in b.hand && f in b.fds && f in b.role && b.role[f] == LinkIn
    && b.fds[f].ReadEnd? && b.fds[f].pipe < b.npipes
    && NoWriter(b.fds, b.fds[f].pipe)
    && b.fds[f].pipe !in b.pid.Values
  }

  lemma ClientOpen(b: Books)
    requires Balanced(b)
    ensures b.clifd >= 3 && Holds(b, b.clifd, Client(b.clifd), Std)
    ensures Holds(b, 0, Console, Std) && Holds(b, 1, Console, Std) && Holds(b, 2, Console, Std)
  {
  }

  lemma OwnDescriptor(b: Books, f: int)
    requires Balanced(b) && f in b.fds && f !in b.foreign
    ensures b.fds[f].Client? ==> b.fds[f].socket == b.clifd
    ensures b.fds[f].WriteEnd? ==> b.fds[f].pipe !in b.theirs
  {
    hide Balanced;
    AccountedAt(b, f);
    StandardIn(b);
    match b.role[f]
    case In(i) => WiredAt(b, i);
    case Into(i) => WiredAt(b, i);
    case _ =>
  }

  lemma NotForeign(b: Books, f: int)
    requires Balanced(b) && f in b.fds && f in b.role && b.role[f] != Other
    ensures f !in b.foreign
  {
    hide Balanced;
    AccountedAt(b, f);
  }

  lemma HandOpen(b: Books)
    requires Balanced(b)
    ensures 0 !in b.hand && b.hand <= b.fds.Keys == b.role.Keys
  {
    assert Accounted(b, 0);
  }

  lemma InHandNumber(b: Books, f: int)
    requires Balanced(b) && InHand(b, f)
    ensures f >= 3
  {
  }

  lemma LinkKeepsInHand(b: Books, r: int, w: int, f: int)
    requires Balanced(b) && InHand(b, f)
    requires LowestFree(b.fds, r) && LowestFree(b.fds[r := ReadEnd(b.npipes)], w)
    ensures InHand(AddLink(b, r, w), f)
  {
    AddLinkBalanced(b, r, w);
  }

  /** Before command C of line k is started: it will read `fdIn` and write the
      link (r, w), which holds `content` and has no other writer. */
  ghost predicate Linked(b: Books, io: Io, k: nat, fdIn: int, r: int, w: int, content: Bytes) {
    && b.low == k + 1 && b.npipes == |io.pipes| && r != w && fdIn != r && fdIn != w
    && fdIn in b.fds && (fdIn == 0 || InHand(b, fdIn))
    && b.hand == {r, w} + (if fdIn == 0 then {} else {fdIn})
    && r in b.fds && w in b.fds && r in b.role && w in b.role && b.role[r] == LinkIn && b.role[w] == LinkOut
    && b.fds[r].ReadEnd? && b.fds[w] == WriteEnd(b.fds[r].pipe) && b.fds[r].pipe < |io.pipes|
    && b.fds[r].pipe !in b.pid.Values && io.pipes[b.fds[r].pipe] == content
    && (forall f :: f in b.fds && b.fds[f] == b.fds[w] ==> f == w)
  }

  lemma LinkMade(b: Books, io: Io, r: int, w: int)
    requires Balanced(b) && b.npipes == |io.pipes|
    ensures Waiting(b.pid, io.pipes + [[]]) == Waiting(b.pid, io.pipes)
    ensures b.npipes !in b.pid.Values
  {
    forall i | i in b.pid ensures b.pid[i] < b.npipes {
      assert Wired(b, i);
    }
  }

  /** A command whose output is a link: its errors reach the client, its output the link. */
  lemma LinkWritten(b: Books, io: Io, fdIn: int, r: int, w: int, k: nat, input: Input, chunks: seq<Chunk>)
    requires Linked(b, io, k, fdIn, r, w, [])
    ensures var io' := WriteAll(io.(log := io.log + [input]), b.fds[w], Client(io.socket), chunks);
            && Linked(b, io', k, fdIn, r, w, Outs(chunks))
            && io'.log == io.log + [input] && io'.client == io.client + Errs(chunks) && io'.files == io.files
            && Waiting(b.pid, io'.pipes) == Waiting(b.pid, io.pipes)
  {
    WriteAllSplit(io.(log := io.log + [input]), b.fds[w], chunks);
    assert [] + Outs(chunks) == Outs(chunks);
  }

  lemma ReadingLinked(b: Books, b': Books, io: Io, k: nat, fdIn: int, r: int, w: int, input: Input)
    requires Reading(b, b', io, k, fdIn, input)
    requires 0 < b.npipes == |io.pipes| && io.pipes[b.npipes - 1] == [] && b.npipes - 1 !in b.pid.Values
    requires Holds(b, r, ReadEnd(b.npipes - 1), LinkIn) && Holds(b, w, WriteEnd(b.npipes - 1), LinkOut)
    requires forall f :: f in b.fds && b.fds[f] == WriteEnd(b.npipes - 1) ==> f == w
    requires r != w && fdIn != r && fdIn != w && b'.hand == {r, w} + (if fdIn == 0 then {} else {fdIn})
    ensures Linked(b', io, k, fdIn, r, w, [])
  {
  }

  /** Nothing is lost but the ends of line k's pipe. */
  ghost predicate KeptBut(b: Books, b': Books, k: nat) {
    && (forall f :: f in b.fds && f in b.role && b.role[f] != In(k) && b.role[f] != Into(k) ==>
          f in b'.fds && f in b'.role && b'.fds[f] == b.fds[f] && b'.role[f] == b.role[f])
    && (forall f :: f in b'.fds ==> f in b.fds && b'.fds[f] == b.fds[f])
  }

  /** The books once a command of line k can start to read `input` on `fdIn`. */
  ghost predicate Reading(b: Books, b': Books, io: Io, k: nat, fdIn: int, input: Input) {
    && b' == b.(fds := b'.fds, role := b'.role, hand := b'.hand, low := k + 1, pid := b.pid - {k})
    && fdIn in b'.fds && (fdIn == 0 || InHand(b', fdIn))
    && InputFrom(io, b'.fds[fdIn]) == input
    && Waiting(b'.pid, io.pipes) == Waiting(b.pid, io.pipes) - {k}
    && KeptBut(b, b', k)
  }

  lemma WaitingWithout(pid: map<nat, nat>, pipes: seq<Bytes>, k: nat)
    ensures Waiting(pid - {k}, pipes) == Waiting(pid, pipes) - {k}
  {
  }

  lemma RetireReads(b: Books, io: Io)
    requires Balanced(b) && b.npipes == |io.pipes| && b.low in b.pid
    ensures b.low < |b.nodes| && b.pid[b.low] < |io.pipes|
    ensures Reading(b, Retire(b), io, b.low, b.nodes[b.low].fdReadout, Piped(io.pipes[b.pid[b.low]]))
    ensures b.nodes[b.low].fdReadout != 0 && b.nodes[b.low].fdReadout !in b.hand
  {
    hide Balanced;
    WiredAt(b, b.low);
    ClientOpen(b);
    RetireBalanced(b);
    WaitingWithout(b.pid, io.pipes, b.low);
    assert KeptBut(b, Retire(b), b.low);
  }

  lemma SkipReads(b: Books, io: Io)
    requires Balanced(b) && b.low !in b.pid
    ensures Reading(b, b.(low := b.low + 1), io, b.low, 0, Terminal)
  {
    assert b.pid - {b.low} == b.pid;
  }

  lemma KeepReads(b: Books, io: Io, k: nat, fdIn: int)
    requires Balanced(b) && b.low == k + 1 && InHand(b, fdIn)
    ensures Reading(b, b, io, k, fdIn, InputFrom(io, b.fds[fdIn]))
  {
    assert k in b.pid ==> Wired(b, k);
    assert b.pid - {k} == b.pid;
  }

  lemma FileOpened(b: Books, f: int, name: string, nodes: seq<Entry>)
    requires Balanced(b) && LowestFree(b.fds, f) && |nodes| == |b.nodes|
    requires forall i :: 0 <= i < |nodes| ==>
               nodes[i].fdReadout == b.nodes[i].fdReadout && nodes[i].fdWritein == b.nodes[i].fdWritein
    ensures Balanced(AddFile(b, f, name).(nodes := nodes)) && f >= 3
    ensures forall p: nat :: NoWriter(b.fds, p) ==> NoWriter(AddFile(b, f, name).fds, p)
  {
    AddFileBalanced(b, f, name);
    NodesBalanced(AddFile(b, f, name), nodes);
  }

  /** The books and the pipes once the pipe of line t is open for writing. */
  ghost predicate TargetOpened(b: Books, b': Books, io: Io, io': Io, t: nat, fdOut: int) {
    && b'.low == b.low && b'.spent == b.spent && b'.hand == b.hand && b'.clifd == b.clifd
    && SameButPipe(b.nodes, b'.nodes, t)
    && t in b'.pid && b'.pid[t] < |io'.pipes| && Holds(b', fdOut, WriteEnd(b'.pid[t]), Into(t))
    && Waiting(b'.pid, io'.pipes) == Post(Waiting(b.pid, io.pipes), t, [])
    && b'.pid == b.pid[t := b'.pid[t]] && (t in b.pid ==> b'.pid == b.pid) && (t !in b.pid ==> b'.pid[t] == |io.pipes|)
    && io' == io.(pipes := io'.pipes) && io.pipes <= io'.pipes
    && (forall f :: f in b.fds && f in b.role ==>
          f in b'.fds && f in b'.role && b'.fds[f] == b.fds[f] && b'.role[f] == b.role[f])
  }

  lemma FoundTarget(b: Books, io: Io, t: nat)
    requires Balanced(b) && b.npipes == |io.pipes| && t in b.pid
    ensures t < |b.nodes| && TargetOpened(b, b, io, io, t, b.nodes[t].fdWritein)
  {
    hide Balanced;
    WiredAt(b, t);
    var w := Waiting(b.pid, io.pipes);
    assert w[t] + [] == w[t];
    assert Post(w, t, []) == w;
  }

  lemma NewPipeWaits(pid: map<nat, nat>, pipes: seq<Bytes>, t: nat)
    requires t !in pid && forall i :: i in pid ==> pid[i] < |pipes|
    ensures Waiting(pid[t := |pipes|], pipes + [[]]) == Post(Waiting(pid, pipes), t, [])
  {
  }

  lemma MadeTarget(b: Books, io: Io, t: nat, r: int, w: int, b': Books, io': Io)
    requires Balanced(b) && b.npipes == |io.pipes| && t !in b.pid && t < |b.nodes|
    requires b' == AddTarget(b, t, r, w) && io' == io.(pipes := io.pipes + [[]])
    requires r !in b.fds && w !in b.fds && r != w
    ensures TargetOpened(b, b', io, io', t, w)
  {
    forall i | i in b.pid ensures b.pid[i] < |io.pipes| {
      assert Wired(b, i);
    }
    NewPipeWaits(b.pid, io.pipes, t);
  }

  /** Only the pipe of node t may differ. */
  ghost predicate SameButPipe(before: seq<Entry>, after: seq<Entry>, t: nat) {
    && |before| == |after|
    && (forall i :: 0 <= i < |before| && i != t ==> after[i] == before[i])
    && (t < |before| ==> after[t].(fdReadout := before[t].fdReadout, fdWritein := before[t].fdWritein) == before[t])
  }
}
