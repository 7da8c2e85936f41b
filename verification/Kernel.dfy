/**
 The part of the operating system the shell relies on: one descriptor table
 with lowest-free-number allocation, unbounded pipes, and children that run
 one at a time on a copy of the table.
 */
module Kernel {
  import opened Common
  import opened Routing

  /** What a descriptor number refers to. */
  datatype Desc = Console | Client(socket: int) | File(name: string) | ReadEnd(pipe: nat) | WriteEnd(pipe: nat)

  type Table = map<int, Desc>

  /** Why the client being served holds a descriptor. No program text depends on it. */
  datatype Role =
    | Std                 // 0, 1, 2 and the client's socket
    | In(line: nat)       // read end stored in the node of a later line
    | Into(line: nat)     // write end stored in the node of a later line
    | LinkIn              // input of the command about to run
    | LinkOut             // write end of a pipe between two commands
    | OutFile             // output file of the current line
    | Spent               // read end never closed and never used again
    | Wasted              // write end never closed and never used again
    | Other               // it belongs to another client

  /** What one client has seen, and what its commands were handed as input. */
  datatype Desk = Desk(client: Bytes, log: seq<Input>)

  /** What has been written. `client` and `log` are those of the client being
      served, `socket`; the other clients' are put aside. */
  datatype Io = Io(pipes: seq<Bytes>, socket: int, client: Bytes, files: map<string, Bytes>, log: seq<Input>,
                   aside: map<int, Desk>)

  /** One write to a descriptor. */
  function Write(io: Io, d: Desc, b: Bytes): Io {
    match d
    case Client(c) =>
      if c == io.socket then io.(client := io.client + b)
      else if c in io.aside then io.(aside := io.aside[c := io.aside[c].(client := io.aside[c].client + b)])
      else io
    case File(name) => io.(files := io.files[name := (if name in io.files then io.files[name] else []) + b])
    case WriteEnd(p) => if p < |io.pipes| then io.(pipes := io.pipes[p := io.pipes[p] + b]) else io
    case Console => io
    case ReadEnd(_) => io
  }

  /** The writes of a command whose standard output and error are `out` and `err`. */
  function WriteAll(io: Io, out: Desc, err: Desc, chunks: seq<Chunk>): Io
    decreases chunks
  {
    if chunks == [] then io
    else WriteAll(Write(io, if chunks[0].Out? then out else err, chunks[0].data), out, err, chunks[1..])
  }

  /** Writing neither makes nor removes a pipe, nor hands out input. */
  lemma {:induction false} WriteAllFrame(io: Io, out: Desc, err: Desc, chunks: seq<Chunk>)
    ensures |WriteAll(io, out, err, chunks).pipes| == |io.pipes|
    ensures WriteAll(io, out, err, chunks).log == io.log && WriteAll(io, out, err, chunks).socket == io.socket
    decreases chunks
  {
    if chunks != [] {
      WriteAllFrame(Write(io, if chunks[0].Out? then out else err, chunks[0].data), out, err, chunks[1..]);
    }
  }

  /** Nor does it touch a pipe or a screen that neither descriptor refers to. */
  lemma {:induction false} WriteAllSpares(io: Io, out: Desc, err: Desc, chunks: seq<Chunk>)
    ensures |WriteAll(io, out, err, chunks).pipes| == |io.pipes|
    ensures forall p: nat :: p < |io.pipes| && out != WriteEnd(p) && err != WriteEnd(p) ==>
              WriteAll(io, out, err, chunks).pipes[p] == io.pipes[p]
    ensures (out.Client? ==> out.socket == io.socket) && (err.Client? ==> err.socket == io.socket) ==>
              WriteAll(io, out, err, chunks).aside == io.aside
    decreases chunks
  {
    if chunks != [] {
      WriteAllSpares(Write(io, if chunks[0].Out? then out else err, chunks[0].data), out, err, chunks[1..]);
    }
  }

  ghost predicate Writable(io: Io, d: Desc) {
    d == Client(io.socket) || (d.WriteEnd? && d.pipe < |io.pipes|) || (d.File? && d.name in io.files)
  }

  lemma WriteNothing(io: Io, d: Desc)
    requires Writable(io, d)
    ensures Write(io, d, []) == io
  {
    match d
    case WriteEnd(p) => assert io.pipes[p] + [] == io.pipes[p];
    case File(name) => assert io.files[name] + [] == io.files[name];
    case Client(_) => assert io.client + [] == io.client;
  }

  lemma WriteTwice(io: Io, d: Desc, a: Bytes, b: Bytes)
    requires Writable(io, d)
    ensures Writable(Write(io, d, a), d)
    ensures Write(Write(io, d, a), d, b) == Write(io, d, a + b)
  {
    match d
    case WriteEnd(p) => assert io.pipes[p] + a + b == io.pipes[p] + (a + b);
    case File(name) => assert io.files[name] + a + b == io.files[name] + (a + b);
    case Client(_) => assert io.client + a + b == io.client + (a + b);
  }

  lemma WriteSwap(io: Io, d: Desc, a: Bytes, b: Bytes)
    requires Writable(io, d) && !d.Client?
    ensures Write(Write(io, Client(io.socket), b), d, a) == Write(Write(io, d, a), Client(io.socket), b)
  {
  }

  /** Output and error on one descriptor: every write, in order. */
  lemma {:induction false} WriteAllSame(io: Io, d: Desc, chunks: seq<Chunk>)
    requires Writable(io, d)
    ensures WriteAll(io, d, d, chunks) == Write(io, d, All(chunks))
    decreases chunks
  {
    if chunks == [] {
      WriteNothing(io, d);
    } else {
      WriteTwice(io, d, chunks[0].data, All(chunks[1..]));
      WriteAllSame(Write(io, d, chunks[0].data), d, chunks[1..]);
    }
  }

  /** Error to the client, output elsewhere: two independent streams. */
  lemma {:induction false} WriteAllSplit(io: Io, d: Desc, chunks: seq<Chunk>)
    requires Writable(io, d) && !d.Client?
    ensures WriteAll(io, d, Client(io.socket), chunks) ==
            Write(Write(io, d, Outs(chunks)), Client(io.socket), Errs(chunks))
    decreases chunks
  {
    if chunks == [] {
      WriteNothing(io, d);
      WriteNothing(io, Client(io.socket));
    } else {
      var c := chunks[0];
      if c.Out? {
        var io1 := Write(io, d, c.data);
        WriteTwice(io, d, c.data, Outs(chunks[1..]));
        WriteAllSplit(io1, d, chunks[1..]);
        assert Errs(chunks) == Errs(chunks[1..]);
      } else {
        WriteAllSplit(Write(io, Client(io.socket), c.data), d, chunks[1..]);
        WriteSwap(io, d, Outs(chunks[1..]), c.data);
        WriteTwice(Write(io, d, Outs(chunks[1..])), Client(io.socket), c.data, Errs(chunks[1..]));
        assert Outs(chunks) == Outs(chunks[1..]);
      }
    }
  }

  /** The number the kernel hands out next. */
  predicate LowestFree(fds: Table, n: int) {
    n >= 0 && n !in fds && forall m :: 0 <= m < n ==> m in fds
  }

  predicate NoWriter(fds: Table, p: nat) {
    forall f :: f in fds ==> fds[f] != WriteEnd(p)
  }

  /** The input of a command whose descriptor 0 is `d`. */
  function InputFrom(io: Io, d: Desc): Input {
    if d.ReadEnd? && d.pipe < |io.pipes| then Piped(io.pipes[d.pipe]) else Terminal
  }

  /** The desk in front is put aside, another is taken. */
  function Turned(io: Io, c: int): Io
    requires c in io.aside
  {
    io.(socket := c, client := io.aside[c].client, log := io.aside[c].log,
        aside := io.aside[io.socket := Desk(io.client, io.log)] - {c})
  }

  class Os {
    var fds: Table
    ghost var role: map<int, Role>
    var io: Io
    /** Some command was started on a pipe that could still be written: it may
        wait for the end of its input for ever. */
    var stalled: bool

    /** Before any client: `socket` is a number that is no socket. */
    constructor ()
      ensures fds == map[0 := Console, 1 := Console, 2 := Console] && role == map[0 := Std, 1 := Std, 2 := Std]
      ensures io == Io([], -1, [], map[], [], map[]) && !stalled
    {
      fds := map[0 := Console, 1 := Console, 2 := Console];
      role := map[0 := Std, 1 := Std, 2 := Std];
      io, stalled := Io([], -1, [], map[], [], map[]), false;
    }

    /** accept(2). */
    method Accept(clifd: int)
      requires clifd !in fds && clifd != io.socket
      modifies this`fds, this`role, this`io
      ensures fds == old(fds)[clifd := Client(clifd)] && role == old(role)[clifd := Std]
      ensures io == old(io).(aside := old(io).aside[clifd := Desk([], [])])
    {
      fds, role := fds[clifd := Client(clifd)], role[clifd := Std];
      io := io.(aside := io.aside[clifd := Desk([], [])]);
    }

    /** The socket of the client being served is closed; nobody is served. */
    method Hangup()
      requires io.socket in fds && io.socket in role
      modifies this`fds, this`role, this`io
      ensures fds == old(fds) - {old(io).socket} && role == old(role) - {old(io).socket}
      ensures io == old(io).(socket := -1, client := [], log := [])
    {
      fds, role := fds - {io.socket}, role - {io.socket};
      io := io.(socket := -1, client := [], log := []);
    }

    /** The client on another socket is served from now on; `roles` is its view of
        the descriptors. */
    method Turn(clifd: int, ghost roles: map<int, Role>)
      requires clifd in io.aside
      modifies this`role, this`io
      ensures role == roles && io == Turned(old(io), clifd)
    {
      io := Turned(io, clifd);
      role := roles;
    }

    method FreeNumber() returns (n: int)
      ensures LowestFree(fds, n)
    {
      n := 0;
      ghost var left := fds.Keys;
      while n in fds
        invariant n >= 0 && forall m :: 0 <= m < n ==> m in fds
        invariant forall m :: m in fds && m >= n ==> m in left
        decreases left
      {
        left := left - {n};
        n := n + 1;
      }
    }

    method Allocate(d: Desc, ghost r: Role) returns (n: int)
      modifies this`fds, this`role
      ensures LowestFree(old(fds), n)
      ensures fds == old(fds)[n := d] && role == old(role)[n := r]
    {
      n := FreeNumber();
      fds, role := fds[n := d], role[n := r];
    }

    /** pipe(2). */
    method Pipe(ghost rr: Role, ghost wr: Role) returns (r: int, w: int)
      modifies this`fds, this`role, this`io
      ensures LowestFree(old(fds), r) && LowestFree(old(fds)[r := ReadEnd(|old(io).pipes|)], w)
      ensures fds == old(fds)[r := ReadEnd(|old(io).pipes|)][w := WriteEnd(|old(io).pipes|)]
      ensures role == old(role)[r := rr][w := wr]
      ensures io == old(io).(pipes := old(io).pipes + [[]])
    {
      r := Allocate(ReadEnd(|io.pipes|), rr);
      w := Allocate(WriteEnd(|io.pipes|), wr);
      io := io.(pipes := io.pipes + [[]]);
    }

    /** open(2) for writing with O_CREAT and O_TRUNC. */
    method Open(name: string, ghost r: Role) returns (n: int)
      modifies this`fds, this`role, this`io
      ensures LowestFree(old(fds), n)
      ensures fds == old(fds)[n := File(name)] && role == old(role)[n := r]
      ensures io == old(io).(files := old(io).files[name := []])
    {
      n := Allocate(File(name), r);
      io := io.(files := io.files[name := []]);
    }

    /** close(2). The caller names the role it means to give up: the number must
        still be open for that very role, not reused for another. */
    method Close(n: int, ghost r: Role)
      requires n in fds && n in role && role[n] == r
      modifies this`fds, this`role
      ensures fds == old(fds) - {n} && role == old(role) - {n}
    {
      fds, role := fds - {n}, role - {n};
    }

    /** A descriptor is from now on held for another reason; nothing happens to it. */
    ghost method Relabel(n: int, r: Role)
      requires n in role
      modifies this`role
      ensures role == old(role)[n := r]
    {
      role := role[n := r];
    }

    method WriteClient(b: Bytes)
      modifies this`io
      ensures io == old(io).(client := old(io).client + b)
    {
      io := io.(client := io.client + b);
    }

    /** exec(2) in a child with table `child`, run to its end. */
    method Exec(cmd: Command, child: Table) returns (failed: bool)
      requires 0 in child && 1 in child && 2 in child
      modifies this`io, this`stalled
      ensures var input := InputFrom(old(io), child[0]);
              && io == WriteAll(old(io).(log := old(io).log + [input]), child[1], child[2], cmd(input).output)
              && failed == cmd(input).failed
      ensures stalled == (old(stalled) || (child[0].ReadEnd? &&
                          !(NoWriter(fds, child[0].pipe) && NoWriter(child, child[0].pipe))))
    {
      var input := InputFrom(io, child[0]);
      if child[0].ReadEnd? {
        stalled := stalled || !NoWriter(fds, child[0].pipe) || !NoWriter(child, child[0].pipe);
      }
      var o := cmd(input);
      io := WriteAll(io.(log := io.log + [input]), child[1], child[2], o.output);
      failed := o.failed;
    }
  }
}
