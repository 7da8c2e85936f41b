/**
 The list of line nodes (Project1/src/li3.c, and `create_linenode` of
 netshell.c): a head node, one node per line typed so far, and one empty node
 for each later line that some line already writes to.
 */
module LineList {
  import opened Common

  class Node {
    var linenum: int
    var pipeto: nat
    var pipeErr: bool
    var filename: Option<string>
    var fdTofile: int
    var fdReadout: int
    var fdWritein: int
    var next: Node?

    constructor (linenum: int, pipeto: nat)
      ensures Contents() == Blank(linenum, pipeto) && next == null
    {
      this.linenum, this.pipeto, this.pipeErr := linenum, pipeto, false;
      filename, fdTofile, fdReadout, fdWritein, next := None, -1, -1, -1, null;
    }

    ghost function Contents(): Entry
      reads this
    {
      Entry(linenum, pipeto, pipeErr, filename, fdTofile, fdReadout, fdWritein)
    }
  }

  /** The fields of a node other than its link. */
  datatype Entry = Entry(linenum: int, pipeto: nat, pipeErr: bool, filename: Option<string>,
                         fdTofile: int, fdReadout: int, fdWritein: int)

  function Blank(linenum: int, pipeto: nat): Entry {
    Entry(linenum, pipeto, false, None, -1, -1, -1)
  }

  function Blanks(linenum: int, n: nat): (s: seq<Entry>)
    ensures |s| == n
    ensures forall i :: 0 <= i < n ==> s[i] == Blank(linenum + i, 0)
  {
    seq(n, i requires 0 <= i => Blank(linenum + i, 0))
  }

  function Max(a: int, b: int): int { if a < b then b else a }

  /** The list once the next line has its node. */
  function Entered(s: seq<Entry>, at: nat, linecount: int, pipeto: nat): seq<Entry>
    requires at < |s|
  {
    if at + 1 == |s| then s + [Blank(linecount, pipeto)] else s[at + 1 := s[at + 1].(pipeto := pipeto)]
  }

  /** The list after a line that writes `pipeto` lines ahead, when `at` lines were read before. */
  function Extended(s: seq<Entry>, at: nat, linecount: int, pipeto: nat): seq<Entry>
    requires at < |s|
  {
    var s1 := Entered(s, at, linecount, pipeto);
    s1 + Blanks(linecount + |s1| - |s|, if pipeto > 0 then Max(0, at + 2 + pipeto - |s1|) else 0)
  }

  class List {
    var headnode: Node
    var curnode: Node
    var tailnode: Node
    var linecount: int
    ghost var nodes: seq<Node>
    ghost var at: nat

    /** Distinct nodes linked in order; every node but the head carries the
        number after its predecessor's, and `linecount` is the next one. */
    ghost predicate Valid()
      reads this, nodes
    {
      && at < |nodes|
      && headnode == nodes[0] && curnode == nodes[at] && tailnode == nodes[|nodes| - 1]
      && (forall i, j :: 0 <= i < j < |nodes| ==> nodes[i] != nodes[j])
      && (forall i :: 0 <= i < |nodes| - 1 ==> nodes[i].next == nodes[i + 1])
      && tailnode.next == null
      && (forall i :: 1 <= i < |nodes| ==> nodes[i].linenum == linecount - |nodes| + i)
    }

    ghost function Entries(): (s: seq<Entry>)
      reads this, nodes
      ensures |s| == |nodes|
    {
      var ns := nodes;
      seq(|ns|, i requires 0 <= i < |ns| reads ns => ns[i].Contents())
    }

    /** The counter may start anywhere: 1 in Project1, -1 or a stale value in select. */
    constructor (linecount: int)
      ensures Valid() && fresh(nodes) && at == 0 && this.linecount == linecount
      ensures Entries() == [Blank(0, 0)]
    {
      var head := new Node(0, 0);
      headnode, curnode, tailnode, this.linecount := head, head, head, linecount;
      nodes, at := [head], 0;
    }

    lemma NextNode(i: nat)
      requires Valid() && i < |nodes|
      ensures nodes[i].next == if i + 1 < |nodes| then nodes[i + 1] else null
    {
    }

    method SetPipeto(n: nat)
      requires Valid()
      modifies curnode`pipeto
      ensures Valid() && Entries() == old(Entries())[at := old(Entries())[at].(pipeto := n)]
    {
      curnode.pipeto := n;
      assert forall i :: 0 <= i < |nodes| && i != at ==> nodes[i].Contents() == old(nodes[i].Contents());
    }

    method SetPipeErr()
      requires Valid()
      modifies curnode`pipeErr
      ensures Valid() && Entries() == old(Entries())[at := old(Entries())[at].(pipeErr := true)]
    {
      curnode.pipeErr := true;
      assert forall i :: 0 <= i < |nodes| && i != at ==> nodes[i].Contents() == old(nodes[i].Contents());
    }

    method SetFilename(name: string)
      requires Valid()
      modifies curnode`filename
      ensures Valid() && Entries() == old(Entries())[at := old(Entries())[at].(filename := Some(name))]
    {
      curnode.filename := Some(name);
      assert forall i :: 0 <= i < |nodes| && i != at ==> nodes[i].Contents() == old(nodes[i].Contents());
    }

    method SetTofile(fd: int)
      requires Valid()
      modifies curnode`fdTofile
      ensures Valid() && Entries() == old(Entries())[at := old(Entries())[at].(fdTofile := fd)]
    {
      curnode.fdTofile := fd;
      assert forall i :: 0 <= i < |nodes| && i != at ==> nodes[i].Contents() == old(nodes[i].Contents());
    }

    method SetPipe(node: Node, ghost k: nat, readout: int, writein: int)
      requires Valid() && k < |nodes| && node == nodes[k]
      modifies node`fdReadout, node`fdWritein
      ensures Valid()
      ensures Entries() == old(Entries())[k := old(Entries())[k].(fdReadout := readout, fdWritein := writein)]
    {
      node.fdReadout, node.fdWritein := readout, writein;
      assert forall i :: 0 <= i < |nodes| && i != k ==> nodes[i].Contents() == old(nodes[i].Contents());
    }

    /** `insert_node` at the tail, and the tail moved to the new node. */
    method Append(newnode: Node)
      requires Valid() && newnode !in nodes && newnode.next == null
      requires newnode.linenum == linecount
      modifies this`linecount, this`tailnode, this`nodes, tailnode`next, newnode`next
      ensures Valid() && nodes == old(nodes) + [newnode] && at == old(at)
      ensures linecount == old(linecount) + 1
      ensures Entries() == old(Entries()) + [old(newnode.Contents())]
    {
      newnode.next := tailnode.next;
      tailnode.next := newnode;
      tailnode := tailnode.next;
      linecount := linecount + 1;
      nodes := nodes + [newnode];
    }

    method Advance()
      requires Valid() && at + 1 < |nodes|
      modifies this`curnode, this`at
      ensures Valid() && at == old(at) + 1 && Entries() == old(Entries())
    {
      NextNode(at);
      curnode := curnode.next;
      at := at + 1;
    }

    /** `create_linenode`: move to the node of the next line, made now or by an
        earlier line that writes to it, and make the nodes this line needs ahead. */
    method CreateLineNode(pipetonum: nat)
      requires Valid()
      modifies this, nodes
      ensures Valid() && at == old(at) + 1
      ensures old(nodes) <= nodes && (forall i :: |old(nodes)| <= i < |nodes| ==> fresh(nodes[i]))
      ensures Entries() == Extended(old(Entries()), old(at), old(linecount), pipetonum)
    {
      EnterLine(pipetonum);
      assert nodes[|nodes| - 1] == tailnode;
      if pipetonum > 0 {
        MakeAhead(pipetonum - (tailnode.linenum - curnode.linenum));
      }
    }

    method EnterLine(pipetonum: nat)
      requires Valid()
      modifies this, nodes
      ensures Valid() && at == old(at) + 1
      ensures old(nodes) <= nodes && (forall i :: |old(nodes)| <= i < |nodes| ==> fresh(nodes[i]))
      ensures linecount == old(linecount) + |nodes| - |old(nodes)|
      ensures Entries() == Entered(old(Entries()), old(at), old(linecount), pipetonum)
    {
      NextNode(at);
      if curnode.next == null {
        var newnode := new Node(linecount, pipetonum);
        Append(newnode);
        Advance();
      } else {
        Advance();
        SetPipeto(pipetonum);
      }
    }

    method MakeAhead(need: int)
      requires Valid()
      modifies this`linecount, this`tailnode, this`nodes, tailnode`next
      ensures Valid() && at == old(at)
      ensures old(nodes) <= nodes && (forall i :: |old(nodes)| <= i < |nodes| ==> fresh(nodes[i]))
      ensures linecount == old(linecount) + Max(0, need)
      ensures Entries() == old(Entries()) + Blanks(old(linecount), Max(0, need))
    {
      var stillneed := need;
      while stillneed > 0
        invariant Valid() && at == old(at)
        invariant old(nodes) <= nodes && (forall i :: |old(nodes)| <= i < |nodes| ==> fresh(nodes[i]))
        invariant tailnode == old(tailnode) || fresh(tailnode)
        invariant stillneed <= need && (stillneed < 0 ==> stillneed == need)
        invariant linecount == old(linecount) + need - stillneed
        invariant Entries() == old(Entries()) + Blanks(old(linecount), need - stillneed)
      {
        var newnode := new Node(linecount, 0);
        Append(newnode);
        stillneed := stillneed - 1;
      }
    }

    /** The search of `execute_cmdline` for the node `pipeto` lines ahead: it
        never runs off the list and stops after exactly `pipeto` steps. */
    method FindTarget() returns (tmpnode: Node, ghost steps: nat)
      requires Valid() && 1 <= at && at + curnode.pipeto < |nodes|
      ensures steps == curnode.pipeto && tmpnode == nodes[at + curnode.pipeto]
    {
      tmpnode, steps := curnode, 0;
      while tmpnode.linenum != curnode.linenum + curnode.pipeto
        invariant steps <= curnode.pipeto && tmpnode == nodes[at + steps]
        decreases curnode.pipeto - steps
      {
        NextNode(at + steps);
        tmpnode, steps := tmpnode.next, steps + 1;
      }
    }
  }
}
