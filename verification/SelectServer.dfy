/**
 The event loop of Project2/select/src/netshell.c: the table `clidata`, the set
 `allfds`, FIFO files found by name and descriptors open on them. Every event
 does to `world` what `UserPipes.Step` says, and between events the FIFO files,
 the `fifofd` table and the world agree.
 */
module SelectServer {
  import opened Common
  import opened Text
  import opened UserPipes

  datatype Client = Client(clifd: int, uid: int, name: string, fifofd: seq<int>)

  predicate Live(c: seq<Client>, i: int)
    requires 0 <= i < |c|
  {
    c[i].uid != -1
  }

  ghost predicate Slots(c: seq<Client>) {
    && |c| == MAX_CLIENTS
    && forall i: Id ::
         |c[i].fifofd| == MAX_CLIENTS && (c[i].uid == -1 || c[i].uid == i) && (c[i].uid == -1 <==> c[i].clifd == -1)
  }

  /** `allfds` is the listening socket and the socket of each live slot, all different. */
  ghost predicate Sockets(c: seq<Client>, sockfd: int, allfds: set<int>)
    requires Slots(c)
  {
    && sockfd in allfds && -1 !in allfds
    && (forall i: Id :: Live(c, i) ==> c[i].clifd in allfds && c[i].clifd != sockfd)
    && (forall i: Id, j: Id :: Live(c, i) && Live(c, j) && c[i].clifd == c[j].clifd ==> i == j)
    && (forall fd :: fd in allfds && fd != sockfd ==> exists i: Id :: Live(c, i) && c[i].clifd == fd)
  }

  /** The directory: FIFO files by name, regular files with their contents; what is
      in the FIFOs, and the descriptors open on them. */
  datatype Fifos = Fifos(files: map<string, nat>, plain: map<string, Bytes>, contents: seq<Bytes>, open: map<int, nat>)

  predicate OnDisk(f: Fifos, name: string) { name in f.files || name in f.plain }

  /** The pair of users each FIFO was made for. */
  type Owners = map<nat, (Id, Id)>

  /** Slot j's descriptor for user i, the file ".itoj" and the world say the same. */
  ghost predicate PairAgrees(c: seq<Client>, f: Fifos, o: Owners, mail: map<(Id, Id), Bytes>, i: Id, j: Id)
    requires Slots(c)
  {
    var fd, name := c[j].fifofd[i], FifoName(i, j);
    && (fd != -1 <==> name in f.files) && (fd != -1 <==> (i, j) in mail)
    && (fd != -1 ==>
          && fd in f.open && f.files[name] == f.open[fd] && f.open[fd] < |f.contents|
          && f.contents[f.open[fd]] == mail[(i, j)]
          && f.open[fd] in o && o[f.open[fd]] == (i, j)
          && Live(c, j))
  }

  /** Every FIFO file is some pair's. */
  ghost predicate FilesOwned(f: Fifos, o: Owners) {
    && (forall n :: n in f.files ==> f.files[n] in o && n == FifoName(o[f.files[n]].0, o[f.files[n]].1))
    && (forall k :: k in o ==> k < |f.contents|)
  }

  ghost predicate Agree(c: seq<Client>, f: Fifos, o: Owners, mail: map<(Id, Id), Bytes>)
    requires Slots(c)
  {
    FilesOwned(f, o) && forall i: Id, j: Id :: PairAgrees(c, f, o, mail, i, j)
  }

  ghost predicate Matches(c: seq<Client>, w: World)
    requires Slots(c)
  {
    forall i: Id :: (i in w.live <==> Live(c, i)) && i in w.names && w.names[i] == c[i].name
  }

  /** Only FIFO descriptors differ. */
  ghost predicate SameUsers(c: seq<Client>, c': seq<Client>) {
    && Slots(c) && Slots(c')
    && forall i: Id :: c'[i].clifd == c[i].clifd && c'[i].uid == c[i].uid && c'[i].name == c[i].name
  }

  lemma SameUsersKeep(c: seq<Client>, c': seq<Client>, sockfd: int, allfds: set<int>, w: World, w': World)
    requires SameUsers(c, c') && Sockets(c, sockfd, allfds) && Matches(c, w)
    requires w'.live == w.live && w'.names == w.names
    ensures Sockets(c', sockfd, allfds) && Matches(c', w')
  {
    forall fd | fd in allfds && fd != sockfd ensures exists i: Id :: Live(c', i) && c'[i].clifd == fd {
      var i: Id :| Live(c, i) && c[i].clifd == fd;
      assert Live(c', i);
    }
  }

  function WithFifo(c: seq<Client>, i: Id, j: Id, fd: int): seq<Client>
    requires |c| == MAX_CLIENTS && |c[j].fifofd| == MAX_CLIENTS
  {
    c[j := c[j].(fifofd := c[j].fifofd[i := fd])]
  }

  function Created(f: Fifos, name: string, fd: int): Fifos {
    Fifos(f.files[name := |f.contents|], f.plain, f.contents + [[]], f.open[fd := |f.contents|])
  }

  lemma CreatedAgrees(c: seq<Client>, f: Fifos, o: Owners, mail: map<(Id, Id), Bytes>, i: Id, j: Id, fd: int)
    requires Slots(c) && Agree(c, f, o, mail) && FifoName(i, j) !in f.files
    requires fd >= 3 && fd !in f.open && Live(c, j)
    ensures Slots(WithFifo(c, i, j, fd)) && SameUsers(c, WithFifo(c, i, j, fd))
    ensures Agree(WithFifo(c, i, j, fd), Created(f, FifoName(i, j), fd), o[|f.contents| := (i, j)], mail[(i, j) := []])
  {
    var c', f' := WithFifo(c, i, j, fd), Created(f, FifoName(i, j), fd);
    var o', mail' := o[|f.contents| := (i, j)], mail[(i, j) := []];
    assert forall a: Id :: a != j ==> c'[a] == c[a];
    forall a: Id, b: Id ensures PairAgrees(c', f', o', mail', a, b) {
      assert PairAgrees(c, f, o, mail, a, b);
      if FifoName(a, b) == FifoName(i, j) {
        FifoNameInjective(a, b, i, j);
      }
    }
  }

  function Removed(f: Fifos, name: string): Fifos { f.(files := f.files - {name}) }

  lemma RemovedAgrees(c: seq<Client>, f: Fifos, o: Owners, mail: map<(Id, Id), Bytes>, i: Id, j: Id)
    requires Slots(c) && Agree(c, f, o, mail)
    ensures Slots(WithFifo(c, i, j, -1)) && SameUsers(c, WithFifo(c, i, j, -1))
    ensures Agree(WithFifo(c, i, j, -1), Removed(f, FifoName(i, j)), o, mail - {(i, j)})
  {
    var c', f', mail' := WithFifo(c, i, j, -1), Removed(f, FifoName(i, j)), mail - {(i, j)};
    assert forall a: Id :: a != j ==> c'[a] == c[a];
    forall a: Id, b: Id ensures PairAgrees(c', f', o, mail', a, b) {
      assert PairAgrees(c, f, o, mail, a, b);
      if FifoName(a, b) == FifoName(i, j) {
        FifoNameInjective(a, b, i, j);
      }
    }
  }

  lemma WrittenAgrees(c: seq<Client>, f: Fifos, o: Owners, mail: map<(Id, Id), Bytes>, i: Id, j: Id, data: Bytes)
    requires Slots(c) && Agree(c, f, o, mail) && FifoName(i, j) in f.files
    ensures f.files[FifoName(i, j)] < |f.contents| && (i, j) in mail
    ensures var k := f.files[FifoName(i, j)];
            Agree(c, f.(contents := f.contents[k := f.contents[k] + data]), o, mail[(i, j) := mail[(i, j)] + data])
  {
    assert PairAgrees(c, f, o, mail, i, j);
    var k := f.files[FifoName(i, j)];
    var f', mail' := f.(contents := f.contents[k := f.contents[k] + data]), mail[(i, j) := mail[(i, j)] + data];
    forall a: Id, b: Id ensures PairAgrees(c, f', o, mail', a, b) {
      assert PairAgrees(c, f, o, mail, a, b);
    }
  }

  /** A FIFO's name is that of its owner's pair. */
  lemma OwnerNamed(c: seq<Client>, f: Fifos, o: Owners, mail: map<(Id, Id), Bytes>, name: string)
    requires Slots(c) && Agree(c, f, o, mail) && name in f.files
    ensures f.files[name] in o
    ensures var pair := o[f.files[name]];
            FifoName(pair.0, pair.1) == name && PairNamed(name) == Some(pair) && pair in mail
  {
    var pair := o[f.files[name]];
    PairNamedIs(pair.0, pair.1);
    assert PairAgrees(c, f, o, mail, pair.0, pair.1);
  }

  lemma PlainAgrees(c: seq<Client>, f: Fifos, o: Owners, mail: map<(Id, Id), Bytes>, plain: map<string, Bytes>)
    requires Slots(c) && Agree(c, f, o, mail)
    ensures Agree(c, f.(plain := plain), o, mail)
  {
    forall a: Id, b: Id ensures PairAgrees(c, f.(plain := plain), o, mail, a, b) {
      assert PairAgrees(c, f, o, mail, a, b);
    }
  }

  lemma MatchesKept(c: seq<Client>, w: World, w': World)
    requires Slots(c) && Matches(c, w) && w'.live == w.live && w'.names == w.names
    ensures Matches(c, w')
  {
  }

  lemma NotAFifo(c: seq<Client>, f: Fifos, o: Owners, mail: map<(Id, Id), Bytes>, name: string)
    requires Slots(c) && Agree(c, f, o, mail) && name !in f.files
    ensures PairNamed(name).Some? ==> PairNamed(name).value !in mail
  {
    if PairNamed(name).Some? {
      var pair := PairNamed(name).value;
      assert PairAgrees(c, f, o, mail, pair.0, pair.1);
    }
  }

  lemma ClosedAgrees(c: seq<Client>, f: Fifos, o: Owners, mail: map<(Id, Id), Bytes>, i: Id, j: Id)
    requires Slots(c) && Agree(c, f, o, mail) && (i, j) in mail
    ensures Slots(WithFifo(c, i, j, -1)) && SameUsers(c, WithFifo(c, i, j, -1))
    ensures FifoName(i, j) in f.files
    ensures Agree(WithFifo(c, i, j, -1), Removed(f, FifoName(i, j)).(open := f.open - {c[j].fifofd[i]}),
                  o, mail - {(i, j)})
  {
    var c', mail' := WithFifo(c, i, j, -1), mail - {(i, j)};
    var f' := Removed(f, FifoName(i, j)).(open := f.open - {c[j].fifofd[i]});
    assert forall a: Id :: a != j ==> c'[a] == c[a];
    assert PairAgrees(c, f, o, mail, i, j);
    forall a: Id, b: Id ensures PairAgrees(c', f', o, mail', a, b) {
      assert PairAgrees(c, f, o, mail, a, b);
      if FifoName(a, b) == FifoName(i, j) {
        FifoNameInjective(a, b, i, j);
      }
    }
  }

  lemma {:induction false} LeastFreeFound(live: set<Id>, from: Id, i: Id)
    requires from <= i && i !in live && forall k: Id :: from <= k < i ==> k in live
    ensures LeastFree(live, from) == i
    decreases i - from
  {
    if from < i {
      LeastFreeFound(live, from + 1, i);
    }
  }

  /** A slot that nobody uses, as `initdata` leaves it; the name stays. */
  function Cleared(c: Client): Client { Client(-1, -1, c.name, seq(MAX_CLIENTS, i => -1)) }

  lemma LeaveKeeps(c: seq<Client>, sockfd: int, allfds: set<int>, f: Fifos, o: Owners, w: World, u: Id, w': World)
    requires Slots(c) && Sockets(c, sockfd, allfds) && Matches(c, w) && Agree(c, f, o, w.mail) && Live(c, u)
    requires forall i: Id :: (i, u) !in w.mail
    requires w'.live == w.live - {u} && w'.names == w.names && w'.mail == w.mail
    ensures var c' := c[u := Cleared(c[u])];
            && Slots(c') && Sockets(c', sockfd, allfds - {c[u].clifd}) && Matches(c', w') && Agree(c', f, o, w'.mail)
  {
    var c', fds := c[u := Cleared(c[u])], allfds - {c[u].clifd};
    forall a: Id, b: Id ensures PairAgrees(c', f, o, w'.mail, a, b) {
      assert PairAgrees(c, f, o, w.mail, a, b);
    }
    forall fd | fd in fds && fd != sockfd ensures exists i: Id :: Live(c', i) && c'[i].clifd == fd {
      var i: Id :| Live(c, i) && c[i].clifd == fd;
      assert Live(c', i);
    }
  }

  lemma EnterKeeps(c: seq<Client>, sockfd: int, allfds: set<int>, f: Fifos, o: Owners, w: World, u: Id, fd: int)
    requires Slots(c) && Sockets(c, sockfd, allfds) && Matches(c, w) && Agree(c, f, o, w.mail) && !Live(c, u)
    requires fd >= 0 && fd !in allfds
    ensures var c' := c[u := c[u].(clifd := fd, uid := u, name := "(no name)")];
            && Slots(c') && Sockets(c', sockfd, allfds + {fd}) && Matches(c', Enter(w, u)) && Agree(c', f, o, w.mail)
  {
    var c', fds := c[u := c[u].(clifd := fd, uid := u, name := "(no name)")], allfds + {fd};
    forall a: Id, b: Id ensures PairAgrees(c', f, o, w.mail, a, b) {
      assert PairAgrees(c, f, o, w.mail, a, b);
    }
    forall g | g in fds && g != sockfd ensures exists i: Id :: Live(c', i) && c'[i].clifd == g {
      if g == fd {
        assert Live(c', u);
      } else {
        var i: Id :| Live(c, i) && c[i].clifd == g;
        assert Live(c', i);
      }
    }
  }

  /** What a logged-in client can send. */
  datatype Request = Quit | NewName(name: string) | Talk | Line(cmd: Command, work: Work)

  function OpOf(u: Id, r: Request): Op {
    match r
    case Quit => Exit(u)
    case NewName(name) => Rename(u, name)
    case Talk => Chat(u)
    case Line(cmd, work) => Exec(u, cmd, work)
  }

  /** A client event as the operating system presents it. */
  datatype Arrival = Accepted | Ready(u: Id, r: Request)

  function OpFor(e: Arrival): Op {
    match e
    case Accepted => Login
    case Ready(u, r) => OpOf(u, r)
  }

  function OpsOf(events: seq<Arrival>): seq<Op> {
    if events == [] then [] else OpsOf(events[..|events| - 1]) + [OpFor(events[|events| - 1])]
  }

  function TargetOf(name: Option<string>): Target { if name.Some? then File(name.value) else Screen }

  class Server {
    const sockfd: int
    var clidata: seq<Client>
    var allfds: set<int>
    var fifos: Fifos
    var fdReadout: int
    var filename: Option<string>
    var sbData: int
    ghost var owner: Owners
    ghost var world: World

    ghost predicate Valid()
      reads this
    {
      && Slots(clidata) && Sockets(clidata, sockfd, allfds)
      && Matches(clidata, world) && Agree(clidata, fifos, owner, world.mail)
      && fifos.plain == world.plain && fifos.files.Keys !! fifos.plain.Keys
      && fifos.open.Keys !! allfds && |fifos.open| == OpenFifos(world.hist)
    }

    constructor (sockfd: int)
      requires sockfd >= 0
      ensures Valid() && world == Opening && allfds == {sockfd} && this.sockfd == sockfd
    {
      this.sockfd := sockfd;
      clidata := seq(MAX_CLIENTS, i => Client(-1, -1, "", seq(MAX_CLIENTS, j => -1)));
      allfds := {sockfd};
      fifos := Fifos(map[], map[], [], map[]);
      fdReadout, filename, sbData := -1, None, -1;
      owner := map[];
      world := Opening;
    }

    /** The number open(2) returns: free among sockets and FIFO descriptors. */
    method FreeNumber() returns (fd: int)
      ensures fd >= 3 && fd !in fifos.open && fd !in allfds
    {
      fd := 3;
      ghost var left := fifos.open.Keys + allfds;
      while fd in fifos.open || fd in allfds
        invariant fd >= 3
        invariant forall m :: m >= fd && (m in fifos.open || m in allfds) ==> m in left
        decreases left
      {
        left := left - {fd};
        fd := fd + 1;
      }
    }

    /** `pipe_to_user`: mknod refuses an existing file; the receiver's end is opened at once. */
    method PipeToUser(uid: Id, touid: Id) returns (ok: bool)
      requires Valid()
      modifies this`clidata, this`fifos, this`world, this`owner
      ensures Valid() && world == Make(old(world), uid, touid) && ok == CanMake(old(world), uid, touid)
      ensures forall i: Id, j: Id ::
                !(ok && i == uid && j == touid) ==> clidata[j].fifofd[i] == old(clidata[j].fifofd[i])
    {
      hide OpenFifos, FilesOwned, FifoName, AllIds, Sockets;
      ok := false;
      ghost var c, f, o, w := clidata, fifos, owner, world;
      EffectsOnFifos(w, uid, touid);
      world := Make(w, uid, touid);
      var fifoname := FifoName(uid, touid);
      assert PairAgrees(c, f, o, w.mail, uid, touid);
      if clidata[touid].uid != -1 && !OnDisk(fifos, fifoname) {
        var node := |fifos.contents|;
        fifos := fifos.(files := fifos.files[fifoname := node], contents := fifos.contents + [[]]);
        if OnDisk(fifos, fifoname) && clidata[touid].fifofd[uid] == -1 {
          var fd := FreeNumber();
          fifos := fifos.(open := fifos.open[fd := fifos.files[fifoname]]);
          clidata := clidata[touid := clidata[touid].(fifofd := clidata[touid].fifofd[uid := fd])];
          owner := owner[node := (uid, touid)];
          CreatedAgrees(c, f, o, w.mail, uid, touid, fd);
          SameUsersKeep(c, clidata, sockfd, allfds, w, world);
        }
        ok := true;
      }
    }

    /** `pipe_from_user`. */
    method PipeFromUser(uid: Id, fromuid: Id) returns (ok: bool)
      requires Valid()
      modifies this`fdReadout, this`world
      ensures Valid() && world == Look(old(world), fromuid, uid) && ok == ((fromuid, uid) in old(world).mail)
      ensures fdReadout == if ok then clidata[uid].fifofd[fromuid] else old(fdReadout)
    {
      hide OpenFifos;
      EffectsOnFifos(world, fromuid, uid);
      assert PairAgrees(clidata, fifos, owner, world.mail, fromuid, uid);
      world := Look(world, fromuid, uid);
      if clidata[uid].fifofd[fromuid] == -1 {
        ok := false;
      } else {
        fdReadout := clidata[uid].fifofd[fromuid];
        ok := true;
      }
    }

    /** `symbol_chk`; where it falls off its end, on `<N` with no such pipe, it counts as 0. */
    method SymbolChk(uid: Id, sym: Symbol) returns (flag: nat)
      requires Valid()
      modifies this`clidata, this`fifos, this`world, this`owner, this`fdReadout, this`filename, this`sbData
      ensures Valid()
      ensures match sym
              case NoSymbol =>
                flag == 0 && world == old(world) && filename == old(filename) && fdReadout == old(fdReadout)
              case FromUser(m) =>
                && world == Look(old(world), m, uid) && filename == old(filename)
                && (if (m, uid) in old(world).mail then flag == 1 && sbData == m && fdReadout == clidata[uid].fifofd[m]
                    else flag == 0 && fdReadout == old(fdReadout))
                && clidata == old(clidata)
              case ToUser(n) =>
                && flag == 2 && world == Make(old(world), uid, n) && fdReadout == old(fdReadout)
                && filename == (if CanMake(old(world), uid, n) then Some(FifoName(uid, n)) else old(filename))
              case ToFile(name) =>
                flag == 3 && world == old(world) && filename == Some(name) && fdReadout == old(fdReadout)
      ensures sym.NoSymbol? || sym.ToFile? ==> clidata == old(clidata)
      ensures forall i: Id, j: Id :: (i, j) in old(world).mail ==> clidata[j].fifofd[i] == old(clidata[j].fifofd[i])
    {
      hide PairAgrees, FilesOwned, Sockets, Matches, OpenFifos;
      match sym {
        case FromUser(m) =>
          var ok := PipeFromUser(uid, m);
          if ok {
            sbData := m;
            return 1;
          }
          return 0;
        case ToUser(n) =>
          var ok := PipeToUser(uid, n);
          if ok {
            filename := Some(FifoName(uid, n));
            sbData := n;
          }
          return 2;
        case ToFile(name) =>
          filename := Some(name);
          return 3;
        case NoSymbol =>
          return 0;
      }
    }

    /** Line 719 and what is written then: a FIFO of that name takes the bytes,
        otherwise a regular file is made or emptied and filled. */
    method WriteFile(name: string, data: Bytes, ghost uid: Id, ghost out: Target)
      requires Valid()
      requires match out
               case Screen => false
               case Pipe(to) => (uid, to) in world.mail && name == FifoName(uid, to)
               case File(n) => name == n
      modifies this`fifos, this`world
      ensures Valid() && world == Put(old(world), uid, out, Some(data))
    {
      hide OpenFifos, FilesOwned, Sockets, Matches, PairNamed, FifoName;
      ghost var w, f, o := world, fifos, owner;
      if out.Pipe? {
        assert PairAgrees(clidata, f, o, w.mail, uid, out.to);
        PairNamedIs(uid, out.to);
      }
      if name in fifos.files {
        var node := fifos.files[name];
        OwnerNamed(clidata, f, o, w.mail, name);
        WrittenAgrees(clidata, f, o, w.mail, o[node].0, o[node].1, data);
        fifos := fifos.(contents := fifos.contents[node := fifos.contents[node] + data]);
      } else {
        NotAFifo(clidata, f, o, w.mail, name);
        PlainAgrees(clidata, f, o, w.mail, f.plain[name := data]);
        fifos := fifos.(plain := fifos.plain[name := data]);
      }
      world := Put(w, uid, out, Some(data));
      PutOpensNone(w, uid, out, Some(data));
      PutKeeps(w, uid, out, Some(data));
      MatchesKept(clidata, w, world);
    }

    /** `execute_cmdline`, as far as files can tell: the line reads all that is in
        the FIFO on `fd_readout` and writes what it opens under `filename`. */
    method ExecuteCmdline(uid: Id, work: Work, ghost from: Option<Id>, ghost out: Target)
      requires Valid()
      requires if from.Some? then (from.value, uid) in world.mail && fdReadout == clidata[uid].fifofd[from.value]
               else fdReadout == -1
      requires match out
               case Screen => filename == None
               case Pipe(to) => (uid, to) in world.mail && filename == Some(FifoName(uid, to))
               case File(name) => filename == Some(name)
      modifies this`fifos, this`world
      ensures Valid() && clidata == old(clidata)
      ensures var w := if from.Some? then StartRead(old(world), from.value, uid) else old(world);
              var input := if from.Some? then Some(old(world).mail[(from.value, uid)]) else None;
              world == Put(w, uid, out, work(input))
    {
      hide OpenFifos, FilesOwned, Sockets, Matches, FifoName;
      if from.Some? {
        EffectsOnFifos(world, from.value, uid);
        assert PairAgrees(clidata, fifos, owner, world.mail, from.value, uid);
      }
      var input := None;
      if fdReadout != -1 {
        input := Some(fifos.contents[fifos.open[fdReadout]]);
      }
      ghost var w := world;
      world := if from.Some? then StartRead(w, from.value, uid) else w;
      MatchesKept(clidata, w, world);
      var result := work(input);
      if filename.Some? && result.Some? {
        WriteFile(filename.value, result.value, uid, out);
      }
    }

    /** The pipe a line has read is gone: its entry is cleared and its file removed. */
    method Consume(uid: Id, fromuid: Id)
      requires Valid() && (fromuid, uid) in world.mail
      modifies this`clidata, this`fifos, this`world
      ensures Valid() && world == Take(old(world), fromuid, uid)
    {
      hide OpenFifos, FilesOwned, FifoName;
      ghost var c, w := clidata, world;
      EffectsOnFifos(w, fromuid, uid);
      RemovedAgrees(c, fifos, owner, w.mail, fromuid, uid);
      clidata := clidata[uid := clidata[uid].(fifofd := clidata[uid].fifofd[fromuid := -1])];
      fifos := fifos.(files := fifos.files - {FifoName(fromuid, uid)});
      world := Take(w, fromuid, uid);
      SameUsersKeep(c, clidata, sockfd, allfds, w, world);
    }

    /** The branch `>N` of `recv_cli_cmd`. */
    method ServeSend(uid: Id, to: Id, sym: Symbol, work: Work)
      requires Valid()
      modifies this`clidata, this`fifos, this`world, this`owner, this`fdReadout, this`filename, this`sbData
      ensures Valid() && world == ExecSend(old(world), uid, to, sym, work)
    {
      hide PairAgrees, FilesOwned, Sockets, Matches, OpenFifos;
      fdReadout, filename := -1, None;
      var ok := PipeToUser(uid, to);
      if ok {
        var flag := SymbolChk(uid, sym);
        if flag > 1 {
          return;     // "Illegal Symbol"
        }
        filename := Some(FifoName(uid, to));
        ExecuteCmdline(uid, work, if flag == 1 then Some(sym.from) else None, Pipe(to));
        if flag == 1 {
          Consume(uid, sbData);
        }
      }
    }

    /** The branch `<N`. */
    method ServeRecv(uid: Id, from: Id, sym: Symbol, work: Work)
      requires Valid()
      modifies this`clidata, this`fifos, this`world, this`owner, this`fdReadout, this`filename, this`sbData
      ensures Valid() && world == ExecRecv(old(world), uid, from, sym, work)
    {
      hide PairAgrees, FilesOwned, Sockets, Matches, OpenFifos;
      fdReadout, filename := -1, None;
      var ok := PipeFromUser(uid, from);
      if ok {
        var flag := SymbolChk(uid, sym);
        if flag == 1 {
          return;     // "Illegal Symbol"
        }
        ExecuteCmdline(uid, work, Some(from),
                       if filename == None then Screen else if sym.ToUser? then Pipe(sym.to) else File(filename.value));
        Consume(uid, from);
      }
    }

    /** The branch `> file`, with a name, and the last branch, without. */
    method ServeOther(uid: Id, name: Option<string>, sym: Symbol, work: Work)
      requires Valid()
      modifies this`clidata, this`fifos, this`world, this`owner, this`fdReadout, this`filename, this`sbData
      ensures Valid() && world == ExecOther(old(world), uid, TargetOf(name), sym, work)
    {
      hide PairAgrees, FilesOwned, Sockets, Matches, OpenFifos;
      fdReadout, filename := -1, name;
      var flag := SymbolChk(uid, sym);
      if flag > 1 {
        return;       // "Illegal Symbol"
      }
      ExecuteCmdline(uid, work, if flag == 1 then Some(sym.from) else None, TargetOf(name));
      if flag == 1 {
        Consume(uid, sbData);
      }
    }

    /** `clean_cli`: close and remove every FIFO to this user, then forget the user. */
    method CleanCli(uid: Id)
      requires Valid() && uid in world.live
      modifies this`clidata, this`allfds, this`fifos, this`world
      ensures Valid() && world == Leave(old(world), uid)
      ensures allfds == old(allfds) - {old(clidata[uid].clifd)}
    {
      hide Server.Valid, DropAll, Drop;
      var i := 1;
      NoneDropped(world, uid);
      TableSize();
      while i < MAX_CLIENTS
        invariant 1 <= i <= 31 && Valid() && allfds == old(allfds)
        invariant |clidata| == MAX_CLIENTS && clidata[uid].clifd == old(clidata[uid].clifd)
        invariant world == DropAll(old(world), uid, i - 1)
      {
        DropFifo(uid, i);
        OneMoreDropped(old(world), uid, i);
        i := i + 1;
      }
      DropAllGone(old(world), uid, 30);
      FreeSlot(uid);
    }

    /** The end of `clean_cli`: the socket is closed and the slot made free. */
    method FreeSlot(uid: Id)
      requires Valid() && uid in world.live && forall k: Id :: (k, uid) !in world.mail
      modifies this`clidata, this`allfds, this`world
      ensures Valid() && world == Note(old(world).(live := old(world).live - {uid}), Gone(uid))
      ensures allfds == old(allfds) - {old(clidata[uid].clifd)}
    {
      hide Sockets, Matches, OpenFifos, FilesOwned, PairAgrees;
      ghost var w := world;
      OneMoreEvent(w, Gone(uid));
      world := Note(w.(live := w.live - {uid}), Gone(uid));
      LiveMatches(clidata, w, uid);
      LeaveKeeps(clidata, sockfd, allfds, fifos, owner, w, uid, world);
      allfds := allfds - {clidata[uid].clifd};
      clidata := clidata[uid := Cleared(clidata[uid])];
    }

    /** One round of the loop of `clean_cli`. */
    method DropFifo(uid: Id, i: Id)
      requires Valid()
      modifies this`clidata, this`fifos, this`world
      ensures Valid() && world == Drop(old(world), i, uid) && SameUsers(old(clidata), clidata)
      ensures |clidata| == MAX_CLIENTS == |old(clidata)| && clidata[uid].clifd == old(clidata[uid].clifd)
    {
      hide OpenFifos, FilesOwned, FifoName;
      ghost var c, w := clidata, world;
      EffectsOnFifos(w, i, uid);
      assert PairAgrees(c, fifos, owner, w.mail, i, uid);
      if clidata[uid].fifofd[i] != -1 {
        ClosedAgrees(c, fifos, owner, w.mail, i, uid);
        fifos := fifos.(open := fifos.open - {clidata[uid].fifofd[i]});
        clidata := clidata[uid := clidata[uid].(fifofd := clidata[uid].fifofd[i := -1])];
        var fifoname := FifoName(i, uid);
        if fifoname in fifos.files {
          fifos := fifos.(files := fifos.files - {fifoname});
        }
      }
      world := Drop(w, i, uid);
      SameUsersKeep(c, clidata, sockfd, allfds, w, world);
    }

    /** `client_init` on a newly accepted socket, while fewer than thirty users are
        logged in: the least free id. */
    method ClientInit(clifd: int) returns (uid: Id)
      requires Valid() && !Full(world.live) && clifd >= 0 && clifd !in allfds && clifd !in fifos.open
      modifies this`clidata, this`allfds, this`world
      ensures Valid() && uid == LeastFree(old(world).live, 1) && world == Enter(old(world), uid)
      ensures uid !in old(world).live && forall k: Id :: k < uid ==> k in old(world).live
      ensures allfds == old(allfds) + {clifd}
    {
      hide Agree, Sockets, OpenFifos, NameTaken;
      var i := 1;
      ghost var free: Id :| free !in world.live;
      while clidata[i].uid != -1
        invariant 1 <= i <= free && forall k: Id :: k < i ==> k in world.live
        decreases free - i
      {
        i := i + 1;
      }
      uid := i;
      LeastFreeFound(world.live, 1, uid);
      EnterKeeps(clidata, sockfd, allfds, fifos, owner, world, uid, clifd);
      allfds := allfds + {clifd};
      clidata := clidata[uid := clidata[uid].(clifd := clifd, uid := uid, name := "(no name)")];
      OneMoreEvent(world, Came(uid));
      world := Enter(world, uid);
    }

    /** `name`, with the cut to twenty characters of its caller. */
    method Name(uid: Id, name: string)
      requires Valid() && uid in world.live
      modifies this`clidata, this`world
      ensures Valid() && world == SetName(old(world), uid, name)
    {
      hide OpenFifos, FilesOwned;
      var newname := if |name| > 20 then name[..20] else name;
      var i, exist := 1, false;
      while i < MAX_CLIENTS
        invariant 1 <= i <= 31 && !exist
        invariant forall k: Id :: k < i ==> world.names[k] != newname
      {
        if newname == clidata[i].name {
          assert world.names[i] == newname && i in AllIds();
          exist := true;
          break;
        }
        i := i + 1;
      }
      if !exist {
        ghost var c := clidata;
        clidata := clidata[uid := clidata[uid].(name := newname)];
        world := world.(names := world.names[uid := newname]);
        RenameKeeps(c, sockfd, allfds, fifos, owner, world.mail, clidata);
      }
    }

    /** The lookup of `start_server`: every ready client socket has exactly one owner. */
    method FindUid(fd: int) returns (uid: Id)
      requires Valid() && fd in allfds && fd != sockfd
      ensures uid in world.live && clidata[uid].clifd == fd
      ensures forall k: Id :: k in world.live && clidata[k].clifd == fd ==> k == uid
    {
      ghost var owner: Id :| Live(clidata, owner) && clidata[owner].clifd == fd;
      var i := 1;
      while clidata[i].clifd != fd
        invariant 1 <= i <= owner
        decreases owner - i
      {
        i := i + 1;
      }
      uid := i;
    }

    method IsLive(u: Id) returns (live: bool)
      requires Valid()
      ensures live == (u in world.live)
    {
      live := clidata[u].uid != -1;
    }

    method HasRoom() returns (room: bool)
      requires Valid()
      ensures room == !Full(world.live)
    {
      var i := 1;
      room := false;
      while i < MAX_CLIENTS
        invariant 1 <= i <= 31 && !room && forall k: Id :: k < i ==> k in world.live
      {
        if clidata[i].uid == -1 {
          assert i in AllIds();
          return true;
        }
        i := i + 1;
      }
    }

    /** One line of a logged-in user. */
    method ServeUser(uid: Id, r: Request)
      requires Valid() && uid in world.live
      modifies this
      ensures Valid() && world == Step(old(world), OpOf(uid, r))
    {
      hide Slots, Sockets, Matches, Agree, Leave, SetName, ExecSend, ExecRecv, ExecOther;
      match r
      case Quit => CleanCli(uid);
      case NewName(name) => Name(uid, name);
      case Talk =>
      case Line(cmd, work) => ServeLine(uid, cmd, work);
    }

    method ServeLine(uid: Id, cmd: Command, work: Work)
      requires Valid()
      modifies this`clidata, this`fifos, this`world, this`owner, this`fdReadout, this`filename, this`sbData
      ensures Valid() && world == Execute(old(world), uid, cmd, work)
    {
      hide Slots, Sockets, Matches, Agree, ExecSend, ExecRecv, ExecOther;
      match cmd
      case SendTo(to, sym) => ServeSend(uid, to, sym, work);
      case RecvFrom(from, sym) => ServeRecv(uid, from, sym, work);
      case Redirect(name, sym) => ServeOther(uid, Some(name), sym, work);
      case Plain(sym) => ServeOther(uid, None, sym, work);
    }

    lemma TableSize()
      requires Valid()
      ensures |clidata| == MAX_CLIENTS
    {
    }

    lemma FifosCounted()
      requires Valid()
      ensures |fifos.open| == OpenFifos(world.hist)
    {
    }

    lemma SocketReady(u: Id)
      requires Valid() && u in world.live
      ensures |clidata| == MAX_CLIENTS && clidata[u].clifd in allfds && clidata[u].clifd != sockfd
    {
      assert Live(clidata, u);
    }

    /** One round of the event loop. New connections get a free number; a user who
        is not logged in has no socket to be ready; no thirty-first user connects. */
    method Handle(e: Arrival)
      requires Valid()
      modifies this
      ensures Valid() && world == Step(old(world), OpFor(e))
    {
      hide Slots, Sockets, Matches, Agree, Execute, Enter, Leave, SetName, Full;
      match e
      case Accepted =>
        var room := HasRoom();
        if room {
          var clifd := FreeNumber();
          var _ := ClientInit(clifd);
        }
      case Ready(u, r) =>
        var live := IsLive(u);
        if live {
          SocketReady(u);
          var _ := Serve(clidata[u].clifd, r);
        }
    }

    /** A ready client socket: its owner is found and one line is served. */
    method Serve(fd: int, r: Request) returns (uid: Id)
      requires Valid() && fd in allfds && fd != sockfd
      modifies this
      ensures Valid() && uid in old(world).live && old(clidata[uid].clifd) == fd
      ensures forall k: Id :: k in old(world).live && old(clidata[k].clifd) == fd ==> k == uid
      ensures world == Step(old(world), OpOf(uid, r))
    {
      hide *;
      uid := FindUid(fd);
      ServeUser(uid, r);
    }
  }

  /** A whole run of the server. */
  method RunServer(sockfd: int, events: seq<Arrival>) returns (s: Server)
    requires sockfd >= 3
    ensures s.Valid() && s.world == Run(OpsOf(events))
    ensures |s.fifos.open| == OpenFifos(Run(OpsOf(events)).hist)
  {
    hide *;
    s := new Server(sockfd);
    NoOpsYet(events);
    for n := 0 to |events|
      invariant fresh(s) && s.Valid() && s.world == Run(OpsOf(events[..n]))
    {
      OneMoreOp(events, n);
      s.Handle(events[n]);
    }
    assert events[..|events|] == events;
    s.FifosCounted();
  }

  /** What a run leaves in the directory, redirections of every name included: the
      FIFO files of exactly those pairs whose last creation was not followed by a
      destruction, each holding what waits in that pair's pipe, and no other; a
      regular file under a FIFO's name exactly when a redirection took that name;
      and how many FIFO descriptors are open. */
  method Directory(sockfd: int, events: seq<Arrival>) returns (fifos: Fifos)
    requires sockfd >= 3
    ensures |fifos.open| == OpenFifos(Run(OpsOf(events)).hist)
    ensures forall n :: n in fifos.files ==> exists i: Id, j: Id :: n == FifoName(i, j)
    ensures fifos.files.Keys !! fifos.plain.Keys
    ensures var w := Run(OpsOf(events));
            forall i: Id, j: Id ::
              && (FifoName(i, j) in fifos.files <==> exists s :: MadeAndNotEnded(w.hist, s, i, j))
              && (FifoName(i, j) in fifos.plain <==> PipeAfter(w.hist, i, j).Occupied?)
              && (FifoName(i, j) in fifos.files ==>
                    && j in w.live && fifos.files[FifoName(i, j)] < |fifos.contents|
                    && PipeAfter(w.hist, i, j) == Waiting(fifos.contents[fifos.files[FifoName(i, j)]]))
  {
    hide Run, PipeAfter, Lawful, MadeAndNotEnded, Matches, Sockets;
    var s := RunServer(sockfd, events);
    fifos := s.fifos;
    forall i: Id, j: Id
      ensures FifoName(i, j) in fifos.files <==> (i, j) in s.world.mail
      ensures (i, j) in s.world.mail <==> exists t :: MadeAndNotEnded(s.world.hist, t, i, j)
      ensures PipeAfter(s.world.hist, i, j) == PipeOf(s.world, None, i, j)
      ensures (i, j) in s.world.mail ==>
                && j in s.world.live && fifos.files[FifoName(i, j)] < |fifos.contents|
                && fifos.contents[fifos.files[FifoName(i, j)]] == s.world.mail[(i, j)]
    {
      assert PairAgrees(s.clidata, s.fifos, s.owner, s.world.mail, i, j);
      RunLawful(OpsOf(events), i, j);
      ExistsIffLastIsCreation(s.world.hist, i, j);
    }
  }

  lemma NoneDropped(w: World, u: Id)
    ensures DropAll(w, u, 0) == w
  {
  }

  lemma OneMoreDropped(w: World, u: Id, n: Id)
    ensures DropAll(w, u, n) == Drop(DropAll(w, u, n - 1), n, u)
  {
  }

  lemma NoOpsYet(events: seq<Arrival>)
    ensures Run(OpsOf(events[..0])) == Opening
  {
    assert events[..0] == [];
  }

  lemma OneMoreOp(events: seq<Arrival>, n: nat)
    requires n < |events|
    ensures Run(OpsOf(events[..n + 1])) ==
            Step(Run(OpsOf(events[..n])), OpFor(events[n]))
  {
    assert events[..n + 1][..n] == events[..n];
    var ops := OpsOf(events[..n + 1]);
    assert ops[..|ops| - 1] == OpsOf(events[..n]);
  }

  lemma LiveMatches(c: seq<Client>, w: World, i: Id)
    requires Slots(c) && Matches(c, w)
    ensures i in w.live <==> Live(c, i)
  {
  }

  lemma RenameKeeps(c: seq<Client>, sockfd: int, allfds: set<int>, f: Fifos, o: Owners,
                    mail: map<(Id, Id), Bytes>, c': seq<Client>)
    requires Slots(c) && Sockets(c, sockfd, allfds) && Agree(c, f, o, mail)
    requires |c'| == MAX_CLIENTS
    requires forall i: Id :: c'[i].clifd == c[i].clifd && c'[i].uid == c[i].uid && c'[i].fifofd == c[i].fifofd
    ensures Slots(c') && Sockets(c', sockfd, allfds) && Agree(c', f, o, mail)
  {
    forall a: Id, b: Id ensures PairAgrees(c', f, o, mail, a, b) {
      assert PairAgrees(c, f, o, mail, a, b);
    }
    forall g | g in allfds && g != sockfd ensures exists i: Id :: Live(c', i) && c'[i].clifd == g {
      var i: Id :| Live(c, i) && c[i].clifd == g;
      assert Live(c', i);
    }
  }
}
