/**
 What the user pipes of the chat server are for (Project2/select), with no
 descriptors: who is logged in, one parcel per ordered pair of users, the regular
 files of the directory in which the FIFOs live, and the history of everything
 that happened to the pipes.
 */
module UserPipes {
  import opened Common
  import opened Text

  const MAX_CLIENTS := 31

  type Id = x: nat | 1 <= x < 31 witness 1

  /** What a line writes at its end, given what it reads from a user pipe (None:
      nothing). The result is None when the line is given up before its last command. */
  type Work = Option<Bytes> -> Option<Bytes>

  /** The last word of a line's first command, as `symbol_chk` sees it. */
  datatype Symbol = NoSymbol | FromUser(from: Id) | ToUser(to: Id) | ToFile(name: string)

  /** The four branches of `recv_cli_cmd` that can touch a user pipe: `... >N`,
      `... <N`, `... > file` and every other line that is executed. */
  datatype Command =
    | SendTo(to: Id, sym: Symbol)
    | RecvFrom(from: Id, sym: Symbol)
    | Redirect(name: string, sym: Symbol)
    | Plain(sym: Symbol)

  datatype Op =
    | Login
    | Exit(u: Id)
    | Rename(u: Id, name: string)
    | Chat(u: Id)                    // who, yell, tell, setenv, printenv
    | Exec(u: Id, cmd: Command, work: Work)

  /** One entry of the history. The last three are the error replies. */
  datatype Event =
    | Came(j: Id)
    | Gone(j: Id)
    | Made(i: Id, j: Id)
    | Filled(i: Id, j: Id, data: Bytes)
    | Poured(u: Id, i: Id, j: Id, data: Bytes)   // user u redirected output to the FIFO's name
    | Planted(u: Id, i: Id, j: Id)   // the same, when there was no such file: now there is a regular one
    | Read(i: Id, j: Id, data: Bytes)
    | Taken(i: Id, j: Id)
    | Dropped(i: Id, j: Id)
    | Missing(i: Id, j: Id)          // "the pipe #i->#j does not exist yet"
    | Exists(i: Id, j: Id)           // "the pipe #i->#j already exists"
    | Nobody(i: Id, j: Id)           // "user #j does not exist yet"

  datatype World = World(live: set<Id>, names: map<Id, string>, mail: map<(Id, Id), Bytes>,
                         plain: map<string, Bytes>, hist: seq<Event>)

  predicate IsId(i: Id) { true }

  function AllIds(): (s: set<Id>)
    ensures forall i: Id :: i in s
  {
    set i: Id {:trigger IsId(i)} | IsId(i) && 1 <= i < 31
  }

  const Opening := World({}, map i: Id | i in AllIds() :: "", map[], map[], [])

  // ---------- single effects ----------

  function Note(w: World, e: Event): World { w.(hist := w.hist + [e]) }

  /** pipe_to_user: user i opens a pipe to user j. */
  function Make(w: World, i: Id, j: Id): World {
    if j !in w.live then Note(w, Nobody(i, j))
    else if NameTaken(w, i, j) then Note(w, Exists(i, j))
    else Note(w.(mail := w.mail[(i, j) := []]), Made(i, j))
  }

  /** mknod finds a file of that name, whatever it is. */
  predicate NameTaken(w: World, i: Id, j: Id) { (i, j) in w.mail || FifoName(i, j) in w.plain }

  predicate CanMake(w: World, i: Id, j: Id) { j in w.live && !NameTaken(w, i, j) }

  /** The pair of users whose FIFO has this name. */
  ghost function PairNamed(name: string): (p: Option<(Id, Id)>)
    ensures p.Some? ==> FifoName(p.value.0, p.value.1) == name
  {
    if pair: (Id, Id) :| FifoName(pair.0, pair.1) == name then Some(pair) else None
  }

  lemma PairNamedIs(i: Id, j: Id)
    ensures PairNamed(FifoName(i, j)) == Some((i, j))
  {
    var pair: (Id, Id) := (i, j);
    assert FifoName(pair.0, pair.1) == FifoName(i, j);
    var p := PairNamed(FifoName(i, j)).value;
    FifoNameInjective(p.0, p.1, i, j);
  }

  /** User u redirects output to a file: open(2) with O_CREAT and O_TRUNC, which
      opens a FIFO of that name if there is one, and otherwise makes or empties a
      regular file. */
  ghost function Pour(w: World, u: Id, name: string, data: Bytes): World {
    match PairNamed(name)
    case Some((i, j)) =>
      if (i, j) in w.mail then
        Note(w.(mail := w.mail[(i, j) := w.mail[(i, j)] + data]), Poured(u, i, j, data))
      else if name in w.plain then w.(plain := w.plain[name := data])
      else Note(w.(plain := w.plain[name := data]), Planted(u, i, j))
    case None => w.(plain := w.plain[name := data])
  }

  /** pipe_from_user: user j looks for the pipe from user i. */
  function Look(w: World, i: Id, j: Id): World {
    if (i, j) in w.mail then w else Note(w, Missing(i, j))
  }

  /** The line's output reaches the pipe. */
  function Fill(w: World, i: Id, j: Id, data: Bytes): World {
    if (i, j) in w.mail then Note(w.(mail := w.mail[(i, j) := w.mail[(i, j)] + data]), Filled(i, j, data)) else w
  }

  function StartRead(w: World, i: Id, j: Id): World {
    if (i, j) in w.mail then Note(w, Read(i, j, w.mail[(i, j)])) else w
  }

  /** The pipe has been read: it is destroyed. */
  function Take(w: World, i: Id, j: Id): World {
    if (i, j) in w.mail then Note(w.(mail := w.mail - {(i, j)}), Taken(i, j)) else w
  }

  function Drop(w: World, i: Id, j: Id): World {
    if (i, j) in w.mail then Note(w.(mail := w.mail - {(i, j)}), Dropped(i, j)) else w
  }

  /** Everything still waiting for user j, from users 1..n, is destroyed. */
  function DropAll(w: World, j: Id, n: nat): World
    requires n <= 30
  {
    if n == 0 then w else Drop(DropAll(w, j, n - 1), n, j)
  }

  // ---------- one operation ----------

  function LeastFree(live: set<Id>, from: Id): Id
    decreases 31 - from
  {
    if from !in live || from == 30 then from else LeastFree(live, from + 1)
  }

  predicate Full(live: set<Id>) { forall i: Id | i in AllIds() :: i in live }

  function Enter(w: World, u: Id): World {
    Note(w.(live := w.live + {u}, names := w.names[u := "(no name)"]), Came(u))
  }

  function Leave(w: World, u: Id): World {
    var w1 := DropAll(w, u, 30);
    Note(w1.(live := w1.live - {u}), Gone(u))
  }

  function Cut(name: string): string { if |name| > 20 then name[..20] else name }

  /** Refused when any of the thirty slots, free ones too, carries the name. */
  predicate NameUsed(w: World, name: string) {
    exists i: Id | i in AllIds() :: i in w.names && w.names[i] == name
  }

  function SetName(w: World, u: Id, name: string): World {
    if NameUsed(w, Cut(name)) then w else w.(names := w.names[u := Cut(name)])
  }

  /** Where the output of a line's last command goes. */
  datatype Target = Screen | Pipe(to: Id) | File(name: string)

  ghost function Put(w: World, u: Id, out: Target, result: Option<Bytes>): World {
    match out
    case Screen => w
    case Pipe(n) => if result.Some? then Fill(w, u, n, result.value) else w
    case File(name) => if result.Some? then Pour(w, u, name, result.value) else w
  }

  /** The line runs, reading the pipe `from` and writing to `out`; then the pipe it
      read is destroyed. */
  ghost function Deliver(w: World, u: Id, from: Option<Id>, out: Target, work: Work): World {
    var input := if from.Some? && (from.value, u) in w.mail then Some(w.mail[(from.value, u)]) else None;
    var w1 := if from.Some? then StartRead(w, from.value, u) else w;
    var w2 := Put(w1, u, out, work(input));
    if from.Some? then Take(w2, from.value, u) else w2
  }

  /** A line that is executed and has no user pipe at its end. */
  ghost function ExecOther(w: World, u: Id, out: Target, sym: Symbol, work: Work): World {
    match sym
    case NoSymbol => Deliver(w, u, None, out, work)
    case FromUser(m) =>
      if (m, u) in w.mail then Deliver(w, u, Some(m), out, work) else Deliver(Look(w, m, u), u, None, out, work)
    case ToUser(n) => Make(w, u, n)          // "Illegal Symbol", but the pipe was made
    case ToFile(_) => w                      // "Illegal Symbol"
  }

  ghost function ExecSend(w: World, u: Id, n: Id, sym: Symbol, work: Work): World {
    var w1 := Make(w, u, n);
    if !CanMake(w, u, n) then w1
    else
      match sym
      case NoSymbol => Deliver(w1, u, None, Pipe(n), work)
      case FromUser(m) =>
        if (m, u) in w1.mail then Deliver(w1, u, Some(m), Pipe(n), work)
        else Deliver(Look(w1, m, u), u, None, Pipe(n), work)
      case ToUser(n2) => Make(w1, u, n2)     // "Illegal Symbol", with both pipes made
      case ToFile(_) => w1                   // "Illegal Symbol", with the pipe made
  }

  ghost function ExecRecv(w: World, u: Id, m: Id, sym: Symbol, work: Work): World {
    if (m, u) !in w.mail then Look(w, m, u)
    else
      match sym
      case NoSymbol => Deliver(w, u, Some(m), Screen, work)
      case FromUser(m2) =>
        if (m2, u) in w.mail then w          // "Illegal Symbol"
        else Deliver(Look(w, m2, u), u, Some(m), Screen, work)
      case ToUser(n) => Deliver(Make(w, u, n), u, Some(m), if CanMake(w, u, n) then Pipe(n) else Screen, work)
      case ToFile(name) => Deliver(w, u, Some(m), File(name), work)
  }

  ghost function Execute(w: World, u: Id, cmd: Command, work: Work): World {
    match cmd
    case SendTo(n, sym) => ExecSend(w, u, n, sym, work)
    case RecvFrom(m, sym) => ExecRecv(w, u, m, sym, work)
    case Redirect(name, sym) => ExecOther(w, u, File(name), sym, work)
    case Plain(sym) => ExecOther(w, u, Screen, sym, work)
  }

  /** One client event. A logged-out user sends nothing; a thirty-first user is not expected. */
  ghost function Step(w: World, op: Op): World {
    match op
    case Login => if Full(w.live) then w else Enter(w, LeastFree(w.live, 1))
    case Exit(u) => if u in w.live then Leave(w, u) else w
    case Rename(u, name) => if u in w.live then SetName(w, u, name) else w
    case Chat(_) => w
    case Exec(u, cmd, work) => if u in w.live then Execute(w, u, cmd, work) else w
  }

  ghost function Run(ops: seq<Op>): World {
    if ops == [] then Opening else Step(Run(ops[..|ops| - 1]), ops[|ops| - 1])
  }

  // ---------- the life of one pipe ----------

  /** The state of pipe i->j, or of its name when a regular file has it. */
  datatype Pipe = Absent | Waiting(data: Bytes) | BeingRead(data: Bytes) | Occupied

  predicate Lives(pipe: Pipe) { pipe.Waiting? || pipe.BeingRead? }

  /** Creation and destruction alternate; what is read is exactly what was written
      since the creation, once; the error replies tell the truth; nobody comes or
      goes as j while the pipe exists. */
  predicate Allowed(pipe: Pipe, e: Event, i: Id, j: Id) {
    match e
    case Made(a, b) => a == i && b == j ==> pipe.Absent?
    case Filled(a, b, _) => a == i && b == j ==> Lives(pipe)
    case Poured(_, a, b, _) => a == i && b == j ==> Lives(pipe)
    case Planted(_, a, b) => a == i && b == j ==> pipe.Absent?
    case Read(a, b, data) => a == i && b == j ==> pipe == Waiting(data)
    case Taken(a, b) => a == i && b == j ==> pipe.BeingRead?
    case Dropped(a, b) => a == i && b == j ==> pipe.Waiting?
    case Missing(a, b) => a == i && b == j ==> !Lives(pipe)
    case Exists(a, b) => a == i && b == j ==> !pipe.Absent?
    case Nobody(a, b) => a == i && b == j ==> !Lives(pipe)
    case Came(b) => b == j ==> !Lives(pipe)
    case Gone(b) => b == j ==> !Lives(pipe)
  }

  function Next(pipe: Pipe, e: Event, i: Id, j: Id): Pipe {
    match e
    case Made(a, b) => if a == i && b == j then Waiting([]) else pipe
    case Filled(a, b, data) => if a == i && b == j && Lives(pipe) then pipe.(data := pipe.data + data) else pipe
    case Poured(_, a, b, data) => if a == i && b == j && Lives(pipe) then pipe.(data := pipe.data + data) else pipe
    case Planted(_, a, b) => if a == i && b == j && pipe.Absent? then Occupied else pipe
    case Read(a, b, _) => if a == i && b == j && Lives(pipe) then BeingRead(pipe.data) else pipe
    case Taken(a, b) => if a == i && b == j && Lives(pipe) then Absent else pipe
    case Dropped(a, b) => if a == i && b == j && Lives(pipe) then Absent else pipe
    case _ => pipe
  }

  /** The state of pipe i->j after a history. */
  function PipeAfter(hist: seq<Event>, i: Id, j: Id): Pipe {
    if hist == [] then Absent
    else Next(PipeAfter(hist[..|hist| - 1], i, j), hist[|hist| - 1], i, j)
  }

  /** Every event of the history was allowed when it happened. */
  ghost predicate Lawful(hist: seq<Event>, i: Id, j: Id) {
    forall t :: 0 <= t < |hist| ==> Allowed(PipeAfter(hist[..t], i, j), hist[t], i, j)
  }

  function PipeOf(w: World, reading: Option<(Id, Id)>, i: Id, j: Id): Pipe {
    if (i, j) !in w.mail then (if FifoName(i, j) in w.plain then Occupied else Absent)
    else if reading == Some((i, j)) then BeingRead(w.mail[(i, j)])
    else Waiting(w.mail[(i, j)])
  }

  ghost predicate PipesAgree(w: World, reading: Option<(Id, Id)>) {
    forall i: Id, j: Id :: Lawful(w.hist, i, j) && PipeAfter(w.hist, i, j) == PipeOf(w, reading, i, j)
  }

  ghost predicate Named(w: World) {
    && (forall i: Id :: i in w.names)
    && (forall i: Id, j: Id :: i in w.live && j in w.live && i != j && w.names[i] == w.names[j] ==>
          w.names[i] == "(no name)")
  }

  ghost predicate Consistent(w: World) {
    && PipesAgree(w, None) && Named(w)
    && (forall i: Id, j: Id :: (i, j) in w.mail ==> j in w.live && FifoName(i, j) !in w.plain)
  }

  lemma OneMore(hist: seq<Event>, e: Event, i: Id, j: Id)
    requires Lawful(hist, i, j) && Allowed(PipeAfter(hist, i, j), e, i, j)
    ensures Lawful(hist + [e], i, j)
    ensures PipeAfter(hist + [e], i, j) == Next(PipeAfter(hist, i, j), e, i, j)
  {
    var h := hist + [e];
    assert h[..|h| - 1] == hist;
    forall t | 0 <= t < |h| ensures Allowed(PipeAfter(h[..t], i, j), h[t], i, j) {
      assert t < |hist| ==> h[..t] == hist[..t];
    }
  }

  /** A change of the mail is right when it is what one allowed event does to every pipe. */
  lemma NoteAgrees(w: World, reading: Option<(Id, Id)>, w': World, reading': Option<(Id, Id)>, e: Event)
    requires PipesAgree(w, reading) && w'.hist == w.hist + [e]
    requires forall i: Id, j: Id ::
               && Allowed(PipeOf(w, reading, i, j), e, i, j)
               && Next(PipeOf(w, reading, i, j), e, i, j) == PipeOf(w', reading', i, j)
    ensures PipesAgree(w', reading')
  {
    forall i: Id, j: Id
      ensures Lawful(w'.hist, i, j) && PipeAfter(w'.hist, i, j) == PipeOf(w', reading', i, j)
    {
      assert PipeAfter(w.hist, i, j) == PipeOf(w, reading, i, j);
      OneMore(w.hist, e, i, j);
    }
  }

  lemma MakeConsistent(w: World, i: Id, j: Id)
    requires Consistent(w)
    ensures Consistent(Make(w, i, j))
  {
    hide Lawful, PipeAfter, FifoName;
    var w' := Make(w, i, j);
    NoteAgrees(w, None, w', None, w'.hist[|w.hist|]);
  }

  lemma LookConsistent(w: World, i: Id, j: Id)
    requires Consistent(w)
    ensures Consistent(Look(w, i, j))
  {
    hide Lawful, PipeAfter;
    if (i, j) !in w.mail {
      NoteAgrees(w, None, Look(w, i, j), None, Missing(i, j));
    }
  }

  lemma DropConsistent(w: World, i: Id, j: Id)
    requires Consistent(w)
    ensures Consistent(Drop(w, i, j))
  {
    hide Lawful, PipeAfter;
    if (i, j) in w.mail {
      NoteAgrees(w, None, Drop(w, i, j), None, Dropped(i, j));
    }
  }

  lemma {:induction false} DropAllConsistent(w: World, j: Id, n: nat)
    requires Consistent(w) && n <= 30
    ensures Consistent(DropAll(w, j, n))
    ensures DropAll(w, j, n).live == w.live && DropAll(w, j, n).names == w.names
    ensures forall i: Id, b: Id :: (i, b) in DropAll(w, j, n).mail <==> (i, b) in w.mail && !(b == j && i <= n)
  {
    hide Consistent;
    if n != 0 {
      DropAllConsistent(w, j, n - 1);
      DropConsistent(DropAll(w, j, n - 1), n, j);
    }
  }

  lemma {:induction false} DropAllGone(w: World, j: Id, n: nat)
    requires n <= 30
    ensures DropAll(w, j, n).live == w.live && DropAll(w, j, n).names == w.names
    ensures forall i: Id :: i <= n ==> (i, j) !in DropAll(w, j, n).mail
  {
    if n != 0 {
      DropAllGone(w, j, n - 1);
    }
  }

  lemma LeaveConsistent(w: World, u: Id)
    requires Consistent(w)
    ensures Consistent(Leave(w, u))
  {
    hide Lawful, PipeAfter;
    DropAllConsistent(w, u, 30);
    var w1 := DropAll(w, u, 30);
    NoteAgrees(w1, None, Leave(w, u), None, Gone(u));
  }

  lemma EnterConsistent(w: World, u: Id)
    requires Consistent(w) && u !in w.live
    ensures Consistent(Enter(w, u))
  {
    hide Lawful, PipeAfter;
    NoteAgrees(w, None, Enter(w, u), None, Came(u));
  }

  /** Writing, to a user pipe or to a file of whatever name, is right at any moment. */
  lemma PutAgrees(w: World, reading: Option<(Id, Id)>, u: Id, out: Target, result: Option<Bytes>)
    requires PipesAgree(w, reading) && forall i: Id, j: Id :: (i, j) in w.mail ==> FifoName(i, j) !in w.plain
    ensures PipesAgree(Put(w, u, out, result), reading)
    ensures Put(w, u, out, result).mail.Keys == w.mail.Keys
    ensures forall i: Id, j: Id :: (i, j) in w.mail ==> FifoName(i, j) !in Put(w, u, out, result).plain
  {
    hide Lawful, PipeAfter;
    if result.Some? {
      match out
      case Screen =>
      case Pipe(n) =>
        if (u, n) in w.mail {
          NoteAgrees(w, reading, Fill(w, u, n, result.value), reading, Filled(u, n, result.value));
        }
      case File(name) => PourAgrees(w, reading, u, name, result.value);
    }
  }

  lemma PourAgrees(w: World, reading: Option<(Id, Id)>, u: Id, name: string, data: Bytes)
    requires PipesAgree(w, reading) && forall i: Id, j: Id :: (i, j) in w.mail ==> FifoName(i, j) !in w.plain
    ensures PipesAgree(Pour(w, u, name, data), reading)
    ensures Pour(w, u, name, data).mail.Keys == w.mail.Keys
    ensures forall i: Id, j: Id :: (i, j) in w.mail ==> FifoName(i, j) !in Pour(w, u, name, data).plain
  {
    hide Lawful, PipeAfter, PairNamed, FifoName;
    var w' := Pour(w, u, name, data);
    forall i: Id, j: Id ensures FifoName(i, j) == name ==> PairNamed(name) == Some((i, j)) {
      if FifoName(i, j) == name {
        PairNamedIs(i, j);
      }
    }
    match PairNamed(name)
    case None => SameNames(w, w', reading);
    case Some((i, j)) =>
      if (i, j) in w.mail {
        NoteAgrees(w, reading, w', reading, Poured(u, i, j, data));
      } else if name in w.plain {
        SameNames(w, w', reading);
      } else {
        NoteAgrees(w, reading, w', reading, Planted(u, i, j));
      }
  }

  lemma SameNames(w: World, w': World, reading: Option<(Id, Id)>)
    requires PipesAgree(w, reading) && w'.hist == w.hist && w'.mail == w.mail
    requires forall i: Id, j: Id :: FifoName(i, j) in w'.plain <==> FifoName(i, j) in w.plain
    ensures PipesAgree(w', reading)
  {
    hide Lawful, PipeAfter;
    forall i: Id, j: Id
      ensures Lawful(w'.hist, i, j) && PipeAfter(w'.hist, i, j) == PipeOf(w', reading, i, j)
    {
      assert PipeAfter(w.hist, i, j) == PipeOf(w, reading, i, j);
    }
  }

  lemma PutKeeps(w: World, u: Id, out: Target, result: Option<Bytes>)
    ensures Put(w, u, out, result).live == w.live && Put(w, u, out, result).names == w.names
  {
  }

  lemma DeliverConsistent(w: World, u: Id, from: Option<Id>, out: Target, work: Work)
    requires Consistent(w)
    ensures Consistent(Deliver(w, u, from, out, work))
  {
    hide Lawful, PipeAfter, Put, FifoName;
    var reading := if from.Some? && (from.value, u) in w.mail then Some((from.value, u)) else None;
    var input := if reading.Some? then Some(w.mail[reading.value]) else None;
    var w1 := if from.Some? then StartRead(w, from.value, u) else w;
    if reading.Some? {
      NoteAgrees(w, None, w1, reading, Read(from.value, u, input.value));
    }
    var w2 := Put(w1, u, out, work(input));
    PutAgrees(w1, reading, u, out, work(input));
    PutKeeps(w1, u, out, work(input));
    if reading.Some? {
      NoteAgrees(w2, reading, Take(w2, from.value, u), None, Taken(from.value, u));
    }
  }

  lemma ExecuteConsistent(w: World, u: Id, cmd: Command, work: Work)
    requires Consistent(w)
    ensures Consistent(Execute(w, u, cmd, work))
  {
    hide Consistent, Make, Look, Deliver;
    forall v: World, i: Id, j: Id | Consistent(v) ensures Consistent(Make(v, i, j)) {
      MakeConsistent(v, i, j);
    }
    forall v: World, i: Id, j: Id | Consistent(v) ensures Consistent(Look(v, i, j)) {
      LookConsistent(v, i, j);
    }
    forall v: World, from: Option<Id>, out: Target | Consistent(v)
      ensures Consistent(Deliver(v, u, from, out, work))
    {
      DeliverConsistent(v, u, from, out, work);
    }
  }

  lemma {:induction false} LeastFreeIsLeast(live: set<Id>, from: Id)
    requires exists i: Id :: i >= from && i !in live
    ensures LeastFree(live, from) !in live && LeastFree(live, from) >= from
    ensures forall i: Id :: from <= i < LeastFree(live, from) ==> i in live
    decreases 31 - from
  {
    if from in live && from != 30 {
      LeastFreeIsLeast(live, from + 1);
    }
  }

  lemma StepConsistent(w: World, op: Op)
    requires Consistent(w)
    ensures Consistent(Step(w, op))
  {
    hide PipesAgree;
    match op
    case Login =>
      if !Full(w.live) {
        LeastFreeIsLeast(w.live, 1);
        EnterConsistent(w, LeastFree(w.live, 1));
      }
    case Exit(u) => LeaveConsistent(w, u);
    case Rename(u, name) => RenameConsistent(w, u, name);
    case Chat(_) =>
    case Exec(u, cmd, work) => ExecuteConsistent(w, u, cmd, work);
  }

  lemma RenameConsistent(w: World, u: Id, name: string)
    requires Consistent(w)
    ensures Consistent(SetName(w, u, name))
  {
    hide Lawful, PipeAfter;
    assert PipesAgree(SetName(w, u, name), None) by {
      forall i: Id, j: Id
        ensures PipeOf(SetName(w, u, name), None, i, j) == PipeOf(w, None, i, j)
      {
      }
    }
  }

  /** Every run: the pipes, the history and the names always agree. */
  lemma {:induction false} RunConsistent(ops: seq<Op>)
    ensures Consistent(Run(ops))
  {
    if ops == [] {
      assert PipesAgree(Opening, None);
    } else {
      RunConsistent(ops[..|ops| - 1]);
      StepConsistent(Run(ops[..|ops| - 1]), ops[|ops| - 1]);
    }
  }

  // ---------- what the laws mean on a whole history ----------

  /** An event that starts or ends a pipe i->j, reads it, or changes who user j is. */
  predicate Turns(e: Event, i: Id, j: Id) {
    match e
    case Made(a, b) => a == i && b == j
    case Read(a, b, _) => a == i && b == j
    case Taken(a, b) => a == i && b == j
    case Dropped(a, b) => a == i && b == j
    case Came(b) => b == j
    case Gone(b) => b == j
    case _ => false
  }

  /** What was written to pipe i->j, by lines of i or by redirections, by the
      events from `from` up to `to`. */
  function Written(hist: seq<Event>, from: nat, to: nat, i: Id, j: Id): Bytes
    requires from <= to <= |hist|
  {
    if from == to then []
    else
      Written(hist, from, to - 1, i, j) +
      match hist[to - 1]
      case Filled(a, b, data) => if a == i && b == j then data else []
      case Poured(_, a, b, data) => if a == i && b == j then data else []
      case _ => []
  }

  ghost predicate BornAt(hist: seq<Event>, s: nat, t: nat, i: Id, j: Id, data: Bytes) {
    && s < t <= |hist| && hist[s] == Made(i, j)
    && (forall k :: s < k < t ==> !Turns(hist[k], i, j))
    && data == Written(hist, s + 1, t, i, j)
  }

  lemma {:induction false} WaitingHasOrigin(hist: seq<Event>, t: nat, i: Id, j: Id)
    requires Lawful(hist, i, j) && t <= |hist| && PipeAfter(hist[..t], i, j).Waiting?
    ensures exists s :: BornAt(hist, s, t, i, j, PipeAfter(hist[..t], i, j).data)
  {
    if t != 0 {
      assert hist[..t][..t - 1] == hist[..t - 1];
      var before := PipeAfter(hist[..t - 1], i, j);
      assert Allowed(before, hist[t - 1], i, j);
      if hist[t - 1] == Made(i, j) {
        assert BornAt(hist, t - 1, t, i, j, []);
      } else {
        assert before.Waiting? && !Turns(hist[t - 1], i, j);
        WaitingHasOrigin(hist, t - 1, i, j);
        var s :| BornAt(hist, s, t - 1, i, j, before.data);
        StillBorn(hist, s, t, i, j, before.data);
      }
    }
  }

  lemma StillBorn(hist: seq<Event>, s: nat, t: nat, i: Id, j: Id, data: Bytes)
    requires 0 < t <= |hist| && BornAt(hist, s, t - 1, i, j, data) && !Turns(hist[t - 1], i, j)
    ensures BornAt(hist, s, t, i, j, Next(Waiting(data), hist[t - 1], i, j).data)
  {
    assert data + [] == data;
  }

  /** Exactly once, in every run: what user j reads from user i is exactly what was
      written to one pipe made earlier, which nobody read before; and since it was
      made, no user j came or left: a later holder of id j reads nothing that was
      sent to an earlier one. */
  lemma ReadExactlyOnce(ops: seq<Op>, t: nat, i: Id, j: Id, data: Bytes)
    requires t < |Run(ops).hist| && Run(ops).hist[t] == Read(i, j, data)
    ensures exists s :: BornAt(Run(ops).hist, s, t, i, j, data)
  {
    hide *;
    RunLawful(ops, i, j);
    ReadHasOrigin(Run(ops).hist, t, i, j, data);
  }

  lemma ReadHasOrigin(hist: seq<Event>, t: nat, i: Id, j: Id, data: Bytes)
    requires Lawful(hist, i, j) && t < |hist| && hist[t] == Read(i, j, data)
    ensures exists s :: BornAt(hist, s, t, i, j, data)
  {
    assert Allowed(PipeAfter(hist[..t], i, j), hist[t], i, j);
    WaitingHasOrigin(hist, t, i, j);
  }

  /** Every run: at every moment every pipe did only what its state allowed. */
  lemma RunLawful(ops: seq<Op>, i: Id, j: Id)
    ensures Lawful(Run(ops).hist, i, j)
    ensures PipeAfter(Run(ops).hist, i, j) == PipeOf(Run(ops), None, i, j)
    ensures Lives(PipeAfter(Run(ops).hist, i, j)) ==> j in Run(ops).live
  {
    hide Run, Lawful, PipeAfter;
    RunConsistent(ops);
  }

  predicate Ends(e: Event, i: Id, j: Id) { e == Taken(i, j) || e == Dropped(i, j) }

  ghost predicate MadeAndNotEnded(hist: seq<Event>, s: nat, i: Id, j: Id) {
    s < |hist| && hist[s] == Made(i, j) && forall k :: s < k < |hist| ==> !Ends(hist[k], i, j)
  }

  /** A pipe exists exactly when its last creation has not been followed by a destruction. */
  lemma {:induction false} ExistsIffLastIsCreation(hist: seq<Event>, i: Id, j: Id)
    ensures Lives(PipeAfter(hist, i, j)) <==> exists s :: MadeAndNotEnded(hist, s, i, j)
  {
    if hist != [] {
      var front, last := hist[..|hist| - 1], hist[|hist| - 1];
      ExistsIffLastIsCreation(front, i, j);
      if last == Made(i, j) {
        assert MadeAndNotEnded(hist, |hist| - 1, i, j);
      } else if !Ends(last, i, j) {
        forall s ensures MadeAndNotEnded(hist, s, i, j) <==> MadeAndNotEnded(front, s, i, j) {
        }
      } else {
        assert Ends(hist[|hist| - 1], i, j);
      }
    }
  }

  /** `<i` typed by j finds a pipe in a reachable state exactly when the last
      creation of i->j has not been followed by its destruction. */
  lemma LookSucceedsIff(ops: seq<Op>, i: Id, j: Id)
    ensures Look(Run(ops), i, j) == Run(ops) <==> exists s :: MadeAndNotEnded(Run(ops).hist, s, i, j)
  {
    RunConsistent(ops);
    ExistsIffLastIsCreation(Run(ops).hist, i, j);
    assert PipeAfter(Run(ops).hist, i, j) == PipeOf(Run(ops), None, i, j);
    assert |Note(Run(ops), Missing(i, j)).hist| == |Run(ops).hist| + 1;
  }

  // ---------- pipes and their senders ----------

  /** The file a line's output goes to by name, if it is executed at all. */
  function FileNamed(cmd: Command): Option<string> {
    match cmd
    case Redirect(name, _) => Some(name)
    case RecvFrom(_, ToFile(name)) => Some(name)
    case _ => None
  }

  /** The operations that can change pipe i->j: a line of either user, a line that
      names its FIFO as a file, and the logout of j. */
  predicate Concerns(op: Op, i: Id, j: Id) {
    match op
    case Exec(u, cmd, _) => u == i || u == j || FileNamed(cmd) == Some(FifoName(i, j))
    case Exit(u) => u == j
    case _ => false
  }

  /** What pipe i->j can do at the moment. */
  function PipeIn(w: World, i: Id, j: Id): Pipe { PipeOf(w, None, i, j) }

  /** Nobody else touches the pipe; in particular it outlives the logout of its sender. */
  lemma OthersKeepPipe(w: World, op: Op, i: Id, j: Id)
    requires !Concerns(op, i, j)
    ensures PipeIn(Step(w, op), i, j) == PipeIn(w, i, j)
  {
    match op
    case Exit(u) => DropAllMail(w, u, 30);
    case Exec(u, cmd, work) => ExecuteKeeps(w, u, cmd, work, i, j);
    case _ =>
  }

  lemma {:induction false} DropAllMail(w: World, u: Id, n: nat)
    requires n <= 30
    ensures forall i: Id, j: Id :: j != u ==> PipeIn(DropAll(w, u, n), i, j) == PipeIn(w, i, j)
  {
    if n != 0 {
      DropAllMail(w, u, n - 1);
    }
  }

  lemma ExecuteKeeps(w: World, u: Id, cmd: Command, work: Work, i: Id, j: Id)
    requires u != i && u != j && FileNamed(cmd) != Some(FifoName(i, j))
    ensures PipeIn(Execute(w, u, cmd, work), i, j) == PipeIn(w, i, j)
  {
    hide Deliver, PipeIn, Make, Look, FifoName;
    forall v: World, from: Option<Id>, out: Target | out != File(FifoName(i, j))
      ensures PipeIn(Deliver(v, u, from, out, work), i, j) == PipeIn(v, i, j)
    {
      DeliverKeeps(v, u, from, out, work, i, j);
    }
    forall v: World, n: Id
      ensures PipeIn(Make(v, u, n), i, j) == PipeIn(v, i, j) && PipeIn(Look(v, n, u), i, j) == PipeIn(v, i, j)
    {
      MakeKeeps(v, u, n, i, j);
    }
  }

  lemma MakeKeeps(w: World, u: Id, n: Id, i: Id, j: Id)
    requires u != i && u != j
    ensures PipeIn(Make(w, u, n), i, j) == PipeIn(w, i, j) && PipeIn(Look(w, n, u), i, j) == PipeIn(w, i, j)
  {
  }

  lemma DeliverKeeps(w: World, u: Id, from: Option<Id>, out: Target, work: Work, i: Id, j: Id)
    requires u != i && u != j && out != File(FifoName(i, j))
    ensures PipeIn(Deliver(w, u, from, out, work), i, j) == PipeIn(w, i, j)
  {
    hide Put, FifoName;
    var input := if from.Some? && (from.value, u) in w.mail then Some(w.mail[(from.value, u)]) else None;
    var w1 := if from.Some? then StartRead(w, from.value, u) else w;
    PutKeepsPipe(w1, u, out, work(input), i, j);
  }

  lemma PutKeepsPipe(w: World, u: Id, out: Target, result: Option<Bytes>, i: Id, j: Id)
    requires u != i && u != j && out != File(FifoName(i, j))
    ensures PipeIn(Put(w, u, out, result), i, j) == PipeIn(w, i, j)
  {
    hide PairNamed, FifoName;
    PairNamedIs(i, j);
  }

  // ---------- redirections to a FIFO's name ----------

  /** No redirection has touched a FIFO or its name. */
  ghost predicate Untouched(hist: seq<Event>) {
    forall t :: 0 <= t < |hist| ==> !hist[t].Poured? && !hist[t].Planted?
  }

  lemma DeliverUntouched(w: World, u: Id, from: Option<Id>, out: Target, work: Work)
    requires Untouched(w.hist) && (out.File? ==> PairNamed(out.name) == None)
    ensures Untouched(Deliver(w, u, from, out, work).hist)
  {
  }

  lemma MakeUntouched(w: World, i: Id, j: Id)
    requires Untouched(w.hist)
    ensures Untouched(Make(w, i, j).hist) && Untouched(Look(w, i, j).hist)
  {
  }

  lemma ExecuteUntouched(w: World, u: Id, cmd: Command, work: Work)
    requires Untouched(w.hist) && (FileNamed(cmd).Some? ==> PairNamed(FileNamed(cmd).value) == None)
    ensures Untouched(Execute(w, u, cmd, work).hist)
  {
    hide Deliver, PairNamed, FifoName, Make, Look, Untouched;
    forall v: World, i: Id, j: Id | Untouched(v.hist)
      ensures Untouched(Make(v, i, j).hist) && Untouched(Look(v, i, j).hist)
    {
      MakeUntouched(v, i, j);
    }
    forall v: World, from: Option<Id>, out: Target | Untouched(v.hist) && (out.File? ==> PairNamed(out.name) == None)
      ensures Untouched(Deliver(v, u, from, out, work).hist)
    {
      DeliverUntouched(v, u, from, out, work);
    }
  }

  lemma {:induction false} DropAllUntouched(w: World, u: Id, n: nat)
    requires n <= 30 && Untouched(w.hist)
    ensures Untouched(DropAll(w, u, n).hist)
  {
    if n != 0 {
      DropAllUntouched(w, u, n - 1);
    }
  }

  lemma {:induction false} RunUntouched(ops: seq<Op>)
    requires NamesNoFifo(ops)
    ensures Untouched(Run(ops).hist)
  {
    hide Execute, DropAll, PairNamed;
    if ops != [] {
      RunUntouched(ops[..|ops| - 1]);
      var w, op := Run(ops[..|ops| - 1]), ops[|ops| - 1];
      assert Innocent(op);
      match op
      case Exec(u, cmd, work) => ExecuteUntouched(w, u, cmd, work);
      case Exit(u) => DropAllUntouched(w, u, 30);
      case _ =>
    }
  }

  lemma {:induction false} NothingPoured(hist: seq<Event>, from: nat, to: nat, i: Id, j: Id)
    requires from <= to <= |hist| && Untouched(hist)
    ensures PouredBytes(hist, from, to, i, j) == 0
  {
    if from < to {
      NothingPoured(hist, from, to - 1, i, j);
    }
  }

  /** A redirection changes what pipe i->j can do exactly when it names its FIFO
      and no regular file has that name yet: an existing pipe gets the output, and
      otherwise the name is taken for good. */
  lemma RedirectionMattersIff(w: World, u: Id, name: string, work: Work, i: Id, j: Id)
    requires Consistent(w) && u in w.live && work(None).Some? && work(None).value != []
    ensures var w' := Step(w, Exec(u, Redirect(name, NoSymbol), work));
            && (PipeIn(w', i, j) != PipeIn(w, i, j) <==> name == FifoName(i, j) && !PipeIn(w, i, j).Occupied?)
            && (name == FifoName(i, j) && Lives(PipeIn(w, i, j)) ==>
                  PipeIn(w', i, j) == Waiting(w.mail[(i, j)] + work(None).value))
            && (name == FifoName(i, j) && PipeIn(w, i, j).Absent? ==> PipeIn(w', i, j).Occupied?)
  {
    hide Lawful, PipeAfter, PairNamed;
    PairNamedIs(i, j);
    if name != FifoName(i, j) {
      assert PairNamed(name) != Some((i, j));
    }
    if (i, j) in w.mail {
      assert |w.mail[(i, j)] + work(None).value| > |w.mail[(i, j)]|;
    }
  }

  /** Once a regular file has the name, there is never again a pipe i->j. */
  lemma {:induction false} PlantedForEver(hist: seq<Event>, t: nat, n: nat, u: Id, i: Id, j: Id)
    requires Lawful(hist, i, j) && t < n <= |hist| && hist[t] == Planted(u, i, j)
    ensures PipeAfter(hist[..n], i, j) == Occupied
  {
    assert hist[..n][..n - 1] == hist[..n - 1];
    assert Allowed(PipeAfter(hist[..n - 1], i, j), hist[n - 1], i, j);
    if t < n - 1 {
      PlantedForEver(hist, t, n - 1, u, i, j);
    }
  }

  /** No line of the run names a FIFO as a file. */
  ghost predicate NamesNoFifo(ops: seq<Op>) {
    forall n :: 0 <= n < |ops| ==> Innocent(ops[n])
  }

  ghost predicate Innocent(op: Op) {
    op.Exec? && FileNamed(op.cmd).Some? ==> PairNamed(FileNamed(op.cmd).value) == None
  }

  /** What the lines of i wrote to pipe i->j. */
  function Sent(hist: seq<Event>, from: nat, to: nat, i: Id, j: Id): Bytes
    requires from <= to <= |hist|
  {
    if from == to then []
    else
      Sent(hist, from, to - 1, i, j) +
      match hist[to - 1]
      case Filled(a, b, data) => if a == i && b == j then data else []
      case _ => []
  }

  /** How many bytes redirections added to it. */
  function PouredBytes(hist: seq<Event>, from: nat, to: nat, i: Id, j: Id): nat
    requires from <= to <= |hist|
  {
    if from == to then 0
    else
      PouredBytes(hist, from, to - 1, i, j) +
      match hist[to - 1]
      case Poured(_, a, b, data) => if a == i && b == j then |data| else 0
      case _ => 0
  }

  /** What was written is what the lines of i wrote exactly when redirections added nothing. */
  lemma {:induction false} WrittenIsSentIff(hist: seq<Event>, from: nat, to: nat, i: Id, j: Id)
    requires from <= to <= |hist|
    ensures |Written(hist, from, to, i, j)| == |Sent(hist, from, to, i, j)| + PouredBytes(hist, from, to, i, j)
    ensures Written(hist, from, to, i, j) == Sent(hist, from, to, i, j) <==> PouredBytes(hist, from, to, i, j) == 0
  {
    if from < to {
      WrittenIsSentIff(hist, from, to - 1, i, j);
    }
  }

  /** In every run: what j reads from i is what the lines of i wrote to that pipe
      exactly when redirections added nothing to it. */
  lemma ReadIsSentIff(ops: seq<Op>, t: nat, i: Id, j: Id, data: Bytes)
    requires t < |Run(ops).hist| && Run(ops).hist[t] == Read(i, j, data)
    ensures var hist := Run(ops).hist;
            exists s: nat :: BornAt(hist, s, t, i, j, data) &&
                             (data == Sent(hist, s + 1, t, i, j) <==> PouredBytes(hist, s + 1, t, i, j) == 0)
  {
    hide Run, Written, Sent, PouredBytes;
    ReadExactlyOnce(ops, t, i, j, data);
    var s: nat :| BornAt(Run(ops).hist, s, t, i, j, data);
    WrittenIsSentIff(Run(ops).hist, s + 1, t, i, j);
  }

  /** In a run in which no line names a FIFO as a file: what j reads from i is
      exactly what the lines of i wrote to one pipe, and no reply about a pipe that
      exists is about anything else. */
  lemma ReadIsSent(ops: seq<Op>, t: nat, i: Id, j: Id, data: Bytes)
    requires NamesNoFifo(ops) && t < |Run(ops).hist| && Run(ops).hist[t] == Read(i, j, data)
    ensures exists s: nat :: BornAt(Run(ops).hist, s, t, i, j, data) && data == Sent(Run(ops).hist, s + 1, t, i, j)
  {
    hide Run, Written, Sent, PouredBytes;
    ReadIsSentIff(ops, t, i, j, data);
    RunUntouched(ops);
    var s: nat :| BornAt(Run(ops).hist, s, t, i, j, data) &&
                  (data == Sent(Run(ops).hist, s + 1, t, i, j) <==> PouredBytes(Run(ops).hist, s + 1, t, i, j) == 0);
    NothingPoured(Run(ops).hist, s + 1, t, i, j);
  }

  lemma {:induction false} NeverOccupied(hist: seq<Event>, i: Id, j: Id)
    requires Untouched(hist)
    ensures !PipeAfter(hist, i, j).Occupied?
  {
    if hist != [] {
      NeverOccupied(hist[..|hist| - 1], i, j);
    }
  }

  /** In such a run "the pipe already exists" is only said of a pipe that exists. */
  lemma ExistsIsTrue(ops: seq<Op>, t: nat, i: Id, j: Id)
    requires NamesNoFifo(ops) && t < |Run(ops).hist| && Run(ops).hist[t] == Exists(i, j)
    ensures Lives(PipeAfter(Run(ops).hist[..t], i, j))
  {
    hide Run, PipeAfter;
    RunUntouched(ops);
    RunLawful(ops, i, j);
    NeverOccupied(Run(ops).hist[..t], i, j);
    assert Allowed(PipeAfter(Run(ops).hist[..t], i, j), Exists(i, j), i, j);
  }

  /** Otherwise neither holds. User 3 redirects output to the FIFO of users 1 and 2,
      and user 2 reads it with `<1`. */
  lemma RedirectionIsRead(a: Bytes, b: Bytes, work: Work)
    ensures Run([Login, Login, Login, Exec(1, SendTo(2, NoSymbol), Always(a)),
                 Exec(3, Redirect(".1to2", NoSymbol), Always(b)), Exec(2, RecvFrom(1, NoSymbol), work)]).hist ==
            [Came(1), Came(2), Came(3), Made(1, 2), Filled(1, 2, a), Poured(3, 1, 2, b), Read(1, 2, a + b), Taken(1, 2)]
  {
    hide Run, AllIds, ExecRecv, ExecSend, ExecOther, PairNamed;
    var w2 := TwoUsers();
    var o1, o2 := Exec(1, SendTo(2, NoSymbol), Always(a)), Exec(3, Redirect(".1to2", NoSymbol), Always(b));
    var o3 := Exec(2, RecvFrom(1, NoSymbol), work);
    RunMore([Login, Login], Login);
    ThirdUser(w2);
    var w3 := Enter(w2, 3);
    RunMore([Login, Login] + [Login], o1);
    var w4 := PipedToTwo(w3, a);
    RunMore([Login, Login] + [Login] + [o1], o2);
    var w5 := PouredByThree(w4, a, b);
    RunMore([Login, Login] + [Login] + [o1] + [o2], o3);
    OneReadByTwo(w5, a + b, work);
    assert [Login, Login] + [Login] + [o1] + [o2] + [o3] == [Login, Login, Login, o1, o2, o3];
  }

  lemma ThirdUser(w: World)
    requires w.live == {1, 2}
    ensures Step(w, Login) == Enter(w, 3)
  {
    assert 3 in AllIds() && 3 !in w.live;
    LeastFreeIsLeast(w.live, 1);
    assert LeastFree(w.live, 1) == 3;
  }

  lemma NameOneToTwo()
    ensures FifoName(1, 2) == ".1to2" && PairNamed(".1to2") == Some((1, 2))
  {
    assert Dec(1) == "1" && Dec(2) == "2";
    PairNamedIs(1, 2);
  }

  lemma PouredByThree(w: World, a: Bytes, b: Bytes) returns (w': World)
    requires 3 in w.live && w.mail == map[(1, 2) := a]
    ensures w' == Step(w, Exec(3, Redirect(".1to2", NoSymbol), Always(b)))
    ensures w' == w.(mail := map[(1, 2) := a + b], hist := w.hist + [Poured(3, 1, 2, b)])
  {
    NameOneToTwo();
    w' := Step(w, Exec(3, Redirect(".1to2", NoSymbol), Always(b)));
  }

  /** And a redirection before the pipe is made takes its name: `>2` is answered
      with "already exists" although there is no such pipe. */
  lemma RedirectionBlocks(a: Bytes, work: Work)
    ensures var w := Run([Login, Login, Exec(1, Redirect(".1to2", NoSymbol), Always(a)),
                          Exec(1, SendTo(2, NoSymbol), work)]);
            w.hist == [Came(1), Came(2), Planted(1, 1, 2), Exists(1, 2)] && (1, 2) !in w.mail
  {
    hide Run, AllIds;
    NameOneToTwo();
    var w2 := TwoUsers();
    var o1, o2 := Exec(1, Redirect(".1to2", NoSymbol), Always(a)), Exec(1, SendTo(2, NoSymbol), work);
    RunMore([Login, Login], o1);
    RunMore([Login, Login] + [o1], o2);
    assert [Login, Login] + [o1] + [o2] == [Login, Login, o1, o2];
  }

  /** How many users have held id i. */
  function Holders(hist: seq<Event>, i: Id): nat {
    if hist == [] then 0
    else Holders(hist[..|hist| - 1], i) + if hist[|hist| - 1] == Came(i) then 1 else 0
  }

  lemma {:induction false} HoldersCount(hist: seq<Event>, s: nat, t: nat, i: Id)
    requires s <= t <= |hist|
    ensures Holders(hist[..s], i) <= Holders(hist[..t], i)
    ensures Holders(hist[..s], i) != Holders(hist[..t], i) <==> exists k :: s <= k < t && hist[k] == Came(i)
  {
    if s < t {
      HoldersCount(hist, s, t - 1, i);
      assert hist[..t][..t - 1] == hist[..t - 1];
    }
  }

  /** Since pipe i->j was last made, nobody came or left. */
  predicate Recent(hist: seq<Event>, i: Id, j: Id) {
    hist != [] &&
    var e := hist[|hist| - 1];
    e == Made(i, j) || (!e.Came? && !e.Gone? && Recent(hist[..|hist| - 1], i, j))
  }

  /** A line writes to its pipe only right after it made it. */
  ghost predicate Prompt(hist: seq<Event>) {
    forall t :: 0 <= t < |hist| && hist[t].Filled? ==> Recent(hist[..t], hist[t].i, hist[t].j)
  }

  lemma PromptMore(hist: seq<Event>, e: Event)
    requires Prompt(hist) && (e.Filled? ==> Recent(hist, e.i, e.j))
    ensures Prompt(hist + [e])
    ensures !e.Came? && !e.Gone? ==> forall i: Id, j: Id :: Recent(hist, i, j) ==> Recent(hist + [e], i, j)
    ensures e.Made? ==> Recent(hist + [e], e.i, e.j)
  {
    var h := hist + [e];
    assert h[..|hist|] == hist;
    forall t | 0 <= t < |h| && h[t].Filled? ensures Recent(h[..t], h[t].i, h[t].j) {
      assert t < |hist| ==> h[..t] == hist[..t];
    }
  }

  /** Nothing but a login or a logout makes a pipe old. */
  ghost predicate KeepsRecent(w: World, w': World) {
    Prompt(w'.hist) && forall i: Id, j: Id :: Recent(w.hist, i, j) ==> Recent(w'.hist, i, j)
  }

  lemma NotePrompt(w: World, w': World, e: Event)
    requires Prompt(w.hist) && !e.Filled? && !e.Came? && !e.Gone?
    requires w'.hist == w.hist || w'.hist == w.hist + [e]
    ensures KeepsRecent(w, w')
  {
    PromptMore(w.hist, e);
  }

  lemma MakePrompt(w: World, i: Id, j: Id)
    requires Prompt(w.hist)
    ensures KeepsRecent(w, Make(w, i, j)) && (CanMake(w, i, j) ==> Recent(Make(w, i, j).hist, i, j))
  {
    hide Prompt, Recent;
    var w' := Make(w, i, j);
    NotePrompt(w, w', w'.hist[|w.hist|]);
    PromptMore(w.hist, Made(i, j));
  }

  lemma LookPrompt(w: World, i: Id, j: Id)
    requires Prompt(w.hist)
    ensures KeepsRecent(w, Look(w, i, j))
  {
    hide Prompt, Recent;
    NotePrompt(w, Look(w, i, j), Missing(i, j));
  }

  lemma PutPrompt(w: World, u: Id, out: Target, result: Option<Bytes>)
    requires Prompt(w.hist) && (out.Pipe? ==> Recent(w.hist, u, out.to))
    ensures Prompt(Put(w, u, out, result).hist)
  {
    hide Prompt, Recent, PairNamed;
    var w' := Put(w, u, out, result);
    if w'.hist != w.hist {
      PromptMore(w.hist, w'.hist[|w.hist|]);
    }
  }

  lemma DeliverPrompt(w: World, u: Id, from: Option<Id>, out: Target, work: Work)
    requires Prompt(w.hist) && (out.Pipe? ==> Recent(w.hist, u, out.to))
    ensures Prompt(Deliver(w, u, from, out, work).hist)
  {
    hide Prompt, Recent, Put;
    var input := if from.Some? && (from.value, u) in w.mail then Some(w.mail[(from.value, u)]) else None;
    var w1 := if from.Some? then StartRead(w, from.value, u) else w;
    if from.Some? && input.Some? {
      NotePrompt(w, w1, Read(from.value, u, input.value));
    }
    var w2 := Put(w1, u, out, work(input));
    PutPrompt(w1, u, out, work(input));
    if from.Some? {
      NotePrompt(w2, Take(w2, from.value, u), Taken(from.value, u));
    }
  }

  lemma ExecutePrompt(w: World, u: Id, cmd: Command, work: Work)
    requires Prompt(w.hist)
    ensures Prompt(Execute(w, u, cmd, work).hist)
  {
    hide Prompt, Recent, Make, Look, Deliver;
    forall v: World, i: Id, j: Id | Prompt(v.hist)
      ensures KeepsRecent(v, Make(v, i, j)) && (CanMake(v, i, j) ==> Recent(Make(v, i, j).hist, i, j))
    {
      MakePrompt(v, i, j);
    }
    forall v: World, i: Id, j: Id | Prompt(v.hist) ensures KeepsRecent(v, Look(v, i, j)) {
      LookPrompt(v, i, j);
    }
    forall v: World, from: Option<Id>, out: Target | Prompt(v.hist) && (out.Pipe? ==> Recent(v.hist, u, out.to))
      ensures Prompt(Deliver(v, u, from, out, work).hist)
    {
      DeliverPrompt(v, u, from, out, work);
    }
  }

  lemma {:induction false} DropAllPrompt(w: World, u: Id, n: nat)
    requires n <= 30 && Prompt(w.hist)
    ensures Prompt(DropAll(w, u, n).hist)
  {
    hide Prompt, Recent;
    if n != 0 {
      DropAllPrompt(w, u, n - 1);
      PromptMore(DropAll(w, u, n - 1).hist, Dropped(n, u));
    }
  }

  lemma StepPrompt(w: World, op: Op)
    requires Prompt(w.hist)
    ensures Prompt(Step(w, op).hist)
  {
    hide Prompt, Recent, Execute, DropAll;
    match op
    case Login => PromptMore(w.hist, Came(LeastFree(w.live, 1)));
    case Exit(u) =>
      DropAllPrompt(w, u, 30);
      PromptMore(DropAll(w, u, 30).hist, Gone(u));
    case Rename(_, _) =>
    case Chat(_) =>
    case Exec(u, cmd, work) => ExecutePrompt(w, u, cmd, work);
  }

  lemma {:induction false} RunPrompt(ops: seq<Op>)
    ensures Prompt(Run(ops).hist)
  {
    hide Prompt, Step;
    if ops != [] {
      RunPrompt(ops[..|ops| - 1]);
      StepPrompt(Run(ops[..|ops| - 1]), ops[|ops| - 1]);
    } else {
      NothingPrompt();
    }
  }

  lemma NothingPrompt()
    ensures Prompt([])
  {
  }

  /** A write between a pipe's making and its reading is by the user who made it. */
  lemma {:induction false} MakerIsHolder(hist: seq<Event>, s: nat, k: nat, i: Id, j: Id)
    requires s < k <= |hist| && hist[s] == Made(i, j) && Recent(hist[..k], i, j)
    requires forall m :: s < m < k ==> hist[m] != Made(i, j)
    ensures Holders(hist[..k], i) == Holders(hist[..s], i)
  {
    assert hist[..k][..k - 1] == hist[..k - 1];
    if s < k - 1 {
      MakerIsHolder(hist, s, k - 1, i, j);
    }
  }

  /** All that the lines of i wrote to pipe i->j between s and t was written by the
      user who held id i at s. */
  ghost predicate OneWriter(hist: seq<Event>, s: nat, t: nat, i: Id, j: Id)
    requires s <= t <= |hist|
  {
    forall k :: s < k < t && hist[k].Filled? && hist[k].i == i && hist[k].j == j ==>
      Holders(hist[..k], i) == Holders(hist[..s], i)
  }

  /** In every run: what j reads with `<i` was made and written, as far as lines of
      i wrote it, by one holder of id i; and that is not the holder at the reading
      exactly when somebody logged in as i in between. */
  lemma EarlierHolderIff(ops: seq<Op>, t: nat, i: Id, j: Id, data: Bytes)
    requires t < |Run(ops).hist| && Run(ops).hist[t] == Read(i, j, data)
    ensures var hist := Run(ops).hist;
            exists s: nat :: BornAt(hist, s, t, i, j, data) && OneWriter(hist, s, t, i, j)
                             && (Holders(hist[..s], i) != Holders(hist[..t], i) <==> LoggedIn(hist, s, t, i))
  {
    hide Run, Written, Recent, Holders;
    var hist := Run(ops).hist;
    ReadExactlyOnce(ops, t, i, j, data);
    var s: nat :| BornAt(hist, s, t, i, j, data);
    RunPrompt(ops);
    forall k: nat | s < k < t && hist[k].Filled? && hist[k].i == i && hist[k].j == j
      ensures Holders(hist[..k], i) == Holders(hist[..s], i)
    {
      MakerIsHolder(hist, s, k, i, j);
    }
    HoldersCount(hist, s, t, i);
    assert hist[s] == Made(i, j);
  }

  ghost predicate LoggedIn(hist: seq<Event>, s: nat, t: nat, i: Id)
    requires t <= |hist|
  {
    exists k :: s < k < t && hist[k] == Came(i)
  }

  function Always(data: Bytes): Work { _ => Some(data) }

  /** That happens: user 1 pipes to user 2 and leaves, somebody else becomes user
      1, and user 2 reads `<1`. */
  lemma EarlierHolderIsRead(data: Bytes)
    ensures var work := Always(data);
            var hist := Run([Login, Login, Exec(1, SendTo(2, NoSymbol), work), Exit(1), Login,
                             Exec(2, RecvFrom(1, NoSymbol), work)]).hist;
            hist == [Came(1), Came(2), Made(1, 2), Filled(1, 2, data), Gone(1), Came(1), Read(1, 2, data), Taken(1, 2)]
  {
    hide Run, DropAll, AllIds, ExecRecv, ExecSend;
    var work := Always(data);
    var w2 := TwoUsers();
    var w3 := PipedToTwo(w2, data);
    var o2, o := [Login, Login], Exec(1, SendTo(2, NoSymbol), work);
    RunMore(o2, o);
    NothingToDrop(w3, 1, 30);
    RunMore(o2 + [o], Exit(1));
    var w4 := w3.(live := {2}, hist := w3.hist + [Gone(1)]);
    assert Run(o2 + [o] + [Exit(1)]) == w4;
    RunMore(o2 + [o] + [Exit(1)], Login);
    var w5 := Enter(w4, 1);
    RunMore(o2 + [o] + [Exit(1)] + [Login], Exec(2, RecvFrom(1, NoSymbol), work));
    OneReadByTwo(w5, data, work);
    assert o2 + [o] + [Exit(1)] + [Login] + [Exec(2, RecvFrom(1, NoSymbol), work)] ==
           [Login, Login, o, Exit(1), Login, Exec(2, RecvFrom(1, NoSymbol), work)];
  }

  lemma PipedToTwo(w: World, data: Bytes) returns (w': World)
    requires {1, 2} <= w.live && w.mail == map[] && w.plain == map[]
    ensures w' == Step(w, Exec(1, SendTo(2, NoSymbol), Always(data)))
    ensures w' == w.(mail := map[(1, 2) := data], hist := w.hist + [Made(1, 2), Filled(1, 2, data)])
  {
    w' := Step(w, Exec(1, SendTo(2, NoSymbol), Always(data)));
    assert [] + data == data;
  }

  lemma OneReadByTwo(w: World, data: Bytes, work: Work)
    requires 2 in w.live && w.mail == map[(1, 2) := data]
    ensures Step(w, Exec(2, RecvFrom(1, NoSymbol), work)).hist == w.hist + [Read(1, 2, data), Taken(1, 2)]
  {
  }

  lemma {:induction false} NothingToDrop(w: World, u: Id, n: nat)
    requires n <= 30 && forall i: Id :: (i, u) !in w.mail
    ensures DropAll(w, u, n) == w
  {
    if n != 0 {
      NothingToDrop(w, u, n - 1);
    }
  }

  lemma RunMore(ops: seq<Op>, op: Op)
    ensures Run(ops + [op]) == Step(Run(ops), op)
  {
    assert (ops + [op])[..|ops|] == ops;
  }

  /** The world after two users have logged in. */
  lemma TwoUsers() returns (w: World)
    ensures w == Run([Login, Login]) && w.live == {1, 2} && w.mail == map[] && w.plain == map[]
    ensures w.names == Opening.names[1 := "(no name)"][2 := "(no name)"] && w.hist == [Came(1), Came(2)]
  {
    var w1 := Enter(Opening, 1);
    assert 1 !in Opening.live;
    assert Run([Login]) == w1 by {
      assert [Login][..0] == [];
    }
    w := Enter(w1, 2);
    assert Run([Login, Login]) == w by {
      assert [Login, Login][..1] == [Login];
      assert 2 !in w1.live;
    }
  }

  /** FIFO descriptors the select server has open: each creation opens one, and
      only a logout closes any. */
  function OpenFifos(hist: seq<Event>): int {
    if hist == [] then 0 else OpenFifos(hist[..|hist| - 1]) + Opened(hist[|hist| - 1])
  }

  function Opened(e: Event): int {
    match e
    case Made(_, _) => 1
    case Dropped(_, _) => -1
    case _ => 0
  }

  lemma OneMoreEvent(w: World, e: Event)
    ensures OpenFifos(Note(w, e).hist) == OpenFifos(w.hist) + Opened(e)
  {
    assert Note(w, e).hist[..|w.hist|] == w.hist;
  }

  lemma EffectsOnFifos(w: World, i: Id, j: Id)
    ensures OpenFifos(Make(w, i, j).hist) == OpenFifos(w.hist) + if CanMake(w, i, j) then 1 else 0
    ensures OpenFifos(Drop(w, i, j).hist) == OpenFifos(w.hist) - if (i, j) in w.mail then 1 else 0
    ensures OpenFifos(Look(w, i, j).hist) == OpenFifos(w.hist)
    ensures OpenFifos(StartRead(w, i, j).hist) == OpenFifos(w.hist)
    ensures OpenFifos(Take(w, i, j).hist) == OpenFifos(w.hist)
  {
    hide OpenFifos;
    forall e: Event ensures OpenFifos(w.hist + [e]) == OpenFifos(w.hist) + Opened(e) {
      OneMoreEvent(w, e);
    }
  }

  lemma PourOpensNone(w: World, u: Id, name: string, data: Bytes)
    ensures OpenFifos(Pour(w, u, name, data).hist) == OpenFifos(w.hist)
  {
    hide OpenFifos, PairNamed;
    forall e: Event ensures OpenFifos(w.hist + [e]) == OpenFifos(w.hist) + Opened(e) {
      OneMoreEvent(w, e);
    }
  }

  lemma FillOpensNone(w: World, i: Id, j: Id, data: Bytes)
    ensures OpenFifos(Fill(w, i, j, data).hist) == OpenFifos(w.hist)
  {
    hide OpenFifos;
    OneMoreEvent(w, Filled(i, j, data));
  }

  lemma PutOpensNone(w: World, u: Id, out: Target, result: Option<Bytes>)
    ensures OpenFifos(Put(w, u, out, result).hist) == OpenFifos(w.hist)
  {
    hide OpenFifos, Pour;
    if result.Some? {
      match out
      case Screen =>
      case Pipe(n) => FillOpensNone(w, u, n, result.value);
      case File(name) => PourOpensNone(w, u, name, result.value);
    }
  }

  /** A rename takes effect exactly when none of the thirty slots carries the name,
      whether or not its user is still logged in. */
  lemma RenameTakesEffectIff(w: World, u: Id, name: string)
    requires Consistent(w) && u in w.live
    ensures var short, w' := if |name| > 20 then name[..20] else name, Step(w, Rename(u, name));
            && u in w'.names && (w.names[u] != short ==>
                 (w'.names[u] == short <==> forall i: Id :: w.names[i] != short))
            && (w' == w || w' == w.(names := w.names[u := short]))
  {
    assert forall i: Id :: i in AllIds();
  }

  /** The written rule only forbids the names of users who are on line. It is not
      kept: the name of a user who left is still refused. */
  lemma StaleNameIsRefused()
    ensures var w := Run([Login, Login, Rename(2, "amy"), Exit(2), Rename(1, "amy")]);
            w.live == {1} && 1 in w.names && w.names[1] == "(no name)"
  {
    hide Run, DropAll, AllIds;
    var w2 := TwoUsers();
    var w3 := SetName(w2, 2, "amy");
    RunMore([Login, Login], Rename(2, "amy"));
    NobodyElseIs(w2, "amy");
    var w4 := Leave(w3, 2);
    NothingToDrop(w3, 2, 30);
    RunMore([Login, Login, Rename(2, "amy")], Exit(2));
    assert w4.names[2] == "amy" && 2 in AllIds();
    RunMore([Login, Login, Rename(2, "amy"), Exit(2)], Rename(1, "amy"));
    assert [Login, Login] + [Rename(2, "amy")] == [Login, Login, Rename(2, "amy")];
    assert [Login, Login, Rename(2, "amy")] + [Exit(2)] == [Login, Login, Rename(2, "amy"), Exit(2)];
    assert [Login, Login, Rename(2, "amy"), Exit(2)] + [Rename(1, "amy")] ==
           [Login, Login, Rename(2, "amy"), Exit(2), Rename(1, "amy")];
  }

  lemma NobodyElseIs(w: World, name: string)
    requires w.names == Opening.names[1 := "(no name)"][2 := "(no name)"] && name != "" && name != "(no name)"
    ensures !NameUsed(w, name)
  {
  }
}
