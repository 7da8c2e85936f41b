/**
 What each form of line does to the user pipes (Project2/select), branch by branch
 and symbol by symbol: the events it adds to the history and the mail it leaves.
 */
module UserLines {
  import opened Common
  import opened Text
  import opened UserPipes

  /** After any run, user u's line adds exactly these events and leaves exactly this
      mail; users, names and files stay as they are. */
  ghost predicate Does(ops: seq<Op>, u: Id, cmd: Command, work: Work, events: seq<Event>, mail: map<(Id, Id), Bytes>) {
    var w := Run(ops);
    Run(ops + [Exec(u, cmd, work)]) == w.(mail := mail, hist := w.hist + events)
  }

  /** The reply when user u cannot make a pipe to n. */
  ghost function Refusal(w: World, u: Id, n: Id): Event { if n in w.live then Exists(u, n) else Nobody(u, n) }

  /** What reaches the pipe u->n when the line writes r at its end. */
  function Sends(u: Id, n: Id, r: Option<Bytes>): seq<Event> {
    match r
    case None => []
    case Some(b) => [Filled(u, n, b)]
  }

  lemma OneLine(ops: seq<Op>, u: Id, cmd: Command, work: Work)
    requires u in Run(ops).live
    ensures Run(ops + [Exec(u, cmd, work)]) == Execute(Run(ops), u, cmd, work)
  {
    hide Execute, Run;
    RunMore(ops, Exec(u, cmd, work));
  }

  // ---------- `... >n` ----------

  /** A pipe that cannot be made: the line is refused, whatever its symbol. */
  lemma SendRefused(ops: seq<Op>, u: Id, n: Id, sym: Symbol, work: Work)
    requires u in Run(ops).live && !CanMake(Run(ops), u, n)
    ensures Does(ops, u, SendTo(n, sym), work, [Refusal(Run(ops), u, n)], Run(ops).mail)
  {
    hide Run;
    OneLine(ops, u, SendTo(n, sym), work);
  }

  /** `cmd >n` makes the pipe and fills it. */
  lemma SendPlain(ops: seq<Op>, u: Id, n: Id, work: Work)
    requires u in Run(ops).live && CanMake(Run(ops), u, n)
    ensures Does(ops, u, SendTo(n, NoSymbol), work, [Made(u, n)] + Sends(u, n, work(None)),
                 Run(ops).mail[(u, n) := work(None).GetOr([])])
  {
    hide Run;
    OneLine(ops, u, SendTo(n, NoSymbol), work);
    FillsNew(Run(ops).mail, (u, n), work(None));
  }

  /** `cmd <m >n` makes the pipe to n, reads the pipe from m, fills the one and
      destroys the other. */
  lemma SendReading(ops: seq<Op>, u: Id, n: Id, m: Id, work: Work)
    requires u in Run(ops).live && CanMake(Run(ops), u, n)
    requires (m, u) in Run(ops).mail[(u, n) := []]
    ensures var made := Run(ops).mail[(u, n) := []];
            var d := made[(m, u)];
            Does(ops, u, SendTo(n, FromUser(m)), work,
                 [Made(u, n), Read(m, u, d)] + Sends(u, n, work(Some(d))) + [Taken(m, u)],
                 made[(u, n) := work(Some(d)).GetOr([])] - {(m, u)})
  {
    hide Run;
    OneLine(ops, u, SendTo(n, FromUser(m)), work);
    FillsNew(Run(ops).mail, (u, n), work(Some(Run(ops).mail[(u, n) := []][(m, u)])));
  }

  /** Without the pipe from m the line runs all the same, reading nothing from it. */
  lemma SendMissing(ops: seq<Op>, u: Id, n: Id, m: Id, work: Work)
    requires u in Run(ops).live && CanMake(Run(ops), u, n) && (m, u) !in Run(ops).mail[(u, n) := []]
    ensures Does(ops, u, SendTo(n, FromUser(m)), work, [Made(u, n), Missing(m, u)] + Sends(u, n, work(None)),
                 Run(ops).mail[(u, n) := work(None).GetOr([])])
  {
    hide Run;
    OneLine(ops, u, SendTo(n, FromUser(m)), work);
    FillsNew(Run(ops).mail, (u, n), work(None));
  }

  lemma FillsNew(mail: map<(Id, Id), Bytes>, p: (Id, Id), r: Option<Bytes>)
    ensures forall b: Bytes :: mail[p := []][p := [] + b] == mail[p := b]
    ensures r.None? ==> mail[p := []] == mail[p := r.GetOr([])]
  {
    forall b: Bytes ensures [] + b == b {
    }
  }

  /** With an illegal symbol nothing runs, but the pipe was made, and a second one too
      when the symbol names another user to whom one can be made. */
  lemma SendIllegal(ops: seq<Op>, u: Id, n: Id, n2: Id, name: string, work: Work)
    requires u in Run(ops).live && CanMake(Run(ops), u, n)
    ensures var w := Run(ops);
            var made := w.mail[(u, n) := []];
            if CanMake(w, u, n2) && n2 != n
            then Does(ops, u, SendTo(n, ToUser(n2)), work, [Made(u, n), Made(u, n2)], made[(u, n2) := []])
            else Does(ops, u, SendTo(n, ToUser(n2)), work, [Made(u, n), Refusal(w, u, n2)], made)
    ensures Does(ops, u, SendTo(n, ToFile(name)), work, [Made(u, n)], Run(ops).mail[(u, n) := []])
  {
    hide Run;
    OneLine(ops, u, SendTo(n, ToUser(n2)), work);
    OneLine(ops, u, SendTo(n, ToFile(name)), work);
  }

  // ---------- `... <m` ----------

  /** A pipe that is not there: the line is refused, whatever its symbol. */
  lemma RecvMissing(ops: seq<Op>, u: Id, m: Id, sym: Symbol, work: Work)
    requires u in Run(ops).live && (m, u) !in Run(ops).mail
    ensures Does(ops, u, RecvFrom(m, sym), work, [Missing(m, u)], Run(ops).mail)
  {
    hide Run;
    OneLine(ops, u, RecvFrom(m, sym), work);
  }

  /** `cmd <m` reads the pipe and destroys it, also when a second `<m2` finds nothing;
      when it does find a pipe, nothing runs and both stay. */
  lemma RecvPlain(ops: seq<Op>, u: Id, m: Id, m2: Id, work: Work)
    requires u in Run(ops).live && (m, u) in Run(ops).mail
    ensures var d, rest := Run(ops).mail[(m, u)], Run(ops).mail - {(m, u)};
            && Does(ops, u, RecvFrom(m, NoSymbol), work, [Read(m, u, d), Taken(m, u)], rest)
            && if (m2, u) in Run(ops).mail
               then Does(ops, u, RecvFrom(m, FromUser(m2)), work, [], Run(ops).mail)
               else Does(ops, u, RecvFrom(m, FromUser(m2)), work, [Missing(m2, u), Read(m, u, d), Taken(m, u)], rest)
  {
    hide Run;
    OneLine(ops, u, RecvFrom(m, NoSymbol), work);
    OneLine(ops, u, RecvFrom(m, FromUser(m2)), work);
    assert Run(ops).hist + [] == Run(ops).hist;
  }

  /** `cmd >n <m`: as `cmd <m >n`, but when the pipe to n cannot be made the line still
      runs, and writes to the screen. */
  lemma RecvSending(ops: seq<Op>, u: Id, m: Id, n: Id, work: Work)
    requires u in Run(ops).live && (m, u) in Run(ops).mail
    ensures var w := Run(ops);
            var d := w.mail[(m, u)];
            if CanMake(w, u, n) then
              Does(ops, u, RecvFrom(m, ToUser(n)), work,
                   [Made(u, n), Read(m, u, d)] + Sends(u, n, work(Some(d))) + [Taken(m, u)],
                   w.mail[(u, n) := work(Some(d)).GetOr([])] - {(m, u)})
            else
              Does(ops, u, RecvFrom(m, ToUser(n)), work, [Refusal(w, u, n), Read(m, u, d), Taken(m, u)],
                   w.mail - {(m, u)})
  {
    hide Run;
    OneLine(ops, u, RecvFrom(m, ToUser(n)), work);
    FillsNew(Run(ops).mail, (u, n), work(Some(Run(ops).mail[(m, u)])));
  }

  // ---------- output to a file ----------

  /** Where redirected output goes: into the FIFO of that name if there is one; else
      the regular file of that name holds it and nothing else, and if the name is a
      FIFO's and was free, it is taken. */
  lemma PourIs(w: World, u: Id, name: string, data: Bytes)
    ensures forall i: Id, j: Id :: FifoName(i, j) == name && (i, j) in w.mail ==>
              Pour(w, u, name, data) ==
              w.(mail := w.mail[(i, j) := w.mail[(i, j)] + data], hist := w.hist + [Poured(u, i, j, data)])
    ensures forall i: Id, j: Id :: FifoName(i, j) == name && (i, j) !in w.mail ==>
              Pour(w, u, name, data) ==
              w.(plain := w.plain[name := data],
                 hist := w.hist + if name in w.plain then [] else [Planted(u, i, j)])
    ensures (forall i: Id, j: Id :: FifoName(i, j) != name) ==>
              Pour(w, u, name, data) == w.(plain := w.plain[name := data])
  {
    hide FifoName, PairNamed;
    assert w.hist + [] == w.hist;
    if PairNamed(name).Some? {
      assert FifoName(PairNamed(name).value.0, PairNamed(name).value.1) == name;
    }
    forall i: Id, j: Id ensures FifoName(i, j) == name ==> PairNamed(name) == Some((i, j)) {
      PairNamedIs(i, j);
    }
  }

  /** The output r of a line goes to the file `name`. */
  ghost function Stored(w: World, u: Id, name: string, r: Option<Bytes>): World {
    match r
    case None => w
    case Some(b) => Pour(w, u, name, b)
  }

  /** User u's line reads pipe m->u, its output goes to the file, and the pipe is
      destroyed, with what the line itself may have poured into it. */
  ghost predicate ReadsIntoFile(w: World, w': World, u: Id, m: Id, name: string, work: Work)
    requires (m, u) in w.mail
  {
    var d := w.mail[(m, u)];
    var v := Stored(w.(hist := w.hist + [Read(m, u, d)]), u, name, work(Some(d)));
    w' == v.(mail := v.mail - {(m, u)}, hist := v.hist + [Taken(m, u)])
  }

  /** `cmd > file <m`. */
  lemma RecvIntoFile(ops: seq<Op>, u: Id, m: Id, name: string, work: Work)
    requires u in Run(ops).live && (m, u) in Run(ops).mail
    ensures ReadsIntoFile(Run(ops), Run(ops + [Exec(u, RecvFrom(m, ToFile(name)), work)]), u, m, name, work)
  {
    hide Run, Pour;
    OneLine(ops, u, RecvFrom(m, ToFile(name)), work);
    StoredKeepsPipe(Run(ops), u, m, name, work(Some(Run(ops).mail[(m, u)])));
  }

  lemma StoredKeepsPipe(w: World, u: Id, m: Id, name: string, r: Option<Bytes>)
    requires (m, u) in w.mail
    ensures (m, u) in Stored(w.(hist := w.hist + [Read(m, u, w.mail[(m, u)])]), u, name, r).mail
  {
    hide PairNamed;
  }

  /** `cmd > file`, and `cmd <m > file` with and without the pipe. */
  lemma RedirectsTo(ops: seq<Op>, u: Id, name: string, m: Id, work: Work)
    requires u in Run(ops).live
    ensures Run(ops + [Exec(u, Redirect(name, NoSymbol), work)]) == Stored(Run(ops), u, name, work(None))
    ensures var w, w' := Run(ops), Run(ops + [Exec(u, Redirect(name, FromUser(m)), work)]);
            if (m, u) in w.mail then ReadsIntoFile(w, w', u, m, name, work)
            else w' == Stored(w.(hist := w.hist + [Missing(m, u)]), u, name, work(None))
  {
    hide Run, Pour;
    OneLine(ops, u, Redirect(name, NoSymbol), work);
    OneLine(ops, u, Redirect(name, FromUser(m)), work);
    if (m, u) in Run(ops).mail {
      StoredKeepsPipe(Run(ops), u, m, name, work(Some(Run(ops).mail[(m, u)])));
    }
  }

  // ---------- every other line ----------

  /** A line without a symbol does nothing to the pipes; one that ends its first
      command in `<m` reads the pipe, if there is one. */
  lemma PlainReads(ops: seq<Op>, u: Id, m: Id, work: Work)
    requires u in Run(ops).live
    ensures Does(ops, u, Plain(NoSymbol), work, [], Run(ops).mail)
    ensures var mail := Run(ops).mail;
            if (m, u) in mail
            then Does(ops, u, Plain(FromUser(m)), work, [Read(m, u, mail[(m, u)]), Taken(m, u)], mail - {(m, u)})
            else Does(ops, u, Plain(FromUser(m)), work, [Missing(m, u)], mail)
  {
    hide Run;
    OneLine(ops, u, Plain(NoSymbol), work);
    OneLine(ops, u, Plain(FromUser(m)), work);
    assert Run(ops).hist + [] == Run(ops).hist;
  }

  /** A line with a redirection to `file`, or with none. */
  function OtherLine(file: Option<string>, sym: Symbol): Command {
    match file
    case Some(name) => Redirect(name, sym)
    case None => Plain(sym)
  }

  /** The illegal symbols of such lines: nothing runs and no file is touched, but `>n`
      made its pipe if it could. */
  lemma OtherIllegal(ops: seq<Op>, u: Id, file: Option<string>, n: Id, name: string, work: Work)
    requires u in Run(ops).live
    ensures var w := Run(ops);
            if CanMake(w, u, n)
            then Does(ops, u, OtherLine(file, ToUser(n)), work, [Made(u, n)], w.mail[(u, n) := []])
            else Does(ops, u, OtherLine(file, ToUser(n)), work, [Refusal(w, u, n)], w.mail)
    ensures Does(ops, u, OtherLine(file, ToFile(name)), work, [], Run(ops).mail)
  {
    hide Run;
    OneLine(ops, u, OtherLine(file, ToUser(n)), work);
    OneLine(ops, u, OtherLine(file, ToFile(name)), work);
    assert Run(ops).hist + [] == Run(ops).hist;
  }

  /** A user who is not logged in does nothing. */
  lemma NobodysLine(ops: seq<Op>, u: Id, cmd: Command, work: Work)
    requires u !in Run(ops).live
    ensures Run(ops + [Exec(u, cmd, work)]) == Run(ops)
  {
    hide Run;
    RunMore(ops, Exec(u, cmd, work));
  }

  // ---------- coming and going ----------

  /** A login takes the least free id, with no name, and touches no pipe and no file. */
  lemma LogsIn(ops: seq<Op>, u: Id)
    requires u !in Run(ops).live && forall i: Id :: i < u ==> i in Run(ops).live
    ensures var w := Run(ops);
            Run(ops + [Login]) ==
            w.(live := w.live + {u}, names := w.names[u := "(no name)"], hist := w.hist + [Came(u)])
  {
    hide Run;
    RunMore(ops, Login);
    LeastFreeIsLeast(Run(ops).live, 1);
  }

  /** A logout destroys the pipes to the user and no others, and leaves the name. */
  lemma LogsOut(ops: seq<Op>, u: Id)
    requires u in Run(ops).live
    ensures var w, w' := Run(ops), Run(ops + [Exit(u)]);
            && w'.live == w.live - {u} && w'.names == w.names && w'.plain == w.plain
            && w'.mail == (map p | p in w.mail && p.1 != u :: w.mail[p])
            && w.hist < w'.hist && w'.hist[|w'.hist| - 1] == Gone(u)
            && forall t :: |w.hist| <= t < |w'.hist| - 1 ==> w'.hist[t].Dropped? && w'.hist[t].j == u
  {
    hide Run;
    RunMore(ops, Exit(u));
    DropsAll(Run(ops), u, 30);
  }

  lemma {:induction false} DropsAll(w: World, u: Id, n: nat)
    requires n <= 30
    ensures var v := DropAll(w, u, n);
            && v == w.(mail := (map p | p in w.mail && !(p.1 == u && p.0 <= n) :: w.mail[p]), hist := v.hist)
            && w.hist <= v.hist
            && forall t :: |w.hist| <= t < |v.hist| ==> v.hist[t].Dropped? && v.hist[t].j == u
  {
    if n != 0 {
      DropsAll(w, u, n - 1);
    }
  }

  /** Users 1, 2 and 3, and a pipe from 1 to 2 that holds `a`: `cat <1 >3` by user 2
      leaves just the pipe from 2 to 3, and it holds `a`. */
  lemma PassedOn(ops: seq<Op>, a: Bytes, cat: Work)
    requires Run(ops).live == {1, 2, 3} && Run(ops).mail == map[(1, 2) := a] && Run(ops).plain == map[]
    requires cat(Some(a)) == Some(a)
    ensures Does(ops, 2, SendTo(3, FromUser(1)), cat,
                 [Made(2, 3), Read(1, 2, a), Filled(2, 3, a), Taken(1, 2)], map[(2, 3) := a])
  {
    hide Run, Does, FifoName;
    SendReading(ops, 2, 3, 1, cat);
    var made := Run(ops).mail[(2, 3) := []];
    assert made[(1, 2)] == a;
    assert made[(2, 3) := a] - {(1, 2)} == map[(2, 3) := a];
    assert [Made(2, 3), Read(1, 2, a)] + Sends(2, 3, Some(a)) + [Taken(1, 2)] ==
           [Made(2, 3), Read(1, 2, a), Filled(2, 3, a), Taken(1, 2)];
  }
}
