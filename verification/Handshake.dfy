/**
 The handshake of Project2/shm by which a FIFO gets its reader: the sender makes
 the file and sends SIGPIPE, the receiver's handler looks at every possible
 sender and opens what it finds, the sender's open(2) waits for that. Every
 process is a state machine of single system calls, interleaved at will; a
 process has one pending bit, however many signals were sent to it, and its own
 calls wait while its handler runs.
 */
module Handshake {
  import opened UserPipes

  /** How far a process has come with a line that ends in `>N`. */
  datatype Send =
    | Idle
    | Created(to: Id)                  // mknod done, kill not yet
    | Told(to: Id)                     // kill done, open for writing not entered
    | Blocked(to: Id, serial: nat)     // in open(2): the name was found, the file has no reader
    | Failed                           // open(2) found no such file: err_dump ends the program

  /** How far it has come with consuming a FIFO, `<N`. */
  datatype Recv =
    | NotReading
    | Closed(from: Id)                 // the read end is closed, fifofd[from] still set
    | Cleared(from: Id)                // fifofd[from] is -1, unlink not yet

  datatype Processes = Processes(
    files: map<(Id, Id), nat>,   // the files with a FIFO's name, each with the serial number of its making
    plain: set<(Id, Id)>,        // those that are regular files
    held: map<(Id, Id), nat>,    // fifofd: the file user j opened for user i
    pending: set<Id>,            // receivers with a SIGPIPE not yet delivered
    scan: seq<Index>,            // next index of a running handler; 0: not running
    send: seq<Send>,
    recv: seq<Recv>,
    next: nat)

  type Index = k: nat | k < MAX_CLIENTS

  type State = s: Processes | Sized(s) ghost witness START

  predicate Sized(s: Processes) { |s.scan| == MAX_CLIENTS && |s.send| == MAX_CLIENTS && |s.recv| == MAX_CLIENTS }

  const START := Processes(map[], {}, map[], {}, Everyone(0), Everyone(Idle), Everyone(NotReading), 0)

  function Everyone<T>(x: T): seq<T> { seq(MAX_CLIENTS, _ => x) }

  datatype Action =
    | Mknod(i: Id, j: Id)
    | Kill(i: Id)
    | GiveUp(i: Id)              // the line ends without open: illegal symbol, or an earlier command failed
    | Lookup(i: Id)              // open for writing: returns, fails or starts to wait
    | Interrupt(j: Id)           // the signal is delivered: the handler starts
    | Scan(j: Id)                // the handler looks at one index
    | Alarm(i: Id)               // SIGALRM of a broadcast: a waiting open starts again
    | Close(j: Id, i: Id)        // `<i` was read: the last copy of the read end is closed
    | Clear(j: Id)               // then the entry is cleared
    | Unlink(j: Id)              // and the file removed
    | Redirect(u: Id, i: Id, j: Id)   // a line of u sends output to the file ".itoj"

  /** The main program of i can take a step: no handler runs on top of it. */
  predicate Running(s: State, i: Id) { s.scan[i] == 0 && s.send[i] != Failed }

  /** Receiver j has open the very file that sender i made. */
  predicate HasReader(s: State, i: Id, j: Id) {
    && (i, j) in s.files && (i, j) in s.held && s.held[(i, j)] == s.files[(i, j)]
    && s.recv[j] != Closed(i) && s.send[j] != Failed
  }

  predicate Enabled(s: State, a: Action) {
    match a
    case Mknod(i, j) => Running(s, i) && s.send[i] == Idle && s.recv[i] == NotReading && (i, j) !in s.files
    case Kill(i) => Running(s, i) && s.send[i].Created?
    case GiveUp(i) => Running(s, i) && s.send[i].Told?
    case Lookup(i) => Running(s, i) && s.send[i].Told?
    case Interrupt(j) => j in s.pending && Running(s, j)
    case Scan(j) => s.scan[j] != 0
    case Alarm(i) => Running(s, i)
    case Close(j, i) =>
      && Running(s, j) && s.recv[j] == NotReading && (s.send[j] == Idle || s.send[j].Told?)
      && (i, j) in s.held
    case Clear(j) => Running(s, j) && s.send[j] == Idle && s.recv[j].Closed?
    case Unlink(j) => Running(s, j) && s.send[j] == Idle && s.recv[j].Cleared?
    case Redirect(u, _, _) => Running(s, u) && s.send[u] == Idle
  }

  /** open(2) starts again after a signal handler: the name will be looked up anew. */
  function Restarted(p: Send): Send { if p.Blocked? then Told(p.to) else p }

  function Do(s: State, a: Action): State {
    match a
    case Mknod(i, j) => s.(files := s.files[(i, j) := s.next], next := s.next + 1, send := s.send[i := Created(j)])
    case Kill(i) =>
      if !s.send[i].Created? then s
      else s.(pending := s.pending + {s.send[i].to}, send := s.send[i := Told(s.send[i].to)])
    case GiveUp(i) => s.(send := s.send[i := Idle])
    case Lookup(i) => if s.send[i].Told? then s.(send := s.send[i := Opening(s, i, s.send[i].to)]) else s
    case Interrupt(j) =>
      s.(pending := s.pending - {j}, scan := s.scan[j := 1], send := s.send[j := Restarted(s.send[j])])
    case Scan(j) => Visit(s, j, s.scan[j])
    case Alarm(i) => s.(send := s.send[i := Restarted(s.send[i])])
    case Close(j, i) => s.(recv := s.recv[j := Closed(i)])
    case Clear(j) =>
      if !s.recv[j].Closed? then s
      else s.(held := s.held - {(s.recv[j].from, j)}, recv := s.recv[j := Cleared(s.recv[j].from)])
    case Unlink(j) =>
      if !s.recv[j].Cleared? then s
      else s.(files := s.files - {(s.recv[j].from, j)}, plain := s.plain - {(s.recv[j].from, j)},
              recv := s.recv[j := NotReading])
    case Redirect(_, i, j) => Redirected(s, i, j)
  }

  /** open(2) with O_RDWR, O_CREAT and O_TRUNC: a regular file if there is none of
      that name; a FIFO has a reader for a moment, and lets a waiting sender go. */
  function Redirected(s: State, i: Id, j: Id): State {
    if (i, j) !in s.files then s.(files := s.files[(i, j) := s.next], plain := s.plain + {(i, j)}, next := s.next + 1)
    else if (i, j) !in s.plain && s.send[i] == Blocked(j, s.files[(i, j)]) then s.(send := s.send[i := Idle])
    else s
  }

  /** open(2) for writing finds the name once. */
  function Opening(s: State, i: Id, j: Id): Send {
    if (i, j) !in s.files then Failed
    else if (i, j) in s.plain || HasReader(s, i, j) then Idle
    else Blocked(j, s.files[(i, j)])
  }

  /** The handler of j opens the FIFO from user k at this step. */
  predicate Opens(s: State, j: Id, k: Id) { (k, j) in s.files && (k, j) !in s.held }

  /** One round of the loop of `sigPipe`, at index k. A sender that waits for this
      very file is let go. */
  function Visit(s: State, j: Id, k: Index): State {
    if k == 0 then s
    else
      var t := s.(scan := s.scan[j := if k == 30 then 0 else k + 1]);
      if Opens(s, j, k) then
        t.(held := t.held[(k, j) := s.files[(k, j)]],
           send := if s.send[k] == Blocked(j, s.files[(k, j)]) then s.send[k := Idle] else s.send)
      else t
  }

  // ---------- runs ----------

  function After(s: State, actions: seq<Action>): State {
    if actions == [] then s else Do(After(s, actions[..|actions| - 1]), actions[|actions| - 1])
  }

  /** Every action was enabled when it was taken. */
  predicate Runs(s: State, actions: seq<Action>) {
    actions == [] ||
    (Runs(s, actions[..|actions| - 1]) && Enabled(After(s, actions[..|actions| - 1]), actions[|actions| - 1]))
  }

  lemma RunMore(s: State, actions: seq<Action>, a: Action)
    requires Runs(s, actions) && Enabled(After(s, actions), a)
    ensures Runs(s, actions + [a]) && After(s, actions + [a]) == Do(After(s, actions), a)
  {
    assert (actions + [a])[..|actions|] == actions;
  }

  // ---------- no lost wake-up ----------

  /** Something is still going to make receiver j look at sender i. */
  predicate WillLook(s: State, i: Id, j: Id) {
    s.send[i] == Created(j) || j in s.pending || 1 <= s.scan[j] <= i || s.recv[j] == Cleared(i)
  }

  predicate Inv(s: State, i: Id, j: Id) {
    && ((i, j) in s.files && (i, j) !in s.plain && (i, j) !in s.held ==> WillLook(s, i, j))
    && ((i, j) in s.plain ==> (i, j) in s.files)
    && (s.recv[j] == Closed(i) ==> (i, j) in s.held)
    && (s.send[i].Blocked? && s.send[i].to == j && (i, j) in s.files && (i, j) !in s.plain ==>
          s.send[i].serial == s.files[(i, j)])
  }

  lemma DoKeepsInv(s: State, a: Action, i: Id, j: Id)
    requires Inv(s, i, j) && Enabled(s, a)
    ensures Inv(Do(s, a), i, j)
  {
  }

  /** No lost wake-up: after every run, a FIFO whose receiver has no entry for it
      will still be looked at. */
  lemma {:induction false} NoLostWakeUp(actions: seq<Action>, i: Id, j: Id)
    requires Runs(START, actions)
    ensures Inv(After(START, actions), i, j)
  {
    hide Inv, Do, Enabled;
    if actions != [] {
      NoLostWakeUp(actions[..|actions| - 1], i, j);
      DoKeepsInv(After(START, actions[..|actions| - 1]), actions[|actions| - 1], i, j);
    } else {
      NothingYet(i, j);
    }
  }

  // ---------- which senders can finish ----------

  /** A receiver that has nothing left to do: no signal pending, no handler
      running, no FIFO half consumed. */
  predicate Quiet(s: State, j: Id) {
    j !in s.pending && Running(s, j) && s.recv[j] == NotReading
  }

  /** Sender i has told j of a FIFO and has not opened it. */
  predicate Awaits(s: State, i: Id, j: Id) {
    s.send[i] == Told(j) || (s.send[i].Blocked? && s.send[i].to == j)
  }

  /** The open of i returns at once, with the FIFO it made. */
  predicate CanFinish(s: State, i: Id, j: Id) { s.send[i] == Told(j) && (i, j) !in s.plain && HasReader(s, i, j) }

  /** Receiver j has read the FIFO i->j, to its end, since i made it. */
  predicate ReadSinceMade(actions: seq<Action>, i: Id, j: Id) {
    actions != [] &&
    var front, a := actions[..|actions| - 1], actions[|actions| - 1];
    a == Close(j, i) || (a != Mknod(i, j) && ReadSinceMade(front, i, j))
  }

  /** When i made the FIFO, j still had an entry for an older one, or had cleared
      it and not yet removed the file. */
  predicate MadeOverLeftover(actions: seq<Action>, i: Id, j: Id) {
    actions != [] &&
    var front, a := actions[..|actions| - 1], actions[|actions| - 1];
    if a == Mknod(i, j) then Leftover(After(START, front), i, j) else MadeOverLeftover(front, i, j)
  }

  predicate Leftover(s: State, i: Id, j: Id) { (i, j) in s.held || s.recv[j] == Cleared(i) }

  predicate Reading(s: State, i: Id, j: Id) { s.recv[j] == Closed(i) || s.recv[j] == Cleared(i) }

  /** What the two causes leave behind, while i is on its way to its open. */
  predicate Attempt(s: State, doomed: bool, i: Id, j: Id) {
    if doomed then
      || (i, j) !in s.files || (i, j) in s.plain || Reading(s, i, j)
      || ((i, j) in s.held && s.held[(i, j)] != s.files[(i, j)])
    else
      && (i, j) in s.files && (i, j) !in s.plain && !Reading(s, i, j)
      && ((i, j) in s.held ==> s.held[(i, j)] == s.files[(i, j)])
      && (s.send[i].Blocked? ==> (i, j) !in s.held || s.send[j] == Failed)
  }

  predicate OnItsWay(s: State, i: Id, j: Id) { s.send[i] == Created(j) || Awaits(s, i, j) }

  /** Serial numbers are new. */
  predicate Fresh(s: State, i: Id, j: Id) {
    ((i, j) in s.files ==> s.files[(i, j)] < s.next) && ((i, j) in s.held ==> s.held[(i, j)] < s.next)
  }

  lemma DoKeepsAttempt(s: State, a: Action, doomed: bool, i: Id, j: Id)
    requires Inv(s, i, j) && Fresh(s, i, j) && Enabled(s, a)
    requires OnItsWay(s, i, j) ==> Attempt(s, doomed, i, j)
    ensures Fresh(Do(s, a), i, j)
    ensures OnItsWay(Do(s, a), i, j) ==> Attempt(Do(s, a), Dooms(s, a, doomed, i, j), i, j)
  {
    hide Attempt, Do, Inv;
    FreshStays(s, a, i, j);
    if a == Mknod(i, j) {
      FirstAttempt(s, i, j);
    } else if OnItsWay(Do(s, a), i, j) {
      WasOnItsWay(s, a, i, j);
      if doomed || a == Close(j, i) {
        StaysDoomed(s, a, i, j);
      } else {
        StaysHopeful(s, a, i, j);
      }
    }
  }

  predicate Dooms(s: State, a: Action, doomed: bool, i: Id, j: Id) {
    if a == Mknod(i, j) then Leftover(s, i, j) else doomed || a == Close(j, i)
  }

  lemma FreshStays(s: State, a: Action, i: Id, j: Id)
    requires Fresh(s, i, j) && Enabled(s, a)
    ensures Fresh(Do(s, a), i, j)
  {
  }

  lemma WasOnItsWay(s: State, a: Action, i: Id, j: Id)
    requires Enabled(s, a) && a != Mknod(i, j) && OnItsWay(Do(s, a), i, j)
    ensures OnItsWay(s, i, j)
  {
  }

  lemma FirstAttempt(s: State, i: Id, j: Id)
    requires Inv(s, i, j) && Fresh(s, i, j) && Enabled(s, Mknod(i, j))
    ensures Attempt(Do(s, Mknod(i, j)), Leftover(s, i, j), i, j)
  {
  }

  lemma StaysDoomed(s: State, a: Action, i: Id, j: Id)
    requires OnItsWay(s, i, j) && Fresh(s, i, j) && Enabled(s, a)
    requires Attempt(s, true, i, j) || a == Close(j, i)
    ensures Attempt(Do(s, a), true, i, j)
  {
  }

  lemma StaysHopeful(s: State, a: Action, i: Id, j: Id)
    requires Inv(s, i, j) && OnItsWay(Do(s, a), i, j) && Enabled(s, a) && a != Mknod(i, j) && a != Close(j, i)
    requires OnItsWay(s, i, j) && Attempt(s, false, i, j)
    ensures Attempt(Do(s, a), false, i, j)
  {
  }

  lemma {:induction false} AttemptInRun(actions: seq<Action>, i: Id, j: Id)
    requires Runs(START, actions)
    ensures Fresh(After(START, actions), i, j)
    ensures var s := After(START, actions);
            OnItsWay(s, i, j) ==> Attempt(s, ReadSinceMade(actions, i, j) || MadeOverLeftover(actions, i, j), i, j)
  {
    hide Fresh, Attempt, OnItsWay, Inv, Enabled, Do;
    if actions != [] {
      var front, a := actions[..|actions| - 1], actions[|actions| - 1];
      AttemptInRun(front, i, j);
      NoLostWakeUp(front, i, j);
      DoKeepsAttempt(After(START, front), a, ReadSinceMade(front, i, j) || MadeOverLeftover(front, i, j), i, j);
    } else {
      NothingYet(i, j);
    }
  }

  lemma NothingYet(i: Id, j: Id)
    ensures Fresh(START, i, j) && !OnItsWay(START, i, j) && Inv(START, i, j) && Tidy(START, i, j)
  {
  }

  /** Every run: when the receiver is quiet, a sender that has told it can finish
      its open exactly when the receiver has not read that FIFO since it was made
      and nothing of an older one was left when it was made. */
  lemma FinishesIff(actions: seq<Action>, i: Id, j: Id)
    requires Runs(START, actions)
    requires var s := After(START, actions); Quiet(s, j) && Awaits(s, i, j)
    ensures CanFinish(After(START, actions), i, j) <==>
            !ReadSinceMade(actions, i, j) && !MadeOverLeftover(actions, i, j)
  {
    NoLostWakeUp(actions, i, j);
    AttemptInRun(actions, i, j);
  }

  /** What open(2) for writing does to a sender that has told its receiver: it returns
      at once exactly when the file is there and is a regular one, or a FIFO that a
      receiver's program which has not ended has open and did not close; it fails
      exactly when there is no file; otherwise it waits, for that very file. */
  lemma OpenOutcome(s: State, i: Id, j: Id)
    requires Enabled(s, Lookup(i)) && s.send[i] == Told(j)
    ensures var after := Do(s, Lookup(i)).send[i];
            && (after == Idle <==>
                  && (i, j) in s.files
                  && ((i, j) in s.plain
                      || ((i, j) in s.held && s.held[(i, j)] == s.files[(i, j)]
                          && s.recv[j] != Closed(i) && s.send[j] != Failed)))
            && (after == Failed <==> (i, j) !in s.files)
            && (after != Idle && after != Failed ==> after == Blocked(j, s.files[(i, j)]))
    ensures Do(s, Lookup(i)) == s.(send := s.send[i := Do(s, Lookup(i)).send[i]])
  {
  }

  /** The same on the step itself: in every run, when the receiver is quiet, the
      sender's next step opens the FIFO exactly under those two conditions. */
  lemma OpensIff(actions: seq<Action>, i: Id, j: Id)
    requires Runs(START, actions)
    requires var s := After(START, actions); Quiet(s, j) && s.send[i] == Told(j) && Enabled(s, Lookup(i))
    ensures var s := After(START, actions);
            var t := Do(s, Lookup(i));
            t.send[i] == Idle && (i, j) in t.files && (i, j) !in t.plain <==>
            !ReadSinceMade(actions, i, j) && !MadeOverLeftover(actions, i, j)
  {
    hide Quiet, Runs, ReadSinceMade, MadeOverLeftover;
    FinishesIff(actions, i, j);
  }

  /** A waiting sender is let go by the handler only when it opens the very file, and
      by a redirection to it; a signal of its own makes it look again. */
  lemma LetGoIff(s: State, a: Action, i: Id, j: Id, serial: nat)
    requires Enabled(s, a) && s.send[i] == Blocked(j, serial)
    ensures Do(s, a).send[i] == Idle <==>
            && (i, j) in s.files && s.files[(i, j)] == serial
            && ((a == Scan(j) && s.scan[j] == i && (i, j) !in s.held)
                || (a.Redirect? && a.i == i && a.j == j && (i, j) !in s.plain))
    ensures Do(s, a).send[i] == Told(j) <==> a == Interrupt(i) || a == Alarm(i)
    ensures Do(s, a).send[i] == Idle || Do(s, a).send[i] == Told(j) || Do(s, a).send[i] == s.send[i]
  {
  }

  /** A file with the FIFO's name comes only with mknod or a redirection, and goes
      only with the receiver's unlink of what it has read; meanwhile it is the same file. */
  lemma FileChangesIff(s: State, a: Action, i: Id, j: Id)
    requires Enabled(s, a) && ((i, j) in s.plain ==> (i, j) in s.files)
    ensures var t, named := Do(s, a), a.Redirect? && a.i == i && a.j == j;
            && ((i, j) !in s.files ==> ((i, j) in t.files <==> a == Mknod(i, j) || named))
            && ((i, j) in s.files ==> ((i, j) !in t.files <==> a == Unlink(j) && s.recv[j] == Cleared(i)))
            && ((i, j) in s.files && (i, j) in t.files ==> t.files[(i, j)] == s.files[(i, j)])
            && ((i, j) in t.plain <==> (i, j) in t.files && ((i, j) in s.plain || (named && (i, j) !in s.files)))
  {
  }

  /** The receiver's entry comes only when its handler looks and finds the file, and
      goes only when it is cleared after reading. */
  lemma EntryChangesIff(s: State, a: Action, i: Id, j: Id)
    requires Enabled(s, a)
    ensures var t := Do(s, a);
            && ((i, j) !in s.held ==> ((i, j) in t.held <==> a == Scan(j) && s.scan[j] == i && (i, j) in s.files))
            && ((i, j) !in s.held && (i, j) in t.held ==> t.held[(i, j)] == s.files[(i, j)])
            && ((i, j) in s.held ==> ((i, j) !in t.held <==> a == Clear(j) && s.recv[j] == Closed(i)))
            && ((i, j) in s.held && (i, j) in t.held ==> t.held[(i, j)] == s.held[(i, j)])
  {
  }

  /** The handler is about to open a file whose entry was cleared but which is not removed yet. */
  predicate Racy(s: State, a: Action) {
    a.Scan? && s.scan[a.j] != 0 && s.recv[a.j] == Cleared(s.scan[a.j])
  }

  predicate RaceFree(s: State, actions: seq<Action>) {
    actions == [] ||
    (RaceFree(s, actions[..|actions| - 1]) && !Racy(After(s, actions[..|actions| - 1]), actions[|actions| - 1]))
  }

  /** No entry outlives its file. */
  predicate Tidy(s: State, i: Id, j: Id) {
    && ((i, j) in s.held ==> (i, j) in s.files && s.held[(i, j)] == s.files[(i, j)])
    && (s.recv[j] == Cleared(i) ==> (i, j) in s.files && (i, j) !in s.held)
    && (s.recv[j] == Closed(i) ==> (i, j) in s.held)
  }

  lemma DoKeepsTidy(s: State, a: Action, i: Id, j: Id)
    requires Tidy(s, i, j) && Enabled(s, a) && !Racy(s, a)
    ensures Tidy(Do(s, a), i, j)
  {
  }

  /** Without the race nothing is ever left over. */
  lemma {:induction false} NoLeftovers(actions: seq<Action>, i: Id, j: Id)
    requires Runs(START, actions) && RaceFree(START, actions)
    ensures Tidy(After(START, actions), i, j) && !MadeOverLeftover(actions, i, j)
  {
    hide Do;
    if actions != [] {
      NoLeftovers(actions[..|actions| - 1], i, j);
      DoKeepsTidy(After(START, actions[..|actions| - 1]), actions[|actions| - 1], i, j);
    } else {
      NothingYet(i, j);
    }
  }

  /** A quiet receiver blocks nobody, in a run without the race, exactly as long as
      it did not read the FIFO before the sender opened it. If it did, the open
      waits already, or will find no file and end the sender's program, or a
      redirection has put a regular file in its place. */
  lemma QuietReceiverBlocksNobody(actions: seq<Action>, i: Id, j: Id)
    requires Runs(START, actions) && RaceFree(START, actions)
    requires var s := After(START, actions); Quiet(s, j) && Awaits(s, i, j)
    ensures var s := After(START, actions);
            && (CanFinish(s, i, j) <==> !ReadSinceMade(actions, i, j))
            && (!CanFinish(s, i, j) ==>
                  || (i, j) in s.plain
                  || ((i, j) !in s.files && (s.send[i].Blocked? || Do(s, Lookup(i)).send[i] == Failed)))
  {
    NoLeftovers(actions, i, j);
    FinishesIff(actions, i, j);
    AttemptInRun(actions, i, j);
  }

  /** A sender whose file is gone while it waits is let go by nothing but a signal to itself. */
  lemma {:induction false} AbandonedForEver(s: State, actions: seq<Action>, i: Id, j: Id)
    requires Abandoned(s, i, j)
    requires Runs(s, actions) && Interrupt(i) !in actions && Alarm(i) !in actions
    ensures Abandoned(After(s, actions), i, j)
  {
    hide Abandoned, Do, Enabled;
    if actions != [] {
      AbandonedForEver(s, actions[..|actions| - 1], i, j);
      assert actions[|actions| - 1] in actions;
      StillAbandoned(After(s, actions[..|actions| - 1]), actions[|actions| - 1], i, j);
    }
  }

  predicate Abandoned(s: State, i: Id, j: Id) {
    && s.send[i].Blocked? && s.send[i].to == j && s.send[i].serial < s.next
    && ((i, j) in s.files ==> s.files[(i, j)] != s.send[i].serial)
  }

  lemma StillAbandoned(s: State, a: Action, i: Id, j: Id)
    requires Abandoned(s, i, j) && Enabled(s, a) && a != Interrupt(i) && a != Alarm(i)
    ensures Abandoned(Do(s, a), i, j)
  {
  }

  // ---------- one run of the handler ----------

  function Scans(j: Id, n: nat): seq<Action> { seq(n, _ => Scan(j)) }

  /** The handler of j has looked at the indices from `from` up to, not including, `upto`. */
  ghost predicate Scanned(s: State, t: State, j: Id, from: nat, upto: nat)
    requires from <= upto <= MAX_CLIENTS
  {
    && t == s.(held := t.held, scan := s.scan[j := if upto == MAX_CLIENTS then 0 else upto], send := t.send)
    && (forall p :: p in s.held ==> p in t.held && t.held[p] == s.held[p])
    && (forall i: Id, k: Id :: (i, k) in t.held && (i, k) !in s.held ==> k == j && from <= i < upto)
    && (forall i: Id :: from <= i < upto && Opens(s, j, i) ==>
          (i, j) in t.held && t.held[(i, j)] == s.files[(i, j)])
    && (forall i: Id :: (i, j) in t.held && (i, j) !in s.held ==> (i, j) in s.files)
    && t.send[0] == s.send[0]
    && (forall i: Id :: t.send[i] == if from <= i < upto && Opens(s, j, i) && s.send[i] == Blocked(j, s.files[(i, j)])
                                     then Idle else s.send[i])
  }

  /** One run of the handler is enough for all senders, however many signals it
      stands for: after it every FIFO to j, from the current index on, has a
      reader, every sender waiting for one of them is let go, and nothing else changed. */
  lemma {:induction false} HandlerOpensAll(s: State, j: Id, n: nat)
    requires s.scan[j] != 0 && s.scan[j] + n <= 31
    ensures Runs(s, Scans(j, n)) && Scanned(s, After(s, Scans(j, n)), j, s.scan[j], s.scan[j] + n)
  {
    hide Scanned, Do, Enabled, After, Runs;
    if n == 0 {
      assert Scans(j, 0) == [];
      NoRun(s);
      NoLook(s, j);
    } else {
      HandlerOpensAll(s, j, n - 1);
      OneLook(s, After(s, Scans(j, n - 1)), j, s.scan[j] + n - 1);
      assert Scans(j, n) == Scans(j, n - 1) + [Scan(j)];
      RunMore(s, Scans(j, n - 1), Scan(j));
    }
  }

  lemma NoRun(s: State)
    ensures Runs(s, []) && After(s, []) == s
  {
  }

  lemma NoLook(s: State, j: Id)
    requires s.scan[j] != 0
    ensures Scanned(s, s, j, s.scan[j], s.scan[j])
  {
    assert s.scan[j := s.scan[j]] == s.scan;
  }

  lemma OneLook(s: State, t: State, j: Id, k: nat)
    requires 1 <= s.scan[j] <= k <= 30 && Scanned(s, t, j, s.scan[j], k)
    ensures Enabled(t, Scan(j)) && Scanned(s, Do(t, Scan(j)), j, s.scan[j], k + 1)
  {
    var next := if k == 30 then 0 else k + 1;
    assert s.scan[j := k][j := next] == s.scan[j := next];
    assert Opens(t, j, k) <==> Opens(s, j, k);
    if Opens(s, j, k) {
      OneOpened(s, t, j, k);
    }
  }

  lemma OneOpened(s: State, t: State, j: Id, k: nat)
    requires 1 <= s.scan[j] <= k <= 30 && Scanned(s, t, j, s.scan[j], k) && Opens(s, j, k) && Opens(t, j, k)
    ensures Scanned(s, Do(t, Scan(j)), j, s.scan[j], k + 1)
  {
    var next := if k == 30 then 0 else k + 1;
    assert s.scan[j := k][j := next] == s.scan[j := next];
  }

  // ---------- the race ----------

  /** Some handler step of j in the run was racy. */
  predicate Raced(s: State, actions: seq<Action>, j: Id) {
    actions != [] &&
    var front, a := actions[..|actions| - 1], actions[|actions| - 1];
    (Racy(After(s, front), a) && a.j == j) || Raced(s, front, j)
  }

  /** While j is between clearing the entry of i and removing the file, the entry
      comes back exactly when j's handler looks at i in that window. */
  lemma {:induction false} EntryReturnsIffRaced(s: State, actions: seq<Action>, i: Id, j: Id)
    requires Consuming(s, i, j) && Runs(s, actions) && Unlink(j) !in actions
    ensures Consuming(After(s, actions), i, j)
    ensures (i, j) in After(s, actions).held <==> (i, j) in s.held || Raced(s, actions, j)
  {
    hide Consuming, Do, Enabled, Racy;
    if actions != [] {
      assert actions[|actions| - 1] in actions;
      EntryReturnsIffRaced(s, actions[..|actions| - 1], i, j);
      StillConsuming(After(s, actions[..|actions| - 1]), actions[|actions| - 1], i, j);
    }
  }

  predicate Consuming(s: State, i: Id, j: Id) { s.recv[j] == Cleared(i) && (i, j) in s.files }

  lemma StillConsuming(s: State, a: Action, i: Id, j: Id)
    requires Consuming(s, i, j) && Enabled(s, a) && a != Unlink(j)
    ensures Consuming(Do(s, a), i, j)
    ensures (i, j) in Do(s, a).held <==> (i, j) in s.held || (Racy(s, a) && a.j == j)
  {
  }

  /** User j has an entry for a file of user i that is gone. */
  predicate Stale(s: State, i: Id, j: Id) {
    && (i, j) in s.held && s.held[(i, j)] < s.next && !Reading(s, i, j)
    && ((i, j) in s.files ==> s.files[(i, j)] != s.held[(i, j)])
  }

  /** After the race no wake-up reaches the sender: whatever anyone does, unless j
      itself types `<i`, no open of i towards j finds a reader. */
  lemma {:induction false} StaleBlocksForEver(s: State, actions: seq<Action>, i: Id, j: Id)
    requires Stale(s, i, j) && Runs(s, actions) && Close(j, i) !in actions
    ensures Stale(After(s, actions), i, j) && !CanFinish(After(s, actions), i, j)
  {
    hide Do, Enabled;
    if actions != [] {
      assert actions[|actions| - 1] in actions;
      StaleBlocksForEver(s, actions[..|actions| - 1], i, j);
      StillStale(After(s, actions[..|actions| - 1]), actions[|actions| - 1], i, j);
    }
  }

  lemma StillStale(s: State, a: Action, i: Id, j: Id)
    requires Stale(s, i, j) && Enabled(s, a) && a != Close(j, i)
    ensures Stale(Do(s, a), i, j)
  {
  }

  // ---------- two runs that leave a sender behind ----------

  ghost predicate Reaches(actions: seq<Action>, s: State) { Runs(START, actions) && After(START, actions) == s }

  lemma Reach(actions: seq<Action>, s: State, a: Action) returns (more: seq<Action>, t: State)
    requires Reaches(actions, s) && Enabled(s, a)
    ensures Reaches(more, t) && t == Do(s, a) && more == actions + [a]
    ensures RaceFree(START, actions) && !Racy(s, a) ==> RaceFree(START, more)
    ensures forall i: Id, j: Id ::
              ReadSinceMade(more, i, j) <==> a == Close(j, i) || (a != Mknod(i, j) && ReadSinceMade(actions, i, j))
  {
    hide Do, Enabled, Racy;
    more, t := actions + [a], Do(s, a);
    assert more[..|actions|] == actions;
  }

  /** A whole run of the handler of j. */
  lemma {:induction false} ReachScanned(actions: seq<Action>, s: State, j: Id, n: nat)
    returns (more: seq<Action>, t: State)
    requires Reaches(actions, s) && s.scan[j] == 1 && n <= 30
    ensures Reaches(more, t) && Scanned(s, t, j, 1, 1 + n)
    ensures RaceFree(START, actions) && !s.recv[j].Cleared? ==> RaceFree(START, more)
    decreases n
  {
    hide Scanned, Do, Enabled, Reaches, RaceFree;
    if n == 0 {
      more, t := actions, s;
      NoLook(s, j);
    } else {
      var a, u := ReachScanned(actions, s, j, n - 1);
      OneLook(s, u, j, n);
      more, t := Reach(a, u, Scan(j));
      ScannedReceiver(s, u, j, n);
    }
  }

  lemma ScannedReceiver(s: State, t: State, j: Id, upto: nat)
    requires 1 <= upto <= MAX_CLIENTS && Scanned(s, t, j, 1, upto)
    ensures t.recv == s.recv
  {
  }

  /** User 1 makes a FIFO to user 2 and tells it; user 2 opens it. */
  lemma FirstPipeOpen() returns (a: seq<Action>, s: State)
    ensures Reaches(a, s) && RaceFree(START, a)
    ensures s.files == map[(1, 2) := 0] && s.held == map[(1, 2) := 0] && s.pending == {} && s.next == 1 && s.plain == {}
    ensures s.scan == START.scan && s.recv == START.recv && s.send == START.send[1 := Told(2)]
  {
    hide Reaches, RaceFree, ReadSinceMade;
    a, s := NothingDone();
    a, s := Reach(a, s, Mknod(1, 2));
    a, s := Reach(a, s, Kill(1));
    a, s := Reach(a, s, Interrupt(2));
    var t := s;
    assert t.send == START.send[1 := Told(2)];
    a, s := ReachScanned(a, t, 2, 30);
    OnlyOneOpened(t, s);
  }

  lemma NothingDone() returns (a: seq<Action>, s: State)
    ensures Reaches(a, s) && RaceFree(START, a) && s == START
  {
    a, s := [], START;
  }

  lemma OnlyOneOpened(s: State, t: State)
    requires s.files == map[(1, 2) := 0] && s.held == map[] && s.scan == START.scan[2 := 1]
    requires s.send == START.send[1 := Told(2)] && Scanned(s, t, 2, 1, 31)
    ensures t.held == map[(1, 2) := 0] && t.send == s.send && t.scan == START.scan
    ensures t.files == s.files && t.plain == s.plain && t.pending == s.pending && t.recv == s.recv && t.next == s.next
  {
    assert Opens(s, 2, 1);
    assert forall p :: p in t.held ==> p == (1, 2);
    assert s.scan[2 := 0] == START.scan;
    assert forall i: Id :: t.send[i] == s.send[i];
  }

  /** Without any race: user 2 reads before user 1 has opened. User 1 enters its
      open while the file is still there and nobody will ever open it again. */
  lemma HastyReadHappens()
    ensures exists actions, s ::
              && Reaches(actions, s) && RaceFree(START, actions) && Quiet(s, 2)
              && Abandoned(s, 1, 2) && ReadSinceMade(actions, 1, 2)
  {
    hide Reaches, RaceFree, ReadSinceMade;
    var a, s := FirstPipeOpen();
    a, s := Reach(a, s, Close(2, 1));
    a, s := Reach(a, s, Lookup(1));
    assert s.send[1] == Blocked(2, 0);
    a, s := Reach(a, s, Clear(2));
    a, s := Reach(a, s, Unlink(2));
    assert Quiet(s, 2) && Abandoned(s, 1, 2);
  }

  /** With the race: user 1 has sent user 2 a second FIFO and waits to open it,
      while user 2 holds a descriptor of the first, removed one. A third user's
      signal, handled between the two calls that consume the first FIFO, is enough. */
  lemma RaceHappens()
    ensures exists actions, s :: Reaches(actions, s) && Quiet(s, 2) && Stale(s, 1, 2) && s.send[1] == Blocked(2, 2)
  {
    hide Reaches, RaceFree, ReadSinceMade, Scanned;
    var a, s := ThirdUserSignals();
    var t;
    a, t := ReachScanned(a, s, 2, 30);
    RacyScan(s, t);
    a, t := SecondPipe(a, t);
    var u := t;
    a, t := ReachScanned(a, u, 2, 30);
    AfterRace(u, t);
    a, t := Reach(a, t, Lookup(1));
    assert Stale(t, 1, 2);
  }

  /** User 2 ends its reading, and user 1 makes its second FIFO to user 2. */
  lemma SecondPipe(actions: seq<Action>, s: State) returns (a: seq<Action>, t: State)
    requires Reaches(actions, s) && s.scan == START.scan && s.pending == {} && s.next == 2 && s.plain == {}
    requires s.send[1] == s.send[2] == Idle && s.recv[2] == Cleared(1) && s.recv[1] == NotReading
    requires (1, 2) in s.held && s.held[(1, 2)] == 0
    ensures Reaches(a, t) && t.scan == START.scan[2 := 1] && t.pending == {} && t.recv[2] == NotReading
    ensures Stale(t, 1, 2) && t.send[1] == Told(2) && t.send[2] == Idle
    ensures (1, 2) in t.files && t.files[(1, 2)] == 2 && t.plain == {}
  {
    hide Reaches, RaceFree, ReadSinceMade;
    a, t := Reach(actions, s, Unlink(2));
    a, t := Reach(a, t, Mknod(1, 2));
    a, t := Reach(a, t, Kill(1));
    a, t := Reach(a, t, Interrupt(2));
  }

  /** The state in which the handler of user 2 starts: its entry for user 1 is
      cleared, the file is still there. */
  ghost predicate BeforeRace(s: State) {
    && s.scan == START.scan[2 := 1] && s.pending == {} && s.next == 2 && s.plain == {}
    && s.send == START.send[3 := Told(2)] && s.recv == START.recv[2 := Cleared(1)]
    && s.files == map[(1, 2) := 0, (3, 2) := 1] && s.held == map[]
  }

  lemma ThirdUserSignals() returns (a: seq<Action>, s: State)
    ensures Reaches(a, s) && BeforeRace(s)
  {
    hide Reaches, RaceFree, ReadSinceMade;
    a, s := FirstPipeOpen();
    a, s := Reach(a, s, Lookup(1));
    assert s.send == START.send;
    a, s := Reach(a, s, Close(2, 1));
    a, s := Reach(a, s, Clear(2));
    a, s := Reach(a, s, Mknod(3, 2));
    a, s := Reach(a, s, Kill(3));
    a, s := Reach(a, s, Interrupt(2));
  }

  lemma RacyScan(s: State, t: State)
    requires BeforeRace(s) && Scanned(s, t, 2, 1, 31)
    ensures (1, 2) in t.held && t.held[(1, 2)] == 0 && t.scan == START.scan && t.pending == {} && t.next == 2
    ensures t.send[1] == t.send[2] == Idle && t.recv == s.recv && t.files == s.files && t.plain == {}
  {
    assert Opens(s, 2, 1);
    assert s.scan[2 := 0] == START.scan;
  }

  lemma AfterRace(s: State, t: State)
    requires s.scan == START.scan[2 := 1] && Stale(s, 1, 2) && s.send[1] == Told(2) && s.send[2] == Idle
    requires Scanned(s, t, 2, 1, 31)
    ensures Stale(t, 1, 2) && t.send[1] == Told(2) && t.send[2] == Idle && t.scan == START.scan
    ensures t.recv == s.recv && t.files == s.files && t.plain == s.plain && t.pending == s.pending
  {
    assert s.scan[2 := 0] == START.scan;
  }
}
