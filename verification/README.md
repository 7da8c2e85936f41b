# Verified model of the network-programming servers

The repository holds four generations of servers: a remote shell with pipes
that skip lines (Project1), two chat servers built on it that add pipes between
users (Project2, one event loop and one process per user), and a SOCKS 4 proxy
with a white list and a web client (Project4). This project models their state
machines and proves what they are for.

| file | what it models |
|---|---|
| `Common.dfy` | options and bytes |
| `Text.dfy` | decimal numbers and FIFO names |
| `Routing.dfy` | what numbered pipes mean: a post office with one parcel per later line, and the relation "line j writes to line j + N" |
| `Pipelines.dfy` | what running one line means in each of the three programs, command by command |
| `LineList.dfy` | the linked list of line nodes with `curnode`, `tailnode`, `linecount` |
| `Kernel.dfy` | a descriptor table with lowest-free-number allocation, pipes, open, close, exec |
| `Ledger.dfy` | who owns which descriptor, and the operations that keep the books balanced |
| `Engine.dfy` | `create_linenode`, `execute_cmdline`, `creat_proc` and the dispatch of lines, refining the post office |
| `UserPipes.dfy` | what user pipes mean: users, names, one parcel per ordered pair, the regular files beside them, a history of events |
| `UserLines.dfy` | what each form of line does to the user pipes, by events and mail |
| `SelectServer.dfy` | the event loop with `clidata`, `allfds`, FIFO files and descriptors, refining `UserPipes` |
| `Handshake.dfy` | mknod, kill, the scanning signal handler, the blocking open and the consuming close, clear and unlink as interleaved steps |
| `FrontEnd.dfy` | packets, batches, lines, trimming, strtok_r |
| `CommandLine.dfy` | suffixes, file names, commands and words |
| `SharedTable.dfy` | all clients of the select server in one process, on one descriptor table: no interference, and what a logout leaves open |
| `Client.dfy` | one client of Project1 from its packets to its screen |
| `Firewall.dfy`, `Address.dfy`, `Rules.dfy` | masks and intervals, addresses, the white list |
| `Socks.dfy`, `Relay.dfy` | SOCKS 4 messages, the order of a session, the relay loop |
| `Renderer.dfy`, `Display.dfy` | the text of the script the web client emits, and what a browser shows of it |

How the pieces fit. The imperative classes (`List`, `Os`, `Shell`, `Server`,
`WhiteList`) follow the C functions; each of their methods ties the new state to
a function of the old one. `Engine.RunSession` and `SelectServer.RunServer` lift
this to whole runs, and the properties a reader cares about are theorems about
the simple machines they refine. A `Role` is recorded with each descriptor:
`Os.Close` demands that the number is still open for the role it was made for,
so a stale or double close cannot verify; `Os.Exec` sets `stalled` when a reader
is started while somebody can still write, and the invariant of `Shell` forbids
it. The invariant also says what belongs to the other clients of the process and
that it is as they left it; `SharedTable` builds on that.

Where code and documents disagree, the model follows the code. Each of these has
its exact condition and a concrete input:

- `UserPipes.RenameTakesEffectIff`, `StaleNameIsRefused`: the name of a user who left stays reserved;
  Project2/spec/project2_spec_append.txt:111 reserves the names of users on line only.
- `Routing.LostDescriptors`, `PipeToBuiltinStaysOpen`: the pipe to a line that
  executes nothing is never closed; the requirements of Project1 ask for it
  (point 6 of "Requirements and Hints").
- `SharedTable.Departs`, `TableSize`: a logout frees the nodes of its client and
  closes none of the pipe ends they store, against the same point 6.
- `UserPipes.RedirectionMattersIff`, `RedirectionIsRead`, `RedirectionBlocks`: FIFOs live in the
  directory users write to, so a redirection to `.1to2` puts bytes into the pipe
  from user 1 to user 2, or takes its name for good; the rules know only `>2`
  (Project2/spec/project2_spec.txt:38-49).
- `CommandLine.BangSuffixKind`, `BangIsSwallowed`: with a redirection in the line,
  `!N` is swallowed by the file name.
- `Rules.LateRuleIsIgnored`, `RuleOneHundredAndOne`: rules after the hundredth
  have no effect.
- `Relay.UnansweredIff`, `BindWithoutSocket`, `OtherVersion`: a permitted BIND for which no socket
  is had ends without the reply with status 91 that SOCKS Protocol Version 4,
  section "2) BIND", asks for; a request of another version is dropped too.
- `Handshake.QuietReceiverBlocksNobody`, `HastyReadHappens`: the handshake only
  promises that the receiver opens the FIFO. If it reads before the sender has
  opened it, the sender waits for a removed file or ends at the look-up.
- `Handshake.FinishesIff`, `RaceHappens`: clearing `fifofd` and removing the file
  are two steps, and a signal between them can leave a later sender waiting for
  ever. The written rules exclude such timing (Project2/spec/project2_spec_append.txt:276).
- `UserPipes.EarlierHolderIff`, `EarlierHolderIsRead`: a pipe outlives the logout of
  its sender, and is then read as coming from whoever holds the id.
- `Renderer.LeavesTextIff`, `ColourAtTheEnd`: a text that ends in a colour or reset prefix makes the
  loop read past its end.
- `Display.DisplayTheorem`, `SemicolonIsLost`, `BackslashIsApostrophe`, `AmpersandIsRead`: `&lt` and
  `&gt` are printed without their semicolon, and a browser takes one that follows
  as theirs; a backslash is printed as the reference of the apostrophe, and `&` is
  printed as it is.

## Model

| member | source | states |
|---|---|---|
| Routing.RoutingTheorem | Project1/src/netshell.c:360-465 | for every session and all three programs: an assignment of inputs to lines is the one the shell hands out if and only if every line gets the concatenation, in line order, of what exactly the earlier lines that name it with `&#124;N` or `!N` sent |
| Routing.PipeIffSender | Project1/src/netshell.c:384-391 | a line has an input pipe exactly when some earlier line named it and reached its last command |
| Routing.OfficeHoldsGathered | Project1/src/netshell.c:408-428 | after any number of lines, the bytes waiting for any later line are what the relation gathers for it |
| Routing.StepGathers | Project1/src/netshell.c:369-465 | one more line keeps the waiting bytes and the routing relation in step |
| Routing.MailsAreRouted | Project1/src/netshell.c:360-465 | the inputs the shell hands out satisfy the routing relation |
| Routing.RoutingIsUnique | Project1/src/netshell.c:360-465 | no other assignment of inputs does |
| Routing.LineLog | Project1/src/netshell.c:382-395 | the first input handed out for a line is exactly its mail; a line that executes nothing hands out no input |
| Routing.RasReachesLast | Project1/src/netshell.c:462-464 | Project1 never gives a line up: every command of every pipeline runs |
| Routing.LostDescriptors | Project2/shm/src/netshell.c:785-804 | for every session, how many read ends and write ends are left open for good: one read end for each line given up half way; except in shm one for each executed line that read a pipe; both ends of each pipe to a line that executes nothing |
| Routing.PipeToBuiltinStaysOpen | Project1/src/netshell.c:176-193 | a session of two lines in which the pipe to a builtin leaves both its ends open |
| Pipelines.LineRuns | Project2/select/src/netshell.c:783-789 | for every session of every program and every executed line: command i reads what command i-1 wrote to its standard output, the first one the mail of the line; Project1 runs all commands, select and shm stop after the first that fails; the last command, if it is reached and only then, writes to the sink; errors go to the client in order |
| Pipelines.OtherLines | Project1/src/netshell.c:176-193 | every other line shows the answer of the shell and nothing else, and what waited for it is gone |
| Pipelines.GivenUpIff | Project2/shm/src/netshell.c:798-804 | a line is given up exactly by select and shm, and exactly when a command before the last one fails |
| Pipelines.SentIs | Project1/src/netshell.c:427-442 | what a line sends to a later one: the output of its last command, with `!N` its errors too in order of writing, unless the line was given up |
| Pipelines.FailingCommand | Project1/src/netshell.c:462-464 | `f &#124; c` where f fails: Project1 runs c, the other two do not and leave one read end open |
| LineList.Node.constructor | Project1/src/li3.c:3-16 | a new node has its number and target, and nothing else set |
| LineList.List.Append | Project1/src/li3.c:18-22 | inserting at the tail adds one node at the end and moves the tail; numbers stay consecutive |
| LineList.List.EnterLine | Project1/src/netshell.c:235-250 | the current node becomes the next one, made now or found with what earlier lines stored in it |
| LineList.List.MakeAhead | Project1/src/netshell.c:255-263 | exactly the missing nodes are added at the end, blank, with the next numbers |
| LineList.List.CreateLineNode | Project1/src/netshell.c:229-265 | the whole new list as a function of the old one; the invariant (distinct linked nodes, consecutive numbers, tail last, counter next) is kept from any starting counter |
| LineList.List.FindTarget | Project1/src/netshell.c:410-414 | the search meets no NULL and stops after exactly `pipeto` steps at the node that many lines ahead |
| LineList.List.constructor | Project2/select/src/netshell.c:182-184 | the head node alone is a valid list whatever the counter holds |
| Kernel.Os.Allocate | Project1/src/netshell.c:375-401 | the lowest free number is handed out |
| Kernel.Os.Pipe | Project1/src/netshell.c:375-418 | two lowest free numbers become the ends of a new, empty pipe |
| Kernel.Os.Open | Project1/src/netshell.c:401-401 | the lowest free number becomes the emptied output file |
| Kernel.Os.Close | Project1/src/netshell.c:446-459 | needs the number to be open for the very role the caller means; only that number is given up |
| Kernel.Os.Exec | Project1/src/netshell.c:478-515 | the command gets the whole content of the pipe on its descriptor 0, its writes go to its descriptors 1 and 2 in order, and the run is marked stalled exactly when the parent or the child still holds a write end of the pipe it reads |
| Kernel.WriteAllSame | Project1/src/netshell.c:434-438 | output and error on one descriptor: all writes in order |
| Kernel.WriteAllSplit | Project1/src/netshell.c:439-442 | output elsewhere and error to the client: two independent streams |
| Ledger.AddLinkBalanced | Project1/src/netshell.c:373-380 | a new pipe between commands keeps the books balanced; its only writer is the new end |
| Ledger.AddTargetBalanced | Project1/src/netshell.c:416-425 | a new pipe to a later line is stored in that node, which holds its only writer |
| Ledger.AddFileBalanced | Project1/src/netshell.c:399-403 | opening the output file keeps the books balanced |
| Ledger.DropBalanced | Project1/src/netshell.c:451-460 | closing a descriptor of the current line keeps the books balanced |
| Ledger.RetireBalanced | Project1/src/netshell.c:444-447 | closing the write end of the line's own pipe leaves that pipe without a writer, and its read end open |
| Ledger.AbandonBalanced | Project2/shm/src/netshell.c:798-804 | a read end nobody will close is accounted for, as a read end |
| Ledger.ForgetBalanced | Project1/src/netshell.c:176-193 | so are both ends of the pipe of a line that executes nothing |
| Ledger.NodesBalanced | Project1/src/netshell.c:229-265 | new blank nodes and changed targets move no descriptor |
| Ledger.OpenEndsAreStored | Project2/shm/src/netshell.c:684-806 | conservation: between lines a pipe descriptor is open and not left behind exactly when a node after the current one stores it |
| Engine.Shell.constructor | Project1/src/netshell.c:229-240 | a new shell is the empty post office |
| Engine.Shell.NewLink | Project1/src/netshell.c:373-380 | the pipe between command C and the next: balanced, both numbers at least 3, one writer |
| Engine.Shell.CloseWriter | Project1/src/netshell.c:444-447 | the first command's line retires its own write end and no other descriptor |
| Engine.Shell.CloseInput | Project2/shm/src/netshell.c:785-793 | which input descriptor is closed after which command, and which one Project1 and select leave open |
| Engine.Shell.OpenTarget | Project1/src/netshell.c:408-428 | the output descriptor is the only write end of the pipe of the line `pipeto` ahead, made now only if no earlier line made it |
| Engine.Shell.OpenFile | Project1/src/netshell.c:399-403 | the output file is emptied, its number is recorded in the node |
| Engine.Shell.ChildTable | Project1/src/netshell.c:478-510 | the child's descriptors 0, 1 and 2 are the line's input, output and error, although numbers in `pipes_fd` may have been reused, and it has no writer the parent has not |
| Engine.Shell.CreatProc | Project1/src/netshell.c:467-521 | the command gets the line's input and its writes go where the line says; no reader is started on a pipe with a writer; the other clients' pipes and screens are as they were |
| Engine.Shell.BeginReading | Project1/src/netshell.c:382-395 | the first command reads what waited for the line; every later one reads the link before it |
| Engine.Shell.ExecInner | Project1/src/netshell.c:449-449 | a command that is not the last writes its output to its link and its errors to the client |
| Engine.Shell.RunInner | Project1/src/netshell.c:371-464 | a command that is not the last: one input handed out, its errors shown to the client, its output the input of the next; one descriptor more is left open only by the first command of Project1 and select |
| Engine.Shell.ChooseOutput | Project1/src/netshell.c:397-432 | the client, the file or the pipe of the target line, as the node says |
| Engine.Shell.RunLast | Project1/src/netshell.c:371-464 | the last command: its writes reach the client, the file or the later line, and nothing else changes |
| Engine.Shell.RunCommand | Project2/shm/src/netshell.c:686-805 | one round of the loop keeps: what is left of the pipeline completes what the whole line should do |
| Engine.Shell.RunAll | Project2/shm/src/netshell.c:686-805 | the loop does all the line should do, or gives up where the program does |
| Engine.Shell.ExecuteCmdline | Project2/shm/src/netshell.c:675-806 | for every list of commands: the real state after the line is the post office after the line |
| Engine.Shell.NewLine | Project1/src/netshell.c:229-265 | entering a line moves no descriptor and makes its target exist |
| Engine.Shell.RunLine | Project1/src/netshell.c:174-221 | one typed line of any kind refines one step of the post office |
| Engine.Shell.Say | Project1/src/netshell.c:147-147 | a prompt changes nothing but the screen |
| Engine.Shell.EndsStored | Project2/shm/src/netshell.c:684-806 | the conservation law on the real descriptor table; what is left behind is `lost` read ends and `wasted` write ends, still open |
| Engine.RunSession | Project1/src/netshell.c:140-224 | for every session, every starting counter and all three programs: the shell ends in the state the post office prescribes, no command was ever started on a pipe with a writer, every close hit its own descriptor, and the open pipe ends are the stored ones plus exactly `lost` read ends and `wasted` write ends |
| Engine.Observe | Project1/src/netshell.c:140-224 | the output of the lines on the client's screen, the files and the inputs handed to commands are those of the post office, and no command was started on a pipe that still had a writer |
| Engine.PipeWritten | Project1/src/netshell.c:427-432 | bytes written to the pipe of line t are added to the mail of line t and of no other |
| Engine.RetireReads | Project1/src/netshell.c:388-391 | retiring the write end makes the whole mail of the line readable to its end |
| SharedTable.Observe | Project2/select/src/netshell.c:52-163 | no interference, for every number of clients and every interleaving of logins, lines and logouts in one process: for every client still connected, the output of its lines on its screen and every command's input is what it would have had alone; the files hold what the lines wrote in the order in which they ran; no command was started on a pipe that still had a writer; the pipe ends open in the process are exactly as many as the sessions of those connected have open plus those that all who left still had open |
| SharedTable.Together | Project2/select/src/netshell.c:52-163 | the same for all that a client has, waiting bytes and left-over descriptors included; what departed clients left is open and belongs to nobody |
| SharedTable.TableSize | Project2/select/src/netshell.c:518-542 | after every run the table holds no pipe end but those that each connected client has by its own session and those that each departed client had when it left |
| SharedTable.Process.Leave | Project2/select/src/netshell.c:518-542 | a logout closes the socket alone: exactly the ends of the waiting pipes and those lost or wasted before stay open for good, and nobody else notices |
| SharedTable.Departs | Project2/select/src/netshell.c:538-540 | the nodes are freed with their descriptors open: every pipe end of the leaver is still open afterwards and in nobody's books |
| SharedTable.StillForsaken | Project2/select/src/netshell.c:538-540 | no later line of anybody closes or takes over what a departed client left |
| SharedTable.OwnEndsCount | Project2/select/src/li3.c:43-52 | the pipe ends a client has open are both ends of each waiting pipe and those its lines left: the number a logout adds |
| SharedTable.Process.Serve | Project2/select/src/netshell.c:136-158 | one line of one client: its share takes the step it would take alone, every other share is as it was |
| SharedTable.Process.Join | Project2/select/src/netshell.c:111-135 | a new client starts with an empty share and disturbs nobody |
| SharedTable.Process.Resume | Project2/select/src/netshell.c:145-148 | a client that is served again finds its books balanced, whatever the others opened and closed meanwhile |
| SharedTable.AdoptedBalanced | Project2/select/src/netshell.c:145-148 | the same on the books |
| SharedTable.OthersKept | Project2/select/src/netshell.c:678-791 | while one client is served, no descriptor of another is closed or replaced, and none refers to its pipes that did not before |
| SharedTable.SelfKept | Project2/select/src/netshell.c:678-791 | nor does anybody get an end of the pipes of the client being served |
| SharedTable.WaitingKept | Project2/select/src/netshell.c:678-791 | what waits for a client depends on its own pipes only |
| Kernel.WriteAllSpares | Project2/select/src/netshell.c:841-895 | a command touches no pipe and no screen its descriptors do not refer to |
| Text.AtoiDec | Project1/src/netshell.c:354-357 | reading back a printed number |
| Text.CAtoiDec | Project4/Part1_CGISocketClient/cgi.c:189-189 | atoi, which takes any text, gives back a printed number |
| Text.CAtoiReads | Project4/Part1_CGISocketClient/cgi.c:189-189 | white space in front, one sign, and whatever follows the digits |
| Text.DecAtoi | Project1/src/netshell.c:354-357 | printing back a canonical number |
| Text.FifoNameInjective | Project2/select/src/netshell.c:340-340 | different pairs of users have different FIFO names |
| UserPipes.ReadExactlyOnce | Project2/select/src/netshell.c:334-425 | in every run, redirections to whatever names included: what j reads with `<i` is exactly what was written to one pipe made earlier, by lines of i or by redirections to its name, with no other read, destruction, creation, login or logout of j in between |
| UserPipes.ReadIsSentIff | Project2/select/src/netshell.c:719-719 | it is exactly what the lines of i wrote if and only if redirections to the FIFO's name added nothing |
| UserPipes.ReadIsSent | Project2/select/src/netshell.c:334-425 | so it is in every run in which no line names a FIFO as a file |
| UserPipes.ExistsIsTrue | Project2/select/src/netshell.c:1050-1056 | in such a run "already exists" is only said of a pipe that exists |
| UserPipes.RedirectionMattersIff | Project2/select/src/netshell.c:426-429 | a redirection changes what a pipe can do if and only if it names its FIFO and no regular file has that name: an existing pipe gets the output, otherwise the name is taken |
| UserPipes.PlantedForEver | Project2/select/src/netshell.c:520-535 | once a regular file has the name there is never again such a pipe: no logout removes it |
| UserPipes.RedirectionIsRead | Project2/select/src/netshell.c:719-719 | a run in which the third user's redirection is read by the second as coming from the first |
| UserPipes.RedirectionBlocks | Project2/select/src/netshell.c:1049-1056 | a run in which a redirection takes the name and `>2` is answered with "already exists" although there is no pipe |
| UserPipes.RunLawful | Project2/select/src/netshell.c:226-542 | in every run and for every pair of users, every event was allowed by the state of that pipe or of its name, and an existing pipe has a logged-in receiver |
| UserPipes.RunConsistent | Project2/select/src/netshell.c:226-542 | every run keeps history, pipes, users and names consistent; in particular two live users with the same name are both "(no name)" |
| UserPipes.StepConsistent | Project2/select/src/netshell.c:226-542 | so does every single event |
| UserPipes.ExecuteConsistent | Project2/select/src/netshell.c:334-509 | so does every line with `>N`, `<N`, both, a redirection to any name, an illegal symbol or none |
| UserPipes.DeliverConsistent | Project2/select/src/netshell.c:362-377 | reading, writing and destroying, in this order, are allowed events |
| UserPipes.MakeConsistent | Project2/select/src/netshell.c:1039-1072 | making a pipe, or being refused because there is a file of that name, is allowed |
| UserPipes.LookConsistent | Project2/select/src/netshell.c:1074-1088 | looking for a pipe is allowed |
| UserPipes.DropAllConsistent | Project2/select/src/netshell.c:520-535 | logging out destroys exactly the pipes to that user |
| UserPipes.LeaveConsistent | Project2/select/src/netshell.c:518-542 | a logout is allowed |
| UserPipes.EnterConsistent | Project2/select/src/netshell.c:168-192 | so is a login: nothing waits for the new user |
| UserPipes.LeastFreeIsLeast | Project2/select/src/netshell.c:170-173 | the id given is free and the least |
| UserPipes.PutAgrees | Project2/select/src/netshell.c:719-719 | writing, to the FIFO of a `>N` or to a file of any name, is allowed at any moment |
| UserPipes.WaitingHasOrigin | Project2/select/src/netshell.c:1039-1072 | what waits in a pipe is what was written to it since its making |
| UserPipes.ReadHasOrigin | Project2/select/src/netshell.c:379-425 | the same at the moment it is read |
| UserPipes.ExistsIffLastIsCreation | Project2/select/src/netshell.c:371-373 | a pipe exists exactly when its last creation has not been followed by a destruction |
| UserPipes.LookSucceedsIff | Project2/select/src/netshell.c:1074-1088 | in every reachable state `<i` finds a pipe exactly then |
| UserPipes.OthersKeepPipe | Project2/select/src/netshell.c:518-542 | only lines of its two users, lines that name its FIFO as a file, and the logout of its receiver can change a pipe; it outlives the logout of its sender |
| UserPipes.EarlierHolderIff | Project2/select/src/netshell.c:518-542 | in every run: all that lines of i wrote to a pipe that is read was written by the user who made it, and that is not the holder of the id at the reading exactly when somebody logged in with the id in between |
| UserPipes.RunPrompt | Project2/select/src/netshell.c:342-365 | in every run a line writes to a pipe only right after it made it |
| UserPipes.EarlierHolderIsRead | Project2/select/src/netshell.c:518-542 | a run in which this happens |
| UserPipes.EffectsOnFifos | Project2/select/src/netshell.c:421-423 | only making a pipe opens a FIFO descriptor, and only a drop at logout closes one |
| UserPipes.RenameConsistent | Project2/select/src/netshell.c:986-1011 | renaming keeps names of live users apart and touches no pipe |
| UserPipes.RenameTakesEffectIff | Project2/select/src/netshell.c:986-1011 | a rename, to the first twenty characters, takes effect exactly when none of the thirty slots carries that name, live or not; otherwise nothing changes |
| UserPipes.StaleNameIsRefused | Project2/select/src/netshell.c:991-1003 | a run in which the name of a user who left is refused, against Project2/spec/project2_spec_append.txt:111 |
| UserLines.SendPlain | Project2/select/src/netshell.c:334-365 | after every run, by events and mail: `cmd >n` makes the pipe and fills it with the output |
| UserLines.SendReading | Project2/select/src/netshell.c:342-374 | `cmd <m >n`: the pipe to n is made, the one from m read, the output fills the one and the other is destroyed, in this order |
| UserLines.SendMissing | Project2/select/src/netshell.c:342-374 | without a pipe from m the line is told so and still runs into its own pipe |
| UserLines.SendRefused | Project2/select/src/netshell.c:1039-1056 | a pipe that cannot be made: one reply, nothing else |
| UserLines.SendIllegal | Project2/select/src/netshell.c:342-353 | with an illegal symbol nothing runs, but the pipe was made, and a second one if the symbol names another user to whom one can be made |
| UserLines.RecvMissing | Project2/select/src/netshell.c:1074-1088 | `<m` without a pipe: one reply, nothing else |
| UserLines.RecvPlain | Project2/select/src/netshell.c:379-425 | `cmd <m` reads the pipe and destroys it; with a second `<m2` nothing runs if that pipe exists, and otherwise the line runs |
| UserLines.RecvSending | Project2/select/src/netshell.c:379-425 | `cmd >n <m`: as `cmd <m >n`, but if the pipe to n cannot be made the line runs all the same |
| UserLines.RecvIntoFile | Project2/select/src/netshell.c:379-425 | `cmd > file <m`: read, write the file, destroy the pipe |
| UserLines.RedirectsTo | Project2/select/src/netshell.c:426-429 | `cmd > file`, and `cmd <m > file` with and without the pipe |
| UserLines.PourIs | Project2/select/src/netshell.c:719-719 | redirected output goes into the FIFO of that name if there is one; otherwise the regular file of that name holds exactly it, and a FIFO's name that was free is taken |
| UserLines.PlainReads | Project2/select/src/netshell.c:455-509 | every other line: nothing, or the pipe from m is read and destroyed, or found missing |
| UserLines.OtherIllegal | Project2/select/src/netshell.c:793-839 | the illegal symbols of these lines: nothing runs, but `>n` made its pipe if it could |
| UserLines.PassedOn | Project2/select/src/netshell.c:353-355 | `cat <1 >3` typed by user 2 passes on what waited for it |
| UserLines.LogsIn | Project2/select/src/netshell.c:168-192 | a login takes the least free id and touches no pipe, no file and no other name |
| UserLines.LogsOut | Project2/select/src/netshell.c:518-542 | a logout destroys the pipes to the user and no others, and leaves its name in the slot |
| SelectServer.Server.PipeToUser | Project2/select/src/netshell.c:1039-1072 | the FIFO is made and opened exactly when the receiver is logged in and no file of that name exists; no other descriptor changes |
| SelectServer.Server.PipeFromUser | Project2/select/src/netshell.c:1074-1088 | the descriptor recorded for the sender, or a refusal, exactly as the world says |
| SelectServer.Server.SymbolChk | Project2/select/src/netshell.c:793-839 | flag, output file, input descriptor and pipes made, for each of the four kinds of last word |
| SelectServer.Server.WriteFile | Project2/select/src/netshell.c:719-719 | what is written under a name goes into the FIFO of that name if there is one, and otherwise into a regular file made or emptied for it |
| SelectServer.Server.FreeSlot | Project2/select/src/netshell.c:537-541 | the end of a logout: the socket leaves `allfds`, the slot is free |
| SelectServer.Server.ExecuteCmdline | Project2/select/src/netshell.c:678-791 | the line reads all that waits in the FIFO it found and writes to what it opens under its file name; nothing if it is given up before |
| SelectServer.Server.Consume | Project2/select/src/netshell.c:421-423 | the pipe that was read disappears from the table, the files and the world together |
| SelectServer.Server.ServeSend | Project2/select/src/netshell.c:334-378 | the branch `>N`, with every symbol |
| SelectServer.Server.ServeRecv | Project2/select/src/netshell.c:379-425 | the branch `<N`, with every symbol |
| SelectServer.Server.ServeOther | Project2/select/src/netshell.c:426-509 | the branches `> file`, with every name, and last, with every symbol |
| SelectServer.Server.DropFifo | Project2/select/src/netshell.c:521-535 | one round of the logout loop |
| SelectServer.Server.CleanCli | Project2/select/src/netshell.c:518-542 | logout destroys every pipe to the user, frees the slot and takes exactly its socket out of `allfds` |
| SelectServer.Server.ClientInit | Project2/select/src/netshell.c:168-192 | login takes the least free id and adds exactly the new socket |
| SelectServer.Server.Name | Project2/select/src/netshell.c:986-1011 | rename, with the cut to twenty characters |
| SelectServer.Server.FindUid | Project2/select/src/netshell.c:138-144 | the lookup loop finds the one live owner of the ready socket |
| SelectServer.Server.Serve | Project2/select/src/netshell.c:136-158 | one line of the owner of the ready socket |
| SelectServer.Server.Handle | Project2/select/src/netshell.c:107-160 | every event keeps the invariant: `allfds` is the listening socket and the sockets of live slots; the file ".itoj" exists exactly when slot j holds a descriptor of it, and then j is live |
| SelectServer.RunServer | Project2/select/src/netshell.c:52-163 | every run of the server is a run of the abstract world; the FIFO descriptors open are as many as creations less drops at logout |
| SelectServer.Directory | Project2/select/src/netshell.c:52-163 | after every run, redirections to whatever names included: the FIFO files are those of exactly the pairs whose last creation was not followed by a destruction, and no others; the receiver is logged in and the file holds what waits in that pipe; a regular file has a FIFO's name exactly when a redirection took it |
| SelectServer.CreatedAgrees | Project2/select/src/netshell.c:1064-1068 | making a FIFO changes the agreement of its own pair only |
| SelectServer.RemovedAgrees | Project2/select/src/netshell.c:371-373 | removing it likewise |
| SelectServer.ClosedAgrees | Project2/select/src/netshell.c:523-534 | closing and removing it at logout likewise |
| SelectServer.LeaveKeeps | Project2/select/src/netshell.c:537-541 | freeing a slot keeps the socket set and the agreement |
| SelectServer.EnterKeeps | Project2/select/src/netshell.c:173-188 | so does taking one |
| Handshake.NoLostWakeUp | Project2/shm/src/netshell.c:61-73 | in every interleaving, redirections to FIFO names included: a FIFO for which the receiver has no entry will still be looked at, because its sender is between mknod and kill, a signal is pending, the handler has not reached it, or the receiver is about to remove it |
| Handshake.DoKeepsInv | Project2/shm/src/netshell.c:1067-1083 | every single system call keeps this |
| Handshake.FinishesIff | Project2/shm/src/netshell.c:716-722 | in every interleaving: when the receiver is quiet, a sender that has told it can finish its open if and only if the receiver has not read that FIFO since it was made and nothing of an older one was left when it was made |
| Handshake.OpensIff | Project2/shm/src/netshell.c:716-722 | the same on the step: then the next open of the sender goes through with a FIFO exactly under these two conditions |
| Handshake.OpenOutcome | Project2/shm/src/netshell.c:716-722 | the open returns at once exactly when the file is there and is a regular one or a FIFO whose receiver holds this very file, has not closed it and has not ended; it fails exactly when there is no file; otherwise it waits for that file; nothing else changes |
| Handshake.LetGoIff | Project2/shm/src/netshell.c:61-73 | a waiting sender is let go exactly by the handler opening this very file or by a redirection to it, and looks the name up again exactly after a signal of its own |
| Handshake.FileChangesIff | Project2/shm/src/netshell.c:446-448 | which call makes a file of a FIFO's name and which removes it, and nothing else does |
| Handshake.EntryChangesIff | Project2/shm/src/netshell.c:61-73 | which call sets the entry of the receiver and which clears it |
| Handshake.NoLeftovers | Project2/shm/src/netshell.c:446-448 | without the race nothing is ever left: no entry outlives its file |
| Handshake.QuietReceiverBlocksNobody | Project2/shm/src/netshell.c:716-722 | without the race: the open can finish if and only if the receiver did not read before; otherwise the FIFO is gone, and the sender waits already, its program ends at the look-up, or it finds a regular file |
| Handshake.StaysHopeful | Project2/shm/src/netshell.c:716-722 | every system call keeps an attempt alive that nothing has spoiled: the file is there, and its entry, if any, is for this very file |
| Handshake.StaysDoomed | Project2/shm/src/netshell.c:785-788 | and keeps a spoiled one spoiled: the file is gone, being consumed, or hidden behind an older entry |
| Handshake.AbandonedForEver | Project2/shm/src/netshell.c:716-722 | a sender that waits for a removed file is let go by nothing but a signal to itself |
| Handshake.HastyReadHappens | Project2/shm/src/netshell.c:785-788 | a complete run without the race: the receiver reads before the sender opens, and the sender waits for a file nobody will open |
| Handshake.HandlerOpensAll | Project2/shm/src/netshell.c:61-73 | one handler run opens every FIFO to its user from the current index on, however many signals it stands for, lets go every sender waiting for one of them, and changes nothing else |
| Handshake.EntryReturnsIffRaced | Project2/shm/src/netshell.c:446-448 | between clearing the entry and removing the file the entry comes back exactly when the handler looks at that sender in between |
| Handshake.StaleBlocksForEver | Project2/shm/src/netshell.c:716-722 | afterwards no open of that sender can finish, whatever anybody else does, until the receiver types `<i` |
| Handshake.RaceHappens | Project2/shm/src/netshell.c:446-448 | a complete run in which this happens, all signals are handled and a sender is left waiting |
| FrontEnd.WordsConcat | Project1/src/netshell.c:162-162 | cutting a text after a delimiter cuts no token |
| FrontEnd.NextWord | Project1/src/netshell.c:162-162 | the first token and what is left after it |
| FrontEnd.Strtok | Project1/src/netshell.c:162-162 | strtok_r: the next maximal run of non-delimiters, or none |
| FrontEnd.RmFespace | Project1/src/netshell.c:270-296 | white space in front and blanks at the end are removed |
| FrontEnd.TrimMargins | Project1/src/netshell.c:270-296 | a text that starts and ends with something else comes out of any such margins unchanged |
| FrontEnd.MarginsGo | Project1/src/netshell.c:270-296 | the same in characters: the six of isspace in front, blanks at the end |
| FrontEnd.LineByLine | Project1/src/netshell.c:149-172 | one more line of a stream, ended by CR, LF or both, is added without its margins unless it is empty |
| FrontEnd.Receive | Project1/src/netshell.c:145-222 | packet independence: for every split of a newline-terminated stream into nonempty reads, the lines dispatched are those of the whole stream before the first `exit`; which of them come in one batch is decided by the reads that end with a newline |
| FrontEnd.Dispatch | Project1/src/netshell.c:160-222 | one batch: its lines in order, up to `exit` |
| FrontEnd.StreamSplits | Project1/src/netshell.c:145-172 | what follows the batch with `exit` does not matter |
| CommandLine.GetEndnum | Project1/src/netshell.c:343-358 | the text before the last character that is no digit, and the number after it |
| CommandLine.SuffixRoundTrip | Project1/src/netshell.c:204-213 | for every body and every N >= 1, body + suffix character + N matches the pattern and is taken apart into body and N, even when the body ends in digits |
| CommandLine.SuffixOnly | Project1/src/netshell.c:204-213 | every line that matches is of that form |
| CommandLine.GetFilename | Project1/src/netshell.c:323-338 | the text around the last `>` |
| CommandLine.Classify | Project1/src/netshell.c:174-219 | the kind of a line, its body, and the number or file name at its end |
| CommandLine.PipeSuffixKind | Project1/src/netshell.c:195-219 | a line that ends in `&#124;N` always writes to the line N ahead |
| CommandLine.BangSuffixKind | Project1/src/netshell.c:195-219 | one that ends in `!N` does so exactly when its body has no `>` free of later `&#124;`, `/` and backslash; otherwise the suffix becomes part of a file name |
| CommandLine.BangIsSwallowed | Project1/src/netshell.c:195-202 | a line whose `!1` becomes part of a file name |
| CommandLine.FileKind | Project1/src/netshell.c:195-202 | `... > name`: body and name around the last `>`, the name without its margins |
| CommandLine.KindTheorem | Project1/src/netshell.c:174-219 | for every line: when it is a builtin or a redirection, and how line, body, number and name hang together |
| CommandLine.FileIsPattern | Project1/src/netshell.c:195-195 | the redirection pattern in characters |
| CommandLine.ParseCmdSeq | Project1/src/netshell.c:530-586 | the rows of `argvs`, with both limits |
| CommandLine.SplitCommands | Project1/src/netshell.c:537-546 | the commands between the bars, trimmed, as many as fit |
| CommandLine.SplitWords | Project1/src/netshell.c:574-582 | the words of a command, as many as fit, and whether a NULL follows |
| CommandLine.JoinWords | Project1/src/netshell.c:574-582 | joined words are split again |
| CommandLine.WordsByBlanks | Project1/src/netshell.c:574-582 | words stand apart by any of the four blanks |
| CommandLine.PrintedPieces | Project1/src/netshell.c:537-546 | the pieces of a printed line are its printed commands |
| CommandLine.PipelineRoundTrip | Project1/src/netshell.c:530-586 | printing commands of one to fifteen words, with blanks behind them, and parsing gives them back in order, every row closed by NULL; of more than 15001 the first 15001 |
| CommandLine.RowIntactIff | Project1/src/netshell.c:572-582 | a command keeps its words and its NULL exactly when it has at most fifteen; of more than sixteen words the first sixteen are stored |
| Client.Interpret | Project1/src/netshell.c:174-221 | for every printed pipeline, alone or with `&#124;N`, `!N` or `> name` behind it: the line runs exactly the printed commands, in their order, each with all its words, into that sink; `printenv` shows the answer of the environment, `setenv` nothing |
| Client.Serve | Project1/src/netshell.c:140-224 | from packets to screen: for every split of a newline-terminated stream and every meaning of the commands, files and inputs are those of the post office on the lines of the whole stream before the first `exit`, and the screen is their output with a prompt before each batch and one more unless there was an `exit`; each of these lines means what `Interpret` says |
| Client.OnlyPromptsDiffer | Project1/src/netshell.c:147-147 | without its prompts the screen is the output of the lines, however they came; and there is one prompt for each batch |
| Client.CutShowsPrompt | Project1/src/netshell.c:147-147 | lines that come in one read have one prompt before them, in two reads another one between them |
| Client.AddedIsGain | Project1/src/netshell.c:162-222 | what a batch adds to the screen is what the output of all lines gains by it |
| Client.RunBatch | Project1/src/netshell.c:162-222 | the lines of a batch run one after the other and add their output |
| Firewall.MaskedEqualIffInNet | Project4/Part2_SocketServer/socksServer.c:133-136 | for prefixes 1 to 32, comparing under the mask is lying in the numeric interval |
| Firewall.MaskIsHighBits | Project4/Part2_SocketServer/socksServer.c:133-133 | the shifted 32-bit mask is 2^32 - 2^k |
| Firewall.AndHighBits | Project4/Part2_SocketServer/socksServer.c:136-136 | `&` with the mask rounds down to a multiple of 2^k |
| Address.AtonNtoa | Project4/Part2_SocketServer/socksServer.c:314-317 | reading a printed address and swapping its bytes gives its number |
| Address.ValueInjective | Project4/Part2_SocketServer/socksServer.c:314-317 | different addresses have different numbers |
| Address.QuadOfText | Project4/Part2_SocketServer/socksServer.c:292-298 | the strtok/atoi loop gives the bytes written in the text |
| Rules.WhiteList.GetFirewallRules | Project4/Part2_SocketServer/socksServer.c:97-163 | the table holds the rules of the file in order, the first hundred |
| Rules.WhiteList.FirewallAccessCheck | Project4/Part2_SocketServer/socksServer.c:309-358 | permit exactly when some rule of the table matches in every column |
| Rules.ReadPrintedRule | Project4/Part2_SocketServer/socksServer.c:114-154 | a printed rule is read back as its masks and texts |
| Rules.ReadWithReturn | Project4/Part2_SocketServer/socksServer.c:114-154 | also when the line ends in CR and LF |
| Rules.PrefixIsBytes | Project4/Part2_SocketServer/socksServer.c:133-136 | a prefix of 8, 16 or 24 compares exactly the first one, two or three bytes |
| Rules.LoadedPrinted | Project4/Part2_SocketServer/socksServer.c:112-160 | so is a whole file, comments included |
| Rules.MatchesIffAllows | Project4/Part2_SocketServer/socksServer.c:322-354 | what strings and masks decide for one rule is what the rule says in numbers |
| Rules.HostMatchesIff | Project4/Part2_SocketServer/socksServer.c:329-342 | a prefix of 32 matches exactly one address |
| Rules.FirewallEndToEnd | Project4/Part2_SocketServer/socksServer.c:97-163 | for every file and connection: permitted exactly when some rule in force has this mode, both addresses in its intervals, and equal or wild ports |
| Rules.Decide | Project4/Part2_SocketServer/socksServer.c:309-358 | the same for the two loops run one after the other |
| Rules.OrderDoesNotMatter | Project4/Part2_SocketServer/socksServer.c:319-357 | up to a hundred rules, permuting the file changes no decision |
| Rules.LateRuleIsIgnored | Project4/Part2_SocketServer/socksServer.c:156-159 | a rule after the hundredth permits nothing |
| Rules.RuleOneHundredAndOne | Project4/Part2_SocketServer/socksServer.c:156-159 | a file of 101 rules whose last one would permit every BIND, and every BIND is denied |
| Socks.HandleSocksRequest | Project4/Part2_SocketServer/socksServer.c:254-307 | version, command, port, address and the texts handed to the firewall, for every request |
| Socks.BuildRequest | Project4/Part1_CGISocketClient/cgi.c:186-214 | the eight bytes of a CONNECT request, for any port text; with no such host the address bytes are what the array held |
| Socks.BytesOfHost | Project4/Part2_SocketServer/socksServer.c:292-298 | printing an address and taking it apart with strtok and atoi gives its bytes |
| Socks.ServerDecodesClient | Project4/Part2_SocketServer/socksServer.c:269-304 | the server recovers port and address exactly when the address does not stand for a host name (or the name server says the same) |
| Socks.HostNameIsRead | Project4/Part2_SocketServer/socksServer.c:277-286 | for 0.0.0.x the name server is asked for exactly the host the client named |
| Socks.NamedHostIsDecoded | Project4/Part2_SocketServer/socksServer.c:256-307 | a SOCKS 4A request from bytes to packet: command and port as sent, the address the answer of the name server for the very host named |
| Socks.AddressIsDecoded | Project4/Part2_SocketServer/socksServer.c:256-275 | every other request of version 4: command, port and address as sent, whatever follows |
| Socks.SocksConnectReply | Project4/Part2_SocketServer/socksServer.c:360-372 | status and the destination echoed |
| Socks.SocksBindReply | Project4/Part2_SocketServer/socksServer.c:374-386 | the bytes decode to the given port |
| Relay.DoRedirect | Project4/Part2_SocketServer/socksServer.c:441-507 | for every sequence of rounds: while the relay is open each side has exactly what the rounds offered of the other's stream (at least one and at most 2048 bytes a ready round); it ends exactly in the first round that finds a stream offered whole before; then that stream has arrived whole, and of the other exactly what was offered |
| Relay.OpenRelay | Project4/Part2_SocketServer/socksServer.c:459-506 | the closed form behind it: when the relay is open, and what it has passed on |
| Relay.EndedRelay | Project4/Part2_SocketServer/socksServer.c:474-500 | the same for the round that ends it and all later ones |
| Relay.ClientIsDelivered | Project4/Part2_SocketServer/socksServer.c:464-483 | after rounds that offered all the client's data every byte has been passed on, and exactly the next round with the client ready ends the relay |
| Relay.RoundPasses | Project4/Part2_SocketServer/socksServer.c:459-506 | what one round passes on in each direction, and when it ends the relay |
| Relay.EndingSideIsDelivered | Project4/Part2_SocketServer/socksServer.c:474-500 | the side whose end of stream stops the relay has been delivered completely |
| Relay.Session | Project4/Part2_SocketServer/socksServer.c:6-95 | the acts of a connection, for every request, rule file and answer of the network, with every byte of every reply: port and address of the request echoed to CONNECT, the port to connect to in both replies to BIND |
| Relay.RelayOnlyAfterGrant | Project4/Part2_SocketServer/socksServer.c:13-77 | for every request, rule file and answer of the network: relaying starts exactly when a version 4 request is permitted and its connection comes about, after one (CONNECT) or two (BIND) grants and nothing else |
| Relay.UnansweredIff | Project4/Part2_SocketServer/socksServer.c:44-61 | a request gets no reply exactly when it is not of version 4 or is a permitted BIND without a socket |
| Relay.OtherVersion | Project4/Part2_SocketServer/socksServer.c:263-267 | a request of version 5 that gets no reply |
| Relay.BindWithoutSocket | Project4/Part2_SocketServer/socksServer.c:42-49 | a permitted BIND request that gets no reply |
| Renderer.PrintAt | Project4/Part1_CGISocketClient/cgi.c:324-392 | what one round of the loop prints and where it goes on |
| Renderer.ScriptContent | Project4/Part1_CGISocketClient/cgi.c:317-397 | the text between the quotes, and that the loop stays inside its input exactly when the text is not cut short |
| Renderer.ColourAtTheEnd | Project4/Part1_CGISocketClient/cgi.c:353-388 | a text that makes the loop run past its end, and one with the same last characters that does not |
| Renderer.RenderedScript | Project4/Part1_CGISocketClient/cgi.c:317-397 | for every text not cut short: the emitted literal is closed by the final quote only, has no line break, and its only tags are font, br and b |
| Renderer.ClosedByFinalQuote | Project4/Part1_CGISocketClient/cgi.c:395-395 | a JavaScript lexer finds the closing quote exactly at the end |
| Renderer.BodyIsFine | Project4/Part1_CGISocketClient/cgi.c:321-393 | every suffix of the output is literal text with allowed tags |
| Renderer.LeavesTextIff | Project4/Part1_CGISocketClient/cgi.c:322-388 | the loop runs past the end exactly when the text ends in a colour or reset prefix that no earlier prefix swallows |
| Renderer.ComesIff | Project4/Part1_CGISocketClient/cgi.c:322-388 | the loop comes to a `[`, or to the end, exactly when that place is not swallowed by an earlier prefix |
| Display.DisplayTheorem | Project4/Part1_CGISocketClient/cgi.c:317-397 | round trip through the reader of the page: for every text without `&` and backslash that is not cut short, a browser shows its characters, each in the colour in force and bold if asked for, if and only if no `<` or `>` has a semicolon next |
| Display.ShownIsMeant | Project4/Part1_CGISocketClient/cgi.c:321-393 | for every such text: what is shown is the text with exactly those semicolons missing |
| Display.LossyIff | Project4/Part1_CGISocketClient/cgi.c:326-331 | which is the whole text exactly when none is lost |
| Display.SemicolonIsLost | Project4/Part1_CGISocketClient/cgi.c:326-327 | "<;" loses its semicolon |
| Display.BackslashIsApostrophe | Project4/Part1_CGISocketClient/cgi.c:340-342 | a backslash is shown as an apostrophe |
| Display.AmpersandIsRead | Project4/Part1_CGISocketClient/cgi.c:391-392 | the text "&lt" is shown as "<" |

## Left out

Members stated for less than the program does:

- Engine.Observe: a command without a pipe that waits on the server's own standard input is not modelled; nor are prompts, which `Client.Serve` adds.
- SharedTable.Observe: the screens hold the output of lines; prompts, broadcasts and welcome messages are left out.
- UserPipes.RunLawful: commands that themselves open, rename or remove files of the directory are not modelled; only the server's own open is.
- FrontEnd.Receive: a client that closes its connection without `exit`, and a stream that does not end with a newline, are not modelled.
- Client.Serve: the welcome message, whose colour is random, is left out.
- Kernel.Os.Exec: commands run one at a time on unbounded pipes and read their whole input, because the scheduling of children is not part of this model; a pipe that fills up is not modelled.
- Kernel.Os.Open: opening a regular output file always succeeds.
- Engine.Shell.OpenFile: likewise.
- Engine.RunSession: the client has the descriptor table to itself; `SharedTable.Together` covers the clients of select, which share one.
- SharedTable.Together: user pipes are not modelled here; lines run one at a time, as in the program.
- Engine.Shell.ExecuteCmdline: the copy of a target pipe's numbers in `pipes_fd`, which no later command reads, and the text of the line kept in its node are dropped; a line that has both a numbered pipe and a user pipe is not modelled.
- LineList.List.CreateLineNode: line counters do not overflow at 32 bits.
- CommandLine.GetEndnum: atoi does not overflow at 32 bits.
- CommandLine.ParseCmdSeq: with 15001 commands `argvs` has no terminator, and what exec does with a row of sixteen words, which has none, is not modelled; the row is only reported as not terminated.
- SelectServer.Server.SymbolChk: where the function falls off its end its result counts as 0.
- SelectServer.Server.ServeOther: a line without any command, which the program does not survive, is not modelled.
- SelectServer.Server.ClientInit: the login of a thirty-first user, for whom the program reads outside its table, is not modelled.
- SelectServer.Server.Handle: user ids outside 1 to 30, a thirty-first user, and lines after `exit` in one batch are not modelled.
- SelectServer.Server.ExecuteCmdline: everything in the FIFO is read at once, and a line that uses a pipe to its own user does not wait for itself.
- Handshake.NoLostWakeUp: logging out in the middle of a handshake is not modelled; the handler's look and open are one step, and so are the last closes of a read end in the server and in the command that read it; a redirection to a FIFO is its reader for one moment only; the bytes in the FIFOs are left out.
- Rules.WhiteList.GetFirewallRules: prefix 0 (a shift by 32 places), lines with missing or malformed words, numbers with leading zeros, addresses inet_aton takes in other forms, and the length of the text fields are not modelled.
- Socks.HandleSocksRequest: a request that arrives in several reads, an empty one, and a user id or host name that runs past the buffer are not modelled.
- Relay.DoRedirect: writes are complete, and a read error only skips its round.
- Display.DisplayTheorem: the reader knows the character references the program prints and no others (`&ltimes;` is one a browser also knows); the theorem leaves out texts with `&` or a backslash, which are not shown as they are.

Parts of the repository with no model:

- Socket set-up, accept, double fork, waitpid, DNS and the attaching of shared memory: system calls without an algorithm; their results are parameters (`Network`, `Resolver`, `Arrival`).
- LINEMAX and the other fixed buffers; names and messages are strings.
- Regular expressions other than the suffix and prefix patterns used.
- The environment in select, and the texts of who, tell, yell and of the broadcasts.
- The mailbox of tell and yell in shm: one overwritable slot, nothing is promised.
- Project3, the `bin` tools, the test clients and the HTML forms: thin, or copies of what is modelled.
