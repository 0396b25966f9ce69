# A Dafny model of Egalitarian Paxos

This project models the replication core of an Egalitarian Paxos implementation in Go
(`epaxos/` and `epaxos/epaxospb/`): the commit protocol of a replica, the dependency scan, the
executor, what survives a restart, and the wire format of persisted instances. It proves what the system
promises over whole runs.

The headline results, each for every configuration and every run of the stated kind:

* **Agreement** (`Runs.Agreement`): with loss, duplication, reordering and restarts, everything that any
  replica or Commit message ever says of a decided instance is the same.
* **Interference** (`Commits.InterferenceTheorem`): of two decided instances whose commands interfere, one is
  reachable from the other along dependencies. It holds in every run in which PreAccepts and the replies to them
  arrive at most once and no restart loses a vote; Accepts, AcceptOKs and Commits may be repeated, and a replica may
  restart whenever every foreign instance whose command it knows has executed and no own one is still pre-accepted.
* **That is exact** (`Limits.InterferenceExact`): for any set of message kinds that may be repeated and any set of
  things that restarts may lose, the theorem holds in all runs limited to them if and only if the kinds are among
  Accept, AcceptOK and Commit and restarts lose nothing. Each of the seven faults alone decides two interfering
  instances that do not depend on each other: a repeated PreAccept, PreAcceptOK or PreAcceptReply (`Faults`,
  `Redelivery`), and a restart that forgets a foreign instance that is pre-accepted, accepted or committed, or the
  replies counted for an own one (`Losses`). Agreement, identity and the transition table hold regardless.
* **Execution consistency** (`Consistency.ExecutionConsistency`): in the runs of the interference theorem, two replicas
  that executed the same two interfering instances, before or after restarts, executed them in the same order, unless
  the two depend on each other, come from one replica and carry one sequence number. In every run with any faults
  each replica executes an instance at most once over all its lives, dependencies first (`Histories.ExactlyOnce`).
* **That exception is real** (`TieRun.TiesDiverge`): a run of three replicas, with no packet duplicated, nobody
  crashed and nobody restarted, in which two replicas execute two writes of one key in opposite orders. The
  comment of `ExecutesBefore` (`epaxos/instance.go:90-94`) takes such a tie to be impossible; the code does not
  exclude it, and the model follows the code. `Confluence.OrderDetermined` says exactly when the executor leaves an
  order open.
* **Crashes, exactly** (`NilCommands.CrashExactly`): an Accept carries no command. In every run, a step crashes a
  replica if and only if the descent of its request or vote comes, before its early exit, to an instance that the
  replica met by an Accept since it last started and whose command it never got. `NilRun.NilCommandCrashes` reaches
  such a crash without duplication or restarts, and `NilCommands.NeverPanics` names the runs that are free of it.
* **Nothing waits that could execute** (`Promptness.ExecutesExactly`): in every run with any faults, after every step,
  a replica has executed what it holds as committed if and only if it holds everything that this reaches through
  dependencies as committed, too.
* **Who sends what, exactly** (`Traffic.SendsExactly`, `Traffic.RestartRepeats`): in every run a packet is sent in a
  step if and only if it announces a transition of an own instance to another node, answers the PreAccept or Accept
  that the step delivers, or repeats after a restart the last transition of an own instance that has not executed.
* **The pruned scan, exactly** (`Pruning.DependenciesExact`, `Visits.FindsMaxIffCausal`): an interfering instance that
  the scan comes to is a dependency if and only if, as a write, it has a key that no later interfering write of its
  space has, or, as a read, has no key that one has. The scan of a space finds the largest interfering sequence number
  for every command if and only if the numbers on each key respect the latest write of that key.
  `TieRun.ScanMissesMax` reaches a state in which it does not.
* **The objects are the runs** (`Refinement.HistoriesAreRuns`): every history of calls of Request, Step, Tick and of the
  constructor with its reload, on packets that were sent, is a run. What is proved of runs holds of the code as modelled,
  panics included.
* **Panics of the decoder, exactly** (`Layouts.InstancePanics`): Unmarshal panics on exactly the buffers in which
  fields that are read or passed over lead to a declared length that is below 2^63 and ends at 2^63 or beyond.
* **Tarjan** (`Execution.Executor.StrongConnect`, `Tarjan.SccMaximal`): for every graph and every order
  of map iteration, the executor's pass lists exactly the strongly connected components, dependencies first.

## How it is organised

* `Keys`, `RangeGroups`, `Types`, `DepSlices`: commands, interference, the range group, instance state,
  sorted dependency slices.
* `Scan`, `ScanOrder`, `Visits`, `Pruning`: the pruned dependency scan, what it cannot miss, and exactly what it comes to
  and what it returns.
* `Graphs`, `Tarjan`, `ExecutionSpec`, `Execution`, `Confluence`: the executor as a class with Tarjan's algorithm,
  proved against a specification that does not mention the algorithm.
* `Replicas`: one replica as a state and the functions that its handlers compute. `Node`: the epaxos object as a
  class whose methods are proved to compute those functions. `System`: replicas and network as a transition
  system. `Refinement`: the histories of method calls of the objects are runs of the system.
* `Attributes`: what the attributes mean that a request or a vote computes. `Local`, `Safety`, `Restart`, `Runs`:
  invariants and theorems of runs with any faults. `Timers`: reply counts and slow-path timers in such runs. `Traffic`:
  which packets each of their steps sends. `Promptness`: what has executed after each step. `NilCommands`, `NilRun`:
  instances without a command.
* `CrashStop`, `CrashStopSteps`, `CrashStopRuns`: invariants of runs in which votes are delivered at most once and no
  restart loses one. `SameLeaders`: the premise of pruning, and attributes that only grow, in every run. `Histories`:
  what a replica executes over all its lives, in every run. `Interference`, `Votes`, `Commits`, `Consistency`: the
  theorems built on them. `TieRun`: the run in which a tie diverges. `Faults`, `Redelivery`, `SlowPath`, `Losses`: runs
  in which duplication or a restart defeats a quorum. `Limits`: which duplication and which restarts do not.
* `Wire`, `Codec`: the Protocol Buffers encoding of instance states as functions on bytes, and the loops that
  write and read a buffer. `FieldNumbers`: the format by field number. `Layouts`: when reading fails or panics, which
  the layout of a message decides.

Three kinds of runs appear. `IsRun` allows loss, duplication, reordering and restarts between steps. `IsVoteOnceRun`
delivers PreAccepts and the replies to them at most once, and lets a replica restart only when that loses no vote: reply
counters carry no sender, followers do not persist what they voted until it executed, and leaders do not persist whose
votes they counted, so quorum arguments need it, as `Limits` shows. `IsCrashStopRun` delivers every packet at most once
and restarts nobody, which the exact count of AcceptOKs needs. In all of them a replica may stop for good at any time:
it then simply takes no more steps. A scan that comes to an instance without a command, which an Accept that overtakes
its PreAccept leaves behind, dereferences nil; the model lets that process die (`Panicked(NilCommand)`).

## Model

| member | source | states |
|---|---|---|
| Runs.Agreement | epaxos/instance.go:119-332 | in every run, at any two times, all replicas that hold an instance as committed or executed and all Commit messages for it carry one command, one sequence number and one dependency list, and the command is there |
| Runs.AcceptIsDecided | epaxos/instance.go:299-320 | in every run there is one kind of Accept per instance, and a later decision carries exactly its attributes |
| Runs.WasProposed | epaxos/command.go:141-156 | in every run, an instance its leader knows was opened by an earlier request with the command it still has |
| Runs.OpenedOnce | epaxos/command.go:141-156 | in every run, restarts included, no two requests that take effect open the same slot |
| Runs.SlotsDense | epaxos/command.go:141-146 | in every run the slots that a leader has opened are numbered from 1 without gaps |
| Runs.DecidedWasProposed | epaxos/command.go:141-156 | in every run, a decided command was proposed at the leader of its instance |
| Runs.NoIllegalTransition | epaxos/instance.go:119-172 | in every reachable state no message, request, tick, executor run or reload asks for a transition outside the table |
| Timers.TimersExact | epaxos/epaxos.go:163-187 | in every run with any faults, a slow-path timer is registered exactly for an own instance that is PreAccepted with replies that make more than half of the nodes, the leader included; then no reply differed and the timer saw at most one tick; others' instances count no replies |
| Timers.QuorumsExact | epaxos/instance.go:274-320 | in every run with n nodes: a PreAccepted own instance with p replies has p + 1 < n - 1 if none differed and 2(p + 1) <= n if one did; an Accepted one got more than half of the nodes and waits for more than half to accept; a Committed one was committed by the very reply that completed all but one of the nodes, or more than half accepting |
| Timers.TimerStarts | epaxos/epaxos.go:176-182 | in every run a timer starts at 0 ticks in the step that registers it, and only ticks of its replica advance it |
| Timers.TimerFires | epaxos/timer.go:22-32 | in every run a tick leaves a registered timer waiting the first time; the second time its instance is Accepted, its Accepts went to everybody else, and the timer is gone |
| Traffic.SendsExactly | epaxos/instance.go:119-332 | in every run a step that is no restart sends a packet if and only if it announces to another node a transition of an own instance, with the body that its status has, or is the one answer to a PreAccept or Accept that the follower takes up |
| Traffic.RestartRepeats | epaxos/instance.go:119-156 | in every run a restart sends a packet if and only if it repeats to another node the last transition of an own persisted instance that has not executed: PreAccept, Accept or Commit with the persisted attributes |
| Traffic.SentOnce | epaxos/messaging.go:17-23 | no step of a run sends a packet twice |
| Traffic.FollowerHolds | epaxos/instance.go:193-332 | in every run, after a delivery a follower holds a vote, the accepted or the committed attributes of the message, unless it had gone further, and then it is unchanged |
| Runs.RunSafe | epaxos/epaxos.go:193-235 | every step of every run keeps what replicas and packets say consistent with the command leader |
| Runs.PacketsValid | epaxos/epaxos.go:238-265 | in every run no packet is rejected by the replica it is addressed to; own instances only receive replies |
| NilCommands.NilExactly | epaxos/instance.go:180-332 | in every run a replica that is up holds an instance without a command exactly when, since its last start, an Accept of it arrived and its command did not: not loaded, not by a Commit, and not by a PreAccept before the first Accept |
| NilCommands.CrashExactly | epaxos/command.go:67-127 | in every run a step crashes a replica exactly when the descent of its request or vote comes to such an instance |
| NilCommands.RequestPanics | epaxos/command.go:141-156 | a request panics exactly when its descent comes to an instance without a command |
| NilCommands.MessagePanics | epaxos/instance.go:193-204 | a message panics exactly when it is a PreAccept to vote on that has no command or whose descent comes to an instance without one |
| NilCommands.NeverPanics | epaxos/epaxos.go:163-235 | in every run in which no Accept is delivered to a replica that lacks the command, nobody crashes, and every packet, request, tick and executor run that may come next is handled |
| NilRun.NilCommandCrashes | epaxos/command.go:86-98 | some run of five replicas without redelivery or restarts ends in a request that dereferences nil, although the PreAccept of the instance did arrive, after its Accept |
| Attributes.RequestAttributes | epaxos/command.go:141-156 | a request takes a fresh slot, depends on exactly the interfering instances that its descent comes to and does not prune, which cover all known ones, and gets the number one above the largest of those that it comes to, pruned ones included |
| Attributes.VoteAttributes | epaxos/instance.go:193-213 | a vote records the join of the PreAccept's attributes with such dependencies and such a number from the follower's own log |
| Safety.BroadcastIn | epaxos/messaging.go:17-23 | a broadcast reaches exactly the other nodes |
| Local.StepLocal | epaxos/epaxos.go:193-269 | any message leaves timers, executor vertices and storage in agreement with the log, and touches only its instance |
| Local.RequestLocal | epaxos/command.go:141-156 | a request fails only on a nil command, touches only the slot it opens, persists it, and for a well-formed span keeps that agreement |
| Local.FreshId | epaxos/command.go:142-143 | the slot after the largest one in use is unused |
| Local.TransitionTable | epaxos/instance.go:119-149 | the four transitions that do not panic |
| Local.Ignored | epaxos/epaxos.go:193-265 | messages to others, replies about others' or unknown instances, and requests about own instances or those of strangers change nothing |
| Local.TickLocal | epaxos/timer.go:22-32 | a tick never fails and keeps that agreement |
| Local.ExecuteLocal | epaxos/instance.go:103-137 | executing vertices fails exactly when one of them has no command, and otherwise keeps that agreement |
| Restart.RestartSafe | epaxos/epaxos.go:127-149 | reloading the persisted instances of a replica keeps every run-wide guarantee, whatever the order of loading |
| SameLeaders.SameLeaderTransitivity | epaxos/command.go:73-111 | in every run with any faults, an instance reaches every earlier interfering instance of its leader |
| SameLeaders.DependenciesGrow | epaxos/instance.go:257-268 | in every run with any faults, dependencies and sequence number of an instance only grow at its leader from one state to a later one, unless it is still PreAccepted in the first and its leader restarts in between; they never fall below what the leader has persisted, which only grows, and a restart takes them back to exactly that |
| SameLeaders.PathsKept | epaxos/instance.go:257-268 | in every run a dependency path is kept while what every instance on it has lasts in that sense |
| Losses.AttributesShrink | epaxos/epaxos.go:127-149 | a run in which the dependencies and the number of a pre-accepted instance shrink at its leader, which did not persist what it merged before it restarted |
| Interference.SendersDistinct | epaxos/instance.go:238-246 | counted replies come from followers that are nodes, and counted votes from pairwise different ones |
| Interference.CommonVoter | epaxos/epaxos.go:297-300 | the voters of any two instances that left PreAccepted share a replica |
| Interference.DirectCover | epaxos/instance.go:193-230 | of two such interfering instances of different leaders, one has the other among its dependencies or has a later write of its replica that shields it |
| Interference.Connected | epaxos/command.go:67-127 | of two such interfering instances, one reaches the other |
| Commits.InterferenceTheorem | epaxos/instance.go:193-297 | in every run in which only Accepts, AcceptOKs and Commits are repeated and no restart loses a vote, of two decided interfering instances one is reachable from the other, in the graph of the decided attributes |
| Commits.CountersExact | epaxos/instance.go:238-320 | in such runs the count of votes of a pre-accepted instance equals the number of distinct followers that answered, and so does that of AcceptOKs if nothing is repeated; so the slow-path timer is registered exactly while these followers and the leader are more than half of the nodes and the instance is still PreAccepted |
| Commits.DecisionsShareVoter | epaxos/epaxos.go:297-306 | in such runs any two decided instances were each voted on by more than half of the nodes, with one replica in both |
| Commits.LeaderAttributes | epaxos/instance.go:248-272 | in such runs, at every leader state the dependencies are the sorted union, and the sequence number the maximum, of the PreAccept and the counted replies; while the instance is PreAccepted, and forever if nobody restarts, differentReplies holds exactly when a counted reply was a PreAcceptReply |
| Commits.FastPathExact | epaxos/instance.go:274-281 | in such runs an instance decided without Accepts, or without a quorum of AcceptOKs where every packet is delivered at most once, was decided by the leader and followers that answered PreAcceptOK, together at least all nodes but one; it has exactly the attributes of its PreAccepts, and every one of these followers held it pre-accepted with exactly these attributes at an earlier time |
| Attributes.VoteRecords | epaxos/instance.go:215-229 | a follower answers PreAcceptOK exactly when it records the attributes of the PreAccept, else it answers with what it recorded |
| Votes.OKRecorded | epaxos/instance.go:215-221 | in such runs every PreAcceptOK was sent in a step after which its sender held the instance with exactly the attributes of the PreAccept |
| CrashStopSteps.MergedFacts | epaxos/instance.go:257-268 | merging a reply joins the attributes, and comparing slice lengths detects exactly a new dependency |
| CrashStopSteps.StillInitial | epaxos/instance.go:274-281 | while all counted replies are PreAcceptOKs, the leader's attributes are those of its PreAccepts |
| CrashStopSteps.ReplyDiffers | epaxos/instance.go:254-268 | every PreAcceptReply that is counted sets differentReplies |
| CrashStopSteps.FollowerCS | epaxos/instance.go:193-332 | delivering a PreAccept, or an Accept or Commit, again or for the first time, keeps the invariants of voting |
| CrashStopSteps.LeaderCS | epaxos/instance.go:238-320 | delivering a reply keeps them, an AcceptOK also again |
| CrashStopRuns.TickAllCS | epaxos/epaxos.go:163-187 | ticking all timers in any order keeps them |
| CrashStopRuns.RequestCS | epaxos/command.go:141-156 | a request keeps them |
| CrashStopRuns.RestartCS | epaxos/epaxos.go:127-149 | a restart that loses no vote keeps them |
| CrashStopRuns.ModeRunCS | epaxos/epaxos.go:163-235 | they hold in every state of every run of their kind |
| Histories.ExactlyOnce | epaxos/execute.go:184-217 | in every run with any faults, what a replica has executed over all its lives is exactly its Executed instances, each once, with the decided command, with all dependencies, those of other components earlier; the members of a component stand together, smaller sequence numbers first, then smaller replicas |
| Histories.RunExecutedPrefix | epaxos/instance.go:139-149 | in every run, restarts included, the executed sequence of a replica is only appended to, and between its restarts no status decreases |
| Promptness.ExecutesExactly | epaxos/command.go:158-164 | in every run with any faults, after every step, a replica has executed an instance that it holds as committed if and only if it holds everything that this reaches through dependencies as committed or executed |
| Promptness.RunIdle | epaxos/execute.go:59-71 | in every run, after every step and at every replica, no vertex of the executor is ready |
| Promptness.RestartRestores | epaxos/epaxos.go:105-149 | in every run a restart brings a replica back to exactly the persisted states with new counters, no timers, the own committed instances as vertices and nothing executed anew, whatever the order of loading |
| Consistency.ExecutionConsistency | epaxos/execute.go:59-71 | in every run in which only Accepts, AcceptOKs and Commits are repeated and no restart loses a vote, two replicas that executed two interfering instances, in whatever lives, did so in one order, unless the two depend on each other and tie on sequence number and replica |
| TieRun.TiesDiverge | epaxos/instance.go:90-101 | some crash-stop run ends with two replicas that executed two writes of one key in opposite orders |
| TieRun.EitherOrder | epaxos/execute.go:203-211 | the dependency graph of that run allows both orders of the tied writes |
| TieRun.ScanMissesMax | epaxos/command.go:99-112 | a reached state in which the pruned scan returns a smaller maximum than a full scan |
| Limits.InterferenceExact | epaxos/instance.go:193-320 | the interference theorem holds in all runs that repeat packets of given kinds only and whose restarts lose given things only, if and only if the kinds are among Accept, AcceptOK and Commit and the restarts lose nothing |
| Faults.RepeatedOKs | epaxos/instance.go:238-246 | a run of five replicas that repeats only PreAcceptOKs and decides two interfering instances of which neither reaches the other |
| Faults.RepeatedPreAccepts | epaxos/instance.go:193-221 | a run that repeats only PreAccepts and does the same |
| Redelivery.RepeatedReplies | epaxos/instance.go:248-297 | a run that repeats only PreAcceptReplies and does the same, on the slow path |
| Losses.LostPreAccepted | epaxos/instance.go:193-230 | a run of three replicas without redelivery, in which only a restart forgets a pre-accepted foreign instance, does the same |
| Losses.LostAccepted | epaxos/instance.go:299-308 | a run of five replicas on the slow path, in which only a restart forgets an accepted foreign instance, does the same |
| Losses.LostCommitted | epaxos/instance.go:322-332 | a run of three replicas, in which only a restart forgets a foreign instance that is committed and waits for a dependency, does the same |
| Losses.LostTally | epaxos/epaxos.go:127-149 | a run of five replicas, in which only restarts of leaders with a pre-accepted own instance make them ask again, does the same |
| Confluence.OrderDetermined | epaxos/execute.go:203-211 | all executor runs agree on the order of two connected vertices exactly when they are not tied inside one component |
| Confluence.MutualOrder | epaxos/instance.go:95-101 | inside a component an order is forced exactly when ExecutesBefore tells the two apart |
| Confluence.RunsConfluent | epaxos/execute.go:59-87 | any interleaving of additions and runs that ends with a run executes what one run over everything may execute, so the executed set does not depend on the interleaving |
| Confluence.TraceAccount | epaxos/execute.go:59-87 | after any interleaving every added vertex is pending or executed, the executed ones are closed under dependencies, in order and without repetition |
| Tarjan.SccMaximal | epaxos/execute.go:123-143 | two vertices are in one listed component exactly when each reaches the other, and dependencies are listed first |
| Execution.Executor.StrongConnect | epaxos/execute.go:123-143 | lists the strongly connected components of all vertices in reverse topological order, whatever the iteration order |
| Execution.Executor.Visit | epaxos/execute.go:156-182 | keeps the depth-first search invariants, visits v and what it reaches along unvisited vertices, and terminates |
| Execution.Executor.PopComponent | epaxos/execute.go:173-181 | pops exactly the stack segment down to v and never underflows |
| Execution.Executor.ResetNodes | epaxos/execute.go:126-134 | every vertex starts unvisited with its dependencies restricted to the vertices |
| Execution.Executor.Blocked | epaxos/execute.go:185-201 | reports exactly whether some dependency is neither in the component nor executed |
| Execution.Executor.SortComponent | epaxos/execute.go:203-206 | a permutation of the component that ExecutesBefore contradicts nowhere |
| Execution.Executor.ExecuteScc | epaxos/execute.go:184-217 | a component executes whole, in order, or not at all |
| Execution.Executor.Run | epaxos/execute.go:59-71 | executes exactly the vertices whose whole dependency closure is present or executed, dependencies first, each component without interruption, and keeps the others for later |
| Keys.OverlapsIffShare | epaxos/epaxospb/command.go:33-42 | the four-branch overlap test holds exactly when the half-open ranges share a key |
| Keys.OverlapsExact | epaxos/epaxospb/command.go:33-42 | the test is exact for a span precisely when the span is well formed |
| Keys.InterferesExact | epaxos/epaxospb/command.go:52-55 | two well-formed commands interfere exactly when one writes and they have a key in common |
| Keys.NextKey | epaxos/command.go:129-139 | the range from a key to the key with a zero byte appended holds that key only |
| RangeGroups.AddKeys | epaxos/command.go:95-121 | adding a range adds exactly its keys |
| RangeGroups.AddCanonical | epaxos/command.go:95-121 | adding a range keeps the group ordered with gaps |
| RangeGroups.GrowsIffNewKey | epaxos/command.go:99-112 | Add reports growth exactly when some key is new |
| RangeGroups.OverlapsIffCovered | epaxos/command.go:113-121 | Overlaps holds exactly when a key of the range is in the group |
| Scan.ScanCovers | epaxos/command.go:65-127 | every known interfering instance is a dependency or is shielded by a later write of its replica that is one, early exit included |
| Scan.ScanSound | epaxos/command.go:65-127 | dependencies are known interfering instances, and the maximum is one of their sequence numbers |
| Scan.ScanMax | epaxos/command.go:65-127 | if later interfering instances of a space have larger sequence numbers, the pruned scan returns the maximum of a full scan |
| Visits.ScanPanics | epaxos/command.go:67-127 | the scan panics exactly when it comes to an instance without a command: some key of the command is not written above it |
| Visits.ScanCounts | epaxos/command.go:81-127 | the maximum that the scan returns is the largest number of the interfering instances that it comes to |
| Pruning.DependenciesExact | epaxos/command.go:86-121 | an instance is a dependency if and only if it interferes, the scan comes to it and, as a write, it has a key that no later interfering write of its space has or, as a read, it has no key that one has |
| Visits.FindsMaxIffCausal | epaxos/command.go:99-112 | the scan of a space returns the maximum of a full scan for every well-formed command if and only if, for each key with latest write y, earlier writes of the key have numbers at most y's and earlier instances on it at most the largest at or above y |
| ScanOrder.ScanAllCollects | epaxos/command.go:73-126 | the scan is the maximum and the union over the spaces, in whatever order they are visited |
| DepSlices.SliceIds | epaxos/instance.go:356-364 | the slice of a set holds its elements once, in order |
| DepSlices.SortedBySlot | epaxos/epaxospb/command.go:68-80 | the order is by replica, then by slot |
| DepSlices.LengthDecides | epaxos/instance.go:217-219 | for a sorted slice below a set, equal length is equality |
| Node.DepSliceFromMap | epaxos/instance.go:356-364 | returns the sorted slice of a set |
| Node.UnionDepSlices | epaxos/instance.go:366-375 | returns the sorted slice of the union |
| Node.SortIds | epaxos/epaxospb/command.go:68-80 | sorts identifiers and keeps each as often as it occurs |
| Node.MemoryStorage.Instances | epaxos/storage.go:60-70 | returns every persisted instance once, space by space and ascending in each |
| Node.EPaxos.constructor | epaxos/epaxos.go:105-125 | a new replica is in the empty state |
| Node.EPaxos.Reopen | epaxos/epaxos.go:105-125 | a restarted replica keeps its storage only |
| Node.EPaxos.InitStorage | epaxos/epaxos.go:127-149 | loads the persisted instances one by one, repeating the last transition of each own one that has not executed, up to the first panic if there is one |
| Node.EPaxos.LoadInstance | epaxos/instance.go:151-156 | reloads one instance and repeats its transition without persisting; without a status or, when it executes, a command it panics |
| Node.EPaxos.MaxInstanceNum | epaxos/command.go:17-22 | the largest slot in use of a replica |
| Node.EPaxos.Descend | epaxos/command.go:81-123 | the descent through one space computes its scan, early exit, pruning and nil dereference included |
| Node.EPaxos.SeqAndDepsForCommand | epaxos/command.go:67-127 | the loop over the spaces, in any order, computes the scan and clears the range group |
| Node.EPaxos.OnRequest | epaxos/command.go:141-156 | computes the request function of Replicas, panics included, which leave the storage as it was |
| Node.EPaxos.OnPreAccept | epaxos/instance.go:193-230 | computes the PreAccept function of Replicas |
| Node.EPaxos.OnPreAcceptOK | epaxos/instance.go:238-246 | computes the PreAcceptOK function of Replicas, executor run included |
| Node.EPaxos.OnPreAcceptReply | epaxos/instance.go:248-272 | computes the PreAcceptReply function of Replicas |
| Node.EPaxos.OnEitherPreAcceptReply | epaxos/instance.go:274-297 | computes the choice between fast path, slow path and waiting |
| Node.EPaxos.OnAccept | epaxos/instance.go:299-308 | computes the Accept function of Replicas |
| Node.EPaxos.OnAcceptOK | epaxos/instance.go:310-320 | computes the AcceptOK function of Replicas |
| Node.EPaxos.OnCommit | epaxos/instance.go:322-332 | computes the Commit function of Replicas and runs the executor, with the panic if a command to execute is missing |
| Node.EPaxos.TransitionTo | epaxos/instance.go:139-149 | a transition of the table sets the status, broadcasts, commits to the executor and persists; any other panics |
| Node.EPaxos.Execute | epaxos/instance.go:134-149 | marks one instance executed, delivers its command and persists it; without a command it panics |
| Node.EPaxos.PrepareToExecute | epaxos/command.go:158-164 | hands a committed instance to the executor, runs it, and delivers the executed commands in order |
| Node.EPaxos.Broadcast | epaxos/messaging.go:17-23 | appends one message for every other node |
| Node.EPaxos.ValidateMessage | epaxos/epaxos.go:238-265 | accepts exactly the messages addressed to this replica whose instance it may handle in that role |
| Node.EPaxos.KnownReplica | epaxos/epaxos.go:279-290 | decides membership in the node list |
| Node.EPaxos.RegisterTimer | epaxos/epaxos.go:176-182 | starts and registers the timer of an instance |
| Node.EPaxos.UnregisterTimer | epaxos/epaxos.go:184-187 | stops and removes it |
| Node.EPaxos.TickTimer | epaxos/timer.go:22-32 | one tick; at the timeout the instance takes the slow path |
| Node.EPaxos.Tick | epaxos/epaxos.go:163-167 | ticks every registered timer once, in some order |
| Node.EPaxos.Step | epaxos/epaxos.go:193-235 | computes the step function of Replicas, with the executor run and the delivered commands; a handler that panics leaves the storage as it was |
| Refinement.HistoriesAreRuns | epaxos/epaxos.go:105-235 | every history of calls on the objects, each keeping the contract of its method and each Step handling a packet that was sent, is a run of the system |
| Refinement.StepRefines | epaxos/epaxos.go:193-235 | stepping a packet is a delivery or redelivery step of the system; a panic leaves the storage as it was |
| Refinement.TickRefines | epaxos/epaxos.go:163-167 | ticking the object never panics and is a tick step of the system |
| Refinement.RestartRefines | epaxos/epaxos.go:127-149 | reloading what a replica of a run has persisted never panics and is a restart step of the system |
| Wire.VarintRoundTrip | epaxos/epaxospb/epaxos.pb.go:1223-1231 | reading a written varint returns every 64-bit value and what follows it |
| FieldNumbers.VarintDigits | epaxos/epaxospb/epaxos.pb.go:1223-1231 | a number is written as digits of seven bits, lowest first, with the high bit on all but the last, and no more of them than needed |
| FieldNumbers.VarintExact | epaxos/epaxospb/epaxos.pb.go:1480-1496 | reading takes at most ten bytes up to the first without the high bit, modulo 2^64; else it fails, and how |
| Wire.SpanRoundTrip | epaxos/epaxospb/epaxos.pb.go:1477-1588 | unmarshalling a marshalled span returns it |
| Wire.CommandRoundTrip | epaxos/epaxospb/epaxos.pb.go:1589-1738 | unmarshalling a marshalled command returns it |
| Wire.IdRoundTrip | epaxos/epaxospb/epaxos.pb.go:1739-1826 | unmarshalling a marshalled instance identifier returns it |
| Wire.BallotRoundTrip | epaxos/epaxospb/epaxos.pb.go:2400-2506 | unmarshalling a marshalled ballot returns it |
| Wire.DepsRoundTrip | epaxos/epaxospb/epaxos.pb.go:1908-1938 | unmarshalling marshalled dependencies appends them in order |
| Wire.DataRoundTrip | epaxos/epaxospb/epaxos.pb.go:1827-1959 | unmarshalling marshalled instance data returns it |
| Wire.InstanceRoundTrip | epaxos/epaxospb/epaxos.pb.go:2828-2989 | unmarshalling a marshalled instance state returns it |
| Wire.SkipExact | epaxos/epaxospb/epaxos.pb.go:3121-3219 | skipping consumes exactly one field of any wire type and of any number that an int32 holds, nested groups included, whatever follows it |
| Wire.UnknownIgnored | epaxos/epaxospb/epaxos.pb.go:2969-2981 | a field whose number a message does not have changes nothing in what is unmarshalled |
| FieldNumbers.IdField | epaxos/epaxospb/epaxos.pb.go:1739-1826 | field 1 sets the replica and field 2 the slot of an identifier, with the error for another wire type; other fields change nothing |
| FieldNumbers.SpanField | epaxos/epaxospb/epaxos.pb.go:1477-1588 | the same for key and end key of a span |
| FieldNumbers.CommandField | epaxos/epaxospb/epaxos.pb.go:1589-1738 | the same for the four fields of a command, the span merged in |
| FieldNumbers.BallotField | epaxos/epaxospb/epaxos.pb.go:2400-2506 | the same for the three fields of a ballot |
| FieldNumbers.DataField | epaxos/epaxospb/epaxos.pb.go:1827-1959 | the same for the three fields of instance data, the command merged in and a dependency appended |
| FieldNumbers.InstanceField | epaxos/epaxospb/epaxos.pb.go:2828-2989 | the same for the four fields of an instance state, nested messages merged in and the status cut to 32 bits |
| FieldNumbers.Int32Exact | epaxos/epaxospb/epaxos.pb.go:2889-2907 | cutting to 32 bits keeps the low ones, as a signed number |
| FieldNumbers.BadTag | epaxos/epaxospb/epaxos.pb.go:1497-1504 | an end of a group and a field number that is not positive are errors, the former first |
| Layouts.InstancePanics | epaxos/epaxospb/epaxos.pb.go:2828-2989 | whatever it unmarshals into, Unmarshal of an instance state panics on a buffer if and only if fields that are read or passed over lead to one with a length, in it or in a message or group inside, that is below 2^63 and ends at 2^63 or beyond |
| Layouts.PartsPanic | epaxos/epaxospb/epaxos.pb.go:1477-1959 | the same for spans, commands, identifiers, ballots and instance data |
| Layouts.GroupExact | epaxos/epaxospb/epaxos.pb.go:3174-3206 | skipping a group panics exactly when complete fields of it lead to such a length |
| Layouts.InstanceAlike | epaxos/epaxospb/epaxos.pb.go:2828-2989 | whether and with what error Unmarshal of an instance state fails depends on the layout of the message alone |
| Layouts.KeyPanics | epaxos/epaxospb/epaxos.pb.go:1506-1536 | a key with a length that ends just beyond 2^63 makes Unmarshal of a span panic |
| Codec.SovVarint | epaxos/epaxospb/epaxos.pb.go:1464-1473 | the number of bytes of a varint |
| Codec.SizeInstance | epaxos/epaxospb/epaxos.pb.go:1431-1446 | the number of bytes that marshalling an instance state writes |
| Codec.SizeData | epaxos/epaxospb/epaxos.pb.go:1276-1293 | the number of bytes of marshalled instance data |
| Codec.SizeCommand | epaxos/epaxospb/epaxos.pb.go:1246-1262 | the number of bytes of a marshalled command |
| Codec.EncodeVarint | epaxos/epaxospb/epaxos.pb.go:1223-1231 | writes exactly the varint at the offset and leaves what is before it alone |
| Codec.MarshalToSpan | epaxos/epaxospb/epaxos.pb.go:664-682 | writes exactly the encoding of a span at the offset |
| Codec.MarshalToCommand | epaxos/epaxospb/epaxos.pb.go:694-729 | writes exactly the encoding of a command at the offset |
| Codec.MarshalToId | epaxos/epaxospb/epaxos.pb.go:741-757 | writes exactly the encoding of an identifier at the offset |
| Codec.MarshalToBallot | epaxos/epaxospb/epaxos.pb.go:963-984 | writes exactly the encoding of a ballot at the offset |
| Codec.MarshalToData | epaxos/epaxospb/epaxos.pb.go:769-802 | writes exactly the encoding of instance data at the offset |
| Codec.MarshalToInstance | epaxos/epaxospb/epaxos.pb.go:1126-1163 | writes exactly the encoding of an instance state at the offset |
| Codec.Marshal | epaxos/epaxospb/epaxos.pb.go:1116-1124 | a buffer of exactly Size bytes, completely written |
| FieldNumbers.InstanceWritten | epaxos/epaxospb/epaxos.pb.go:1126-1163 | an instance state is written as its fields 1 to 4 in this order, zero numbers left out and nested messages not |
| FieldNumbers.DataWritten | epaxos/epaxospb/epaxos.pb.go:769-802 | instance data as the command in field 1, the number in field 2 and each dependency in a field 3 |
| FieldNumbers.CommandWritten | epaxos/epaxospb/epaxos.pb.go:694-729 | a command as the identifier in field 1, the span in field 2, the flag in field 3 and the data in field 4 |
| FieldNumbers.SpanWritten | epaxos/epaxospb/epaxos.pb.go:664-682 | a span as the key in field 1 and the end key in field 2 |
| FieldNumbers.IdWritten | epaxos/epaxospb/epaxos.pb.go:741-757 | an identifier as the replica in field 1 and the slot in field 2 |
| FieldNumbers.BallotWritten | epaxos/epaxospb/epaxos.pb.go:963-984 | a ballot as epoch, number and replica in fields 1 to 3 |
| Codec.DecodeVarint | epaxos/epaxospb/epaxos.pb.go:1480-1496 | the shift loop reads a varint, with its overflow and end-of-buffer errors |
| Codec.SkipEpaxos | epaxos/epaxospb/epaxos.pb.go:3121-3219 | the loop over the fields of a group, recursive for nested ones, computes the skipped length, errors and panics included |
| Codec.DecodeSpan | epaxos/epaxospb/epaxos.pb.go:1477-1588 | the loop computes the unmarshalling of a span, errors, panics and unknown fields included |
| Codec.DecodeCommand | epaxos/epaxospb/epaxos.pb.go:1589-1738 | the loop computes the unmarshalling of a command, errors, panics and unknown fields included |
| Codec.DecodeId | epaxos/epaxospb/epaxos.pb.go:1739-1826 | the loop computes the unmarshalling of an identifier, errors, panics and unknown fields included |
| Codec.DecodeBallot | epaxos/epaxospb/epaxos.pb.go:2400-2506 | the loop computes the unmarshalling of a ballot, errors, panics and unknown fields included |
| Codec.DecodeData | epaxos/epaxospb/epaxos.pb.go:1827-1959 | the loop computes the unmarshalling of instance data, errors, panics and unknown fields included |
| Codec.DecodeInstance | epaxos/epaxospb/epaxos.pb.go:2828-2989 | the loop computes the unmarshalling of an instance state, errors, panics, unknown fields and unknown statuses included |
| Codec.SaveAndLoad | epaxos/epaxospb/epaxos.pb.go:1116-1163 | marshalling into a buffer and unmarshalling it into a fresh value returns the instance state |

## Left out

- Sequence numbers, slots and replica identifiers are unbounded in the protocol model: wrap-around of the 64-bit counters is not modelled. `Wire` and `Codec` do model 64 bits.
- Replicas.ExecuteAll: the executor's callbacks are applied after the run that returns them, in its order; nothing in a run reads what they change except which instances have executed, which the run tracks itself.
- Object identity: instances and Tarjan nodes are map entries rather than references, so aliasing between an instance and the copy held by MemoryStorage is not captured; persisting stores a value. The timer's callback chain is replaced by its effect.
- Library code is given contracts: the ordered map of instances, the range tree (`RangeGroups`), sort.Slice and sort.Sort (any order that the comparison does not contradict).
- Commits.InterferenceTheorem: the path between two decided instances may pass through instances that are not decided yet; execution waits for those.
- Consistency.ExecutionConsistency: about the runs of the interference theorem it rests on, which are exactly those of `Limits.InterferenceExact`.
- Layouts.InstancePanics: about buffers of at most 2^62 bytes, more than a Go slice can hold; in longer ones an index could wrap around to a valid one.
- Local.RequestLocal: that a request keeps the bookkeeping is stated for spans whose end, if any, is after their key, as epaxos/epaxospb/epaxos.pb.go:84-88 demands of callers; so are all theorems about runs.
- HardState, Config validation, logging and randomness: no behaviour that the properties depend on.
- epaxos/node.go, transport and demo: only their consequence is used, that a step is atomic and its messages leave when it ends.
- The wire format of protocol messages and HardState: the same pattern as the messages modelled here.
- Ballots in the protocol, explicit prepare and truncation: not implemented by the source.
- Liveness: the source never retransmits, and a one-node cluster never receives the reply that would let it commit.
