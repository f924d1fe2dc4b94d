# RustyChain in Dafny

RustyChain builds data pipelines out of *chain links*. A chain link is a stage with three parts:

- an input queue;
- an output queue;
- a user-supplied map block that turns one optional input into one optional output.

A *chain* wires links one after another. Its `process` keeps moving data along until a round processes nothing or the last link produces something. A *group* (the `chain!` macro with several members, `split_merge!`, `duplicate!`) fans one input out to several member chains. It pops their outputs round-robin and processes the members in one of six policies: join, free or unique, each over all members or one member. This project models that runtime and the examples that use it, and proves what it promises.

Modules, in dependency order:

- `Wrappers`: `Option` and `Result`.
- `Queues` (`src/queue.rs`): the queue behind every link. `push` appends and `try_pop` takes the **most recent** element, so the queue is last-in-first-out. This follows the code (`Vec::pop`), although the type is described as a first-in-first-out queue.
- `Stages` (`chain_link!` in `src/macros.rs`): one link. Its state is `StageState(config, inbox, outbox)`. `Step` is the link's `process`: it first calls the map block with no input (a *continuation*), and only when that gives nothing does it pop one input and call the block with it. The class `Stage` is the link object, whose methods update its queues in place.
- `Chains` (`chain!` with one member, `src/chain.rs`): the `process_<first>` loop as `Loop`/`ChainProcess`, with `Chain.Process` proved equal to it. A one-link chain processes its single link once.
- `Groups` (`chain!` with several members, `split_merge!`, `duplicate!`): round-robin `try_pop` and the six process policies. `Group` is the class and `GroupState` its abstract state. Spawned tasks become *pending jobs*, which `CompleteJob` finishes.
- `TestLinks` (`src/test.rs`), `Robotics`, `Etl`, `EtlSplit`, `Madlib`, `Fibonacci` (`examples/*.rs`): the links and drivers written with the macros.

Every chain is typed in the source, with each link having its own input and output types. In the model, all links of one chain share one value type `V`, a sum type with one constructor per Rust type that flows through the chain, and one configuration type `C`. A link whose block is a pure map is `MapLink(f)`, and a chain of such links computes `Compose` of the maps. Loops that the source runs until they stop carry a `fuel` bound in the model.

## Model

| member | source | states |
|---|---|---|
| Queues.Pushed | src/queue.rs:17-20 | pushing appends the item at the end and keeps every earlier element in place |
| Queues.PushedIfEmpty | src/queue.rs:21-26 | the item is queued only when the queue is empty; otherwise the queue is unchanged |
| Queues.Popped | src/queue.rs:27-31 | popping fails exactly on an empty queue and otherwise removes and returns the last element, so rest + [popped] is the old queue |
| Queues.PushThenPop | src/queue.rs:17-31 | a pop right after a push returns the pushed item and restores the queue |
| Queues.PopOrderIsReversed | src/queue.rs:17-31 | two pushes are popped in reverse order (the queue is last-in-first-out) |
| Queues.PushIfEmptyScenario | src/queue.rs:21-26 | push_if_empty on a non-empty queue is ignored, and after that queue is drained it takes effect |
| Queues.Queue.constructor | src/queue.rs:8-14 | a new queue is empty |
| Queues.Queue.Push | src/queue.rs:17-20 | the stored list becomes Pushed of the old list |
| Queues.Queue.PushIfEmpty | src/queue.rs:21-26 | the stored list becomes PushedIfEmpty of the old list |
| Queues.Queue.TryPop | src/queue.rs:27-31 | the result and the new list are Popped of the old list |
| Stages.Step | src/macros.rs:65-88 | a continuation output is emitted before any input is read; otherwise at most the most recent input is consumed; at most one output is appended; the result is true exactly when an output was appended; with no continuation and no input nothing changes (the main path is stated by PoppedInput) |
| Stages.PoppedInput | src/macros.rs:77-87 | with no continuation output and an input queued, the newest input is popped and given to the block on the configuration the continuation call left; the queue loses that input, the configuration is the block's, its output if any is appended, and the result is true exactly when there was one |
| Stages.ContinuationConfig | src/macros.rs:66-76 | when no input is popped, the configuration is the one the continuation call returned |
| Stages.DroppedInput | src/macros.rs:77-87 | an input the block maps to nothing is consumed and lost, and process returns false |
| Stages.Stage.constructor | src/macros.rs:25-43 | a new link holds its initializer and two empty queues |
| Stages.Stage.Push | src/macros.rs:48-53 | only the input queue changes, by a push |
| Stages.Stage.PushIfEmpty | src/macros.rs:54-59 | only the input queue changes, by push_if_empty |
| Stages.Stage.TryPop | src/macros.rs:60-64 | pops the output queue and leaves the configuration and input queue alone |
| Stages.Stage.Process | src/macros.rs:65-88 | the new state and result are Step of the old state |
| Chains.Sweep | src/macros.rs:285-295 | the pass over links i.. leaves every earlier link untouched and never clears the any-processed flag |
| Chains.Round | src/macros.rs:282-295 | one iteration of the process loop is the pass from the first link with nothing carried, and keeps the number of links |
| Chains.Loop | src/macros.rs:279-298 | a loop whose condition (some link processed and the last did not) is false at the start, or that has no fuel left, changes nothing and keeps its flags; otherwise it keeps the number of links |
| Chains.Rounds | src/macros.rs:279-298 | the number of iterations the loop runs never exceeds the fuel |
| Chains.LoopIsIterate | src/macros.rs:279-298 | the loop ends at the states and flags reached after exactly Rounds iterations from the start |
| Chains.LoopContinuesBefore | src/macros.rs:282 | every iteration the loop runs starts from flags where some link processed and the last did not |
| Chains.LoopStopsAtFirst | src/macros.rs:282 | a loop that stops before its fuel is used up stops at the first iteration whose flags end the loop |
| Chains.ChainProcess | src/macros.rs:279-298 | a chain's process keeps the number of links; a one-link chain is exactly one Step of its link, with Step's result |
| Chains.ChainProcessStops | src/macros.rs:279-298 | a pipeline's process runs at least one iteration, goes on while some link processed and the last did not, returns the states and the last link's flag of its final iteration, and, unless the fuel ran out, that iteration had the last link processing or no link processing |
| Chains.MoreFuelChangesNothing | src/macros.rs:282 | once the loop has stopped, more fuel yields the same result, so the fuel bound only cuts loops that would go on |
| Chains.LoopAlong | src/macros.rs:279-298 | when every iteration along a path of states processes something and only the last one gets an output out of the final link, the loop ends at the path's last state reporting processed |
| Chains.IdleSweep | src/macros.rs:285-295 | a pass over links that are idle with empty queues changes nothing |
| Chains.IdleRound | src/macros.rs:282-295 | an iteration over an idle chain changes nothing and reports nothing processed |
| Chains.IdleChainStaysIdle | src/macros.rs:279-298 | process on an idle chain returns false and leaves every link unchanged |
| Chains.SweepOfMaps | src/macros.rs:285-295 | a pass of map links carries a value through as the composition of the remaining maps |
| Chains.ComposeOne | src/macros.rs:65-76 | a single map applies to a present value and passes an absent one on |
| Chains.ComposeConcat | src/test.rs:92-123 | running one list of maps and then another is running their concatenation, so a chain of chains behaves as one flattened chain |
| Chains.MapLinksAreQuiet | src/macros.rs:65-76 | map links with empty queues are idle |
| Chains.FirstRoundOfMaps | src/macros.rs:282-295 | the first iteration on a pipeline of maps with one input leaves Compose of the maps in the last outbox |
| Chains.ChainOfMaps | src/macros.rs:279-298 | process on a pipeline of maps delivers the composed value, and reports processed exactly when that value exists |
| Chains.OneInputThroughMaps | src/chain.rs:160-188 | for a fresh chain of maps, push then process then try_pop returns the composition of the maps applied to the input |
| Chains.PushFirst | src/chain.rs:160-165 | push on a chain goes to the first link's input queue only |
| Chains.PushFirstIfEmpty | src/macros.rs:856-868 | push_if_empty on a chain goes to the first link's input queue only |
| Chains.PopLast | src/chain.rs:166-168 | try_pop on a chain pops the last link's output queue only; a failed pop changes nothing |
| Chains.Fresh | src/macros.rs:214-275 | a new chain's links hold their initializers and empty queues |
| Chains.Chain.constructor | src/macros.rs:214-275 | the new chain's states are Fresh of the initializers |
| Chains.Chain.FeedAndProcess | src/macros.rs:286-289 | pushes the carried value into link i and processes it, as Step on the fed state |
| Chains.Chain.PopLink | src/macros.rs:290 | pops link i's output queue as Popped |
| Chains.Chain.Push | src/chain.rs:160-165 | the states become PushFirst of the old states |
| Chains.Chain.PushIfEmpty | src/macros.rs:856-868 | the states become PushFirstIfEmpty of the old states |
| Chains.Chain.TryPop | src/chain.rs:166-168 | the result and states are PopLast of the old states |
| Chains.Chain.AdvanceLink | src/macros.rs:283-291 | one step at a link before the last leaves the remaining pass equal to the pass from the next link |
| Chains.Chain.PropagateOnce | src/macros.rs:283-295 | one loop iteration over the links equals Round |
| Chains.Chain.Process | src/macros.rs:279-298 | the new states and result equal ChainProcess of the old states |
| Groups.Advance | src/macros.rs:876-882 | the cursor moves to the next member, wrapping to 0 after the last |
| Groups.Rotated | src/macros.rs:873-908 | the member visited on attempt k from a cursor is cursor + k, wrapped back by count once it passes the last member |
| Groups.RotatedAdvance | src/macros.rs:873-908 | advancing after k visits lands on the (k+1)-th member |
| Groups.RotatedSweep | src/macros.rs:873-908 | one sweep of count visits meets every member exactly once and ends at the start |
| Groups.Scan | src/macros.rs:873-908 | the scan stops at the first member in cursor order that is ready, or after all members |
| Groups.ScanStopsAtFirst | src/macros.rs:873-908 | the scan returns exactly the position of the first ready member |
| Groups.ScanCoversAll | src/macros.rs:873-912 | a scan that finds nothing has seen every member not ready |
| Groups.Initial | src/macros.rs:214-275 | a new group has fresh members, both cursors at 0, and nothing running or pending |
| Groups.GroupPush | src/macros.rs:843-855 | push delivers the input to the first link of every member and changes nothing else |
| Groups.GroupPushIfEmpty | src/macros.rs:856-868 | push_if_empty applies to every member's first link and changes nothing else |
| Groups.Ready | src/macros.rs:873-908 | a member is ready when its last link has an output |
| Groups.PopFrom | src/macros.rs:873-908 | the rest of a sweep: a failed sweep changes nothing, and any sweep keeps the bookkeeping, the member shapes and the cursor range |
| Groups.PopFromSkips | src/macros.rs:873-908 | an attempt at a member with no output moves on to the next attempt |
| Groups.PopFromTakes | src/macros.rs:873-908 | an attempt at a member with an output pops it and leaves the cursor just past it |
| Groups.PopFromTakesFirstReady | src/macros.rs:873-908 | a sweep that meets no output before attempt k pops the member visited at attempt k |
| Groups.PopFromFindsNone | src/macros.rs:873-912 | a sweep that meets no output returns None and changes nothing |
| Groups.GroupPop | src/macros.rs:869-912 | a failed try_pop changes nothing; try_pop never touches the running flags, the jobs or the process cursor, and keeps its cursor in range |
| Groups.GroupPopNoneIffNoOutput | src/macros.rs:869-912 | try_pop returns None exactly when no member's last link has an output, and then changes nothing |
| Groups.GroupPopFindsNone | src/macros.rs:869-912 | with no member holding an output, try_pop returns None and the same state |
| Groups.GroupPopFindsOutput | src/macros.rs:869-912 | with some member holding an output, try_pop returns the newest output of the first such member in cursor order |
| Groups.Newest | src/macros.rs:884-901 | what popping a member gives: its last link's most recent output, present exactly when that link has one |
| Groups.TryPopFound | src/macros.rs:869-912 | the try_pop loop that stops at its first hit has done what GroupPop does |
| Groups.GroupPopTakesFirstReady | src/macros.rs:869-912 | try_pop returns the latest output of the first ready member in cursor order, pops only that member and puts the cursor just after it |
| Groups.RotatedShift | src/macros.rs:873-908 | once the cursor has moved one on, attempt j visits the member attempt j + 1 visited before, and never the old cursor |
| Groups.PopAtReadyCursor | src/macros.rs:869-912 | after a pop at a ready cursor, the members the next attempts visit are untouched, each one attempt earlier than before |
| Groups.PopManyStep | src/macros.rs:869-912 | the first of k pops is one try_pop, and the rest are k - 1 pops from the state it leaves |
| Groups.ReadyAfterPop | src/macros.rs:869-912 | after a pop at a ready cursor, the next k - 1 members in the new cursor order still hold outputs |
| Groups.ShiftAfterPop | src/macros.rs:869-912 | after a pop at a ready cursor, attempt j - 1 reaches the member attempt j reached before, with the same newest output |
| Groups.FirstPopAtReadyCursor | src/macros.rs:869-912 | the first of k pops at a ready cursor returns that member's newest output |
| Groups.PopThenRest | src/macros.rs:869-912 | one pop over ready members leaves the next k - 1 ready, and the j-th of the k pops is the (j - 1)-th of the pops that follow, at the same member |
| Groups.RoundRobinAt | src/macros.rs:869-912 | the j-th of k pops over ready members takes the newest output of the j-th member in cursor order |
| Groups.RoundRobin | src/macros.rs:869-912 | when the next k members in cursor order all hold outputs, k calls of try_pop take one from each, in cursor order |
| Groups.JoinResultIsAny | src/macros.rs:302-306 | the joined result is true iff some member reported processed |
| Groups.ProcessEach | src/macros.rs:302-306 | each member is processed independently as its own chain |
| Groups.JoinAll | src/macros.rs:302-306 | process_all_join processes every member and returns true iff any member processed; the bookkeeping is untouched |
| Groups.JoinOne | src/macros.rs:425-458 | process_one_join processes only the member at the cursor, returns its result and advances the cursor |
| Groups.FreeAll | src/macros.rs:307-359 | process_all_free spawns exactly one job per member and changes nothing else; the jobs are recorded in member order rather than pipelines first, then solo members |
| Groups.FreeOne | src/macros.rs:459-531 | process_one_free spawns a job for the member at the cursor and advances the cursor |
| Groups.NotRunning | src/macros.rs:360-424 | the members not flagged running, each exactly once (listed in increasing member order) |
| Groups.UniqueAll | src/macros.rs:360-424 | process_all_unique spawns one job for every member not yet running and flags all of them running (jobs recorded in member order rather than pipelines first, then solo members) |
| Groups.NotFlagged | src/macros.rs:532-628 | a member is idle exactly when it is not flagged running |
| Groups.UniqueOne | src/macros.rs:532-628 | process_one_unique does nothing when every member is running; otherwise it spawns a job for the first idle member from the cursor, flags it and moves the cursor past it |
| Groups.Completed | src/macros.rs:307-424 | a finished job has run its member's process, leaves the pending list and, under unique, clears that member's flag |
| Groups.GroupProcess | src/macros.rs:913-968 | only join policies report processed; join never spawns jobs; free and unique leave members to their jobs; the try_pop cursor is untouched |
| Groups.UniqueAllKeepsInv | src/macros.rs:360-424 | process_all_unique keeps "running iff exactly one pending job" |
| Groups.UniqueOneKeepsInv | src/macros.rs:532-628 | process_one_unique keeps "running iff exactly one pending job" |
| Groups.ProcessKeepsInv | src/macros.rs:913-968 | every process policy keeps the group invariant: cursors in range, jobs naming members, flags only under unique and matching the jobs |
| Groups.CompletedKeepsInv | src/macros.rs:307-424 | finishing a job keeps the group invariant |
| Groups.DropJobKeepsUnique | src/macros.rs:360-424 | dropping a finished job and clearing its member's flag keeps "flag set exactly while one job is pending" |
| Groups.Group.StateInv | src/macros.rs:174-184 | a valid group object satisfies the group invariant |
| Groups.Group.constructor | src/macros.rs:214-275 | a new group's state is Initial of the initializers |
| Groups.Group.BuildMembers | src/macros.rs:214-275 | builds one valid, fresh chain per member from its initializers, with no two sharing a link |
| Groups.Group.Duplicate | src/macros.rs:1000-1027 | duplicate builds count identical members with the all-members policy and Initial state |
| Groups.Group.PopMember | src/macros.rs:884-901 | pops one member's last link as PopLast and leaves the other members alone |
| Groups.Group.ProcessMember | src/macros.rs:302-306 | processes one member as ChainProcess and leaves the other members alone |
| Groups.Group.PushMember | src/macros.rs:843-855 | pushes into one member's first link and leaves the other members alone |
| Groups.Group.PushMemberIfEmpty | src/macros.rs:856-868 | push_if_empty into one member's first link, other members untouched |
| Groups.Group.Push | src/macros.rs:843-855 | the state becomes GroupPush of the old state |
| Groups.Group.PushIfEmpty | src/macros.rs:856-868 | the state becomes GroupPushIfEmpty of the old state |
| Groups.Group.PopAtCursor | src/macros.rs:873-908 | one attempt pops the member at the cursor and advances the cursor |
| Groups.Group.TryEach | src/macros.rs:873-908 | the try_pop loop misses every member it passes; on None it has tried all members and changed nothing; otherwise it popped the newest output of the member it stopped at and moved the cursor past it |
| Groups.Group.TryPop | src/macros.rs:869-912 | the result and new state equal GroupPop of the old state |
| Groups.Group.ProcessAllJoin | src/macros.rs:302-306 | the state and result equal JoinAll |
| Groups.Group.ProcessOneJoin | src/macros.rs:425-458 | the state and result equal JoinOne |
| Groups.Group.ProcessAllFree | src/macros.rs:307-359 | the state equals FreeAll and the result is false |
| Groups.Group.ProcessOneFree | src/macros.rs:459-531 | the state equals FreeOne and the result is false |
| Groups.Group.ProcessAllUnique | src/macros.rs:360-424 | the state equals UniqueAll and the result is false |
| Groups.Group.LaunchIdle | src/macros.rs:360-424 | the loop of process_all_unique: every member ends flagged, and exactly the members that were idle get one job each (recorded in member order rather than pipelines first, then solo members) |
| Groups.Group.ProcessOneUnique | src/macros.rs:532-628 | the state equals UniqueOne and the result is false |
| Groups.Group.ClaimFirstIdle | src/macros.rs:532-628 | the loop of process_one_unique: the first idle member in cursor order is flagged and gets a job, with the cursor just past it; with none idle, the cursor goes a full turn and nothing changes |
| Groups.Group.CompleteJob | src/macros.rs:307-424 | the state equals Completed for the chosen job |
| Groups.Group.Process | src/macros.rs:913-968 | the state and result equal GroupProcess for the group's policy |
| TestLinks.Name | src/test.rs:12-21 | TestChainLink names First "first" and Second "second", and nothing else gives those names |
| TestLinks.Parse | src/test.rs:23-29 | StringToSomeInput accepts exactly "first" and "second" and fails (the panic) on anything else |
| TestLinks.ParseName | src/test.rs:12-29 | parsing a name gives back the input |
| TestLinks.NameParse | src/test.rs:12-29 | naming a parsed string gives back the string |
| TestLinks.TestChainLink | src/test.rs:12-21 | the link outputs exactly for an enum input, and outputs its name |
| TestLinks.StringToSomeInput | src/test.rs:23-29 | the link outputs exactly for a parsable string, and outputs the parsed enum |
| TestLinks.ChainTestIsIdentity | src/test.rs:31 | naming then parsing returns the input |
| TestLinks.TripleTestNames | src/test.rs:33 | name, parse and name again gives the input's name |
| TestLinks.ChainToChainNames | src/test.rs:37 | a chain of the two chains names its input |
| TestLinks.ChainToChainToLinkIsIdentity | src/test.rs:38 | the nested chain followed by a parser returns the input |
| TestLinks.Run | src/test.rs:41-123 | pushing, processing and popping a chain of map links returns the composition of the blocks |
| TestLinks.ChainLinkEnumToString | src/test.rs:41-55 | Second becomes "second" |
| TestLinks.ChainEnumToEnum | src/test.rs:58-72 | Second comes back as Second |
| TestLinks.ChainEnumToStringToEnum | src/test.rs:75-89 | First becomes "first" |
| TestLinks.ChainToChain | src/test.rs:92-106 | First becomes "first" |
| TestLinks.ChainToChainToChainLink | src/test.rs:109-123 | Second comes back as Second |
| Robotics.TurnsCancel | examples/robotics.rs:127-174 | a left turn and a right turn cancel, and four turns one way return to the start |
| Robotics.Forward | examples/robotics.rs:175-194 | a step moves exactly one cell, along the axis and in the direction of the facing |
| Robotics.MovedLeft | examples/robotics.rs:127-150 | an active robot turns left and steps forward; an inactive robot stays put |
| Robotics.MovedRight | examples/robotics.rs:151-174 | an active robot turns right and steps forward; an inactive robot stays put |
| Robotics.MovedStraight | examples/robotics.rs:175-194 | an active robot steps forward keeping its facing; an inactive robot stays put |
| Robotics.FourLeftsReturn | examples/robotics.rs:127-150 | four left moves bring the robot back to where it started, facing the same way |
| Robotics.FourRightsReturn | examples/robotics.rs:151-174 | four right moves bring the robot back to where it started, facing the same way |
| Robotics.Perform | examples/robotics.rs:119-194 | each action has its method's effect; shutdown sets the active flag and startup clears it, as written |
| Robotics.InactiveRobotStaysPut | examples/robotics.rs:127-194 | an inactive robot never moves under actions that do not reactivate it |
| Robotics.Performed | examples/robotics.rs:119-194 | a robot can only have moved or turned if it was active or was sent a shutdown |
| Robotics.Robot.constructor | examples/robotics.rs:112-118 | a new robot is active at (0, 0) facing north |
| Robotics.Robot.Shutdown | examples/robotics.rs:119-122 | the state becomes Perform of Shutdown |
| Robotics.Robot.Startup | examples/robotics.rs:123-126 | the state becomes Perform of Startup |
| Robotics.Robot.MoveLeft | examples/robotics.rs:127-150 | the state becomes MovedLeft of the old state |
| Robotics.Robot.MoveRight | examples/robotics.rs:151-174 | the state becomes MovedRight of the old state |
| Robotics.Robot.MoveStraight | examples/robotics.rs:175-194 | the state becomes MovedStraight of the old state |
| Robotics.ReadKeypress | examples/robotics.rs:86-102 | a read reports the opposite of the last key and resets the counter exactly when the counter has reached 3000; otherwise it counts the read and reports nothing |
| Robotics.ReadsUntilToggle | examples/robotics.rs:86-102 | from any counter up to 3000, the reads report nothing until the counter reaches 3000, and the next read toggles |
| Robotics.NewControllerReportsGo | examples/robotics.rs:80-102 | a new controller reports nothing for 3000 reads and then Go |
| Robotics.ControlPad.constructor | examples/robotics.rs:80-85 | a new controller has counted no reads and last key Stop |
| Robotics.ControlPad.ReadLastKeypress | examples/robotics.rs:86-102 | the result and new state equal ReadKeypress |
| Robotics.ControllerSensor | examples/robotics.rs:219-235 | the sensor reads the controller only when triggered, and outputs the controller's key when there is one |
| Robotics.ActionFor | examples/robotics.rs:240-275 | camera directions become moves, Go becomes startup and Stop shutdown |
| Robotics.ActionForIsInjective | examples/robotics.rs:240-275 | different sensor readings give different actions |
| Robotics.SensorProcessor | examples/robotics.rs:240-275 | outputs exactly when it receives data, and outputs the action for it |
| Robotics.RobotInterface | examples/robotics.rs:279-305 | performs a received action on the robot and outputs true; without input does nothing |
| Robotics.RobotInterfaceStep | examples/robotics.rs:279-305 | processing the robot link consumes the latest action, performs it and outputs true |
| Etl.LetterRun | examples/etl.rs:50-53 | the letter run is all letters and is maximal |
| Etl.ParseNamePart | examples/etl.rs:50-53 | succeeds exactly on input starting with a letter, and splits it into a maximal letter run and the rest |
| Etl.NamePartOf | examples/etl.rs:50-53 | a word of letters followed by a non-letter is parsed as that word |
| Etl.ParseFullName | examples/etl.rs:55-60 | on success, the name plus the rest is the input |
| Etl.FullNameShape | examples/etl.rs:55-60 | a parsed full name is two letter words joined by one space |
| Etl.FullNameOf | examples/etl.rs:55-60 | "first last" followed by a non-letter is parsed as that full name |
| Etl.U8Digits | examples/etl.rs:62-65 | on success, the rest is a suffix of the input that does not start with a digit |
| Etl.ParseAge | examples/etl.rs:62-65 | on success, at least one digit was consumed and the rest does not start with a digit |
| Etl.AccumulatedAtLeast | examples/etl.rs:62-65 | appending digits never lowers the accumulated value |
| Etl.U8DigitsOf | examples/etl.rs:62-65 | digits are read as their decimal value while it fits in u8, and rejected once it passes 255 |
| Etl.ParseAgeOf | examples/etl.rs:62-65 | an age in decimal is parsed to its value if at most 255 and rejected otherwise |
| Etl.AccumulatedSnoc | examples/etl.rs:62-65 | appending a digit multiplies by ten and adds it |
| Etl.DecimalValue | examples/etl.rs:62-65 | a decimal rendering reads back as the number |
| Etl.ParseCommaAge | examples/etl.rs:69-70 | the comma and age are consumed and the rest does not start with a digit |
| Etl.ParseCustomer | examples/etl.rs:67-75 | on success, the rest does not start with a digit |
| Etl.CustomerShape | examples/etl.rs:67-75 | a parsed customer's name is two letter words joined by a space |
| Etl.CustomerRest | examples/etl.rs:67-75 | a parsed customer consumed the name, the comma and at least one digit, and the rest is the end of the input |
| Etl.CustomerRoundTrip | examples/etl.rs:67-75 | "first last,age" followed by a non-digit parses back to that customer |
| Etl.CommaAgeOf | examples/etl.rs:69-70 | a comma and a rendered age parse back to the age |
| Etl.DigitLineRejected | examples/etl.rs:87 | "1,2" is not a customer |
| Etl.ParseLine | examples/etl.rs:89-94 | a line is accepted exactly when it parses as a customer followed by nothing but a newline |
| Etl.ParseLineRoundTrip | examples/etl.rs:89-94 | every customer rendered as a line parses back to itself |
| Etl.ParseStringToCustomer | examples/etl.rs:77-102 | outputs exactly for a well-formed line, and outputs its customer |
| Etl.InsertCustomerIntoDatabase | examples/etl.rs:113-122 | outputs true exactly when it receives a customer |
| Etl.ParseThenInsert | examples/etl.rs:77-124 | parsing then inserting gives true for a well-formed line and nothing otherwise |
| Etl.ParseAndInsert | examples/etl.rs:77-124 | a two-link chain of the parser and the inserter outputs true for a well-formed line and nothing otherwise |
| EtlSplit.NewSplitMerge | examples/etl_split.rs:124 | a new split-merge is a join-all group in its initial state |
| EtlSplit.InsertStep | examples/etl_split.rs:114-122 | an inserter with one queued customer consumes it and outputs true |
| EtlSplit.IdleInsertStep | examples/etl_split.rs:114-122 | an inserter with nothing queued does nothing |
| EtlSplit.SplitMergeInsertsIntoBoth | examples/etl_split.rs:124 | a pushed customer is inserted by both repositories in one process |
| EtlSplit.DriverRound | examples/etl_split.rs:155-163 | one driver iteration keeps the group invariant |
| EtlSplit.Driven | examples/etl_split.rs:154-164 | the driver records at most budget outcomes |
| EtlSplit.DrivenStops | examples/etl_split.rs:154-164 | the driver goes on exactly while each pop gives true; if it stops within budget, its last outcome is not true |
| EtlSplit.DrivenGoesOn | examples/etl_split.rs:153-164 | across one round, the outcomes recorded so far plus those of the rest of the loop stay the whole loop's outcomes, and a pop that is not true makes them final |
| EtlSplit.Round | examples/etl_split.rs:155-163 | one iteration on the group object, process then try_pop, does what DriverRound does, and so what any step function implementing it does |
| EtlSplit.DriveBy | examples/etl_split.rs:153-164 | the loop on the group object, for any step function that implements one round, records exactly what Driven of it records and ends in the state Driven ends in |
| EtlSplit.Drive | examples/etl_split.rs:153-164 | the loop on the group object records exactly what Driven of the driver round records |
| EtlSplit.IdleJoin | examples/etl_split.rs:124 | processing a split-merge with no queued input changes nothing |
| EtlSplit.AfterInsertsInv | examples/etl_split.rs:124 | the states after the inserts satisfy the group invariant |
| EtlSplit.LoadedIsPushed | examples/etl_split.rs:124 | pushing one customer into a fresh split merge queues it at both repositories, and the group invariant holds |
| EtlSplit.FirstJoin | examples/etl_split.rs:124 | the first process makes both repositories insert the customer |
| EtlSplit.FirstRound | examples/etl_split.rs:155-163 | the first iteration inserts in both repositories and pops true from one of them |
| EtlSplit.FirstPop | examples/etl_split.rs:155-163 | the first pop takes the first repository's result |
| EtlSplit.SecondPop | examples/etl_split.rs:155-163 | the second pop takes the second repository's result |
| EtlSplit.SecondRound | examples/etl_split.rs:155-163 | the second iteration pops the second true |
| EtlSplit.ThirdRound | examples/etl_split.rs:155-163 | the third iteration finds nothing and leaves the state alone |
| EtlSplit.OneCustomerRounds | examples/etl_split.rs:155-163 | for one customer, the driver rounds pop true, true and then nothing, leaving the states in between |
| EtlSplit.ThreeRounds | examples/etl_split.rs:153-164 | rounds that pop true, true and then nothing make the driver record exactly these three and stop |
| EtlSplit.OneCustomerRun | examples/etl_split.rs:153-164 | for one customer, the driver sees true, true, then nothing, and stops |
| Madlib.ConstructPart | examples/madlib.rs:53-64 | a static part becomes its text and End becomes End; a dynamic part becomes a word from its speech part's list, and fails exactly when that list is missing or empty |
| Madlib.Construct | examples/madlib.rs:34-72 | a received template replaces the stored one without resetting the index; each call emits the part at the index and moves the index by one; nothing is emitted once the index reaches the end or without a template |
| Madlib.Collect | examples/madlib.rs:74-91 | words are buffered; End emits the buffered words joined by spaces and empties the buffer; anything else does nothing |
| Madlib.FirstSpaceAfterWord | examples/madlib.rs:78-82 | for SplitWords, a reference definition of splitting on spaces that the madlib never calls: the first space after a space-free word is right after it |
| Madlib.SplitJoin | examples/madlib.rs:78-82 | the `join(" ")` of the collected words loses nothing: splitting the sentence on spaces (SplitWords, a reference inverse, not a source operation) gives back the space-free words |
| Madlib.SplitCons | examples/madlib.rs:78-82 | for the reference SplitWords: splitting a space-free word, a space and a rest gives that word and then the words of the rest |
| Madlib.JoinSnoc | examples/madlib.rs:78-86 | adding a word to the buffer adds it at the end of the sentence, after a space |
| Madlib.WordAt | examples/madlib.rs:53-64 | the word the construction emits for the i-th part |
| Madlib.Collected | examples/madlib.rs:74-91 | the buffer after k parts holds the first k words, in order |
| Madlib.ConstructStep | examples/madlib.rs:34-72 | the construction link at part k, after taking the queued template if there is one, emits that part's piece and moves on to part k + 1 |
| Madlib.CollectStep | examples/madlib.rs:74-91 | the collector buffers the k-th word, or at End emits the filled sentence and empties its buffer |
| Madlib.RoundFrom | examples/madlib.rs:34-93 | one iteration of the chain loop moves one part through, and at End emits the sentence |
| Madlib.LoopFillsMadlib | examples/madlib.rs:34-93 | from the freshly pushed template, the loop goes through every part and ends with the filled sentence in the collector's output |
| Madlib.OneProcessFillsMadlib | examples/madlib.rs:139-146 | one process on a well-formed template reports processed and leaves the filled sentence to pop |
| Madlib.Run | examples/madlib.rs:116-146 | main's process returns true and its pop gives the filled sentence |
| Madlib.MadlibConstructionInitializer.constructor | examples/madlib.rs:34-39 | the initializer holds the given words, index and template |
| Madlib.MadlibConstructionInitializer.Apply | examples/madlib.rs:34-72 | the new fields and output equal Construct of the old fields |
| Madlib.CollectConstructedMadlibPartsInitializer.constructor | examples/madlib.rs:74 | the buffer starts empty |
| Madlib.CollectConstructedMadlibPartsInitializer.Apply | examples/madlib.rs:74-91 | the new buffer and output equal Collect of the old buffer |
| Fibonacci.Next | examples/fibonacci.rs:12-20 | (a, b) becomes (b, a + b), and the step fails (the overflow panic) exactly when a + b does not fit in 32 bits |
| Fibonacci.FibonacciSequence | examples/fibonacci.rs:12-20 | the link outputs only when it receives a pair, and outputs its successor |
| Fibonacci.FibMonotone | examples/fibonacci.rs:34-50 | Fibonacci numbers never decrease |
| Fibonacci.FibSmall | examples/fibonacci.rs:34-50 | the first fifteen Fibonacci numbers are at most 377, so main never overflows |
| Fibonacci.FibPair | examples/fibonacci.rs:34-50 | the pair held after n rounds is (F(n), F(n+1)) |
| Fibonacci.NextFibPair | examples/fibonacci.rs:12-20 | the step moves one place along the sequence |
| Fibonacci.ProcessOnePair | examples/fibonacci.rs:36 | one process consumes the queued pair and outputs its successor |
| Fibonacci.Run | examples/fibonacci.rs:25-51 | main prints F(1) to F(13), every pop succeeds, and the link ends holding (F(12), F(13)) |

## Left out

- Threads, `tokio::spawn`, `join!` and the `RwLock`/`Mutex`/`Arc` wrappers are not modelled as concurrency. A spawned `process` under the free and unique policies is a pending job, and `Group.CompleteJob` runs it to completion at a point the caller chooses. Interleavings inside a job are not modelled.
- The `process_*_random` policies and the random choices in the examples (`Direction::choose`, `SliceRandom::choose` in the madlib) are not modelled as randomness. The madlib takes the choice as a caller-supplied `pick` function; the random group policies are left out.
- Chains.Loop, Chains.ChainProcess, Chains.Rounds: a fuel bound stops the loop that the source runs until it settles. `Chains.MoreFuelChangesNothing` shows the bound only matters for loops that would not stop on their own, and `Chains.ChainProcessStops` says where a loop that did not run out of fuel stopped.
- EtlSplit.Drive: the driver's `while` loop is bounded by a budget; `EtlSplit.DrivenStops` characterises where it stops.
- EtlSplit.DriveBy: the same budget bounds the loop here, as in `EtlSplit.Drive`.
- Groups.FreeAll, Groups.UniqueAll, Groups.Group.LaunchIdle: the source spawns every pipeline member before every solo member (`src/macros.rs:307-424`), while the model records the new jobs in member (declaration) order, the order the round-robin cursor uses. The spawn order is not observable here: `Group.CompleteJob` may finish any pending job next.
- Nested chains (a chain used as a link of another) are flattened into one list of links; a chain inside a group is one member.
- Each chain's Rust types are erased into one value sum type per chain.
- Panics (`unwrap`, `assert_eq!`, `panic!`, `expect`, overflow of `a + b`) are modelled as the error or absent value, not as aborting the program.
- Robotics.MovedLeft, Robotics.MovedRight, Robotics.MovedStraight: the `i8` coordinates are unbounded integers here, so the wrap-around or overflow panic at ±128 is not modelled.
- Console output (`println!`) is left out; the fibonacci example's printed numbers are returned as a sequence instead.
- File reading (`ReadFromFile` in `examples/etl.rs` and `examples/etl_split.rs`), temporary files and the camera's sleep are I/O and are left out. The ETL chains are modelled from the parser onwards.
- `DatabaseRepository.insert_customer` only prints, so the insert link is modelled as returning true.
- The `examples/etl.rs` driver loop has the same shape as the one in `examples/etl_split.rs`; it is modelled once, in `EtlSplit`, over the split-merge.
- The camera sensor, the `AutomatedRobot` chain and the robotics `main` loop are left out. The controller, sensor processor and robot links are modelled one by one.
- `duplicate!` shares one initializer between all copies in the source; the model gives each member its own copy of the configuration.
- `src/main.rs`, `src/framework.rs`, `examples/mapper.rs` and `examples/work_order.rs` are not part of this model.
- The older `src/chain.rs` definitions of `chain!` and `split_merge!` are represented by the `src/macros.rs` versions, which they match in the modelled behaviour. `chain.rs` uses a `deadqueue` in place of `queue.rs`; it is given the `queue.rs` semantics here.
