# SCEd, modelled and proved

SCEd is a single-threaded server that answers questions about locations, consulates, consular
districts and zip codes. Its event loop runs over *cursor queues*, lists with a moving position:
the queues of free socket slots, open sockets, clients, pending messages and search results are
all of this kind, and handlers delete from a queue while a loop is walking it.

This project models that server in Dafny and proves what its pieces promise together. Each module
follows one part of the C program:

| module | part |
|---|---|
| `CursorQueue` | the cursor queue, its operations, and loops that delete while they walk |
| `Splitting`, `RingBuffer`, `CommandLine`, `Flattening` | from received bytes to argument vectors, and the printer |
| `Clients`, `ClientRecord`, `ClientIO` | one client: timeouts, messages, reading and processing |
| `ServerModel`, `ServerSteps`, `ClientSweeps`, `SocketPoll`, `ServerRuns` | the whole server as a value: its invariant, each step, and every run |
| `SocketServer`, `EventLoop` | the same server in place: pool, queues and records are updated by loops |
| `MainLoop`, `IdleTimes` | pacing of the event loop, and idle times over whole runs |
| `StateCodes`, `Options`, `Searches`, `Commands`, `CommandMeaning`, `FindFetch`, `Sessions` | state codes, options, searches, and FIND, GET, FETCH and SET |
| `Results` | result queues: filled, counted, drained and printed |

The pattern is the same throughout. Code that updates objects in place is a class whose methods
are proved equal to a function on values (`State()`, `Abs()`), and the theorems are about that
function: over every queue, every sequence of operations, every run of the server, every text of
a command. Events from outside (accepted sockets, received blocks, clock readings, rows of a query,
the address of a copied string, the value an unassigned variable happens to hold) are arbitrary
inputs.

Things the proofs show about the code that its readers may not expect:

- A loop over a queue that deletes the *first* element skips the original second one, because
  stepping back from position 0 stays at 0. It is the only element that is ever skipped
  (`SweepCoverage`), so a poll, a timeout check or a round of message processing passes over at
  most one client and leaves it as it was (`SecondIsPassedOver` is an example: of two clients whose
  timeouts have passed, one is expired and the other is not even charged the time).
- In a walk over the clients, a skipped client becomes the first of the queue, and over any run
  these walks skip a given client at most once (`SkippedAtMostOnce`). In a poll that is not so: the
  skipped slot comes first in the next poll unless all other client slots failed and a new client
  got one of them (`SkippedComesFirst`). With two clients, a peer that closes its connection and
  opens a new one between polls therefore keeps the other client unread through any number of polls
  (`NeverRead`, `SecondIsNeverRead`).
- A free slot is taken from the tail of a queue to which released slots are also pushed: the slot
  released last is the one used next, whether a poll or a sweep released it (`PollQueues`,
  `LastFreedIsReused`).
- Timeouts are never early (`TimeoutsAreNeverEarly`), and they can be late: a check does not count
  the time of iterations without a round, nor that of checks that skipped the client
  (`ExpiresExactlyWhen`).
- A negative TIMEOUT is meant to become `LONG_MAX` but is stored as -1, which disables the check
  and, for a client without a user, can never be replaced (`NegativeTimeoutSticks`).
- COD_STATE text is read modulo 2 to the 32: `4294967297` is accepted as state 1
  (`WrappedCodeIsAccepted`).
- FIND accepts a PROVINCE option and then searches without it. GET passes it on: in Italy it narrows
  the search, and elsewhere, where the query has no place for it, the search then finds nothing.
  FIND uses a TERRITORIAL_COMPETENCE that only the session has, while GET does not. From the same
  state of the session, FIND and then FETCH answer what GET answers if and only if a search by name
  sets no PROVINCE, a search for consulates outside Italy does not rest on such a
  TERRITORIAL_COMPETENCE, the search is not for specimina, which are drawn at random, nor by the code
  of a location, which is compared by the address of its copy, and its type does not come from an
  unassigned variable (`FindThenFetchIsGet`).
- FETCH without a search is answered twice, once by its handler and once by the parser
  (`Sessions.Session.Perform`).
- After a GET that names something to search for, whatever FIND had left for FETCH is gone
  (`GetDropsTheSearch`); and a FIND whose search fails still leaves the options of its WITH clause
  set (`StepFolds`).
- `ring_read_string` is safe exactly on data that ends in a terminator
  (`DrainDefinedIffTerminated`): its counter is unsigned, so the exit for data without one is never
  taken.

## Model

| member | source | states |
|---|---|---|
| `CursorQueue.Run` | src/queue.c:31-252 | After any sequence of queue operations -1 <= position <= length, and the position is not negative when the queue is not empty |
| `CursorQueue.FindMoves` | src/queue.c:238-252 | A search leaves the elements alone and stops at the first match from the current position on, or at the end |
| `CursorQueue.RunConserves` | src/queue.c:138-223 | Over any interleaving of operations, what was there and what was put in is, as a multiset, what came out and what is left |
| `CursorQueue.CursorRefinesDeque` | src/queue.c:204-223 | Push, pop and dequeue behave as on a plain double-ended list wherever other operations left the cursor |
| `CursorQueue.FifoOrder` | src/queue.c:210-223 | Push and dequeue are an exact first-in first-out queue, with any cursor moves and searches in between |
| `CursorQueue.LifoOrder` | src/queue.c:204-217 | Push then pop is an exact stack, with any cursor moves in between |
| `CursorQueue.SweepFromHead` | src/queue.c:114-124 | A loop that walks a queue and deletes the current element when it is doomed leaves and visits exactly what the closed forms Survivors and Visited say, from any cursor |
| `CursorQueue.SweepCoverage` | src/queue.c:149-186 | Such a loop keeps order, visits nothing twice, and skips only the original second element, exactly when the first is deleted |
| `CursorQueue.SweepEndsOnLast` | src/sock2.c:201-204 | A walk whose last element is not deleted ends with the cursor on that element |
| `CursorQueue.Queue.constructor` | src/queue.c:7-18 | A new queue is empty with position -1 |
| `CursorQueue.Queue.Rewind` | src/queue.c:31-42 | The cursor goes to 0 unless it is not positive |
| `CursorQueue.Queue.End` | src/queue.c:44-53 | The cursor goes to the last element |
| `CursorQueue.Queue.Next` | src/queue.c:55-64 | The cursor advances unless it is at the end, and says so |
| `CursorQueue.Queue.NextPlusOne` | src/queue.c:66-76 | The cursor may advance to one past the end |
| `CursorQueue.Queue.Prev` | src/queue.c:78-88 | The cursor steps back but never below 0 from a position in the queue |
| `CursorQueue.Queue.GetFirst` | src/queue.c:114-118 | Rewinds and gets |
| `CursorQueue.Queue.GetNext` | src/queue.c:120-124 | Gets the next element, or nothing at the end |
| `CursorQueue.Queue.AddNode` | src/queue.c:138-147 | Inserts after the cursor; past the end it appends |
| `CursorQueue.Queue.InsertNode` | src/queue.c:149-158 | Inserts before the element that precedes the cursor and steps forward; -1 although inserted when that step is not possible |
| `CursorQueue.Queue.DeleteNode` | src/queue.c:160-186 | Removes the element at the cursor, if there is one, and moves the cursor in the given direction |
| `CursorQueue.Queue.Remove` | src/queue.c:188-202 | Removes the first occurrence of an element, or moves to the end when there is none |
| `CursorQueue.Queue.Find` | src/queue.c:238-252 | The loop equals the search function; says whether a match was found |
| `CursorQueue.Queue.Pop` | src/queue.c:204-208 | Removes and returns the last element |
| `CursorQueue.Queue.Push` | src/queue.c:210-217 | Appends |
| `CursorQueue.Queue.Dequeue` | src/queue.c:219-223 | Removes and returns the first element |
| `CursorQueue.PlacesAtElement` | src/queue.c:138-186 | With the cursor on an element, whatever comes before and after it: an added element goes right after it and is the one the cursor ends on; deletion removes it, and each direction leaves the cursor at a stated place |
| `CursorQueue.InsertPlaces` | src/queue.c:149-158 | An inserted element goes before the element that precedes the cursor, which the cursor ends on; at the head it goes before the head, and into an empty queue as its only element |
| `Splitting.RunsAreClean` | src/ring.c:116-120 | Every piece between separators is non-empty and has no separator in it |
| `Splitting.RunsLoseOnlySeparators` | src/ring.c:116-133 | The pieces together are the text without its separators, in order: no other character is lost |
| `RingBuffer.DrainDefinedIffTerminated` | src/ring.c:104-134 | Reading strings until nothing is left stays inside the data if and only if the data is empty or ends in a terminator |
| `RingBuffer.DrainYieldsLines` | src/sock2.c:285-293 | The non-empty strings read are exactly the maximal runs free of CR, LF and NUL, in order |
| `RingBuffer.LinesAreClean` | src/ring.c:116-133 | The messages are non-empty, free of terminators, and lose nothing but terminators |
| `RingBuffer.FramedReadsBack` | src/ring.c:104-134 | Any messages without CR, LF and NUL, tabs and blanks allowed, each ended by any number of these three characters, are framed back exactly |
| `RingBuffer.OneMessage` | src/ring.c:116-120 | CR, LF and NUL end a message, and no other character does |
| `RingBuffer.Ring.Write` | src/ring.c:73-90 | Appends what fits; -1 when something does not fit or there is nothing to write |
| `RingBuffer.Ring.ReadString` | src/ring.c:104-134 | Takes the bytes up to and including the first terminator and returns them without it |
| `RingBuffer.Ring.Clear` | src/ring.c:40-53 | Blanks the data without making it shorter |
| `CommandLine.PackedSlice` | src/parse.c:60-82 | Arguments lie in disjoint consecutive slices of the buffer, each followed by its NUL |
| `CommandLine.EndArgument` | src/parse.c:60-84 | Closing an argument keeps the stored arguments, and fails exactly when argv has one entry left |
| `CommandLine.CopyChar` | src/parse.c:85-87 | A character is stored inside the buffer, and nothing already stored changes |
| `CommandLine.ParseMessage` | src/parse.c:12-105 | The in-place tokenizer fails exactly when the message has more than 29 tokens; else the packed buffer and argv, of 30 entries, hold exactly those tokens; all its writes are inside the two buffers |
| `Flattening.FlattenArgv` | src/utils.c:12-30 | The growing buffer ends as the arguments joined by single spaces |
| `Flattening.JoinConcat` | src/utils.c:12-30 | Words printed in two parts are the two printed parts with one space between them |
| `Flattening.TokensOfLine` | src/parse.c:12-105 | Any clean tokens, with any non-empty runs of spaces, tabs and CRs between them, any such blanks around them, and anything after a newline or NUL, are exactly the tokens of the line, and are parsed exactly when there are at most 29 |
| `Flattening.TokensOfJoin` | src/utils.c:12-30 | Tokenizing a printed vector of clean tokens gives the vector back, and its parse succeeds exactly when there are at most 29 of them |
| `Flattening.JoinIsNormalForm` | src/parse.c:46-93 | Printing the tokens of any line gives its single-space normal form, with the same tokens and the same parse |
| `Flattening.TokensAreClean` | src/parse.c:46-93 | Tokens are non-empty and free of blanks, newlines and NULs |
| `Flattening.CommandsInConcat` | src/sock2.c:276-300 | Blocks that end in a terminator can be framed and parsed one at a time |
| `Flattening.WireRoundTrip` | src/sock2.c:276-300 | Commands of 1 to 29 clean tokens, with any non-empty runs of spaces and tabs between the words and any of CR, LF and NUL at the end of each, are framed and tokenized back to exactly the same list |
| `Clients.UnauthenticatedTimeout` | src/client.c:453-472 | Over any settings of a client that never had a user the timeout is 1000000 times the least positive one, 0 if there is none, and -1 for ever when the first one other than 0 is negative |
| `Clients.NegativeTimeoutSticks` | src/client.c:461-469 | A first setting of -1 leaves -1 whatever is set later without a user |
| `Clients.OnlyUsersRelaxTimeouts` | src/client.c:453-472 | For any interleaving with authentications and deauthentications, a client is only ever allowed more idle time by a setting made while it has a user |
| `Clients.StoredTimeoutReadsBack` | src/client.c:444-472 | A setting takes effect for a user, for a client without a timeout, and when it is a smaller positive one; then it is stored as its microseconds, or as -1 when it is negative, without overflow of an int, and read back, a negative one as 0; otherwise nothing changes |
| `Clients.ReceiveAllKeepsStream` | src/sock2.c:276-300 | Receiving keeps every command of the stream either logged or pending, in order |
| `Clients.ProcessingKeepsStream` | src/parse.c:136-147 | Processing keeps the same account; a client that stays has nothing pending, and its idle time is 0 when it had messages |
| `Clients.ProcessingStopsAtDestroy` | src/parse.c:136-147 | Commands run in order, each once, up to the first one that sets the destroy flag and no further |
| `ClientRecord.Client.Create` | src/client.c:119-127 | A new client has no user, no timeout and no messages |
| `ClientRecord.Client.CheckTimeout` | src/client.c:130-140 | Adds to the idle time and marks the client when a positive timeout is reached |
| `ClientRecord.Client.SetTimeout` | src/client.c:453-472 | A user sets any timeout; others only the first one or a smaller positive one |
| `ClientRecord.Client.ResetElapsedTime` | src/client.c:142-150 | Only the idle time changes, to 0 |
| `ClientRecord.Client.AddMessage` | src/client.c:206-221 | Queues a message unless it is empty |
| `ClientRecord.Client.GetMessage` | src/client.c:223-236 | Takes the oldest message |
| `ClientRecord.Client.ParseMessage` | src/parse.c:23-123 | Runs the command whose arguments are read back from the buffers of the tokenizer, or drops the message |
| `ClientRecord.Arguments` | src/parse.c:107-111 | The argument strings, read from the buffer up to their NULs, are the tokens |
| `ClientIO.TakeBlock` | src/sock2.c:282-293 | One received block goes through the ring into the message queue, and leaves the ring empty |
| `ClientIO.NextString` | src/sock2.c:285-293 | Each string read is the first of those that the data holds, and the rest stays to be read |
| `ClientIO.DropLeftOvers` | src/sock2.c:302-306 | What is left in the ring is blanked, and not shortened |
| `ClientIO.ReadFromClient` | src/sock2.c:265-312 | Reads block after block; the result says whether the connection is over |
| `ClientIO.ProcessClient` | src/parse.c:136-147 | The loop over the messages of a client equals ProcessMessages, and stops at the destroy flag |
| `ServerModel.SlotsAreConserved` | src/sock2.c:87-104 | Free slots, clients and the listener add up to the pool |
| `ServerModel.SlotsArePartitioned` | src/sock2.c:371-372 | Every slot is in exactly one of the two queues, exactly once |
| `ServerModel.SlotsHaveOwnClients` | src/sock2.c:231-238 | No two open slots have the same client |
| `ServerModel.SlotOfClient` | src/sock2.c:315-334 | The slot found for a client is the one open slot that belongs to it |
| `ServerSteps.FreePoolIsReversed` | src/sock2.c:87-89 | Inserting the slots one by one gives exactly the reversed pool, with the cursor at 0 or 1 |
| `ServerSteps.SlotsComeOutAscending` | src/sock2.c:87-104 | After start-up slots are handed out in increasing order |
| `ServerSteps.InitIsSound` | src/sock2.c:72-104 | Start-up establishes the invariant |
| `ServerSteps.DestroyKeepsSound` | src/sock2.c:351-374 | Dropping the client of an open slot keeps the invariant |
| `ServerSteps.AcceptKeepsSound` | src/sock2.c:225-249 | Accepting a client keeps the invariant, with the listener last |
| `ServerSteps.DestroyClientKeepsSound` | src/sock2.c:321-374 | The slot of any client is found, exactly that client is dropped, and exactly that slot leaves the open queue for the tail of the free one |
| `ServerSteps.StrangerIsNotFound` | src/sock2.c:321-334 | No slot is found for what is not a live client |
| `ClientSweeps.SweepClientsCloses` | src/client.c:542-561 | Both sweeps over the clients, from any cursor: the invariant is kept, survivors keep their order, the slots of the destroyed clients are pushed to the free queue in the order of visits and the other open slots keep theirs, no client is visited twice, only the original second one can be skipped, exactly when the first is destroyed, and it is left as it was |
| `ClientSweeps.LastFreedIsReused` | src/sock2.c:371-372 | After a sweep that destroyed clients, an accept takes the slot of the client destroyed last |
| `ClientSweeps.SecondIsPassedOver` | src/client.c:550-554 | Two accepted clients are both due: the check expires the first one and leaves the second one as it was |
| `SocketPoll.PollQueues` | src/sock2.c:201-260 | What one poll does to the open and free queues in closed form: order kept, listener last, released slots pushed in the order of visits, an accepted client in the one released last |
| `SocketPoll.PollCoverage` | src/sock2.c:201-260 | One poll visits no slot twice, nor one accepted meanwhile; it skips at most the original second slot, exactly when the first failed; a visited client has received its blocks and is dropped exactly when its socket failed |
| `SocketPoll.WhoIsDropped` | src/sock2.c:251-258 | A client is dropped by a poll exactly when its slot is visited, its socket is ready, and reading from it ends with the end of the stream or an error |
| `SocketPoll.PollFailsWhen` | src/sock2.c:206-261 | A poll answers -1 exactly when it visits the listening slot, its socket is ready, and accepting fails or no slot is free, those given back earlier in the same poll included; else it answers 0 |
| `SocketPoll.SkippedComesFirst` | src/sock2.c:201-260 | When the first of three or more open slots fails, the skipped one is first after the poll if and only if it is not the case that a client waits and all the other client slots failed |
| `SocketPoll.StarvingPoll` | src/sock2.c:225-260 | With two clients, when the first fails and another one waits, the new client takes the slot and the place of the first, and the second is left as it was |
| `SocketPoll.PollKeepsHead` | src/sock2.c:360-362 | A poll leaves the first client of the queue first, unless it drops it |
| `SocketPoll.HandleKeepsSound` | src/sock2.c:251-258 | Reading from a client, and dropping it on failure, keeps the invariant |
| `ServerRuns.ApplyKeepsInv` | src/main.c:325-332 | Each sweep and each poll keeps the invariant of the pool and of every byte stream |
| `ServerRuns.Boot` | src/sock2.c:72-104 | Start-up establishes both invariants |
| `ServerRuns.Run` | src/main.c:325-332 | Any run of sweeps and polls keeps both invariants, the size of the pool and the listening socket |
| `ServerRuns.EveryReachableState` | src/sock2.c:87-104 | In every state reachable from start-up the pool is partitioned, the clients of the open slots are exactly the queued clients, and free + clients + 1 is the size of the pool |
| `ServerRuns.SkippedAtMostOnce` | src/queue.c:188-202 | Over any run, all the sweeps together skip a given client at most once in its life |
| `ServerRuns.NeverRead` | src/sock2.c:201-260 | Through any number of such polls, whatever the second client has sent, it is not read |
| `ServerRuns.SecondIsNeverRead` | src/sock2.c:201-260 | For any number there is a run of that many polls in which the second of two accepted clients always has data to read and is not read |
| `ServerRuns.AcceptAfterSweep` | src/sock2.c:201-238 | The next poll that accepts a client, when no connection ends in it, puts it into the slot of the client that the sweep destroyed last |
| `ServerRuns.SweepDispatches` | src/parse.c:126-150 | One round of message processing over any reachable state: each visited client runs its pending commands in order up to the first that destroys it, and stays exactly when none does; a skipped client keeps all of them |
| `ServerRuns.CommandsArriveInOrder` | src/sock2.c:265-312 | End to end: when a client sent a list of commands, spaced and ended in any way, in any blocks, what was run so far and what is pending are together exactly that list, in every reachable state |
| `MainLoop.PacingHolds` | src/main.c:310-334 | With a clock that does not go back the pacing rule keeps the lag between -31250 and 0, and the rounds apart |
| `MainLoop.RoundIffPeriodPassed` | src/main.c:321-335 | A round takes place exactly when more than 31250 microseconds passed since the last one |
| `MainLoop.SleepIsExact` | src/main.c:321-342 | A round is due at the next reading of the clock exactly when more than the time slept for has passed since the last one; the loop sleeps 31250 after a round, and what is left of it otherwise |
| `MainLoop.OverflowRunsARound` | src/main.c:310-335 | A clock that goes back, or ahead by 9223372036854 seconds or more, makes a round due at once, with no time charged |
| `MainLoop.RoundsTakeTime` | src/main.c:334-342 | n rounds take more than n - 1 periods |
| `MainLoop.LoopPaces` | src/main.c:305-342 | The clock, the lag and the rounds of the loop are those of the pacing rule, in any run |
| `MainLoop.LoopIsPaced` | src/main.c:302-342 | From the start of the loop, with a steady clock: the lag stays between -31250 and 0 and the sleep between 0 and 31250, rounds are more than 31250 apart, and n of them take more than n - 1 periods |
| `MainLoop.IterateKeepsOk` | src/main.c:305-335 | Each iteration keeps: no idle time on record exceeds the time since creation or last command |
| `MainLoop.TimeoutsAreNeverEarly` | src/client.c:130-140 | In any run no client is expired before it was idle for its timeout, whatever rounds and clients are skipped |
| `MainLoop.ExpiredIsNotRead` | src/main.c:325-332 | A client whose timeout expires in a round is not read in it: what it had received is what it ends with |
| `MainLoop.NothingPendingAfterRound` | src/main.c:325-332 | What is read in a round is processed in it: a client that the last walk visits ends with nothing pending, and all it ever sent has been run |
| `IdleTimes.IdleTimeIsExact` | src/main.c:310-335 | Over any run without overflow or truncation, the idle time on record is exactly the time since creation or the last command, less that of iterations without a round and of checks that skipped the client |
| `IdleTimes.ExpiresExactlyWhen` | src/client.c:130-140 | A check that visits a client expires it exactly when it has a timeout and has been idle for that long, not counting the time that went missing |
| `MainLoop.Start` | src/main.c:302-303 | The loop starts in such a state, with lag 0 |
| `MainLoop.Loop` | src/main.c:305-335 | In any run, with any events and a clock that does not go back, the invariant of the server holds and no idle time exceeds the clock time since the client was created or last had a command processed |
| `SocketServer.FillPool` | src/sock2.c:87-89 | The loop that inserts the slots builds FreePool |
| `SocketServer.OpenListener` | src/sock2.c:100-103 | The first slot becomes the listener and the only open one |
| `SocketServer.TakeSlot` | src/sock2.c:232-238 | The last free slot is set up and inserted before the listener |
| `SocketServer.ReleaseSlot` | src/sock2.c:371-372 | The slot at the cursor goes back to the tail of the free queue |
| `SocketServer.ForgetClient` | src/sock2.c:360-362 | The client leaves the client queue and its slot |
| `SocketServer.SocketServer.constructor` | src/sock2.c:87-110 | The server starts in the state Init |
| `SocketServer.SocketServer.DestroySocket` | src/sock2.c:351-374 | Equals the step DestroySocket on the whole state |
| `SocketServer.SocketServer.DestroyClientSocket` | src/sock2.c:321-334 | For any client: equals the step DestroyClientSocket, and answers 0 exactly when the client is alive |
| `SocketServer.SocketServer.CheckClient` | src/client.c:550-554 | Equals one visit of the timeout sweep |
| `SocketServer.SocketServer.WorkClient` | src/parse.c:133-148 | Equals one visit of the parse sweep |
| `SocketServer.SocketServer.ClientsCheckTimeouts` | src/client.c:542-561 | The loop over the client queue, which removes clients as it goes, equals the timeout sweep |
| `SocketServer.SocketServer.ParseAllClientMessages` | src/parse.c:126-150 | The loop equals the parse sweep |
| `SocketServer.SocketServer.ReadClient` | src/sock2.c:251-258 | Equals the handling of a client slot |
| `SocketServer.SocketServer.AcceptWaiting` | src/sock2.c:225-249 | Equals accepting a client |
| `SocketServer.SocketServer.HandleListening` | src/sock2.c:207-250 | Equals the handling of the listener; -1 exactly when its socket is ready and accepting fails or no slot is free |
| `SocketServer.SocketServer.PollClients` | src/sock2.c:182-262 | The loop over the open queue, which changes it as it goes, terminates and equals the poll, result included |
| `EventLoop.Round` | src/main.c:325-332 | Timeouts, then sockets, then messages |
| `EventLoop.EventLoop.Iterate` | src/main.c:305-342 | One pass of the endless loop equals Iterate, and sleeps for SleepTime, which SleepIsExact pins down |
| `StateCodes.ValidateCodState` | src/sce.c:400-421 | The loop and atoi accept a text exactly as CodStateOf says; the result is unset or from 1 to 1023 |
| `StateCodes.CodStateMeaning` | src/sce.c:400-421 | For every text: only digits are accepted, read modulo 2 to the 32 when they fit a long, and only as a number from 1 to 1023 |
| `StateCodes.WrappedCodeIsAccepted` | src/sce.c:415-418 | The decimal text of 4294967297 is accepted as state 1 |
| `StateCodes.DecimalReadsBack` | src/sce.c:415-418 | The decimal text of any number is read back as that number |
| `StateCodes.CodStateRoundTrip` | src/sce.c:400-421 | Every code from 1 to 1023 can be written and is read back |
| `StateCodes.CodStatesAsWritten` | src/sce.c:400-421 | Texts as a client writes them: 97 is read as 97, and 0, a sign, a blank or no text at all is refused |
| `StateCodes.AtoiReads` | src/search.c:117-126 | Every number that fits an int is read after any blanks and one sign, up to the first character that is not a digit |
| `StateCodes.EntityTable.constructor` | src/sce.c:38-50 | No entity is loaded at first |
| `StateCodes.EntityTable.Get` | src/sce.c:237-246 | Reads one of the three places for an entity, inside the table |
| `StateCodes.EntityTable.Set` | src/sce.c:221-235 | Stores an entity for one code and leaves the others |
| `StateCodes.Entities.Set` | src/sce.c:221-246 | What is stored for a code is what is read for it, and no other code is affected |
| `Options.GetOptionIndex` | src/options.c:144-159 | The first entry with the keyword that has the scope, or -1 when there is none |
| `Options.LookupMeaning` | src/options.c:47-142 | What the keywords of a session and of a search name, in either scope |
| `Options.AcceptsMeaning` | src/options.c:206-230 | Which settings succeed: any PROVINCE, any SEARCH_CONSTRAINT, TERRITORIAL_COMPETENCE exactly as ENABLED, COD_STATE exactly as digits from 1 to 1023 modulo 2 to the 32, and no other keyword |
| `Options.SlurpReadsClause` | src/commands.c:377-394 | For every argument list the result r is the clause at its start: 0 <= r <= argc, (r + 1) / 3 options were applied, from left to right, and r mod 3 is 2 exactly when no option was refused or cut off |
| `Options.ClauseIsUnique` | src/commands.c:377-394 | No other number of words satisfies that description |
| `Options.ClauseRoundTrip` | src/commands.c:377-394 | A printed clause of accepted options is read back whole, whatever follows it |
| `Options.SlurpTakesTheSame` | src/commands.c:377-394 | How many words are taken does not depend on what was set before |
| `Options.FoldMeaning` | src/options.c:319-342 | The code and the province end with the last value that the clause gives them, or as they were; territorial competence ends on exactly when it was or the clause sets it |
| `Options.LastValueIsSet` | src/commands.c:383-390 | The last value is that of a setting after which there is no other of the same option |
| `Options.FoldKeepsCodState` | src/options.c:319-342 | Accepted options keep the code unset or from 1 to 1023 |
| `Results.PrintRows` | src/output_csv.c:48-101 | Popping until empty prints the announced count and the lines of the rows from last to first; the queue ends empty; found says whether anything was printed |
| `Results.EveryRowIsPrintedOnce` | src/output_csv.c:58-98 | Line i is the row at place i of PrintedAt: every row that can be printed is, once, the last one first |
| `Results.PrintedAt` | src/output_csv.c:58-98 | The places of the printed rows descend, and are those of all the rows that can be printed |
| `Results.CountIsHonest` | src/output_csv.c:55-56 | The announced count is the number of lines exactly when every row can be printed |
| `Results.DescendingPrintsAscending` | src/xsqlite.c:725-735 | Rows that a query gives in descending order are printed in ascending order |
| `Results.ColumnsInOrder` | src/output_csv.c:85-91 | Any list of columns is printed in order, each followed by the delimiter |
| `Results.RowOfTwo` | src/output_csv.c:58-98 | What each way of printing makes of a row of two codes, with and without a text that can be encoded |
| `Results.PushRows` | src/xsqlite.c:339-394 | Rows are appended in the order of the query |
| `Results.FindDistricts` | src/sce.c:326-352 | The walk over the list of all districts finds those of the code, and leaves the list as it was |
| `Results.MatchingIsExact` | src/sce.c:332-349 | Each district of the code is found as many times as it is listed, and no other |
| `Results.MatchingAppend` | src/sce.c:332-349 | The districts found are in the order of the list |
| `Searches.RouteStaysInTable` | src/search.c:268-303 | No search of any type asks for the entity of a code outside of the table, -1 included |
| `Searches.FindLocationsByName` | src/sce.c:260-285 | The rows of a query by name are pushed whether or not it ends well |
| `Searches.FindConsulates` | src/sce.c:307-324 | Italy has no consulates; otherwise the entity depends on territorial competence |
| `Searches.FindSpecimina` | src/sce.c:365-392 | The Italian zip codes, then those of each loaded entity in the order of codes |
| `Searches.SpeciminaAppend` | src/sce.c:371-386 | Every loaded entity is asked exactly once, in the order of the table, and a missing one adds nothing |
| `Searches.Search.constructor` | src/search.c:33-86 | A new search has a code, nothing to search by, and empty result queues |
| `Searches.Search.RefreshInternalState` | src/search.c:13-31 | The field searched by is the first one given, in order of priority |
| `Searches.Search.SetCodState` | src/search.c:97-106 | Only the code changes, and the field searched by stays right |
| `Searches.Search.SetProvince` | src/search.c:157-166 | Only the province changes |
| `Searches.Search.SetTerritorial` | src/search.c:197-206 | Only the territorial competence changes |
| `Searches.Search.SetName` | src/search.c:137-146 | The name changes, and with it the field searched by |
| `Searches.Search.SetZipcode` | src/search.c:217-226 | The zip code changes, and with it the field searched by |
| `Searches.Search.SetMaeCode` | src/search.c:117-126 | The text is read as a number, and the field searched by follows |
| `Searches.Search.SetSceCode` | src/search.c:177-186 | What is stored is the address of a copy of the text |
| `Searches.Search.SetType` | src/search.c:248-257 | Only the type changes |
| `Searches.Search.Execute` | src/search.c:268-303 | Puts the question the search stands for; the rows end in the queue of its type; the entity table is never read out of bounds |
| `Searches.Search.CountResults` | src/search.c:377-393 | The length of the queue of the type of the search, or -1 |
| `Commands.HeadReadsWords` | src/commands.c:424-454 | Each type of search is recognised by its words, with at least two words in all; what is recognised starts with the words of its type, or with CONSULAR and another word |
| `Commands.Skipped` | src/commands.c:459-466 | After any clause the number of remaining words is never negative |
| `Commands.ByClauseIgnoresOptions` | src/commands.c:474-503 | The BY clause is read alike by FIND and GET, and leaves the options alone |
| `Commands.FindReadsLikeGet` | src/commands.c:456-510 | FIND and GET accept the same options, take the same words and search for the same thing by the same field with the same code; GET leaves the options of the session, FIND leaves their left-to-right fold |
| `FindFetch.SameQuestion` | src/session.c:284-294 | A FIND and a GET of the same words, each with its own copy of the text of a code, search for the same thing by the same field; their questions are equal if and only if the options agree and a question by code is about the same address |
| `FindFetch.FindIgnoresProvince` | src/session.c:284-294 | A concrete command for which the two questions differ |
| `CommandMeaning.LocationsByName` | src/commands.c:474-479 | For every clause of options, every state of the session and all words, LOCATIONS BY NAME asks for the name that the words make, in the state last set, and under GET in the province last set; without a state or a name it asks nothing |
| `CommandMeaning.LocationsByZipcode` | src/commands.c:480-485 | LOCATIONS BY ZIPCODE asks for the zip code that the words make |
| `CommandMeaning.LocationsByCode` | src/commands.c:492-497 | LOCATIONS BY SCE_CODE and BY LOCATION_CODE ask about the address of the copied text |
| `CommandMeaning.DistrictsByMaeCode` | src/commands.c:486-491 | CONSULAR DISTRICTS BY MAE_CODE asks for the number that the words are read as, in any state |
| `CommandMeaning.OtherFieldsAskNothing` | src/search.c:289-302 | LOCATIONS by a mae code, and CONSULAR DISTRICTS by any other field, make a search that has no question to put |
| `CommandMeaning.ConsulatesOfState` | src/commands.c:498-499 | CONSULATES, whatever follows the options, asks for those of the state last set, with territorial competence if the words set it or, for FIND, the session has it; for Italy and without a state it asks nothing |
| `CommandMeaning.SpeciminaOfZipcodes` | src/commands.c:498-499 | SPECIMINA OF ZIPCODES, whatever follows, asks for them |
| `CommandMeaning.NeedsBy` | src/commands.c:474-503 | LOCATIONS and CONSULAR DISTRICTS make a search exactly when the words after the options are BY, one of five fields, and at least one more |
| `CommandMeaning.ConsularAlone` | src/commands.c:441-446 | CONSULAR without DISTRICTS sets no option, and makes a search exactly when the unassigned variable holds a type that needs no BY |
| `CommandMeaning.NamesNothing` | src/commands.c:424-450 | Exactly which commands name nothing to search for |
| `CommandMeaning.LocationsInProvince` | src/commands.c:414-518 | A whole command word by word, WITH and AND included: the question, and the options of the session |
| `CommandMeaning.ConsulateRows` | src/sce.c:307-324 | The rows for consulates are those of the entity of the state with territorial competence, else those of the entity of code 0, and none for Italy or without a state |
| `CommandMeaning.LocationRows` | src/sce.c:237-305 | The rows for locations are those of the entity of the state, for Italy of the one kept outside of the table; the question holds the name and province, the zip code or the address of the search; a failure keeps rows by name only |
| `CommandMeaning.OtherRows` | src/sce.c:326-386 | The rows for districts are those listed with the code; for specimina the Italian ones, then those of the table |
| `Commands.PreparedHasQueue` | src/commands.c:441-446 | No search without a result queue is made, whatever the unassigned type after CONSULAR is |
| `Commands.PreparedCodState` | src/commands.c:456-510 | Both commands keep the code unset or from 1 to 1023, in the session and in the search |
| `FindFetch.FindThenFetchIsGet` | src/commands.c:520-566 | From the same state of the session, FIND then FETCH answers what GET answers, for all data, all draws of specimina, all ways of printing and all values that the words leave open, if and only if the two commands ask alike; when FIND fails GET fails with the same answer |
| `FindFetch.UnlikeDisagrees` | src/commands.c:520-566 | For every other command there is data on which the answers differ: FIND finds a row that GET does not, two draws differ, or one of them is undefined |
| `Commands.GetDropsTheSearch` | src/commands.c:456-518 | After a GET that names something to search for, nothing is left for FETCH |
| `CommandMeaning.FindAnswers` | src/commands.c:520-542 | FIND answers the number of rows and keeps them; undefined when nothing is named or the field is missing, unavailable when the search fails; and what is left of the session in each case |
| `CommandMeaning.GetAnswers` | src/commands.c:544-566 | GET answers the count and the lines, or undefined after the count when there is no line, and fails with the same answers |
| `CommandMeaning.FetchAnswers` | src/commands.c:369-375 | FETCH answers the rows kept, once; without any it is answered twice that it is unavailable |
| `CommandMeaning.SetAnswers` | src/commands.c:666-679 | SET sets exactly the option that its two words give, or is undefined and changes nothing |
| `CommandMeaning.ConsulatesAnswered` | src/commands.c:520-542 | End to end: the answer of FIND CONSULATES, from the words, the session and the tables, for every clause of options |
| `CommandMeaning.NameAnswered` | src/commands.c:544-566 | End to end: the answer of GET LOCATIONS BY NAME, from the words, the session and the tables |
| `Commands.StepFolds` | src/commands.c:369-566 | Every command leaves the session with exactly the options it sets, whether it succeeds or fails |
| `Commands.RunFolds` | src/commands.c:369-566 | Over any run of commands the options of a session are the fold of all those set, in order, and its code is always unset or from 1 to 1023 |
| `Sessions.SetBy` | src/commands.c:474-503 | The BY clause sets the one field of the search that its second word names, as ByClause says; LocationsByName and the rows after it pin down which |
| `Sessions.Session.constructor` | src/session.c:42-45 | A new session has no options set |
| `Sessions.Session.OptionSet` | src/options.c:206-230 | Looks an option up and sets it on the session or on its search; -1 and no change exactly when it is not accepted |
| `Sessions.Session.SlurpAndSetOptions` | src/commands.c:377-394 | The recursion with effects equals Slurp |
| `Sessions.Session.ReadOptions` | src/commands.c:459-466 | The place of the BY clause, and the options set on the way |
| `Sessions.Session.RefreshSearchOptions` | src/session.c:284-294 | The search takes over the code and the territorial competence, and not the province |
| `Sessions.Session.MakeSearch` | src/commands.c:424-510 | Both commands up to the search equal Prepare |
| `Sessions.Session.FindGet` | src/commands.c:414-518 | Both commands up to their answer equal FindGet, and change nothing but the session and the cursor of the district list |
| `Sessions.Session.PrintSearchResult` | src/commands.c:280-309 | Prints the waiting rows and drops the search; -1 when there is none |
| `Sessions.Session.Find` | src/commands.c:520-542 | Equals Find: the answer and the whole session |
| `Sessions.Session.Get` | src/commands.c:544-566 | Equals Get |
| `Sessions.Session.Fetch` | src/commands.c:369-375 | Equals Show without the count, result included |
| `Sessions.Session.Set` | src/commands.c:666-679 | Sets exactly one option, or answers undefined |
| `Sessions.Session.Perform` | src/parse.c:107-119 | Any of the four commands equals Step: its own answers, and one more when its handler returns an error |

## Left out

- RingBuffer.Ring.ReadString: requires a terminator in the data. Without one the scan runs past the end, which has no meaning to model; `DrainDefinedIffTerminated` says exactly which data is safe, and `ring_clear` after a partial line is modelled only as a method of the ring.
- Clients.ReceiveAllKeepsStream: blocks end in a terminator, for the same reason.
- ClientIO.TakeBlock: the block ends in a terminator, for the same reason.
- ClientIO.ReadFromClient: the blocks end in a terminator, for the same reason.
- SocketServer.SocketServer.ReadClient: the blocks end in a terminator, for the same reason.
- SocketServer.SocketServer.PollClients: received blocks end in a terminator, for the same reason.
- ServerRuns.EveryReachableState: the runs are those in which received blocks end in a terminator, for the same reason.
- ClientRecord.Client.ParseMessage: what the handlers do is one arbitrary function of the words and of three fields of the client.
- ClientRecord.Client.SetTimeout: requires at most 2147 seconds. Above that the conversion from double to int has no defined result.
- MainLoop.PacingHolds: the difference of two clock readings is taken as a number; the double arithmetic of the source rounds it only beyond 2 to the 53 microseconds.
- FindFetch.FindThenFetchIsGet: both commands start from the same state of the session, and see the same data but for the random draw of specimina.
- Searches.Search.SetSceCode: the number searched for is the address of a copied string, so it is an arbitrary input and not the code in the text.
- Searches.Search.Execute: requires the entity of code 0, which the server loads before it starts; the dump of all locations is answered with no rows.
- Commands.HeadOf: after CONSULAR without DISTRICTS the source reads a variable that was never assigned; its value is an arbitrary input.
- Sessions.Session.constructor: the source leaves the search of a new session unassigned; the model starts without one.
- The ring buffer and GLib's queue are foreign libraries, modelled by their contents and by their rule that a position out of range appends on insertion and finds nothing otherwise.
- What a command does to its client is, in the model of the server, an arbitrary function of its words and of the timeout, the user and the destroy flag of the client, the same for all commands of one round; the commands that search are modelled on sessions by themselves, and are not run inside the server.
- The idle time of a client is an unbounded number, so the overflow of a long is not modelled.
- Sockets, select and its error, descriptors and the set of active ones, daemon start-up, reload, signals, and logging.
- An accepted client for which no slot is free is created and never freed, and its descriptor stays open: its record is outside of the model.
- SQLite and the text of queries: what each database answers to each question is an arbitrary input, as are the rows of the Italian zip codes.
- Encodings: the encoded form of each name is an arbitrary partial map; columns of a row are taken as already formatted.
- The FLAT, JSON and VOID output handlers, and the DUMP, ALTER, SHOW, LIST, CREATE, DESTROY, WITHIN, ANNOUNCE and HELP commands.
- Sessions by number (WITHIN SESSION, DESTROY SESSION): the search for one returns the number looked for and not the session.
- `queue_put` and `queue_set_position`, which nothing uses.
- Failures of memory allocation, except when a client is accepted; memory that is leaked or freed.
- Options of a client other than its timeout, the restriction of LOGGING to users, and the text that options are shown as (a code above 999 is cut to three digits).
