# StrikeDB: a verified model of its protocols and dense algorithms

This project models the parts of StrikeDB in which many threads, many machines or
many cases meet, and proves what they promise. It is written in Dafny 4.11;
`dafny verify dfyconfig.toml` checks all of it.

| files | what they model |
|---|---|
| `EventLoop`, `EventLoopSafety`, `Worker`, `Intake`, `HalfClose` | ownership of a connection's buffers and session between an event-loop worker, pool threads and dedicated threads, with slots reused under generations |
| `Pool` | the blocking pool that grows on demand and retires idle threads |
| `Coalescer`, `CoalescerSafety`, `CoalescerFates`, `CoalescerRuns`, `SlotMask` | group commit of vector queries, and the atomic mask of launch buffers |
| `Resp`, `Chunks`, `Wire`, `Inline`, `Accepted`, `Client` | the incremental and the blocking command parser, inline commands, the client's framing and its reply reader |
| `Glob`, `GlobMeaning`, `Text`, `Acl`, `AclMeaning`, `AclText`, `AclRoundTrip`, `AclStore` | glob patterns, access rules and the tokens that set them, the saved user table, and the latch that lets the gate be skipped |
| `Arena`, `MemoryIndex`, `Memory`, `Shortlist`, `Recall`, `RecallMeaning`, `Graph`, `GraphPaths` | long-term memory: its records and in-memory mirrors, scoped recall, and the typed graph |
| `Crc` | table-driven CRC-32 against the bit-serial definition |
| `Vm`, `VmCompile`, `Reducer` | the fuel-metered interpreter, a small compiler to it, and the reducer runtime with its circuit breaker |
| `Crdt`, `Replication`, `Hlc` | counters, registers and hybrid logical clocks, over whole runs of many nodes |
| `Codec`, `ValueCodec` | length-prefixed encodings |
| `Base` | shared types |

Concurrent code is a state, a step relation, and theorems over every run. Where
the program updates fields under a lock or inside one handler call, a class has
the same fields and its methods are proved to be runs of those steps, or to
equal the specification function the theorems speak of. What such a function means
is said once more without it: programs compute what their expressions denote
(`VmCompile`), patterns match what their parts mean (`GlobMeaning`), tokens grant what
they spell (`AclMeaning`), traversals follow paths of edges (`GraphPaths`), launches
decide the fate of each call as their log shows (`CoalescerFates`).

## What the proofs turned up

Where a promise does not hold of every input, the exact condition is proved, as an
if-and-only-if, and a lemma at a concrete input shows the failure.

- Cutting a stream into reads changes nothing exactly when header lines respect
  the line limit: a longer line fails while it is unterminated, but is accepted
  once its end is in the buffer (`Chunks.ChunkIndependence`; input
  `Chunks.LongLineInput`).
- On an inline command the two readers return the same words and rest exactly when the
  line does not end in more than one carriage return: the incremental reader takes one
  off, the blocking one all (`Inline.InlineReadersAgree`).
- The saved user table comes back exactly when it has the default user, names,
  patterns and commands have no blank or line end, every command is in the case in
  which it reads back, and no line but the last ends in a carriage return
  (`AclRoundTrip.DumpRoundTrip`). Commands are stored in ASCII upper case but saved
  in Unicode lower case, so a rule for `É` comes back as one for `é`
  (`AclRoundTrip.AccentIsLost`; `AclRoundTrip.BlankIsLost` is a pattern).
- Recall from the empty scope searches the same arena twice, so duplicates take
  places from other records. It is sure to keep the best 3k records exactly when
  3k+1 is at least twice the number of matching records
  (`Recall.EmptyScopeIsExact`; in `Recall.EmptyScopeLosesARecord` three places lose
  one of three records).
- Happens-before is reflected in clock stamps exactly when no 32-bit counter
  wraps (`Hlc.Causality`). `Hlc.LogicalCounts` bounds from one side how soon that
  can be: not before 2^32 events.
- Last-writer-wins registers converge exactly when timestamp and node determine
  the value (`Replication.RegistersConverge`), and an up-down counter that has
  seen everything is right in exactly the cases of `Replication.DeliveredValue`
  (`Replication.OneIsLost` is a run that ends at zero instead of one).
- A graph query for one relation is exact exactly when no relation of the node
  continues it with a colon and it does not run over a shorter relation into the
  bytes of a node number, which only a query with a colon can do
  (`Graph.QueryIsExact`; inputs `Graph.ColonIsListed`, `Graph.SpillIsListed`).
- A coalesced launch that returned fewer rows than queries would strand its
  later followers (`CoalescerSafety.FollowerKeptIffRowCame`); full results, which
  is all the launch code returns, never do.
- A worker that reads the end of a stream closes the connection: what it has just
  read is not run, and pending output is not written. As long as no system call
  fails later in the call, that happens exactly if a read fails, or the client has
  closed its side and what is buffered and unread stays within the limit that stops
  reading, or nothing is unread and the connection is not held back
  (`Worker.IoWorker.Readable`, by `ReadOutcome`). `HalfClose.PingIsLost` is a client
  that sends `PING`, closes its side and is not answered.
  `EventLoopSafety.CloseLosesWhatIsHeld` says what a closing connection loses.
- When a batch comes back from the pool, output the socket would take stays unwritten
  exactly if the connection is held back by that output, input is due, its buffer is
  within its limit, and reading neither fails nor meets the end of the stream
  (`Worker.IoWorker.TakeCompletion`, by `Answered`; input `HalfClose.OutputStays`).
- A closing connection whose output is gone is closed by every flush. It keeps its slot
  after a read exactly if it lingered before, input is due, and reading leaves it held
  back: that branch does not flush (`Worker.IoWorker.Readable`, by `LingersOnlyHeld`).
- A coalesced call is sent to the fallback path exactly if it led a launch that carried
  its own query and failed (`CoalescerFates.FallbackIffOwnLaunchFailed`).
- Encodings come back exactly when lengths fit 32 bits (`ValueCodec.RoundTrip`,
  `Crdt.CounterRoundTrip`, `Crdt.PairRoundTrip`, `Crdt.RegisterRoundTrip`).

## Model

| member | source | states |
|---|---|---|
| EventLoopSafety.RepliesInOrder | crates/server/src/eventloop.rs:363-819 | In every interleaving of worker, pool threads, dedicated threads, kernel and clients: the bytes written to a socket are a prefix of the replies to that connection's own batches; the commands executed are a prefix, in order, of those in the bytes it received; and each batch starts from the session the one before left. |
| EventLoopSafety.OneHolder | crates/server/src/eventloop.rs:496-654 | A session is never in two places (slot, pool batch, dedicated thread) at once, and whoever has it has the state the last executed batch left. |
| EventLoopSafety.CompletionFindsItsOwn | crates/server/src/eventloop.rs:613-652 | A completion whose slot and generation still match reaches the connection its batch was taken from, which has no session and has read nothing meanwhile. |
| EventLoopSafety.StaleCompletionIsDropped | crates/server/src/eventloop.rs:613-652 | A completion of an old generation changes no slot, generation or free list; its socket is shut, and nothing is written or said on any socket. |
| EventLoopSafety.NothingLost | crates/server/src/eventloop.rs:436-570 | While a connection is in its slot, its replies are exactly the bytes written followed by the bytes pending, and (unless it is closing) the commands received are exactly those executed followed by those still in the input buffer. |
| EventLoopSafety.NothingLostInHandOff | crates/server/src/eventloop.rs:576-611 | The same account for a connection on a dedicated thread: replies are written bytes plus handed-over output; commands are executed ones, handed-over ones and those in the handed-over buffer. |
| EventLoopSafety.CloseLosesWhatIsHeld | crates/server/src/eventloop.rs:411-416 | A connection closed while not closing already has run all commands received if and only if no complete command is buffered, and written all replies if and only if no output pends. |
| EventLoopSafety.ReachGrows | crates/server/src/eventloop.rs:363-819 | In every run, what was received, said and written on a socket stays said and written: histories only grow. |
| EventLoopSafety.StepKeeps | crates/server/src/eventloop.rs:363-819 | Every step of the model keeps the whole invariant: slots against free list and generations, each session's one owner, the batch list, and both accounts. |
| Worker.IoWorker.Register | crates/server/src/eventloop.rs:363-398 | A new connection gets the slot freed last or a new one, under a generation no batch still out carries; what follows is a run of model steps, leaves the connection attended, and does not drop it without cause (`Fair`). |
| Worker.IoWorker.ConnEvent | crates/server/src/eventloop.rs:421-435 | An event that names an old generation changes nothing; a current one touches only its own connection and its socket, leaves no complete command waiting in a ready connection, and leaves unread input only where somebody is due to read it. A readable event ends as `Readable` says; after a writable one, readable or not, output is with the kernel as far as it takes it and no closing connection without output is left. Unless a system call fails the connection is gone only because the client closed its side, or after something fatal (an error reply, QUIT, a failed batch) with everything said to it written, or to a dedicated thread after a batch that asked for one. |
| Worker.IoWorker.Readable | crates/server/src/eventloop.rs:436-495 | Reading until the socket is dry, a limit is passed or the client is gone, then processing: a run of steps after which nothing runnable waits and unread input is noted. Unless a later system call fails, the connection is closed with nothing more run, said or written if and only if a read fails or the client's end of the stream is reached before a limit stops reading (1 GiB buffered, or 16 MiB for a connection held back), a condition on what is buffered and unread before the call, on whether the client has closed, and on whether the connection is ready; all that was unread has then been received. A connection held back that meets neither keeps its place, its output and the socket's room; a closing one without output is left in its slot exactly in that case, and only if it was before. |
| Worker.IoWorker.ReadAll | crates/server/src/eventloop.rs:436-480 | The reading loop moves bytes from kernel to buffer and touches nothing else; it reports the client gone if and only if a read failed or the end of the stream comes before a limit. |
| Worker.IoWorker.Resume | crates/server/src/eventloop.rs:654-663 | With input due a connection is read from, with the same exact outcome as `Readable`; otherwise its buffered commands run. Output is written as far as the socket takes it except for a connection still held back and due to be read, and a closing connection without output stays only where reading leaves it held back. |
| Worker.IoWorker.Process | crates/server/src/eventloop.rs:496-552 | Runs every complete command, here or on the pool, then flushes: afterwards no complete or malformed command waits in a ready connection, output is written as far as the socket takes it, and no closing connection without output is left. It ends, although it, flushing, resuming and reading call each other, and drops no connection without cause (`Fair`). |
| Worker.IoWorker.FinishBatch | crates/server/src/eventloop.rs:553-575 | A continuing batch leaves the connection as it was but for the outcome; after quitting or failing, with no system call failing, the connection is closed if and only if everything pending was written; subscribing and replication hand it off, so its slot is empty and its session on the dedicated thread. |
| Worker.IoWorker.HandOff | crates/server/src/eventloop.rs:576-612 | The dedicated thread gets exactly the session, the output not yet written, the commands left to run and the unparsed input, in subscribe mode or as a replication stream as the batch ended, and the slot is released without shutting the socket. |
| Worker.IoWorker.Reject | crates/server/src/eventloop.rs:480-510 | Input that is malformed or too long is answered, behind whatever output pends, by the one error line that names the parser's complaint or the limit, and the connection closes after it. |
| Worker.IoWorker.TakeCompletion | crates/server/src/eventloop.rs:613-663 | One completion: dropped if stale; otherwise session, replies and input are back, the outcome acted on and input read meanwhile not forgotten. Output the socket would take stays unwritten if and only if the batch goes on, no read fails, and the restored connection is held back by its output, due to be read, within its buffer limit and not at the end of its stream; a connection that is read from is closed unrun and unwritten in exactly the cases of `Readable`, closing ones included; one that is closing without output lingers exactly where reading leaves it held back; and none is dropped without cause. |
| Worker.IoWorker.Completions | crates/server/src/eventloop.rs:613-652 | All completions are taken; a connection for which no batch has come back stays as it was. |
| Worker.IoWorker.Flush | crates/server/src/eventloop.rs:665-712 | Writes until done or the socket is full; one that was held back by its output takes commands again. Afterwards no closing connection without output is left; unless a system call fails, one that was closing is closed if and only if everything pending was written, and one that was not is never closed with nothing said or written. |
| Worker.IoWorker.CloseSlot | crates/server/src/eventloop.rs:399-416 | Frees the slot under a higher generation and shuts the socket, as one step of the model. |
| Worker.IoWorker.RunOwned | crates/server/src/eventloop.rs:725-811 | A pool thread runs its batch at least once, writes replies as far as the socket takes them, goes on with later batches of the same client, touches no connection but its own, and ends, having delivered exactly one completion. |
| Worker.TokenRoundTrip | crates/server/src/eventloop.rs:813-820 | Packing slot and generation and unpacking gives both back, and the token fits 64 bits if and only if the generation fits 32. |
| HalfClose.HalfCloseLoses | crates/server/src/eventloop.rs:436-480 | For every text: a client sends it and closes its side, the worker reads it and closes; all was received, nothing of it was run, said or written. |
| HalfClose.PingIsLost | crates/server/src/eventloop.rs:436-480 | With `PING` as the text: a complete command was received and none was executed. |
| HalfClose.OutputStays | crates/server/src/eventloop.rs:613-663 | A reachable, settled state in which a batch without the socket returns a reply over the high-water mark while input is due: the socket has room, and whatever the completion handler does short of a failing read leaves the reply unwritten. |
| Pool.WorkConserving | crates/server/src/eventloop.rs:131-169 | In every interleaving: threads never exceed the maximum; a thread sleeps un-notified only while every queued job has a woken thread; more jobs than woken and starting threads only with all threads in use; and a non-empty queue always has a thread that is not asleep. |
| Pool.StartedOnceInOrder | crates/server/src/eventloop.rs:131-169 | Jobs started, followed by jobs queued, are exactly the jobs submitted: each is started at most once, in order, and none is lost. |
| Pool.AwakeThreadsTakeWork | crates/server/src/eventloop.rs:151-169 | While jobs wait, the next step of any awake thread starts the oldest job and does not retire. |
| Pool.RetiresOnlyWhenIdle | crates/server/src/eventloop.rs:151-169 | The thread count goes down only with an empty queue. |
| Pool.AwakeThreadsCanStep | crates/server/src/eventloop.rs:151-169 | No awake thread is ever stuck. |
| Pool.BlockingPool.SubmitJob | crates/server/src/eventloop.rs:131-146 | Queueing is a submission step of the protocol and keeps its invariant; a thread is started if and only if no more threads are idle than jobs were waiting and the maximum is not reached, and otherwise a parked thread, if there is one free, is woken. |
| Pool.BlockingPool.WorkWoken | crates/server/src/eventloop.rs:151-169 | Coming back from the timed wait is a step of the protocol; the thread retires exactly if it timed out and the queue is empty, and otherwise gets the oldest job if there is one. |
| CoalescerSafety.NothingLostOrDoubled | crates/gpu/src/lib.rs:1759-1876 | In every reachable state an unanswered ticket is in exactly one of the queue, one launch in flight, or the ready results; the leader count is the number of launches in flight and at most the number of slots (or one). |
| CoalescerSafety.NobodySleepsForever | crates/gpu/src/lib.rs:1779-1790 | A sleeping call implies a launch in flight, and with any call unanswered some thread can always take a step, even when launches fail. |
| CoalescerSafety.AnswersAreOwn | crates/gpu/src/lib.rs:1796-1872 | Every answer is the row of a landed launch that ran with the call's own k, pool size, iterations and entry, and carried at that row the call's own query cut or padded to the dimension, byte by byte, and its exact query if and only if every query aboard had one. |
| CoalescerFates.FallbackIffOwnLaunchFailed | crates/gpu/src/lib.rs:1851-1875 | In every interleaving a call is answered by None if and only if a launch it led, with its own query aboard, landed and had failed. |
| CoalescerFates.PassengersGetTheirRows | crates/gpu/src/lib.rs:1851-1875 | Whoever is aboard a launch that succeeds, leader included, gets the k ids and distances at its own position: the leader has returned with them, for anyone else they were returned or wait; and no other successful launch ever carries the same query. |
| CoalescerRuns.EveryRunEnds | crates/gpu/src/lib.rs:1779-1875 | Without new calls, spurious wake-ups and launches that fail for a leader whose own query was not aboard, no run from a reachable state goes on for ever. |
| CoalescerRuns.StuckIsDone | crates/gpu/src/lib.rs:1779-1875 | A reachable state from which no such step is possible has answered every call. |
| CoalescerSafety.FollowerKeptIffRowCame | crates/gpu/src/lib.rs:1853-1871 | After a successful launch of any size a follower is still accounted for if and only if the result reaches its row: why the full result size is needed. |
| Coalescer.QueryCoalescer.Turn | crates/gpu/src/lib.rs:1779-1838 | The locked loop head is exactly the specified step: it returns the ready row if and only if there is one, sleeps if and only if there is none and every launch slot is busy or nothing is queued, and otherwise leads with the oldest requests of the oldest one's shape up to the cap. |
| Coalescer.QueryCoalescer.AfterLaunch | crates/gpu/src/lib.rs:1851-1875 | The locked section after a launch is exactly the specified step: of a result of any size every call aboard is handed the row at its own position if the result reaches it, the leader too; a failed launch puts everyone else back in the queue; everybody is woken; the call goes round again if and only if its own query was not aboard. |
| Coalescer.BuildQueries | crates/gpu/src/lib.rs:1822-1836 | The buffers are the batch's queries row by row, each cut or padded to the dimension; exact queries go along exactly if every member has one. |
| Coalescer.DrainBatch | crates/gpu/src/lib.rs:1796-1811 | The batch is the first requests of the given shape up to the cap, and the queue keeps the others in order (`Coalescer.SplitTakesOldest` says so by filtering). |
| Coalescer.SplitTakesOldest | crates/gpu/src/lib.rs:1796-1811 | The batch is the first `cap` of the requests of the shape in queue order; what stays is the others of every shape, in order. |
| SlotMask.SlotsAreExclusive | crates/gpu/src/lib.rs:2326-2334 | In every run of probes, claims and releases on the atomic mask, no two launches hold one slot, held slots exist, and a bit is set exactly while its slot is held. |
| SlotMask.PassedWasBusy | crates/gpu/src/lib.rs:2326-2332 | A launch that has walked past a slot found it held by another on this very walk, so one that gives up found every slot in use. |
| SlotMask.Mask.Claim | crates/gpu/src/lib.rs:2326-2332 | Fetch-or is the probing step of the protocol and keeps its invariant: the slot is won exactly if its bit was clear, and no other bit changes. |
| SlotMask.Mask.Free | crates/gpu/src/lib.rs:2335 | Fetch-and is the releasing step and keeps the invariant: the slot's bit is clear and no other changes. |
| Chunks.ChunkIndependence | crates/protocol/src/lib.rs:121-225 | Every way of cutting a byte stream into reads yields the commands, leftover and first error of parsing it whole, if and only if every header line met stays within the line limit. |
| Chunks.LongLineInput | crates/protocol/src/lib.rs:121-225 | A line one byte over the limit is accepted whole and refused when cut before its end. |
| Chunks.CommandStable | crates/protocol/src/lib.rs:152-225 | A parsed command, and its length, are unchanged by whatever bytes follow. |
| Chunks.FrameOfPrefix | crates/protocol/src/lib.rs:152-225 | More input never changes a complete or malformed frame, except a line-limit error whose line turns out to end in time. |
| Chunks.ParseCommands | crates/server/src/main.rs:408-434 | One pass over the buffer returns the commands drained and keeps the rest; an error is reported only if no command came before it. |
| Resp.TryParse | crates/protocol/src/lib.rs:152-225 | The incremental parser's loop computes the specified frame; what that frame is, for arrays and for inline lines, is stated byte by byte in the rows below. |
| Inline.BlankSeparates | crates/protocol/src/lib.rs:211-224 | Two texts with a blank between them give the words of the first followed by those of the second. |
| Inline.WordsAreWords | crates/protocol/src/lib.rs:211-224 | Every word is non-empty and has no blank. |
| Inline.WordsAreFilledPieces | crates/protocol/src/lib.rs:217-223 | The words are the pieces between blanks, the empty ones left out. |
| Inline.JoinedWords | crates/protocol/src/lib.rs:211-224 | Joining arguments with blanks and splitting gives them back if and only if each is a word. |
| Inline.InlineRoundTrip | crates/protocol/src/lib.rs:211-224 | An inline frame gives back its arguments and its length, whatever follows, if and only if they are words without line feeds and the first does not begin like an array. |
| Inline.InlineReadersAgree | crates/protocol/src/lib.rs:211-295 | On an inline line the incremental and the blocking reader return the same words and rest if and only if the line does not end in a second carriage return. |
| Accepted.ArrayAccepted | crates/protocol/src/lib.rs:152-210 | Whatever array frame is accepted is, byte by byte, a count line and that many items, each a dollar sign, its length, a line end, that many bytes and CR LF, and the arguments are those bytes. |
| Accepted.HeaderMeans | crates/protocol/src/lib.rs:131-145 | A count or length header is its decimal number: minus one is null, other negatives and what does not fit 63 bits are refused. |
| Accepted.OnlyDigits | crates/protocol/src/lib.rs:131-145 | A header without blanks at its ends that is accepted is digits behind at most one sign. |
| Accepted.DrainTakesFrames | crates/server/src/main.rs:408-434 | Draining a buffer takes the frames at its front one behind the other, leaves out the commands without arguments, and stops at the first frame that is incomplete or malformed, whose bytes stay. |
| Wire.FrameRoundTrip | crates/demos/src/lib.rs:73-80 | The server recovers exactly the arguments and length of a client's frame, whatever follows, if and only if the frame respects the server's limits. |
| Wire.KnownFrame | crates/demos/src/lib.rs:73-80 | The frame of `GET` with a one-byte key, byte by byte. |
| Wire.FramePrefixIncomplete | crates/protocol/src/lib.rs:152-225 | Every proper prefix of a sendable frame parses as incomplete. |
| Wire.ReadersAgree | crates/protocol/src/lib.rs:245-295 | On every array frame the incremental parser accepts, the blocking reader returns the same command and the same rest. |
| Wire.BlockingRoundTrip | crates/protocol/src/lib.rs:245-295 | The blocking reader too recovers what a client sent. |
| Wire.ReadCommandBlocking | crates/protocol/src/lib.rs:245-295 | The blocking reader's loops compute the specified result for any stream. |
| Client.PipelineArrives | crates/demos/src/lib.rs:73-80 | However the network cuts up any sequence of sendable commands, the server drains exactly those commands and nothing is left. |
| Client.ReplyRoundTrip | crates/protocol/src/lib.rs:42-104 | Reading an encoded reply of any nesting, followed by anything, gives its meaning and leaves exactly what follows, if and only if every part of it is readable (simple strings without line feed or trailing carriage return, older-protocol forms). |
| Client.KnownReplies | crates/protocol/src/lib.rs:42-76 | The first byte of each kind of reply, numbers in decimal, and the null forms of both dialects, byte by byte. |
| Client.KnownLists | crates/protocol/src/lib.rs:69-104 | An array and a push of two are headed by their number, a map of one pair by the number of pairs; the elements follow. |
| Client.OddLines | crates/demos/src/lib.rs:112-146 | A reply of a foreign kind reads as an empty text, a number that is none as 0, a length or count that is none or negative as nothing. |
| Client.Connection.ReadOne | crates/demos/src/lib.rs:112-146 | The buffered client returns the reply the whole stream holds, however it was cut into reads, and keeps the rest. |
| Client.Connection.ReadLine | crates/demos/src/lib.rs:82-99 | One line without its line end, independent of how the stream was read. |
| Glob.GlobMatch | crates/server/src/acl.rs:171-236 | The cursor loop that backtracks only to the latest star returns true exactly when the recursive meaning of the pattern matches, in at most (n+2)(n+1) turns for a subject of n bytes. |
| GlobMeaning.PatternMeans | crates/server/src/acl.rs:169-266 | A pattern spelled from plain and escaped bytes, `?`, `*`, classes and negated classes of bytes, escapes and ranges in either order matches exactly the strings that can be cut into one fitting piece for each part. |
| GlobMeaning.Unclosed | crates/server/src/acl.rs:169-266 | A bracket that nothing closes, and a backslash at the end, stand for themselves. |
| Glob.ClassMatch | crates/server/src/acl.rs:240-266 | The one-pass class test gives the membership and end of the separately parsed class, and nothing for an unterminated one. |
| Glob.LatestStarSuffices | crates/server/src/acl.rs:171-236 | Why earlier stars may be forgotten: a match from any restart of the old star is also one from the new star. |
| Glob.StarAbsorbs | crates/server/src/acl.rs:171-236 | A star matches exactly if the rest of the pattern matches after some run of bytes. |
| Acl.CanCommand | crates/server/src/acl.rs:368-388 | The loop over the rules allows a command exactly if the user is enabled and the command is always free or the last rule that applies to it allows it. |
| Acl.CanKey | crates/server/src/acl.rs:389-392 | A key may be touched exactly if some pattern of the user matches it in the recursive meaning. |
| AclMeaning.SetUserMeans | crates/server/src/acl.rs:489-532 | A token list is taken if and only if every token is known. Then everyone else stays as they were, and whether a command may be run, a key touched, and the user is on is what the last token about it says, in the tokens' own spelling; failing any, what was so before, and nothing for a new user. |
| AclMeaning.TokensDecidePassword | crates/server/src/acl.rs:500-520 | The password is what the last token about it sets: none, an unusable one, the given hash, or the hash of the given text. |
| AclMeaning.CategoryIsNamed | crates/server/src/acl.rs:289-325 | A text names a category, in any letter case, if and only if it is that category's name or one of its two aliases. |
| AclMeaning.FreeCommands | crates/server/src/acl.rs:372-375 | The five commands open to every enabled user, by name. |
| AclMeaning.LastLineApplies | crates/server/src/acl.rs:604-620 | The last line of a text acts, its first word as the user and the others as tokens, on what the lines before it left. |
| AclMeaning.BlankLinesAreSkipped | crates/server/src/acl.rs:611 | A line of white space changes nothing. |
| AclMeaning.HexDigits | crates/server/src/acl.rs:636-638 | Hashes are saved as two digits of base 16 a byte, the high one first. |
| AclRoundTrip.DumpRoundTrip | crates/server/src/acl.rs:585-625 | For every well-formed table and every lower-casing of commands: saving and loading gives it back if and only if it has the default user, no name, pattern or command contains a blank or line end, every command's lower case reads back as the command, and no saved line but the last ends in a carriage return. |
| AclRoundTrip.PrintsLowerCase | crates/server/src/acl.rs:392-408 | A printed rule is its sign and the lower case of its command, or its category's name. |
| AclRoundTrip.AsciiIsSteady | crates/server/src/acl.rs:403-404 | A stored ASCII command always reads back from its lower case. |
| AclRoundTrip.AccentIsLost | crates/server/src/acl.rs:403-404 | A table whose rule names an accented capital does not come back. |
| AclRoundTrip.BlankIsLost | crates/server/src/acl.rs:585-625 | Neither does one with a pattern of one blank. |
| AclRoundTrip.ShorterLine | crates/server/src/acl.rs:604-616 | A saved line that loses its trailing carriage return loads as a different user, or not at all. |
| AclText.LoadedAreClean | crates/server/src/acl.rs:604-625 | No text whatever loads a user whose name, pattern or command contains a blank or line end. |
| AclText.LineLoads | crates/server/src/acl.rs:585-616 | A saved line of a user without blanks puts exactly that user into any table. |
| AclStore.SkippingIsSound | crates/server/src/acl.rs:445-453 | In every state the operations can reach with the latch off, the only user is `default`, no password is needed, and the full gate would allow every command and key. |
| AclStore.Store.SetUser | crates/server/src/acl.rs:492-532 | Either every token is applied and the latch is set, or nothing changes and the first error is returned. |
| AclStore.Store.LoadText | crates/server/src/acl.rs:604-625 | Either the whole table is replaced and the latch set, or nothing changes. |
| AclStore.Store.DelUser | crates/server/src/acl.rs:557-566 | Removes any user but `default`; removing sets the latch. |
| AclStore.Store.Dump | crates/server/src/acl.rs:585-601 | The text is the saved lines of all users, commands in lower case, each user once, sorted. |
| AclStore.Store.May | crates/server/src/acl.rs:472-484 | The gate lets a call through exactly if the named user exists and may run the command and touch every key. |
| Arena.ScopeArena.Push | crates/memory/src/lib.rs:268-278 | Pushing onto the flat buffer refines adding a scaled row: ignored for an empty vector, another width or a known id; buffer length stays ids times width and position table and id list stay inverse. |
| Arena.ScopeArena.Remove | crates/memory/src/lib.rs:279-297 | Swap-remove on the flat buffer refines removing the id's row, with all other rows unchanged. |
| Arena.ScopeArena.Read | crates/memory/src/lib.rs:879-897 | Reading row by row out of the flat buffer gives the ids in scan order, each with its own vector. |
| Arena.RemovedWellFormed | crates/memory/src/lib.rs:279-297 | After a removal ids are still distinct and exactly those with rows. |
| MemoryIndex.RecIndex.Insert | crates/memory/src/lib.rs:320-329 | Interning the owner, noting the facts and pushing onto the owner's own arena object is exactly the specified insertion. |
| MemoryIndex.RecIndex.Remove | crates/memory/src/lib.rs:330-336 | Removing from the facts and from the owner's arena object is exactly the specified removal. |
| MemoryIndex.InsertAgrees | crates/memory/src/lib.rs:515-560 | Storing a fresh record keeps index, arenas and stored records in agreement. |
| MemoryIndex.DropAgrees | crates/memory/src/lib.rs:655-683 | So does removing one. |
| MemoryIndex.MetaAgrees | crates/memory/src/lib.rs:571-628 | So does rewriting a record's validity or salience under the same owner. |
| MemoryIndex.IndexIsDetermined | crates/memory/src/lib.rs:401-426 | Any two indexes that agree with the same records say the same of every record and hold the same vectors for every owner; only owner numbering and arena order may differ. |
| Memory.LongTermMemory.Store | crates/memory/src/lib.rs:515-560 | Stores under a new id in every family, field by field as given, and keeps count, index, arenas and postings in agreement with the records; a vector that is empty or of another width is refused and nothing changes. |
| Memory.LongTermMemory.Invalidate | crates/memory/src/lib.rs:571-591 | Sets the end of a record's validity in the record and its mirror and nothing else; an unknown id changes nothing. |
| Memory.LongTermMemory.ForgetScoped | crates/memory/src/lib.rs:629-641 | Only the owner removes a record: unknown ids and other requesters are told apart and change nothing. |
| Memory.LongTermMemory.Forget | crates/memory/src/lib.rs:655-683 | Removes every trace of a record, and the live count stays the number of records. |
| Memory.LongTermMemory.Touch | crates/memory/src/lib.rs:1006-1017 | Moves the salience within 0 and 1, in the record and its mirror. |
| Memory.LongTermMemory.Reload | crates/memory/src/lib.rs:427-433 | Rebuilding every mirror from the records keeps agreement and count, and the next id is one above the largest. |
| Memory.LongTermMemory.Scan | crates/memory/src/lib.rs:401-426 | One pass gives the largest id, the number of records, and an index that agrees with them. |
| Memory.LongTermMemory.RecallScoped | crates/memory/src/lib.rs:797-997 | Over the records, mirrors and postings of the memory as they stand, with no more asked than that it is valid: the answer is as `Recall.RecallAt` states, for the query's own tokens and scaled vector. Every hit is a stored record of the scope or of nobody whose window has begun and not ended, with its stored text and metadata, and its score is the stated sum over its own postings and similarity; when fewer than k come back, no such record with a token of the query, nor, where a named scope is searched exactly, one with positive cosine, is missing. |
| Memory.LongTermMemory.InvalidateTakesEffect | crates/memory/src/lib.rs:571-997 | After a record's validity is ended at a time, no recall at or after it lists the record, while one that looks back to before it still finds it by any of its tokens unless k others come first. |
| RecallMeaning.KeywordsCount | crates/memory/src/lib.rs:900-960 | What the keyword pass adds to a record's score is its carried token weights, times 0.8, times the mean of one and its salience. |
| RecallMeaning.ScoresAre | crates/memory/src/lib.rs:857-997 | A hit's score is the similarity part plus the keyword part of its own record. |
| Recall.CandidatesAre | crates/memory/src/lib.rs:839-896 | The exact search's candidates are exactly the visible records as wide as the query with positive cosine, each scored with its own stored vector: once for a named scope, twice for the empty scope. |
| Recall.KeptAreBest | crates/memory/src/lib.rs:857-896 | Any bounded choice among the candidates keeps a best set of 3k matching records, for every named scope, and for the empty scope whenever 3k+1 is at least twice the matches. |
| Recall.EmptyScopeIsExact | crates/memory/src/lib.rs:825-896 | For the empty scope that bound is exact: it holds if and only if every choice the heap may make is a best set, and where cosines differ it decides every single search. |
| Recall.EmptyScopeLosesARecord | crates/memory/src/lib.rs:825-896 | An input on which it fails: three matching legacy records, three places, and every search from the empty scope keeps only two of them. |
| Recall.RecallAt | crates/memory/src/lib.rs:815-997 | The ranked list is sorted, visible to the scope at the time asked for, as long as k and the pool allow, and no pool entry left out beats a returned one; the pool is the semantic part plus every visible record with a stored posting under a query token, with summed scores; the semantic part is the kept matching records scored by cosine and salience, a best set of 3k wherever that can be relied on. For a scope too big to search exactly it is exactly the visible records the approximate index returned with enough similarity, scored by that and the stored salience. |
| Recall.OthersDoNotMatter | crates/memory/src/lib.rs:815-891 | Adding or removing another owner's records changes neither the candidates nor the count that chooses the search. |
| Recall.ScopedCountIs | crates/memory/src/lib.rs:839-844 | The count that chooses the search is the number of stored vectors of the scope plus those of nobody. |
| Recall.VisibleIs | crates/memory/src/lib.rs:828-834 | The in-memory visibility test says what owner and validity window in the stored metadata say. |
| Recall.OwnOffers | crates/memory/src/lib.rs:874-893 | An arena a scope may search offers exactly its owner's matching records, each once. |
| Shortlist.Push | crates/memory/src/lib.rs:885-891 | Pushing onto the bounded heap and popping the least keeps a choice of the highest scores seen. |
| Shortlist.Replace | crates/memory/src/lib.rs:960-972 | So does replacing the least by a better newcomer. |
| Graph.GraphMemory.Traverse | crates/memory/src/lib.rs:1144-1164 | The breadth-first walk ends on every graph and returns, without duplicates and nearest first, exactly the nodes within the given number of edges a query selects, for every query. |
| GraphPaths.TraversalFollowsPaths | crates/memory/src/lib.rs:1144-1164 | Where relations have no colon, the walk lists exactly the nodes that a path of at most the given number of edges of the relation leads to, each once, and nobody before one that is nearer. |
| Graph.GraphMemory.Link | crates/memory/src/lib.rs:1048-1061 | Both keys are written, so the store stands for the edges with this one added or replaced, and whatever else is kept in it stays. |
| Graph.GraphMemory.Unlink | crates/memory/src/lib.rs:1062-1069 | Both keys are removed, so the store stands for the edges without this one, and whatever else is kept in it stays. |
| Graph.GraphMemory.Neighbors | crates/memory/src/lib.rs:1070-1106 | For every query, the prefix scan and key decoding list exactly the outgoing edges the query selects, each once, in byte order of their keys. |
| Graph.GraphMemory.Incoming | crates/memory/src/lib.rs:1107-1143 | The same for arriving edges, from the mirrored keys. |
| GraphPaths.DeparturesAreWanted | crates/memory/src/lib.rs:1070-1106 | Where relations have no colon, a node's list is exactly its edges of the relation asked for, or of any, with their weights. |
| GraphPaths.ArrivalsAreWanted | crates/memory/src/lib.rs:1107-1143 | The same for arriving edges. |
| GraphPaths.ListedByNumber | crates/memory/src/lib.rs:1070-1106 | Edges of one relation are listed by the number of their far end, since keys hold numbers high byte first. |
| GraphPaths.KnownKeys | crates/memory/src/lib.rs:63-84 | The two keys of an edge, byte by byte. |
| Graph.MirrorImages | crates/memory/src/lib.rs:1070-1143 | An edge occurs in the list its source's query returns as often as in the one its target's query returns, if and only if the query runs over into the number of both ends or of neither, or selects the relation anyway; always for a query without a colon. |
| Graph.QueryIsExact | crates/memory/src/lib.rs:1070-1106 | The list a query for one relation returns has edges of that relation only if and only if no edge of the node has a relation that continues the query's with a colon or that the query runs over; without a colon it runs over none. |
| Graph.ColonIsListed | crates/memory/src/lib.rs:1070-1106 | A query for `a` lists an edge of relation `a:b`. |
| Graph.SpillIsListed | crates/memory/src/lib.rs:1070-1106 | A query for `a:` lists an edge of relation `a` to a node whose number begins with the byte of a colon. |
| Crc.Crc32 | crates/storage/src/crc.rs:57-64 | The table-driven checksum equals the bit-serial reflected CRC of IEEE 802.3 clause 3.2.9 on every byte string. |
| Crc.NewTable | crates/storage/src/crc.rs:9-30 | The nested loops fill each of the 256 entries with eight bit steps of its index. |
| Crc.TableStep | crates/storage/src/crc.rs:42-50 | One table step equals eight bit steps. |
| Crc.Crc32Hasher.Update | crates/storage/src/crc.rs:42-50 | Updating over any split has the effect of feeding the concatenation. |
| Crc.Crc32Hasher.Finish | crates/storage/src/crc.rs:51-54 | The hasher's result is the one-shot checksum of everything fed. |
| Crc.Superposition | crates/storage/src/crc.rs:42-50 | The register is linear: the difference of two registers evolves like one fed the difference of the messages. |
| Crc.BurstDetected | crates/storage/src/crc.rs:57-64 | Two messages of equal length that differ only within four consecutive bytes never share a checksum. |
| Crc.KnownValues | crates/storage/src/crc.rs:70-76 | The check values of the empty message and of the letter a. |
| Vm.Vm.RunProgram | crates/compute/src/vm.rs:86-157 | The interpreter loop ends within its budget and computes the specified run: outcome, stack, writes and fuel left. What the run means is stated without it below. |
| VmCompile.Evaluate | crates/compute/src/vm.rs:86-157 | Running the compiled form of any program of assignments, loops and expressions over stored numbers with +, -, * and tests for zero: with enough fuel, an amount given exactly, it returns the expression's value in plain integers, in range and congruent modulo 2^64, and leaves exactly the store the assignments describe; with any less it runs out. |
| VmCompile.CompiledRuns | crates/compute/src/vm.rs:86-157 | The law behind it, for every program, store and budget. |
| Vm.StackDiscipline | crates/compute/src/vm.rs:86-157 | An instruction goes on, stops or fails by what its name and the height of the stack say; what it pops and pushes, and where it goes next, is stated per instruction. |
| Vm.EndingExplained | crates/compute/src/vm.rs:86-157 | A run that does not run out of fuel ends at a state it visits, with the verdict on the instruction there. |
| Vm.FuelTransparency | crates/compute/src/vm.rs:73-157 | A run that ends by itself using U fuel ends the same way under every budget of at least U, and runs out under every smaller one. |
| Vm.OutOfFuelIsFinal | crates/compute/src/vm.rs:73-80 | A run stopped for fuel has less than one charge left, and no smaller budget would have let it end. |
| Reducer.Runtime.Invoke | crates/compute/src/lib.rs:70-112 | A quarantined name runs nothing; a run that ends and commits makes exactly its writes; any abort leaves the store unchanged and counts one error; no other name is touched. |
| Reducer.OneAtATimeTrips | crates/compute/src/lib.rs:114-135 | With one caller at a time a name is quarantined exactly while its last three outcomes since re-enabling are errors. |
| Reducer.OpenAfterThree | crates/compute/src/lib.rs:114-135 | In so many words: quarantined if and only if the last three things that happened are errors. |
| Reducer.TrippedAfter | crates/compute/src/lib.rs:114-135 | How one more outcome moves the error count and the breaker, for any history. |
| Reducer.Runtime.RecordError | crates/compute/src/lib.rs:120-129 | The 32-bit counter and the flag follow the recorded history, also where the counter wraps. |
| Reducer.Runtime.Reenable | crates/compute/src/lib.rs:130-136 | Re-enabling closes the breaker and clears the count. |
| Reducer.CounterAddsUp | crates/compute/src/lib.rs:148-160 | Invoking the counter reducer n times adds n times the amount modulo 2^64 and leaves every other key alone. |
| Replication.CountersConverge | crates/consensus/src/crdt.rs:57-63 | In every run of local increments and merges of snapshots in any order, with loss and repetition, replicas that have seen the same actions are equal. |
| Replication.TotalIsTrue | crates/consensus/src/crdt.rs:22-27 | The reported total is the true total of the actions seen, cut off at 2^64-1, although entries and sums saturate on the way. |
| Replication.DeliveredValue | crates/consensus/src/crdt.rs:82-85 | With everything delivered both halves are the cut-off true totals, and the up-down value equals the clamped true difference in exactly the stated cases. |
| Replication.OneIsLost | crates/consensus/src/crdt.rs:82-85 | A run in which everything is delivered, the true value is one and the replica reads zero. |
| Replication.RegistersConverge | crates/consensus/src/crdt.rs:116-146 | Last-writer-wins registers agree in every run over a set of writes if and only if timestamp and node determine the value. |
| Replication.HoldsTheLatest | crates/consensus/src/crdt.rs:116-146 | At every moment of every run a replica holds a write that has reached it, and every other that has has a smaller timestamp, or the same from a node no greater in byte order. |
| Crdt.MergeIsJoin | crates/consensus/src/crdt.rs:57-63 | Merging is commutative, associative and idempotent. |
| Crdt.LaterCommutes | crates/consensus/src/crdt.rs:139-146 | Merging two registers commutes exactly when equal keys carry equal values. |
| Crdt.GCounter.Value | crates/consensus/src/crdt.rs:22-27 | The saturating fold, in whatever order the entries come, is the cut-off sum. |
| Crdt.GCounter.Merge | crates/consensus/src/crdt.rs:57-63 | The loop over the other's entries is the entry-wise maximum. |
| Crdt.CountsRead | crates/consensus/src/crdt.rs:28-55 | A counter's encoding reads back with whatever follows it untouched, so two halves can stand one behind the other. |
| Crdt.CounterRoundTrip | crates/consensus/src/crdt.rs:28-46 | A counter comes back from its bytes if and only if its number of entries and its names fit 32 bits. |
| Crdt.PairRoundTrip | crates/consensus/src/crdt.rs:86-97 | So does the concatenation of the two halves of an up-down counter. |
| Crdt.RegisterRoundTrip | crates/consensus/src/crdt.rs:124-138 | And a register. |
| Crdt.KnownCounts | crates/consensus/src/crdt.rs:28-40 | A counter with one node, byte by byte. |
| Crdt.KnownRegister | crates/consensus/src/crdt.rs:124-130 | A register, byte by byte. |
| Hlc.Causality | crates/consensus/src/hlc.rs:33-61 | In every run of any number of nodes and messages, with physical clocks free to run backwards, happens-before implies a smaller stamp if and only if no 32-bit counter wraps. |
| Hlc.StampIsLeast | crates/consensus/src/hlc.rs:33-61 | In every run an event whose counter does not wrap gets the least stamp that is no earlier than the node's reading and after the node's clock and what it received. |
| Hlc.PhysicalIsRead | crates/consensus/src/hlc.rs:33-61 | A stamp's physical part is at least the node's reading and at most the largest reading taken anywhere so far. |
| Hlc.LogicalCounts | crates/consensus/src/hlc.rs:33-61 | The logical part never exceeds the number of events, so a wrap needs 2^32 of them. |
| Hlc.Clock.Now | crates/consensus/src/hlc.rs:33-45 | The locked update is the specified local stamp: the least one after the clock that is no earlier than the reading, which starts counting at 0 when the physical clock has moved on. |
| Hlc.Clock.Update | crates/consensus/src/hlc.rs:46-61 | The locked update is the specified merge: the least stamp after the clock and the remote stamp that is no earlier than the reading, unless the counter wraps. |
| ValueCodec.RoundTrip | crates/storage/src/value.rs:51-147 | A value, whatever bytes follow, decodes to itself if and only if its lengths fit 32 bits. |
| ValueCodec.KnownNumbers | crates/storage/src/value.rs:51-94 | An integer and a number by its bits, low byte first, negatives in two's complement, byte by byte. |
| ValueCodec.KnownVector | crates/storage/src/value.rs:51-94 | A vector of two, byte by byte. |
| ValueCodec.KnownRow | crates/storage/src/value.rs:51-94 | A row of two columns, in byte order of their names, byte by byte. |
| ValueCodec.ValueReads | crates/storage/src/value.rs:95-147 | Decoding stops exactly where the encoding ends. |
| ValueCodec.PrefixRejected | crates/storage/src/value.rs:95-147 | Every proper prefix of an encoding is rejected. |
| ValueCodec.PrefixFree | crates/storage/src/value.rs:51-94 | No encoding is the beginning of another value's. |
| ValueCodec.DecodedIsEncodable | crates/storage/src/value.rs:95-147 | Nothing but well-typed values with 32-bit lengths is ever decoded. |
| ValueCodec.EncodeValue | crates/storage/src/value.rs:51-94 | The appending loops write the specified bytes. |
| ValueCodec.DecodeValue | crates/storage/src/value.rs:95-147 | The cursor loops compute the specified decoding, for every input. |
| Codec.LessMeans | crates/storage/src/value.rs:51-94 | Byte order: two names share a beginning, behind which the lesser ends or has the smaller byte. |

## Left out

Not modelled:

- The storage engine, its write-ahead log, snapshots and I/O errors: stores are finite maps, and whether a commit conflicts is a parameter of `Reducer.Runtime.Invoke`.
- Sockets, epoll, eventfd and poll: `read` and `write` come back with any outcome the state allows; wake-ups, time-outs and the placement of connections on workers are environment steps.
- The command interpreter (`process_batch`): a batch has any outcome that runs a prefix of its commands, with any reply; which batches run inline is left open.
- A job that panics: it takes its pool thread down without lowering the thread count; in `Pool` every job ends.
- Interleavings inside one handler call of `Worker.IoWorker`: the step relation interleaves freely, each handler is proved to be a run of its steps.
- CUDA calls, kernels, device memory and the k-nearest-neighbour graph: a launch returns all rows or fails.
- The approximate vector index: what it returns for a scope too big to search exactly is the parameter `near` of `Recall.RecallAt`; how near its answers are to the best is not claimed.
- `f32`: scores, vectors and salience are reals; scaling to unit length, the inner product, tokenizing and token weights are parameters; rounding and NaN do not occur.
- SHA-256, key stretching and salts: a parameter gives the secret stored for a password; Unicode lower-casing is a parameter.
- Key families of long-term memory other than the graph's: typed maps stand for their byte keys; working memory, episodes and procedures are not part of this model.
- Shards of the reducer runtime and concurrent invocations of one name: `Reducer.TrippedAfter` holds for any order of outcomes, `Reducer.OneAtATimeTrips` for one caller at a time.
- Pub/sub, change feeds, the cache, table views, the debugger and tiering: small bookkeeping that would only add easy members.

Preconditions and limits a reader should know:

- EventLoopSafety.RepliesInOrder: generations are unbounded naturals; the 32-bit wrap of the program's counter is outside the model.
- Worker.TokenRoundTrip: slots are below 2^32.
- CoalescerSafety.NothingLostOrDoubled: tickets are unbounded naturals; the program's counter wraps at its width.
- CoalescerRuns.EveryRunEnds: excludes launches that fail for a leader whose own query was not aboard; if such launches fail for ever the program retries for ever.
- Memory.LongTermMemory.Store: ids do not wrap at 2^64.
- Client.ReplyRoundTrip: lengths and numbers are within what the reply types hold (`Sized`); a blank line, on which the program panics, is an error value here.
- Recall.RecallAt: the index agrees with the records, the postings handed in are the stored ones, and the query is scaled; `Memory.LongTermMemory.RecallScoped` supplies all three.
- AclRoundTrip.DumpRoundTrip: Unicode lower-casing is a parameter of which only `LowerCases` is known: it yields no ASCII capital, keeps blanks and line ends, and is the usual one on ASCII.
- Hlc.Causality: physical readings are unbounded naturals.
