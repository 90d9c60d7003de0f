# QWIM: a verified model of the chat server and its client decoder

QWIM is an epoll chat server with a Qt client. Messages are JSON texts behind a four-byte big-endian
length. This project models the parts of it whose correctness is not visible in any one function, and
proves what holds over every input, every interleaving or every run. `dafny verify dfyconfig.toml`
checks all of it.

What the modules say, and how they fit together:

- **Byte transport.** `Framing` is the reference meaning of a byte stream. `ByteBuffer.Buffer` is the
  growable buffer, `ConnectionIO.Connection` the partial-send and read loops against a socket that may
  answer anything, `ServerDecoder` the peek-then-consume decoder with its 32-bit sum, `ClientDecoder` the
  Qt client's header-first decoder. `Transport` interleaves writers, sends, removal, network and client;
  `HandleWriteIsARun` ties the class method to that machine. `Uplink` is the direction from the client.
- **Logging.** `LogStream` prints integers and bounds the text buffer. `LoggerProtocol` and
  `LoggerHistory` are the double-buffer protocol as atomic steps with a record of what was appended and
  what became of it; `AsyncLogging.AsyncLogger` is the class, on real arrays and with the real text of the
  file, each method being one of those steps.
- **Connections and timers.** `TimerManagement.TimerManager` is the lazy-deletion queue. `ServerState`
  is the machine of `IMServer`, `Connection` and `Channel`: fds given out by the system, shared owners,
  `m_connections`, timers, the two phases of the tick. `Lifetime` proves its invariants, `Deadlines`
  that the queue refines a plain map of deadlines, `Broadcasts` that a broadcast reaches everybody once,
  and `Delivery`, on top of `Transport` and with each link's removal tied to `m_connections`, that every
  client decodes it once and no output is stranded; `DeliveryProgress` that its runs are those of the
  parts and that a broadcast can always be brought to the decoders. `EventLoops` adds the batches of
  several epoll loops and says when the channel behind an event still exists, that a handler keeps its
  connection alive, and that no loop gets stuck. `ChatServer` has the classes `IMServer` and
  `ChatService`, whose methods are steps of that machine (`ServerFacts` and `OutputBuffers` hold what
  their proofs need).
- **Directory.** `Directories` says exactly when a login keeps `online_users_` right, `PrivateMessages`
  what follows for private messages and for the list.
- **Tokens.** `Base64Url` (section 5 of RFC 4648, unpadded as in Appendix C of RFC 7515) and `JwtUtils`
  (section 7.1 of RFC 7515, `exp` as in section 4.1.4 of RFC 7519).
- **Locks and pool.** `LockOrder` writes every code path out as the mutexes it takes and proves that no
  number of threads deadlocks on them. `ConnectionPool` is the database pool and its guard.

Properties that the code does not have, each with its exact condition and an input or run that fails:

- The server's decoder reads past its buffer for some split of a stream unless every announced length is
  at most 2^32 - 5 (`ServerDecoder.SafeIffBounded`); four bytes 255 are enough (`LargestHeaderOverreads`).
- A login spoils the directory unless the name is not empty, the connection is registered, has no other
  name, and nobody else has this one (`Directories.LoginAgreesIff`); a reachable state for each part:
  `EmptyNameSpoils`, `RemovedSpoils`, `SecondNameSpoils`, `NameInUseSpoils`.
- A private message goes to a stranger exactly if the addressee's fd is mapped at both later sections and
  was given to a new connection after the lookup (`PrivateMessages.StrangerIff`); `StrangerHappens` is a
  reachable state and run that do it.
- A private message reaches nobody, and the sender is told nothing, exactly if the fd is mapped when
  `isConnectionActive` asks and no longer at the send (`PrivateMessages.LostIff`, `LostHappens`).
- The channel behind an event of a batch still exists when its turn comes exactly if the tick has not
  removed its connection meanwhile or somebody else owns it; on the loop of the tick, so whenever there is
  only one, it always does (`EventLoops.ChannelExistsIff`). `TwoLoopsDangle` is a run of two loops in which
  it does not.
- `stop()` leaves every line dealt with exactly if nothing waits in the buffers at the call
  (`LoggerHistory.StopIsCompleteIff`); `StopLosesALine` is a run that loses one.
- `init` respects the maximum exactly if the initial size does (`ConnectionPool.InitKeepsIff`,
  `OversizedInit`), and a second `init` keeps the accounts exactly if nothing was open (`ReinitKeepsIff`,
  `SecondInit`).
- A thread is left asleep while the pool has room exactly by giving up a dead connection, whose
  replacement failed, while somebody sleeps (`ConnectionPool.SleeperLeftIff`, `NoSleeperForgotten`);
  `SleeperForgotten` is a run that does it.

Where the code and its documentation differ, the code is followed: `README.md` of the repository promises
an alert when a user disconnects, but `onDisconnect` only erases the name; it describes one single-threaded
loop, but there may be several I/O loops; the history replayed at a login is the constant 50, not
`history_size`. The token expiry accepts `now == exp`.

Two of the failing inputs need more than the repository's own code does. `EmptyNameSpoils` needs a row of
the users table with an empty name, which `handleRegister` refuses to create (ChatService.cpp:71). `ReinitKeepsIff` and `SecondInit` need a second call of `init`, which is called
once, in the constructor of `IMServer` (IMServer.cpp:63-71).

What is assumed: the system gives out only fds that are not open; `send` takes a prefix or fails; a
`mysql_real_connect` never returns a handle that is open; JSON parsing inverts dumping for the claims of a
token; HMAC is an arbitrary function; an iteration over a hash table visits each key once. Mutexes are
sequentially consistent.

## Model

| member | source | states |
|---|---|---|
| Framing.HeaderRoundTrip | server/src/server/IMServer.cpp:184-186 | reading a length written in network order gives it back |
| Framing.HeaderBytes | server/src/server/IMServer.cpp:184-186 | a header is the four bytes of the length, the most significant first |
| Framing.BigEndianIsCanonical | server/src/server/IMServer.cpp:184-186 | every header is the encoding of the length read from it, which is below 2^32 |
| Framing.StreamIsFramesThenTail | server/src/server/IMServer.cpp:178-214 | parsing loses nothing: any stream is its frames re-encoded, followed by its tail |
| Framing.FramesOfWire | client/src/network/network_manager.cpp:30-44 | encoding payloads and parsing gives them back, whatever follows on the wire |
| Framing.PacketSurvivesIffItFits | client/src/network/network_manager.cpp:32-37 | one packet parses back to its payload if and only if the payload is shorter than 2^32 |
| Framing.FramesSplit | server/src/server/IMServer.cpp:178-214 | a stream may be parsed in two instalments, keeping the tail of the first |
| Framing.NonEmptyFirst | client/src/network/network_manager.cpp:46-76 | what the client drops are the empty payloads and no others |
| ByteBuffer.Buffer.EnsureCapacity | server/src/base/Buffer.h:49-63 | room is made without changing the readable content, whether nothing, a move to the front or a growth is needed |
| ByteBuffer.Buffer.Append | server/src/base/Buffer.h:13-17 | the content becomes the old content followed by the data |
| ByteBuffer.Buffer.Retrieve | server/src/base/Buffer.h:19-30 | a prefix is dropped; asking for more than is readable empties the buffer |
| ByteBuffer.Buffer.ReadAsString | server/src/base/Buffer.h:42-46 | within the readable bytes, the prefix is returned and the rest is kept |
| ByteBuffer.Buffer.ReadAllAsString | server/src/base/Buffer.h:36-40 | everything readable is returned and the buffer is empty |
| ServerDecoder.NextMessage | server/src/server/IMServer.cpp:180-191 | one round hands over the first frame of the stream, or finds none, or is exactly the overread |
| ServerDecoder.OnConnectionMessage | server/src/server/IMServer.cpp:178-191 | all complete frames come out in order and exactly the incomplete one is kept; an overread happens if and only if the guard `Fits` fails; the loop terminates |
| ServerDecoder.DecodingIgnoresChunking | server/src/server/IMServer.cpp:178-214 | for announced lengths up to 2^32 - 5 every way of cutting the stream gives the same payloads and the same leftover |
| ServerDecoder.SafeIffBounded | server/src/server/IMServer.cpp:188-191 | lengths up to 2^32 - 5 are exactly what keeps the decoder inside its buffer under every split |
| ServerDecoder.LargestHeaderOverreads | server/src/server/IMServer.cpp:184-191 | four bytes 255 announce 2^32 - 1, for which the sum is 3, and are an overread |
| ServerDecoder.ServerReceivesWhatWasSent | server/src/net/Connection.cpp:24-47 | packets of at most 2^32 - 5 payload bytes come out complete and in order under every split, with nothing left over |
| ConnectionIO.Connection.WriteData | server/src/net/Connection.cpp:70-76 | the data goes to the end of the output buffer and EPOLLOUT is requested |
| ConnectionIO.Connection.SendOnce | server/src/net/Connection.cpp:88-99 | exactly what the kernel accepted leaves the front of the buffer |
| ConnectionIO.Connection.HandleWrite | server/src/net/Connection.cpp:78-121 | kernel plus buffer are unchanged as one byte string; it stops only when drained or refused; write interest ends exactly when drained; it terminates |
| ConnectionIO.Connection.HandleRead | server/src/net/Connection.cpp:24-53 | the chunks read are decoded as one stream continuing the buffered bytes; the connection is closed after end of file or an error |
| ClientDecoder.NetworkManager.OnReadyRead | client/src/network/network_manager.cpp:46-76 | the state machine hands over the non-empty frames of what is pending and stops with less than a header or payload unread; unread bytes are its measure |
| ClientDecoder.AfterReadyReadFacts | client/src/network/network_manager.cpp:46-76 | afterwards the pending bytes, with a consumed header put back, are the incomplete frame |
| ClientDecoder.ArriveAllIsOneParse | client/src/network/network_manager.cpp:46-76 | however the bytes arrive, the client receives the non-empty frames of the whole stream |
| ClientDecoder.DecodersAgree | client/src/network/network_manager.cpp:46-76 | for every stream and every two chunkings the client gets the server's payloads without the empty ones, and both hold the same incomplete frame |
| Transport.StepPreserves | server/src/net/Connection.cpp:70-121 | each step of writers, sends, removal, network or client keeps delivery and the write-interest invariant |
| Transport.EndToEndDelivery | server/src/net/Connection.cpp:70-121 | in every run the payloads decoded so far, followed by the decoding of everything in transit, are the non-empty payloads queued, in order; nothing is lost once nothing is in transit |
| Transport.AnotherIsReceived | server/src/net/Connection.cpp:70-121 | after any run another payload can be written, and steps that write nothing else then bring the client to have received exactly the non-empty payloads written, in order |
| Transport.OutputIsNeverStranded | server/src/net/Connection.cpp:70-121 | with both mutexes free, a registered connection with output has EPOLLOUT requested, over all runs |
| Transport.HandleWriteIsARun | server/src/net/Connection.cpp:78-121 | every outcome the contract of HandleWrite allows, with output pending or without, is a run of the machine's steps |
| Uplink.EndToEndDelivery | client/src/network/network_manager.cpp:30-44 | in every run of sends, network splits and server reads the server never overreads, what it handed over followed by the decoding of what it holds and what is under way is what the client sent, and nothing is missing once nothing is under way |
| Uplink.AnotherArrives | client/src/network/network_manager.cpp:30-44 | after any run the client can send another payload of up to 2^32 - 5 bytes, and one read then leaves the server with exactly what was sent |
| LogStream.Convert | server/src/log/LogStream.cpp:9-26 | the text of the value and a NUL are written at the cursor, at most 20 characters, nothing else changes |
| LogStream.WriteDigits | server/src/log/LogStream.cpp:14-18 | the mirrored table and truncating division write the digits of the absolute value, for the minimum too |
| LogStream.Reverse | server/src/log/LogStream.cpp:24-24 | the range is reversed in place and the rest is unchanged |
| LogStream.DecimalIsExact | server/src/log/LogStream.cpp:9-26 | the text parses back to the value and has no superfluous zero or sign |
| LogStream.DigitsByValue | server/src/log/LogStream.cpp:6-18 | the digits are the usual ones, for the printer and for the reader of DecimalIsExact |
| LogStream.DecimalIsUnique | server/src/log/LogStream.cpp:9-26 | every normal decimal text is the text printed for its value |
| LogStream.DecimalFits | server/src/log/LogStream.cpp:28-34 | every value of up to 64 bits takes 1 to 20 characters, well inside the 48 reserved |
| LogStream.FixedBuffer.Append | server/src/log/LogStream.h:15-20 | the text is appended whole or not at all, and the cursor stays inside |
| LogStream.FixedBuffer.Reset | server/src/log/LogStream.h:27-27 | nothing is held and all of the array is available |
| LogStream.FixedBuffer.FormatInteger | server/src/log/LogStream.cpp:28-34 | the number is appended whole when 48 characters are free, else nothing happens |
| LoggerProtocol.StepOwns | server/src/log/AsyncLogger.cpp:26-105 | no step dereferences null or pops an empty vector, and ownership is kept: a null `nextBuffer_` means `buffers_` is not empty, both spares are there and empty at the loop head |
| LoggerProtocol.StepUnaliased | server/src/log/AsyncLogger.cpp:26-105 | no buffer ever has two owners |
| LoggerHistory.OwnershipAlways | server/src/log/AsyncLogger.cpp:28-103 | both hold in every reachable state, for whatever step comes next |
| LoggerHistory.ConservationAlways | server/src/log/AsyncLogger.cpp:26-105 | at every moment of every run: written and erased buffers, then the consumer's, then the waiting ones are the appended lines shorter than 4,000,000 bytes, in order; erasures are of drains above 25 and are noted in the file |
| LoggerHistory.FileWithoutNotices | server/src/log/AsyncLogger.cpp:75-85 | a file without notices is a prefix of the appended lines and the rest is still held |
| LoggerHistory.FatesAtExit | server/src/log/AsyncLogger.cpp:61-108 | when the loop has been left, written and erased lines followed by what waits are the appended lines |
| LoggerHistory.EverythingCanBeWritten | server/src/log/AsyncLogger.cpp:61-103 | from every reachable state in which the thread has not left, its own steps deal with every line appended so far and leave nothing waiting |
| LoggerHistory.LeavesOnlyStopped | server/src/log/AsyncLogger.cpp:61-61 | the thread leaves its loop only after stop() |
| LoggerHistory.StopIsCompleteIff | server/src/log/AsyncLogger.h:23-29 | at any reachable state at which stop() is called: every append-free run to the exit deals with every line if and only if nothing waits in `buffers_` and `currentBuffer_` at the call |
| LoggerHistory.StoppedFileIsCompleteIff | server/src/log/AsyncLogger.h:23-29 | the same for the contents of the file, as long as no trim has happened or is about to |
| LoggerHistory.StopLosesALine | server/src/log/AsyncLogger.cpp:61-108 | a run of one append, stop and exit loses the line |
| AsyncLogging.BufferHeap.Append | server/src/log/LogStream.h:15-20 | on the array of one buffer the append is the protocol's, and no other buffer changes |
| AsyncLogging.BufferHeap.Reset | server/src/log/LogStream.h:27-27 | that buffer is empty, no other changes |
| AsyncLogging.BufferHeap.New | server/src/log/AsyncLogger.cpp:32-36 | a new empty buffer, apart from all others |
| AsyncLogging.AsyncLogger.Append | server/src/log/AsyncLogger.cpp:26-40 | is the protocol's append and keeps ownership; the full buffer is handed over exactly when the line would fill 4,000,000 bytes |
| AsyncLogging.AsyncLogger.Drain | server/src/log/AsyncLogger.cpp:62-73 | is the protocol's drain and keeps ownership |
| AsyncLogging.AsyncLogger.Trim | server/src/log/AsyncLogger.cpp:75-81 | is the protocol's trim and keeps ownership; more than 25 buffers are cut to the first two and the file gets the line that says how many there were, else nothing changes |
| AsyncLogging.AsyncLogger.WriteNext | server/src/log/AsyncLogger.cpp:83-85 | the lines held by the next buffer, one after the other, go to the end of the file |
| AsyncLogging.AsyncLogger.WriteAll | server/src/log/AsyncLogger.cpp:83-85 | the lines of all drained buffers go to the end of the file, in order, as one block for each |
| AsyncLogging.AsyncLogger.Recycle | server/src/log/AsyncLogger.cpp:87-103 | is the protocol's recycle; both spares are restored empty and `back()` is never taken from an empty vector |
| AsyncLogging.AsyncLogger.LeaveLoop | server/src/log/AsyncLogger.cpp:61-61 | is the protocol's exit |
| AsyncLogging.AsyncLogger.Stop | server/src/log/AsyncLogger.h:23-29 | is a run of the protocol that begins with the flag and appends nothing, at whose end the thread has left; what its round had still to write is in the file, and what waited in the buffers at the call still waits there, unless the thread had passed the loop test already: then one more round has taken it along |
| AsyncLogging.TextOfBlocks | server/src/log/AsyncLogger.cpp:83-85 | the text of a file without notices is that of the lines in its blocks, in order |
| AsyncLogging.FileText | server/src/log/AsyncLogger.cpp:26-105 | in every reachable state the text of a file without notices, followed by that of the lines still held, is the text of the appended lines that fit a buffer |
| TimerManagement.TimerManager.AddTimer | server/src/net/TimerManager.cpp:4-9 | for a connection that still exists, its node is queued and its fd expects that deadline; Deadlines.AddRefines says what this means |
| Deadlines.AddRefines | server/src/net/TimerManager.cpp:4-9 | adding a timer sets the deadline of that connection in the plain map, replacing any earlier one |
| TimerManagement.TimerManager.RemoveTimer | server/src/net/TimerManager.cpp:11-15 | the fd expects nothing and the queue is untouched; Deadlines.RemoveRefines says what this means |
| Deadlines.RemoveRefines | server/src/net/TimerManager.cpp:11-15 | removing by fd takes exactly the deadline of the connection that owns the fd out of the plain map |
| TimerManagement.TimerManager.CheckTimeout | server/src/net/TimerManager.cpp:17-43 | returns exactly the due connections, once each, by non-decreasing deadline, and forgets exactly those |
| Deadlines.StepLinks | server/src/net/TimerManager.cpp:4-43 | every step of the server keeps the queue a refinement of the plain deadline map |
| Deadlines.QueueRefinesDeadlines | server/src/net/TimerManager.cpp:17-43 | after every run, a list is a possible result of `checkTimeout(now)` if and only if it is the live connections whose latest unremoved deadline is at most now, in order, once each; exactly those are forgotten |
| Deadlines.MapCanBeKept | server/src/net/TimerManager.cpp:4-43 | along every run of the server there is such a map |
| Deadlines.TickCanCollect | server/src/net/TimerManager.cpp:17-43 | whatever the queue holds and the time is, there is a list for the tick to collect |
| Deadlines.DeadlineDecides | server/src/server/IMServer.cpp:165-201 | a connection whose latest message, or else whose arrival, set the deadline x is collected by the first tick at or after x and by none before, whatever else runs in between, while it exists and is not closed |
| Deadlines.LateRefreshDoesNotSave | server/src/server/IMServer.cpp:226-239 | whoever is collected can still be refreshed, and is not registered as soon as the tick has come past it, whatever runs in between |
| Lifetime.StepInv | server/src/server/IMServer.cpp:122-176 | every step keeps fds, map, ownership and disconnects consistent |
| Lifetime.FdIdentity | server/src/server/IMServer.cpp:122-176 | in every reachable state live connections own distinct open fds, `m_connections[f]` has fd f, accept overwrites nothing, a collected connection is alive, `onDisconnect` ran at most once for each |
| Lifetime.DisconnectedExactlyOnce | server/src/server/IMServer.cpp:122-133 | in every reachable state `onDisconnect` has run exactly once for everyone who was accepted and is not registered, and not for those who are |
| Lifetime.CloseRemovesOwnOrNothing | server/src/server/IMServer.cpp:173-176 | `removeClient(conn->fd)` by a holder removes that connection or nothing |
| Lifetime.StepEffect | server/src/server/IMServer.cpp:122-133 | a step unregisters only those it passes to `onDisconnect`, moves no fd and brings nobody back |
| Lifetime.RegisterIsNew | server/src/server/IMServer.cpp:154-158 | an accepted fd is in no entry and belongs to no live connection |
| Lifetime.OthersTakeFds | server/src/server/IMServer.cpp:135-171 | any fd that is not open may be taken by another part of the process, and then accept cannot return it until it is given back |
| EventLoops.StepKeeps | server/src/net/EventLoop.cpp:15-40 | every step of any number of loops keeps the server's invariants, and that the channels a loop has still to come to belong to connections given to it, each registered still or removed by the tick |
| EventLoops.ChannelExistsIff | server/src/net/EventLoop.cpp:36-40 | in every reachable state a channel that a loop has still to come to exists if and only if the tick has not removed its connection, or somebody else still owns it; on the loop of the tick it always exists |
| EventLoops.OwnersAreCounted | server/src/net/Channel.cpp:17-41 | in every reachable state the shared_ptrs to a connection outside `m_connections` are one for each loop in its handler and those in the list of the tick |
| EventLoops.HandledIsAlive | server/src/net/Channel.cpp:17-41 | in every reachable state of any number of loops a connection exists while a handler of its channel runs, and the handler can return |
| EventLoops.FinishUndoesDispatch | server/src/net/Channel.cpp:17-41 | a handler gives up exactly the owner it took |
| EventLoops.NoLoopIsStuck | server/src/net/EventLoop.cpp:15-40 | in every reachable state each loop has its next step to take, through batch, handlers and tick, except at a channel that is gone |
| EventLoops.LoopsRunTheServer | server/src/net/EventLoop.cpp:15-40 | every run of the loops is a run of the server in which the same connections arrive, send, close and expire in the same order |
| EventLoops.TwoLoopsDangle | server/src/net/EventLoop.cpp:36-40 | a run of two loops after which the next channel of a batch no longer exists |
| Broadcasts.StepKeeps | server/src/server/IMServer.cpp:251-266 | connects, disconnects, other broadcasts and the sends themselves keep the delivery invariant of each broadcast |
| Broadcasts.BroadcastExactlyOnce | server/src/server/IMServer.cpp:244-267 | over all interleavings nobody gets the packet twice, the sender never does, and everybody registered throughout has it exactly once at the end |
| Broadcasts.SnapshotIsPossible | server/src/server/IMServer.cpp:251-259 | a handler that holds its Connection can begin a broadcast at any time |
| Broadcasts.BroadcastFinishes | server/src/server/IMServer.cpp:261-266 | wherever a broadcast has got to, its own sends finish it, and then everybody registered since its start has the packet exactly once |
| Broadcasts.BasesReach | server/src/server/IMServer.cpp:244-267 | to the server broadcasts change nothing: its part of every run is a run of its own |
| Delivery.BroadcastIsDecodedOnce | server/src/server/IMServer.cpp:244-267 | over all interleavings of broadcasts, answers, disconnects, partial sends and network splits, everybody registered throughout has one packet of the broadcast and the sender none, and every client decodes exactly the texts of its packets, in order |
| Delivery.NobodyIsStranded | server/src/net/Connection.cpp:70-121 | in every reachable state of all of this, with `m_mutex` and the connection's `out_mutex` free, a connection in `m_connections` that has output has EPOLLOUT requested |
| DeliveryProgress.LinksAreTransports | server/src/net/Connection.cpp:70-121 | what falls to one connection in any run of all this is a run of its transport, in which exactly what was answered or broadcast to it was written |
| DeliveryProgress.BroadcastCanReach | server/src/server/IMServer.cpp:244-267 | wherever a broadcast has got to and whatever else is going on, whoever has been registered since it began and is not just being removed can still get it, once, and decode exactly what was queued |
| Directories.LoginAgreesIff | server/src/server/ChatService.cpp:119-123 | a login keeps the directory right if and only if the name is not empty, the connection is registered, has no other name, and no other registered connection has that name |
| Directories.EmptyNameSpoils | server/src/server/ChatService.cpp:119-123 | a reachable state in which only the name is empty, and the login spoils the directory |
| Directories.SecondNameSpoils | server/src/server/ChatService.cpp:119-123 | likewise with a second name on one connection |
| Directories.NameInUseSpoils | server/src/server/ChatService.cpp:119-123 | likewise with a name that another connection has |
| Directories.RemovedSpoils | server/src/server/ChatService.cpp:119-123 | likewise on a connection that has been removed |
| Directories.FollowsAgrees | server/src/server/ChatService.cpp:40-45 | no run of connections coming and going spoils it |
| Directories.EffectAgrees | server/src/server/ChatService.cpp:40-45 | a disconnect erases exactly the entries that must go |
| Directories.DirectoryAgrees | server/src/server/ChatService.cpp:40-45 | at every moment of every run of such logins, `online_users_` is the inverse of the usernames of the registered connections |
| PrivateMessages.PrivateReachesAddressee | server/src/server/ChatService.cpp:189-225 | a private message reaches its addressee exactly if that connection is still registered at the send; a name nobody had is "not online" |
| PrivateMessages.StrangerIff | server/src/server/ChatService.cpp:189-211 | somebody else gets the message if and only if the addressee's fd is mapped at both later sections and some step after the lookup registered a new connection on it |
| PrivateMessages.PrivateReachesAStranger | server/src/server/ChatService.cpp:189-211 | when the addressee goes between the sections and its fd is given to a new client, the new client gets the message |
| PrivateMessages.StrangerHappens | server/src/server/ChatService.cpp:189-211 | a reachable state with two users, and the run from it in which the message goes to the third client |
| PrivateMessages.LostIff | server/src/server/ChatService.cpp:189-225 | nobody gets the message and the sender is not told if and only if somebody is registered on the fd at the check and nobody at the send; where the fd is not reused, if and only if the addressee goes between these two |
| PrivateMessages.LostHappens | server/src/server/ChatService.cpp:189-225 | a reachable state and one close after which the message is lost |
| PrivateMessages.ListIsWhoIsThere | server/src/server/ChatService.cpp:228-239 | the list is the names of the registered connections that logged in, one for each |
| ChatServer.MakePacket | server/src/server/ChatService.cpp:79-84 | the array is the length, cut to 32 bits, followed by the message |
| ChatServer.MakeBroadcast | server/src/server/IMServer.cpp:244-249 | the copy overruns the vector if and only if the length cut to 32 bits exceeds 2^32 - 5, and else the array is the packet of the cut message; up to 2^32 - 5 bytes it is the packet of the message itself |
| OutputBuffers.OrdinaryText | server/src/server/IMServer.cpp:244-249 | a text of up to 2^32 - 5 bytes is not cut, and its packet is one frame that holds it |
| ChatServer.IMServer.RemoveClient | server/src/server/IMServer.cpp:122-133 | is the machine's removal, erases the user's name, and destroys the connection if that was its last owner |
| ChatServer.IMServer.AddConnection | server/src/server/IMServer.cpp:154-167 | is the machine's registration, with a first deadline |
| ChatServer.IMServer.HandleNewConnection | server/src/server/IMServer.cpp:135-171 | every accepted fd gets an entry with its own deadline, no earlier entry changes, and the whole is a run of the machine |
| ChatServer.IMServer.RefreshTimer | server/src/server/IMServer.cpp:196-201 | is the machine's refresh |
| ChatServer.IMServer.OnConnectionMessage | server/src/server/IMServer.cpp:178-214 | exactly the frames that parse go to the router, in order, each renewing the deadline; the others are dropped; the incomplete frame stays; the overread is characterised |
| ChatServer.ParsedIs | server/src/server/IMServer.cpp:193-213 | what goes to the router is, in order, the frames that parse and no others |
| ChatServer.IMServer.OnConnectionClose | server/src/server/IMServer.cpp:173-176 | unregisters that connection and no other, with one `onDisconnect` if it was registered, and the directory follows |
| ChatServer.IMServer.HandleEvent | server/src/net/Channel.cpp:17-41 | with the owner kept alive, the frames that parse are routed and renew the deadline; end of file, send error and hang-up together disconnect once; the whole is a run that the directory follows, and the object goes at the end if nobody else owns it; without an owner nothing happens |
| ChatServer.IMServer.LetGo | server/src/net/Connection.cpp:15-22 | the last owner takes the object, and with it the fd, away |
| ChatServer.IMServer.Tick | server/src/server/IMServer.cpp:226-239 | unregisters exactly the connections whose deadline is due, as a run of the machine that the directory follows |
| ChatServer.IMServer.CollectTargets | server/src/server/IMServer.cpp:251-259 | every fd of `m_connections` but the sender's, once each |
| ChatServer.IMServer.BroadcastMessage | server/src/server/IMServer.cpp:244-267 | uninterrupted, for a text of up to 2^32 - 5 bytes the output of each registered connection but the sender's gains exactly its packet and everyone else's is unchanged; for longer ones the packet of the cut text, or an overrun |
| ChatServer.IMServer.SendToUser | server/src/server/IMServer.cpp:274-279 | the connection now mapped to the fd, if any, gets the bytes, nobody else does; PrivateMessages.StrangerIff says who that is |
| ChatServer.ChatService.OnDisconnect | server/src/server/ChatService.cpp:40-45 | erases the entry of the connection's name, if it has one; Directories.EffectAgrees says that this is exactly what must go |
| ChatServer.ChatService.HandleLogin | server/src/server/ChatService.cpp:87-160 | a token that verifies names the user, else the password decides; a rejected login changes only its own output; an accepted one is the directory's login, its output gains the token packet followed by the history in order, and that of everyone else registered the packet of the "joined" text |
| ChatServer.ChatService.HandlePrivate | server/src/server/ChatService.cpp:180-226 | exactly one output gains exactly one packet: the message goes to the connection mapped to the fd under the name, or else the refusal to the sender |
| ChatServer.ChatService.HandleList | server/src/server/ChatService.cpp:234-239 | every name of the directory once |
| Base64Url.Base64UrlEncode | server/src/base/JwtUtils.cpp:10-38 | the loop with its tail case computes the encoding |
| Base64Url.Base64UrlDecode | server/src/base/JwtUtils.cpp:40-80 | the loop with its tail case computes the decoding, stopping at the first character outside the alphabet |
| Base64Url.TableByValue | server/src/base/JwtUtils.cpp:11-58 | the encoder's table and the decoder's comparisons are the 64 symbols of RFC 4648, by their codes |
| Base64Url.EncodeSpellsTheBits | server/src/base/JwtUtils.cpp:10-38 | the symbols spell the bits of the input, six each, padded with zeros (section 4 of RFC 4648) |
| Base64Url.EncodeShape | server/src/base/JwtUtils.cpp:10-38 | the length is the ceiling of 4n/3 and only the 64 symbols occur |
| Base64Url.RoundTrip | server/src/base/JwtUtils.cpp:10-80 | decoding inverts encoding on every byte string |
| Base64Url.ReencodesIffCanonical | server/src/base/JwtUtils.cpp:10-80 | re-encoding a decoded string gives it back if and only if it is in the alphabet, has no lone last symbol and zero unused bits |
| JwtUtils.TokenLifetime | server/src/base/JwtUtils.cpp:90-136 | a token issued at t0 names its user up to and including t0 + 604800 and is rejected at every later time |
| JwtUtils.AcceptedIffSigned | server/src/base/JwtUtils.cpp:104-136 | a token is accepted for a user if and only if it is header, payload and the encoded digest of these two joined by a dot, and the payload's claims name that user and have not run out |
| JwtUtils.AcceptedIsCovered | server/src/base/JwtUtils.cpp:104-136 | the signature of an accepted token decodes to the digest of everything before the last dot |
| JwtUtils.GeneratedIsCovered | server/src/base/JwtUtils.cpp:90-102 | so does that of every token issued |
| JwtUtils.NothingElsePasses | server/src/base/JwtUtils.cpp:104-136 | under an issued signature nothing but the text it was issued for is accepted, unless the digests collide |
| JwtUtils.PartsOfToken | server/src/base/JwtUtils.cpp:105-117 | the first and the last dot recover the three parts |
| LockOrder.SectionIsDisciplined | server/src/server/IMServer.cpp:122-133 | each locked section takes locks upwards, gives them back last first, and sleeps holding none |
| LockOrder.ProgramIsDisciplined | server/src/net/Connection.cpp:70-121 | so does every sequence of events of every thread |
| LockOrder.SectionsByValue | server/src/server/IMServer.cpp:122-133 | the locks of each section one by one, the nested and the waiting ones included |
| LockOrder.MessageLocks | server/src/server/ChatService.cpp:62-239 | which mutexes, but for the log's, each kind of message makes the server take |
| LockOrder.EventLocks | server/src/net/Connection.cpp:24-121 | which mutexes each event of a thread takes, its messages apart |
| LockOrder.MessagesLocks | server/src/server/IMServer.cpp:178-214 | those of a read are the ones its messages need and `m_mutex` for each that parses |
| LockOrder.ProgramLocks | server/src/net/EventLoop.cpp:15-40 | a thread takes the locks of its events |
| LockOrder.EventsInTurn | server/src/net/EventLoop.cpp:15-40 | a thread does its events one after the other; MessagesInTurn, QueriesInTurn, ClosesInTurn and AcceptsInTurn say the same of what an event consists of |
| LockOrder.NoDeadlock | server/src/server/IMServer.cpp:251-266 | in every reachable state of any number of threads no chain of waiting returns to where it began, and none is longer than five waits |
| LockOrder.AlwaysProgress | server/src/db/MySQLPool.cpp:63-103 | some thread can always take or give back a lock, unless all have finished or sleep, and then no lock is held |
| LockOrder.MutualExclusion | server/src/server/IMServer.cpp:122-133 | in no reachable state do two threads hold one lock |
| LockOrder.EverybodyCanFinish | server/src/net/EventLoop.cpp:15-40 | from every reachable state of any number of threads a schedule lets all of them finish, with every lock given back |
| LockOrder.UnlockingFirstMatters | server/src/net/Connection.cpp:112-115 | closing from handleWrite without unlocking first could block two threads for good |
| ConnectionPool.MySQLPool.Init | server/src/db/MySQLPool.cpp:38-61 | the handles made before the first failure join the queue in order and are the new count, the maximum is set; true is returned exactly when none failed |
| ConnectionPool.MySQLPool.TryBorrow | server/src/db/MySQLPool.cpp:66-94 | one turn of the loop answers the first idle handle if its ping succeeds, else what the connect gives, null if that fails, or to wait if nothing is idle and there is no room; what it answers is what it lends |
| ConnectionPool.MySQLPool.Wait | server/src/db/MySQLPool.cpp:77-78 | asleep, the thread lets any run of the other threads happen |
| ConnectionPool.MySQLPool.GetConnection | server/src/db/MySQLPool.cpp:63-95 | turns and sleeps, with anything other threads do meanwhile, until a turn answers; ConnectionPool.GetAnswers says what |
| ConnectionPool.GetAnswers | server/src/db/MySQLPool.cpp:63-95 | after any number of sleeps at an exhausted pool, the first turn that finds an idle handle or room answers the first idle handle, or the one newly made, or null if that failed, and lends exactly what it answers |
| ConnectionPool.FoundIsReached | server/src/db/MySQLPool.cpp:63-95 | the pool that each turn finds is one that a run leads to |
| ConnectionPool.OneTurnIsEnough | server/src/db/MySQLPool.cpp:81-94 | a call that finds an idle handle alive returns it after one turn |
| ConnectionPool.WaitingIsARun | server/src/db/MySQLPool.cpp:63-95 | however often it sleeps, the call is a run of the machine, keeps the accounts, and a handle it returns is borrowed once |
| ConnectionPool.MySQLPool.ReleaseConnection | server/src/db/MySQLPool.cpp:97-103 | the handle is the last idle one and one sleeper is woken, null is ignored; ConnectionPool.ReturnKeeps says that the open connections stay the same |
| ConnectionPool.ReturnKeeps | server/src/db/MySQLPool.cpp:97-103 | giving back keeps the accounts and the set of open connections |
| ConnectionPool.MySQLConnectionGuard.constructor | server/src/db/MySQLPool.h:50-52 | once the wait is over, holds what was borrowed, or nothing; where it need not wait, the first idle handle if its ping succeeds, else the one newly made |
| ConnectionPool.MySQLConnectionGuard.Destroy | server/src/db/MySQLPool.h:53-57 | gives back exactly what was borrowed |
| ConnectionPool.BorrowKeeps | server/src/db/MySQLPool.cpp:63-95 | the accounts balance after every turn, and what is lent nobody else has |
| ConnectionPool.BorrowOpens | server/src/db/MySQLPool.cpp:63-95 | the set of open connections is unchanged, or has one more, one replaced, or one fewer |
| ConnectionPool.InitKeepsIff | server/src/db/MySQLPool.cpp:38-61 | a successful init respects the maximum if and only if the initial size does |
| ConnectionPool.OversizedInit | server/src/db/MySQLPool.cpp:38-61 | two connections in a pool for one |
| ConnectionPool.ReinitKeepsIff | server/src/db/MySQLPool.cpp:38-61 | an init on a pool in use keeps the accounts if and only if nothing was open |
| ConnectionPool.SecondInit | server/src/db/MySQLPool.cpp:38-61 | a second init of a pool with one connection leaves two idle and one counted |
| ConnectionPool.PoolConservation | server/src/db/MySQLPool.cpp:63-103 | over every run `currentSize_` is idle plus borrowed, at most `maxSize_`, and each handle is in one place |
| ConnectionPool.WaitOnlyWhenExhausted | server/src/db/MySQLPool.cpp:66-79 | a thread is put to sleep if and only if all `maxSize_` connections are lent out |
| ConnectionPool.NoLostWakeUp | server/src/db/MySQLPool.cpp:63-103 | in every run, whoever takes a handle first and whatever wake-ups are spurious, while anybody sleeps there are no more idle handles than woken threads still to look |
| ConnectionPool.SleepersAreCounted | server/src/db/MySQLPool.cpp:63-103 | in every run the threads asleep and the woken ones are those that slept and have not come back |
| ConnectionPool.GuardRestores | server/src/db/MySQLPool.h:48-63 | borrow and return leave what others have borrowed as it was |
| ConnectionPool.SleeperLeftIff | server/src/db/MySQLPool.cpp:85-91 | a step leaves somebody asleep while the pool has room if and only if it gives up a dead connection, whose replacement failed, while somebody sleeps |
| ConnectionPool.NoSleeperForgotten | server/src/db/MySQLPool.cpp:63-103 | in every run without such a step nobody ever sleeps while the pool has room |
| ConnectionPool.SleeperForgotten | server/src/db/MySQLPool.cpp:85-91 | a run that comes to such a step and leaves a waiter asleep though nothing is borrowed |

## Left out

- SQL texts, password hashing and the history query: thin wrappers over a database that is not shown.
- nlohmann::json, OpenSSL and the MySQL client: parameters with the assumptions named above; messages are assumed to be JSON objects with string fields, other shapes raise exceptions that `onConnectionMessage` does not catch.
- Qt signals, NetMessage fields, Config parsing, Router dispatch, the log line header, the command-line client and the stress tester: glue.
- Choosing an I/O loop round-robin, and starting the loop threads with their own mutex: no property of the above depends on it.
- Weak memory effects, and the unsynchronised writes to a channel's events in `removeClient`: every step is atomic.
- Lengths in memory (`size_t`, `int`) are unbounded; the 32-bit header, the 32-bit sum in the server's decoder and the integer types of the printer are modelled exactly.
- ChatServer.MakeBroadcast: says nothing about the packet when it overruns, because writing past the vector has no defined result.
- ServerDecoder.OnConnectionMessage: says nothing about what follows an overread, for the same reason; the parsing, the renewed deadline and the routing are in ChatServer.IMServer.OnConnectionMessage.
- ServerDecoder.DecodingIgnoresChunking: requires announced lengths up to 2^32 - 5; SafeIffBounded shows that this is exactly what is needed.
- TimerManagement.TimerManager.CheckTimeout: the heap is a multiset with a minimum, so the order among equal deadlines is any.
- AsyncLogging.BufferHeap.New: a unique_ptr is the number of a buffer on the heap, and a buffer that nothing leads to any more stays there.
- AsyncLogging.AsyncLogger.Stop: no producer appends between the flag and the join; LoggerHistory is about those that may.
- ChatServer.IMServer.OnConnectionMessage: what the handlers do with the messages it routes is in the handlers' own contracts.
- ChatServer.IMServer.HandleEvent: the channel itself is taken to exist, which is the subject of EventLoops; nothing runs between its steps, and what the handlers of the routed messages do is in their own contracts. It says less after an overread.
- EventLoops.ChannelExistsIff: one step sets the channel's events and locks its owner; a batch may be of any length, not only up to ten. The runs stop at a channel that does not exist.
- ChatServer.IMServer.BroadcastMessage: connections are numbers and their outputs a map, not references to Connection objects; the append it uses is the contract of ConnectionIO.Connection.WriteData. Interruptions are the subject of Broadcasts and Delivery.
- ChatServer.IMServer.Tick: nothing runs between its two phases here; interruptions are the subject of ServerState and Deadlines. The owners in the list of expired connections go afterwards, as separate releases.
- ChatServer.ChatService.HandleLogin: nothing runs between its sections, and the answer of the password query is a parameter.
- ChatServer.ChatService.HandlePrivate: nothing runs between its sections (PrivateMessages is about what may), and the message saved in the database is not modelled.
- ConnectionPool.MySQLConnectionGuard.constructor: requires that the wait ends, since a constructor that waits for ever does not return.
- Liveness of the pool, full draining at shutdown, log rolling and failed file opens: the code promises none of them.
- LockOrder: a thread asleep in a condition variable may be woken at any time, so nothing is said about whether it is.
