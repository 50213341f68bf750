# Frovedis foreign-interface transport and document-matrix tools

A Dafny model of two parts of Frovedis, with proofs:

* the exrpc transport: a client process with any number of threads that talks to any number of server processes over
  one pooled, mutex-guarded connection per server; bulk data goes over TCP or, block by block, through shared memory
  and DMA; remote calls, on the same connections, are asynchronous, one-way, or one-way without exceptions;
* the tools that rewrite distributed document-term data: shrinking a matrix, converting bag-of-words triples through a
  dense window, building a dictionary and encoding documents with it, decoding zero-padded strings, and reordering
  the output of a singular value decomposition.

`dafny verify dfyconfig.toml` checks everything.

## How the model is organised

| files | content |
|---|---|
| `Blocks`, `Wire`, `Transport` | block arithmetic; packets and the server as an automaton; the whole system as a state machine: one step per lock acquisition, lock-protected region, packet read or written, memcpy and DMA |
| `ClientSide`, `ServerSide`, `Invariants`, `Segments`, `Safety` | the invariant of a session between a calling thread and its server, and its preservation by every step |
| `Paths`, `PathResults`, `Tables` | which way a transfer takes and why, what the client knows about servers and segments and that it is true; who touches the shared tables, and that no segment is lost |
| `Results`, `Unawaited`, `Progress`, `Refinement` | what follows for every run: agreement of the tables, ownership, bounds, what is left on a connection, deadlock freedom, termination, atomic copies |
| `DmaCopy`, `ShmPool` | the copy loops and the segment pool as imperative code |
| `Endian`, `Framing`, `Client` | byte order, layout and parsing of requests and replies, the read and write loops, who holds a connection's lock |
| `Replies`, `Rpc`, `RpcRuns` | calls of many threads on one connection, of names the server knows and does not know, and raw transfers over TCP among them, with the answers as octets: whose answer a caller reads, and when nobody can go on; particular runs |
| `Service` | accepted connections, and a worker that serves a given number of requests |
| `CrsMatrix`, `Shrink`, `ShrinkMat` | compressed-row matrices; removing rare words and short articles |
| `Bow`, `BowWindow` | windowed conversion of bag-of-words data |
| `Strings`, `Wiki`, `WikiText` | dictionary by set union, encoding by lower bound; what the title, tokens and words of a text are |
| `Words`, `Svd` | padded strings; singular vectors and values |
| `Sequences`, `Multiples` | small laws that several files need |

In the transport model the gaps of the code are kept: a verdict is looked up in one critical section, the probe is sent
outside any, and the verdict is recorded in another; `get_shm` gives up its lock while it creates a segment; the server
type is read, asked for and set in three separate steps. Connections buffer a bounded number of packets in each
direction, so that writers can block too; all results hold for every capacity greater than zero.

What is assumed about the environment:

* a `write` or `read` that does not fail moves at least one byte, and peers stay alive. In `Transport` and `Rpc` no I/O
  fails; in `Framing`, `Client` any call may fail, and the contracts say what is left then;
* the archive library gives back the header it was given (`Framing.Serializes`);
* the operating system does not hand out the id of a segment that still exists; a segment is removed when it cannot be
  attached, after which its id may be handed out again, and otherwise at exit;
* a server handles one request at a time; functions called by `exrpc_oneway_noexcept` do not throw; in `Transport` the
  names of exception-free calls are known to the server. Called functions may write any memory of their server;
* in `Rpc` a caller that reads a count can allocate that many octets. Otherwise `resize` throws before the lock is
  released, which stops the connection just as a caller that waits for ever does;
* a thread gets every asynchronous result, and does so before it starts another call to that node; there are at most
  65536 nodes;
* lists, counts and offsets fit into `size_t`. Where the code relies on conversion to `size_t` (negative thresholds,
  `-1` as a column id, a negative `substr` length) the conversion is written out.

## What the proofs found

* A call can release its connection with its last message still unread by the server exactly if its caller waits for
  nothing: an exception-free remote call, as intended, or a receive of zero bytes (`Unawaited.LeavesMessageExactly`).
  The message of the latter is `use_tcpip`, after which `myread` of zero bytes returns at once; every receive of zero
  bytes that comes to announce TCP can run ahead (`Unawaited.AnnouncedRunsAhead`). One that falls back to TCP because
  the server answered `dma_ng` has had all its messages read (`Unawaited.RefusedEndsRead`), and so has every transfer
  over DMA, whatever its size (`Results.NothingInFlightAfterDma`). The data results hold for all of them, and for
  transfers that queue up behind them.
* A call without exceptions of a name the server does not know makes the server write a report that nobody waits for.
  Without one, every caller reads its own answer (`Rpc.Correlation`). After one, the next caller takes the report for
  its own answer (`RpcRuns.StrayExample`), unlocks, and leaves its own answer to the next. From then on callers read
  whatever octets they find, cut up according to their own kind of call. The exact condition is on octets: a
  caller reads its own answer if and only if as many octets have been read before it as were written before its answer
  (`Rpc.ReadsOwn`, `Rpc.Correlation`). A stray report makes this fail for whoever comes next (`Rpc.StrayShifts`); it can
  come to hold again later by accident (`RpcRuns.ResyncExample`).
* The only deadlock of calls on one connection is a caller that waits for more octets than there are while the server
  has nothing left to do (`Rpc.StuckExactly`); it takes such a stray report, and `Rpc.JammedForEver` shows that nothing
  resolves it. It happens: `RpcRuns.JamExample` is a run of four calls whose last one takes the low octet of one count
  and the first octet of a reply for the end of a count, and waits for 865 octets where there are 13.
  `RpcRuns.Misled` and `RpcRuns.MisreadJams` give the sizes with which such a run jams, and with which it does not.
* The bag-of-words converter allocates the first test window with the length of the first training window.
  `BowWindow.Convert` shows that it stays inside its buffers exactly if the test window is not the longer one;
  `BowWindow.Overrun` is an input with which it does not.
* An interior zero in a padded string is counted as if it were at the end: `Words.DecodesExactly` states the exact
  condition under which a string is decoded correctly.
* The server type is one variable for all nodes. Threads that find it unknown at the same time all ask, each its own
  server, and the last one to record the answer decides for every server; `Results.TypeStands` shows that the type is
  final once it is known and nobody is asking. Each answer is true of the server that gave it
  (`PathResults.TypeRecorded`), so with servers of one type the type is right (`PathResults.TypeKnown`); with servers
  of both types it may be wrong for some, and then those are not asked for shared memory, or are and refuse. The
  transport is safe in any case, because a server that cannot attach the segment answers `dma_ng`.

## Model

| member | source | states |
|---|---|---|
| Blocks.BlocksTile | src/foreign_if/exrpc/exrpc.cc:463-479 | for every size the blocks are adjacent, the last one ends at the end, and the padded length never exceeds the segment, nor the block by 4 |
| Blocks.PaddedExactly | src/foreign_if/exrpc/exrpc.cc:475-479 | for every size and block the length handed to the DMA engine is a multiple of 4, and the least one that holds the block |
| Blocks.PutBlock | src/foreign_if/exrpc/exrpc.cc:466-480 | storing block i behind the blocks before it stores one longer prefix of the payload |
| Wire.DrainAppend | src/foreign_if/exrpc/exrpc.cc:630-734 | where the server comes to rest after the packets in flight is moved by one more packet exactly as by that packet alone, whatever it has already read |
| Wire.WorkShrinks | src/foreign_if/exrpc/exrpc.cc:434-513 | every step that a server takes between two reads, attaching a segment included, brings it closer to the next one, so it takes a bounded number of them |
| ClientSide.WriteKeeps | src/foreign_if/exrpc/exrpc.cc:1250-1336 | a packet written by a client keeps the agreement of client and server about what comes next, and the facts about all bytes in flight, in the segment and in both memories |
| ClientSide.HearKeeps | src/foreign_if/exrpc/exrpc.cc:1338-1371 | whatever a client reads is of the kind it expects there, and reading it keeps that agreement |
| ClientSide.CopyKeeps | src/foreign_if/exrpc/exrpc.cc:1234-1242 | a client's memcpy into or out of the segment keeps the facts about segment and memories |
| ServerSide.ReadKeeps | src/foreign_if/exrpc/exrpc.cc:630-734 | a packet read by the server is of the kind it expects there, and the session goes on |
| ServerSide.DmaMeetsFinish | src/foreign_if/exrpc/exrpc.cc:466-471 | while a server runs a DMA its client waits for the finish message of that very block and nothing is in flight |
| ServerSide.WorkKeeps | src/foreign_if/exrpc/exrpc.cc:461-513 | staging, DMA and memcpy of the server keep the session, including that no block is overwritten before it is consumed |
| ServerSide.TryKeeps | src/foreign_if/exrpc/exrpc.cc:434-459 | attaching or failing to attach a segment keeps the session; dma_ok is only prepared once the segment is in shm_map |
| ServerSide.ServeKeeps | src/foreign_if/exrpc/exrpc.cc:517-739 | no step of a server breaks the session it serves, and the server never meets a packet it does not expect |
| Invariants.ClientLocks | src/foreign_if/exrpc/exrpc.cc:1115-1211 | each lock is held by exactly the thread whose program counter says so, also across the nested locks of get_shm |
| Invariants.ClientSessions | src/foreign_if/exrpc/exrpc.cc:1250-1459 | a step of one thread keeps the sessions of all threads |
| Segments.Hands | src/foreign_if/exrpc/exrpc.cc:1115-1211 | a segment changes hands only by being picked, attached or returned |
| Segments.ClientPool | src/foreign_if/exrpc/exrpc.cc:1181-1204 | the pool stays free of duplicates and apart from the owned segments, and a pool found non-empty stays so until the pick |
| Segments.ClientProbes | src/foreign_if/exrpc/exrpc.cc:1292-1316 | probes stay distinct, and every probe has its verdict recorded before its segment is given back |
| Segments.ClientBound | src/foreign_if/exrpc/exrpc.cc:1130-1204 | pooled segments plus busy transfers stay within the peak of busy transfers, and equal it as long as no creation failed |
| Safety.StepKeeps | src/foreign_if/exrpc/exrpc.cc:1115-1459 | every step of every thread and server keeps the whole invariant |
| Safety.RunKeeps | src/foreign_if/exrpc/exrpc.cc:1115-1459 | so does every run |
| Tables.AnyCallBegins | src/foreign_if/exrpc/exrpc.cc:1250-1264 | the results are about every call whose memory ranges exist: any idle thread may begin any of them in any state |
| Results.TablesAgree | src/foreign_if/exrpc/exrpc.cc:662-670 | in every reachable state, a segment recorded as usable for a node is in that server's shm_map; no server and no client is ever in an internal error |
| Results.AtMostOneProbe | src/foreign_if/exrpc/exrpc.cc:1293-1316 | over every run try_dma is sent at most once for each node and segment |
| Results.VerdictsStand | src/foreign_if/exrpc/exrpc.cc:1304-1313 | over every run a recorded verdict never changes |
| Results.ExclusiveOwnership | src/foreign_if/exrpc/exrpc.cc:1115-1211 | each attached segment is in dma_buf_list exactly once or with exactly one transfer, never both, and is on the clean-up list |
| Results.AllReturned | src/foreign_if/exrpc/exrpc.cc:1207-1211 | when no call is under way the pool holds exactly the segments ever attached |
| Results.NoRace | src/foreign_if/exrpc/exrpc.cc:461-513 | no segment is ever accessed from two sides at once: not by a DMA and a memcpy, not by two DMAs, not by two threads |
| Tables.TablesGuarded | src/foreign_if/exrpc/exrpc.cc:1115-1211 | in every reachable state, a step that changes or consults the connections, the server type, the pool with its clean-up list, or the verdicts is made by the holder of the lock of that table |
| Tables.PoolMoves | src/foreign_if/exrpc/exrpc.cc:1131-1211 | get_shm takes the first free segment that is down as usable for the node, or else the last one, and makes one only if none is free; a returned segment joins the end; nothing else moves one |
| Tables.InstalledOnce | src/foreign_if/exrpc/exrpc.cc:1117-1129 | over every run only the first call of get_shm can fail to install the clean-up handlers |
| Tables.NothingLost | src/foreign_if/exrpc/exrpc.cc:1162-1180 | in every reachable state a segment that exists is in the pool, with a transfer, or being attached by its maker, and in the first two cases on the clean-up list |
| Results.NothingInFlight | src/foreign_if/exrpc/exrpc.cc:1330-1335 | when a send, a receive of at least one byte or an answered remote call releases its connection, both directions are empty and the server is idle, whatever earlier calls had left there |
| Results.NothingInFlightAfterDma | src/foreign_if/exrpc/exrpc.cc:1347-1371 | the same for every transfer over DMA of any size, from the moment it gives its segment back |
| Results.NothingUnreadAfterRefusal | src/foreign_if/exrpc/exrpc.cc:1432-1438 | once the client has read dma_ng the server has read everything, and owes nothing to a receive of zero bytes |
| Unawaited.LeavesMessageExactly | src/foreign_if/exrpc/exrpc.cc:1338-1345 | for every configuration and every call: some run from an initial state reaches its unlock with a message still unread if and only if it is a receive of zero bytes or an exception-free remote call |
| Unawaited.AnnouncedRunsAhead | src/foreign_if/exrpc/exrpc.cc:1454-1459 | in every reachable state, a receive of zero bytes that is about to write use_tcpip can reach its unlock without any server step and leaves a message unread |
| Unawaited.RefusedEndsRead | src/foreign_if/exrpc/exrpc.cc:1432-1438 | over every run, a receive of zero bytes whose segment was refused ends with nothing unread |
| Results.TypeStands | src/foreign_if/exrpc/exrpc.cc:1273-1286 | once the server type is known and no thread is between reading it as unknown and recording an answer, no run changes it |
| PathResults.TypeRecorded | src/foreign_if/exrpc/exrpc.cc:1273-1286 | in every reachable state, what a thread is about to record as the server type is what the server it has asked is |
| PathResults.TypeKnown | src/foreign_if/exrpc/exrpc.cc:638-646 | the recorded type is that of some server, and that of all if they are of one type |
| Results.PoolBoundedByPeak | src/foreign_if/exrpc/exrpc.cc:1130-1204 | over every run the existing segments never outnumber the largest number of transfers that at one time held or were creating one; pooled segments and busy transfers together are exactly that number as long as no creation failed |
| Results.PickPrefersUsable | src/foreign_if/exrpc/exrpc.cc:1183-1200 | a free segment known usable for the node is chosen whenever there is one, and then the first such; otherwise the last of the list |
| Progress.LockMoves | src/foreign_if/exrpc/exrpc.cc:1182-1202 | whoever waits for a lock, the holder, or whoever the holder waits for, can move: the lock order is acyclic |
| PathResults.SharedOnOwnHost | src/foreign_if/exrpc/exrpc.cc:1288-1291 | in every reachable state shared memory is asked for, made, probed and used only for nodes on the client's own host, by clients and servers, and only once some server is known to be a vector engine |
| PathResults.WayChosen | src/foreign_if/exrpc/exrpc.cc:1288-1330 | a transfer comes to announce TCP exactly if its node is on another host, the type is not that of a vector engine, no segment could be had because a system call failed, or its segment was down as useless and has been returned; it calls get_shm exactly if its node is on the client's host and the type is that of a vector engine |
| PathResults.SegmentJudged | src/foreign_if/exrpc/exrpc.cc:1292-1327 | a segment in hand is used if it is down as usable for the node, probed if nothing is down, and else returned |
| PathResults.VerdictsObeyed | src/foreign_if/exrpc/exrpc.cc:1304-1327 | in every reachable state a transfer over DMA has its segment down as usable, and one that returns it unused has it down as useless |
| PathResults.VerdictsExact | src/foreign_if/exrpc/exrpc.cc:434-459 | in every reachable state a segment is down as usable for a node if and only if the server of that node has attached it, which only a vector engine does |
| Wire.SaysTypeOnce | src/foreign_if/exrpc/exrpc.cc:638-647 | a server says what it is when it is asked first, and not again in the same call |
| Paths.TrySaysExactly | src/foreign_if/exrpc/exrpc.cc:434-459 | a server asked about a segment says dma_ok exactly if it has attached it, now or before; a vector engine refuses only if a system call fails, any other server always |
| PathResults.AllOverDma | src/foreign_if/exrpc/exrpc.cc:1250-1336 | if all servers are vector engines on the client's host, then over every run in which no system call fails no transfer goes over TCP, and every verdict is good |
| PathResults.NeverShared | src/foreign_if/exrpc/exrpc.cc:1288-1330 | if no server is on the client's host, or none is a vector engine, no run ever makes or probes a segment |
| Progress.NoDeadlock | src/foreign_if/exrpc/exrpc.cc:1250-1459 | in every reachable state with an unfinished transfer or remote call some thread or server can step, for every number of threads and servers and every buffer capacity |
| Progress.StepShrinks | src/foreign_if/exrpc/exrpc.cc:1250-1459 | every step other than a new call makes a pair of numbers smaller in lexicographic order, so no schedule runs for ever |
| Progress.CallsFinish | src/foreign_if/exrpc/exrpc.cc:1250-1459 | from every reachable state all calls under way can be finished |
| Refinement.TransferDone | src/foreign_if/exrpc/exrpc.cc:1224-1248 | at the return of a call its bytes are in place, padding excluded, and nothing else has changed in either memory; after a remote call the server memory is what the function makes of it, now if the call is awaited and otherwise once the server has run what it has been sent |
| Refinement.StepRefines | src/foreign_if/exrpc/exrpc.cc:1250-1459 | seen from outside, a step is the start of a call with its buffer filled, the whole effect of a returning call, or nothing |
| Refinement.RunRefines | src/foreign_if/exrpc/exrpc.cc:1250-1459 | every interleaving of transfers, over TCP and DMA, and of remote calls that write server memory, awaited or not, does to all memories what the sequence of copies and calls does, one after the other in the order of return |
| Refinement.SeenIsThere | src/foreign_if/exrpc/exrpc.cc:630-734 | and once nobody uses a connection and its server has nothing to do, that is what the server memory holds |
| DmaCopy.Transfer | src/foreign_if/exrpc/exrpc.cc:1224-1248 | the two copy loops of a DMA transfer together, on arrays: exactly the bytes of the payload arrive and nothing else of the target changes |
| DmaCopy.MoveBlock | src/foreign_if/exrpc/exrpc.cc:461-513 | one block arrives as it was through segment and DMA buffer, and the engine is only ever handed whole words |
| ShmPool.Pool.GetShm | src/foreign_if/exrpc/exrpc.cc:1115-1205 | every outcome of get_shm: which segment, what leaves the pool, what is on the clean-up list, for every failure of the system calls and whatever other threads do to the pool while the lock is given up for creating a segment |
| ShmPool.Pool.Take | src/foreign_if/exrpc/exrpc.cc:1182-1200 | the search and erase loop takes the segment that the state machine picks, and removes that one only |
| ShmPool.Pool.FindUsable | src/foreign_if/exrpc/exrpc.cc:1183-1190 | the first segment known usable for the node, or the end of the list if there is none |
| ShmPool.Pool.ReturnShm | src/foreign_if/exrpc/exrpc.cc:1207-1211 | the segment joins the end of the pool |
| Endian.NetworkOrder | src/foreign_if/exrpc/exrpc.hpp:190-208 | any host sends a 64-bit word most significant octet first, and any host loads it back |
| Endian.SwapReverses | src/foreign_if/exrpc/exrpc.hpp:190-199 | swap64 reverses the octets of a word |
| Endian.SwapTwice | src/foreign_if/exrpc/exrpc.hpp:190-199 | swap64 undoes itself |
| Framing.Socket.MyWrite | src/foreign_if/exrpc/exrpc.cc:52-63 | for every pattern of short writes exactly the given octets are written; it fails if and only if a system call fails, and then a proper prefix has been written |
| Framing.Socket.MyRead | src/foreign_if/exrpc/exrpc.cc:65-78 | for every pattern of short reads exactly the next n octets are consumed, in order; it fails if and only if a read fails or finds the stream closed, and then fewer have been consumed |
| Framing.Socket.SendRequest | src/foreign_if/exrpc/exrpc.cc:341-371 | a request written in one buffer and one written in three pieces are the same octets; unless a system call fails all are written, and otherwise a proper prefix |
| Framing.Socket.ReceiveRequest | src/foreign_if/exrpc/exrpc.cc:517-533 | what the server reads is the request at the front of the stream, and the rest is left; it fails if and only if a system call does |
| Framing.Socket.SendReply | src/foreign_if/exrpc/exrpc.cc:559-577 | the same as for requests |
| Framing.Socket.SendOnewayReply | src/foreign_if/exrpc/exrpc.cc:602-610 | a one-way call is answered by one octet, or by a full reply if it threw; it fails if and only if a system call does |
| Framing.Be4Octets | src/foreign_if/exrpc/exrpc.cc:353 | the length of a request header goes out most significant octet first |
| Framing.CallLayout | src/foreign_if/exrpc/exrpc.cc:341-371 | a request is that length, the header with the size of the argument in it, and the argument |
| Framing.ReplyLayout | src/foreign_if/exrpc/exrpc.cc:559-577 | a reply is 1 after an exception and otherwise 0, the size of its data in eight octets, most significant first, and the data |
| Framing.CallBack | src/foreign_if/exrpc/exrpc.cc:517-533 | a request is parsed back exactly, whatever follows it |
| Framing.CallsBack | src/foreign_if/exrpc/exrpc.cc:341-371 | requests written back to back are parsed back to the same sequence with nothing left over |
| Framing.ReplyBack | src/foreign_if/exrpc/exrpc_result.hpp:30-38 | a reply is read back exactly, between hosts of any two byte orders, whatever follows it |
| Framing.AnswersBack | src/foreign_if/exrpc/exrpc.cc:559-629 | the answers to calls of all kinds in any order: each caller in turn, with the parser of its own kind of call, reads exactly its own answer, and nothing is left over |
| Framing.OnewayBack | src/foreign_if/exrpc/exrpc_oneway.cc:10-19 | so is the answer of a one-way call, with and without exception |
| Client.ExrpcResult.Get | src/foreign_if/exrpc/exrpc_result.hpp:24-63 | the first get reads exactly one reply with the lock held and then releases it once, on success and on exception; if the reply of a server of any byte order is at the front of the connection, its data is the result, or the exception, and what follows is left; a second get is an error and changes nothing; the lock stays taken if and only if a system call fails |
| Client.CallOneway | src/foreign_if/exrpc/exrpc_oneway.cc:6-40 | the lock is taken before the request is written, held until the answer has been read, and then released once, on both paths; it stays taken if and only if a system call fails |
| Client.CallNoExcept | src/foreign_if/exrpc/exrpc_oneway_noexcept.cc:6-16 | nothing is read, and the lock is taken before the request is written and released once afterwards, unless a system call fails |
| Client.UsedWhileHeld | src/foreign_if/exrpc/exrpc.cc:331-339 | over every history of such calls each write and each read lies between a taking of the lock and its release |
| Client.GetsReply | src/foreign_if/exrpc/exrpc_result.hpp:30-61 | if the reply of a server of any byte order is at the front of the connection, get returns its data or throws its message and leaves what follows |
| Client.GetsOnewayReply | src/foreign_if/exrpc/exrpc_oneway.cc:10-38 | the same for one-way calls |
| Replies.AnyOutcome | src/foreign_if/exrpc/exrpc.cc:534-558 | the results are about every outcome: any data or exception of a known function, a call without exceptions not throwing, and any report of an unknown name |
| Replies.RawAnswers | src/foreign_if/exrpc/exrpc.cc:676-683 | a raw send over TCP is answered by a single 1, a raw receive by its data alone |
| Replies.OwnBack | src/foreign_if/exrpc/exrpc.cc:559-629 | whatever comes of a request whose caller waits, something is written, and a caller of that kind reads exactly that, between hosts of any byte order and whatever follows it: remote calls of all kinds, exceptions, unknown names, and raw transfers |
| Replies.ReadGrows | src/foreign_if/exrpc/exrpc_result.hpp:30-44 | what a caller has read is a front of the stream, and octets that arrive later do not change it, on any octets whatever |
| Rpc.InvKept | src/foreign_if/exrpc/exrpc.cc:310-371 | every step keeps the bookkeeping of requests issued, queued and served, and of the octets written and read: what is on the connection is all answers in order, less what has been read |
| Rpc.StaysInStep | src/foreign_if/exrpc/exrpc_oneway.cc:10-38 | if as many octets have been read as come before the next answer, this is so after every step but the sending of a call whose report nobody waits for |
| Rpc.ReadsOwn | src/foreign_if/exrpc/exrpc.cc:613-629 | in every reachable state a caller that can go on takes its own answer, from its first octet to its last, if and only if the octets read before it are as many as come before its answer; it then learns what came of its own request and leaves the connection empty; without an exception-free call of an unknown name before its own this is so |
| Rpc.Correlation | src/foreign_if/exrpc/exrpc.cc:530-629 | over every run: the reads follow one another without gap; each caller has read its own answer exactly under that condition and has then learned what came of its own request; every caller without a stray report before it has |
| Rpc.StrayShifts | src/foreign_if/exrpc/exrpc.cc:618-620 | where callers were in step up to a request for which something is written, they are not in step behind it until that has been read: the report of an unknown name that nobody waits for puts the next caller out of step |
| Rpc.LockOnce | src/foreign_if/exrpc/exrpc.cc:310-339 | at most one thread is between lock and unlock, and each call releases the lock exactly once, in lock order |
| Rpc.LockCoversReply | src/foreign_if/exrpc/exrpc_result.hpp:39-44 | when the lock is free, nothing is waiting to be read and the server will write nothing more, if and only if as many octets have been read as the answers so far have; without a stray report this is so |
| Rpc.NoDeadlock | src/foreign_if/exrpc/exrpc.cc:310-371 | as long as work is left some step other than a new call is possible, unless a caller waits for more octets than there are and the server has nothing left to do |
| Rpc.StuckExactly | src/foreign_if/exrpc/exrpc.cc:618-620 | work is left and nothing but new calls can happen if and only if the connection is jammed in that way; a caller in step, and a connection without a stray report, never is |
| Rpc.JammedForEver | src/foreign_if/exrpc/exrpc_result.hpp:30-38 | over every run a jammed connection stays jammed and its lock is not released again |
| RpcRuns.Misled | src/foreign_if/exrpc/exrpc_result.hpp:30-38 | for hosts of any byte order and any report: after an exception-free call of an unknown name, an async call with reply data, a one-way call and an async call with reply own, the last caller wants 256 times the size of data, plus its first octet, and has the two sizes and 9 |
| RpcRuns.MisreadJams | src/foreign_if/exrpc/exrpc_result.hpp:30-38 | the connection is then jammed if and only if it wants more than it has |
| RpcRuns.JamExample | src/foreign_if/exrpc/exrpc.cc:618-620 | such a run from an initial state that ends jammed |
| RpcRuns.ResyncExample | src/foreign_if/exrpc/exrpc.cc:618-620 | one that does not, and after which callers are in step again although a stray report came before |
| RpcRuns.StrayExample | src/foreign_if/exrpc/exrpc.cc:384-393 | a run in which an async caller is about to read the report of an earlier exception-free call of an unknown name |
| Service.Acceptor.Accept | src/foreign_if/exrpc/exrpc.cc:158-263 | for driver and worker and every answer of select: a connection that has been made is accepted before the pool is looked at, the oldest first, and joins the pool; otherwise the first pooled connection that is reported ready is taken; the answer is false exactly if the driver's client has gone |
| Service.Acceptor.FirstReady | src/foreign_if/exrpc/exrpc.cc:252-259 | the first connection of the pool that is reported ready is found, if there is one |
| Service.Acceptor.OneRequest | src/foreign_if/exrpc/exrpc.cc:741-746 | one request of one connection is served, the first not yet served there |
| Service.Acceptor.Serve | src/foreign_if/exrpc/exrpc.cc:994-998 | exactly the given number of requests is served, whatever select reports; on each connection the first ones sent, once each and in order; every accepted connection is in the pool once; if no more were sent, none is left |
| CrsMatrix.PushRow | samples/document_matrix/shrink_mat.cc:60-69 | appending a row's columns, values and offset appends exactly that row |
| ShrinkMat.EachWordCount | samples/document_matrix/shrink_mat.cc:19-30 | the number of elements of each column |
| ShrinkMat.GlobalWordCount | samples/document_matrix/shrink_mat.cc:105 | for every split of the rows over nodes and every order of reduction, the counts of the whole matrix |
| Shrink.ThresholdIs | samples/document_matrix/shrink_mat.cc:107 | a threshold below zero, compared as size_t, is above every count; any other is what it says |
| ShrinkMat.WordsToRemove | samples/document_matrix/shrink_mat.cc:106-110 | the strictly increasing list of exactly the words counted less often than the threshold |
| ShrinkMat.IdChange | samples/document_matrix/shrink_mat.cc:38-49 | the new id of each kept word is its rank among the kept ones; a removed one gets the value of -1 |
| Shrink.IdsBijective | samples/document_matrix/shrink_mat.cc:38-49 | the new ids are an order-preserving bijection onto 0, ..., k - 1 |
| Shrink.CompactAt | samples/document_matrix/shrink_mat.cc:123-131 | each kept word carries its label along to its new id |
| ShrinkMat.RenumberedBelow | samples/document_matrix/shrink_mat.cc:61-68 | no column outside the smaller matrix is emitted, and never the value of -1 as long as the columns can be numbered by a size_t |
| ShrinkMat.ShrinkLocal | samples/document_matrix/shrink_mat.cc:36-74 | one node's well-formed output is its rows without the removed words, renumbered, short rows left out; the list of removed articles is strictly increasing and exact |
| ShrinkMat.CompactLabels | samples/document_matrix/shrink_mat.cc:123-131 | the skipping loop removes exactly the labels of the listed numbers |
| ShrinkMat.MergeRemoved | samples/document_matrix/shrink_mat.cc:135-143 | the offset-adjusted list of all nodes is strictly increasing and lists exactly the short rows of the whole matrix |
| Shrink.ShortRowsUnique | samples/document_matrix/shrink_mat.cc:135-152 | there is only one such list, so it does not depend on the split over nodes |
| Shrink.ShrunkAppend | samples/document_matrix/shrink_mat.cc:112-115 | shrinking the nodes one by one and concatenating is shrinking the whole |
| Shrink.CountAppend | samples/document_matrix/shrink_mat.cc:10-17 | counts of two parts add up to the counts of both together |
| ShrinkMat.ShrinkMeaning | samples/document_matrix/shrink_mat.cc:50-71 | the labelled elements of the output are, in order, the elements of frequent words in articles that keep enough of them |
| ShrinkMat.ShrinkMatrix | samples/document_matrix/shrink_mat.cc:86-158 | the same for the whole tool, for every split over nodes and order of reduction, with a well-formed output |
| Bow.SparseMatrix.Append | samples/lda/convert_bow_data.cc:14-23 | appending vectors and shifted offsets appends the rows |
| BowWindow.Half.Put | samples/lda/convert_bow_data.cc:107-150 | a line goes into the window, or the full window is converted and the next begins; what is converted and what is in the window are always the direct conversions; it fails only if the first window is longer than its buffer |
| BowWindow.Half.Finish | samples/lda/convert_bow_data.cc:153-157 | after the last flush every document of the half is converted, and the matrix has as many rows as documents |
| BowWindow.Convert | samples/lda/convert_bow_data.cc:93-180 | for every window size both outputs are the direct conversions; the tool stays inside its buffers if and only if the first test window is no longer than the first training window |
| BowWindow.Overrun | samples/lda/convert_bow_data.cc:93-180 | a valid input of three documents with which it does not |
| BowWindow.PartMembers | samples/lda/convert_bow_data.cc:111-134 | the first test documents are the test half, and the others, numbered from 0, the training half |
| BowWindow.OutputHolds | samples/lda/convert_bow_data.cc:107-180 | with distinct pairs and positive counts, row d of the training matrix holds exactly the words and counts of document test + d, and row d of the test matrix those of document d |
| BowWindow.DirectHolds | samples/lda/convert_bow_data.cc:107-150 | with distinct pairs and positive counts the direct conversion holds exactly the words and counts of the document |
| BowWindow.SparseSorted | samples/lda/convert_bow_data.cc:118 | its columns increase strictly |
| Wiki.Trim | samples/wikipedia2matrix/wikipedia2matrix.cc:74-83 | the first run of letters of a token |
| Wiki.CountAllCounts | samples/wikipedia2matrix/wikipedia2matrix.cc:99-106 | every word of a document is listed once, in order, with the number of its occurrences |
| Wiki.ParseDoc | samples/wikipedia2matrix/wikipedia2matrix.cc:86-111 | the title and counts of a text, as the lemmas of `WikiText` describe them, and the node's set grows by exactly its words |
| WikiText.DocParts | samples/wikipedia2matrix/wikipedia2matrix.cc:86-97 | the title stands between the first title mark and the first closing mark of the text, or reaches to the end if the latter comes first; the words are those behind it |
| WikiText.NoDoc | samples/wikipedia2matrix/wikipedia2matrix.cc:87-96 | a text without one of the two marks has neither title nor words |
| WikiText.TokensBack | samples/wikipedia2matrix/wikipedia2matrix.cc:62-72 | whatever pieces without blanks a text is put together from, with blanks between any two, are its tokens, in order |
| WikiText.TextWoven | samples/wikipedia2matrix/wikipedia2matrix.cc:62-72 | and every text is put together like that |
| WikiText.WordsNext | samples/wikipedia2matrix/wikipedia2matrix.cc:99-104 | a token stands for its first run of letters, in small letters, or for no word if it has no letter, and the words of a text are those of its tokens in order |
| WikiText.TokenHas | samples/wikipedia2matrix/wikipedia2matrix.cc:74-83 | every token has such a run |
| WikiText.WordsSmall | samples/wikipedia2matrix/wikipedia2matrix.cc:99-104 | every word is non-empty and consists of small letters |
| WikiText.CaseIgnored | samples/wikipedia2matrix/wikipedia2matrix.cc:103 | the words do not change if letters of the text change case |
| Wiki.BuildDictionary | samples/wikipedia2matrix/wikipedia2matrix.cc:156-165 | the reduced dictionary is strictly sorted and holds exactly the words of all documents, for every partition and order of reduction |
| Wiki.DictionaryUnique | samples/wikipedia2matrix/wikipedia2matrix.cc:165 | such a dictionary is determined by the words of the documents |
| Wiki.DictionaryOfKept | samples/wikipedia2matrix/wikipedia2matrix.cc:160 | dropping the documents without words does not change it |
| Wiki.KeptOften | samples/wikipedia2matrix/wikipedia2matrix.cc:160 | every document with words is kept, as often as it is there, and no other |
| Strings.UnionSorted | samples/wikipedia2matrix/wikipedia2matrix.cc:127-134 | the union of two strictly sorted lists is strictly sorted |
| Strings.LessFirst | samples/wikipedia2matrix/wikipedia2matrix.cc:127-134 | strings are ordered by the first character in which they differ, and a string comes after its own front |
| Strings.UnionMembers | samples/wikipedia2matrix/wikipedia2matrix.cc:127-134 | and has exactly their members |
| Wiki.RowDecodes | samples/wikipedia2matrix/wikipedia2matrix.cc:136-144 | every position is in range, columns increase strictly, and the dictionary decodes the row to the document's words and counts |
| Wiki.MakeMatrix | samples/wikipedia2matrix/wikipedia2matrix.cc:160-184 | so for every kept document, in whatever order the sort leaves them; no row is empty, as the output loop needs |
| Words.CreateWords | src/foreign_if/server/expose_dvector.cc:104-128 | fails exactly if the size is not a multiple of itemsize; otherwise word i starts with slot i and is as long as the slot has non-zero elements |
| Words.LowerBoundCounts | src/foreign_if/server/expose_dvector.cc:110-115 | lower_bound in the list of non-zero positions counts the non-zero elements before a slot |
| Words.InsideSlot | src/foreign_if/server/expose_dvector.cc:112-120 | every word stays inside its slot |
| Words.LensSum | src/foreign_if/server/expose_dvector.cc:117-120 | the words of any number of first slots are together as long as those slots have non-zero elements |
| Words.DecodesExactly | src/foreign_if/server/expose_dvector.cc:104-128 | a word is a given zero-free string if and only if its slot is that string padded with zeros |
| Words.DecodesAll | src/foreign_if/server/expose_dvector.cc:104-128 | decoding inverts padding |
| Svd.RearrangeVector | src/foreign_if/server/exrpc_svd.hpp:47-56 | the vector is reversed in place |
| Svd.RearrangeColmajor | src/foreign_if/server/exrpc_svd.hpp:26-40 | the columns of a block are reversed in place, for odd and even numbers of columns |
| Svd.MirroredTwice | src/foreign_if/server/exrpc_svd.hpp:26-40 | doing so twice gives the block back |
| Svd.RearrangedTwice | src/foreign_if/server/exrpc_svd.hpp:58-65 | rearranging the whole output twice gives it back |
| Svd.ProductKept | src/foreign_if/server/exrpc_svd.hpp:58-65 | every element of the product of U, the diagonal of s and the transpose of V is what it was |
| Svd.RearrangeSvdOutput | src/foreign_if/server/exrpc_svd.hpp:58-65 | the same for the whole call, for every distribution of the rows of U and V over nodes |

## Left out

- Sockets, name lookup, process start, signals, exit handlers, and the calls that create, attach and remove segments: success or failure of each is a choice of the environment.
- exrpc without DMA support compiled in, and the finalize request: no agreement about a transfer is needed there.
- C++ memory-model details, such as iterators used after an unlock and the unlocked test of the client's host name: a table lookup is one atomic step.
- What remote calls compute: in `Transport` a call is one packet, its answer another, and its function writes any bytes anywhere in the memory of its server, chosen anew for every call, so they may depend on what is there; what it returns is left open, and calls of unknown names without exceptions do not occur. `Rpc` models those calls, and the answers of all calls as octets.
- Raw transfers in `Rpc`: those over TCP of a client that has nothing to negotiate, because DMA is not compiled in or the server type is known; shared memory and DMA are the subject of `Transport`, where no stray report occurs.
- The build option that makes the client print a server's exception instead of throwing it: `Client` models the throw.
- Failing I/O in the middle of a transfer or call between many threads: only the client's own contracts in `Client` and `Framing` cover it.
- The wrapper templates that differ in the number of arguments, the lists of exposed functions, and all numerical wrappers.
- DmaCopy.Transfer: runs the client's and the server's loop in the one order that start and finish messages allow, because `Transport` and `Refinement` cover all other interleavings.
- DmaCopy.Memcpy: source and target are different arrays, as in the code.
- Libraries are given by what they promise: `lower_bound`, `binary_search`, `set_union`, `strtok`, `std::map`, `to_crs`, `reduce`, `gather`, scatter and sort.
- BowWindow.Half.Put: the flat buffer is a sequence of rows, so an index outside the buffer is a row outside it; word ids are in range in a valid input.
- Bow.SparseMatrix.Append: offsets are unbounded numbers, while the code holds the last one in an `int`.
- ShrinkMat.ShrinkLocal: no claim is made that shrinking a shrunk matrix changes nothing; after short articles are dropped a kept word may be rare again.
- Wiki.ParseDoc: letters are those of the C locale, and reading the files is not modelled.
- Svd.ProductKept: numbers are exact, not floating point.
- The files themselves, command lines, timing, tf-idf weights and row normalisation.
