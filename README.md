# cobra reactor core, modelled in Dafny

This project models the sequential bookkeeping of **cobra**, a multi-reactor
TCP engine with one event loop per thread. The model covers these parts:

- **Buffer** (`bytes.dfy`, `buffer.dfy`): the growable byte vector with a
  prependable, a readable and a writable region. Its content is a
  `seq<Byte>` with two cursors. The model covers append/retrieve/prepend,
  compaction versus growth, the CRLF/EOL searches, the big-endian
  8/16/32-bit codecs and the cursor arithmetic of the two-iovec `readFd`.
- **Channel** (`channel.dfy`): the `poll` interest mask and its mutators.
  It also covers the fixed-order dispatch from `revents` to the close,
  error, read and write callbacks, the "tied owner alive" guard, and the
  empty-mask rule for `remove()`.
- **TcpConnection** (`tcp_connection.dfy`): the four-state lifecycle and
  the output-buffer / write-interest protocol. It also covers the
  high-water-mark crossing rule and the deferred write half-close.
- **Connector** (`connector.dfy`): the classification of the `connect`
  errno, the three-state machine, and exponential back-off from 500 ms,
  capped at 30000 ms.
- **Worker / EventLoop** (`event_loop.dfy`): the per-thread slot, the
  `runInLoop`/`queueInLoop` wake-up rule, and the swap-then-run batches of
  `doPendingFunctors`. Each iteration dispatches the active channels first
  and then runs the pending tasks.
- **Loop pool, server registry and client** (`pool.dfy`, `server.dfy`,
  `client.dfy`): round-robin `getNextLoop`, and the connection map with
  increasing ids and truncating names. The client keeps one current
  connection and reconnects by rule.
- **HttpContext** (`http_context.dfy`): the parse-state machine. Its two
  identical copies share one model.

Duplicated sources share one model. `cobra/worker.cpp` and
`cobra/event_loop.cpp` are `Loops.EventLoop`. `cobra/tcp_server.cpp` and
`cobra/server.cpp` are `Servers.TcpServer`. `cobra/http/HttpContext.h` and
`cobra/net/http/HttpContext.h` are `HttpContexts.HttpContext`.

System calls are not performed. Their results are parameters:

- the `write` result (`Connections.WriteOutcome`);
- the `readv` result (`NetBuffer.ReadvOutcome`, at most the iovec capacity);
- the `connect` errno, `SO_ERROR` and the self-connect addresses;
- the sockets handed over by accept and connect.

Thread identity is a boolean `inLoopThread`. The weak-pointer lock behind
`tie` is a boolean `ownerAlive`. Things a component asks of its loop or of
the socket layer are appended to an `effects` or `log` sequence:

- queued or scheduled callbacks;
- `shutdownWrite`, `close`, wake-ups;
- `updateChannel`/`removeChannel` requests.

Integers are unbounded. The codecs state the `int8_t`/`int16_t`/`int32_t`
ranges explicitly with `FitsSigned`.

## Model

| member | source | states |
|---|---|---|
| Bytes.DecodeEncodeSigned | cobra/buffer.h:180-238 | Encoding a signed value of width 1, 2 or 4 in network byte order and decoding it gives the value back, negative values included |
| Bytes.EncodeDecodeSigned | cobra/buffer.h:220-238 | Every byte pattern of the width is the big-endian encoding of the value it decodes to |
| Bytes.FromBigEndianOfBigEndian | cobra/buffer.h:180-188 | Big-endian unsigned encoding followed by decoding is the identity |
| Bytes.BigEndianOfFromBigEndian | cobra/buffer.h:220-232 | Decoding bytes and re-encoding them at the same width restores the bytes |
| Bytes.Decimal | cobra/tcp_server.cpp:71 | `%d` of a non-negative id is a non-empty string of digits, one digit long exactly for ids below 10 |
| Bytes.DecimalInjective | cobra/server.cpp:70 | Distinct ids print as distinct digit strings |
| NetBuffer.SearchCrlf | cobra/buffer.h:67 | `std::search` for "\r\n" in a range: the first pair lying wholly inside the range, or none if no pair is there |
| NetBuffer.SearchByte | cobra/buffer.h:79 | `memchr`: the first index holding the byte, or none if no index in range holds it |
| NetBuffer.EolFromAsWritten | cobra/buffer.h:83-88 | `findEOL(start)` as written scans `readableBytes()` bytes from `start`. `Found` is the first '\n' in that window, which may lie at or past the write cursor. `NotFound` means the window fits the vector and holds no '\n'. `Overrun` means the window leaves the vector with no '\n' before its end |
| NetBuffer.EolFromWithin | cobra/buffer.h:83-88 | The intended `findEOL(start)`: the first '\n' in `[start, writerIndex)`, or none if the range holds no '\n' |
| NetBuffer.EolFromAgreesAtBeginRead | cobra/buffer.h:78-88 | Scanning from `BeginRead()`, the as-written and the intended search agree |
| NetBuffer.EolFromReadsPastContent | cobra/buffer.h:86 | A stale '\n' just past the content is reported by `findEOL(start)`, although the intended search finds none |
| NetBuffer.IovCount | cobra/buffer.cpp:27-29 | Two iovecs exactly when the writable tail is shorter than the 65536-byte scratch area, else one |
| NetBuffer.ReadvCapacity | cobra/buffer.cpp:19-29 | The most `readv` can return: the writable tail, plus 65536 when the scratch area is passed |
| NetBuffer.Buffer.Contents | cobra/buffer.h:21-27 | The readable region has exactly `writerIndex - readerIndex` bytes |
| NetBuffer.Buffer.constructor | cobra/buffer.h:33-40 | A fresh buffer is empty, with 1024 writable and 8 prependable bytes |
| NetBuffer.Buffer.ReadableBytes | cobra/buffer.h:48-50 | Readable bytes are the length of the content |
| NetBuffer.Buffer.WritableBytes | cobra/buffer.h:52-54 | prependable + readable + writable == size of the vector |
| NetBuffer.Buffer.PrependableBytes | cobra/buffer.h:56-58 | prependable + readable == writerIndex |
| NetBuffer.Buffer.Swap | cobra/buffer.h:42-46 | The two buffers exchange vector and both cursors |
| NetBuffer.Buffer.FindCRLF | cobra/buffer.h:66-69 | The first "\r\n" lying wholly in the readable region; none exactly when the region holds no such pair |
| NetBuffer.Buffer.FindCRLFFrom | cobra/buffer.h:71-76 | Same as FindCRLF, searching from `start` in `[BeginRead(), BeginWrite()]` |
| NetBuffer.Buffer.FindEOL | cobra/buffer.h:78-81 | The first '\n' in the readable region; none exactly when the region holds no '\n' |
| NetBuffer.Buffer.FindEOLFrom | cobra/buffer.h:83-88 | As written: a hit is the first '\n' within `readableBytes()` of `start`, which may be past the content. `NotFound` means that window fits the vector and holds no '\n'. `Overrun` means no '\n' before the vector ends |
| NetBuffer.Buffer.Retrieve | cobra/buffer.h:93-100 | With `len <= readable`, the content loses its first `len` bytes. If `len < readable` the read cursor advances by `len`; if equal, both cursors reset to 8 |
| NetBuffer.Buffer.RetrieveAll | cobra/buffer.h:120-123 | Both cursors go back to 8 and the content is empty |
| NetBuffer.Buffer.RetrieveUntil | cobra/buffer.h:102-106 | The content becomes the bytes from `end` to the write cursor |
| NetBuffer.Buffer.RetrieveInt32 | cobra/buffer.h:108-110 | The content loses its first 4 bytes |
| NetBuffer.Buffer.RetrieveInt16 | cobra/buffer.h:112-114 | The content loses its first 2 bytes |
| NetBuffer.Buffer.RetrieveInt8 | cobra/buffer.h:116-118 | The content loses its first byte |
| NetBuffer.Buffer.RetrieveAsString | cobra/buffer.h:129-136 | Returns exactly the first `len` content bytes; old content == result + new content |
| NetBuffer.Buffer.RetrieveAllAsString | cobra/buffer.h:125-127 | Returns the whole content and leaves the buffer empty with both cursors at 8 |
| NetBuffer.Buffer.MakeSpace | cobra/buffer.h:291-306 | Called with `writable < len`, it keeps the content and leaves at least `len` writable bytes. With too little slack the vector grows to `writerIndex + len`. Otherwise it compacts in place to read cursor 8, and there the `kCheapPrepend < readerIndex_` assertion is proved |
| NetBuffer.Buffer.EnsureWritableBytes | cobra/buffer.h:156-162 | Afterwards `writable >= len` and the content is unchanged. Nothing moves if it already fit; otherwise it grows or compacts as MakeSpace does |
| NetBuffer.Buffer.HasWritten | cobra/buffer.h:173-175 | The write cursor advances by `len`, adding the bytes already there to the content |
| NetBuffer.Buffer.Append | cobra/buffer.h:146-150 | The new content is the old content followed by `data` |
| NetBuffer.Buffer.Prepend | cobra/buffer.h:257-262 | With `len <= prependable`, the read cursor moves back by `len` and the content becomes `data` followed by the old content |
| NetBuffer.Buffer.Shrink | cobra/buffer.h:264-270 | The content is kept with read cursor 8, at least `reserve` writable bytes, and the size a fresh buffer grown for it would have |
| NetBuffer.Buffer.AppendInt32 | cobra/buffer.h:180-183 | Appends the 4-byte network-order encoding of `x` |
| NetBuffer.Buffer.AppendInt16 | cobra/buffer.h:185-188 | Appends the 2-byte network-order encoding of `x` |
| NetBuffer.Buffer.AppendInt8 | cobra/buffer.h:190-192 | Appends the 1-byte encoding of `x` |
| NetBuffer.Buffer.PeekInt32 | cobra/buffer.h:220-225 | With at least 4 readable bytes, the int32 whose encoding opens the content; cursors unchanged |
| NetBuffer.Buffer.PeekInt16 | cobra/buffer.h:227-232 | With at least 2 readable bytes, the int16 whose encoding opens the content |
| NetBuffer.Buffer.PeekInt8 | cobra/buffer.h:234-238 | With at least 1 readable byte, the int8 whose encoding opens the content |
| NetBuffer.Buffer.ReadInt32 | cobra/buffer.h:198-202 | Returns the int32 whose encoding opened the content and removes those 4 bytes |
| NetBuffer.Buffer.ReadInt16 | cobra/buffer.h:204-208 | Returns the int16 whose encoding opened the content and removes those 2 bytes |
| NetBuffer.Buffer.ReadInt8 | cobra/buffer.h:210-214 | Returns the int8 that opened the content and removes that byte |
| NetBuffer.Buffer.PrependInt32 | cobra/buffer.h:243-246 | The content becomes the encoding of `x` followed by the old content |
| NetBuffer.Buffer.PrependInt16 | cobra/buffer.h:248-251 | The content becomes the 2-byte encoding of `x` followed by the old content |
| NetBuffer.Buffer.PrependInt8 | cobra/buffer.h:253-255 | The content becomes the 1-byte encoding of `x` followed by the old content |
| NetBuffer.Buffer.ReadFd | cobra/buffer.cpp:17-46 | The result is the `readv` count, or negative with errno saved and cursors untouched. With `n <= writable` the write cursor moves by `n` and nothing grows. Any larger `n` needed the scratch area. Either way the content gains exactly the `n` bytes in order, and the branch for `n` beyond both iovecs is unreachable |
| NetBuffer.AppendRetrieveFifo | cobra/buffer.h:129-150 | Two appends, then retrieving the first length and the rest, give back both pieces in order and empty the buffer |
| NetBuffer.IntRoundTrip | cobra/buffer.h:180-238 | `appendIntN(x)` then `readIntN()` returns `x` for N = 8, 16, 32, negative values included |
| NetBuffer.LengthPrefixedFrame | cobra/buffer.h:243-262 | A payload with its length prepended by `prependInt32` reads back as that length, then the payload |
| Channels.DispatchFiresIff | cobra/channel.cpp:60-85 | Close fires iff POLLHUP without POLLIN; error iff POLLERR or POLLNVAL; read iff POLLIN, POLLPRI or POLLRDHUP, carrying the timestamp; write iff POLLOUT. Each needs its slot set |
| Channels.DispatchOrdered | cobra/channel.cpp:56-88 | The callbacks of one report run in the order close, error, read, write, each at most once |
| Channels.HangupWithDataReads | cobra/channel.cpp:60-81 | A hang-up with POLLIN still set is handled as a read, not a close |
| Channels.Channel.constructor | cobra/channel.cpp:15-24 | A new channel has mask 0, revents 0, index -1, is untied and not handling an event |
| Channels.Channel.SetReadCallback | cobra/channel.h:36 | Fills the read slot only |
| Channels.Channel.SetWriteCallback | cobra/channel.h:40 | Fills the write slot only |
| Channels.Channel.SetCloseCallback | cobra/channel.h:44 | Fills the close slot only |
| Channels.Channel.SetErrorCallback | cobra/channel.h:48 | Fills the error slot only |
| Channels.Channel.Tie | cobra/channel.cpp:30-33 | The channel becomes tied; nothing else changes |
| Channels.Channel.SetRevents | cobra/channel.h:58 | Records the poller's readiness mask |
| Channels.Channel.Update | cobra/channel.cpp:35-37 | Sends exactly one update request carrying the current mask |
| Channels.Channel.EnableReading | cobra/channel.h:62-68 | ORs in POLLIN/POLLPRI, keeps the write bit, and updates once |
| Channels.Channel.EnableWriting | cobra/channel.h:70-73 | Sets POLLOUT so the channel is writing, keeps read interest, and updates once |
| Channels.Channel.DisableWriting | cobra/channel.h:74-77 | Clears only POLLOUT so the channel is not writing, keeps read interest, and updates once |
| Channels.Channel.DisableAll | cobra/channel.h:78-81 | The mask becomes empty (`isNoneEvent`) and the channel updates once |
| Channels.Channel.Remove | cobra/channel.cpp:39-42 | Requires an empty mask and sends one remove request |
| Channels.Channel.Invoke | cobra/channel.cpp:65-84 | Runs one callback, only while an event is being handled |
| Channels.Channel.RunCallbacks | cobra/channel.cpp:60-85 | Runs the selected callbacks in dispatch order |
| Channels.Channel.HandleEventWithGuard | cobra/channel.cpp:56-88 | Runs exactly the callbacks the dispatch rule selects, in order. `eventHandling` is on during the run and off afterwards |
| Channels.Channel.HandleEvent | cobra/channel.cpp:44-54 | A tied channel whose owner is gone runs nothing; otherwise, and always when untied, it dispatches |
| Connections.CrossingsOfGrowth | cobra/tcp_connection.cpp:144-149 | While buffered output only grows, the crossing rule fires at most once. It fires exactly once iff the mark lies above the first length and at or below the last |
| Connections.StreamSplice | cobra/tcp_connection.cpp:121-154 | A direct write of a prefix (only with nothing queued) followed by queueing the rest keeps the byte stream in order |
| Connections.TcpConnection.constructor | cobra/tcp_connection.cpp:32-59 | A new connection is Connecting with a 64 MiB high-water mark, an empty mask and all four channel slots set |
| Connections.TcpConnection.SetWriteCompleteCallback | cobra/tcp_connection.h:67-68 | Registers the write-complete callback |
| Connections.TcpConnection.SetHighWaterMarkCallback | cobra/tcp_connection.h:72-76 | Registers the high-water callback and sets the mark |
| Connections.TcpConnection.WriteDirectly | cobra/tcp_connection.cpp:121-140 | Written bytes go on the wire and a complete write queues write-complete. EPIPE/ECONNRESET is a fault; would-block is not |
| Connections.TcpConnection.BufferRemainder | cobra/tcp_connection.cpp:142-154 | The high-water callback is queued iff `oldLen < mark <= oldLen + remaining`. The remainder is appended and write interest is on |
| Connections.TcpConnection.SendInLoop | cobra/tcp_connection.cpp:112-155 | In Disconnected, nothing changes. A direct write is tried only when not writing and the buffer is empty. A fault drops the bytes. Otherwise the stream grows by exactly `data` and any unwritten remainder enables write interest. Write-complete and high-water are queued per the rules |
| Connections.TcpConnection.SendWhileUp | cobra/tcp_connection.cpp:121-154 | The same as SendInLoop, for a connection that is up or going down |
| Connections.TcpConnection.SendDirect | cobra/tcp_connection.cpp:121-154 | With nothing queued, writes directly and buffers what is left; the stream keeps its order |
| Connections.TcpConnection.SendQueued | cobra/tcp_connection.cpp:142-154 | Behind queued bytes, everything is appended; the wire is untouched |
| Connections.TcpConnection.Send | cobra/tcp_connection.cpp:66-91 | A no-op unless Connected. Off-thread it hands the bytes to the loop; On-thread, an EPIPE/ECONNRESET fault leaves stream, wire and effects unchanged. Otherwise the stream grows by `data` and the wire by the directly written prefix. Write interest is on when bytes remain. Write-complete is queued on a complete direct write, and high-water exactly when the buffered length crosses the mark |
| Connections.TcpConnection.SendBuffer | cobra/tcp_connection.cpp:94-106 | Like Send on the buffer's readable bytes, with the same fault, wire and write-complete/high-water rules on the loop thread. A connected send always empties the source buffer |
| Connections.TcpConnection.ShutdownInLoop | cobra/tcp_connection.cpp:167-175 | Half-closes only when not writing, so buffered output is never cut off |
| Connections.TcpConnection.Shutdown | cobra/tcp_connection.cpp:157-165 | Connected becomes Disconnecting, then half-closes in the loop. Any other state is unchanged |
| Connections.TcpConnection.ConnectEstablished | cobra/tcp_connection.cpp:182-195 | Requires Connecting. Moves to Connected, ties the channel, enables reading once and calls the connection callback once |
| Connections.TcpConnection.ConnectDestroyedAsWritten | cobra/tcp_connection.cpp:197-207 | As written: only a Connected connection clears its mask before `remove()`. The empty-mask assertion holds iff the state was Connected or the mask was already empty |
| Connections.TcpConnection.ConnectDestroyed | cobra/tcp_connection.cpp:197-207 | Corrected: Connected or Disconnecting goes down, clears the mask and reports down. Then `remove()` always meets its precondition |
| Connections.TcpConnection.HandleError | cobra/tcp_connection.cpp:275-279 | Reports the socket's SO_ERROR; the state is unchanged |
| Connections.TcpConnection.HandleClose | cobra/tcp_connection.cpp:261-273 | From Connected or Disconnecting: becomes Disconnected and clears the mask. Then the connection callback runs, and the close callback last |
| Connections.TcpConnection.HandleRead | cobra/tcp_connection.cpp:211-229 | The input buffer gains the bytes read. `n > 0` calls the message callback; `n == 0` closes; `n < 0` reports the error |
| Connections.TcpConnection.HandleWrite | cobra/tcp_connection.cpp:231-259 | Only while writing and for `n > 0`: exactly the `n` written bytes leave the buffer, in order. A drained buffer disables writing, queues write-complete and, when Disconnecting, half-closes |
| Connections.TcpConnection.Drain | cobra/tcp_connection.cpp:237-247 | Moves `n` buffered bytes to the wire, keeping the stream; finishes up iff the buffer empties |
| Connections.TcpConnection.FinishDrain | cobra/tcp_connection.cpp:239-247 | Disables writing, queues write-complete if registered and half-closes if Disconnecting |
| Connections.DestroyWhileDisconnecting | cobra/tcp_connection.cpp:197-207 | A connection established and then shut down reaches `remove()` in `connectDestroyed` with reading still enabled |
| Connections.DestroyWhileDisconnectingCorrected | cobra/tcp_connection.cpp:197-207 | With the corrected teardown the same connection ends Disconnected with an empty mask |
| Connectors.Classify | cobra/connector.cpp:61-99 | 0, EINPROGRESS, EINTR and EISCONN are in progress. EAGAIN, EADDRINUSE, EADDRNOTAVAIL, ECONNREFUSED and ENETUNREACH retry. Every other errno is fatal |
| Connectors.ListedAndUnlistedAreFatal | cobra/connector.cpp:82-97 | The listed fatal errnos and every unlisted value close the socket without a retry |
| Connectors.NextDelay | cobra/connector.cpp:181 | `min(2*d, 30000)` never shrinks a delay below the cap and keeps it within [500, 30000] |
| Connectors.DelayAfter | cobra/connector.cpp:22 | After any number of retries the delay lies within [500, 30000] |
| Connectors.DelaySchedule | cobra/connector.cpp:173-185 | Consecutive retries wait 500, 1000, 2000, 4000, 8000, 16000 ms and then 30000 ms for ever |
| Connectors.Connector.constructor | cobra/connector.cpp:17-24 | A new connector is Disconnected, does not want to connect, and has delay 500 and no channel |
| Connectors.Connector.Retry | cobra/connector.cpp:173-185 | Closes the socket and becomes Disconnected. Only if `connect_` is set does it schedule `startInLoop` after the current delay and double the delay up to the cap |
| Connectors.Connector.EnterConnecting | cobra/connector.cpp:109-121 | With no channel: Connecting, with a fresh channel interested in writing only |
| Connectors.Connector.Connect | cobra/connector.cpp:61-99 | In progress: Connecting. Retryable: Retry. Fatal: close only |
| Connectors.Connector.StartInLoop | cobra/connector.cpp:36-44 | Requires Disconnected and does nothing unless `connect_` is set. In progress: Connecting with a fresh channel on the socket, delay kept. Retryable: Disconnected, the socket closed, a restart scheduled after the current delay and the delay doubled. Fatal: Disconnected with only the socket closed |
| Connectors.Connector.Start | cobra/connector.cpp:31-34 | Sets `connect_`. Off-thread it hands `startInLoop` to the loop. On the loop thread it connects at once with StartInLoop's outcome per errno class. In progress is Connecting with a fresh channel. Retryable and fatal errnos leave it Disconnected with no channel. Retryable closes, schedules a restart after the current delay and doubles the delay. Fatal only closes |
| Connectors.Connector.Restart | cobra/connector.cpp:101-107 | Resets to Disconnected with delay 500 and `connect_` set, then starts. In progress: Connecting with a fresh channel, delay 500 and no new effects. Retryable: Disconnected, socket closed, restart scheduled after 500 ms and the delay 1000. Fatal: Disconnected, socket closed, delay 500. Any prior state, Connected included, is left |
| Connectors.Connector.Stop | cobra/connector.cpp:46-50 | Clears `connect_` and queues `stopInLoop` |
| Connectors.Connector.RemoveAndResetChannel | cobra/connector.cpp:123-130 | Clears the mask, removes the channel, returns its fd and queues `resetChannel` |
| Connectors.Connector.ResetChannel | cobra/connector.cpp:132-134 | Drops the lingering channel |
| Connectors.Connector.StopInLoop | cobra/connector.cpp:52-59 | From Connecting: Disconnected by way of Retry, with the channel reset and the socket closed. After `stop` it schedules nothing. If `connect_` was set again, it schedules `startInLoop` after the current delay and doubles the delay up to the cap. In other states nothing changes |
| Connectors.Connector.HandleWrite | cobra/connector.cpp:136-161 | In Connecting, SO_ERROR or a self-connect retries: the socket is closed, and with `connect_` set a restart is scheduled after the current delay and the delay doubles up to the cap. Otherwise the state becomes Connected and the socket is handed over iff `connect_`, else closed. In Disconnected it is ignored |
| Connectors.Connector.HandleError | cobra/connector.cpp:163-171 | An error while Connecting retries; in other states nothing changes |
| Loops.Wakeups | cobra/worker.cpp:184-190 | `n` wake-ups are `n` entries, each a wakeup |
| Loops.RunLogRunsBatchInOrder | cobra/worker.cpp:200-215 | One pass runs exactly the swapped-out tasks, in FIFO order, each once, and every task they queue wakes the loop |
| Loops.RoundDispatchesFirst | cobra/worker.cpp:90-108 | Within an iteration every channel dispatch precedes every pending-task run |
| Loops.RoundsStep | cobra/event_loop.cpp:90-108 | An iteration ends the loop iff a channel callback or a task in its batch quits; otherwise the next iteration starts from the tasks that batch queued |
| Loops.EventLoop.constructor | cobra/worker.cpp:50-74 | Requires the thread's slot to be empty and claims it. The wakeup channel is always reading |
| Loops.EventLoop.Destroy | cobra/event_loop.cpp:76-81 | Clears the thread's slot |
| Loops.EventLoop.WakeUp | cobra/event_loop.cpp:184-190 | Records one wake-up; nothing else changes |
| Loops.EventLoop.Quit | cobra/worker.cpp:114-122 | Sets `quit`; wakes the loop iff called off-thread |
| Loops.EventLoop.QueueInLoop | cobra/worker.cpp:132-141 | Appends the task. Wakes the loop iff the caller is off-thread or pending functors are being called |
| Loops.EventLoop.RunTask | cobra/worker.cpp:209-212 | A functor body runs once, queues its tasks and may quit |
| Loops.EventLoop.RunInLoop | cobra/event_loop.cpp:124-130 | On the loop thread the task runs at once; off-thread it is queued with a wake-up |
| Loops.EventLoop.DoPendingFunctors | cobra/event_loop.cpp:200-215 | Swaps the list out and runs it in order. Tasks queued meanwhile are left pending for the next iteration. The flag is on exactly during the pass |
| Loops.EventLoop.DispatchActive | cobra/worker.cpp:95-105 | Handles every active channel in reported order with the poll time, tracking the current channel. `quit` becomes set iff a callback called `quit()` |
| Loops.EventLoop.DispatchOne | cobra/event_loop.cpp:96-102 | The channel becomes current and handles its event; its callbacks queue their tasks and may call `quit()` |
| Loops.EventLoop.Iterate | cobra/event_loop.cpp:90-108 | One iteration: dispatch, then run the pending functors, those queued by handlers included. Afterwards `quit` is set iff it was, or a callback or functor of the iteration quit |
| Loops.EventLoop.Run | cobra/worker.cpp:83-112 | Requires not looping. The whole log and what stays pending are those of successive iterations until a channel callback or a functor quits |
| Loops.EventLoop.RemoveChannel | cobra/worker.cpp:167-176 | During event handling, only the current channel or one not reported active may be removed |
| Pools.PicksBalanced | cobra/worker_thread_pool.cpp:42-49 | After `n` picks over `k` loops each loop has been picked `n / k` times, and the first `n mod k` loops once more |
| Pools.NextResidue | cobra/worker_thread_pool.cpp:45-48 | Incrementing and wrapping at `k` is the successor modulo `k` |
| Pools.WorkerThreadPool.constructor | cobra/worker_thread_pool.cpp:10-15 | A new pool is not started, with 0 threads, cursor 0 and no loops |
| Pools.WorkerThreadPool.SetThreadNum | cobra/worker_thread_pool.h:25 | Sets the configured thread count |
| Pools.WorkerThreadPool.Start | cobra/worker_thread_pool.cpp:20-36 | Requires not started, then sets it. Creates one loop per configured thread, so `loops.size() == max(numThreads, 0)`. With 0 threads an init callback runs once on the base loop |
| Pools.WorkerThreadPool.GetNextLoop | cobra/worker_thread_pool.cpp:38-52 | With no loops, the base loop. Otherwise the `i`-th pick is `loops[i mod k]`, with `0 <= next < k` kept |
| Servers.Truncate | cobra/tcp_server.cpp:70-71 | `snprintf` keeps a prefix of at most 31 characters, the whole text when it fits |
| Servers.NamesUnique | cobra/tcp_server.cpp:70-73 | While the suffixes fit, two ids give the same connection name iff they are equal |
| Servers.FitsBelow | cobra/server.cpp:69-71 | If an id's suffix fits, so does every smaller id's |
| Servers.DecimalLengthMonotone | cobra/server.cpp:70 | Larger ids never print shorter |
| Servers.NamesCollideWhenTruncated | cobra/server.cpp:69-72 | Once truncated, names repeat: ids 100000000 and 10000000 give the same name for the longest address |
| Servers.Teardown | cobra/server.cpp:36-43 | One teardown request per listed connection |
| Servers.TeardownRequests | cobra/tcp_server.cpp:37-44 | The `i`-th teardown request is `connectDestroyed` for the `i`-th connection, on its own loop |
| Servers.EnumerateKeys | cobra/tcp_server.cpp:37-38 | The destructor's walk lists every registered name exactly once |
| Servers.TcpServer.constructor | cobra/tcp_server.cpp:15-31 | A new server is not started, has no connections and counts ids from 1 |
| Servers.TcpServer.SetThreadNum | cobra/tcp_server.cpp:47-50 | Requires a non-negative count and passes it to the pool |
| Servers.TcpServer.Start | cobra/server.cpp:51-61 | The first call starts the pool and asks for listening; later calls change nothing |
| Servers.TcpServer.NewConnection | cobra/tcp_server.cpp:65-99 | Picks the loop round-robin and names the connection after the current id, then increments the id. Registers it under that name and schedules `connectEstablished` on that loop. While the suffix fits, the registry grows by exactly one |
| Servers.TcpServer.RemoveConnection | cobra/server.cpp:100-103 | On the loop thread it erases at once; otherwise it hands the removal to the loop |
| Servers.TcpServer.RemoveConnectionInLoop | cobra/server.cpp:105-115 | Requires the name to be registered, erases exactly that one entry, and queues `connectDestroyed` on the connection's loop |
| Servers.TcpServer.Destroy | cobra/server.cpp:32-44 | Schedules `connectDestroyed` once for every registered connection |
| Clients.TcpClient.constructor | cobra/tcp_client.cpp:26-44 | A new client does not retry, wants to connect, counts from 1 and has no connection |
| Clients.TcpClient.EnableRetry | cobra/tcp_client.h:31 | Sets `retry` |
| Clients.TcpClient.Connect | cobra/tcp_client.cpp:66-72 | Sets `connect_` and starts the connector. On the loop thread the connector is Connecting iff the errno is in progress, and otherwise Disconnected with no channel |
| Clients.TcpClient.Disconnect | cobra/tcp_client.cpp:74-83 | Clears `connect_` and shuts down the current connection only if one exists |
| Clients.TcpClient.Stop | cobra/tcp_client.cpp:85-88 | Clears `connect_` and stops the connector |
| Clients.TcpClient.NewConnection | cobra/tcp_client.cpp:91-119 | Names the connection with the current id and increments the id. The new connection becomes current and is then established |
| Clients.TcpClient.RemoveConnection | cobra/tcp_client.cpp:121-138 | Requires the current connection and clears it, then queues `connectDestroyed`. Restarts the connector iff `retry && connect_`. It then gives the connector Restart's per-errno outcome: state, delay reset to 500 (1000 after a retryable error) and the effects. Otherwise the connector is untouched |
| Clients.TcpClient.Destroy | cobra/tcp_client.cpp:46-64 | With a connection, its close is rerouted to a plain destroy. Without one, the connector is stopped and its removal scheduled |
| HttpContexts.Next | cobra/http/HttpContext.h:39-50 | No mutator enters ExpectBody, and only `reset` returns to ExpectRequestLine |
| HttpContexts.ExpectBodyUnreachable | cobra/net/http/HttpContext.h:16-54 | No sequence of public mutator calls from a state other than ExpectBody ever reaches it. The state is the one the last call set |
| HttpContexts.RequestLineThenHeadersCompletes | cobra/http/HttpContext.h:39-43 | A request line then headers reaches GotAll from any state, skipping ExpectBody |
| HttpContexts.HttpContext.constructor | cobra/net/http/HttpContext.h:24-27 | A new context expects a request line and holds an empty request |
| HttpContexts.HttpContext.ReceiveRequestLine | cobra/net/http/HttpContext.h:43-44 | Moves to ExpectHeaders |
| HttpContexts.HttpContext.ReceiveHeaders | cobra/net/http/HttpContext.h:46-47 | Moves straight to GotAll |
| HttpContexts.HttpContext.Reset | cobra/http/HttpContext.h:45-50 | Back to ExpectRequestLine with a default request |
| HttpContexts.HttpContext.SetRequest | cobra/http/HttpContext.h:55-56 | The parser's writes through `request()` leave the state alone |
| HttpContexts.ExactlyOnePredicate | cobra/http/HttpContext.h:27-37 | Exactly one of the four state predicates holds |

## Left out

- Timers (`runAt`/`runAfter`/`runEvery`, the timer queue): only their declarations exist in the repository, and the intervals are `double`. A retry's `runAfter` is recorded as `ScheduleStartInLoop(delayMs)` with the delay in integer milliseconds.
- Pollers (poll/epoll) and `updateChannel`: their registry code is not part of this model. Channel requests are recorded and poll results are inputs.
- System calls (`readv`, `write`, `connect`, `getsockopt`, `shutdown`, `close`, `eventfd` reads and writes) are parameters or recorded effects. The `wakeup`/`handleRead` byte-count logging is left out.
- Threads, mutexes and the thread-start handshakes: thread identity is the `inLoopThread` flag. Foreign-thread calls are modelled as interleaving-free steps.
- The weak pointer behind `tie` is the `ownerAlive` flag. Reference counting and object lifetime are not modelled.
- Acceptor, socket wrappers, address formatting and logging: accepted sockets and the `ip:port` text are inputs.
- Connections.TcpConnection.SendInLoop: requires the state not to be Connecting. `send` only reaches it when Connected, and no state returns to Connecting.
- Connections.TcpConnection.HandleRead: requires reading to be enabled, which the model's invariant ties to Connected or Disconnecting. The source relies on the poller reporting read events only for enabled channels.
- Connections.TcpConnection.HandleWrite: a failed or zero-byte write is modelled as changing nothing, as in the source. Its log message is left out.
- Loops.EventLoop.Run: the poll results are a finite script, and the run ends when a channel callback or a functor quits, or the script is exhausted. Quits from other threads are not interleaved.
- Loops.EventLoop.constructor: the fatal log on an occupied thread slot is a precondition.
- Callback arguments (the `shared_from_this()` pointer, the buffer passed to the message callback) are not modelled. Callback identity is recorded as a named effect.
- `Buffer::internalCapacity` and `toStringPiece` are observers of the vector that add nothing beyond `Contents`.
- Servers.TcpServer.NewConnection: uniqueness of the new name is stated only while the suffix fits the 32-byte `snprintf` buffer. Beyond that the map entry is overwritten, as `NamesCollideWhenTruncated` shows.
- Servers.TcpServer.NewConnection: the id counter is an unbounded `nat`. The width of `nextConnId_` is not modelled: `int` in cobra/tcp_server.h:122, `uint32` in cobra/server.h:114. The first overflows after 2^31-1 connections. The second prints ids above INT_MAX as negative numbers through `%d` and wraps to 0 after 2^32. So after that many connections the source repeats names that the model calls unique.
- Servers.NamesUnique: it is about unbounded ids and so does not cover the wrapped or negative ids of a 32-bit counter, as above.
- Servers.TcpServer.RemoveConnectionInLoop: queues `connectDestroyed` on the loop of the entry registered under the name. The source uses the closing connection's own loop. The two differ only after a truncation collision has overwritten the entry (see `NamesCollideWhenTruncated`).
- Servers.TcpServer.Destroy: any enumeration of the registered names is allowed. The source walks the `std::map` in key order, which nothing else depends on.
- Clients.TcpClient.NewConnection: the `int nextConnId_` of cobra/tcp_client.h:65 is likewise modelled as an unbounded `nat`.

## Findings

| source | as written | input that shows it | evidently intended | confidence | as-written member | corrected member |
|---|---|---|---|---|---|---|
| cobra/buffer.h:83-88 | `findEOL(start)` passes `readableBytes()` to `memchr` counted from `start`, so it scans past `BeginWrite()` when `start > BeginRead()` | content "xy" at indices 8-9, a stale '\n' at index 10, `start` = 9: reports index 10 | search only `[start, BeginWrite())`, i.e. length `BeginWrite() - start` | high, not executed | NetBuffer.EolFromReadsPastContent | NetBuffer.EolFromWithin |
| cobra/tcp_connection.cpp:197-207 | `connectDestroyed` clears the mask only from kConnected, then always calls `remove()`, which asserts an empty mask | establish a connection, `shutdown()` it (kDisconnecting, reading still on), then `connectDestroyed` (as the server destructor does): the assertion fails | treat kDisconnecting like kConnected: go down, clear the mask, report, then remove | medium, not executed | Connections.DestroyWhileDisconnecting | Connections.TcpConnection.ConnectDestroyed |
