# Verified model of the reactor library

A Dafny 4.11 model of the library's core: byte buffers, the connection protocol over event loops, the
functor queue and its wakeups, the epoll poller, the timer queue, the HTTP parser and printer, the
asynchronous log and the thread pool, with proofs of what that code promises.

Code that updates objects in place is a class whose methods are proved equal to a function on values, or, for the
event loop and the thread pool, to steps of a step system (the object's `View()` before and after; `Contents()` for a
buffer). The properties over whole runs are proved about those functions and steps. What several
threads do at once is a step system: a step is one atomic action of one thread (a critical section, or a
handler that only its own loop thread can execute), a run is any sequence of steps that are possible when
they happen, and the theorems hold for every run. System calls are parameters: what `readv`, `write`,
`epoll_wait`, the clock and the scheduler do is an arbitrary argument of the step.

| file | models |
|---|---|
| `Text.dfy` | searching byte strings, decimal numerals |
| `Buffer.dfy` | the growable buffer, as a byte queue |
| `Poller.dfy` | channels and the epoll poller, and the kernel's interest table |
| `TcpConnectionSpec.dfy`, `TcpConnection.dfy` | one connection: its handlers on values and over real buffers, its history |
| `TcpConnectionRuns.dfy` | what each handler does to queue, wire and user, and whole runs told by their calls |
| `EventLoop.dfy` | the functor queue, the eventfd and the loop |
| `Server.dfy` | all connections of a server over a base loop and any number of I/O loops, with their references and the kernel tables of the loops; lifetime |
| `ServerEnds.dfy` | the way of every closed connection to its end, and callback pairing |
| `ServerProgress.dfy` | loops left to themselves: accepted connections are established, closed ones destroyed and freed |
| `ServerRuns.dfy` | the server's runs as runs of its connections, and the dispatch of whole poll results |
| `TimerQueue.dfy` | the ordered set of timers and its one timerfd |
| `HttpRequest.dfy`, `HttpContext.dfy` | the incremental request parser |
| `HttpResponse.dfy` | the response printer, and a client's reader as its reference |
| `AsyncLogSpec.dfy`, `AsyncLog.dfy` | double buffering of the log |
| `ThreadPool.dfy` | the workers, their queue and their condition variable |

## Main results

- **Lifetime** (`Servers.LifetimeSafety`, `FreeAndInsertSafety`): over any number of loops and connections and
  whatever events the kernel reports, what a kernel table lists or a loop will still dispatch is referenced and not
  freed; a connection is freed only after its DOWN callback and the removal of its channel; no new name is ever on
  the map already. No closed connection is forgotten (`ServerEnds.NoneIsForgotten`), and from every state of every
  run the loops, left to themselves, destroy it and let it be freed (`ServerProgress.EveryClosedIsDestroyed`,
  `EveryClosedIsFreed`).
- **The server as its connections** (`ServerRuns.EachConnectionRuns`, `EveryConnectionIsTold`, `AllServed`): what a run
  of the server does to a connection is a run of that connection alone, and a poll result is served channel by channel
  as `ConnSpec.Dispatch` says. An accepted connection comes to be established
  (`ServerProgress.EveryAcceptedIsEstablished`).
- **Half-close and byte streams** (`ConnSpec.EveryRun`, `HalfCloseIsFlushed`, `HalfCloseIsGraceful`, `DownEndsOutput`,
  `EveryByteRead`, `Servers.EveryConnectionIsGood`): in every run the half-close happens once, when everything taken
  from the user is on the wire; nothing is written after DOWN; wire bytes followed by queued bytes are the kept
  messages, and bytes the user took followed by the input buffer are the bytes read. `ConnRuns.EveryByteSent` says it
  of the calls themselves: what `send` was given and did not refuse is what the socket's writes took, followed by what
  is queued; `HalfCloseExactly` and `ShutdownCompletes` say when the write side is shut.
- **Callbacks** (`ConnRuns.CallbacksExactly`, `ConnSpec.LegalExactly`, `UpComesFirst`, `CallbacksPair`,
  `ServerEnds.EveryCleanRun`): the user is told what the calls call for, in their order; one UP, at most one DOWN, no
  message after it, exactly in the runs in which no close and no read is handled after a close.
- **Functors** (`EventLoopSpec.EveryRunFifo`, `NoLostWakeupExactly`): first in, first out; a run loses a wakeup
  exactly when `loop()` is entered after its own thread, and no other, has queued functors. A turn of the loop object
  is a run of these steps (`EventLoops.EventLoop.Turn`).
- **Poller** (`ChannelSpec.PollerRefinesKernel`, `NeverIdleExactly`): the kernel holds exactly what the channels ask
  for, and no `epoll_ctl` fails.
- **Timers** (`TimerSpec.EveryRun`, `RunsAreExact`): the set holds exactly the timers added less the one-shots
  fired; none is early, one-shots run once, repeats are an interval apart. `AlwaysCoveredExactly` and `NoTimerLost`
  say when the timerfd is armed for every timer, and `CoveredRuns` that such a timer comes to run.
- **HTTP** (`HttpSpec.ChunkingIndependence`, `RequestRoundTripInChunks`, `FieldLinesParse`, `StrictRequestExactly`,
  `ResponseSpec.KeepAliveFramingExact`, `StreamDecodes`).
- **Log** (`LogSpec.EveryRun`, `OutputIsPrefix`, `IterationDrains`, `FlushReachesFile`) and **pool**
  (`PoolSpec.EveryRun`, `TaskHasAWorker`, `QueueIsTaken`, `StopIsPrompt`).

Seven promises do not hold as first read. The model follows the code, and the exact condition is proved:

- A keep-alive response of 10^13 or more body bytes loses its Content-Length line end in the 32-byte scratch
  buffer; framing holds exactly up to 13 digits (`ResponseSpec.KeepAliveFramingExact`, `OverlongExample`).
- A poll result with a hang-up and urgent data but no input reads after the close, so a message callback can follow
  DOWN, and the channel can go back into the kernel and be closed again; histories stay legal exactly without such a
  result (`ConnSpec.DispatchLegalExactly`, `LegalExactly`). Lifetime, half-close and the byte stream do not depend on
  it.
- `TimerQueue::handleRead` samples the clock before it reads the timerfd. A firing consumed in between, while no
  timer counts as expired, is not re-armed. A run never loses a timer exactly when no firing is such a late one
  (`TimerSpec.AlwaysCoveredExactly`); `LossExample` is a run that does. It cannot happen unless a timer already due
  is added after the poll reports the timerfd and before its handler (`NoTimerLost`).
- Functors that the loop's thread queues before `loop()` wake nobody (`EventLoopSpec.NoLostWakeupExactly`,
  `UnwokenExample`).
- `disableAll` on a channel that is not in the kernel puts it in with no events: it takes a channel out exactly when
  it was in (`ChannelSpec.DisableAllExactly`), and a run leaves no such entry exactly when no update without events
  meets a channel that is out (`NeverIdleExactly`). A connection whose calls come in order leaves none
  (`ConnSpec.NeverIdle`).
- The parser takes any line without a colon as the end of the headers, and any text before a colon as a field name,
  where section 5 of RFC 9112 asks for an empty line and a token. It agrees with a strict parser exactly when the
  first complete line that is not a field line, if there is one, is empty (`HttpSpec.StrictHeadersExactly`,
  `StrictRequestExactly`, `ColonlessExample`, `SpacedNameExample`).
- `connectDestroyed` does not look at a connection that is half-closing. Afterwards DOWN has been told and no interest
  is left exactly when the connection was connected or already closed (`ConnSpec.DestroyExactly`); one that was never
  established has not told UP either.

## Model

| member | source | states |
|---|---|---|
| Text.FindCrlf | src/net/Buffer.hpp:85-89 | the first CR LF is found, and nothing is found only if there is none |
| Buffers.Buffer.constructor | src/net/Buffer.hpp:15-20 | a new buffer is an empty queue with both indices at the prepend area |
| Buffers.Buffer.RetrieveAll | src/net/Buffer.hpp:40-44 | empties the queue and keeps the index invariant |
| Buffers.Buffer.Retrieve | src/net/Buffer.hpp:28-38 | drops a prefix of the queue; asking for too much empties it |
| Buffers.Buffer.RetrieveAsString | src/net/Buffer.hpp:46-51 | what is returned followed by what is left is what was there |
| Buffers.Buffer.MakeSpace | src/net/Buffer.cpp:51-64 | the queue is unchanged, there is room, and growth is bounded by twice the contents plus the request plus 7 |
| Buffers.Buffer.MoveDown | src/net/Buffer.cpp:59-62 | the overlapping forward copy is right because it happens only with the reader above the prepend area |
| Buffers.Buffer.EnsureWritableBytes | src/net/Buffer.hpp:65-71 | there is room afterwards and the queue is unchanged |
| Buffers.Buffer.Append | src/net/Buffer.hpp:78-83 | the queue gets the bytes at its end; storage never shrinks and stays within max(8 + initial size, 2 * peak + 7) |
| Buffers.Buffer.FindCRLF | src/net/Buffer.hpp:85-89 | the offset of the first CR LF of the queue, if there is one |
| Buffers.Buffer.ReadFd | src/net/Buffer.cpp:12-39 | a scatter read of any length up to the free space plus 65536 appends exactly the bytes read; an error changes nothing |
| HttpRequests.MethodRoundTrip | src/http/HttpRequest.hpp:46-105 | every method is recognised from its own name, and no name has a space |
| HttpRequests.TrimSplits | src/http/HttpRequest.hpp:141-149 | trimming removes white space only, and all of it at both ends |
| HttpRequests.TrimExactly | src/http/HttpRequest.hpp:141-149 | trimming leaves just what the white space, named character by character, is around |
| HttpRequests.MethodNames | src/http/HttpRequest.hpp:46-74 | the names of the methods, letter by letter |
| HttpRequests.HttpRequest.SetMethod | src/http/HttpRequest.hpp:46-74 | accepts exactly the names of the five methods |
| HttpRequests.HttpRequest.AddHeader | src/http/HttpRequest.hpp:137-151 | the two loops store the trimmed value under the field name and touch no other entry |
| HttpRequests.HttpRequest.GetHeader | src/http/HttpRequest.hpp:153-162 | the stored value, or the empty string |
| HttpRequests.HttpRequest.Swap | src/http/HttpRequest.hpp:169-177 | the two requests exchange every field |
| HttpSpec.LineStepExtends | src/http/HttpContext.cpp:55-100 | bytes that arrive later do not change what a round of the loop does with a complete line |
| HttpSpec.ParseResumes | src/http/HttpContext.cpp:51-106 | stopping after some bytes and resuming with more is one call on all of them |
| HttpSpec.MoreTwice | src/http/HttpContext.cpp:51-106 | two arrivals amount to one arrival of both |
| HttpSpec.ChunkingIndependence | src/http/HttpContext.cpp:51-106 | verdict, state, request and unread bytes depend only on the concatenation of the chunks |
| HttpSpec.SameBytesSameResult | src/http/HttpContext.cpp:51-106 | two ways of cutting the same bytes give the same result as one call |
| HttpSpec.RequestLineAccepts | src/http/HttpContext.cpp:6-49 | a request line is accepted exactly when it is a method, a target without spaces and a version, separated by single spaces |
| HttpSpec.PrintedIsAccepted | src/http/HttpContext.cpp:8-49 | and then changes, of any request, just method, target and version |
| HttpSpec.TargetExactly | src/http/HttpContext.cpp:19-28 | path and query are cut at the first question mark; without one the query stays |
| HttpSpec.RequestLineRoundTrip | src/http/HttpContext.cpp:6-49 | a printed request line gives back method, path, query and version |
| HttpSpec.HeaderLineRoundTrip | src/http/HttpContext.cpp:84-87 | a printed header line gives back its field and value |
| HttpSpec.HeadersRoundTrip | src/http/HttpContext.cpp:79-95 | printed headers and a blank line, followed by anything, are stored one by one and leave what follows |
| HttpSpec.RequestRoundTrip | src/http/HttpContext.cpp:51-106 | a clean request, printed in any header order and followed by anything, is parsed to itself and leaves what follows |
| HttpSpec.RequestRoundTripInChunks | src/http/HttpContext.cpp:51-106 | the same through any chunking |
| HttpSpec.HeaderLineStores | src/http/HttpContext.cpp:82-87 | a field line with any white space around its value stores the value under the field, in place of an earlier one, and changes nothing else |
| HttpSpec.EveryFieldLine | src/http/HttpRequest.hpp:137-151 | every line with a colon is such a line |
| HttpSpec.FieldLinesParse | src/http/HttpContext.cpp:75-100 | any field lines and a blank line, followed by anything, are stored one after another |
| HttpSpec.RequestExample | src/http/HttpContext.cpp:51-106 | a whole request, letter by letter, with no space after the colon |
| HttpSpec.RejectedLeaves | src/http/HttpContext.cpp:8-49 | what a rejected request line leaves of the request: the words before the fault are taken |
| HttpSpec.StrictHeadersExactly | src/http/HttpContext.cpp:79-100 | headers are read as by a strict parser if and only if the first complete line that is not a field line is empty |
| HttpSpec.StrictRequestExactly | src/http/HttpContext.cpp:51-106 | the same for a whole request |
| HttpSpec.ColonlessExample | src/http/HttpContext.cpp:84-93 | a header line without a colon ends the request, and the next header is left as the next request |
| HttpSpec.SpacedNameExample | src/http/HttpContext.cpp:84-87 | a field name with a space before the colon is stored |
| HttpContexts.HttpContext.constructor | src/http/HttpContext.hpp:20-23 | starts before the request line with an empty request |
| HttpContexts.HttpContext.Reset | src/http/HttpContext.hpp:29-34 | back to that state, receive time included |
| HttpContexts.HttpContext.SetTarget | src/http/HttpContext.cpp:19-28 | path and query are what is before the first question mark, and the rest |
| HttpContexts.HttpContext.SetVersion | src/http/HttpContext.cpp:29-45 | succeeds exactly for the two known versions, and otherwise leaves the version alone |
| HttpContexts.HttpContext.ProcessRequestLine | src/http/HttpContext.cpp:6-49 | verdict and request, partial changes of a rejected line included |
| HttpContexts.HttpContext.TakeRequestLine | src/http/HttpContext.cpp:57-78 | the branch for the request line is one round of the specification |
| HttpContexts.HttpContext.TakeHeaderLine | src/http/HttpContext.cpp:79-100 | the branch for a header line is one round of the specification |
| HttpContexts.HttpContext.ParseRequest | src/http/HttpContext.cpp:51-106 | the loop ends, and leaves verdict, state, request and unread bytes as the recursive parser does |
| ResponseSpec.FieldLineDecodes | src/http/HttpResponse.cpp:28-34 | a printed field line is read back as its name and trimmed value |
| ResponseSpec.StatusLines | src/http/HttpResponse.hpp:12-19 | the status lines, letter by letter |
| ResponseSpec.ResponseExample | src/http/HttpResponse.cpp:9-38 | two whole responses, letter by letter |
| ResponseSpec.StatusLineDecodes | src/http/HttpResponse.cpp:11-15 | the status line survives the scratch buffer and is read back |
| ResponseSpec.KeepAliveDecodes | src/http/HttpResponse.cpp:9-38 | a keep-alive response is read back whole, and the reader stops at its end |
| ResponseSpec.LostLineEnd | src/http/HttpResponse.cpp:23-24 | a length of 14 or more digits loses the end of its line |
| ResponseSpec.OverlongDoesNotDecode | src/http/HttpResponse.cpp:22-26 | the reader then finds no usable length |
| ResponseSpec.KeepAliveFramingExact | src/http/HttpResponse.cpp:9-38 | framing holds if and only if the body length has at most 13 digits |
| ResponseSpec.OverlongExample | src/http/HttpResponse.cpp:22-26 | the smallest response that is not framed |
| ResponseSpec.CloseDecodes | src/http/HttpResponse.cpp:17-20 | a closing response is read back up to the end of the stream |
| ResponseSpec.StreamDecodes | src/http/HttpResponse.cpp:9-38 | any number of responses, only the last of which may close, are read back in order |
| HttpResponses.HttpResponse.constructor | src/http/HttpResponse.hpp:21-25 | a new response |
| HttpResponses.HttpResponse.AppendStatusLine | src/http/HttpResponse.cpp:11-15 | appends the status line |
| HttpResponses.HttpResponse.AppendFraming | src/http/HttpResponse.cpp:17-26 | appends the framing fields, cut as the scratch buffer cuts them |
| HttpResponses.HttpResponse.AppendHeaders | src/http/HttpResponse.cpp:28-34 | the loop prints every header once, in some order |
| HttpResponses.HttpResponse.AppendToBuffer | src/http/HttpResponse.cpp:9-38 | the output grows by the encoding of the response in some header order |
| ChannelSpec.SetEventsCoherent | src/net/Channel.cpp:47-85 | any change of events leaves kernel, index and `_channels` in agreement, through valid calls only |
| ChannelSpec.RemoveCoherent | src/net/poller/EpollPoller.cpp:96-105 | and so does removal |
| ChannelSpec.PollStepCoherent | src/net/poller/EpollPoller.cpp:69-105 | every operation on a table of channels with distinct descriptors keeps the agreement |
| ChannelSpec.PollerRefinesKernel | src/net/poller/EpollPoller.cpp:69-128 | over every run the kernel holds exactly the events of the added channels and no `epoll_ctl` fails |
| ChannelSpec.SwitchesExactly | src/net/Channel.cpp:50-78 | what the kernel watches after each switch: enabling watches, disabling stops just that, and leaves an added channel out when nothing else is watched |
| ChannelSpec.IdleUpdateExactly | src/net/poller/EpollPoller.cpp:69-94 | an update that leaves no events takes the channel out of the kernel if and only if it was in |
| ChannelSpec.DisableAllExactly | src/net/Channel.cpp:71-75 | so `disableAll` works on an added channel only, and a second one undoes it |
| ChannelSpec.PollStepIdles | src/net/poller/EpollPoller.cpp:69-105 | which operation leaves or ends a kernel entry without events |
| ChannelSpec.NeverIdleExactly | src/net/poller/EpollPoller.cpp:69-105 | a run leaves no such entry if and only if it never updates a channel that is out without events |
| Pollers.Channel.constructor | src/net/Channel.cpp:11-19 | a new channel, unknown to its poller |
| Pollers.Channel.EnableReading | src/net/Channel.cpp:47-51 | the channel and its kernel entry change as specified, and no other does |
| Pollers.Channel.DisableReading | src/net/Channel.cpp:53-57 | likewise |
| Pollers.Channel.EnableWriting | src/net/Channel.cpp:59-63 | likewise |
| Pollers.Channel.DisableWriting | src/net/Channel.cpp:65-69 | likewise |
| Pollers.Channel.DisableAll | src/net/Channel.cpp:71-75 | likewise |
| Pollers.Channel.Remove | src/net/Channel.cpp:82-85 | likewise |
| Pollers.EpollPoller.UpdateChannel | src/net/poller/EpollPoller.cpp:69-94 | each call to the kernel is valid, and the poller invariant is restored |
| Pollers.EpollPoller.RemoveChannel | src/net/poller/EpollPoller.cpp:96-105 | the channel leaves map and kernel |
| Pollers.EpollPoller.Poll | src/net/poller/EpollPoller.cpp:26-67 | the active list is what the kernel reported, and a full event array doubles |
| ConnSpec.UpComesFirst | src/net/TcpConnection.cpp:178-185 | in a graceful history anything but a refused send has UP before it |
| ConnSpec.CallbacksPair | src/net/TcpConnection.cpp:178-217 | in a legal history UP comes once, DOWN at most once, and nothing but refused sends and the user's own reading after it |
| ConnSpec.HalfCloseIsFlushed | src/net/TcpConnection.cpp:160-176 | in a graceful history the half-close comes with all kept bytes on the wire |
| ConnSpec.HalfCloseIsGraceful | src/net/TcpConnection.cpp:160-176 | it comes once, with no write after it |
| ConnSpec.DownEndsOutput | src/net/TcpConnection.cpp:102-112 | in a graceful history nothing is written, half-closed or taken from the user after DOWN |
| ConnSpec.QueuedSendKeeps | src/net/TcpConnection.cpp:140-157 | a message behind queued output is queued whole |
| ConnSpec.DirectSendKeeps | src/net/TcpConnection.cpp:113-157 | a direct write takes a prefix and the rest is queued, unless the peer is gone |
| ConnSpec.SendKeeps | src/net/TcpConnection.cpp:60-158 | `send` keeps the byte stream, the write interest and a graceful history |
| ConnSpec.ShutdownKeeps | src/net/TcpConnection.cpp:160-176 | so does `shutdown` (what it does: `ConnRuns.ShutdownExactly`) |
| ConnSpec.EstablishKeeps | src/net/TcpConnection.cpp:178-185 | so does establishing |
| ConnSpec.CloseKeeps | src/net/TcpConnection.cpp:253-262 | so does closing, a second time too |
| ConnSpec.ReadKeeps | src/net/TcpConnection.cpp:199-217 | so does reading, after a close too |
| ConnSpec.WriteKeeps | src/net/TcpConnection.cpp:219-251 | so does writing (what it does: `ConnRuns.WriteExactly`) |
| ConnSpec.DestroyKeeps | src/net/TcpConnection.cpp:187-197 | so does destroying, in every state |
| ConnSpec.RetrieveKeeps | src/net/Buffer.hpp:28-38 | so does the user's reading of the input buffer: what it takes and what is left are what was there |
| ConnSpec.DestroyExactly | src/net/TcpConnection.cpp:187-197 | a destroyed connection has told DOWN and leaves no interest if and only if it was connected or already closed |
| ConnSpec.EveryByteRead | src/net/TcpConnection.cpp:199-206 | over every run the bytes read from the socket are those the user has taken followed by the input buffer |
| ConnSpec.EveryRun | src/net/TcpConnection.cpp:60-262 | every run of one connection, closes and reads after a close included, keeps its history graceful, both byte streams conserved and its write interest exact |
| ConnSpec.LegalExactly | src/net/TcpConnection.cpp:178-262 | callbacks pair in a run if and only if no close and no read of it tells anything after a close |
| ConnSpec.EveryOrderlyRun | src/net/TcpConnection.cpp:60-262 | when calls come in order callbacks pair, and the channel is in the poller exactly while the connection is open |
| ConnSpec.NeverIdle | src/net/TcpConnection.cpp:253-257 | then the channel is never left in the kernel without events |
| ConnSpec.StateAdvances | src/net/TcpConnection.cpp:160-262 | the state only moves forward and the history only grows |
| ConnSpec.RefusedExactly | src/net/TcpConnection.cpp:102-138 | a message is refused exactly when not connected, or when a direct write finds the peer gone |
| ConnSpec.HighWaterOnCrossing | src/net/TcpConnection.cpp:142-151 | the high-water callback is queued exactly when the queue grows across the mark, with its size |
| ConnSpec.DispatchKeeps | src/net/Channel.cpp:87-117 | dispatching any poll result keeps stream, interest and a graceful history |
| ConnSpec.DispatchCalm | src/net/Channel.cpp:87-117 | and keeps callbacks paired, except for a hang-up with urgent data and no input |
| ConnSpec.DispatchAfterDown | src/net/Channel.cpp:87-109 | in that case a read that brings data calls back after DOWN |
| ConnSpec.DispatchLegalExactly | src/net/Channel.cpp:87-117 | histories stay legal under every socket behaviour if and only if the mask is not that one |
| ConnSpec.CloseThenOutputIsQuiet | src/net/Channel.cpp:87-117 | a dispatch that closes adds DOWN and nothing else, output ready or not |
| ConnRuns.WriteExactly | src/net/TcpConnection.cpp:219-246 | a write that takes some queued bytes moves just those to the wire; it ends the wait to write, tells completion if asked and half-closes a connection shutting down, exactly when they are all |
| ConnRuns.WriteIdle | src/net/TcpConnection.cpp:219-251 | otherwise, with nothing queued or nothing taken, nothing happens |
| ConnRuns.SendExactly | src/net/TcpConnection.cpp:102-158 | a refused message goes nowhere; of any other, what the socket takes at once is on the wire and the rest behind what is queued |
| ConnRuns.CompletionExactly | src/net/TcpConnection.cpp:113-126 | `send` tells completion, once, exactly for a message that the socket takes whole and at once, if asked |
| ConnRuns.ShutdownExactly | src/net/TcpConnection.cpp:160-176 | a connected connection is then shutting down, its queue as before, half-closed exactly when nothing is queued; in any other state nothing happens |
| ConnRuns.RetrieveExactly | src/net/Buffer.hpp:28-38 | the user gets as many bytes as it asks for, or all there are, from the front |
| ConnRuns.StateIsAsCalled | src/net/TcpConnection.cpp:160-262 | over every run the state is that of an automaton of the calls |
| ConnRuns.EveryByteSent | src/net/TcpConnection.cpp:60-251 | over every run what `send` was given and did not refuse is what the socket took in its writes, followed by the queue |
| ConnRuns.HistoryIsTrue | src/net/TcpConnection.cpp:60-251 | and the recorded history says the same of both |
| ConnRuns.CallbacksExactly | src/net/TcpConnection.cpp:178-262 | over every run the user is told exactly what the calls call for, one message a read, in their order |
| ConnRuns.HalfCloseExactly | src/net/TcpConnection.cpp:160-246 | over every run the write side is shut if and only if the connection was shutting down with an empty queue at some point |
| ConnRuns.ShutdownCompletes | src/net/TcpConnection.cpp:160-246 | while shutting down, it is shut if and only if all that was given and not refused is on the wire |
| ConnRuns.DispatchServes | src/net/Channel.cpp:87-117 | a poll result that does not end the connection is served in full: input is read and told, output is written |
| ConnRuns.DispatchIsRun | src/net/Channel.cpp:87-117 | any poll result is handled as a run of close, read and write, in that order |
| TcpConnections.TcpConnection.constructor | src/net/TcpConnection.cpp:26-52 | a new connection over a new channel |
| TcpConnections.TcpConnection.NotifyHighWater | src/net/TcpConnection.cpp:142-151 | queues the high-water callback as specified |
| TcpConnections.TcpConnection.Enqueue | src/net/TcpConnection.cpp:140-157 | queues the rest and waits to write |
| TcpConnections.TcpConnection.TryWrite | src/net/TcpConnection.cpp:113-138 | the direct write, its count, its error and its completion callback |
| TcpConnections.TcpConnection.SendInLoop | src/net/TcpConnection.cpp:102-158 | connection and queued callbacks are those of the specification |
| TcpConnections.TcpConnection.Send | src/net/TcpConnection.cpp:60-75 | likewise, on the loop thread |
| TcpConnections.TcpConnection.ShutdownInLoop | src/net/TcpConnection.cpp:170-176 | half-closes only when not waiting to write |
| TcpConnections.TcpConnection.Shutdown | src/net/TcpConnection.cpp:160-168 | likewise, on the loop thread |
| TcpConnections.TcpConnection.ConnectEstablished | src/net/TcpConnection.cpp:178-185 | connected, tied, reading, told UP |
| TcpConnections.TcpConnection.ConnectDestroyed | src/net/TcpConnection.cpp:187-197 | told DOWN if still connected, and the channel removed |
| TcpConnections.TcpConnection.HandleClose | src/net/TcpConnection.cpp:253-262 | disconnected, all events off, told DOWN |
| TcpConnections.TcpConnection.HandleRead | src/net/TcpConnection.cpp:199-217 | input appended and told, or closed at the end of the stream |
| TcpConnections.TcpConnection.HandleWrite | src/net/TcpConnection.cpp:219-251 | a written prefix leaves the queue; an empty queue ends write interest and may half-close |
| TcpConnections.TcpConnection.HandleEvent | src/net/Channel.cpp:87-117 | hang-up, input and output are handled in that order |
| EventLoopSpec.StepKeeps | src/net/EventLoop.cpp:60-182 | every step of any thread keeps functor order, and loses a wakeup only by entering the loop unwoken |
| EventLoopSpec.EveryRunFifo | src/net/EventLoop.cpp:102-182 | executed, rest of batch and pending always make up what was queued, in order |
| EventLoopSpec.BeforeHistory | src/net/EventLoop.cpp:102-113 | before `loop()` a wakeup is made or due exactly when another thread has queued something |
| EventLoopSpec.NoLostWakeupExactly | src/net/EventLoop.cpp:60-123 | a run never loses a wakeup if and only if its loop is not entered after pushes by its own thread alone |
| EventLoopSpec.BatchRuns | src/net/EventLoop.cpp:177-180 | the batch runs in order |
| EventLoopSpec.IterationDrains | src/net/EventLoop.cpp:66-75 | an undisturbed iteration runs everything pending, and leaves nothing that would wake the loop |
| EventLoopSpec.UnwokenExample | src/net/EventLoop.cpp:102-113 | the smallest run that does: one functor queued by the loop's own thread, and `loop()` entered |
| EventLoopSpec.QueueRuns | src/net/EventLoop.cpp:102-113 | `queueInLoop` as steps: a push and, from another thread or while functors run, a wakeup |
| EventLoops.EventLoop.constructor | src/net/EventLoop.cpp:26-49 | a new loop, before `loop()`, with nothing queued |
| EventLoops.EventLoop.Enter | src/net/EventLoop.cpp:60-64 | is the step that enters the loop |
| EventLoops.EventLoop.Wakeup | src/net/EventLoop.cpp:115-123 | the eventfd counter becomes positive |
| EventLoops.EventLoop.HandleRead | src/net/EventLoop.cpp:157-165 | is the step that clears the counter |
| EventLoops.EventLoop.QueueInLoop | src/net/EventLoop.cpp:102-113 | is the run that pushes, and wakes from another thread or while functors run |
| EventLoops.EventLoop.Poll | src/net/EventLoop.cpp:68-73 | is the run in which the poller returns, and the wakeup channel is handled if it is active |
| EventLoops.EventLoop.BeginFunctors | src/net/EventLoop.cpp:170-171 | is the run that sets the flag and takes what other threads still queue |
| EventLoops.EventLoop.SwapFunctors | src/net/EventLoop.cpp:172-175 | is the step that makes what is pending the batch |
| EventLoops.EventLoop.RunFunctor | src/net/EventLoop.cpp:177-180 | is the run of one functor with what arrives meanwhile, which is pending and has woken the poller |
| EventLoops.EventLoop.RunBatch | src/net/EventLoop.cpp:177-180 | the batch runs in order, as a run of these |
| EventLoops.EventLoop.EndFunctors | src/net/EventLoop.cpp:181-182 | is the step that ends the batch |
| EventLoops.EventLoop.DoPendingFunctors | src/net/EventLoop.cpp:167-182 | is the run of all of these: exactly what was pending is run, in order; what arrives meanwhile waits for the next iteration, with the poller woken |
| EventLoops.EventLoop.Turn | src/net/EventLoop.cpp:66-75 | one turn of the loop is a run of the step system |
| Servers.NamesDiffer | src/net/TcpServer.cpp:69-72 | different connection numbers give different names |
| Servers.InsertIsFresh | src/net/TcpServer.cpp:92-92 | inserting a new connection overwrites nothing |
| Servers.AcceptKeeps | src/net/TcpServer.cpp:66-99 | accepting keeps the system invariant, on the base loop and on another |
| Servers.PollReturnsKeeps | src/net/EventLoop.cpp:69-69 | so does a poll that reports any entries of the kernel table with any events |
| Servers.TestHangUpKeeps | src/net/Channel.cpp:89-94 | so does the hang-up test, on a closed connection too |
| Servers.CloseCallbackKeeps | src/net/TcpServer.cpp:101-105 | so does the close callback, a second one too, on the base loop and on another |
| Servers.RemoveKeeps | src/net/TcpServer.cpp:107-115 | so does taking a connection off the map, if it is there, and queueing its destruction |
| Servers.ReadChannelKeeps | src/net/Channel.cpp:104-109 | so does reading, after a close too |
| Servers.WriteChannelKeeps | src/net/Channel.cpp:111-116 | so does writing |
| Servers.StartFunctorsKeeps | src/net/EventLoop.cpp:170-175 | so does swapping the functors out |
| Servers.EstablishedKeeps | src/net/TcpConnection.cpp:178-185 | so does the establishing functor, whose connection waits for it |
| Servers.DestroyedKeeps | src/net/TcpConnection.cpp:187-197 | so does a destroying functor, the first and any further one |
| Servers.RunFunctorKeeps | src/net/EventLoop.cpp:177-180 | so does running any functor |
| Servers.EndFunctorsKeeps | src/net/EventLoop.cpp:181-182 | so does the end of the batch, which drops its references |
| Servers.UserCallKeeps | src/net/TcpConnection.cpp:60-176 | so do user calls on the loop thread |
| Servers.ReferencedUntilGone | src/net/TcpServer.cpp:92-115 | until it is destroyed a connection is on the map or its destroying functor is queued |
| Servers.FreedOnlyWhenGone | src/net/TcpConnection.cpp:187-197 | an unreferenced connection has had DOWN, and no kernel table lists it |
| Servers.FreeKeeps | src/net/TcpServer.cpp:107-115 | freeing it keeps the invariant |
| Servers.StepKeeps | src/net/TcpServer.cpp:66-115 | every step of every thread keeps the system invariant |
| Servers.EveryRunKeeps | src/net/TcpServer.cpp:66-115 | and so does every run |
| Servers.LifetimeSafety | src/net/TcpServer.cpp:66-115 | in every run what a kernel table lists exists on that loop, is referenced and asks for what is listed; what is still to be dispatched exists and is referenced; what is handled or queued exists |
| Servers.FreeAndInsertSafety | src/net/TcpServer.cpp:66-115 | in every run a connection is freed only after DOWN, with its channel removed and no kernel table listing it, and names never collide |
| Servers.EveryConnectionIsGood | src/net/TcpConnection.cpp:60-262 | in every run of the server each connection has a graceful history, conserved byte streams and exact write interest |
| ServerEnds.NoticesQueued | src/net/TcpConnection.cpp:233-234 | user callbacks are queued on the connection's loop in order, and nothing else changes |
| ServerEnds.StepTokens | src/net/TcpServer.cpp:101-115 | what is under way to a connection's end grows by one when it is closed and shrinks by one when it is destroyed |
| ServerEnds.NoneIsForgotten | src/net/TcpServer.cpp:101-115 | in every run a closed connection has its close callback, its removal or its destruction under way until it is destroyed |
| ServerEnds.CleanKeeps | src/net/Channel.cpp:87-117 | steps of runs without a hang-up with urgent data and no input keep callbacks paired and one way to the end |
| ServerEnds.EveryCleanRun | src/net/TcpConnection.cpp:178-262 | in every such run each history is legal, and a closed connection is removed and destroyed once |
| ServerProgress.NextCan | src/net/EventLoop.cpp:66-75 | a loop of a reachable state can always do its next step |
| ServerProgress.NextMoves | src/net/EventLoop.cpp:66-75 | which takes that loop on by one stage, and queues at most one functor on any loop |
| ServerProgress.Drive | src/net/EventLoop.cpp:66-75 | a loop left to itself comes to run any functor queued on it |
| ServerProgress.DestroyQueued | src/net/TcpConnection.cpp:187-197 | a queued destruction is carried out |
| ServerProgress.RemoveQueued | src/net/TcpServer.cpp:107-115 | so is a queued removal, with the destruction it queues |
| ServerProgress.CallbackDue | src/net/TcpServer.cpp:101-105 | so is a close callback that is due |
| ServerProgress.Drain | src/net/EventLoop.cpp:167-182 | a loop left to itself runs out of functors about a destroyed connection, though its removal queues one more |
| ServerProgress.SilenceAll | src/net/EventLoop.cpp:66-75 | all loops come back to poll with none of them |
| ServerProgress.EveryClosedIsDestroyed | src/net/TcpServer.cpp:101-115 | after every run a closed connection is destroyed by loops left to themselves |
| ServerProgress.EveryClosedIsFreed | src/net/TcpServer.cpp:101-115 | and is freed, once the user gives up the pointer it may hold |
| ServerProgress.EstablishQueued | src/net/TcpServer.cpp:98-98 | a connection waiting for its establishing functor comes to be established by its loop left to itself |
| ServerProgress.EveryAcceptedIsEstablished | src/net/TcpServer.cpp:66-99 | so after every run an accepted connection comes to be connected, with UP told |
| ServerRuns.StepIsCall | src/net/TcpServer.cpp:66-115 | each step of the server is, to each connection, one call on it or none |
| ServerRuns.EachConnectionRuns | src/net/TcpServer.cpp:66-115 | over every run each connection is the result of a run of the calls made on it |
| ServerRuns.EveryConnectionIsTold | src/net/TcpConnection.cpp:60-262 | so its state, its callbacks and both its byte streams are what those calls say |
| ServerRuns.UserCallActs | src/net/TcpConnection.cpp:60-168 | a call by the user acts on its connection and queues its callbacks on the connection's loop |
| ServerRuns.HeldStays | src/net/TcpServer.cpp:82-88 | a pointer that the user holds keeps its connection |
| ServerRuns.AcceptExactly | src/net/TcpServer.cpp:66-99 | a new connection is on the map and on the loop chosen, established at once on the base loop and waiting for its functor on another |
| ServerRuns.ReportIsTaken | src/net/EventLoop.cpp:69-73 | a poll can report any entries of the kernel table, and the loop has them to dispatch |
| ServerRuns.ChannelIsServed | src/net/Channel.cpp:87-117 | a channel handled stage by stage is handled as one dispatch, its callbacks queued, and the loop goes on to the next |
| ServerRuns.AllServed | src/net/EventLoop.cpp:68-73 | so is everything a poll returned, and no other connection is touched |
| TimerSpec.TimespecExact | src/timer/TimerQueue.cpp:100-103 | the delay as seconds and nanoseconds is exact, nanoseconds in range |
| TimerSpec.InsertKeeps | src/timer/TimerQueue.cpp:142-153 | the set stays ordered and gains exactly the timer; the first entry changes exactly as reported, ties by address |
| TimerSpec.ExpiredSplits | src/timer/TimerQueue.cpp:111-119 | the entries taken are exactly those due at or before now |
| TimerSpec.ResetKeeps | src/timer/TimerQueue.cpp:121-140 | exactly the repeating ones come back, one interval after now |
| TimerSpec.HandleReadKeeps | src/timer/TimerQueue.cpp:70-84 | exact contents of the set after a firing, additions by callbacks included |
| TimerSpec.AddCovers | src/timer/TimerQueue.cpp:61-68 | adding a timer keeps the timerfd armed in time |
| TimerSpec.ResetCovers | src/timer/TimerQueue.cpp:121-140 | resetting after at least one expired timer arms it in time |
| TimerSpec.HandleReadCoversExactly | src/timer/TimerQueue.cpp:70-84 | handling a firing keeps the timerfd armed in time if and only if it is not a late one |
| TimerSpec.AddTimerKeeps | src/timer/TimerQueue.cpp:61-68 | adding keeps the set in agreement with the history of additions and callbacks |
| TimerSpec.HandleKeeps | src/timer/TimerQueue.cpp:70-84 | so does handling a firing |
| TimerSpec.EveryRun | src/timer/TimerQueue.cpp:61-84 | over every run the set holds exactly the timers added less the one-shots fired, each at its next due time |
| TimerSpec.NeverEarly | src/timer/TimerQueue.cpp:70-84 | no timer runs before the time it was added for |
| TimerSpec.OneShotOnce | src/timer/TimerQueue.cpp:121-133 | only a repeating timer runs twice |
| TimerSpec.RunsApart | src/timer/Timer.cpp:5-16 | two runs of a timer are at least one interval apart |
| TimerSpec.RunsAreExact | src/timer/TimerQueue.cpp:61-140 | over every run no timer is early, a one-shot runs at most once, and repeats are at least one interval apart |
| TimerSpec.AlwaysCoveredExactly | src/timer/TimerQueue.cpp:61-140 | a run never loses a timer if and only if no firing of it is a late one |
| TimerSpec.HandleWatched | src/timer/TimerQueue.cpp:70-84 | a firing of a watched queue finds an expired timer, and leaves it watched |
| TimerSpec.NoTimerLost | src/timer/TimerQueue.cpp:61-140 | no timer is lost in a run that adds none already due between poll and handler |
| TimerSpec.LossExample | src/timer/TimerQueue.cpp:70-84 | a run that ends with a timer in the set and the timerfd idle |
| TimerSpec.CoveredRuns | src/timer/TimerQueue.cpp:70-84 | a timer in a set the timerfd is armed for comes to run, for the time it was due |
| TimerQueues.Timer.constructor | src/timer/Timer.hpp:13-19 | a timer repeats exactly when its interval is positive |
| TimerQueues.Timer.Restart | src/timer/Timer.cpp:5-16 | the next expiration, or the invalid one |
| TimerQueues.InsertEntryView | src/timer/TimerQueue.cpp:147-151 | a new entry goes where the ordered set puts it |
| TimerQueues.CountExpiredView | src/timer/TimerQueue.cpp:113-115 | the entries before the sentry are the expired ones |
| TimerQueues.TimerQueue.constructor | src/timer/TimerQueue.cpp:34-42 | no timers, timerfd idle |
| TimerQueues.TimerQueue.ResetTimerfd | src/timer/TimerQueue.cpp:86-109 | the delay is the time left, at least 100 microseconds |
| TimerQueues.TimerQueue.Insert | src/timer/TimerQueue.cpp:142-153 | the ordered set gains the timer under its expiration, and the result tells whether it comes first |
| TimerQueues.TimerQueue.AddTimerInLoop | src/timer/TimerQueue.cpp:61-68 | set and timerfd as specified |
| TimerQueues.TimerQueue.GetExpired | src/timer/TimerQueue.cpp:111-119 | the expired prefix is returned and leaves the set |
| TimerQueues.TimerQueue.ResetOne | src/timer/TimerQueue.cpp:125-138 | one turn of the loop, with the timer restarted in place |
| TimerQueues.TimerQueue.Reset | src/timer/TimerQueue.cpp:121-140 | the loop, with every key still its timer's expiration |
| TimerQueues.TimerQueue.RunCallbacks | src/timer/TimerQueue.cpp:77-82 | callbacks may add timers |
| TimerQueues.TimerQueue.HandleRead | src/timer/TimerQueue.cpp:70-84 | set and timerfd after a firing as specified |
| LogSpec.AppendFits | src/log/AsyncLogFile.cpp:53-75 | a message never makes a buffer start over, and leaves room for its terminator; the current buffer is queued if and only if the message does not fit behind what it holds |
| LogSpec.AppendSafeExactly | src/log/AsyncLogFile.cpp:53-75 | the terminator of `append` stays in the buffer if and only if the message is shorter than a buffer |
| LogSpec.AppendKeeps | src/log/AsyncLogFile.cpp:53-75 | `append` loses nothing and keeps the pointers sound |
| LogSpec.FlushKeeps | src/log/AsyncLogFile.cpp:99-109 | so does `flush`, which queues what the current buffer holds, if anything, and leaves an empty one |
| LogSpec.BeginKeeps | src/log/AsyncLogFile.cpp:114-120 | so does the backend when it starts and makes its two buffers |
| LogSpec.SwapKeeps | src/log/AsyncLogFile.cpp:126-143 | so does the backend's critical section |
| LogSpec.WriteKeeps | src/log/AsyncLogFile.cpp:145-148 | so does writing a buffer |
| LogSpec.RecycleKeeps | src/log/AsyncLogFile.cpp:150-169 | recycling never pops an empty vector, and ends with two empty buffers |
| LogSpec.EveryRun | src/log/AsyncLogFile.cpp:53-173 | no run dereferences a null buffer, pops an empty vector or loses, repeats or reorders a byte |
| LogSpec.OutputIsPrefix | src/log/AsyncLogFile.cpp:114-173 | the file is always a prefix of the messages in the order of `append` |
| LogSpec.WriteAllGives | src/log/AsyncLogFile.cpp:145-170 | the rest of an undisturbed iteration writes all it holds |
| LogSpec.IterationDrains | src/log/AsyncLogFile.cpp:124-171 | an undisturbed iteration brings the file up to the last message |
| LogSpec.EnterExactly | src/log/AsyncLogFile.cpp:126-131 | the backend waits if and only if nothing is queued |
| LogSpec.FlushReachesFile | src/log/AsyncLogFile.cpp:99-171 | after a flush of anything, whatever comes before the backend's next critical section, it writes there, and that iteration brings the file up to all messages before the flush |
| AsyncLogs.FixedBuffer.constructor | src/log/FixedBuffer.hpp:20-22 | an empty buffer |
| AsyncLogs.FixedBuffer.Append | src/log/FixedBuffer.hpp:31-43 | the message follows the contents, or replaces them when it does not fit; terminated, in bounds |
| AsyncLogs.FixedBuffer.Reset | src/log/FixedBuffer.hpp:55-55 | starts over |
| AsyncLogs.AsyncLogFile.constructor | src/log/AsyncLogFile.cpp:14-34 | two empty buffers for producers |
| AsyncLogs.AsyncLogFile.Begin | src/log/AsyncLogFile.cpp:114-120 | two more for the backend |
| AsyncLogs.AsyncLogFile.Deposit | src/log/AsyncLogFile.cpp:58-58 | only the current buffer changes: no two pointers share one |
| AsyncLogs.AsyncLogFile.Rotate | src/log/AsyncLogFile.cpp:62-71 | the current buffer is queued and the spare, or a new one, takes its place |
| AsyncLogs.AsyncLogFile.Append | src/log/AsyncLogFile.cpp:53-75 | is the specified operation |
| AsyncLogs.AsyncLogFile.Flush | src/log/AsyncLogFile.cpp:99-109 | is the specified operation |
| AsyncLogs.AsyncLogFile.Swap | src/log/AsyncLogFile.cpp:133-142 | is the specified operation |
| AsyncLogs.AsyncLogFile.WriteOut | src/log/AsyncLogFile.cpp:145-148 | the loop writes all buffers taken, in order |
| AsyncLogs.AsyncLogFile.TakeBack | src/log/AsyncLogFile.cpp:157-159 | the last buffer leaves the vector, emptied, owned by nobody else |
| AsyncLogs.AsyncLogFile.Recycle | src/log/AsyncLogFile.cpp:150-169 | is the specified operation, and allocates nothing |
| PoolSpec.AddTaskKeeps | src/base/ThreadPool.cpp:104-109 | adding a task leaves no task asleep behind a parked worker |
| PoolSpec.EnterKeeps | src/base/ThreadPool.cpp:133-142 | nor does a worker that waits, leaves or takes a task |
| PoolSpec.StepKeeps | src/base/ThreadPool.cpp:61-148 | nor does any step of any thread; tasks stay in order, and no worker leaves before `stop` |
| PoolSpec.EveryRun | src/base/ThreadPool.cpp:38-148 | dequeued and queued tasks are the added ones in order, before `start` too; a parked worker means at most as many tasks as signalled workers; no worker leaves before `stop`; after it nobody is parked and each worker takes at most one more task |
| PoolSpec.TaskHasAWorker | src/base/ThreadPool.cpp:104-142 | with a task queued and a worker parked, some signalled worker can take it |
| PoolSpec.EnterExactly | src/base/ThreadPool.cpp:133-142 | a worker with the mutex waits if and only if nothing is queued and the pool runs, leaves if and only if nothing is queued and it is stopped, and otherwise takes the head |
| PoolSpec.LaunchExactly | src/base/ThreadPool.cpp:38-56 | `start` makes as many workers as asked for, in a pool that runs |
| PoolSpec.HeadIsTaken | src/base/ThreadPool.cpp:129-147 | in every reachable state of a running pool with workers the head of the queue comes to be taken, without spurious wakeups |
| PoolSpec.QueueIsTaken | src/base/ThreadPool.cpp:129-147 | and so does the whole queue, in order |
| PoolSpec.StoppedProgress | src/base/ThreadPool.cpp:129-147 | after `stop` each step brings a worker closer to leaving |
| PoolSpec.StoppedCanStep | src/base/ThreadPool.cpp:129-147 | after `stop` a worker that has not left can take a step |
| PoolSpec.StopIsPrompt | src/base/ThreadPool.cpp:61-66 | after `stop` the workers take at most three steps each, whatever is added meanwhile |
| ThreadPools.ThreadPool.constructor | src/base/ThreadPool.cpp:11-21 | no workers, nothing queued |
| ThreadPools.ThreadPool.Start | src/base/ThreadPool.cpp:38-56 | the workers are there, about to read the cleared stop flag |
| ThreadPools.ThreadPool.AddTask | src/base/ThreadPool.cpp:104-109 | pushes and wakes some parked worker if there is one |
| ThreadPools.ThreadPool.Stop | src/base/ThreadPool.cpp:61-66 | sets the flag and wakes all |
| ThreadPools.ThreadPool.Enter | src/base/ThreadPool.cpp:132-142 | waits, leaves, or takes the first task |

## Left out

- System calls and their errors: `readv`, `write`, `epoll_wait`, `eventfd`, `timerfd_settime`, `accept4`, `getsockname` are arguments of the steps; a failed `epoll_wait` is a poll with nothing active.
- TcpConnections.TcpConnection.Send: not the branch for a call from another thread, which binds a raw pointer; `send(Buffer *)` differs only in emptying its argument.
- TcpConnections.TcpConnection.Shutdown: not that branch either, where the state changes before queued sends run.
- `~TcpServer`, `EventLoop::quit`, `EventLoopThread` and `Thread` start and join, `EventLoopThreadPool::getNextLoop` (the I/O loop of a connection is arbitrary).
- ConnSpec.DispatchKeeps: user calls made inside callbacks are not part of one dispatch; the server system interleaves them between its stages.
- ServerEnds.EveryCleanRun: for runs without a poll result of a hang-up with urgent data and no input; with one, callbacks need not pair (`ConnSpec.DispatchLegalExactly`).
- Servers: the system is on values, as steps, because its threads interleave; the single loop, channel, poller and connection are also modelled as objects. The counter of connections is bounded by the maximum of `int`, after which the code overflows.
- EventLoops.EventLoop.DoPendingFunctors: what other threads queue meanwhile is its argument, each with its wakeup at once; a push and its wakeup come apart in the step system of `EventLoopSpec` only.
- TimerSpec.RunsApart: times are those sampled at the start of a firing, not when a callback starts.
- TimerSpec.EveryRun: times are unbounded integers of microseconds on one clock that does not go back, where the code mixes the system clock with a monotonic timerfd; intervals are integers with a repeat flag, where the code converts a `double`.
- Buffers.Buffer.EnsureWritableBytes: the capacity bound is stated for reads and appends, which fill the room they make; called on its own it states the growth it causes.
- HttpContexts.HttpContext.ParseRequest: not called again after the request is complete, since its loop has no branch for that state; `kExpectBody` is never entered.
- `HttpServer::onMessage`, which makes a new context for every call.
- Bytes are characters, `isspace` is that of the "C" locale; event masks are flags, with input and urgent data watched together.
- `AsyncLogFile::stop` draining everything: the backend can leave its loop with buffers queued; file names, rolling and flushing; the full callback of `FixedBuffer`, which the log does not set.
- AsyncLogs.AsyncLogFile.Swap: the wait before it, and the threads, are in the step system of `LogSpec`.
- PoolSpec.EveryRun: the stop flag is read outside the mutex, taken here as one atomic read; tasks still queued when the workers leave are not run; `start` comes once and makes all workers in one step; names and the initialisation callback are not modelled.
- `Logger`, `LogStream`, `InetAddress`, `Socket`, `Acceptor`; the copies of the headers under `include/`.
