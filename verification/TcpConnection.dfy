/** The connection object: the handlers of src/net/TcpConnection.cpp over real buffers and a
    registered channel, each proved to do what its function in `ConnSpec` says. */
module TcpConnections {
  import opened Buffers
  import opened ChannelSpec
  import opened Pollers
  import opened ConnSpec

  class TcpConnection {
    const config: Config
    const channel: Channel
    const inputBuffer: Buffer
    const outputBuffer: Buffer
    var state: ConnState
    /** The user callbacks this connection has queued on its loop. */
    var notices: seq<Notice>
    ghost var trace: seq<Event>

    ghost predicate Valid()
      reads this, channel, channel.poller, channel.poller.live,
            inputBuffer, inputBuffer.data, outputBuffer, outputBuffer.data
    {
      && inputBuffer != outputBuffer && inputBuffer.data != outputBuffer.data
      && inputBuffer.Valid() && outputBuffer.Valid()
      && channel.Registered()
    }

    ghost function View(): (v: Conn)
      reads this, channel, inputBuffer, inputBuffer.data, outputBuffer, outputBuffer.data
      requires inputBuffer.Valid() && outputBuffer.Valid()
      ensures v.state == state
    {
      Conn(config, state, channel.View(), channel.tied, inputBuffer.Contents(), outputBuffer.Contents(), trace)
    }

    constructor (config: Config, channel: Channel)
      requires channel.Registered() && channel.View() == FRESH_CHAN && !channel.tied
      ensures Valid() && View() == FreshConn(config) && notices == []
      ensures this.channel == channel && fresh(inputBuffer) && fresh(outputBuffer)
      ensures fresh(inputBuffer.data) && fresh(outputBuffer.data)
    {
      this.config, this.channel := config, channel;
      inputBuffer := new Buffer();
      outputBuffer := new Buffer();
      state, notices, trace := Connecting, [], [];
    }

    method QueueInLoop(notice: Notice)
      modifies this`notices
      ensures notices == old(notices) + [notice]
    {
      notices := notices + [notice];
    }

    method NotifyHighWater(more: nat)
      requires Valid()
      modifies this`notices
      ensures Valid() && View() == old(View())
      ensures notices == old(notices) + Crossing(View(), more)
    {
      var oldLen := outputBuffer.ReadableBytes();
      if oldLen + more >= config.mark && oldLen < config.mark && config.highWater {
        QueueInLoop(HighWater(oldLen + more));
      }
    }

    /** Queues what the socket did not take, and starts waiting to write. */
    method Enqueue(rest: string)
      requires Valid() && rest != ""
      modifies this`notices, outputBuffer, outputBuffer.data,
               channel`events, channel`index, channel.poller`channels, channel.poller`kernel
      ensures Valid() && (outputBuffer.data == old(outputBuffer.data) || fresh(outputBuffer.data))
      ensures View() == Enqueued(old(View()), rest)
      ensures notices == old(notices) + Crossing(old(View()), |rest|)
    {
      NotifyHighWater(|rest|);
      outputBuffer.Append(rest);
      if !channel.View().IsWriting() {
        channel.EnableWriting();
      }
    }

    /** The direct write: how much of a message of `len` bytes it takes, and whether the peer is
        found gone. */
    method TryWrite(len: nat, result: WriteResult) returns (nwrote: nat, error: bool)
      requires Valid() && Possible(result, len)
      modifies this`notices
      ensures Valid() && View() == old(View())
      ensures nwrote <= len && nwrote == Taken(View(), result) && error == PeerFoundGone(View(), result)
      ensures notices == old(notices) + Completion(View(), len, result)
    {
      nwrote, error := 0, false;
      if !channel.View().IsWriting() && outputBuffer.ReadableBytes() == 0 {
        if result.Accepted? {
          nwrote := result.n;
          if nwrote == len && config.writeComplete {
            QueueInLoop(WriteComplete);
          }
        } else {
          error := result.PeerGone?;
        }
      }
    }

    /** `result` is what a direct `write` would return. */
    method SendInLoop(message: string, result: WriteResult)
      requires Valid() && Possible(result, |message|)
      modifies this`notices, this`trace, outputBuffer, outputBuffer.data,
               channel`events, channel`index, channel.poller`channels, channel.poller`kernel
      ensures Valid() && (outputBuffer.data == old(outputBuffer.data) || fresh(outputBuffer.data))
      ensures View() == ConnSpec.SendInLoop(old(View()), message, result).0
      ensures notices == old(notices) + ConnSpec.SendInLoop(old(View()), message, result).1
    {
      hide Enqueued, Completion, Drop, View, Valid, Taken, PeerFoundGone;
      if state == Disconnected {
        Record([Sent(message, false)]);
        return;
      }
      var nwrote, error := TryWrite(|message|, result);
      Record([Sent(message, !error)]);
      Record(if nwrote > 0 then [Wrote(message[..nwrote])] else []);
      if !error && nwrote < |message| {
        Enqueue(message[nwrote..]);
      }
    }

    ghost method Record(events: seq<Event>)
      requires Valid()
      modifies this`trace
      ensures Valid() && View() == old(View()).(trace := old(View()).trace + events)
    {
      trace := trace + events;
    }

    /** `send` on the loop thread. */
    method Send(message: string, result: WriteResult)
      requires Valid() && Possible(result, |message|)
      modifies this`notices, this`trace, outputBuffer, outputBuffer.data,
               channel`events, channel`index, channel.poller`channels, channel.poller`kernel
      ensures Valid() && (outputBuffer.data == old(outputBuffer.data) || fresh(outputBuffer.data))
      ensures View() == ConnSpec.Send(old(View()), message, result).0
      ensures notices == old(notices) + ConnSpec.Send(old(View()), message, result).1
    {
      if state == Connected {
        SendInLoop(message, result);
      } else {
        trace := trace + [Sent(message, false)];
      }
    }

    method ShutdownInLoop()
      requires Valid()
      modifies this`trace
      ensures Valid() && View() == ConnSpec.ShutdownInLoop(old(View()))
    {
      if !channel.View().IsWriting() {
        trace := trace + [HalfClosed];
      }
    }

    /** `shutdown` on the loop thread. */
    method Shutdown()
      requires Valid()
      modifies this`state, this`trace
      ensures Valid() && View() == ConnSpec.Shutdown(old(View()))
    {
      if state == Connected {
        state := Disconnecting;
        ShutdownInLoop();
      }
    }

    method ConnectEstablished()
      requires Valid()
      modifies this`state, this`trace, channel`events, channel`index, channel`tied,
               channel.poller`channels, channel.poller`kernel
      ensures Valid() && View() == ConnSpec.ConnectEstablished(old(View()))
    {
      state := Connected;
      channel.tied := true;
      channel.EnableReading();
      trace := trace + [Up];
    }

    method ConnectDestroyed()
      requires Valid()
      modifies this`state, this`trace, channel`events, channel`index,
               channel.poller`channels, channel.poller`kernel
      ensures Valid() && View() == ConnSpec.ConnectDestroyed(old(View()))
    {
      if state == Connected {
        state := Disconnected;
        channel.DisableAll();
        trace := trace + [Down];
      }
      channel.Remove();
    }

    /** Up to the close callback: `close` asks the caller to make it. */
    method HandleClose()
      requires Valid()
      modifies this`state, this`trace, channel`events, channel`index,
               channel.poller`channels, channel.poller`kernel
      ensures Valid() && View() == ConnSpec.HandleClose(old(View()))
    {
      state := Disconnected;
      channel.DisableAll();
      trace := trace + [Down];
    }

    method HandleRead(result: ReadResult) returns (close: bool)
      requires Valid()
      requires result.Got? ==> |result.bytes| <= inputBuffer.WritableBytes() + EXTRA_SIZE
      modifies this`state, this`trace, inputBuffer, inputBuffer.data, channel`events, channel`index,
               channel.poller`channels, channel.poller`kernel
      ensures Valid() && (inputBuffer.data == old(inputBuffer.data) || fresh(inputBuffer.data))
      ensures View() == ConnSpec.HandleRead(old(View()), result)
      ensures close <==> result == Got("")
    {
      close := false;
      var n := inputBuffer.ReadFd(result);
      if n > 0 {
        trace := trace + [Message(result.bytes)];
      } else if n == 0 {
        assert old(inputBuffer.Contents()) + "" == old(inputBuffer.Contents());
        HandleClose();
        close := true;
      }
    }

    /** `result` is what writing the queued bytes would return. */
    method HandleWrite(result: WriteResult)
      requires Valid() && Possible(result, |outputBuffer.Contents()|)
      modifies this`notices, this`trace, outputBuffer`readerIndex, outputBuffer`writerIndex,
               channel`events, channel`index, channel.poller`channels, channel.poller`kernel
      ensures Valid()
      ensures View() == ConnSpec.HandleWrite(old(View()), result).0
      ensures notices == old(notices) + ConnSpec.HandleWrite(old(View()), result).1
    {
      hide ChannelSpec.DisableWriting, Drop;
      if channel.View().IsWriting() {
        if result.Accepted? && result.n > 0 {
          trace := trace + [Wrote(outputBuffer.Contents()[..result.n])];
          outputBuffer.Retrieve(result.n);
          if outputBuffer.ReadableBytes() == 0 {
            channel.DisableWriting();
            if config.writeComplete {
              QueueInLoop(WriteComplete);
            }
            if state == Disconnecting {
              ShutdownInLoop();
            }
          }
        }
      }
    }

    /** `handleEventWithGuard`: what the poller reported is handled in a fixed order.  `closes` counts
        the close callbacks it asks for. */
    method HandleEvent(revents: Revents, read: ReadResult, write: WriteResult) returns (closes: nat)
      requires Valid() && Possible(write, |outputBuffer.Contents()|)
      requires read.Got? ==> |read.bytes| <= inputBuffer.WritableBytes() + EXTRA_SIZE
      modifies this`state, this`notices, this`trace, inputBuffer, inputBuffer.data,
               outputBuffer`readerIndex, outputBuffer`writerIndex,
               channel`events, channel`index, channel.poller`channels, channel.poller`kernel
      ensures Valid() && (inputBuffer.data == old(inputBuffer.data) || fresh(inputBuffer.data))
      ensures View() == Dispatch(old(View()), revents, read, write).0
      ensures notices == old(notices) + Dispatch(old(View()), revents, read, write).1
      ensures closes == (if ClosesFirst(revents) then 1 else 0)
                        + (if Reads(revents) && read == Got("") then 1 else 0)
    {
      hide ConnSpec.HandleWrite, ConnSpec.HandleClose;
      closes := 0;
      if revents.hup && !revents.epollin {
        HandleClose();
        closes := 1;
      }
      if revents.epollin || revents.pri {
        var close := HandleRead(read);
        if close { closes := closes + 1; }
      }
      if revents.out {
        HandleWrite(write);
      }
    }
  }
}
