/** The batched message channel with a single waker slot (`src/sync/mpsc.rs`). */
module Channels {
  import opened Prelude
  import opened Tasks

  datatype ChannelState<T> = ChannelState(messages: seq<T>, waker: Option<TaskId>)

  /** `Sender::send`: the waker to call is the one that was stored. */
  function SendTo<T>(c: ChannelState<T>, msg: T): ChannelState<T> {
    ChannelState(c.messages + [msg], None)
  }

  /** `GetFut::poll`: an empty buffer stores the waker, any other is handed out whole. */
  function PollRecv<T>(c: ChannelState<T>, task: TaskId): (ChannelState<T>, Option<seq<T>>) {
    if c.messages == [] then (c.(waker := Some(task)), None)
    else (c.(messages := []), Some(c.messages))
  }

  /** A stored waker means that there is nothing to receive. */
  ghost predicate ChannelOk<T>(c: ChannelState<T>) {
    c.waker.Some? ==> c.messages == []
  }

  ghost function Flatten<T>(batches: seq<seq<T>>): seq<T> {
    if batches == [] then [] else Flatten(batches[..|batches| - 1]) + batches[|batches| - 1]
  }

  class Channel<T> {
    var messages: seq<T>
    var waker: Option<TaskId>
    ghost var sent: seq<T>
    ghost var received: seq<seq<T>>

    /** The stream law: what was received, then what is buffered, is what was sent. */
    ghost predicate Valid()
      reads this
    {
      && Flatten(received) + messages == sent
      && (forall b :: b in received ==> b != [])
      && ChannelOk(ChannelState(messages, waker))
    }

    constructor ()
      ensures Valid() && sent == [] && received == [] && messages == [] && waker == None
    {
      messages, waker, sent, received := [], None, [], [];
    }

    method Send(msg: T, queue: ReadyQueue)
      requires Valid()
      modifies this, queue
      ensures Valid()
      ensures ChannelState(messages, waker) == SendTo(old(ChannelState(messages, waker)), msg)
      ensures messages == old(messages) + [msg] && waker == None
      ensures sent == old(sent) + [msg] && received == old(received)
      ensures queue.tasks == old(queue.tasks) + (if old(waker).Some? then [old(waker).value] else [])
    {
      messages := messages + [msg];
      sent := sent + [msg];
      if waker.Some? {
        queue.Wake(waker.value);
        waker := None;
      }
    }

    method Poll(task: TaskId) returns (batch: Option<seq<T>>)
      requires Valid()
      modifies this
      ensures Valid()
      ensures (ChannelState(messages, waker), batch) == PollRecv(old(ChannelState(messages, waker)), task)
      ensures sent == old(sent)
      ensures received == old(received) + (if batch.Some? then [batch.value] else [])
      ensures batch.None? ==> waker == Some(task) && Flatten(received) == sent
      ensures batch.Some? <==> old(messages) != []
      ensures batch.Some? ==> batch.value == old(messages) && messages == [] && Flatten(received) == sent
    {
      if messages == [] {
        waker := Some(task);
        return None;
      }
      batch := Some(messages);
      received := received + [messages];
      assert received[..|received| - 1] == old(received);
      messages := [];
    }
  }
}
