/** The classes of the client's `impl` package that a subscription works with. Each method
    of `NatsSubscription` is proved to move `World()` by one `SubscriptionSpec.Step`, so the
    lemmas of `SubscriptionSpec` hold of every sequence of calls on the objects. */
module NatsImpl {
  import opened Wrappers
  import opened JavaInts
  import S = SubscriptionSpec

  /** The blocking queue behind a pull-mode subscription, reduced to its buffered messages
      and its closed flag (set by `interrupt`). */
  class MessageQueue {
    var buffered: seq<S.Message>
    var closed: bool

    constructor ()
      ensures buffered == [] && !closed
    {
      buffered := [];
      closed := false;
    }

    /** Appends a message; a closed queue drops it. */
    method Push(m: S.Message)
      modifies this
      ensures closed == old(closed)
      ensures buffered == if old(closed) then old(buffered) else old(buffered) + [m]
    {
      if !closed {
        buffered := buffered + [m];
      }
    }

    /** Removes and returns the head; `None` when the wait ends without a message, either
        because the timeout elapsed on an empty queue or because the queue is closed. */
    method Pop() returns (m: Option<S.Message>)
      modifies this
      ensures closed == old(closed)
      ensures old(closed) ==> m == None && buffered == old(buffered)
      ensures !old(closed) ==> (m, buffered) == S.Pop(old(buffered))
    {
      if closed || buffered == [] {
        m := None;
      } else {
        m := Some(buffered[0]);
        buffered := buffered[1..];
      }
    }

    /** Closes the queue for good, waking any waiting consumer. */
    method Interrupt()
      modifies this
      ensures closed && buffered == old(buffered)
    {
      closed := true;
    }
  }

  /** A dispatcher is only ever referred to by a subscription, never inspected. */
  class NatsDispatcher {
    constructor ()
    {
    }
  }

  /** The connection, reduced to the log of calls subscriptions make into it. */
  class NatsConnection {
    var calls: seq<S.ConnCall>

    constructor ()
      ensures calls == []
    {
      calls := [];
    }

    method Invalidate(sub: NatsSubscription)
      modifies this
      ensures calls == old(calls) + [S.InvalidateCall(sub.sid)]
    {
      calls := calls + [S.InvalidateCall(sub.sid)];
    }

    /** The connection's reader routing an inbound message to a subscription: a pull-mode
        subscription's queue receives it (`getMessageQueue().push`); otherwise the
        subscription itself is not touched. */
    method Deliver(sub: NatsSubscription, m: S.Message)
      requires sub.Valid()
      modifies sub.incoming
      ensures sub.Valid()
      ensures sub.World() == S.Step(old(sub.World()), S.DeliverOp(m))
    {
      if sub.incoming != null && sub.dispatcher == null {
        sub.incoming.Push(m);
      }
    }

    method Unsubscribe(sub: NatsSubscription, after: int32)
      modifies this
      ensures calls == old(calls) + [S.UnsubscribeCall(sub.sid, after)]
    {
      calls := calls + [S.UnsubscribeCall(sub.sid, after)];
    }
  }

  class NatsSubscription {
    const sid: string
    const subject: string
    const queueName: string
    const connection: NatsConnection

    var dispatcher: NatsDispatcher?
    var incoming: MessageQueue?

    var maxMessages: int64
    var messagesReceived: int64

    /** Never both a dispatcher and a queue; a queue still held is open. */
    ghost predicate Valid()
      reads this, incoming
    {
      (dispatcher == null || incoming == null) &&
      (incoming != null ==> !incoming.closed)
    }

    ghost function View(): S.Sub
      reads this, incoming
    {
      S.Sub(sid, subject, queueName,
            if dispatcher != null then S.DispatcherOwned
            else if incoming != null then S.Pull(incoming.buffered)
            else S.Detached,
            maxMessages, messagesReceived)
    }

    /** The subscription with the calls of its connection's log that name its own sid; calls
        other subscriptions of the same connection make are not part of it. */
    ghost function World(): S.World
      reads this, incoming, connection
    {
      S.World(View(), S.CallsFor(connection.calls, sid))
    }

    constructor (sid: string, subject: string, queueName: string, connection: NatsConnection,
                 dispatcher: NatsDispatcher?)
      ensures Valid()
      ensures View() == S.Created(sid, subject, queueName, dispatcher != null)
      ensures this.connection == connection && this.dispatcher == dispatcher
      ensures incoming != null ==> fresh(incoming)
    {
      this.subject := subject;
      this.queueName := queueName;
      this.sid := sid;
      this.dispatcher := dispatcher;
      this.connection := connection;
      this.maxMessages := -1;
      this.messagesReceived := 0;
      if dispatcher == null {
        this.incoming := new MessageQueue();
      } else {
        this.incoming := null;
      }
    }

    function IsActive(): (r: bool)
      reads this, incoming
      ensures r == S.IsActive(View())
    {
      dispatcher != null || incoming != null
    }

    /** Closes the private queue, if any, and drops both the dispatcher and the queue. */
    method Invalidate()
      modifies this, incoming
      ensures Valid()
      ensures World() == S.Step(old(World()), S.InvalidateOp)
      ensures dispatcher == null && incoming == null
      ensures old(incoming) != null ==> old(incoming).closed && old(incoming).buffered == old(incoming.buffered)
    {
      if incoming != null {
        incoming.Interrupt();
      }
      dispatcher := null;
      incoming := null;
    }

    method SetMax(cd: int64)
      modifies this`maxMessages
      ensures World() == S.Step(old(World()), S.SetMaxOp(cd))
    {
      maxMessages := cd;
    }

    method GetMax() returns (m: int64)
      ensures m == View().max
    {
      m := maxMessages;
    }

    method IncrementMessageCount()
      modifies this`messagesReceived
      ensures World() == S.Step(old(World()), S.IncrementOp)
    {
      messagesReceived := Inc64(messagesReceived);
    }

    method GetMessageCount() returns (n: int64)
      ensures n == View().received
    {
      n := messagesReceived;
    }

    function ReachedMax(): (r: bool)
      reads this
      ensures r == S.LimitReached(maxMessages, messagesReceived)
    {
      maxMessages > 0 && maxMessages <= messagesReceived
    }

    /** `invalidatedWhileWaiting` stands for the connection invalidating this subscription
        while `pop` waits; the re-check after the wait then sees no queue. */
    method NextMessage(invalidatedWhileWaiting: bool) returns (r: Result<Option<S.Message>, S.SubError>)
      requires Valid()
      modifies this, incoming, connection
      ensures Valid()
      ensures dispatcher == null || dispatcher == old(dispatcher)
      ensures incoming == null || incoming == old(incoming)
      ensures old(connection.calls) <= connection.calls
      ensures S.CallsAreFor(connection.calls, |old(connection.calls)|, sid)
      ensures World() == S.NextMessage(old(World()), invalidatedWhileWaiting).0
      ensures r == S.NextMessage(old(World()), invalidatedWhileWaiting).1
    {
      if dispatcher != null {
        return Failure(S.WrongMode);
      } else if incoming == null {
        return Failure(S.Inactive);
      }

      var msg := incoming.Pop();
      if invalidatedWhileWaiting {
        Invalidate();
      }

      if incoming == null {
        return Failure(S.Inactive);
      }

      IncrementMessageCount();

      if ReachedMax() {
        S.CallsForAppend(connection.calls, S.InvalidateCall(sid), sid);
        connection.Invalidate(this);
      }

      return Success(msg);
    }

    method Unsubscribe() returns (r: Result<(), S.SubError>)
      modifies connection
      ensures World() == S.Step(old(World()), S.UnsubscribeOp)
      ensures r == S.Unsubscribe(old(World()), S.UNSUBSCRIBE_NOW).1
      ensures old(connection.calls) <= connection.calls
      ensures S.CallsAreFor(connection.calls, |old(connection.calls)|, sid)
    {
      if dispatcher != null {
        return Failure(S.WrongMode);
      } else if incoming == null {
        return Failure(S.Inactive);
      }

      S.CallsForAppend(connection.calls, S.UnsubscribeCall(sid, -1), sid);
      connection.Unsubscribe(this, -1);
      return Success(());
    }

    /** Returns this subscription on success, so that calls can be chained. */
    method UnsubscribeAfter(after: int32) returns (r: Result<NatsSubscription, S.SubError>)
      modifies connection
      ensures World() == S.Step(old(World()), S.UnsubscribeAfterOp(after))
      ensures r.Success? <==> S.Unsubscribe(old(World()), after).1.Success?
      ensures r.Success? ==> r.value == this
      ensures r.Failure? ==> r.error == S.Unsubscribe(old(World()), after).1.error
      ensures old(connection.calls) <= connection.calls
      ensures S.CallsAreFor(connection.calls, |old(connection.calls)|, sid)
    {
      if dispatcher != null {
        return Failure(S.WrongMode);
      } else if incoming == null {
        return Failure(S.Inactive);
      }

      S.CallsForAppend(connection.calls, S.UnsubscribeCall(sid, after), sid);
      connection.Unsubscribe(this, after);
      return Success(this);
    }
  }
}
