# NATS subscription state machine in Dafny

This project models `NatsSubscription`, the subscription object of the NATS Java client.
A subscription has an identity: a server-assigned sid, a subject and a queue-group name.
It is in one of two modes. In dispatcher-owned mode a dispatcher delivers its messages.
In pull mode the application drains a private message queue with `nextMessage`.
It counts the messages it has received and may carry a limit (`maxMessages`; `-1` means
unlimited). When a `nextMessage` reaches that limit, it asks the connection to invalidate
the subscription. Invalidation drops the dispatcher and the queue, closes the queue, and is
permanent.

Layout:
- `wrappers.dfy`: `Option` (Java `null`) and `Result` (the `IllegalStateException` paths).
- `java_ints.dfy`: Java `long` and `int`, and `incrementAndGet` with two's-complement wrap.
- `subscription_spec.dfy` (module `SubscriptionSpec`): the abstract state. `World` is the
  subscription together with the log of calls it has made into its connection, and
  `Step`/`Run` apply operations to it. The lemmas state the properties for one operation
  and for every sequence of operations.
- `nats_impl.dfy` (module `NatsImpl`): the classes `MessageQueue`, `NatsDispatcher`,
  `NatsConnection` and `NatsSubscription`, with the Java fields. A subscription's
  `World()` is its own state together with the calls in its connection's log that name its
  sid. Each method of `NatsSubscription` is proved to move `World()` by exactly one
  `SubscriptionSpec.Step`, and so is the connection routing a message into its queue
  (`NatsConnection.Deliver`). The methods also promise that the connection's full log only
  grows, by calls naming their own sid. By `CallsForIgnoresOthers`, calls other
  subscriptions of the same connection make (with other sids) leave this subscription's
  `World()` unchanged. So the trace lemmas hold for every sequence of calls on one
  subscription, also when subscriptions with distinct sids share a connection.

Behaviour kept as the code has it:
- `nextMessage` counts a message whenever the queue is still present after `pop`. This
  includes a `pop` that timed out and returned no message (`TimeoutIsCounted`).
- The message that reaches the limit is still returned, after the invalidation request.
- The re-check after `pop` turns an invalidation that happened during the wait into an
  `Inactive` failure, and the count does not move.

## Model

| member | source | states |
|---|---|---|
| NatsImpl.NatsSubscription.constructor | src/main/java/io/nats/client/impl/NatsSubscription.java:35-48 | the new object's state is `Created`: limit -1, count 0, and a fresh open empty queue exactly when no dispatcher is given; the object invariant holds |
| SubscriptionSpec.CreatedIsActive | src/main/java/io/nats/client/impl/NatsSubscription.java:35-48 | a new subscription is active, unlimited, has received nothing and keeps its sid, subject and queue name; it is in pull mode with an empty queue iff no dispatcher is given |
| NatsImpl.NatsSubscription.IsActive | src/main/java/io/nats/client/impl/NatsSubscription.java:50-52 | true iff a dispatcher or a queue is present, i.e. the abstract mode is not `Detached` |
| NatsImpl.NatsSubscription.Invalidate | src/main/java/io/nats/client/impl/NatsSubscription.java:54-60 | closes the old queue (keeping its buffered messages), clears dispatcher and queue, and changes nothing else in the abstract state or log |
| SubscriptionSpec.InvalidateDetaches | src/main/java/io/nats/client/impl/NatsSubscription.java:54-60 | after invalidation the subscription is inactive; a second invalidation changes nothing; sid, subject, queue name, both counters and the log are unchanged |
| NatsImpl.NatsSubscription.SetMax | src/main/java/io/nats/client/impl/NatsSubscription.java:62-64 | only the limit changes, to the given value |
| NatsImpl.NatsSubscription.GetMax | src/main/java/io/nats/client/impl/NatsSubscription.java:66-68 | returns the current limit |
| NatsImpl.NatsSubscription.IncrementMessageCount | src/main/java/io/nats/client/impl/NatsSubscription.java:70-72 | only the count changes, by a `long` increment |
| JavaInts.Inc64 | src/main/java/io/nats/client/impl/NatsSubscription.java:70-72 | the increment is addition of one modulo 2^64 in the signed `long` range |
| JavaInts.Inc64IsSuccessor | src/main/java/io/nats/client/impl/NatsSubscription.java:70-72 | below the largest `long` the increment adds exactly one |
| NatsImpl.NatsSubscription.GetMessageCount | src/main/java/io/nats/client/impl/NatsSubscription.java:74-76 | returns the current count |
| NatsImpl.NatsSubscription.ReachedMax | src/main/java/io/nats/client/impl/NatsSubscription.java:78-82 | agrees with the model's limit predicate on the two counters |
| SubscriptionSpec.LimitReachedCases | src/main/java/io/nats/client/impl/NatsSubscription.java:78-82 | a limit of zero or less, the default -1 among them, is never reached by any count; a positive limit is reached iff the count is at least the limit |
| NatsImpl.NatsSubscription.NextMessage | src/main/java/io/nats/client/impl/NatsSubscription.java:104-125 | the new state, the log and the result are those of the model's `NextMessage`; the object invariant is kept; the dispatcher and the queue are the old ones or null; the connection's full log only grows, by calls naming this sid |
| SubscriptionSpec.GuardsFailWithoutEffect | src/main/java/io/nats/client/impl/NatsSubscription.java:104-110 | `nextMessage`, `unsubscribe()` and `unsubscribe(after)` fail with `WrongMode` on a dispatcher-owned subscription and with `Inactive` on an invalidated one, leaving state and log unchanged (the same guards are at lines 134-140 and 171-177) |
| SubscriptionSpec.InvalidatedWhileWaitingFails | src/main/java/io/nats/client/impl/NatsSubscription.java:112-116 | invalidated during `pop`: the call fails with `Inactive`, the subscription is inactive, and the count, limit and log are unchanged |
| SubscriptionSpec.NextMessageCountsThenDelivers | src/main/java/io/nats/client/impl/NatsSubscription.java:118-124 | after the re-check: the count moves by one `long` increment; exactly one invalidate request is logged iff the limit is now reached; the popped head is returned and removed, or `None` on an empty queue |
| SubscriptionSpec.TimeoutIsCounted | src/main/java/io/nats/client/impl/NatsSubscription.java:112-122 | with an empty queue and a limit of one, a timed-out `nextMessage` returns no message, yet counts it and requests invalidation |
| SubscriptionSpec.LimitThenInvalidateStopsCounting | src/main/java/io/nats/client/impl/NatsSubscription.java:118-122 | once a `nextMessage` reaches the limit and the connection carries out the invalidation, no later application call changes the count |
| NatsImpl.NatsSubscription.Unsubscribe | src/main/java/io/nats/client/impl/NatsSubscription.java:134-143 | the new state, the log and the result are those of the model's `Unsubscribe` with count -1; the connection's full log only grows, by calls naming this sid |
| NatsImpl.NatsSubscription.UnsubscribeAfter | src/main/java/io/nats/client/impl/NatsSubscription.java:171-181 | the new state and log are those of the model's `Unsubscribe` with the given count; it fails exactly when the model does, with the same error, and otherwise returns this same object; the connection's full log only grows, by calls naming this sid |
| SubscriptionSpec.UnsubscribeRequestsOnce | src/main/java/io/nats/client/impl/NatsSubscription.java:142 | on an active pull-mode subscription, unsubscribing succeeds and appends exactly one unsubscribe request with its count (-1 for `unsubscribe()`), changing nothing else |
| NatsImpl.MessageQueue.Pop | src/main/java/io/nats/client/impl/NatsSubscription.java:112 | on an open queue, removes and returns the head, or `None` when empty; on a closed queue, `None` and nothing changes |
| NatsImpl.MessageQueue.Interrupt | src/main/java/io/nats/client/impl/NatsSubscription.java:56 | the queue becomes closed and keeps its buffered messages |
| NatsImpl.NatsConnection.Invalidate | src/main/java/io/nats/client/impl/NatsSubscription.java:121 | appends exactly one invalidate request for the subscription's sid to the log |
| NatsImpl.NatsConnection.Deliver | src/main/java/io/nats/client/impl/NatsSubscription.java:92-94 | routing a message into a subscription's queue (reached through `getMessageQueue`) is one `DeliverOp` step: appended to a pull-mode queue, no effect otherwise; the object invariant is kept |
| SubscriptionSpec.CallsForAppend | src/main/java/io/nats/client/impl/NatsSubscription.java:121-179 | a call appended to the connection's log joins a subscription's own calls exactly when it names that subscription's sid |
| SubscriptionSpec.CallsForIgnoresOthers | src/main/java/io/nats/client/impl/NatsSubscription.java:121-179 | calls appended to the connection's log that all name other sids leave a subscription's own calls unchanged |
| NatsImpl.NatsConnection.Unsubscribe | src/main/java/io/nats/client/impl/NatsSubscription.java:179 | appends exactly one unsubscribe request for the sid and count to the log |
| SubscriptionSpec.StepInvariants | src/main/java/io/nats/client/impl/NatsSubscription.java:35-125 | no single operation changes the identity or reactivates an inactive subscription; the log only grows, by calls about this sid |
| SubscriptionSpec.RunKeepsIdentity | src/main/java/io/nats/client/impl/NatsSubscription.java:24-26 | over any sequence of operations, sid, subject and queue name never change |
| SubscriptionSpec.RunNeverReactivates | src/main/java/io/nats/client/impl/NatsSubscription.java:50-60 | invalidation is irreversible: from an inactive state, no sequence of operations makes the subscription active or adds a connection call |
| SubscriptionSpec.RunOnlyAppendsOwnCalls | src/main/java/io/nats/client/impl/NatsSubscription.java:121-179 | over any sequence of operations, the log only grows, and every call appended names this subscription's sid |
| SubscriptionSpec.GuardedCallsChangeNothing | src/main/java/io/nats/client/impl/NatsSubscription.java:104-110 | any sequence of application calls on a dispatcher-owned or inactive subscription leaves subscription and log exactly as they were |

## Left out

- Blocking, timeouts and interrupt wake-ups of `MessageQueue`. Its source is not part of this model. `pop` takes no `Duration`; an empty queue stands for a wait that timed out.
- Invalidation during a blocking `pop` is a boolean parameter of `NextMessage`. It is modelled as taking place after the queue was examined. The observable outcome (an `Inactive` failure, no count, no log entry) is the same as invalidation before a message arrived.
- `MessageQueue.Pop` on a closed queue returns `None` even if messages are buffered. The queue's source is not part of this model. In this model a subscription never pops a closed queue: the object invariant keeps the queue it holds open, and invalidation during the wait is applied after the pop.
- NextMessage: a thread interrupt during `pop` is not modelled. In the source `incoming.pop(timeout)` may throw `InterruptedException`, which leaves `nextMessage` without counting or logging anything; the model has no such outcome, because thread interruption is outside the sequential model.
- `NatsConnection.invalidate` and `unsubscribe` are only logged. Their effects (routing-table removal, the protocol UNSUB, calling back `invalidate`/`setMax`) belong to the connection, which is not part of this model. So after a limit-reaching `nextMessage` the subscription stays active until an `InvalidateOp` is applied, as in `LimitThenInvalidateStopsCounting`.
- Atomicity of the `AtomicLong` counters and races between reader, consumer and unsubscriber threads. The counters are plain fields updated one operation at a time.
- The dispatcher's own behaviour (`NatsDispatcher`, its dispatch loop and registrations). Its source is not part of this model; a dispatcher is only a reference the subscription holds.
- The log a subscription sees is the calls naming its sid. Two subscriptions of one connection that shared a sid would see each other's calls; the connection issues distinct sids, which is not part of this model.
- The accessors `getSID`, `getSubject`, `getQueueName`, `getDispatcher` and `getMessageQueue`. They are the fields themselves (`sid`, `subject` and `queueName` are constants).
- `unsubscribe(int after)` is called `UnsubscribeAfter`, because Dafny has no overloading.
- The end-to-end dispatcher tests and the test authentication handler. They need a live server and crypto that is not part of this model.
