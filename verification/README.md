# ActionCable consumer: event fan-out and outbound commands

This project models the core of an ActionCable (WebSocket publish/subscribe)
Java client: the `Consumer`, which turns each connection lifecycle event into an
ordered series of calls on its collaborators, and the immutable `Command` value
it sends to the server.

The consumer sits between four collaborators: the connection monitor
(heartbeat and reconnect bookkeeping), the subscription registry, the
connection itself, and an optional user `GeneralListener`. Their internals are
outside this model. Every call on them is an uninterpreted label (`Effect`),
and every consumer operation is a pure function returning the trace of labels
it emits, in order. The consumer's only own state is the general listener
(`Consumers.Consumer`). A session is a sequence of inputs processed one at a
time (`Sessions.Run`). An input is either a transport event or a public call.

Layout:

- `options.dfy`: `Option`, and `JString`, a Java `String` that may be `null`.
- `command.dfy`: module `Commands`. The command triple, its two constructors and four factories. `Intent`/`Classify` give an independent reading of which factory built a command.
- `effects.dfy`: module `Effects`. Events, classified messages, collaborator calls, and the trace predicates `Gated`, `Ordered`, `Avoids` and `Paired`.
- `consumer.dfy`: module `Consumers`. The internal connection listener (open, failure, message, closing, closed) and the public calls `connect`, `disconnect`, `unsubscribeAndDisconnect`, `setGeneralListener`, `send` and `setStaleThresholdInSecond`.
- `session.dfy`: module `Sessions`. Whole sessions, with inductive lemmas on pairing, listener gating and how often the open sequence runs.

Notes on the order of calls:

- The usual fan-out order is monitor bookkeeping, then registry dispatch,
  then the user listener (`Effects.Ordered`, ranked by `Effects.Rank`). The
  code keeps this order for open, failure, closed and every message, with
  two exceptions:
  - On closing, the code notifies the registry before the monitor records
    the disconnect. `Consumers.HandleClosing` proves that this trace is not
    `Ordered`.
  - Every inbound frame is first echoed to the listener's `onMessage`,
    before any monitor or registry call. `Rank` puts this echo first on
    purpose.
- A welcome frame is handled by re-running the transport-open handler, so
  `onOpen` fires once per transport open and again per welcome.
  `Sessions.RunOnOpenCount` states this.

## Model

| member | source | states |
|---|---|---|
| Commands.New | src/main/java/com/hosopy/actioncable/Command.java:26-30 | the public constructor stores exactly the three given values; a datatype value is the whole of a command and cannot change afterwards |
| Commands.WithoutData | src/main/java/com/hosopy/actioncable/Command.java:22-24 | the private constructor stores the given command and identifier, and a null data field |
| Commands.Subscribe | src/main/java/com/hosopy/actioncable/Command.java:32-34 | command "subscribe", the given identifier, no data |
| Commands.Unsubscribe | src/main/java/com/hosopy/actioncable/Command.java:36-38 | command "unsubscribe", the given identifier, no data |
| Commands.Message | src/main/java/com/hosopy/actioncable/Command.java:40-42 | command "message", the given identifier, data equal to the params' string form |
| Commands.Pong | src/main/java/com/hosopy/actioncable/Command.java:44-46 | command "pong", no identifier, no data |
| Commands.Build | src/main/java/com/hosopy/actioncable/Command.java:32-46 | every factory's output is recognised by `Classify` as the factory and arguments that built it |
| Commands.ClassifyInvertsBuild | src/main/java/com/hosopy/actioncable/Command.java:32-46 | whatever `Classify` recognises is rebuilt exactly by the matching factory |
| Commands.FactoriesAreInjective | src/main/java/com/hosopy/actioncable/Command.java:32-46 | distinct factory calls never produce the same command |
| Consumers.NotifyGated | src/main/java/com/hosopy/actioncable/Consumer.java:37-79 | a listener callback is emitted at most once, only to the set listener, is exactly the requested callback, and is never emitted when no listener is set |
| Consumers.HandleOpen | src/main/java/com/hosopy/actioncable/Consumer.java:38-43 | a transport open records the connect, then reloads the registry, then (only if a listener is set) calls its onOpen; the trace is in fan-out order and never touches the connection |
| Consumers.HandleFailure | src/main/java/com/hosopy/actioncable/Consumer.java:45-49 | a failure first tells the registry, then makes exactly the listener's onFailure call (only if a listener is set), both with the same wrapped cause; the monitor is never touched |
| Consumers.Dispatch | src/main/java/com/hosopy/actioncable/Consumer.java:55-65 | routing is total and exclusive: a welcome replays the open sequence; any other message makes exactly one call, to the monitor for a ping and to the registry otherwise; the message, with its identifier and body, can be recovered from that call |
| Consumers.HandleMessage | src/main/java/com/hosopy/actioncable/Consumer.java:51-66 | the raw frame reaches the listener's onMessage first when a listener is set; everything after that echo is exactly the routing of `Dispatch`; a welcome emits the echo followed by the full open sequence; the trace is in fan-out order |
| Consumers.HandleClosing | src/main/java/com/hosopy/actioncable/Consumer.java:68-73 | closing notifies the registry, then records the disconnect on the monitor, then calls the listener's onClosing; this breaks monitor-before-registry order |
| Consumers.HandleClosed | src/main/java/com/hosopy/actioncable/Consumer.java:75-78 | closed makes exactly one call, the listener's onClosed, when a listener is set, and none otherwise; it never calls the monitor, registry or connection |
| Consumers.Handle | src/main/java/com/hosopy/actioncable/Consumer.java:37-79 | no event calls the connection, nor starts or stops the monitor; listener calls go only to the set listener; a trace is `Ordered`, with the raw-frame echo ranked first, exactly when the event is not closing; closed and failure leave the monitor alone |
| Consumers.Connect | src/main/java/com/hosopy/actioncable/Consumer.java:98-101 | connect is two calls, connection.open paired with monitor.start immediately after it, touching neither the registry nor the listener |
| Consumers.Disconnect | src/main/java/com/hosopy/actioncable/Consumer.java:106-109 | disconnect is two calls, connection.close paired with monitor.stop immediately after it, touching neither the registry nor the listener |
| Consumers.UnsubscribeAndDisconnect | src/main/java/com/hosopy/actioncable/Consumer.java:111-115 | registry.removeAll followed by exactly the disconnect sequence; the close/stop pairing holds |
| Consumers.ChangeListener | src/main/java/com/hosopy/actioncable/Consumer.java:117-120 | the consumer afterwards holds the new listener (possibly null), and the connection is handed the same listener |
| Consumers.SendCommand | src/main/java/com/hosopy/actioncable/Consumer.java:122-124 | send makes exactly one call, connection.send of the command, and returns the connection's answer to that very call |
| Consumers.ChangeStaleThreshold | src/main/java/com/hosopy/actioncable/Consumer.java:126-128 | the threshold is forwarded unchanged to the monitor in a single call |
| Sessions.Step | src/main/java/com/hosopy/actioncable/Consumer.java:37-128 | only setGeneralListener changes the consumer's state, and it installs exactly the listener given |
| Sessions.StepGated | src/main/java/com/hosopy/actioncable/Consumer.java:37-128 | every listener call an input causes goes to the listener set before that input |
| Sessions.StepPaired | src/main/java/com/hosopy/actioncable/Consumer.java:37-128 | every input's trace keeps connection/monitor pairing |
| Sessions.RunPaired | src/main/java/com/hosopy/actioncable/Consumer.java:98-115 | in every session, each connection.open is immediately followed by monitor.start and each monitor.start immediately preceded by connection.open; likewise for close and stop |
| Sessions.RunGated | src/main/java/com/hosopy/actioncable/Consumer.java:37-79 | while the listener is not reassigned, the consumer keeps it and every listener call in the session goes to it |
| Sessions.SilentWithoutListener | src/main/java/com/hosopy/actioncable/Consumer.java:37-79 | with no listener set, a session that never installs a non-null listener makes no listener call at all |
| Sessions.FreshConsumerIsSilent | src/main/java/com/hosopy/actioncable/Consumer.java:33-79 | a newly constructed consumer that is never given a non-null listener makes no listener call |
| Sessions.RunConcat | src/main/java/com/hosopy/actioncable/Consumer.java:37-128 | a session split in two has the state and trace of running the second part from where the first left off |
| Sessions.ListenerCallsFollowSetting | src/main/java/com/hosopy/actioncable/Consumer.java:117-120 | after setGeneralListener(l), every later listener call targets l until the listener is assigned again; after setGeneralListener(null) there are none |
| Sessions.ListenerCallsFollowSettingMidSession | src/main/java/com/hosopy/actioncable/Consumer.java:117-120 | the same holds when setGeneralListener is called in the middle of a session, for every call after it, whatever came before |
| Sessions.DispatchReopens | src/main/java/com/hosopy/actioncable/Consumer.java:55-56 | a message's dispatch records a connect, reloads the registry and fires onOpen once if it is a welcome, and never otherwise |
| Sessions.HandleReopens | src/main/java/com/hosopy/actioncable/Consumer.java:37-79 | a transport event runs the open sequence once if it is an open or a welcome, and never otherwise |
| Sessions.StepReopens | src/main/java/com/hosopy/actioncable/Consumer.java:37-128 | the same holds for any input; public calls never run the open sequence |
| Sessions.RunReopenCount | src/main/java/com/hosopy/actioncable/Consumer.java:39-56 | over a session, the monitor records a connect and the registry reloads exactly once per transport open plus once per welcome message |
| Sessions.RunOnOpenCount | src/main/java/com/hosopy/actioncable/GeneralListener.java:11-16 | with a fixed listener, onOpen fires once per transport open plus once per welcome, so it can fire several times in one session |
| Sessions.OpenThenWelcomeFiresOnOpenTwice | src/main/java/com/hosopy/actioncable/GeneralListener.java:11-16 | for a consumer with a listener set, a transport open followed by a welcome calls onOpen twice |

## Left out

- Connection, ConnectionMonitor and Subscriptions internals. Those classes are not part of this model, so their methods stay uninterpreted labels. This covers timers, stale thresholds, backoff, the connection state machine and the registry's per-subscription dispatch.
- JSON: `Command.toJson` (Gson) and `Message.fromJson` are foreign library calls. Each message event carries the codec's classification. The data a `send` puts on the wire is the command itself, standing in for its JSON form. A codec failure on a malformed frame is not modelled.
- Commands.Message: params is a non-null JSON object, taken as its string form. Passing null, which raises a NullPointerException in the source, is not modelled.
- `ActionCableException` wrapping: the source makes two separate wrapper objects around the same cause, one for the registry and one for the listener. Here they are one value with the same cause.
- Ping timestamps and any other message fields the consumer does not read.
- `getSubscriptions` and `getConnection` are plain getters.
- `isConnecting`, `isConnected`, `isClosing` and `isClosed` only read the connection's state, which is not part of this model. Their null-connection branches cannot occur, because the constructor always sets the connection.
- The consumer constructors and `Options`/`URI` handling: the wiring is captured by `Consumers.Handle`, and a new consumer is `Consumers.Fresh`.
- Threading and socket I/O: a session processes its inputs one at a time, in order.
- Consumers.Handle: the listener is read once per event. The source re-reads the `generalListener` field at each call site (Consumer.java lines 42, 48, 54, 72 and 77), after collaborator calls that may run user code. Collaborator and listener calls are assumed never to re-enter the consumer, for example by calling `setGeneralListener`. Under re-entry, `Sessions.StepGated` and `Sessions.RunGated` would not hold of the source. Every collaborator and listener call is also assumed to return normally. In the source, a call that throws ends the handler there: a throwing `onMessage` echo skips the routing, a throwing `reload` skips `onOpen`, and a throwing `notifyDisconnected` skips `recordDisconnect`. The source's trace is then a prefix of the modelled one, up to and including the throwing call.
- Sessions.Step: drops the boolean that `send` returns. `Consumers.SendCommand` states what it is.
