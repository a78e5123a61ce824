/**
 * The consumer's internal connection listener and its public lifecycle calls,
 * each modelled as the ordered trace of calls it makes on its collaborators.
 * The only state the consumer itself keeps is the optional general listener.
 */
module Consumers {
  import opened Options
  import Commands
  import opened Effects

  datatype Consumer = Consumer(generalListener: Option<Listener>)

  /** A newly constructed consumer has no general listener. */
  const Fresh: Consumer := Consumer(None)

  /** The listener callback `call`, guarded by "a listener is set". */
  function Notify(s: Consumer, call: ListenerCall): seq<Effect>
  {
    match s.generalListener
    case None => []
    case Some(l) => [ToListener(l, call)]
  }

  lemma NotifyGated(s: Consumer, call: ListenerCall)
    ensures Gated(s.generalListener, Notify(s, call))
    ensures |Notify(s, call)| <= 1
    ensures forall i :: 0 <= i < |Notify(s, call)| ==> Notify(s, call)[i].ToListener? && Notify(s, call)[i].listenerCall == call
    ensures s.generalListener.None? <==> Notify(s, call) == []
  {
  }

  /** Transport open, and the re-entry triggered by a welcome message. */
  function HandleOpen(s: Consumer): (t: seq<Effect>)
    ensures |t| >= 2 && t[0] == ToMonitor(RecordConnect) && t[1] == ToRegistry(Reload)
    ensures t[2..] == Notify(s, OnOpen)
    ensures Ordered(t) && Gated(s.generalListener, t) && Avoids(t, Connection)
    ensures Bookkeeping(t)
  {
    [ToMonitor(RecordConnect), ToRegistry(Reload)] + Notify(s, OnOpen)
  }

  /** Transport failure: every subscription and the listener see the same wrapped cause. */
  function HandleFailure(s: Consumer, cause: string): (t: seq<Effect>)
    ensures |t| >= 1 && t[0] == ToRegistry(NotifyFailed(ActionCableException(cause)))
    ensures t[1..] == Notify(s, OnFailure(ActionCableException(cause)))
    ensures forall i :: 0 <= i < |t| && t[i].ToListener? ==> t[i].listenerCall == OnFailure(ActionCableException(cause))
    ensures Avoids(t, Monitor) && Avoids(t, Connection)
    ensures Ordered(t) && Gated(s.generalListener, t)
    ensures Bookkeeping(t)
  {
    [ToRegistry(NotifyFailed(ActionCableException(cause)))] + Notify(s, OnFailure(ActionCableException(cause)))
  }

  /** The part of a message's handling that follows the echo to the listener. */
  function Dispatch(s: Consumer, m: Message): (t: seq<Effect>)
    ensures m.Welcome? ==> t == HandleOpen(s)
    ensures !m.Welcome? ==> |t| == 1 && (m.Ping? <==> Target(t[0]) == Monitor)
    ensures !m.Welcome? ==> (!m.Ping? <==> Target(t[0]) == Registry)
    ensures Recover(t) == Some(m)
    ensures Bookkeeping(t)
  {
    match m
    case Welcome() => HandleOpen(s)
    case Ping() => [ToMonitor(RecordPing)]
    case Confirmation(id) => [ToRegistry(NotifyConnected(id))]
    case Rejection(id) => [ToRegistry(Reject(id))]
    case Other(id, body) => [ToRegistry(NotifyReceived(id, body))]
  }

  /**
   * Reads back which message a dispatch trace answers, from its first call.
   * Dispatch is routed so that this always recovers the message: distinct
   * messages reach distinct handlers, identifiers and bodies intact.
   */
  function Recover(t: seq<Effect>): Option<Message>
  {
    if t == [] then None
    else
      match t[0]
      case ToMonitor(RecordConnect()) => Some(Welcome)
      case ToMonitor(RecordPing()) => Some(Ping)
      case ToRegistry(NotifyConnected(id)) => Some(Confirmation(id))
      case ToRegistry(Reject(id)) => Some(Rejection(id))
      case ToRegistry(NotifyReceived(id, body)) => Some(Other(id, body))
      case _ => None
  }

  /** An inbound frame: echo the raw text to the listener, then route the classified message. */
  function HandleMessage(s: Consumer, raw: string, m: Message): (t: seq<Effect>)
    ensures s.generalListener.Some? ==> |t| >= 1 && t[0] == ToListener(s.generalListener.value, OnMessage(raw))
    ensures m.Welcome? ==> t == Notify(s, OnMessage(raw)) + HandleOpen(s)
    ensures t[|Notify(s, OnMessage(raw))|..] == Dispatch(s, m)
    ensures Ordered(t) && Gated(s.generalListener, t) && Avoids(t, Connection)
    ensures Bookkeeping(t)
  {
    Notify(s, OnMessage(raw)) + Dispatch(s, m)
  }

  /** Transport closing: the registry is told before the monitor records the disconnect. */
  function HandleClosing(s: Consumer): (t: seq<Effect>)
    ensures |t| >= 2 && t[0] == ToRegistry(NotifyDisconnected) && t[1] == ToMonitor(RecordDisconnect)
    ensures t[2..] == Notify(s, OnClosing)
    ensures !Ordered(t)
    ensures Gated(s.generalListener, t) && Avoids(t, Connection)
    ensures Bookkeeping(t)
  {
    [ToRegistry(NotifyDisconnected), ToMonitor(RecordDisconnect)] + Notify(s, OnClosing)
  }

  /** Transport closed: only the listener hears of it. */
  function HandleClosed(s: Consumer): (t: seq<Effect>)
    ensures Avoids(t, Monitor) && Avoids(t, Registry) && Avoids(t, Connection)
    ensures |t| == (if s.generalListener.Some? then 1 else 0)
    ensures forall i :: 0 <= i < |t| ==> t[i].ToListener? && t[i].listenerCall == OnClosed
    ensures Gated(s.generalListener, t)
    ensures Bookkeeping(t)
  {
    Notify(s, OnClosed)
  }

  /** The internal connection listener: one transport event to its trace. */
  function Handle(s: Consumer, ev: Event): (t: seq<Effect>)
    ensures Gated(s.generalListener, t) && Avoids(t, Connection)
    ensures !ev.TransportClosing? <==> Ordered(t)
    ensures ev.TransportClosed? ==> Avoids(t, Monitor) && Avoids(t, Registry)
    ensures ev.TransportFailure? ==> Avoids(t, Monitor)
    ensures Bookkeeping(t)
  {
    match ev
    case TransportOpen() => HandleOpen(s)
    case TransportFailure(cause) => HandleFailure(s, cause)
    case TransportMessage(raw, m) => HandleMessage(s, raw, m)
    case TransportClosing() => HandleClosing(s)
    case TransportClosed() => HandleClosed(s)
  }

  /** `connect`: open the connection, then start the monitor. */
  function Connect(): (t: seq<Effect>)
    ensures |t| == 2 && ToConnection(Open) in t && Paired(t)
    ensures Avoids(t, Registry) && Avoids(t, GeneralListener)
  {
    [ToConnection(Open), ToMonitor(Start)]
  }

  /** `disconnect`: close the connection, then stop the monitor. */
  function Disconnect(): (t: seq<Effect>)
    ensures |t| == 2 && ToConnection(Close) in t && Paired(t)
    ensures Avoids(t, Registry) && Avoids(t, GeneralListener)
  {
    [ToConnection(Close), ToMonitor(Stop)]
  }

  /** `unsubscribeAndDisconnect`: empty the registry, then disconnect. */
  function UnsubscribeAndDisconnect(): (t: seq<Effect>)
    ensures t == [ToRegistry(RemoveAll)] + Disconnect()
    ensures Paired(t) && Avoids(t, GeneralListener)
  {
    [ToRegistry(RemoveAll), ToConnection(Close), ToMonitor(Stop)]
  }

  datatype Outcome = Outcome(next: Consumer, effects: seq<Effect>)

  /** `setGeneralListener`: remember the listener and hand it to the connection too. */
  function ChangeListener(s: Consumer, l: Option<Listener>): (r: Outcome)
    ensures r.next.generalListener == l
    ensures r.effects == [ToConnection(SetGeneralListener(l))]
  {
    Outcome(Consumer(l), [ToConnection(SetGeneralListener(l))])
  }

  datatype Sent = Sent(accepted: bool, effects: seq<Effect>)

  /**
   * `send`: hand the command to the connection. `accepts` is the connection's
   * answer to being sent a command's JSON form.
   */
  function SendCommand(c: Commands.Command, accepts: Commands.Command -> bool): (r: Sent)
    ensures r.effects == [ToConnection(Send(c))]
    ensures r.accepted == accepts(r.effects[0].connectionCall.command)
  {
    Sent(accepts(c), SendTrace(c))
  }

  /** The calls `send` makes: the command goes to the connection and nowhere else. */
  function SendTrace(c: Commands.Command): seq<Effect>
  {
    [ToConnection(Send(c))]
  }

  /** `setStaleThresholdInSecond`: forwarded unchanged to the monitor. */
  function ChangeStaleThreshold(seconds: int): (t: seq<Effect>)
    ensures |t| == 1 && t[0] == ToMonitor(SetStaleThresholdInSecond(seconds))
  {
    [ToMonitor(SetStaleThresholdInSecond(seconds))]
  }
}
