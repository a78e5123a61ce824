/**
 * The vocabulary of the consumer's fan-out: the transport events it reacts to,
 * the classified inbound messages, and the calls it makes on its four
 * collaborators (connection monitor, subscription registry, connection, and
 * the optional user listener). The collaborators' internals are not modelled:
 * each call is an uninterpreted label.
 */
module Effects {
  import opened Options
  import Commands

  /** Identity of a user-supplied `GeneralListener` object. */
  datatype Listener = Listener(id: nat)

  /** The library's exception wrapper around a transport failure's cause. */
  datatype ActionCableException = ActionCableException(cause: string)

  /**
   * An inbound frame as classified by the message codec. `Other` is every
   * frame that is none of the four recognised kinds, including ordinary data.
   */
  datatype Message =
    | Welcome
    | Ping
    | Confirmation(identifier: JString)
    | Rejection(identifier: JString)
    | Other(identifier: JString, body: JString)

  /** The callbacks the connection delivers to the consumer. */
  datatype Event =
    | TransportOpen
    | TransportFailure(cause: string)
    | TransportMessage(raw: string, message: Message)
    | TransportClosing
    | TransportClosed

  datatype MonitorCall =
    | RecordConnect
    | RecordPing
    | RecordDisconnect
    | Start
    | Stop
    | SetStaleThresholdInSecond(seconds: int)

  datatype RegistryCall =
    | Reload
    | NotifyConnected(identifier: JString)
    | Reject(identifier: JString)
    | NotifyReceived(identifier: JString, body: JString)
    | NotifyDisconnected
    | NotifyFailed(error: ActionCableException)
    | RemoveAll

  /** `Send` carries the command; the connection receives its JSON form. */
  datatype ConnectionCall =
    | Open
    | Close
    | Send(command: Commands.Command)
    | SetGeneralListener(listener: Option<Listener>)

  datatype ListenerCall =
    | OnOpen
    | OnMessage(raw: string)
    | OnClosing
    | OnClosed
    | OnFailure(error: ActionCableException)

  /** One call made by the consumer on one collaborator. */
  datatype Effect =
    | ToMonitor(monitorCall: MonitorCall)
    | ToRegistry(registryCall: RegistryCall)
    | ToConnection(connectionCall: ConnectionCall)
    | ToListener(target: Listener, listenerCall: ListenerCall)

  datatype Collaborator = Monitor | Registry | Connection | GeneralListener

  function Target(e: Effect): Collaborator
  {
    match e
    case ToMonitor(_) => Monitor
    case ToRegistry(_) => Registry
    case ToConnection(_) => Connection
    case ToListener(_, _) => GeneralListener
  }

  /** No call in `t` goes to collaborator `c`. */
  predicate Avoids(t: seq<Effect>, c: Collaborator)
  {
    forall i :: 0 <= i < |t| ==> Target(t[i]) != c
  }

  /**
   * Every listener call in `t` goes to `listener`; in particular, when no
   * listener is set, `t` holds no listener call at all.
   */
  predicate Gated(listener: Option<Listener>, t: seq<Effect>)
  {
    forall i :: 0 <= i < |t| && t[i].ToListener? ==> listener == Some(t[i].target)
  }

  /**
   * Position of a call in the intended fan-out order: the raw-message echo to
   * the listener, then monitor bookkeeping, then registry dispatch, then the
   * listener's lifecycle callback.
   */
  function Rank(e: Effect): nat
  {
    match e
    case ToListener(_, OnMessage(_)) => 0
    case ToMonitor(_) => 1
    case ToRegistry(_) => 2
    case ToListener(_, _) => 3
    case ToConnection(_) => 4
  }

  predicate Ordered(t: seq<Effect>)
  {
    forall i, j :: 0 <= i < j < |t| ==> Rank(t[i]) <= Rank(t[j])
  }

  /**
   * Every `connection.open` is immediately followed by `monitor.start` and
   * every `monitor.start` immediately preceded by `connection.open`; likewise
   * for `connection.close` and `monitor.stop`.
   */
  predicate Paired(t: seq<Effect>)
  {
    && (forall i :: 0 <= i < |t| && t[i] == ToConnection(Open) ==> i + 1 < |t| && t[i + 1] == ToMonitor(Start))
    && (forall i :: 0 < i < |t| && t[i] == ToMonitor(Start) ==> t[i - 1] == ToConnection(Open))
    && (|t| > 0 ==> t[0] != ToMonitor(Start))
    && (forall i :: 0 <= i < |t| && t[i] == ToConnection(Close) ==> i + 1 < |t| && t[i + 1] == ToMonitor(Stop))
    && (forall i :: 0 < i < |t| && t[i] == ToMonitor(Stop) ==> t[i - 1] == ToConnection(Close))
    && (|t| > 0 ==> t[0] != ToMonitor(Stop))
  }

  /** Every monitor call in `t` is bookkeeping: none starts, stops or reconfigures the monitor. */
  predicate Bookkeeping(t: seq<Effect>)
  {
    forall i :: 0 <= i < |t| && t[i].ToMonitor? ==> t[i].monitorCall in {RecordConnect, RecordPing, RecordDisconnect}
  }

  /** A trace that neither calls the connection nor starts or stops the monitor is trivially paired. */
  lemma BookkeepingIsPaired(t: seq<Effect>)
    requires Avoids(t, Connection) && Bookkeeping(t)
    ensures Paired(t)
  {
    forall i | 0 <= i < |t|
      ensures t[i] != ToConnection(Open) && t[i] != ToConnection(Close)
      ensures t[i] != ToMonitor(Start) && t[i] != ToMonitor(Stop)
    {
      assert Target(t[i]) != Connection;
    }
  }

  lemma {:induction false} PairedConcat(a: seq<Effect>, b: seq<Effect>)
    requires Paired(a) && Paired(b)
    ensures Paired(a + b)
  {
    var t := a + b;
    forall i | 0 <= i < |t| && t[i] == ToConnection(Open)
      ensures i + 1 < |t| && t[i + 1] == ToMonitor(Start)
    {
      if i < |a| {
        assert a[i] == ToConnection(Open);
      } else {
        assert b[i - |a|] == ToConnection(Open);
      }
    }
    forall i | 0 < i < |t| && t[i] == ToMonitor(Start)
      ensures t[i - 1] == ToConnection(Open)
    {
      if i < |a| {
        assert a[i] == ToMonitor(Start);
      } else if i > |a| {
        assert b[i - |a|] == ToMonitor(Start);
      }
    }
    forall i | 0 <= i < |t| && t[i] == ToConnection(Close)
      ensures i + 1 < |t| && t[i + 1] == ToMonitor(Stop)
    {
      if i < |a| {
        assert a[i] == ToConnection(Close);
      } else {
        assert b[i - |a|] == ToConnection(Close);
      }
    }
    forall i | 0 < i < |t| && t[i] == ToMonitor(Stop)
      ensures t[i - 1] == ToConnection(Close)
    {
      if i < |a| {
        assert a[i] == ToMonitor(Stop);
      } else if i > |a| {
        assert b[i - |a|] == ToMonitor(Stop);
      }
    }
  }
}
