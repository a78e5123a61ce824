/**
 * A consumer's life as a sequence of inputs: transport events delivered by the
 * connection and public calls made by the application, processed one at a time
 * in arrival order. The effects of a session are the concatenation of each
 * input's trace.
 */
module Sessions {
  import opened Options
  import Commands
  import opened Effects
  import opened Consumers

  datatype Input =
    | Transport(event: Event)
    | CallConnect
    | CallDisconnect
    | CallUnsubscribeAndDisconnect
    | CallSetGeneralListener(listener: Option<Listener>)
    | CallSend(command: Commands.Command)
    | CallSetStaleThreshold(seconds: int)

  /** The inputs that run the open sequence: a transport open or a welcome message. */
  predicate Reopens(input: Input)
  {
    input.Transport? &&
    (input.event.TransportOpen? || (input.event.TransportMessage? && input.event.message.Welcome?))
  }

  function Opens(inputs: seq<Input>): nat
  {
    if inputs == [] then 0 else (if Reopens(inputs[0]) then 1 else 0) + Opens(inputs[1..])
  }

  predicate KeepsListener(inputs: seq<Input>)
  {
    forall i :: 0 <= i < |inputs| ==> !inputs[i].CallSetGeneralListener?
  }

  /** One input applied to the consumer; the answer of `send` is not recorded here. */
  function Step(s: Consumer, input: Input): (r: Outcome)
    ensures !input.CallSetGeneralListener? ==> r.next == s
    ensures input.CallSetGeneralListener? ==> r.next.generalListener == input.listener
  {
    match input
    case Transport(ev) => Outcome(s, Handle(s, ev))
    case CallConnect() => Outcome(s, Connect())
    case CallDisconnect() => Outcome(s, Disconnect())
    case CallUnsubscribeAndDisconnect() => Outcome(s, UnsubscribeAndDisconnect())
    case CallSetGeneralListener(l) => ChangeListener(s, l)
    case CallSend(c) => Outcome(s, SendTrace(c))
    case CallSetStaleThreshold(n) => Outcome(s, ChangeStaleThreshold(n))
  }

  /** Each input's trace reaches only the listener set before it. */
  lemma StepGated(s: Consumer, input: Input)
    ensures Gated(s.generalListener, Step(s, input).effects)
  {
    if input.Transport? {
      assert Step(s, input).effects == Handle(s, input.event);
    }
  }

  /** Each input's trace keeps connection actions paired with monitor actions. */
  lemma StepPaired(s: Consumer, input: Input)
    ensures Paired(Step(s, input).effects)
  {
    match input
    case Transport(ev) =>
      BookkeepingIsPaired(Handle(s, ev));
    case CallSend(c) =>
    case CallSetGeneralListener(l) =>
    case CallSetStaleThreshold(n) =>
    case CallConnect() =>
    case CallDisconnect() =>
    case CallUnsubscribeAndDisconnect() =>
  }

  /** How often the listener call `call` reaches the listener as `e`. */
  lemma NotifyCount(s: Consumer, call: ListenerCall, e: Effect)
    ensures multiset(Notify(s, call))[e] == (if s.generalListener.Some? && e == ToListener(s.generalListener.value, call) then 1 else 0)
  {
  }

  /** Only a welcome message's dispatch runs the open sequence. */
  lemma DispatchReopens(s: Consumer, m: Message, e: Effect)
    requires e == ToMonitor(RecordConnect) || e == ToRegistry(Reload) ||
             (s.generalListener.Some? && e == ToListener(s.generalListener.value, OnOpen))
    ensures multiset(Dispatch(s, m))[e] == (if m.Welcome? then 1 else 0)
  {
    if m.Welcome? {
      NotifyCount(s, OnOpen, e);
      assert Dispatch(s, m) == [ToMonitor(RecordConnect), ToRegistry(Reload)] + Notify(s, OnOpen);
    }
  }

  /** Counts of the open-sequence calls a single transport event makes. */
  lemma HandleReopens(s: Consumer, ev: Event, e: Effect)
    requires e == ToMonitor(RecordConnect) || e == ToRegistry(Reload) ||
             (s.generalListener.Some? && e == ToListener(s.generalListener.value, OnOpen))
    ensures multiset(Handle(s, ev))[e] == (if Reopens(Transport(ev)) then 1 else 0)
  {
    match ev {
      case TransportOpen() =>
        NotifyCount(s, OnOpen, e);
        assert Handle(s, ev) == [ToMonitor(RecordConnect), ToRegistry(Reload)] + Notify(s, OnOpen);
      case TransportFailure(cause) =>
        NotifyCount(s, OnFailure(ActionCableException(cause)), e);
        assert Handle(s, ev) == [ToRegistry(NotifyFailed(ActionCableException(cause)))] + Notify(s, OnFailure(ActionCableException(cause)));
      case TransportMessage(raw, m) =>
        NotifyCount(s, OnMessage(raw), e);
        DispatchReopens(s, m, e);
        assert Handle(s, ev) == Notify(s, OnMessage(raw)) + Dispatch(s, m);
      case TransportClosing() =>
        NotifyCount(s, OnClosing, e);
        assert Handle(s, ev) == [ToRegistry(NotifyDisconnected), ToMonitor(RecordDisconnect)] + Notify(s, OnClosing);
      case TransportClosed() =>
        NotifyCount(s, OnClosed, e);
    }
  }

  /** One input runs the open sequence at most once, and exactly when it reopens. */
  lemma StepReopens(s: Consumer, input: Input, e: Effect)
    requires e == ToMonitor(RecordConnect) || e == ToRegistry(Reload) ||
             (s.generalListener.Some? && e == ToListener(s.generalListener.value, OnOpen))
    ensures multiset(Step(s, input).effects)[e] == (if Reopens(input) then 1 else 0)
  {
    if input.Transport? {
      HandleReopens(s, input.event, e);
    }
  }

  function Run(s: Consumer, inputs: seq<Input>): (r: Outcome)
    decreases |inputs|
  {
    if inputs == [] then Outcome(s, [])
    else
      var first := Step(s, inputs[0]);
      var rest := Run(first.next, inputs[1..]);
      Outcome(rest.next, first.effects + rest.effects)
  }

  /** Across a whole session, every connection action is paired with its monitor action. */
  lemma {:induction false} RunPaired(s: Consumer, inputs: seq<Input>)
    ensures Paired(Run(s, inputs).effects)
    decreases |inputs|
  {
    if inputs != [] {
      var first := Step(s, inputs[0]);
      StepPaired(s, inputs[0]);
      RunPaired(first.next, inputs[1..]);
      PairedConcat(first.effects, Run(first.next, inputs[1..]).effects);
    }
  }

  /** While no listener is set or replaced, every listener call goes to the one set at the start. */
  lemma {:induction false} RunGated(s: Consumer, inputs: seq<Input>)
    requires KeepsListener(inputs)
    ensures Run(s, inputs).next == s
    ensures Gated(s.generalListener, Run(s, inputs).effects)
  {
    if inputs != [] {
      assert !inputs[0].CallSetGeneralListener?;
      var first := Step(s, inputs[0]);
      StepGated(s, inputs[0]);
      RunGated(s, inputs[1..]);
      var t := Run(s, inputs).effects;
      assert t == first.effects + Run(s, inputs[1..]).effects;
    }
  }

  /** A session split in two runs the second part from where the first left off. */
  lemma {:induction false} RunConcat(s: Consumer, a: seq<Input>, b: seq<Input>)
    ensures Run(s, a + b).next == Run(Run(s, a).next, b).next
    ensures Run(s, a + b).effects == Run(s, a).effects + Run(Run(s, a).next, b).effects
  {
    RunConcatNext(s, a, b);
    RunConcatEffects(s, a, b);
  }

  lemma {:induction false} RunConcatNext(s: Consumer, a: seq<Input>, b: seq<Input>)
    ensures Run(s, a + b).next == Run(Run(s, a).next, b).next
    decreases |a|
  {
    if a == [] {
      assert a + b == b;
    } else {
      var next := Step(s, a[0]).next;
      assert (a + b)[0] == a[0];
      assert (a + b)[1..] == a[1..] + b;
      RunConcatNext(next, a[1..], b);
      assert Run(s, a + b).next == Run(next, a[1..] + b).next;
      assert Run(s, a).next == Run(next, a[1..]).next;
    }
  }

  lemma {:induction false} RunConcatEffects(s: Consumer, a: seq<Input>, b: seq<Input>)
    ensures Run(s, a + b).effects == Run(s, a).effects + Run(Run(s, a).next, b).effects
    decreases |a|
  {
    if a == [] {
      assert a + b == b;
    } else {
      var first := Step(s, a[0]);
      assert (a + b)[0] == a[0];
      assert (a + b)[1..] == a[1..] + b;
      RunConcatEffects(first.next, a[1..], b);
      var mid := Run(first.next, a[1..]);
      assert Run(s, a).next == mid.next;
      var last := Run(mid.next, b).effects;
      assert Run(s, a + b).effects == first.effects + Run(first.next, a[1..] + b).effects;
      Associative(first.effects, mid.effects, last);
    }
  }

  /**
   * Regrouping a concatenation. Stated on its own so that the solver proves it
   * without the session definitions in scope, where the same assertion is
   * too costly.
   */
  lemma Associative(x: seq<Effect>, y: seq<Effect>, z: seq<Effect>)
    ensures x + (y + z) == (x + y) + z
  {
  }

  /**
   * After `setGeneralListener(l)`, later listener calls go to `l` (none at all
   * when `l` is null) until the listener is set again.
   */
  lemma {:induction false} ListenerCallsFollowSetting(s: Consumer, l: Option<Listener>, rest: seq<Input>)
    requires KeepsListener(rest)
    ensures Gated(l, Run(s, [CallSetGeneralListener(l)] + rest).effects)
  {
    var inputs := [CallSetGeneralListener(l)] + rest;
    assert inputs[1..] == rest;
    var first := Step(s, inputs[0]);
    RunGated(first.next, rest);
  }

  /** The same holds when the listener is set in the middle of a session, whatever came before. */
  lemma ListenerCallsFollowSettingMidSession(s: Consumer, before: seq<Input>, l: Option<Listener>, rest: seq<Input>)
    requires KeepsListener(rest)
    ensures var t := Run(s, before + [CallSetGeneralListener(l)] + rest).effects;
            |Run(s, before).effects| <= |t| &&
            Gated(l, t[|Run(s, before).effects|..])
  {
    assert before + [CallSetGeneralListener(l)] + rest == before + ([CallSetGeneralListener(l)] + rest);
    RunConcat(s, before, [CallSetGeneralListener(l)] + rest);
    ListenerCallsFollowSetting(Run(s, before).next, l, rest);
  }

  /** An input that installs a non-null listener. */
  predicate InstallsListener(input: Input)
  {
    input.CallSetGeneralListener? && input.listener.Some?
  }

  /**
   * A newly constructed consumer that is never given a non-null listener
   * makes no listener call, even if `setGeneralListener(null)` is called.
   */
  lemma {:induction false} FreshConsumerIsSilent(inputs: seq<Input>)
    requires forall i :: 0 <= i < |inputs| ==> !InstallsListener(inputs[i])
    ensures Avoids(Run(Fresh, inputs).effects, GeneralListener)
  {
    SilentWithoutListener(Fresh, inputs);
  }

  lemma {:induction false} SilentWithoutListener(s: Consumer, inputs: seq<Input>)
    requires s.generalListener.None?
    requires forall i :: 0 <= i < |inputs| ==> !InstallsListener(inputs[i])
    ensures Avoids(Run(s, inputs).effects, GeneralListener)
    decreases |inputs|
  {
    if inputs != [] {
      assert !InstallsListener(inputs[0]);
      var first := Step(s, inputs[0]);
      StepGated(s, inputs[0]);
      assert first.next.generalListener.None?;
      SilentWithoutListener(first.next, inputs[1..]);
      assert Run(s, inputs).effects == first.effects + Run(first.next, inputs[1..]).effects;
    }
  }

  /**
   * Every transport open and every welcome message runs the open sequence once:
   * the monitor records a connect and the registry reloads exactly that many
   * times in a session.
   */
  lemma {:induction false} RunReopenCount(s: Consumer, inputs: seq<Input>)
    ensures multiset(Run(s, inputs).effects)[ToMonitor(RecordConnect)] == Opens(inputs)
    ensures multiset(Run(s, inputs).effects)[ToRegistry(Reload)] == Opens(inputs)
    decreases |inputs|
  {
    if inputs != [] {
      var first := Step(s, inputs[0]);
      StepReopens(s, inputs[0], ToMonitor(RecordConnect));
      StepReopens(s, inputs[0], ToRegistry(Reload));
      RunReopenCount(first.next, inputs[1..]);
    }
  }

  /** With a fixed listener, `onOpen` fires once per transport open and once per welcome. */
  lemma {:induction false} RunOnOpenCount(s: Consumer, l: Listener, inputs: seq<Input>)
    requires s.generalListener == Some(l) && KeepsListener(inputs)
    ensures multiset(Run(s, inputs).effects)[ToListener(l, OnOpen)] == Opens(inputs)
  {
    if inputs != [] {
      var first := Step(s, inputs[0]);
      assert !inputs[0].CallSetGeneralListener?;
      StepReopens(s, inputs[0], ToListener(l, OnOpen));
      RunOnOpenCount(s, l, inputs[1..]);
    }
  }

  /** A transport open followed by a welcome message calls the listener's `onOpen` twice. */
  lemma OpenThenWelcomeFiresOnOpenTwice(s: Consumer, l: Listener, raw: string)
    requires s.generalListener == Some(l)
    ensures multiset(Run(s, [Transport(TransportOpen), Transport(TransportMessage(raw, Welcome))]).effects)[ToListener(l, OnOpen)] == 2
  {
    var inputs := [Transport(TransportOpen), Transport(TransportMessage(raw, Welcome))];
    RunOnOpenCount(s, l, inputs);
    var tail := inputs[1..];
    assert tail == [Transport(TransportMessage(raw, Welcome))];
    assert tail[1..] == [];
    assert Opens(tail) == 1 + Opens(tail[1..]);
    assert Opens(inputs) == 1 + Opens(tail);
  }
}
