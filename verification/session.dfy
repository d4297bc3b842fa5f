/**
 The session controller: start-up, the broker's connect callback, the
 event loop and the termination handler, composed into the whole life of
 the process.
 */
module SessionControl {
  import opened Config
  import opened Effects
  import opened StateSync
  import opened Dispatcher

  /** What the broker client and the operating system deliver to the agent. */
  datatype Event =
    | Connected(resultCode: int)               // a (re)connection completed
    | Message(topic: string, payload: string)  // an inbound message, payload decoded
    | Terminate                                // SIGINT or SIGTERM

  /** No effect of the trace ends the process. */
  predicate Running(trace: seq<Effect>) {
    forall i :: 0 <= i < |trace| ==> !trace[i].Exit?
  }

  /** The connect callback: subscribe to the command topic, whatever the
      result code; the relay and the last state publish are untouched. */
  function OnConnect(s: Session, resultCode: int): (r: Session)
    ensures r.relay == s.relay
    ensures r.trace == s.trace + [Subscribe(TopicPower)]
    ensures LastStatePayload(r.trace) == LastStatePayload(s.trace)
  {
    assert TopicPower == "rpi/fireplace/power";
    Session(s.relay, s.trace + [Subscribe("rpi/fireplace/power")])
  }

  /** The connect callback run once per result code, in order. */
  function Reconnects(s: Session, resultCodes: seq<int>): (r: Session)
    decreases |resultCodes|
  {
    if resultCodes == [] then s
    else Reconnects(OnConnect(s, resultCodes[0]), resultCodes[1..])
  }

  /** The termination handler: force the relay off and announce it, release
      the GPIO device, disconnect from the broker, exit with code 0. */
  function SignalHandler(s: Session): (r: Session)
    ensures !r.relay
    ensures r.trace == s.trace + [StatePublish("OFF"), Close, Disconnect, Exit(0)]
    ensures InSync(r)
  {
    var off := FireplaceOff(s);
    LastStateIgnoresOtherEffects(off.trace, [Close, Disconnect, Exit(0)]);
    Session(off.relay, off.trace + [Close, Disconnect, Exit(0)])
  }

  /** The main loop up to the blocking receive: the relay (created
      de-energised) is forced off and announced, then the client connects
      with the configured credentials and a 60 second keepalive. */
  function Start(settings: Settings): (r: Session)
    ensures !r.relay
    ensures r.trace == [StatePublish("OFF"), Connect(settings.host, settings.port, 60, settings.username, settings.password)]
    ensures InSync(r)
  {
    var off := FireplaceOff(Session(false, []));
    var connect := Connect(settings.host, settings.port, Keepalive, settings.username, settings.password);
    LastStateIgnoresOtherEffects(off.trace, [connect]);
    Session(off.relay, off.trace + [connect])
  }

  /** The receive loop: callbacks run one at a time in delivery order; the
      termination handler ends the process, so later events are never seen. */
  function Run(s: Session, events: seq<Event>): (r: Session)
    ensures Extends(s, r)
    ensures InSync(s) ==> InSync(r)
    decreases |events|
  {
    if events == [] then s
    else match events[0]
      case Connected(rc) => Run(OnConnect(s, rc), events[1..])
      case Message(topic, payload) => Run(OnMessage(s, topic, payload), events[1..])
      case Terminate => SignalHandler(s)
  }

  /** Where a termination signal falls during start-up. The handlers are
      registered before the relay is forced off, and the connect blocks, so
      a signal can arrive before the forced OFF or before the connect has
      completed. A signal after the connect is the first event of the loop. */
  datatype StartSignal = NoStartSignal | BeforeForcedOff | BeforeConnected

  /** The whole process: read the configuration (exiting with code 1 when a
      credential is missing, before the relay exists), start, then run. A
      signal during start-up runs the termination handler at once; there is
      no connect effect then and no event is handled. */
  function Program(env: Environment, startSignal: StartSignal, events: seq<Event>): (r: Session)
    ensures LoadSettings(env).Fatal? ==> r == Session(false, [Exit(1)])
    ensures LoadSettings(env).Found? ==> InSync(r)
    ensures LoadSettings(env).Found? && startSignal == NoStartSignal ==> Extends(Start(LoadSettings(env).value), r)
    ensures LoadSettings(env).Found? && startSignal == BeforeForcedOff ==>
              r.trace == [StatePublish("OFF"), Close, Disconnect, Exit(0)]
    ensures LoadSettings(env).Found? && startSignal == BeforeConnected ==>
              r.trace == [StatePublish("OFF"), StatePublish("OFF"), Close, Disconnect, Exit(0)]
  {
    match LoadSettings(env)
    case Fatal(code) => Session(false, [Exit(code)])
    case Found(settings) =>
      match startSignal
      case BeforeForcedOff => SignalHandler(Session(false, []))
      case BeforeConnected => SignalHandler(FireplaceOff(Session(false, [])))
      case NoStartSignal => Run(Start(settings), events)
  }

  /** N reconnects add exactly N subscriptions to the power topic and
      nothing else: no publish, no change to the relay. */
  lemma {:induction false} ReconnectsSubscribeOnly(s: Session, resultCodes: seq<int>)
    ensures Reconnects(s, resultCodes).relay == s.relay
    ensures Extends(s, Reconnects(s, resultCodes))
    ensures |Reconnects(s, resultCodes).trace| == |s.trace| + |resultCodes|
    ensures forall i :: |s.trace| <= i < |Reconnects(s, resultCodes).trace| ==>
              Reconnects(s, resultCodes).trace[i] == Subscribe(TopicPower)
    ensures LastStatePayload(Reconnects(s, resultCodes).trace) == LastStatePayload(s.trace)
    decreases |resultCodes|
  {
    if resultCodes != [] {
      var next := OnConnect(s, resultCodes[0]);
      ReconnectsSubscribeOnly(next, resultCodes[1..]);
      var r := Reconnects(s, resultCodes);
      assert r.trace[..|next.trace|] == next.trace;
      assert r.trace[..|s.trace|] == next.trace[..|s.trace|];
    }
  }

  /** The subscribed literal is the power topic constant. */
  lemma SubscribedTopicIsPower()
    ensures OnConnect(Session(false, []), 0).trace == [Subscribe("rpi/fireplace/power")]
    ensures TopicPower == "rpi/fireplace/power"
  {
  }

  /** Events after a termination are never handled. */
  lemma {:induction false} RunStopsAtTerminate(s: Session, events: seq<Event>, k: nat)
    requires k < |events| && events[k] == Terminate
    ensures Run(s, events) == Run(s, events[..k + 1])
    decreases k
  {
    if k > 0 {
      var prefix := events[..k + 1];
      assert prefix[0] == events[0] && prefix[1..] == events[1..][..k];
      match events[0]
      case Connected(rc) => RunStopsAtTerminate(OnConnect(s, rc), events[1..], k - 1);
      case Message(topic, payload) => RunStopsAtTerminate(OnMessage(s, topic, payload), events[1..], k - 1);
      case Terminate =>
    }
  }

  /** Once a termination arrives the process ends with the relay off and
      the shutdown effects last, in order. */
  lemma {:induction false} RunEndsWithShutdown(s: Session, events: seq<Event>)
    requires Terminate in events
    ensures !Run(s, events).relay
    ensures |Run(s, events).trace| >= |s.trace| + 4
    ensures Run(s, events).trace[|Run(s, events).trace| - 4..] == [StatePublish("OFF"), Close, Disconnect, Exit(0)]
    decreases |events|
  {
    match events[0]
    case Connected(rc) =>
      assert Terminate in events[1..];
      RunEndsWithShutdown(OnConnect(s, rc), events[1..]);
    case Message(topic, payload) =>
      assert Terminate in events[1..];
      RunEndsWithShutdown(OnMessage(s, topic, payload), events[1..]);
    case Terminate =>
  }

  /** A run ends the process exactly when a termination arrives, and the
      exit is always the last effect. */
  lemma {:induction false} RunExitsOnlyAtEnd(s: Session, events: seq<Event>)
    requires Running(s.trace)
    ensures forall i :: 0 <= i < |Run(s, events).trace| - 1 ==> !Run(s, events).trace[i].Exit?
    ensures Running(Run(s, events).trace) <==> Terminate !in events
    decreases |events|
  {
    if events != [] {
      match events[0]
      case Connected(rc) =>
        RunExitsOnlyAtEnd(OnConnect(s, rc), events[1..]);
      case Message(topic, payload) =>
        RunExitsOnlyAtEnd(OnMessage(s, topic, payload), events[1..]);
      case Terminate =>
        var r := Run(s, events);
        assert r.trace[|r.trace| - 1] == Exit(0);
    }
  }

  /** Without a termination, the loop never closes, disconnects or exits:
      its only effects are state publishes and subscriptions. */
  lemma {:induction false} RunWithoutTerminate(s: Session, events: seq<Event>)
    requires Terminate !in events
    ensures forall i :: |s.trace| <= i < |Run(s, events).trace| ==>
              IsStatePublish(Run(s, events).trace[i]) || Run(s, events).trace[i] == Subscribe(TopicPower)
    decreases |events|
  {
    if events != [] {
      var next := match events[0]
        case Connected(rc) => OnConnect(s, rc)
        case Message(topic, payload) => OnMessage(s, topic, payload)
        case Terminate => s;
      assert Terminate !in events[1..];
      RunWithoutTerminate(next, events[1..]);
      var r := Run(s, events);
      forall i | |s.trace| <= i < |r.trace|
        ensures IsStatePublish(r.trace[i]) || r.trace[i] == Subscribe(TopicPower)
      {
        if i < |next.trace| {
          assert r.trace[..|next.trace|] == next.trace;
          assert r.trace[i] == next.trace[i];
        }
      }
    }
  }

  /** Power-topic messages delivered by the loop are exactly a replay. */
  lemma {:induction false} RunOfCommandsIsReplay(s: Session, payloads: seq<string>)
    ensures Run(s, seq(|payloads|, i requires 0 <= i < |payloads| => Message(TopicPower, payloads[i]))) == Replay(s, payloads)
    decreases |payloads|
  {
    if payloads != [] {
      var events := seq(|payloads|, i requires 0 <= i < |payloads| => Message(TopicPower, payloads[i]));
      var rest := seq(|payloads| - 1, i requires 0 <= i < |payloads| - 1 => Message(TopicPower, payloads[1..][i]));
      assert events[1..] == rest;
      RunOfCommandsIsReplay(OnMessage(s, TopicPower, payloads[0]), payloads[1..]);
    }
  }

  /** Every started process first announces the relay off, whatever the
      configuration and wherever a termination signal falls. It connects,
      with keepalive 60, exactly when no signal interrupted start-up. */
  lemma StartupForcesOff(env: Environment, startSignal: StartSignal, events: seq<Event>)
    requires LoadSettings(env).Found?
    ensures |Program(env, startSignal, events).trace| >= 2
    ensures Program(env, startSignal, events).trace[0] == StatePublish("OFF")
    ensures Program(env, startSignal, events).trace[1].Connect? <==> startSignal == NoStartSignal
    ensures startSignal == NoStartSignal ==> Program(env, startSignal, events).trace[1].keepalive == 60
  {
    if startSignal == NoStartSignal {
      var start := Start(LoadSettings(env).value);
      assert Program(env, startSignal, events).trace[..|start.trace|] == start.trace;
    }
  }

  /** A process ends with an exit as its last effect, and with no exit
      before it, exactly when a credential is missing or a termination
      signal arrives; a signal always leaves the relay off. */
  lemma ProgramExitsOnlyAtEnd(env: Environment, startSignal: StartSignal, events: seq<Event>)
    ensures forall i :: 0 <= i < |Program(env, startSignal, events).trace| - 1 ==>
              !Program(env, startSignal, events).trace[i].Exit?
    ensures Running(Program(env, startSignal, events).trace) <==>
              LoadSettings(env).Found? && startSignal == NoStartSignal && Terminate !in events
    ensures startSignal != NoStartSignal || Terminate in events ==> !Program(env, startSignal, events).relay
  {
    var r := Program(env, startSignal, events);
    match LoadSettings(env)
    case Fatal(_) =>
      assert r.trace == [Exit(1)];
      assert r.trace[0].Exit?;
    case Found(settings) =>
      match startSignal
      case NoStartSignal =>
        var start := Start(settings);
        assert Running(start.trace) by {
          assert start.trace == [StatePublish("OFF"), Connect(settings.host, settings.port, 60, settings.username, settings.password)];
        }
        RunExitsOnlyAtEnd(start, events);
        if Terminate in events {
          RunEndsWithShutdown(start, events);
        }
      case BeforeForcedOff =>
        assert r.trace == [StatePublish("OFF"), Close, Disconnect, Exit(0)];
        assert r.trace[3].Exit?;
      case BeforeConnected =>
        assert r.trace == [StatePublish("OFF"), StatePublish("OFF"), Close, Disconnect, Exit(0)];
        assert r.trace[4].Exit?;
  }

  /** A missing credential ends the process before anything else happens. */
  lemma MissingCredentialExits(env: Environment, startSignal: StartSignal, events: seq<Event>)
    requires "MQTT_USERNAME" !in env || "MQTT_PASSWORD" !in env
    ensures Program(env, startSignal, events).trace == [Exit(1)]
    ensures !Program(env, startSignal, events).relay
  {
  }

  /** Start the agent, connect, receive "ON", terminate: the relay is
      announced off, then on, then off again, and the process exits with 0;
      the message after the termination is never handled. */
  lemma EndToEnd()
    ensures
      var env := map["MQTT_USERNAME" := "user", "MQTT_PASSWORD" := "secret"];
      var events := [Connected(0), Message(TopicPower, "ON"), Terminate, Message(TopicPower, "ON")];
      Program(env, NoStartSignal, events) == Session(false, [
        StatePublish("OFF"),
        Connect(Text("mosquitto.data"), Number(1883), 60, "user", "secret"),
        Subscribe(TopicPower),
        StatePublish("ON"),
        StatePublish("OFF"), Close, Disconnect, Exit(0)])
  {
    var env := map["MQTT_USERNAME" := "user", "MQTT_PASSWORD" := "secret"];
    var settings := Settings(Text("mosquitto.data"), Number(1883), "user", "secret");
    assert LoadSettings(env) == Found(settings);
    var s0 := Start(settings);
    var s1 := OnConnect(s0, 0);
    var s2 := OnMessage(s1, TopicPower, "ON");
    var events := [Connected(0), Message(TopicPower, "ON"), Terminate, Message(TopicPower, "ON")];
    assert events[1..][1..] == [Terminate, Message(TopicPower, "ON")];
    assert Run(s0, events) == Run(s1, events[1..]) == Run(s2, events[1..][1..]) == SignalHandler(s2);
  }
}
