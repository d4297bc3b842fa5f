/**
 The observable behaviour of the agent: the relay output and the
 append-only trace of everything it asked the broker client, the GPIO
 device and the process to do.
 */
module Effects {
  import opened Wrappers
  import Config

  /** The highest MQTT quality of service (exactly once), used for state publishes. */
  const ExactlyOnce: nat := 2

  datatype Effect =
    | Publish(topic: string, payload: string, qos: nat, retain: bool)
    | Subscribe(topic: string)
    | Connect(host: Config.Value, port: Config.Value, keepalive: nat, username: string, password: string)
    | Close        // the GPIO output device is released
    | Disconnect   // the broker connection is closed
    | Exit(code: int)

  /** The single process-wide record: the relay (true = energised) and the trace. */
  datatype Session = Session(relay: bool, trace: seq<Effect>)

  /** The payload that announces a relay level on the state topic. */
  function RelayPayload(on: bool): string {
    if on then "ON" else "OFF"
  }

  /** A retained, exactly-once publish of a payload on the state topic. */
  function StatePublish(payload: string): Effect {
    Publish(Config.TopicState, payload, ExactlyOnce, true)
  }

  predicate IsStatePublish(e: Effect) {
    e.Publish? && e.topic == Config.TopicState
  }

  /** `r` only appended to the trace of `s`. */
  predicate Extends(s: Session, r: Session) {
    |s.trace| <= |r.trace| && r.trace[..|s.trace|] == s.trace
  }

  /** The payload of the last publish on the state topic that the agent
      issued, if any. Whether the broker received and retained it is not
      modelled. */
  function LastStatePayload(trace: seq<Effect>): Option<string>
    decreases |trace|
  {
    if |trace| == 0 then None
    else if IsStatePublish(trace[|trace| - 1]) then Some(trace[|trace| - 1].payload)
    else LastStatePayload(trace[..|trace| - 1])
  }

  /** The relay and the last state publish the agent issued agree. */
  predicate InSync(s: Session) {
    LastStatePayload(s.trace) == Some(RelayPayload(s.relay))
  }

  /** Appending effects that publish nothing on the state topic leaves the
      last state publish as it was. */
  lemma {:induction false} LastStateIgnoresOtherEffects(trace: seq<Effect>, more: seq<Effect>)
    requires forall i :: 0 <= i < |more| ==> !IsStatePublish(more[i])
    ensures LastStatePayload(trace + more) == LastStatePayload(trace)
    decreases |more|
  {
    if more == [] {
      assert trace + more == trace;
    } else {
      var init := more[..|more| - 1];
      var whole := trace + more;
      assert whole[..|whole| - 1] == trace + init;
      assert !IsStatePublish(whole[|whole| - 1]);
      LastStateIgnoresOtherEffects(trace, init);
    }
  }
}
