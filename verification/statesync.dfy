/**
 The state synchroniser: the only writer of the relay. Each operation
 drives the relay and then publishes the new level, retained, with the
 highest quality of service. Redundant calls are not suppressed.
 */
module StateSync {
  import opened Wrappers
  import opened Config
  import opened Effects

  /** Energise the relay and announce "ON". */
  function FireplaceOn(s: Session): (r: Session)
    ensures r.relay
    ensures r.trace == s.trace + [StatePublish(RelayPayload(true))]
    ensures InSync(r)
  {
    Session(true, s.trace + [Publish(TopicState, "ON", ExactlyOnce, true)])
  }

  /** Release the relay and announce "OFF". */
  function FireplaceOff(s: Session): (r: Session)
    ensures !r.relay
    ensures r.trace == s.trace + [StatePublish(RelayPayload(false))]
    ensures InSync(r)
  {
    Session(false, s.trace + [Publish(TopicState, "OFF", ExactlyOnce, true)])
  }

  /** Turning on is idempotent on the relay but not on the trace: the
      second call publishes the same state again. */
  lemma FireplaceOnTwice(s: Session)
    ensures FireplaceOn(FireplaceOn(s)).relay == FireplaceOn(s).relay
    ensures FireplaceOn(FireplaceOn(s)).trace == s.trace + [StatePublish("ON"), StatePublish("ON")]
  {
  }

  /** The same for turning off. */
  lemma FireplaceOffTwice(s: Session)
    ensures FireplaceOff(FireplaceOff(s)).relay == FireplaceOff(s).relay
    ensures FireplaceOff(FireplaceOff(s)).trace == s.trace + [StatePublish("OFF"), StatePublish("OFF")]
  {
  }

  /** Whatever came before, the relay ends at the last operation's level. */
  lemma LastOperationWins(s: Session)
    ensures FireplaceOff(FireplaceOn(s)).relay == false
    ensures FireplaceOn(FireplaceOff(s)).relay == true
    ensures LastStatePayload(FireplaceOff(FireplaceOn(s)).trace) == Some("OFF")
    ensures LastStatePayload(FireplaceOn(FireplaceOff(s)).trace) == Some("ON")
  {
  }
}
