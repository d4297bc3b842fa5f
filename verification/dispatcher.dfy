/**
 The command dispatcher: messages on the power topic whose payload is
 exactly "ON" or "OFF" drive the state synchroniser; every other payload,
 and every message on another topic, is logged and dropped.
 */
module Dispatcher {
  import opened Wrappers
  import opened Config
  import opened Effects
  import opened StateSync

  /** The relay level a payload commands, if it is a command at all. */
  function Command(payload: string): Option<bool> {
    if payload == "ON" then Some(true)
    else if payload == "OFF" then Some(false)
    else None
  }

  /** Handle one inbound message (payload already decoded as text). */
  function OnMessage(s: Session, topic: string, payload: string): (r: Session)
    ensures topic == TopicPower && payload == "ON" ==> r == Session(true, s.trace + [StatePublish("ON")])
    ensures topic == TopicPower && payload == "OFF" ==> r == Session(false, s.trace + [StatePublish("OFF")])
    ensures topic != TopicPower || (payload != "ON" && payload != "OFF") ==> r == s
    ensures InSync(s) ==> InSync(r)
  {
    if topic == TopicPower then
      if payload == "ON" then FireplaceOn(s)
      else if payload == "OFF" then FireplaceOff(s)
      else s
    else s
  }

  /** Deliver a sequence of payloads on the power topic, first to last. */
  function Replay(s: Session, payloads: seq<string>): (r: Session)
    ensures Extends(s, r)
    decreases |payloads|
  {
    if payloads == [] then s
    else Replay(OnMessage(s, TopicPower, payloads[0]), payloads[1..])
  }

  /** The level commanded by the last "ON"/"OFF" payload, searching from the end. */
  function LastCommand(payloads: seq<string>): Option<bool>
    decreases |payloads|
  {
    if payloads == [] then None
    else if Command(payloads[|payloads| - 1]).Some? then Command(payloads[|payloads| - 1])
    else LastCommand(payloads[..|payloads| - 1])
  }

  /** The state publishes the commands in `payloads` cause, in order. */
  function StatePublishes(payloads: seq<string>): seq<Effect>
    decreases |payloads|
  {
    if payloads == [] then []
    else
      var rest := StatePublishes(payloads[1..]);
      match Command(payloads[0])
      case Some(on) => [StatePublish(RelayPayload(on))] + rest
      case None => rest
  }

  /** The commands of `payloads`, unknown payloads dropped. */
  function Commands(payloads: seq<string>): seq<string>
    decreases |payloads|
  {
    if payloads == [] then []
    else if Command(payloads[0]).Some? then [payloads[0]] + Commands(payloads[1..])
    else Commands(payloads[1..])
  }

  /** Replaying one more payload is handling it after the others. */
  lemma {:induction false} ReplaySnoc(s: Session, payloads: seq<string>, last: string)
    ensures Replay(s, payloads + [last]) == OnMessage(Replay(s, payloads), TopicPower, last)
    decreases |payloads|
  {
    if payloads != [] {
      assert (payloads + [last])[1..] == payloads[1..] + [last];
      ReplaySnoc(OnMessage(s, TopicPower, payloads[0]), payloads[1..], last);
    }
  }

  /** After any sequence of power messages the relay is at the level the
      last command set, or where it was when there was no command. */
  lemma {:induction false} ReplayFollowsLastCommand(s: Session, payloads: seq<string>)
    ensures LastCommand(payloads).Some? ==> Replay(s, payloads).relay == LastCommand(payloads).value
    ensures LastCommand(payloads).None? ==> Replay(s, payloads).relay == s.relay
    decreases |payloads|
  {
    if payloads != [] {
      var init := payloads[..|payloads| - 1];
      assert payloads == init + [payloads[|payloads| - 1]];
      ReplaySnoc(s, init, payloads[|payloads| - 1]);
      ReplayFollowsLastCommand(s, init);
    }
  }

  /** From an OFF start the relay is on exactly when the last command was "ON". */
  lemma ReplayFromOff(trace: seq<Effect>, payloads: seq<string>)
    ensures Replay(Session(false, trace), payloads).relay <==> LastCommand(payloads) == Some(true)
  {
    ReplayFollowsLastCommand(Session(false, trace), payloads);
  }

  /** Replay appends one state publish per command, in command order, and
      nothing for unknown payloads. */
  lemma {:induction false} ReplayTrace(s: Session, payloads: seq<string>)
    ensures Replay(s, payloads).trace == s.trace + StatePublishes(payloads)
    decreases |payloads|
  {
    if payloads != [] {
      var next := OnMessage(s, TopicPower, payloads[0]);
      ReplayTrace(next, payloads[1..]);
      match Command(payloads[0])
      case Some(on) =>
        assert next.trace == s.trace + [StatePublish(RelayPayload(on))];
      case None =>
    }
  }

  /** Unknown payloads can be removed from any sequence without changing
      the relay or the trace. */
  lemma {:induction false} ReplayIgnoresUnknown(s: Session, payloads: seq<string>)
    ensures Replay(s, Commands(payloads)) == Replay(s, payloads)
    decreases |payloads|
  {
    if payloads != [] {
      if Command(payloads[0]).Some? {
        var c := Commands(payloads);
        assert c[0] == payloads[0] && c[1..] == Commands(payloads[1..]);
        ReplayIgnoresUnknown(OnMessage(s, TopicPower, payloads[0]), payloads[1..]);
      } else {
        ReplayIgnoresUnknown(s, payloads[1..]);
      }
    }
  }

  /** Replay keeps the relay and the last state publish in agreement. */
  lemma {:induction false} ReplayKeepsSync(s: Session, payloads: seq<string>)
    requires InSync(s)
    ensures InSync(Replay(s, payloads))
    decreases |payloads|
  {
    if payloads != [] {
      ReplayKeepsSync(OnMessage(s, TopicPower, payloads[0]), payloads[1..]);
    }
  }

  /** Payloads that are not exactly "ON" or "OFF" are no-ops, whatever
      their resemblance to a command. */
  lemma UnknownPayloadsIgnored(s: Session)
    ensures OnMessage(s, TopicPower, "TOGGLE") == s
    ensures OnMessage(s, TopicPower, "") == s
    ensures OnMessage(s, TopicPower, "on") == s
    ensures OnMessage(s, TopicPower, "ON ") == s
  {
  }

  /** Commands on the state or status topic, or under another root, are ignored. */
  lemma OtherTopicsIgnored(s: Session, payload: string)
    ensures OnMessage(s, TopicState, payload) == s
    ensures OnMessage(s, TopicStatus, payload) == s
    ensures OnMessage(s, "rpi/fireplace", payload) == s
  {
    assert TopicState[|TopicState| - 1] != TopicPower[|TopicPower| - 1];
    assert TopicStatus[|TopicStatus| - 1] != TopicPower[|TopicPower| - 1];
    assert |TopicRoot| != |TopicPower|;
  }
}
