/** The two polling loops of `start_node`. The loops never time out; here
    the results of successive polls are an input sequence, and a gate that
    uses up its input is one that is still waiting. */
module Readiness {
  import opened Messages

  const OMNI_BASE_CONTROLLER: string := "omni_base_controller"
  const RUNNING: string := "running"

  /** The answer to one list_controllers() call: the controllers it listed,
      or the ServiceException it raised (start_node does not catch it). */
  datatype ControllerReply = Listed(controllers: seq<ControllerState>) | Raised

  datatype GateOutcome = Running | StillWaiting | QueryRaised

  predicate IsOmniBaseRunning(c: ControllerState) {
    c.name == OMNI_BASE_CONTROLLER && c.state == RUNNING
  }

  predicate OmniBaseRunning(cs: seq<ControllerState>) {
    exists k :: 0 <= k < |cs| && IsOmniBaseRunning(cs[k])
  }

  /** Polls pub.get_num_connections() until it is non-zero. Returns how many
      polls were made and whether a subscriber was seen: the last poll is the
      first non-zero count, or every available poll was zero. */
  method AwaitSubscriber(connections: seq<nat>) returns (polls: nat, connected: bool)
    ensures polls <= |connections|
    ensures connected <==> exists k :: 0 <= k < |connections| && connections[k] > 0
    ensures connected ==> 0 < polls && connections[polls - 1] > 0
    ensures !connected ==> polls == |connections|
    ensures forall k :: 0 <= k < polls - 1 ==> connections[k] == 0
  {
    var i := 0;
    while i < |connections| && connections[i] == 0
      invariant i <= |connections|
      invariant forall k :: 0 <= k < i ==> connections[k] == 0
    {
      i := i + 1;
    }
    connected := i < |connections|;
    polls := if connected then i + 1 else i;
  }

  /** Polls list_controllers() until one reply lists omni_base_controller in
      state "running". `running` starts false and is only ever set to true.
      The gate opens on the first reply that lists it; every earlier reply
      listed controllers without it. A raised call ends the gate. */
  method AwaitController(replies: seq<ControllerReply>) returns (polls: nat, outcome: GateOutcome)
    ensures polls <= |replies|
    ensures forall k :: 0 <= k < polls - 1 ==>
      replies[k].Listed? && !OmniBaseRunning(replies[k].controllers)
    ensures outcome == Running <==>
      0 < polls && replies[polls - 1].Listed? && OmniBaseRunning(replies[polls - 1].controllers)
    ensures outcome == QueryRaised <==> 0 < polls && replies[polls - 1].Raised?
    ensures outcome == StillWaiting ==>
      polls == |replies| && forall k :: 0 <= k < |replies| ==>
        replies[k].Listed? && !OmniBaseRunning(replies[k].controllers)
  {
    polls := 0;
    var running := false;
    while !running
      invariant polls <= |replies|
      invariant forall k :: 0 <= k < polls - 1 ==>
        replies[k].Listed? && !OmniBaseRunning(replies[k].controllers)
      invariant 0 < polls ==> replies[polls - 1].Listed?
      invariant running <==> 0 < polls && OmniBaseRunning(replies[polls - 1].controllers)
      decreases |replies| - polls
    {
      if polls == |replies| {
        outcome := StillWaiting;
        return;
      }
      var reply := replies[polls];
      polls := polls + 1;
      if reply.Raised? {
        outcome := QueryRaised;
        return;
      }
      var cs := reply.controllers;
      for j := 0 to |cs|
        invariant running <==> exists k :: 0 <= k < j && IsOmniBaseRunning(cs[k])
      {
        if cs[j].name == OMNI_BASE_CONTROLLER && cs[j].state == RUNNING {
          running := true;
        }
      }
    }
    outcome := Running;
  }
}
