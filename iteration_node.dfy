/** The iteration script itself: its effects on the simulator are appended,
    in order, to `trace`. Service outcomes, the sampled actions and the poll
    results are inputs. */
module IterationNode {
  import opened Messages
  import opened Commands
  import opened Trace
  import opened Readiness
  import opened TraceProperties

  datatype NodeOutcome =
    | Finished              // both gates opened and run() completed
    | WaitingForSubscriber  // still polling get_num_connections()
    | WaitingForController  // still polling list_controllers()
    | ListControllersRaised // list_controllers() raised out of start_node

  function PollEvents(replies: seq<ControllerReply>): seq<Event> {
    seq(|replies|, i requires 0 <= i < |replies| => ListControllers(replies[i].Listed?))
  }

  class HsrIterationNode {
    var trace: seq<Event>

    constructor ()
      ensures trace == []
    {
      trace := [];
    }

    /** Stop the robot, reset the world, put the robot back at the origin. */
    method Reset(outcome: ResetOutcome)
      modifies this
      ensures trace == old(trace) + ResetEvents(outcome)
    {
      trace := trace + [Publish(ZeroTwist)];
      ResetWorld(outcome.worldOk);
      SetHsrbState(outcome.firstSetOk, outcome.secondSetOk);
    }

    /** A raised reset_world is logged and swallowed. */
    method ResetWorld(ok: bool)
      modifies this
      ensures trace == old(trace) + ResetWorldEvents(ok)
    {
      trace := trace + [WaitForService(ResetWorldService)];
      trace := trace + [Event.ResetWorld(ok)];
    }

    /** Returns the pose of "hsrb", or None when get_model_state raised. */
    method GetHsrbState(reply: Option<Pose>) returns (pose: Option<Pose>)
      modifies this
      ensures pose == reply
      ensures trace == old(trace) + GetHsrbStateEvents(reply)
    {
      trace := trace + [WaitForService(GetModelStateService)];
      trace := trace + [GetModelState(MODEL_NAME, reply.Some?)];
      pose := reply;
    }

    /** Fills a fresh ModelState field by field and sends it twice; the wait
        before the second attempt is on list_controllers. Both attempts are
        made whatever the first one does. */
    method SetHsrbState(firstOk: bool, secondOk: bool)
      modifies this
      ensures trace == old(trace) + SetHsrbStateEvents(firstOk, secondOk)
    {
      var state := DefaultModelState;
      state := state.(modelName := MODEL_NAME);
      state := state.(pose := state.pose.(position := state.pose.position.(x := 0.0)));
      state := state.(pose := state.pose.(position := state.pose.position.(y := 0.0)));
      state := state.(pose := state.pose.(position := state.pose.position.(z := 0.0)));
      state := state.(pose := state.pose.(orientation := state.pose.orientation.(x := 0.0)));
      state := state.(pose := state.pose.(orientation := state.pose.orientation.(y := 0.0)));
      state := state.(pose := state.pose.(orientation := state.pose.orientation.(z := 0.0)));
      state := state.(pose := state.pose.(orientation := state.pose.orientation.(w := 1.0)));
      state := state.(referenceFrame := WORLD_FRAME);
      trace := trace + [WaitForService(SetModelStateService)];
      trace := trace + [SetModelState(state, firstOk)];
      trace := trace + [WaitForService(ListControllersService)];
      trace := trace + [SetModelState(state, secondOk)];
    }

    /** Query the pose (for logging only), then publish the action's command,
        whether or not the query raised. */
    method Step(action: int, reply: Option<Pose>)
      modifies this
      ensures trace == old(trace) + StepEvents(StepInput(action, reply))
    {
      var pose := GetHsrbState(reply);
      var tw := Command(action);
      trace := trace + [Publish(tw)];
    }

    /** EPISODE_NUM episodes, each a reset followed by MAX_STEPS steps. */
    method Run(episodes: seq<EpisodeInput>)
      requires IsRunInput(episodes)
      modifies this
      ensures trace == old(trace) + RunEvents(episodes)
    {
      for episode := 0 to EPISODE_NUM
        invariant trace == old(trace) + RunEvents(episodes[..episode])
      {
        var current := episodes[episode];
        Reset(current.reset);
        ghost var afterReset := trace;
        for timestep := 0 to MAX_STEPS
          invariant trace == afterReset + StepsEvents(current.steps[..timestep])
        {
          var s := current.steps[timestep];
          assert StepInput(s.action, s.reply) == s;
          Step(s.action, s.reply);
          StepsEventsExtend(afterReset, current.steps, timestep);
        }
        assert current.steps[..MAX_STEPS] == current.steps;
        RunEventsExtend(old(trace), episodes, episode);
      }
      assert episodes[..EPISODE_NUM] == episodes;
    }

    /** Wait for a subscriber, then for omni_base_controller to run, then run.
        No command is published unless both gates opened. */
    method StartNode(connections: seq<nat>, replies: seq<ControllerReply>, episodes: seq<EpisodeInput>)
      returns (outcome: NodeOutcome, controllerPolls: nat)
      requires IsRunInput(episodes)
      modifies this
      ensures outcome == WaitingForSubscriber <==> forall k :: 0 <= k < |connections| ==> connections[k] == 0
      ensures outcome == WaitingForSubscriber ==> trace == old(trace)
      ensures outcome != WaitingForSubscriber ==> controllerPolls <= |replies|
      ensures outcome != WaitingForSubscriber ==>
        forall k :: 0 <= k < controllerPolls - 1 ==> replies[k].Listed? && !OmniBaseRunning(replies[k].controllers)
      ensures outcome == WaitingForController ==> controllerPolls == |replies|
      ensures outcome == WaitingForController ==>
        forall k :: 0 <= k < |replies| ==> replies[k].Listed? && !OmniBaseRunning(replies[k].controllers)
      ensures outcome == ListControllersRaised ==> 0 < controllerPolls && replies[controllerPolls - 1].Raised?
      ensures outcome == Finished ==>
        0 < controllerPolls && replies[controllerPolls - 1].Listed?
        && OmniBaseRunning(replies[controllerPolls - 1].controllers)
      ensures outcome != Finished ==> forall i :: |old(trace)| <= i < |trace| ==> !trace[i].Publish?
      ensures outcome != WaitingForSubscriber ==>
        trace == old(trace) + [WaitForService(ListControllersService)] + PollEvents(replies[..controllerPolls])
          + (if outcome == Finished then RunEvents(episodes) else [])
    {
      var connectionPolls, connected := AwaitSubscriber(connections);
      controllerPolls := 0;
      if !connected {
        outcome := WaitingForSubscriber;
        return;
      }
      trace := trace + [WaitForService(ListControllersService)];
      var gate;
      controllerPolls, gate := AwaitController(replies);
      trace := trace + PollEvents(replies[..controllerPolls]);
      match gate
      case StillWaiting =>
        outcome := WaitingForController;
      case QueryRaised =>
        outcome := ListControllersRaised;
      case Running =>
        Run(episodes);
        outcome := Finished;
    }
  }
}
