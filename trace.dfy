/** The observable effects of the iteration script, as a trace of abstract
    events, and the event sequence each operation contributes to it.
    A service call's outcome is a flag: `ok` is false when the call raised
    rospy.ServiceException, whose handler only logs. */
module Trace {
  import opened Messages
  import opened Commands

  const EPISODE_NUM: nat := 100
  const MAX_STEPS: nat := 10
  const MODEL_NAME: string := "hsrb"
  const WORLD_FRAME: string := "world"

  /** The services the script waits for and calls: /gazebo/reset_world,
      /gazebo/get_model_state, /gazebo/set_model_state and
      /hsrb/controller_manager/list_controllers. */
  datatype Service = ResetWorldService | GetModelStateService | SetModelStateService | ListControllersService

  datatype Event =
    | Publish(command: Twist)
    | WaitForService(service: Service)
    | ResetWorld(ok: bool)
    | GetModelState(modelName: string, ok: bool)
    | SetModelState(state: ModelState, ok: bool)
    | ListControllers(ok: bool)

  /** What the simulator answers during one reset. */
  datatype ResetOutcome = ResetOutcome(worldOk: bool, firstSetOk: bool, secondSetOk: bool)

  /** One timestep: the sampled action, and the pose get_model_state
      returned (None when the call raised). */
  datatype StepInput = StepInput(action: int, reply: Option<Pose>)

  datatype EpisodeInput = EpisodeInput(reset: ResetOutcome, steps: seq<StepInput>)

  /** The inputs `run` can meet: EPISODE_NUM episodes of MAX_STEPS steps whose
      actions random.randint(0, 2) drew, both bounds included. */
  predicate IsRunInput(episodes: seq<EpisodeInput>) {
    && |episodes| == EPISODE_NUM
    && (forall e :: 0 <= e < |episodes| ==> |episodes[e].steps| == MAX_STEPS)
    && (forall e, t :: 0 <= e < |episodes| && 0 <= t < |episodes[e].steps| ==>
          0 <= episodes[e].steps[t].action <= 2)
  }

  /** The state set_hsrb_state sends: model "hsrb" at the origin, identity
      orientation, in the "world" frame; the twist keeps its default. */
  function CanonicalState(): ModelState {
    ModelState(MODEL_NAME, Pose(Point(0.0, 0.0, 0.0), Quaternion(0.0, 0.0, 0.0, 1.0)), ZeroTwist, WORLD_FRAME)
  }

  function ResetWorldEvents(ok: bool): seq<Event> {
    [WaitForService(ResetWorldService), ResetWorld(ok)]
  }

  function GetHsrbStateEvents(reply: Option<Pose>): seq<Event> {
    [WaitForService(GetModelStateService), GetModelState(MODEL_NAME, reply.Some?)]
  }

  /** One set_model_state attempt with the canonical state, after waiting
      for `waitedOn`. */
  function SetAttemptEvents(waitedOn: Service, ok: bool): seq<Event> {
    [WaitForService(waitedOn), SetModelState(CanonicalState(), ok)]
  }

  /** Two attempts with the same state; the wait before the second one is on
      the list_controllers service. */
  function SetHsrbStateEvents(firstOk: bool, secondOk: bool): seq<Event> {
    SetAttemptEvents(SetModelStateService, firstOk) + SetAttemptEvents(ListControllersService, secondOk)
  }

  function ResetEvents(r: ResetOutcome): seq<Event> {
    [Publish(ZeroTwist)] + ResetWorldEvents(r.worldOk) + SetHsrbStateEvents(r.firstSetOk, r.secondSetOk)
  }

  function StepEvents(s: StepInput): seq<Event> {
    GetHsrbStateEvents(s.reply) + [Publish(Command(s.action))]
  }

  /** f applied to each element of xs, the results concatenated in order. */
  function FlatMap<A, B>(f: A -> seq<B>, xs: seq<A>): seq<B> {
    if xs == [] then [] else FlatMap(f, xs[..|xs| - 1]) + f(xs[|xs| - 1])
  }

  function StepsEvents(steps: seq<StepInput>): seq<Event> {
    FlatMap(StepEvents, steps)
  }

  function EpisodeEvents(e: EpisodeInput): seq<Event> {
    ResetEvents(e.reset) + StepsEvents(e.steps)
  }

  function RunEvents(episodes: seq<EpisodeInput>): seq<Event> {
    FlatMap(EpisodeEvents, episodes)
  }

  /** The kind of effect an event has on the simulator; waits carry none.
      A zero command is a stop, any other command a drive. */
  datatype Mark = Stop | WorldReset | PoseSet | StateQuery | Drive | ControllerQuery

  function MarkOf(ev: Event): seq<Mark> {
    match ev
    case Publish(t) => if t == ZeroTwist then [Stop] else [Drive]
    case WaitForService(_) => []
    case ResetWorld(_) => [WorldReset]
    case GetModelState(_, _) => [StateQuery]
    case SetModelState(_, _) => [PoseSet]
    case ListControllers(_) => [ControllerQuery]
  }

  function Marks(tr: seq<Event>): seq<Mark> {
    FlatMap(MarkOf, tr)
  }

  /** n copies of s, one after the other. */
  function Repeat<T>(n: nat, s: seq<T>): seq<T> {
    if n == 0 then [] else Repeat(n - 1, s) + s
  }

  function Count<T(==)>(x: T, s: seq<T>): nat {
    if s == [] then 0 else Count(x, s[..|s| - 1]) + (if s[|s| - 1] == x then 1 else 0)
  }

  /** The shape of one episode: stop, reset the world, set the pose twice,
      then MAX_STEPS times query the pose and drive. */
  function EpisodeShape(): seq<Mark> {
    [Stop, WorldReset, PoseSet, PoseSet] + Repeat(MAX_STEPS, [StateQuery, Drive])
  }
}
