# HSR iteration test driver, modelled in Dafny

This project models `scripts/hsr_iteration_test.py`. The script drives a simulated
Toyota HSR robot in Gazebo over ROS. It first waits until the velocity topic
`/hsrb/command_velocity` has a subscriber. It then waits until the controller
manager reports `omni_base_controller` as `running`. After that it runs
`EPISODE_NUM` = 100 episodes. Each episode starts with a reset: publish a stop
command, call `/gazebo/reset_world`, then send the canonical `ModelState` to
`/gazebo/set_model_state` twice. The episode then takes `MAX_STEPS` = 10 steps.
Each step samples `random.randint(0, 2)`, queries the robot's pose, and publishes
the command for the sampled action.

The model records every effect on the simulator as an `Event` appended to the
`trace` field of the class `IterationNode.HsrIterationNode`:

- a published `Twist`;
- a `wait_for_service` on one of the services;
- each service call, with a flag that is false when the call raised
  `rospy.ServiceException`.

Service outcomes, sampled actions and poll results are inputs to the methods.
The trace each operation produces is defined as a function in `Trace`
(`ResetEvents`, `StepEvents`, `RunEvents`). The methods are proved to append
exactly that trace. The lemmas in `TraceProperties` prove the driver's promises
about those traces: ordering, counts, table values, the canonical pose, and
that failures do not stop later calls.

Files:

- `messages.dfy` (module `Messages`): the ROS messages as values (`Twist`, `Pose`, `ModelState`, `ControllerState`).
- `commands.dfy` (module `Commands`): the action-to-command table of `step`.
- `trace.dfy` (module `Trace`): events, the trace of each operation, and marks (the kind of effect of each event).
- `trace_properties.dfy` (module `TraceProperties`): lemmas about those traces.
- `readiness.dfy` (module `Readiness`): the two polling loops of `start_node`.
- `iteration_node.dfy` (module `IterationNode`): the class whose methods are the script's functions.

The model keeps two details of the code that are easy to miss:

- A reset sends `set_model_state` twice, not once. The wait before the second
  attempt is on the `list_controllers` service, not on `set_model_state`.
- The readiness gate can do more than block forever. `list_controllers()` in
  `start_node` is not inside a `try`. A `ServiceException` there leaves
  `start_node`, and the top-level handler catches only `ROSInterruptException`,
  so the script stops without reaching `run()`. The model returns this as
  `ListControllersRaised`.

## Model

| member | source | states |
|---|---|---|
| `Commands.Command` | scripts/hsr_iteration_test.py:84-104 | Actions 0..3 give the table entries FORWARD (10, 0), LEFT (5, 10), RIGHT (0, -10) and BACKWARD (-10, 0) on (linear.x, angular.z). Each of these is a non-zero, planar Twist. Any other action gives the all-zero default Twist, because no branch fires. |
| `Commands.CommandDeterminesAction` | scripts/hsr_iteration_test.py:86-101 | The four table commands are pairwise distinct. |
| `Readiness.AwaitSubscriber` | scripts/hsr_iteration_test.py:202-203 | Polling stops at the first non-zero connection count, and every earlier poll was zero. If no poll is non-zero, the gate is still waiting after all of them. |
| `Readiness.AwaitController` | scripts/hsr_iteration_test.py:205-211 | The gate opens exactly on the first reply that lists `omni_base_controller` in state `running`. Every earlier reply listed controllers without it. A raised call ends the gate, and when the replies run out the gate is still waiting. The loop invariant shows that `running` is never reset to false once set. |
| `IterationNode.HsrIterationNode.ResetWorld` | scripts/hsr_iteration_test.py:122-128 | Waits for `/gazebo/reset_world`, then calls it. A raise is only logged: the method appends the call with its outcome and returns normally. |
| `IterationNode.HsrIterationNode.GetHsrbState` | scripts/hsr_iteration_test.py:149-156 | Waits for and calls `get_model_state("hsrb")`. Returns the pose, or None when the call raised. |
| `IterationNode.HsrIterationNode.SetHsrbState` | scripts/hsr_iteration_test.py:159-182 | Starts from a default `ModelState` and fills it in field by field. Sends the resulting canonical state twice, whatever the first attempt does. The second attempt is preceded by a wait on `list_controllers`. |
| `IterationNode.HsrIterationNode.Reset` | scripts/hsr_iteration_test.py:47-55 | Appends a stop publish, then the reset_world events, then the set_hsrb_state events, for every combination of call outcomes. |
| `IterationNode.HsrIterationNode.Step` | scripts/hsr_iteration_test.py:60-104 | Appends the pose query, then one publish of `Command(action)`. The publish happens whether the query succeeded or raised. |
| `IterationNode.HsrIterationNode.Run` | scripts/hsr_iteration_test.py:216-230 | The nested loops append exactly `RunEvents(episodes)`: for each of the 100 episodes its reset, then its 10 steps in order. |
| `IterationNode.HsrIterationNode.StartNode` | scripts/hsr_iteration_test.py:196-213 | `run()` is reached only after a poll with a non-zero connection count and a `list_controllers` reply listing `omni_base_controller` as `running`; the gate opens on the first such reply, every earlier reply listed controllers without it, and a gate still waiting has used every reply. If either gate does not open, or `list_controllers` raises, nothing is published. Only the wait and the polls are appended. |
| `TraceProperties.ResetMarks` | scripts/hsr_iteration_test.py:47-55 | For every outcome of reset_world and of both set_model_state calls, a reset's effects are: stop, reset world, set pose, set pose, in that order. A failed reset_world does not cut the pose requests short. |
| `TraceProperties.StepMarks` | scripts/hsr_iteration_test.py:76-104 | For an action in the table and any reply, including a raised get_model_state, a step is one pose query followed by one drive command. |
| `TraceProperties.StepsMarks` | scripts/hsr_iteration_test.py:224-228 | n steps are n repetitions of (query, drive). |
| `TraceProperties.EpisodeMarks` | scripts/hsr_iteration_test.py:217-228 | An episode is its reset followed by `MAX_STEPS` (query, drive) pairs. |
| `TraceProperties.RunMarks` | scripts/hsr_iteration_test.py:216-228 | A run is the episode shape repeated once per episode. Each reset comes after all of the previous episode's steps and before all of its own. |
| `TraceProperties.EpisodeShapeCount` | scripts/hsr_iteration_test.py:217-228 | One episode has exactly one stop, one reset_world call, two set_model_state calls, `MAX_STEPS` pose queries and `MAX_STEPS` drive commands, and no list_controllers call. |
| `TraceProperties.RunCounts` | scripts/hsr_iteration_test.py:216-228 | `run` publishes exactly 1000 (`EPISODE_NUM * MAX_STEPS`) drive commands and queries the pose 1000 times. It performs exactly 100 resets: 100 stops, 100 reset_world calls and 200 set_model_state calls. It makes no list_controllers calls. |
| `TraceProperties.StepsHaveNoReset` | scripts/hsr_iteration_test.py:224-228 | The events of the steps contain no reset_world call and no set_model_state call. |
| `TraceProperties.EpisodeOrder` | scripts/hsr_iteration_test.py:217-228 | The run trace splits at episode e into four parts, in order: the earlier episodes, e's reset, e's steps, and the later episodes. No reset occurs between two steps of the same episode. |
| `TraceProperties.RunPublishesSampled` | scripts/hsr_iteration_test.py:226-227 | With actions drawn from [0, 2], every command `run` publishes is the stop, FORWARD, LEFT or RIGHT. BACKWARD is never published. |
| `TraceProperties.RunRequestsCanonicalState` | scripts/hsr_iteration_test.py:159-182 | Every set_model_state request in a run carries the same canonical state, so repeated resets request the identical pose. |
| `TraceProperties.CanonicalStateIsOrigin` | scripts/hsr_iteration_test.py:160-169 | The canonical state is model `hsrb` at position (0, 0, 0) in frame `world`, with orientation (0, 0, 0, 1), which is a unit quaternion. A default `ModelState()` has the all-zero quaternion, which is not a unit quaternion. |

## Left out

- Node set-up (`rospy.init_node`, publisher and service proxy construction, the odometry `Subscriber`): these are transport set-up with no logical effect. The constructor starts with an empty trace.
- `odom_callback` and the global `current_odom_pos`: these are updated by an asynchronous callback, and nothing in the driver reads them.
- `rospy.wait_for_service` blocking: each wait is recorded as a `WaitForService` event that returns. A service that never appears is not modelled.
- The polling loops never time out. Their poll results are finite input sequences, and an exhausted sequence means the gate is still waiting (`StillWaiting`, `WaitingForSubscriber`, `WaitingForController`).
- `time.sleep` and `rospy.sleep` delays: they affect timing only.
- The randomness of `random.randint(0, 2)`: the sampled actions are inputs, and `IsRunInput` restricts them to [0, 2].
- Log and print messages: only whether each call succeeded or raised is kept. The pose returned by `get_model_state` is logged only, so the model discards it after `GetHsrbState`.
- The `success` flag and status message of a `GetModelState` response: any response counts as a returned pose.
- Publishing is fire-and-forget. The publisher's queue and message delivery are not modelled.
- `reset_simulation`, `pause_physics`, `unpause_physics` and `reset_controllers`: they are defined, but the driver never calls them (the call in `reset` is commented out).
- The top-level `ROSInterruptException` handler: external interrupts are not modelled.
- Floating point: every velocity and coordinate is an exact literal with no arithmetic, so `real` stands for it.
