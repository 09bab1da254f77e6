/** What the trace of a reset, a step and a whole run looks like, for every
    outcome of the service calls. */
module TraceProperties {
  import opened Messages
  import opened Commands
  import opened Trace

  // Facts about FlatMap, for any function f.

  lemma {:induction false} FlatMapAppend<A, B>(f: A -> seq<B>, a: seq<A>, b: seq<A>)
    ensures FlatMap(f, a + b) == FlatMap(f, a) + FlatMap(f, b)
  {
    if b == [] {
      assert a + b == a;
    } else {
      var front := b[..|b| - 1];
      assert (a + b)[..|a + b| - 1] == a + front;
      assert (a + b)[|a + b| - 1] == b[|b| - 1];
      FlatMapAppend(f, a, front);
    }
  }

  lemma FlatMapExtend<A, B>(pre: seq<B>, f: A -> seq<B>, xs: seq<A>, k: nat)
    requires k < |xs|
    ensures pre + FlatMap(f, xs[..k]) + f(xs[k]) == pre + FlatMap(f, xs[..k + 1])
  {
    assert xs[..k + 1][..k] == xs[..k];
  }

  lemma FlatMapPair<A, B>(f: A -> seq<B>, x: A, y: A)
    ensures FlatMap(f, [x]) == f(x)
    ensures FlatMap(f, [x, y]) == f(x) + f(y)
  {
    assert [x][..0] == [];
    assert [x, y][..1] == [x];
  }

  /** If every piece consists of elements satisfying p, so does the whole. */
  lemma {:induction false} FlatMapEvery<A, B>(f: A -> seq<B>, xs: seq<A>, p: B -> bool)
    requires forall k, j :: 0 <= k < |xs| && 0 <= j < |f(xs[k])| ==> p(f(xs[k])[j])
    ensures forall i :: 0 <= i < |FlatMap(f, xs)| ==> p(FlatMap(f, xs)[i])
  {
    if xs != [] {
      var front := xs[..|xs| - 1];
      assert forall k :: 0 <= k < |front| ==> front[k] == xs[k];
      FlatMapEvery(f, front, p);
      var last := f(xs[|xs| - 1]);
      assert forall j :: 0 <= j < |last| ==> p(last[j]);
    }
  }

  lemma {:induction false} CountAppend<T>(x: T, a: seq<T>, b: seq<T>)
    ensures Count(x, a + b) == Count(x, a) + Count(x, b)
  {
    if b == [] {
      assert a + b == a;
    } else {
      var front := b[..|b| - 1];
      assert (a + b)[..|a + b| - 1] == a + front;
      assert (a + b)[|a + b| - 1] == b[|b| - 1];
      CountAppend(x, a, front);
    }
  }

  lemma {:induction false} CountRepeat<T>(x: T, n: nat, s: seq<T>)
    ensures Count(x, Repeat(n, s)) == n * Count(x, s)
  {
    if n > 0 {
      CountRepeat(x, n - 1, s);
      CountAppend(x, Repeat(n - 1, s), s);
      assert (n - 1) * Count(x, s) + Count(x, s) == n * Count(x, s);
    }
  }

  lemma CountPair<T>(v: T, x: T, y: T)
    ensures Count(v, [x, y]) == (if x == v then 1 else 0) + (if y == v then 1 else 0)
  {
    assert [x][..0] == [];
    assert Count(v, [x]) == (if x == v then 1 else 0);
    assert [x, y][..1] == [x];
  }

  // Extending the trace of `run` one step or one episode at a time.

  lemma StepsEventsExtend(pre: seq<Event>, steps: seq<StepInput>, t: nat)
    requires t < |steps|
    ensures pre + StepsEvents(steps[..t]) + StepEvents(steps[t]) == pre + StepsEvents(steps[..t + 1])
  {
    FlatMapExtend(pre, StepEvents, steps, t);
  }

  lemma RunEventsExtend(pre: seq<Event>, episodes: seq<EpisodeInput>, e: nat)
    requires e < |episodes|
    ensures pre + RunEvents(episodes[..e]) + ResetEvents(episodes[e].reset) + StepsEvents(episodes[e].steps)
      == pre + RunEvents(episodes[..e + 1])
  {
    FlatMapExtend(pre, EpisodeEvents, episodes, e);
  }

  // The shape of a reset, a step, an episode and a run.

  lemma MarksOfThree(a: seq<Event>, b: seq<Event>, c: seq<Event>, ma: seq<Mark>, mb: seq<Mark>, mc: seq<Mark>)
    requires Marks(a) == ma && Marks(b) == mb && Marks(c) == mc
    ensures Marks(a + b + c) == ma + mb + mc
  {
    FlatMapAppend(MarkOf, a, b);
    FlatMapAppend(MarkOf, a + b, c);
  }

  lemma SetHsrbStateMarks(firstOk: bool, secondOk: bool)
    ensures Marks(SetHsrbStateEvents(firstOk, secondOk)) == [PoseSet, PoseSet]
  {
    var first := SetAttemptEvents(SetModelStateService, firstOk);
    var second := SetAttemptEvents(ListControllersService, secondOk);
    FlatMapAppend(MarkOf, first, second);
    FlatMapPair(MarkOf, first[0], first[1]);
    FlatMapPair(MarkOf, second[0], second[1]);
  }

  /** A reset always stops, resets the world and sets the pose twice, in this
      order, whatever each service call does: a raised reset_world does not
      cut the set_model_state attempts short. */
  lemma ResetMarks(r: ResetOutcome)
    ensures Marks(ResetEvents(r)) == [Stop, WorldReset, PoseSet, PoseSet]
  {
    FlatMapPair(MarkOf, Publish(ZeroTwist), Publish(ZeroTwist));
    FlatMapPair(MarkOf, WaitForService(ResetWorldService), ResetWorld(r.worldOk));
    SetHsrbStateMarks(r.firstSetOk, r.secondSetOk);
    MarksOfThree([Publish(ZeroTwist)], ResetWorldEvents(r.worldOk), SetHsrbStateEvents(r.firstSetOk, r.secondSetOk),
      [Stop], [WorldReset], [PoseSet, PoseSet]);
  }

  /** A step queries the pose and then drives, whether or not the query
      raised. */
  lemma StepMarks(s: StepInput)
    requires 0 <= s.action < |MotionTable|
    ensures Marks(StepEvents(s)) == [StateQuery, Drive]
  {
    var query := GetHsrbStateEvents(s.reply);
    var publish := Publish(Command(s.action));
    FlatMapAppend(MarkOf, query, [publish]);
    FlatMapPair(MarkOf, query[0], query[1]);
    FlatMapPair(MarkOf, publish, publish);
  }

  lemma {:induction false} StepsMarks(steps: seq<StepInput>)
    requires forall t :: 0 <= t < |steps| ==> 0 <= steps[t].action < |MotionTable|
    ensures Marks(StepsEvents(steps)) == Repeat(|steps|, [StateQuery, Drive])
  {
    if steps != [] {
      var front, last := steps[..|steps| - 1], steps[|steps| - 1];
      StepsMarks(front);
      StepMarks(last);
      assert StepsEvents(steps) == StepsEvents(front) + StepEvents(last);
      FlatMapAppend(MarkOf, StepsEvents(front), StepEvents(last));
    }
  }

  predicate IsDrivenEpisode(e: EpisodeInput) {
    && |e.steps| == MAX_STEPS
    && forall t :: 0 <= t < |e.steps| ==> 0 <= e.steps[t].action < |MotionTable|
  }

  lemma EpisodeMarks(e: EpisodeInput)
    requires IsDrivenEpisode(e)
    ensures Marks(EpisodeEvents(e)) == EpisodeShape()
  {
    FlatMapAppend(MarkOf, ResetEvents(e.reset), StepsEvents(e.steps));
    ResetMarks(e.reset);
    StepsMarks(e.steps);
  }

  /** The whole run is the episode shape repeated once per episode: every
      episode's reset comes after the previous episode's last step and before
      its own first step. */
  lemma {:induction false} RunMarks(episodes: seq<EpisodeInput>)
    requires forall e :: 0 <= e < |episodes| ==> IsDrivenEpisode(episodes[e])
    ensures Marks(RunEvents(episodes)) == Repeat(|episodes|, EpisodeShape())
  {
    if episodes != [] {
      var front, last := episodes[..|episodes| - 1], episodes[|episodes| - 1];
      RunMarks(front);
      EpisodeMarks(last);
      assert RunEvents(episodes) == RunEvents(front) + EpisodeEvents(last);
      FlatMapAppend(MarkOf, RunEvents(front), EpisodeEvents(last));
    }
  }

  /** How often each mark occurs in one episode. */
  lemma EpisodeShapeCount(m: Mark)
    ensures Count(m, EpisodeShape()) ==
      (if m == Stop || m == WorldReset then 1 else if m == PoseSet then 2 else 0)
      + MAX_STEPS * (if m == StateQuery || m == Drive then 1 else 0)
  {
    var head: seq<Mark> := [Stop, WorldReset, PoseSet, PoseSet];
    assert Count(m, head) == (if m == Stop || m == WorldReset then 1 else if m == PoseSet then 2 else 0) by {
      assert head == [Stop, WorldReset] + [PoseSet, PoseSet];
      CountAppend(m, [Stop, WorldReset], [PoseSet, PoseSet]);
      CountPair(m, Stop, WorldReset);
      CountPair(m, PoseSet, PoseSet);
    }
    CountAppend(m, head, Repeat(MAX_STEPS, [StateQuery, Drive]));
    CountRepeat(m, MAX_STEPS, [StateQuery, Drive]);
    CountPair(m, StateQuery, Drive);
  }

  /** `run` publishes EPISODE_NUM * MAX_STEPS = 1000 drive commands, each
      after one get_model_state call, and performs EPISODE_NUM = 100 resets,
      each with one stop, one reset_world and two set_model_state calls. */
  lemma RunCounts(episodes: seq<EpisodeInput>)
    requires IsRunInput(episodes)
    ensures Count(Drive, Marks(RunEvents(episodes))) == EPISODE_NUM * MAX_STEPS == 1000
    ensures Count(StateQuery, Marks(RunEvents(episodes))) == EPISODE_NUM * MAX_STEPS
    ensures Count(Stop, Marks(RunEvents(episodes))) == EPISODE_NUM == 100
    ensures Count(WorldReset, Marks(RunEvents(episodes))) == EPISODE_NUM
    ensures Count(PoseSet, Marks(RunEvents(episodes))) == 2 * EPISODE_NUM
    ensures Count(ControllerQuery, Marks(RunEvents(episodes))) == 0
  {
    RunMarks(episodes);
    var n := |episodes|;
    forall m: Mark
      ensures Count(m, Repeat(n, EpisodeShape())) == n * Count(m, EpisodeShape())
    {
      CountRepeat(m, n, EpisodeShape());
    }
    EpisodeShapeCount(Drive);
    EpisodeShapeCount(StateQuery);
    EpisodeShapeCount(Stop);
    EpisodeShapeCount(WorldReset);
    EpisodeShapeCount(PoseSet);
    EpisodeShapeCount(ControllerQuery);
  }

  // Ordering, and what the published commands and requested poses are.

  predicate IsResetCall(ev: Event) {
    ev.ResetWorld? || ev.SetModelState?
  }

  /** No reset_world and no set_model_state happens among the steps. */
  lemma StepsHaveNoReset(steps: seq<StepInput>)
    ensures forall i :: 0 <= i < |StepsEvents(steps)| ==> !IsResetCall(StepsEvents(steps)[i])
  {
    FlatMapEvery(StepEvents, steps, ev => !IsResetCall(ev));
  }

  /** Episode e's events sit between all of the earlier episodes' events and
      all of the later ones', its reset first; between its steps there is no
      reset. */
  lemma EpisodeOrder(episodes: seq<EpisodeInput>, e: nat)
    requires e < |episodes|
    ensures RunEvents(episodes) ==
      RunEvents(episodes[..e]) + ResetEvents(episodes[e].reset) + StepsEvents(episodes[e].steps)
      + RunEvents(episodes[e + 1..])
    ensures forall i :: 0 <= i < |StepsEvents(episodes[e].steps)| ==>
      !IsResetCall(StepsEvents(episodes[e].steps)[i])
  {
    var upTo, rest := episodes[..e + 1], episodes[e + 1..];
    assert episodes == upTo + rest;
    FlatMapAppend(EpisodeEvents, upTo, rest);
    assert upTo[..e] == episodes[..e];
    assert RunEvents(upTo) == RunEvents(episodes[..e]) + EpisodeEvents(episodes[e]);
    StepsHaveNoReset(episodes[e].steps);
  }

  predicate PublishesIn(ev: Event, allowed: set<Twist>) {
    ev.Publish? ==> ev.command in allowed
  }

  /** Every command published in a trace is one of `allowed`. */
  predicate PublishesOnly(tr: seq<Event>, allowed: set<Twist>) {
    forall i :: 0 <= i < |tr| ==> PublishesIn(tr[i], allowed)
  }

  /** The commands `run` can publish: the stop, and the first three table
      entries; random.randint(0, 2) never yields BACKWARD. */
  function SampledCommands(): set<Twist> {
    {ZeroTwist, Command(FORWARD), Command(LEFT), Command(RIGHT)}
  }

  lemma EpisodePublishesSampled(e: EpisodeInput)
    requires forall t :: 0 <= t < |e.steps| ==> 0 <= e.steps[t].action <= 2
    ensures PublishesOnly(EpisodeEvents(e), SampledCommands())
  {
    var allowed := SampledCommands();
    FlatMapEvery(StepEvents, e.steps, ev => PublishesIn(ev, allowed));
    assert PublishesOnly(ResetEvents(e.reset), allowed);
  }

  lemma RunPublishesSampled(episodes: seq<EpisodeInput>)
    requires forall e, t :: 0 <= e < |episodes| && 0 <= t < |episodes[e].steps| ==>
      0 <= episodes[e].steps[t].action <= 2
    ensures PublishesOnly(RunEvents(episodes), SampledCommands())
    ensures Command(BACKWARD) !in SampledCommands()
  {
    var allowed := SampledCommands();
    forall k | 0 <= k < |episodes| ensures PublishesOnly(EpisodeEvents(episodes[k]), allowed) {
      EpisodePublishesSampled(episodes[k]);
    }
    FlatMapEvery(EpisodeEvents, episodes, ev => PublishesIn(ev, allowed));
  }

  predicate RequestsCanonical(ev: Event) {
    ev.SetModelState? ==> ev.state == CanonicalState()
  }

  /** Every set_model_state request of a run carries the canonical state, so
      repeated resets request the identical pose. */
  lemma RunRequestsCanonicalState(episodes: seq<EpisodeInput>)
    ensures forall i :: 0 <= i < |RunEvents(episodes)| ==> RequestsCanonical(RunEvents(episodes)[i])
  {
    forall k, j | 0 <= k < |episodes| && 0 <= j < |EpisodeEvents(episodes[k])|
      ensures RequestsCanonical(EpisodeEvents(episodes[k])[j])
    {
      var ep := episodes[k];
      StepsHaveNoReset(ep.steps);
      if j >= |ResetEvents(ep.reset)| {
        assert EpisodeEvents(ep)[j] == StepsEvents(ep.steps)[j - |ResetEvents(ep.reset)|];
      }
    }
    FlatMapEvery(EpisodeEvents, episodes, RequestsCanonical);
  }

  /** The canonical state puts the robot at the origin of the world frame
      with a unit (identity) orientation, which the default ModelState() lacks. */
  lemma CanonicalStateIsOrigin()
    ensures CanonicalState().modelName == MODEL_NAME && CanonicalState().referenceFrame == WORLD_FRAME
    ensures CanonicalState().pose.position == Point(0.0, 0.0, 0.0)
    ensures CanonicalState().pose.orientation == Quaternion(0.0, 0.0, 0.0, 1.0)
    ensures IsUnitQuaternion(CanonicalState().pose.orientation)
    ensures !IsUnitQuaternion(DefaultModelState.pose.orientation)
  {
  }
}
