/** The action -> velocity command table of `step`. */
module Commands {
  import opened Messages

  const FORWARD: int := 0
  const LEFT: int := 1
  const RIGHT: int := 2
  const BACKWARD: int := 3

  /** The motion primitives indexed by action: (linear.x, angular.z). */
  const MotionTable: seq<(real, real)> := [(10.0, 0.0), (5.0, 10.0), (0.0, -10.0), (-10.0, 0.0)]

  /** A Twist() whose linear.x and angular.z alone were assigned. */
  function Planar(linear: real, angular: real): Twist {
    Twist(Vector3(linear, 0.0, 0.0), Vector3(0.0, 0.0, angular))
  }

  predicate IsPlanar(t: Twist) {
    t.linear.y == 0.0 && t.linear.z == 0.0 && t.angular.x == 0.0 && t.angular.y == 0.0
  }

  /** The command `step` publishes for `action`: the if/elif chain over the
      four actions; when no branch fires the default Twist() is published. */
  function Command(action: int): (t: Twist)
    ensures IsPlanar(t)
    ensures 0 <= action < |MotionTable| ==>
      t == Planar(MotionTable[action].0, MotionTable[action].1) && t != ZeroTwist
    ensures !(0 <= action < |MotionTable|) ==> t == ZeroTwist
  {
    if action == FORWARD then Planar(10.0, 0.0)
    else if action == LEFT then Planar(5.0, 10.0)
    else if action == RIGHT then Planar(0.0, -10.0)
    else if action == BACKWARD then Planar(-10.0, 0.0)
    else ZeroTwist
  }

  /** The four table commands are pairwise distinct, so the published
      command determines the action whenever the action is in the table. */
  lemma CommandDeterminesAction(a: int, b: int)
    requires 0 <= a < |MotionTable| && 0 <= b < |MotionTable|
    ensures Command(a) == Command(b) <==> a == b
  {
  }
}
