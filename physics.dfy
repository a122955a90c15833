// What Program::update does to the body list, as functions on values: an
// outer pass over the objects that updates each one in place, so that the
// acceleration of object k sees the already-moved objects 0..k-1.
module Physics {
  import opened Graphics
  import opened Objects

  /**
   * The acceleration one body at `to`, of mass `mass`, contributes to a body
   * at `from`. The source computes G * mass / distance^2 along the direction
   * from `from` to `to` with sqrt, pow, atan2, cos and sin in floats; the
   * model leaves it abstract.
   */
  type Pull = (Vec2, Vec2, real) -> Vec2

  /**
   * The acceleration accumulated for objs[k] after the inner loop has visited
   * objs[0..j): every visited object whose id differs from objs[k]'s adds its
   * pull, in list order.
   */
  function AccelerationUpTo(objs: seq<Object>, k: nat, j: nat, pull: Pull): Vec2
    requires k < |objs| && j <= |objs|
  {
    if j == 0 then Zero
    else
      var acc := AccelerationUpTo(objs, k, j - 1, pull);
      var other := objs[j - 1];
      if other.id == objs[k].id then acc
      else Add(acc, pull(objs[k].pos, other.pos, other.mass))
  }

  /** The acceleration of objs[k] after the full inner loop. */
  function Acceleration(objs: seq<Object>, k: nat, pull: Pull): Vec2
    requires k < |objs|
  {
    AccelerationUpTo(objs, k, |objs|, pull)
  }

  /** Velocity first, then position with the new velocity (semi-implicit Euler). */
  function Advance(o: Object, a: Vec2, dt: real): Object {
    var v := Add(o.velocity, Scale(dt, a));
    o.(velocity := v, pos := Add(o.pos, Scale(dt, v)))
  }

  /** The list after the first k iterations of the outer loop. */
  function AfterSteps(objs: seq<Object>, k: nat, dt: real, pull: Pull): (r: seq<Object>)
    requires k <= |objs|
    ensures |r| == |objs|
  {
    if k == 0 then objs
    else
      var prev := AfterSteps(objs, k - 1, dt, pull);
      prev[k - 1 := Advance(prev[k - 1], Acceleration(prev, k - 1, pull), dt)]
  }

  /** The list after a whole call of update. */
  function Updated(objs: seq<Object>, dt: real, pull: Pull): (r: seq<Object>)
    ensures |r| == |objs|
  {
    AfterSteps(objs, |objs|, dt, pull)
  }

  /**
   * The source divides by the distance between the two bodies of every pair
   * it visits; this holds when none of those distances is zero.
   */
  ghost predicate NoCoincidentPair(objs: seq<Object>, dt: real, pull: Pull) {
    forall k, j :: 0 <= k < |objs| && 0 <= j < |objs| && objs[j].id != objs[k].id ==>
      AfterSteps(objs, k, dt, pull)[j].pos != AfterSteps(objs, k, dt, pull)[k].pos
  }

  /** The objects the outer loop has not reached yet are untouched. */
  lemma {:induction false} AfterStepsUntouched(objs: seq<Object>, k: nat, dt: real, pull: Pull, j: nat)
    requires k <= j < |objs|
    ensures AfterSteps(objs, k, dt, pull)[j] == objs[j]
  {
    if k > 0 {
      AfterStepsUntouched(objs, k - 1, dt, pull, j);
    }
  }

  /** Once the outer loop has passed object j, it no longer changes. */
  lemma {:induction false} AfterStepsSettled(objs: seq<Object>, k: nat, m: nat, dt: real, pull: Pull, j: nat)
    requires j < k <= m <= |objs|
    ensures AfterSteps(objs, m, dt, pull)[j] == AfterSteps(objs, k, dt, pull)[j]
    decreases m
  {
    if m > k {
      AfterStepsSettled(objs, k, m - 1, dt, pull, j);
    }
  }

  /**
   * Update is sequential and in place: object k is advanced with the
   * acceleration computed on the list whose first k entries are already
   * updated and whose remaining entries are not.
   */
  lemma UpdateIsSequential(objs: seq<Object>, dt: real, pull: Pull, k: nat)
    requires k < |objs|
    ensures var r := Updated(objs, dt, pull);
      |r| == |objs| &&
      r[k] == Advance(objs[k], Acceleration(r[..k] + objs[k..], k, pull), dt)
  {
    var r := Updated(objs, dt, pull);
    var before := AfterSteps(objs, k, dt, pull);
    forall j | 0 <= j < |objs|
      ensures before[j] == (r[..k] + objs[k..])[j]
    {
      if j < k {
        AfterStepsSettled(objs, k, |objs|, dt, pull, j);
      } else {
        AfterStepsUntouched(objs, k, dt, pull, j);
      }
    }
    assert before == r[..k] + objs[k..];
    AfterStepsSettled(objs, k + 1, |objs|, dt, pull, k);
    AfterStepsUntouched(objs, k, dt, pull, k);
  }

  /** Advance changes only position and velocity. */
  predicate SameBody(a: Object, b: Object) {
    a.id == b.id && a.mass == b.mass && a.radius == b.radius && a.color == b.color
  }

  /**
   * Update keeps the list's length and order, and each entry's id, mass,
   * radius and color.
   */
  lemma {:induction false} AfterStepsKeepsBodies(objs: seq<Object>, k: nat, dt: real, pull: Pull)
    requires k <= |objs|
    ensures var r := AfterSteps(objs, k, dt, pull);
      |r| == |objs| && forall j :: 0 <= j < |objs| ==> SameBody(r[j], objs[j])
  {
    if k > 0 {
      AfterStepsKeepsBodies(objs, k - 1, dt, pull);
    }
  }

  lemma UpdateKeepsBodies(objs: seq<Object>, dt: real, pull: Pull)
    ensures var r := Updated(objs, dt, pull);
      |r| == |objs| && forall j :: 0 <= j < |objs| ==> SameBody(r[j], objs[j])
  {
    AfterStepsKeepsBodies(objs, |objs|, dt, pull);
  }

  /** With a zero time step nothing moves, whatever the pulls are. */
  lemma {:induction false} AfterStepsZeroDelta(objs: seq<Object>, k: nat, pull: Pull)
    requires k <= |objs|
    ensures AfterSteps(objs, k, 0.0, pull) == objs
  {
    if k > 0 {
      AfterStepsZeroDelta(objs, k - 1, pull);
    }
  }

  lemma ZeroDeltaTimeChangesNothing(objs: seq<Object>, pull: Pull)
    ensures Updated(objs, 0.0, pull) == objs
  {
    AfterStepsZeroDelta(objs, |objs|, pull);
  }

  /**
   * An object gets nothing from entries that share its id: changing the
   * position or mass of those entries leaves its acceleration as it was.
   */
  lemma {:induction false} AccelerationIgnoresSameId(objs: seq<Object>, others: seq<Object>, k: nat, j: nat, pull: Pull)
    requires |others| == |objs| && k < |objs| && j <= |objs|
    requires others[k] == objs[k]
    requires forall i :: 0 <= i < |objs| ==> others[i].id == objs[i].id
    requires forall i :: 0 <= i < |objs| && objs[i].id != objs[k].id ==> others[i] == objs[i]
    ensures AccelerationUpTo(others, k, j, pull) == AccelerationUpTo(objs, k, j, pull)
  {
    if j > 0 {
      AccelerationIgnoresSameId(objs, others, k, j - 1, pull);
    }
  }

  /** An object whose id every entry shares has zero acceleration. */
  lemma {:induction false} NoOtherIdNoAcceleration(objs: seq<Object>, k: nat, j: nat, pull: Pull)
    requires k < |objs| && j <= |objs|
    requires forall i :: 0 <= i < |objs| ==> objs[i].id == objs[k].id
    ensures AccelerationUpTo(objs, k, j, pull) == Zero
  {
    if j > 0 {
      NoOtherIdNoAcceleration(objs, k, j - 1, pull);
    }
  }

  /** A lone object keeps its velocity and moves by dt times it. */
  lemma LoneObjectCoasts(o: Object, dt: real, pull: Pull)
    ensures Updated([o], dt, pull) ==
      [o.(pos := Add(o.pos, Scale(dt, o.velocity)))]
  {
    NoOtherIdNoAcceleration([o], 0, 1, pull);
    assert AfterSteps([o], 0, dt, pull) == [o];
    assert Acceleration([o], 0, pull) == Zero;
  }

  /**
   * The position step uses the new velocity: the displacement is
   * dt * v + dt^2 * a, not the explicit-Euler dt * v.
   */
  lemma SemiImplicitOrder(o: Object, a: Vec2, dt: real)
    ensures Advance(o, a, dt).velocity == Add(o.velocity, Scale(dt, a))
    ensures Advance(o, a, dt).pos == Add(Add(o.pos, Scale(dt, o.velocity)), Scale(dt * dt, a))
  {
  }

  /** A simultaneous update: every object reads the list as it was before the step. */
  function SnapshotUpdated(objs: seq<Object>, dt: real, pull: Pull): (r: seq<Object>)
    ensures |r| == |objs|
  {
    seq(|objs|, k requires 0 <= k < |objs| => Advance(objs[k], Acceleration(objs, k, pull), dt))
  }

  /** Update on two bodies with different ids, written out. */
  lemma TwoBodies(a: Object, b: Object, dt: real, pull: Pull)
    requires a.id != b.id
    ensures var a' := Advance(a, Add(Zero, pull(a.pos, b.pos, b.mass)), dt);
      Updated([a, b], dt, pull) == [a', Advance(b, Add(Zero, pull(b.pos, a'.pos, a.mass)), dt)]
  {
    var objs := [a, b];
    assert AfterSteps(objs, 0, dt, pull) == objs;
    assert AccelerationUpTo(objs, 0, 1, pull) == Zero;
    assert Acceleration(objs, 0, pull) == Add(Zero, pull(a.pos, b.pos, b.mass));
    var a' := Advance(a, Add(Zero, pull(a.pos, b.pos, b.mass)), dt);
    var mid := AfterSteps(objs, 1, dt, pull);
    assert mid == [a', b];
    assert AccelerationUpTo(mid, 1, 1, pull) == Add(Zero, pull(b.pos, a'.pos, a.mass));
    assert AccelerationUpTo(mid, 1, 2, pull) == Add(Zero, pull(b.pos, a'.pos, a.mass));
  }

  /**
   * The in-place update is not the simultaneous one: with two bodies, the
   * second one's new velocity differs from the simultaneous update's whenever
   * the first body's move changes the pull it exerts.
   */
  lemma SequentialDiffersFromSnapshot(a: Object, b: Object, dt: real, pull: Pull)
    requires a.id != b.id && dt != 0.0
    requires var a' := Updated([a, b], dt, pull)[0];
      pull(b.pos, a'.pos, a.mass) != pull(b.pos, a.pos, a.mass)
    ensures Updated([a, b], dt, pull)[1].velocity != SnapshotUpdated([a, b], dt, pull)[1].velocity
  {
    TwoBodies(a, b, dt, pull);
    var objs := [a, b];
    assert AccelerationUpTo(objs, 1, 1, pull) == Add(Zero, pull(b.pos, a.pos, a.mass));
    var p1 := Add(Zero, pull(b.pos, Updated(objs, dt, pull)[0].pos, a.mass));
    var p2 := Add(Zero, pull(b.pos, a.pos, a.mass));
    assert p1 != p2;
    assert p1.x != p2.x || p1.y != p2.y;
  }
}
