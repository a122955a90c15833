// Program.cpp's Program: the body list, the update loop that moves every
// body in place, and the two scans that pick the body under the mouse.
module Simulator {
  import opened Graphics
  import opened Objects
  import opened Physics

  datatype Option<T> = None | Some(value: T)

  datatype MouseButton = Left | Right | Middle | XButton1 | XButton2

  /** The square a body is drawn in: its position plus or minus its radius. */
  function HitBox(o: Object): Rect {
    BoxAround(o.pos, o.radius)
  }

  predicate Hits(o: Object, p: Vec2) {
    Contains(HitBox(o), p)
  }

  /** The first body, in list order, whose box contains `p`. */
  function FirstHit(objs: seq<Object>, p: Vec2): (r: Option<nat>)
    ensures r.Some? ==> r.value < |objs| && Hits(objs[r.value], p)
    ensures r.Some? ==> forall j :: 0 <= j < r.value ==> !Hits(objs[j], p)
    ensures r.None? ==> forall j :: 0 <= j < |objs| ==> !Hits(objs[j], p)
  {
    if objs == [] then None
    else if Hits(objs[0], p) then Some(0)
    else match FirstHit(objs[1..], p)
      case Some(i) => Some(i + 1)
      case None => None
  }

  /** No two bodies share an id, so none of them skips another in update. */
  predicate DistinctIds(objs: seq<Object>) {
    forall i, j :: 0 <= i < j < |objs| ==> objs[i].id != objs[j].id
  }

  /** The bodies Program's constructor creates, in list order. */
  const InitialObjects: seq<Object> := [
    Object(Vec2(0.0, 0.0), Vec2(0.0, -29780.0), 5.9722e24, 6378000.0, Blue, "earth"),
    Object(Vec2(0.0, 384467e3), Vec2(1023.0, -29780.0), 7.34767309e22, 1.74e6, White, "moon"),
    Object(Vec2(0.0, -6.7981e6), Vec2(-7990.0, -29780.0), 4.5e5, 10900.0, White, "iss"),
    Object(Vec2(-1.49598023e11, 0.0), Zero, 1.989e30, 6.957e8, Yellow, "sun")]

  class Program {
    var objects: seq<Object>
    var deltaTime: real
    var zoom: real
    /** The body the camera follows, as an index into `objects`. */
    var cameraFocus: Option<nat>

    ghost predicate Valid()
      reads this
    {
      cameraFocus.Some? ==> cameraFocus.value < |objects|
    }

    /**
     * Builds the four bodies: earth, moon, iss and sun. Each is made with
     * Object's constructor and then given its own id, color and velocity.
     * `toString` is std::to_string for floats.
     */
    constructor (toString: real -> seq<Byte>)
      ensures Valid()
      ensures deltaTime == 10.0 && zoom == 0.0 && cameraFocus == None
      ensures objects == InitialObjects
      ensures DistinctIds(objects)
      ensures objects[1].velocity.y == objects[2].velocity.y == objects[0].velocity.y
    {
      deltaTime := 10.0;
      zoom := 0.0;
      cameraFocus := None;
      objects := [];

      var earth := NewObject(0.0, 0.0, 5.9722e24, toString(0.0 + 0.0 * 5.9722e24), 6378000.0);
      earth := earth.(id := "earth", color := Blue);
      earth := earth.(velocity := earth.velocity.(y := -29780.0));
      objects := objects + [earth];

      var moon := NewObject(0.0, 384467e3, 7.34767309e22, toString(0.0 + 384467e3 * 7.34767309e22), 1.74e6);
      moon := moon.(id := "moon");
      moon := moon.(velocity := moon.velocity.(x := 1023.0));
      moon := moon.(velocity := moon.velocity.(y := earth.velocity.y));
      objects := objects + [moon];

      var iss := NewObject(0.0, -6.7981e6, 4.5e5, toString(0.0 + -6.7981e6 * 4.5e5), 109.0 * 100.0);
      iss := iss.(id := "iss");
      iss := iss.(velocity := iss.velocity.(x := -7990.0));
      iss := iss.(velocity := iss.velocity.(y := earth.velocity.y));
      objects := objects + [iss];

      var sun := NewObject(-1.49598023e11, 0.0, 1.989e30, toString(-1.49598023e11 + 0.0 * 1.989e30), 6.957e8);
      sun := sun.(id := "sun", color := Yellow);
      objects := objects + [sun];
    }

    /**
     * One simulation step. For each body in list order, the inner loop sums
     * the pull of every body with a different id, then the body's velocity
     * and position are updated in place before the next body is visited.
     */
    method Update(pull: Pull)
      requires Valid() && NoCoincidentPair(objects, deltaTime, pull)
      modifies this`objects
      ensures Valid()
      ensures objects == Updated(old(objects), deltaTime, pull)
    {
      var k := 0;
      while k < |objects|
        invariant k <= |objects| == |old(objects)|
        invariant objects == AfterSteps(old(objects), k, deltaTime, pull)
      {
        var acceleration := Zero;
        var j := 0;
        while j < |objects|
          invariant j <= |objects|
          invariant acceleration == AccelerationUpTo(objects, k, j, pull)
        {
          var other := objects[j];
          if objects[k].id != other.id {
            acceleration := Add(acceleration, pull(objects[k].pos, other.pos, other.mass));
          }
          j := j + 1;
        }
        var body := objects[k];
        var velocity := Add(body.velocity, Scale(deltaTime, acceleration));
        objects := objects[k := body.(velocity := velocity, pos := Add(body.pos, Scale(deltaTime, velocity)))];
        k := k + 1;
      }
    }

    /**
     * A released mouse button, with the pointer already mapped to world
     * coordinates. The right button focuses the camera on the first body under
     * the pointer; with none there, and for every other button, the focus stays.
     */
    method MouseButtonReleased(button: MouseButton, mousePos: Vec2)
      requires Valid()
      modifies this`cameraFocus
      ensures Valid()
      ensures cameraFocus ==
        if button == Right && FirstHit(objects, mousePos).Some? then FirstHit(objects, mousePos)
        else old(cameraFocus)
    {
      match button
      case Right =>
        var i := 0;
        while i < |objects|
          invariant i <= |objects|
          invariant forall j :: 0 <= j < i ==> !Hits(objects[j], mousePos)
          invariant cameraFocus == old(cameraFocus)
        {
          if Hits(objects[i], mousePos) {
            cameraFocus := Some(i);
            break;
          }
          i := i + 1;
        }
      case _ =>
    }

    /** The id the tooltip shows: that of the first body under the pointer, if any. */
    method TooltipText(mousePos: Vec2) returns (tip: Option<string>)
      ensures tip.Some? <==> FirstHit(objects, mousePos).Some?
      ensures tip.Some? ==> tip.value == objects[FirstHit(objects, mousePos).value].id
    {
      tip := None;
      for i := 0 to |objects|
        invariant forall j :: 0 <= j < i ==> !Hits(objects[j], mousePos)
      {
        if Hits(objects[i], mousePos) {
          tip := Some(objects[i].id);
          return;
        }
      }
    }
  }
}
