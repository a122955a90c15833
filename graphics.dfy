// The few SFML value types the simulator's core uses: sf::Vector2f,
// sf::Color and the sf::FloatRect hit test. Floats are modelled as reals.
module Graphics {

  /** sf::Vector2f with real components. */
  datatype Vec2 = Vec2(x: real, y: real)

  const Zero: Vec2 := Vec2(0.0, 0.0)

  function Add(a: Vec2, b: Vec2): Vec2 {
    Vec2(a.x + b.x, a.y + b.y)
  }

  function Sub(a: Vec2, b: Vec2): Vec2 {
    Vec2(a.x - b.x, a.y - b.y)
  }

  /** Scalar times vector, as in `deltaTime * acceleration`. */
  function Scale(k: real, v: Vec2): Vec2 {
    Vec2(k * v.x, k * v.y)
  }

  /** sf::Color as its four 8-bit channels. */
  datatype Color = Color(r: nat, g: nat, b: nat, a: nat)

  const White: Color := Color(255, 255, 255, 255)
  const Blue: Color := Color(0, 0, 255, 255)
  const Yellow: Color := Color(255, 255, 0, 255)

  function Min(a: real, b: real): real { if a <= b then a else b }
  function Max(a: real, b: real): real { if a <= b then b else a }

  /** sf::FloatRect given by its left/top corner and its width/height. */
  datatype Rect = Rect(left: real, top: real, width: real, height: real)

  /**
   * sf::FloatRect::contains in SFML 2: the rectangle is normalised first
   * (a negative width or height flips it), and the test is closed on the
   * low edges and open on the high edges.
   */
  predicate Contains(r: Rect, p: Vec2) {
    var minX := Min(r.left, r.left + r.width);
    var maxX := Max(r.left, r.left + r.width);
    var minY := Min(r.top, r.top + r.height);
    var maxY := Max(r.top, r.top + r.height);
    minX <= p.x < maxX && minY <= p.y < maxY
  }

  /** The hit box of a disc drawn at `center` with the given radius. */
  function BoxAround(center: Vec2, radius: real): (r: Rect)
    ensures radius >= 0.0 ==> forall p :: Contains(r, p) <==>
      center.x - radius <= p.x < center.x + radius && center.y - radius <= p.y < center.y + radius
  {
    Rect(center.x - radius, center.y - radius, radius * 2.0, radius * 2.0)
  }
}
