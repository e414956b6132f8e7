/** The playfield bounds the character controllers keep the player inside.
    The controllers' constants are single-precision literals (8.4f, 4.5f);
    here they are the exact reals 8.4 and 4.5. */
module Screen {

  /** A Vector2: a position or a displacement in world units. */
  datatype Vec2 = Vec2(x: real, y: real)
  {
    function Plus(d: Vec2): Vec2 { Vec2(x + d.x, y + d.y) }
  }

  const XLimit: real := 8.4
  const YLimit: real := 4.5

  predicate OnScreen(p: Vec2)
  {
    -XLimit <= p.x <= XLimit && -YLimit <= p.y <= YLimit
  }

  function Abs(r: real): real { if r < 0.0 then -r else r }

  /** The position ClampPlayer writes back for `pos`: each coordinate that
      lies past an edge is moved onto that edge, each other one is kept. */
  function Clamp(pos: Vec2): (r: Vec2)
    ensures OnScreen(r)
    ensures OnScreen(pos) ==> r == pos
    ensures r.x == pos.x || r.x == XLimit || r.x == -XLimit
    ensures r.y == pos.y || r.y == YLimit || r.y == -YLimit
  {
    var cx := if pos.x > XLimit then XLimit else if pos.x < -XLimit then -XLimit else pos.x;
    var cy := if pos.y > YLimit then YLimit else if pos.y < -YLimit then -YLimit else pos.y;
    Vec2(cx, cy)
  }

  /** Clamping twice is clamping once. */
  lemma ClampIdempotent(pos: Vec2)
    ensures Clamp(Clamp(pos)) == Clamp(pos)
  {
  }

  /** The clamped position is, coordinate by coordinate, the on-screen point
      nearest to the requested one. */
  lemma ClampIsNearest(pos: Vec2, q: Vec2)
    requires OnScreen(q)
    ensures Abs(Clamp(pos).x - pos.x) <= Abs(q.x - pos.x)
    ensures Abs(Clamp(pos).y - pos.y) <= Abs(q.y - pos.y)
  {
  }
}
