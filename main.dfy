/**
 * The application side: the initial scene and the keyboard-driven movement of
 * the player whose position the ray tracer receives as a uniform.
 */
module Game {
  import opened Wrappers
  import opened Primitives
  import opened RayTracer

  // ---------------------------------------------------------------------------
  // Initial scene
  // ---------------------------------------------------------------------------

  /** The entities the start-up system spawns (the camera aside). */
  datatype Scene = Scene(players: seq<Vec2>, lines: seq<Line>)

  const F100: F32 := F32(0x42C8_0000)       // 100.0
  const F150: F32 := F32(0x4316_0000)       // 150.0
  const F200: F32 := F32(0x4348_0000)       // 200.0
  const NEG_F100: F32 := F32(0xC2C8_0000)   // -100.0
  const NEG_F150: F32 := F32(0xC316_0000)   // -150.0

  /** `setup`: one player at the origin, a solid wall on the left and a red mirror on the right. */
  function Setup(): (scene: Scene)
    ensures |scene.players| == 1 && scene.players[0] == Vec2(ZERO, ZERO)
    ensures |scene.lines| == 2
    ensures scene.lines[0].kind == Solid
    ensures scene.lines[1].kind == Mirror(RED)
  {
    Scene(
      [Vec2(ZERO, ZERO)],
      [ Line(Vec2(NEG_F100, F100), Vec2(NEG_F150, F200), Solid),
        Line(Vec2(F100, F100), Vec2(F150, F200), Mirror(RED)) ])
  }

  /**
   * Extracting the initial scene yields a solid record with zero colour and
   * a mirror record carrying red's conversion, in spawn order.
   */
  lemma SetupProjection(toVec4: Color -> Vec4)
    ensures var gpu := ProjectAll(Setup().lines, toVec4);
      |gpu| == 2 &&
      gpu[0] == ShaderLine(Vec2(NEG_F100, F100), Vec2(NEG_F150, F200), VEC4_ZERO, 0) &&
      gpu[1] == ShaderLine(Vec2(F100, F100), Vec2(F150, F200), toVec4(RED), 1)
  {
    ProjectAllAt(Setup().lines, toVec4, 0);
    ProjectAllAt(Setup().lines, toVec4, 1);
  }

  // ---------------------------------------------------------------------------
  // Movement
  // ---------------------------------------------------------------------------

  /** Which of the W, A, S and D keys are held this frame. */
  datatype Keys = Keys(w: bool, a: bool, s: bool, d: bool)

  /** An integer movement direction; `y` grows with S and shrinks with W. */
  datatype Dir = Dir(x: int, y: int)

  const NO_KEYS: Keys := Keys(false, false, false, false)

  /** A key's contribution to the direction: 1 when pressed, 0 when not. */
  function Axis(pressed: bool): (v: int)
  {
    if pressed then 1 else 0
  }

  /** The direction `(d - a, s - w)`. */
  function Direction(keys: Keys): (dir: Dir)
    ensures -1 <= dir.x <= 1 && -1 <= dir.y <= 1
    ensures dir.x > 0 <==> keys.d && !keys.a
    ensures dir.x < 0 <==> keys.a && !keys.d
    ensures dir.y > 0 <==> keys.s && !keys.w
    ensures dir.y < 0 <==> keys.w && !keys.s
    ensures dir == Dir(0, 0) <==> keys.w == keys.s && keys.a == keys.d
  {
    Dir(Axis(keys.d) - Axis(keys.a), Axis(keys.s) - Axis(keys.w))
  }

  /**
   * The position after one frame.  `step(dir, delta)` stands for
   * `delta * dir.normalize() * 200.0` and `add` for float vector addition,
   * neither of which this model interprets.
   */
  function Moved(player: Vec2, keys: Keys, delta: F32, step: (Dir, F32) -> Vec2, add: (Vec2, Vec2) -> Vec2): (p: Vec2)
    ensures keys.w == keys.s && keys.a == keys.d ==> p == player
    ensures keys.w != keys.s || keys.a != keys.d ==> p == add(player, step(Direction(keys), delta))
  {
    var dir := Direction(keys);
    if dir == Dir(0, 0) then player else add(player, step(dir, delta))
  }

  /** With no key held the player stays where it is. */
  lemma NoKeysNoMove(player: Vec2, delta: F32, step: (Dir, F32) -> Vec2, add: (Vec2, Vec2) -> Vec2)
    ensures Moved(player, NO_KEYS, delta, step, add) == player
  {
  }

  /** Opposite keys cancel: W with S, A with D, or all four keys leave the player in place. */
  lemma OppositeKeysCancel(player: Vec2, keys: Keys, delta: F32, step: (Dir, F32) -> Vec2, add: (Vec2, Vec2) -> Vec2)
    requires keys == Keys(true, false, true, false) || keys == Keys(false, true, false, true)
      || keys == Keys(true, true, true, true)
    ensures Moved(player, keys, delta, step, add) == player
  {
  }

  /** A nonzero direction moves the player by exactly one step from where it was. */
  lemma MoveIsOneStep(player: Vec2, keys: Keys, delta: F32, step: (Dir, F32) -> Vec2, add: (Vec2, Vec2) -> Vec2)
    requires keys.w != keys.s || keys.a != keys.d
    ensures Direction(keys) != Dir(0, 0)
    ensures Moved(player, keys, delta, step, add) == add(player, step(Direction(keys), delta))
  {
  }

  /** Why `Query::single_mut` panics. */
  datatype QuerySingleError = NoEntities | MultipleEntities

  /**
   * `move_player`: the one `ShaderInputs` component is moved by one step in the
   * direction of the held keys.  When the query does not hold exactly one
   * entity, `single_mut` panics; that is the error result, and nothing moves.
   */
  method MovePlayer(query: seq<ShaderInputs>, keys: Keys, delta: F32, step: (Dir, F32) -> Vec2, add: (Vec2, Vec2) -> Vec2)
    returns (r: Result<(), QuerySingleError>)
    modifies set e | e in query
    ensures |query| == 0 ==> r == Err(NoEntities)
    ensures |query| > 1 ==> r == Err(MultipleEntities)
    ensures |query| == 1 ==> r.Ok? && query[0].player == Moved(old(query[0].player), keys, delta, step, add)
    ensures r.Err? ==> forall e :: e in query ==> e.player == old(e.player)
  {
    if |query| == 0 {
      return Err(NoEntities);
    }
    if |query| > 1 {
      return Err(MultipleEntities);
    }
    var shaderInputs := query[0];

    var dir := Direction(keys);
    if dir == Dir(0, 0) {
      return Ok(());
    }

    shaderInputs.player := add(shaderInputs.player, step(dir, delta));
    return Ok(());
  }
}
