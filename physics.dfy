// The per-frame physics step of the platformer, stage by stage, as pure
// functions over values. FrameStep composes the stages in the order the game
// runs them; the Game class's UpdateGame is proved to compute exactly it.

module Physics {
  import opened Geometry

  /** Added to the vertical velocity every frame. */
  const Gravity: real := 0.5
  /** Horizontal displacement per frame while an arrow key is held. */
  const Speed: real := 4.0
  /** Vertical velocity given by a jump (negative is upwards). */
  const JumpStrength: real := -11.0

  /** The animation label shown for the player. */
  datatype Animation = Idle1 | Run | Jump | Fall

  /** The player's part of the game state, which one frame updates. */
  datatype Player = Player(
    x: real, y: real, prevX: real, prevY: real, velocityY: real,
    onGround: bool, doubleJump: int, jumpPressed: bool, facingRight: bool,
    state: Animation, previousState: Animation)

  // ---------------------------------------------------------------------------
  // Stage 1: horizontal input

  datatype Horizontal = Horizontal(x: real, facingRight: bool, moving: bool)

  /** ArrowLeft is applied first, then ArrowRight; holding both cancels out. */
  function HorizontalInput(x: real, facingRight: bool, left: bool, right: bool): (h: Horizontal)
    ensures h.moving <==> left || right
    ensures h.x == x + (if right then Speed else 0.0) - (if left then Speed else 0.0)
    ensures h.facingRight <==> right || (facingRight && !left)
  {
    var afterLeft := if left then Horizontal(x - Speed, false, true) else Horizontal(x, facingRight, false);
    if right then Horizontal(afterLeft.x + Speed, true, true) else afterLeft
  }

  // ---------------------------------------------------------------------------
  // Stage 3: the vertical collision pass

  /** The values the vertical pass and the container clamp work on. */
  datatype Vertical = Vertical(y: real, velocityY: real, onGround: bool, hitCeiling: bool, doubleJump: int)

  /** Resting on a platform's top. */
  function Land(v: Vertical, pb: Box): Vertical {
    v.(y := pb.top - PlayerSize, velocityY := 0.0, onGround := true, doubleJump := 0)
  }

  /** Stopped by a platform's underside. */
  function Bump(v: Vertical, pb: Box): Vertical {
    v.(y := pb.bottom, velocityY := 0.0, hitCeiling := true)
  }

  /** The projected box hits p and the player was above it before the frame. */
  predicate CanLand(box: Box, cur: Box, p: Platform) {
    Colliding(box, GetBounds(p)) && cur.bottom <= GetBounds(p).top
  }

  /** The projected box hits p and the player was below it before the frame. */
  predicate CanBump(box: Box, cur: Box, p: Platform) {
    Colliding(box, GetBounds(p)) && cur.top >= GetBounds(p).bottom
  }

  /** One iteration of the vertical pass. box is the projected box, fixed for the
      whole pass; cur is the box before the vertical move; the velocity tested is
      the one left by the earlier iterations. */
  function VerticalStep(box: Box, cur: Box, p: Platform, v: Vertical): (r: Vertical)
    ensures CanBump(box, cur, p) && v.velocityY < 0.0 ==> r == Bump(v, GetBounds(p))
    ensures CanLand(box, cur, p) && v.velocityY >= 0.0 ==> r == Land(v, GetBounds(p))
    ensures !(CanBump(box, cur, p) && v.velocityY < 0.0) && !(CanLand(box, cur, p) && v.velocityY >= 0.0) ==> r == v
  {
    var pb := GetBounds(p);
    if Colliding(box, pb) then
      if v.velocityY < 0.0 && cur.top >= pb.bottom then Bump(v, pb)
      else if v.velocityY >= 0.0 && cur.bottom <= pb.top then Land(v, pb)
      else v
    else v
  }

  /** The vertical pass over the platforms, in order. */
  function VerticalPass(box: Box, cur: Box, ps: seq<Platform>, v: Vertical): (r: Vertical)
    ensures r.velocityY == v.velocityY || r.velocityY == 0.0
    ensures r.doubleJump == v.doubleJump || (r.doubleJump == 0 && r.onGround)
    ensures v.onGround ==> r.onGround
  {
    if ps == [] then v
    else VerticalStep(box, cur, ps[|ps| - 1], VerticalPass(box, cur, ps[..|ps| - 1], v))
  }

  /** Index of the last platform that can be landed on, or -1. */
  function LastLanding(box: Box, cur: Box, ps: seq<Platform>): (j: int)
    ensures -1 <= j < |ps|
    ensures j >= 0 ==> CanLand(box, cur, ps[j])
    ensures forall k :: j < k < |ps| ==> !CanLand(box, cur, ps[k])
  {
    if ps == [] then -1
    else if CanLand(box, cur, ps[|ps| - 1]) then |ps| - 1
    else LastLanding(box, cur, ps[..|ps| - 1])
  }

  /** Index of the first platform that can be hit from below, or -1. */
  function FirstBump(box: Box, cur: Box, ps: seq<Platform>): (j: int)
    ensures -1 <= j < |ps|
    ensures j >= 0 ==> CanBump(box, cur, ps[j])
    ensures forall k :: 0 <= k < |ps| && (j < 0 || k < j) ==> !CanBump(box, cur, ps[k])
  {
    if ps == [] then -1
    else if CanBump(box, cur, ps[0]) then 0
    else
      var j := FirstBump(box, cur, ps[1..]);
      if j < 0 then -1 else j + 1
  }

  /** Running the pass over a concatenation runs it over each part in turn. */
  lemma {:induction false} VerticalPassAppend(box: Box, cur: Box, ps: seq<Platform>, qs: seq<Platform>, v: Vertical)
    ensures VerticalPass(box, cur, ps + qs, v) == VerticalPass(box, cur, qs, VerticalPass(box, cur, ps, v))
  {
    if qs == [] {
      assert ps + qs == ps;
    } else {
      var n := |qs|;
      assert (ps + qs)[..|ps + qs| - 1] == ps + qs[..n - 1];
      assert (ps + qs)[|ps + qs| - 1] == qs[n - 1];
      VerticalPassAppend(box, cur, ps, qs[..n - 1], v);
    }
  }

  /** Falling or at rest: no ceiling can be hit, and the LAST platform that can
      be landed on decides the outcome; with none, nothing changes. */
  lemma {:induction false} VerticalPassFalling(box: Box, cur: Box, ps: seq<Platform>, v: Vertical)
    requires v.velocityY >= 0.0
    ensures VerticalPass(box, cur, ps, v) ==
      (var j := LastLanding(box, cur, ps); if j < 0 then v else Land(v, GetBounds(ps[j])))
  {
    if ps != [] {
      var init := ps[..|ps| - 1];
      VerticalPassFalling(box, cur, init, v);
      var j := LastLanding(box, cur, init);
      if j >= 0 {
        assert ps[j] == init[j];
      }
    }
  }

  /** Rising with no platform above to hit: nothing changes (a landing needs a
      velocity that is not negative). */
  lemma {:induction false} VerticalPassRisingMiss(box: Box, cur: Box, ps: seq<Platform>, v: Vertical)
    requires v.velocityY < 0.0
    requires forall k :: 0 <= k < |ps| ==> !CanBump(box, cur, ps[k])
    ensures VerticalPass(box, cur, ps, v) == v
  {
    if ps != [] {
      var init := ps[..|ps| - 1];
      assert forall k :: 0 <= k < |init| ==> init[k] == ps[k];
      VerticalPassRisingMiss(box, cur, init, v);
    }
  }

  /** Rising: the FIRST platform that can be hit from below stops the player;
      velocityY is then 0, so later platforms can only land the player, and the
      last of those decides. With no such platform nothing changes. */
  lemma VerticalPassRising(box: Box, cur: Box, ps: seq<Platform>, v: Vertical)
    requires v.velocityY < 0.0
    ensures var c := FirstBump(box, cur, ps);
      VerticalPass(box, cur, ps, v) ==
        if c < 0 then v
        else
          var b := Bump(v, GetBounds(ps[c]));
          var j := LastLanding(box, cur, ps[c + 1..]);
          if j < 0 then b else Land(b, GetBounds(ps[c + 1 + j]))
  {
    var c := FirstBump(box, cur, ps);
    if c < 0 {
      VerticalPassRisingMiss(box, cur, ps, v);
    } else {
      var before, rest := ps[..c], ps[c + 1..];
      assert forall k :: 0 <= k < |before| ==> before[k] == ps[k];
      VerticalPassRisingMiss(box, cur, before, v);
      VerticalPassSplit(box, cur, ps, c, v);
      var b := Bump(v, GetBounds(ps[c]));
      assert VerticalStep(box, cur, ps[c], v) == b;
      VerticalPassFalling(box, cur, rest, b);
      var j := LastLanding(box, cur, rest);
      if j >= 0 {
        assert rest[j] == ps[c + 1 + j];
      }
    }
  }

  /** The pass over ps is the pass over the platforms before index c, then
      the step for ps[c], then the pass over the platforms after it. */
  lemma VerticalPassSplit(box: Box, cur: Box, ps: seq<Platform>, c: int, v: Vertical)
    requires 0 <= c < |ps|
    ensures VerticalPass(box, cur, ps, v) ==
      VerticalPass(box, cur, ps[c + 1..], VerticalStep(box, cur, ps[c], VerticalPass(box, cur, ps[..c], v)))
  {
    var before := ps[..c];
    VerticalPassSingle(box, cur, ps[c], VerticalPass(box, cur, before, v));
    VerticalPassAppend(box, cur, before, [ps[c]], v);
    assert ps == (before + [ps[c]]) + ps[c + 1..];
    VerticalPassAppend(box, cur, before + [ps[c]], ps[c + 1..], v);
  }

  lemma VerticalPassSingle(box: Box, cur: Box, p: Platform, v: Vertical)
    ensures VerticalPass(box, cur, [p], v) == VerticalStep(box, cur, p, v)
  {
    assert [p][..0] == [];
  }

  // ---------------------------------------------------------------------------
  // Stage 4: the horizontal collision pass

  /** One iteration of the horizontal pass. box is the box after the vertical
      move, cur the box captured before it. */
  function HorizontalStep(box: Box, cur: Box, p: Platform, x: real, prevX: real): (r: real)
    ensures r == x || r == GetBounds(p).left - PlayerSize || r == GetBounds(p).right
    ensures box.left == cur.left && box.right == cur.right ==> r == x
  {
    var pb := GetBounds(p);
    if Colliding(box, pb) && box.bottom > pb.top && box.top < pb.bottom then
      if x > prevX && box.right > pb.left && cur.right <= pb.left then pb.left - PlayerSize
      else if x < prevX && box.left < pb.right && cur.left >= pb.right then pb.right
      else x
    else x
  }

  /** The horizontal pass over the platforms, in order. */
  function HorizontalPass(box: Box, cur: Box, ps: seq<Platform>, x: real, prevX: real): (r: real)
    ensures r == x || exists k :: 0 <= k < |ps| && (r == GetBounds(ps[k]).left - PlayerSize || r == GetBounds(ps[k]).right)
  {
    if ps == [] then x
    else
      var init := ps[..|ps| - 1];
      assert forall k :: 0 <= k < |init| ==> init[k] == ps[k];
      HorizontalStep(box, cur, ps[|ps| - 1], HorizontalPass(box, cur, init, x, prevX), prevX)
  }

  /** When both boxes share their horizontal edges, as they do in the game
      (both are taken after the input step moved the player), each snap needs
      an edge to be both past and not past the platform's side: the pass never
      changes x. */
  lemma {:induction false} HorizontalPassKeepsX(box: Box, cur: Box, ps: seq<Platform>, x: real, prevX: real)
    requires box.left == cur.left && box.right == cur.right
    ensures HorizontalPass(box, cur, ps, x, prevX) == x
  {
    if ps != [] {
      HorizontalPassKeepsX(box, cur, ps[..|ps| - 1], x, prevX);
    }
  }

  // ---------------------------------------------------------------------------
  // Stage 5: keeping the player inside the container

  /** Floor first, then the top edge. The floor zeroes only a downward velocity
      and does not touch the double-jump counter. */
  function ClampY(v: Vertical, containerH: int): (r: Vertical)
    ensures containerH as real >= PlayerSize ==> 0.0 <= r.y <= containerH as real - PlayerSize
    // at or below the floor: onto the floor, and only a downward velocity is stopped
    ensures containerH as real >= PlayerSize && v.y >= containerH as real - PlayerSize ==>
      r.y == containerH as real - PlayerSize && r.onGround && r.hitCeiling == v.hitCeiling &&
      r.velocityY == (if v.velocityY > 0.0 then 0.0 else v.velocityY)
    // above the top edge: onto it, only an upward velocity is stopped, and the ceiling is hit
    ensures v.y < 0.0 && v.y < containerH as real - PlayerSize ==>
      r.y == 0.0 && r.hitCeiling && r.onGround == v.onGround &&
      r.velocityY == (if v.velocityY < 0.0 then 0.0 else v.velocityY)
    ensures 0.0 <= v.y < containerH as real - PlayerSize ==> r == v
    ensures r.onGround <==> v.onGround || v.y >= containerH as real - PlayerSize
    ensures v.y >= containerH as real - PlayerSize ==> r.velocityY <= 0.0
    ensures r.doubleJump == v.doubleJump
  {
    var floor := containerH as real - PlayerSize;
    var v1 := if v.y >= floor
      then v.(y := floor, velocityY := if v.velocityY > 0.0 then 0.0 else v.velocityY, onGround := true)
      else v;
    if v1.y < 0.0
      then v1.(y := 0.0, velocityY := if v1.velocityY < 0.0 then 0.0 else v1.velocityY, hitCeiling := true)
      else v1
  }

  /** Left edge first, then the right edge; no velocity changes. */
  function ClampX(x: real, containerW: int): (r: real)
    ensures containerW as real >= PlayerSize ==> 0.0 <= r <= containerW as real - PlayerSize
    ensures containerW as real >= PlayerSize && x < 0.0 ==> r == 0.0
    ensures x > containerW as real - PlayerSize ==> r == containerW as real - PlayerSize
    ensures 0.0 <= x <= containerW as real - PlayerSize ==> r == x
    ensures r == x || r == 0.0 || r == containerW as real - PlayerSize
  {
    var x1 := if x < 0.0 then 0.0 else x;
    if x1 > containerW as real - PlayerSize then containerW as real - PlayerSize else x1
  }

  // ---------------------------------------------------------------------------
  // Stage 6: jumping

  datatype JumpResult = JumpResult(velocityY: real, doubleJump: int, jumpPressed: bool)

  /** A latched request is honoured on the ground or while the counter is below 2. */
  predicate JumpFires(jumpPressed: bool, onGround: bool, doubleJump: int) {
    jumpPressed && (onGround || doubleJump < 2)
  }

  function JumpRule(jumpPressed: bool, onGround: bool, doubleJump: int, velocityY: real): (r: JumpResult)
    // the latch is cleared exactly when the jump fires; a refused request stays latched
    ensures r.jumpPressed <==> jumpPressed && !JumpFires(jumpPressed, onGround, doubleJump)
    ensures JumpFires(jumpPressed, onGround, doubleJump) ==> r.velocityY == JumpStrength
    ensures !JumpFires(jumpPressed, onGround, doubleJump) ==> r.velocityY == velocityY && r.doubleJump == doubleJump
    // a ground jump uses the first jump; an air jump after it uses the second
    ensures JumpFires(jumpPressed, onGround, doubleJump) && onGround ==> r.doubleJump == 1
    ensures JumpFires(jumpPressed, onGround, doubleJump) && !onGround ==>
      r.doubleJump == if doubleJump == 1 then 2 else doubleJump
  {
    if jumpPressed && (onGround || doubleJump < 2) then
      JumpResult(JumpStrength, if onGround then 1 else if doubleJump == 1 then 2 else doubleJump, false)
    else
      JumpResult(velocityY, doubleJump, jumpPressed)
  }

  /** How many jumps fire in n successive airborne frames that each see a
      jump request, starting from the given counter. */
  function AirborneJumps(doubleJump: int, n: nat): nat
    decreases n
  {
    if n == 0 then 0
    else
      var r := JumpRule(true, false, doubleJump, 0.0);
      (if JumpFires(true, false, doubleJump) then 1 else 0) + AirborneJumps(r.doubleJump, n - 1)
  }

  /** After a ground jump (counter 1) at most one more jump fires before the
      player is grounded again; after the air jump (counter 2) none does. */
  lemma {:induction false} AirborneJumpsAfterGroundJump(doubleJump: int, n: nat)
    requires doubleJump >= 1
    ensures AirborneJumps(doubleJump, n) <= 1
    ensures doubleJump >= 2 ==> AirborneJumps(doubleJump, n) == 0
    decreases n
  {
    if n > 0 {
      var r := JumpRule(true, false, doubleJump, 0.0);
      AirborneJumpsAfterGroundJump(r.doubleJump, n - 1);
    }
  }

  /** With the counter at 0 in the air (after walking off a platform, whose
      landing reset it) every request fires and the counter stays 0: air jumps
      are unbounded. */
  lemma {:induction false} AirborneJumpsFromZero(n: nat)
    ensures AirborneJumps(0, n) == n
  {
    if n > 0 {
      AirborneJumpsFromZero(n - 1);
    }
  }

  // ---------------------------------------------------------------------------
  // Stage 7: animation state

  function AnimationState(onGround: bool, moving: bool, velocityY: real): (a: Animation)
    ensures a == Run <==> onGround && moving
    ensures a == Idle1 <==> onGround && !moving
    ensures a == Jump <==> !onGround && velocityY < 0.0
    ensures a == Fall <==> !onGround && velocityY >= 0.0
  {
    if onGround then (if moving then Run else Idle1)
    else if velocityY < 0.0 then Jump else Fall
  }

  // ---------------------------------------------------------------------------
  // The whole frame

  /** x after the input step. */
  function MovedX(s: Player, left: bool, right: bool): real {
    HorizontalInput(s.x, s.facingRight, left, right).x
  }

  /** The player's box after the input step, before the vertical move. */
  function CurrentBox(s: Player, left: bool, right: bool): Box {
    PlayerBounds(MovedX(s, left, right), s.y)
  }

  /** The box the vertical pass tests every platform against. */
  function ProjectedBox(s: Player, left: bool, right: bool): Box {
    PlayerBounds(MovedX(s, left, right), s.y + s.velocityY + Gravity)
  }

  /** The first half of updateGame: input, gravity, the vertical pass and the
      horizontal pass. Position, velocity, grounding, the counter and the facing
      change; the latch, the previous position and the animation labels do not. */
  function Move(s: Player, left: bool, right: bool, platforms: seq<Platform>): (r: Player)
    ensures r.prevX == s.prevX && r.prevY == s.prevY && r.jumpPressed == s.jumpPressed
    ensures r.state == s.state && r.previousState == s.previousState
    ensures r.facingRight <==> right || (s.facingRight && !left)
    ensures r.velocityY == s.velocityY + Gravity || r.velocityY == 0.0
    ensures r.doubleJump == s.doubleJump || (r.doubleJump == 0 && r.onGround)
  {
    var h := HorizontalInput(s.x, s.facingRight, left, right);
    var vy := s.velocityY + Gravity;
    var cur := PlayerBounds(h.x, s.y);
    var v := VerticalPass(PlayerBounds(h.x, s.y + vy), cur, platforms,
                          Vertical(s.y + vy, vy, false, false, s.doubleJump));
    var x1 := HorizontalPass(PlayerBounds(h.x, v.y), cur, platforms, h.x, s.prevX);
    s.(x := x1, y := v.y, velocityY := v.velocityY, onGround := v.onGround,
       doubleJump := v.doubleJump, facingRight := h.facingRight)
  }

  /** The second half of updateGame: container clamp, jump, animation state
      and previous position. moving says whether an arrow key moved the player. */
  function Settle(s: Player, moving: bool, containerW: int, containerH: int): (r: Player)
    ensures containerW as real >= PlayerSize ==> 0.0 <= r.x <= containerW as real - PlayerSize
    ensures containerH as real >= PlayerSize ==> 0.0 <= r.y <= containerH as real - PlayerSize
    ensures r.prevX == r.x && r.prevY == r.y
    ensures r.facingRight == s.facingRight && r.previousState == s.state
    ensures r.state == AnimationState(r.onGround, moving, r.velocityY)
  {
    var c := ClampY(Vertical(s.y, s.velocityY, s.onGround, false, s.doubleJump), containerH);
    var x := ClampX(s.x, containerW);
    var j := JumpRule(s.jumpPressed, c.onGround, c.doubleJump, c.velocityY);
    Player(x, c.y, x, c.y, j.velocityY, c.onGround, j.doubleJump, j.jumpPressed,
           s.facingRight, AnimationState(c.onGround, moving, j.velocityY), s.state)
  }

  /** One frame of updateGame: input, gravity, vertical pass, horizontal pass,
      container clamp, jump, animation state, previous position. */
  function FrameStep(s: Player, left: bool, right: bool, platforms: seq<Platform>,
                     containerW: int, containerH: int): (r: Player)
    ensures r.prevX == r.x && r.prevY == r.y && r.previousState == s.state
    ensures r.facingRight <==> right || (s.facingRight && !left)
  {
    Settle(Move(s, left, right, platforms), left || right, containerW, containerH)
  }

  /** The final x is the old x moved by the held arrows and clamped to the
      container: platforms never stop horizontal motion. */
  lemma FrameStepX(s: Player, left: bool, right: bool, platforms: seq<Platform>, containerW: int, containerH: int)
    ensures var r := FrameStep(s, left, right, platforms, containerW, containerH);
      r.x == ClampX(s.x + (if right then Speed else 0.0) - (if left then Speed else 0.0), containerW) &&
      r.prevX == r.x &&
      (containerW as real >= PlayerSize ==> 0.0 <= r.x <= containerW as real - PlayerSize)
  {
    var h := HorizontalInput(s.x, s.facingRight, left, right);
    var vy := s.velocityY + Gravity;
    var v := VerticalPass(PlayerBounds(h.x, s.y + vy), PlayerBounds(h.x, s.y), platforms,
                          Vertical(s.y + vy, vy, false, false, s.doubleJump));
    HorizontalPassKeepsX(PlayerBounds(h.x, v.y), PlayerBounds(h.x, s.y), platforms, h.x, s.prevX);
  }

  /** The final y lies inside the container, and the previous position is the
      final one. */
  lemma FrameStepY(s: Player, left: bool, right: bool, platforms: seq<Platform>, containerW: int, containerH: int)
    ensures var r := FrameStep(s, left, right, platforms, containerW, containerH);
      r.prevY == r.y &&
      (containerH as real >= PlayerSize ==> 0.0 <= r.y <= containerH as real - PlayerSize)
  {
  }

  /** Landing: a falling player whose projected box meets platforms it was
      above ends the frame on the LAST of them, grounded, touching it without
      overlap, with the counter reset (or set to 1 by a latched jump that fires
      at once), and shown running or idle. */
  lemma FrameStepLanding(s: Player, left: bool, right: bool, platforms: seq<Platform>, containerW: int, containerH: int)
    requires s.velocityY + Gravity >= 0.0
    requires LastLanding(ProjectedBox(s, left, right), CurrentBox(s, left, right), platforms) >= 0
    requires var top := GetBounds(platforms[LastLanding(ProjectedBox(s, left, right), CurrentBox(s, left, right), platforms)]).top;
      0.0 <= top - PlayerSize < containerH as real - PlayerSize
    ensures var j := LastLanding(ProjectedBox(s, left, right), CurrentBox(s, left, right), platforms);
      var r := FrameStep(s, left, right, platforms, containerW, containerH);
      r.y == GetBounds(platforms[j]).top - PlayerSize &&
      r.onGround &&
      !Colliding(PlayerBounds(r.x, r.y), GetBounds(platforms[j])) &&
      r.doubleJump == (if s.jumpPressed then 1 else 0) &&
      !r.jumpPressed &&
      r.velocityY == (if s.jumpPressed then JumpStrength else 0.0) &&
      r.state == (if left || right then Run else Idle1)
  {
    MoveLands(s, left, right, platforms);
    var j := LastLanding(ProjectedBox(s, left, right), CurrentBox(s, left, right), platforms);
    var r := FrameStep(s, left, right, platforms, containerW, containerH);
    LandedPlayerTouches(r.x, platforms[j]);
  }

  /** The first half of a landing frame: the player rests on the last platform
      it can land on, stopped, grounded, with the counter reset. */
  lemma MoveLands(s: Player, left: bool, right: bool, platforms: seq<Platform>)
    requires s.velocityY + Gravity >= 0.0
    requires LastLanding(ProjectedBox(s, left, right), CurrentBox(s, left, right), platforms) >= 0
    ensures var j := LastLanding(ProjectedBox(s, left, right), CurrentBox(s, left, right), platforms);
      var m := Move(s, left, right, platforms);
      m.y == GetBounds(platforms[j]).top - PlayerSize && m.onGround && m.velocityY == 0.0 &&
      m.doubleJump == 0 && m.jumpPressed == s.jumpPressed
  {
    var vy := s.velocityY + Gravity;
    VerticalPassFalling(ProjectedBox(s, left, right), CurrentBox(s, left, right), platforms,
                        Vertical(s.y + vy, vy, false, false, s.doubleJump));
  }

  /** The jump stage as seen from outside the frame. */
  lemma FrameStepJump(s: Player, left: bool, right: bool, platforms: seq<Platform>, containerW: int, containerH: int)
    ensures var r := FrameStep(s, left, right, platforms, containerW, containerH);
      (s.jumpPressed && r.onGround ==> !r.jumpPressed && r.velocityY == JumpStrength && r.doubleJump == 1) &&
      (s.jumpPressed && !r.jumpPressed ==> r.velocityY == JumpStrength) &&
      (!s.jumpPressed ==> !r.jumpPressed) &&
      (r.jumpPressed ==> !r.onGround && r.doubleJump >= 2) &&
      (0 <= s.doubleJump <= 2 ==> 0 <= r.doubleJump <= 2)
  {
  }

  /** A frame that ends in the air changes the counter only through the jump
      rule applied in the air, and consumes a request exactly when that rule
      fires: one such frame is one step of AirborneJumps. */
  lemma FrameStepAirborneJump(s: Player, left: bool, right: bool, platforms: seq<Platform>,
                              containerW: int, containerH: int, n: nat)
    ensures var r := FrameStep(s, left, right, platforms, containerW, containerH);
      !r.onGround ==>
        r.doubleJump == JumpRule(s.jumpPressed, false, s.doubleJump, 0.0).doubleJump &&
        (s.jumpPressed && !r.jumpPressed <==> JumpFires(s.jumpPressed, false, s.doubleJump)) &&
        (s.jumpPressed && n > 0 ==>
          AirborneJumps(s.doubleJump, n) == (if r.jumpPressed then 0 else 1) + AirborneJumps(r.doubleJump, n - 1))
  {
  }

  /** A run of frames, each preceded by a jump request (the keydown handler
      latches jumpPressed), in which the player never lands; keys holds the
      arrow keys of each frame. */
  ghost predicate AirborneRun(frames: seq<Player>, keys: seq<(bool, bool)>, platforms: seq<Platform>,
                              containerW: int, containerH: int)
  {
    |frames| == |keys| + 1 &&
    forall i :: 0 <= i < |keys| ==> AirborneFrame(frames, keys, i, platforms, containerW, containerH)
  }

  /** Frame i + 1 of a run follows frame i with a fresh request and ends in the air. */
  ghost predicate AirborneFrame(frames: seq<Player>, keys: seq<(bool, bool)>, i: nat, platforms: seq<Platform>,
                                containerW: int, containerH: int)
    requires i < |keys| && |frames| == |keys| + 1
  {
    !frames[i + 1].onGround &&
    frames[i + 1] == FrameStep(frames[i].(jumpPressed := true), keys[i].0, keys[i].1,
                               platforms, containerW, containerH)
  }

  /** The number of frames of a run whose request fired, seen as a cleared latch. */
  function JumpsFired(frames: seq<Player>): nat
    decreases |frames|
  {
    if |frames| <= 1 then 0
    else (if frames[1].jumpPressed then 0 else 1) + JumpsFired(frames[1..])
  }

  /** Over whole frames, the jumps of an airborne run are counted by
      AirborneJumps: at most one after a ground jump, none after the air jump,
      and one per frame when the run starts with the counter at 0. */
  lemma {:induction false} AirborneRunJumps(frames: seq<Player>, keys: seq<(bool, bool)>,
                                            platforms: seq<Platform>, containerW: int, containerH: int)
    requires AirborneRun(frames, keys, platforms, containerW, containerH)
    ensures JumpsFired(frames) == AirborneJumps(frames[0].doubleJump, |keys|)
    ensures frames[0].doubleJump >= 1 ==> JumpsFired(frames) <= 1
    ensures frames[0].doubleJump >= 2 ==> JumpsFired(frames) == 0
    ensures frames[0].doubleJump == 0 ==> JumpsFired(frames) == |keys|
    decreases |keys|
  {
    if |keys| > 0 {
      assert AirborneFrame(frames, keys, 0, platforms, containerW, containerH);
      FrameStepAirborneJump(frames[0].(jumpPressed := true), keys[0].0, keys[0].1,
                            platforms, containerW, containerH, |keys|);
      assert AirborneRun(frames[1..], keys[1..], platforms, containerW, containerH) by {
        forall i | 0 <= i < |keys| - 1
          ensures AirborneFrame(frames[1..], keys[1..], i, platforms, containerW, containerH)
        {
          assert AirborneFrame(frames, keys, i + 1, platforms, containerW, containerH);
        }
      }
      AirborneRunJumps(frames[1..], keys[1..], platforms, containerW, containerH);
    }
    if frames[0].doubleJump >= 1 {
      AirborneJumpsAfterGroundJump(frames[0].doubleJump, |keys|);
    }
    if frames[0].doubleJump == 0 {
      AirborneJumpsFromZero(|keys|);
    }
  }

  /** The animation state is chosen after the jump: a jump from the ground
      still shows run or idle on that frame. */
  lemma FrameStepAnimation(s: Player, left: bool, right: bool, platforms: seq<Platform>, containerW: int, containerH: int)
    ensures var r := FrameStep(s, left, right, platforms, containerW, containerH);
      r.state == AnimationState(r.onGround, left || right, r.velocityY) &&
      r.previousState == s.state &&
      (s.jumpPressed && r.onGround ==> r.state == (if left || right then Run else Idle1) && r.velocityY < 0.0) &&
      r.facingRight == (right || (s.facingRight && !left))
  {
  }

  /** A player in the air beside a platform's left side, holding ArrowRight,
      moves into the platform: the frame leaves the two boxes overlapping. */
  lemma FrameStepCanEnterPlatformSide()
    ensures var s := Player(66.0, 110.0, 66.0, 110.0, 0.0, false, 1, false, true, Fall, Fall);
      var platforms := [Platform(100, 100, 50, 50)];
      var r := FrameStep(s, false, true, platforms, 800, 600);
      !Colliding(PlayerBounds(s.x, s.y), GetBounds(platforms[0])) &&
      r.x == 70.0 && r.y == 110.5 &&
      Colliding(PlayerBounds(r.x, r.y), GetBounds(platforms[0]))
  {
    var s := Player(66.0, 110.0, 66.0, 110.0, 0.0, false, 1, false, true, Fall, Fall);
    var platforms := [Platform(100, 100, 50, 50)];
    assert platforms[..0] == [];
    var box, cur := ProjectedBox(s, false, true), CurrentBox(s, false, true);
    assert box == PlayerBounds(70.0, 110.5) && cur == PlayerBounds(70.0, 110.0);
    var v0 := Vertical(110.5, 0.5, false, false, 1);
    assert VerticalPass(box, cur, platforms, v0) == v0;
    FrameStepX(s, false, true, platforms, 800, 600);
    var r := FrameStep(s, false, true, platforms, 800, 600);
    assert r.x == 70.0;
    assert r.y == 110.5;
  }

  /** Reaching the floor of the container grounds the player but, unlike a
      platform landing, leaves the double-jump counter as it was. */
  lemma FrameStepFloorKeepsCounter(s: Player, left: bool, right: bool, platforms: seq<Platform>,
                                   containerW: int, containerH: int)
    requires containerH as real >= PlayerSize
    requires Move(s, left, right, platforms).y >= containerH as real - PlayerSize
    requires !s.jumpPressed
    ensures var m := Move(s, left, right, platforms);
      var r := FrameStep(s, left, right, platforms, containerW, containerH);
      r.y == containerH as real - PlayerSize && r.onGround && r.doubleJump == m.doubleJump &&
      r.velocityY == (if m.velocityY > 0.0 then 0.0 else m.velocityY)
  {
  }

  /** A jump still latched when the player reaches the floor fires there: the
      counter becomes 1 and velocityY −11, whatever it was before. */
  lemma FrameStepFloorJumps(s: Player, left: bool, right: bool, platforms: seq<Platform>,
                            containerW: int, containerH: int)
    requires containerH as real >= PlayerSize
    requires Move(s, left, right, platforms).y >= containerH as real - PlayerSize
    requires s.jumpPressed
    ensures var r := FrameStep(s, left, right, platforms, containerW, containerH);
      r.y == containerH as real - PlayerSize && r.onGround && !r.jumpPressed &&
      r.doubleJump == 1 && r.velocityY == JumpStrength
  {
  }
}
