// The game's module-level state as one object: the frame update, the pause
// gate of the game loop, pause and restart, the key handlers and the
// scoreboard. Every method is tied to the pure definitions of the other
// modules, where the properties are proved.

module Platformer {
  import opened Geometry
  import opened Physics
  import opened Controls
  import opened Clock

  /** Where a new game puts the player: x, and the gap above the floor. */
  const SpawnX: real := 50.0
  const SpawnLift: real := 5.0

  class Game {
    // the play area and the platforms, fixed for the session
    const containerW: int
    const containerH: int
    const platforms: seq<Platform>

    // session
    var gameRunning: bool
    var paused: bool
    var score: int
    var lives: int
    var startTime: int

    // player physics
    var playerX: real
    var playerY: real
    var prevX: real
    var prevY: real
    var velocityY: real
    var doubleJump: int
    var jumpPressed: bool
    var canJump: bool

    // player state
    var keysPressed: map<string, bool>
    var currentPlayerState: Animation
    var previousPlayerState: Animation
    var facingRight: bool
    var onGround: bool

    /** The double-jump counter only ever holds 0, 1 or 2. */
    ghost predicate Valid()
      reads this
    {
      0 <= doubleJump <= 2
    }

    /** The fields one frame updates, as a value. */
    function Snapshot(): Player
      reads this
    {
      Player(playerX, playerY, prevX, prevY, velocityY, onGround, doubleJump, jumpPressed,
             facingRight, currentPlayerState, previousPlayerState)
    }

    /** A key counts as held when its last event was a keydown; a key never
        seen is not held. */
    predicate Held(key: string)
      reads this
    {
      key in keysPressed && keysPressed[key]
    }

    /** The state when the script is loaded; now is the clock reading then. */
    constructor (width: int, height: int, platforms: seq<Platform>, now: int)
      ensures Valid()
      ensures containerW == width && containerH == height && this.platforms == platforms
      ensures Snapshot() == Player(SpawnX, height as real - PlayerSize - SpawnLift,
                                   SpawnX, height as real - PlayerSize - SpawnLift, 0.0,
                                   false, 0, false, true, Idle1, Idle1)
      ensures gameRunning && !paused && score == 0 && lives == 3 && startTime == now
      ensures canJump && keysPressed == map[]
    {
      containerW, containerH, this.platforms := width, height, platforms;
      gameRunning, paused, score, lives, startTime := true, false, 0, 3, now;
      playerX := SpawnX;
      playerY := height as real - PlayerSize - SpawnLift;
      prevX, prevY := playerX, playerY;
      velocityY := 0.0;
      doubleJump := 0;
      jumpPressed, canJump := false, true;
      keysPressed := map[];
      currentPlayerState, previousPlayerState := Idle1, Idle1;
      facingRight, onGround := true, false;
    }

    /** One frame of physics, collision, clamping, jumping and animation state. */
    method UpdateGame()
      requires Valid()
      modifies this`playerX, this`playerY, this`prevX, this`prevY, this`velocityY,
               this`doubleJump, this`jumpPressed, this`currentPlayerState,
               this`previousPlayerState, this`facingRight, this`onGround
      ensures Valid()
      ensures Snapshot() == FrameStep(old(Snapshot()), Held("ArrowLeft"), Held("ArrowRight"),
                                      platforms, containerW, containerH)
    {
      var left, right := Held("ArrowLeft"), Held("ArrowRight");
      var isMovingHorizontally, hitCeiling := MoveAndCollide(left, right);
      SettleFrame(isMovingHorizontally, hitCeiling);
    }

    /** The first half of updateGame: input, gravity and both platform passes. */
    method MoveAndCollide(left: bool, right: bool) returns (isMovingHorizontally: bool, hitCeiling: bool)
      modifies this`playerX, this`playerY, this`velocityY, this`doubleJump, this`facingRight, this`onGround
      ensures Snapshot() == Move(old(Snapshot()), left, right, platforms)
      ensures isMovingHorizontally <==> left || right
    {
      ghost var s := Snapshot();
      isMovingHorizontally := ApplyHorizontalInput(left, right);

      velocityY := velocityY + Gravity;
      var projectedY := playerY + velocityY;

      onGround := false;
      var currentPlayerBounds := PlayerBounds(playerX, playerY);
      var projectedPlayerBoundsY := PlayerBounds(playerX, projectedY);
      projectedY, hitCeiling := CheckVerticalCollisions(projectedPlayerBoundsY, currentPlayerBounds, projectedY);
      playerY := projectedY;

      var projectedPlayerBoundsX := PlayerBounds(playerX, playerY);
      CheckHorizontalCollisions(projectedPlayerBoundsX, currentPlayerBounds);
      assert Snapshot() == s.(x := playerX, y := playerY, velocityY := velocityY, onGround := onGround,
                              doubleJump := doubleJump, facingRight := facingRight);
    }

    /** The second half of updateGame: container bounds, jump, animation state
        and the previous position. */
    method SettleFrame(isMovingHorizontally: bool, hitCeiling: bool)
      requires Valid()
      modifies this`playerX, this`playerY, this`prevX, this`prevY, this`velocityY,
               this`doubleJump, this`jumpPressed, this`currentPlayerState,
               this`previousPlayerState, this`onGround
      ensures Valid()
      ensures Snapshot() == Settle(old(Snapshot()), isMovingHorizontally, containerW, containerH)
    {
      var hitCeilingAfter := CheckContainerBounds(hitCeiling);
      ApplyJump();
      UpdateAnimationState(isMovingHorizontally);
      prevX := playerX;
      prevY := playerY;
    }

    /** Arrow keys move the player by Speed and turn it: ArrowLeft first, then
        ArrowRight. */
    method ApplyHorizontalInput(left: bool, right: bool) returns (isMovingHorizontally: bool)
      modifies this`playerX, this`facingRight
      ensures Horizontal(playerX, facingRight, isMovingHorizontally) ==
              HorizontalInput(old(playerX), old(facingRight), left, right)
    {
      isMovingHorizontally := false;
      if left {
        playerX := playerX - Speed;
        facingRight := false;
        isMovingHorizontally := true;
      }
      if right {
        playerX := playerX + Speed;
        facingRight := true;
        isMovingHorizontally := true;
      }
    }

    /** The container boundary checks of updateGame: floor, top, left, right. */
    method CheckContainerBounds(hitCeiling0: bool) returns (hitCeiling: bool)
      modifies this`playerX, this`playerY, this`velocityY, this`onGround
      ensures Vertical(playerY, velocityY, onGround, hitCeiling, doubleJump) ==
              ClampY(Vertical(old(playerY), old(velocityY), old(onGround), hitCeiling0, doubleJump), containerH)
      ensures playerX == ClampX(old(playerX), containerW)
    {
      hitCeiling := hitCeiling0;
      if playerY >= containerH as real - PlayerSize {
        playerY := containerH as real - PlayerSize;
        if velocityY > 0.0 {
          velocityY := 0.0;
        }
        onGround := true;
      }
      if playerY < 0.0 {
        playerY := 0.0;
        if velocityY < 0.0 {
          velocityY := 0.0;
        }
        hitCeiling := true;
      }
      if playerX < 0.0 {
        playerX := 0.0;
      }
      if playerX > containerW as real - PlayerSize {
        playerX := containerW as real - PlayerSize;
      }
    }

    /** The jump input of updateGame: a latched request is performed on the
        ground or while a jump is left, and only then unlatched. */
    method ApplyJump()
      modifies this`velocityY, this`doubleJump, this`jumpPressed
      ensures JumpResult(velocityY, doubleJump, jumpPressed) ==
              JumpRule(old(jumpPressed), onGround, old(doubleJump), old(velocityY))
    {
      if jumpPressed && (onGround || doubleJump < 2) {
        velocityY := JumpStrength;
        if onGround {
          doubleJump := 1;
        } else if doubleJump == 1 {
          doubleJump := 2;
        }
        jumpPressed := false;
      }
    }

    /** The animation state of updateGame, chosen after the jump. */
    method UpdateAnimationState(isMovingHorizontally: bool)
      modifies this`currentPlayerState, this`previousPlayerState
      ensures previousPlayerState == old(currentPlayerState)
      ensures currentPlayerState == AnimationState(onGround, isMovingHorizontally, velocityY)
    {
      previousPlayerState := currentPlayerState;
      if onGround {
        if isMovingHorizontally {
          currentPlayerState := Run;
        } else {
          currentPlayerState := Idle1;
        }
      } else {
        if velocityY < 0.0 {
          currentPlayerState := Jump;
        } else {
          currentPlayerState := Fall;
        }
      }
    }

    /** The first forEach of updateGame: each platform that the fixed projected
        box overlaps may stop a rise or a fall, in platform order. */
    method CheckVerticalCollisions(projectedPlayerBoundsY: Box, currentPlayerBounds: Box, projectedY0: real)
      returns (projectedY: real, hitCeiling: bool)
      modifies this`velocityY, this`onGround, this`doubleJump
      ensures Vertical(projectedY, velocityY, onGround, hitCeiling, doubleJump) ==
              VerticalPass(projectedPlayerBoundsY, currentPlayerBounds, platforms,
                           Vertical(projectedY0, old(velocityY), old(onGround), false, old(doubleJump)))
      ensures doubleJump == old(doubleJump) || doubleJump == 0
    {
      projectedY, hitCeiling := projectedY0, false;
      ghost var v0 := Vertical(projectedY0, velocityY, onGround, false, doubleJump);
      var i := 0;
      while i < |platforms|
        invariant 0 <= i <= |platforms|
        invariant Vertical(projectedY, velocityY, onGround, hitCeiling, doubleJump) ==
                  VerticalPass(projectedPlayerBoundsY, currentPlayerBounds, platforms[..i], v0)
      {
        var platformBounds := GetBounds(platforms[i]);
        if Colliding(projectedPlayerBoundsY, platformBounds) {
          if velocityY < 0.0 && currentPlayerBounds.top >= platformBounds.bottom {
            projectedY := platformBounds.bottom;
            velocityY := 0.0;
            hitCeiling := true;
          } else if velocityY >= 0.0 && currentPlayerBounds.bottom <= platformBounds.top {
            projectedY := platformBounds.top - PlayerSize;
            velocityY := 0.0;
            onGround := true;
            doubleJump := 0;
          }
        }
        assert platforms[..i + 1][..i] == platforms[..i];
        i := i + 1;
      }
      assert platforms[..i] == platforms;
    }

    /** The second forEach of updateGame: a platform beside the player may push
        it back to the side it came from. */
    method CheckHorizontalCollisions(projectedPlayerBoundsX: Box, currentPlayerBounds: Box)
      modifies this`playerX
      ensures playerX == HorizontalPass(projectedPlayerBoundsX, currentPlayerBounds, platforms, old(playerX), prevX)
    {
      var i := 0;
      while i < |platforms|
        invariant 0 <= i <= |platforms|
        invariant playerX == HorizontalPass(projectedPlayerBoundsX, currentPlayerBounds, platforms[..i], old(playerX), prevX)
      {
        var platformBounds := GetBounds(platforms[i]);
        if Colliding(projectedPlayerBoundsX, platformBounds) {
          if projectedPlayerBoundsX.bottom > platformBounds.top && projectedPlayerBoundsX.top < platformBounds.bottom {
            if playerX > prevX && projectedPlayerBoundsX.right > platformBounds.left
               && currentPlayerBounds.right <= platformBounds.left {
              playerX := platformBounds.left - PlayerSize;
            } else if playerX < prevX && projectedPlayerBoundsX.left < platformBounds.right
                      && currentPlayerBounds.left >= platformBounds.right {
              playerX := platformBounds.right;
            }
          }
        }
        assert platforms[..i + 1][..i] == platforms[..i];
        i := i + 1;
      }
      assert platforms[..i] == platforms;
    }

    /** The body of gameLoop apart from timing: physics only while running and
        not paused, the scoreboard on every tick. now is the clock reading. */
    method Tick(now: int) returns (d: Display)
      requires Valid()
      modifies this`playerX, this`playerY, this`prevX, this`prevY, this`velocityY,
               this`doubleJump, this`jumpPressed, this`currentPlayerState,
               this`previousPlayerState, this`facingRight, this`onGround
      ensures Valid()
      ensures old(paused) || !gameRunning ==> Snapshot() == old(Snapshot())
      ensures !old(paused) && gameRunning ==>
        Snapshot() == FrameStep(old(Snapshot()), Held("ArrowLeft"), Held("ArrowRight"),
                                platforms, containerW, containerH)
      ensures d == Scoreboard(now - startTime, score, lives)
    {
      if !paused && gameRunning {
        UpdateGame();
      }
      d := UpdateScoreboard(now);
    }

    /** The scoreboard's contents at clock reading now. */
    method UpdateScoreboard(now: int) returns (d: Display)
      ensures d.score == score && d.lives == lives
      ensures now >= startTime ==>
        d.minutes * 60 + d.seconds == (now - startTime) / 1000 && 0 <= d.seconds < 60
      ensures d == Scoreboard(now - startTime, score, lives)
    {
      d := Scoreboard(now - startTime, score, lives);
      if now >= startTime {
        ScoreboardSplitsSeconds(now - startTime, score, lives);
      }
    }

    /** Pausing flips the flag and nothing else, so two toggles undo each other. */
    method TogglePause()
      modifies this`paused
      ensures paused == !old(paused)
    {
      paused := !paused;
    }

    /** Back to the spawn point with a fresh session. The double-jump counter,
        the jump latch, the previous position and the grounded flag are kept. */
    method RestartGame(now: int)
      modifies this`playerX, this`playerY, this`velocityY, this`score, this`lives,
               this`startTime, this`currentPlayerState, this`facingRight, this`paused
      ensures playerX == SpawnX && playerY == containerH as real - PlayerSize - SpawnLift
      ensures velocityY == 0.0 && currentPlayerState == Idle1 && facingRight
      ensures score == 0 && lives == 3 && startTime == now && !paused
    {
      playerX := SpawnX;
      playerY := containerH as real - PlayerSize - SpawnLift;
      velocityY := 0.0;
      score := 0;
      lives := 3;
      startTime := now;
      currentPlayerState := Idle1;
      facingRight := true;
      paused := false;
    }

    /** The keydown handler. */
    method KeyDown(key: string)
      modifies this`jumpPressed, this`canJump, this`paused, this`keysPressed
      ensures Latch(jumpPressed, canJump) == OnKeyDown(old(Latch(jumpPressed, canJump)), key)
      ensures paused == (if key == "Escape" then !old(paused) else old(paused))
      ensures keysPressed == old(keysPressed)[key := true]
      ensures Held(key) && forall k :: k != key ==> (Held(k) <==> old(Held(k)))
    {
      if key == "ArrowUp" && canJump {
        jumpPressed := true;
        canJump := false;
      }
      if key == "Escape" {
        TogglePause();
      }
      keysPressed := keysPressed[key := true];
    }

    /** The keyup handler. */
    method KeyUp(key: string)
      modifies this`canJump, this`keysPressed
      ensures Latch(jumpPressed, canJump) == OnKeyUp(old(Latch(jumpPressed, canJump)), key)
      ensures keysPressed == old(keysPressed)[key := false]
      ensures !Held(key) && forall k :: k != key ==> (Held(k) <==> old(Held(k)))
    {
      if key == "ArrowUp" {
        canJump := true;
      }
      keysPressed := keysPressed[key := false];
    }
  }
}
