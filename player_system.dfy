/** The platformer's player-control system: the components it updates and its
    per-entity Process step, which mutates them in place in the same order as
    the game does. Each method is proved to leave its objects as the rules in
    PlayerRules prescribe. */
module PlayerSystem {
  import opened Vectors
  import opened PlayerRules

  /** The player component. */
  class Player {
    var state: State
    var facing: Facing
    var canJump: bool
  }

  /** The physics body component; only its velocity is used here. */
  class Body {
    var velocity: Vector2
  }

  /** One playing animation. Its completion handler is modelled by the one
      handler the system ever attaches: return the player to Idle. */
  class Animation {
    const name: string
    var idleOnCompleted: bool

    constructor (name: string)
      ensures this.name == name && !idleOnCompleted
    {
      this.name := name;
      idleOnCompleted := false;
    }
  }

  /** The animated sprite component: the animation that is playing and the
      mirroring it is drawn with. */
  class AnimatedSprite {
    var current: Animation
    var effect: SpriteEffects

    constructor (name: string)
      ensures fresh(current) && current.name == name && !current.idleOnCompleted
      ensures effect == NoEffects
      ensures HandlerOnAttackClip(ClipOf())
    {
      current := new Animation(name);
      effect := NoEffects;
    }

    function ClipOf(): Clip
      reads this, current
    {
      Clip(current.name, current.idleOnCompleted)
    }

    /** Starts the named clip from its beginning, as a new animation with no
        handlers attached. */
    method SetAnimation(name: string) returns (a: Animation)
      modifies this`current
      ensures fresh(a) && current == a
      ensures a.name == name && !a.idleOnCompleted
    {
      a := new Animation(name);
      current := a;
    }
  }

  function PoseOf(player: Player, body: Body): Pose
    reads player, body
  {
    Pose(player.state, player.facing, body.velocity)
  }

  /** One tick of player control for one entity. The sprite's animation is
      replaced by a fresh one exactly when the final state's clip differs
      from the one playing. */
  method Process(player: Player, sprite: AnimatedSprite, body: Body, keys: KeyboardSnapshot)
    modifies player`state, player`facing, body, sprite
    ensures PoseOf(player, body) == NextPose(Tick(keys, player.canJump), old(PoseOf(player, body)))
    ensures sprite.ClipOf() == NextClip(old(sprite.ClipOf()), player.state)
    ensures sprite.effect == NextEffect(old(sprite.effect), player.state, player.facing)
    ensures Restarts(old(sprite.current.name), player.state) ==> fresh(sprite.current)
    ensures !Restarts(old(sprite.current.name), player.state) ==> sprite.current == old(sprite.current)
  {
    ghost var t := Tick(keys, player.canJump);
    ghost var p := PoseOf(player, body);

    ApplyJump(player, body, keys);
    ApplyArrowKeys(player, body, keys);
    assert body.velocity == Driven(t, p.velocity);

    if !IsAttacking(player.state) {
      DeriveFromVelocity(player, body.velocity);
    }

    if keys.downDown {
      player.state := Cool;
    }
    SelectAnimation(sprite, player.state, player.facing);

    body.velocity := body.velocity.(x := body.velocity.x * HorizontalDamping);
  }

  /** The jump keys of the tick, when the player can jump: Up and Z each
      push upwards by 550 plus 0.4 of the horizontal speed, and Z also starts
      a punch from Idle or a kick from any other state. */
  method ApplyJump(player: Player, body: Body, keys: KeyboardSnapshot)
    modifies player`state, body
    ensures player.state == AttackState(Tick(keys, player.canJump), old(player.state))
    ensures body.velocity.x == old(body.velocity.x)
    ensures body.velocity.y == old(body.velocity.y) - JumpPresses(Tick(keys, player.canJump)) as real * JumpStrength(body.velocity.x)
  {
    if player.canJump {
      if keys.upPressed {
        body.velocity := body.velocity.(y := body.velocity.y - (JumpImpulse + Abs(body.velocity.x) * JumpSpeedFactor));
      }
      if keys.zPressed {
        body.velocity := body.velocity.(y := body.velocity.y - (JumpImpulse + Abs(body.velocity.x) * JumpSpeedFactor));
        player.state := if player.state == Idle then Punching else Kicking;
      }
    }
  }

  /** The arrow keys of the tick: Right pushes by +150 and faces Right, then
      Left pushes by -150 and faces Left. */
  method ApplyArrowKeys(player: Player, body: Body, keys: KeyboardSnapshot)
    modifies player`facing, body
    ensures player.facing == NewFacing(keys, old(player.facing))
    ensures body.velocity == Vector2(old(body.velocity.x) + HorizontalPush(keys), old(body.velocity.y))
  {
    if keys.rightDown {
      body.velocity := body.velocity.(x := body.velocity.x + WalkAcceleration);
      player.facing := Right;
    }
    if keys.leftDown {
      body.velocity := body.velocity.(x := body.velocity.x - WalkAcceleration);
      player.facing := Left;
    }
  }

  /** The velocity rules of the tick, each overwriting the one before: any
      horizontal motion is Walking, upward motion Jumping, downward motion
      Falling, and near rest Idle. Together they give VelocityState. */
  method DeriveFromVelocity(player: Player, velocity: Vector2)
    modifies player`state
    ensures player.state == VelocityState(velocity)
  {
    if velocity.x > 0.0 || velocity.x < 0.0 {
      player.state := Walking;
    }
    if velocity.y < 0.0 {
      player.state := Jumping;
    }
    if velocity.y > 0.0 {
      player.state := Falling;
    }
    if NearZero(velocity) {
      player.state := Idle;
    }
  }

  /** The animation switch of the tick: plays the clip of the final state,
      starting it afresh only when a different clip is playing; Walking also
      sets the mirroring from the facing. The seven states are all handled,
      so the switch's fall-through error cannot occur. */
  method SelectAnimation(sprite: AnimatedSprite, state: State, facing: Facing)
    modifies sprite
    ensures sprite.ClipOf() == NextClip(old(sprite.ClipOf()), state)
    ensures sprite.effect == NextEffect(old(sprite.effect), state, facing)
    ensures Restarts(old(sprite.current.name), state) ==> fresh(sprite.current)
    ensures !Restarts(old(sprite.current.name), state) ==> sprite.current == old(sprite.current)
  {
    match state {
      case Jumping =>
        if sprite.current.name != "jump" {
          var _ := sprite.SetAnimation("jump");
        }
      case Walking =>
        if sprite.current.name != "walk" {
          var _ := sprite.SetAnimation("walk");
        }
        sprite.effect := if facing == Right then NoEffects else FlipHorizontally;
      case Falling =>
        if sprite.current.name != "fall" {
          var _ := sprite.SetAnimation("fall");
        }
      case Idle =>
        if sprite.current.name != "idle" {
          var _ := sprite.SetAnimation("idle");
        }
      case Kicking =>
        if sprite.current.name != "kick" {
          var a := sprite.SetAnimation("kick");
          a.idleOnCompleted := true;
        }
      case Punching =>
        if sprite.current.name != "punch" {
          var a := sprite.SetAnimation("punch");
          a.idleOnCompleted := true;
        }
      case Cool =>
        if sprite.current.name != "cool" {
          var _ := sprite.SetAnimation("cool");
        }
    }
  }

  /** The sprite reports that its current animation completed: the handler
      attached with a kick or punch clip returns the player to Idle. */
  method AnimationCompleted(player: Player, sprite: AnimatedSprite)
    modifies player`state
    ensures player.state == Completed(sprite.ClipOf(), old(player.state))
  {
    if sprite.current.idleOnCompleted {
      player.state := Idle;
    }
  }
}
