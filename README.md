# Platformer player control and bouncing-cube collision, in Dafny

This project models two small sequential pieces of the MonoGame.Extended
samples and proves what their rules promise.

**Player control.** Once per frame, the platformer's `PlayerSystem.Process` updates one player
entity. It applies jump impulses when the player can jump. The Z key also
starts a punch or a kick. Right and Left push the horizontal velocity and set
the facing. A non-attacking player then takes a state from its velocity, and
Down forces the Cool state. The system then picks the animation clip of the
final state, restarting it only when another clip is playing, and damps the
horizontal velocity. The components are classes with the fields the system
changes in place:
- `Player`: state and facing (its CanJump flag is only read).
- `Body`: velocity.
- `AnimatedSprite`: the playing animation and the mirroring effect.
- `Animation`: a clip name and whether the return-to-Idle completion handler is attached.

`Process` runs the same blocks in the same order as the game. The jump keys,
the arrow keys, the velocity rules and the animation switch are each a method
of their own, so that each is proved on its own. `Process` is proved to leave
the objects as the pure rules in module `PlayerRules` prescribe
(`NextPose`, `NextClip`, `NextEffect`). The lemmas there state the rules'
guarantees:
- Down overrides everything.
- The jump keys need CanJump.
- Attacks are not re-derived from velocity.
- The velocity rules apply in last-write-wins order.
- Each state has its own clip, and a clip is never restarted by a second tick in the same state.
- Damping neither reverses nor grows the horizontal velocity.

Some of them hold over any number of ticks (`Run`). The animation-completed
callback that the kick and punch clips register becomes the explicit event
`AnimationCompleted`.

**Bouncing cube.** `CubeEntity` is a class with a velocity and rectangular
bounds. `Update` moves the bounds by velocity × elapsed seconds × 50.
`OnCollision` negates the velocity and subtracts the penetration vector from
the position. The constructor draws each velocity component from {-1, 0, 1}
through `NextInt`, a nondeterministic model of `Random.Next(min, max)`.

Velocities and positions are `real`, not single-precision floats.

Points where the code's rules are easy to misread:
- The Z key does not alternate punches and kicks. It starts a punch from
  Idle and a kick from every other state, Punching included.
- The velocity rules are overwriting `if`s, so the last one that applies wins:
  near rest gives Idle, then downward motion gives Falling, then upward motion
  gives Jumping, then horizontal motion gives Walking. Their "state unchanged"
  case cannot happen, because zero velocity is near rest (`VelocityDerivation`).
- Damping shrinks the horizontal velocity strictly only when it is non-zero.

## Model

| member | source | states |
|---|---|---|
| PlayerSystem.Process | src/Games/Platformer/Systems/PlayerSystem.cs:36-134 | the player's state and facing and the body's velocity become `NextPose` of the keys, CanJump and the old values; the sprite's clip becomes `NextClip` and its effect `NextEffect`; the animation object is fresh exactly when the final state's clip differs from the playing one, and is the same object otherwise |
| PlayerSystem.ApplyJump | src/Games/Platformer/Systems/PlayerSystem.cs:44-54 | vy drops by one jump strength per pressed jump key (none without CanJump), vx is untouched, and the state becomes `AttackState` |
| PlayerSystem.ApplyArrowKeys | src/Games/Platformer/Systems/PlayerSystem.cs:56-66 | vx changes by the net push of the held arrow keys, vy is untouched, and the facing follows `NewFacing` |
| PlayerSystem.DeriveFromVelocity | src/Games/Platformer/Systems/PlayerSystem.cs:68-81 | the four overwriting velocity rules leave exactly the state `VelocityState` gives |
| PlayerSystem.SelectAnimation | src/Games/Platformer/Systems/PlayerSystem.cs:86-131 | every one of the seven states is handled (the throwing default is unreachable); the clip becomes the state's clip, restarted as a fresh animation only if another clip was playing, with the return-to-Idle handler attached exactly for kick and punch; only Walking sets the mirroring |
| PlayerSystem.AnimationCompleted | src/Games/Platformer/Systems/PlayerSystem.cs:107-123 | completion of an animation that carries the handler sets the player Idle; otherwise the state is kept |
| PlayerSystem.AnimatedSprite.constructor | src/Games/Platformer/Systems/PlayerSystem.cs:105-123 | a new sprite plays a fresh animation with no handler, so it starts out meeting the invariant `HandlerOnlyWhileAttacking` assumes (handlers sit only on kick and punch clips) |
| PlayerSystem.AnimatedSprite.SetAnimation | src/Games/Platformer/Systems/PlayerSystem.cs:89-90 | setting a clip installs a fresh animation of that name with no handler attached |
| PlayerRules.NextPose | src/Games/Platformer/Systems/PlayerSystem.cs:44-133 | the pose part of one tick (jump keys, arrow keys, velocity rules, Down, damping); no contract of its own, characterised by `CoolIffDown`, `JumpKeysNeedCanJump`, `JumpImpulses`, `AttackKey`, `AttackIff`, `AttackNotRederived`, `HorizontalInput`, `VelocityDerivation`, `RestIsIdle`, `WalkRightFromRest` and `DampingShrinks` |
| PlayerRules.ClipFor | src/Games/Platformer/Systems/PlayerSystem.cs:86-127 | the clip name of each of the seven states (jump, walk, fall, idle, kick, punch, cool); no contract of its own, `ClipForInjective` proves the seven names distinct |
| PlayerRules.JumpStrength | src/Games/Platformer/Systems/PlayerSystem.cs:47 | one jump press subtracts at least 550 |
| PlayerRules.JumpPresses | src/Games/Platformer/Systems/PlayerSystem.cs:44-54 | at most two impulses; none exactly when CanJump is false or neither Up nor Z was pressed; two exactly when both were pressed with CanJump |
| PlayerRules.AttackState | src/Games/Platformer/Systems/PlayerSystem.cs:49-53 | Z with CanJump always yields an attack state; without it the state is kept; Punching results exactly from Idle with the attack key, or from Punching without it |
| PlayerRules.HorizontalPush | src/Games/Platformer/Systems/PlayerSystem.cs:56-66 | Right alone pushes +150, Left alone -150, both or neither 0 |
| PlayerRules.NewFacing | src/Games/Platformer/Systems/PlayerSystem.cs:56-66 | Left held faces Left (also with Right, since Left is applied last); Right alone faces Right; neither keeps the facing |
| PlayerRules.VelocityState | src/Games/Platformer/Systems/PlayerSystem.cs:68-81 | the derived state is never an attack or Cool; Idle exactly when both components are within 5 of zero; otherwise Falling exactly when vy > 0 and Jumping exactly when vy < 0; Walking only when vy = 0 and \|vx\| > 5 |
| PlayerRules.Driven | src/Games/Platformer/Systems/PlayerSystem.cs:44-66 | input never makes vy larger, and changes vx by exactly the arrow keys' net push |
| PlayerRules.NextClip | src/Games/Platformer/Systems/PlayerSystem.cs:86-131 | the clip after a tick is the final state's clip; if it was already playing, nothing about it changes; if not, the new one carries the return-to-Idle handler exactly for an attack; it preserves "handlers sit only on kick and punch clips" |
| PlayerRules.NextEffect | src/Games/Platformer/Systems/PlayerSystem.cs:92-96 | states other than Walking keep the mirroring; Walking draws unmirrored exactly when facing Right |
| PlayerRules.Completed | src/Games/Platformer/Systems/PlayerSystem.cs:107-123 | completion of an animation carrying the handler sets Idle; without the handler the state is kept |
| PlayerRules.AttackClipCompletesToIdle | src/Games/Platformer/Systems/PlayerSystem.cs:105-123 | a tick that starts a kick or punch clip attaches the handler, so that clip's completion sets Idle whatever the state is by then |
| PlayerRules.JumpStrengthSymmetric | src/Games/Platformer/Systems/PlayerSystem.cs:47 | a jump press subtracts the same amount whichever way the player moves horizontally |
| PlayerRules.CoolIffDown | src/Games/Platformer/Systems/PlayerSystem.cs:83-84 | the tick ends in Cool if and only if Down is held, whatever the prior state, velocity or other keys |
| PlayerRules.JumpKeysNeedCanJump | src/Games/Platformer/Systems/PlayerSystem.cs:44-54 | without CanJump the tick is the same as with Up and Z released, and vy is unchanged |
| PlayerRules.JumpImpulses | src/Games/Platformer/Systems/PlayerSystem.cs:44-54 | with CanJump, final vy = vy - k·(550 + 0.4·\|vx\|) for k the number of pressed jump keys and vx from before horizontal input; any jump key strictly lowers vy |
| PlayerRules.AttackKey | src/Games/Platformer/Systems/PlayerSystem.cs:49-53 | with CanJump, Z and no Down the tick ends Punching from Idle and Kicking from any other state |
| PlayerRules.AttackIff | src/Games/Platformer/Systems/PlayerSystem.cs:44-84 | a tick ends attacking exactly when Down is not held and the player was attacking or pressed Z with CanJump |
| PlayerRules.AttackNotRederived | src/Games/Platformer/Systems/PlayerSystem.cs:68 | an attacking player without Down stays attacking, and keeps its exact state unless it attacks again |
| PlayerRules.HorizontalInput | src/Games/Platformer/Systems/PlayerSystem.cs:56-66 | final vx is 0.7·(vx + push); Right: +150 and facing Right; Left: -150 and facing Left; both: net 0 and facing Left; neither: facing unchanged |
| PlayerRules.VelocityDerivation | src/Games/Platformer/Systems/PlayerSystem.cs:68-81 | a player not attacking after the jump keys, without Down, takes the state of its pre-damping velocity, always one of Idle, Walking, Jumping, Falling |
| PlayerRules.RestIsIdle | src/Games/Platformer/Systems/PlayerSystem.cs:79-80 | a player not attacking after the jump keys, without Down, whose pre-damping velocity is within 5 of zero ends Idle |
| PlayerRules.WalkRightFromRest | src/Games/Platformer/Systems/PlayerSystem.cs:56-81 | from Idle at rest, with either facing and either CanJump, Right alone yields Walking, facing Right and positive vx |
| PlayerRules.DampingShrinks | src/Games/Platformer/Systems/PlayerSystem.cs:133 | damping keeps the sign of vx and strictly shrinks it unless it is zero |
| PlayerRules.ClipForInjective | src/Games/Platformer/Systems/PlayerSystem.cs:86-127 | two states share a clip name only if they are the same state |
| PlayerRules.SameStateKeepsClip | src/Games/Platformer/Systems/PlayerSystem.cs:86-127 | selecting the clip twice for one state is the same as once; the second tick does not restart it |
| PlayerRules.HandlerOnlyWhileAttacking | src/Games/Platformer/Systems/PlayerSystem.cs:105-123 | if handlers sit only on kick and punch clips, then after a tick the handler is attached only while the player attacks, so completion can only end an attack |
| PlayerRules.DampingOverTicks | src/Games/Platformer/Systems/PlayerSystem.cs:133 | over n ticks without arrow keys, vx becomes 0.7^n·vx |
| PlayerRules.DampingNeverReverses | src/Games/Platformer/Systems/PlayerSystem.cs:133 | over any ticks without arrow keys vx never changes sign or grows, and strictly shrinks when non-zero |
| PlayerRules.NoJumpKeepsVerticalVelocity | src/Games/Platformer/Systems/PlayerSystem.cs:44-54 | over any ticks without CanJump, vy is unchanged |
| PlayerRules.AttackPersists | src/Games/Platformer/Systems/PlayerSystem.cs:68 | an attack lasts through any ticks without Down |
| Vectors.Vector2.Negated | src/DocumentationSamples/Collision/CubeEntity.cs:40-41 | the result is the additive inverse, and each component is the original multiplied by -1 |
| Vectors.Vector2.Minus | src/DocumentationSamples/Collision/CubeEntity.cs:42 | subtraction undoes addition (`r.Plus(v) == this`), and subtracting the zero vector changes nothing |
| Vectors.NegatedInvolution | src/DocumentationSamples/Collision/CubeEntity.cs:40-41 | negating a velocity twice gives it back |
| Collision.NextInt | src/DocumentationSamples/Collision/CubeEntity.cs:47-48 | a draw lies in [min, max), or equals min when the bounds coincide |
| Collision.CubeEntity.constructor | src/DocumentationSamples/Collision/CubeEntity.cs:22-26 | the bounds are the given rectangle and each velocity component is -1, 0 or 1 |
| Collision.CubeEntity.RandomizeVelocity | src/DocumentationSamples/Collision/CubeEntity.cs:45-49 | each velocity component is -1, 0 or 1, and nothing else changes |
| Collision.CubeEntity.Update | src/DocumentationSamples/Collision/CubeEntity.cs:33-36 | the position moves by velocity × elapsed seconds × 50; velocity and size are unchanged |
| Collision.CubeEntity.OnCollision | src/DocumentationSamples/Collision/CubeEntity.cs:38-43 | velocity becomes its exact negation, so it stays in {-1, 0, 1}; position becomes old position minus the penetration vector, unchanged for a zero vector; size unchanged |
| Collision.CollideTwice | src/DocumentationSamples/Collision/CubeEntity.cs:38-43 | two collisions restore the velocity and move the position back by both penetration vectors |

## Left out

- The texture-region sample (`Game1.cs`): graphics-device setup, content loading and draw calls around a library type, with no logic of its own.
- ECS wiring (the aspect query, `Initialize`, the component mappers): the components are passed to `Process` directly. The transform component is fetched but never used.
- Keyboard polling: `Process` takes a `KeyboardSnapshot` of the five keys instead.
- `GameTime`: `Update` takes the elapsed seconds as a parameter.
- `Player.IsAttacking` is not part of this model. It is assumed to hold exactly in the Kicking and Punching states.
- `Vector2.EqualsWithTolerence` is not part of this model. Comparing with zero at tolerance 5 is assumed to mean both components lie within [-5, 5].
- `AnimatedSprite` internals are left out: frame timing, playback, and how events are raised. An animation is a clip name plus one flag for the only handler the system attaches. Completion is the separate `AnimationCompleted` event.
- `AnimatedSprite.SetAnimation` is assumed to start a new animation object with no handlers.
- The `Draw` methods: rendering.
- Single-precision rounding: all arithmetic is on `real`, so 0.4 and 0.7 are exact.
- `Random.Shared`: `NextInt` is a nondeterministic choice within the documented range.
- `Player.CanJump` is not part of this model: its definition and whatever sets it are not shown. The model takes it as an unconstrained input read once per tick, so every lemma holds however it is computed.
- `Run` chains ticks with nothing between them. It does not model anything outside `Process` that may change the velocity between frames.
