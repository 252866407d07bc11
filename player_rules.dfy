/** The rules of the platformer's per-tick player control, stated as functions
    of the values the tick reads: the player's state and facing, the body's
    velocity, the keyboard snapshot, the CanJump flag and the sprite's current
    clip. PlayerSystem.Process is proved to update its objects exactly as these
    functions say; the lemmas below state what the rules promise. */
module PlayerRules {
  import opened Vectors

  datatype State = Idle | Walking | Jumping | Falling | Kicking | Punching | Cool

  datatype Facing = Left | Right

  /** The sprite mirroring flag (the framework's SpriteEffects.None and
      SpriteEffects.FlipHorizontally). */
  datatype SpriteEffects = NoEffects | FlipHorizontally

  /** What one tick reads from the keyboard: Up and Z as "pressed this frame",
      Right, Left and Down as "held". */
  datatype KeyboardSnapshot = KeyboardSnapshot(
    upPressed: bool, zPressed: bool, rightDown: bool, leftDown: bool, downDown: bool)

  /** The inputs of one tick that the player does not own: the keyboard and the
      player's CanJump flag, which the tick only reads. */
  datatype Tick = Tick(keys: KeyboardSnapshot, canJump: bool)

  /** The part of the player and its body that a tick changes. */
  datatype Pose = Pose(state: State, facing: Facing, velocity: Vector2)

  /** The sprite's current animation: its clip name, and whether a completion
      handler that returns the player to Idle is attached to it. */
  datatype Clip = Clip(name: string, idleOnCompleted: bool)

  const JumpImpulse: real := 550.0
  const JumpSpeedFactor: real := 0.4
  const WalkAcceleration: real := 150.0
  const HorizontalDamping: real := 0.7
  const IdleTolerance: real := 5.0

  /** Player.IsAttacking: the attack states. */
  predicate IsAttacking(s: State) {
    s == Kicking || s == Punching
  }

  /** Velocity.EqualsWithTolerence(Vector2.Zero, 5): each component within 5 of zero. */
  predicate NearZero(v: Vector2) {
    -IdleTolerance <= v.x <= IdleTolerance && -IdleTolerance <= v.y <= IdleTolerance
  }

  function Abs(x: real): real {
    if x < 0.0 then -x else x
  }

  predicate NoHorizontalInput(t: Tick) {
    !t.keys.rightDown && !t.keys.leftDown
  }

  /** What one jump press subtracts from the vertical velocity: 550 plus 0.4
      of the horizontal speed, whichever way the player moves. */
  function JumpStrength(vx: real): (r: real)
    ensures r >= JumpImpulse
  {
    JumpImpulse + Abs(vx) * JumpSpeedFactor
  }

  /** How many jump impulses a tick applies: one for Up and one for Z, and
      none at all unless the player can jump. */
  function JumpPresses(t: Tick): (n: nat)
    ensures n <= 2
    ensures n == 0 <==> !t.canJump || (!t.keys.upPressed && !t.keys.zPressed)
    ensures n == 2 <==> t.canJump && t.keys.upPressed && t.keys.zPressed
  {
    if !t.canJump then 0
    else (if t.keys.upPressed then 1 else 0) + (if t.keys.zPressed then 1 else 0)
  }

  /** The state after the attack key: Z (when the player can jump) starts a
      punch from Idle and a kick from any other state. */
  function AttackState(t: Tick, s: State): (r: State)
    ensures t.canJump && t.keys.zPressed ==> IsAttacking(r)
    ensures !(t.canJump && t.keys.zPressed) ==> r == s
    ensures r == Punching <==> (s == Idle && t.canJump && t.keys.zPressed) || (s == Punching && !(t.canJump && t.keys.zPressed))
  {
    if t.canJump && t.keys.zPressed then (if s == Idle then Punching else Kicking) else s
  }

  /** The net horizontal push of the held arrow keys. */
  function HorizontalPush(k: KeyboardSnapshot): (r: real)
    ensures k.rightDown == k.leftDown ==> r == 0.0
    ensures k.rightDown && !k.leftDown ==> r == WalkAcceleration
    ensures k.leftDown && !k.rightDown ==> r == -WalkAcceleration
  {
    (if k.rightDown then WalkAcceleration else 0.0) - (if k.leftDown then WalkAcceleration else 0.0)
  }

  /** The facing after the arrow keys: Left wins when both are held, and
      neither leaves it as it was. */
  function NewFacing(k: KeyboardSnapshot, f: Facing): (r: Facing)
    ensures k.leftDown ==> r == Left
    ensures k.rightDown && !k.leftDown ==> r == Right
    ensures !k.rightDown && !k.leftDown ==> r == f
  {
    if k.leftDown then Left else if k.rightDown then Right else f
  }

  /** The state a non-attacking player takes from its velocity, in order of
      precedence: near rest is Idle, then moving down is Falling, then moving
      up is Jumping, and any other motion is horizontal, so Walking. */
  function VelocityState(v: Vector2): (r: State)
    ensures !IsAttacking(r) && r != Cool
    ensures r == Idle <==> NearZero(v)
    ensures r == Falling <==> !NearZero(v) && v.y > 0.0
    ensures r == Jumping <==> !NearZero(v) && v.y < 0.0
    ensures r == Walking ==> v.y == 0.0 && Abs(v.x) > IdleTolerance
  {
    if NearZero(v) then Idle
    else if v.y > 0.0 then Falling
    else if v.y < 0.0 then Jumping
    else Walking
  }

  /** The velocity after jump impulses and horizontal input, before damping. */
  function Driven(t: Tick, v: Vector2): (r: Vector2)
    ensures r.y <= v.y
    ensures r.x - v.x == HorizontalPush(t.keys)
  {
    Vector2(v.x + HorizontalPush(t.keys), v.y - JumpPresses(t) as real * JumpStrength(v.x))
  }

  /** The player's state, facing and velocity after one tick. */
  function NextPose(t: Tick, p: Pose): Pose {
    var attacked := AttackState(t, p.state);
    var driven := Driven(t, p.velocity);
    var derived := if IsAttacking(attacked) then attacked else VelocityState(driven);
    Pose(if t.keys.downDown then Cool else derived,
         NewFacing(t.keys, p.facing),
         Vector2(driven.x * HorizontalDamping, driven.y))
  }

  /** The clip name that plays in each state. */
  function ClipFor(s: State): string {
    match s
    case Jumping => "jump"
    case Walking => "walk"
    case Falling => "fall"
    case Idle => "idle"
    case Kicking => "kick"
    case Punching => "punch"
    case Cool => "cool"
  }

  /** A handler that ends the attack is attached only to the kick and punch clips. */
  predicate HandlerOnAttackClip(c: Clip) {
    c.idleOnCompleted ==> c.name == ClipFor(Kicking) || c.name == ClipFor(Punching)
  }

  /** Whether a tick that ends in state s sets a new animation. */
  predicate Restarts(current: string, s: State) {
    current != ClipFor(s)
  }

  /** The sprite's clip after a tick that ends in state s: unchanged when it is
      already s's clip, otherwise s's clip started afresh, with the
      return-to-Idle handler exactly when s is an attack. */
  function NextClip(c: Clip, s: State): (r: Clip)
    ensures r.name == ClipFor(s)
    ensures !Restarts(c.name, s) ==> r == c
    ensures Restarts(c.name, s) ==> (r.idleOnCompleted <==> IsAttacking(s))
    ensures HandlerOnAttackClip(r) || !HandlerOnAttackClip(c)
  {
    if c.name == ClipFor(s) then c else Clip(ClipFor(s), IsAttacking(s))
  }

  /** The sprite's mirroring after a tick: only Walking sets it, from the facing. */
  function NextEffect(e: SpriteEffects, s: State, f: Facing): (r: SpriteEffects)
    ensures s != Walking ==> r == e
    ensures s == Walking ==> (r == NoEffects <==> f == Right)
  {
    if s == Walking then (if f == Right then NoEffects else FlipHorizontally) else e
  }

  /** The player's state after the current clip reports that it completed. */
  function Completed(c: Clip, s: State): (r: State)
    ensures c.idleOnCompleted ==> r == Idle
    ensures !c.idleOnCompleted ==> r == s
  {
    if c.idleOnCompleted then Idle else s
  }

  /** Consecutive ticks with nothing else touching the player in between. */
  function Run(ticks: seq<Tick>, p: Pose): Pose
    decreases |ticks|
  {
    if ticks == [] then p else Run(ticks[1..], NextPose(ticks[0], p))
  }

  function Pow(b: real, n: nat): real {
    if n == 0 then 1.0 else b * Pow(b, n - 1)
  }

  // ---------------------------------------------------------------------
  // One tick

  /** A jump press pushes as hard whichever way the player moves horizontally. */
  lemma JumpStrengthSymmetric(vx: real)
    ensures JumpStrength(-vx) == JumpStrength(vx)
  {
  }

  /** Down forces Cool whatever came before, and Cool is reached only by Down. */
  lemma CoolIffDown(t: Tick, p: Pose)
    ensures NextPose(t, p).state == Cool <==> t.keys.downDown
  {
  }

  /** Without CanJump, Up and Z have no effect at all, and the vertical
      velocity is left as it was. */
  lemma JumpKeysNeedCanJump(t: Tick, p: Pose)
    requires !t.canJump
    ensures NextPose(t, p) == NextPose(Tick(t.keys.(upPressed := false, zPressed := false), false), p)
    ensures NextPose(t, p).velocity.y == p.velocity.y
  {
  }

  /** With CanJump, each of Up and Z subtracts 550 + 0.4 |vx| from vy, using
      vx from before horizontal input; damping leaves vy alone. */
  lemma JumpImpulses(t: Tick, p: Pose)
    requires t.canJump
    ensures var k := (if t.keys.upPressed then 1.0 else 0.0) + (if t.keys.zPressed then 1.0 else 0.0);
            NextPose(t, p).velocity.y == p.velocity.y - k * (550.0 + 0.4 * Abs(p.velocity.x))
    ensures t.keys.upPressed || t.keys.zPressed ==> NextPose(t, p).velocity.y < p.velocity.y
  {
  }

  /** The attack key starts a punch from Idle and a kick otherwise, and the
      attack is what the tick ends in unless Down is held. */
  lemma AttackKey(t: Tick, p: Pose)
    requires t.canJump && t.keys.zPressed && !t.keys.downDown
    ensures NextPose(t, p).state == if p.state == Idle then Punching else Kicking
  {
  }

  /** A tick ends in an attack exactly when Down is not held and the player
      was attacking already or pressed the attack key while able to jump. */
  lemma AttackIff(t: Tick, p: Pose)
    ensures IsAttacking(NextPose(t, p).state)
        <==> !t.keys.downDown && (IsAttacking(p.state) || (t.canJump && t.keys.zPressed))
  {
  }

  /** An attack is not re-derived from velocity: without Down it survives the tick. */
  lemma AttackNotRederived(t: Tick, p: Pose)
    requires IsAttacking(p.state) && !t.keys.downDown
    ensures IsAttacking(NextPose(t, p).state)
    ensures !(t.canJump && t.keys.zPressed) ==> NextPose(t, p).state == p.state
  {
  }

  /** Right adds 150 and faces Right; Left subtracts 150 and faces Left;
      both give no net push and face Left; neither keeps the facing. The
      final horizontal velocity is 0.7 of the pushed one. */
  lemma HorizontalInput(t: Tick, p: Pose)
    ensures NextPose(t, p).velocity.x == HorizontalDamping * (p.velocity.x + HorizontalPush(t.keys))
    ensures t.keys.rightDown && t.keys.leftDown ==>
              NextPose(t, p).velocity.x == HorizontalDamping * p.velocity.x && NextPose(t, p).facing == Left
    ensures t.keys.rightDown && !t.keys.leftDown ==>
              NextPose(t, p).velocity.x == HorizontalDamping * (p.velocity.x + 150.0) && NextPose(t, p).facing == Right
    ensures t.keys.leftDown && !t.keys.rightDown ==>
              NextPose(t, p).velocity.x == HorizontalDamping * (p.velocity.x - 150.0) && NextPose(t, p).facing == Left
    ensures NoHorizontalInput(t) ==> NextPose(t, p).facing == p.facing
  {
  }

  /** When not attacking and Down is not held, the state comes from the
      driven (pre-damping) velocity, and it is never left as it was unless it
      already agrees with that velocity. */
  lemma VelocityDerivation(t: Tick, p: Pose)
    requires !IsAttacking(AttackState(t, p.state)) && !t.keys.downDown
    ensures NextPose(t, p).state == VelocityState(Driven(t, p.velocity))
    ensures NextPose(t, p).state in {Idle, Walking, Jumping, Falling}
  {
  }

  /** A non-attacking player whose velocity comes to rest within 5 is Idle. */
  lemma RestIsIdle(t: Tick, p: Pose)
    requires !IsAttacking(AttackState(t, p.state)) && !t.keys.downDown
    requires NearZero(Driven(t, p.velocity))
    ensures NextPose(t, p).state == Idle
  {
  }

  /** From rest, holding Right alone for one tick makes the player walk to the right. */
  lemma WalkRightFromRest(f: Facing, canJump: bool)
    ensures var q := NextPose(Tick(KeyboardSnapshot(false, false, true, false, false), canJump), Pose(Idle, f, Zero));
            q.state == Walking && q.facing == Right && q.velocity.x > 0.0
  {
  }

  /** Damping never reverses or grows the horizontal velocity, and shrinks it
      strictly unless it is zero. */
  lemma DampingShrinks(t: Tick, p: Pose)
    ensures var before := Driven(t, p.velocity).x;
            var after := NextPose(t, p).velocity.x;
            (before > 0.0 ==> 0.0 < after < before) &&
            (before < 0.0 ==> before < after < 0.0) &&
            (before == 0.0 ==> after == 0.0)
  {
  }

  // ---------------------------------------------------------------------
  // Clips and the completion event

  /** Each state has its own clip. */
  lemma ClipForInjective(a: State, b: State)
    ensures ClipFor(a) == ClipFor(b) <==> a == b
  {
  }

  /** A second tick in the same state leaves the clip as the first one set it. */
  lemma SameStateKeepsClip(c: Clip, s: State)
    ensures NextClip(NextClip(c, s), s) == NextClip(c, s)
    ensures !Restarts(NextClip(c, s).name, s)
  {
  }

  /** After a tick the return-to-Idle handler is attached only while the
      player is attacking, so completion ends nothing but an attack. */
  lemma HandlerOnlyWhileAttacking(c: Clip, s: State)
    requires HandlerOnAttackClip(c)
    ensures NextClip(c, s).idleOnCompleted ==> IsAttacking(s)
    ensures Completed(NextClip(c, s), s) != s ==> IsAttacking(s)
  {
  }

  /** A tick that starts a kick or punch clip attaches the handler, so that
      clip's completion returns the player to Idle, whatever state it is in by then. */
  lemma AttackClipCompletesToIdle(c: Clip, s: State, s2: State)
    requires IsAttacking(s) && Restarts(c.name, s)
    ensures Completed(NextClip(c, s), s2) == Idle
  {
  }

  // ---------------------------------------------------------------------
  // Several ticks

  /** Without horizontal input, n ticks multiply the horizontal velocity by 0.7^n. */
  lemma {:induction false} DampingOverTicks(ticks: seq<Tick>, p: Pose)
    requires forall i :: 0 <= i < |ticks| ==> NoHorizontalInput(ticks[i])
    ensures Run(ticks, p).velocity.x == Pow(HorizontalDamping, |ticks|) * p.velocity.x
  {
    if ticks != [] {
      var q := NextPose(ticks[0], p);
      assert q.velocity.x == HorizontalDamping * p.velocity.x;
      DampingOverTicks(ticks[1..], q);
    }
  }

  /** Without horizontal input the horizontal velocity never changes sign,
      and its magnitude strictly decreases tick over tick unless it is zero. */
  lemma {:induction false} DampingNeverReverses(ticks: seq<Tick>, p: Pose)
    requires forall i :: 0 <= i < |ticks| ==> NoHorizontalInput(ticks[i])
    ensures var x, x' := p.velocity.x, Run(ticks, p).velocity.x;
            (x > 0.0 ==> 0.0 < x' <= x) && (x < 0.0 ==> x <= x' < 0.0) && (x == 0.0 ==> x' == 0.0)
    ensures |ticks| > 0 && p.velocity.x != 0.0 ==> Abs(Run(ticks, p).velocity.x) < Abs(p.velocity.x)
  {
    if ticks != [] {
      DampingShrinks(ticks[0], p);
      DampingNeverReverses(ticks[1..], NextPose(ticks[0], p));
    }
  }

  /** While the player cannot jump, no number of ticks changes its vertical velocity. */
  lemma {:induction false} NoJumpKeepsVerticalVelocity(ticks: seq<Tick>, p: Pose)
    requires forall i :: 0 <= i < |ticks| ==> !ticks[i].canJump
    ensures Run(ticks, p).velocity.y == p.velocity.y
  {
    if ticks != [] {
      JumpKeysNeedCanJump(ticks[0], p);
      NoJumpKeepsVerticalVelocity(ticks[1..], NextPose(ticks[0], p));
    }
  }

  /** An attack lasts through any ticks without Down: only the completion
      event or Down ends it. */
  lemma {:induction false} AttackPersists(ticks: seq<Tick>, p: Pose)
    requires IsAttacking(p.state)
    requires forall i :: 0 <= i < |ticks| ==> !ticks[i].keys.downDown
    ensures IsAttacking(Run(ticks, p).state)
  {
    if ticks != [] {
      AttackNotRederived(ticks[0], p);
      AttackPersists(ticks[1..], NextPose(ticks[0], p));
    }
  }
}
