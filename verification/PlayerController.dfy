/** The jump and crouch state machine of the player controller. What the physics
    engine answers to a movement is arbitrary. */
module PlayerController {

  datatype Config = Config(
    gravity: real,
    gravityFall: real,
    gravityFallVelStart: real,
    gravityFallVelSpan: real,
    gravityJumpHold: real,
    maxFallSpeed: real,
    jumpPower: real,
    coyoteTime: real,
    crouchTimeDown: real,
    crouchTimeUp: real,
    strafeGroundTimeMax: real,
    stunnedGroundFactor: real)

  predicate ValidConfig(c: Config) {
    && c.gravity >= 0.0 && c.gravityFall >= 0.0 && c.gravityJumpHold >= 0.0 && c.gravityFallVelSpan > 0.0
    && c.maxFallSpeed >= 0.0 && c.jumpPower >= 0.0 && c.coyoteTime >= 0.0
    && c.crouchTimeDown > 0.0 && c.crouchTimeUp > 0.0 && c.strafeGroundTimeMax >= 0.0
  }

  datatype PlayerState = PlayerState(
    verticalVelocity: real,
    grounded: bool,
    coyoteTime: real,
    jumpConsumed: bool,
    crouchAmount: real,
    lastCrouchAmount: real,
    crouchTarget: real,
    strafeGroundTime: real,
    stunnedDuration: real)

  datatype Input = Input(wantsJump: bool, jumpHeld: bool, isCrouching: bool)

  /** What the character controller reports: grounded, and the vertical
      translation it allowed. */
  datatype Outcome = Outcome(grounded: bool, correctedY: real)

  function FreshState(): PlayerState { PlayerState(0.0, true, 0.0, false, 0.0, 0.0, 0.0, 0.0, 0.0) }

  function Clamp(x: real, lo: real, hi: real): real { if x < lo then lo else if x > hi then hi else x }

  function Max(a: real, b: real): real { if a < b then b else a }

  function Min(a: real, b: real): real { if a > b then b else a }

  function Abs(a: real): real { if a < 0.0 then -a else a }

  function Lerp(a: real, b: real, t: real): real { a + (b - a) * t }

  function GravityAcceleration(c: Config, vy: real, jumpHeld: bool): real
    requires ValidConfig(c)
  {
    if jumpHeld && vy > 0.0 && vy < c.jumpPower then c.gravityJumpHold
    else Lerp(c.gravityFall, c.gravity, Clamp((Abs(vy) - c.gravityFallVelStart) / c.gravityFallVelSpan, 0.0, 1.0))
  }

  function ApplyGravity(c: Config, vy: real, jumpHeld: bool, dt: real): real
    requires ValidConfig(c)
  {
    Max(vy - GravityAcceleration(c, vy, jumpHeld) * dt, -c.maxFallSpeed)
  }

  predicate StartsJump(s: PlayerState, input: Input) {
    input.wantsJump && (s.grounded || s.coyoteTime > 0.0) && !s.jumpConsumed
  }

  /** Vertical velocity, coyote time and jump latch after `compute_velocity`. */
  function ComputeVelocity(c: Config, s: PlayerState, input: Input, dt: real): PlayerState
    requires ValidConfig(c)
  {
    var jump := StartsJump(s, input);
    s.(verticalVelocity := if jump then c.jumpPower
                           else if s.grounded then s.verticalVelocity
                           else ApplyGravity(c, s.verticalVelocity, input.jumpHeld, dt),
       jumpConsumed := input.wantsJump && (s.jumpConsumed || jump),
       coyoteTime := if s.grounded then c.coyoteTime else if jump then Max(-dt, 0.0) else Max(s.coyoteTime - dt, 0.0))
  }

  function TickCrouch(c: Config, s: PlayerState, input: Input, dt: real): PlayerState
    requires ValidConfig(c)
  {
    var target := if input.isCrouching then 1.0 else 0.0;
    var maxChange := CrouchChange(c, s.crouchAmount, target, dt);
    s.(lastCrouchAmount := s.crouchAmount,
       crouchTarget := target,
       crouchAmount := s.crouchAmount + Clamp(target - s.crouchAmount, -maxChange, maxChange))
  }

  function CrouchChange(c: Config, amount: real, target: real, dt: real): (change: real)
    requires ValidConfig(c)
    ensures dt > 0.0 ==> change > 0.0
  {
    (if target > amount then 1.0 / c.crouchTimeDown else 1.0 / c.crouchTimeUp) * dt
  }

  function ResolveVertical(vy: real, desired: real, corrected: real, grounded: bool): real {
    if grounded && vy <= 0.0 then 0.0
    else if vy > 0.0 then if corrected < desired - 0.0001 then 0.0 else vy
    else if corrected > desired + 0.0001 then 0.0
    else vy
  }

  function Collide(s: PlayerState, outcome: Outcome, dt: real): PlayerState {
    var vy := s.verticalVelocity;
    s.(grounded := outcome.grounded,
       verticalVelocity := ResolveVertical(vy, vy * dt, outcome.correctedY, outcome.grounded))
  }

  function TickStrafe(c: Config, s: PlayerState, grounded: bool, dt: real): PlayerState {
    s.(strafeGroundTime := if grounded then Min(s.strafeGroundTime + dt, c.strafeGroundTimeMax) else 0.0)
  }

  function TickStun(c: Config, s: PlayerState, grounded: bool, dt: real): PlayerState {
    s.(stunnedDuration := Max(s.stunnedDuration - dt * (if grounded then c.stunnedGroundFactor else 1.0), 0.0))
  }

  /** One command. */
  function Process(c: Config, s: PlayerState, input: Input, outcome: Outcome, dt: real): PlayerState
    requires ValidConfig(c)
  {
    var grounded := s.grounded;
    var moved := ComputeVelocity(c, TickStrafe(c, TickCrouch(c, s, input, dt), grounded, dt), input, dt);
    TickStun(c, Collide(moved, outcome, dt), grounded, dt)
  }

  // --------------------------------------------------------------------- runs

  ghost predicate IsRun(c: Config, states: seq<PlayerState>, inputs: seq<Input>, outcomes: seq<Outcome>, dt: real)
    requires ValidConfig(c)
  {
    && |states| == |inputs| + 1 && |outcomes| == |inputs|
    && states[0] == FreshState()
    && forall i :: 0 <= i < |inputs| ==> states[i + 1] == Process(c, states[i], inputs[i], outcomes[i], dt)
  }

  /** Command `i` starts a jump. */
  predicate Jumps(states: seq<PlayerState>, inputs: seq<Input>, i: nat)
    requires i < |inputs| < |states|
  {
    StartsJump(states[i], inputs[i])
  }

  lemma ProcessJumpState(c: Config, s: PlayerState, input: Input, outcome: Outcome, dt: real)
    requires ValidConfig(c) && dt > 0.0
    ensures var s' := Process(c, s, input, outcome, dt);
            && (s'.jumpConsumed <==> input.wantsJump && (s.jumpConsumed || StartsJump(s, input)))
            && s'.grounded == outcome.grounded
            && (s.grounded ==> s'.coyoteTime == c.coyoteTime)
            && (!s.grounded ==> s'.coyoteTime == if StartsJump(s, input) then 0.0 else Max(s.coyoteTime - dt, 0.0))
  {
    var t := TickStrafe(c, TickCrouch(c, s, input, dt), s.grounded, dt);
    assert StartsJump(t, input) == StartsJump(s, input);
    assert t.coyoteTime == s.coyoteTime && t.jumpConsumed == s.jumpConsumed && t.grounded == s.grounded;
    var moved := ComputeVelocity(c, t, input, dt);
    assert Process(c, s, input, outcome, dt).coyoteTime == moved.coyoteTime;
  }

  lemma {:induction false} LatchHolds(c: Config, states: seq<PlayerState>, inputs: seq<Input>, outcomes: seq<Outcome>,
                                      dt: real, i: nat, j: nat)
    requires ValidConfig(c) && dt > 0.0 && IsRun(c, states, inputs, outcomes, dt)
    requires i < j <= |inputs| && Jumps(states, inputs, i)
    requires forall k :: i < k < j ==> inputs[k].wantsJump
    ensures states[j].jumpConsumed
    decreases j
  {
    ProcessJumpState(c, states[j - 1], inputs[j - 1], outcomes[j - 1], dt);
    assert states[j - 1 + 1] == Process(c, states[j - 1], inputs[j - 1], outcomes[j - 1], dt);
    if i == j - 1 {
    } else {
      LatchHolds(c, states, inputs, outcomes, dt, i, j - 1);
    }
  }

  /** Between two jump starts the jump flag was released. */
  lemma JumpsNeedRelease(c: Config, states: seq<PlayerState>, inputs: seq<Input>, outcomes: seq<Outcome>,
                         dt: real, i: nat, j: nat)
    requires ValidConfig(c) && dt > 0.0 && IsRun(c, states, inputs, outcomes, dt)
    requires i < j < |inputs| && Jumps(states, inputs, i) && Jumps(states, inputs, j)
    ensures exists k :: i < k < j && !inputs[k].wantsJump
  {
    if forall k :: i < k < j ==> inputs[k].wantsJump {
      LatchHolds(c, states, inputs, outcomes, dt, i, j);
    }
  }

  /** Commands `m` to `j` are one airborne spell that has just begun at `m`. */
  ghost predicate Airborne(states: seq<PlayerState>, m: nat, j: nat)
    requires j < |states|
  {
    0 < m <= j && states[m - 1].grounded && forall k :: m <= k <= j ==> !states[k].grounded
  }

  lemma {:induction false} CoyoteRunsOut(
    c: Config, states: seq<PlayerState>, inputs: seq<Input>, outcomes: seq<Outcome>,
                                         dt: real, m: nat, j: nat)
    requires ValidConfig(c) && dt > 0.0 && IsRun(c, states, inputs, outcomes, dt)
    requires j < |states| && Airborne(states, m, j)
    ensures states[j].coyoteTime <= Max(c.coyoteTime - (j - m) as real * dt, 0.0)
    decreases j
  {
    ProcessJumpState(c, states[j - 1], inputs[j - 1], outcomes[j - 1], dt);
    assert states[j - 1 + 1] == Process(c, states[j - 1], inputs[j - 1], outcomes[j - 1], dt);
    if m == j {
    } else {
      CoyoteRunsOut(c, states, inputs, outcomes, dt, m, j - 1);
      assert (j - m) as real * dt == (j - 1 - m) as real * dt + dt;
    }
  }

  /** On the n-th airborne command a jump can start only while the coyote time
      exceeds n - 1 ticks. */
  lemma LateJumpNeedsCoyote(c: Config, states: seq<PlayerState>, inputs: seq<Input>, outcomes: seq<Outcome>,
                            dt: real, m: nat, j: nat)
    requires ValidConfig(c) && dt > 0.0 && IsRun(c, states, inputs, outcomes, dt)
    requires j < |inputs| && Airborne(states, m, j) && Jumps(states, inputs, j)
    ensures c.coyoteTime > (j - m) as real * dt
  {
    CoyoteRunsOut(c, states, inputs, outcomes, dt, m, j);
  }

  lemma {:induction false} CoyoteStaysSpent(
    c: Config, states: seq<PlayerState>, inputs: seq<Input>, outcomes: seq<Outcome>,
                                            dt: real, i: nat, j: nat)
    requires ValidConfig(c) && dt > 0.0 && IsRun(c, states, inputs, outcomes, dt)
    requires i < j <= |inputs| && Jumps(states, inputs, i)
    requires forall k :: i <= k < j ==> !states[k].grounded
    ensures states[j].coyoteTime == 0.0
    decreases j
  {
    ProcessJumpState(c, states[j - 1], inputs[j - 1], outcomes[j - 1], dt);
    assert states[j - 1 + 1] == Process(c, states[j - 1], inputs[j - 1], outcomes[j - 1], dt);
    if i == j - 1 {
    } else {
      CoyoteStaysSpent(c, states, inputs, outcomes, dt, i, j - 1);
    }
  }

  /** An airborne spell contains at most one jump start. */
  lemma OneJumpPerSpell(c: Config, states: seq<PlayerState>, inputs: seq<Input>, outcomes: seq<Outcome>,
                        dt: real, i: nat, j: nat)
    requires ValidConfig(c) && dt > 0.0 && IsRun(c, states, inputs, outcomes, dt)
    requires i < j < |inputs| && Jumps(states, inputs, i) && Jumps(states, inputs, j)
    ensures exists k :: i <= k <= j && states[k].grounded
  {
    if forall k :: i <= k <= j ==> !states[k].grounded {
      CoyoteStaysSpent(c, states, inputs, outcomes, dt, i, j);
    }
  }

  lemma GravityPullsDown(c: Config, vy: real, jumpHeld: bool)
    requires ValidConfig(c)
    ensures GravityAcceleration(c, vy, jumpHeld) >= 0.0
  {
    var t := Clamp((Abs(vy) - c.gravityFallVelStart) / c.gravityFallVelSpan, 0.0, 1.0);
    LerpBetween(c.gravityFall, c.gravity, t);
  }

  /** Away from a held rising jump, gravity goes from the fall value at low speed
      to the normal one at high speed and stays between the two. */
  lemma GravityBlends(c: Config, vy: real, jumpHeld: bool)
    requires ValidConfig(c) && !(jumpHeld && 0.0 < vy < c.jumpPower)
    ensures var g := GravityAcceleration(c, vy, jumpHeld);
            && (Abs(vy) <= c.gravityFallVelStart ==> g == c.gravityFall)
            && (Abs(vy) >= c.gravityFallVelStart + c.gravityFallVelSpan ==> g == c.gravity)
            && Min(c.gravityFall, c.gravity) <= g <= Max(c.gravityFall, c.gravity)
  {
    var over := Abs(vy) - c.gravityFallVelStart;
    Fraction(over, c.gravityFallVelSpan);
    LerpBetween(c.gravityFall, c.gravity, Clamp(over / c.gravityFallVelSpan, 0.0, 1.0));
  }

  lemma Fraction(part: real, whole: real)
    requires whole > 0.0
    ensures part <= 0.0 ==> part / whole <= 0.0
    ensures part >= whole ==> part / whole >= 1.0
  {
    var t := part / whole;
    assert t * whole == part;
    if t > 0.0 { Product(t, whole); }
    if t < 1.0 {
      Product(1.0 - t, whole);
      assert (1.0 - t) * whole == whole - part;
    }
  }

  lemma LerpBetween(a: real, b: real, t: real)
    requires 0.0 <= t <= 1.0
    ensures Min(a, b) <= Lerp(a, b, t) <= Max(a, b)
  {
    if a <= b { LerpUp(a, b, t); } else { LerpDown(a, b, t); }
  }

  lemma LerpUp(a: real, b: real, t: real)
    requires 0.0 <= t <= 1.0 && a <= b
    ensures a <= Lerp(a, b, t) <= b
  {
    Product(b - a, t);
    Product(b - a, 1.0 - t);
  }

  lemma LerpDown(a: real, b: real, t: real)
    requires 0.0 <= t <= 1.0 && a >= b
    ensures b <= Lerp(a, b, t) <= a
  {
    Product(a - b, t);
    Product(a - b, 1.0 - t);
  }

  lemma Product(x: real, y: real)
    requires x >= 0.0 && y >= 0.0
    ensures x * y >= 0.0
    ensures x > 0.0 && y > 0.0 ==> x * y > 0.0
  {
  }

  predicate Bounded(c: Config, s: PlayerState) {
    && -c.maxFallSpeed <= s.verticalVelocity <= c.jumpPower && 0.0 <= s.crouchAmount <= 1.0
    && 0.0 <= s.strafeGroundTime <= c.strafeGroundTimeMax && s.stunnedDuration >= 0.0
  }

  lemma CrouchBounded(c: Config, s: PlayerState, input: Input, dt: real)
    requires ValidConfig(c) && dt > 0.0 && 0.0 <= s.crouchAmount <= 1.0
    ensures 0.0 <= TickCrouch(c, s, input, dt).crouchAmount <= 1.0
    ensures TickCrouch(c, s, input, dt).verticalVelocity == s.verticalVelocity
  {
  }

  lemma FallBounded(c: Config, vy: real, jumpHeld: bool, dt: real)
    requires ValidConfig(c) && dt > 0.0 && -c.maxFallSpeed <= vy <= c.jumpPower
    ensures -c.maxFallSpeed <= ApplyGravity(c, vy, jumpHeld, dt) <= c.jumpPower
  {
    GravityPullsDown(c, vy, jumpHeld);
    assert GravityAcceleration(c, vy, jumpHeld) * dt >= 0.0;
  }

  lemma ResolveBounded(c: Config, vy: real, desired: real, corrected: real, grounded: bool)
    requires ValidConfig(c) && -c.maxFallSpeed <= vy <= c.jumpPower
    ensures -c.maxFallSpeed <= ResolveVertical(vy, desired, corrected, grounded) <= c.jumpPower
  {
  }

  lemma ProcessBounded(c: Config, s: PlayerState, input: Input, outcome: Outcome, dt: real)
    requires ValidConfig(c) && dt > 0.0 && Bounded(c, s)
    ensures Bounded(c, Process(c, s, input, outcome, dt))
  {
    CrouchBounded(c, s, input, dt);
    FallBounded(c, s.verticalVelocity, input.jumpHeld, dt);
    var ready := TickStrafe(c, TickCrouch(c, s, input, dt), s.grounded, dt);
    var vy := ComputeVelocity(c, ready, input, dt).verticalVelocity;
    ResolveBounded(c, vy, vy * dt, outcome.correctedY, outcome.grounded);
  }

  /** Whatever the collisions, velocity, crouch and both timers stay in range. */
  lemma {:induction false} AlwaysBounded(
    c: Config, states: seq<PlayerState>, inputs: seq<Input>, outcomes: seq<Outcome>,
                                         dt: real, i: nat)
    requires ValidConfig(c) && dt > 0.0 && IsRun(c, states, inputs, outcomes, dt) && i <= |inputs|
    ensures Bounded(c, states[i])
  {
    if i == 0 {
    } else {
      assert states[i - 1 + 1] == Process(c, states[i - 1], inputs[i - 1], outcomes[i - 1], dt);
      AlwaysBounded(c, states, inputs, outcomes, dt, i - 1);
      ProcessBounded(c, states[i - 1], inputs[i - 1], outcomes[i - 1], dt);
    }
  }

  /** A jump held while rising is under its own gravity. */
  lemma HeldJumpIsLight(c: Config, vy: real)
    requires ValidConfig(c) && 0.0 < vy < c.jumpPower
    ensures GravityAcceleration(c, vy, true) == c.gravityJumpHold
  {
  }

  function LeastGravity(c: Config): real { Min(c.gravityJumpHold, Min(c.gravityFall, c.gravity)) }

  function MostGravity(c: Config): real { Max(c.gravityJumpHold, Max(c.gravityFall, c.gravity)) }

  lemma GravityIsBetween(c: Config, vy: real, jumpHeld: bool)
    requires ValidConfig(c)
    ensures LeastGravity(c) <= GravityAcceleration(c, vy, jumpHeld) <= MostGravity(c)
  {
    if jumpHeld && 0.0 < vy < c.jumpPower { HeldJumpIsLight(c, vy); } else { GravityBlends(c, vy, jumpHeld); }
  }

  /** In the air, unless a jump starts, a command lowers the velocity by what gravity
      takes in its time, down to the greatest fall speed. */
  lemma AirborneFalls(c: Config, s: PlayerState, input: Input, dt: real)
    requires ValidConfig(c) && dt > 0.0 && !s.grounded && !StartsJump(s, input)
    ensures var vy := ComputeVelocity(c, s, input, dt).verticalVelocity;
            && vy >= -c.maxFallSpeed
            && (vy == -c.maxFallSpeed
                || LeastGravity(c) * dt <= s.verticalVelocity - vy <= MostGravity(c) * dt)
  {
    var g := GravityAcceleration(c, s.verticalVelocity, input.jumpHeld);
    GravityIsBetween(c, s.verticalVelocity, input.jumpHeld);
    Product(g - LeastGravity(c), dt);
    Product(MostGravity(c) - g, dt);
    assert (g - LeastGravity(c)) * dt == g * dt - LeastGravity(c) * dt;
    assert (MostGravity(c) - g) * dt == MostGravity(c) * dt - g * dt;
  }

  /** A command that starts a jump leaves the ground at jump power, unless something
      is in the way. */
  lemma JumpLaunches(c: Config, s: PlayerState, input: Input, outcome: Outcome, dt: real)
    requires ValidConfig(c) && c.jumpPower > 0.0 && dt > 0.0 && StartsJump(s, input)
    ensures Process(c, s, input, outcome, dt).verticalVelocity
            == if outcome.correctedY < c.jumpPower * dt - 0.0001 then 0.0 else c.jumpPower
  {
  }

  /** What the collision does to the velocity: landing and any obstacle stop it,
      nothing else changes it. */
  lemma CollisionStopsExactly(s: PlayerState, outcome: Outcome, dt: real)
    ensures var vy := s.verticalVelocity;
            var blockedAbove := vy > 0.0 && outcome.correctedY < vy * dt - 0.0001;
            var blockedBelow := vy <= 0.0 && outcome.correctedY > vy * dt + 0.0001;
            var landed := vy <= 0.0 && outcome.grounded;
            && Collide(s, outcome, dt).verticalVelocity == (if blockedAbove || blockedBelow || landed then 0.0 else vy)
            && Collide(s, outcome, dt).grounded == outcome.grounded
  {
  }

  // ------------------------------------------------------------------ free fall

  /** The command moves the player as far as its velocity says, through the air. */
  predicate Unobstructed(c: Config, s: PlayerState, input: Input, outcome: Outcome, dt: real)
    requires ValidConfig(c)
  {
    && !s.grounded && !outcome.grounded && !StartsJump(s, input)
    && outcome.correctedY == ApplyGravity(c, s.verticalVelocity, input.jumpHeld, dt) * dt
  }

  ghost predicate FallsFree(c: Config, states: seq<PlayerState>, inputs: seq<Input>, outcomes: seq<Outcome>, dt: real,
                            k: nat)
    requires ValidConfig(c) && k < |inputs| && |outcomes| == |inputs| && |states| == |inputs| + 1
  {
    Unobstructed(c, states[k], inputs[k], outcomes[k], dt)
  }

  predicate EqualGravity(c: Config, g: real) { c.gravity == g && c.gravityFall == g && c.gravityJumpHold == g }

  lemma FreeStep(c: Config, s: PlayerState, input: Input, outcome: Outcome, dt: real, g: real)
    requires ValidConfig(c) && dt > 0.0 && EqualGravity(c, g) && Unobstructed(c, s, input, outcome, dt)
    ensures Process(c, s, input, outcome, dt).verticalVelocity == Max(s.verticalVelocity - g * dt, -c.maxFallSpeed)
  {
    GravityIsBetween(c, s.verticalVelocity, input.jumpHeld);
  }

  /** Free fall: after `n` unobstructed commands under one gravity the velocity has
      fallen by `n * g * dt`, or to the greatest fall speed. */
  lemma {:induction false} FreeFall(c: Config, states: seq<PlayerState>, inputs: seq<Input>, outcomes: seq<Outcome>,
                                    dt: real, i: nat, n: nat, g: real)
    requires ValidConfig(c) && dt > 0.0 && g > 0.0 && IsRun(c, states, inputs, outcomes, dt) && EqualGravity(c, g)
    requires i + n <= |inputs| && states[i].verticalVelocity >= -c.maxFallSpeed
    requires forall k: nat :: i <= k < i + n ==> FallsFree(c, states, inputs, outcomes, dt, k)
    ensures states[i + n].verticalVelocity == Max(states[i].verticalVelocity - Sum(n, g * dt), -c.maxFallSpeed)
    ensures Sum(n, g * dt) == n as real * (g * dt)
  {
    Product(g, dt);
    SumIsProduct(n, g * dt);
    if n == 0 {
    } else {
      var last := i + n - 1;
      FreeFall(c, states, inputs, outcomes, dt, i, n - 1, g);
      assert states[last + 1] == Process(c, states[last], inputs[last], outcomes[last], dt);
      assert FallsFree(c, states, inputs, outcomes, dt, last);
      FreeStep(c, states[last], inputs[last], outcomes[last], dt, g);
    }
  }

  // --------------------------------------------------------------------- timers

  lemma ProcessTimers(c: Config, s: PlayerState, input: Input, outcome: Outcome, dt: real)
    requires ValidConfig(c)
    ensures var s' := Process(c, s, input, outcome, dt);
            && s'.strafeGroundTime == (if s.grounded then Min(s.strafeGroundTime + dt, c.strafeGroundTimeMax) else 0.0)
            && s'.stunnedDuration
               == Max(s.stunnedDuration - (if s.grounded then dt * c.stunnedGroundFactor else dt), 0.0)
  {
    assert dt * 1.0 == dt;
  }

  /** Time on the ground adds up, to its limit; in the air it is gone. */
  lemma {:induction false} GroundTimeCounts(c: Config, states: seq<PlayerState>, inputs: seq<Input>,
                                            outcomes: seq<Outcome>, dt: real, i: nat, n: nat)
    requires ValidConfig(c) && dt > 0.0 && IsRun(c, states, inputs, outcomes, dt) && i + n <= |inputs|
    requires states[i].strafeGroundTime <= c.strafeGroundTimeMax
    requires forall k :: i <= k < i + n ==> states[k].grounded
    ensures states[i + n].strafeGroundTime == Min(states[i].strafeGroundTime + Sum(n, dt), c.strafeGroundTimeMax)
  {
    if n == 0 {
    } else {
      var last := i + n - 1;
      GroundTimeCounts(c, states, inputs, outcomes, dt, i, n - 1);
      SumIsProduct(n - 1, dt);
      assert states[last + 1] == Process(c, states[last], inputs[last], outcomes[last], dt);
      ProcessTimers(c, states[last], inputs[last], outcomes[last], dt);
    }
  }

  /** A stun wears off in its own time in the air, and `stunned_delta_ground_factor`
      times as fast on the ground. */
  lemma {:induction false} StunWearsOff(c: Config, states: seq<PlayerState>, inputs: seq<Input>, outcomes: seq<Outcome>,
                                        dt: real, i: nat, n: nat, grounded: bool)
    requires ValidConfig(c) && dt > 0.0 && IsRun(c, states, inputs, outcomes, dt) && i + n <= |inputs|
    requires states[i].stunnedDuration >= 0.0 && c.stunnedGroundFactor > 0.0
    requires forall k :: i <= k < i + n ==> states[k].grounded == grounded
    ensures var d := if grounded then dt * c.stunnedGroundFactor else dt;
            states[i + n].stunnedDuration == Max(states[i].stunnedDuration - Sum(n, d), 0.0)
  {
    if n == 0 {
    } else {
      var last := i + n - 1;
      StunWearsOff(c, states, inputs, outcomes, dt, i, n - 1, grounded);
      Product(dt, c.stunnedGroundFactor);
      assert states[last + 1] == Process(c, states[last], inputs[last], outcomes[last], dt);
      ProcessTimers(c, states[last], inputs[last], outcomes[last], dt);
    }
  }

  /** `amount` moved towards `target` by at most `d`. */
  function Toward(amount: real, target: real, d: real): real { amount + Clamp(target - amount, -d, d) }

  lemma TowardTwice(amount: real, target: real, first: real, second: real)
    requires first >= 0.0 && second >= 0.0
    ensures Toward(Toward(amount, target, first), target, second) == Toward(amount, target, first + second)
  {
  }

  function CrouchTarget(input: Input): real { if input.isCrouching then 1.0 else 0.0 }

  /** How far `t` of crouching or standing up can move. */
  function CrouchReach(c: Config, input: Input, t: real): (d: real)
    requires ValidConfig(c)
    ensures t > 0.0 ==> d > 0.0
  {
    (1.0 / (if input.isCrouching then c.crouchTimeDown else c.crouchTimeUp)) * t
  }

  /** Between 0 and 1 the rate is that of the direction asked for. */
  lemma CrouchIsToward(c: Config, s: PlayerState, input: Input, t: real)
    requires ValidConfig(c) && t > 0.0 && 0.0 <= s.crouchAmount <= 1.0
    ensures TickCrouch(c, s, input, t).crouchAmount
            == Toward(s.crouchAmount, CrouchTarget(input), CrouchReach(c, input, t))
  {
  }

  lemma ProcessCrouches(c: Config, s: PlayerState, input: Input, outcome: Outcome, dt: real, target: real, d: real)
    requires ValidConfig(c) && dt > 0.0 && 0.0 <= s.crouchAmount <= 1.0
    requires target == CrouchTarget(input) && d == CrouchReach(c, input, dt)
    ensures Process(c, s, input, outcome, dt).crouchAmount == Toward(s.crouchAmount, target, d)
  {
    CrouchIsToward(c, s, input, dt);
  }

  function Sum(n: nat, d: real): real { if n == 0 then 0.0 else Sum(n - 1, d) + d }

  lemma {:induction false} SumIsProduct(n: nat, d: real)
    requires d > 0.0
    ensures Sum(n, d) == n as real * d >= 0.0
  {
    if n == 0 {
    } else {
      SumIsProduct(n - 1, d);
    }
  }

  lemma {:induction false} CrouchAfter(
    c: Config, states: seq<PlayerState>, inputs: seq<Input>, outcomes: seq<Outcome>, dt: real, i: nat, n: nat,
    target: real, d: real)
    requires ValidConfig(c) && dt > 0.0 && IsRun(c, states, inputs, outcomes, dt)
    requires i + n <= |inputs| && d > 0.0
    requires forall k :: i <= k < i + n ==> target == CrouchTarget(inputs[k]) && d == CrouchReach(c, inputs[k], dt)
    ensures states[i + n].crouchAmount == Toward(states[i].crouchAmount, target, Sum(n, d))
  {
    if n == 0 {
    } else {
      var last := i + n - 1;
      assert states[last + 1] == Process(c, states[last], inputs[last], outcomes[last], dt);
      AlwaysBounded(c, states, inputs, outcomes, dt, last);
      ProcessCrouches(c, states[last], inputs[last], outcomes[last], dt, target, d);
      CrouchAfter(c, states, inputs, outcomes, dt, i, n - 1, target, d);
      SumIsProduct(n - 1, d);
      TowardTwice(states[i].crouchAmount, target, Sum(n - 1, d), d);
    }
  }

  /** Crouching depends on time only, not on how it is cut into ticks: `n`
      commands that agree on crouching move it as far as one of `n` times the
      length. */
  lemma CrouchIsTimeIndependent(
    c: Config, states: seq<PlayerState>, inputs: seq<Input>, outcomes: seq<Outcome>, dt: real, i: nat, n: nat)
    requires ValidConfig(c) && dt > 0.0 && IsRun(c, states, inputs, outcomes, dt)
    requires 0 < n && i + n <= |inputs|
    requires forall k :: i <= k < i + n ==> inputs[k].isCrouching == inputs[i].isCrouching
    ensures states[i + n].crouchAmount == TickCrouch(c, states[i], inputs[i], n as real * dt).crouchAmount
  {
    var d := CrouchReach(c, inputs[i], dt);
    CrouchAfter(c, states, inputs, outcomes, dt, i, n, CrouchTarget(inputs[i]), d);
    SumIsProduct(n, d);
    SumIsProduct(n, dt);
    assert CrouchReach(c, inputs[i], n as real * dt) == n as real * d;
    AlwaysBounded(c, states, inputs, outcomes, dt, i);
    CrouchIsToward(c, states[i], inputs[i], n as real * dt);
  }

  /** One jump per landing does not hold: a ground jump refills the coyote time
      on its own tick, so after a release a second jump starts in the air. */
  lemma SecondJumpInTheAir(c: Config, dt: real)
    requires ValidConfig(c) && 0.0 < dt < c.coyoteTime
    ensures var up := Outcome(false, 1.0);
            var s1 := Process(c, FreshState(), Input(true, true, false), up, dt);
            var s2 := Process(c, s1, Input(false, false, false), up, dt);
            && StartsJump(FreshState(), Input(true, true, false))
            && !s1.grounded && !s2.grounded && StartsJump(s2, Input(true, true, false))
  {
    var up := Outcome(false, 1.0);
    ProcessJumpState(c, FreshState(), Input(true, true, false), up, dt);
    var s1 := Process(c, FreshState(), Input(true, true, false), up, dt);
    ProcessJumpState(c, s1, Input(false, false, false), up, dt);
  }

  /** A jump from the ground at `m - 1`, and another at `j` in the same spell. */
  ghost predicate SecondJump(c: Config, states: seq<PlayerState>, inputs: seq<Input>, outcomes: seq<Outcome>, dt: real,
                             m: nat, j: nat)
    requires ValidConfig(c)
  {
    && IsRun(c, states, inputs, outcomes, dt) && j < |inputs| && Airborne(states, m, j)
    && Jumps(states, inputs, m - 1) && Jumps(states, inputs, j)
  }

  ghost predicate OneJumpPerLanding(c: Config, dt: real)
    requires ValidConfig(c)
  {
    forall states, inputs, outcomes, m: nat, j: nat :: !SecondJump(c, states, inputs, outcomes, dt, m, j)
  }

  /** One jump per landing holds, in all runs, exactly when the coyote time is at most
      one time step. */
  lemma OneJumpPerLandingExactly(c: Config, dt: real)
    requires ValidConfig(c) && dt > 0.0
    ensures OneJumpPerLanding(c, dt) <==> c.coyoteTime <= dt
  {
    if c.coyoteTime <= dt {
      forall states, inputs, outcomes, m: nat, j: nat ensures !SecondJump(c, states, inputs, outcomes, dt, m, j) {
        ShortCoyoteForbids(c, states, inputs, outcomes, dt, m, j);
      }
    } else {
      var states, inputs, outcomes := SecondJumpRun(c, dt);
    }
  }

  lemma ShortCoyoteForbids(c: Config, states: seq<PlayerState>, inputs: seq<Input>, outcomes: seq<Outcome>, dt: real,
                           m: nat, j: nat)
    requires ValidConfig(c) && dt > 0.0 && c.coyoteTime <= dt
    ensures !SecondJump(c, states, inputs, outcomes, dt, m, j)
  {
    if SecondJump(c, states, inputs, outcomes, dt, m, j) {
      JumpsOnlyAtOnce(c, states, inputs, outcomes, dt, m, j);
      JumpsNeedRelease(c, states, inputs, outcomes, dt, m - 1, j);
    }
  }

  /** A jump in the air is one on the very first airborne command. */
  lemma JumpsOnlyAtOnce(c: Config, states: seq<PlayerState>, inputs: seq<Input>, outcomes: seq<Outcome>, dt: real,
                        m: nat, j: nat)
    requires ValidConfig(c) && dt > 0.0 && c.coyoteTime <= dt && IsRun(c, states, inputs, outcomes, dt)
    requires j < |inputs| && Airborne(states, m, j) && Jumps(states, inputs, j)
    ensures j == m
  {
    LateJumpNeedsCoyote(c, states, inputs, outcomes, dt, m, j);
    AtLeastOneStep(j - m, dt);
  }

  lemma AtLeastOneStep(n: nat, dt: real)
    requires dt > 0.0
    ensures n >= 1 ==> n as real * dt >= dt
  {
    if n >= 1 {
      Product(n as real - 1.0, dt);
      assert (n as real - 1.0) * dt == n as real * dt - dt;
    }
  }

  /** Jump, release, jump again. */
  lemma SecondJumpRun(c: Config, dt: real)
    returns (states: seq<PlayerState>, inputs: seq<Input>, outcomes: seq<Outcome>)
    requires ValidConfig(c) && 0.0 < dt < c.coyoteTime
    ensures SecondJump(c, states, inputs, outcomes, dt, 1, 2)
  {
    var up := Outcome(false, 1.0);
    var press, release := Input(true, true, false), Input(false, false, false);
    SecondJumpInTheAir(c, dt);
    var s1 := Process(c, FreshState(), press, up, dt);
    var s2 := Process(c, s1, release, up, dt);
    states := [FreshState(), s1, s2, Process(c, s2, press, up, dt)];
    inputs, outcomes := [press, release, press], [up, up, up];
  }

  // -------------------------------------------------------------------- class

  class Player {
    const config: Config
    var verticalVelocity: real
    var grounded: bool
    var coyoteTime: real
    var jumpConsumed: bool
    var crouchAmount: real
    var lastCrouchAmount: real
    var crouchTarget: real
    var strafeGroundTime: real
    var stunnedDuration: real

    ghost function Value(): PlayerState
      reads this
    {
      PlayerState(verticalVelocity, grounded, coyoteTime, jumpConsumed, crouchAmount, lastCrouchAmount,
                  crouchTarget, strafeGroundTime, stunnedDuration)
    }

    constructor (config: Config)
      requires ValidConfig(config)
      ensures Value() == FreshState() && this.config == config
    {
      this.config := config;
      verticalVelocity, grounded, coyoteTime, jumpConsumed := 0.0, true, 0.0, false;
      crouchAmount, lastCrouchAmount, crouchTarget, strafeGroundTime, stunnedDuration := 0.0, 0.0, 0.0, 0.0, 0.0;
    }

    method ComputeVertical(input: Input, dt: real)
      requires ValidConfig(config)
      modifies this
      ensures Value() == ComputeVelocity(config, old(Value()), input, dt)
      ensures jumpConsumed == (input.wantsJump && (old(jumpConsumed) || old(grounded) || old(coyoteTime) > 0.0))
      ensures var jumps := jumpConsumed && !old(jumpConsumed);
              && (jumps ==> verticalVelocity == config.jumpPower)
              && (!jumps && old(grounded) ==> verticalVelocity == old(verticalVelocity))
              && coyoteTime == if old(grounded) then config.coyoteTime
                               else Max((if jumps then 0.0 else old(coyoteTime)) - dt, 0.0)
    {
      if !grounded {
        verticalVelocity := ApplyGravity(config, verticalVelocity, input.jumpHeld, dt);
      }
      var canJump := grounded || coyoteTime > 0.0;
      if input.wantsJump && canJump && !jumpConsumed {
        verticalVelocity := config.jumpPower;
        jumpConsumed := true;
        coyoteTime := 0.0;
      }
      if !input.wantsJump {
        jumpConsumed := false;
      }
      if grounded {
        coyoteTime := config.coyoteTime;
      } else {
        coyoteTime := Max(coyoteTime - dt, 0.0);
      }
    }

    method Crouch(input: Input, dt: real)
      requires ValidConfig(config)
      modifies this
      ensures Value() == TickCrouch(config, old(Value()), input, dt)
      ensures lastCrouchAmount == old(crouchAmount) && crouchTarget == if input.isCrouching then 1.0 else 0.0
    {
      lastCrouchAmount := crouchAmount;
      crouchTarget := if input.isCrouching then 1.0 else 0.0;
      var diff, maxChange := crouchTarget - crouchAmount, CrouchChange(config, crouchAmount, crouchTarget, dt);
      crouchAmount := crouchAmount + Clamp(diff, -maxChange, maxChange);
    }

    method ProcessCommand(input: Input, outcome: Outcome, dt: real)
      requires ValidConfig(config)
      modifies this
      ensures Value() == Process(config, old(Value()), input, outcome, dt)
    {
      Crouch(input, dt);
      var wasGrounded := grounded;
      CountGroundTime(wasGrounded, dt);
      ComputeVertical(input, dt);
      CollideWith(outcome, dt);
      CountStun(wasGrounded, dt);
    }

    method CountGroundTime(onGround: bool, dt: real)
      modifies `strafeGroundTime
      ensures Value() == TickStrafe(config, old(Value()), onGround, dt)
    {
      if onGround {
        strafeGroundTime := Min(strafeGroundTime + dt, config.strafeGroundTimeMax);
      } else {
        strafeGroundTime := 0.0;
      }
    }

    method CollideWith(outcome: Outcome, dt: real)
      modifies `grounded, `verticalVelocity
      ensures Value() == Collide(old(Value()), outcome, dt)
    {
      grounded := outcome.grounded;
      var vy := verticalVelocity;
      verticalVelocity := ResolveVertical(vy, vy * dt, outcome.correctedY, outcome.grounded);
    }

    method CountStun(onGround: bool, dt: real)
      modifies `stunnedDuration
      ensures Value() == TickStun(config, old(Value()), onGround, dt)
    {
      stunnedDuration := Max(stunnedDuration - dt * (if onGround then config.stunnedGroundFactor else 1.0), 0.0);
    }
  }
}
