/** Entities and how their state goes onto the wire and comes back off it.

    Coordinates, velocities and orientations are reals. Velocity, orientation and
    animation time are quantised; `normalize` of a decoded orientation is not part
    of this model. */
module Entities {
  import opened Serial
  import opened Protocol

  /** The entity types by their wire numbers: player, projectile, item, static,
      trigger, dynamic prop. */
  type EntityType = t: int | 0 <= t <= 5

  const PLAYER: EntityType := 0
  const STATIC: EntityType := 3

  datatype Quat = Quat(x: real, y: real, z: real, w: real)

  datatype Entity = Entity(
    id: EntityId,
    entityType: EntityType,
    position: Vec3,
    velocity: Vec3,
    orientation: Quat,
    animationState: u8,
    animationTime: real,
    flags: u16,
    dirty: bool)

  function NewEntity(id: EntityId, entityType: EntityType, position: Vec3): Entity {
    Entity(id, entityType, position, ORIGIN, Quat(0.0, 0.0, 0.0, 1.0), 0, 0.0, 0, true)
  }

  // ------------------------------------------------------------- quantisation

  const VELOCITY_SCALE: real := 100.0
  const ORIENTATION_SCALE: real := 32767.0
  const FRAME_SCALE: real := 255.0
  const MAX_VELOCITY: real := 327.67

  /** A cast to an integer: towards zero. */
  function Truncate(x: real): int { if x >= 0.0 then x.Floor else -((-x).Floor) }

  function Limit(x: real, max: real): real { if x < -max then -max else if x > max then max else x }

  function Quantise(x: real, max: real, scale: real): int { Truncate(Limit(x, max) * scale) }

  /** The fraction of the animation that has passed, in 255 steps; a cast to `u8`
      saturates. */
  function Frame(time: real): u8 {
    var steps := Truncate((time - Truncate(time) as real) * FRAME_SCALE);
    if steps < 0 then 0 else if steps > 255 then 255 else steps
  }

  function QuantisedVelocity(v: Vec3): (int, int, int) {
    (Quantise(v.x, MAX_VELOCITY, VELOCITY_SCALE), Quantise(v.y, MAX_VELOCITY, VELOCITY_SCALE),
     Quantise(v.z, MAX_VELOCITY, VELOCITY_SCALE))
  }

  function QuantisedOrientation(q: Quat): (int, int, int, int) {
    (Quantise(q.x, 1.0, ORIENTATION_SCALE), Quantise(q.y, 1.0, ORIENTATION_SCALE),
     Quantise(q.z, 1.0, ORIENTATION_SCALE), Quantise(q.w, 1.0, ORIENTATION_SCALE))
  }

  function ToNetworkState(e: Entity): EntityState {
    EntityState(e.id, e.entityType, e.position, QuantisedVelocity(e.velocity), QuantisedOrientation(e.orientation),
                e.animationState, Frame(e.animationTime), e.flags)
  }

  /** An unknown type is taken for a static entity. */
  function FromNetworkState(s: EntityState): Entity {
    var v, q := s.velocity, s.orientation;
    Entity(s.entityId, if s.entityType <= 5 then s.entityType else STATIC, s.position,
           Vec3(v.0 as real / VELOCITY_SCALE, v.1 as real / VELOCITY_SCALE, v.2 as real / VELOCITY_SCALE),
           Quat(q.0 as real / ORIENTATION_SCALE, q.1 as real / ORIENTATION_SCALE, q.2 as real / ORIENTATION_SCALE,
                q.3 as real / ORIENTATION_SCALE),
           s.animationState, s.animationFrame as real / FRAME_SCALE, s.flags, false)
  }

  predicate Near(x: real, y: real, error: real) { -error < x - y < error }

  lemma TruncateIsNear(x: real)
    ensures Near(Truncate(x) as real, x, 1.0)
    ensures x >= 0.0 ==> 0.0 <= Truncate(x) as real <= x
  {
  }

  lemma TruncateInt(n: int)
    ensures Truncate(n as real) == n
  {
  }

  /** One component within its limit comes back within one step. */
  lemma QuantiseIsNear(x: real, max: real, scale: real)
    requires -max <= x <= max && scale > 0.0
    ensures Near(Quantise(x, max, scale) as real / scale, x, 1.0 / scale)
  {
    var n := Quantise(x, max, scale) as real;
    TruncateIsNear(x * scale);
    Rescale(n, x, scale);
  }

  lemma Rescale(n: real, x: real, scale: real)
    requires scale > 0.0 && Near(n, x * scale, 1.0)
    ensures Near(n / scale, x, 1.0 / scale)
  {
    var y, step := n / scale, 1.0 / scale;
    assert y * scale == n && step * scale == 1.0;
    if y - x >= step { Monotone(step, y - x, scale); }
    if x - y >= step { Monotone(step, x - y, scale); }
  }

  lemma Monotone(a: real, b: real, scale: real)
    requires a <= b && scale > 0.0
    ensures a * scale <= b * scale
  {
    assert (b - a) * scale >= 0.0;
  }

  /** And a component that came off the wire goes back unchanged. */
  lemma QuantiseAgain(n: int, max: real, scale: real)
    requires scale > 0.0 && -max * scale <= n as real <= max * scale
    ensures Quantise(n as real / scale, max, scale) == n
  {
    var x := n as real / scale;
    assert x * scale == n as real;
    if x > max { Monotone(max, x, scale); }
    if x < -max { Monotone(x, -max, scale); }
    TruncateInt(n);
  }

  /** What fits the wire: velocity and orientation within their limits, and a frame
      that some animation time has. */
  predicate OnWire(s: EntityState) {
    var v, q := s.velocity, s.orientation;
    && s.entityType <= 5 && s.animationFrame < 255
    && -32767 <= v.0 <= 32767 && -32767 <= v.1 <= 32767 && -32767 <= v.2 <= 32767
    && -32767 <= q.0 <= 32767 && -32767 <= q.1 <= 32767 && -32767 <= q.2 <= 32767 && -32767 <= q.3 <= 32767
  }

  lemma FrameAgain(f: u8)
    ensures Frame(f as real / FRAME_SCALE) == if f < 255 then f else 0
  {
    var time := f as real / FRAME_SCALE;
    assert time * FRAME_SCALE == f as real;
    TruncateInt(f);
  }

  /** The 16-bit numbers the components are sent as. */
  predicate HasShorts(s: EntityState) {
    var v, q := s.velocity, s.orientation;
    && -32768 <= v.0 <= 32767 && -32768 <= v.1 <= 32767 && -32768 <= v.2 <= 32767
    && -32768 <= q.0 <= 32767 && -32768 <= q.1 <= 32767 && -32768 <= q.2 <= 32767 && -32768 <= q.3 <= 32767
  }

  lemma ShortAgain(n: int)
    requires -32768 <= n <= 32767
    ensures Quantise(n as real / VELOCITY_SCALE, MAX_VELOCITY, VELOCITY_SCALE) == if n == -32768 then -32767 else n
    ensures Quantise(n as real / ORIENTATION_SCALE, 1.0, ORIENTATION_SCALE) == if n == -32768 then -32767 else n
  {
    if n == -32768 {
      TruncateInt(-32767);
      QuantiseFits(n as real / VELOCITY_SCALE, MAX_VELOCITY, VELOCITY_SCALE);
      QuantiseFits(n as real / ORIENTATION_SCALE, 1.0, ORIENTATION_SCALE);
    } else {
      QuantiseAgain(n, MAX_VELOCITY, VELOCITY_SCALE);
      QuantiseAgain(n, 1.0, ORIENTATION_SCALE);
    }
  }

  /** A state off the wire, decoded and encoded again, is the same exactly if it fits:
      a type above 5, frame 255 or a component of -32768 does not come back. */
  lemma WireRoundTrip(s: EntityState)
    requires HasShorts(s)
    ensures ToNetworkState(FromNetworkState(s)) == s <==> OnWire(s)
  {
    var v, q := s.velocity, s.orientation;
    ShortAgain(v.0);
    ShortAgain(v.1);
    ShortAgain(v.2);
    ShortAgain(q.0);
    ShortAgain(q.1);
    ShortAgain(q.2);
    ShortAgain(q.3);
    FrameAgain(s.animationFrame);
  }

  predicate VelocityInRange(v: Vec3) {
    -MAX_VELOCITY <= v.x <= MAX_VELOCITY && -MAX_VELOCITY <= v.y <= MAX_VELOCITY && -MAX_VELOCITY <= v.z <= MAX_VELOCITY
  }

  predicate OrientationInRange(q: Quat) {
    -1.0 <= q.x <= 1.0 && -1.0 <= q.y <= 1.0 && -1.0 <= q.z <= 1.0 && -1.0 <= q.w <= 1.0
  }

  predicate ReadsVelocity(s: (int, int, int), v: Vec3) {
    VelocityInRange(v) ==>
      && Near(s.0 as real / VELOCITY_SCALE, v.x, 1.0 / VELOCITY_SCALE)
      && Near(s.1 as real / VELOCITY_SCALE, v.y, 1.0 / VELOCITY_SCALE)
      && Near(s.2 as real / VELOCITY_SCALE, v.z, 1.0 / VELOCITY_SCALE)
  }

  predicate ReadsOrientation(s: (int, int, int, int), q: Quat) {
    OrientationInRange(q) ==>
      && Near(s.0 as real / ORIENTATION_SCALE, q.x, 1.0 / ORIENTATION_SCALE)
      && Near(s.1 as real / ORIENTATION_SCALE, q.y, 1.0 / ORIENTATION_SCALE)
      && Near(s.2 as real / ORIENTATION_SCALE, q.z, 1.0 / ORIENTATION_SCALE)
      && Near(s.3 as real / ORIENTATION_SCALE, q.w, 1.0 / ORIENTATION_SCALE)
  }

  predicate ReadsTime(frame: u8, time: real) {
    if time < 0.0 then frame == 0 else Near(frame as real / FRAME_SCALE, time - time.Floor as real, 1.0 / FRAME_SCALE)
  }

  /** What a state says about an entity: everything discrete and the position as they
      are, velocity within a hundredth, orientation within one part in 32767, and the
      animation within one frame, the first one before its start. */
  predicate Reads(s: EntityState, e: Entity) {
    && s.entityId == e.id && s.entityType == e.entityType && s.position == e.position
    && s.animationState == e.animationState && s.flags == e.flags
    && ReadsVelocity(s.velocity, e.velocity)
    && ReadsOrientation(s.orientation, e.orientation)
    && ReadsTime(s.animationFrame, e.animationTime)
  }

  lemma VelocityReads(v: Vec3)
    ensures ReadsVelocity(QuantisedVelocity(v), v)
  {
    if VelocityInRange(v) {
      QuantiseIsNear(v.x, MAX_VELOCITY, VELOCITY_SCALE);
      QuantiseIsNear(v.y, MAX_VELOCITY, VELOCITY_SCALE);
      QuantiseIsNear(v.z, MAX_VELOCITY, VELOCITY_SCALE);
    }
  }

  lemma OrientationReads(q: Quat)
    ensures ReadsOrientation(QuantisedOrientation(q), q)
  {
    if OrientationInRange(q) {
      QuantiseIsNear(q.x, 1.0, ORIENTATION_SCALE);
      QuantiseIsNear(q.y, 1.0, ORIENTATION_SCALE);
      QuantiseIsNear(q.z, 1.0, ORIENTATION_SCALE);
      QuantiseIsNear(q.w, 1.0, ORIENTATION_SCALE);
    }
  }

  lemma TimeReads(time: real)
    ensures ReadsTime(Frame(time), time)
  {
    if time < 0.0 {
      NegativeFrame(time);
    } else {
      var part := time - time.Floor as real;
      TruncateIsNear(part * FRAME_SCALE);
      Rescale(Frame(time) as real, part, FRAME_SCALE);
    }
  }

  lemma NegativeFrame(time: real)
    requires time < 0.0
    ensures Frame(time) == 0
  {
    var part := time - Truncate(time) as real;
    assert -1.0 < part <= 0.0;
    Monotone(part, 0.0, FRAME_SCALE);
  }

  lemma EncodingReads(e: Entity)
    ensures Reads(ToNetworkState(e), e)
  {
    VelocityReads(e.velocity);
    OrientationReads(e.orientation);
    TimeReads(e.animationTime);
  }

  /** The round trip the other way: what is decoded is the entity up to those steps,
      with nothing left to send. */
  lemma DecodedIsClose(e: Entity)
    ensures var r := FromNetworkState(ToNetworkState(e));
            && r == e.(velocity := r.velocity, orientation := r.orientation, animationTime := r.animationTime,
                       dirty := false)
            && (VelocityInRange(e.velocity) ==>
                  Near(r.velocity.x, e.velocity.x, 0.01) && Near(r.velocity.y, e.velocity.y, 0.01)
                  && Near(r.velocity.z, e.velocity.z, 0.01))
            && (OrientationInRange(e.orientation) ==>
                  Near(r.orientation.x, e.orientation.x, 1.0 / 32767.0)
                  && Near(r.orientation.y, e.orientation.y, 1.0 / 32767.0)
                  && Near(r.orientation.z, e.orientation.z, 1.0 / 32767.0)
                  && Near(r.orientation.w, e.orientation.w, 1.0 / 32767.0))
            && (if e.animationTime < 0.0 then r.animationTime == 0.0
                else Near(r.animationTime, e.animationTime - e.animationTime.Floor as real, 1.0 / 255.0))
  {
    EncodingReads(e);
  }

  /** Whatever the value, its quantised form stays within the limit, and reaches it
      when the value is beyond. */
  lemma QuantiseFits(x: real, max: real, scale: real)
    requires max > 0.0 && scale > 0.0
    ensures Truncate(-max * scale) <= Quantise(x, max, scale) <= Truncate(max * scale)
    ensures x >= max ==> Quantise(x, max, scale) == Truncate(max * scale)
    ensures x <= -max ==> Quantise(x, max, scale) == Truncate(-max * scale)
  {
    ScaledFits(Limit(x, max), max, scale);
  }

  lemma ScaledFits(limited: real, max: real, scale: real)
    requires scale > 0.0 && -max <= limited <= max
    ensures Truncate(-max * scale) <= Truncate(limited * scale) <= Truncate(max * scale)
  {
    Monotone(-max, limited, scale);
    Monotone(limited, max, scale);
    TruncateMonotone(-max * scale, limited * scale);
    TruncateMonotone(limited * scale, max * scale);
  }

  lemma TruncateMonotone(x: real, y: real)
    requires x <= y
    ensures Truncate(x) <= Truncate(y)
  {
  }

  lemma ComponentsFit(x: real)
    ensures -32767 <= Quantise(x, MAX_VELOCITY, VELOCITY_SCALE) <= 32767
    ensures -32767 <= Quantise(x, 1.0, ORIENTATION_SCALE) <= 32767
  {
    QuantiseFits(x, MAX_VELOCITY, VELOCITY_SCALE);
    QuantiseFits(x, 1.0, ORIENTATION_SCALE);
    TruncateInt(32767);
    TruncateInt(-32767);
    assert MAX_VELOCITY * VELOCITY_SCALE == 32767.0;
  }

  /** Every entity fits the wire, so encoding what was decoded changes nothing. */
  lemma EncodingIsStable(e: Entity)
    ensures OnWire(ToNetworkState(e))
    ensures ToNetworkState(FromNetworkState(ToNetworkState(e))) == ToNetworkState(e)
  {
    ComponentsFit(e.velocity.x);
    ComponentsFit(e.velocity.y);
    ComponentsFit(e.velocity.z);
    ComponentsFit(e.orientation.x);
    ComponentsFit(e.orientation.y);
    ComponentsFit(e.orientation.z);
    ComponentsFit(e.orientation.w);
    FrameFits(e.animationTime);
    WireRoundTrip(ToNetworkState(e));
  }

  lemma FrameFits(time: real)
    ensures Frame(time) < 255
  {
    if time < 0.0 {
      NegativeFrame(time);
    } else {
      var part := time - time.Floor as real;
      TruncateIsNear(part * FRAME_SCALE);
    }
  }
}
