/** A teleporter: a player entering its trigger is moved to the destination with
    its velocity scaled, then cannot be teleported again for one second. */
module TeleportController {
  import opened Common
  import opened PlayerController
  import opened Contacts

  /** Seconds during which a teleported player cannot be teleported again. */
  const TeleportCooldown: real := 1.0

  /** The teleporter rule for the player state `s` of the entering player. */
  function TeleportStep(s: PlayerState, destination: Option<Vec>, multiplier: Vec, now: real): PlayerState
  {
    if destination.None? || now < s.effects.teleportableAfter then s
    else
      s.(motion := s.motion.(position := destination.value, velocity := Scale(s.motion.velocity, multiplier)),
         effects := s.effects.(teleportableAfter := now + TeleportCooldown))
  }

  /** A teleport happens exactly when there is a destination and the player's
      cooldown is over; it moves the player there, scales its velocity, starts the
      cooldown and changes nothing else. */
  lemma TeleportStepSpec(s: PlayerState, destination: Option<Vec>, multiplier: Vec, now: real)
    ensures var r := TeleportStep(s, destination, multiplier, now);
      if destination.Some? && s.effects.teleportableAfter <= now then
        && r.motion.position == destination.value
        && r.motion.velocity == Vec(s.motion.velocity.x * multiplier.x, s.motion.velocity.y * multiplier.y)
        && r.effects.teleportableAfter == now + 1.0
        && r == s.(motion := r.motion, effects := r.effects)
        && r.motion == s.motion.(position := r.motion.position, velocity := r.motion.velocity)
        && r.effects == s.effects.(teleportableAfter := r.effects.teleportableAfter)
      else r == s
  {
  }

  /** After a teleport, any teleporter the player reaches within the cooldown
      leaves it where it is. */
  lemma NoTeleportWithinCooldown(s: PlayerState, d1: Option<Vec>, m1: Vec, t1: real,
                                 d2: Option<Vec>, m2: Vec, t2: real)
    requires d1.Some? && s.effects.teleportableAfter <= t1
    requires t2 < t1 + TeleportCooldown
    ensures var r := TeleportStep(s, d1, m1, t1); TeleportStep(r, d2, m2, t2) == r
  {
  }

  /** With the default multiplier of (1, 1) the player keeps its velocity. */
  lemma UnitMultiplierKeepsVelocity(s: PlayerState, d: Option<Vec>, now: real)
    ensures TeleportStep(s, d, Vec(1.0, 1.0), now).motion.velocity == s.motion.velocity
  {
  }

  class TeleportController {
    var destination: Option<Vec>
    const xMultiplier: real
    const yMultiplier: real
    var multiplier: Vec

    /** The configured axes become the velocity multiplier (Awake). */
    constructor (destination: Option<Vec>, xMultiplier: real, yMultiplier: real)
      ensures this.destination == destination
      ensures this.xMultiplier == xMultiplier && this.yMultiplier == yMultiplier
      ensures multiplier == Vec(xMultiplier, yMultiplier)
    {
      this.destination := destination;
      this.xMultiplier := xMultiplier;
      this.yMultiplier := yMultiplier;
      multiplier := Vec(xMultiplier, yMultiplier);
    }

    /** The teleporter's trigger: only a player's own collider counts. */
    method OnTriggerEnter2D(other: Collider, now: real)
      modifies other.own
      ensures other.own != null ==>
                other.own.State() == TeleportStep(old(other.own.State()), destination, multiplier, now)
    {
      if destination.None? { return; }

      var player := other.own;
      if player == null { return; }
      if now < player.teleportableAfter { return; }

      var position := destination.value;
      player.Teleport(position, multiplier);

      player.teleportableAfter := now + TeleportCooldown;
    }
  }
}
