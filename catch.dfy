/** The catcher's trigger shape: a catcher who is not stunned passes the role to
    any catchable player the shape touches. */
module PlayerCatch {
  import opened PlayerController
  import opened Contacts

  /** Whether a player may be caught now: the grace window after losing the role
      must be over, and a dropping player is safe unless dropping is ignored. */
  predicate CanBeCaught(s: PlayerState, now: real, ignoreIsDropping: bool)
  {
    if now <= s.role.catchableAfter then false
    else if !ignoreIsDropping && s.drop.isDropping then false
    else true
  }

  /** The catch rule between the shape's owner and the player it touches. */
  function CatchContact(catcher: PlayerState, other: PlayerState, now: real): (PlayerState, PlayerState)
  {
    if !catcher.role.isCatcher then (catcher, other)
    else if now < catcher.effects.stunnedUntil then (catcher, other)
    else if CanBeCaught(other, now, false) then (Demoted(catcher, now), Promoted(other))
    else (catcher, other)
  }

  /** CanBeCaught as the policy it implements. */
  lemma CanBeCaughtPolicy(s: PlayerState, now: real, ignoreIsDropping: bool)
    ensures CanBeCaught(s, now, ignoreIsDropping) <==>
              s.role.catchableAfter < now && (ignoreIsDropping || !s.drop.isDropping)
    ensures CanBeCaught(s, now, false) ==> CanBeCaught(s, now, true)
  {
  }

  /** A former catcher cannot be caught back during its grace window. */
  lemma NoCatchBackWithinGrace(former: PlayerState, caughtAt: real, now: real, ignoreIsDropping: bool)
    requires now <= caughtAt + CatchGrace
    ensures !CanBeCaught(Demoted(former, caughtAt), now, ignoreIsDropping)
  {
  }

  /** The collision-time transfer test of the player body is CanBeCaught with
      dropping not ignored. */
  lemma CollisionTestIsCanBeCaught(s: PlayerState, now: real)
    ensures (s.role.catchableAfter < now && !s.drop.isDropping) <==> CanBeCaught(s, now, false)
  {
  }

  /** The catch rule transfers the role exactly when the owner is a catcher who is
      not stunned and the other player can be caught; otherwise nothing changes.
      After a transfer the new catcher is faster and the former catcher has a
      grace window and its default speed. */
  lemma CatchContactSpec(catcher: PlayerState, other: PlayerState, now: real)
    ensures var (a, b) := CatchContact(catcher, other, now);
      var transfer := catcher.role.isCatcher && now >= catcher.effects.stunnedUntil
                      && other.role.catchableAfter < now && !other.drop.isDropping;
      && (transfer ==> !a.role.isCatcher && b.role.isCatcher
                       && a.role.catchableAfter == now + CatchGrace
                       && a.role.maxSpeed == catcher.config.defaultMaxSpeed
                       && b.role.maxSpeed == other.config.defaultMaxSpeed + 1.0
                       && a.effects == catcher.effects && b.effects == other.effects
                       && a.drop == catcher.drop && b.drop == other.drop)
      && (!transfer ==> a == catcher && b == other)
      && a == catcher.(role := a.role) && b == other.(role := b.role)
      && b.role.catchableAfter == other.role.catchableAfter
  {
  }

  /** At the very instant a catcher's stun ends, the body collision still refuses
      the transfer (it needs the stun strictly over) while the catch trigger
      already makes it (it refuses only while the stun lasts). */
  lemma StunEndSplitsTheRules(catcher: PlayerState, other: PlayerState, now: real)
    requires catcher.role.isCatcher && !catcher.drop.isDropping && catcher.effects.stunnedUntil == now
    requires CanBeCaught(other, now, false)
    ensures CollisionContact(catcher, other, now) == (catcher, other)
    ensures CatchContact(catcher, other, now) == (Demoted(catcher, now), Promoted(other))
    ensures CatchContact(catcher, other, now).1.role.isCatcher
  {
  }

  /** The catch handler of `player`'s trigger shape touching `other`. Colliders of
      one body never report contacts with each other, so the touched player is
      never the owner. */
  method OnTriggerStay2D(player: Player, other: Collider, now: real, ghost ps: seq<Player>)
    requires GetOtherPlayer(other) != player
    modifies player, GetOtherPlayer(other)
    ensures GetOtherPlayer(other) == null ==> player.State() == old(player.State())
    ensures GetOtherPlayer(other) != null ==>
              player.State() == CatchContact(old(player.State()), old(GetOtherPlayer(other).State()), now).0
    ensures GetOtherPlayer(other) != null ==>
              GetOtherPlayer(other).State() == CatchContact(old(player.State()), old(GetOtherPlayer(other).State()), now).1
    ensures player in ps && (GetOtherPlayer(other) != null ==> GetOtherPlayer(other) in ps) && old(ExactlyOneCatcher(ps)) ==>
              ExactlyOneCatcher(ps)
  {
    if player.isCatcher == false { return; }
    if now < player.stunnedUntil { return; }

    var otherPlayer := GetOtherPlayer(other);
    if otherPlayer == null { return; }

    if CanBeCaught(otherPlayer.State(), now, false) {
      otherPlayer.MakeCatcher(player, now);
    }
  }
}
