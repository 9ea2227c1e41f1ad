/** The drop trigger shape: a dropping player that lands on the ground ends its
    drop (with a self-stun unless flipped), and one that lands on another player
    stuns that player and, as catcher, passes the role on. */
module PlayerDrop {
  import opened PlayerController
  import opened Contacts
  import opened PlayerCatch

  /** The drop shape touching an object that is not a player. */
  function DropOnGeometry(me: PlayerState, name: string, grounded: bool, now: real): PlayerState
  {
    if !me.drop.isDropping || !grounded || name == "Level" || name == "GameArea" then me
    else
      var ended := me.(drop := me.drop.(isDropping := false));
      if now < me.effects.hrzFlippedUntil || now < me.effects.vrtFlippedUntil then ended
      else ended.(effects := ended.effects.(stunnedUntil := now + 0.4 * DropStunPeriod))
  }

  /** The drop shape touching another player: the drop ends, an unstunned player
      is stunned, and a dropping catcher passes the role to a catchable player. */
  function DropOnPlayer(me: PlayerState, other: PlayerState, now: real): (PlayerState, PlayerState)
  {
    if !me.drop.isDropping then (me, other)
    else
      var me1 := me.(drop := me.drop.(isDropping := false));
      var other1 :=
        if other.effects.stunnedUntil < now
        then other.(effects := other.effects.(stunnedUntil := now + 1.1 * DropStunPeriod))
        else other;
      if me1.role.isCatcher && CanBeCaught(other1, now, false) then (Demoted(me1, now), Promoted(other1))
      else (me1, other1)
  }

  /** On geometry the drop ends exactly when the player is grounded and the object
      is neither the level nor the arena; the self-stun is skipped while flipped;
      nothing but the drop flag and the stun changes. */
  lemma DropOnGeometrySpec(me: PlayerState, name: string, grounded: bool, now: real)
    requires me.drop.isDropping
    ensures var r := DropOnGeometry(me, name, grounded, now);
      var ends := grounded && name != "Level" && name != "GameArea";
      var flipped := now < me.effects.hrzFlippedUntil || now < me.effects.vrtFlippedUntil;
      && (r.drop.isDropping <==> !ends)
      && r.effects.stunnedUntil == (if ends && !flipped then now + 0.4 * DropStunPeriod else me.effects.stunnedUntil)
      && r == me.(drop := r.drop, effects := me.effects.(stunnedUntil := r.effects.stunnedUntil))
      && r.drop.droppableAfter == me.drop.droppableAfter
  {
  }

  /** A player that is not dropping ignores every contact of its drop shape. */
  lemma NotDroppingIgnoresContacts(me: PlayerState, other: PlayerState, name: string, grounded: bool, now: real)
    requires !me.drop.isDropping
    ensures DropOnGeometry(me, name, grounded, now) == me
    ensures DropOnPlayer(me, other, now) == (me, other)
  {
  }

  /** On another player the drop always ends, an existing stun is never extended,
      an expired one is renewed, and the role is passed exactly when the dropper is
      catcher and the other player can be caught once stunned. */
  lemma DropOnPlayerSpec(me: PlayerState, other: PlayerState, now: real)
    requires me.drop.isDropping
    ensures var (a, b) := DropOnPlayer(me, other, now);
      && !a.drop.isDropping
      && (now <= other.effects.stunnedUntil ==> b.effects.stunnedUntil == other.effects.stunnedUntil)
      && (other.effects.stunnedUntil < now ==> b.effects.stunnedUntil == now + 1.1 * DropStunPeriod)
      && b.effects.stunnedUntil >= other.effects.stunnedUntil
      && a.effects == me.effects
      && (b.role.isCatcher <==> other.role.isCatcher || (me.role.isCatcher && CanBeCaught(other, now, false)))
      && (a.role.isCatcher <==> me.role.isCatcher && !CanBeCaught(other, now, false))
      && (me.role.isCatcher && CanBeCaught(other, now, false) ==>
            a.role == Role(false, now + CatchGrace, me.config.defaultMaxSpeed)
            && b.role == other.role.(isCatcher := true, maxSpeed := other.config.defaultMaxSpeed + 1.0))
      && (!(me.role.isCatcher && CanBeCaught(other, now, false)) ==> a.role == me.role && b.role == other.role)
      && a == me.(drop := me.drop.(isDropping := false), role := a.role)
      && b == other.(effects := other.effects.(stunnedUntil := b.effects.stunnedUntil), role := b.role)
  {
  }

  /** Between a catcher and a runner, the drop rule keeps exactly one of them catcher. */
  lemma DropOnPlayerKeepsRoles(me: PlayerState, other: PlayerState, now: real)
    requires me.role.isCatcher != other.role.isCatcher
    ensures var (a, b) := DropOnPlayer(me, other, now); a.role.isCatcher != b.role.isCatcher
  {
  }

  /** The geometry branch of the drop handler, for a dropping player. */
  method DropIntoGeometry(player: Player, name: string, grounded: bool, now: real)
    requires player.isDropping
    modifies player
    ensures player.State() == DropOnGeometry(old(player.State()), name, grounded, now)
  {
    if grounded == false { return; }
    if name == "Level" { return; }
    if name == "GameArea" { return; }

    player.isDropping := false;

    if now < player.hrzFlippedUntil || now < player.vrtFlippedUntil { return; }

    player.stunnedUntil := now + 0.4 * DropStunPeriod;
  }

  /** The player branch of the drop handler, for a dropping player. */
  method DropOntoPlayer(player: Player, otherPlayer: Player, now: real, ghost ps: seq<Player>)
    requires player.isDropping && otherPlayer != player
    modifies player, otherPlayer
    ensures player.State() == DropOnPlayer(old(player.State()), old(otherPlayer.State()), now).0
    ensures otherPlayer.State() == DropOnPlayer(old(player.State()), old(otherPlayer.State()), now).1
    ensures player in ps && otherPlayer in ps && old(ExactlyOneCatcher(ps)) ==> ExactlyOneCatcher(ps)
  {
    player.isDropping := false;
    if otherPlayer.stunnedUntil < now {
      otherPlayer.stunnedUntil := now + 1.1 * DropStunPeriod;
    }

    if player.isCatcher && CanBeCaught(otherPlayer.State(), now, false) {
      otherPlayer.MakeCatcher(player, now);
    }
  }

  /** The drop handler of `player`'s drop shape touching `other`, while the player
      is `grounded` or not. Colliders of one body never report contacts with each
      other, so a touched player is never the owner. */
  method OnTriggerStay2D(player: Player, other: Collider, grounded: bool, now: real, ghost ps: seq<Player>)
    requires GetOtherPlayer(other) != player
    modifies player, GetOtherPlayer(other)
    ensures GetOtherPlayer(other) == null ==>
              player.State() == DropOnGeometry(old(player.State()), other.name, grounded, now)
    ensures GetOtherPlayer(other) != null ==>
              player.State() == DropOnPlayer(old(player.State()), old(GetOtherPlayer(other).State()), now).0
    ensures GetOtherPlayer(other) != null ==>
              GetOtherPlayer(other).State() == DropOnPlayer(old(player.State()), old(GetOtherPlayer(other).State()), now).1
    ensures player in ps && (GetOtherPlayer(other) != null ==> GetOtherPlayer(other) in ps) && old(ExactlyOneCatcher(ps)) ==>
              ExactlyOneCatcher(ps)
  {
    if player.isDropping == false { return; }

    var otherPlayer := GetOtherPlayer(other);
    if otherPlayer == null {
      DropIntoGeometry(player, other.name, grounded, now);
      return;
    }

    DropOntoPlayer(player, otherPlayer, now, ps);
  }
}
