/** The per-player rules of the tag game (PlayerController): horizontal intent,
    the jump state machine, the start of a drop (ground-pound), the catcher
    handoff and the collision-time catch/drop rule.

    Time is the explicit parameter `now`; the grounded flag and the contact lists
    come from the physics layer and are inputs here.  The rules are stated as
    functions on `PlayerState`, a snapshot of every mutable field of a player;
    the class `Player` holds those fields and its methods are proved to update
    them exactly as the functions say. */
module PlayerController {
  import opened Common

  datatype JumpState = Grounded | PrepareToJump | Jumping | InFlight | Landed

  /** Dead zone of the input axes and of the stopping ramp. */
  const Minimum: real := 0.01
  /** Base stun period; the drop lockout, drop stuns and token stuns are multiples of it. */
  const DropStunPeriod: real := 2.5
  /** Vertical input above this starts a jump, below its negation a drop. */
  const AxisThreshold: real := 0.2
  /** Time after a jump before the next jump input is accepted. */
  const JumpCooldown: real := 0.25
  /** Jumps the catcher may start before landing again. */
  const CatcherJumpSteps: int := 3
  /** Time during which a player that lost the catcher role cannot be caught. */
  const CatchGrace: real := 4.0

  /** Configuration of a player, fixed when it is created. */
  datatype Config = Config(defaultMaxSpeed: real, defaultJumpTakeOffSpeed: real, defaultHrzAcc: real)

  /** The jump state machine's fields. */
  datatype Jumper = Jumper(jumpState: JumpState, jump: bool, stopJump: bool,
                           jumpStepCount: int, jumpableAfter: real)

  /** The timed effects ("active until" timestamps) and the flip flags. */
  datatype Effects = Effects(stunnedUntil: real, isHrzFlipped: bool, isVrtFlipped: bool,
                             hrzFlippedUntil: real, vrtFlippedUntil: real, teleportableAfter: real)

  /** The catcher role and what comes with it. */
  datatype Role = Role(isCatcher: bool, catchableAfter: real, maxSpeed: real)

  /** The drop (ground-pound) mechanic. */
  datatype DropState = DropState(isDropping: bool, droppableAfter: real)

  /** Horizontal intent and the kinematic fields the rules write. */
  datatype Motion = Motion(hrzAcc: real, jumpTakeOffSpeed: real, moveX: real, velocity: Vec,
                           targetVelocity: Vec, position: Vec, active: bool)

  /** Every field of a player that the rules read or write, grouped by concern. */
  datatype PlayerState = PlayerState(config: Config, jumper: Jumper, effects: Effects,
                                     role: Role, drop: DropState, motion: Motion)

  // ---------------------------------------------------------------------------
  // Pure queries

  function Cap(value: real, minValue: real, maxValue: real): (r: real)
    ensures minValue <= maxValue ==> minValue <= r <= maxValue
    ensures minValue <= value <= maxValue ==> r == value
    ensures r == value || r == minValue || r == maxValue
    ensures value < minValue ==> r == minValue
    ensures minValue <= maxValue && value > maxValue ==> r == maxValue
  {
    if value < minValue then minValue
    else if value > maxValue then maxValue
    else value
  }

  /** The horizontal axis as the rules see it: nothing while stunned, otherwise
      the raw axis quantised to -1, 0 or 1 and negated while flipped. */
  function GetXAxis(raw: real, now: real, stunnedUntil: real, isHrzFlipped: bool): (r: real)
    ensures now < stunnedUntil ==> r == 0.0
    ensures r == -1.0 || r == 0.0 || r == 1.0
    ensures now >= stunnedUntil ==> (r == 0.0 <==> -Minimum <= raw <= Minimum)
    ensures now >= stunnedUntil && r != 0.0 ==> (r > 0.0 <==> (raw > 0.0) != isHrzFlipped)
  {
    if now < stunnedUntil then 0.0
    else
      var quantised := if raw < -Minimum then -1.0 else if raw > Minimum then 1.0 else 0.0;
      if isHrzFlipped then -quantised else quantised
  }

  /** The vertical axis: nothing while stunned, otherwise the raw axis, negated while flipped. */
  function GetYAxis(raw: real, now: real, stunnedUntil: real, isVrtFlipped: bool): (r: real)
    ensures now < stunnedUntil ==> r == 0.0
    ensures now >= stunnedUntil ==> Abs(r) == Abs(raw)
    ensures now >= stunnedUntil && raw != 0.0 ==> (r == raw <==> !isVrtFlipped)
  {
    if now < stunnedUntil then 0.0
    else if isVrtFlipped then -raw
    else raw
  }

  /** Horizontal intent `move.x` after one tick: without input it decays toward
      zero three times as fast as it builds up and never crosses zero; with input
      it accumulates and is clamped to [-1, 1]. */
  function Ramp(moveX: real, xAxis: real, hrzAcc: real, dt: real): (r: real)
    ensures Abs(xAxis) < Minimum && -Minimum <= moveX <= Minimum ==> r == 0.0
    ensures Abs(xAxis) < Minimum && hrzAcc * dt >= 0.0 && moveX >= 0.0 ==> 0.0 <= r <= moveX
    ensures Abs(xAxis) < Minimum && hrzAcc * dt >= 0.0 && moveX <= 0.0 ==> moveX <= r <= 0.0
    ensures Abs(xAxis) < Minimum && Abs(moveX) > Minimum ==>
              r == 0.0 || Abs(moveX - r) == Abs(hrzAcc * 3.0 * dt)
    ensures Abs(xAxis) >= Minimum ==> -1.0 <= r <= 1.0
    ensures Abs(xAxis) < Minimum && moveX > Minimum && 0.0 <= hrzAcc * 3.0 * dt <= moveX ==>
              r == moveX - hrzAcc * 3.0 * dt
    ensures Abs(xAxis) < Minimum && moveX > Minimum && hrzAcc * 3.0 * dt > moveX ==> r == 0.0
    ensures Abs(xAxis) < Minimum && moveX < -Minimum && 0.0 <= hrzAcc * 3.0 * dt <= -moveX ==>
              r == moveX + hrzAcc * 3.0 * dt
    ensures Abs(xAxis) < Minimum && moveX < -Minimum && hrzAcc * 3.0 * dt > -moveX ==> r == 0.0
    ensures Abs(xAxis) >= Minimum && -1.0 <= moveX + xAxis * hrzAcc * dt <= 1.0 ==>
              r == moveX + xAxis * hrzAcc * dt
    ensures Abs(xAxis) >= Minimum && moveX + xAxis * hrzAcc * dt > 1.0 ==> r == 1.0
    ensures Abs(xAxis) >= Minimum && moveX + xAxis * hrzAcc * dt < -1.0 ==> r == -1.0
  {
    if Abs(xAxis) < Minimum then
      var decel := hrzAcc * 3.0 * dt;
      assert hrzAcc * dt >= 0.0 ==> decel >= 0.0;
      if moveX > Minimum then Max(0.0, moveX - decel)
      else if moveX < -Minimum then Min(0.0, moveX + decel)
      else 0.0
    else
      Cap(moveX + xAxis * hrzAcc * dt, -1.0, 1.0)
  }


  /** Whether a jump input is accepted: never during the cooldown or a drop; then
      the catcher may jump while it has jump steps left, anyone may jump from the ground. */
  predicate CanJump(s: PlayerState, now: real, grounded: bool)
  {
    if now < s.jumper.jumpableAfter then false
    else if s.drop.isDropping then false
    else if s.role.isCatcher && s.jumper.jumpStepCount < CatcherJumpSteps then true
    else grounded
  }

  predicate CanDrop(s: PlayerState, now: real)
  {
    now >= s.drop.droppableAfter
  }

  // ---------------------------------------------------------------------------
  // One logic tick, step by step

  /** Start of a drop: lock out further drops, double the horizontal speed and
      push sharply downward. */
  function StartDrop(s: PlayerState, now: real, jumpModifier: real): PlayerState
  {
    s.(drop := DropState(true, now + 2.0 * DropStunPeriod),
       motion := s.motion.(velocity := Vec(s.motion.velocity.x * 2.0,
                                           -1.5 * s.config.defaultJumpTakeOffSpeed * jumpModifier)))
  }

  /** Vertical input: a jump is tried first, a drop only when no jump is accepted. */
  function ApplyVerticalInput(s: PlayerState, yAxis: real, now: real, grounded: bool, jumpModifier: real): PlayerState
  {
    if yAxis > AxisThreshold && CanJump(s, now, grounded) then s.(jumper := s.jumper.(jumpState := PrepareToJump))
    else if yAxis < -AxisThreshold && CanDrop(s, now) then StartDrop(s, now, jumpModifier)
    else s
  }

  /** The jump state machine's step (UpdateJumpState). */
  function JumpStep(j: Jumper, grounded: bool, now: real): Jumper
  {
    var j := j.(jump := false);
    match j.jumpState
    case PrepareToJump =>
      j.(jumpState := Jumping, jump := true, stopJump := false,
         jumpStepCount := (if grounded then 0 else j.jumpStepCount) + 1,
         jumpableAfter := now + JumpCooldown)
    case Jumping => if !grounded then j.(jumpState := InFlight) else j
    case InFlight => if grounded then j.(jumpState := Landed) else j
    case Landed => j.(jumpState := Grounded, jumpStepCount := 0)
    case Grounded => j
  }

  /** Some contact of the last physics step is not a player (level geometry).
      Each hit is given by the player it belongs to, or null. */
  predicate HasLevelItems(hits: seq<Player?>)
  {
    exists i :: 0 <= i < |hits| && hits[i] == null
  }

  /** A drop that already touches level geometry ends with a self-stun. */
  function EndDropOnLevel(s: PlayerState, hits: seq<Player?>, now: real): PlayerState
  {
    if s.drop.isDropping && |hits| > 0 && HasLevelItems(hits)
    then s.(drop := s.drop.(isDropping := false),
            effects := s.effects.(stunnedUntil := now + 0.75 * DropStunPeriod))
    else s
  }

  /** The jump part of ComputeVelocity and the target velocity it hands to the physics layer. */
  function ComputeVelocityStep(s: PlayerState, jumpModifier: real, jumpDeceleration: real): PlayerState
  {
    var v := s.motion.velocity;
    var s :=
      if s.jumper.jump then
        s.(motion := s.motion.(velocity := v.(y := s.config.defaultJumpTakeOffSpeed * jumpModifier)),
           jumper := s.jumper.(jump := false))
      else if s.jumper.stopJump then
        s.(jumper := s.jumper.(stopJump := false),
           motion := s.motion.(velocity := if v.y > 0.0 then v.(y := v.y * jumpDeceleration) else v))
      else s;
    s.(motion := s.motion.(targetVelocity := Vec(s.motion.moveX * s.role.maxSpeed, 0.0)))
  }

  /** The input half of a tick: the horizontal ramp, then the jump/drop input. */
  function InputStage(s: PlayerState, now: real, dt: real, rawX: real, rawY: real, grounded: bool,
                      jumpModifier: real): PlayerState
  {
    var xAxis := GetXAxis(rawX, now, s.effects.stunnedUntil, s.effects.isHrzFlipped);
    var s1 := s.(motion := s.motion.(moveX := Ramp(s.motion.moveX, xAxis, s.motion.hrzAcc, dt)));
    var yAxis := GetYAxis(rawY, now, s1.effects.stunnedUntil, s1.effects.isVrtFlipped);
    ApplyVerticalInput(s1, yAxis, now, grounded, jumpModifier)
  }

  /** One logic tick (Update followed by the base class's velocity hand-off). */
  function LogicTick(s: PlayerState, now: real, dt: real, rawX: real, rawY: real, grounded: bool,
                     hits: seq<Player?>, jumpModifier: real, jumpDeceleration: real): PlayerState
  {
    var s2 := InputStage(s, now, dt, rawX, rawY, grounded, jumpModifier);
    var s3 := s2.(jumper := JumpStep(s2.jumper, grounded, now));
    var s4 := EndDropOnLevel(s3, hits, now);
    // the base class clears the target velocity before asking for a new one
    var s5 := s4.(motion := s4.motion.(targetVelocity := Vec(0.0, 0.0)));
    ComputeVelocityStep(s5, jumpModifier, jumpDeceleration)
  }

  /** What a tick keeps true of every player: bounded jump steps, no pending
      jump request or trigger left over, and horizontal intent within [-1, 1]. */
  predicate Steady(s: PlayerState)
  {
    && 0 <= s.jumper.jumpStepCount <= CatcherJumpSteps
    && s.jumper.jumpState != PrepareToJump
    && !s.jumper.jump && !s.jumper.stopJump
    && -1.0 <= s.motion.moveX <= 1.0
    && s.motion.hrzAcc >= 0.0
  }

  // ---------------------------------------------------------------------------
  // The catcher role

  /** The new catcher: the role and one unit of extra speed. */
  function Promoted(s: PlayerState): PlayerState
  {
    s.(role := s.role.(isCatcher := true, maxSpeed := s.config.defaultMaxSpeed + 1.0))
  }

  /** The former catcher: loses the role and the extra speed, and gets a grace window. */
  function Demoted(s: PlayerState, now: real): PlayerState
  {
    s.(role := Role(false, now + CatchGrace, s.config.defaultMaxSpeed))
  }

  /** The collision-time rule (OnCollisionEnter2D) between this player `me` and
      another player: a drop ends and stuns a player who is not stunned, then a
      catcher who is not stunned hands the role to a catchable, non-dropping player. */
  function CollisionContact(me: PlayerState, other: PlayerState, now: real): (PlayerState, PlayerState)
  {
    if !me.drop.isDropping && !me.role.isCatcher then (me, other)
    else
      var me1 := if me.drop.isDropping then me.(drop := me.drop.(isDropping := false)) else me;
      var other1 :=
        if me.drop.isDropping && other.effects.stunnedUntil < now
        then other.(effects := other.effects.(stunnedUntil := now + DropStunPeriod))
        else other;
      if me1.role.isCatcher && me1.effects.stunnedUntil < now
         && other1.role.catchableAfter < now && !other1.drop.isDropping
      then (Demoted(me1, now), Promoted(other1))
      else (me1, other1)
  }

  /** Index `k` of `ss` holds the only catcher. */
  predicate OnlyCatcher(ss: seq<PlayerState>, k: int)
  {
    0 <= k < |ss| && ss[k].role.isCatcher && forall j :: 0 <= j < |ss| && ss[j].role.isCatcher ==> j == k
  }

  /** Exactly one of the players is the catcher. */
  ghost predicate ExactlyOneCatcher(ps: seq<Player>)
    reads set p | p in ps
  {
    exists c :: c in ps && SoleCatcher(ps, c)
  }

  /** `c` is one of the players and the only catcher among them. */
  ghost predicate SoleCatcher(ps: seq<Player>, c: Player)
    reads set p | p in ps
  {
    c in ps && c.isCatcher && forall p :: p in ps && p.isCatcher ==> p == c
  }

  // ---------------------------------------------------------------------------
  // Lemmas

  /** CanJump, stated as the policy it implements. */
  lemma CanJumpPolicy(s: PlayerState, now: real, grounded: bool)
    ensures CanJump(s, now, grounded) ==> now >= s.jumper.jumpableAfter && !s.drop.isDropping
    ensures CanJump(s, now, grounded) && !grounded ==>
              s.role.isCatcher && s.jumper.jumpStepCount < CatcherJumpSteps
    ensures now >= s.jumper.jumpableAfter && !s.drop.isDropping && grounded ==> CanJump(s, now, grounded)
    ensures now >= s.jumper.jumpableAfter && !s.drop.isDropping
            && s.role.isCatcher && s.jumper.jumpStepCount < CatcherJumpSteps
            ==> CanJump(s, now, grounded)
  {
  }

  /** An airborne player past its cooldown with two jump steps used may jump
      again exactly when it is the catcher. */
  lemma AirJumpOnlyForCatcher(s: PlayerState, now: real)
    requires now >= s.jumper.jumpableAfter && !s.drop.isDropping && s.jumper.jumpStepCount == 2
    ensures CanJump(s, now, false) <==> s.role.isCatcher
  {
  }

  /** The transitions of the jump state machine. */
  lemma JumpStateTransitions(j: Jumper, grounded: bool, now: real)
    ensures var r := JumpStep(j, grounded, now);
      && (j.jumpState == PrepareToJump ==>
            r == Jumper(Jumping, true, false, (if grounded then 0 else j.jumpStepCount) + 1, now + JumpCooldown))
      && (j.jumpState == Jumping ==> r == j.(jump := false, jumpState := if grounded then Jumping else InFlight))
      && (j.jumpState == InFlight ==> r == j.(jump := false, jumpState := if grounded then Landed else InFlight))
      && (j.jumpState == Landed ==> r == j.(jump := false, jumpState := Grounded, jumpStepCount := 0))
      && (j.jumpState == Grounded ==> r == j.(jump := false))
  {
  }

  /** The input half of a tick keeps the ramp in range and only ever requests
      a jump the machine can count. */
  lemma InputStageBounds(s: PlayerState, now: real, dt: real, rawX: real, rawY: real, grounded: bool,
                         jumpModifier: real)
    requires Steady(s) && dt >= 0.0
    ensures var r := InputStage(s, now, dt, rawX, rawY, grounded, jumpModifier);
      && -1.0 <= r.motion.moveX <= 1.0 && r.motion.hrzAcc == s.motion.hrzAcc
      && r.jumper.jumpStepCount == s.jumper.jumpStepCount
      && !r.jumper.jump && !r.jumper.stopJump
      && (r.jumper.jumpState == PrepareToJump ==>
            grounded || (s.role.isCatcher && s.jumper.jumpStepCount < CatcherJumpSteps))
      && var y := GetYAxis(rawY, now, s.effects.stunnedUntil, s.effects.isVrtFlipped);
      && (r.jumper.jumpState == PrepareToJump ==> y > AxisThreshold && CanJump(s, now, grounded))
      && (r.drop != s.drop ==>
            y < -AxisThreshold && CanDrop(s, now) && !(y > AxisThreshold && CanJump(s, now, grounded)))
  {
    assert s.motion.hrzAcc * dt >= 0.0;
  }

  /** The jump machine never counts past the catcher's limit and never stays in PrepareToJump. */
  lemma JumpStepBounds(j: Jumper, grounded: bool, now: real)
    requires 0 <= j.jumpStepCount <= CatcherJumpSteps && !j.stopJump
    requires j.jumpState == PrepareToJump ==> grounded || j.jumpStepCount < CatcherJumpSteps
    ensures var r := JumpStep(j, grounded, now);
      0 <= r.jumpStepCount <= CatcherJumpSteps && r.jumpState != PrepareToJump && !r.stopJump
  {
  }

  /** A logic tick keeps a player steady when time does not run backwards. */
  lemma TickKeepsSteady(s: PlayerState, now: real, dt: real, rawX: real, rawY: real, grounded: bool,
                        hits: seq<Player?>, jumpModifier: real, jumpDeceleration: real)
    requires Steady(s) && dt >= 0.0
    ensures Steady(LogicTick(s, now, dt, rawX, rawY, grounded, hits, jumpModifier, jumpDeceleration))
  {
    var s2 := InputStage(s, now, dt, rawX, rawY, grounded, jumpModifier);
    InputStageBounds(s, now, dt, rawX, rawY, grounded, jumpModifier);
    JumpStepBounds(s2.jumper, grounded, now);
  }

  /** The two gates of the vertical input: a jump is requested exactly when the
      axis is up and a jump is accepted; a drop starts exactly when the axis is
      down, no jump is accepted and the lockout is over; otherwise nothing changes. */
  lemma VerticalInputGates(s: PlayerState, yAxis: real, now: real, grounded: bool, jumpModifier: real)
    ensures var r := ApplyVerticalInput(s, yAxis, now, grounded, jumpModifier);
      var jumpGate := yAxis > AxisThreshold && CanJump(s, now, grounded);
      var dropGate := !jumpGate && yAxis < -AxisThreshold && CanDrop(s, now);
      && (jumpGate ==> r.jumper.jumpState == PrepareToJump && r.drop == s.drop && r.motion == s.motion)
      && (r.jumper != s.jumper ==> jumpGate)
      && (dropGate ==> r.drop == DropState(true, now + 2.0 * DropStunPeriod) && r.jumper == s.jumper
                       && r.motion.velocity == Vec(s.motion.velocity.x * 2.0,
                                                   -1.5 * s.config.defaultJumpTakeOffSpeed * jumpModifier))
      && (r.drop != s.drop || r.motion != s.motion ==> dropGate)
      && (!jumpGate && !dropGate ==> r == s)
      && r.config == s.config && r.effects == s.effects && r.role == s.role
  {
  }

  /** During the jump cooldown a tick starts no jump: the cooldown, the step count
      and the takeoff state stay as they were. */
  lemma NoJumpWithinCooldown(s: PlayerState, now: real, dt: real, rawX: real, rawY: real, grounded: bool,
                             hits: seq<Player?>, jumpModifier: real, jumpDeceleration: real)
    requires Steady(s) && dt >= 0.0
    requires now < s.jumper.jumpableAfter
    ensures var r := LogicTick(s, now, dt, rawX, rawY, grounded, hits, jumpModifier, jumpDeceleration);
      && r.jumper.jumpableAfter == s.jumper.jumpableAfter
      && (r.jumper.jumpState == Jumping ==> s.jumper.jumpState == Jumping)
      && (s.jumper.jumpState != Landed ==> r.jumper.jumpStepCount == s.jumper.jumpStepCount)
  {
  }

  /** During the drop lockout a tick starts no drop: the lockout is kept and a
      player that was not dropping is still not dropping. */
  lemma NoDropWithinLockout(s: PlayerState, now: real, dt: real, rawX: real, rawY: real, grounded: bool,
                            hits: seq<Player?>, jumpModifier: real, jumpDeceleration: real)
    requires now < s.drop.droppableAfter
    ensures var r := LogicTick(s, now, dt, rawX, rawY, grounded, hits, jumpModifier, jumpDeceleration);
      && r.drop.droppableAfter == s.drop.droppableAfter
      && (r.drop.isDropping ==> s.drop.isDropping)
  {
  }

  /** After a tick that starts a jump, every tick within the cooldown starts none. */
  lemma NoJumpAgainWithinCooldown(s: PlayerState, t1: real, t2: real, dt: real, rawX: real, rawY: real,
                                  grounded: bool, hits: seq<Player?>, jumpModifier: real, jumpDeceleration: real,
                                  rawX2: real, rawY2: real, grounded2: bool, hits2: seq<Player?>)
    requires Steady(s) && dt >= 0.0
    requires GetYAxis(rawY, t1, s.effects.stunnedUntil, s.effects.isVrtFlipped) > AxisThreshold
    requires CanJump(s, t1, grounded)
    requires t2 < t1 + JumpCooldown
    ensures var r1 := LogicTick(s, t1, dt, rawX, rawY, grounded, hits, jumpModifier, jumpDeceleration);
      var r2 := LogicTick(r1, t2, dt, rawX2, rawY2, grounded2, hits2, jumpModifier, jumpDeceleration);
      && r2.jumper.jumpableAfter == t1 + JumpCooldown
      && r2.jumper.jumpStepCount == r1.jumper.jumpStepCount
  {
    var r1 := LogicTick(s, t1, dt, rawX, rawY, grounded, hits, jumpModifier, jumpDeceleration);
    AcceptedJump(s, t1, dt, rawX, rawY, grounded, hits, jumpModifier, jumpDeceleration);
    TickKeepsSteady(s, t1, dt, rawX, rawY, grounded, hits, jumpModifier, jumpDeceleration);
    NoJumpWithinCooldown(r1, t2, dt, rawX2, rawY2, grounded2, hits2, jumpModifier, jumpDeceleration);
  }

  /** After a tick that starts a drop, no tick within the lockout starts another. */
  lemma NoDropAgainWithinLockout(s: PlayerState, t1: real, t2: real, dt: real, rawX: real, rawY: real,
                                 grounded: bool, hits: seq<Player?>, jumpModifier: real, jumpDeceleration: real,
                                 rawX2: real, rawY2: real, grounded2: bool, hits2: seq<Player?>)
    requires Steady(s)
    requires var y := GetYAxis(rawY, t1, s.effects.stunnedUntil, s.effects.isVrtFlipped);
      !(y > AxisThreshold && CanJump(s, t1, grounded)) && y < -AxisThreshold && CanDrop(s, t1)
    requires t2 < t1 + 2.0 * DropStunPeriod
    ensures var r1 := LogicTick(s, t1, dt, rawX, rawY, grounded, hits, jumpModifier, jumpDeceleration);
      var r2 := LogicTick(r1, t2, dt, rawX2, rawY2, grounded2, hits2, jumpModifier, jumpDeceleration);
      && r2.drop.droppableAfter == t1 + 2.0 * DropStunPeriod
      && (r2.drop.isDropping ==> r1.drop.isDropping)
  {
    var r1 := LogicTick(s, t1, dt, rawX, rawY, grounded, hits, jumpModifier, jumpDeceleration);
    AcceptedDrop(s, t1, dt, rawX, rawY, grounded, hits, jumpModifier, jumpDeceleration);
    NoDropWithinLockout(r1, t2, dt, rawX2, rawY2, grounded2, hits2, jumpModifier, jumpDeceleration);
  }

  /** An accepted jump: the machine is in Jumping with one more jump step (counted
      from zero on the ground), the cooldown is set, the takeoff speed applied,
      and no drop starts. */
  lemma AcceptedJump(s: PlayerState, now: real, dt: real, rawX: real, rawY: real, grounded: bool,
                     hits: seq<Player?>, jumpModifier: real, jumpDeceleration: real)
    requires Steady(s)
    requires GetYAxis(rawY, now, s.effects.stunnedUntil, s.effects.isVrtFlipped) > AxisThreshold
    requires CanJump(s, now, grounded)
    ensures var r := LogicTick(s, now, dt, rawX, rawY, grounded, hits, jumpModifier, jumpDeceleration);
      && r.jumper.jumpState == Jumping
      && r.jumper.jumpStepCount == (if grounded then 0 else s.jumper.jumpStepCount) + 1
      && r.jumper.jumpableAfter == now + JumpCooldown
      && r.motion.velocity.y == s.config.defaultJumpTakeOffSpeed * jumpModifier
      && !r.jumper.jump
      && r.drop == s.drop && !r.drop.isDropping
  {
  }

  /** An accepted drop (vertical input down, no jump accepted, lockout over):
      the lockout is renewed, the horizontal speed doubled and the vertical speed
      set downward; a drop that starts on level geometry ends at once with a self-stun. */
  lemma AcceptedDrop(s: PlayerState, now: real, dt: real, rawX: real, rawY: real, grounded: bool,
                     hits: seq<Player?>, jumpModifier: real, jumpDeceleration: real)
    requires Steady(s)
    requires var y := GetYAxis(rawY, now, s.effects.stunnedUntil, s.effects.isVrtFlipped);
      !(y > AxisThreshold && CanJump(s, now, grounded)) && y < -AxisThreshold && CanDrop(s, now)
    ensures var r := LogicTick(s, now, dt, rawX, rawY, grounded, hits, jumpModifier, jumpDeceleration);
      && r.drop.droppableAfter == now + 2.0 * DropStunPeriod
      && r.motion.velocity == Vec(s.motion.velocity.x * 2.0, -1.5 * s.config.defaultJumpTakeOffSpeed * jumpModifier)
      && (s.config.defaultJumpTakeOffSpeed > 0.0 && jumpModifier > 0.0 ==> r.motion.velocity.y < 0.0)
      && (r.drop.isDropping <==> !HasLevelItems(hits))
      && r.effects.stunnedUntil == (if HasLevelItems(hits) then now + 0.75 * DropStunPeriod else s.effects.stunnedUntil)
      && r.jumper == JumpStep(s.jumper, grounded, now)
  {
    if s.config.defaultJumpTakeOffSpeed > 0.0 && jumpModifier > 0.0 {
      assert s.config.defaultJumpTakeOffSpeed * jumpModifier > 0.0;
    }
  }

  /** The jump part of ComputeVelocity: a pending jump sets the takeoff speed, a
      released jump scales a rise by the deceleration, and the target velocity is
      the intent at the current top speed; nothing else changes. */
  lemma ComputeVelocityStepSpec(s: PlayerState, jumpModifier: real, jumpDeceleration: real)
    ensures var r := ComputeVelocityStep(s, jumpModifier, jumpDeceleration);
      var v := s.motion.velocity;
      && !r.jumper.jump
      && r.jumper == s.jumper.(jump := false, stopJump := if s.jumper.jump then s.jumper.stopJump else false)
      && r.motion.velocity.x == v.x
      && (s.jumper.jump ==> r.motion.velocity.y == s.config.defaultJumpTakeOffSpeed * jumpModifier)
      && (!s.jumper.jump && !s.jumper.stopJump ==> r.motion.velocity == v)
      && (!s.jumper.jump && s.jumper.stopJump && v.y <= 0.0 ==> r.motion.velocity == v)
      && (!s.jumper.jump && s.jumper.stopJump && v.y > 0.0 ==> r.motion.velocity.y == v.y * jumpDeceleration)
      && r.motion.targetVelocity == Vec(s.motion.moveX * s.role.maxSpeed, 0.0)
      && r == s.(jumper := r.jumper, motion := s.motion.(velocity := r.motion.velocity,
                                                          targetVelocity := r.motion.targetVelocity))
  {
  }

  /** A released jump with a fractional deceleration slows a rise without reversing it. */
  lemma ReleasedJumpDamps(s: PlayerState, jumpModifier: real, jumpDeceleration: real)
    requires !s.jumper.jump && s.jumper.stopJump && s.motion.velocity.y > 0.0
    requires 0.0 <= jumpDeceleration <= 1.0
    ensures var r := ComputeVelocityStep(s, jumpModifier, jumpDeceleration);
      0.0 <= r.motion.velocity.y <= s.motion.velocity.y
  {
    ComputeVelocityStepSpec(s, jumpModifier, jumpDeceleration);
    FractionOf(s.motion.velocity.y, jumpDeceleration);
  }

  /** With the intent in [-1, 1] the target velocity never exceeds the top speed. */
  lemma TargetWithinTopSpeed(s: PlayerState, jumpModifier: real, jumpDeceleration: real)
    requires -1.0 <= s.motion.moveX <= 1.0 && s.role.maxSpeed >= 0.0
    ensures var r := ComputeVelocityStep(s, jumpModifier, jumpDeceleration);
      -s.role.maxSpeed <= r.motion.targetVelocity.x <= s.role.maxSpeed
  {
    ComputeVelocityStepSpec(s, jumpModifier, jumpDeceleration);
    SignedFractionOf(s.role.maxSpeed, s.motion.moveX);
  }

  /** A fraction of a non-negative quantity lies between zero and that quantity. */
  lemma FractionOf(y: real, f: real)
    requires y >= 0.0 && 0.0 <= f <= 1.0
    ensures 0.0 <= y * f <= y && 0.0 <= f * y <= y
  {
    assert y * f <= y * 1.0;
  }

  /** A signed fraction of a non-negative quantity lies within plus or minus it. */
  lemma SignedFractionOf(y: real, f: real)
    requires y >= 0.0 && -1.0 <= f <= 1.0
    ensures -y <= f * y <= y
  {
    if f >= 0.0 {
      FractionOf(y, f);
    } else {
      FractionOf(y, -f);
      assert f * y == -((-f) * y);
    }
  }

  /** A handoff from the only catcher to another player leaves that player the only catcher. */
  lemma HandoffKeepsOneCatcher(ss: seq<PlayerState>, from: int, to: int, now: real)
    requires OnlyCatcher(ss, from) && 0 <= to < |ss| && to != from
    ensures OnlyCatcher(ss[from := Demoted(ss[from], now)][to := Promoted(ss[to])], to)
  {
  }

  /** Whatever the collision rule does, it never creates or removes a catcher
      between the two players; a transfer grants the grace window and a drop
      stun only ever replaces an expired stun. */
  lemma CollisionKeepsRoles(me: PlayerState, other: PlayerState, now: real)
    requires me.role.isCatcher != other.role.isCatcher
    ensures var (a, b) := CollisionContact(me, other, now); a.role.isCatcher != b.role.isCatcher
    ensures var (a, b) := CollisionContact(me, other, now);
      b.role.isCatcher && !other.role.isCatcher ==> a.role.catchableAfter == now + CatchGrace
    ensures var (a, b) := CollisionContact(me, other, now);
      b.effects.stunnedUntil != other.effects.stunnedUntil ==>
        other.effects.stunnedUntil < now && b.effects.stunnedUntil == now + DropStunPeriod
  {
  }

  /** The collision rule in full: the collider's drop always ends and stuns the
      other player only when that player's stun is over; the role moves exactly
      when the collider is a catcher whose own stun is strictly over and the other
      player is past its grace window and not dropping, and then the former
      catcher gets its grace window and default speed; nothing else changes. */
  lemma CollisionContactSpec(me: PlayerState, other: PlayerState, now: real)
    ensures var (a, b) := CollisionContact(me, other, now);
      var transfer := me.role.isCatcher && me.effects.stunnedUntil < now
                      && other.role.catchableAfter < now && !other.drop.isDropping;
      && a.drop == me.drop.(isDropping := false)
      && b.effects.stunnedUntil ==
           (if me.drop.isDropping && other.effects.stunnedUntil < now then now + DropStunPeriod
            else other.effects.stunnedUntil)
      && (transfer ==> a.role == Role(false, now + CatchGrace, me.config.defaultMaxSpeed)
                       && b.role == other.role.(isCatcher := true, maxSpeed := other.config.defaultMaxSpeed + 1.0))
      && (!transfer ==> a.role == me.role && b.role == other.role)
      && a == me.(drop := a.drop, role := a.role)
      && b == other.(effects := other.effects.(stunnedUntil := b.effects.stunnedUntil), role := b.role)
  {
  }

  // ---------------------------------------------------------------------------
  // The player object

  class Player {
    const playerId: string
    const defaultMaxSpeed: real
    const defaultJumpTakeOffSpeed: real
    const defaultHrzAcc: real

    var jumpState: JumpState
    var jump: bool
    var stopJump: bool
    var jumpStepCount: int
    var jumpableAfter: real
    var stunnedUntil: real
    var isHrzFlipped: bool
    var isVrtFlipped: bool
    var hrzFlippedUntil: real
    var vrtFlippedUntil: real
    var teleportableAfter: real
    var isCatcher: bool
    var catchableAfter: real
    var maxSpeed: real
    var isDropping: bool
    var droppableAfter: real
    var hrzAcc: real
    var jumpTakeOffSpeed: real
    var moveX: real
    var velocity: Vec
    var targetVelocity: Vec
    var position: Vec
    var active: bool

    function State(): PlayerState
      reads this
    {
      PlayerState(
        Config(defaultMaxSpeed, defaultJumpTakeOffSpeed, defaultHrzAcc),
        Jumper(jumpState, jump, stopJump, jumpStepCount, jumpableAfter),
        Effects(stunnedUntil, isHrzFlipped, isVrtFlipped, hrzFlippedUntil, vrtFlippedUntil, teleportableAfter),
        Role(isCatcher, catchableAfter, maxSpeed),
        DropState(isDropping, droppableAfter),
        Motion(hrzAcc, jumpTakeOffSpeed, moveX, velocity, targetVelocity, position, active))
    }

    /** A freshly awoken player: speeds and acceleration from the defaults, every
        timer at zero, and the player named "P1" made catcher. */
    constructor (playerId: string, defaultMaxSpeed: real, defaultJumpTakeOffSpeed: real,
                 defaultHrzAcc: real, position: Vec)
      ensures this.playerId == playerId
      ensures State() == PlayerState(
                Config(defaultMaxSpeed, defaultJumpTakeOffSpeed, defaultHrzAcc),
                Jumper(Grounded, false, false, 0, 0.0),
                Effects(0.0, false, false, 0.0, 0.0, 0.0),
                Role(playerId == "P1", 0.0,
                     if playerId == "P1" then defaultMaxSpeed + 1.0 else defaultMaxSpeed),
                DropState(false, 0.0),
                Motion(defaultHrzAcc, defaultJumpTakeOffSpeed, 0.0, Vec(0.0, 0.0), Vec(0.0, 0.0), position, true))
      ensures defaultHrzAcc >= 0.0 ==> Steady(State())
    {
      this.playerId := playerId;
      this.defaultMaxSpeed := defaultMaxSpeed;
      this.defaultJumpTakeOffSpeed := defaultJumpTakeOffSpeed;
      this.defaultHrzAcc := defaultHrzAcc;
      jumpState := Grounded;
      jump, stopJump := false, false;
      jumpStepCount, jumpableAfter := 0, 0.0;
      stunnedUntil := 0.0;
      isHrzFlipped, isVrtFlipped := false, false;
      hrzFlippedUntil, vrtFlippedUntil, teleportableAfter := 0.0, 0.0, 0.0;
      isCatcher, catchableAfter := false, 0.0;
      isDropping, droppableAfter := false, 0.0;
      moveX, velocity, targetVelocity := 0.0, Vec(0.0, 0.0), Vec(0.0, 0.0);
      this.position, active := position, true;
      hrzAcc := defaultHrzAcc;
      maxSpeed := defaultMaxSpeed;
      jumpTakeOffSpeed := defaultJumpTakeOffSpeed;
      new;
      if playerId == "P1" {
        MakeCatcher(null, 0.0);
      }
    }

    /** This player becomes catcher; a previous catcher, when given, is demoted. */
    method MakeCatcher(previousCatcher: Player?, now: real)
      modifies this, previousCatcher
      ensures previousCatcher != this ==> State() == Promoted(old(State()))
      ensures previousCatcher != null && previousCatcher != this ==>
                previousCatcher.State() == Demoted(old(previousCatcher.State()), now)
      ensures previousCatcher == this ==> State() == Demoted(Promoted(old(State())), now)
    {
      isCatcher := true;
      maxSpeed := defaultMaxSpeed + 1.0;
      if previousCatcher == null { return; }
      previousCatcher.isCatcher := false;
      previousCatcher.catchableAfter := now + CatchGrace;
      previousCatcher.maxSpeed := previousCatcher.defaultMaxSpeed;
    }

    /** Moves the player to `target` and scales its velocity by `multiplier`. */
    method Teleport(target: Vec, multiplier: Vec)
      modifies this
      ensures State() == old(State()).(motion := old(State()).motion.(
                position := target, velocity := Scale(old(velocity), multiplier)))
    {
      position := target;
      velocity := Scale(velocity, multiplier);
    }

    /** Teleports to a drawn position inside the arena and stops the player. */
    method TeleportRandom(target: Vec)
      modifies this
      ensures State() == old(State()).(motion := old(State()).motion.(
                position := target, velocity := Vec(0.0, 0.0)))
    {
      Teleport(target, Vec(0.0, 0.0));
    }

    method UpdateJumpState(grounded: bool, now: real)
      modifies this
      ensures State() == old(State()).(jumper := JumpStep(old(State()).jumper, grounded, now))
    {
      ghost var j := JumpStep(State().jumper, grounded, now);
      jump := false;
      match jumpState {
        case PrepareToJump =>
          jumpState := Jumping;
          jump := true;
          stopJump := false;
          if grounded { jumpStepCount := 0; }
          jumpStepCount := jumpStepCount + 1;
          jumpableAfter := now + JumpCooldown;
        case Jumping =>
          if !grounded { jumpState := InFlight; }
        case InFlight =>
          if grounded { jumpState := Landed; }
        case Landed =>
          jumpState := Grounded;
          jumpStepCount := 0;
        case Grounded =>
      }
      assert jumpState == j.jumpState && jump == j.jump && stopJump == j.stopJump;
      assert jumpStepCount == j.jumpStepCount && jumpableAfter == j.jumpableAfter;
    }

    method ComputeVelocity(jumpModifier: real, jumpDeceleration: real)
      modifies this
      ensures State() == ComputeVelocityStep(old(State()), jumpModifier, jumpDeceleration)
    {
      if jump {
        velocity := velocity.(y := defaultJumpTakeOffSpeed * jumpModifier);
        jump := false;
      } else if stopJump {
        stopJump := false;
        if velocity.y > 0.0 {
          velocity := velocity.(y := velocity.y * jumpDeceleration);
        }
      }
      targetVelocity := Vec(moveX * maxSpeed, 0.0);
    }

    /** The horizontal ramp of Update. */
    method RampMoveX(xAxis: real, dt: real)
      modifies this
      ensures State() == old(State()).(motion := old(State()).motion.(moveX := Ramp(old(moveX), xAxis, hrzAcc, dt)))
    {
      if Abs(xAxis) < Minimum {
        if moveX > Minimum {
          moveX := Max(0.0, moveX - hrzAcc * 3.0 * dt);
        } else if moveX < -Minimum {
          moveX := Min(0.0, moveX + hrzAcc * 3.0 * dt);
        } else {
          moveX := 0.0;
        }
      } else {
        moveX := moveX + xAxis * hrzAcc * dt;
        moveX := Cap(moveX, -1.0, 1.0);
      }
    }

    /** The jump/drop input of Update. */
    method VerticalInput(yAxis: real, now: real, grounded: bool, jumpModifier: real)
      modifies this
      ensures State() == ApplyVerticalInput(old(State()), yAxis, now, grounded, jumpModifier)
      ensures State().jumper != old(State()).jumper ==> yAxis > AxisThreshold && CanJump(old(State()), now, grounded)
      ensures State().drop != old(State()).drop ==>
                yAxis < -AxisThreshold && CanDrop(old(State()), now)
                && !(yAxis > AxisThreshold && CanJump(old(State()), now, grounded))
    {
      if yAxis > AxisThreshold && CanJump(State(), now, grounded) {
        jumpState := PrepareToJump;
      } else if yAxis < -AxisThreshold && CanDrop(State(), now) {
        isDropping := true;
        droppableAfter := now + 2.0 * DropStunPeriod;
        velocity := Vec(velocity.x * 2.0, -1.5 * defaultJumpTakeOffSpeed * jumpModifier);
      }
    }

    /** The hit-buffer check of Update: a drop touching level geometry ends. */
    method CheckLevelHits(hits: seq<Player?>, now: real)
      modifies this
      ensures State() == EndDropOnLevel(old(State()), hits, now)
    {
      if isDropping && |hits| > 0 {
        var hasLevelItems := exists i :: 0 <= i < |hits| && hits[i] == null;
        if hasLevelItems {
          isDropping := false;
          stunnedUntil := now + 0.75 * DropStunPeriod;
        }
      }
    }

    /** The input half of Update: the horizontal ramp, then the jump/drop input. */
    method ReadInput(now: real, dt: real, rawX: real, rawY: real, grounded: bool, jumpModifier: real)
      modifies this
      ensures State() == InputStage(old(State()), now, dt, rawX, rawY, grounded, jumpModifier)
    {
      var xAxis := GetXAxis(rawX, now, stunnedUntil, isHrzFlipped);
      RampMoveX(xAxis, dt);
      var yAxis := GetYAxis(rawY, now, stunnedUntil, isVrtFlipped);
      VerticalInput(yAxis, now, grounded, jumpModifier);
    }

    /** One logic tick of this player. */
    method Update(now: real, dt: real, rawX: real, rawY: real, grounded: bool,
                  hits: seq<Player?>, jumpModifier: real, jumpDeceleration: real)
      modifies this
      ensures State() == LogicTick(old(State()), now, dt, rawX, rawY, grounded, hits, jumpModifier, jumpDeceleration)
    {
      ReadInput(now, dt, rawX, rawY, grounded, jumpModifier);
      UpdateJumpState(grounded, now);
      CheckLevelHits(hits, now);
      targetVelocity := Vec(0.0, 0.0);
      ComputeVelocity(jumpModifier, jumpDeceleration);
    }

    /** A drop reaching another player ends; the other player is stunned unless
        already stunned. */
    method DropImpact(other: Player, now: real)
      requires other != this
      modifies this, other
      ensures State() == old(State()).(drop := old(State()).drop.(isDropping := false))
      ensures other.State() ==
                if old(other.stunnedUntil) < now
                then old(other.State()).(effects := old(other.State()).effects.(stunnedUntil := now + DropStunPeriod))
                else old(other.State())
    {
      isDropping := false;
      if other.stunnedUntil < now {
        other.stunnedUntil := now + DropStunPeriod;
      }
    }

    /** The collision-time catch/drop rule against whatever this player collided with
        (`otherPlayer` is that object's player, or null for level geometry). */
    method OnCollisionEnter2D(otherPlayer: Player?, now: real, ghost ps: seq<Player>)
      requires otherPlayer != this
      modifies this, otherPlayer
      ensures otherPlayer == null ==> State() == old(State())
      ensures otherPlayer != null ==> State() == CollisionContact(old(State()), old(otherPlayer.State()), now).0
      ensures otherPlayer != null ==> otherPlayer.State() == CollisionContact(old(State()), old(otherPlayer.State()), now).1
      ensures this in ps && (otherPlayer != null ==> otherPlayer in ps) && old(ExactlyOneCatcher(ps)) ==>
                ExactlyOneCatcher(ps)
    {
      if isDropping == false && isCatcher == false { return; }
      if otherPlayer == null { return; }

      if isDropping {
        DropImpact(otherPlayer, now);
      }

      if isCatcher && stunnedUntil < now {
        if otherPlayer.catchableAfter < now && otherPlayer.isDropping == false {
          otherPlayer.MakeCatcher(this, now);
          return;
        }
      }
    }
  }
}
