# Tag-game rules of PlatformerGameCatchMe, in Dafny

PlatformerGameCatchMe is a local multiplayer game of tag played on a 2D platformer level. One player is
the catcher, who is faster and may make up to three jumps before landing. The others are runners. The catcher passes
the role on by touching a runner. Players can also *drop*: a fast, stunning dive that ends on the
ground or on another player. Tokens spawn in the arena and apply a random effect when collected. The
effects are flipping the controls of the runners or of the catcher, and stunning the runners.
Teleporters move a player elsewhere.

This project models those rules. It covers:

- the player's per-frame update and its jump state machine;
- the collision, catch and drop contact handlers;
- the token's weighted draw, its actions and its respawn;
- the start of a round;
- the teleporter.

Everything is proved against pure specification functions.

- `common.dfy` (module `Common`): `Option`, a 2D vector `Vec` and small real helpers.
- `player.dfy` (module `PlayerController`): the player object.
  - A `PlayerState` snapshot groups every mutable field of a player: configuration, jump machine,
    timed effects, role, drop state and motion.
  - Each stage of a frame is a function on that snapshot. The stages are the ramp of the horizontal
    intent, the jump/drop input, the jump state machine, the end of a drop on level geometry and the
    jump part of the velocity computation.
  - The class `Player` holds the same fields. Each of its methods is proved to move its `State()`
    exactly as the matching function says.
  - The module also defines the single-catcher invariant on a roster (`ExactlyOneCatcher`,
    `SoleCatcher`) and the role handoff `MakeCatcher`.
- `contacts.dfy` (module `Contacts`): a contact with another collider, and which player (if any) it
  belongs to.
- `catch.dfy` (module `PlayerCatch`): the catcher's trigger shape and the `CanBeCaught` test.
- `drop.dfy` (module `PlayerDrop`): the drop trigger shape, which ends a drop on geometry or on
  another player.
- `token.dfy` (module `TokenInstance`): the token.
  - The two weight tables and the running-total draw `GetRandomAction`, characterised by `Pick`.
  - The roster actions FlipNonChasers, FlipCatcher and StunNonChasers.
  - Collection (`OnPlayerEnter`) and respawn (`Update`).
- `game.dfy` (module `GameController`): `OnEnable`. It activates and spawns the configured number of
  players, benches the rest and makes one drawn active player the catcher.
- `teleport.dfy` (module `TeleportController`): the teleporter trigger and its one-second cooldown.

Time is a parameter `now` in seconds.

- The engine's physics result that the rules read is a parameter: `grounded`, the shape-cast hits.
- The raw input axes are parameters.
- Every `Random.Range` draw is a parameter with the range the engine guarantees:
  - `selected` in [0, total weight) for the token draw;
  - spawn positions inside the arena;
  - `draw` in [0, number of active players) for the catcher, with out-of-range draws handled as the
    code handles them.

Floats are modelled as `real`.

The main proved properties:

- **Single catcher.** Every handler that can move the role preserves "exactly one catcher in the
  roster". Those handlers are the body collision, the catch trigger, the drop trigger and a token
  collection. A round start whose roster had no catcher establishes it.
- **Jumps.** The jump machine never counts past the catcher's three jump steps. A runner cannot jump
  in the air. A tick keeps the player in its steady state: jump-step count in range, no pending stop,
  horizontal intent in [-1, 1].
- **Token draw.** The draw picks the first table entry whose running total reaches the draw. For the
  concrete tables this gives exact draw ranges for each action. TeleportClose is never drawn.
- **Effects.** The flip and stun effects overwrite their timers (so they are idempotent). They never
  touch the role.
- **Teleport cooldown.** A teleported player cannot be teleported again within the cooldown.

Behaviour of the code that the model keeps as written:

- **Token tables.** The token tables are fixed per collector role
  (`Assets/PlatformerTemplate/Scripts/Mechanics/TokenInstance.cs`, lines 145-158).
- **Flip timers.** A flip sets two timers, one horizontal and one vertical (TokenInstance.cs, lines
  106-107 and 116-117).
- **Flip tokens and controls.** In this model a flip token never reverses anyone's controls. The axis
  readers consult the `isHrzFlipped`/`isVrtFlipped` flags (PlayerController.cs, lines 146 and 156),
  which nothing in the game sets. The flip timers a token sets are read only by the drop rule, where
  they forgive the self-stun (`Assets/PlayerDrop.cs`, line 29).
- **Round start.** OnEnable resets no timers and demotes no earlier catcher (GameController.cs,
  lines 45-46). See "## Findings".
- **Collision rule vs. catch trigger at the stun boundary.** The body collision moves the role only
  when the catcher's stun is strictly over (`stunnedUntil < now`, PlayerController.cs, line 277). The
  catch trigger refuses only while `now < stunnedUntil` (`Assets/PlayerCatch.cs`, line 19). So the two
  rules differ at `now == stunnedUntil` (`PlayerCatch.StunEndSplitsTheRules`).
- **Drop-impact catch.** The catch inside a drop impact does not look at the catcher's own stun
  (PlayerDrop.cs, lines 43-46).
- **Drop on level geometry.** A drop that starts while the player already touches level geometry
  ends within the same frame. The player's hit buffer gives it a 0.75 × stun-period self-stun
  (PlayerController.cs, lines 124-132).
- **Draw boundaries.** The draw compares the running total with `>=` (TokenInstance.cs, line 170).
  So the first entry of a table also takes draw 0, and the last entry gets one draw fewer than its
  weight.

## Model

The bodies of `Teleport`, `TeleportRandom` and the velocity scaling they use are in the engine base class
(`KinematicObject.cs` at lines 70-95, in the template's `Tutorial Defaults` copy). Their rows cite the
calls in the game's own code.

| member | source | states |
|---|---|---|
| Common.Scale | Assets/TeleportController.cs:26 | component-wise scaling of a velocity; the unit multiplier keeps it and the zero multiplier stops it |
| PlayerController.Cap | Assets/PlatformerTemplate/Scripts/Mechanics/PlayerController.cs:160-165 | a value below min gives min, one above max gives max (when min ≤ max), one inside is kept; with min ≤ max the result lies in [min, max] |
| PlayerController.GetXAxis | Assets/PlatformerTemplate/Scripts/Mechanics/PlayerController.cs:137-148 | zero while stunned; otherwise -1, 0 or 1, zero exactly inside the dead zone, and its sign is the raw sign negated iff flipped |
| PlayerController.GetYAxis | Assets/PlatformerTemplate/Scripts/Mechanics/PlayerController.cs:150-158 | zero while stunned; otherwise the raw magnitude, keeping the raw value exactly when not flipped |
| PlayerController.Ramp | Assets/PlatformerTemplate/Scripts/Mechanics/PlayerController.cs:78-101 | without input the intent moves toward zero by exactly three times the acceleration step, stopping at zero rather than crossing it, and snaps to zero inside the dead zone; with input it moves by the step and is clamped to the nearer end of [-1, 1] |
| PlayerController.CanJump | Assets/PlatformerTemplate/Scripts/Mechanics/PlayerController.cs:167-176 | whether a jump input is accepted; its policy is stated by `CanJumpPolicy` and `AirJumpOnlyForCatcher` |
| PlayerController.CanDrop | Assets/PlatformerTemplate/Scripts/Mechanics/PlayerController.cs:178-181 | a drop is accepted once the drop lockout is over; what an accepted drop does is stated by `AcceptedDrop` |
| PlayerController.CanJumpPolicy | Assets/PlatformerTemplate/Scripts/Mechanics/PlayerController.cs:167-176 | a jump is accepted only after the cooldown and outside a drop; in the air only a catcher with jump steps left may jump; both sufficient conditions |
| PlayerController.AirJumpOnlyForCatcher | Assets/PlatformerTemplate/Scripts/Mechanics/PlayerController.cs:172-173 | an airborne player past its cooldown with two steps used may jump again iff it is the catcher |
| PlayerController.JumpStep | Assets/PlatformerTemplate/Scripts/Mechanics/PlayerController.cs:183-215 | the jump state machine's step; characterised by `JumpStateTransitions` and `JumpStepBounds` |
| PlayerController.JumpStateTransitions | Assets/PlatformerTemplate/Scripts/Mechanics/PlayerController.cs:183-215 | each jump-machine transition: PrepareToJump starts a jump (one step more, counted from zero on the ground, cooldown set), Jumping→InFlight when airborne, InFlight→Landed on ground, Landed→Grounded resetting steps |
| PlayerController.InputStageBounds | Assets/PlatformerTemplate/Scripts/Mechanics/PlayerController.cs:77-114 | after the input stage the intent is in [-1, 1]; a jump is requested only when the vertical axis is above 0.2 and `CanJump` holds (so within the step count), and the drop state changes only when the axis is below -0.2, `CanDrop` holds and no jump is accepted |
| PlayerController.JumpStepBounds | Assets/PlatformerTemplate/Scripts/Mechanics/PlayerController.cs:188-213 | the jump machine never counts past three steps and never stays in PrepareToJump |
| PlayerController.TickKeepsSteady | Assets/PlatformerTemplate/Scripts/Mechanics/PlayerController.cs:75-135 | a whole logic tick preserves the steady state (step count in range, intent in [-1, 1], no pending stop) |
| PlayerController.VerticalInputGates | Assets/PlatformerTemplate/Scripts/Mechanics/PlayerController.cs:103-114 | an up axis with `CanJump` requests a jump and changes no drop or motion field; otherwise a down axis with `CanDrop` starts a drop with the 2·2.5 s lockout and the new velocity; the jump fields change only through the first gate, the drop and motion fields only through the second, and with neither gate nothing changes |
| PlayerController.NoJumpWithinCooldown | Assets/PlatformerTemplate/Scripts/Mechanics/PlayerController.cs:167-176 | a tick before `jumpableAfter` keeps the cooldown, enters Jumping only if already there, and keeps the step count unless it lands |
| PlayerController.NoDropWithinLockout | Assets/PlatformerTemplate/Scripts/Mechanics/PlayerController.cs:108-114 | a tick before `droppableAfter` keeps the lockout and starts no drop |
| PlayerController.NoJumpAgainWithinCooldown | Assets/PlatformerTemplate/Scripts/Mechanics/PlayerController.cs:188-195 | after a tick that accepts a jump at t, a tick before t + 0.25 keeps that cooldown and the step count |
| PlayerController.NoDropAgainWithinLockout | Assets/PlatformerTemplate/Scripts/Mechanics/PlayerController.cs:108-111 | after a tick that starts a drop at t, a tick before t + 5 keeps that lockout and starts no new drop |
| PlayerController.AcceptedJump | Assets/PlatformerTemplate/Scripts/Mechanics/PlayerController.cs:103-107 | an accepted jump ends the tick in Jumping with one more step, the cooldown set, the takeoff speed applied and no drop started |
| PlayerController.AcceptedDrop | Assets/PlatformerTemplate/Scripts/Mechanics/PlayerController.cs:108-132 | an accepted drop renews the drop lockout, doubles horizontal speed, sends the player downward, and ends at once with a self-stun iff level geometry is hit |
| PlayerController.ComputeVelocityStepSpec | Assets/PlatformerTemplate/Scripts/Mechanics/PlayerController.cs:217-242 | a pending jump sets the takeoff speed and is cleared, a released jump scales a rise by the deceleration and leaves a fall alone, the target velocity is intent times top speed, and nothing else changes |
| PlayerController.ReleasedJumpDamps | Assets/PlatformerTemplate/Scripts/Mechanics/PlayerController.cs:224-231 | with a deceleration in [0, 1] a released jump slows a rise without reversing it |
| PlayerController.TargetWithinTopSpeed | Assets/PlatformerTemplate/Scripts/Mechanics/PlayerController.cs:241 | with the intent in [-1, 1] the target velocity stays within plus or minus the top speed |
| PlayerController.HandoffKeepsOneCatcher | Assets/PlatformerTemplate/Scripts/Mechanics/PlayerController.cs:244-259 | demoting the only catcher and promoting another player leaves that player the only catcher |
| PlayerController.CollisionKeepsRoles | Assets/PlatformerTemplate/Scripts/Mechanics/PlayerController.cs:261-284 | a body collision between catcher and runner keeps exactly one of them catcher, grants the grace window on a transfer, and only replaces an expired stun |
| PlayerController.CollisionContact | Assets/PlatformerTemplate/Scripts/Mechanics/PlayerController.cs:261-284 | the body-collision rule between two players; characterised by `CollisionContactSpec` and `CollisionKeepsRoles` |
| PlayerController.CollisionContactSpec | Assets/PlatformerTemplate/Scripts/Mechanics/PlayerController.cs:261-284 | the collider's drop always ends; the other player is stunned only when its stun is over; the role moves iff the collider is a catcher whose stun is strictly over and the other is past its grace window and not dropping, the former catcher then getting the grace window and default speed; nothing else changes |
| PlayerController.Player.constructor | Assets/PlatformerTemplate/Scripts/Mechanics/PlayerController.cs:59-73 | the defaults become the current speeds, and P1 starts as catcher; the initial state is steady |
| PlayerController.Player.MakeCatcher | Assets/PlatformerTemplate/Scripts/Mechanics/PlayerController.cs:244-259 | the player becomes catcher with raised speed; a distinct previous catcher is demoted with its grace window |
| PlayerController.Player.Teleport | Assets/TeleportController.cs:31 | moves the player to the target and scales its velocity, nothing else |
| PlayerController.Player.TeleportRandom | Assets/PlatformerTemplate/Scripts/Mechanics/GameController.cs:35 | moves the player to the drawn point and, with the default multiplier, stops it |
| PlayerController.Player.UpdateJumpState | Assets/PlatformerTemplate/Scripts/Mechanics/PlayerController.cs:183-215 | the jump fields move exactly as the jump machine `JumpStep` says, everything else unchanged |
| PlayerController.Player.ComputeVelocity | Assets/PlatformerTemplate/Scripts/Mechanics/PlayerController.cs:217-242 | the state moves as `ComputeVelocityStep`: takeoff speed on a jump, damped rise on a released jump, target velocity from intent and speed |
| PlayerController.Player.RampMoveX | Assets/PlatformerTemplate/Scripts/Mechanics/PlayerController.cs:78-101 | only the horizontal intent changes, to `Ramp` of the old one |
| PlayerController.Player.VerticalInput | Assets/PlatformerTemplate/Scripts/Mechanics/PlayerController.cs:103-114 | the state moves as `ApplyVerticalInput`; the jump fields change only when the axis is above 0.2 and `CanJump` holds, and the drop fields only when the axis is below -0.2, `CanDrop` holds and no jump is accepted |
| PlayerController.Player.CheckLevelHits | Assets/PlatformerTemplate/Scripts/Mechanics/PlayerController.cs:124-132 | a drop touching level geometry ends with a self-stun, as `EndDropOnLevel` |
| PlayerController.Player.ReadInput | Assets/PlatformerTemplate/Scripts/Mechanics/PlayerController.cs:77-114 | the state moves as the input stage of a tick |
| PlayerController.Player.Update | Assets/PlatformerTemplate/Scripts/Mechanics/PlayerController.cs:75-135 | a frame moves the player exactly as `LogicTick`, about which the tick lemmas above are proved |
| PlayerController.Player.DropImpact | Assets/PlatformerTemplate/Scripts/Mechanics/PlayerController.cs:268-275 | the drop ends, and the other player is stunned only if its stun had expired |
| PlayerController.Player.OnCollisionEnter2D | Assets/PlatformerTemplate/Scripts/Mechanics/PlayerController.cs:261-284 | both players move as `CollisionContact`, and the single-catcher invariant of the roster is preserved |
| Contacts.GetOtherPlayer | Assets/PlayerDrop.cs:49-54 | a contact with a drop or catch shape belongs to that shape's parent player, any other contact to its own player |
| Contacts.GetOtherPlayerResolves | Assets/PlayerCatch.cs:30-35 | for a well-formed contact, a player's own collider and its child shapes resolve to that player |
| PlayerCatch.CanBeCaught | Assets/PlayerCatch.cs:37-42 | whether a player can be caught now; characterised by `CanBeCaughtPolicy` |
| PlayerCatch.CatchContact | Assets/PlayerCatch.cs:16-28 | the catch-trigger rule between owner and touched player; characterised by `CatchContactSpec` |
| PlayerCatch.CanBeCaughtPolicy | Assets/PlayerCatch.cs:37-42 | catchable iff the grace window is over and (dropping is ignored or the player is not dropping); ignoring dropping only widens it |
| PlayerCatch.NoCatchBackWithinGrace | Assets/PlatformerTemplate/Scripts/Mechanics/PlayerController.cs:252-253 | a demoted catcher cannot be caught back during its grace window |
| PlayerCatch.CollisionTestIsCanBeCaught | Assets/PlatformerTemplate/Scripts/Mechanics/PlayerController.cs:279 | the body-collision transfer test is the same as CanBeCaught with dropping not ignored |
| PlayerCatch.CatchContactSpec | Assets/PlayerCatch.cs:16-28 | the role moves exactly when the owner is an unstunned catcher and the other is catchable; both effects and drops are kept, the caught player keeps its catch window, and nothing but the two roles changes; otherwise nothing changes |
| PlayerCatch.StunEndSplitsTheRules | Assets/PlatformerTemplate/Scripts/Mechanics/PlayerController.cs:277 | at the instant a catcher's stun ends the body collision refuses the transfer while the catch trigger makes it |
| PlayerCatch.OnTriggerStay2D | Assets/PlayerCatch.cs:16-28 | both players move as `CatchContact`, a non-player contact changes nothing, and the single-catcher invariant is preserved |
| PlayerDrop.DropOnGeometry | Assets/PlayerDrop.cs:21-33 | the drop shape touching geometry; characterised by `DropOnGeometrySpec` while dropping and by `NotDroppingIgnoresContacts` otherwise |
| PlayerDrop.DropOnPlayer | Assets/PlayerDrop.cs:35-46 | the drop shape touching a player; characterised by `DropOnPlayerSpec` and `DropOnPlayerKeepsRoles` while dropping and by `NotDroppingIgnoresContacts` otherwise |
| PlayerDrop.DropOnGeometrySpec | Assets/PlayerDrop.cs:21-33 | a drop ends on geometry iff grounded and the object is neither the level nor the arena; the self-stun is skipped while flipped; nothing else changes |
| PlayerDrop.DropOnPlayerSpec | Assets/PlayerDrop.cs:35-46 | on a player the drop always ends, an active stun is kept, an expired one renewed, and the role moves iff the dropper is catcher and the other catchable, the dropper then getting the grace window and default speed; otherwise no role changes; nothing but the dropper's drop flag, the other's stun and the two roles changes |
| PlayerDrop.DropOnPlayerKeepsRoles | Assets/PlayerDrop.cs:43-46 | between a catcher and a runner the drop rule keeps exactly one of them catcher |
| PlayerDrop.DropIntoGeometry | Assets/PlayerDrop.cs:21-33 | the player moves as `DropOnGeometry` |
| PlayerDrop.DropOntoPlayer | Assets/PlayerDrop.cs:35-46 | both players move as `DropOnPlayer`, and the single-catcher invariant is preserved |
| PlayerDrop.NotDroppingIgnoresContacts | Assets/PlayerDrop.cs:16-19 | a player that is not dropping is left unchanged by geometry contacts, and neither it nor the touched player changes on a player contact |
| PlayerDrop.OnTriggerStay2D | Assets/PlayerDrop.cs:16-47 | a non-dropping player ignores contacts (`NotDroppingIgnoresContacts`); otherwise geometry and player contacts move the players as the two drop rules, keeping one catcher |
| TokenInstance.Pick | Assets/PlatformerTemplate/Scripts/Mechanics/TokenInstance.cs:166-173 | the chosen entry is the first whose running total reaches the draw, or the last entry when none does |
| TokenInstance.PickIsFirst | Assets/PlatformerTemplate/Scripts/Mechanics/TokenInstance.cs:166-173 | any entry fitting that description is the one chosen (the description determines the draw) |
| TokenInstance.PickBucket | Assets/PlatformerTemplate/Scripts/Mechanics/TokenInstance.cs:162-172 | for a draw in [0, total), the chosen entry's bucket (previous total, own total] contains it, the first entry also taking draw 0 |
| TokenInstance.CatcherActions | Assets/PlatformerTemplate/Scripts/Mechanics/TokenInstance.cs:145-151 | the catcher table totals 95; draws 0–20 give nothing, 21–55 flip the runners, 56–60 flip the catcher, 61–94 stun the runners |
| TokenInstance.NonCatcherActions | Assets/PlatformerTemplate/Scripts/Mechanics/TokenInstance.cs:152-158 | the runner table totals 85; draws 0–60 give nothing, 61–65 flip the runners, 66–80 flip the catcher, 81–84 stun the runners |
| TokenInstance.ActionIsInTable | Assets/PlatformerTemplate/Scripts/Mechanics/TokenInstance.cs:159-174 | for any draw the action comes from the table used and is never TeleportClose |
| TokenInstance.GetRandomAction | Assets/PlatformerTemplate/Scripts/Mechanics/TokenInstance.cs:159-174 | the running-total scan returns the action of the entry `Pick` characterises |
| TokenInstance.EffectsIdempotent | Assets/PlatformerTemplate/Scripts/Mechanics/TokenInstance.cs:101-127 | both flip timers are set to 9 s and the stun to 1.75 s from now; flips and stuns are idempotent and never touch the role |
| TokenInstance.FirstCatcher | Assets/PlatformerTemplate/Scripts/Mechanics/TokenInstance.cs:113 | the index of the first catcher in the roster, or none when there is no catcher |
| TokenInstance.FirstCatcherIsSole | Assets/PlatformerTemplate/Scripts/Mechanics/TokenInstance.cs:111-118 | under the single-catcher invariant the first catcher is the catcher |
| TokenInstance.Flip | Assets/PlatformerTemplate/Scripts/Mechanics/TokenInstance.cs:106-107 | both flip timers of the player are set to now + 9 s |
| TokenInstance.Stun | Assets/PlatformerTemplate/Scripts/Mechanics/TokenInstance.cs:125 | the player's stun timer is set to now + 1.75 s |
| TokenInstance.FlipNonChasersOf | Assets/PlatformerTemplate/Scripts/Mechanics/TokenInstance.cs:101-109 | every runner of the roster is flipped and the catcher untouched |
| TokenInstance.StunNonChasersOf | Assets/PlatformerTemplate/Scripts/Mechanics/TokenInstance.cs:120-127 | every runner of the roster is stunned and the catcher untouched |
| TokenInstance.FlipCatcherOf | Assets/PlatformerTemplate/Scripts/Mechanics/TokenInstance.cs:111-118 | only the first catcher is flipped; without a catcher nothing changes |
| TokenInstance.ApplyAction | Assets/PlatformerTemplate/Scripts/Mechanics/TokenInstance.cs:84-98 | the roster ends as the action prescribes, no role changes and the single-catcher invariant is kept |
| TokenInstance.DrawAndApply | Assets/PlatformerTemplate/Scripts/Mechanics/TokenInstance.cs:83-98 | the action drawn for the collector's role is the one applied to the roster |
| TokenInstance.TokenInstance.constructor | Assets/PlatformerTemplate/Scripts/Mechanics/TokenInstance.cs:22-34 | a new token is not collected and respawns at time zero |
| TokenInstance.TokenInstance.Update | Assets/PlatformerTemplate/Scripts/Mechanics/TokenInstance.cs:48-66 | once the respawn time is reached the token is uncollected, placed inside the arena and rescheduled; before it nothing changes |
| TokenInstance.TokenInstance.OnPlayerEnter | Assets/PlatformerTemplate/Scripts/Mechanics/TokenInstance.cs:75-99 | a collected token changes nothing; otherwise it is collected, parked, and the drawn action applied, with roles and the single-catcher invariant kept |
| TokenInstance.TokenInstance.OnTriggerEnter2D | Assets/PlatformerTemplate/Scripts/Mechanics/TokenInstance.cs:68-73 | only a player's own collider collects the token, and then the action drawn for that player's role is applied; any other contact changes nothing; the respawn time and every role stay, and so does the single-catcher invariant |
| GameController.PlatformerModel.constructor | Assets/PlatformerTemplate/Scripts/Mechanics/GameController.cs:30-32 | the roster and configured player count that OnEnable reads, with no active players yet |
| GameController.ActiveCount | Assets/PlatformerTemplate/Scripts/Mechanics/GameController.cs:29-43 | the number of active entries: the configured count cut to [0, roster size] |
| GameController.CatcherIndex | Assets/PlatformerTemplate/Scripts/Mechanics/GameController.cs:45-46 | the drawn active entry, a negative draw reading as zero, none past the end |
| GameController.PlaceRoster | Assets/PlatformerTemplate/Scripts/Mechanics/GameController.cs:29-43 | the first entries are activated and spawned at rest, the rest benched, and the active ones returned in roster order |
| GameController.OnEnable | Assets/PlatformerTemplate/Scripts/Mechanics/GameController.cs:25-47 | every player is placed and the drawn active player promoted; from a roster without a catcher it is then the sole catcher |
| GameController.RestartKeepsEarlierCatcher | Assets/PlatformerTemplate/Scripts/Mechanics/GameController.cs:45-46 | P1 (catcher since waking) and P2, started with the draw on P2, end with two catchers |
| GameController.ClearCatchers | Assets/PlatformerTemplate/Scripts/Mechanics/PlayerController.cs:252-256 | every roster player loses the role and its extra speed, nothing else changes |
| GameController.OnEnableUnseatingFirst | Assets/PlatformerTemplate/Scripts/Mechanics/GameController.cs:25-47 | the round start with earlier catchers demoted first: placement as OnEnable, and a draw among the active players leaves exactly one catcher whatever the roster held before |
| TeleportController.TeleportStep | Assets/TeleportController.cs:18-37 | the teleporter rule for the entering player; characterised by `TeleportStepSpec` and `NoTeleportWithinCooldown` |
| TeleportController.TeleportStepSpec | Assets/TeleportController.cs:18-37 | a teleport happens iff there is a destination and the cooldown is over: it moves the player, scales its velocity, starts the one-second cooldown, nothing else |
| TeleportController.NoTeleportWithinCooldown | Assets/TeleportController.cs:22-36 | any teleporter reached within the cooldown leaves a just-teleported player where it is |
| TeleportController.UnitMultiplierKeepsVelocity | Assets/TeleportController.cs:8-9 | with the default (1, 1) multiplier the player keeps its velocity |
| TeleportController.TeleportController.constructor | Assets/TeleportController.cs:13-16 | the configured axes become the velocity multiplier |
| TeleportController.TeleportController.OnTriggerEnter2D | Assets/TeleportController.cs:18-37 | the entering player moves exactly as `TeleportStep`, and only its state may change |

## Left out

- The engine's physics is not modelled. `grounded` and the shape-cast hits are inputs, and gravity,
  collision resolution and `base.Update` moving the body are out of scope.
- Input polling (`Input.GetAxis`) becomes the raw axis values passed to `Update`.
- `Random.Range` becomes parameters. The token draw `selected`, the spawn and respawn points and the
  catcher draw are given with the ranges the engine guarantees.
- Time (`Time.time`, `Time.deltaTime`) becomes the parameters `now` and `dt`.
- Float arithmetic is modelled as exact `real` arithmetic. For example, `1.8f * flipTime` is exactly 9.
- Sprites, animator, audio, local scale, the `Schedule` events, `GameObject.Find` and the UI
  controller are left out. They do not affect the rules.
- TeleportCloseToChaser is not modelled. Neither table contains TeleportClose, so it is unreachable
  (`TokenInstance.ActionIsInTable`), and the model treats it as leaving the roster unchanged.
- GameController.Update, Simulation.Tick, OnDisable, DeathZone and the rest of the template are
  outside this model.
- `GetPlayers` and `GetNonChasers` are not modelled as calls. `GetPlayers` returns the game model's
  active players, and `GetNonChasers` keeps those that are not catchers. The `players` argument of the
  token rules (`TokenInstance.ApplyAction` and the methods it calls) stands for those active players,
  not for the whole roster `model.players`, which also holds the benched ones.
- The arena-not-found case of TeleportRandom is left out. The arena is always present, and the spawn
  point is a parameter.
- The flip booleans and the flip timers are not connected. The axis readers `GetXAxis` and `GetYAxis`
  read `isHrzFlipped`/`isVrtFlipped`, while tokens write the `*FlippedUntil` timers, and the code
  never links the two. So in this model a flip token never reverses anyone's controls. Its only
  effect is that a flipped player's drop on geometry carries no self-stun (PlayerDrop.cs, line 29).
- Each weight table is scanned in the order its entries are written (TokenInstance.cs, lines
  145-158). The `Dictionary` enumeration order that the scan and its `.Last()` fallback rely on is
  taken to be that insertion order.
- `PlayerController.DropStunPeriod`, used by PlayerDrop.cs at lines 31 and 39, is taken to be the
  constant `dropStunPeriod = 2.5` that PlayerController.cs declares at line 55.
- PlayerController.Player.OnCollisionEnter2D, PlayerCatch.OnTriggerStay2D and
  PlayerDrop.OnTriggerStay2D require that the touched player is not the shape's owner. The engine
  never reports contacts between colliders of one body.
- GameController.OnEnable and GameController.PlaceRoster require a roster without repeated entries,
  one spawn point per entry.
- PlayerController.ReleasedJumpDamps and the `stopJump` clauses of
  PlayerController.ComputeVelocityStepSpec describe a branch that no reachable state takes. The only
  code that sets `stopJump` is commented out (PlayerController.cs, lines 115-119), and
  `PlayerController.Steady` keeps the flag false. The branch is modelled because ComputeVelocity still
  contains it.
- GameController.OnEnable: the single-catcher guarantee is stated only for a roster that had no
  catcher before. OnEnable does not clear an earlier catcher, so from any other roster it can leave
  two catchers (see "## Findings").
- TokenInstance.TokenInstance.OnPlayerEnter writes the token's own fields after applying the
  action, where the code writes them before. The token and the players share no state, so the final
  state is the same.
- `MakeCatcher` uses its time argument only to demote a previous catcher. OnEnable passes no previous
  catcher, so the time it would pass is irrelevant.
- TeleportController.TeleportController.OnTriggerEnter2D omits the unused local copy of the player's
  velocity.

## Findings

| source | as written | input that shows it | evidently intended | confidence | as-written member | corrected member |
|---|---|---|---|---|---|---|
| Assets/PlatformerTemplate/Scripts/Mechanics/GameController.cs:45-46 | a round start promotes the drawn active player but demotes nobody, and the player named P1 is already catcher from waking (PlayerController.cs, line 72) | roster [P1, P2], both active, catcher draw 1: P1 and P2 are both catchers | every earlier catcher is demoted before the drawn player is promoted, so each round starts with exactly one catcher | not executed; medium | GameController.OnEnable, GameController.RestartKeepsEarlierCatcher | GameController.OnEnableUnseatingFirst |
