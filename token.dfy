/** A collectible token: collecting it draws a random action from a weighted
    table (one for the catcher, one for everyone else) and applies it to the
    roster; a collected token respawns somewhere in the arena after an interval. */
module TokenInstance {
  import C = Common
  import P = PlayerController
  import opened Contacts

  datatype RandomAction = None | FlipNonChasers | FlipChaser | StunNonChasers | TeleportClose

  /** One entry of a weight table, in the table's insertion order. */
  datatype Chance = Chance(action: RandomAction, weight: int)

  /** Seconds of one flip unit; a flip lasts 1.8 units. */
  const FlipTime: real := 5.0

  /** The table used when the collector is the catcher. */
  const CatcherChances: seq<Chance> :=
    [Chance(None, 20), Chance(FlipNonChasers, 35), Chance(FlipChaser, 5), Chance(StunNonChasers, 35)]

  /** The table used when the collector is not the catcher. */
  const NonCatcherChances: seq<Chance> :=
    [Chance(None, 60), Chance(FlipNonChasers, 5), Chance(FlipChaser, 15), Chance(StunNonChasers, 5)]

  function ChancesFor(isCatcher: bool): seq<Chance>
  {
    if isCatcher then CatcherChances else NonCatcherChances
  }

  /** Sum of the weights of the first `n` entries. */
  function Prefix(t: seq<Chance>, n: nat): int
    requires n <= |t|
  {
    if n == 0 then 0 else Prefix(t, n - 1) + t[n - 1].weight
  }

  /** The running total once entry `j` has been added. */
  function Running(t: seq<Chance>, j: nat): int
    requires j < |t|
  {
    Prefix(t, j + 1)
  }

  function Total(t: seq<Chance>): int
  {
    Prefix(t, |t|)
  }

  /** The entry chosen for draw `d`, scanning from entry `k`: the first whose
      running total reaches the draw, or the last entry when none does. */
  function Pick(t: seq<Chance>, d: int, k: nat): (i: nat)
    requires k < |t|
    ensures k <= i < |t|
    ensures Running(t, i) >= d || i == |t| - 1
    ensures forall j :: k <= j < i ==> Running(t, j) < d
    decreases |t| - k
  {
    if Running(t, k) >= d || k == |t| - 1 then k else Pick(t, d, k + 1)
  }

  /** The action chosen for draw `selected` by a collector who is catcher or not. */
  function ActionFor(isCatcher: bool, selected: int): RandomAction
  {
    var t := ChancesFor(isCatcher);
    t[Pick(t, selected, 0)].action
  }

  /** An entry that fits the description of Pick is the one Pick returns. */
  lemma {:induction false} PickIsFirst(t: seq<Chance>, d: int, k: nat, i: nat)
    requires k <= i < |t|
    requires Running(t, i) >= d || i == |t| - 1
    requires forall j :: k <= j < i ==> Running(t, j) < d
    ensures Pick(t, d, k) == i
    decreases i - k
  {
    if k < i {
      PickIsFirst(t, d, k + 1, i);
    }
  }

  /** For a draw in [0, Total), the chosen entry's bucket
      holds the draw: entry i takes the draws in (Prefix(i), Prefix(i+1)], and the
      first entry also takes draw 0. */
  lemma PickBucket(t: seq<Chance>, d: int)
    requires |t| > 0
    requires 0 <= d < Total(t)
    ensures var i := Pick(t, d, 0); d <= Running(t, i) && (Prefix(t, i) < d || (i == 0 && d == 0))
  {
    var i := Pick(t, d, 0);
    if i > 0 {
      assert Running(t, i - 1) < d;
    }
  }

  /** The catcher's draws in [0, 95): 0..20 give None, 21..55 flip the runners,
      56..60 flip the catcher and 61..94 stun the runners. */
  lemma CatcherActions(d: int)
    requires 0 <= d < Total(CatcherChances)
    ensures Total(CatcherChances) == 95
    ensures ActionFor(true, d) == None <==> d <= 20
    ensures ActionFor(true, d) == FlipNonChasers <==> 21 <= d <= 55
    ensures ActionFor(true, d) == FlipChaser <==> 56 <= d <= 60
    ensures ActionFor(true, d) == StunNonChasers <==> 61 <= d
  {
    var t := CatcherChances;
    assert Prefix(t, 1) == 20 && Prefix(t, 2) == 55 && Prefix(t, 3) == 60 && Prefix(t, 4) == 95;
    PickBucket(t, d);
  }

  /** The runners' draws in [0, 85): 0..60 give None, 61..65 flip the runners,
      66..80 flip the catcher and 81..84 stun the runners. */
  lemma NonCatcherActions(d: int)
    requires 0 <= d < Total(NonCatcherChances)
    ensures Total(NonCatcherChances) == 85
    ensures ActionFor(false, d) == None <==> d <= 60
    ensures ActionFor(false, d) == FlipNonChasers <==> 61 <= d <= 65
    ensures ActionFor(false, d) == FlipChaser <==> 66 <= d <= 80
    ensures ActionFor(false, d) == StunNonChasers <==> 81 <= d
  {
    var t := NonCatcherChances;
    assert Prefix(t, 1) == 60 && Prefix(t, 2) == 65 && Prefix(t, 3) == 80 && Prefix(t, 4) == 85;
    PickBucket(t, d);
  }

  /** Whatever the draw, the chosen action is an action of the table used, and
      never TeleportClose. */
  lemma ActionIsInTable(isCatcher: bool, selected: int)
    ensures exists j :: 0 <= j < |ChancesFor(isCatcher)| && ChancesFor(isCatcher)[j].action == ActionFor(isCatcher, selected)
    ensures ActionFor(isCatcher, selected) != TeleportClose
  {
    var t := ChancesFor(isCatcher);
    var i := Pick(t, selected, 0);
    assert t[i].action == ActionFor(isCatcher, selected);
  }

  /** The draw of an action, scanning the table with a running total. */
  method GetRandomAction(isCatcher: bool, selected: int) returns (a: RandomAction)
    ensures a == ActionFor(isCatcher, selected)
  {
    var chances := ChancesFor(isCatcher);
    var pointer := 0;
    var i := 0;
    while i < |chances|
      invariant 0 <= i <= |chances|
      invariant pointer == Prefix(chances, i)
      invariant forall j :: 0 <= j < i ==> Running(chances, j) < selected
    {
      pointer := pointer + chances[i].weight;
      if pointer >= selected {
        PickIsFirst(chances, selected, 0, i);
        return chances[i].action;
      }
      i := i + 1;
    }
    PickIsFirst(chances, selected, 0, |chances| - 1);
    return chances[|chances| - 1].action;
  }

  // ---------------------------------------------------------------------------
  // What the actions do to one player

  /** Both flip timers are overwritten, not extended. */
  function Flipped(s: P.PlayerState, now: real): P.PlayerState
  {
    s.(effects := s.effects.(hrzFlippedUntil := now + 1.8 * FlipTime, vrtFlippedUntil := now + 1.8 * FlipTime))
  }

  function Stunned(s: P.PlayerState, now: real): P.PlayerState
  {
    s.(effects := s.effects.(stunnedUntil := now + 0.7 * P.DropStunPeriod))
  }

  /** The effects set a timer to a fixed time, so applying one twice is applying it
      once, and they never touch the catcher role. */
  lemma EffectsIdempotent(s: P.PlayerState, now: real)
    ensures Flipped(Flipped(s, now), now) == Flipped(s, now)
    ensures Stunned(Stunned(s, now), now) == Stunned(s, now)
    ensures Flipped(s, now).role == s.role && Stunned(s, now).role == s.role
    ensures Flipped(s, now).effects.hrzFlippedUntil == now + 9.0
    ensures Flipped(s, now).effects.vrtFlippedUntil == now + 9.0
    ensures Stunned(s, now).effects.stunnedUntil == now + 1.75
  {
  }

  /** Index of the first catcher of the roster at or after `k`, if any. */
  function FirstCatcher(ps: seq<P.Player>, k: nat): (r: C.Option<nat>)
    requires k <= |ps|
    reads set p | p in ps
    ensures r.Some? ==> k <= r.value < |ps| && ps[r.value].isCatcher
                        && forall j :: k <= j < r.value ==> !ps[j].isCatcher
    ensures r.None? ==> forall j :: k <= j < |ps| ==> !ps[j].isCatcher
    decreases |ps| - k
  {
    if k == |ps| then C.None
    else if ps[k].isCatcher then C.Some(k)
    else FirstCatcher(ps, k + 1)
  }

  /** Under the single-catcher invariant the first catcher is the catcher. */
  lemma FirstCatcherIsSole(ps: seq<P.Player>, c: P.Player)
    requires P.SoleCatcher(ps, c)
    ensures FirstCatcher(ps, 0).Some? && ps[FirstCatcher(ps, 0).value] == c
  {
    var i :| 0 <= i < |ps| && ps[i] == c;
    assert FirstCatcher(ps, 0).Some?;
  }

  // ---------------------------------------------------------------------------
  // The actions on the roster

  /** Sets both flip timers of one player. */
  method Flip(p: P.Player, now: real)
    modifies p
    ensures p.State() == Flipped(old(p.State()), now)
  {
    p.hrzFlippedUntil := now + 1.8 * FlipTime;
    p.vrtFlippedUntil := now + 1.8 * FlipTime;
  }

  /** Sets the stun timer of one player. */
  method Stun(p: P.Player, now: real)
    modifies p
    ensures p.State() == Stunned(old(p.State()), now)
  {
    p.stunnedUntil := now + 0.7 * P.DropStunPeriod;
  }

  /** Flips every player of the roster who is not the catcher. */
  method FlipNonChasersOf(players: seq<P.Player>, now: real)
    modifies set p | p in players
    ensures forall p :: p in players ==>
              p.State() == if old(p.isCatcher) then old(p.State()) else Flipped(old(p.State()), now)
  {
    var i := 0;
    while i < |players|
      invariant 0 <= i <= |players|
      invariant forall p :: p in players ==> p.isCatcher == old(p.isCatcher)
      invariant forall p :: p in players ==>
                  p.State() == if p in players[..i] && !old(p.isCatcher) then Flipped(old(p.State()), now) else old(p.State())
    {
      var p := players[i];
      if !p.isCatcher {
        Flip(p, now);
      }
      assert players[..i + 1] == players[..i] + [p];
      i := i + 1;
    }
    assert players[..i] == players;
  }

  /** Stuns every player of the roster who is not the catcher. */
  method StunNonChasersOf(players: seq<P.Player>, now: real)
    modifies set p | p in players
    ensures forall p :: p in players ==>
              p.State() == if old(p.isCatcher) then old(p.State()) else Stunned(old(p.State()), now)
  {
    var i := 0;
    while i < |players|
      invariant 0 <= i <= |players|
      invariant forall p :: p in players ==> p.isCatcher == old(p.isCatcher)
      invariant forall p :: p in players ==>
                  p.State() == if p in players[..i] && !old(p.isCatcher) then Stunned(old(p.State()), now) else old(p.State())
    {
      var p := players[i];
      if !p.isCatcher {
        Stun(p, now);
      }
      assert players[..i + 1] == players[..i] + [p];
      i := i + 1;
    }
    assert players[..i] == players;
  }

  /** Flips the first catcher of the roster; without a catcher nothing happens. */
  method FlipCatcherOf(players: seq<P.Player>, now: real)
    modifies set p | p in players
    ensures var f := old(FirstCatcher(players, 0));
      forall p :: p in players ==>
        p.State() == if f.Some? && p == players[f.value] then Flipped(old(p.State()), now) else old(p.State())
  {
    var chaser := FirstCatcher(players, 0);
    if chaser.None? { return; }
    var c := players[chaser.value];
    Flip(c, now);
  }

  /** The roster after `action`, player by player. TeleportClose is never drawn
      and its effect is not part of this model, so it is read as leaving the
      roster as it was. */
  twostate predicate ActionApplied(action: RandomAction, players: seq<P.Player>, now: real)
    reads set p | p in players
  {
    match action
    case FlipNonChasers =>
      forall p :: p in players ==>
        p.State() == if old(p.isCatcher) then old(p.State()) else Flipped(old(p.State()), now)
    case StunNonChasers =>
      forall p :: p in players ==>
        p.State() == if old(p.isCatcher) then old(p.State()) else Stunned(old(p.State()), now)
    case FlipChaser =>
      var f := old(FirstCatcher(players, 0));
      forall p :: p in players ==>
        p.State() == if f.Some? && p == players[f.value] then Flipped(old(p.State()), now) else old(p.State())
    case _ =>
      forall p :: p in players ==> p.State() == old(p.State())
  }

  /** The switch over the drawn action. */
  method ApplyAction(action: RandomAction, players: seq<P.Player>, now: real)
    modifies set p | p in players
    ensures ActionApplied(action, players, now)
    ensures forall p :: p in players ==> p.isCatcher == old(p.isCatcher)
    ensures old(P.ExactlyOneCatcher(players)) ==> P.ExactlyOneCatcher(players)
  {
    match action {
      case FlipNonChasers => FlipNonChasersOf(players, now);
      case FlipChaser => FlipCatcherOf(players, now);
      case StunNonChasers => StunNonChasersOf(players, now);
      case TeleportClose =>
      case None =>
    }
  }

  /** The action drawn for the collector, applied to the roster. */
  method DrawAndApply(player: P.Player, players: seq<P.Player>, selected: int, now: real)
    modifies set p | p in players
    ensures ActionApplied(ActionFor(old(player.isCatcher), selected), players, now)
    ensures forall p :: p in players ==> p.isCatcher == old(p.isCatcher)
    ensures old(P.ExactlyOneCatcher(players)) ==> P.ExactlyOneCatcher(players)
  {
    var randomAction := GetRandomAction(player.isCatcher, selected);
    assert forall p :: p in players ==> p.State() == old(p.State()) && p.isCatcher == old(p.isCatcher);
    assert FirstCatcher(players, 0) == old(FirstCatcher(players, 0));
    ApplyAction(randomAction, players, now);
  }

  // ---------------------------------------------------------------------------
  // The token

  /** An axis-aligned box, such as the arena's collider bounds. */
  datatype Bounds = Bounds(min: C.Vec, max: C.Vec)

  predicate Inside(b: Bounds, v: C.Vec)
  {
    b.min.x <= v.x <= b.max.x && b.min.y <= v.y <= b.max.y
  }

  /** Where a collected token is parked until it respawns. */
  const Parked: C.Vec := C.Vec(-1000.0, -1000.0)

  class TokenInstance {
    var collected: bool
    var respawnAt: real
    const respawnInterval: real
    var position: C.Vec

    constructor (respawnInterval: real, position: C.Vec)
      ensures !collected && respawnAt == 0.0
      ensures this.respawnInterval == respawnInterval && this.position == position
    {
      collected := false;
      respawnAt := 0.0;
      this.respawnInterval := respawnInterval;
      this.position := position;
    }

    /** The respawn branch of the per-frame update; `x` and `y` are the uniform
        draws within the arena's bounds. */
    method Update(now: real, area: Bounds, x: real, y: real)
      requires area.min.x <= x <= area.max.x && area.min.y <= y <= area.max.y
      modifies this
      ensures old(respawnAt) <= now ==>
                !collected && respawnAt == now + respawnInterval && position == C.Vec(x, y) && Inside(area, position)
      ensures now < old(respawnAt) ==>
                collected == old(collected) && respawnAt == old(respawnAt) && position == old(position)
    {
      if respawnAt <= now {
        position := C.Vec(x, y);
        collected := false;
        respawnAt := now + respawnInterval;
      }
    }

    /** A player touches the token. A collected token ignores it; otherwise the
        token is collected and parked, and the action drawn for the collector
        (`selected` is the draw) is applied to the roster. */
    method OnPlayerEnter(player: P.Player, players: seq<P.Player>, selected: int, now: real)
      modifies this, set p | p in players
      ensures respawnAt == old(respawnAt) && collected
      ensures old(collected) ==> position == old(position) && forall p :: p in players ==> p.State() == old(p.State())
      ensures !old(collected) ==> position == Parked && ActionApplied(ActionFor(old(player.isCatcher), selected), players, now)
      ensures forall p :: p in players ==> p.isCatcher == old(p.isCatcher)
      ensures old(P.ExactlyOneCatcher(players)) ==> P.ExactlyOneCatcher(players)
    {
      if collected { return; }

      // The token's own fields and the players' are disjoint, so writing the
      // token's after the action's leaves the same final state.
      DrawAndApply(player, players, selected, now);

      collected := true;
      position := Parked;
    }

    /** The token's trigger: only a contact with a player's own collider counts. */
    method OnTriggerEnter2D(other: Collider, players: seq<P.Player>, selected: int, now: real)
      modifies this, set p | p in players
      ensures other.own == null ==>
                collected == old(collected) && position == old(position) && respawnAt == old(respawnAt)
                && forall p :: p in players ==> p.State() == old(p.State())
      ensures other.own != null && old(collected) ==>
                collected && position == old(position) && forall p :: p in players ==> p.State() == old(p.State())
      ensures respawnAt == old(respawnAt)
      ensures other.own != null && !old(collected) ==>
                collected && position == Parked
                && ActionApplied(ActionFor(old(other.own.isCatcher), selected), players, now)
      ensures forall p :: p in players ==> p.isCatcher == old(p.isCatcher)
      ensures old(P.ExactlyOneCatcher(players)) ==> P.ExactlyOneCatcher(players)
    {
      var player := other.own;
      if player != null {
        OnPlayerEnter(player, players, selected, now);
      }
    }
  }
}
