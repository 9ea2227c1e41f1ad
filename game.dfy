/** Starting a round: the first `activePlayerCount` players of the roster are
    activated and spawned inside the arena, the rest are benched, and one active
    player, picked by a draw, becomes the catcher. */
module GameController {
  import opened Common
  import opened PlayerController

  /** The shared game model: the roster, how many of it play, and who plays. */
  class PlatformerModel {
    const players: seq<Player>
    var activePlayerCount: int
    var activePlayers: seq<Player>

    constructor (players: seq<Player>, activePlayerCount: int)
      ensures this.players == players && this.activePlayerCount == activePlayerCount
      ensures activePlayers == []
    {
      this.players := players;
      this.activePlayerCount := activePlayerCount;
      activePlayers := [];
    }
  }

  /** How many roster entries are active: the configured count, cut to the roster. */
  function ActiveCount(activePlayerCount: int, n: nat): (r: nat)
    ensures r <= n
    ensures 0 <= activePlayerCount <= n ==> r == activePlayerCount
    ensures activePlayerCount < 0 ==> r == 0
    ensures activePlayerCount > n ==> r == n
  {
    if activePlayerCount < 0 then 0 else if activePlayerCount > n then n else activePlayerCount
  }

  /** The active player that becomes catcher for draw `draw`: skipping `draw`
      entries (none when negative) and taking the next one, if any. */
  function CatcherIndex(draw: int, n: nat): (r: Option<nat>)
    ensures r.Some? <==> (if draw < 0 then 0 else draw) < n
    ensures r.Some? ==> r.value < n
    ensures 0 <= draw < n ==> r == Some(draw)
  {
    var k := if draw < 0 then 0 else draw;
    if k < n then Some(k) else None
  }

  /** An active player: visible, at its spawn point and at rest. */
  function Spawned(s: PlayerState, at: Vec): PlayerState
  {
    s.(motion := s.motion.(position := at, velocity := Vec(0.0, 0.0), active := true))
  }

  /** A benched player: hidden, otherwise untouched. */
  function Benched(s: PlayerState): PlayerState
  {
    s.(motion := s.motion.(active := false))
  }

  /** A roster lists each player object once. */
  predicate Distinct(ps: seq<Player>)
  {
    forall i, j :: 0 <= i < j < |ps| ==> ps[i] != ps[j]
  }

  /** The state of roster entry `i` after the loop over the roster. */
  function Placed(s: PlayerState, i: nat, count: int, spawns: seq<Vec>): PlayerState
    requires i < |spawns|
  {
    if i < count then Spawned(s, spawns[i]) else Benched(s)
  }

  /** The loop of OnEnable: activates and spawns the first `count` entries of the
      roster, benches the others, and returns the active ones in roster order. */
  method PlaceRoster(players: seq<Player>, count: int, spawns: seq<Vec>) returns (activePlayers: seq<Player>)
    requires |spawns| == |players| && Distinct(players)
    modifies set p | p in players
    ensures activePlayers == players[..ActiveCount(count, |players|)]
    ensures forall j :: 0 <= j < |players| ==>
              players[j].State() == Placed(old(players[j].State()), j, count, spawns)
  {
    ghost var n := ActiveCount(count, |players|);
    activePlayers := [];
    var i := 0;
    while i < |players|
      invariant 0 <= i <= |players|
      invariant activePlayers == players[..if i < n then i else n]
      invariant forall j :: 0 <= j < i ==> players[j].State() == Placed(old(players[j].State()), j, count, spawns)
      invariant forall j :: i <= j < |players| ==> players[j].State() == old(players[j].State())
    {
      var p := players[i];
      if i < count {
        if p.active == false { p.active := true; }
        p.TeleportRandom(spawns[i]);
        activePlayers := activePlayers + [p];
      } else {
        p.active := false;
      }
      i := i + 1;
    }
  }

  /** OnEnable. `spawns[i]` is the position drawn inside the arena for roster
      entry `i` (used only when it is active) and `draw` the catcher draw. */
  method OnEnable(model: PlatformerModel, spawns: seq<Vec>, draw: int)
    requires |spawns| == |model.players| && Distinct(model.players)
    modifies model, set p | p in model.players
    ensures model.activePlayerCount == old(model.activePlayerCount)
    ensures model.activePlayers == model.players[..ActiveCount(model.activePlayerCount, |model.players|)]
    ensures var n := ActiveCount(model.activePlayerCount, |model.players|);
      forall i :: 0 <= i < |model.players| ==>
        model.players[i].State() ==
          var s := Placed(old(model.players[i].State()), i, model.activePlayerCount, spawns);
          if CatcherIndex(draw, n) == Some(i) then Promoted(s) else s
    ensures var n := ActiveCount(model.activePlayerCount, |model.players|);
      0 <= draw < n && (forall p :: p in model.players ==> !old(p.isCatcher)) ==>
        SoleCatcher(model.players, model.players[draw]) && ExactlyOneCatcher(model.players)
    ensures var n := ActiveCount(model.activePlayerCount, |model.players|);
      CatcherIndex(draw, n).None? ==> forall p :: p in model.players ==> p.isCatcher == old(p.isCatcher)
  {
    var activePlayers := PlaceRoster(model.players, model.activePlayerCount, spawns);
    model.activePlayers := activePlayers;

    var k := if draw < 0 then 0 else draw;
    if k < |model.activePlayers| {
      var catcher := model.activePlayers[k];
      catcher.MakeCatcher(null, 0.0);
      if forall p :: p in model.players ==> !old(p.isCatcher) {
        assert forall j :: 0 <= j < |model.players| && model.players[j] != catcher ==> !model.players[j].isCatcher;
        assert SoleCatcher(model.players, catcher);
      }
    }
  }

  // ---------------------------------------------------------------------------
  // A round start after an earlier catcher

  /** A roster of P1 and P2 started with the draw on P2 ends with two catchers:
      P1 became catcher on waking and OnEnable demotes nobody. */
  method RestartKeepsEarlierCatcher() returns (model: PlatformerModel)
    ensures |model.players| == 2 && model.players[0] != model.players[1]
    ensures model.players[0].isCatcher && model.players[1].isCatcher
    ensures !ExactlyOneCatcher(model.players)
  {
    var p1 := new Player("P1", 5.0, 7.0, 1.0, Vec(0.0, 0.0));
    var p2 := new Player("P2", 5.0, 7.0, 1.0, Vec(0.0, 0.0));
    model := new PlatformerModel([p1, p2], 2);
    OnEnable(model, [Vec(1.0, 1.0), Vec(2.0, 2.0)], 1);
  }

  /** A player without the catcher role and its extra speed. */
  function Unseated(s: PlayerState): PlayerState
  {
    s.(role := s.role.(isCatcher := false, maxSpeed := s.config.defaultMaxSpeed))
  }

  /** Takes the catcher role from every player of the roster. */
  method ClearCatchers(players: seq<Player>)
    modifies set p | p in players
    ensures forall p :: p in players ==> p.State() == Unseated(old(p.State()))
  {
    var i := 0;
    while i < |players|
      invariant 0 <= i <= |players|
      invariant forall p :: p in players ==>
                  p.State() == if p in players[..i] then Unseated(old(p.State())) else old(p.State())
    {
      var p := players[i];
      p.isCatcher := false;
      p.maxSpeed := p.defaultMaxSpeed;
      assert players[..i + 1] == players[..i] + [p];
      i := i + 1;
    }
    assert players[..i] == players;
  }

  /** OnEnable with every earlier catcher demoted first: the earlier catchers lose
      the role before the drawn active player is made catcher, so whatever the
      roster held before, a draw among the active players leaves exactly one. */
  method OnEnableUnseatingFirst(model: PlatformerModel, spawns: seq<Vec>, draw: int)
    requires |spawns| == |model.players| && Distinct(model.players)
    modifies model, set p | p in model.players
    ensures model.activePlayers == model.players[..ActiveCount(model.activePlayerCount, |model.players|)]
    ensures var n := ActiveCount(model.activePlayerCount, |model.players|);
      forall i :: 0 <= i < |model.players| ==>
        model.players[i].State() ==
          var s := Unseated(Placed(old(model.players[i].State()), i, model.activePlayerCount, spawns));
          if CatcherIndex(draw, n) == Some(i) then Promoted(s) else s
    ensures var n := ActiveCount(model.activePlayerCount, |model.players|);
      CatcherIndex(draw, n).Some? ==> ExactlyOneCatcher(model.players)
    ensures var n := ActiveCount(model.activePlayerCount, |model.players|);
      CatcherIndex(draw, n).None? ==> forall p :: p in model.players ==> !p.isCatcher
  {
    var activePlayers := PlaceRoster(model.players, model.activePlayerCount, spawns);
    model.activePlayers := activePlayers;
    ClearCatchers(model.players);

    var k := if draw < 0 then 0 else draw;
    if k < |model.activePlayers| {
      var catcher := model.activePlayers[k];
      catcher.MakeCatcher(null, 0.0);
      assert forall j :: 0 <= j < |model.players| && model.players[j] != catcher ==> !model.players[j].isCatcher;
      assert SoleCatcher(model.players, catcher);
    }
  }
}
