/** The frame step and the initial state (src/engine/engine.ts). The step is specified
    by `Step`, a function of the previous snapshot and the held keys; `UpdateState` is the
    imperative version that updates a deep copy in place. */
module Engine {
  import opened Constants
  import opened Types
  import opened Collision
  import opened PlayerBehaviour
  import opened EnemyBehaviour
  import opened CoinBehaviour
  import opened StarBehaviour
  import opened SpikeBehaviour
  import opened TileMapLoader

  // ---------------------------------------------------------------- the three passes

  datatype EnemiesOutcome = EnemiesOutcome(enemies: seq<Entity>, player: PlayerRec, events: seq<Event>)

  /** `enemies.map(updateEnemy)`: each enemy sees the player as the enemies before it left
      it, and the damage calls are collected in order. */
  function Enemies(es: seq<Entity>, p: PlayerRec, ps: seq<Entity>): (r: EnemiesOutcome)
    decreases |es|
    ensures |r.enemies| == |es| && |r.events| <= |es|
    ensures forall i :: 0 <= i < |es| ==>
              r.enemies[i].id == es[i].id && r.enemies[i].pos.y == es[i].pos.y &&
              r.enemies[i].size == es[i].size && (es[i].isDead ==> r.enemies[i].isDead)
    ensures r.player == p.(vel := p.vel.(y := r.player.vel.y))
    ensures forall i :: 0 <= i < |r.events| ==> r.events[i] == Damage(false)
  {
    if es == [] then EnemiesOutcome([], p, [])
    else
      var r0 := Enemies(es[..|es| - 1], p, ps);
      var o := EnemyStep(es[|es| - 1], r0.player, ps);
      EnemiesOutcome(r0.enemies + [o.enemy], o.player, r0.events + o.events)
  }

  datatype CoinsOutcome = CoinsOutcome(coins: seq<Entity>, player: PlayerRec)

  /** The number of coins a pass collected: uncollected before, collected after. */
  function NewlyCollected(before: seq<Entity>, after: seq<Entity>): nat
    requires |before| == |after|
    decreases |before|
  {
    if before == [] then 0
    else
      var n := |before| - 1;
      NewlyCollected(before[..n], after[..n]) + (if !before[n].isCollected && after[n].isCollected then 1 else 0)
  }

  lemma {:induction false} NothingNewlyCollected(cs: seq<Entity>)
    ensures NewlyCollected(cs, cs) == 0
    decreases |cs|
  {
    if cs != [] {
      NothingNewlyCollected(cs[..|cs| - 1]);
    }
  }

  /** `coins.map(updateCoin)`: the score rises by the coin value once per coin collected. */
  function Coins(cs: seq<Entity>, p: PlayerRec): (r: CoinsOutcome)
    decreases |cs|
    ensures |r.coins| == |cs|
    ensures forall i :: 0 <= i < |cs| ==>
              r.coins[i] == cs[i].(isCollected := r.coins[i].isCollected) &&
              (cs[i].isCollected ==> r.coins[i].isCollected)
    ensures r.player == p.(score := r.player.score)
    ensures r.player.score == p.score + COIN_VALUE * NewlyCollected(cs, r.coins)
  {
    if cs == [] then CoinsOutcome([], p)
    else
      var n := |cs| - 1;
      var r0 := Coins(cs[..n], p);
      var o := CoinStep(cs[n], r0.player);
      var r := CoinsOutcome(r0.coins + [o.coin], o.player);
      assert r.coins[..n] == r0.coins;
      r
  }

  datatype SpikesOutcome = SpikesOutcome(spikes: seq<Entity>, events: seq<Event>)

  /** The number of spikes the player touches. */
  function Touching(ss: seq<Entity>, p: PlayerRec): nat
    decreases |ss|
  {
    if ss == [] then 0
    else Touching(ss[..|ss| - 1], p) + (if Overlaps(p.Bounds(), ss[|ss| - 1].Bounds()) then 1 else 0)
  }

  /** `spikes.map(updateSpike)`: the list comes back as it was, with one damage call per
      spike touched. */
  function Spikes(ss: seq<Entity>, p: PlayerRec): (r: SpikesOutcome)
    decreases |ss|
    ensures r.spikes == ss
    ensures |r.events| == Touching(ss, p)
    ensures forall i :: 0 <= i < |r.events| ==> r.events[i] == Damage(false)
  {
    if ss == [] then SpikesOutcome([], [])
    else
      var r0 := Spikes(ss[..|ss| - 1], p);
      var o := SpikeStep(ss[|ss| - 1], p);
      SpikesOutcome(r0.spikes + [o.spike], r0.events + o.events)
  }

  // ---------------------------------------------------------------- the step

  /** The player after input, physics and the platform pass. */
  function Moved(p: PlayerRec, keys: Keys, ps: seq<Entity>): (r: PlayerRec)
    ensures r == p.(pos := r.pos, vel := r.vel)
  {
    ResolveOnlyVertical(Physics(Input(p, keys)), ps);
    Resolve(Physics(Input(p, keys)), ps)
  }

  datatype StepOutcome = StepOutcome(state: GameState, events: seq<Event>)

  /** One frame: nothing unless PLAYING; the previous snapshot and one fall damage when the
      moved player is below the viewport; otherwise enemies, coins, star and spikes in
      that order. */
  function Step(prev: GameState, keys: Keys): (r: StepOutcome)
    ensures prev.status != PLAYING ==> r == StepOutcome(prev, [])
    ensures prev.status == PLAYING && Falls(Moved(prev.player, keys, prev.platforms)) ==>
              r == StepOutcome(prev, [Damage(true)])
    ensures r.state.status == prev.status || (prev.status == PLAYING && r.state.status == CLEAR)
    ensures r.state.platforms == prev.platforms && r.state.spikes == prev.spikes
    ensures r.state.star == prev.star && r.state.viewportX == prev.viewportX
    ensures |r.state.enemies| == |prev.enemies| && |r.state.coins| == |prev.coins|
    ensures forall i :: 0 <= i < |prev.enemies| ==>
              r.state.enemies[i].id == prev.enemies[i].id && (prev.enemies[i].isDead ==> r.state.enemies[i].isDead)
    ensures forall i :: 0 <= i < |prev.coins| ==>
              r.state.coins[i].id == prev.coins[i].id && (prev.coins[i].isCollected ==> r.state.coins[i].isCollected)
    ensures r.state.player.life == prev.player.life && r.state.player.isHurt == prev.player.isHurt
    ensures Damage(true) in r.events ==> r == StepOutcome(prev, [Damage(true)])
  {
    if prev.status != PLAYING then StepOutcome(prev, [])
    else
      var moved := Moved(prev.player, keys, prev.platforms);
      if Falls(moved) then StepOutcome(prev, [Damage(true)])
      else
        var en := Enemies(prev.enemies, moved, prev.platforms);
        var co := Coins(prev.coins, en.player);
        var status := if StarStep(prev.star, co.player) == Some(CLEAR) then CLEAR else prev.status;
        var sp := Spikes(prev.spikes, co.player);
        var r := StepOutcome(prev.(player := co.player, enemies := en.enemies, coins := co.coins,
                                   spikes := sp.spikes, status := status),
                             en.events + sp.events);
        assert Damage(true) !in r.events by {
          forall i | 0 <= i < |r.events| ensures r.events[i] == Damage(false) {
            if i >= |en.events| { assert r.events[i] == sp.events[i - |en.events|]; }
          }
        }
        r
  }

  /** The score rises by the coin value for each coin newly collected in the frame. */
  lemma StepScore(prev: GameState, keys: Keys)
    ensures Step(prev, keys).state.player.score ==
            prev.player.score + COIN_VALUE * NewlyCollected(prev.coins, Step(prev, keys).state.coins)
  {
    var r := Step(prev, keys);
    if r.state.coins == prev.coins {
      NothingNewlyCollected(prev.coins);
    }
    if prev.status == PLAYING && !Falls(Moved(prev.player, keys, prev.platforms)) {
      var en := Enemies(prev.enemies, Moved(prev.player, keys, prev.platforms), prev.platforms);
      assert en.player.score == prev.player.score;
    }
  }

  /** A non-negative score that is a multiple of the coin value stays one. */
  lemma StepScoreInvariant(prev: GameState, keys: Keys)
    requires prev.player.score >= 0 && prev.player.score % COIN_VALUE == 0
    ensures Step(prev, keys).state.player.score >= prev.player.score
    ensures Step(prev, keys).state.player.score % COIN_VALUE == 0
  {
    StepScore(prev, keys);
    var k := NewlyCollected(prev.coins, Step(prev, keys).state.coins);
    var before, after := prev.player.score, Step(prev, keys).state.player.score;
    assert after == before + COIN_VALUE * k;
    assert after == COIN_VALUE * (before / COIN_VALUE + k);
  }

  /** The star is matched against the moved player: the frame clears the level exactly
      when the moved player overlaps the star. */
  lemma StepClearsOnStar(prev: GameState, keys: Keys)
    requires prev.status == PLAYING && !Falls(Moved(prev.player, keys, prev.platforms))
    ensures Step(prev, keys).state.status == CLEAR <==>
            prev.star.Some? && Overlaps(Moved(prev.player, keys, prev.platforms).Bounds(), prev.star.value.Bounds())
    ensures Step(prev, keys).state.status != CLEAR ==> Step(prev, keys).state.status == PLAYING
  {
    var moved := Moved(prev.player, keys, prev.platforms);
    var en := Enemies(prev.enemies, moved, prev.platforms);
    var co := Coins(prev.coins, en.player);
    assert co.player.Bounds() == moved.Bounds();
  }

  /** The enemy pass on the working player. */
  method UpdateEnemies(es: seq<Entity>, player: Player, ps: seq<Entity>)
    returns (enemies: seq<Entity>, events: seq<Event>)
    modifies player
    ensures EnemiesOutcome(enemies, player.Snapshot(), events) == Enemies(es, old(player.Snapshot()), ps)
  {
    ghost var p0 := player.Snapshot();
    enemies, events := [], [];
    for i := 0 to |es|
      invariant EnemiesOutcome(enemies, player.Snapshot(), events) == Enemies(es[..i], p0, ps)
    {
      assert es[..i + 1][..i] == es[..i];
      var enemy, hits := UpdateEnemy(es[i], player, ps);
      enemies := enemies + [enemy];
      events := events + hits;
    }
    assert es[..|es|] == es;
  }

  /** The coin pass on the working player. */
  method UpdateCoins(cs: seq<Entity>, player: Player) returns (coins: seq<Entity>)
    modifies player
    ensures CoinsOutcome(coins, player.Snapshot()) == Coins(cs, old(player.Snapshot()))
  {
    ghost var p0 := player.Snapshot();
    coins := [];
    for i := 0 to |cs|
      invariant CoinsOutcome(coins, player.Snapshot()) == Coins(cs[..i], p0)
    {
      assert cs[..i + 1][..i] == cs[..i];
      var coin := UpdateCoin(cs[i], player);
      coins := coins + [coin];
    }
    assert cs[..|cs|] == cs;
  }

  /** The spike pass: the spikes as they come back and the damage calls they make. */
  method UpdateSpikes(ss: seq<Entity>, p: PlayerRec) returns (spikes: seq<Entity>, events: seq<Event>)
    ensures SpikesOutcome(spikes, events) == Spikes(ss, p)
  {
    spikes, events := [], [];
    for i := 0 to |ss|
      invariant SpikesOutcome(spikes, events) == Spikes(ss[..i], p)
    {
      assert ss[..i + 1][..i] == ss[..i];
      var o := SpikeStep(ss[i], p);
      spikes := spikes + [o.spike];
      events := events + o.events;
    }
    assert ss[..|ss|] == ss;
  }

  /** The imperative step: a deep copy of the player is updated in place by the behaviours
      in the fixed order; the three lists are rebuilt by maps. */
  method UpdateState(prev: GameState, keys: Keys) returns (next: GameState, events: seq<Event>)
    ensures StepOutcome(next, events) == Step(prev, keys)
  {
    if prev.status != PLAYING {
      return prev, [];
    }
    var player := new Player(prev.player);
    HandlePlayerInput(player, keys);
    ApplyPlayerPhysics(player);
    HandlePlayerPlatformCollisions(player, prev.platforms);
    var fell, fallEvents := CheckPlayerFall(player);
    if fell {
      return prev, fallEvents;
    }
    var enemies, enemyEvents := UpdateEnemies(prev.enemies, player, prev.platforms);
    var coins := UpdateCoins(prev.coins, player);
    var status := prev.status;
    var starResult := StarStep(prev.star, player.Snapshot());
    if starResult == Some(CLEAR) {
      status := CLEAR;
    }
    var spikes, spikeEvents := UpdateSpikes(prev.spikes, player.Snapshot());
    next := prev.(player := player.Snapshot(), enemies := enemies, coins := coins, spikes := spikes, status := status);
    events := enemyEvents + spikeEvents;
  }

  // ---------------------------------------------------------------- the initial state

  /** The player record a level starts with. */
  function InitialPlayer(spawn: Vec): PlayerRec {
    PlayerRec("player", spawn, Vec(32.0, 48.0), ZERO, INITIAL_LIFE, 0, false)
  }

  /** A fresh snapshot of a level, at the title screen; the loader yields no spikes. */
  function CreateInitialState(def: TileMapDefinition): (r: Result<GameState>)
    ensures r.Success? <==> Loads(def)
    ensures r.Success? ==>
              var s := r.value;
              s.player.life == INITIAL_LIFE && s.player.score == 0 && s.player.size == Vec(32.0, 48.0) &&
              s.player.vel == ZERO && !s.player.isHurt && s.player.pos == SpawnPosition(def) &&
              s.viewportX == 0.0 && s.status == START && s.spikes == [] &&
              s.platforms == LoadEntities(def).value.platforms && s.enemies == LoadEntities(def).value.enemies &&
              s.coins == LoadEntities(def).value.coins && s.star == LoadEntities(def).value.star
  {
    match LoadEntities(def)
    case Failure(e) => Failure(e)
    case Success(l) =>
      Success(GameState(InitialPlayer(l.playerSpawn), l.enemies, l.coins, l.platforms, [], l.star, 0.0, START))
  }
}
