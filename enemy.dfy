/** Enemy patrol, world-bound bounce and stomp-versus-hit (src/engine/entities/enemy.ts). */
module EnemyBehaviour {
  import opened Constants
  import opened Types
  import opened Collision

  /** The 5 px tall strip under the enemy's footprint placed at (x, y). The source
      computes it from the centre of the footprint. */
  function GroundProbe(e: Entity, x: real, y: real): (r: Box)
    ensures r == Box(Vec(x, y + e.size.y), Vec(e.size.x, 5.0))
  {
    var checkY := y + e.size.y;
    var checkX := x + e.size.x / 2.0;
    Box(Vec(checkX - e.size.x / 2.0, checkY), Vec(e.size.x, 5.0))
  }

  /** Some platform of `ps` overlaps `b` (the source's `platforms.some`). */
  function AnyOverlaps(b: Box, ps: seq<Entity>): (r: bool)
    ensures r <==> exists i :: 0 <= i < |ps| && Overlaps(b, ps[i].Bounds())
    decreases |ps|
  {
    if ps == [] then false
    else if Overlaps(b, ps[0].Bounds()) then true
    else
      var rest := AnyOverlaps(b, ps[1..]);
      assert forall i :: 1 <= i < |ps| ==> ps[i] == ps[1..][i - 1];
      rest
  }

  /** Some platform overlaps the 5 px strip directly under the footprint placed at (x, y). */
  predicate HasGroundBelow(e: Entity, x: real, y: real, ps: seq<Entity>)
    ensures HasGroundBelow(e, x, y, ps) <==>
              exists i :: 0 <= i < |ps| && Overlaps(Box(Vec(x, y + e.size.y), Vec(e.size.x, 5.0)), ps[i].Bounds())
  {
    AnyOverlaps(GroundProbe(e, x, y), ps)
  }

  /** The enemy walks forward only while there is ground under it now and after the step. */
  predicate Blocked(e: Entity, ps: seq<Entity>) {
    !HasGroundBelow(e, e.pos.x, e.pos.y, ps) || !HasGroundBelow(e, e.pos.x + e.vel.x, e.pos.y, ps)
  }

  predicate OutsideWorld(x: real) {
    x < 0.0 || x > WORLD_WIDTH
  }

  function Flip(e: Entity): Entity {
    e.(vel := e.vel.(x := -e.vel.x))
  }

  /** The patrol move of a live enemy: turn round at a ledge or gap, otherwise step;
      then turn round (again) when outside [0, WORLD_WIDTH]. */
  function Patrol(e: Entity, ps: seq<Entity>): (r: Entity)
    ensures Blocked(e, ps) ==> r.pos.x == e.pos.x
    ensures !Blocked(e, ps) ==> r.pos.x == e.pos.x + e.vel.x
    ensures r.vel.x == (if Blocked(e, ps) != OutsideWorld(r.pos.x) then -e.vel.x else e.vel.x)
    ensures r == e.(pos := e.pos.(x := r.pos.x), vel := e.vel.(x := r.vel.x))
  {
    var moved := if Blocked(e, ps) then Flip(e) else e.(pos := e.pos.(x := e.pos.x + e.vel.x));
    if OutsideWorld(moved.pos.x) then Flip(moved) else moved
  }

  /** Falling onto the enemy: the player's bottom edge before this tick's move is at most
      10 px below the enemy's top. */
  predicate Stomps(p: PlayerRec, e: Entity) {
    p.vel.y > 0.0 && p.pos.y + p.size.y - p.vel.y <= e.pos.y + 10.0
  }

  datatype EnemyOutcome = EnemyOutcome(enemy: Entity, player: PlayerRec, events: seq<Event>)

  /** The whole enemy update, contact included. */
  function EnemyStep(e: Entity, p: PlayerRec, ps: seq<Entity>): (r: EnemyOutcome)
    ensures e.isDead ==> r == EnemyOutcome(e, p, [])
    ensures !e.isDead && !Overlaps(p.Bounds(), Patrol(e, ps).Bounds()) ==>
              r == EnemyOutcome(Patrol(e, ps), p, [])
    ensures !e.isDead && Overlaps(p.Bounds(), Patrol(e, ps).Bounds()) && Stomps(p, Patrol(e, ps)) ==>
              r.enemy == Patrol(e, ps).(isDead := true) && r.events == [] &&
              r.player == p.(vel := p.vel.(y := JUMP_FORCE / 1.5))
    ensures !e.isDead && Overlaps(p.Bounds(), Patrol(e, ps).Bounds()) && !Stomps(p, Patrol(e, ps)) ==>
              r == EnemyOutcome(Patrol(e, ps), p, [Damage(false)])
    ensures r.enemy.pos.y == e.pos.y && r.enemy.id == e.id && r.enemy.size == e.size
    ensures r.enemy.vel == e.vel || r.enemy.vel == e.vel.(x := -e.vel.x)
    ensures e.isDead ==> r.enemy.isDead
    ensures r.player == p.(vel := p.vel.(y := r.player.vel.y))
    ensures r.events == [] || r.events == [Damage(false)]
  {
    if e.isDead then EnemyOutcome(e, p, [])
    else
      var m := Patrol(e, ps);
      if Overlaps(p.Bounds(), m.Bounds()) then
        if Stomps(p, m) then EnemyOutcome(m.(isDead := true), p.(vel := p.vel.(y := JUMP_FORCE / 1.5)), [])
        else EnemyOutcome(m, p, [Damage(false)])
      else EnemyOutcome(m, p, [])
  }

  /** The stomp scenario: a falling player overlapping a live enemy from above kills it,
      bounces upward and is not hurt. */
  lemma StompKills(e: Entity, p: PlayerRec, ps: seq<Entity>)
    requires !e.isDead && Overlaps(p.Bounds(), Patrol(e, ps).Bounds())
    requires p.vel.y > 0.0 && p.pos.y + p.size.y - p.vel.y <= e.pos.y + 10.0
    ensures EnemyStep(e, p, ps).enemy.isDead
    ensures EnemyStep(e, p, ps).player.vel.y < 0.0
    ensures EnemyStep(e, p, ps).events == []
  {
  }

  /** Ledge scenario: with no ground under the next step the enemy turns round in place
      (inside the world). */
  lemma LedgeReversal(e: Entity, ps: seq<Entity>)
    requires !HasGroundBelow(e, e.pos.x + e.vel.x, e.pos.y, ps)
    requires 0.0 <= e.pos.x <= WORLD_WIDTH
    ensures Patrol(e, ps).pos == e.pos
    ensures Patrol(e, ps).vel.x == -e.vel.x
  {
  }

  /** The imperative update: the enemy record is the working copy and `player` is updated
      in place; the damage calls are returned. */
  method UpdateEnemy(enemy: Entity, player: Player, platforms: seq<Entity>)
    returns (result: Entity, events: seq<Event>)
    modifies player
    ensures EnemyStep(enemy, old(player.Snapshot()), platforms) ==
            EnemyOutcome(result, player.Snapshot(), events)
  {
    if enemy.isDead {
      return enemy, [];
    }
    var e := enemy;
    var currentGround := HasGroundBelow(e, e.pos.x, e.pos.y, platforms);
    var nextX := e.pos.x + e.vel.x;
    var nextGround := HasGroundBelow(e, nextX, e.pos.y, platforms);
    if !currentGround || !nextGround {
      e := e.(vel := e.vel.(x := -e.vel.x));
    } else {
      e := e.(pos := e.pos.(x := e.pos.x + e.vel.x));
    }
    if e.pos.x < 0.0 || e.pos.x > WORLD_WIDTH {
      e := e.(vel := e.vel.(x := -e.vel.x));
    }
    assert e == Patrol(enemy, platforms);
    events := [];
    if Overlaps(player.Snapshot().Bounds(), e.Bounds()) {
      if player.vel.y > 0.0 && player.pos.y + player.size.y - player.vel.y <= e.pos.y + 10.0 {
        player.vel := player.vel.(y := JUMP_FORCE / 1.5);
        return e.(isDead := true), [];
      } else {
        events := [Damage(false)];
      }
    }
    return e, events;
  }
}
