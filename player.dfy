/** The player's behaviours (src/engine/entities/player.ts): input, physics, platform
    resolution and the fall check. Each is a function on player records, the
    specification, and a method updating the mutable working copy in place. */
module PlayerBehaviour {
  import opened Constants
  import opened Types
  import opened Collision

  // ---------------------------------------------------------------- input

  /** Horizontal velocity comes straight from the held arrows (left first); a jump is
      granted only when space is held and the vertical velocity is exactly zero. */
  function Input(p: PlayerRec, keys: Keys): (r: PlayerRec)
    ensures Held(keys, "ArrowLeft") ==> r.vel.x == -MOVE_SPEED
    ensures !Held(keys, "ArrowLeft") && Held(keys, "ArrowRight") ==> r.vel.x == MOVE_SPEED
    ensures !Held(keys, "ArrowLeft") && !Held(keys, "ArrowRight") ==> r.vel.x == 0.0
    ensures Held(keys, " ") && p.vel.y == 0.0 ==> r.vel.y == JUMP_FORCE
    ensures !(Held(keys, " ") && p.vel.y == 0.0) ==> r.vel.y == p.vel.y
    ensures r == p.(vel := r.vel)
  {
    var vx := if Held(keys, "ArrowLeft") then -MOVE_SPEED
              else if Held(keys, "ArrowRight") then MOVE_SPEED
              else 0.0;
    var vy := if Held(keys, " ") && p.vel.y == 0.0 then JUMP_FORCE else p.vel.y;
    p.(vel := Vec(vx, vy))
  }

  /** Reading the same keys twice gives the same velocity: a jump impulse is never
      granted twice in a row. */
  lemma InputIdempotent(p: PlayerRec, keys: Keys)
    ensures Input(Input(p, keys), keys) == Input(p, keys)
  {
  }

  method HandlePlayerInput(player: Player, keys: Keys)
    modifies player
    ensures player.Snapshot() == Input(old(player.Snapshot()), keys)
  {
    if Held(keys, "ArrowLeft") {
      player.vel := player.vel.(x := -MOVE_SPEED);
    } else if Held(keys, "ArrowRight") {
      player.vel := player.vel.(x := MOVE_SPEED);
    } else {
      player.vel := player.vel.(x := 0.0);
    }
    if Held(keys, " ") && player.vel.y == 0.0 {
      player.vel := player.vel.(y := JUMP_FORCE);
    }
  }

  // ---------------------------------------------------------------- physics

  /** One explicit Euler step: gravity first, then the position moves by the new velocity. */
  function Physics(p: PlayerRec): (r: PlayerRec)
    ensures r.vel.x == p.vel.x && r.vel.y - p.vel.y == GRAVITY
    ensures r.pos.x - p.pos.x == r.vel.x && r.pos.y - p.pos.y == r.vel.y
    ensures r == p.(pos := r.pos, vel := r.vel)
  {
    var vel := p.vel.(y := p.vel.y + GRAVITY);
    p.(vel := vel, pos := Vec(p.pos.x + vel.x, p.pos.y + vel.y))
  }

  /** Absent platform contact the vertical velocity strictly grows from tick to tick. */
  lemma GravityMonotone(p: PlayerRec, keys: Keys)
    requires !(Held(keys, " ") && p.vel.y == 0.0)
    ensures Physics(Input(p, keys)).vel.y > p.vel.y
  {
  }

  method ApplyPlayerPhysics(player: Player)
    modifies player
    ensures player.Snapshot() == Physics(old(player.Snapshot()))
  {
    player.vel := player.vel.(y := player.vel.y + GRAVITY);
    player.pos := player.pos.(x := player.pos.x + player.vel.x);
    player.pos := player.pos.(y := player.pos.y + player.vel.y);
  }

  // ---------------------------------------------------------------- platforms

  /** Falling, with the bottom edge before this tick's move within 5 px of the top. */
  predicate LandsOn(p: PlayerRec, q: Entity) {
    p.vel.y > 0.0 && p.pos.y + p.size.y - p.vel.y <= q.pos.y + 5.0
  }

  /** Rising, with the top edge before this tick's move within 5 px of the bottom. */
  predicate BumpsUnder(p: PlayerRec, q: Entity) {
    p.vel.y < 0.0 && p.pos.y - p.vel.y >= q.pos.y + q.size.y - 5.0
  }

  /** The resolution against one platform, the body of the source's loop. */
  function ResolveOne(p: PlayerRec, q: Entity): (r: PlayerRec)
    ensures !Overlaps(p.Bounds(), q.Bounds()) ==> r == p
    ensures Overlaps(p.Bounds(), q.Bounds()) && LandsOn(p, q) ==>
              r.pos.y + r.size.y == q.pos.y && r.vel.y == 0.0
    ensures Overlaps(p.Bounds(), q.Bounds()) && BumpsUnder(p, q) ==>
              r.pos.y == q.pos.y + q.size.y && r.vel.y == 1.0
    ensures Overlaps(p.Bounds(), q.Bounds()) && !LandsOn(p, q) && !BumpsUnder(p, q) ==> r == p
    ensures r == p.(pos := p.pos.(y := r.pos.y), vel := p.vel.(y := r.vel.y))
  {
    if Overlaps(p.Bounds(), q.Bounds()) then
      if LandsOn(p, q) then
        p.(pos := p.pos.(y := q.pos.y - p.size.y), vel := p.vel.(y := 0.0))
      else if BumpsUnder(p, q) then
        p.(pos := p.pos.(y := q.pos.y + q.size.y), vel := p.vel.(y := 1.0))
      else p
    else p
  }

  /** All platforms in list order, each against the player as left by the previous one.
      A pass that brings a moving player to vertical rest leaves it standing on the top of
      one of the platforms; one that leaves it with vel.y 1 has it under one of them. */
  function Resolve(p: PlayerRec, ps: seq<Entity>): (r: PlayerRec)
    ensures r.vel.y == 0.0 && p.vel.y != 0.0 ==>
              exists i :: 0 <= i < |ps| && r.pos.y + r.size.y == ps[i].pos.y
    ensures r.vel.y == 1.0 && p.vel.y != 1.0 ==>
              exists i :: 0 <= i < |ps| && r.pos.y == ps[i].pos.y + ps[i].size.y
    decreases |ps|
  {
    if ps == [] then p
    else
      var init := ps[..|ps| - 1];
      assert forall i :: 0 <= i < |init| ==> init[i] == ps[i];
      ResolveOne(Resolve(p, init), ps[|ps| - 1])
  }

  /** Empty when nothing overlaps. */
  ghost predicate NoContact(p: PlayerRec, ps: seq<Entity>) {
    forall i :: 0 <= i < |ps| ==> !Overlaps(p.Bounds(), ps[i].Bounds())
  }

  lemma {:induction false} ResolveAppend(p: PlayerRec, a: seq<Entity>, b: seq<Entity>)
    ensures Resolve(p, a + b) == Resolve(Resolve(p, a), b)
    decreases |b|
  {
    if b == [] {
      assert a + b == a;
    } else {
      assert (a + b)[..|a + b| - 1] == a + b[..|b| - 1];
      ResolveAppend(p, a, b[..|b| - 1]);
    }
  }

  /** Platform resolution only ever touches pos.y and vel.y, and vel.y ends as it was,
      0 (landed) or 1 (head bump). */
  lemma {:induction false} ResolveOnlyVertical(p: PlayerRec, ps: seq<Entity>)
    ensures Resolve(p, ps) == p.(pos := p.pos.(y := Resolve(p, ps).pos.y),
                                 vel := p.vel.(y := Resolve(p, ps).vel.y))
    ensures Resolve(p, ps).vel.y in {p.vel.y, 0.0, 1.0}
    decreases |ps|
  {
    if ps != [] {
      ResolveOnlyVertical(p, ps[..|ps| - 1]);
    }
  }

  /** Platforms that do not overlap the player have no effect. */
  lemma {:induction false} ResolveWithoutContact(p: PlayerRec, ps: seq<Entity>)
    requires NoContact(p, ps)
    ensures Resolve(p, ps) == p
    decreases |ps|
  {
    if ps != [] {
      ResolveWithoutContact(p, ps[..|ps| - 1]);
      assert !Overlaps(p.Bounds(), ps[|ps| - 1].Bounds());
    }
  }

  /** A player at vertical rest is left in place by every platform. */
  lemma {:induction false} ResolveAtRest(p: PlayerRec, ps: seq<Entity>)
    requires p.vel.y == 0.0
    ensures Resolve(p, ps) == p
    decreases |ps|
  {
    if ps != [] {
      ResolveAtRest(p, ps[..|ps| - 1]);
    }
  }

  /** Landing snap: the first platform that lands the player decides the outcome; the
      player ends the pass standing on it with zero vertical velocity. */
  lemma FirstLandingSticks(p: PlayerRec, before: seq<Entity>, q: Entity, after: seq<Entity>)
    requires Overlaps(Resolve(p, before).Bounds(), q.Bounds()) && LandsOn(Resolve(p, before), q)
    ensures Resolve(p, before + [q] + after).pos.y + p.size.y == q.pos.y
    ensures Resolve(p, before + [q] + after).vel.y == 0.0
  {
    var landed := ResolveOne(Resolve(p, before), q);
    ResolveOnlyVertical(p, before);
    assert Resolve(p, before + [q]) == landed;
    ResolveAppend(p, before + [q], after);
    ResolveAtRest(landed, after);
  }

  method HandlePlayerPlatformCollisions(player: Player, platforms: seq<Entity>)
    modifies player
    ensures player.Snapshot() == Resolve(old(player.Snapshot()), platforms)
  {
    ghost var p0 := player.Snapshot();
    var i := 0;
    while i < |platforms|
      invariant 0 <= i <= |platforms|
      invariant player.Snapshot() == Resolve(p0, platforms[..i])
    {
      var platform := platforms[i];
      assert platforms[..i + 1][..i] == platforms[..i];
      if Overlaps(player.Snapshot().Bounds(), platform.Bounds()) {
        if player.vel.y > 0.0 && player.pos.y + player.size.y - player.vel.y <= platform.pos.y + 5.0 {
          player.pos := player.pos.(y := platform.pos.y - player.size.y);
          player.vel := player.vel.(y := 0.0);
        } else if player.vel.y < 0.0 && player.pos.y - player.vel.y >= platform.pos.y + platform.size.y - 5.0 {
          player.pos := player.pos.(y := platform.pos.y + platform.size.y);
          player.vel := player.vel.(y := 1.0);
        }
      }
      i := i + 1;
    }
    assert platforms[..i] == platforms;
  }

  // ---------------------------------------------------------------- fall

  predicate Falls(p: PlayerRec) {
    p.pos.y > VIEWPORT_HEIGHT
  }

  /** Reports a fall below the viewport, together with the one damage call it makes. */
  method CheckPlayerFall(player: Player) returns (fell: bool, events: seq<Event>)
    ensures fell <==> player.pos.y > VIEWPORT_HEIGHT
    ensures events == if fell then [Damage(true)] else []
  {
    if player.pos.y > VIEWPORT_HEIGHT {
      return true, [Damage(true)];
    }
    return false, [];
  }
}
