/** The records of the game (src/types/types.ts). */
module Types {
  import opened Constants

  datatype Option<T> = None | Some(value: T)

  datatype Vec = Vec(x: real, y: real)

  const ZERO: Vec := Vec(0.0, 0.0)

  /** An axis-aligned box: its top-left corner and its extent. */
  datatype Box = Box(pos: Vec, size: Vec)

  /** The entity tags of the source; there is no tag for spikes. */
  datatype EntityType = PLAYER | ENEMY | COIN | PLATFORM | STAR

  /** An entity; the optional `isDead`/`isCollected` flags read as false when absent. */
  datatype Entity = Entity(id: string, kind: EntityType, pos: Vec, size: Vec, vel: Vec,
                           isDead: bool, isCollected: bool)
  {
    function Bounds(): Box { Box(pos, size) }
  }

  /** The player record: an entity with life, score and the hurt flag. */
  datatype PlayerRec = PlayerRec(id: string, pos: Vec, size: Vec, vel: Vec,
                                 life: int, score: int, isHurt: bool)
  {
    function Bounds(): Box { Box(pos, size) }
  }

  datatype Status = START | PLAYING | PAUSED | GAMEOVER | CLEAR

  /** One snapshot of the game. `spikes` is read by the engine although the source's
      GameState type does not declare it. */
  datatype GameState = GameState(player: PlayerRec, enemies: seq<Entity>, coins: seq<Entity>,
                                 platforms: seq<Entity>, spikes: seq<Entity>,
                                 star: Option<Entity>, viewportX: real, status: Status)

  /** A call of the damage callback. */
  datatype Event = Damage(isFall: bool)

  /** The map of held keys; a key that is absent reads as not held. */
  type Keys = map<string, bool>

  predicate Held(keys: Keys, k: string) {
    k in keys && keys[k]
  }

  /** The mutable player record of the working copy that the behaviours update in place. */
  class Player {
    var id: string
    var pos: Vec
    var size: Vec
    var vel: Vec
    var life: int
    var score: int
    var isHurt: bool

    function Snapshot(): PlayerRec
      reads this
    {
      PlayerRec(id, pos, size, vel, life, score, isHurt)
    }

    /** The deep copy of a player record. */
    constructor (r: PlayerRec)
      ensures Snapshot() == r
    {
      id, pos, size, vel := r.id, r.pos, r.size, r.vel;
      life, score, isHurt := r.life, r.score, r.isHurt;
    }
  }
}
