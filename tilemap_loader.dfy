/** Turning a tile-map definition into entity lists (src/engine/tileMap/tileMapLoader.ts,
    with the level definition types of src/types/tileMap.ts). */
module TileMapLoader {
  import opened Constants
  import opened Types
  import opened TileMapConverter
  import opened Format

  // ------------------------------------------------------------ level definition

  /** The tiles as stored: a flat row-major array or nested rows. */
  datatype TileGrid = Flat(codes: seq<int>) | Nested(rows: seq<seq<int>>)

  datatype TileMapData = TileMapData(width: nat, height: nat, tiles: TileGrid, tileSize: real)

  datatype TilePos = TilePos(tileX: int, tileY: int)

  /** An authored override for the entity at a tile: its id and, for enemies, its velocity. */
  datatype EntitySpawn = EntitySpawn(tileX: int, tileY: int, id: string, vel: Option<Vec>)

  /** Absent spawn lists are empty lists. */
  datatype TileMapDefinition = TileMapDefinition(mapData: TileMapData, playerSpawn: Option<TilePos>,
                                                 enemySpawns: seq<EntitySpawn>,
                                                 coinSpawns: seq<EntitySpawn>,
                                                 starSpawn: Option<EntitySpawn>)

  /** Nested rows fewer than `height`: the source's `tiles[y][x]` throws. */
  datatype LoadError = MissingRow(y: nat)

  datatype Result<T> = Success(value: T) | Failure(error: LoadError)

  /** The loader's output; it has no spike list. */
  datatype Loaded = Loaded(platforms: seq<Entity>, enemies: seq<Entity>, coins: seq<Entity>,
                           star: Option<Entity>, playerSpawn: Vec)

  // ------------------------------------------------------------ spawn overrides

  /** The tile coordinate a spawn is keyed by (the source's string `${tileX},${tileY}`). */
  type Key = (int, int)

  function KeyOf(s: EntitySpawn): Key {
    (s.tileX, s.tileY)
  }

  /** The spawn map filled in list order, so that a later spawn replaces an earlier one. */
  function SpawnMap(spawns: seq<EntitySpawn>): (r: map<Key, EntitySpawn>)
    ensures forall i :: 0 <= i < |spawns| ==> KeyOf(spawns[i]) in r
    ensures forall k :: k in r ==> KeyOf(r[k]) == k
    decreases |spawns|
  {
    if spawns == [] then map[]
    else SpawnMap(spawns[..|spawns| - 1])[KeyOf(spawns[|spawns| - 1]) := spawns[|spawns| - 1]]
  }

  /** A coordinate is in the map iff some spawn has it, and it then holds the last such spawn. */
  lemma {:induction false} SpawnMapLastWins(spawns: seq<EntitySpawn>, k: Key)
    ensures k in SpawnMap(spawns) <==> exists i :: 0 <= i < |spawns| && KeyOf(spawns[i]) == k
    ensures k in SpawnMap(spawns) ==>
              exists i :: 0 <= i < |spawns| && KeyOf(spawns[i]) == k && SpawnMap(spawns)[k] == spawns[i] &&
                          forall j :: i < j < |spawns| ==> KeyOf(spawns[j]) != k
    decreases |spawns|
  {
    if spawns != [] {
      var n := |spawns| - 1;
      var init := spawns[..n];
      SpawnMapLastWins(init, k);
      if KeyOf(spawns[n]) != k {
        if k in SpawnMap(init) {
          var i :| 0 <= i < |init| && KeyOf(init[i]) == k && SpawnMap(init)[k] == init[i] &&
                   forall j :: i < j < |init| ==> KeyOf(init[j]) != k;
          assert spawns[i] == init[i];
        }
        assert forall i :: 0 <= i < n ==> spawns[i] == init[i];
      }
    }
  }

  method BuildSpawnMap(spawns: seq<EntitySpawn>) returns (m: map<Key, EntitySpawn>)
    ensures m == SpawnMap(spawns)
  {
    m := map[];
    for i := 0 to |spawns|
      invariant m == SpawnMap(spawns[..i])
    {
      assert spawns[..i + 1][..i] == spawns[..i];
      m := m[KeyOf(spawns[i]) := spawns[i]];
    }
    assert spawns[..|spawns|] == spawns;
  }

  // ------------------------------------------------------------ the scanned grid

  function NestedGrid(rows: seq<seq<int>>): seq<seq<Slot>> {
    seq(|rows|, y requires 0 <= y < |rows| => Tiles(rows[y]))
  }

  /** The rows the loader scans: nested rows as given, otherwise the reshaped flat array.
      An empty nested array is reshaped too, as the source tests only its first row. */
  function GridOf(d: TileMapData): (r: seq<seq<Slot>>)
    ensures d.tiles.Flat? || d.tiles.rows == [] ==>
              |r| == d.height && forall y :: 0 <= y < |r| ==> |r[y]| == d.width
    ensures d.tiles.Flat? ==>
              forall y, x :: 0 <= y < |r| && 0 <= x < |r[y]| ==> r[y][x] == SlotAt(d.tiles.codes, y * d.width + x)
    ensures d.tiles.Nested? && d.tiles.rows != [] ==>
              |r| == |d.tiles.rows| && forall y :: 0 <= y < |r| ==> |r[y]| == |d.tiles.rows[y]|
    ensures d.tiles.Nested? && d.tiles.rows != [] ==>
              forall y, x :: 0 <= y < |r| && 0 <= x < |r[y]| && |r[y]| == |d.tiles.rows[y]| ==>
                r[y][x] == Tile(d.tiles.rows[y][x])
  {
    match d.tiles
    case Nested(rows) => if |rows| > 0 then NestedGrid(rows) else Reshape([], d.width, d.height)
    case Flat(codes) => Reshape(codes, d.width, d.height)
  }

  /** `tiles[y][x]`: undefined beyond the end of the row. */
  function SlotOf(g: seq<seq<Slot>>, x: nat, y: nat): Slot
    requires y < |g|
  {
    if x < |g[y]| then g[y][x] else Undefined
  }

  datatype Cell = Cell(x: nat, y: nat, slot: Slot)

  /** Cells (0, y) .. (n - 1, y). */
  function RowCells(g: seq<seq<Slot>>, y: nat, n: nat): seq<Cell>
    requires n == 0 || y < |g|
    decreases n
  {
    if n == 0 then [] else RowCells(g, y, n - 1) + [Cell(n - 1, y, SlotOf(g, n - 1, y))]
  }

  /** The cells of the first `h` rows, row by row. */
  function GridCells(g: seq<seq<Slot>>, w: nat, h: nat): seq<Cell>
    requires w == 0 || h <= |g|
    decreases h
  {
    if h == 0 then [] else GridCells(g, w, h - 1) + RowCells(g, h - 1, w)
  }

  /** Row-major order: by row, then by column. */
  predicate Before(a: Cell, b: Cell) {
    a.y < b.y || (a.y == b.y && a.x < b.x)
  }

  /** A cell read from the grid at its own coordinate. */
  predicate CellOf(g: seq<seq<Slot>>, w: nat, h: nat, c: Cell) {
    c.x < w && c.y < h && c.y < |g| && c.slot == SlotOf(g, c.x, c.y)
  }

  lemma {:induction false} RowCellsShape(g: seq<seq<Slot>>, y: nat, n: nat)
    requires n == 0 || y < |g|
    ensures |RowCells(g, y, n)| == n
    ensures forall i :: 0 <= i < n ==> RowCells(g, y, n)[i] == Cell(i, y, SlotOf(g, i, y))
    decreases n
  {
    if n > 0 {
      RowCellsShape(g, y, n - 1);
    }
  }

  /** Appending row h - 1 to the cells of the rows above gives cells of the first h rows. */
  lemma AppendRowInGrid(g: seq<seq<Slot>>, w: nat, h: nat, prev: seq<Cell>, all: seq<Cell>)
    requires h > 0 && (w == 0 || h <= |g|)
    requires forall i :: 0 <= i < |prev| ==> CellOf(g, w, h - 1, prev[i])
    requires all == prev + RowCells(g, h - 1, w)
    ensures forall i :: 0 <= i < |all| ==> CellOf(g, w, h, all[i])
  {
    var row := RowCells(g, h - 1, w);
    RowCellsShape(g, h - 1, w);
    forall i | 0 <= i < |all|
      ensures CellOf(g, w, h, all[i])
    {
      if i < |prev| {
        assert all[i] == prev[i];
      } else {
        assert all[i] == row[i - |prev|];
      }
    }
  }

  /** Appending row h - 1 to the cells of the rows above keeps row-major order. */
  lemma AppendRowOrdered(g: seq<seq<Slot>>, w: nat, h: nat, prev: seq<Cell>, all: seq<Cell>)
    requires h > 0 && (w == 0 || h <= |g|)
    requires forall i :: 0 <= i < |prev| ==> CellOf(g, w, h - 1, prev[i])
    requires forall i, j :: 0 <= i < j < |prev| ==> Before(prev[i], prev[j])
    requires all == prev + RowCells(g, h - 1, w)
    ensures forall i, j :: 0 <= i < j < |all| ==> Before(all[i], all[j])
  {
    var row := RowCells(g, h - 1, w);
    RowCellsShape(g, h - 1, w);
    forall i, j | 0 <= i < j < |all|
      ensures Before(all[i], all[j])
    {
      if j < |prev| {
        assert all[i] == prev[i] && all[j] == prev[j];
      } else if i < |prev| {
        assert all[i] == prev[i] && CellOf(g, w, h - 1, prev[i]);
        assert all[j] == row[j - |prev|];
      } else {
        assert all[i] == row[i - |prev|] && all[j] == row[j - |prev|];
      }
    }
  }

  /** Appending row h - 1 covers the coordinates of that row. */
  lemma AppendRowCovers(g: seq<seq<Slot>>, w: nat, h: nat, prev: seq<Cell>, all: seq<Cell>)
    requires h > 0 && (w == 0 || h <= |g|)
    requires forall x: nat, y: nat :: x < w && y < h - 1 ==> Cell(x, y, SlotOf(g, x, y)) in prev
    requires all == prev + RowCells(g, h - 1, w)
    ensures forall x: nat, y: nat :: x < w && y < h ==> Cell(x, y, SlotOf(g, x, y)) in all
  {
    var row := RowCells(g, h - 1, w);
    RowCellsShape(g, h - 1, w);
    forall x: nat, y: nat | x < w && y < h
      ensures Cell(x, y, SlotOf(g, x, y)) in all
    {
      if y == h - 1 {
        assert row[x] == Cell(x, y, SlotOf(g, x, y));
      } else {
        assert Cell(x, y, SlotOf(g, x, y)) in prev;
      }
    }
  }

  /** The scan visits every coordinate of the w x h grid exactly once, in row-major order. */
  lemma {:induction false} GridCellsRowMajor(g: seq<seq<Slot>>, w: nat, h: nat)
    requires w == 0 || h <= |g|
    ensures |GridCells(g, w, h)| == w * h
    ensures forall i :: 0 <= i < |GridCells(g, w, h)| ==> CellOf(g, w, h, GridCells(g, w, h)[i])
    ensures forall i, j :: 0 <= i < j < |GridCells(g, w, h)| ==>
              Before(GridCells(g, w, h)[i], GridCells(g, w, h)[j])
    ensures forall x: nat, y: nat :: x < w && y < h ==> Cell(x, y, SlotOf(g, x, y)) in GridCells(g, w, h)
    decreases h
  {
    if h > 0 {
      var prev := GridCells(g, w, h - 1);
      GridCellsRowMajor(g, w, h - 1);
      RowCellsShape(g, h - 1, w);
      var all := GridCells(g, w, h);
      assert all == prev + RowCells(g, h - 1, w);
      assert |all| == w * (h - 1) + w == w * h;
      AppendRowInGrid(g, w, h, prev, all);
      AppendRowOrdered(g, w, h, prev, all);
      AppendRowCovers(g, w, h, prev, all);
    }
  }

  // ------------------------------------------------------------ the scan

  /** What the scan takes from the definition besides the cells. */
  datatype Env = Env(tileSize: real, enemySpawns: map<Key, EntitySpawn>,
                     coinSpawns: map<Key, EntitySpawn>, starSpawn: Option<EntitySpawn>)

  function EnvOf(d: TileMapDefinition): Env {
    Env(d.mapData.tileSize, SpawnMap(d.enemySpawns), SpawnMap(d.coinSpawns), d.starSpawn)
  }

  /** The loop state: the three lists, the star found so far and the two id counters. */
  datatype Scan = Scan(platforms: seq<Entity>, enemies: seq<Entity>, coins: seq<Entity>,
                       star: Option<Entity>, enemyIndex: nat, coinIndex: nat)

  const EMPTY_SCAN: Scan := Scan([], [], [], None, 0, 0)

  function CellKey(c: Cell): Key {
    (c.x, c.y)
  }

  function Pixel(c: Cell, ts: real): Vec {
    Vec(c.x as real * ts, c.y as real * ts)
  }

  /** The override id replaces the default only when a spawn sits at the cell and its id
      is not the empty string (the source's `spawnInfo?.id || default`). */
  predicate HasOverrideId(c: Cell, m: map<Key, EntitySpawn>) {
    CellKey(c) in m && m[CellKey(c)].id != ""
  }

  function PlatformFor(c: Cell, ts: real): Entity {
    Entity(PlatformId(c.x, c.y), PLATFORM, Pixel(c, ts), Vec(ts, ts), ZERO, false, false)
  }

  /** The enemy of a cell, with the default id `e-<index>`. */
  function EnemyFor(c: Cell, env: Env, index: nat): Entity {
    var m := env.enemySpawns;
    var id := if HasOverrideId(c, m) then m[CellKey(c)].id else "e-" + NatToString(index);
    var vel := if CellKey(c) in m && m[CellKey(c)].vel.Some? then m[CellKey(c)].vel.value else Vec(-2.0, 0.0);
    Entity(id, ENEMY, Pixel(c, env.tileSize), Vec(40.0, 40.0), vel, false, false)
  }

  /** The coin of a cell, with the default id `c-<index>`. */
  function CoinFor(c: Cell, env: Env, index: nat): Entity {
    var m := env.coinSpawns;
    var id := if HasOverrideId(c, m) then m[CellKey(c)].id else "c-" + NatToString(index);
    Entity(id, COIN, Pixel(c, env.tileSize), Vec(25.0, 25.0), ZERO, false, false)
  }

  function StarFor(c: Cell, env: Env): Entity {
    var id := if env.starSpawn.Some? && KeyOf(env.starSpawn.value) == CellKey(c) && env.starSpawn.value.id != ""
              then env.starSpawn.value.id else "star-goal";
    Entity(id, STAR, Pixel(c, env.tileSize), Vec(50.0, 50.0), ZERO, false, false)
  }

  predicate IsCode(c: Cell, code: int) {
    c.slot == Tile(code)
  }

  /** One cell of the scan (the body of the source's switch). */
  function Visit(s: Scan, c: Cell, env: Env): (r: Scan)
    ensures s.platforms <= r.platforms && s.enemies <= r.enemies && s.coins <= r.coins
    ensures |r.platforms| + |r.enemies| + |r.coins| ==
            |s.platforms| + |s.enemies| + |s.coins| + (if IsCode(c, 1) || IsCode(c, 2) || IsCode(c, 3) then 1 else 0)
    ensures s.star.Some? ==> r.star == s.star
    ensures s.enemyIndex <= r.enemyIndex <= s.enemyIndex + 1 && s.coinIndex <= r.coinIndex <= s.coinIndex + 1
  {
    if IsCode(c, 1) then s.(platforms := s.platforms + [PlatformFor(c, env.tileSize)])
    else if IsCode(c, 2) then
      s.(enemies := s.enemies + [EnemyFor(c, env, s.enemyIndex)],
         enemyIndex := if HasOverrideId(c, env.enemySpawns) then s.enemyIndex else s.enemyIndex + 1)
    else if IsCode(c, 3) then
      s.(coins := s.coins + [CoinFor(c, env, s.coinIndex)],
         coinIndex := if HasOverrideId(c, env.coinSpawns) then s.coinIndex else s.coinIndex + 1)
    else if IsCode(c, 4) && s.star.None? then s.(star := Some(StarFor(c, env)))
    else s
  }

  function ScanCells(cells: seq<Cell>, env: Env): (r: Scan)
    ensures |r.platforms| + |r.enemies| + |r.coins| <= |cells|
    ensures r.enemyIndex <= |r.enemies| && r.coinIndex <= |r.coins|
    decreases |cells|
  {
    if cells == [] then EMPTY_SCAN else Visit(ScanCells(cells[..|cells| - 1], env), cells[|cells| - 1], env)
  }

  lemma ScanSnoc(cells: seq<Cell>, c: Cell, env: Env)
    ensures ScanCells(cells + [c], env) == Visit(ScanCells(cells, env), c, env)
  {
    assert (cells + [c])[..|cells|] == cells;
  }

  /** Cells coded 0, 5 or anything else, and reads past the data, produce nothing. */
  lemma OtherCodesProduceNothing(s: Scan, c: Cell, env: Env)
    requires !IsCode(c, 1) && !IsCode(c, 2) && !IsCode(c, 3) && !IsCode(c, 4)
    ensures Visit(s, c, env) == s
  {
  }

  // ------------------------------------------------------------ reference definitions

  /** The cells with a given code, in scan order. */
  function Select(cells: seq<Cell>, code: int): seq<Cell>
    decreases |cells|
  {
    if cells == [] then []
    else
      var rest := Select(cells[..|cells| - 1], code);
      if IsCode(cells[|cells| - 1], code) then rest + [cells[|cells| - 1]] else rest
  }

  /** How many of `cs` take the default id, i.e. advance the counter. */
  function DefaultIds(cs: seq<Cell>, m: map<Key, EntitySpawn>): nat
    decreases |cs|
  {
    if cs == [] then 0
    else DefaultIds(cs[..|cs| - 1], m) + (if HasOverrideId(cs[|cs| - 1], m) then 0 else 1)
  }

  lemma DefaultIdsPrefix(cs: seq<Cell>, c: Cell, m: map<Key, EntitySpawn>)
    ensures DefaultIds(cs + [c], m) == DefaultIds(cs, m) + (if HasOverrideId(c, m) then 0 else 1)
  {
    assert (cs + [c])[..|cs|] == cs;
  }

  /** One tile-sized platform per code-1 cell, in scan order, at the cell's pixel
      position with id `p-x-y`. */
  lemma {:induction false} ScanPlatforms(cells: seq<Cell>, env: Env)
    ensures |ScanCells(cells, env).platforms| == |Select(cells, 1)|
    ensures forall i :: 0 <= i < |Select(cells, 1)| ==>
              ScanCells(cells, env).platforms[i] == PlatformFor(Select(cells, 1)[i], env.tileSize)
    decreases |cells|
  {
    if cells != [] {
      ScanPlatforms(cells[..|cells| - 1], env);
    }
  }

  /** The enemies of the cells `sel`, each numbered by the default ids before it. */
  ghost predicate EnemiesOf(es: seq<Entity>, sel: seq<Cell>, env: Env) {
    |es| == |sel| &&
    forall i :: 0 <= i < |sel| ==> es[i] == EnemyFor(sel[i], env, DefaultIds(sel[..i], env.enemySpawns))
  }

  lemma EnemiesSnoc(es: seq<Entity>, sel: seq<Cell>, c: Cell, env: Env)
    requires EnemiesOf(es, sel, env)
    ensures EnemiesOf(es + [EnemyFor(c, env, DefaultIds(sel, env.enemySpawns))], sel + [c], env)
  {
    var sel' := sel + [c];
    forall i | 0 <= i < |sel'|
      ensures (es + [EnemyFor(c, env, DefaultIds(sel, env.enemySpawns))])[i] ==
              EnemyFor(sel'[i], env, DefaultIds(sel'[..i], env.enemySpawns))
    {
      if i < |sel| {
        assert sel'[..i] == sel[..i];
      } else {
        assert sel'[..i] == sel;
      }
    }
  }

  /** One 40 x 40 live enemy per code-2 cell, in scan order; its velocity is the
      override's if there is one, else (-2, 0); its id is the override's non-empty id,
      else `e-k` where k counts the earlier enemies that took a default id. */
  lemma {:induction false} ScanEnemies(cells: seq<Cell>, env: Env)
    ensures |ScanCells(cells, env).enemies| == |Select(cells, 2)|
    ensures ScanCells(cells, env).enemyIndex == DefaultIds(Select(cells, 2), env.enemySpawns)
    ensures forall i :: 0 <= i < |Select(cells, 2)| ==>
              ScanCells(cells, env).enemies[i] ==
              EnemyFor(Select(cells, 2)[i], env, DefaultIds(Select(cells, 2)[..i], env.enemySpawns))
    decreases |cells|
  {
    if cells != [] {
      var init := cells[..|cells| - 1];
      var c := cells[|cells| - 1];
      ScanEnemies(init, env);
      var sel := Select(init, 2);
      var s0 := ScanCells(init, env);
      var m := env.enemySpawns;
      var r := ScanCells(cells, env);
      assert r == Visit(s0, c, env);
      if IsCode(c, 2) {
        var sel' := sel + [c];
        assert Select(cells, 2) == sel';
        assert r.enemies == s0.enemies + [EnemyFor(c, env, s0.enemyIndex)];
        DefaultIdsPrefix(sel, c, m);
        EnemiesSnoc(s0.enemies, sel, c, env);
      } else {
        assert Select(cells, 2) == sel;
        assert r.enemies == s0.enemies && r.enemyIndex == s0.enemyIndex;
      }
    }
  }

  /** The coins of the cells `sel`, each numbered by the default ids before it. */
  ghost predicate CoinsOf(es: seq<Entity>, sel: seq<Cell>, env: Env) {
    |es| == |sel| &&
    forall i :: 0 <= i < |sel| ==> es[i] == CoinFor(sel[i], env, DefaultIds(sel[..i], env.coinSpawns))
  }

  lemma CoinsSnoc(es: seq<Entity>, sel: seq<Cell>, c: Cell, env: Env)
    requires CoinsOf(es, sel, env)
    ensures CoinsOf(es + [CoinFor(c, env, DefaultIds(sel, env.coinSpawns))], sel + [c], env)
  {
    var sel' := sel + [c];
    forall i | 0 <= i < |sel'|
      ensures (es + [CoinFor(c, env, DefaultIds(sel, env.coinSpawns))])[i] ==
              CoinFor(sel'[i], env, DefaultIds(sel'[..i], env.coinSpawns))
    {
      if i < |sel| {
        assert sel'[..i] == sel[..i];
      } else {
        assert sel'[..i] == sel;
      }
    }
  }

  /** One 25 x 25 uncollected coin per code-3 cell, in scan order, with the same id rule
      as enemies (`c-k`). */
  lemma {:induction false} ScanCoins(cells: seq<Cell>, env: Env)
    ensures |ScanCells(cells, env).coins| == |Select(cells, 3)|
    ensures ScanCells(cells, env).coinIndex == DefaultIds(Select(cells, 3), env.coinSpawns)
    ensures forall i :: 0 <= i < |Select(cells, 3)| ==>
              ScanCells(cells, env).coins[i] ==
              CoinFor(Select(cells, 3)[i], env, DefaultIds(Select(cells, 3)[..i], env.coinSpawns))
    decreases |cells|
  {
    if cells != [] {
      var init := cells[..|cells| - 1];
      var c := cells[|cells| - 1];
      ScanCoins(init, env);
      var sel := Select(init, 3);
      var s0 := ScanCells(init, env);
      var m := env.coinSpawns;
      var r := ScanCells(cells, env);
      assert r == Visit(s0, c, env);
      if IsCode(c, 3) {
        var sel' := sel + [c];
        assert Select(cells, 3) == sel';
        assert r.coins == s0.coins + [CoinFor(c, env, s0.coinIndex)];
        DefaultIdsPrefix(sel, c, m);
        CoinsSnoc(s0.coins, sel, c, env);
      } else {
        assert Select(cells, 3) == sel;
        assert r.coins == s0.coins && r.coinIndex == s0.coinIndex;
      }
    }
  }

  /** At most one star: the one of the first code-4 cell. */
  lemma {:induction false} ScanStar(cells: seq<Cell>, env: Env)
    ensures ScanCells(cells, env).star.Some? <==> exists i :: 0 <= i < |cells| && IsCode(cells[i], 4)
    ensures ScanCells(cells, env).star.Some? ==>
              exists i :: 0 <= i < |cells| && IsCode(cells[i], 4) &&
                          (forall j :: 0 <= j < i ==> !IsCode(cells[j], 4)) &&
                          ScanCells(cells, env).star.value == StarFor(cells[i], env)
    decreases |cells|
  {
    if cells != [] {
      var init := cells[..|cells| - 1];
      ScanStar(init, env);
      assert forall i :: 0 <= i < |init| ==> cells[i] == init[i];
    }
  }

  /** The selected cells are cells of the list, and keep a strict order the list has. */
  lemma {:induction false} SelectOrdered(cells: seq<Cell>, code: int)
    requires forall i, j :: 0 <= i < j < |cells| ==> Before(cells[i], cells[j])
    ensures forall i :: 0 <= i < |Select(cells, code)| ==>
              Select(cells, code)[i] in cells && IsCode(Select(cells, code)[i], code)
    ensures forall i, j :: 0 <= i < j < |Select(cells, code)| ==>
              Before(Select(cells, code)[i], Select(cells, code)[j])
    decreases |cells|
  {
    if cells != [] {
      var init := cells[..|cells| - 1];
      var c := cells[|cells| - 1];
      SelectOrdered(init, code);
      var sel := Select(init, code);
      forall k | 0 <= k < |sel|
        ensures sel[k] in cells && Before(sel[k], c)
      {
        var m :| 0 <= m < |init| && init[m] == sel[k];
        assert cells[m] == init[m];
      }
    }
  }

  // ------------------------------------------------------------ the loader

  /** The player spawn's pixel position, or the fixed default. */
  function SpawnPosition(d: TileMapDefinition): (r: Vec)
    ensures d.playerSpawn.None? ==> r == Vec(100.0, 460.0)
    ensures d.playerSpawn.Some? ==>
              r == Vec(d.playerSpawn.value.tileX as real * d.mapData.tileSize,
                       d.playerSpawn.value.tileY as real * d.mapData.tileSize)
  {
    match d.playerSpawn
    case Some(s) => Vec(s.tileX as real * d.mapData.tileSize, s.tileY as real * d.mapData.tileSize)
    case None => Vec(100.0, VIEWPORT_HEIGHT - TILE_SIZE - 100.0)
  }

  predicate Loads(d: TileMapDefinition) {
    d.mapData.width == 0 || d.mapData.height <= |GridOf(d.mapData)|
  }

  /** The loader's result, as the scan of the grid's cells. */
  function LoadEntities(d: TileMapDefinition): (r: Result<Loaded>)
    ensures r.Success? <==> Loads(d)
  {
    var g := GridOf(d.mapData);
    if !Loads(d) then Failure(MissingRow(|g|))
    else
      var s := ScanCells(GridCells(g, d.mapData.width, d.mapData.height), EnvOf(d));
      Success(Loaded(s.platforms, s.enemies, s.coins, s.star, SpawnPosition(d)))
  }

  /** A flat tile array always loads. */
  lemma FlatAlwaysLoads(d: TileMapDefinition)
    requires d.mapData.tiles.Flat?
    ensures LoadEntities(d).Success?
  {
  }

  /** Platform ids are unique within a level. */
  lemma PlatformIdsUnique(d: TileMapDefinition)
    requires Loads(d)
    ensures forall i, j :: 0 <= i < j < |LoadEntities(d).value.platforms| ==>
              LoadEntities(d).value.platforms[i].id != LoadEntities(d).value.platforms[j].id
  {
    var g := GridOf(d.mapData);
    var cells := GridCells(g, d.mapData.width, d.mapData.height);
    var env := EnvOf(d);
    GridCellsRowMajor(g, d.mapData.width, d.mapData.height);
    SelectOrdered(cells, 1);
    ScanPlatforms(cells, env);
    var sel := Select(cells, 1);
    var ps := LoadEntities(d).value.platforms;
    forall i, j | 0 <= i < j < |ps|
      ensures ps[i].id != ps[j].id
    {
      assert Before(sel[i], sel[j]);
      if ps[i].id == ps[j].id {
        PlatformIdInjective(sel[i].x, sel[i].y, sel[j].x, sel[j].y);
        assert false;
      }
    }
  }

  /** The switch on one tile: push the entity it stands for and advance the counter of
      a default id. */
  method ScanCell(platforms: seq<Entity>, enemies: seq<Entity>, coins: seq<Entity>, star: Option<Entity>,
                  enemyIndex: nat, coinIndex: nat, cell: Cell, env: Env)
    returns (platforms': seq<Entity>, enemies': seq<Entity>, coins': seq<Entity>, star': Option<Entity>,
             enemyIndex': nat, coinIndex': nat)
    ensures Scan(platforms', enemies', coins', star', enemyIndex', coinIndex') ==
            Visit(Scan(platforms, enemies, coins, star, enemyIndex, coinIndex), cell, env)
  {
    platforms', enemies', coins', star', enemyIndex', coinIndex' := platforms, enemies, coins, star, enemyIndex, coinIndex;
    var pixel := Pixel(cell, env.tileSize);
    var key := CellKey(cell);
    if cell.slot == Tile(1) {
      platforms' := platforms + [Entity(PlatformId(cell.x, cell.y), PLATFORM, pixel,
                                        Vec(env.tileSize, env.tileSize), ZERO, false, false)];
    } else if cell.slot == Tile(2) {
      var spawnMap := env.enemySpawns;
      var id: string;
      if key in spawnMap && spawnMap[key].id != "" {
        id := spawnMap[key].id;
      } else {
        id := "e-" + NatToString(enemyIndex);
        enemyIndex' := enemyIndex + 1;
      }
      var vel := if key in spawnMap && spawnMap[key].vel.Some? then spawnMap[key].vel.value else Vec(-2.0, 0.0);
      enemies' := enemies + [Entity(id, ENEMY, pixel, Vec(40.0, 40.0), vel, false, false)];
    } else if cell.slot == Tile(3) {
      var spawnMap := env.coinSpawns;
      var id: string;
      if key in spawnMap && spawnMap[key].id != "" {
        id := spawnMap[key].id;
      } else {
        id := "c-" + NatToString(coinIndex);
        coinIndex' := coinIndex + 1;
      }
      coins' := coins + [Entity(id, COIN, pixel, Vec(25.0, 25.0), ZERO, false, false)];
    } else if cell.slot == Tile(4) {
      if star.None? {
        var spawnInfo := if env.starSpawn.Some? && KeyOf(env.starSpawn.value) == key then env.starSpawn else None;
        var id := if spawnInfo.Some? && spawnInfo.value.id != "" then spawnInfo.value.id else "star-goal";
        star' := Some(Entity(id, STAR, pixel, Vec(50.0, 50.0), ZERO, false, false));
      }
    }
  }

  /** Nested rows as they are; a flat array (or an empty nested one) through the converter. */
  method TilesOf(m: TileMapData) returns (tiles: seq<seq<Slot>>)
    ensures tiles == GridOf(m)
  {
    if m.tiles.Nested? && |m.tiles.rows| > 0 {
      tiles := NestedGrid(m.tiles.rows);
    } else {
      tiles := Convert1DTo2DTiles(if m.tiles.Flat? then m.tiles.codes else [], m.width, m.height);
    }
  }

  /** One row of the nested loop: the cells of row `y`, left to right. */
  method ScanRow(s: Scan, tiles: seq<seq<Slot>>, y: nat, width: nat, env: Env, ghost done: seq<Cell>)
    returns (s': Scan)
    requires width == 0 || y < |tiles|
    requires s == ScanCells(done, env)
    ensures s' == ScanCells(done + RowCells(tiles, y, width), env)
  {
    s' := s;
    assert done + RowCells(tiles, y, 0) == done;
    for x := 0 to width
      invariant s' == ScanCells(done + RowCells(tiles, y, x), env)
    {
      var cell := Cell(x, y, SlotOf(tiles, x, y));
      ghost var pre := done + RowCells(tiles, y, x);
      ghost var post := done + RowCells(tiles, y, x + 1);
      assert post == pre + [cell];
      ScanSnoc(pre, cell, env);
      var platforms, enemies, coins, star, enemyIndex, coinIndex :=
        ScanCell(s'.platforms, s'.enemies, s'.coins, s'.star, s'.enemyIndex, s'.coinIndex, cell, env);
      s' := Scan(platforms, enemies, coins, star, enemyIndex, coinIndex);
      assert s' == Visit(ScanCells(pre, env), cell, env);
    }
  }

  /** The nested loop over rows; reading a row the grid does not have fails. */
  method ScanGrid(tiles: seq<seq<Slot>>, width: nat, height: nat, env: Env) returns (r: Result<Scan>)
    ensures r == if width == 0 || height <= |tiles| then Success(ScanCells(GridCells(tiles, width, height), env))
                 else Failure(MissingRow(|tiles|))
  {
    var s := EMPTY_SCAN;
    for y := 0 to height
      invariant width == 0 || y <= |tiles|
      invariant s == ScanCells(GridCells(tiles, width, y), env)
    {
      if width > 0 && y >= |tiles| {
        return Failure(MissingRow(y));
      }
      ghost var done := GridCells(tiles, width, y);
      s := ScanRow(s, tiles, y, width, env, done);
      assert GridCells(tiles, width, y + 1) == done + RowCells(tiles, y, width);
    }
    return Success(s);
  }

  /** The loader: the grid, the two spawn maps, the scan, and the player spawn. */
  method CreateEntitiesFromTileMap(def: TileMapDefinition) returns (r: Result<Loaded>)
    ensures r == LoadEntities(def)
  {
    var m := def.mapData;
    var tiles := TilesOf(m);
    var enemySpawnMap := BuildSpawnMap(def.enemySpawns);
    var coinSpawnMap := BuildSpawnMap(def.coinSpawns);
    var env := Env(m.tileSize, enemySpawnMap, coinSpawnMap, def.starSpawn);
    assert env == EnvOf(def);
    var scanned := ScanGrid(tiles, m.width, m.height, env);
    if scanned.Failure? {
      return Failure(scanned.error);
    }
    var s := scanned.value;
    var playerSpawnPos := if def.playerSpawn.Some?
      then Vec(def.playerSpawn.value.tileX as real * m.tileSize, def.playerSpawn.value.tileY as real * m.tileSize)
      else Vec(100.0, VIEWPORT_HEIGHT - TILE_SIZE - 100.0);
    assert Loads(def) && s == ScanCells(GridCells(GridOf(m), m.width, m.height), EnvOf(def));
    assert playerSpawnPos == SpawnPosition(def);
    return Success(Loaded(s.platforms, s.enemies, s.coins, s.star, playerSpawnPos));
  }
}
