/** The host around the step (src/App.tsx): the damage and respawn protocol with its
    re-entrancy flag, the frame gate with the viewport clamp, the start of a game and the
    key handlers. `Host` transitions are the specification; `Game` is the mutable host. */
module App {
  import opened Constants
  import opened Types
  import opened Engine
  import opened TileMapLoader
  import Pause
  import Title

  /** The host's state: the snapshot, the respawning flag, and whether the pending respawn
      was caused by a fall. */
  datatype Host = Host(state: GameState, respawning: bool, pendingFall: bool)

  // ---------------------------------------------------------------- damage and respawn

  /** A damage call: ignored while respawning; otherwise one life is lost, the player is
      hurt and stopped, and a respawn is pending. */
  function OnDamage(h: Host, isFall: bool): (r: Host)
    ensures h.respawning ==> r == h
    ensures !h.respawning ==> r.respawning && r.pendingFall == isFall
    ensures !h.respawning ==>
              r.state == h.state.(player := h.state.player.(life := h.state.player.life - 1,
                                                             isHurt := true, vel := ZERO))
  {
    if h.respawning then h
    else
      var p := h.state.player;
      Host(h.state.(player := p.(life := p.life - 1, isHurt := true, vel := ZERO)), true, isFall)
  }

  function Max(a: real, b: real): real {
    if a >= b then a else b
  }

  /** Where the player comes back: 200 px back but not left of 100; at height 100 after a
      fall, 100 px higher otherwise. */
  function RespawnPosition(pos: Vec, isFall: bool): (r: Vec)
    ensures r.x >= 100.0 && r.x >= pos.x - 200.0 && (r.x == 100.0 || r.x == pos.x - 200.0)
    ensures isFall ==> r.y == 100.0
    ensures !isFall ==> r.y == pos.y - 100.0
  {
    Vec(Max(100.0, pos.x - 200.0), if isFall then 100.0 else pos.y - 100.0)
  }

  /** The respawn timer firing: game over without lives, otherwise the player is put back,
      stopped and no longer hurt; the flag is cleared in both cases. */
  function OnTimer(h: Host): (r: Host)
    requires h.respawning
    ensures !r.respawning && r.pendingFall == h.pendingFall
    ensures h.state.player.life <= 0 ==> r.state == h.state.(status := GAMEOVER)
    ensures h.state.player.life > 0 ==>
              r.state == h.state.(player := h.state.player.(pos := RespawnPosition(h.state.player.pos, h.pendingFall),
                                                             vel := ZERO, isHurt := false))
  {
    var s := h.state;
    if s.player.life <= 0 then Host(s.(status := GAMEOVER), false, h.pendingFall)
    else
      var p := s.player;
      Host(s.(player := p.(pos := RespawnPosition(p.pos, h.pendingFall), vel := ZERO, isHurt := false)),
           false, h.pendingFall)
  }

  /** A second hit while the first is pending costs nothing. */
  lemma DoubleHitCostsOneLife(h: Host, first: bool, second: bool)
    ensures OnDamage(OnDamage(h, first), second) == OnDamage(h, first)
    ensures !h.respawning ==> OnDamage(OnDamage(h, first), second).state.player.life == h.state.player.life - 1
  {
  }

  /** A hit followed by its timer leaves the protocol idle again, one life down; the game
      ends exactly when that was the last life. */
  lemma HitThenTimer(h: Host, isFall: bool)
    requires !h.respawning
    ensures !OnTimer(OnDamage(h, isFall)).respawning
    ensures OnTimer(OnDamage(h, isFall)).state.player.life == h.state.player.life - 1
    ensures OnTimer(OnDamage(h, isFall)).state.status == GAMEOVER <==>
            (h.state.player.life <= 1 || h.state.status == GAMEOVER)
    ensures h.state.player.life > 1 ==>
              !OnTimer(OnDamage(h, isFall)).state.player.isHurt &&
              OnTimer(OnDamage(h, isFall)).state.player.vel == ZERO
  {
  }

  /** The damage calls of one frame in order; only the first can take effect. */
  function ApplyDamage(h: Host, events: seq<Event>): (r: Host)
    ensures r.respawning <==> h.respawning || events != []
    ensures h.respawning ==> r == h
    decreases |events|
  {
    if events == [] then h else OnDamage(ApplyDamage(h, events[..|events| - 1]), events[|events| - 1].isFall)
  }

  lemma {:induction false} OnlyFirstDamageCounts(h: Host, events: seq<Event>)
    requires events != []
    ensures ApplyDamage(h, events) == OnDamage(h, events[0].isFall)
    decreases |events|
  {
    if |events| > 1 {
      OnlyFirstDamageCounts(h, events[..|events| - 1]);
      assert events[..|events| - 1][0] == events[0];
    }
  }

  // ---------------------------------------------------------------- frames

  /** The camera: half a viewport behind the player, kept inside the world. */
  function ClampViewport(x: real): (r: real)
    ensures 0.0 <= r <= WORLD_WIDTH - VIEWPORT_WIDTH
    ensures 0.0 <= x - VIEWPORT_WIDTH / 2.0 <= WORLD_WIDTH - VIEWPORT_WIDTH ==> r == x - VIEWPORT_WIDTH / 2.0
    ensures x - VIEWPORT_WIDTH / 2.0 < 0.0 ==> r == 0.0
    ensures x - VIEWPORT_WIDTH / 2.0 > WORLD_WIDTH - VIEWPORT_WIDTH ==> r == WORLD_WIDTH - VIEWPORT_WIDTH
  {
    var target := Max(0.0, x - VIEWPORT_WIDTH / 2.0);
    if WORLD_WIDTH - VIEWPORT_WIDTH <= target then WORLD_WIDTH - VIEWPORT_WIDTH else target
  }

  /** The host after the step and the camera, before the frame's damage calls. The
      contract only fixes the pieces; the frame's properties are FrameDamage,
      OnlyFirstDamageCounts and SteppedPreservesInv below. */
  function Stepped(h: Host, keys: Keys): (r: Host)
    ensures !r.respawning && r.pendingFall == h.pendingFall
    ensures r.state == Step(h.state, keys).state.(viewportX := r.state.viewportX)
    ensures r.state.viewportX == ClampViewport(Step(h.state, keys).state.player.pos.x)
    ensures 0.0 <= r.state.viewportX <= WORLD_WIDTH - VIEWPORT_WIDTH
  {
    var o := Step(h.state, keys);
    Host(o.state.(viewportX := ClampViewport(o.state.player.pos.x)), false, h.pendingFall)
  }

  /** One animation frame: frozen while respawning or paused; otherwise the step, the
      camera, and then the frame's damage calls. The contract only names the pieces; what a
      frame guarantees is stated by FrameDamage and OnFramePreservesInv below. */
  function OnFrame(h: Host, keys: Keys): (r: Host)
    ensures h.respawning || h.state.status == PAUSED ==> r == h
    ensures !h.respawning && h.state.status != PAUSED ==>
              r == ApplyDamage(Stepped(h, keys), Step(h.state, keys).events)
  {
    if h.respawning || h.state.status == PAUSED then h
    else ApplyDamage(Stepped(h, keys), Step(h.state, keys).events)
  }

  /** A frame from the idle protocol: at most one life lost, and the respawn is pending
      exactly when the frame made a damage call. */
  lemma FrameDamage(h: Host, keys: Keys)
    requires !h.respawning && h.state.status != PAUSED
    ensures OnFrame(h, keys).respawning <==> Step(h.state, keys).events != []
    ensures OnFrame(h, keys).state.player.life ==
            h.state.player.life - (if Step(h.state, keys).events == [] then 0 else 1)
    ensures OnFrame(h, keys).state.viewportX == ClampViewport(Step(h.state, keys).state.player.pos.x)
    ensures 0.0 <= OnFrame(h, keys).state.viewportX <= WORLD_WIDTH - VIEWPORT_WIDTH
  {
    var o := Step(h.state, keys);
    if o.events != [] {
      OnlyFirstDamageCounts(Stepped(h, keys), o.events);
    }
  }

  /** A fresh game of a level, running. */
  function OnStart(h: Host, level: TileMapDefinition): (r: Host)
    requires Loads(level)
    ensures !r.respawning && r.state == CreateInitialState(level).value.(status := PLAYING)
    ensures r.state.player.life == INITIAL_LIFE && r.state.player.score == 0 && r.state.viewportX == 0.0
  {
    Host(CreateInitialState(level).value.(status := PLAYING), false, h.pendingFall)
  }

  // ---------------------------------------------------------------- the host invariant

  /** What the host keeps true between events: the camera inside the world, a score made
      of whole coins, a hurt player while a respawn is pending, no more than the initial
      lives, and a living player whenever a game runs without a pending respawn. */
  predicate Inv(h: Host)
    ensures Inv(h) ==> ClampViewport(h.state.viewportX + VIEWPORT_WIDTH / 2.0) == h.state.viewportX
  {
    var p := h.state.player;
    0.0 <= h.state.viewportX <= WORLD_WIDTH - VIEWPORT_WIDTH &&
    p.score >= 0 && p.score % CoinBehaviour.COIN_VALUE == 0 &&
    (h.respawning ==> p.isHurt) &&
    p.life <= INITIAL_LIFE &&
    (!h.respawning && (h.state.status == PLAYING || h.state.status == PAUSED) ==> p.life > 0)
  }

  lemma OnDamagePreservesInv(h: Host, isFall: bool)
    requires Inv(h)
    ensures Inv(OnDamage(h, isFall))
  {
  }

  lemma OnTimerPreservesInv(h: Host)
    requires Inv(h) && h.respawning
    ensures Inv(OnTimer(h))
  {
  }

  lemma {:induction false} ApplyDamagePreservesInv(h: Host, events: seq<Event>)
    requires Inv(h)
    ensures Inv(ApplyDamage(h, events))
    decreases |events|
  {
    if events != [] {
      ApplyDamagePreservesInv(h, events[..|events| - 1]);
      OnDamagePreservesInv(ApplyDamage(h, events[..|events| - 1]), events[|events| - 1].isFall);
    }
  }

  lemma SteppedPreservesInv(h: Host, keys: Keys)
    requires Inv(h) && !h.respawning
    ensures Inv(Stepped(h, keys))
  {
    StepScoreInvariant(h.state, keys);
  }

  lemma OnFramePreservesInv(h: Host, keys: Keys)
    requires Inv(h)
    ensures Inv(OnFrame(h, keys))
  {
    if !h.respawning && h.state.status != PAUSED {
      SteppedPreservesInv(h, keys);
      ApplyDamagePreservesInv(Stepped(h, keys), Step(h.state, keys).events);
    }
  }

  lemma OnStartPreservesInv(h: Host, level: TileMapDefinition)
    requires Loads(level)
    ensures Inv(OnStart(h, level))
  {
  }

  /** The pause and title keys change the status only. */
  lemma StatusChangePreservesInv(h: Host, s: Status)
    requires Inv(h)
    requires s == h.state.status || s == Pause.PauseToggle(h.state.status) || s == Title.ToTitle(h.state.status)
    ensures Inv(h.(state := h.state.(status := s)))
  {
  }

  // ---------------------------------------------------------------- the mutable host

  class Game {
    var state: GameState
    var respawning: bool
    var pendingFall: bool
    var keys: Keys
    const level: TileMapDefinition
    const pause: Pause.PauseHandler
    const title: Title.TitleHandler

    function HostOf(): Host
      reads this
    {
      Host(state, respawning, pendingFall)
    }

    predicate Valid()
      reads this
    {
      Inv(HostOf()) && Loads(level)
    }

    /** The initial `useState`: the selected level at the title screen. */
    constructor (level: TileMapDefinition)
      requires Loads(level)
      ensures Valid() && fresh(pause) && fresh(title)
      ensures state == CreateInitialState(level).value && !respawning && keys == map[]
      ensures this.level == level
      ensures !pause.prevPKey && !title.prevTKey
    {
      this.level := level;
      state := CreateInitialState(level).value;
      respawning := false;
      pendingFall := false;
      keys := map[];
      pause := new Pause.PauseHandler();
      title := new Title.TitleHandler();
    }

    /** `handleDamage`: the flag guards against a second hit until the timer fires. */
    method HandleDamage(isFall: bool)
      requires Valid()
      modifies this
      ensures Valid()
      ensures HostOf() == OnDamage(old(HostOf()), isFall) && keys == old(keys)
    {
      OnDamagePreservesInv(HostOf(), isFall);
      if respawning {
        return;
      }
      respawning := true;
      pendingFall := isFall;
      var p := state.player;
      state := state.(player := p.(life := p.life - 1, isHurt := true, vel := ZERO));
    }

    /** The 1200 ms respawn timer, made an explicit event. */
    method ResolveRespawn()
      requires Valid() && respawning
      modifies this
      ensures Valid()
      ensures HostOf() == OnTimer(old(HostOf())) && keys == old(keys)
    {
      OnTimerPreservesInv(HostOf());
      if state.player.life <= 0 {
        state := state.(status := GAMEOVER);
      } else {
        var p := state.player;
        var pos := Vec(Max(100.0, p.pos.x - 200.0), if pendingFall then 100.0 else p.pos.y - 100.0);
        state := state.(player := p.(pos := pos, vel := ZERO, isHurt := false));
      }
      respawning := false;
    }

    /** `update`: the gate, the step, the camera, then the damage calls in order. */
    method Update()
      requires Valid()
      modifies this
      ensures Valid()
      ensures HostOf() == OnFrame(old(HostOf()), keys) && keys == old(keys)
    {
      if respawning || state.status == PAUSED {
        return;
      }
      ghost var h0 := HostOf();
      var next, events := UpdateState(state, keys);
      next := next.(viewportX := ClampViewport(next.player.pos.x));
      state := next;
      assert HostOf() == Stepped(h0, keys);
      SteppedPreservesInv(h0, keys);
      for i := 0 to |events|
        invariant Valid() && keys == old(keys)
        invariant HostOf() == ApplyDamage(Stepped(h0, keys), events[..i])
      {
        assert events[..i + 1][..i] == events[..i];
        HandleDamage(events[i].isFall);
      }
      assert events[..|events|] == events;
    }

    /** `startGame`: the flag cleared and a fresh running game of the same level. */
    method StartGame()
      requires Valid()
      modifies this
      ensures Valid()
      ensures HostOf() == OnStart(old(HostOf()), level) && keys == old(keys)
    {
      OnStartPreservesInv(HostOf(), level);
      respawning := false;
      state := CreateInitialState(level).value.(status := PLAYING);
    }

    /** A new status from one of the key handlers; nothing else changes. */
    method SetStatus(s: Status)
      requires Valid()
      requires s == state.status || s == Pause.PauseToggle(state.status) || s == Title.ToTitle(state.status)
      modifies this
      ensures Valid() && state == old(state).(status := s)
      ensures respawning == old(respawning) && pendingFall == old(pendingFall) && keys == old(keys)
    {
      StatusChangePreservesInv(HostOf(), s);
      state := state.(status := s);
    }

    /** The window's keydown: the key is held, then the pause and title handlers run. */
    method HandleKeyDown(key: string)
      requires Valid()
      modifies this, pause, title
      ensures Valid()
      ensures keys == old(keys)[key := true]
      ensures respawning == old(respawning) && pendingFall == old(pendingFall)
      ensures var paused := Pause.KeyDown(Pause.Trigger(old(pause.prevPKey), old(state.status)), key);
              var titled := Title.KeyDown(Title.Trigger(old(title.prevTKey), paused.status), key);
              pause.prevPKey == paused.pressed && title.prevTKey == titled.pressed &&
              state == old(state).(status := titled.status)
    {
      var k := keys[key := true];
      var s;
      k, s := pause.HandleKeyDown(key, k, state);
      SetStatus(s.status);
      k, s := title.HandleKeyDown(key, k, state);
      SetStatus(s.status);
      keys := k;
    }

    /** The window's keyup: the key is released, then both handlers reset their flags. */
    method HandleKeyUp(key: string)
      requires Valid()
      modifies this, pause, title
      ensures Valid()
      ensures keys == old(keys)[key := false] && state == old(state)
      ensures respawning == old(respawning) && pendingFall == old(pendingFall)
      ensures pause.prevPKey == (old(pause.prevPKey) && !Pause.IsPauseKey(key))
      ensures title.prevTKey == (old(title.prevTKey) && !Title.IsTitleKey(key))
    {
      keys := keys[key := false];
      keys := pause.HandleKeyUp(key, keys);
      keys := title.HandleKeyUp(key, keys);
    }
  }
}
