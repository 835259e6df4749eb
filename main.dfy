/** eternal_loop/src/main.py: the application that owns the game core and
    the three scenes, routes events to the current scene and runs one frame
    per loop iteration. The window, the clock's sleeping and drawing are
    not modelled; the time read from perf_counter is a parameter. */
module Application {
  import opened Common
  import opened Events
  import opened Persistence
  import opened Particles
  import opened Game
  import opened Sound
  import opened MenuMode
  import opened GameplayMode
  import opened RelaxMode

  const Width := 1280
  const Height := 720
  /** The largest frame step: dt = min(elapsed, 1/30). */
  const MaxDt := 1.0 / 30.0

  /** The frame step for `elapsed` seconds since the last frame. */
  function ClampDt(elapsed: real): (dt: real)
    ensures dt <= MaxDt
    ensures dt == elapsed || dt == MaxDt
    ensures elapsed <= MaxDt ==> dt == elapsed
    ensures 0.0 <= elapsed ==> 0.0 <= dt
  {
    if elapsed <= MaxDt then elapsed else MaxDt
  }

  /** The core state right after launch: GameCore.__init__ resets once (its
      save has outcome `o1`) and building the relax scene resets again (and
      clears the hazards). */
  function Launched(file: Option<SaveData>, o1: Outcome, roll1: real, roll2: real): CoreState
  {
    var first := Restarted(Width, Height, roll1, Loaded(file));
    Restarted(Width, Height, roll2, Loaded(Written(file, o1, first.save))).(hazard := [])
  }

  /** Launching counts two sessions when the first save is stored, and one
      when it is refused (the second reset re-reads the unchanged file);
      nothing else of the record changes. A first save that truncates the
      file loses the record: the launch starts from the default record with
      one session. The state satisfies the invariant. */
  lemma LaunchSessions(file: Option<SaveData>, o1: Outcome, roll1: real, roll2: real)
    ensures var s := Launched(file, o1, roll1, roll2);
      && (o1 == Stored ==> s.save == Loaded(file).(sessions := Loaded(file).sessions + 2))
      && (o1 == Refused ==> s.save == Loaded(file).(sessions := Loaded(file).sessions + 1))
      && (o1 == Truncated ==> s.save == SaveData(0.0, 1, []))
      && Good(s, Width, Height)
  {
    RestartedGood(Width, Height, roll2, Loaded(Written(file, o1, Restarted(Width, Height, roll1, Loaded(file)).save)));
  }

  class App {
    const core: GameCore
    const menu: MenuScene
    const gameplay: GameplayScene
    var relax: RelaxScene
    var sceneName: SceneName
    /** perf_counter() at the previous frame. */
    var lastTime: real

    ghost predicate Valid()
      reads this, core, core.player, relax
    {
      && core.Valid() && core.w == Width && core.h == Height
      && menu.core == core && gameplay.core == core && relax.core == core
    }

    /** App.__init__ followed by the first clock read of App.run: the core,
        the three scenes (the relax scene resets the core a second time),
        starting on the menu. The two resets' saves have outcomes `o1` and
        `o2`. */
    constructor (store: SaveStore, mixerReady: bool, roll1: real, roll2: real, o1: Outcome, o2: Outcome, start: real)
      modifies store
      ensures Valid() && sceneName == Menu && lastTime == start
      ensures core.store == store && fresh(core) && fresh(core.sound) && core.sound.enabled == mixerReady
      ensures core.State() == Launched(old(store.file), o1, roll1, roll2)
      ensures var first := Restarted(Width, Height, roll1, Loaded(old(store.file)));
        store.file == Written(Written(old(store.file), o1, first.save), o2, core.save)
    {
      var c := new GameCore(Width, Height, mixerReady, store, roll1, o1);
      var r := new RelaxScene(c, roll2, o2);
      core := c;
      menu := new MenuScene(c);
      gameplay := new GameplayScene(c);
      relax := r;
      sceneName := Menu;
      lastTime := start;
    }

    /** App.switch: entering relax mode builds a new relax scene, which
        resets the core (its save has outcome `o`); the other scenes take the
        core as it is. */
    method Switch(name: SceneName, roll: real, o: Outcome)
      requires Valid()
      modifies this, core, core.store
      ensures Valid() && sceneName == name && lastTime == old(lastTime)
      ensures core.player == old(core.player) || fresh(core.player)
      ensures name == Relax ==>
        fresh(relax) &&
        core.State() == Restarted(Width, Height, roll, Loaded(old(core.store.file))).(hazard := []) &&
        core.store.file == Written(old(core.store.file), o, core.save)
      ensures name != Relax ==>
        relax == old(relax) && core.State() == old(core.State()) && core.store.file == old(core.store.file)
    {
      if name == Relax {
        relax := new RelaxScene(core, roll, o);
      }
      sceneName := name;
    }

    /** `self.scenes[self.scene_name].handle_event(e)` for one event. */
    method Dispatch(input: Input) returns (next: Option<SceneName>)
      requires Valid()
      modifies core, core.store, core.sound
      ensures Valid() && next == Route(sceneName, input.event)
      ensures core.player == old(core.player) || fresh(core.player)
      ensures sceneName == Menu ==> core.State() == old(core.State()) && core.store.file == old(core.store.file)
    {
      match sceneName
      case Menu => next := menu.HandleEvent(input.event);
      case Gameplay => next := gameplay.HandleEvent(input.event, input.mouse, input.roll, input.first, input.second);
      case Relax => next := relax.HandleEvent(input.event, input.mouse, input.first);
    }

    /** The event loop of one frame: a quit event ends the session (its
        result is saved) and stops the application at once; every other
        event goes to the current scene, whose answer may switch scenes. */
    method HandleEvents(inputs: seq<Input>) returns (quit: bool)
      requires Valid()
      modifies this, core, core.store, core.sound
      ensures Valid() && lastTime == old(lastTime)
      ensures core.player == old(core.player) || fresh(core.player)
      ensures quit <==> exists i :: 0 <= i < |inputs| && inputs[i].event == Quit
      ensures quit ==> core.save.bestSize >= core.player.radius
      ensures quit ==> exists i :: 0 <= i < |inputs| && inputs[i].event == Quit &&
                         (forall j :: 0 <= j < i ==> inputs[j].event != Quit) &&
                         (inputs[i].first == Stored ==> core.store.file == Some(core.save)) &&
                         (inputs[i].first == Truncated ==> core.store.file == None)
    {
      var i := 0;
      while i < |inputs|
        invariant 0 <= i <= |inputs|
        invariant Valid() && lastTime == old(lastTime)
        invariant core.player == old(core.player) || fresh(core.player)
        invariant forall j :: 0 <= j < i ==> inputs[j].event != Quit
      {
        if inputs[i].event == Quit {
          core.EndSession(inputs[i].first);
          return true;
        }
        var next := Dispatch(inputs[i]);
        if next.Some? {
          Switch(next.value, inputs[i].roll, inputs[i].first);
        }
        i := i + 1;
      }
      return false;
    }

    /** `self.scenes[self.scene_name].update(dt)`. */
    method UpdateScene(dt: real, cursor: Vec, ds: SpawnDraws, m: Maths, o: Outcome)
      requires Valid() && DrawsFit(ds, Width, Height)
      modifies core, core.player, core.store, menu
      ensures Valid()
      ensures sceneName == Menu ==> core.State() == old(core.State()) && menu.t == old(menu.t) + dt
      ensures sceneName == Gameplay ==> core.State() == Step(old(core.State()), dt, cursor, ds, m, Width, Height)
      ensures sceneName == Relax ==>
        core.State() == Step(old(core.State()).(hazard := []), dt, cursor, ds, m, Width, Height) &&
        |core.hazard| <= 1
    {
      match sceneName
      case Menu => menu.Update(dt);
      case Gameplay => gameplay.Update(dt, cursor, ds, m, o);
      case Relax => relax.Update(dt, cursor, ds, m, o);
    }

    /** One iteration of App.run at clock reading `now`: the step is the
        time since the previous iteration, at most 1/30 s; then the events,
        then, unless one of them quit, the current scene's update, whose
        achievement save has outcome `o`. */
    method Frame(now: real, inputs: seq<Input>, cursor: Vec, ds: SpawnDraws, m: Maths, o: Outcome) returns (quit: bool)
      requires Valid() && lastTime <= now && DrawsFit(ds, Width, Height)
      modifies this, core, core.player, core.store, core.sound, menu
      ensures Valid() && lastTime == now
      ensures quit <==> exists i :: 0 <= i < |inputs| && inputs[i].event == Quit
    {
      var dt := ClampDt(now - lastTime);
      lastTime := now;
      quit := HandleEvents(inputs);
      if !quit {
        UpdateScene(dt, cursor, ds, m, o);
      }
    }
  }

  /** With a lawful flow field, a frame of either play scene keeps particle
      speeds within 20 per axis, because the step is clamped to 1/30 s. */
  lemma FrameKeepsSpeeds(s: CoreState, elapsed: real, cursor: Vec, ds: SpawnDraws, m: Maths)
    requires Lawful(m) && 0.0 <= elapsed && |s.player.trail| <= TrailMax && DrawsFit(ds, Width, Height)
    requires SpeedsBounded(s.food) && SpeedsBounded(s.hazard)
    ensures var n := Step(s, ClampDt(elapsed), cursor, ds, m, Width, Height);
      SpeedsBounded(n.food) && SpeedsBounded(n.hazard)
  {
    StepKeepsSpeeds(s, ClampDt(elapsed), cursor, ds, m, Width, Height);
  }
}
