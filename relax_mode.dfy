/** src/scenes/relax_mode.py: the game core with hazards switched off. The
    scene clears the hazard list when it is created and before every frame,
    so at most the one hazard spawned during a frame is ever present. */
module RelaxMode {
  import opened Common
  import opened Events
  import opened Persistence
  import opened Game
  import opened Sound

  class RelaxScene {
    const core: GameCore

    /** RelaxScene.__init__: a fresh session with no hazards; the reset's
        save has outcome `o`. */
    constructor (core: GameCore, roll: real, o: Outcome)
      requires core.Valid()
      modifies core, core.store
      ensures this.core == core && core.Valid() && fresh(core.player)
      ensures core.State() == Restarted(core.w, core.h, roll, Loaded(old(core.store.file)))
      ensures core.store.file == Written(old(core.store.file), o, core.save)
    {
      this.core := core;
      new;
      core.Reset(roll, o);
      core.hazard := [];
    }

    /** RelaxScene.handle_event: Escape ends the session (its save has
        outcome `o`) and returns to the menu; M flips the sound; a left click
        emits a wave. */
    method HandleEvent(e: Event, mouse: Vec, o: Outcome) returns (next: Option<SceneName>)
      requires core.Valid()
      modifies core, core.store, core.sound
      ensures core.Valid() && next == PlayRoute(e) && core.player == old(core.player)
      ensures core.sound.enabled == (old(core.sound.enabled) != (e == KeyDown(KeyM)))
      ensures e == KeyDown(Escape) ==>
        core.State() == Ended(old(core.State())) &&
        core.store.file == Written(old(core.store.file), o, core.save)
      ensures e == MouseDown(1) ==>
        core.State() == old(core.State()).(waves := old(core.waves) + [Wave(mouse, 0.0)]) &&
        core.store.file == old(core.store.file)
      ensures e != KeyDown(Escape) && e != MouseDown(1) ==>
        core.State() == old(core.State()) && core.store.file == old(core.store.file)
    {
      next := None;
      match e {
        case KeyDown(k) =>
          if k == Escape {
            core.EndSession(o);
            return Some(Menu);
          }
          if k == KeyM {
            var _ := core.sound.Toggle();
          }
        case MouseDown(b) =>
          if b == 1 {
            core.EmitWave(mouse);
          }
        case _ =>
      }
    }

    /** RelaxScene.update: clear the hazards, then one frame of the core;
        afterwards at most one hazard exists. An achievement's save has
        outcome `o`. */
    method Update(dt: real, cursor: Vec, ds: SpawnDraws, m: Maths, o: Outcome)
      requires core.Valid() && DrawsFit(ds, core.w, core.h)
      modifies core, core.player, core.store
      ensures core.Valid() && |core.hazard| <= 1
      ensures core.State() == Step(old(core.State()).(hazard := []), dt, cursor, ds, m, core.w, core.h)
    {
      core.hazard := [];
      core.Update(dt, cursor, ds, m, o);
      RelaxStepHazards(old(core.State()).(hazard := []), dt, cursor, ds, m, core.w, core.h);
    }
  }
}
