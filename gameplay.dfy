/** src/scenes/gameplay.py: the playing scene, forwarding keys and clicks to
    the game core and running its frame. */
module GameplayMode {
  import opened Common
  import opened Events
  import opened Persistence
  import opened Game
  import opened Sound

  /** The record a restart (R) starts from: end_session writes the best
      size with outcome `o`, then reset re-reads the file. When the write is
      stored, the new session continues the ended record; when it is refused,
      it starts again from what the file held, dropping the best size and
      any achievement gained since; when it truncates the file, every count
      is lost and the session is the first one. */
  lemma RestartRecord(s: CoreState, file: Option<SaveData>, o: Outcome, roll: real, w: int, h: int)
    ensures var n := Restarted(w, h, roll, Loaded(Written(file, o, Ended(s).save)));
      && (o == Stored ==> n.save == Ended(s).save.(sessions := s.save.sessions + 1)
                          && n.save.bestSize >= s.player.radius
                          && n.save.achievements == s.save.achievements)
      && (o == Refused ==> n.save == Loaded(file).(sessions := Loaded(file).sessions + 1))
      && (o == Truncated ==> n.save == SaveData(0.0, 1, []))
      && n.score == 0.0 && n.food == [] && n.hazard == [] && n.waves == [] && !n.paused
  {
  }

  class GameplayScene {
    const core: GameCore

    constructor (core: GameCore)
      ensures this.core == core
    {
      this.core := core;
    }

    /** GameplayScene.handle_event. Escape ends the session and returns to
        the menu; R ends the session and restarts; Space pauses or resumes;
        M flips the sound; a left click emits a wave at the mouse position.
        Nothing else changes anything. The first save has outcome `o1`, the
        second (R only) `o2`. */
    method HandleEvent(e: Event, mouse: Vec, roll: real, o1: Outcome, o2: Outcome) returns (next: Option<SceneName>)
      requires core.Valid()
      modifies core, core.store, core.sound
      ensures core.Valid() && next == PlayRoute(e)
      ensures core.player == old(core.player) || fresh(core.player)
      ensures core.sound.enabled == (old(core.sound.enabled) != (e == KeyDown(KeyM)))
      ensures e == KeyDown(Escape) ==>
        core.State() == Ended(old(core.State())) &&
        core.store.file == Written(old(core.store.file), o1, core.save)
      ensures e == KeyDown(KeyR) ==>
        var ended := Ended(old(core.State()));
        var between := Written(old(core.store.file), o1, ended.save);
        core.State() == Restarted(core.w, core.h, roll, Loaded(between)) &&
        core.store.file == Written(between, o2, core.save)
      ensures e == KeyDown(Space) ==>
        core.State() == old(core.State()).(paused := !old(core.paused)) &&
        core.store.file == old(core.store.file)
      ensures e == MouseDown(1) ==>
        core.State() == old(core.State()).(waves := old(core.waves) + [Wave(mouse, 0.0)]) &&
        core.store.file == old(core.store.file)
      ensures e !in {KeyDown(Escape), KeyDown(KeyR), KeyDown(Space), MouseDown(1)} ==>
        core.State() == old(core.State()) && core.store.file == old(core.store.file)
    {
      next := None;
      match e {
        case KeyDown(k) =>
          if k == Escape {
            core.EndSession(o1);
            return Some(Menu);
          }
          if k == KeyR {
            core.EndSession(o1);
            core.Reset(roll, o2);
          }
          if k == Space {
            core.TogglePause();
          }
          if k == KeyM {
            var _ := core.sound.Toggle();
          }
        case MouseDown(b) =>
          if b == 1 {
            core.EmitWave(mouse);
          }
        case _ =>
      }
    }

    /** GameplayScene.update: one frame of the game core; an achievement's
        save has outcome `o`. */
    method Update(dt: real, cursor: Vec, ds: SpawnDraws, m: Maths, o: Outcome)
      requires core.Valid() && DrawsFit(ds, core.w, core.h)
      modifies core, core.player, core.store
      ensures core.Valid()
      ensures core.State() == Step(old(core.State()), dt, cursor, ds, m, core.w, core.h)
    {
      core.Update(dt, cursor, ds, m, o);
    }
  }
}
