/** src/scenes/menu.py: the title screen. It routes to the other scenes and
    toggles the sound; it never touches the game core's state. */
module MenuMode {
  import opened Common
  import opened Events
  import opened Game
  import opened Sound

  class MenuScene {
    const core: GameCore
    /** Animation clock of the title screen. */
    var t: real

    constructor (core: GameCore)
      ensures this.core == core && t == 0.0
    {
      this.core := core;
      t := 0.0;
    }

    /** MenuScene.handle_event: the route of the event; M flips the sound
        flag (and stays on the menu). */
    method HandleEvent(e: Event) returns (next: Option<SceneName>)
      modifies core.sound
      ensures next == MenuRoute(e)
      ensures core.sound.enabled == (old(core.sound.enabled) != (e == KeyDown(KeyM)))
    {
      next := None;
      match e {
        case KeyDown(k) =>
          if k == Key1 || k == Return {
            return Some(Gameplay);
          }
          if k == Key2 {
            return Some(Relax);
          }
          if k == KeyM {
            var _ := core.sound.Toggle();
          }
        case MouseDown(b) =>
          if b == 1 {
            return Some(Gameplay);
          }
        case _ =>
      }
    }

    /** MenuScene.update: only the title animation advances. */
    method Update(dt: real)
      modifies this
      ensures t == old(t) + dt
    {
      t := t + dt;
    }
  }
}
