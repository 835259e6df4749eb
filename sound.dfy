/** The part of eternal_loop/src/core/sound.py that the game logic touches:
    the `enabled` flag. Clip synthesis and playback are not modelled. */
module Sound {

  class SoundManager {
    var enabled: bool

    /** `enabled` is true unless the mixer failed to initialise. */
    constructor (mixerReady: bool)
      ensures enabled == mixerReady
    {
      enabled := mixerReady;
    }

    /** SoundManager.toggle: flip the flag and return the new value. */
    method Toggle() returns (on: bool)
      modifies this
      ensures enabled == !old(enabled) && on == enabled
    {
      enabled := !enabled;
      on := enabled;
    }
  }
}
