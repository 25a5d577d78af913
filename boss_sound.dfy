/**
 * Interface-only models of the two collaborators of the boss-music controller
 * whose declarations are not part of this model: the `BossType` enumeration and
 * the `BossThemeSoundInstance` playback handle. Only what the controller reads
 * or commands is modelled; the mixer's fade arithmetic is not.
 */
module BossSound {

  /** A namespaced identifier such as `mowziesmobs:music.frostmaw_theme`. */
  datatype ResourceLocation = ResourceLocation(namespace: string, path: string)

  /**
   * One constant of the boss enumeration: its name, the entity type it matches
   * and the theme sound it plays. Enum constants have distinct names, so two
   * constants are never equal as values.
   */
  datatype BossType = BossType(name: string, entityId: ResourceLocation, theme: ResourceLocation)

  /** What a handle exposes at one moment. */
  datatype HandleState = HandleState(
    fadeTarget: real,          // target of the last fade command
    fadeTicks: int,            // duration of the last fade command
    stopped: bool,             // set by the mixer once playback ended
    hardStopRequested: bool,   // stop once the fade-out has reached silence
    volume: real)              // current volume, advanced by the mixer

  /** Fixed fade-in of a freshly started theme (40 ticks, as the controller uses). */
  const StartFadeTicks: int := 40

  /**
   * A live playback of one boss theme. The controller only creates it, issues
   * fade and hard-stop commands and reads `stopped` and the volume; `stopped`
   * and `volume` change only through the mixer, which is not modelled.
   */
  class BossThemeSoundInstance {
    const theme: ResourceLocation
    var fadeTarget: real
    var fadeTicks: int
    var stopped: bool
    var hardStopRequested: bool
    var volume: real

    function State(): HandleState
      reads this
    {
      HandleState(fadeTarget, fadeTicks, stopped, hardStopRequested, volume)
    }

    /** A new theme starts silent, fading up to full volume. */
    predicate IsFreshStart(id: ResourceLocation)
      reads this
    {
      theme == id && State() == HandleState(1.0, StartFadeTicks, false, false, 0.0)
    }

    constructor (id: ResourceLocation)
      ensures IsFreshStart(id)
    {
      theme := id;
      fadeTarget := 1.0;
      fadeTicks := StartFadeTicks;
      stopped := false;
      hardStopRequested := false;
      volume := 0.0;
    }

    function IsStopped(): bool
      reads this
    {
      stopped
    }

    function CurrentVolume(): real
      reads this
    {
      volume
    }

    /** Records a fade command; the fade itself is the mixer's business. */
    method FadeTo(target: real, ticks: int)
      modifies this
      ensures State() == old(State()).(fadeTarget := target, fadeTicks := ticks)
    {
      fadeTarget := target;
      fadeTicks := ticks;
    }

    method RequestHardStopAfterFadeOut()
      modifies this
      ensures State() == old(State()).(hardStopRequested := true)
    {
      hardStopRequested := true;
    }
  }
}
