/** The playback clock every asset carries, and the defaults of the asset
    base class. */
module Assets {

  /** `_isPlaying`, `_startTime`, `_lastProcessedTime` and `_duration`, in
      milliseconds. */
  datatype Clock = Clock(playing: bool, startTime: nat, lastProcessed: nat, duration: nat)

  /** A newly constructed asset: not playing, every time field 0. */
  const Fresh: Clock := Clock(false, 0, 0, 0)

  function IsPlaying(c: Clock): bool {
    c.playing
  }

  /** The default `process`, for assets with no per-frame work. */
  function Process(c: Clock): (r: Clock)
    ensures IsPlaying(r) == IsPlaying(c)
    ensures r == c
  {
    c
  }

  /** A fresh asset is idle and stays idle under the default `process`. */
  lemma FreshIsIdle()
    ensures !IsPlaying(Fresh) && !IsPlaying(Process(Fresh))
    ensures Fresh.startTime == 0 && Fresh.lastProcessed == 0 && Fresh.duration == 0
  {
  }
}
