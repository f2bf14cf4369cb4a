/**
 * The browser's media element, reduced to the fields the players read and write. Its own
 * behaviour (decoding, buffering, when it fires events) is outside the model: callers change
 * `currentTime`, `duration` and `bufferedEnds` to say what the element reports. `playCalls`
 * counts calls of `play()`, so that a contract can say how many were issued.
 */
module Media {

  class MediaElement {
    var src: string
    var currentTime: real
    /** 0 until metadata is known (the browser reports NaN, which every guard treats like 0). */
    var duration: real
    var volume: real
    var paused: bool
    /** The end of each buffered time range, in order. */
    var bufferedEnds: seq<real>
    var playCalls: nat

    constructor ()
      ensures src == "" && currentTime == 0.0 && duration == 0.0 && volume == 1.0
      ensures paused && bufferedEnds == [] && playCalls == 0
    {
      src, currentTime, duration, volume := "", 0.0, 0.0, 1.0;
      paused, bufferedEnds, playCalls := true, [], 0;
    }

    /** `play()`; whether the returned promise resolves is the caller's choice. */
    method Play(succeeds: bool)
      modifies this
      ensures playCalls == old(playCalls) + 1
      ensures paused == (old(paused) && !succeeds)
      ensures src == old(src) && currentTime == old(currentTime) && duration == old(duration)
      ensures volume == old(volume) && bufferedEnds == old(bufferedEnds)
    {
      playCalls := playCalls + 1;
      if succeeds {
        paused := false;
      }
    }

    /**
     * Assigning `src`: the browser's load algorithm pauses the element, rewinds it to 0 and
     * forgets the old resource's duration and buffered ranges; volume is kept.
     */
    method Load(url: string)
      modifies this
      ensures src == url && paused && currentTime == 0.0 && duration == 0.0 && bufferedEnds == []
      ensures volume == old(volume) && playCalls == old(playCalls)
    {
      src := url;
      paused := true;
      currentTime := 0.0;
      duration := 0.0;
      bufferedEnds := [];
    }

    /** `pause()`. */
    method Pause()
      modifies this
      ensures paused && playCalls == old(playCalls)
      ensures src == old(src) && currentTime == old(currentTime) && duration == old(duration)
      ensures volume == old(volume) && bufferedEnds == old(bufferedEnds)
    {
      paused := true;
    }
  }
}
