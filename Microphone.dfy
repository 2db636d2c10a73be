/** `MutableMicrophone` of mycroft_ptt/speech/mic.py: owns at most one
    `MutableStream` at a time and remembers the mute flag across opening,
    closing and restarting the stream. */
module Microphone {
  import opened Audio
  import opened Stream

  class MutableMicrophone {
    var muted: bool
    var stream: MutableStream?
    const sampleRate: nat
    const chunk: nat
    const sampleWidth: nat

    /** The objects a call on the microphone may change: itself, its stream
        and the stream's device. */
    ghost function Footprint(): set<object>
      reads this, stream
    {
      {this} + (if stream == null then {} else {stream} + (if stream.wrapped == null then {} else {stream.wrapped}))
    }

    /** The device behind the open stream, if any. */
    ghost function Handle(): set<Device>
      reads this, stream
    {
      if stream == null then {} else stream.Handle()
    }

    /** `MutableMicrophone(sample_rate, chunk_size, mute)`: no stream is
        open yet, so muting only records the flag. */
    constructor (sampleRate: nat, chunk: nat, sampleWidth: nat, mute: bool)
      ensures muted == mute && stream == null
      ensures this.sampleRate == sampleRate && this.chunk == chunk && this.sampleWidth == sampleWidth
    {
      this.sampleRate, this.chunk, this.sampleWidth := sampleRate, chunk, sampleWidth;
      muted := false;
      stream := null;
      new;
      if mute {
        Mute();
      }
    }

    /** `_start()`: opens a new device (whose answers are `available` and
        `incoming`) and wraps it in a stream that starts muted when the
        remembered flag says so. Refuses (the source's assertion) while a
        stream is already open. */
    method Start(available: seq<int>, incoming: seq<DeviceRead>) returns (ok: bool)
      modifies this
      ensures ok == (old(stream) == null)
      ensures muted == old(muted)
      ensures !ok ==> stream == old(stream)
      ensures ok ==> fresh(stream) && fresh(stream.wrapped) && stream.muted == muted
      ensures ok ==> stream.sampleWidth == sampleWidth && stream.mutedBuffer == Silence(sampleWidth)
      ensures ok ==> var d := stream.wrapped;
        d.stopped == muted && !d.closed && d.Script() == (available, incoming, [])
    {
      if stream != null {
        return false;
      }
      var device := new Device(available, incoming);
      stream := new MutableStream(device, sampleWidth, muted);
      ok := true;
    }

    /** `_stop()`: stops the stream unless already stopped, closes it, and
        drops it. Failures inside are logged and ignored, so the microphone
        always ends up without a stream. */
    method Stop()
      modifies Footprint()
      ensures stream == null && muted == old(muted)
      ensures old(stream) != null ==> old(stream).wrapped == null
      ensures old(stream) != null && old(stream.wrapped) != null ==>
        var d := old(stream.wrapped);
        d.closed && (d.stopped || old(d.closed)) && d.Script() == old(d.Script())
    {
      if stream != null {
        var stopped := stream.IsStopped();
        if !stopped {
          var _ := stream.StopStream();
        }
        var _ := stream.Close();
      }
      // Without a stream the calls above raise; that error is swallowed too.
      stream := null;
    }

    /** `restart()`: closes the current stream and opens one on a new
        device; the mute flag survives and applies to the new stream. */
    method Restart(available: seq<int>, incoming: seq<DeviceRead>)
      modifies Footprint()
      ensures muted == old(muted)
      ensures old(stream) != null ==> old(stream).wrapped == null
      ensures old(stream) != null && old(stream.wrapped) != null ==> old(stream.wrapped).closed
      ensures fresh(stream) && fresh(stream.wrapped) && stream.muted == muted
      ensures var d := stream.wrapped;
        d.stopped == muted && !d.closed && d.Script() == (available, incoming, [])
    {
      Stop();
      var ok := Start(available, incoming);
    }

    /** `mute()`: records the flag and mutes the open stream, if any. */
    method Mute()
      modifies Footprint()
      ensures muted && stream == old(stream)
      ensures stream != null ==> stream.muted && stream.wrapped == old(stream.wrapped)
      ensures stream != null && stream.wrapped != null ==>
        stream.wrapped.stopped && stream.wrapped.closed == old(stream.wrapped.closed)
        && stream.wrapped.Script() == old(stream.wrapped.Script())
    {
      muted := true;
      if stream != null {
        var _ := stream.Mute();
      }
    }

    /** `unmute()`: clears the flag and unmutes the open stream, if any. */
    method Unmute()
      modifies Footprint()
      ensures !muted && stream == old(stream)
      ensures stream != null ==> !stream.muted && stream.wrapped == old(stream.wrapped)
      ensures stream != null && stream.wrapped != null ==>
        !stream.wrapped.stopped && stream.wrapped.closed == old(stream.wrapped.closed)
        && stream.wrapped.Script() == old(stream.wrapped.Script())
    {
      muted := false;
      if stream != null {
        var _ := stream.Unmute();
      }
    }

    /** `is_muted()`: the flag set by the last mute or unmute. */
    method IsMuted() returns (m: bool)
      ensures m == muted
    {
      m := muted;
    }
  }
}
