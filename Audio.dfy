/** Raw audio values and the input device that mycroft_ptt/speech/mic.py
    reads from. The device (a PyAudio input stream) is hardware; here it is
    an object whose answers come from finite sequences fixed in advance. */
module Audio {

  newtype byte = x: int | 0 <= x < 256

  /** `get_silence(num_bytes)`: that many zero bytes. */
  function Silence(n: nat): (s: seq<byte>)
    ensures |s| == n
    ensures forall i :: 0 <= i < n ==> s[i] == 0
  {
    seq(n, _ => 0)
  }

  /** `b"".join(chunks)`. */
  function Concat(chunks: seq<seq<byte>>): seq<byte>
    decreases |chunks|
  {
    if chunks == [] then [] else Concat(chunks[..|chunks| - 1]) + chunks[|chunks| - 1]
  }

  /** A buffer after `buffer += chunk` for each of `chunks`, in order. */
  function Extend(buffer: seq<byte>, chunks: seq<seq<byte>>): seq<byte>
    decreases |chunks|
  {
    if chunks == [] then buffer else Extend(buffer, chunks[..|chunks| - 1]) + chunks[|chunks| - 1]
  }

  lemma ExtendAppend(buffer: seq<byte>, chunks: seq<seq<byte>>, c: seq<byte>)
    ensures Extend(buffer, chunks + [c]) == Extend(buffer, chunks) + c
  {
    assert (chunks + [c])[..|chunks|] == chunks;
  }

  /** Extending a buffer chunk by chunk is appending the joined chunks. */
  lemma {:induction false} ExtendIsConcat(buffer: seq<byte>, chunks: seq<seq<byte>>)
    ensures Extend(buffer, chunks) == buffer + Concat(chunks)
    decreases |chunks|
  {
    if chunks != [] {
      var k := |chunks| - 1;
      ExtendIsConcat(buffer, chunks[..k]);
      assert buffer + Concat(chunks) == (buffer + Concat(chunks[..k])) + chunks[k];
    }
  }

  /** Appending one more element after two sequences. */
  lemma AppendOne<T>(a: seq<T>, b: seq<T>, x: T)
    ensures a + (b + [x]) == (a + b) + [x]
  {
  }

  function Sum(xs: seq<nat>): nat
    decreases |xs|
  {
    if xs == [] then 0 else Sum(xs[..|xs| - 1]) + xs[|xs| - 1]
  }

  lemma SumAppend(xs: seq<nat>, x: nat)
    ensures Sum(xs + [x]) == Sum(xs) + x
  {
    assert (xs + [x])[..|xs|] == xs;
  }

  /** What can go wrong while reading audio: the stream handle is gone
      (closed, or never opened), the device overflowed and the caller asked
      for that to be an error, or the device's scripted answers ran out. */
  datatype Fault = Closed | Overflow | Starved

  datatype Result<T> = Ok(value: T) | Err(fault: Fault)

  /** One answer of the device's `read`: the bytes and whether its buffer
      overflowed before they were read. */
  datatype DeviceRead = DeviceRead(data: seq<byte>, overflowed: bool)

  function Datas(rs: seq<DeviceRead>): (ds: seq<seq<byte>>)
    ensures |ds| == |rs|
    ensures forall i :: 0 <= i < |rs| ==> ds[i] == rs[i].data
  {
    seq(|rs|, i requires 0 <= i < |rs| => rs[i].data)
  }

  /** The PyAudio input stream. `available` and `incoming` are the answers it
      will give, in order, to `get_read_available` and `read`; `requested`
      records the sizes asked of `read`. */
  class Device {
    var stopped: bool
    var closed: bool
    var available: seq<int>
    var incoming: seq<DeviceRead>
    var requested: seq<nat>

    /** The scripted answers still to come and the log of read sizes. */
    ghost function Script(): (seq<int>, seq<DeviceRead>, seq<nat>)
      reads this
    {
      (available, incoming, requested)
    }

    constructor (available: seq<int>, incoming: seq<DeviceRead>)
      ensures !stopped && !closed
      ensures this.available == available && this.incoming == incoming && requested == []
    {
      stopped, closed := false, false;
      this.available, this.incoming, requested := available, incoming, [];
    }

    method StopStream()
      modifies this
      ensures stopped
      ensures closed == old(closed) && Script() == old(Script())
    {
      stopped := true;
    }

    method StartStream()
      modifies this
      ensures !stopped
      ensures closed == old(closed) && Script() == old(Script())
    {
      stopped := false;
    }

    method Close()
      modifies this
      ensures closed
      ensures stopped == old(stopped) && Script() == old(Script())
    {
      closed := true;
    }

    /** `is_stopped()`, which raises once the device is closed. */
    method IsStopped() returns (r: Result<bool>)
      ensures r == if closed then Err(Closed) else Ok(stopped)
    {
      r := if closed then Err(Closed) else Ok(stopped);
    }

    /** `get_input_latency()`, seen only for whether it answers: it raises
        once the device is closed. */
    method GetInputLatency() returns (r: Result<()>)
      ensures r.Ok? <==> !closed
      ensures closed ==> r == Err(Closed)
    {
      r := if closed then Err(Closed) else Ok(());
    }

    /** `get_read_available()`: the next scripted count. */
    method GetReadAvailable() returns (r: Result<int>)
      modifies this`available
      ensures closed ==> r == Err(Closed) && available == old(available)
      ensures !closed && old(available) == [] ==> r == Err(Starved) && available == []
      ensures !closed && old(available) != [] ==>
        r == Ok(old(available)[0]) && available == old(available)[1..]
    {
      if closed {
        r := Err(Closed);
      } else if available == [] {
        r := Err(Starved);
      } else {
        r := Ok(available[0]);
        available := available[1..];
      }
    }

    /** `read(n, exception_on_overflow=ofExc)`: the next scripted result;
        an overflow is an error only when `ofExc` holds. */
    method Read(n: nat, ofExc: bool) returns (r: Result<seq<byte>>)
      modifies this`incoming, this`requested
      ensures closed ==> r == Err(Closed) && incoming == old(incoming) && requested == old(requested)
      ensures !closed && old(incoming) == [] ==>
        r == Err(Starved) && incoming == [] && requested == old(requested)
      ensures !closed && old(incoming) != [] ==>
        && incoming == old(incoming)[1..]
        && requested == old(requested) + [n]
        && r == if old(incoming)[0].overflowed && ofExc then Err(Overflow) else Ok(old(incoming)[0].data)
    {
      if closed {
        r := Err(Closed);
      } else if incoming == [] {
        r := Err(Starved);
      } else {
        var x := incoming[0];
        incoming := incoming[1..];
        requested := requested + [n];
        r := if x.overflowed && ofExc then Err(Overflow) else Ok(x.data);
      }
    }
  }
}
