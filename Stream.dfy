/** `MutableStream` of mycroft_ptt/speech/mic.py: a device stream that can be
    muted, and that then answers reads with a fixed buffer of silence. */
module Stream {
  import opened Audio

  /** What one pass of the loop of `read` does on an unmuted stream that
      still owes `remaining` frames: ask the device how much is available
      and, when the smaller of that and `remaining` is positive, read that
      many frames. `asked` is the size the device logged for the read (0
      when it logged none), and `available` and `incoming` are the device's
      answers still to come. */
  datatype Poll = Poll(r: Result<seq<byte>>, asked: nat, available: seq<int>, incoming: seq<DeviceRead>)

  function PollOnce(closed: bool, available: seq<int>, incoming: seq<DeviceRead>, remaining: int, ofExc: bool): (p: Poll)
    requires remaining > 0
    ensures p.r.Ok? ==> available != [] && p.available == available[1..]
    ensures p.r.Ok? ==> p.asked <= remaining && (p.asked == 0 <==> available[0] <= 0)
    ensures p.r.Ok? && p.asked > 0 ==> incoming != [] && p.incoming == incoming[1..] && p.r.value == incoming[0].data
    ensures p.r.Ok? && p.asked == 0 ==> p.incoming == incoming
    ensures closed ==> p.r == Err(Closed) && p.asked == 0
    ensures !closed && available == [] ==> p.r == Err(Starved) && p.asked == 0
    ensures !closed && available != [] ==>
      var toRead := if available[0] < remaining then available[0] else remaining;
      && p.available == available[1..]
      && p.asked == (if toRead <= 0 || incoming == [] then 0 else toRead)
      && (p.r.Err? <==> toRead > 0 && (incoming == [] || (ofExc && incoming[0].overflowed)))
  {
    if closed then Poll(Err(Closed), 0, available, incoming)
    else if available == [] then Poll(Err(Starved), 0, available, incoming)
    else
      var toRead := if available[0] < remaining then available[0] else remaining;
      if toRead <= 0 then Poll(Ok([]), 0, available[1..], incoming)
      else if incoming == [] then Poll(Err(Starved), 0, available[1..], incoming)
      else if ofExc && incoming[0].overflowed then Poll(Err(Overflow), toRead, available[1..], incoming[1..])
      else Poll(Ok(incoming[0].data), toRead, available[1..], incoming[1..])
  }

  /** The outcome of a whole read of `remaining` frames on an unmuted
      stream: the pieces read (kept only on success), the sizes the device
      logged, and the device's answers still to come. */
  datatype Gathered = Gathered(r: Result<seq<seq<byte>>>, sizes: seq<nat>, available: seq<int>, incoming: seq<DeviceRead>)

  /** The loop of `read`, pass after pass, until nothing is owed or a call
      into the device fails. A pass with nothing available reads nothing and
      owes as much as before. */
  function Gather(closed: bool, available: seq<int>, incoming: seq<DeviceRead>, remaining: int, ofExc: bool): Gathered
    decreases |available|
  {
    if remaining <= 0 then Gathered(Ok([]), [], available, incoming)
    else
      var p := PollOnce(closed, available, incoming, remaining, ofExc);
      if p.r.Err? then Gathered(Err(p.r.fault), if p.asked > 0 then [p.asked] else [], p.available, p.incoming)
      else if p.asked == 0 then Gather(closed, p.available, p.incoming, remaining, ofExc)
      else Prepend([p.r.value], [p.asked], Gather(closed, p.available, p.incoming, remaining - p.asked, ofExc))
  }

  /** A read fails only for a real reason: `Closed` on a closed device,
      `Overflow` only under `ofExc`, and `Starved` only once one of the
      device's scripts has run out. */
  lemma {:induction false} GatherFaults(closed: bool, available: seq<int>, incoming: seq<DeviceRead>,
                                        remaining: int, ofExc: bool)
    ensures var g := Gather(closed, available, incoming, remaining, ofExc);
      && (g.r == Err(Closed) ==> closed)
      && (g.r == Err(Overflow) ==> ofExc)
      && (g.r == Err(Starved) ==> g.available == [] || g.incoming == [])
    decreases |available|
  {
    if remaining > 0 {
      var p := PollOnce(closed, available, incoming, remaining, ofExc);
      if p.r.Ok? {
        GatherFaults(closed, p.available, p.incoming, if p.asked == 0 then remaining else remaining - p.asked, ofExc);
      }
    }
  }

  /** The outcome `g` of the rest of a read after the pieces `pieces` of
      sizes `sizes` were read. */
  function Prepend(pieces: seq<seq<byte>>, sizes: seq<nat>, g: Gathered): Gathered {
    Gathered(if g.r.Ok? then Ok(pieces + g.r.value) else g.r, sizes + g.sizes, g.available, g.incoming)
  }

  lemma PrependNothing(g: Gathered)
    ensures Prepend([], [], g) == g
  {
    assert [] + g.sizes == g.sizes;
    if g.r.Ok? {
      assert [] + g.r.value == g.r.value;
    }
  }

  lemma PrependPrepend(pieces: seq<seq<byte>>, sizes: seq<nat>, piece: seq<byte>, size: nat, g: Gathered)
    ensures Prepend(pieces, sizes, Prepend([piece], [size], g)) == Prepend(pieces + [piece], sizes + [size], g)
  {
    assert pieces + ([piece] + (if g.r.Ok? then g.r.value else [])) == (pieces + [piece]) + (if g.r.Ok? then g.r.value else []);
    assert sizes + ([size] + g.sizes) == (sizes + [size]) + g.sizes;
  }

  /** One pass of a read, seen from the whole read's outcome `g0`. */
  lemma GatherPass(closed: bool, available: seq<int>, incoming: seq<DeviceRead>, remaining: int, ofExc: bool,
                   pieces: seq<seq<byte>>, sizes: seq<nat>, g0: Gathered, p: Poll)
    requires remaining > 0
    requires g0 == Prepend(pieces, sizes, Gather(closed, available, incoming, remaining, ofExc))
    requires p == PollOnce(closed, available, incoming, remaining, ofExc)
    ensures && (p.r.Ok? && p.asked == 0 ==>
            g0 == Prepend(pieces, sizes, Gather(closed, p.available, p.incoming, remaining, ofExc)))
      && (p.r.Ok? && p.asked > 0 ==>
            g0 == Prepend(pieces + [p.r.value], sizes + [p.asked],
                          Gather(closed, p.available, p.incoming, remaining - p.asked, ofExc)))
      && (p.r.Err? ==>
            && g0.r == Err(p.r.fault) && g0.available == p.available && g0.incoming == p.incoming
            && g0.sizes == sizes + (if p.asked > 0 then [p.asked] else []))
  {
    if p.r.Ok? && p.asked > 0 {
      PrependPrepend(pieces, sizes, p.r.value, p.asked,
                     Gather(closed, p.available, p.incoming, remaining - p.asked, ofExc));
    }
  }

  /** A read that owes nothing more has returned its pieces. */
  lemma GatherDone(closed: bool, available: seq<int>, incoming: seq<DeviceRead>, remaining: int, ofExc: bool,
                   pieces: seq<seq<byte>>, sizes: seq<nat>, g0: Gathered)
    requires remaining <= 0
    requires g0 == Prepend(pieces, sizes, Gather(closed, available, incoming, remaining, ofExc))
    ensures g0 == Gathered(Ok(pieces), sizes, available, incoming)
  {
    assert pieces + [] == pieces && sizes + [] == sizes;
  }

  /** The bytes a read returns: its pieces joined in order. */
  function Joined(r: Result<seq<seq<byte>>>): Result<seq<byte>> {
    if r.Ok? then Ok(Concat(r.value)) else Err(r.fault)
  }

  /** What a read of `size` frames delivers, when `g` is its outcome on a
      device whose reads were going to answer `inc0`: the device was asked
      for pieces of positive size, in order, that consumed the first `k`
      answers; on success the pieces add up to exactly `size`, none of them
      overflowed into an error, and they are those answers' bytes in
      order. */
  ghost predicate Delivered(inc0: seq<DeviceRead>, size: nat, ofExc: bool, g: Gathered)
  {
    && var k := |g.sizes|;
    && k <= |inc0| && g.incoming == inc0[k..]
    && (forall j :: 0 <= j < k ==> g.sizes[j] > 0)
    && Sum(g.sizes) <= size
    && (forall j :: 0 <= j < k - 1 ==> !(ofExc && inc0[j].overflowed))
    && match g.r
       case Ok(pieces) =>
         && Sum(g.sizes) == size
         && pieces == Datas(inc0[..k])
         && (forall j :: 0 <= j < k ==> !(ofExc && inc0[j].overflowed))
       case Err(f) =>
         f == Overflow ==> k > 0 && ofExc && inc0[k - 1].overflowed
  }

  lemma SumPrepend(x: nat, xs: seq<nat>)
    ensures Sum([x] + xs) == x + Sum(xs)
    decreases |xs|
  {
    if xs != [] {
      var k := |xs| - 1;
      assert ([x] + xs)[..k + 1] == [x] + xs[..k];
      SumPrepend(x, xs[..k]);
    }
  }

  /** Every read delivers what `Delivered` says. */
  lemma {:induction false} GatherDelivers(closed: bool, available: seq<int>, incoming: seq<DeviceRead>,
                                          remaining: nat, ofExc: bool)
    ensures Delivered(incoming, remaining, ofExc, Gather(closed, available, incoming, remaining, ofExc))
    decreases |available|
  {
    if remaining == 0 {
      assert incoming[..0] == [];
    } else {
      var p := PollOnce(closed, available, incoming, remaining, ofExc);
      if p.r.Err? {
        DeliveredFault(closed, available, incoming, remaining, ofExc);
      } else {
        var rest := if p.asked == 0 then remaining else remaining - p.asked;
        GatherDelivers(closed, p.available, p.incoming, rest, ofExc);
        DeliveredPass(closed, available, incoming, remaining, ofExc);
      }
    }
  }

  /** A pass that fails ends the read with what `Delivered` allows. */
  lemma DeliveredFault(closed: bool, available: seq<int>, incoming: seq<DeviceRead>, remaining: nat, ofExc: bool)
    requires remaining > 0 && PollOnce(closed, available, incoming, remaining, ofExc).r.Err?
    ensures Delivered(incoming, remaining, ofExc, Gather(closed, available, incoming, remaining, ofExc))
  {
    var p := PollOnce(closed, available, incoming, remaining, ofExc);
    if p.asked > 0 {
      assert Sum([p.asked]) == Sum([]) + p.asked;
    }
  }

  /** A pass that reads without error, in front of the rest of the read. */
  lemma DeliveredPass(closed: bool, available: seq<int>, incoming: seq<DeviceRead>, remaining: nat, ofExc: bool)
    requires remaining > 0
    requires var p := PollOnce(closed, available, incoming, remaining, ofExc);
      && p.r.Ok?
      && var rest := if p.asked == 0 then remaining else remaining - p.asked;
      Delivered(p.incoming, rest, ofExc, Gather(closed, p.available, p.incoming, rest, ofExc))
    ensures Delivered(incoming, remaining, ofExc, Gather(closed, available, incoming, remaining, ofExc))
  {
    var p := PollOnce(closed, available, incoming, remaining, ofExc);
    if p.asked == 0 {
      assert Gather(closed, available, incoming, remaining, ofExc)
          == Gather(closed, p.available, incoming, remaining, ofExc);
    } else {
      var rest := Gather(closed, p.available, p.incoming, remaining - p.asked, ofExc);
      assert Gather(closed, available, incoming, remaining, ofExc) == Prepend([incoming[0].data], [p.asked], rest);
      DeliveredPrepend(incoming, remaining, ofExc, p.asked, rest);
    }
  }

  /** A first piece of `n` frames read without error in front of a read
      that delivered the rest. */
  lemma DeliveredPrepend(incoming: seq<DeviceRead>, remaining: nat, ofExc: bool, n: nat, rest: Gathered)
    requires incoming != [] && 0 < n <= remaining && !(ofExc && incoming[0].overflowed)
    requires Delivered(incoming[1..], remaining - n, ofExc, rest)
    ensures Delivered(incoming, remaining, ofExc, Prepend([incoming[0].data], [n], rest))
  {
    var g := Prepend([incoming[0].data], [n], rest);
    SumPrepend(n, rest.sizes);
    var k := |rest.sizes|;
    assert g.sizes == [n] + rest.sizes;
    assert forall j :: 1 <= j < k + 1 ==> incoming[j] == incoming[1..][j - 1];
    assert g.incoming == incoming[k + 1..];
    if rest.r.Ok? {
      assert Datas(incoming[..k + 1]) == [incoming[0].data] + Datas(incoming[1..][..k]);
    }
  }

  /** How a read paces itself by the device, when `g` is its outcome on a
      device whose availability checks were going to answer `available`:
      the answers it used are a prefix of them, at least one per piece, and
      every piece but the last has exactly the size of one of those used
      answers. */
  ghost predicate Paced(available: seq<int>, g: Gathered)
  {
    && |g.available| <= |available| && g.available == available[|available| - |g.available|..]
    && |g.sizes| <= |available| - |g.available|
    && forall j :: 0 <= j < |g.sizes| - 1 ==> g.sizes[j] as int in available[..|available| - |g.available|]
  }

  /** Every read is paced as `Paced` says. */
  lemma {:induction false} GatherPaced(closed: bool, available: seq<int>, incoming: seq<DeviceRead>,
                                       remaining: int, ofExc: bool)
    ensures Paced(available, Gather(closed, available, incoming, remaining, ofExc))
    decreases |available|
  {
    if remaining > 0 {
      var p := PollOnce(closed, available, incoming, remaining, ofExc);
      if p.r.Err? {
        assert available[|available| - |p.available|..] == p.available;
      } else {
        var rest := if p.asked == 0 then remaining else remaining - p.asked;
        GatherPaced(closed, p.available, p.incoming, rest, ofExc);
        PacedPass(closed, available, incoming, remaining, ofExc);
      }
    } else {
      assert available[|available| - |available|..] == available;
    }
  }

  /** The step of `GatherPaced` for a poll without error. */
  lemma PacedPass(closed: bool, available: seq<int>, incoming: seq<DeviceRead>, remaining: int, ofExc: bool)
    requires remaining > 0
    requires var p := PollOnce(closed, available, incoming, remaining, ofExc);
      && p.r.Ok?
      && var rest := if p.asked == 0 then remaining else remaining - p.asked;
      Paced(p.available, Gather(closed, p.available, p.incoming, rest, ofExc))
    ensures Paced(available, Gather(closed, available, incoming, remaining, ofExc))
  {
    var p := PollOnce(closed, available, incoming, remaining, ofExc);
    if p.asked == 0 {
      assert Gather(closed, available, incoming, remaining, ofExc)
          == Gather(closed, p.available, incoming, remaining, ofExc);
      PacedLater(available, Gather(closed, p.available, p.incoming, remaining, ofExc));
    } else {
      var rest := Gather(closed, p.available, p.incoming, remaining - p.asked, ofExc);
      assert Gather(closed, available, incoming, remaining, ofExc) == Prepend([p.r.value], [p.asked], rest);
      PacedLater(available, rest);
      PacedPrepend(available, p.r.value, p.asked, rest);
    }
  }

  /** A read paced by the answers after the first is paced by them all. */
  lemma PacedLater(available: seq<int>, g: Gathered)
    requires available != [] && Paced(available[1..], g)
    ensures && |g.available| <= |available| && g.available == available[|available| - |g.available|..]
            && |g.sizes| < |available| - |g.available|
            && forall j :: 0 <= j < |g.sizes| - 1 ==> g.sizes[j] as int in available[..|available| - |g.available|]
  {
    assert available[1..][|available| - 1 - |g.available|..] == available[|available| - |g.available|..];
    var used := available[..|available| - |g.available|];
    assert available[1..][..|available| - 1 - |g.available|] == used[1..];
    forall j | 0 <= j < |g.sizes| - 1
      ensures g.sizes[j] as int in used
    {
      assert g.sizes[j] as int in used[1..];
    }
  }

  /** A first piece the size of the first answer, in front of a read paced
      by the later answers. */
  lemma PacedPrepend(available: seq<int>, piece: seq<byte>, n: nat, rest: Gathered)
    requires available != [] && (rest.sizes != [] ==> n as int == available[0])
    requires && |rest.available| <= |available| && rest.available == available[|available| - |rest.available|..]
             && |rest.sizes| < |available| - |rest.available|
             && forall j :: 0 <= j < |rest.sizes| - 1 ==> rest.sizes[j] as int in available[..|available| - |rest.available|]
    ensures Paced(available, Prepend([piece], [n], rest))
  {
    var g := Prepend([piece], [n], rest);
    var used := available[..|available| - |rest.available|];
    assert g.sizes == [n] + rest.sizes;
    forall j | 0 <= j < |g.sizes| - 1
      ensures g.sizes[j] as int in used
    {
      if j == 0 {
        assert used[0] == available[0];
      } else {
        assert g.sizes[j] == rest.sizes[j - 1];
      }
    }
  }

  class MutableStream {
    var wrapped: Device?
    var muted: bool
    const sampleWidth: nat
    const mutedBuffer: seq<byte>

    /** The device behind the stream, if any: a read changes only its
        scripted answers and its log of read sizes. */
    ghost function Handle(): set<Device>
      reads this
    {
      if wrapped == null then {} else {wrapped}
    }

    /** The stream over `wrapped`, muted when `muted` holds. The lock is
        taken to exist before the initial mute (see InitOrder below). */
    constructor (wrapped: Device, sampleWidth: nat, muted: bool)
      modifies wrapped
      ensures this.wrapped == wrapped && this.muted == muted
      ensures this.sampleWidth == sampleWidth && mutedBuffer == Silence(sampleWidth)
      ensures wrapped.stopped == (old(wrapped.stopped) || muted)
      ensures wrapped.closed == old(wrapped.closed) && wrapped.Script() == old(wrapped.Script())
    {
      this.wrapped := wrapped;
      this.muted := muted;
      this.sampleWidth := sampleWidth;
      mutedBuffer := Silence(sampleWidth);
      new;
      if muted {
        var _ := Mute();
      }
    }

    /** `mute()`: sets the flag, then stops the device; the second step
        raises when the stream was closed (`ok` is false). */
    method Mute() returns (ok: bool)
      modifies this, wrapped
      ensures muted && wrapped == old(wrapped)
      ensures ok == (wrapped != null)
      ensures wrapped != null ==> wrapped.stopped && wrapped.closed == old(wrapped.closed)
      ensures wrapped != null ==> wrapped.Script() == old(wrapped.Script())
    {
      muted := true;
      ok := wrapped != null;
      if ok {
        wrapped.StopStream();
      }
    }

    /** `unmute()`: clears the flag, then starts the device. */
    method Unmute() returns (ok: bool)
      modifies this, wrapped
      ensures !muted && wrapped == old(wrapped)
      ensures ok == (wrapped != null)
      ensures wrapped != null ==> !wrapped.stopped && wrapped.closed == old(wrapped.closed)
      ensures wrapped != null ==> wrapped.Script() == old(wrapped.Script())
    {
      muted := false;
      ok := wrapped != null;
      if ok {
        wrapped.StartStream();
      }
    }

    /** `read(size, of_exc)`: gathers `size` frames from the device in pieces
        no larger than what it reports available, or answers the muted
        buffer at once when the stream is muted. The lock held for the whole
        loop keeps `muted` from changing during a read. A read that gets
        past the loop asks the device for its input latency, which fails
        once the device is gone or closed. */
    method Read(size: int, ofExc: bool) returns (r: Result<seq<byte>>)
      modifies Handle()`available, Handle()`incoming, Handle()`requested
      ensures wrapped != null ==> wrapped.stopped == old(wrapped.stopped) && wrapped.closed == old(wrapped.closed)
      ensures size <= 0 ==> r == if wrapped == null || wrapped.closed then Err(Closed) else Ok([])
      ensures (size <= 0 || muted) && wrapped != null ==> wrapped.Script() == old(wrapped.Script())
      ensures size > 0 && muted ==> r == Ok(mutedBuffer)
      ensures size > 0 && !muted && wrapped == null ==> r == Err(Closed)
      ensures r == Err(Closed) ==> wrapped == null || wrapped.closed
      ensures r == Err(Overflow) ==> ofExc
      ensures r == Err(Starved) ==> wrapped != null && (wrapped.available == [] || wrapped.incoming == [])
      ensures !muted && wrapped != null && (size > 0 || !old(wrapped.closed)) ==>
        var g := Gather(old(wrapped.closed), old(wrapped.available), old(wrapped.incoming), size, ofExc);
        && r == Joined(g.r)
        && wrapped.available == g.available && wrapped.incoming == g.incoming
        && wrapped.requested == old(wrapped.requested) + g.sizes
    {
      var frames: seq<seq<byte>> := [];
      var remaining := size;
      ghost var sizes: seq<nat> := [];
      ghost var closed0 := wrapped != null && wrapped.closed;
      ghost var req0 := if wrapped != null then wrapped.requested else [];
      ghost var g0 := if wrapped != null then Gather(closed0, wrapped.available, wrapped.incoming, size, ofExc)
                      else Gathered(Ok([]), [], [], []);
      if wrapped != null && !muted {
        PrependNothing(g0);
      }
      while remaining > 0
        invariant remaining <= size
        invariant remaining == size ==> frames == []
        invariant wrapped != null ==> wrapped.stopped == old(wrapped.stopped) && wrapped.closed == closed0
        invariant (size <= 0 || muted) && wrapped != null ==> wrapped.Script() == old(wrapped.Script())
        invariant muted || wrapped == null || closed0 ==> remaining == size
        invariant !muted && wrapped != null ==>
          && g0 == Prepend(frames, sizes, Gather(closed0, wrapped.available, wrapped.incoming, remaining, ofExc))
          && wrapped.requested == req0 + sizes
        decreases if wrapped == null then 0 else |wrapped.available|
      {
        // If muted during read return the muted buffer, so that no read
        // reaches the stopped device.
        if muted {
          return Ok(mutedBuffer);
        }
        if wrapped == null {
          return Err(Closed);
        }
        var piece, n := Pass(remaining, ofExc, frames, sizes, g0, req0);
        if piece.Err? {
          GatherFaults(closed0, old(wrapped.available), old(wrapped.incoming), size, ofExc);
          r := piece;
          return;
        }
        if n > 0 {
          frames := frames + [piece.value];
          sizes := sizes + [n];
          remaining := remaining - n;
        }
      }
      if wrapped == null {
        r := Err(Closed);
        return;
      }
      // The latency itself only decides whether a warning is logged.
      var latency := wrapped.GetInputLatency();
      if latency.Err? {
        r := Err(latency.fault);
        return;
      }
      if !muted {
        GatherDone(closed0, wrapped.available, wrapped.incoming, remaining, ofExc, frames, sizes, g0);
      }
      r := Ok(Concat(frames));
    }

    /** One pass of the loop of `read`, seen from the whole read, whose
        outcome is `g0` and which has read `pieces` of sizes `sizes` so far:
        the pass either ends the read or leaves the rest of it to come. */
    method Pass(remaining: int, ofExc: bool, ghost pieces: seq<seq<byte>>, ghost sizes: seq<nat>,
                ghost g0: Gathered, ghost req0: seq<nat>)
      returns (piece: Result<seq<byte>>, n: nat)
      requires wrapped != null && remaining > 0
      requires g0 == Prepend(pieces, sizes, Gather(wrapped.closed, wrapped.available, wrapped.incoming, remaining, ofExc))
      requires wrapped.requested == req0 + sizes
      modifies wrapped`available, wrapped`incoming, wrapped`requested
      ensures wrapped.stopped == old(wrapped.stopped) && wrapped.closed == old(wrapped.closed)
      ensures piece.Ok? ==> !wrapped.closed
      ensures piece.Err? ==>
        && g0.r == Err(piece.fault) && g0.available == wrapped.available && g0.incoming == wrapped.incoming
        && wrapped.requested == req0 + g0.sizes
      ensures piece.Ok? ==> n <= remaining && |wrapped.available| < |old(wrapped.available)|
      ensures piece.Ok? && n == 0 ==>
        && g0 == Prepend(pieces, sizes, Gather(wrapped.closed, wrapped.available, wrapped.incoming, remaining, ofExc))
        && wrapped.requested == req0 + sizes
      ensures piece.Ok? && n > 0 ==>
        && g0 == Prepend(pieces + [piece.value], sizes + [n],
                         Gather(wrapped.closed, wrapped.available, wrapped.incoming, remaining - n, ofExc))
        && wrapped.requested == req0 + (sizes + [n])
    {
      ghost var available, incoming := wrapped.available, wrapped.incoming;
      GatherPass(wrapped.closed, available, incoming, remaining, ofExc, pieces, sizes, g0,
                 PollOnce(wrapped.closed, available, incoming, remaining, ofExc));
      piece, n := ReadPiece(remaining, ofExc);
      if piece.Ok? && n > 0 {
        AppendOne(req0, sizes, n);
      }
    }

    /** One pass of the loop of `read` on an unmuted open stream: asks how
        much is available and reads `n` frames of it, at most `remaining`;
        `n` is 0 when nothing is available. */
    method ReadPiece(remaining: int, ofExc: bool) returns (piece: Result<seq<byte>>, n: nat)
      requires wrapped != null && remaining > 0
      modifies wrapped`available, wrapped`incoming, wrapped`requested
      ensures wrapped.stopped == old(wrapped.stopped) && wrapped.closed == old(wrapped.closed)
      ensures var p := PollOnce(old(wrapped.closed), old(wrapped.available), old(wrapped.incoming), remaining, ofExc);
        && piece == p.r && (piece.Ok? ==> n == p.asked)
        && wrapped.available == p.available && wrapped.incoming == p.incoming
        && wrapped.requested == old(wrapped.requested) + (if p.asked > 0 then [p.asked] else [])
    {
      var avail := wrapped.GetReadAvailable();
      if avail.Err? {
        return Err(avail.fault), 0;
      }
      var toRead := if avail.value < remaining then avail.value else remaining;
      if toRead <= 0 {
        return Ok([]), 0;
      }
      n := toRead;
      piece := wrapped.Read(n, ofExc);
    }

    /** `close()`: closes the device and drops the handle; raises (`ok` is
        false) when the handle is already gone. */
    method Close() returns (ok: bool)
      modifies this, wrapped
      ensures wrapped == null && muted == old(muted)
      ensures ok == (old(wrapped) != null)
      ensures old(wrapped) != null ==> old(wrapped).closed && old(wrapped).stopped == old(wrapped.stopped)
      ensures old(wrapped) != null ==> old(wrapped).Script() == old(wrapped.Script())
    {
      ok := wrapped != null;
      if ok {
        wrapped.Close();
      }
      wrapped := null;
    }

    /** `is_stopped()`: any failure of the device counts as stopped. */
    method IsStopped() returns (stopped: bool)
      ensures stopped == (wrapped == null || wrapped.closed || wrapped.stopped)
    {
      if wrapped == null {
        return true;
      }
      var r := wrapped.IsStopped();
      stopped := if r.Err? then true else r.value;
    }

    /** `stop_stream()` on the device; raises (`ok` is false) once closed. */
    method StopStream() returns (ok: bool)
      modifies wrapped
      ensures ok == (wrapped != null)
      ensures wrapped != null ==> wrapped.stopped && wrapped.closed == old(wrapped.closed)
      ensures wrapped != null ==> wrapped.Script() == old(wrapped.Script())
    {
      ok := wrapped != null;
      if ok {
        wrapped.StopStream();
      }
    }
  }

  // ---------------------------------------------------------------------
  // The order of the statements of `MutableStream.__init__`.

  /** The statements of the constructor: store the flag, mute (which takes
      the lock), compute the sample width and the muted buffer, create the
      lock. */
  datatype InitStep = StoreFlag | MuteUnderLock | StoreWidth | StoreMutedBuffer | CreateLock

  /** The constructor's statements in the order the source runs them. */
  function InitOrderAsWritten(muted: bool): seq<InitStep> {
    [StoreFlag] + (if muted then [MuteUnderLock] else []) + [StoreWidth, StoreMutedBuffer, CreateLock]
  }

  /** The same statements with the lock created before it is first used. */
  function InitOrderCorrected(muted: bool): seq<InitStep> {
    [StoreFlag, StoreWidth, StoreMutedBuffer, CreateLock] + (if muted then [MuteUnderLock] else [])
  }

  /** Whether running the statements completes: taking the lock before it
      exists raises AttributeError. */
  function Completes(steps: seq<InitStep>, lockExists: bool): bool
    decreases |steps|
  {
    if steps == [] then true
    else if steps[0] == MuteUnderLock && !lockExists then false
    else Completes(steps[1..], lockExists || steps[0] == CreateLock)
  }

  /** The constructor as written fails exactly when asked for a muted
      stream. */
  lemma InitAsWrittenFailsWhenMuted(muted: bool)
    ensures Completes(InitOrderAsWritten(muted), false) == !muted
  {
    var s := InitOrderAsWritten(muted);
    if muted {
      assert s[1..][0] == MuteUnderLock;
      assert !Completes(s[1..], false);
    } else {
      assert s[1..] == [StoreWidth, StoreMutedBuffer, CreateLock];
      assert s[1..][1..][1..][1..] == [];
      assert Completes(s[1..][1..][1..], false);
      assert Completes(s[1..][1..], false);
    }
  }

  /** With the lock created first, construction completes and mutes the
      stream whenever asked to. */
  lemma InitCorrectedCompletes(muted: bool)
    ensures Completes(InitOrderCorrected(muted), false)
    ensures (MuteUnderLock in InitOrderCorrected(muted)) == muted
  {
    var s := InitOrderCorrected(muted);
    var tail := if muted then [MuteUnderLock] else [];
    assert s[1..][1..][1..][1..] == tail;
    assert Completes(tail, true) by {
      if muted {
        assert tail[1..] == [];
      }
    }
    assert Completes(s[1..][1..][1..], false);
    assert Completes(s[1..][1..], false);
    assert Completes(s[1..], false);
  }
}
