/** `ResponsiveRecognizer` of mycroft_ptt/speech/mic.py: waits for a signal
    to listen, records one phrase from a `MutableMicrophone` until the
    endpointing rules of module Endpoint end it, and reports the recording
    on the message bus. */
module Recognizer {
  import opened Audio
  import opened Stream
  import opened Microphone
  import opened Endpoint

  // ---------------------------------------------------------------------
  // The signal channel.

  /** The named signals the recognizer polls. */
  datatype SignalName = StartListening | ButtonPress | AdjustAmbientNoise

  /** The answer to the `i`-th check of a signal whose scripted answers are
      `s`; once the script is used up the signal stays absent. */
  function Answer(s: seq<bool>, i: nat): bool {
    i < |s| && s[i]
  }

  /** The script left after `k` checks. */
  function After(s: seq<bool>, k: nat): seq<bool>
    decreases k
  {
    if k == 0 || s == [] then s else After(s[1..], k - 1)
  }

  lemma {:induction false} AfterStep(s: seq<bool>, k: nat)
    ensures Answer(After(s, k), 0) == Answer(s, k)
    ensures After(After(s, k), 1) == After(s, k + 1)
    decreases k
  {
    if k > 0 && s != [] {
      AfterStep(s[1..], k - 1);
    }
  }

  /** The script left after `j` more checks following `k`. */
  lemma {:induction false} AfterAfter(s: seq<bool>, k: nat, j: nat)
    ensures After(After(s, k), j) == After(s, k + j)
    ensures Answer(After(s, k), j) == Answer(s, k + j)
    decreases k
  {
    if k > 0 && s != [] {
      AfterAfter(s[1..], k - 1, j);
    } else if k > 0 {
      AfterEmpty(j);
    }
  }

  lemma {:induction false} AfterSize(s: seq<bool>, k: nat)
    ensures |After(s, k)| == if k <= |s| then |s| - k else 0
    decreases k
  {
    if k > 0 && s != [] {
      AfterSize(s[1..], k - 1);
    }
  }

  lemma {:induction false} AfterEmpty(j: nat)
    ensures After([], j) == []
  {
  }

  /** What the polls of the wait have consumed so far, when the signal
      scripts were `st0`, `pr0` and `ad0` before it and are `st`, `pr` and
      `ad` now: `polls` polls, none of which saw the start signal, each
      consuming one start and one adjust answer; `presses` button answers,
      the ones those polls checked, no two consecutive ones present and the
      last one absent; and
      `adjustments` adjustments, as `Adjustments` counts them. */
  ghost predicate Polled(st0: seq<bool>, pr0: seq<bool>, ad0: seq<bool>, pending0: bool,
                         polls: nat, presses: nat, adjustments: nat, st: seq<bool>, pr: seq<bool>, ad: seq<bool>)
  {
    && st == After(st0, polls) && polls <= |st0|
    && (forall i :: 0 <= i < polls ==> !Answer(st0, i))
    && pr == After(pr0, presses) && presses == ButtonChecks(pr0, polls)
    && (forall i :: 0 <= i < presses - 1 ==> !(Answer(pr0, i) && Answer(pr0, i + 1)))
    && (presses > 0 ==> !Answer(pr0, presses - 1))
    && ad == After(ad0, polls)
    && adjustments == Adjustments(ad0, polls, pending0)
  }

  /** A poll that finds no listen signal consumes one absent button
      answer, or a present one followed by an absent one, so no two
      consecutive answers it consumed, or consumed before it, are both
      present. */
  lemma NoDoublePress(pr: seq<bool>, presses: nat)
    requires forall i :: 0 <= i < presses - 1 ==> !(Answer(pr, i) && Answer(pr, i + 1))
    requires presses > 0 ==> !Answer(pr, presses - 1)
    requires !(Answer(pr, presses) && Answer(pr, presses + 1))
    ensures var next := presses + if Answer(pr, presses) then 2 else 1;
      && (forall i :: 0 <= i < next - 1 ==> !(Answer(pr, i) && Answer(pr, i + 1)))
      && !Answer(pr, next - 1)
  {
  }

  /** The button answers consumed by `n` polls of the wait that found
      neither the start signal nor the trigger, when the button answers
      from `pr`: each such poll checks the button once, and a second time
      when the first check found it present. */
  function ButtonChecks(pr: seq<bool>, n: nat): nat
    decreases n
  {
    if n == 0 then 0
    else
      var before := ButtonChecks(pr, n - 1);
      before + if Answer(pr, before) then 2 else 1
  }

  /** Each such poll consumes one or two button answers. */
  lemma {:induction false} ButtonChecksBounds(pr: seq<bool>, n: nat)
    ensures n <= ButtonChecks(pr, n) <= 2 * n
    ensures (forall i :: 0 <= i < n ==> !Answer(pr, i)) ==> ButtonChecks(pr, n) == n
    decreases n
  {
    if n > 0 {
      ButtonChecksBounds(pr, n - 1);
      if forall i :: 0 <= i < n ==> !Answer(pr, i) {
        assert !Answer(pr, n - 1);
      }
    }
  }

  /** How many of the first `k` checks of a signal whose script is `s`
      found it present. */
  function CountPresent(s: seq<bool>, k: nat): nat
    decreases k
  {
    if k == 0 then 0 else CountPresent(s, k - 1) + (if Answer(s, k - 1) then 1 else 0)
  }

  /** The ambient noise adjustments made by the first `k` polls of the wait
      that found no listen signal, when the adjust signal answers from `s`
      and the adjustment flag starts as `pending`: a poll adjusts when the
      signal is present or the flag is still set, and the first adjustment
      clears the flag. */
  function Adjustments(s: seq<bool>, k: nat, pending: bool): nat
    decreases k
  {
    if k == 0 then 0
    else
      var before := Adjustments(s, k - 1, pending);
      before + (if Answer(s, k - 1) || (pending && before == 0) then 1 else 0)
  }

  /** One adjustment per poll that saw the signal, plus one for the flag
      exactly when the first poll found no signal: with the flag set, that
      poll adjusts anyway. */
  lemma {:induction false} AdjustmentsCount(s: seq<bool>, k: nat, pending: bool)
    ensures Adjustments(s, k, pending) == CountPresent(s, k) + (if pending && k > 0 && !Answer(s, 0) then 1 else 0)
    ensures CountPresent(s, k) <= Adjustments(s, k, pending) <= CountPresent(s, k) + (if pending then 1 else 0)
    ensures !pending ==> Adjustments(s, k, pending) == CountPresent(s, k)
    ensures pending && k > 0 ==> Adjustments(s, k, pending) > 0
    decreases k
  {
    if k > 0 {
      AdjustmentsCount(s, k - 1, pending);
    }
  }

  /** `check_for_signal(name)`: whether the signal is present, consuming
      it. Each name answers from its own script, in order. */
  class Signals {
    var startListening: seq<bool>
    var buttonPress: seq<bool>
    var adjustAmbientNoise: seq<bool>

    function Pending(name: SignalName): seq<bool>
      reads this
    {
      match name
      case StartListening => startListening
      case ButtonPress => buttonPress
      case AdjustAmbientNoise => adjustAmbientNoise
    }

    constructor (startListening: seq<bool>, buttonPress: seq<bool>, adjustAmbientNoise: seq<bool>)
      ensures Pending(StartListening) == startListening && Pending(ButtonPress) == buttonPress
      ensures Pending(AdjustAmbientNoise) == adjustAmbientNoise
    {
      this.startListening, this.buttonPress, this.adjustAmbientNoise := startListening, buttonPress, adjustAmbientNoise;
    }

    method Check(name: SignalName) returns (present: bool)
      modifies this
      ensures present == Answer(old(Pending(name)), 0)
      ensures Pending(name) == After(old(Pending(name)), 1)
      ensures forall n :: n != name ==> Pending(n) == old(Pending(n))
    {
      match name
      case StartListening =>
        present := Answer(startListening, 0);
        startListening := After(startListening, 1);
      case ButtonPress =>
        present := Answer(buttonPress, 0);
        buttonPress := After(buttonPress, 1);
      case AdjustAmbientNoise =>
        present := Answer(adjustAmbientNoise, 0);
        adjustAmbientNoise := After(adjustAmbientNoise, 1);
    }
  }

  // ---------------------------------------------------------------------
  // The listen cue.

  /** The player chosen for the cue file. */
  datatype Player = Wav | Mp3 | Ogg | Generic

  predicate EndsWith(s: string, suffix: string) {
    |suffix| <= |s| && s[|s| - |suffix|..] == suffix
  }

  /** The extension dispatch of `_wait_for_listen_signal`, tried in order. */
  function PlayerFor(file: string): Player {
    if EndsWith(file, ".wav") then Wav
    else if EndsWith(file, ".mp3") then Mp3
    else if EndsWith(file, ".ogg") then Ogg
    else Generic
  }

  /** Each of the three extensions selects its own player, and a file with
      none of them goes to the generic player. */
  lemma PlayerForExtension(name: string)
    ensures PlayerFor(name + ".wav") == Wav
    ensures PlayerFor(name + ".mp3") == Mp3
    ensures PlayerFor(name + ".ogg") == Ogg
    ensures !EndsWith(name, ".wav") && !EndsWith(name, ".mp3") && !EndsWith(name, ".ogg") ==> PlayerFor(name) == Generic
  {
    var n := |name|;
    assert (name + ".wav")[n..] == ".wav";
    assert (name + ".mp3")[n..] == ".mp3";
    assert (name + ".ogg")[n..] == ".ogg";
    assert (name + ".mp3")[n + 1] == 'm';
    assert (name + ".ogg")[n + 1] == 'o';
  }

  // ---------------------------------------------------------------------
  // What the recognizer does that can be observed.

  datatype Event = Muted | Unmuted | CuePlayed(player: Player) | AmbientAdjusted | RecordBegin | RecordEnd

  /** The cue played for a resolved cue file; the empty name (no file)
      plays nothing. */
  function CueEvents(file: string): seq<Event> {
    if file == "" then [] else [CuePlayed(PlayerFor(file))]
  }

  function Repeat(e: Event, n: nat): (es: seq<Event>)
    ensures |es| == n && forall i :: 0 <= i < n ==> es[i] == e
  {
    seq(n, _ => e)
  }

  /** How the wait for a listen signal ended: a signal, a stop request, or
      (only in this model) the start-listening script ran dry, where the
      source would go on polling. */
  datatype WaitOutcome = Heard | StopRequested | SignalsExhausted

  /** `AudioData(frame_data, sample_rate, sample_width)`. */
  datatype AudioData = AudioData(frames: seq<byte>, sampleRate: nat, sampleWidth: nat)

  /** What `listen` hands back: audio, `None` when stop was signalled, or
      the error a failed chunk read raised. A wait that ran out of scripted
      signals is reported as `NoSignal`. */
  datatype ListenResult = Recorded(audio: AudioData) | NoAudio | NoSignal | Failed(fault: Fault)

  /** The message bus, reduced to the names of the messages emitted. */
  class Bus {
    var emitted: seq<string>

    constructor ()
      ensures emitted == []
    {
      emitted := [];
    }

    method Emit(name: string)
      modifies this
      ensures emitted == old(emitted) + [name]
    {
      emitted := emitted + [name];
    }
  }

  const RecordBeginMessage: string := "recognizer_loop:record_begin"
  const RecordEndMessage: string := "recognizer_loop:record_end"

  /** An `AudioStreamHandler`: told when recording starts and handed each
      chunk as it is recorded. */
  class Sink {
    var started: bool
    var received: seq<seq<byte>>

    constructor ()
      ensures !started && received == []
    {
      started, received := false, [];
    }

    method StreamStart()
      modifies this
      ensures started && received == old(received)
    {
      started := true;
    }

    method StreamChunk(chunk: seq<byte>)
      modifies this
      ensures started == old(started) && received == old(received) + [chunk]
    {
      received := received + [chunk];
    }
  }

  /** The chunk counts `_record_phrase` derives from its time limits:
      `int(min_loud_sec / sec_per_buffer)`, `int(recording_timeout /
      sec_per_buffer)` and `int(recording_timeout_with_silence /
      sec_per_buffer)`. */
  datatype ChunkCounts = ChunkCounts(minLoud: nat, max: nat, maxOfSilence: nat)

  /** What a recording has seen after taking `chunks`, chunk by chunk:
      before each chunk the endpointing rules, started from threshold
      `th0`, still wanted more; its sample holds its energy and the
      button's answer at that check; and while the wake word frames `ww`
      last, the chunk is the next of them. */
  ghost predicate Taken(p: Params, th0: real, width: nat, rms: (seq<byte>, nat) -> nat, ww: seq<seq<byte>>,
                        presses: seq<bool>, chunks: seq<seq<byte>>, samples: seq<Sample>)
    decreases |samples|
  {
    && |chunks| == |samples|
    && (samples != [] ==>
          var k := |samples| - 1;
          && Taken(p, th0, width, rms, ww, presses, chunks[..k], samples[..k])
          && Continues(p, Run(p, th0, samples[..k]))
          && samples[k] == Sample(rms(chunks[k], width), Answer(presses, k))
          && (k < |ww| ==> chunks[k] == ww[k]))
  }

  /** What the recording loop of `_record_phrase` keeps: the chunks taken
      so far and their samples, the rules' state `t` after them, the index
      `next` of the next wake word frame, the press script `pending` left
      after one check per chunk, and the bytes gathered. */
  ghost predicate PhraseSoFar(p: Params, th0: real, width: nat, rms: (seq<byte>, nat) -> nat, ww: seq<seq<byte>>,
                              presses: seq<bool>, chunks: seq<seq<byte>>, samples: seq<Sample>, t: Tracker,
                              next: nat, pending: seq<bool>, bytes: seq<byte>)
  {
    && Taken(p, th0, width, rms, ww, presses, chunks, samples)
    && |samples| == t.chunks
    && t == Run(p, th0, samples)
    && next == (if t.chunks <= |ww| then t.chunks else |ww|)
    && pending == After(presses, t.chunks)
    && bytes == Extend(Silence(width), chunks)
  }

  /** One more chunk taken while the rules still wanted more: `t'` is the
      rules' step on its sample and the press script moved on by one check. */
  lemma PhraseStep(p: Params, th0: real, width: nat, rms: (seq<byte>, nat) -> nat, ww: seq<seq<byte>>,
                   presses: seq<bool>, chunks: seq<seq<byte>>, samples: seq<Sample>, t: Tracker, next: nat,
                   pending: seq<bool>, bytes: seq<byte>, chunk: seq<byte>, pressed: bool, t': Tracker,
                   next': nat, pending': seq<bool>)
    requires PhraseSoFar(p, th0, width, rms, ww, presses, chunks, samples, t, next, pending, bytes)
    requires Continues(p, t)
    requires next < |ww| ==> chunk == ww[next] && next' == next + 1
    requires next >= |ww| ==> next' == next
    requires pressed == Answer(pending, 0) && pending' == After(pending, 1)
    requires t' == Step(p, t, Sample(rms(chunk, width), pressed))
    ensures PhraseSoFar(p, th0, width, rms, ww, presses, chunks + [chunk], samples + [Sample(rms(chunk, width), pressed)],
                        t', next', pending', bytes + chunk)
  {
    AfterStep(presses, |samples|);
    TakenStep(p, th0, width, rms, ww, presses, chunks, samples, chunk, pressed);
    RunAppend(p, th0, samples, Sample(rms(chunk, width), pressed));
    ExtendAppend(Silence(width), chunks, chunk);
  }

  /** `Taken` read index by index. */
  lemma {:induction false} TakenMeans(p: Params, th0: real, width: nat, rms: (seq<byte>, nat) -> nat, ww: seq<seq<byte>>,
                                      presses: seq<bool>, chunks: seq<seq<byte>>, samples: seq<Sample>)
    requires Taken(p, th0, width, rms, ww, presses, chunks, samples)
    ensures |chunks| == |samples|
    ensures forall i :: 0 <= i < |samples| ==> samples[i] == Sample(rms(chunks[i], width), Answer(presses, i))
    ensures forall i :: 0 <= i < |chunks| && i < |ww| ==> chunks[i] == ww[i]
    ensures forall i :: 0 <= i < |samples| ==> Continues(p, Run(p, th0, samples[..i]))
    decreases |samples|
  {
    if samples != [] {
      var k := |samples| - 1;
      TakenMeans(p, th0, width, rms, ww, presses, chunks[..k], samples[..k]);
      forall i | 0 <= i < k
        ensures samples[..i] == samples[..k][..i]
      {
      }
    }
  }

  /** Taking one more chunk while the rules still want more. */
  lemma TakenStep(p: Params, th0: real, width: nat, rms: (seq<byte>, nat) -> nat, ww: seq<seq<byte>>,
                  presses: seq<bool>, chunks: seq<seq<byte>>, samples: seq<Sample>, chunk: seq<byte>, pressed: bool)
    requires Taken(p, th0, width, rms, ww, presses, chunks, samples)
    requires Continues(p, Run(p, th0, samples))
    requires pressed == Answer(presses, |samples|)
    requires |chunks| < |ww| ==> chunk == ww[|chunks|]
    ensures Taken(p, th0, width, rms, ww, presses, chunks + [chunk], samples + [Sample(rms(chunk, width), pressed)])
  {
    assert (samples + [Sample(rms(chunk, width), pressed)])[..|samples|] == samples;
    assert (chunks + [chunk])[..|chunks|] == chunks;
  }

  class ResponsiveRecognizer {
    var energyThreshold: real
    var stopSignaled: bool
    var listenTriggered: bool
    var shouldAdjustNoise: bool
    /** What the recognizer did, in order: muting, cue, ambient noise
        adjustments, recording. */
    ghost var trace: seq<Event>

    const multiplier: real
    const energyRatio: real
    const minSilenceAtEnd: real
    const dynamicEnergyThreshold: bool
    const overflowExc: bool
    const autoAmbientNoiseAdjustment: bool
    /** The resolved `listen_sound` file; empty when there is none. */
    const cueFile: string

    constructor (energyThreshold: real, multiplier: real, energyRatio: real, minSilenceAtEnd: real,
                 dynamicEnergyThreshold: bool, overflowExc: bool, autoAmbientNoiseAdjustment: bool, cueFile: string)
      ensures this.energyThreshold == energyThreshold && this.multiplier == multiplier
      ensures this.energyRatio == energyRatio && this.minSilenceAtEnd == minSilenceAtEnd
      ensures this.dynamicEnergyThreshold == dynamicEnergyThreshold && this.overflowExc == overflowExc
      ensures this.autoAmbientNoiseAdjustment == autoAmbientNoiseAdjustment && this.cueFile == cueFile
      ensures !stopSignaled && !listenTriggered && !shouldAdjustNoise && trace == []
    {
      this.energyThreshold, this.multiplier, this.energyRatio := energyThreshold, multiplier, energyRatio;
      this.minSilenceAtEnd, this.dynamicEnergyThreshold := minSilenceAtEnd, dynamicEnergyThreshold;
      this.overflowExc, this.autoAmbientNoiseAdjustment, this.cueFile := overflowExc, autoAmbientNoiseAdjustment, cueFile;
      stopSignaled, listenTriggered, shouldAdjustNoise := false, false, false;
      trace := [];
    }

    /** The endpointing parameters of one recording. */
    function ParamsFor(spb: real, counts: ChunkCounts, damping: real): Params {
      Params(spb, counts.minLoud, counts.max, counts.maxOfSilence, minSilenceAtEnd,
             multiplier, energyRatio, dynamicEnergyThreshold, damping)
    }

    /** `stop()`. */
    method Stop()
      modifies this`stopSignaled
      ensures stopSignaled
    {
      stopSignaled := true;
    }

    /** `trigger_listen()`. */
    method TriggerListen()
      modifies this`listenTriggered
      ensures listenTriggered
    {
      listenTriggered := true;
    }

    /** `trigger_ambient_noise_adjustment()`. */
    method TriggerAmbientNoiseAdjustment()
      modifies this`shouldAdjustNoise
      ensures shouldAdjustNoise
    {
      shouldAdjustNoise := true;
    }

    /** `_adjust_threshold(energy, seconds_per_buffer)`. */
    method AdjustThreshold(p: Params, energy: nat)
      requires p.dynamic == dynamicEnergyThreshold && p.energyRatio == energyRatio
      modifies this`energyThreshold
      ensures energyThreshold == AdjustedThreshold(p, old(energyThreshold), energy)
    {
      if dynamicEnergyThreshold && energy > 0 {
        var damping := p.damping;
        var targetEnergy := energy as real * energyRatio;
        energyThreshold := energyThreshold * damping + targetEnergy * (1.0 - damping);
      }
    }

    /** `_adjust_ambient_noise`: the library measures the ambient noise and
        sets a new threshold, which is unknown here. */
    method AdjustAmbientNoiseNow()
      modifies this`energyThreshold, this`shouldAdjustNoise, this`trace
      ensures !shouldAdjustNoise && trace == old(trace) + [AmbientAdjusted]
    {
      var measured: real :| true;
      energyThreshold := measured;
      shouldAdjustNoise := false;
      trace := trace + [AmbientAdjusted];
    }
    /** `record_sound_chunk(source)`: one read of `CHUNK` frames from the
        microphone's stream; raises when there is no stream. */
    method RecordSoundChunk(source: MutableMicrophone) returns (r: Result<seq<byte>>)
      modifies source.Handle()`available, source.Handle()`incoming, source.Handle()`requested
      ensures source.stream == null ==> r == Err(Closed)
      ensures source.stream != null && source.stream.muted && source.chunk > 0 ==> r == Ok(source.stream.mutedBuffer)
      ensures source.stream != null && source.chunk == 0 ==>
        r == if source.stream.wrapped == null || source.stream.wrapped.closed then Err(Closed) else Ok([])
      ensures source.stream != null && source.stream.wrapped != null ==>
        source.stream.wrapped.stopped == old(source.stream.wrapped.stopped)
      ensures source.stream != null && !source.stream.muted && source.stream.wrapped == null && source.chunk > 0 ==>
        r == Err(Closed)
      ensures r == Err(Closed) ==> source.stream == null || source.stream.wrapped == null || source.stream.wrapped.closed
      ensures r == Err(Overflow) ==> overflowExc
      ensures r == Err(Starved) ==>
        source.stream != null && source.stream.wrapped != null
        && (source.stream.wrapped.available == [] || source.stream.wrapped.incoming == [])
      ensures source.stream != null && !source.stream.muted && source.stream.wrapped != null &&
              (source.chunk > 0 || !old(source.stream.wrapped.closed)) ==>
        var d := source.stream.wrapped;
        var g := Gather(old(d.closed), old(d.available), old(d.incoming), source.chunk, overflowExc);
        && r == Joined(g.r)
        && d.available == g.available && d.incoming == g.incoming && d.requested == old(d.requested) + g.sizes
    {
      if source.stream == null {
        return Err(Closed);
      }
      r := source.stream.Read(source.chunk, overflowExc);
    }

    /** The part of the recording loop that judges one chunk by its
        energy: the noise score, the loud-chunk count, the threshold, the
        silence duration and whether the phrase is complete, before the
        button is checked. */
    method JudgeChunk(p: Params, noise: real, loudChunks: nat, chunkCount: nat, silence: real, energy: nat)
      returns (noise': real, loudChunks': nat, silence': real, complete: bool)
      requires chunkCount > 0
      requires p.multiplier == multiplier && p.energyRatio == energyRatio
      requires p.minSilenceAtEnd == minSilenceAtEnd && p.dynamic == dynamicEnergyThreshold
      modifies this`energyThreshold
      ensures Tracker(noise', loudChunks', chunkCount, silence', energyThreshold, complete)
        == Step(p, Tracker(noise, loudChunks, chunkCount - 1, silence, old(energyThreshold), false), Sample(energy, false))
    {
      noise', loudChunks', silence' := noise, loudChunks, silence;
      var testThreshold := energyThreshold * multiplier;
      var isLoud := energy as real > testThreshold;
      if isLoud {
        noise' := IncreaseNoise(noise', p.spb);
        loudChunks' := loudChunks' + 1;
      } else {
        noise' := DecreaseNoise(noise', p.spb);
        AdjustThreshold(p, energy);
      }
      var wasLoudEnough := loudChunks' > p.minLoudChunks;
      var quietEnough := noise' <= MinNoise;
      if quietEnough {
        silence' := silence' + p.spb;
        if silence' < minSilenceAtEnd {
          quietEnough := false;  // silent for at least min_silence_at_end
        }
      } else {
        silence' := 0.0;
      }
      var recordedTooMuchSilence := chunkCount > p.maxChunksOfSilence;
      complete := quietEnough && (wasLoudEnough || recordedTooMuchSilence);
    }

    /** The chunk a pass of the recording loop takes: the next wake word
        frame while any are left, otherwise one read from the microphone's
        stream. */
    method NextChunk(source: MutableMicrophone, ww: seq<seq<byte>>, next: nat)
      returns (read: Result<seq<byte>>, next': nat)
      modifies source.Handle()`available, source.Handle()`incoming, source.Handle()`requested
      ensures next < |ww| ==> read == Ok(ww[next]) && next' == next + 1
      ensures next >= |ww| ==> next' == next
      ensures next >= |ww| && source.stream == null ==> read == Err(Closed)
      ensures read == Err(Closed) ==> source.stream == null || source.stream.wrapped == null || source.stream.wrapped.closed
      ensures read == Err(Overflow) ==> overflowExc
      ensures read == Err(Starved) ==>
        source.stream != null && source.stream.wrapped != null
        && (source.stream.wrapped.available == [] || source.stream.wrapped.incoming == [])
      ensures next < |ww| && source.stream != null && source.stream.wrapped != null ==>
        source.stream.wrapped.Script() == old(source.stream.wrapped.Script())
      ensures source.stream != null && source.stream.wrapped != null ==>
        source.stream.wrapped.stopped == old(source.stream.wrapped.stopped)
      ensures next >= |ww| && source.stream != null && source.stream.muted && source.chunk > 0 ==>
        read == Ok(source.stream.mutedBuffer)
      ensures next >= |ww| && source.stream != null && source.chunk == 0 ==>
        read == if source.stream.wrapped == null || source.stream.wrapped.closed then Err(Closed) else Ok([])
      ensures next >= |ww| && source.stream != null && !source.stream.muted && source.stream.wrapped != null &&
              (source.chunk > 0 || !old(source.stream.wrapped.closed)) ==>
        var d := source.stream.wrapped;
        var g := Gather(old(d.closed), old(d.available), old(d.incoming), source.chunk, overflowExc);
        && read == Joined(g.r)
        && d.available == g.available && d.incoming == g.incoming && d.requested == old(d.requested) + g.sizes
    {
      if next < |ww| {
        read, next' := Ok(ww[next]), next + 1;
      } else {
        next' := next;
        read := RecordSoundChunk(source);
      }
    }

    /** The rest of one pass of the recording loop, once its chunk is
        taken: the chunk is handed to the sink and judged, and the button is
        checked. */
    method TakeChunk(source: MutableMicrophone, p: Params, sink: Sink?, chunk: seq<byte>, signals: Signals,
                     rms: (seq<byte>, nat) -> nat, noise: real, loudChunks: nat, chunkCount: nat, silence: real)
      returns (noise': real, loudChunks': nat, silence': real, complete: bool, pressed: bool)
      requires p.multiplier == multiplier && p.energyRatio == energyRatio
      requires p.minSilenceAtEnd == minSilenceAtEnd && p.dynamic == dynamicEnergyThreshold
      modifies this`energyThreshold, signals, sink
      ensures Tracker(noise', loudChunks', chunkCount + 1, silence', energyThreshold, complete)
           == Step(p, Tracker(noise, loudChunks, chunkCount, silence, old(energyThreshold), false),
                   Sample(rms(chunk, source.sampleWidth), pressed))
      ensures pressed == Answer(old(signals.Pending(ButtonPress)), 0)
      ensures signals.Pending(ButtonPress) == After(old(signals.Pending(ButtonPress)), 1)
      ensures sink != null ==> sink.received == old(sink.received) + [chunk] && sink.started == old(sink.started)
      ensures signals.Pending(StartListening) == old(signals.Pending(StartListening))
      ensures signals.Pending(AdjustAmbientNoise) == old(signals.Pending(AdjustAmbientNoise))
    {
      if sink != null {
        sink.StreamChunk(chunk);
      }
      var energy := rms(chunk, source.sampleWidth);
      noise', loudChunks', silence', complete := JudgeChunk(p, noise, loudChunks, chunkCount + 1, silence, energy);
      // Pressing the button ends the recording at once.
      pressed := signals.Check(ButtonPress);
      if pressed {
        complete := true;
      }
      StepPressed(p, Tracker(noise, loudChunks, chunkCount, silence, old(energyThreshold), false), energy, pressed);
    }

    /** `_record_phrase(source, sec_per_buffer, stream, ww_frames)`: takes
        chunks, from `ww` first and then from the microphone's stream, until
        the endpointing rules say the phrase is complete or `max` chunks
        were taken. The ghost results are the chunks taken and what the
        rules saw of each. */
    method RecordPhrase(source: MutableMicrophone, p: Params, sink: Sink?, ww: seq<seq<byte>>,
                        signals: Signals, rms: (seq<byte>, nat) -> nat)
      returns (r: Result<seq<byte>>, ghost chunks: seq<seq<byte>>, ghost samples: seq<Sample>)
      requires p.multiplier == multiplier && p.energyRatio == energyRatio
      requires p.minSilenceAtEnd == minSilenceAtEnd && p.dynamic == dynamicEnergyThreshold
      modifies this`energyThreshold, signals, sink, source.Handle()`available, source.Handle()`incoming, source.Handle()`requested
      ensures Taken(p, old(energyThreshold), source.sampleWidth, rms, ww, old(signals.Pending(ButtonPress)), chunks, samples)
      ensures |samples| <= p.maxChunks
      ensures signals.Pending(ButtonPress) == After(old(signals.Pending(ButtonPress)), |samples|)
      ensures signals.Pending(StartListening) == old(signals.Pending(StartListening))
      ensures signals.Pending(AdjustAmbientNoise) == old(signals.Pending(AdjustAmbientNoise))
      ensures energyThreshold == Run(p, old(energyThreshold), samples).threshold
      ensures r.Ok? ==> !Continues(p, Run(p, old(energyThreshold), samples))
      ensures r.Ok? ==> r.value == Silence(source.sampleWidth) + Concat(chunks)
      ensures r.Err? ==> Continues(p, Run(p, old(energyThreshold), samples)) && |chunks| >= |ww|
      ensures r == Err(Closed) ==> source.stream == null || source.stream.wrapped == null || source.stream.wrapped.closed
      ensures r == Err(Overflow) ==> overflowExc
      ensures r == Err(Starved) ==>
        source.stream != null && source.stream.wrapped != null
        && (source.stream.wrapped.available == [] || source.stream.wrapped.incoming == [])
      ensures sink != null ==> sink.started && sink.received == old(sink.received) + chunks
    {
      ghost var th0 := energyThreshold;
      ghost var presses := signals.Pending(ButtonPress);
      ghost var received := if sink == null then [] else sink.received;
      var loudChunks: nat := 0;
      var noise: real := 0.0;
      var silence: real := 0.0;
      var chunkCount: nat := 0;
      var byteData := Silence(source.sampleWidth);
      var next := 0;
      chunks, samples := [], [];
      if sink != null {
        sink.StreamStart();
      }
      var complete := false;
      while chunkCount < p.maxChunks && !complete
        invariant PhraseSoFar(p, th0, source.sampleWidth, rms, ww, presses, chunks, samples,
                              Tracker(noise, loudChunks, chunkCount, silence, energyThreshold, complete),
                              next, signals.Pending(ButtonPress), byteData)
        invariant signals.Pending(StartListening) == old(signals.Pending(StartListening))
        invariant signals.Pending(AdjustAmbientNoise) == old(signals.Pending(AdjustAmbientNoise))
        invariant sink != null ==> sink.started && sink.received == received + chunks
        decreases p.maxChunks - chunkCount
      {
        ghost var before := Tracker(noise, loudChunks, chunkCount, silence, energyThreshold, complete);
        ghost var pending := signals.Pending(ButtonPress);
        var read, next' := NextChunk(source, ww, next);
        if read.Err? {
          r := Err(read.fault);
          return;
        }
        var chunk := read.value;
        var noise', loudChunks', silence', complete', pressed :=
          TakeChunk(source, p, sink, chunk, signals, rms, noise, loudChunks, chunkCount, silence);
        PhraseStep(p, th0, source.sampleWidth, rms, ww, presses, chunks, samples, before, next, pending, byteData,
                   chunk, pressed, Tracker(noise', loudChunks', chunkCount + 1, silence', energyThreshold, complete'),
                   next', signals.Pending(ButtonPress));
        if sink != null {
          AppendOne(received, chunks, chunk);
        }
        byteData := byteData + chunk;
        chunkCount := chunkCount + 1;
        next, noise, loudChunks, silence, complete := next', noise', loudChunks', silence', complete';
        chunks := chunks + [chunk];
        samples := samples + [Sample(rms(chunk, source.sampleWidth), pressed)];
      }
      RunCounts(p, th0, samples);
      ExtendIsConcat(Silence(source.sampleWidth), chunks);
      r := Ok(byteData);
    }

    /** `_is_listen_signaled()`: the start-listening signal (always
        checked) or the programmatic trigger; otherwise a button press that
        is still there when checked a second time. */
    method IsListenSignaled(signals: Signals) returns (signaled: bool)
      modifies signals
      ensures var start := Answer(old(signals.Pending(StartListening)), 0);
        var presses := old(signals.Pending(ButtonPress));
        && signaled == (start || listenTriggered || (Answer(presses, 0) && Answer(presses, 1)))
        && signals.Pending(StartListening) == After(old(signals.Pending(StartListening)), 1)
        && signals.Pending(ButtonPress) ==
             After(presses, if start || listenTriggered then 0 else if Answer(presses, 0) then 2 else 1)
        && signals.Pending(AdjustAmbientNoise) == old(signals.Pending(AdjustAmbientNoise))
    {
      ghost var presses := signals.Pending(ButtonPress);
      var start := signals.Check(StartListening);
      if start || listenTriggered {
        return true;
      }
      var pressed := signals.Check(ButtonPress);
      if pressed {
        // The press may have been meant as a stop; a press still there on
        // the second look means listen.
        AfterStep(presses, 1);
        var stillPressed := signals.Check(ButtonPress);
        if stillPressed {
          return true;
        }
      }
      return false;
    }

    /** `_wait_for_listen_signal(source)`: polls until stop is signalled or
        a listen signal arrives, adjusting for ambient noise whenever that
        is asked for, then plays the cue file whichever way the wait ended.
        The wait also ends, without the cue, once the start-listening
        script has run dry. The ghost results count the polls (checks of
        `_is_listen_signaled`), the adjustments, and the button answers
        consumed by the polls before the last. */
    method WaitForListenSignal(signals: Signals)
      returns (outcome: WaitOutcome, ghost adjustments: nat, ghost polls: nat, ghost presses: nat)
      modifies this`energyThreshold, this`shouldAdjustNoise, this`trace, signals
      ensures outcome == StopRequested <==> stopSignaled
      ensures stopSignaled ==> polls == 0 && adjustments == 0 && unchanged(signals)
      ensures !stopSignaled ==> 0 < polls <= |old(signals.Pending(StartListening))| + 1
      ensures signals.Pending(StartListening) == After(old(signals.Pending(StartListening)), polls)
      ensures forall i :: 0 <= i < polls - 1 ==> !Answer(old(signals.Pending(StartListening)), i)
      ensures forall i :: 0 <= i < presses - 1 ==>
        !(Answer(old(signals.Pending(ButtonPress)), i) && Answer(old(signals.Pending(ButtonPress)), i + 1))
      ensures presses > 0 ==> !Answer(old(signals.Pending(ButtonPress)), presses - 1)
      ensures presses == ButtonChecks(old(signals.Pending(ButtonPress)), if polls == 0 then 0 else polls - 1)
      ensures listenTriggered && !stopSignaled ==> polls == 1 && presses == 0 && outcome == Heard
      ensures outcome == Heard ==>
        var pr := old(signals.Pending(ButtonPress));
        polls > 0 && (Answer(old(signals.Pending(StartListening)), polls - 1) || listenTriggered
                      || (Answer(pr, presses) && Answer(pr, presses + 1)))
      ensures outcome == SignalsExhausted ==>
        var pr := old(signals.Pending(ButtonPress));
        polls == |old(signals.Pending(StartListening))| + 1 && !listenTriggered
        && !(Answer(pr, presses) && Answer(pr, presses + 1))
      ensures !stopSignaled ==>
        var pr := old(signals.Pending(ButtonPress));
        signals.Pending(ButtonPress) ==
          After(pr, presses + if Answer(old(signals.Pending(StartListening)), polls - 1) || listenTriggered then 0
                              else if Answer(pr, presses) then 2 else 1)
      ensures !stopSignaled ==> signals.Pending(AdjustAmbientNoise) == After(old(signals.Pending(AdjustAmbientNoise)), polls - 1)
      ensures adjustments == Adjustments(old(signals.Pending(AdjustAmbientNoise)), if polls == 0 then 0 else polls - 1, old(shouldAdjustNoise))
      ensures shouldAdjustNoise == (old(shouldAdjustNoise) && adjustments == 0)
      ensures adjustments == 0 ==> energyThreshold == old(energyThreshold)
      ensures trace == old(trace) + Repeat(AmbientAdjusted, adjustments) + (if outcome == SignalsExhausted then [] else CueEvents(cueFile))
    {
      ghost var st0, pr0, ad0 := signals.Pending(StartListening), signals.Pending(ButtonPress), signals.Pending(AdjustAmbientNoise);
      ghost var pending0 := shouldAdjustNoise;
      adjustments, polls, presses := 0, 0, 0;
      outcome := Heard;
      while true
        invariant Polled(st0, pr0, ad0, pending0, polls, presses, adjustments, signals.Pending(StartListening),
                         signals.Pending(ButtonPress), signals.Pending(AdjustAmbientNoise))
        invariant shouldAdjustNoise == (pending0 && adjustments == 0)
        invariant adjustments == 0 ==> energyThreshold == old(energyThreshold)
        invariant listenTriggered ==> polls == 0 && presses == 0
        invariant stopSignaled ==> polls == 0 && presses == 0 && unchanged(signals)
        invariant trace == old(trace) + Repeat(AmbientAdjusted, adjustments)
        invariant outcome == Heard
        decreases |st0| - polls
      {
        if stopSignaled {
          outcome := StopRequested;
          break;
        }
        var signaled, exhausted;
        signaled, exhausted, polls, presses, adjustments :=
          WaitPass(signals, st0, pr0, ad0, pending0, polls, presses, adjustments, old(trace), old(energyThreshold));
        if signaled {
          break;
        }
        if exhausted {
          outcome := SignalsExhausted;
          break;
        }
      }
      if outcome != SignalsExhausted {
        PlayCue();
      }
    }

    /** The end of `_wait_for_listen_signal`: the resolved cue file, if
        any, is played by the player its extension selects. */
    method PlayCue()
      modifies this`trace
      ensures trace == old(trace) + CueEvents(cueFile)
    {
      if cueFile != "" {
        trace := trace + [CuePlayed(PlayerFor(cueFile))];
      }
    }

    /** One poll of the wait: `_is_listen_signaled()` and, when that finds
        no signal and the start-listening script has not run dry, the
        ambient noise check. The signal scripts were `st0`, `pr0` and `ad0`
        before the wait, and `polls` earlier polls consumed `presses`
        button answers and made `adjustments` adjustments. */
    method WaitPass(signals: Signals, ghost st0: seq<bool>, ghost pr0: seq<bool>, ghost ad0: seq<bool>,
                    ghost pending0: bool, ghost polls: nat, ghost presses: nat, ghost adjustments: nat,
                    ghost trace0: seq<Event>, ghost threshold0: real)
      returns (signaled: bool, exhausted: bool, ghost polls': nat, ghost presses': nat, ghost adjustments': nat)
      requires Polled(st0, pr0, ad0, pending0, polls, presses, adjustments, signals.Pending(StartListening),
                      signals.Pending(ButtonPress), signals.Pending(AdjustAmbientNoise))
      requires shouldAdjustNoise == (pending0 && adjustments == 0)
      requires adjustments == 0 ==> energyThreshold == threshold0
      requires trace == trace0 + Repeat(AmbientAdjusted, adjustments)
      modifies this`energyThreshold, this`shouldAdjustNoise, this`trace, signals
      ensures polls' == polls + 1 && exhausted == (polls == |st0|)
      ensures var start := Answer(st0, polls);
        && signaled == (start || listenTriggered || (Answer(pr0, presses) && Answer(pr0, presses + 1)))
        && signals.Pending(StartListening) == After(st0, polls + 1)
        && signals.Pending(ButtonPress) ==
             After(pr0, presses + if start || listenTriggered then 0 else if Answer(pr0, presses) then 2 else 1)
      ensures signaled || exhausted ==>
        && presses' == presses == ButtonChecks(pr0, polls) && adjustments' == adjustments
        && signals.Pending(AdjustAmbientNoise) == After(ad0, polls)
      ensures !signaled && !exhausted ==> presses' == presses + (if Answer(pr0, presses) then 2 else 1)
      ensures !signaled && !exhausted ==>
        Polled(st0, pr0, ad0, pending0, polls', presses', adjustments', signals.Pending(StartListening),
               signals.Pending(ButtonPress), signals.Pending(AdjustAmbientNoise))
      ensures shouldAdjustNoise == (pending0 && adjustments' == 0)
      ensures adjustments' == 0 ==> energyThreshold == threshold0
      ensures trace == trace0 + Repeat(AmbientAdjusted, adjustments')
    {
      polls', presses', adjustments' := polls + 1, presses, adjustments;
      exhausted := signals.Pending(StartListening) == [];
      AfterSize(st0, polls);
      AfterAfter(st0, polls, 0);
      AfterAfter(st0, polls, 1);
      AfterAfter(pr0, presses, 0);
      AfterAfter(pr0, presses, 1);
      AfterAfter(pr0, presses, 2);
      signaled := IsListenSignaled(signals);
      if signaled || exhausted {
        return;
      }
      NoDoublePress(pr0, presses);
      presses' := presses + if Answer(pr0, presses) then 2 else 1;
      adjustments' := AdjustPass(signals, ad0, pending0, polls, adjustments, trace0, threshold0);
    }

    /** The ambient noise check of one poll that found no listen signal:
        the adjust script was `ad0` before the wait, and `polls` earlier
        polls made `adjustments` adjustments. */
    method AdjustPass(signals: Signals, ghost ad0: seq<bool>, ghost pending0: bool, ghost polls: nat,
                      ghost adjustments: nat, ghost trace0: seq<Event>, ghost threshold0: real)
      returns (ghost adjustments': nat)
      requires signals.Pending(AdjustAmbientNoise) == After(ad0, polls)
      requires adjustments == Adjustments(ad0, polls, pending0)
      requires shouldAdjustNoise == (pending0 && adjustments == 0)
      requires adjustments == 0 ==> energyThreshold == threshold0
      requires trace == trace0 + Repeat(AmbientAdjusted, adjustments)
      modifies this`energyThreshold, this`shouldAdjustNoise, this`trace, signals
      ensures signals.Pending(AdjustAmbientNoise) == After(ad0, polls + 1)
      ensures signals.Pending(StartListening) == old(signals.Pending(StartListening))
      ensures signals.Pending(ButtonPress) == old(signals.Pending(ButtonPress))
      ensures adjustments' == Adjustments(ad0, polls + 1, pending0)
      ensures shouldAdjustNoise == (pending0 && adjustments' == 0)
      ensures adjustments' == 0 ==> energyThreshold == threshold0
      ensures trace == trace0 + Repeat(AmbientAdjusted, adjustments')
    {
      adjustments' := adjustments;
      AfterAfter(ad0, polls, 0);
      AfterAfter(ad0, polls, 1);
      var adjust := signals.Check(AdjustAmbientNoise);
      if adjust || shouldAdjustNoise {
        AdjustAmbientNoiseNow();
        assert Repeat(AmbientAdjusted, adjustments) + [AmbientAdjusted] == Repeat(AmbientAdjusted, adjustments + 1);
        adjustments' := adjustments + 1;
      }
    }

    /** The second half of `listen`: unmute, announce the recording,
        record one phrase, announce its end, and adjust for ambient noise
        when configured to. A failed chunk read ends it after the first
        announcement. */
    method RecordAndAnnounce(source: MutableMicrophone, bus: Bus, sink: Sink?, signals: Signals,
                             p: Params, rms: (seq<byte>, nat) -> nat)
      returns (result: ListenResult, ghost chunks: seq<seq<byte>>, ghost samples: seq<Sample>)
      requires p.multiplier == multiplier && p.energyRatio == energyRatio
      requires p.minSilenceAtEnd == minSilenceAtEnd && p.dynamic == dynamicEnergyThreshold
      modifies this`energyThreshold, this`shouldAdjustNoise, this`trace, bus, sink, signals, source.Footprint()
      ensures result.Recorded? || result.Failed?
      ensures Taken(p, old(energyThreshold), source.sampleWidth, rms, [], old(signals.Pending(ButtonPress)), chunks, samples)
      ensures |samples| <= p.maxChunks
      ensures result.Recorded? ==> result.audio.frames == Silence(source.sampleWidth) + Concat(chunks)
      ensures result.Recorded? == !Continues(p, Run(p, old(energyThreshold), samples))
      ensures result.Failed? || !autoAmbientNoiseAdjustment ==> energyThreshold == Run(p, old(energyThreshold), samples).threshold
      ensures sink != null ==> sink.started && sink.received == old(sink.received) + chunks
      ensures !source.muted && source.stream == old(source.stream)
      ensures source.stream != null ==> !source.stream.muted && source.stream.wrapped == old(source.stream.wrapped)
      ensures source.stream != null && source.stream.wrapped != null ==> !source.stream.wrapped.stopped
      ensures result.Recorded? ==> bus.emitted == old(bus.emitted) + [RecordBeginMessage] + [RecordEndMessage]
      ensures result.Failed? ==> bus.emitted == old(bus.emitted) + [RecordBeginMessage]
      ensures result.Recorded? ==> result.audio.sampleRate == source.sampleRate && result.audio.sampleWidth == source.sampleWidth
      ensures result.Recorded? ==>
        (|result.audio.frames| >= source.sampleWidth && result.audio.frames[..source.sampleWidth] == Silence(source.sampleWidth))
      ensures trace == old(trace) + RecordingEvents(result, autoAmbientNoiseAdjustment)
      ensures result == Failed(Closed) ==> source.stream == null || source.stream.wrapped == null || source.stream.wrapped.closed
      ensures result == Failed(Overflow) ==> overflowExc
      ensures result == Failed(Starved) ==>
        source.stream != null && source.stream.wrapped != null
        && (source.stream.wrapped.available == [] || source.stream.wrapped.incoming == [])
    {
      assert this !in source.Footprint() && signals !in source.Footprint();
      BeginRecording(source, bus);
      var frameData;
      frameData, chunks, samples := RecordPhrase(source, p, sink, [], signals, rms);
      if frameData.Err? {
        return Failed(frameData.fault), chunks, samples;
      }
      var audioData := AudioData(frameData.value, source.sampleRate, source.sampleWidth);
      FinishRecording(bus);
      result := Recorded(audioData);
    }

    /** The steps of `listen` before the recording: unmute the microphone
        and announce that recording begins. */
    method BeginRecording(source: MutableMicrophone, bus: Bus)
      modifies this`trace, bus, source.Footprint()
      ensures !source.muted && source.stream == old(source.stream)
      ensures source.stream != null ==> !source.stream.muted && source.stream.wrapped == old(source.stream.wrapped)
      ensures source.stream != null && source.stream.wrapped != null ==>
        !source.stream.wrapped.stopped && source.stream.wrapped.closed == old(source.stream.wrapped.closed)
        && source.stream.wrapped.Script() == old(source.stream.wrapped.Script())
      ensures bus.emitted == old(bus.emitted) + [RecordBeginMessage]
      ensures trace == old(trace) + [Unmuted, RecordBegin]
    {
      assert this !in source.Footprint() && bus !in source.Footprint();
      source.Unmute();
      trace := trace + [Unmuted];
      bus.Emit(RecordBeginMessage);
      trace := trace + [RecordBegin];
    }

    /** The steps of `listen` after the recording: announce its end and,
        when configured to, adjust for ambient noise. */
    method FinishRecording(bus: Bus)
      modifies this`energyThreshold, this`shouldAdjustNoise, this`trace, bus
      ensures bus.emitted == old(bus.emitted) + [RecordEndMessage]
      ensures trace == old(trace) + [RecordEnd] + (if autoAmbientNoiseAdjustment then [AmbientAdjusted] else [])
      ensures !autoAmbientNoiseAdjustment ==> energyThreshold == old(energyThreshold)
    {
      bus.Emit(RecordEndMessage);
      trace := trace + [RecordEnd];
      if autoAmbientNoiseAdjustment {
        AdjustAmbientNoiseNow();
      }
    }

    /** `listen(source, bus, stream)`: mute, wait for the signal, clear the
        programmatic trigger and, unless stop was signalled, record and
        announce one phrase. */
    method Listen(source: MutableMicrophone, bus: Bus, sink: Sink?, signals: Signals,
                  counts: ChunkCounts, damping: real, rms: (seq<byte>, nat) -> nat)
      returns (result: ListenResult, ghost adjustments: nat, ghost polls: nat, ghost presses: nat,
               ghost threshold0: real, ghost presses0: seq<bool>,
               ghost chunks: seq<seq<byte>>, ghost samples: seq<Sample>)
      requires source.sampleRate > 0
      modifies this, bus, sink, signals, source.Footprint()
      ensures !listenTriggered
      ensures stopSignaled == old(stopSignaled)
      ensures result == NoAudio <==> old(stopSignaled)
      ensures result == NoSignal ==> polls == |old(signals.Pending(StartListening))| + 1 && !old(listenTriggered)
      ensures result.Recorded? || result.Failed? ==>
        var st, pr := old(signals.Pending(StartListening)), old(signals.Pending(ButtonPress));
        && 0 < polls <= |st| + 1
        && (Answer(st, polls - 1) || old(listenTriggered) || (Answer(pr, presses) && Answer(pr, presses + 1)))
        && presses0 == After(pr, presses + if Answer(st, polls - 1) || old(listenTriggered) then 0
                                           else if Answer(pr, presses) then 2 else 1)
      ensures forall i :: 0 <= i < polls - 1 ==> !Answer(old(signals.Pending(StartListening)), i)
      ensures presses == ButtonChecks(old(signals.Pending(ButtonPress)), if polls == 0 then 0 else polls - 1)
      ensures adjustments == Adjustments(old(signals.Pending(AdjustAmbientNoise)), if polls == 0 then 0 else polls - 1, old(shouldAdjustNoise))
      ensures adjustments == 0 ==> threshold0 == old(energyThreshold)
      ensures result.Recorded? || result.Failed? ==>
        var p := ParamsFor(SecPerBuffer(source.chunk, source.sampleRate), counts, damping);
        && Taken(p, threshold0, source.sampleWidth, rms, [], presses0, chunks, samples)
        && |samples| <= p.maxChunks
        && (result.Recorded? == !Continues(p, Run(p, threshold0, samples)))
        && (result.Failed? || !autoAmbientNoiseAdjustment ==> energyThreshold == Run(p, threshold0, samples).threshold)
        && (sink != null ==> sink.started && sink.received == old(sink.received) + chunks)
      ensures result.Recorded? ==> result.audio.frames == Silence(source.sampleWidth) + Concat(chunks)
      ensures old(stopSignaled) ==> bus.emitted == old(bus.emitted) && source.muted
      ensures result == NoSignal ==> bus.emitted == old(bus.emitted) && source.muted
      ensures result.Recorded? ==> bus.emitted == old(bus.emitted) + [RecordBeginMessage] + [RecordEndMessage]
      ensures result.Failed? ==> bus.emitted == old(bus.emitted) + [RecordBeginMessage]
      ensures result.Recorded? || result.Failed? ==> !source.muted
      ensures source.stream == old(source.stream)
      ensures source.stream != null ==> source.stream.wrapped == old(source.stream.wrapped)
      ensures source.stream != null ==> (source.muted == source.stream.muted)
      ensures source.stream != null && source.stream.wrapped != null ==> source.stream.wrapped.stopped == source.muted
      ensures result.Recorded? ==> result.audio.sampleRate == source.sampleRate && result.audio.sampleWidth == source.sampleWidth
      ensures result.Recorded? ==>
        (|result.audio.frames| >= source.sampleWidth && result.audio.frames[..source.sampleWidth] == Silence(source.sampleWidth))
      ensures trace == old(trace) + [Muted] + Repeat(AmbientAdjusted, adjustments) + ListenTail(result, autoAmbientNoiseAdjustment, cueFile)
      ensures result == Failed(Closed) ==> source.stream == null || source.stream.wrapped == null || source.stream.wrapped.closed
      ensures result == Failed(Overflow) ==> overflowExc
      ensures result == Failed(Starved) ==>
        source.stream != null && source.stream.wrapped != null
        && (source.stream.wrapped.available == [] || source.stream.wrapped.incoming == [])
    {
      assert this !in source.Footprint() && bus !in source.Footprint();
      var outcome;
      outcome, adjustments, polls, presses := AwaitSignal(source, signals);
      threshold0, presses0 := energyThreshold, signals.Pending(ButtonPress);
      chunks, samples := [], [];
      if outcome == SignalsExhausted {
        result := NoSignal;
        return;
      }
      if outcome == StopRequested {
        result := NoAudio;
        return;
      }
      ghost var waited := trace;
      result, chunks, samples := RecordAndAnnounce(source, bus, sink, signals, ParamsFor(SecPerBuffer(source.chunk, source.sampleRate), counts, damping), rms);
      assert trace == waited + RecordingEvents(result, autoAmbientNoiseAdjustment);
    }

    /** The first half of `listen`: mute the microphone, wait for the
        signal and clear the programmatic trigger. */
    method AwaitSignal(source: MutableMicrophone, signals: Signals)
      returns (outcome: WaitOutcome, ghost adjustments: nat, ghost polls: nat, ghost presses: nat)
      modifies this`energyThreshold, this`shouldAdjustNoise, this`trace, this`listenTriggered, signals, source.Footprint()
      ensures !listenTriggered && source.muted && source.stream == old(source.stream)
      ensures source.stream != null ==> source.stream.muted && source.stream.wrapped == old(source.stream.wrapped)
      ensures source.stream != null && source.stream.wrapped != null ==>
        source.stream.wrapped.stopped && source.stream.wrapped.closed == old(source.stream.wrapped.closed)
        && source.stream.wrapped.Script() == old(source.stream.wrapped.Script())
      ensures outcome == StopRequested <==> stopSignaled
      ensures outcome == SignalsExhausted ==> polls == |old(signals.Pending(StartListening))| + 1 && !old(listenTriggered)
      ensures outcome == Heard ==>
        var st, pr := old(signals.Pending(StartListening)), old(signals.Pending(ButtonPress));
        && 0 < polls <= |st| + 1
        && (Answer(st, polls - 1) || old(listenTriggered) || (Answer(pr, presses) && Answer(pr, presses + 1)))
        && signals.Pending(ButtonPress) == After(pr, presses + if Answer(st, polls - 1) || old(listenTriggered) then 0
                                                             else if Answer(pr, presses) then 2 else 1)
      ensures forall i :: 0 <= i < polls - 1 ==> !Answer(old(signals.Pending(StartListening)), i)
      ensures presses == ButtonChecks(old(signals.Pending(ButtonPress)), if polls == 0 then 0 else polls - 1)
      ensures adjustments == Adjustments(old(signals.Pending(AdjustAmbientNoise)), if polls == 0 then 0 else polls - 1, old(shouldAdjustNoise))
      ensures adjustments == 0 ==> energyThreshold == old(energyThreshold)
      ensures trace == old(trace) + [Muted] + Repeat(AmbientAdjusted, adjustments)
                       + (if outcome == SignalsExhausted then [] else CueEvents(cueFile))
    {
      source.Mute();
      trace := trace + [Muted];
      outcome, adjustments, polls, presses := WaitForListenSignal(signals);
      listenTriggered := false;
    }
  }

  /** What the second half of `listen` does, by its result: unmute and
      the start of recording, then, on success, its end and the optional
      final ambient noise adjustment. */
  function RecordingEvents(result: ListenResult, autoAdjust: bool): seq<Event> {
    match result
    case Failed(_) => [Unmuted, RecordBegin]
    case Recorded(_) => [Unmuted, RecordBegin, RecordEnd] + (if autoAdjust then [AmbientAdjusted] else [])
    case _ => []
  }

  /** What `listen` does after the ambient noise adjustments made while
      waiting: nothing if the signals ran dry, otherwise the cue and then
      the recording's events. */
  function ListenTail(result: ListenResult, autoAdjust: bool, cueFile: string): seq<Event> {
    if result == NoSignal then [] else CueEvents(cueFile) + RecordingEvents(result, autoAdjust)
  }
}
