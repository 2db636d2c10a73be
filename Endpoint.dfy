/** The endpointing rules of `ResponsiveRecognizer._record_phrase` in
    mycroft_ptt/speech/mic.py: what each recorded chunk does to the noise
    score, the loud-chunk count, the silence duration, the energy threshold
    and the decision that the phrase is complete. Floating point numbers are
    exact reals here. */
module Endpoint {

  const MaxNoise: real := 25.0
  const MinNoise: real := 0.0

  /** The session's parameters. The chunk counts are the source's
      `int(seconds / sec_per_buffer)` conversions, already taken; `damping`
      is `dynamic_energy_adjustment_damping ** sec_per_buffer`. */
  datatype Params = Params(
    spb: real,
    minLoudChunks: nat,
    maxChunks: nat,
    maxChunksOfSilence: nat,
    minSilenceAtEnd: real,
    multiplier: real,
    energyRatio: real,
    dynamic: bool,
    damping: real)

  /** What `_record_phrase` keeps between chunks, plus the energy threshold
      of the recognizer, which quiet chunks adjust. */
  datatype Tracker = Tracker(
    noise: real,
    loudChunks: nat,
    chunks: nat,
    silence: real,
    threshold: real,
    complete: bool)

  /** One chunk as the rules see it: its energy (`audioop.rms`) and whether
      the `buttonPress` signal was found after it. */
  datatype Sample = Sample(energy: nat, pressed: bool)

  /** `sec_per_buffer`: the seconds of audio in one chunk of `chunk`
      frames at `rate` frames a second. */
  function SecPerBuffer(chunk: nat, rate: nat): real
    requires rate > 0
  {
    chunk as real / rate as real
  }

  /** `increase_noise`: adds only while the score is below 25. */
  function IncreaseNoise(level: real, spb: real): real {
    if level < MaxNoise then level + 200.0 * spb else level
  }

  /** `decrease_noise`: subtracts only while the score is above 0. */
  function DecreaseNoise(level: real, spb: real): real {
    if level > MinNoise then level - 100.0 * spb else level
  }

  /** `_adjust_threshold`: on a chunk with positive energy, and only when the
      threshold is dynamic, moves the threshold towards
      `energy * energy_ratio` by the weight `1 - damping`. */
  function AdjustedThreshold(p: Params, threshold: real, energy: nat): real {
    if p.dynamic && energy > 0 then
      threshold * p.damping + (energy as real * p.energyRatio) * (1.0 - p.damping)
    else
      threshold
  }

  /** The state before the first chunk. */
  function Start(threshold: real): Tracker {
    Tracker(0.0, 0, 0, 0.0, threshold, false)
  }

  function IsLoud(p: Params, t: Tracker, s: Sample): bool {
    s.energy as real > t.threshold * p.multiplier
  }

  /** The body of the recording loop for one chunk. */
  function Step(p: Params, t: Tracker, s: Sample): Tracker {
    var loud := IsLoud(p, t, s);
    var chunks := t.chunks + 1;
    var noise := if loud then IncreaseNoise(t.noise, p.spb) else DecreaseNoise(t.noise, p.spb);
    var loudChunks := if loud then t.loudChunks + 1 else t.loudChunks;
    var threshold := if loud then t.threshold else AdjustedThreshold(p, t.threshold, s.energy);
    var silence := if noise <= MinNoise then t.silence + p.spb else 0.0;
    var quietEnough := noise <= MinNoise && !(silence < p.minSilenceAtEnd);
    var wasLoudEnough := loudChunks > p.minLoudChunks;
    var tooMuchSilence := chunks > p.maxChunksOfSilence;
    var complete := (quietEnough && (wasLoudEnough || tooMuchSilence)) || s.pressed;
    Tracker(noise, loudChunks, chunks, silence, threshold, complete)
  }

  /** The state after the given chunks, one step each, in order. */
  function Run(p: Params, threshold: real, samples: seq<Sample>): Tracker
    decreases |samples|
  {
    if samples == [] then Start(threshold)
    else Step(p, Run(p, threshold, samples[..|samples| - 1]), samples[|samples| - 1])
  }

  /** The button only adds to the completion decision. */
  lemma StepPressed(p: Params, t: Tracker, energy: nat, pressed: bool)
    ensures var u := Step(p, t, Sample(energy, false));
      Step(p, t, Sample(energy, pressed)) == u.(complete := u.complete || pressed)
  {
  }

  /** The loop guard: below the chunk cap and not complete. */
  predicate Continues(p: Params, t: Tracker) {
    t.chunks < p.maxChunks && !t.complete
  }

  lemma RunAppend(p: Params, threshold: real, samples: seq<Sample>, s: Sample)
    ensures Run(p, threshold, samples + [s]) == Step(p, Run(p, threshold, samples), s)
  {
    assert (samples + [s])[..|samples|] == samples;
  }

  // ---------------------------------------------------------------------
  // Counting.

  /** Every chunk is counted once; loud chunks are some of them. */
  lemma {:induction false} RunCounts(p: Params, threshold: real, samples: seq<Sample>)
    ensures Run(p, threshold, samples).chunks == |samples|
    ensures Run(p, threshold, samples).loudChunks <= |samples|
    decreases |samples|
  {
    if samples != [] {
      RunCounts(p, threshold, samples[..|samples| - 1]);
    }
  }

  // ---------------------------------------------------------------------
  // The noise score.

  /** The score is never clamped, but it moves by one increment at most past
      either end of [0, 25]. */
  lemma {:induction false} NoiseBounds(p: Params, threshold: real, samples: seq<Sample>)
    requires p.spb >= 0.0
    ensures MinNoise - 100.0 * p.spb <= Run(p, threshold, samples).noise <= MaxNoise + 200.0 * p.spb
    decreases |samples|
  {
    if samples != [] {
      NoiseBounds(p, threshold, samples[..|samples| - 1]);
    }
  }

  /** With 1024-frame chunks at 16 kHz, two loud chunks take the score to
      25.6, past the nominal maximum of 25. */
  lemma NoiseOvershoots(p: Params, threshold: real, e1: nat, e2: nat)
    requires p.spb == 1024.0 / 16000.0 && p.multiplier == 1.0 && threshold == 0.0
    requires e1 > 0 && e2 > 0
    ensures Run(p, threshold, [Sample(e1, false), Sample(e2, false)]).noise == 25.6
    ensures Run(p, threshold, [Sample(e1, false), Sample(e2, false)]).noise > MaxNoise
  {
    var s := [Sample(e1, false), Sample(e2, false)];
    assert s[..1] == [Sample(e1, false)];
    assert s[..1][..0] == [];
    var t1 := Step(p, Start(threshold), Sample(e1, false));
    assert Run(p, threshold, s[..1]) == t1;
    assert t1.noise == 12.8 && t1.threshold == 0.0;
  }

  // ---------------------------------------------------------------------
  // The energy threshold.

  /** With a damping in (0, 1), an adjustment lands between the old
      threshold and the target `energy * energy_ratio` and strictly nearer
      the target; without a dynamic threshold, or on a silent chunk, the
      threshold stays. */
  lemma AdjustedThresholdBetween(p: Params, threshold: real, energy: nat)
    requires 0.0 < p.damping < 1.0
    ensures var target := energy as real * p.energyRatio;
      var r := AdjustedThreshold(p, threshold, energy);
      && (!p.dynamic || energy == 0 ==> r == threshold)
      && (p.dynamic && energy > 0 ==>
            && (threshold <= r <= target || target <= r <= threshold)
            && (threshold != target ==> (if r >= target then r - target else target - r) < (if threshold >= target then threshold - target else target - threshold)))
  {
    if p.dynamic && energy > 0 {
      Blend(threshold, energy as real * p.energyRatio, p.damping);
    }
  }

  /** The weighted mean `threshold * d + target * (1 - d)` is the target
      plus `d` times the old distance from it. */
  lemma Blend(threshold: real, target: real, d: real)
    requires 0.0 < d < 1.0
    ensures var r := threshold * d + target * (1.0 - d);
      && (threshold <= r <= target || target <= r <= threshold)
      && (threshold != target ==> (if r >= target then r - target else target - r) < (if threshold >= target then threshold - target else target - threshold))
  {
    var r := threshold * d + target * (1.0 - d);
    Shrink(d, threshold - target);
    assert r == target + Scale(d, threshold - target);
  }

  function Scale(d: real, x: real): real {
    d * x
  }

  /** Scaling by a factor in (0, 1) keeps the sign and shrinks the size. */
  lemma Shrink(d: real, x: real)
    requires 0.0 < d < 1.0
    ensures x >= 0.0 ==> 0.0 <= Scale(d, x) <= x
    ensures x <= 0.0 ==> x <= Scale(d, x) <= 0.0
    ensures x > 0.0 ==> Scale(d, x) < x
    ensures x < 0.0 ==> x < Scale(d, x)
  {
    MulSign(d, x);
    MulSign(1.0 - d, x);
    assert x - d * x == (1.0 - d) * x;
  }

  lemma MulSign(a: real, b: real)
    requires a > 0.0
    ensures b > 0.0 ==> a * b > 0.0
    ensures b < 0.0 ==> a * b < 0.0
    ensures b == 0.0 ==> a * b == 0.0
  {
  }

  /** Loud chunks leave the threshold alone. */
  lemma LoudKeepsThreshold(p: Params, t: Tracker, s: Sample)
    requires IsLoud(p, t, s)
    ensures Step(p, t, s).threshold == t.threshold
  {
  }

  /** The threshold never leaves an interval holding its starting value and
      the target of every chunk; in particular it stays non-negative when it
      starts so and the energy ratio is non-negative. */
  lemma {:induction false} ThresholdStaysWithin(p: Params, threshold: real, samples: seq<Sample>, lo: real, hi: real)
    requires 0.0 < p.damping < 1.0
    requires lo <= threshold <= hi
    requires forall i :: 0 <= i < |samples| ==> lo <= samples[i].energy as real * p.energyRatio <= hi
    ensures lo <= Run(p, threshold, samples).threshold <= hi
    decreases |samples|
  {
    if samples != [] {
      var init := samples[..|samples| - 1];
      var last := samples[|samples| - 1];
      assert forall i :: 0 <= i < |init| ==> init[i] == samples[i];
      ThresholdStaysWithin(p, threshold, init, lo, hi);
      StepThresholdWithin(p, Run(p, threshold, init), last, lo, hi);
    }
  }

  lemma StepThresholdWithin(p: Params, t: Tracker, s: Sample, lo: real, hi: real)
    requires 0.0 < p.damping < 1.0
    requires lo <= t.threshold <= hi && lo <= s.energy as real * p.energyRatio <= hi
    ensures lo <= Step(p, t, s).threshold <= hi
  {
    AdjustedThresholdBetween(p, t.threshold, s.energy);
  }

  // ---------------------------------------------------------------------
  // The silence duration.

  /** The time covered by the last chunks in a row that left the noise
      score at or below 0: `sec_per_buffer` for each of them. */
  function QuietTime(p: Params, threshold: real, samples: seq<Sample>): real
    decreases |samples|
  {
    if samples == [] || Run(p, threshold, samples).noise > MinNoise then 0.0
    else QuietTime(p, threshold, samples[..|samples| - 1]) + p.spb
  }

  /** The silence duration is the time since the noise score was last
      positive. */
  lemma {:induction false} SilenceIsQuietTime(p: Params, threshold: real, samples: seq<Sample>)
    ensures Run(p, threshold, samples).silence == QuietTime(p, threshold, samples)
    decreases |samples|
  {
    if samples != [] {
      SilenceIsQuietTime(p, threshold, samples[..|samples| - 1]);
    }
  }

  /** The noise score is at or below 0 after the first `j` chunks. */
  ghost predicate QuietAfter(p: Params, threshold: real, samples: seq<Sample>, j: nat)
    requires j <= |samples|
  {
    Run(p, threshold, samples[..j]).noise <= MinNoise
  }

  /** `spb` added up `k` times. */
  function ChunkTime(k: nat, spb: real): real
    decreases k
  {
    if k == 0 then 0.0 else ChunkTime(k - 1, spb) + spb
  }

  /** `k` chunks' worth of seconds is `k * spb`. */
  lemma {:induction false} ChunkTimeIsProduct(k: nat, spb: real)
    ensures ChunkTime(k, spb) == k as real * spb
    decreases k
  {
    if k > 0 {
      ChunkTimeIsProduct(k - 1, spb);
      assert (k - 1) as real * spb + spb == k as real * spb;
    }
  }

  /** The same duration in closed form: when the last `k` chunks, and not
      the one before them, left the score at or below 0, the silence
      duration is `k` chunks' worth of seconds. */
  lemma {:induction false} SilenceClosedForm(p: Params, threshold: real, samples: seq<Sample>, k: nat)
    requires k <= |samples|
    requires forall j :: |samples| - k < j <= |samples| ==> QuietAfter(p, threshold, samples, j)
    requires k < |samples| ==> !QuietAfter(p, threshold, samples, |samples| - k)
    ensures Run(p, threshold, samples).silence == ChunkTime(k, p.spb)
    decreases |samples|
  {
    var n := |samples|;
    assert samples[..n] == samples;
    if k == 0 {
      if n > 0 {
        assert !QuietAfter(p, threshold, samples, n);
        StepSilence(p, Run(p, threshold, samples[..n - 1]), samples[n - 1]);
      }
    } else {
      var init := samples[..n - 1];
      forall j | |init| - (k - 1) < j <= |init|
        ensures QuietAfter(p, threshold, init, j)
      {
        assert init[..j] == samples[..j];
        assert QuietAfter(p, threshold, samples, j);
      }
      if k - 1 < |init| {
        assert init[..|init| - (k - 1)] == samples[..n - k];
      }
      assert QuietAfter(p, threshold, samples, n);
      SilenceClosedForm(p, threshold, init, k - 1);
      StepSilence(p, Run(p, threshold, init), samples[n - 1]);
    }
  }

  /** One step of the silence duration: it grows by one chunk while the
      score stays at or below 0 and restarts otherwise. */
  lemma StepSilence(p: Params, t: Tracker, s: Sample)
    ensures var u := Step(p, t, s);
      u.silence == if u.noise <= MinNoise then t.silence + p.spb else 0.0
  {
  }

  // ---------------------------------------------------------------------
  // Completion.

  /** When the recording is complete: the button was found after the last
      chunk, or the last chunks in a row, at least `min_silence_at_end` of
      them, were quiet and the recording was loud enough or has run longer
      than `max_chunks_of_silence`. */
  lemma CompletionRule(p: Params, threshold: real, samples: seq<Sample>)
    requires samples != []
    ensures var t := Run(p, threshold, samples);
      t.complete <==>
        || samples[|samples| - 1].pressed
        || (&& QuietTime(p, threshold, samples) >= p.minSilenceAtEnd
            && t.noise <= MinNoise
            && (t.loudChunks > p.minLoudChunks || |samples| > p.maxChunksOfSilence))
  {
    SilenceIsQuietTime(p, threshold, samples);
    RunCounts(p, threshold, samples[..|samples| - 1]);
  }

  /** The button ends the recording whatever the audio. */
  lemma PressCompletes(p: Params, threshold: real, samples: seq<Sample>)
    requires samples != [] && samples[|samples| - 1].pressed
    ensures Run(p, threshold, samples).complete
  {
  }

  /** Chunks that are all louder than the starting threshold, with the
      button never pressed, never complete the phrase: the noise score stays
      positive, so the recording runs to `max_chunks`. */
  lemma {:induction false} LoudNeverCompletes(p: Params, threshold: real, samples: seq<Sample>)
    requires p.spb > 0.0
    requires forall i :: 0 <= i < |samples| ==> samples[i].energy as real > threshold * p.multiplier && !samples[i].pressed
    ensures Run(p, threshold, samples).threshold == threshold
    ensures !Run(p, threshold, samples).complete
    ensures samples != [] ==> Run(p, threshold, samples).noise > MinNoise
    decreases |samples|
  {
    if samples != [] {
      LoudNeverCompletes(p, threshold, samples[..|samples| - 1]);
    }
  }
}
