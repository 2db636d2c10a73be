# HiveMind push-to-talk listener, modelled in Dafny

This project models the core of the HiveMind push-to-talk client:

- the microphone layer of `mycroft_ptt/speech/mic.py`, which covers:
  - `MutableStream`, a device stream that can be muted and then answers reads with a buffer of silence;
  - `MutableMicrophone`, which owns that stream and remembers the mute flag across restarts;
  - `ResponsiveRecognizer`, which waits for a listen signal, records one phrase until its endpointing rules say the phrase is over, and announces the recording on the message bus;
- the recursive "fill in missing defaults" merge of `mycroft_ptt/configuration/__init__.py`.

The files:

- `Audio.dfy`: bytes, the joined-chunks buffer, and the PyAudio input device. The device is an object whose answers come from finite scripts fixed in advance.
- `Stream.dfy`: `MutableStream`, and the order of the statements in its constructor.
- `Microphone.dfy`: `MutableMicrophone`.
- `Endpoint.dfy`: the endpointing rules of `_record_phrase` as a pure step function `Step` over one chunk, and `Run` over a sequence of chunks. It also holds the properties of these rules:
  - the noise score's bounds;
  - where the energy threshold can go;
  - what the silence duration measures;
  - when a phrase can complete.
- `Recognizer.dfy`: `ResponsiveRecognizer` as a class.
  - The recording loop is a method proved against `Run`: its threshold and the chunks it took are what `Run` and the predicate `Taken` say.
  - `listen` records what it does as a ghost event trace: mute, the ambient-noise adjustments, the cue, unmute, the recording.
  - The signal channel (`check_for_signal`) is an object that answers each signal name from its own script.
- `Config.dfy`: configuration values, the built-in defaults, and the merge.
  - The merge is a method with the source's loop and recursion, proved equal to the function `Merged`.
  - The lemmas about `Merged` cover:
    - keys;
    - preservation of every value of the base at every depth;
    - completeness at every depth;
    - idempotence.

The model follows the code, including where it does less than its names suggest:

- A muted read returns the muted buffer, which holds `SAMPLE_WIDTH` zero bytes whatever `size` was asked for.
- The recording buffer starts with `SAMPLE_WIDTH` zero bytes, a single sample of silence.
- The noise score moves in fixed steps, and the steps are only guarded by its value before them, so it leaves [0, 25]. `Endpoint.NoiseBounds` and `Endpoint.NoiseOvershoots` show by how much.
- The cue is played after the wait however it ended, a stop request included.

Floating point numbers are exact reals.

## Model

| member | source | states |
|---|---|---|
| Audio.Silence | mycroft_ptt/speech/mic.py:171-172 | `get_silence(n)` has exactly `n` bytes, all zero |
| Audio.ExtendIsConcat | mycroft_ptt/speech/mic.py:273-284 | appending each chunk to the buffer in turn gives the starting buffer followed by all chunks joined in order |
| Stream.MutableStream.constructor | mycroft_ptt/speech/mic.py:36-46 | wraps the device, records the flag and a muted buffer of `SAMPLE_WIDTH` zero bytes, and stops the device when created muted; the device's scripts are untouched |
| Stream.MutableStream.Mute | mycroft_ptt/speech/mic.py:48-52 | the flag is set and the device stopped; a missing device is the error case; nothing is read |
| Stream.MutableStream.Unmute | mycroft_ptt/speech/mic.py:54-58 | the flag is cleared and the device started; a missing device is the error case |
| Stream.Gather | mycroft_ptt/speech/mic.py:71-93 | the reference definition of the read loop: `PollOnce` repeated until `remaining` frames are gathered or a pass fails; its properties are `GatherDelivers` and `GatherPaced`, and `MutableStream.Read` is proved equal to it |
| Stream.PollOnce | mycroft_ptt/speech/mic.py:80-88 | one pass of the read loop on the device's scripts: a closed device or a missing answer is a fault; the size asked is `min(available, remaining)` and nothing is read when that is not positive; otherwise one read of that size, whose overflow is a fault only under `of_exc` |
| Stream.GatherDelivers | mycroft_ptt/speech/mic.py:71-93 | the read loop, as `Gather`, asks for positive sizes in order that sum to at most the size; on success they sum to exactly the size and the bytes are the device's answers joined in order, none overflowed under `of_exc`; an overflow fault comes exactly from the last piece; the device's read answers used are a prefix |
| Stream.GatherPaced | mycroft_ptt/speech/mic.py:74-88 | the read loop uses a prefix of the availability answers, at least one per piece, and every piece but the last has exactly the size of one of the answers it used, i.e. what the device reported available during this read |
| Stream.GatherFaults | mycroft_ptt/speech/mic.py:80-88 | the read loop fails only for a real reason: `Closed` on a closed device, `Overflow` only under `of_exc`, `Starved` only once the availability or read script has run out |
| Stream.MutableStream.Read | mycroft_ptt/speech/mic.py:60-94 | a non-positive size skips the loop and returns no bytes, or the error `Closed` when the device is gone or closed, since the latency query after the loop raises then; a muted stream returns the muted buffer for a positive size and reads nothing; a missing device is an error; otherwise the result, the device's remaining scripts and the sizes it was asked for are exactly those of `Gather` on the device's scripts before the call; only the scripts and the size log of the device change |
| Audio.Device.GetInputLatency | mycroft_ptt/speech/mic.py:90 | the latency query answers exactly when the device is not closed, and fails with `Closed` once it is |
| Stream.MutableStream.Pass | mycroft_ptt/speech/mic.py:74-88 | one pass of the read loop keeps the read's outcome `Gather` equal to the pieces so far followed by `Gather` on what remains, and logs the size asked of the device |
| Stream.MutableStream.ReadPiece | mycroft_ptt/speech/mic.py:80-88 | one pass of the read loop does to the device exactly what `PollOnce` says: the size asked is `min(available, remaining)`, and nothing is read or logged when that is not positive |
| Stream.MutableStream.Close | mycroft_ptt/speech/mic.py:96-98 | the device is closed and the handle dropped; a missing handle is the error case |
| Stream.MutableStream.IsStopped | mycroft_ptt/speech/mic.py:100-105 | stopped exactly when the device is gone, closed or stopped, since failures count as stopped |
| Stream.MutableStream.StopStream | mycroft_ptt/speech/mic.py:107-108 | stops the device; a missing device is the error case |
| Stream.InitAsWrittenFailsWhenMuted | mycroft_ptt/speech/mic.py:40-46 | the constructor's statements, in the order written, fail exactly when a muted stream is asked for |
| Stream.InitCorrectedCompletes | mycroft_ptt/speech/mic.py:40-46 | with the lock created first, construction always completes and mutes exactly when asked |
| Microphone.MutableMicrophone.constructor | mycroft_ptt/speech/mic.py:112-118 | no stream yet; the mute flag is the one asked for |
| Microphone.MutableMicrophone.Start | mycroft_ptt/speech/mic.py:123-134 | refuses while a stream is open; otherwise opens a fresh device and stream that is muted, and its device stopped, exactly when the flag says so |
| Microphone.MutableMicrophone.Stop | mycroft_ptt/speech/mic.py:139-150 | always ends without a stream; an open device is stopped, if not already, then closed; the flag is kept |
| Microphone.MutableMicrophone.Restart | mycroft_ptt/speech/mic.py:152-155 | the old device is closed and a fresh stream that obeys the kept flag is opened |
| Microphone.MutableMicrophone.Mute | mycroft_ptt/speech/mic.py:157-160 | sets the flag and mutes the open stream, if any, stopping its device |
| Microphone.MutableMicrophone.Unmute | mycroft_ptt/speech/mic.py:162-165 | clears the flag and unmutes the open stream, if any, starting its device |
| Microphone.MutableMicrophone.IsMuted | mycroft_ptt/speech/mic.py:167-168 | answers the flag |
| Endpoint.IncreaseNoise | mycroft_ptt/speech/mic.py:251-254 | the reference definition of `increase_noise`: adds `200 * sec_per_buffer` only while the score is below 25; `NoiseBounds` and `NoiseOvershoots` are its properties |
| Endpoint.DecreaseNoise | mycroft_ptt/speech/mic.py:256-259 | the reference definition of `decrease_noise`: subtracts `100 * sec_per_buffer` only while the score is above 0; `NoiseBounds` is its property |
| Endpoint.AdjustedThreshold | mycroft_ptt/speech/mic.py:448-456 | the reference definition of `_adjust_threshold`'s new threshold; `AdjustedThresholdBetween` and `ThresholdStaysWithin` are its properties |
| Endpoint.Step | mycroft_ptt/speech/mic.py:279-315 | the reference definition of one pass of the recording loop on a chunk's energy and the button's answer; `JudgeChunk` and `TakeChunk` are proved against it, and `StepPressed`, `LoudKeepsThreshold` and `StepSilence` are its properties |
| Endpoint.Run | mycroft_ptt/speech/mic.py:279-315 | the reference definition of the recording loop's state after a sequence of chunks, `Step` applied in order; `RecordPhrase` is proved against it, and `RunCounts`, `ThresholdStaysWithin`, `SilenceIsQuietTime`, `SilenceClosedForm` and `CompletionRule` are its properties |
| Endpoint.StepPressed | mycroft_ptt/speech/mic.py:313-315 | the button only adds to the completion decision of a chunk and changes nothing else |
| Endpoint.RunCounts | mycroft_ptt/speech/mic.py:284-295 | every chunk is counted once; loud chunks are at most all of them |
| Endpoint.NoiseBounds | mycroft_ptt/speech/mic.py:251-259 | the noise score stays within one increment of [0, 25]: in `[-100 * spb, 25 + 200 * spb]` |
| Endpoint.NoiseOvershoots | mycroft_ptt/speech/mic.py:246-254 | with 1024-frame chunks at 16 kHz, two loud chunks take the score to 25.6, above 25 |
| Endpoint.AdjustedThresholdBetween | mycroft_ptt/speech/mic.py:448-456 | a dynamic adjustment on a non-silent chunk lands between the old threshold and `energy * energy_ratio`, strictly nearer the latter; otherwise the threshold stays |
| Endpoint.LoudKeepsThreshold | mycroft_ptt/speech/mic.py:293-298 | loud chunks leave the threshold alone |
| Endpoint.ThresholdStaysWithin | mycroft_ptt/speech/mic.py:291-298 | with a damping in (0, 1), the threshold stays, over any recording, inside every interval that holds its start and every chunk's target |
| Endpoint.SilenceIsQuietTime | mycroft_ptt/speech/mic.py:302-308 | the silence duration is `sec_per_buffer` for each of the last chunks in a row that left the score at or below 0 |
| Endpoint.SilenceClosedForm | mycroft_ptt/speech/mic.py:302-308 | when exactly the last `k` chunks left the score at or below 0, the silence duration is `k` chunks' worth of seconds |
| Endpoint.ChunkTimeIsProduct | mycroft_ptt/speech/mic.py:305 | `k` chunks' worth of seconds is `k * sec_per_buffer` |
| Endpoint.CompletionRule | mycroft_ptt/speech/mic.py:300-315 | a phrase is complete exactly when the button was found after the last chunk, or the score is at or below 0, at least `min_silence_at_end` of quiet chunks in a row ended it, and there were more than `min_loud_chunks` loud chunks or more than `max_chunks_of_silence` chunks |
| Endpoint.PressCompletes | mycroft_ptt/speech/mic.py:313-315 | a button press completes the phrase whatever the audio |
| Endpoint.LoudNeverCompletes | mycroft_ptt/speech/mic.py:291-311 | chunks all louder than the starting threshold, without the button, never complete the phrase and never move the threshold |
| Recognizer.Signals.Check | mycroft_ptt/speech/mic.py:328-337 | a check answers the next scripted answer of that signal, consumes it, and leaves the other signals alone |
| Recognizer.PlayerFor | mycroft_ptt/speech/mic.py:386-393 | the reference definition of the player chosen by the cue's extension; `PlayerForExtension` is its property |
| Recognizer.PlayerForExtension | mycroft_ptt/speech/mic.py:385-393 | `.wav`, `.mp3` and `.ogg` each select their own player; any other file goes to the generic one |
| Recognizer.AfterAfter | mycroft_ptt/speech/mic.py:328-337 | checking a signal `k` times and then `j` times consumes what checking it `k + j` times does |
| Recognizer.AdjustmentsCount | mycroft_ptt/speech/mic.py:374-377 | the adjustments of the first `k` polls of a wait are exactly the polls whose adjust signal was present, plus one when a request was pending, `k > 0` and the first poll found no adjust signal (the pending request then adjusts on that poll); with a pending request and at least one poll, some adjustment is made |
| Recognizer.ButtonChecks | mycroft_ptt/speech/mic.py:332-343 | the reference count of the button answers consumed by polls that found no listen signal: one check, and a second after a present answer |
| Recognizer.ButtonChecksBounds | mycroft_ptt/speech/mic.py:332-343 | each such poll consumes one or two button answers, and exactly one when no answer it could see was present |
| Recognizer.PhraseStep | mycroft_ptt/speech/mic.py:279-315 | one more chunk taken while the rules want more extends what the recording loop keeps: `Taken` grows by it, the rules take one step, and the button's script moves on by one check |
| Recognizer.TakenMeans | mycroft_ptt/speech/mic.py:279-315 | a recording that took these chunks judged each by its energy and the button's answer at that check, started with the wake-word frames, and took each chunk only while the rules still wanted more |
| Recognizer.ResponsiveRecognizer.constructor | mycroft_ptt/speech/mic.py:176-207 | the listener settings are stored and no stop, listen trigger or noise adjustment is pending |
| Recognizer.ResponsiveRecognizer.Stop | mycroft_ptt/speech/mic.py:345-349 | stop is signalled |
| Recognizer.ResponsiveRecognizer.TriggerListen | mycroft_ptt/speech/mic.py:351-354 | the listen trigger is set |
| Recognizer.ResponsiveRecognizer.TriggerAmbientNoiseAdjustment | mycroft_ptt/speech/mic.py:356-358 | an ambient noise adjustment is requested |
| Recognizer.ResponsiveRecognizer.AdjustThreshold | mycroft_ptt/speech/mic.py:448-456 | the threshold becomes `AdjustedThreshold`, whose properties are `Endpoint.AdjustedThresholdBetween` |
| Recognizer.ResponsiveRecognizer.AdjustAmbientNoiseNow | mycroft_ptt/speech/mic.py:360-365 | the pending adjustment request is cleared and the adjustment is logged in the trace |
| Recognizer.ResponsiveRecognizer.RecordSoundChunk | mycroft_ptt/speech/mic.py:209-210 | a missing stream is an error; a muted stream answers its muted buffer; a zero chunk size answers no bytes, or `Closed` when the device is gone or closed; an unmuted stream without a device is an error; an unmuted read on a device returns, and does to the device, what `Gather` says for `CHUNK` frames and `overflow_exc`; the device is not stopped or started; a failure is a real fault: `Closed` only without a stream or device or on a closed device, `Overflow` only under `overflow_exc`, `Starved` only once one of the device's scripts has run out |
| Recognizer.ResponsiveRecognizer.JudgeChunk | mycroft_ptt/speech/mic.py:290-311 | the loop body's judgement of one chunk is exactly `Step` on its energy before the button is checked |
| Recognizer.ResponsiveRecognizer.NextChunk | mycroft_ptt/speech/mic.py:281-284 | the chunk of one pass: the next wake-word frame, leaving the device alone, or one stream read, whose result and effect on the device are `Gather`'s (a zero chunk size on a gone or closed device is the error `Closed`); the device is not stopped or started; a failure is a real fault: `Closed` only without a stream or device or on a closed device, `Overflow` only under `overflow_exc`, `Starved` only once one of the device's scripts has run out |
| Recognizer.ResponsiveRecognizer.TakeChunk | mycroft_ptt/speech/mic.py:286-315 | the rest of one pass of the loop: the chunk is handed to the sink and judged by `Step` on its energy with the button's answer, and the button's script moves on by one check |
| Recognizer.ResponsiveRecognizer.RecordPhrase | mycroft_ptt/speech/mic.py:216-317 | stops within `max_chunks`; the threshold ends at `Run`'s; a returned phrase is one the rules call complete (or at the cap), and is the silence sentinel followed by the chunks taken, which are what `Taken` says; the sink saw every chunk in order; the button was checked once per chunk; only the device's scripts and size log change; a failed phrase is a real fault: `Closed` only without a stream or device or on a closed device, `Overflow` only under `overflow_exc`, `Starved` only once one of the device's scripts has run out |
| Recognizer.ResponsiveRecognizer.IsListenSignaled | mycroft_ptt/speech/mic.py:323-343 | listen when the start signal or the trigger is present, or when the button is seen on two checks in a row; which signals were consumed in each case |
| Recognizer.ResponsiveRecognizer.WaitForListenSignal | mycroft_ptt/speech/mic.py:367-395 | ends on a stop request exactly when stop is signalled, having polled and changed nothing; otherwise it polled `polls` times, consuming one start answer each; no poll but the last found a signal, and a heard signal is the last poll's start answer, the trigger or a press seen on two checks in a row; the polls before the last consumed exactly the button answers `ButtonChecks` counts, one per poll and a second one after a present answer, and the button and adjust scripts moved on by exactly the checks made; the adjustments are those `Adjustments` counts, and clear the pending request; the trace holds them and then the cue, chosen by extension, unless the start-listening script ran dry |
| Recognizer.ResponsiveRecognizer.PlayCue | mycroft_ptt/speech/mic.py:379-393 | the resolved cue file, if any, is played by the player its extension selects, as one trace event |
| Recognizer.ResponsiveRecognizer.WaitPass | mycroft_ptt/speech/mic.py:374-377 | one poll of the wait: the listen check and, when it finds nothing, the ambient noise check, keeping the count of polls, button checks and adjustments that `WaitForListenSignal` states; a poll that finds nothing consumes one button answer, and a second one after a present answer |
| Recognizer.ResponsiveRecognizer.AdjustPass | mycroft_ptt/speech/mic.py:375-377 | the ambient noise check of one poll consumes one adjust answer and adjusts exactly when it was present or a request was pending |
| Recognizer.ResponsiveRecognizer.RecordAndAnnounce | mycroft_ptt/speech/mic.py:435-446 | unmutes the microphone and its stream and starts the device, which is still running at the end; emits `record_begin`, records, and on success emits `record_end` and returns audio with the source's rate and width whose frames are the silence sentinel followed by the chunks taken, which are what `Taken` says; it succeeds exactly when the rules stopped wanting more; the threshold is `Run`'s unless the final adjustment ran; the sink saw every chunk; the trace says what happened in order; a failure is a real fault: `Closed` only without a stream or device or on a closed device, `Overflow` only under `overflow_exc`, `Starved` only once one of the device's scripts has run out |
| Recognizer.ResponsiveRecognizer.BeginRecording | mycroft_ptt/speech/mic.py:436-438 | unmutes the microphone and its open stream, starting its device, keeps the stream and device handles, the device's closed flag and its scripts, and emits `record_begin` |
| Recognizer.ResponsiveRecognizer.FinishRecording | mycroft_ptt/speech/mic.py:442-444 | emits `record_end` and adjusts for ambient noise exactly when configured to; otherwise the threshold stays |
| Recognizer.ResponsiveRecognizer.AwaitSignal | mycroft_ptt/speech/mic.py:430-432 | mutes the microphone and its open stream, stopping its device, keeps the stream and device handles, the device's closed flag and its scripts, waits as `WaitForListenSignal` states, with the button answers its polls consumed counted by `ButtonChecks`, and clears the trigger |
| Recognizer.ResponsiveRecognizer.Listen | mycroft_ptt/speech/mic.py:405-446 | returns no audio exactly when stop was signalled, and then emits nothing; mutes, waits, and clears the trigger; it ends with the microphone and its stream muted and the device stopped when nothing was recorded (stop requested or signals exhausted), and unmuted and running after a recording, whether it succeeded or failed; a recording follows a heard signal and starts from the threshold the wait left and the button script after it; its frames, chunks, samples, threshold and sink are as `RecordAndAnnounce` states; the whole trace of events is in order; the wait's polls consumed the button answers `ButtonChecks` counts; a failure is a real fault: `Closed` only without a stream or device or on a closed device, `Overflow` only under `overflow_exc`, `Starved` only once one of the device's scripts has run out |
| Config.DefaultConfiguration | mycroft_ptt/configuration/__init__.py:5-65 | the built-in defaults are non-empty and hold no empty dictionary at any depth |
| Config.Fallback | mycroft_ptt/configuration/__init__.py:76 | an empty default is replaced by the built-in one and any other is kept |
| Config.Merged | mycroft_ptt/configuration/__init__.py:68-83 | the reference definition of `_merge_defaults` on values; `MergeDefaults` is proved equal to it, and `MergeKeys`, `MergeEntry`, `MergeKeepsBaseLeaves`, `MergeKeepsBaseDicts`, `MergeCoversDefaultPaths`, `MergeSelf` and `MergeIdempotent` are its properties |
| Config.Lookup | mycroft_ptt/configuration/__init__.py:78-80 | the value at a path of keys, following nested dictionaries as `base.get(k)` does at each level; the merge lemmas state their properties through it |
| Config.MergeDefaults | mycroft_ptt/configuration/__init__.py:68-83 | the loop over the default's items, recursing into nested dictionaries, computes `Merged` |
| Config.Settings.Merge | mycroft_ptt/configuration/__init__.py:86-87 | the stored configuration becomes the merge with the built-in defaults, and the call returns the same object |
| Config.MergeKeys | mycroft_ptt/configuration/__init__.py:77-83 | the merged keys are the base's and the default's, no more |
| Config.MergeEntry | mycroft_ptt/configuration/__init__.py:77-83 | two dictionaries are merged recursively; any other base value stays; a missing key takes the default's value |
| Config.MergeKeepsBaseLeaves | mycroft_ptt/configuration/__init__.py:78-82 | every leaf of the base is still there at its path, at every depth |
| Config.MergeKeepsBaseDicts | mycroft_ptt/configuration/__init__.py:78-82 | every dictionary of the base is still a dictionary at its path, with at least its keys |
| Config.MergeCoversDefaultPaths | mycroft_ptt/configuration/__init__.py:76-82 | when the base has no leaf where the default has a dictionary, every path of the default exists after the merge |
| Config.MergeSelf | mycroft_ptt/configuration/__init__.py:77-83 | merging a solid dictionary into itself changes nothing |
| Config.MergeIdempotent | mycroft_ptt/configuration/__init__.py:68-83 | merging the same default twice equals merging once, for an empty or solid default |
| Config.MergeBuiltInIdempotent | mycroft_ptt/configuration/__init__.py:86-87 | re-merging the built-in defaults into any stored configuration changes nothing |
| Config.MergeNotIdempotentOnEmptyNestedDefault | mycroft_ptt/configuration/__init__.py:76-80 | with a default holding an empty nested dictionary, the second merge replaces it by the whole built-in configuration |
| Config.MergeSelfFromEmpty | mycroft_ptt/configuration/__init__.py:76-83 | merging a solid default into an empty dictionary copies it |

## Left out

- PyAudio: the device is an object answering from finite scripts. `pyaudio.PyAudio()`, `terminate()`, the value of `get_input_latency()`, the device index and the format-to-width lookup are not modelled.
- `stop_stream()` and `start_stream()` on a closed device succeed in the model, where PyAudio raises. Through the stream and the microphone a closed device is never reached, since closing drops the handle.
- Once the device's scripts run out, a read or an availability query answers the fault `Starved`. The source would block or keep polling instead.
- `sleep` calls and timing are not modelled. A read that finds nothing available just polls again.
- The latency warning and all logging are not modelled.
- Threads and `read_lock` are not modelled. The lock is held for the whole read loop, so the model reads the flag as fixed during a read and the methods as atomic.
- `check_for_signal` (a file-based signal channel) and its optional age argument are not part of this model. Each signal answers from its own script.
- The listen wait also ends, without the cue, once the start-listening script runs dry (`NoSignal`). The source would keep polling.
- `resolve_resource_file` and the players are not modelled. The resolved cue file is a parameter, and playing a cue is an event in the trace. Failed playback is swallowed in the source and does not show.
- `audioop.rms` is a function parameter `rms`.
- `dynamic_energy_adjustment_damping ** sec_per_buffer` is the parameter `damping`.
- The `int(seconds / sec_per_buffer)` chunk counts are the parameter `ChunkCounts`. Real exponentiation and truncation are not modelled.
- Floating point rounding is not modelled: numbers are exact reals.
- `adjust_for_ambient_noise` is library code. The model sets the threshold to an arbitrary value.
- `sec_to_bytes` is unused by the core and not modelled.
- Reading the listener settings out of `CONFIGURATION` is not modelled. The recognizer's constructor takes the values.
- The data directory creation is not modelled.
- `JsonStorageXDG` loading and `store()` are not modelled. The stored configuration is the `Settings` object's initial entries.
- `expanduser` and `gettempdir` are not modelled: `data_dir` keeps its `~`, and the temporary directory is taken to be `/tmp`.
- The merge writes into nested dictionaries of the base in place. The model works on values, so aliasing between those dictionaries and other references to them is not captured.
- The module-level DEFAULT_CONFIGURATION is passed to the merge functions as the parameter `builtIn`. `Settings.Merge` and `MergeBuiltInIdempotent` apply them to `DefaultConfiguration()`.
- Config.MergeIdempotent: requires the default to be empty or to hold no empty nested dictionary. Without that proviso the property is false, as `MergeNotIdempotentOnEmptyNestedDefault` shows.
- Recognizer.ResponsiveRecognizer.RecordPhrase: does not state that the chunks read from a muted stream are its muted buffer, and does not relate the chunks to the device's scripts across the loop. `NextChunk`, `RecordSoundChunk` and `MutableStream.Read` state what one read returns and does to the device.
- Recognizer.ResponsiveRecognizer.Listen: requires a positive sample rate. The source divides by `SAMPLE_RATE` before muting, so a zero rate raises `ZeroDivisionError` at once and nothing else happens; that error path is not modelled.
- Recognizer.ResponsiveRecognizer.Listen: does not relate the recorded chunks to the device's scripts, for the reason given for `RecordPhrase`, and the threshold each ambient-noise adjustment sets is unknown.

## Findings

| source | as written | input that shows it | evidently intended | confidence | as-written member | corrected member |
|---|---|---|---|---|---|---|
| mycroft_ptt/speech/mic.py:40-46 | `MutableStream.__init__` calls `self.mute()`, which takes `self.read_lock`, before it creates `read_lock` | `MutableStream(device, format, muted=True)`, reached from `MutableMicrophone._start` (and so from `restart`) whenever the microphone is muted; it raises AttributeError | create the lock and the muted buffer before the initial mute | not executed | Stream.InitAsWrittenFailsWhenMuted | Stream.InitCorrectedCompletes |
