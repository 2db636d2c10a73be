/** Configuration values and the recursive "fill in missing defaults" merge
    of mycroft_ptt/configuration/__init__.py. */
module Config {

  /** The non-dictionary values that occur in a JSON configuration. */
  datatype Scalar =
    | Null
    | Bool(b: bool)
    | Int(i: int)
    | Num(r: real)
    | Str(s: string)
    | List(items: seq<Scalar>)

  /** A configuration value: a leaf or a nested dictionary. */
  datatype Value = Leaf(scalar: Scalar) | Dict(entries: map<string, Value>)

  type Dict = map<string, Value>

  /** A dictionary display: the entries in order, a later entry for the
      same key replacing an earlier one. */
  function FromPairs(ps: seq<(string, Value)>): Dict
    decreases |ps|
  {
    if ps == [] then map[] else FromPairs(ps[..|ps| - 1])[ps[|ps| - 1].0 := ps[|ps| - 1].1]
  }

  /** The built-in DEFAULT_CONFIGURATION. Of the two paths computed at
      import time, `data_dir` keeps its unexpanded `~` and `signal_folder`
      takes the temporary directory to be `/tmp`. */
  function DefaultConfiguration(): (d: Dict)
    ensures Solid(d)
  {
    ListenerDefaultsSolid();
    PlaybackDefaultsSolid();
    SttDefaultsSolid();
    FromPairsSolid([("module", Leaf(Str("responsive_voice")))]);
    FromPairsSolid(DefaultEntries());
    FromPairs(DefaultEntries())
  }

  function DefaultEntries(): seq<(string, Value)> {
    [
      ("data_dir", Leaf(Str("~/jarbasHiveMind/recordings"))),
      ("host", Leaf(Str("0.0.0.0"))),
      ("lang", Leaf(Str("en-us"))),
      ("listener", Dict(ListenerDefaults())),
      ("playback", Dict(PlaybackDefaults())),
      ("log_blacklist", Leaf(List([]))),
      ("port", Leaf(Int(5678))),
      ("stt", Dict(SttDefaults())),
      ("tts", Dict(FromPairs([("module", Leaf(Str("responsive_voice")))])))
    ]
  }

  function ListenerDefaults(): Dict {
    FromPairs(ListenerEntries())
  }

  function ListenerEntries(): seq<(string, Value)> {
    [
      ("record_utterances", Leaf(Bool(false))),
      ("channels", Leaf(Int(1))),
      ("sample_rate", Leaf(Int(16000))),
      ("energy_ratio", Leaf(Num(1.5))),
      ("multiplier", Leaf(Num(1.0))),
      ("min_loud_sec", Leaf(Num(0.7))),
      ("min_silence_at_end", Leaf(Num(0.3))),
      ("recording_timeout", Leaf(Int(10))),
      ("recording_timeout_with_silence", Leaf(Int(3))),
      ("sec_between_signal_checks", Leaf(Num(0.2))),
      ("auto_ambient_noise_adjustment", Leaf(Bool(true))),
      ("ambient_noise_adjustment_time", Leaf(Num(0.5))),
      ("signal_folder", Leaf(Str("/tmp/hivemind/ipc"))),
      ("listen_sound", Leaf(Str("snd/start_listening.wav"))),
      ("error_sound", Leaf(Str("snd/listening_error.mp3")))
    ]
  }

  function PlaybackDefaults(): Dict {
    FromPairs(PlaybackEntries())
  }

  function PlaybackEntries(): seq<(string, Value)> {
    [
      ("play_wav_cmd", Leaf(Str("aplay %1"))),
      ("play_mp3_cmd", Leaf(Str("mpg123 %1"))),
      ("play_ogg_cmd", Leaf(Str("ogg123 -q %1"))),
      ("play_fallback_cmd", Leaf(Str("play %1")))
    ]
  }

  function SttDefaults(): Dict {
    FromPairs(SttEntries())
  }

  function SttEntries(): seq<(string, Value)> {
    [
      ("deepspeech_server", Dict(FromPairs([("uri", Leaf(Str("http://localhost:8080/stt")))]))),
      ("deepspeech_stream_server", Dict(FromPairs([
        ("stream_uri", Leaf(Str("http://localhost:8080/stt?format=16K_PCM16")))]))),
      ("kaldi", Dict(FromPairs([("uri", Leaf(Str("http://localhost:8080/client/dynamic/recognize")))]))),
      ("kaldi_vosk", Dict(FromPairs([("model", Leaf(Str("/path/to/model/folder")))]))),
      ("kaldi_vosk_streaming", Dict(FromPairs([("model", Leaf(Str("/path/to/model/folder")))]))),
      ("deepspeech", Dict(FromPairs([
        ("model", Leaf(Str("path/to/model.pbmm"))),
        ("scorer", Leaf(Str("path/to/model.scorer")))]))),
      ("deepspeech_streaming", Dict(FromPairs([
        ("model", Leaf(Str("path/to/model.pbmm"))),
        ("scorer", Leaf(Str("path/to/model.scorer")))]))),
      ("module", Leaf(Str("google")))
    ]
  }

  /** A dictionary that is non-empty and holds no empty dictionary at any
      depth: Python's `default or DEFAULT_CONFIGURATION` keeps such a default
      as it is, at every level of the recursion. */
  predicate Solid(d: Dict)
    decreases Dict(d)
  {
    d != map[] && forall k :: k in d && d[k].Dict? ==> Solid(d[k].entries)
  }

  /** How far a default is from being solid; part of the termination
      measure of the merge (an empty default is swapped for the built-in one,
      which is solid). */
  function Grade(d: Dict): nat {
    if Solid(d) then 0 else 1
  }

  /** Every value of a dictionary display is one of its entries. */
  lemma {:induction false} FromPairsValues(ps: seq<(string, Value)>, k: string)
    requires k in FromPairs(ps)
    ensures exists i :: 0 <= i < |ps| && ps[i] == (k, FromPairs(ps)[k])
    decreases |ps|
  {
    var last := ps[|ps| - 1];
    if k != last.0 {
      FromPairsValues(ps[..|ps| - 1], k);
      var i :| 0 <= i < |ps| - 1 && ps[..|ps| - 1][i] == (k, FromPairs(ps[..|ps| - 1])[k]);
      assert ps[i] == (k, FromPairs(ps)[k]);
    } else {
      assert ps[|ps| - 1] == (k, FromPairs(ps)[k]);
    }
  }

  /** A non-empty display whose dictionary entries are solid is solid. */
  lemma FromPairsSolid(ps: seq<(string, Value)>)
    requires ps != []
    requires forall i :: 0 <= i < |ps| && ps[i].1.Dict? ==> Solid(ps[i].1.entries)
    ensures Solid(FromPairs(ps))
  {
    var m := FromPairs(ps);
    assert ps[|ps| - 1].0 in m;
    forall k | k in m && m[k].Dict?
      ensures Solid(m[k].entries)
    {
      FromPairsValues(ps, k);
    }
  }

  lemma ListenerDefaultsSolid()
    ensures Solid(ListenerDefaults())
  {
    FromPairsSolid(ListenerEntries());
  }

  lemma PlaybackDefaultsSolid()
    ensures Solid(PlaybackDefaults())
  {
    FromPairsSolid(PlaybackEntries());
  }

  lemma SttDefaultsSolid()
    ensures Solid(SttDefaults())
  {
    FromPairsSolid([("uri", Leaf(Str("http://localhost:8080/stt")))]);
    FromPairsSolid([("stream_uri", Leaf(Str("http://localhost:8080/stt?format=16K_PCM16")))]);
    FromPairsSolid([("uri", Leaf(Str("http://localhost:8080/client/dynamic/recognize")))]);
    FromPairsSolid([("model", Leaf(Str("/path/to/model/folder")))]);
    FromPairsSolid([("model", Leaf(Str("path/to/model.pbmm"))), ("scorer", Leaf(Str("path/to/model.scorer")))]);
    FromPairsSolid(SttEntries());
  }

  /** `default or DEFAULT_CONFIGURATION`: a falsy default (None or an empty
      dictionary, both written here as the empty map) is replaced by the
      built-in one. The merge and its properties take the module-level
      DEFAULT_CONFIGURATION as the parameter `builtIn` and need of it only
      that it is solid, which `DefaultConfiguration()` is. */
  function Fallback(builtIn: Dict, default: Dict): (d: Dict)
    requires Solid(builtIn)
    ensures d != map[]
    ensures default != map[] ==> d == default
    ensures default == map[] ==> d == builtIn
  {
    if default == map[] then builtIn else default
  }

  /** A nested dictionary of the built-in default is solid, so the merge's
      termination measure drops when it descends into one. */
  lemma FallbackChildGrade(builtIn: Dict, default: Dict, k: string)
    requires Solid(builtIn)
    requires k in Fallback(builtIn, default) && Fallback(builtIn, default)[k].Dict?
    ensures default == map[] ==> Grade(Fallback(builtIn, default)[k].entries) == 0
  {
  }

  /** True when both the base entry and the default entry for `k` are
      dictionaries, the one case in which the merge recurses. */
  predicate BothDicts(base: Dict, d: Dict, k: string) {
    k in base && k in d && base[k].Dict? && d[k].Dict?
  }

  /** The dictionary `base` becomes after `_merge_defaults(base, default)`. */
  function Merged(builtIn: Dict, base: Dict, default: Dict): Dict
    requires Solid(builtIn)
    decreases Grade(default), Dict(default)
  {
    var d := Fallback(builtIn, default);
    map k | k in base.Keys + d.Keys ::
      if BothDicts(base, d, k) then Dict(Merged(builtIn, base[k].entries, d[k].entries))
      else if k in base then base[k]
      else d[k]
  }

  /** The merge as the source performs it: a loop over the items of the
      (fallback) default that writes into `base` one key at a time and calls
      itself on nested dictionaries. */
  method MergeDefaults(builtIn: Dict, base: Dict, default: Dict) returns (r: Dict)
    requires Solid(builtIn)
    ensures r == Merged(builtIn, base, default)
    decreases Grade(default), Dict(default)
  {
    var d := Fallback(builtIn, default);
    ghost var spec := Merged(builtIn, base, default);
    r := base;
    var todo := d.Keys;
    while todo != {}
      invariant todo <= d.Keys
      invariant r.Keys == base.Keys + (d.Keys - todo)
      invariant forall k :: k in r ==> r[k] == if k in todo || k !in d then base[k] else spec[k]
      decreases todo
    {
      var k :| k in todo;
      MergeEntry(builtIn, base, default, k);
      var dv := d[k];
      if k in base && dv.Dict? && base[k].Dict? {
        FallbackChildGrade(builtIn, default, k);
        var child := MergeDefaults(builtIn, base[k].entries, dv.entries);
        r := r[k := Dict(child)];
      } else if k !in base {
        r := r[k := dv];
      }
      todo := todo - {k};
    }
    assert r.Keys == spec.Keys;
  }

  /** The configuration object the source merges into (a dictionary that is
      updated in place and handed back to the caller). */
  class Settings {
    var entries: Dict

    constructor (initial: Dict)
      ensures entries == initial
    {
      entries := initial;
    }

    /** `CONFIGURATION = _merge_defaults(CONFIGURATION)`: the call returns
        the very object it was given, now holding the merged entries. */
    method Merge(default: Dict) returns (same: Settings)
      modifies this
      ensures same == this
      ensures entries == Merged(DefaultConfiguration(), old(entries), default)
    {
      entries := MergeDefaults(DefaultConfiguration(), entries, default);
      same := this;
    }
  }

  // ---------------------------------------------------------------------
  // Properties of the merge, one level deep.

  /** Every key of the (fallback) default is present after the merge, and
      no other key than those of base and default appears. */
  lemma MergeKeys(builtIn: Dict, base: Dict, default: Dict)
    requires Solid(builtIn)
    ensures Merged(builtIn, base, default).Keys == base.Keys + Fallback(builtIn, default).Keys
  {
  }

  /** A key of base is never overwritten unless both values are
      dictionaries, in which case the value is the recursive merge; a key
      that only the default has takes the default's value. */
  lemma MergeEntry(builtIn: Dict, base: Dict, default: Dict, k: string)
    requires Solid(builtIn)
    requires k in base || k in Fallback(builtIn, default)
    ensures var d := Fallback(builtIn, default);
      var r := Merged(builtIn, base, default);
      && k in r
      && (BothDicts(base, d, k) ==> r[k] == Dict(Merged(builtIn, base[k].entries, d[k].entries)))
      && (k in base && !BothDicts(base, d, k) ==> r[k] == base[k])
      && (k !in base ==> r[k] == d[k])
  {
  }

  // ---------------------------------------------------------------------
  // Properties at every depth.

  /** The value found by following the keys of `path` from `d`, if any. */
  function Lookup(d: Dict, path: seq<string>): (v: Option<Value>)
    decreases |path|
  {
    if path == [] then Some(Dict(d))
    else if path[0] !in d then None
    else if |path| == 1 then Some(d[path[0]])
    else match d[path[0]]
      case Leaf(_) => None
      case Dict(child) => Lookup(child, path[1..])
  }

  datatype Option<T> = None | Some(value: T)

  /** Nothing in base is lost or changed: every leaf value that base holds at
      some path is still there, at every depth, after the merge. */
  lemma {:induction false} MergeKeepsBaseLeaves(builtIn: Dict, base: Dict, default: Dict, path: seq<string>)
    requires Solid(builtIn)
    requires Lookup(base, path).Some? && Lookup(base, path).value.Leaf?
    ensures Lookup(Merged(builtIn, base, default), path) == Lookup(base, path)
    decreases |path|
  {
    var d := Fallback(builtIn, default);
    var k := path[0];
    if |path| > 1 {
      assert base[k].Dict?;
      if BothDicts(base, d, k) {
        MergeKeepsBaseLeaves(builtIn, base[k].entries, d[k].entries, path[1..]);
      }
    }
  }

  /** Every dictionary of base stays a dictionary at the same place after the
      merge, so no key of base disappears at any depth. */
  lemma {:induction false} MergeKeepsBaseDicts(builtIn: Dict, base: Dict, default: Dict, path: seq<string>)
    requires Solid(builtIn)
    requires Lookup(base, path).Some? && Lookup(base, path).value.Dict?
    ensures Lookup(Merged(builtIn, base, default), path).Some?
    ensures Lookup(Merged(builtIn, base, default), path).value.Dict?
    ensures Lookup(base, path).value.entries.Keys <= Lookup(Merged(builtIn, base, default), path).value.entries.Keys
    decreases |path|
  {
    var d := Fallback(builtIn, default);
    if |path| > 0 {
      var k := path[0];
      assert k in base;
      if |path| > 1 {
        assert base[k].Dict?;
      }
      if BothDicts(base, d, k) {
        MergeKeepsBaseDicts(builtIn, base[k].entries, d[k].entries, path[1..]);
      }
    }
  }

  /** Base agrees with the default on which entries are dictionaries: where
      the default holds a dictionary, base holds none or a dictionary too. */
  predicate Conforms(builtIn: Dict, base: Dict, default: Dict)
    requires Solid(builtIn)
    decreases Grade(default), Dict(default)
  {
    var d := Fallback(builtIn, default);
    forall k :: k in d && k in base && d[k].Dict? ==>
      base[k].Dict? && Conforms(builtIn, base[k].entries, d[k].entries)
  }

  /** Completeness at every depth: when base does not hold a leaf where the
      default holds a dictionary, every path of the default exists after the
      merge. */
  lemma {:induction false} MergeCoversDefaultPaths(builtIn: Dict, base: Dict, default: Dict, path: seq<string>)
    requires Solid(builtIn)
    requires Conforms(builtIn, base, default)
    requires Lookup(Fallback(builtIn, default), path).Some?
    ensures Lookup(Merged(builtIn, base, default), path).Some?
    decreases |path|
  {
    var d := Fallback(builtIn, default);
    if |path| > 1 {
      var k := path[0];
      assert d[k].Dict?;
      if k in base {
        assert BothDicts(base, d, k);
        var child := d[k].entries;
        assert Lookup(child, path[1..]).Some?;
        if child == map[] {
          assert false;
        }
        MergeCoversDefaultPaths(builtIn, base[k].entries, child, path[1..]);
      }
    }
  }

  // ---------------------------------------------------------------------
  // Idempotence.

  /** Merging a solid dictionary into itself changes nothing. */
  lemma {:induction false} MergeSelf(builtIn: Dict, d: Dict)
    requires Solid(builtIn)
    requires Solid(d)
    ensures Merged(builtIn, d, d) == d
    decreases Dict(d)
  {
    var r := Merged(builtIn, d, d);
    forall k | k in d
      ensures r[k] == d[k]
    {
      if d[k].Dict? {
        MergeSelf(builtIn, d[k].entries);
      }
    }
  }

  /** Merging the same defaults twice gives the result of merging once,
      provided the default holds no nested empty dictionary (which the
      built-in default does not). */
  lemma {:induction false} MergeIdempotent(builtIn: Dict, base: Dict, default: Dict)
    requires Solid(builtIn)
    requires default == map[] || Solid(default)
    ensures Merged(builtIn, Merged(builtIn, base, default), default) == Merged(builtIn, base, default)
    decreases Grade(default), Dict(default)
  {
    var d := Fallback(builtIn, default);
    var once := Merged(builtIn, base, default);
    var twice := Merged(builtIn, once, default);
    forall k | k in once
      ensures k in twice && twice[k] == once[k]
    {
      if BothDicts(base, d, k) {
        MergeIdempotent(builtIn, base[k].entries, d[k].entries);
      } else if k !in base && d[k].Dict? {
        MergeSelf(builtIn, d[k].entries);
      }
    }
  }

  /** Re-merging the built-in defaults (the call the program makes at start
      up) is idempotent for every stored configuration. */
  lemma MergeBuiltInIdempotent(base: Dict)
    ensures var c := DefaultConfiguration();
      Merged(c, Merged(c, base, map[]), map[]) == Merged(c, base, map[])
  {
    MergeIdempotent(DefaultConfiguration(), base, map[]);
  }

  /** Without the proviso, idempotence fails: an empty nested dictionary in
      the default is copied into base by the first merge and then, being
      falsy, replaced by the whole built-in configuration by the second. */
  lemma MergeNotIdempotentOnEmptyNestedDefault(builtIn: Dict)
    requires Solid(builtIn)
    ensures var d := map["a" := Dict(map[])];
      Merged(builtIn, map[], d) == d
      && Merged(builtIn, Merged(builtIn, map[], d), d) == map["a" := Dict(builtIn)]
  {
    var d := map["a" := Dict(map[])];
    assert "a" in d;
    assert Merged(builtIn, map[], d).Keys == d.Keys;
    assert Merged(builtIn, map[], d) == d;
    assert Merged(builtIn, map[], map[]) == builtIn by {
      MergeSelfFromEmpty(builtIn, builtIn);
    }
    assert Merged(builtIn, d, d)["a"] == Dict(Merged(builtIn, map[], map[]));
  }

  /** Merging a solid default into an empty dictionary copies it. */
  lemma {:induction false} MergeSelfFromEmpty(builtIn: Dict, d: Dict)
    requires Solid(builtIn)
    requires Solid(d)
    ensures Merged(builtIn, map[], d) == d
  {
    var r := Merged(builtIn, map[], d);
    assert r.Keys == d.Keys;
  }
}
