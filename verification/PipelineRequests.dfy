/**
 * The requests that use the resident media pipeline cache, in runtime/werk_media_companion.py: what each leaves in the
 * cache, and that what a Diffusers request is told does not depend on what the cache holds.
 */
module PipelineRequests {
  import opened Common
  import opened PipelineConfiguration
  import opened PipelineVerdicts
  import opened RecencyList
  import opened PipelineCache

  /* ---------- What the cache may be trusted for ---------- */

  /** An entry is of its key's kind, and carries what configuring finds for every request with that key. */
  ghost predicate SoundEntry(w: World, key: Key, e: Entry) {
    match key
    case AudioKey(_, _, _, _, _, _) => e.AudioEntry?
    case DiffusersKey(_, _, _, _, _, _, _, _, _, _, _, _, _) =>
      && e.DiffusersEntry? && e.configuration.Some? && e.warnings == []
      && forall r: Request :: CacheKey(r) == key ==> Configured(w, r) == Ok(e.configuration.value)
  }

  ghost predicate Sound(w: World, entries: map<Key, Entry>) {
    forall k: Key :: k in entries ==> SoundEntry(w, k, entries[k])
  }

  /** Between requests: nothing is in flight, so every loaded pipeline is resident or has been cleaned. */
  ghost predicate Settled(cache: DiffusersPipelineCache, w: World)
    reads cache, cache.device
  {
    cache.Valid() && cache.InFlight() == {} && Sound(w, cache.entries)
  }

  lemma ConfiguredEntryIsSound(w: World, r: Request, e: Entry)
    requires e.DiffusersEntry? && e.configuration.Some? && e.warnings == []
    requires Configured(w, r) == Ok(e.configuration.value)
    ensures SoundEntry(w, CacheKey(r), e)
  {
    forall q: Request | CacheKey(q) == CacheKey(r) ensures Configured(w, q) == Ok(e.configuration.value) {
      EqualKeysConfigureAlike(w, r, q);
    }
  }

  lemma SoundAfterPut(w: World, entries: map<Key, Entry>, key: Key, e: Entry, order: seq<Key>)
    requires Sound(w, entries) && SoundEntry(w, key, e)
    ensures Sound(w, Only(entries[key := e], order))
  {
  }

  /* ---------- Loading ---------- */

  /** How loading goes besides what the files decide: out of memory, or the device fails when it is all done. */
  datatype Loading = LoaderFails | DeviceFails | Loads

  /** What stops a load whose configuration comes to `v`. */
  function LoadError<T>(loading: Loading, v: Result<T, Failure>): Option<Failure> {
    if loading == LoaderFails then Some(ModelLoadFailed)
    else if v.Err? then Some(v.error)
    else if loading == DeviceFails then Some(DeviceFailed)
    else None
  }

  /** Configures a pipeline that has been loaded: `configure_diffusers_pipeline` and `apply_loras`. */
  method ConfigureLoaded(w: World, r: Request, guard: ExplicitParameterGuard, outcome: DiffusersConfigurationOutcome?)
    returns (result: Result<(Option<Configuration>, seq<string>), Failure>)
    requires w.loads(SourceOf(r)) && (outcome != null ==> outcome.Valid() && outcome.Findings() == [])
    modifies guard, outcome
    ensures outcome == null ==>
      match Uncached(w, r, Session(old(guard.Value()), []))
      case Ok(s) => guard.Value() == s.guard && result == Ok((None, s.warnings))
      case Err(e) => result == Err(e)
    ensures outcome != null ==> guard.Value() == old(guard.Value())
    ensures outcome != null ==>
      match Configured(w, r)
      case Ok(c) => result == Ok((Some(c), []))
      case Err(e) => result == Err(e)
  {
    var source := SourceOf(r);
    var placed, warnings := ConfigureDiffusersPipeline(w.hooks(source), r, guard, outcome, []);
    if placed.Err? {
      return Err(placed.error);
    }
    VaePathsAreNotLoras(w.hooks(source), r);
    var failure;
    failure, warnings := ApplyLoras(w, source, r.loras, guard, outcome, warnings);
    if failure.Some? {
      return Err(failure.value);
    }
    return Ok((if outcome == null then None else Some(Configuration(placed.value, outcome.Findings())), warnings));
  }

  /** The part of `prepare_diffusers_pipeline` that loads and configures, and cleans up when that fails. */
  method LoadAndConfigure(cache: DiffusersPipelineCache, w: World, r: Request, guard: ExplicitParameterGuard,
                          outcome: DiffusersConfigurationOutcome?, loading: Loading)
    returns (result: Result<Entry, Failure>)
    requires cache.Valid() && cache.InFlight() == {} && |cache.order| < Max(1, cache.maxSize)
    requires outcome != null ==> outcome.Valid() && outcome.Findings() == []
    modifies cache.device, guard, outcome
    ensures cache.Valid()
    ensures cache.InFlight() == if result.Ok? then {result.value.pipeline} else {}
    ensures result.Ok? ==> result.value.DiffusersEntry?
    ensures outcome == null ==>
      var v := Uncached(w, r, Session(old(guard.Value()), []));
      && LoadError(loading, v) == (if result.Ok? then None else Some(result.error))
      && (result.Ok? ==>
            && guard.Value() == v.value.guard && result.value.warnings == v.value.warnings
            && result.value.configuration == None)
    ensures outcome != null ==>
      var v := Configured(w, r);
      && guard.Value() == old(guard.Value())
      && LoadError(loading, v) == (if result.Ok? then None else Some(result.error))
      && (result.Ok? ==> result.value.configuration == Some(v.value) && result.value.warnings == [])
  {
    if loading == LoaderFails || !w.loads(SourceOf(r)) {
      return Err(ModelLoadFailed);
    }
    var pipeline := cache.LoadInFlight();
    var configured := ConfigureLoaded(w, r, guard, outcome);
    if configured.Err? || loading == DeviceFails {
      cache.CleanInFlight(pipeline);
      return Err(if configured.Err? then configured.error else DeviceFailed);
    }
    return Ok(DiffusersEntry(pipeline, configured.value.0, configured.value.1));
  }

  /** The order in which the slots stand after a use of `key`. */
  ghost function Touched(order: seq<Key>, key: Key, maxSize: nat): seq<Key> {
    Newest(Drop(order, key) + [key], maxSize)
  }

  lemma RoomIsMade(order: seq<Key>, key: Key, maxSize: nat)
    requires maxSize > 0 && key !in order
    ensures Touched(Newest(order, maxSize - 1), key, maxSize) == Touched(order, key, maxSize)
  {
    DropIs(order, key);
    DropIs(Newest(order, maxSize - 1), key);
  }

  lemma TouchedWithin(order: seq<Key>, key: Key, maxSize: nat)
    requires |Drop(order, key)| < maxSize
    ensures Touched(order, key, maxSize) == Drop(order, key) + [key]
  {
  }

  lemma TouchedHolds(order: seq<Key>, key: Key, maxSize: nat)
    requires maxSize > 0
    ensures key in Touched(order, key, maxSize)
  {
    var all := Drop(order, key) + [key];
    assert Newest(all, maxSize)[|Newest(all, maxSize)| - 1] == key;
  }

  lemma OnlyOf(entries: map<Key, Entry>, key: Key, e: Entry, order: seq<Key>)
    requires key in order
    ensures var after := Only(entries[key := e], order); key in after && after[key] == e
  {
  }

  lemma SoundOnly(w: World, entries: map<Key, Entry>, order: seq<Key>)
    requires Sound(w, entries)
    ensures Sound(w, Only(entries, order))
  {
  }

  /** A hit: the entry becomes the youngest. */
  method Reuse(cache: DiffusersPipelineCache, w: World, key: Key) returns (entry: Option<Entry>)
    requires Settled(cache, w)
    modifies cache`order, cache`uses
    ensures Settled(cache, w)
    ensures entry == if key in cache.entries then Some(cache.entries[key]) else None
    ensures entry.Some? ==> SoundEntry(w, key, entry.value)
    ensures entry.Some? ==>
      cache.order == Touched(old(cache.order), key, cache.maxSize) && cache.uses == old(cache.uses) + [key]
    ensures entry.None? ==> cache.order == old(cache.order) && cache.uses == old(cache.uses)
  {
    if key in cache.entries {
      ListedWithout(cache.order, cache.entries, key);
      TouchedWithin(cache.order, key, cache.maxSize);
    }
    entry := cache.Get(key);
  }

  /** What the cache holds after a new pipeline went in, or after making room for one that failed to load. */
  ghost predicate Stored(cache: DiffusersPipelineCache, was: seq<Key>, used: seq<Key>, key: Key,
                         result: Result<Entry, Failure>)
    reads cache
  {
    match result
    case Ok(entry) =>
      && cache.order == Touched(was, key, cache.maxSize) && cache.uses == used + [key]
      && key in cache.entries && cache.entries[key] == entry
    case Err(_) =>
      cache.maxSize > 0 && cache.order == Newest(was, cache.maxSize - 1) && cache.uses == used
  }

  method Store(cache: DiffusersPipelineCache, w: World, key: Key, entry: Entry)
    requires cache.Valid() && Sound(w, cache.entries) && cache.maxSize > 0
    requires cache.InFlight() == {entry.pipeline} && SoundEntry(w, key, entry)
    modifies cache, cache.device
    ensures Settled(cache, w) && Stored(cache, old(cache.order), old(cache.uses), key, Ok(entry))
  {
    ghost var before := cache.entries;
    var _ := cache.Put(key, entry);
    SoundAfterPut(w, before, key, entry, cache.order);
    TouchedHolds(old(cache.order), key, cache.maxSize);
    OnlyOf(before, key, entry, cache.order);
  }

  /** Makes room for a pipeline that is about to be loaded. */
  method MakeRoom(cache: DiffusersPipelineCache, w: World, key: Key)
    requires Settled(cache, w) && cache.maxSize > 0 && key !in cache.entries
    modifies cache`order, cache`entries, cache.device
    ensures Settled(cache, w) && |cache.order| < cache.maxSize && key !in cache.entries
    ensures cache.order == Newest(old(cache.order), cache.maxSize - 1)
    ensures Touched(cache.order, key, cache.maxSize) == Touched(old(cache.order), key, cache.maxSize)
  {
    RoomIsMade(cache.order, key, cache.maxSize);
    cache.PrepareForLoad(key);
    SoundOnly(w, old(cache.entries), cache.order);
  }

  /** A miss in an enabled cache. */
  method LoadIntoCache(cache: DiffusersPipelineCache, w: World, r: Request, guard: ExplicitParameterGuard,
                       loading: Loading)
    returns (result: Result<Entry, Failure>)
    requires Settled(cache, w) && cache.maxSize > 0 && CacheKey(r) !in cache.entries
    modifies cache, cache.device, guard
    ensures Settled(cache, w) && guard.Value() == old(guard.Value())
    ensures result.Ok? ==> SoundEntry(w, CacheKey(r), result.value)
    ensures LoadError(loading, Configured(w, r)) == if result.Ok? then None else Some(result.error)
    ensures Stored(cache, old(cache.order), old(cache.uses), CacheKey(r), result)
  {
    MakeRoom(cache, w, CacheKey(r));
    var outcome := new DiffusersConfigurationOutcome();
    result := LoadAndConfigure(cache, w, r, guard, outcome, loading);
    if result.Ok? {
      ConfiguredEntryIsSound(w, r, result.value);
      Store(cache, w, CacheKey(r), result.value);
    }
  }

  /** `prepare_diffusers_pipeline`. */
  method PrepareDiffusersPipeline(cache: DiffusersPipelineCache, w: World, r: Request, guard: ExplicitParameterGuard,
                                  loading: Loading)
    returns (result: Result<Entry, Failure>, hit: bool)
    requires Settled(cache, w)
    modifies cache, cache.device, guard
    ensures cache.Valid() && Sound(w, cache.entries)
    ensures cache.InFlight() == if result.Ok? && cache.maxSize == 0 then {result.value.pipeline} else {}
    ensures hit == (CacheKey(r) in old(cache.entries))
    ensures hit ==> result == Ok(old(cache.entries)[CacheKey(r)]) && cache.entries == old(cache.entries)
    ensures cache.maxSize > 0 ==> guard.Value() == old(guard.Value())
    ensures cache.maxSize > 0 && result.Ok? ==> SoundEntry(w, CacheKey(r), result.value)
    ensures cache.maxSize > 0 && !hit ==>
      LoadError(loading, Configured(w, r)) == if result.Ok? then None else Some(result.error)
    ensures cache.maxSize > 0 ==> Stored(cache, old(cache.order), old(cache.uses), CacheKey(r), result)
    ensures cache.maxSize == 0 ==>
      var v := Uncached(w, r, Session(old(guard.Value()), []));
      && LoadError(loading, v) == (if result.Ok? then None else Some(result.error))
      && (result.Ok? ==> guard.Value() == v.value.guard && result.value.DiffusersEntry?
                         && result.value.warnings == v.value.warnings && result.value.configuration == None)
  {
    hit := false;
    if cache.maxSize > 0 {
      var entry := Reuse(cache, w, CacheKey(r));
      if entry.Some? {
        return Ok(entry.value), true;
      }
      result := LoadIntoCache(cache, w, r, guard, loading);
    } else {
      result := LoadAndConfigure(cache, w, r, guard, null, loading);
    }
  }

  /** What becomes of a request once its pipeline is ready: turned down before the call, failed in it, or served. */
  datatype Call = TurnedDown | Raised | Returned

  function Answer(call: Call, warnings: seq<string>): Result<seq<string>, Failure> {
    match call
    case TurnedDown => Err(InvalidCall)
    case Raised => Err(ExecutionFailed)
    case Returned => Ok(warnings)
  }

  /** The request ends as the verdict `v` on its configuration and the call itself say. */
  ghost predicate EndsAs(guard: Guard, result: Result<seq<string>, Failure>, v: Result<Session, Failure>, call: Call) {
    match v
    case Ok(s) => guard == s.guard && result == Answer(call, s.warnings)
    case Err(e) => result == Err(e)
  }

  /** The part of `execute_prepared_diffusers_pipeline` up to and including the call. */
  method ExecutePrepared(cache: DiffusersPipelineCache, w: World, key: Key, entry: Entry,
                         guard: ExplicitParameterGuard, call: Call)
    returns (result: Result<seq<string>, Failure>)
    requires cache.Valid() && Sound(w, cache.entries) && entry.DiffusersEntry?
    requires cache.maxSize == 0 ==> key !in cache.entries
    modifies cache`order, cache`entries, cache.device, guard
    ensures cache.Valid() && Sound(w, cache.entries) && cache.InFlight() == old(cache.InFlight())
    ensures var start := Session(old(guard.Value()), entry.warnings);
      var judged := JudgeAll(start, if entry.configuration.Some? then entry.configuration.value.findings else []);
      && EndsAs(guard.Value(), result, judged, call)
      && (if call == Raised && judged.Ok?
          then cache.order == Drop(old(cache.order), key) && cache.entries == old(cache.entries) - {key}
          else cache.order == old(cache.order) && cache.entries == old(cache.entries))
  {
    DropIs(cache.order, key);
    var failure, warnings := None, entry.warnings;
    if entry.configuration.Some? {
      failure, warnings := ReplayDiffusersConfiguration(entry.configuration.value.findings, guard, warnings);
    }
    if failure.Some? {
      return Err(failure.value);
    }
    if call == Raised && cache.maxSize > 0 {
      var _ := cache.Evict(key);
    }
    result := Answer(call, warnings);
  }

  /** A request with a cache to use. */
  method ExecuteCached(cache: DiffusersPipelineCache, w: World, r: Request, guard: ExplicitParameterGuard,
                       loading: Loading, call: Call)
    returns (result: Result<seq<string>, Failure>)
    requires Settled(cache, w) && cache.maxSize > 0
    modifies cache, cache.device, guard
    ensures Settled(cache, w)
    ensures CacheKey(r) in old(cache.entries) || loading == Loads ==>
      EndsAs(guard.Value(), result, Replayed(w, r, Session(old(guard.Value()), [])), call)
    ensures CacheKey(r) !in old(cache.entries) && LoadError(loading, Configured(w, r)).Some? ==>
      result == Err(LoadError(loading, Configured(w, r)).value)
    ensures result.Ok? ==>
      && cache.order == Touched(old(cache.order), CacheKey(r), cache.maxSize)
      && cache.uses == old(cache.uses) + [CacheKey(r)]
    ensures CacheKey(r) in old(cache.entries) ==>
      var raised := call == Raised && Replayed(w, r, Session(old(guard.Value()), [])).Ok?;
      cache.entries == if raised then old(cache.entries) - {CacheKey(r)} else old(cache.entries)
  {
    var entry, hit := PrepareDiffusersPipeline(cache, w, r, guard, loading);
    if entry.Err? {
      return Err(entry.error);
    }
    assert Configured(w, r) == Ok(entry.value.configuration.value);
    result := ExecutePrepared(cache, w, CacheKey(r), entry.value, guard, call);
  }

  /** A request that loads for itself alone: its pipeline is cleaned up however it ends. */
  method ExecuteUncached(cache: DiffusersPipelineCache, w: World, r: Request, guard: ExplicitParameterGuard,
                         loading: Loading, call: Call)
    returns (result: Result<seq<string>, Failure>)
    requires Settled(cache, w) && cache.maxSize == 0
    modifies cache, cache.device, guard
    ensures Settled(cache, w)
    ensures var v := Uncached(w, r, Session(old(guard.Value()), []));
      && (loading == Loads ==> EndsAs(guard.Value(), result, v, call))
      && (LoadError(loading, v).Some? ==> result == Err(LoadError(loading, v).value))
  {
    var entry, _ := PrepareDiffusersPipeline(cache, w, r, guard, loading);
    if entry.Err? {
      return Err(entry.error);
    }
    assert CacheKey(r) !in cache.order;
    JudgeNone(Session(guard.Value(), entry.value.warnings));
    result := ExecutePrepared(cache, w, CacheKey(r), entry.value, guard, call);
    cache.CleanInFlight(entry.value.pipeline);
  }

  /** The one kind of request whose verdict is not the same with and without a cache. */
  predicate MissesALoraAfterRejection(w: World, r: Request, s: Session) {
    Placeable(w, r) && LoraFailure(w, r).Some? && StrictVaeRejection(w, r, s)
  }

  /** A request served from the cache always agrees, as its LoRAs were loaded before. */
  lemma ReplayedIsUncached(w: World, r: Request, s: Session, entries: map<Key, Entry>)
    requires Sound(w, entries)
    ensures CacheKey(r) in entries || !MissesALoraAfterRejection(w, r, s) ==> Replayed(w, r, s) == Uncached(w, r, s)
  {
    CachedEqualsUncached(w, r, s);
    if CacheKey(r) in entries {
      assert SoundEntry(w, CacheKey(r), entries[CacheKey(r)]);
      assert Configured(w, r).Ok?;
    }
  }

  /** Nothing about the request or its pipeline stands in the way of the call. */
  predicate GoesAhead(w: World, r: Request, s: Session) {
    && Placeable(w, r) && LoraFailure(w, r).None?
    && !StrictlyLacks(w, r, s) && !LosesLoras(w, r, s)
  }

  /** What the caller is told, by the fields of the request. */
  ghost predicate Told(w: World, r: Request, s: Session, result: Result<seq<string>, Failure>, call: Call) {
    && (GoesAhead(w, r, s) ==>
          match call
          case Returned => result == Ok(DefaultWarnings(w, r, s))
          case Raised => result == Err(ExecutionFailed)
          case TurnedDown => result == Err(InvalidCall))
    && (Placeable(w, r) && LosesLoras(w, r, s) && !StrictVaeRejection(w, r, s) ==>
          result == Err(UnsupportedImplicitly("LoRA adapters are not supported by the selected pipeline")))
    && (!w.loads(SourceOf(r)) ==> result == Err(ModelLoadFailed))
  }

  lemma VerdictTells(w: World, r: Request, s: Session, guard: Guard, result: Result<seq<string>, Failure>, call: Call)
    requires s.warnings == []
    requires !MissesALoraAfterRejection(w, r, s) ==> EndsAs(guard, result, Uncached(w, r, s), call)
    ensures Told(w, r, s, result, call)
  {
    if GoesAhead(w, r, s) {
      VerdictByFields(w, r, s);
      assert s.warnings + DefaultWarnings(w, r, s) == DefaultWarnings(w, r, s);
    }
    if Placeable(w, r) && LosesLoras(w, r, s) && !StrictVaeRejection(w, r, s) {
      ImplicitLorasAreNotIgnored(w, r, s);
    }
  }

  /**
   * `execute_diffusers`. Whatever the cache holds, and so whatever was requested before, the request ends with the
   * same parameters on record, the same warnings and the same verdict as one that runs without a cache.
   */
  method ExecuteDiffusers(cache: DiffusersPipelineCache, w: World, r: Request, guard: ExplicitParameterGuard,
                          loading: Loading, call: Call)
    returns (result: Result<seq<string>, Failure>)
    requires Settled(cache, w)
    modifies cache, cache.device, guard
    ensures Settled(cache, w)
    ensures var s := Session(old(guard.Value()), []);
      loading == Loads && !MissesALoraAfterRejection(w, r, s) ==> EndsAs(guard.Value(), result, Uncached(w, r, s), call)
    ensures var s := Session(old(guard.Value()), []);
      CacheKey(r) in old(cache.entries) ==>
        && EndsAs(guard.Value(), result, Uncached(w, r, s), call)
        && cache.entries == (if call == Raised && Uncached(w, r, s).Ok? then old(cache.entries) - {CacheKey(r)}
                             else old(cache.entries))
    ensures loading == Loads || CacheKey(r) in old(cache.entries) ==>
      Told(w, r, Session(old(guard.Value()), []), result, call)
    ensures loading != Loads && CacheKey(r) !in old(cache.entries) ==> result.Err?
    ensures loading == LoaderFails && CacheKey(r) !in old(cache.entries) ==> result == Err(ModelLoadFailed)
    ensures cache.maxSize > 0 && result.Ok? ==>
      && cache.order == Touched(old(cache.order), CacheKey(r), cache.maxSize)
      && cache.uses == old(cache.uses) + [CacheKey(r)]
  {
    ghost var s, hit := Session(guard.Value(), []), CacheKey(r) in cache.entries;
    ReplayedIsUncached(w, r, Session(guard.Value(), []), cache.entries);
    if cache.maxSize > 0 {
      result := ExecuteCached(cache, w, r, guard, loading, call);
    } else {
      assert CacheKey(r) !in cache.order;
      result := ExecuteUncached(cache, w, r, guard, loading, call);
    }
    if loading == Loads || hit {
      VerdictTells(w, r, s, guard.Value(), result, call);
    }
  }

  /* ---------- Audio ---------- */

  function AudioError(loading: Loading): Failure {
    if loading == DeviceFails then DeviceFailed else ModelLoadFailed
  }

  /** The part of `prepare_transformers_audio_entry` that loads. */
  method LoadAudio(cache: DiffusersPipelineCache, loading: Loading) returns (result: Result<Entry, Failure>)
    requires cache.Valid() && cache.InFlight() == {} && |cache.order| < Max(1, cache.maxSize)
    modifies cache.device
    ensures cache.Valid() && cache.InFlight() == if result.Ok? then {result.value.pipeline} else {}
    ensures result.Ok? == loading.Loads?
    ensures result.Ok? ==> result.value.AudioEntry?
    ensures result.Err? ==> result.error == AudioError(loading)
  {
    if loading == LoaderFails {
      return Err(ModelLoadFailed);
    }
    var model := cache.LoadInFlight();
    if loading == DeviceFails {
      cache.CleanInFlight(model);
      return Err(DeviceFailed);
    }
    return Ok(AudioEntry(model));
  }

  /** `prepare_transformers_audio_entry`: an entry found under an audio key is an audio entry. */
  method PrepareTransformersAudioEntry(cache: DiffusersPipelineCache, w: World, key: Key, loading: Loading)
    returns (result: Result<Entry, Failure>, hit: bool)
    requires Settled(cache, w) && key.AudioKey?
    modifies cache, cache.device
    ensures cache.Valid() && Sound(w, cache.entries)
    ensures cache.InFlight() == if result.Ok? && cache.maxSize == 0 then {result.value.pipeline} else {}
    ensures hit == (key in old(cache.entries))
    ensures result.Ok? == (hit || loading.Loads?)
    ensures result.Ok? ==> result.value.AudioEntry?
    ensures result.Err? ==> result.error == AudioError(loading)
    ensures cache.maxSize > 0 ==> Stored(cache, old(cache.order), old(cache.uses), key, result)
  {
    hit := false;
    if cache.maxSize > 0 {
      var entry := Reuse(cache, w, key);
      if entry.Some? {
        return Ok(entry.value), true;
      }
      MakeRoom(cache, w, key);
    }
    result := LoadAudio(cache, loading);
    if result.Ok? && cache.maxSize > 0 {
      Store(cache, w, key, result.value);
    }
  }

  /** An audio request: a failed call gives up a resident model, and a model of its own goes when the request ends. */
  method ExecuteAudio(cache: DiffusersPipelineCache, w: World, key: Key, loading: Loading, call: Call)
    returns (result: Result<seq<string>, Failure>)
    requires Settled(cache, w) && key.AudioKey?
    modifies cache, cache.device
    ensures Settled(cache, w)
    ensures key in old(cache.entries) || loading == Loads ==>
      match call
      case Returned => result == Ok([])
      case Raised => result == Err(ExecutionFailed)
      case TurnedDown => result == Err(InvalidCall)
    ensures key !in old(cache.entries) && loading == LoaderFails ==> result == Err(ModelLoadFailed)
    ensures key !in old(cache.entries) && loading == DeviceFails ==> result == Err(DeviceFailed)
    ensures cache.maxSize > 0 && result.Ok? ==>
      && cache.order == Touched(old(cache.order), key, cache.maxSize) && cache.uses == old(cache.uses) + [key]
    ensures call == Raised ==> key !in cache.entries
  {
    var entry, hit := PrepareTransformersAudioEntry(cache, w, key, loading);
    if entry.Err? {
      return Err(entry.error);
    }
    if cache.maxSize > 0 {
      if call == Raised {
        var _ := cache.Evict(key);
      }
    } else {
      cache.CleanInFlight(entry.value.pipeline);
    }
    result := Answer(call, []);
  }

  /* ---------- A worker's whole life ---------- */

  datatype Job =
    | DiffusersJob(r: Request, guard: Guard, loading: Loading, call: Call)
    | AudioJob(key: Key, loading: Loading, call: Call)

  /** What the client is told: the answer or failure, and the state of the request's guard. */
  datatype Reply = Reply(result: Result<seq<string>, Failure>, guard: Guard)

  function KeyOf(job: Job): Key {
    match job
    case DiffusersJob(r, _, _, _) => CacheKey(r)
    case AudioJob(key, _, _) => key
  }

  function KeysOf(jobs: seq<Job>): seq<Key> {
    seq(|jobs|, i requires 0 <= i < |jobs| => KeyOf(jobs[i]))
  }

  /** The reply to a Diffusers job is the one it would get with no cache at all. */
  ghost predicate RepliedAsUncached(w: World, job: Job, reply: Reply) {
    job.DiffusersJob? ==>
      var s := Session(job.guard, []);
      job.loading == Loads && !MissesALoraAfterRejection(w, job.r, s) ==>
        EndsAs(reply.guard, reply.result, Uncached(w, job.r, s), job.call)
  }

  method ServeOne(cache: DiffusersPipelineCache, w: World, job: Job) returns (reply: Reply)
    requires Settled(cache, w) && (job.AudioJob? ==> job.key.AudioKey?)
    modifies cache, cache.device
    ensures Settled(cache, w) && RepliedAsUncached(w, job, reply)
    ensures cache.maxSize > 0 && reply.result.Ok? ==>
      && cache.order == Touched(old(cache.order), KeyOf(job), cache.maxSize)
      && cache.uses == old(cache.uses) + [KeyOf(job)]
  {
    match job
    case DiffusersJob(r, before, loading, call) =>
      var guard := new ExplicitParameterGuard(before);
      var result := ExecuteDiffusers(cache, w, r, guard, loading, call);
      reply := Reply(result, guard.Value());
    case AudioJob(key, loading, call) =>
      var result := ExecuteAudio(cache, w, key, loading, call);
      reply := Reply(result, Guard("transformers_audio", Permissive, {}, map[], []));
  }

  ghost predicate AllServed(replies: seq<Reply>) {
    forall i :: 0 <= i < |replies| ==> replies[i].result.Ok?
  }

  /**
   * The resident worker from its first request to its end. Every Diffusers reply is the uncached one; as long as
   * nothing fails the cache is a plain LRU list; and in the end every pipeline ever loaded was cleaned up, once.
   */
  method Serve(maxSize: nat, w: World, jobs: seq<Job>)
    returns (cache: DiffusersPipelineCache, device: Accelerator, replies: seq<Reply>, ghost lastOrder: seq<Key>)
    requires forall i :: 0 <= i < |jobs| ==> jobs[i].AudioJob? ==> jobs[i].key.AudioKey?
    ensures Replied(w, jobs, replies, |jobs|)
    ensures maxSize > 0 && AllServed(replies) ==> lastOrder == Newest(Recent(KeysOf(jobs)), maxSize)
    ensures device.Valid() && device.limit == Max(1, maxSize) && cache.order == []
    ensures device.live == {} && forall t: nat :: t in device.cleaned <==> t < device.loads
  {
    device := new Accelerator(Max(1, maxSize));
    cache := new DiffusersPipelineCache(maxSize, device);
    replies := [];
    for i := 0 to |jobs|
      invariant fresh(cache) && fresh(device) && cache.device == device && cache.maxSize == maxSize
      invariant Settled(cache, w) && Replied(w, jobs, replies, i)
      invariant maxSize > 0 && AllServed(replies) ==> cache.order == Held(KeysOf(jobs[..i]), maxSize)
    {
      var reply := ServeOne(cache, w, jobs[i]);
      KeysExtend(jobs, i, maxSize);
      RepliesExtend(w, jobs, replies, reply, i);
      replies := replies + [reply];
    }
    assert jobs[..|jobs|] == jobs;
    if maxSize > 0 {
      HeldAreTheMostRecent(KeysOf(jobs), maxSize);
    }
    lastOrder := cache.order;
    cache.Clear();
    NoneInFlight(device.live, Owned(cache.entries));
  }

  ghost predicate Replied(w: World, jobs: seq<Job>, replies: seq<Reply>, n: nat) {
    |replies| == n <= |jobs| && forall i :: 0 <= i < n ==> RepliedAsUncached(w, jobs[i], replies[i])
  }

  lemma RepliesExtend(w: World, jobs: seq<Job>, replies: seq<Reply>, reply: Reply, i: nat)
    requires Replied(w, jobs, replies, i) && i < |jobs| && RepliedAsUncached(w, jobs[i], reply)
    ensures Replied(w, jobs, replies + [reply], i + 1)
    ensures AllServed(replies + [reply]) ==> AllServed(replies) && reply.result.Ok?
  {
    assert (replies + [reply])[i] == reply;
    assert forall j :: 0 <= j < i ==> (replies + [reply])[j] == replies[j];
  }

  lemma KeysExtend(jobs: seq<Job>, i: nat, max: nat)
    requires i < |jobs|
    ensures Held(KeysOf(jobs[..i + 1]), max) == Touched(Held(KeysOf(jobs[..i]), max), KeyOf(jobs[i]), max)
  {
    assert KeysOf(jobs[..i + 1])[..i] == KeysOf(jobs[..i]);
  }
}
