/**
 * Configuring a Diffusers pipeline in runtime/werk_media_companion.py: what is found while configuring, how the
 * request's parameter policy judges it, and how a cached pipeline replays it.
 */
module PipelineConfiguration {
  import opened Common

  /* ---------- Requests and cache keys ---------- */

  datatype Device = Cuda | Mps | Cpu

  datatype Task = VideoTask(name: string) | OtherTask(name: string)

  /** `path_cache_identity`: the resolved path and the stat data that make an asset the same asset. */
  datatype Identity = Identity(path: string, stamp: seq<int>)

  datatype Lora = Lora(identity: Identity, weight: real)

  datatype Offload = SequentialCpu | Component | ModelCpu | NoOffload

  /** The parameters and payload fields that configuration and cache key look at. */
  datatype Request = Request(
    model: string, asset: Identity, task: Task, hasImage: bool, device: Device, cudaIndex: int, dtype: string,
    sequential: bool, component: bool, modelCpu: bool,
    vaeTiling: bool, temporalVaeTiling: bool, vaeSlicing: bool, attentionSlicing: bool, loras: seq<Lora>)

  /** `selected_offload_request`. */
  function SelectedOffload(r: Request): Offload {
    if r.sequential then SequentialCpu
    else if r.component then Component
    else if r.modelCpu then ModelCpu
    else NoOffload
  }

  datatype Key =
    | DiffusersKey(
        model: string, asset: Identity, task: Task, hasImage: bool, device: Device, cuda: Option<int>, dtype: string,
        offload: Offload, vaeTiling: bool, temporalVaeTiling: bool, vaeSlicing: bool, attentionSlicing: bool,
        loras: seq<(Identity, real)>)
    | AudioKey(asset: Identity, adapter: string, audioTask: string, device: Device, cuda: Option<int>, dtype: string)

  /** `diffusers_pipeline_cache_key`. */
  function CacheKey(r: Request): Key {
    DiffusersKey(r.model, r.asset, r.task, r.hasImage, r.device, if r.device == Cuda then Some(r.cudaIndex) else None,
                 r.dtype, SelectedOffload(r), r.vaeTiling, r.temporalVaeTiling, r.vaeSlicing, r.attentionSlicing,
                 seq(|r.loras|, i requires 0 <= i < |r.loras| => (r.loras[i].identity, r.loras[i].weight)))
  }

  /* ---------- What the libraries offer ---------- */

  /** The optional hooks of one kind of pipeline, and the placements that raise when attempted. */
  datatype Hooks = Hooks(
    sequentialOffload: bool, modelOffload: bool, raises: set<(Device, Offload)>,
    vaeTiling: bool, vaeSlicing: bool, loraLoading: bool, adapterWeights: bool)

  /** What determines the pipeline object that a load produces. */
  datatype Source = Source(asset: Identity, task: Task, hasImage: bool, dtype: string)

  /** The installed libraries and the local files, as far as they decide anything here. */
  datatype World = World(loads: Source -> bool, hooks: Source -> Hooks, loraLoads: (Source, Identity) -> bool)

  function SourceOf(r: Request): Source {
    Source(r.asset, r.task, r.hasImage, r.dtype)
  }

  /* ---------- The request's parameter policy ---------- */

  datatype Policy = Strict | Warn | Permissive

  datatype Failure =
    | ModelLoadFailed
    | BackendConfigurationFailed(offload: Offload)
    | AdapterLoadFailed(asset: Identity)
    | UnsupportedParameter(path: string, reason: string)
    | UnsupportedImplicitly(message: string)
    | DeviceFailed
    | InvalidCall
    | ExecutionFailed
    | InvalidConfiguration

  /** The state of an `ExplicitParameterGuard`. */
  datatype Guard = Guard(
    adapter: string, policy: Policy, explicit: set<string>, unsupported: map<string, string>, warnings: seq<string>)

  function WarningText(adapter: string, path: string, reason: string): string {
    "explicit parameter '" + path + "' is unsupported by the " + adapter + " adapter and was ignored: " + reason
  }

  /** `ExplicitParameterGuard.reject` with `_record`. */
  function Rejection(g: Guard, path: string, reason: string): Result<Guard, Failure> {
    if path !in g.explicit || path in g.unsupported then Ok(g)
    else
      var recorded := g.(unsupported := g.unsupported[path := reason]);
      match g.policy
      case Strict => Err(UnsupportedParameter(path, reason))
      case Warn => Ok(recorded.(warnings := g.warnings + [WarningText(g.adapter, path, reason)]))
      case Permissive => Ok(recorded)
  }

  /** One request's guard and its own list of warnings. */
  datatype Session = Session(guard: Guard, warnings: seq<string>)

  /* ---------- What configuring finds ---------- */

  /** A parameter the pipeline cannot honour, and what follows when the caller did not ask for it explicitly. */
  datatype Finding = Finding(path: string, reason: string, warning: Option<string>, fatal: Option<string>)

  const TEMPORAL_TILING_PATH := "video.temporal_vae_tiling"
  const TILING_PATH := "image.vae_tiling"
  const SLICING_PATH := "image.vae_slicing"
  const LORAS_PATH := "image.loras"

  function TilingFinding(task: Task): Finding {
    Finding(if task.VideoTask? then TEMPORAL_TILING_PATH else TILING_PATH,
            "VAE tiling is unavailable on the selected pipeline",
            Some("VAE tiling requested by resolved defaults but unavailable on the selected pipeline"), None)
  }

  const SLICING_FINDING := Finding(SLICING_PATH,
    "VAE slicing is unavailable on the selected pipeline",
    Some("VAE slicing requested by resolved defaults but unavailable on the selected pipeline"), None)

  const NO_LORA_FINDING := Finding(LORAS_PATH,
    "the selected pipeline has no LoRA loading hook", None,
    Some("LoRA adapters are not supported by the selected pipeline"))

  const LORA_WEIGHTS_FINDING := Finding(LORAS_PATH,
    "the pipeline loaded LoRA files but cannot apply their explicit weights",
    Some("pipeline loaded LoRA adapters but cannot apply adapter weights from resolved defaults"), None)

  /** The device and offload part of configuring: where the pipeline ends up, or why it cannot be placed. */
  function Placement(hooks: Hooks, r: Request): Result<Offload, Failure> {
    var requested := SelectedOffload(r);
    var mode := if r.sequential then SequentialCpu else if r.component || r.modelCpu then ModelCpu else NoOffload;
    if requested != NoOffload && r.device != Cuda then Err(BackendConfigurationFailed(requested))
    else if mode == SequentialCpu && !hooks.sequentialOffload then Err(BackendConfigurationFailed(requested))
    else if mode == ModelCpu && !hooks.modelOffload then Err(BackendConfigurationFailed(requested))
    else if (r.device, mode) in hooks.raises then Err(BackendConfigurationFailed(requested))
    else Ok(mode)
  }

  function Untiled(hooks: Hooks, r: Request): seq<Finding> {
    if (r.vaeTiling || r.temporalVaeTiling) && !hooks.vaeTiling then [TilingFinding(r.task)] else []
  }

  function Unsliced(hooks: Hooks, r: Request): seq<Finding> {
    if r.vaeSlicing && !hooks.vaeSlicing then [SLICING_FINDING] else []
  }

  function VaeFindings(hooks: Hooks, r: Request): seq<Finding> {
    Untiled(hooks, r) + Unsliced(hooks, r)
  }

  /** The first LoRA that does not load, if any does not. */
  function FirstUnloadable(w: World, source: Source, loras: seq<Lora>): Option<Identity> {
    if loras == [] then None
    else if !w.loraLoads(source, loras[0].identity) then Some(loras[0].identity)
    else FirstUnloadable(w, source, loras[1..])
  }

  predicate Weighted(loras: seq<Lora>) {
    exists i :: 0 <= i < |loras| && loras[i].weight != 1.0
  }

  function LoraFindings(hooks: Hooks, loras: seq<Lora>): seq<Finding> {
    if loras == [] then []
    else if !hooks.loraLoading then [NO_LORA_FINDING]
    else if !hooks.adapterWeights && Weighted(loras) then [LORA_WEIGHTS_FINDING]
    else []
  }

  /** The LoRA that stops the configuration: only a pipeline with a loading hook tries to load any. */
  function LoraFailure(w: World, r: Request): Option<Identity> {
    if w.hooks(SourceOf(r)).loraLoading then FirstUnloadable(w, SourceOf(r), r.loras) else None
  }

  /** What a load that goes into the cache keeps: the effective placement and every finding, in order. */
  datatype Configuration = Configuration(offload: Offload, findings: seq<Finding>)

  function Configured(w: World, r: Request): Result<Configuration, Failure> {
    var hooks := w.hooks(SourceOf(r));
    if !w.loads(SourceOf(r)) then Err(ModelLoadFailed)
    else match Placement(hooks, r)
      case Err(e) => Err(e)
      case Ok(offload) =>
        match LoraFailure(w, r)
        case Some(asset) => Err(AdapterLoadFailed(asset))
        case None => Ok(Configuration(offload, VaeFindings(hooks, r) + LoraFindings(hooks, r.loras)))
  }

  /* ---------- Equal keys configure alike ---------- */

  lemma {:induction false} EqualLorasLoadAlike(w: World, source: Source, a: seq<Lora>, b: seq<Lora>)
    requires |a| == |b|
    requires forall i :: 0 <= i < |a| ==> a[i].identity == b[i].identity
    ensures FirstUnloadable(w, source, a) == FirstUnloadable(w, source, b)
  {
    if a != [] {
      assert forall i :: 0 <= i < |a[1..]| ==> a[1..][i].identity == b[1..][i].identity;
      EqualLorasLoadAlike(w, source, a[1..], b[1..]);
    }
  }

  lemma EqualKeysEqualLoras(r: Request, q: Request)
    requires CacheKey(r) == CacheKey(q)
    ensures |r.loras| == |q.loras|
    ensures forall i :: 0 <= i < |r.loras| ==> r.loras[i].identity == q.loras[i].identity
    ensures forall i :: 0 <= i < |r.loras| ==> r.loras[i].weight == q.loras[i].weight
  {
    var a, b := CacheKey(r).loras, CacheKey(q).loras;
    assert |a| == |r.loras| && |b| == |q.loras|;
    forall i | 0 <= i < |r.loras|
      ensures r.loras[i].identity == q.loras[i].identity && r.loras[i].weight == q.loras[i].weight
    {
      assert a[i] == b[i];
    }
  }

  lemma EqualKeysPlaceAlike(hooks: Hooks, r: Request, q: Request)
    requires CacheKey(r) == CacheKey(q)
    ensures Placement(hooks, r) == Placement(hooks, q)
    ensures VaeFindings(hooks, r) == VaeFindings(hooks, q)
  {
    assert SelectedOffload(r) == SelectedOffload(q);
    assert r.device == q.device;
  }

  lemma EqualKeysLoadLorasAlike(w: World, r: Request, q: Request)
    requires CacheKey(r) == CacheKey(q)
    ensures SourceOf(r) == SourceOf(q) && LoraFailure(w, r) == LoraFailure(w, q)
    ensures LoraFindings(w.hooks(SourceOf(r)), r.loras) == LoraFindings(w.hooks(SourceOf(r)), q.loras)
  {
    EqualKeysEqualLoras(r, q);
    EqualLorasLoadAlike(w, SourceOf(r), r.loras, q.loras);
    assert Weighted(r.loras) == Weighted(q.loras);
  }

  /** The cache key leaves nothing out that configuring looks at. */
  lemma EqualKeysConfigureAlike(w: World, r: Request, q: Request)
    requires CacheKey(r) == CacheKey(q)
    ensures Configured(w, r) == Configured(w, q)
  {
    EqualKeysLoadLorasAlike(w, r, q);
    EqualKeysPlaceAlike(w.hooks(SourceOf(r)), r, q);
  }

  /* ---------- Judging findings ---------- */

  /** Reject first, then react to an implicit request, as the uncached path does for each finding on the spot. */
  function Judge(s: Session, f: Finding): Result<Session, Failure> {
    match Rejection(s.guard, f.path, f.reason)
    case Err(e) => Err(e)
    case Ok(guard) =>
      if f.path in guard.explicit then Ok(Session(guard, s.warnings))
      else if f.fatal.Some? then Err(UnsupportedImplicitly(f.fatal.value))
      else Ok(Session(guard, s.warnings + (if f.warning.Some? then [f.warning.value] else [])))
  }

  function JudgeAll(s: Session, findings: seq<Finding>): Result<Session, Failure>
    decreases |findings|
  {
    if findings == [] then Ok(s)
    else match Judge(s, findings[0])
      case Err(e) => Err(e)
      case Ok(next) => JudgeAll(next, findings[1..])
  }

  lemma {:induction false} JudgeAllSplit(s: Session, a: seq<Finding>, b: seq<Finding>)
    ensures JudgeAll(s, a + b) == match JudgeAll(s, a) case Ok(next) => JudgeAll(next, b) case Err(e) => Err(e)
    decreases |a|
  {
    if a == [] {
      assert a + b == b;
    } else {
      assert (a + b)[1..] == a[1..] + b;
      match Judge(s, a[0])
      case Err(_) =>
      case Ok(next) => JudgeAllSplit(next, a[1..], b);
    }
  }

  /** What a request that loads for itself alone goes through: its findings are judged as they come up. */
  function Uncached(w: World, r: Request, s: Session): Result<Session, Failure> {
    var hooks := w.hooks(SourceOf(r));
    if !w.loads(SourceOf(r)) then Err(ModelLoadFailed)
    else match Placement(hooks, r)
      case Err(e) => Err(e)
      case Ok(_) =>
        match JudgeAll(s, VaeFindings(hooks, r))
        case Err(e) => Err(e)
        case Ok(next) =>
          match LoraFailure(w, r)
          case Some(asset) => Err(AdapterLoadFailed(asset))
          case None => JudgeAll(next, LoraFindings(hooks, r.loras))
  }

  /** What a request served by the cache goes through: the whole recorded outcome is judged afterwards. */
  function Replayed(w: World, r: Request, s: Session): Result<Session, Failure> {
    match Configured(w, r)
    case Err(e) => Err(e)
    case Ok(configuration) => JudgeAll(s, configuration.findings)
  }

  /** An explicit request for VAE tiling or slicing that this policy turns down at once. */
  predicate StrictVaeRejection(w: World, r: Request, s: Session) {
    var hooks := w.hooks(SourceOf(r));
    var tiling := if r.task.VideoTask? then TEMPORAL_TILING_PATH else TILING_PATH;
    || ((r.vaeTiling || r.temporalVaeTiling) && !hooks.vaeTiling && StrictlyRejected(s, tiling))
    || (r.vaeSlicing && !hooks.vaeSlicing && StrictlyRejected(s, SLICING_PATH))
  }

  /** An explicit parameter that was not yet put on record and that a strict policy does not let pass. */
  predicate StrictlyRejected(s: Session, path: string) {
    s.guard.policy == Strict && path in s.guard.explicit && path !in s.guard.unsupported
  }

  lemma PathsDiffer()
    ensures TEMPORAL_TILING_PATH != SLICING_PATH && TILING_PATH != SLICING_PATH
    ensures LORAS_PATH != SLICING_PATH && LORAS_PATH != TILING_PATH && LORAS_PATH != TEMPORAL_TILING_PATH
  {
    assert TEMPORAL_TILING_PATH[0] != SLICING_PATH[0] && LORAS_PATH[0] != TEMPORAL_TILING_PATH[0];
    assert TILING_PATH[10] != SLICING_PATH[10];
    assert LORAS_PATH[6] != SLICING_PATH[6] && LORAS_PATH[6] != TILING_PATH[6];
  }

  /** The paths that findings complain about. */
  function Paths(findings: seq<Finding>): set<string> {
    set f | f in findings :: f.path
  }

  lemma VaePathsAreNotLoras(hooks: Hooks, r: Request)
    ensures LORAS_PATH !in Paths(VaeFindings(hooks, r))
  {
    PathsDiffer();
  }

  lemma VaePathsDiffer(hooks: Hooks, r: Request)
    ensures forall f, g :: f in Untiled(hooks, r) && g in Unsliced(hooks, r) ==> f.path != g.path
  {
    PathsDiffer();
  }

  lemma JudgeOne(s: Session, f: Finding)
    requires f.fatal.None?
    ensures JudgeAll(s, [f]).Err? <==> StrictlyRejected(s, f.path)
    ensures JudgeAll(s, [f]).Err? ==> JudgeAll(s, [f]).error.UnsupportedParameter?
    ensures JudgeAll(s, [f]).Ok? ==>
      forall path :: path != f.path ==> (StrictlyRejected(JudgeAll(s, [f]).value, path) <==> StrictlyRejected(s, path))
  {
    assert JudgeAll(s, [f]) == Judge(s, f);
  }

  lemma JudgeNone(s: Session)
    ensures JudgeAll(s, []) == Ok(s)
  {
  }

  lemma VaeJudged(w: World, r: Request, s: Session)
    ensures JudgeAll(s, VaeFindings(w.hooks(SourceOf(r)), r)).Err? <==> StrictVaeRejection(w, r, s)
    ensures JudgeAll(s, VaeFindings(w.hooks(SourceOf(r)), r)).Err? ==>
      JudgeAll(s, VaeFindings(w.hooks(SourceOf(r)), r)).error.UnsupportedParameter?
  {
    PathsDiffer();
    var hooks := w.hooks(SourceOf(r));
    var first, second := Untiled(hooks, r), Unsliced(hooks, r);
    JudgeAllSplit(s, first, second);
    JudgeNone(s);
    if first != [] {
      JudgeOne(s, first[0]);
    }
    var judged := JudgeAll(s, first);
    if judged.Ok? {
      JudgeNone(judged.value);
      if second != [] {
        JudgeOne(judged.value, second[0]);
      }
    }
  }

  predicate Placeable(w: World, r: Request) {
    w.loads(SourceOf(r)) && Placement(w.hooks(SourceOf(r)), r).Ok?
  }

  lemma WhenPlaceable(w: World, r: Request, s: Session)
    requires Placeable(w, r)
    ensures LoraFailure(w, r).None? ==> Replayed(w, r, s) == Uncached(w, r, s)
    ensures LoraFailure(w, r).Some? ==> Replayed(w, r, s) == Err(AdapterLoadFailed(LoraFailure(w, r).value))
    ensures LoraFailure(w, r).Some? ==>
      Uncached(w, r, s) == match JudgeAll(s, VaeFindings(w.hooks(SourceOf(r)), r))
                           case Ok(_) => Err(AdapterLoadFailed(LoraFailure(w, r).value))
                           case Err(e) => Err(e)
  {
    var hooks := w.hooks(SourceOf(r));
    if LoraFailure(w, r).None? {
      JudgeAllSplit(s, VaeFindings(hooks, r), LoraFindings(hooks, r.loras));
    }
  }

  /**
   * The cached and the uncached request end with the same verdict, map of unsupported parameters and warnings,
   * unless a LoRA cannot be loaded and the uncached request was turned down before it got to try.
   */
  lemma CachedEqualsUncached(w: World, r: Request, s: Session)
    ensures Replayed(w, r, s) == Uncached(w, r, s) <==>
      !(Placeable(w, r) && LoraFailure(w, r).Some? && StrictVaeRejection(w, r, s))
  {
    if Placeable(w, r) {
      WhenPlaceable(w, r, s);
      VaeJudged(w, r, s);
    }
  }

  /** Whatever succeeds through the cache succeeds without it, with the same session, and the other way round. */
  lemma SuccessesAgree(w: World, r: Request, s: Session)
    ensures Replayed(w, r, s).Ok? <==> Uncached(w, r, s).Ok?
    ensures Replayed(w, r, s).Ok? ==> Replayed(w, r, s) == Uncached(w, r, s)
  {
    CachedEqualsUncached(w, r, s);
    VaeJudged(w, r, s);
  }

  /** The one way to differ does occur: strict policy, explicit tiling without a hook, and a LoRA that is missing. */
  lemma MissingLoraAfterStrictRejection(r: Request, asset: Identity) returns (w: World, s: Session)
    requires r.vaeTiling && r.device == Cpu && SelectedOffload(r) == NoOffload && r.loras == [Lora(asset, 1.0)]
    ensures Replayed(w, r, s) == Err(AdapterLoadFailed(asset))
    ensures Uncached(w, r, s).Err? && Uncached(w, r, s).error.UnsupportedParameter?
  {
    var hooks := Hooks(true, true, {}, false, true, true, true);
    w := World(_ => true, _ => hooks, (_, _) => false);
    s := Session(Guard("diffusers", Strict, {TEMPORAL_TILING_PATH, TILING_PATH}, map[], []), []);
    WhenPlaceable(w, r, s);
    VaeJudged(w, r, s);
  }

  /**
   * A request that goes ahead has exactly its explicit, dishonoured parameters on record; a strict one has none new.
   */
  lemma {:induction false} RecordsExactlyTheExplicit(s: Session, findings: seq<Finding>)
    requires JudgeAll(s, findings).Ok?
    ensures var guard := JudgeAll(s, findings).value.guard;
      && guard.explicit == s.guard.explicit && guard.policy == s.guard.policy
      && guard.unsupported.Keys == s.guard.unsupported.Keys + Paths(findings) * s.guard.explicit
      && (s.guard.policy == Strict ==> guard.unsupported == s.guard.unsupported)
      && (s.guard.policy != Warn ==> guard.warnings == s.guard.warnings)
    decreases |findings|
  {
    if findings != [] {
      var next := Judge(s, findings[0]).value;
      RecordsExactlyTheExplicit(next, findings[1..]);
      assert findings == [findings[0]] + findings[1..];
      assert Paths(findings) == {findings[0].path} + Paths(findings[1..]);
    }
  }

  /* ---------- The code that does it ---------- */

  class ExplicitParameterGuard {
    const adapter: string
    const policy: Policy
    const explicit: set<string>
    var unsupported: map<string, string>
    var warnings: seq<string>

    /** A guard with whatever was put on record before, by the checks that need no pipeline. */
    constructor (g: Guard)
      ensures Value() == g
    {
      adapter, policy, explicit := g.adapter, g.policy, g.explicit;
      unsupported, warnings := g.unsupported, g.warnings;
    }

    function Value(): Guard
      reads this
    {
      Guard(adapter, policy, explicit, unsupported, warnings)
    }

    /** `reject` and `_record`: a strict rejection is recorded before it is raised. */
    method Reject(path: string, reason: string) returns (failure: Option<Failure>)
      modifies this
      ensures match Rejection(old(Value()), path, reason)
              case Ok(guard) => failure == None && Value() == guard
              case Err(e) =>
                failure == Some(e) && Value() == old(Value()).(unsupported := old(unsupported)[path := reason])
    {
      failure := None;
      if path in explicit && path !in unsupported {
        unsupported := unsupported[path := reason];
        if policy == Strict {
          return Some(UnsupportedParameter(path, reason));
        }
        if policy == Warn {
          warnings := warnings + [WarningText(adapter, path, reason)];
        }
      }
    }
  }

  /** What a later rejection of the same path leaves: the reason is replaced, an extra it lacks stays. */
  function Merged(was: Finding, f: Finding): Finding {
    Finding(f.path, f.reason, if f.warning.Some? then f.warning else was.warning,
            if f.fatal.Some? then f.fatal else was.fatal)
  }

  /** A dictionary keeps the place of a key it already has. */
  function Recorded(findings: seq<Finding>, f: Finding): seq<Finding> {
    if f.path !in Paths(findings) then findings + [f]
    else seq(|findings|, i requires 0 <= i < |findings| =>
           if findings[i].path == f.path then Merged(findings[i], f) else findings[i])
  }

  class DiffusersConfigurationOutcome {
    var order: seq<string>
    var unsupported: map<string, string>
    var implicitWarnings: map<string, string>
    var fatalWhenImplicit: map<string, string>

    constructor ()
      ensures Valid() && Findings() == []
    {
      order, unsupported, implicitWarnings, fatalWhenImplicit := [], map[], map[], map[];
    }

    ghost predicate Valid()
      reads this
    {
      && Ordered(order, unsupported)
      && implicitWarnings.Keys <= unsupported.Keys && fatalWhenImplicit.Keys <= unsupported.Keys
    }

    function Findings(): seq<Finding>
      requires Valid()
      reads this
    {
      FindingsOf(order, unsupported, implicitWarnings, fatalWhenImplicit)
    }

    /** `reject`. */
    method Reject(f: Finding)
      requires Valid()
      modifies this
      ensures Valid()
      ensures Findings() == Recorded(old(Findings()), f)
    {
      Recording(order, unsupported, implicitWarnings, fatalWhenImplicit, f);
      if f.path !in unsupported {
        order := order + [f.path];
      }
      unsupported := unsupported[f.path := f.reason];
      if f.warning.Some? {
        implicitWarnings := implicitWarnings[f.path := f.warning.value];
      }
      if f.fatal.Some? {
        fatalWhenImplicit := fatalWhenImplicit[f.path := f.fatal.value];
      }
    }
  }

  ghost predicate Ordered(order: seq<string>, unsupported: map<string, string>) {
    && (forall path :: path in unsupported <==> path in order)
    && (forall i, j :: 0 <= i < j < |order| ==> order[i] != order[j])
  }

  function FindingsOf(order: seq<string>, unsupported: map<string, string>,
                      warnings: map<string, string>, fatal: map<string, string>): seq<Finding>
    requires Ordered(order, unsupported)
  {
    seq(|order|, i requires 0 <= i < |order| =>
      Finding(order[i], unsupported[order[i]], Lookup(warnings, order[i]), Lookup(fatal, order[i])))
  }

  lemma PathsFound(order: seq<string>, unsupported: map<string, string>,
                   warnings: map<string, string>, fatal: map<string, string>)
    requires Ordered(order, unsupported)
    ensures Paths(FindingsOf(order, unsupported, warnings, fatal)) == unsupported.Keys
  {
    var findings := FindingsOf(order, unsupported, warnings, fatal);
    forall path | path in unsupported ensures path in Paths(findings) {
      var i :| 0 <= i < |order| && order[i] == path;
      assert findings[i] in findings;
    }
  }

  function Lookup(m: map<string, string>, key: string): Option<string> {
    if key in m then Some(m[key]) else None
  }

  function Put(m: map<string, string>, key: string, value: Option<string>): map<string, string> {
    if value.Some? then m[key := value.value] else m
  }

  lemma PutLooksUp(m: map<string, string>, key: string, value: Option<string>, other: string)
    ensures Lookup(Put(m, key, value), other) ==
      if other == key && value.Some? then value else Lookup(m, other)
  {
  }

  lemma OrderedWith(order: seq<string>, unsupported: map<string, string>, path: string, reason: string)
    requires Ordered(order, unsupported)
    ensures Ordered(if path in unsupported then order else order + [path], unsupported[path := reason])
  {
    var extended := if path in unsupported then order else order + [path];
    forall p ensures p in unsupported[path := reason] <==> p in extended {
      assert p in extended <==> p in order || p == path;
    }
  }

  /** How one finding looks after another one was recorded in the dictionaries. */
  lemma RecordedFinding(unsupported: map<string, string>, warnings: map<string, string>, fatal: map<string, string>,
                        f: Finding, path: string)
    requires path in unsupported || path == f.path
    requires warnings.Keys <= unsupported.Keys && fatal.Keys <= unsupported.Keys
    ensures var now := unsupported[f.path := f.reason];
      var after := Finding(path, now[path], Lookup(Put(warnings, f.path, f.warning), path),
                           Lookup(Put(fatal, f.path, f.fatal), path));
      if path !in unsupported then after == f
      else
        var before := Finding(path, unsupported[path], Lookup(warnings, path), Lookup(fatal, path));
        after == if path == f.path then Merged(before, f) else before
  {
    PutLooksUp(warnings, f.path, f.warning, path);
    PutLooksUp(fatal, f.path, f.fatal, path);
  }

  lemma Recording(order: seq<string>, unsupported: map<string, string>,
                  warnings: map<string, string>, fatal: map<string, string>, f: Finding)
    requires Ordered(order, unsupported) && warnings.Keys <= unsupported.Keys && fatal.Keys <= unsupported.Keys
    ensures var extended := if f.path in unsupported then order else order + [f.path];
      && Ordered(extended, unsupported[f.path := f.reason])
      && FindingsOf(extended, unsupported[f.path := f.reason],
                    Put(warnings, f.path, f.warning), Put(fatal, f.path, f.fatal))
         == Recorded(FindingsOf(order, unsupported, warnings, fatal), f)
  {
    PathsFound(order, unsupported, warnings, fatal);
    OrderedWith(order, unsupported, f.path, f.reason);
    var extended := if f.path in unsupported then order else order + [f.path];
    var now := unsupported[f.path := f.reason];
    var before := FindingsOf(order, unsupported, warnings, fatal);
    var after := FindingsOf(extended, now, Put(warnings, f.path, f.warning), Put(fatal, f.path, f.fatal));
    var recorded := Recorded(before, f);
    assert |after| == |recorded|;
    forall i | 0 <= i < |extended| ensures after[i] == recorded[i] {
      RecordedFinding(unsupported, warnings, fatal, f, extended[i]);
    }
  }

  /** How a guard, a list of warnings and a possible failure express the verdict `v`. */
  ghost predicate Leaves(guard: Guard, warnings: seq<string>, failure: Option<Failure>, v: Result<Session, Failure>) {
    match v
    case Ok(s) => failure.None? && guard == s.guard && warnings == s.warnings
    case Err(e) => failure == Some(e)
  }

  /** Hands one finding to the outcome when there is one, and to the guard otherwise. */
  method Report(f: Finding, guard: ExplicitParameterGuard, outcome: DiffusersConfigurationOutcome?,
                warnings: seq<string>)
    returns (failure: Option<Failure>, warned: seq<string>)
    requires outcome != null ==> outcome.Valid()
    modifies guard, outcome
    ensures outcome == null ==>
      Leaves(guard.Value(), warned, failure, Judge(Session(old(guard.Value()), warnings), f))
    ensures outcome != null ==>
      && guard.Value() == old(guard.Value()) && warned == warnings && failure.None?
      && outcome.Valid() && outcome.Findings() == Recorded(old(outcome.Findings()), f)
  {
    failure, warned := None, warnings;
    if outcome != null {
      outcome.Reject(f);
      return;
    }
    failure := guard.Reject(f.path, f.reason);
    if failure.None? && f.path !in guard.explicit {
      if f.fatal.Some? {
        failure := Some(UnsupportedImplicitly(f.fatal.value));
      } else if f.warning.Some? {
        warned := warned + [f.warning.value];
      }
    }
  }

  /** Reports `f` when `missing`, and nothing otherwise. */
  method ReportIf(missing: bool, f: Finding, guard: ExplicitParameterGuard, outcome: DiffusersConfigurationOutcome?,
                  warnings: seq<string>)
    returns (failure: Option<Failure>, warned: seq<string>)
    requires outcome != null ==> outcome.Valid() && f.path !in Paths(outcome.Findings())
    modifies guard, outcome
    ensures outcome == null ==>
      Leaves(guard.Value(), warned, failure,
             JudgeAll(Session(old(guard.Value()), warnings), if missing then [f] else []))
    ensures outcome != null ==>
      && guard.Value() == old(guard.Value()) && warned == warnings && failure.None? && outcome.Valid()
      && outcome.Findings() == old(outcome.Findings()) + (if missing then [f] else [])
  {
    failure, warned := None, warnings;
    if missing {
      failure, warned := Report(f, guard, outcome, warnings);
      assert JudgeAll(Session(old(guard.Value()), warnings), [f]) == Judge(Session(old(guard.Value()), warnings), f);
    }
  }

  method Place(hooks: Hooks, r: Request) returns (result: Result<Offload, Failure>)
    ensures result == Placement(hooks, r)
  {
    var requested := SelectedOffload(r);
    var mode := NoOffload;
    if requested != NoOffload && r.device != Cuda {
      return Err(BackendConfigurationFailed(requested));
    }
    if r.sequential {
      if !hooks.sequentialOffload || (r.device, SequentialCpu) in hooks.raises {
        return Err(BackendConfigurationFailed(requested));
      }
      mode := SequentialCpu;
    }
    if mode == NoOffload && (r.component || r.modelCpu) {
      if !hooks.modelOffload || (r.device, ModelCpu) in hooks.raises {
        return Err(BackendConfigurationFailed(requested));
      }
      mode := ModelCpu;
    }
    if mode == NoOffload && (r.device, NoOffload) in hooks.raises {
      return Err(BackendConfigurationFailed(requested));
    }
    return Ok(mode);
  }

  /** Reports up to two findings in order, the second only if the first did not fail the request. */
  method ReportBoth(first: seq<Finding>, second: seq<Finding>, guard: ExplicitParameterGuard,
                    outcome: DiffusersConfigurationOutcome?, warnings: seq<string>)
    returns (failure: Option<Failure>, warned: seq<string>)
    requires |first| <= 1 && |second| <= 1 && forall f, g :: f in first && g in second ==> f.path != g.path
    requires outcome != null ==> outcome.Valid() && outcome.Findings() == []
    modifies guard, outcome
    ensures outcome == null ==>
      Leaves(guard.Value(), warned, failure, JudgeAll(Session(old(guard.Value()), warnings), first + second))
    ensures outcome != null ==>
      && guard.Value() == old(guard.Value()) && warned == warnings && failure.None? && outcome.Valid()
      && outcome.Findings() == first + second
  {
    JudgeAllSplit(Session(guard.Value(), warnings), first, second);
    failure, warned := None, warnings;
    if first != [] {
      assert first == [first[0]];
      failure, warned := ReportIf(true, first[0], guard, outcome, warned);
    }
    if second != [] && failure.None? {
      assert second == [second[0]] && second[0] in second;
      failure, warned := ReportIf(true, second[0], guard, outcome, warned);
    }
  }

  /** `configure_diffusers_pipeline`. */
  method ConfigureDiffusersPipeline(hooks: Hooks, r: Request, guard: ExplicitParameterGuard,
                                    outcome: DiffusersConfigurationOutcome?, warnings: seq<string>)
    returns (result: Result<Offload, Failure>, warned: seq<string>)
    requires outcome != null ==> outcome.Valid() && outcome.Findings() == []
    modifies guard, outcome
    ensures Placement(hooks, r).Err? ==> result == Placement(hooks, r)
    ensures result.Ok? ==> result == Placement(hooks, r)
    ensures outcome == null && Placement(hooks, r).Ok? ==>
      Leaves(guard.Value(), warned, if result.Ok? then None else Some(result.error),
             JudgeAll(Session(old(guard.Value()), warnings), VaeFindings(hooks, r)))
    ensures outcome != null ==> guard.Value() == old(guard.Value()) && warned == warnings && outcome.Valid()
    ensures outcome != null && Placement(hooks, r).Ok? ==> result.Ok? && outcome.Findings() == VaeFindings(hooks, r)
  {
    warned := warnings;
    result := Place(hooks, r);
    if result.Err? {
      return;
    }
    VaePathsDiffer(hooks, r);
    var failure: Option<Failure>;
    failure, warned := ReportBoth(Untiled(hooks, r), Unsliced(hooks, r), guard, outcome, warnings);
    if failure.Some? {
      result := Err(failure.value);
    }
  }

  /** `apply_loras`. */
  method ApplyLoras(w: World, source: Source, loras: seq<Lora>, guard: ExplicitParameterGuard,
                    outcome: DiffusersConfigurationOutcome?, warnings: seq<string>)
    returns (failure: Option<Failure>, warned: seq<string>)
    requires outcome != null ==> outcome.Valid() && LORAS_PATH !in Paths(outcome.Findings())
    modifies guard, outcome
    ensures outcome != null ==> guard.Value() == old(guard.Value()) && warned == warnings && outcome.Valid()
    ensures var hooks := w.hooks(source);
      var missing := if hooks.loraLoading then FirstUnloadable(w, source, loras) else None;
      if missing.Some? then failure == Some(AdapterLoadFailed(missing.value))
      else if outcome == null then
        Leaves(guard.Value(), warned, failure,
               JudgeAll(Session(old(guard.Value()), warnings), LoraFindings(hooks, loras)))
      else
        failure.None? && outcome.Findings() == old(outcome.Findings()) + LoraFindings(hooks, loras)
  {
    failure, warned := None, warnings;
    var hooks := w.hooks(source);
    if loras == [] {
      return;
    }
    if !hooks.loraLoading {
      failure, warned := ReportIf(true, NO_LORA_FINDING, guard, outcome, warned);
      return;
    }
    for i := 0 to |loras|
      invariant FirstUnloadable(w, source, loras) == FirstUnloadable(w, source, loras[i..])
    {
      if !w.loraLoads(source, loras[i].identity) {
        return Some(AdapterLoadFailed(loras[i].identity)), warned;
      }
    }
    failure, warned := ReportIf(!hooks.adapterWeights && Weighted(loras), LORA_WEIGHTS_FINDING, guard, outcome, warned);
  }

  /** `replay_diffusers_configuration`: an implicit fatal finding fails before the guard is asked. */
  method ReplayDiffusersConfiguration(findings: seq<Finding>, guard: ExplicitParameterGuard, warnings: seq<string>)
    returns (failure: Option<Failure>, warned: seq<string>)
    modifies guard
    ensures Leaves(guard.Value(), warned, failure, JudgeAll(Session(old(guard.Value()), warnings), findings))
  {
    failure, warned := None, warnings;
    for i := 0 to |findings|
      invariant failure.None?
      invariant JudgeAll(Session(old(guard.Value()), warnings), findings)
        == JudgeAll(Session(guard.Value(), warned), findings[i..])
    {
      var f := findings[i];
      ghost var s := Session(guard.Value(), warned);
      assert findings[i..] == [f] + findings[i + 1..];
      JudgeAllSplit(s, [f], findings[i + 1..]);
      assert JudgeAll(s, [f]) == Judge(s, f);
      var explicit := f.path in guard.explicit;
      if !explicit && f.fatal.Some? {
        return Some(UnsupportedImplicitly(f.fatal.value)), warned;
      }
      failure := guard.Reject(f.path, f.reason);
      if failure.Some? {
        return;
      }
      if !explicit && f.warning.Some? {
        warned := warned + [f.warning.value];
      }
      assert s.warnings + [] == s.warnings;
      assert Judge(s, f) == Ok(Session(guard.Value(), warned));
    }
  }
}
