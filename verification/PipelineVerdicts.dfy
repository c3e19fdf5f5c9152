/**
 * What a Diffusers request is told, in terms of what it asks for, what its caller asked for explicitly and what the
 * pipeline offers: when it goes ahead, with which warnings, and why not otherwise.
 */
module PipelineVerdicts {
  import opened Common
  import opened PipelineConfiguration

  /* ---------- Placement ---------- */

  predicate WantsOffload(r: Request) {
    r.sequential || r.component || r.modelCpu
  }

  /** Offloading needs CUDA and the hook for it; sequential offload goes before the others. */
  lemma PlacedWhere(hooks: Hooks, r: Request)
    ensures Placement(hooks, r) == Ok(SequentialCpu) <==>
      r.sequential && r.device == Cuda && hooks.sequentialOffload && (Cuda, SequentialCpu) !in hooks.raises
    ensures Placement(hooks, r) == Ok(ModelCpu) <==>
      && !r.sequential && (r.component || r.modelCpu) && r.device == Cuda && hooks.modelOffload
      && (Cuda, ModelCpu) !in hooks.raises
    ensures Placement(hooks, r) == Ok(NoOffload) <==> !WantsOffload(r) && (r.device, NoOffload) !in hooks.raises
    ensures Placement(hooks, r) != Ok(Component)
    ensures Placement(hooks, r).Err? ==>
      Placement(hooks, r).error == BackendConfigurationFailed(
        if r.sequential then SequentialCpu
        else if r.component then Component
        else if r.modelCpu then ModelCpu
        else NoOffload)
  {
  }

  /** Two requests share a pipeline exactly when they agree on all of this. */
  lemma SharedWhen(r: Request, q: Request)
    ensures CacheKey(r) == CacheKey(q) <==>
      && r.model == q.model && r.asset == q.asset && r.task == q.task && r.hasImage == q.hasImage && r.dtype == q.dtype
      && r.device == q.device && (r.device == Cuda ==> r.cudaIndex == q.cudaIndex)
      && r.sequential == q.sequential
      && (!r.sequential ==> r.component == q.component && (!r.component ==> r.modelCpu == q.modelCpu))
      && r.vaeTiling == q.vaeTiling && r.temporalVaeTiling == q.temporalVaeTiling
      && r.vaeSlicing == q.vaeSlicing && r.attentionSlicing == q.attentionSlicing
      && |r.loras| == |q.loras| && forall i :: 0 <= i < |r.loras| ==> r.loras[i] == q.loras[i]
  {
    if CacheKey(r) == CacheKey(q) {
      EqualKeysEqualLoras(r, q);
    }
    assert SelectedOffload(r) == SelectedOffload(q) <==>
      && r.sequential == q.sequential
      && (!r.sequential ==> r.component == q.component && (!r.component ==> r.modelCpu == q.modelCpu));
    if r.loras == q.loras {
      assert CacheKey(r).loras == CacheKey(q).loras;
    }
  }

  /** The LoRA that is blamed is the first that does not load. */
  lemma {:induction false} FirstUnloadableIsFirst(w: World, source: Source, loras: seq<Lora>)
    ensures FirstUnloadable(w, source, loras).None? <==>
      forall i :: 0 <= i < |loras| ==> w.loraLoads(source, loras[i].identity)
    ensures FirstUnloadable(w, source, loras).Some? ==>
      exists i :: 0 <= i < |loras| && FailsFirst(w, source, loras, i)
                  && FirstUnloadable(w, source, loras) == Some(loras[i].identity)
  {
    if loras != [] {
      if !w.loraLoads(source, loras[0].identity) {
        assert FailsFirst(w, source, loras, 0);
      } else {
        var rest := loras[1..];
        FirstUnloadableIsFirst(w, source, rest);
        assert forall i :: 0 < i < |loras| ==> loras[i] == rest[i - 1];
        if i :| 0 <= i < |rest| && FailsFirst(w, source, rest, i)
                && FirstUnloadable(w, source, rest) == Some(rest[i].identity) {
          assert FailsFirst(w, source, loras, i + 1);
        }
      }
    }
  }

  ghost predicate FailsFirst(w: World, source: Source, loras: seq<Lora>, i: nat)
    requires i < |loras|
  {
    && !w.loraLoads(source, loras[i].identity)
    && forall j :: 0 <= j < i ==> w.loraLoads(source, loras[j].identity)
  }

  /* ---------- Judging ---------- */

  /** A finding that nobody may ignore, about something the caller did not ask for by name. */
  predicate Unbearable(s: Session, f: Finding) {
    f.path !in s.guard.explicit && f.fatal.Some?
  }

  predicate Stops(s: Session, f: Finding) {
    Unbearable(s, f) || StrictlyRejected(s, f.path)
  }

  predicate NewlyExplicit(s: Session, f: Finding) {
    f.path in s.guard.explicit && f.path !in s.guard.unsupported
  }

  ghost predicate DistinctPaths(findings: seq<Finding>) {
    forall i, j :: 0 <= i < j < |findings| ==> findings[i].path != findings[j].path
  }

  /** The warnings about what was not asked for by name, in order. */
  function ImplicitWarnings(s: Session, findings: seq<Finding>): seq<string> {
    if findings == [] then []
    else
      var before, last := findings[..|findings| - 1], findings[|findings| - 1];
      ImplicitWarnings(s, before)
      + (if last.path !in s.guard.explicit && last.warning.Some? then [last.warning.value] else [])
  }

  /** Under a warning policy, one text for each parameter put on record. */
  function RecordTexts(s: Session, findings: seq<Finding>): seq<string> {
    if findings == [] || s.guard.policy != Warn then []
    else
      var before, last := findings[..|findings| - 1], findings[|findings| - 1];
      RecordTexts(s, before)
      + (if NewlyExplicit(s, last)
         then ["explicit parameter '" + last.path + "' is unsupported by the " + s.guard.adapter
               + " adapter and was ignored: " + last.reason]
         else [])
  }

  /** What is on record for `path` after these findings. */
  ghost predicate RecordAt(s: Session, findings: seq<Finding>, unsupported: map<string, string>, path: string) {
    && (path in s.guard.unsupported ==> path in unsupported && unsupported[path] == s.guard.unsupported[path])
    && (path !in s.guard.unsupported ==>
          && (path in unsupported <==>
                path in s.guard.explicit && exists i :: 0 <= i < |findings| && findings[i].path == path)
          && forall i :: 0 <= i < |findings| && findings[i].path == path && path in unsupported ==>
               unsupported[path] == findings[i].reason)
  }

  /** The session after findings that all let it go on. */
  ghost predicate WentOn(s: Session, findings: seq<Finding>, t: Session) {
    && t.guard.adapter == s.guard.adapter && t.guard.policy == s.guard.policy && t.guard.explicit == s.guard.explicit
    && t.warnings == s.warnings + ImplicitWarnings(s, findings)
    && t.guard.warnings == s.guard.warnings + RecordTexts(s, findings)
    && forall path :: RecordAt(s, findings, t.guard.unsupported, path)
  }

  ghost predicate StoppedBy(s: Session, f: Finding, e: Failure) {
    if f.path in s.guard.explicit then e == UnsupportedParameter(f.path, f.reason)
    else f.fatal.Some? && e == UnsupportedImplicitly(f.fatal.value)
  }

  ghost predicate FirstStop(s: Session, findings: seq<Finding>, i: nat)
    requires i < |findings|
  {
    Stops(s, findings[i]) && forall j :: 0 <= j < i ==> !Stops(s, findings[j])
  }

  lemma PushedRecord(s: Session, before: seq<Finding>, unsupported: map<string, string>, f: Finding, path: string)
    requires (forall i :: 0 <= i < |before| ==> before[i].path != f.path)
    requires RecordAt(s, before, unsupported, path) && RecordAt(s, before, unsupported, f.path)
    ensures f.path in s.guard.explicit ==>
      RecordAt(s, before + [f], if f.path in unsupported then unsupported else unsupported[f.path := f.reason], path)
    ensures f.path !in s.guard.explicit ==> RecordAt(s, before + [f], unsupported, path)
  {
    var all := before + [f];
    assert forall i :: 0 <= i < |before| ==> all[i] == before[i];
    assert all[|before|] == f;
  }

  lemma PushedOn(s: Session, before: seq<Finding>, t: Session, f: Finding)
    requires DistinctPaths(before + [f]) && WentOn(s, before, t) && !Stops(s, f)
    ensures Judge(t, f).Ok? && WentOn(s, before + [f], Judge(t, f).value)
  {
    var all := before + [f];
    assert all[..|all| - 1] == before && all[|all| - 1] == f;
    assert RecordAt(s, before, t.guard.unsupported, f.path);
    NotAmong(before, f);
    var u := Judge(t, f).value;
    forall path ensures RecordAt(s, all, u.guard.unsupported, path) {
      assert RecordAt(s, before, t.guard.unsupported, path);
      PushedRecord(s, before, t.guard.unsupported, f, path);
    }
  }

  lemma NotAmong(before: seq<Finding>, f: Finding)
    requires DistinctPaths(before + [f])
    ensures forall i :: 0 <= i < |before| ==> before[i].path != f.path
    ensures DistinctPaths(before)
  {
    var all := before + [f];
    forall i | 0 <= i < |before| ensures before[i].path != f.path {
      assert all[i] == before[i] && all[|before|] == f;
    }
    forall i, j | 0 <= i < j < |before| ensures before[i].path != before[j].path {
      assert all[i] == before[i] && all[j] == before[j];
    }
  }

  lemma PushedStops(s: Session, before: seq<Finding>, t: Session, f: Finding)
    requires DistinctPaths(before + [f]) && WentOn(s, before, t) && Stops(s, f)
    ensures Judge(t, f).Err? && StoppedBy(s, f, Judge(t, f).error)
  {
    NotAmong(before, f);
    assert RecordAt(s, before, t.guard.unsupported, f.path);
  }

  /**
   * Findings about different parameters go by exactly when none is both fatal and implicit and no explicit one that is
   * new meets a strict policy; otherwise the first of those ends the request.
   */
  lemma {:induction false} JudgedByFields(s: Session, findings: seq<Finding>)
    requires DistinctPaths(findings)
    ensures JudgeAll(s, findings).Ok? <==> forall i :: 0 <= i < |findings| ==> !Stops(s, findings[i])
    ensures JudgeAll(s, findings).Ok? ==> WentOn(s, findings, JudgeAll(s, findings).value)
    ensures JudgeAll(s, findings).Err? ==>
      exists i :: 0 <= i < |findings|
        && FirstStop(s, findings, i) && StoppedBy(s, findings[i], JudgeAll(s, findings).error)
    decreases |findings|
  {
    if findings == [] {
      forall path ensures RecordAt(s, findings, s.guard.unsupported, path) {
      }
      return;
    }
    var n := |findings| - 1;
    var before, f := findings[..n], findings[n];
    assert findings == before + [f];
    NotAmong(before, f);
    JudgedByFields(s, before);
    JudgeAllSplit(s, before, [f]);
    var judged := JudgeAll(s, before);
    if judged.Ok? {
      assert JudgeAll(judged.value, [f]) == Judge(judged.value, f);
      if Stops(s, f) {
        PushedStops(s, before, judged.value, f);
        assert FirstStop(s, findings, n);
      } else {
        PushedOn(s, before, judged.value, f);
      }
    } else {
      var i :| 0 <= i < n && FirstStop(s, before, i) && StoppedBy(s, before[i], judged.error);
      assert FirstStop(s, findings, i);
    }
  }

  /* ---------- Whole requests ---------- */

  predicate LacksTiling(w: World, r: Request) {
    (r.vaeTiling || r.temporalVaeTiling) && !w.hooks(SourceOf(r)).vaeTiling
  }

  predicate LacksSlicing(w: World, r: Request) {
    r.vaeSlicing && !w.hooks(SourceOf(r)).vaeSlicing
  }

  predicate LacksLoras(w: World, r: Request) {
    r.loras != [] && !w.hooks(SourceOf(r)).loraLoading
  }

  predicate LacksWeights(w: World, r: Request) {
    && w.hooks(SourceOf(r)).loraLoading && !w.hooks(SourceOf(r)).adapterWeights
    && exists i :: 0 <= i < |r.loras| && r.loras[i].weight != 1.0
  }

  function TilingPath(r: Request): string {
    if r.task.VideoTask? then "video.temporal_vae_tiling" else "image.vae_tiling"
  }

  /** A strict policy lets no new explicit parameter pass that the pipeline lacks. */
  predicate StrictlyLacks(w: World, r: Request, s: Session) {
    || (LacksTiling(w, r) && StrictlyRejected(s, TilingPath(r)))
    || (LacksSlicing(w, r) && StrictlyRejected(s, "image.vae_slicing"))
    || ((LacksLoras(w, r) || LacksWeights(w, r)) && StrictlyRejected(s, "image.loras"))
  }

  /** LoRAs that resolved defaults ask for may not be ignored, nor their loss be a mere warning. */
  predicate LosesLoras(w: World, r: Request, s: Session) {
    LacksLoras(w, r) && "image.loras" !in s.guard.explicit
  }

  function Warned(lacks: bool, s: Session, path: string, text: string): seq<string> {
    if lacks && path !in s.guard.explicit then [text] else []
  }

  /** The warnings of a request that goes ahead, about what only resolved defaults asked for. */
  function DefaultWarnings(w: World, r: Request, s: Session): seq<string> {
    Warned(LacksTiling(w, r), s, TilingPath(r), TILING_WARNING)
    + Warned(LacksSlicing(w, r), s, "image.vae_slicing", SLICING_WARNING)
    + Warned(LacksWeights(w, r), s, "image.loras", WEIGHTS_WARNING)
  }

  function AllFindings(w: World, r: Request): seq<Finding> {
    VaeFindings(w.hooks(SourceOf(r)), r) + LoraFindings(w.hooks(SourceOf(r)), r.loras)
  }

  /** At most one finding, about `path`. */
  ghost predicate AtMostOne(findings: seq<Finding>, lacks: bool, path: string) {
    |findings| == (if lacks then 1 else 0) && (lacks ==> findings[0].path == path)
  }

  lemma DistinctParts(a: seq<Finding>, b: seq<Finding>, c: seq<Finding>)
    requires |a| <= 1 && |b| <= 1 && |c| <= 1
    requires a != [] && b != [] ==> a[0].path != b[0].path
    requires a != [] && c != [] ==> a[0].path != c[0].path
    requires b != [] && c != [] ==> b[0].path != c[0].path
    ensures DistinctPaths(a + b + c)
  {
  }

  lemma StopsInParts(s: Session, a: seq<Finding>, b: seq<Finding>, c: seq<Finding>)
    requires |a| <= 1 && |b| <= 1 && |c| <= 1
    ensures var all := a + b + c;
      (forall i :: 0 <= i < |all| ==> !Stops(s, all[i])) <==>
        && (a != [] ==> !Stops(s, a[0])) && (b != [] ==> !Stops(s, b[0])) && (c != [] ==> !Stops(s, c[0]))
  {
    var all := a + b + c;
    assert a != [] ==> all[0] == a[0];
    assert b != [] ==> all[|a|] == b[0];
    assert c != [] ==> all[|a| + |b|] == c[0];
  }

  /** What the three parts of the findings are about. */
  lemma VaeParts(w: World, r: Request)
    ensures var hooks := w.hooks(SourceOf(r));
      && AtMostOne(Untiled(hooks, r), LacksTiling(w, r), TilingPath(r))
      && AtMostOne(Unsliced(hooks, r), LacksSlicing(w, r), "image.vae_slicing")
      && (LacksTiling(w, r) ==> Untiled(hooks, r)[0].fatal.None?)
      && (LacksSlicing(w, r) ==> Unsliced(hooks, r)[0].fatal.None?)
  {
  }

  lemma LoraPart(w: World, r: Request)
    ensures var findings := LoraFindings(w.hooks(SourceOf(r)), r.loras);
      && AtMostOne(findings, LacksLoras(w, r) || LacksWeights(w, r), "image.loras")
      && (LacksLoras(w, r) ==>
            findings[0].warning == None
            && findings[0].fatal == Some("LoRA adapters are not supported by the selected pipeline"))
      && (LacksWeights(w, r) ==>
            findings[0].fatal == None && findings[0].warning == Some(WEIGHTS_WARNING))
  {
  }

  const TILING_WARNING := "VAE tiling requested by resolved defaults but unavailable on the selected pipeline"
  const SLICING_WARNING := "VAE slicing requested by resolved defaults but unavailable on the selected pipeline"
  const WEIGHTS_WARNING :=
    "pipeline loaded LoRA adapters but cannot apply adapter weights from resolved defaults"

  lemma VaeWarnings(w: World, r: Request)
    ensures LacksTiling(w, r) ==> Untiled(w.hooks(SourceOf(r)), r)[0].warning == Some(TILING_WARNING)
    ensures LacksSlicing(w, r) ==> Unsliced(w.hooks(SourceOf(r)), r)[0].warning == Some(SLICING_WARNING)
  {
  }

  lemma ThreePaths(r: Request)
    ensures TilingPath(r) != "image.vae_slicing" && TilingPath(r) != "image.loras"
    ensures "image.vae_slicing" != "image.loras"
  {
    PathsDiffer();
  }

  lemma FindingsAreDistinct(w: World, r: Request)
    ensures DistinctPaths(AllFindings(w, r))
  {
    var hooks := w.hooks(SourceOf(r));
    VaeParts(w, r);
    LoraPart(w, r);
    ThreePaths(r);
    DistinctParts(Untiled(hooks, r), Unsliced(hooks, r), LoraFindings(hooks, r.loras));
  }

  lemma ImplicitWarningsSplit(s: Session, a: seq<Finding>, b: seq<Finding>)
    requires |b| <= 1
    ensures ImplicitWarnings(s, a + b) == ImplicitWarnings(s, a) + ImplicitWarnings(s, b)
  {
    if b == [] {
      assert a + b == a;
    } else {
      assert (a + b)[..|a|] == a && b[..0] == [];
    }
  }

  lemma WarningsInParts(s: Session, a: seq<Finding>, b: seq<Finding>, c: seq<Finding>)
    requires |a| <= 1 && |b| <= 1 && |c| <= 1
    ensures ImplicitWarnings(s, a + b + c)
      == ImplicitWarnings(s, a) + ImplicitWarnings(s, b) + ImplicitWarnings(s, c)
  {
    ImplicitWarningsSplit(s, a, b);
    ImplicitWarningsSplit(s, a + b, c);
  }

  /** One part of the findings warns as its parameter says. */
  lemma PartWarns(s: Session, findings: seq<Finding>, lacks: bool, path: string, warns: bool, text: string)
    requires AtMostOne(findings, lacks, path) && (warns ==> lacks)
    requires lacks ==> findings[0].warning == if warns then Some(text) else None
    ensures ImplicitWarnings(s, findings) == Warned(warns, s, path, text)
  {
    OneWarns(s, findings);
  }

  lemma FindingsWarn(w: World, r: Request, s: Session)
    ensures ImplicitWarnings(s, AllFindings(w, r)) == DefaultWarnings(w, r, s)
  {
    var hooks := w.hooks(SourceOf(r));
    var tiling, slicing, loras := Untiled(hooks, r), Unsliced(hooks, r), LoraFindings(hooks, r.loras);
    VaeParts(w, r);
    VaeWarnings(w, r);
    LoraPart(w, r);
    WarningsInParts(s, tiling, slicing, loras);
    PartWarns(s, tiling, LacksTiling(w, r), TilingPath(r), LacksTiling(w, r), TILING_WARNING);
    PartWarns(s, slicing, LacksSlicing(w, r), "image.vae_slicing", LacksSlicing(w, r), SLICING_WARNING);
    PartWarns(s, loras, LacksLoras(w, r) || LacksWeights(w, r), "image.loras", LacksWeights(w, r), WEIGHTS_WARNING);
  }

  lemma OneWarns(s: Session, findings: seq<Finding>)
    requires |findings| <= 1
    ensures ImplicitWarnings(s, findings)
      == if findings != [] && findings[0].path !in s.guard.explicit && findings[0].warning.Some?
         then [findings[0].warning.value] else []
  {
    if findings != [] {
      assert findings[..0] == [];
    }
  }

  lemma PartStops(s: Session, findings: seq<Finding>, lacks: bool, path: string, fatal: bool)
    requires AtMostOne(findings, lacks, path) && (lacks ==> findings[0].fatal.Some? == fatal)
    ensures (findings != [] ==> !Stops(s, findings[0])) <==>
      !lacks || (!StrictlyRejected(s, path) && (fatal ==> path in s.guard.explicit))
  {
  }

  lemma NoneStops(w: World, r: Request, s: Session)
    ensures (forall i :: 0 <= i < |AllFindings(w, r)| ==> !Stops(s, AllFindings(w, r)[i])) <==>
      !StrictlyLacks(w, r, s) && !LosesLoras(w, r, s)
  {
    var hooks := w.hooks(SourceOf(r));
    var tiling, slicing, loras := Untiled(hooks, r), Unsliced(hooks, r), LoraFindings(hooks, r.loras);
    VaeParts(w, r);
    LoraPart(w, r);
    assert AllFindings(w, r) == tiling + slicing + loras;
    StopsInParts(s, tiling, slicing, loras);
    PartStops(s, tiling, LacksTiling(w, r), TilingPath(r), false);
    PartStops(s, slicing, LacksSlicing(w, r), "image.vae_slicing", false);
    PartStops(s, loras, LacksLoras(w, r) || LacksWeights(w, r), "image.loras", LacksLoras(w, r));
  }

  /**
   * A placed request whose LoRAs load goes ahead, with and without a cache, exactly when it lacks nothing explicit
   * under a strict policy and no LoRA of the defaults; its warnings are those about the other defaults it lacks.
   */
  lemma VerdictByFields(w: World, r: Request, s: Session)
    requires Placeable(w, r) && LoraFailure(w, r).None?
    ensures Uncached(w, r, s) == Replayed(w, r, s)
    ensures Uncached(w, r, s).Ok? <==> !StrictlyLacks(w, r, s) && !LosesLoras(w, r, s)
    ensures Uncached(w, r, s).Ok? ==> Uncached(w, r, s).value.warnings == s.warnings + DefaultWarnings(w, r, s)
  {
    WhenPlaceable(w, r, s);
    FindingsAreDistinct(w, r);
    JudgedByFields(s, AllFindings(w, r));
    FindingsWarn(w, r, s);
    NoneStops(w, r, s);
  }

  /** A LoRA of the defaults on a pipeline that takes none ends the request, unless a VAE parameter ends it before. */
  lemma ImplicitLorasAreNotIgnored(w: World, r: Request, s: Session)
    requires Placeable(w, r) && LosesLoras(w, r, s) && !StrictVaeRejection(w, r, s)
    ensures Uncached(w, r, s) == Err(UnsupportedImplicitly("LoRA adapters are not supported by the selected pipeline"))
    ensures Replayed(w, r, s) == Uncached(w, r, s)
  {
    WhenPlaceable(w, r, s);
    VaeJudged(w, r, s);
    var hooks := w.hooks(SourceOf(r));
    var vae, loras := VaeFindings(hooks, r), LoraFindings(hooks, r.loras);
    JudgeAllSplit(s, vae, loras);
    var t := JudgeAll(s, vae).value;
    FindingsAreDistinct(w, r);
    VaeParts(w, r);
    JudgedByFields(s, vae);
    LoraPart(w, r);
    assert loras == [loras[0]] && JudgeAll(t, loras) == Judge(t, loras[0]);
  }
}
