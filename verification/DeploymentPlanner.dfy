/**
 * Resolving a deployment configuration in src/deployments.rs: one plan per profile, over devices that are never
 * shared.
 */
module DeploymentPlanner {
  import opened Common
  import opened DeploymentDevices

  datatype Strategy = Auto | Single | Layer | Tensor | Pipeline | Expert

  /** What the planner needs of a profile; `llamaOffload` says how a llama profile offloads. */
  datatype Profile = Profile(
    id: string, alias: string, model: string, vllm: bool, gpus: seq<string>, strategy: Strategy,
    tensorParallel: nat, pipelineParallel: nat, split: nat, kvCpu: bool, offloads: bool,
    memory: seq<DeviceBudget>, hostBytes: u64)

  /** The parts of a local model configuration that parallel placement looks at. */
  datatype ModelConfig = ModelConfig(
    quantized: bool, heads: Option<nat>, kvHeads: Option<nat>, layers: Option<nat>, experts: Option<nat>)

  datatype Manifest = Manifest(safeTensors: bool, config: Option<ModelConfig>)

  datatype Failure =
    | BadConfiguration | DuplicateId | UnknownModel | BadParallelism | AliasConflict
    | BadProfile | NoFittingGpu | DuplicateGpu | UnknownGpu | BudgetCount | BudgetMisfit
    | BadStrategy | BadFraction | HostOverflow | HostUnknown | HostExceeded

  /* ---------- Parallel placement ---------- */

  /** `validate_model_parallel`. */
  function ModelParallel(p: Profile, config: Option<ModelConfig>): bool {
    if !p.vllm || (p.tensorParallel == 1 && p.pipelineParallel == 1) then true
    else if config.None? || config.value.quantized then false
    else
      var c, tp := config.value, p.tensorParallel;
      && c.heads.Some? && tp > 0 && c.heads.value > 0 && c.heads.value % tp == 0
      && (c.kvHeads.None?
          || (c.kvHeads.value > 0
              && if c.kvHeads.value >= tp then c.kvHeads.value % tp == 0 else tp % c.kvHeads.value == 0))
      && (p.pipelineParallel > 1 ==> c.layers.Some? && c.layers.value >= p.pipelineParallel)
      && (p.strategy == Expert ==> c.experts.Some? && c.experts.value > 0 && c.experts.value % tp == 0)
  }

  /** `count` things over `ranks` ranks: the same positive number on each. */
  ghost predicate EvenlySplit(count: nat, ranks: nat) {
    exists each: nat :: each > 0 && count == each * ranks
  }

  /** `count` things over `ranks` ranks: split evenly, or each held by the same number of ranks. */
  ghost predicate SplitOrReplicated(count: nat, ranks: nat) {
    EvenlySplit(count, ranks) || EvenlySplit(ranks, count)
  }

  lemma EvenlySplitIff(count: nat, ranks: nat)
    requires ranks > 0
    ensures EvenlySplit(count, ranks) <==> count > 0 && count % ranks == 0
  {
    if count > 0 && count % ranks == 0 {
      assert count == (count / ranks) * ranks;
      assert count / ranks > 0;
    }
    if EvenlySplit(count, ranks) {
      var each: nat :| each > 0 && count == each * ranks;
      MultipleDivides(each, ranks);
    }
  }

  lemma AtLeastOnce(k: int, n: int)
    requires k >= 1 && n > 0
    ensures k * n >= n
  {
  }

  lemma MultipleDivides(each: nat, ranks: nat)
    requires ranks > 0
    ensures each * ranks % ranks == 0 && (each > 0 ==> each * ranks > 0)
  {
    var whole := each * ranks;
    var quotient, rest := whole / ranks, whole % ranks;
    var k := each - quotient;
    assert k * ranks == each * ranks - quotient * ranks == rest;
    if k >= 1 {
      AtLeastOnce(k, ranks);
    } else if k <= -1 {
      AtLeastOnce(-k, ranks);
    }
    if each > 0 {
      AtLeastOnce(each, ranks);
    }
  }

  lemma NotEvenlySplitUp(count: nat, ranks: nat)
    requires 0 < count < ranks
    ensures !EvenlySplit(count, ranks)
  {
    EvenlySplitIff(count, ranks);
  }

  lemma NotEvenlySplitDown(count: nat, ranks: nat)
    requires 0 < ranks < count
    ensures !EvenlySplit(ranks, count)
  {
    NotEvenlySplitUp(ranks, count);
  }

  /** What passing the check means for a profile that is parallel at all. */
  lemma ParallelMeans(p: Profile, config: Option<ModelConfig>)
    requires p.vllm && (p.tensorParallel != 1 || p.pipelineParallel != 1) && p.tensorParallel > 0
    ensures ModelParallel(p, config) <==>
      config.Some? && !config.value.quantized
      && config.value.heads.Some? && EvenlySplit(config.value.heads.value, p.tensorParallel)
      && (config.value.kvHeads.Some? ==>
            config.value.kvHeads.value > 0 && SplitOrReplicated(config.value.kvHeads.value, p.tensorParallel))
      && (p.pipelineParallel > 1 ==> config.value.layers.Some? && config.value.layers.value >= p.pipelineParallel)
      && (p.strategy == Expert ==>
            config.value.experts.Some? && EvenlySplit(config.value.experts.value, p.tensorParallel))
  {
    if config.Some? {
      var c, tp := config.value, p.tensorParallel;
      if c.heads.Some? {
        EvenlySplitIff(c.heads.value, tp);
      }
      if c.experts.Some? {
        EvenlySplitIff(c.experts.value, tp);
      }
      if c.kvHeads.Some? && c.kvHeads.value > 0 {
        EvenlySplitIff(c.kvHeads.value, tp);
        EvenlySplitIff(tp, c.kvHeads.value);
        if c.kvHeads.value > tp {
          NotEvenlySplitDown(c.kvHeads.value, tp);
        } else if c.kvHeads.value < tp {
          NotEvenlySplitUp(c.kvHeads.value, tp);
        }
      }
    }
  }

  /* ---------- One profile ---------- */

  /** Looks each identifier up among the visible devices, in the order given. */
  function SelectExplicit(devices: seq<Device>, gpus: seq<string>, seen: set<string>): Result<seq<Device>, Failure>
    decreases |gpus|
  {
    if gpus == [] then Ok([])
    else if gpus[0] in seen then Err(DuplicateGpu)
    else
      match FindVisible(devices, gpus[0])
      case None => Err(UnknownGpu)
      case Some(d) =>
        match SelectExplicit(devices, gpus[1..], seen + {gpus[0]})
        case Err(e) => Err(e)
        case Ok(rest) => Ok([d] + rest)
  }

  function Select(p: Profile, devices: seq<Device>): Result<seq<Device>, Failure> {
    if p.strategy == Auto && p.gpus == [] then
      if |p.memory| != 1 then Err(BudgetCount)
      else if BudgetOf(p.memory[0]).None? then Err(BudgetMisfit)
      else
        match LeastFitting(Visible(devices), BudgetOf(p.memory[0]).value)
        case None => Err(NoFittingGpu)
        case Some(d) => Ok([d])
    else if p.gpus == [] then Err(UnknownGpu)
    else SelectExplicit(devices, p.gpus, {})
  }

  ghost predicate Distinct(ids: seq<string>) {
    forall i, j :: 0 <= i < j < |ids| ==> ids[i] != ids[j]
  }

  function IdsOf(devices: seq<Device>): seq<string> {
    seq(|devices|, i requires 0 <= i < |devices| => devices[i].id)
  }

  /** Every identifier is new and names a visible device. */
  ghost predicate Selectable(devices: seq<Device>, gpus: seq<string>, seen: set<string>) {
    Distinct(gpus) && forall g :: g in gpus ==> g !in seen && FindVisible(devices, g).Some?
  }

  lemma SelectableStep(devices: seq<Device>, gpus: seq<string>, seen: set<string>)
    requires gpus != []
    ensures Selectable(devices, gpus, seen) <==>
      gpus[0] !in seen && FindVisible(devices, gpus[0]).Some? && Selectable(devices, gpus[1..], seen + {gpus[0]})
  {
    var rest := gpus[1..];
    assert gpus == [gpus[0]] + rest;
    if Selectable(devices, gpus, seen) {
      forall g | g in rest ensures g !in seen + {gpus[0]} {
        assert g in gpus;
      }
    }
    if Selectable(devices, rest, seen + {gpus[0]}) {
      assert gpus[0] !in rest;
    }
  }

  lemma {:induction false} SelectExplicitMeans(devices: seq<Device>, gpus: seq<string>, seen: set<string>)
    ensures SelectExplicit(devices, gpus, seen).Ok? <==> Selectable(devices, gpus, seen)
    decreases |gpus|
  {
    if gpus != [] {
      SelectableStep(devices, gpus, seen);
      SelectExplicitMeans(devices, gpus[1..], seen + {gpus[0]});
    }
  }

  lemma {:induction false} SelectExplicitFinds(devices: seq<Device>, gpus: seq<string>, seen: set<string>)
    requires SelectExplicit(devices, gpus, seen).Ok?
    ensures var chosen := SelectExplicit(devices, gpus, seen).value;
      IdsOf(chosen) == gpus && forall d :: d in chosen ==> d in devices && d.visibleIndex.Some?
    decreases |gpus|
  {
    if gpus != [] {
      SelectExplicitFinds(devices, gpus[1..], seen + {gpus[0]});
      var rest := SelectExplicit(devices, gpus[1..], seen + {gpus[0]}).value;
      var chosen := SelectExplicit(devices, gpus, seen).value;
      assert chosen == [chosen[0]] + rest && chosen[0].id == gpus[0];
      assert forall i :: 0 <= i < |rest| ==> IdsOf(chosen)[i + 1] == IdsOf(rest)[i];
    }
  }

  predicate Holds(d: Device, b: DeviceBudget) {
    && d.cuda && b.reserve > 0 && b.overhead > 0 && b.compute > 0
    && BudgetOf(b).Some? && Fits(d, BudgetOf(b).value)
  }

  ghost predicate AllHold(devices: seq<Device>, memory: seq<DeviceBudget>) {
    |devices| == |memory| && forall i :: 0 <= i < |devices| ==> Holds(devices[i], memory[i])
  }

  function Chosen(p: Profile): Strategy {
    if p.strategy == Auto then Single else p.strategy
  }

  /** The shape a strategy demands of the device group and of the parallel sizes. */
  predicate ShapeFits(p: Profile, count: nat) {
    var strategy, tp, pp := Chosen(p), p.tensorParallel, p.pipelineParallel;
    && (strategy == Single ==> count == 1)
    && if p.vllm then
         && p.split == 0 && !p.kvCpu && tp > 0 && pp > 0 && tp * pp == count
         && match strategy
            case Single => tp == 1 && pp == 1
            case Tensor => tp > 1 && pp == 1
            case Pipeline => pp > 1
            case Expert => tp > 1 && pp == 1 && !p.offloads
            case Layer | Auto => false
       else
         && (strategy == Single || strategy == Layer) && tp == 1 && pp == 1
         && (p.split > 0 ==> strategy == Layer && p.split == count)
         && (strategy == Layer && p.split == 0 ==> forall b :: b in p.memory ==> b.weights > 0)
  }

  datatype Plan = Plan(profile: Profile, devices: seq<Device>, strategy: Strategy, fraction: Option<real>)

  /**
   * The checks on text, files and native options that this model takes as given, before and after devices are chosen.
   */
  datatype Checks = Checks(written: Profile -> bool, runs: (Profile, seq<Device>) -> bool)

  /** What a plan needs once its devices are chosen. */
  ghost predicate Accepts(checks: Checks, p: Profile, manifest: Manifest, chosen: seq<Device>) {
    && checks.written(p) && p.hostBytes > 0 && manifest.safeTensors == p.vllm
    && AllHold(chosen, p.memory)
    && ShapeFits(p, |chosen|)
    && (p.vllm ==> Totalled(p.memory) && 0.0 < Fraction(chosen, p.memory) < 1.0)
    && checks.runs(p, chosen)
  }

  ghost function PlanFor(p: Profile, chosen: seq<Device>): Plan
    requires p.vllm ==> |chosen| == |p.memory| && Totalled(p.memory)
  {
    Plan(p, chosen, Chosen(p), if p.vllm then Some(Fraction(chosen, p.memory)) else None)
  }

  /** The loop over devices and budgets. */
  method CheckBudgets(devices: seq<Device>, memory: seq<DeviceBudget>) returns (ok: bool)
    requires |devices| == |memory|
    ensures ok <==> AllHold(devices, memory)
  {
    for i := 0 to |devices|
      invariant forall j :: 0 <= j < i ==> Holds(devices[j], memory[j])
    {
      var total := Total(memory[i]);
      if !devices[i].cuda || memory[i].reserve == 0 || memory[i].overhead == 0 || memory[i].compute == 0
         || total.None? || devices[i].freeBytes.None? || total.value > devices[i].freeBytes.value {
        assert !Holds(devices[i], memory[i]);
        return false;
      }
    }
    return true;
  }

  /** The fold over the ranks. */
  method LeastShare(devices: seq<Device>, memory: seq<DeviceBudget>) returns (fraction: real)
    requires |devices| == |memory| && Totalled(memory)
    ensures fraction == Fraction(devices, memory)
  {
    fraction := 1.0;
    for i := 0 to |devices|
      invariant fraction == Fraction(devices[..i], memory[..i])
    {
      assert devices[..i + 1][..i] == devices[..i] && memory[..i + 1][..i] == memory[..i];
      var share := Share(devices[i], memory[i]);
      if share.Some? && share.value < fraction {
        fraction := share.value;
      }
    }
    assert devices[..|devices|] == devices && memory[..|memory|] == memory;
  }

  /** `Profile::resolve`. */
  method ResolveProfile(checks: Checks, p: Profile, manifest: Manifest, devices: seq<Device>)
    returns (plan: Result<Plan, Failure>)
    ensures plan.Ok? <==> Select(p, devices).Ok? && Accepts(checks, p, manifest, Select(p, devices).value)
    ensures plan.Ok? ==> plan.value == PlanFor(p, Select(p, devices).value)
  {
    if !checks.written(p) || p.hostBytes == 0 || manifest.safeTensors != p.vllm {
      return Err(BadProfile);
    }
    var selected := Select(p, devices);
    if selected.Err? {
      return Err(selected.error);
    }
    var chosen := selected.value;
    if |chosen| != |p.memory| {
      return Err(BudgetCount);
    }
    var fit := CheckBudgets(chosen, p.memory);
    if !fit {
      return Err(BudgetMisfit);
    }
    if !ShapeFits(p, |chosen|) {
      return Err(BadStrategy);
    }
    var fraction: Option<real> := None;
    if p.vllm {
      assert forall i :: 0 <= i < |p.memory| ==> Holds(chosen[i], p.memory[i]) && BudgetOf(p.memory[i]).Some?;
      var least := LeastShare(chosen, p.memory);
      if !(0.0 < least < 1.0) {
        return Err(BadFraction);
      }
      fraction := Some(least);
    }
    if !checks.runs(p, chosen) {
      return Err(BadProfile);
    }
    return Ok(Plan(p, chosen, Chosen(p), fraction));
  }

  /** What selection guarantees of the devices it finds. */
  ghost predicate WellChosen(p: Profile, devices: seq<Device>, chosen: seq<Device>) {
    && Distinct(IdsOf(chosen))
    && (forall d :: d in chosen ==> d in devices && d.visibleIndex.Some?)
    && (p.strategy == Auto && p.gpus == [] ==>
          && |chosen| == |p.memory| == 1 && BudgetOf(p.memory[0]).Some?
          && forall d :: d in devices && d.visibleIndex.Some? && Fits(d, BudgetOf(p.memory[0]).value) ==>
               !Smaller(d, chosen[0]))
    && (p.gpus != [] ==> IdsOf(chosen) == p.gpus)
  }

  lemma SelectChoosesWell(p: Profile, devices: seq<Device>)
    requires Select(p, devices).Ok?
    ensures WellChosen(p, devices, Select(p, devices).value)
  {
    if p.strategy == Auto && p.gpus == [] {
      LeastFittingIsLeast(Visible(devices), BudgetOf(p.memory[0]).value);
    } else {
      SelectExplicitMeans(devices, p.gpus, {});
      SelectExplicitFinds(devices, p.gpus, {});
    }
  }

  /* ---------- The whole configuration ---------- */

  datatype Environment = Environment(
    store: map<string, Manifest>, devices: seq<Device>, hostAvailable: Option<u64>, checks: Checks)

  ghost function Claimed(plans: seq<Plan>): set<string> {
    set i, k | 0 <= i < |plans| && 0 <= k < |plans[i].devices| :: plans[i].devices[k].id
  }

  function HostSum(profiles: seq<Profile>): nat {
    if profiles == [] then 0 else HostSum(profiles[..|profiles| - 1]) + profiles[|profiles| - 1].hostBytes
  }

  lemma {:induction false} HostSumGrows(profiles: seq<Profile>, i: nat)
    requires i <= |profiles|
    ensures HostSum(profiles[..i]) <= HostSum(profiles)
  {
    if i < |profiles| {
      HostSumGrows(profiles[..|profiles| - 1], i);
      assert profiles[..|profiles| - 1][..i] == profiles[..i];
    } else {
      assert profiles[..i] == profiles;
    }
  }

  /** Profile `i` does not clash with an earlier one in name, and replicas agree on their model. */
  ghost predicate Named(profiles: seq<Profile>, i: nat)
    requires i < |profiles|
  {
    forall j :: 0 <= j < i ==>
      && profiles[j].id != profiles[i].id
      && (profiles[j].alias == profiles[i].alias ==> profiles[j].model == profiles[i].model)
  }

  /** What is left of the inventory once `plans` are made. */
  ghost function Left(env: Environment, plans: seq<Plan>): seq<Device> {
    Unclaimed(env.devices, Claimed(plans))
  }

  /** The next profile can be planned after `plans`. */
  ghost predicate Possible(env: Environment, profiles: seq<Profile>, plans: seq<Plan>)
    requires |plans| < |profiles|
  {
    var p := profiles[|plans|];
    var selected := Select(p, Left(env, plans));
    && Named(profiles, |plans|)
    && p.model in env.store && ModelParallel(p, env.store[p.model].config)
    && selected.Ok? && Accepts(env.checks, p, env.store[p.model], selected.value)
    && HostSum(profiles[..|plans| + 1]) < U64_LIMIT
  }

  ghost function NextPlan(env: Environment, profiles: seq<Profile>, plans: seq<Plan>): Plan
    requires |plans| < |profiles| && Possible(env, profiles, plans)
  {
    PlanFor(profiles[|plans|], Select(profiles[|plans|], Left(env, plans)).value)
  }

  ghost predicate StepOk(env: Environment, profiles: seq<Profile>, plans: seq<Plan>, i: nat)
    requires i < |profiles| && i < |plans|
  {
    Possible(env, profiles, plans[..i]) && plans[i] == NextPlan(env, profiles, plans[..i])
  }

  ghost predicate Admitted(env: Environment, profiles: seq<Profile>, plans: seq<Plan>) {
    && |plans| == |profiles|
    && (forall i :: 0 <= i < |plans| ==> StepOk(env, profiles, plans, i))
    && (HostSum(profiles) > 0 ==> env.hostAvailable.Some? && HostSum(profiles) <= env.hostAvailable.value)
  }

  /** An accepted prefix of plans, and the only one: every admitted list starts with it. */
  ghost predicate Prefix(env: Environment, profiles: seq<Profile>, plans: seq<Plan>) {
    && |plans| <= |profiles|
    && (forall i :: 0 <= i < |plans| ==> StepOk(env, profiles, plans, i))
    && (forall q :: Admitted(env, profiles, q) ==> q[..|plans|] == plans)
  }

  lemma PrefixExtends(env: Environment, profiles: seq<Profile>, plans: seq<Plan>)
    requires Prefix(env, profiles, plans) && |plans| < |profiles| && Possible(env, profiles, plans)
    ensures Prefix(env, profiles, plans + [NextPlan(env, profiles, plans)])
  {
    var more, n := plans + [NextPlan(env, profiles, plans)], |plans|;
    forall i | 0 <= i < |more| ensures StepOk(env, profiles, more, i) {
      assert more[..i] == plans[..i];
      assert i < n ==> StepOk(env, profiles, plans, i);
      assert plans[..n] == plans;
    }
    forall q | Admitted(env, profiles, q) ensures q[..n + 1] == more {
      assert StepOk(env, profiles, q, n);
      assert q[..n + 1] == q[..n] + [q[n]];
    }
  }

  /** Once the next profile cannot be planned, no list of plans is admitted. */
  lemma PrefixStuck(env: Environment, profiles: seq<Profile>, plans: seq<Plan>, q: seq<Plan>)
    requires Prefix(env, profiles, plans) && |plans| < |profiles| && Admitted(env, profiles, q)
    ensures Possible(env, profiles, plans)
  {
    assert StepOk(env, profiles, q, |plans|);
  }

  /* ---------- The loop ---------- */

  ghost function IdSet(profiles: seq<Profile>): set<string> {
    if profiles == [] then {} else IdSet(profiles[..|profiles| - 1]) + {profiles[|profiles| - 1].id}
  }

  ghost function Aliases(profiles: seq<Profile>): map<string, string> {
    if profiles == [] then map[]
    else
      var last := profiles[|profiles| - 1];
      Aliases(profiles[..|profiles| - 1])[last.alias := last.model]
  }

  ghost predicate AllNamed(profiles: seq<Profile>) {
    forall i :: 0 <= i < |profiles| ==> Named(profiles, i)
  }

  lemma {:induction false} IdSetMeans(profiles: seq<Profile>, id: string)
    ensures id in IdSet(profiles) <==> exists j :: 0 <= j < |profiles| && profiles[j].id == id
  {
    if profiles != [] {
      var n := |profiles| - 1;
      IdSetMeans(profiles[..n], id);
      assert profiles[n].id == id ==> exists j :: 0 <= j < |profiles| && profiles[j].id == id;
      if j :| 0 <= j < n && profiles[..n][j].id == id {
        assert profiles[j].id == id;
      }
      if j :| 0 <= j < n && profiles[j].id == id {
        assert profiles[..n][j].id == id;
      }
    }
  }

  /** While replicas agree on their model, the last insertion under an alias speaks for all of them. */
  lemma {:induction false} AliasesMean(profiles: seq<Profile>, a: string)
    requires AllNamed(profiles)
    ensures a in Aliases(profiles) <==> exists j :: 0 <= j < |profiles| && profiles[j].alias == a
    ensures forall j :: 0 <= j < |profiles| && profiles[j].alias == a ==> Aliases(profiles)[a] == profiles[j].model
  {
    if profiles != [] {
      var n := |profiles| - 1;
      var before := profiles[..n];
      forall i | 0 <= i < n ensures Named(before, i) {
        assert Named(profiles, i);
      }
      AliasesMean(before, a);
      assert Named(profiles, n);
      assert forall j :: 0 <= j < n ==> before[j] == profiles[j];
      assert profiles[n].alias == a ==> exists j :: 0 <= j < |profiles| && profiles[j].alias == a;
      if j :| 0 <= j < n && before[j].alias == a {
        assert profiles[j].alias == a;
      }
    }
  }

  /** What the loop variables hold after the first profiles. */
  ghost predicate Tracks(profiles: seq<Profile>, plans: seq<Plan>, ids: set<string>, used: set<string>,
                         aliases: map<string, string>, host: nat)
  {
    && |plans| <= |profiles| && AllNamed(profiles[..|plans|])
    && ids == IdSet(profiles[..|plans|]) && aliases == Aliases(profiles[..|plans|])
    && used == Claimed(plans) && host == HostSum(profiles[..|plans|])
  }

  lemma NamedIff(profiles: seq<Profile>, n: nat)
    requires n < |profiles| && AllNamed(profiles[..n])
    ensures var p, before := profiles[n], profiles[..n];
      Named(profiles, n) <==>
        p.id !in IdSet(before) && (p.alias in Aliases(before) ==> Aliases(before)[p.alias] == p.model)
    ensures Named(profiles, n) ==> AllNamed(profiles[..n + 1])
  {
    var p, before := profiles[n], profiles[..n];
    IdSetMeans(before, p.id);
    AliasesMean(before, p.alias);
    assert forall j :: 0 <= j < n ==> before[j] == profiles[j];
    if Named(profiles, n) {
      var upTo := profiles[..n + 1];
      forall i | 0 <= i < |upTo| ensures Named(upTo, i) {
        assert i < n ==> Named(before, i);
      }
    }
  }

  lemma HostSumNext(profiles: seq<Profile>, n: nat)
    requires n < |profiles|
    ensures HostSum(profiles[..n + 1]) == HostSum(profiles[..n]) + profiles[n].hostBytes
  {
    assert profiles[..n + 1][..n] == profiles[..n];
  }

  lemma ClaimedNext(plans: seq<Plan>, plan: Plan)
    ensures Claimed(plans + [plan]) == Claimed(plans) + IdsIn(plan.devices)
  {
    var more, n := plans + [plan], |plans|;
    forall id | id in Claimed(plans) ensures id in Claimed(more) {
      var i, k :| 0 <= i < n && 0 <= k < |plans[i].devices| && plans[i].devices[k].id == id;
      assert more[i].devices[k].id == id;
    }
    forall d | d in plan.devices ensures d.id in Claimed(more) {
      var k :| 0 <= k < |plan.devices| && plan.devices[k] == d;
      assert more[n].devices[k].id == d.id;
    }
    forall id | id in Claimed(more) ensures id in Claimed(plans) + IdsIn(plan.devices) {
      var i, k :| 0 <= i < n + 1 && 0 <= k < |more[i].devices| && more[i].devices[k].id == id;
      assert i < n ==> plans[i].devices[k].id == id;
    }
  }

  lemma TracksNext(profiles: seq<Profile>, plans: seq<Plan>, ids: set<string>, used: set<string>,
                   aliases: map<string, string>, host: nat, plan: Plan)
    requires Tracks(profiles, plans, ids, used, aliases, host) && |plans| < |profiles| && Named(profiles, |plans|)
    ensures var p := profiles[|plans|];
      Tracks(profiles, plans + [plan], ids + {p.id}, used + IdsIn(plan.devices),
             aliases[p.alias := p.model], host + p.hostBytes)
  {
    var n := |plans|;
    NamedIff(profiles, n);
    HostSumNext(profiles, n);
    ClaimedNext(plans, plan);
    assert profiles[..n + 1][..n] == profiles[..n];
  }

  function IdsIn(devices: seq<Device>): set<string> {
    set d | d in devices :: d.id
  }

  lemma ChosenAreNew(env: Environment, p: Profile, used: set<string>, chosen: seq<Device>)
    requires Select(p, Unclaimed(env.devices, used)) == Ok(chosen)
    ensures used !! IdsIn(chosen) && Distinct(IdsOf(chosen))
  {
    SelectChoosesWell(p, Unclaimed(env.devices, used));
    forall d | d in chosen ensures d.id !in used {
      UnclaimedHolds(env.devices, used, d);
    }
  }

  lemma NotAmongEarlier(chosen: seq<Device>, k: nat)
    requires k < |chosen| && Distinct(IdsOf(chosen))
    ensures chosen[k].id !in IdsIn(chosen[..k])
    ensures IdsIn(chosen[..k + 1]) == IdsIn(chosen[..k]) + {chosen[k].id}
  {
    forall d | d in chosen[..k] ensures d.id != chosen[k].id {
      var j :| 0 <= j < k && chosen[j] == d;
      assert IdsOf(chosen)[j] == d.id && IdsOf(chosen)[k] == chosen[k].id;
    }
    assert chosen[..k + 1] == chosen[..k] + [chosen[k]];
  }

  /** Claims the devices of one plan: none of them can have been claimed before. */
  method Claim(env: Environment, p: Profile, used: set<string>, chosen: seq<Device>) returns (claimed: set<string>)
    requires Select(p, Unclaimed(env.devices, used)) == Ok(chosen)
    ensures claimed == used + IdsIn(chosen)
    ensures used !! IdsIn(chosen) && Distinct(IdsOf(chosen))
  {
    ChosenAreNew(env, p, used, chosen);
    claimed := used;
    for k := 0 to |chosen|
      invariant claimed == used + IdsIn(chosen[..k])
    {
      NotAmongEarlier(chosen, k);
      assert chosen[k].id in IdsIn(chosen);
      assert chosen[k].id !in claimed;
      claimed := claimed + {chosen[k].id};
    }
    assert chosen[..|chosen|] == chosen;
  }

  /** One round of the loop, but for the update of the loop variables. */
  method PlanNext(env: Environment, profiles: seq<Profile>, i: nat, ghost plans: seq<Plan>, ids: set<string>,
                  used: set<string>, aliases: map<string, string>, host: u64)
    returns (result: Result<Plan, Failure>)
    requires Tracks(profiles, plans, ids, used, aliases, host) && i == |plans| < |profiles|
    ensures result.Ok? <==> Possible(env, profiles, plans)
    ensures result.Ok? ==> result.value == NextPlan(env, profiles, plans)
  {
    NamedIff(profiles, i);
    HostSumNext(profiles, i);
    var p := profiles[i];
    if p.id in ids {
      return Err(DuplicateId);
    }
    if p.model !in env.store {
      return Err(UnknownModel);
    }
    if !ModelParallel(p, env.store[p.model].config) {
      return Err(BadParallelism);
    }
    if p.alias in aliases && aliases[p.alias] != p.model {
      return Err(AliasConflict);
    }
    result := ResolveProfile(env.checks, p, env.store[p.model], Unclaimed(env.devices, used));
    if result.Ok? && host + p.hostBytes >= U64_LIMIT {
      return Err(HostOverflow);
    }
  }

  /** `Configuration::resolve`: fails only when no list of plans would be admissible. */
  method ResolveConfiguration(version: nat, profiles: seq<Profile>, env: Environment)
    returns (result: Result<seq<Plan>, Failure>)
    ensures result.Ok? ==> version == 1 && 1 <= |profiles| <= 64 && Admitted(env, profiles, result.value)
    ensures result.Err? ==> version != 1 || !(1 <= |profiles| <= 64) || !exists q :: Admitted(env, profiles, q)
  {
    if version != 1 || !(1 <= |profiles| <= 64) {
      return Err(BadConfiguration);
    }
    var ids: set<string>, used: set<string>, aliases: map<string, string> := {}, {}, map[];
    var plans: seq<Plan>, host: u64 := [], 0;
    for i := 0 to |profiles|
      invariant |plans| == i && Prefix(env, profiles, plans)
      invariant Tracks(profiles, plans, ids, used, aliases, host)
    {
      var step := PlanNext(env, profiles, i, plans, ids, used, aliases, host);
      if step.Err? {
        forall q | Admitted(env, profiles, q) ensures false {
          PrefixStuck(env, profiles, plans, q);
        }
        return Err(step.error);
      }
      var plan := step.value;
      var claimed := Claim(env, profiles[i], used, plan.devices);
      PrefixExtends(env, profiles, plans);
      TracksNext(profiles, plans, ids, used, aliases, host, plan);
      ids, aliases, used := ids + {profiles[i].id}, aliases[profiles[i].alias := profiles[i].model], claimed;
      host, plans := host + profiles[i].hostBytes, plans + [plan];
    }
    assert profiles[..|profiles|] == profiles;
    if host > 0 {
      if env.hostAvailable.None? {
        return Err(HostUnknown);
      }
      if host > env.hostAvailable.value {
        return Err(HostExceeded);
      }
    }
    return Ok(plans);
  }

  /* ---------- What an admitted list of plans guarantees ---------- */

  /** Device `d` is visible and not claimed by any plan before plan `i`. */
  ghost predicate Available(env: Environment, plans: seq<Plan>, i: nat, d: Device)
    requires i <= |plans|
  {
    d in env.devices && d.visibleIndex.Some? && d.id !in Claimed(plans[..i])
  }

  /** Each plan's devices were available to it, are all different, and have room for their budgets. */
  lemma {:induction false} PlansFit(env: Environment, profiles: seq<Profile>, plans: seq<Plan>, i: nat)
    requires Admitted(env, profiles, plans) && i < |plans|
    ensures plans[i].profile == profiles[i] && AllHold(plans[i].devices, profiles[i].memory)
    ensures Distinct(IdsOf(plans[i].devices))
    ensures forall d :: d in plans[i].devices ==> Available(env, plans, i, d)
    ensures profiles[i].gpus != [] ==> IdsOf(plans[i].devices) == profiles[i].gpus
    ensures profiles[i].vllm ==>
      Totalled(profiles[i].memory) && plans[i].fraction == Some(Fraction(plans[i].devices, profiles[i].memory))
  {
    assert StepOk(env, profiles, plans, i);
    var left := Left(env, plans[..i]);
    SelectChoosesWell(profiles[i], left);
    forall d | d in plans[i].devices ensures Available(env, plans, i, d) {
      UnclaimedHolds(env.devices, Claimed(plans[..i]), d);
    }
  }

  /** No device is in two plans. */
  lemma {:induction false} PlansAreDisjoint(env: Environment, profiles: seq<Profile>, plans: seq<Plan>, i: nat, j: nat)
    requires Admitted(env, profiles, plans) && i < j < |plans|
    ensures forall d, e :: d in plans[i].devices && e in plans[j].devices ==> d.id != e.id
  {
    PlansFit(env, profiles, plans, j);
    forall d, e | d in plans[i].devices && e in plans[j].devices ensures d.id != e.id {
      var k :| 0 <= k < |plans[i].devices| && plans[i].devices[k] == d;
      assert plans[..j][i].devices[k].id in Claimed(plans[..j]);
      assert Available(env, plans, j, e);
    }
  }

  /** An automatic profile has the least device that was still available and has room for its budget. */
  lemma {:induction false} AutoTakesTheLeast(env: Environment, profiles: seq<Profile>, plans: seq<Plan>, i: nat,
                                             d: Device)
    requires Admitted(env, profiles, plans) && i < |plans|
    requires profiles[i].strategy == Auto && profiles[i].gpus == []
    ensures |plans[i].devices| == |profiles[i].memory| == 1 && BudgetOf(profiles[i].memory[0]).Some?
    ensures Available(env, plans, i, d) && Fits(d, BudgetOf(profiles[i].memory[0]).value) ==>
      var chosen := plans[i].devices[0];
      !Smaller(d, chosen) && (Smaller(chosen, d) || (d.totalBytes == chosen.totalBytes && d.id == chosen.id))
  {
    assert StepOk(env, profiles, plans, i);
    SelectChoosesWell(profiles[i], Left(env, plans[..i]));
    TextBeforeTotal(d.id, plans[i].devices[0].id);
    if Available(env, plans, i, d) {
      UnclaimedHolds(env.devices, Claimed(plans[..i]), d);
    }
  }

  /** Identifiers are unique, replicas under one alias serve one model, and the host budgets together fit. */
  lemma {:induction false} NamesAndHostAgree(env: Environment, profiles: seq<Profile>, plans: seq<Plan>)
    requires Admitted(env, profiles, plans) && profiles != []
    ensures forall i, j :: 0 <= i < j < |profiles| ==> profiles[i].id != profiles[j].id
    ensures forall i, j :: 0 <= i < j < |profiles| && profiles[i].alias == profiles[j].alias ==>
      profiles[i].model == profiles[j].model
    ensures env.hostAvailable.Some? && HostSum(profiles) <= env.hostAvailable.value
  {
    forall i, j | 0 <= i < j < |profiles|
      ensures profiles[i].id != profiles[j].id
      ensures profiles[i].alias == profiles[j].alias ==> profiles[i].model == profiles[j].model
    {
      assert StepOk(env, profiles, plans, j);
    }
    assert StepOk(env, profiles, plans, 0);
    HostSumNext(profiles, 0);
    HostSumGrows(profiles, 1);
  }

  /** Every rank of an admitted vLLM plan stays clear of its device's reserve, up to what printing the fraction adds. */
  lemma {:induction false} RanksKeepTheReserve(env: Environment, profiles: seq<Profile>, plans: seq<Plan>, i: nat,
                                               k: nat, printed: real)
    requires Admitted(env, profiles, plans) && i < |plans| && profiles[i].vllm && k < |plans[i].devices|
    requires plans[i].fraction.Some? && PrintedAs(plans[i].fraction.value, printed)
    ensures |plans[i].devices| == |profiles[i].memory| && Holds(plans[i].devices[k], profiles[i].memory[k])
    ensures var d, b := plans[i].devices[k], profiles[i].memory[k];
      d.totalBytes > 0 ==>
        printed * d.totalBytes as real + b.reserve as real
        <= d.freeBytes.value as real + d.totalBytes as real / 200000000.0
  {
    PlansFit(env, profiles, plans, i);
    RankKeepsTheReserve(plans[i].devices, profiles[i].memory, k, printed);
  }

  lemma {:induction false} RankKeepsTheReserve(devices: seq<Device>, memory: seq<DeviceBudget>, k: nat, printed: real)
    requires AllHold(devices, memory) && Totalled(memory) && k < |devices|
    requires PrintedAs(Fraction(devices, memory), printed)
    ensures Holds(devices[k], memory[k])
    ensures devices[k].totalBytes > 0 ==>
      printed * devices[k].totalBytes as real + memory[k].reserve as real
      <= devices[k].freeBytes.value as real + devices[k].totalBytes as real / 200000000.0
  {
    if devices[k].totalBytes > 0 {
      PrintedFractionFits(devices, memory, k, printed);
    }
    var b := memory[k];
    assert Usable(b) + b.reserve as real == BudgetOf(b).value as real;
  }
}
