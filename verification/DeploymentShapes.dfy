/**
 * What an admitted plan of src/deployments.rs looks like, field by field, and which profiles are planned: the shape of
 * the device group for each strategy, the budgets, and the memory fraction.
 */
module DeploymentShapes {
  import opened Common
  import opened DeploymentDevices
  import opened DeploymentPlanner

  /* ---------- Budgets in bytes ---------- */

  lemma BudgetIsTheSum(b: DeviceBudget)
    ensures var sum := b.weights + b.replicated + b.kv + b.experts + b.compute + b.overhead + b.reserve;
      BudgetOf(b) == if sum < 0x1_0000_0000_0000_0000 then Some(sum) else None
  {
    var s := Amounts(b);
    assert Sum(s[7..]) == 0;
    assert Sum(s[6..]) == s[6] + Sum(s[6..][1..]) && s[6..][1..] == s[7..];
    assert Sum(s[5..]) == s[5] + Sum(s[5..][1..]) && s[5..][1..] == s[6..];
    assert Sum(s[4..]) == s[4] + Sum(s[4..][1..]) && s[4..][1..] == s[5..];
    assert Sum(s[3..]) == s[3] + Sum(s[3..][1..]) && s[3..][1..] == s[4..];
    assert Sum(s[2..]) == s[2] + Sum(s[2..][1..]) && s[2..][1..] == s[3..];
    assert Sum(s[1..]) == s[1] + Sum(s[1..][1..]) && s[1..][1..] == s[2..];
    assert Sum(s) == s[0] + Sum(s[1..]);
  }

  /** What a rank may fill: every part of its budget but the reserve. */
  function InUse(b: DeviceBudget): nat {
    b.weights + b.replicated + b.kv + b.experts + b.compute + b.overhead
  }

  /** The device is a CUDA one whose free memory is known and takes the whole budget. */
  predicate Carries(d: Device, b: DeviceBudget) {
    && d.cuda && d.freeBytes.Some? && InUse(b) + b.reserve <= d.freeBytes.value
    && b.compute > 0 && b.overhead > 0 && b.reserve > 0
  }

  lemma CarriesIsHolds(d: Device, b: DeviceBudget)
    ensures Holds(d, b) <==> Carries(d, b)
    ensures BudgetOf(b).Some? ==> Usable(b) == InUse(b) as real
  {
    BudgetIsTheSum(b);
  }

  /* ---------- The memory fraction ---------- */

  /** The rank leaves part of its device unused. */
  predicate Spare(d: Device, b: DeviceBudget) {
    d.totalBytes > 0 && InUse(b) < d.totalBytes
  }

  lemma ProperQuotient(used: nat, bytes: nat)
    requires used > 0 && bytes > 0
    ensures used as real / bytes as real > 0.0
    ensures used as real / bytes as real < 1.0 <==> used < bytes
  {
    var share := used as real / bytes as real;
    assert share * bytes as real == used as real;
  }

  lemma ProperShare(d: Device, b: DeviceBudget)
    requires Carries(d, b) && BudgetOf(b).Some? && d.totalBytes > 0
    ensures Share(d, b).Some? && Share(d, b).value > 0.0
    ensures Share(d, b).value < 1.0 <==> Spare(d, b)
  {
    CarriesIsHolds(d, b);
    ProperQuotient(InUse(b), d.totalBytes);
  }

  lemma {:induction false} FractionIsPositive(devices: seq<Device>, memory: seq<DeviceBudget>)
    requires |devices| == |memory| && Totalled(memory)
    requires forall i :: 0 <= i < |devices| ==> Carries(devices[i], memory[i])
    ensures Fraction(devices, memory) > 0.0
  {
    if devices != [] {
      var n := |devices| - 1;
      FractionIsPositive(devices[..n], memory[..n]);
      if devices[n].totalBytes > 0 {
        ProperShare(devices[n], memory[n]);
      }
    }
  }

  /** Budgets that fit their devices always give a positive fraction, and one below 1 when some rank has space left. */
  lemma {:induction false} FractionIsProper(devices: seq<Device>, memory: seq<DeviceBudget>)
    requires |devices| == |memory| && Totalled(memory)
    requires forall i :: 0 <= i < |devices| ==> Carries(devices[i], memory[i])
    ensures Fraction(devices, memory) > 0.0
    ensures Fraction(devices, memory) < 1.0 <==> exists i :: 0 <= i < |devices| && Spare(devices[i], memory[i])
  {
    FractionIsPositive(devices, memory);
    FractionIsAttained(devices, memory);
    if Fraction(devices, memory) < 1.0 {
      var i :| 0 <= i < |devices| && Share(devices[i], memory[i]) == Some(Fraction(devices, memory));
      ProperShare(devices[i], memory[i]);
    }
    if i :| 0 <= i < |devices| && Spare(devices[i], memory[i]) {
      FractionIsLeast(devices, memory, i);
      ProperShare(devices[i], memory[i]);
    }
  }

  /** The fraction of the device is no more than the budget less the reserve. */
  predicate WithinUse(fraction: real, d: Device, b: DeviceBudget) {
    fraction * d.totalBytes as real <= InUse(b) as real
  }

  lemma {:induction false} FractionWithinUse(devices: seq<Device>, memory: seq<DeviceBudget>, k: nat)
    requires |devices| == |memory| && Totalled(memory) && k < |devices|
    ensures WithinUse(Fraction(devices, memory), devices[k], memory[k])
  {
    CarriesIsHolds(devices[k], memory[k]);
    if devices[k].totalBytes > 0 {
      FractionFitsEveryRank(devices, memory, k);
    } else {
      assert devices[k].totalBytes as real == 0.0;
    }
  }

  lemma {:induction false} ProperWithinUse(devices: seq<Device>, memory: seq<DeviceBudget>, fraction: real)
    requires |devices| == |memory| && Totalled(memory) && fraction == Fraction(devices, memory) < 1.0
    requires forall k :: 0 <= k < |devices| ==> Carries(devices[k], memory[k])
    ensures exists k :: 0 <= k < |devices| && Spare(devices[k], memory[k])
    ensures forall k :: 0 <= k < |devices| ==> WithinUse(fraction, devices[k], memory[k])
  {
    FractionIsProper(devices, memory);
    forall k | 0 <= k < |devices| ensures WithinUse(fraction, devices[k], memory[k]) {
      FractionWithinUse(devices, memory, k);
    }
  }

  /* ---------- What an admitted plan looks like ---------- */

  lemma AdmittedStep(env: Environment, profiles: seq<Profile>, plans: seq<Plan>, i: nat)
    requires Admitted(env, profiles, plans) && i < |plans|
    ensures var plan, p := plans[i], profiles[i];
      && plan.profile == p && plan.strategy == Chosen(p) && plan.devices != [] && p.model in env.store
      && Accepts(env.checks, p, env.store[p.model], plan.devices)
      && ModelParallel(p, env.store[p.model].config)
  {
    assert StepOk(env, profiles, plans, i);
    PlansFit(env, profiles, plans, i);
    var p := profiles[i];
    var left := Left(env, plans[..i]);
    if p.strategy == Auto && p.gpus == [] {
      SelectChoosesWell(p, left);
    } else {
      SelectExplicitFinds(left, p.gpus, {});
      assert |IdsOf(plans[i].devices)| == |p.gpus|;
    }
  }

  /** Every strategy has its own shape of device group and parallel sizes. */
  lemma {:induction false} PlanShape(env: Environment, profiles: seq<Profile>, plans: seq<Plan>, i: nat)
    requires Admitted(env, profiles, plans) && i < |plans|
    ensures plans[i].profile == profiles[i]
    ensures plans[i].strategy == if profiles[i].strategy == Auto then Single else profiles[i].strategy
    ensures var p, n := plans[i].profile, |plans[i].devices|;
      match plans[i].strategy
      case Auto => false
      case Single => n == 1 && p.tensorParallel == 1 && p.pipelineParallel == 1 && p.split == 0
      case Layer =>
        && !p.vllm && n >= 1 && p.tensorParallel == 1 && p.pipelineParallel == 1
        && (p.split == n || (p.split == 0 && forall b :: b in p.memory ==> b.weights > 0))
      case Tensor => p.vllm && p.tensorParallel == n > 1 && p.pipelineParallel == 1
      case Pipeline => p.vllm && p.pipelineParallel > 1 && p.tensorParallel > 0
      case Expert => p.vllm && p.tensorParallel == n > 1 && p.pipelineParallel == 1 && !p.offloads
    ensures plans[i].profile.vllm ==>
      && plans[i].profile.tensorParallel * plans[i].profile.pipelineParallel == |plans[i].devices|
      && plans[i].profile.split == 0 && !plans[i].profile.kvCpu
  {
    AdmittedStep(env, profiles, plans, i);
  }

  /** Every device of a plan carries its own budget, and the host has a share as well. */
  lemma {:induction false} PlanBudgets(env: Environment, profiles: seq<Profile>, plans: seq<Plan>, i: nat)
    requires Admitted(env, profiles, plans) && i < |plans|
    ensures |plans[i].devices| == |profiles[i].memory| >= 1 && profiles[i].hostBytes > 0
    ensures forall k :: 0 <= k < |plans[i].devices| ==>
      var d, b := plans[i].devices[k], profiles[i].memory[k];
      && d.cuda && d.freeBytes.Some? && b.compute > 0 && b.overhead > 0 && b.reserve > 0
      && b.weights + b.replicated + b.kv + b.experts + b.compute + b.overhead + b.reserve <= d.freeBytes.value
    ensures profiles[i].model in env.store && env.store[profiles[i].model].safeTensors == profiles[i].vllm
    ensures env.checks.written(profiles[i]) && env.checks.runs(profiles[i], plans[i].devices)
  {
    AdmittedStep(env, profiles, plans, i);
    forall k | 0 <= k < |plans[i].devices| ensures Carries(plans[i].devices[k], profiles[i].memory[k]) {
      CarriesIsHolds(plans[i].devices[k], profiles[i].memory[k]);
    }
  }

  /** Only vLLM plans have a fraction; some rank of theirs has memory to spare, and no rank exceeds its own budget. */
  lemma {:induction false} PlanFraction(env: Environment, profiles: seq<Profile>, plans: seq<Plan>, i: nat)
    requires Admitted(env, profiles, plans) && i < |plans|
    ensures plans[i].fraction.Some? <==> profiles[i].vllm
    ensures |plans[i].devices| == |profiles[i].memory|
    ensures profiles[i].vllm ==>
      && 0.0 < plans[i].fraction.value < 1.0
      && exists k :: 0 <= k < |plans[i].devices| && Spare(plans[i].devices[k], profiles[i].memory[k])
    ensures profiles[i].vllm ==> forall k :: 0 <= k < |plans[i].devices| ==>
      WithinUse(plans[i].fraction.value, plans[i].devices[k], profiles[i].memory[k])
  {
    AdmittedStep(env, profiles, plans, i);
    assert StepOk(env, profiles, plans, i);
    var devices, memory := plans[i].devices, profiles[i].memory;
    forall k | 0 <= k < |devices| ensures Carries(devices[k], memory[k]) {
      CarriesIsHolds(devices[k], memory[k]);
    }
    if profiles[i].vllm {
      ProperWithinUse(devices, memory, plans[i].fraction.value);
    }
  }

  /* ---------- Which profiles are planned ---------- */

  /** The shapes of `PlanShape` for a group of `n` devices. */
  predicate Shaped(p: Profile, n: nat) {
    if p.vllm then
      && p.split == 0 && !p.kvCpu
      && match p.strategy
         case Auto | Single => n == 1 && p.tensorParallel == 1 && p.pipelineParallel == 1
         case Tensor => p.tensorParallel == n > 1 && p.pipelineParallel == 1
         case Pipeline => p.pipelineParallel > 1 && p.tensorParallel * p.pipelineParallel == n > 0
         case Expert => p.tensorParallel == n > 1 && p.pipelineParallel == 1 && !p.offloads
         case Layer => false
    else
      && p.tensorParallel == 1 && p.pipelineParallel == 1
      && match p.strategy
         case Auto | Single => n == 1 && p.split == 0
         case Layer => n >= 1 && (p.split == n || (p.split == 0 && forall b :: b in p.memory ==> b.weights > 0))
         case Tensor | Pipeline | Expert => false
  }

  lemma PositiveFactors(a: nat, b: nat)
    requires a * b > 0
    ensures a > 0 && b > 0
  {
  }

  lemma ShapedIsShapeFits(p: Profile, n: nat)
    requires n > 0
    ensures Shaped(p, n) <==> ShapeFits(p, n)
  {
    if Shaped(p, n) && p.vllm && p.strategy == Pipeline {
      PositiveFactors(p.tensorParallel, p.pipelineParallel);
    }
  }

  /** The devices a profile names are taken in its order, when each of them is available and no other has its name. */
  lemma {:induction false} NamedAreSelected(env: Environment, plans: seq<Plan>, p: Profile, chosen: seq<Device>)
    requires p.gpus != [] && IdsOf(chosen) == p.gpus && Distinct(p.gpus)
    requires forall d :: d in chosen ==> Available(env, plans, |plans|, d)
    requires forall d, e :: d in chosen && e in env.devices && e.visibleIndex.Some? && e.id == d.id ==> e == d
    ensures Select(p, Left(env, plans)) == Ok(chosen)
  {
    assert plans[..|plans|] == plans;
    var left := Left(env, plans);
    forall g | g in p.gpus ensures FindVisible(left, g).Some? {
      var k :| 0 <= k < |p.gpus| && p.gpus[k] == g;
      assert IdsOf(chosen)[k] == chosen[k].id == g && chosen[k] in chosen;
      UnclaimedHolds(env.devices, Claimed(plans), chosen[k]);
    }
    SelectExplicitMeans(left, p.gpus, {});
    SelectExplicitFinds(left, p.gpus, {});
    var found := SelectExplicit(left, p.gpus, {}).value;
    assert |found| == |IdsOf(found)| && |chosen| == |IdsOf(chosen)|;
    forall k | 0 <= k < |found| ensures found[k] == chosen[k] {
      UnclaimedHolds(env.devices, Claimed(plans), found[k]);
      assert IdsOf(found)[k] == IdsOf(chosen)[k] && chosen[k] in chosen;
    }
    assert found == chosen;
  }

  /** Left to itself, the planner takes the available device with the least memory that has room, then by name. */
  lemma {:induction false} LeastIsSelected(env: Environment, plans: seq<Plan>, p: Profile, d: Device)
    requires p.strategy == Auto && p.gpus == [] && |p.memory| == 1
    requires Available(env, plans, |plans|, d) && Carries(d, p.memory[0])
    requires forall e ::
      (&& e != d && Available(env, plans, |plans|, e) && e.freeBytes.Some?
       && InUse(p.memory[0]) + p.memory[0].reserve <= e.freeBytes.value) ==>
        d.totalBytes < e.totalBytes || (d.totalBytes == e.totalBytes && TextBefore(d.id, e.id))
    ensures Select(p, Left(env, plans)) == Ok([d])
  {
    assert plans[..|plans|] == plans;
    CarriesIsHolds(d, p.memory[0]);
    BudgetIsTheSum(p.memory[0]);
    var left := Left(env, plans);
    var needed := BudgetOf(p.memory[0]).value;
    LeastFittingIsLeast(Visible(left), needed);
    UnclaimedHolds(env.devices, Claimed(plans), d);
    var best := LeastFitting(Visible(left), needed).value;
    UnclaimedHolds(env.devices, Claimed(plans), best);
    assert best == d;
  }

  /**
   * A profile of one of these shapes is planned, with exactly its devices, as soon as they are selected and carry its
   * budgets, nothing clashes with the profiles before it, and the other checks pass.
   */
  lemma {:induction false} ShapedIsPlanned(env: Environment, profiles: seq<Profile>, plans: seq<Plan>,
                                           chosen: seq<Device>)
    requires |plans| < |profiles| && chosen != []
    requires var p, before := profiles[|plans|], profiles[..|plans|];
      && (forall q :: q in before ==> q.id != p.id && (q.alias == p.alias ==> q.model == p.model))
      && p.model in env.store && env.store[p.model].safeTensors == p.vllm
      && ModelParallel(p, env.store[p.model].config)
      && p.hostBytes > 0 && HostSum(before) + p.hostBytes < U64_LIMIT
      && env.checks.written(p) && env.checks.runs(p, chosen)
      && Select(p, Left(env, plans)) == Ok(chosen)
      && |chosen| == |p.memory| && (forall k :: 0 <= k < |chosen| ==> Carries(chosen[k], p.memory[k]))
      && Shaped(p, |chosen|)
      && (p.vllm ==> exists k :: 0 <= k < |chosen| && Spare(chosen[k], p.memory[k]))
    ensures Possible(env, profiles, plans)
    ensures NextPlan(env, profiles, plans).profile == profiles[|plans|]
    ensures NextPlan(env, profiles, plans).devices == chosen
  {
    var p := profiles[|plans|];
    forall j | 0 <= j < |plans|
      ensures profiles[j].id != p.id && (profiles[j].alias == p.alias ==> profiles[j].model == p.model)
    {
      assert profiles[j] == profiles[..|plans|][j];
    }
    HostSumNext(profiles, |plans|);
    ShapedIsShapeFits(p, |chosen|);
    forall k | 0 <= k < |chosen| ensures Holds(chosen[k], p.memory[k]) && BudgetOf(p.memory[k]).Some? {
      CarriesIsHolds(chosen[k], p.memory[k]);
    }
    if p.vllm {
      FractionIsProper(chosen, p.memory);
    }
  }

  /** Profiles that are not parallel pass whatever the model, and no parallel one without a tensor size does. */
  lemma UnparallelPasses(p: Profile, config: Option<ModelConfig>)
    ensures !p.vllm || (p.tensorParallel == 1 && p.pipelineParallel == 1) ==> ModelParallel(p, config)
    ensures p.vllm && p.tensorParallel == 0 ==> !ModelParallel(p, config)
  {
  }
}
