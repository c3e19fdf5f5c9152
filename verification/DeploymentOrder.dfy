/**
 * Which configurations src/deployments.rs can resolve, and whether the order of their profiles matters: not when every
 * profile names its devices, but it may when one of them leaves the choice to the planner.
 */
module DeploymentOrder {
  import opened Common
  import opened DeploymentDevices
  import opened DeploymentPlanner

  /* ---------- Selection among what is left ---------- */

  lemma {:induction false} FindUnclaimed(devices: seq<Device>, used: set<string>, id: string)
    ensures FindVisible(Unclaimed(devices, used), id) == if id in used then None else FindVisible(devices, id)
  {
    if devices != [] {
      assert Unclaimed(devices, used)[1..] == Unclaimed(devices[1..], used);
      FindUnclaimed(devices[1..], used, id);
    }
  }

  lemma {:induction false} SelectAgrees(devices: seq<Device>, other: seq<Device>, gpus: seq<string>, seen: set<string>)
    requires forall g :: g in gpus ==> FindVisible(devices, g) == FindVisible(other, g)
    ensures SelectExplicit(devices, gpus, seen) == SelectExplicit(other, gpus, seen)
    decreases |gpus|
  {
    if gpus != [] {
      assert gpus == [gpus[0]] + gpus[1..];
      SelectAgrees(devices, other, gpus[1..], seen + {gpus[0]});
    }
  }

  /** An explicit profile gets what it would get of the whole inventory, or nothing if one of its devices is claimed. */
  lemma SelectUnclaimed(p: Profile, devices: seq<Device>, used: set<string>)
    requires p.gpus != []
    ensures (forall g :: g in p.gpus ==> g !in used) ==> Select(p, Unclaimed(devices, used)) == Select(p, devices)
    ensures (exists g :: g in p.gpus && g in used) ==> Select(p, Unclaimed(devices, used)).Err?
  {
    var left := Unclaimed(devices, used);
    if forall g :: g in p.gpus ==> g !in used {
      forall g | g in p.gpus ensures FindVisible(left, g) == FindVisible(devices, g) {
        FindUnclaimed(devices, used, g);
      }
      SelectAgrees(left, devices, p.gpus, {});
    } else {
      var g :| g in p.gpus && g in used;
      FindUnclaimed(devices, used, g);
      SelectExplicitMeans(left, p.gpus, {});
    }
  }

  /* ---------- Explicit profiles ---------- */

  /** The profile can be planned by itself, over the whole inventory. */
  ghost predicate AloneOk(env: Environment, p: Profile) {
    var selected := Select(p, env.devices);
    && p.model in env.store && ModelParallel(p, env.store[p.model].config)
    && selected.Ok? && Accepts(env.checks, p, env.store[p.model], selected.value)
  }

  /** Two profiles do not get in each other's way. */
  predicate Compatible(a: Profile, b: Profile) {
    && a.id != b.id && (a.alias == b.alias ==> a.model == b.model)
    && forall g :: g in a.gpus ==> g !in b.gpus
  }

  ghost predicate CompatibleAt(profiles: seq<Profile>, i: nat, j: nat)
    requires i < j < |profiles|
  {
    Compatible(profiles[i], profiles[j])
  }

  ghost predicate AllCompatible(profiles: seq<Profile>) {
    forall i, j :: 0 <= i < j < |profiles| ==> CompatibleAt(profiles, i, j)
  }

  /** A condition that does not mention any order of planning. */
  ghost predicate Feasible(env: Environment, profiles: seq<Profile>) {
    && (forall p :: p in profiles ==> AloneOk(env, p))
    && AllCompatible(profiles)
    && HostSum(profiles) < U64_LIMIT
    && (HostSum(profiles) > 0 ==> env.hostAvailable.Some? && HostSum(profiles) <= env.hostAvailable.value)
  }

  ghost predicate AllExplicit(profiles: seq<Profile>) {
    forall p :: p in profiles ==> p.gpus != []
  }

  ghost predicate Resolvable(env: Environment, profiles: seq<Profile>) {
    exists plans :: Admitted(env, profiles, plans)
  }

  lemma ClaimedMeans(plans: seq<Plan>, id: string)
    ensures id in Claimed(plans) <==> exists i :: 0 <= i < |plans| && id in IdsOf(plans[i].devices)
  {
    if id in Claimed(plans) {
      var i, k :| 0 <= i < |plans| && 0 <= k < |plans[i].devices| && plans[i].devices[k].id == id;
      assert IdsOf(plans[i].devices)[k] == id;
    }
    if i :| 0 <= i < |plans| && id in IdsOf(plans[i].devices) {
      var k :| 0 <= k < |plans[i].devices| && IdsOf(plans[i].devices)[k] == id;
      assert plans[i].devices[k].id == id;
    }
  }

  lemma AdmittedAlone(env: Environment, profiles: seq<Profile>, plans: seq<Plan>, i: nat)
    requires AllExplicit(profiles) && Admitted(env, profiles, plans) && i < |profiles|
    ensures AloneOk(env, profiles[i])
  {
    assert StepOk(env, profiles, plans, i);
    SelectUnclaimed(profiles[i], env.devices, Claimed(plans[..i]));
  }

  lemma AdmittedCompatible(env: Environment, profiles: seq<Profile>, plans: seq<Plan>, i: nat, j: nat)
    requires AllExplicit(profiles) && Admitted(env, profiles, plans) && i < j < |profiles|
    ensures CompatibleAt(profiles, i, j)
  {
    assert StepOk(env, profiles, plans, j);
    PlansFit(env, profiles, plans, i);
    SelectUnclaimed(profiles[j], env.devices, Claimed(plans[..j]));
    forall g | g in profiles[i].gpus ensures g !in profiles[j].gpus {
      assert plans[..j][i] == plans[i];
      ClaimedMeans(plans[..j], g);
    }
  }

  lemma AdmittedIsFeasible(env: Environment, profiles: seq<Profile>, plans: seq<Plan>)
    requires AllExplicit(profiles) && Admitted(env, profiles, plans)
    ensures Feasible(env, profiles)
  {
    forall p | p in profiles ensures AloneOk(env, p) {
      var i :| 0 <= i < |profiles| && profiles[i] == p;
      AdmittedAlone(env, profiles, plans, i);
    }
    forall i, j | 0 <= i < j < |profiles| ensures CompatibleAt(profiles, i, j) {
      AdmittedCompatible(env, profiles, plans, i, j);
    }
    if profiles != [] {
      assert StepOk(env, profiles, plans, |profiles| - 1);
      assert profiles[..|profiles|] == profiles;
    }
  }

  /** The plan every explicit profile gets, whatever comes before it. */
  ghost function AlonePlans(env: Environment, profiles: seq<Profile>): seq<Plan>
    requires forall p :: p in profiles ==> AloneOk(env, p)
  {
    seq(|profiles|, i requires 0 <= i < |profiles| => assert AloneOk(env, profiles[i]); AlonePlan(env, profiles[i]))
  }

  ghost function AlonePlan(env: Environment, p: Profile): Plan
    requires AloneOk(env, p)
  {
    PlanFor(p, Select(p, env.devices).value)
  }

  lemma FeasibleUnclaimed(env: Environment, profiles: seq<Profile>, i: nat, g: string)
    requires AllExplicit(profiles) && Feasible(env, profiles) && i < |profiles| && g in profiles[i].gpus
    ensures g !in Claimed(AlonePlans(env, profiles)[..i])
  {
    var earlier := AlonePlans(env, profiles)[..i];
    ClaimedMeans(earlier, g);
    forall j | 0 <= j < i ensures g !in IdsOf(earlier[j].devices) {
      assert CompatibleAt(profiles, j, i) && profiles[j] in profiles;
      SelectExplicitFinds(env.devices, profiles[j].gpus, {});
    }
  }

  lemma FeasibleSelects(env: Environment, profiles: seq<Profile>, i: nat)
    requires AllExplicit(profiles) && Feasible(env, profiles) && i < |profiles|
    ensures Select(profiles[i], Left(env, AlonePlans(env, profiles)[..i])) == Select(profiles[i], env.devices)
  {
    var used := Claimed(AlonePlans(env, profiles)[..i]);
    forall g | g in profiles[i].gpus ensures g !in used {
      FeasibleUnclaimed(env, profiles, i, g);
    }
    SelectUnclaimed(profiles[i], env.devices, used);
  }

  lemma FeasibleNamed(profiles: seq<Profile>, i: nat)
    requires AllCompatible(profiles) && i < |profiles|
    ensures Named(profiles, i)
  {
    forall j | 0 <= j < i
      ensures profiles[j].id != profiles[i].id
      ensures profiles[j].alias == profiles[i].alias ==> profiles[j].model == profiles[i].model
    {
      assert CompatibleAt(profiles, j, i);
    }
  }

  lemma FeasibleStep(env: Environment, profiles: seq<Profile>, i: nat)
    requires AllExplicit(profiles) && Feasible(env, profiles) && i < |profiles|
    ensures StepOk(env, profiles, AlonePlans(env, profiles), i)
  {
    assert AloneOk(env, profiles[i]);
    FeasibleSelects(env, profiles, i);
    FeasibleNamed(profiles, i);
    HostSumGrows(profiles, i + 1);
  }

  /** When every profile names its devices, the configuration can be resolved exactly if it is feasible. */
  lemma ResolvableIffFeasible(env: Environment, profiles: seq<Profile>)
    requires AllExplicit(profiles)
    ensures Resolvable(env, profiles) <==> Feasible(env, profiles)
  {
    if Resolvable(env, profiles) {
      var plans :| Admitted(env, profiles, plans);
      AdmittedIsFeasible(env, profiles, plans);
    }
    if Feasible(env, profiles) {
      var plans := AlonePlans(env, profiles);
      forall i | 0 <= i < |plans| ensures StepOk(env, profiles, plans, i) {
        FeasibleStep(env, profiles, i);
      }
      assert Admitted(env, profiles, plans);
    }
  }

  /* ---------- Order ---------- */

  lemma {:induction false} HostSumSplits(a: seq<Profile>, b: seq<Profile>)
    ensures HostSum(a + b) == HostSum(a) + HostSum(b)
  {
    if b == [] {
      assert a + b == a;
    } else {
      assert (a + b)[..|a + b| - 1] == a + b[..|b| - 1];
      HostSumSplits(a, b[..|b| - 1]);
    }
  }

  lemma HostSumOne(p: Profile)
    ensures HostSum([p]) == p.hostBytes
  {
    assert [p][..0] == [];
  }

  lemma Pieces<T>(a: seq<T>, k: nat)
    requires k < |a|
    ensures a[..k] + [a[k]] + a[k + 1..] == a
  {
  }

  lemma HostSumAround(before: seq<Profile>, p: Profile, after: seq<Profile>)
    ensures HostSum(before + [p] + after) == HostSum(before + after) + p.hostBytes
  {
    HostSumSplits(before, after);
    HostSumSplits(before + [p], after);
    HostSumSplits(before, [p]);
    HostSumOne(p);
  }

  lemma HostSumWithout(a: seq<Profile>, k: nat)
    requires k < |a|
    ensures HostSum(a) == HostSum(a[..k] + a[k + 1..]) + a[k].hostBytes
  {
    Pieces(a, k);
    HostSumAround(a[..k], a[k], a[k + 1..]);
  }

  lemma MultisetWithout(a: seq<Profile>, k: nat)
    requires k < |a|
    ensures multiset(a[..k] + a[k + 1..]) == multiset(a) - multiset{a[k]}
  {
    Pieces(a, k);
  }

  lemma {:induction false} HostSumPermuted(a: seq<Profile>, b: seq<Profile>)
    requires multiset(a) == multiset(b)
    ensures HostSum(a) == HostSum(b)
    decreases |b|
  {
    if b == [] {
      assert |multiset(a)| == |a|;
    } else {
      var n := |b| - 1;
      assert b[n] in multiset(b);
      var k :| 0 <= k < |a| && a[k] == b[n];
      MultisetWithout(a, k);
      MultisetWithout(b, n);
      HostSumWithout(a, k);
      HostSumWithout(b, n);
      assert b[..n] + b[n + 1..] == b[..n];
      HostSumPermuted(a[..k] + a[k + 1..], b[..n]);
    }
  }

  /** Two places with the same profile count twice. */
  lemma TwiceIn(b: seq<Profile>, i: nat, j: nat)
    requires i < j < |b| && b[i] == b[j]
    ensures multiset(b)[b[i]] >= 2
  {
    assert b == b[..j] + b[j..];
    assert b[i] in b[..j] && b[i] in b[j..];
  }

  lemma TwicePlaced(a: seq<Profile>, x: Profile) returns (i: nat, j: nat)
    requires multiset(a)[x] >= 2
    ensures i < j < |a| && a[i] == a[j] == x
  {
    assert x in multiset(a);
    var k :| 0 <= k < |a| && a[k] == x;
    assert a == a[..k] + [a[k]] + a[k + 1..];
    if x in a[..k] {
      i :| 0 <= i < k && a[..k][i] == x;
      j := k;
    } else {
      assert multiset(a[..k])[x] == 0;
      assert x in multiset(a[k + 1..]);
      var m :| 0 <= m < |a[k + 1..]| && a[k + 1..][m] == x;
      i, j := k, k + 1 + m;
    }
  }

  lemma CompatiblePermuted(a: seq<Profile>, b: seq<Profile>, i: nat, j: nat)
    requires multiset(a) == multiset(b) && AllCompatible(a) && i < j < |b|
    ensures CompatibleAt(b, i, j)
  {
    if b[i] == b[j] {
      TwiceIn(b, i, j);
      var k, m := TwicePlaced(a, b[i]);
      assert CompatibleAt(a, k, m);
    } else {
      assert b[i] in multiset(b) && b[j] in multiset(b);
      var k :| 0 <= k < |a| && a[k] == b[i];
      var m :| 0 <= m < |a| && a[m] == b[j];
      assert if k < m then CompatibleAt(a, k, m) else CompatibleAt(a, m, k);
    }
  }

  lemma FeasiblePermuted(env: Environment, a: seq<Profile>, b: seq<Profile>)
    requires multiset(a) == multiset(b) && Feasible(env, a)
    ensures Feasible(env, b)
  {
    forall p | p in b ensures AloneOk(env, p) {
      assert p in multiset(b);
      assert p in a;
    }
    forall i, j | 0 <= i < j < |b| ensures CompatibleAt(b, i, j) {
      CompatiblePermuted(a, b, i, j);
    }
    HostSumPermuted(a, b);
  }

  /** The order of explicit profiles does not matter. */
  lemma OrderDoesNotMatter(env: Environment, a: seq<Profile>, b: seq<Profile>)
    requires multiset(a) == multiset(b) && AllExplicit(a)
    ensures Resolvable(env, a) <==> Resolvable(env, b)
  {
    forall p | p in b ensures p.gpus != [] {
      assert p in multiset(b);
      assert p in a;
    }
    ResolvableIffFeasible(env, a);
    ResolvableIffFeasible(env, b);
    if Feasible(env, a) {
      FeasiblePermuted(env, a, b);
    }
    if Feasible(env, b) {
      FeasiblePermuted(env, b, a);
    }
  }

  /* ---------- Where the choice is left to the planner ---------- */

  const SMALL := Device("A", Some(0), 10, Some(10), true)
  const LARGE := Device("B", Some(1), 20, Some(20), true)
  const BUDGET := DeviceBudget(0, 0, 0, 0, 1, 1, 1)
  const CHOOSES := Profile("chooses", "x", "m", false, [], Auto, 1, 1, 0, false, false, [BUDGET], 1)
  const INSISTS := Profile("insists", "y", "m", false, ["A"], Single, 1, 1, 0, false, false, [BUDGET], 1)

  /** Two devices that fit both profiles, and nothing else that could stand in the way. */
  ghost function TwoDevices(): Environment {
    Environment(map["m" := Manifest(false, None)], [SMALL, LARGE], Some(2), Checks(_ => true, (_, _) => true))
  }

  lemma BudgetIsThree()
    ensures BudgetOf(BUDGET) == Some(3) && Holds(SMALL, BUDGET) && Holds(LARGE, BUDGET)
  {
    assert Amounts(BUDGET) == [0, 0, 0, 0] + [1, 1, 1];
    SumSplits([0, 0, 0, 0], [1, 1, 1]);
    assert Sum([0, 0, 0, 0]) == 0 && Sum([1, 1, 1]) == 3;
  }

  /** Asked in this order the planner takes the smaller device, and the second profile finds it gone. */
  lemma ChoosingFirstFails(plans: seq<Plan>)
    ensures !Admitted(TwoDevices(), [CHOOSES, INSISTS], plans)
  {
    var env, profiles := TwoDevices(), [CHOOSES, INSISTS];
    if Admitted(env, profiles, plans) {
      BudgetIsThree();
      AutoTakesTheLeast(env, profiles, plans, 0, SMALL);
      PlansFit(env, profiles, plans, 0);
      PlansFit(env, profiles, plans, 1);
      assert plans[..0] == [] && Available(env, plans, 0, plans[0].devices[0]);
      assert plans[0].devices[0] == SMALL;
      assert IdsOf(plans[1].devices)[0] == "A";
      assert plans[0].devices[0].id == plans[1].devices[0].id;
      PlansAreDisjoint(env, profiles, plans, 0, 1);
    }
  }

  lemma BothAreSelected()
    ensures Select(INSISTS, [SMALL, LARGE]) == Ok([SMALL])
    ensures Select(CHOOSES, Unclaimed([SMALL, LARGE], {"A"})) == Ok([LARGE])
  {
    assert FindVisible([SMALL, LARGE], "A") == Some(SMALL);
    assert ["A"][1..] == [] && [SMALL] + [] == [SMALL];
    assert SelectExplicit([SMALL, LARGE], [], {} + {"A"}) == Ok([]);
    assert SelectExplicit([SMALL, LARGE], ["A"], {}) == Ok([SMALL]);
    var left := Unclaimed([SMALL, LARGE], {"A"});
    assert left == [SMALL.(visibleIndex := None), LARGE];
    BudgetIsThree();
    LeastFittingIsLeast(Visible(left), 3);
    assert LARGE in left;
  }

  lemma InsistingIsPossible()
    ensures Possible(TwoDevices(), [INSISTS, CHOOSES], [])
    ensures NextPlan(TwoDevices(), [INSISTS, CHOOSES], []) == PlanFor(INSISTS, [SMALL])
  {
    BudgetIsThree();
    BothAreSelected();
    HostSumNext([INSISTS, CHOOSES], 0);
    assert Claimed([]) == {} && Unclaimed([SMALL, LARGE], {}) == [SMALL, LARGE];
  }

  lemma HostOfBoth()
    ensures HostSum([INSISTS]) == 1 && HostSum([INSISTS, CHOOSES]) == 2
  {
    HostSumOne(INSISTS);
    HostSumOne(CHOOSES);
    HostSumSplits([INSISTS], [CHOOSES]);
    assert [INSISTS] + [CHOOSES] == [INSISTS, CHOOSES];
  }

  lemma LargeIsLeft()
    ensures Left(TwoDevices(), [PlanFor(INSISTS, [SMALL])]) == Unclaimed([SMALL, LARGE], {"A"})
  {
    var first := PlanFor(INSISTS, [SMALL]);
    ClaimedNext([], first);
    assert [] + [first] == [first] && Claimed([]) == {} && IdsIn([SMALL]) == {"A"};
  }

  lemma ChoosingIsPossible()
    ensures Possible(TwoDevices(), [INSISTS, CHOOSES], [PlanFor(INSISTS, [SMALL])])
    ensures NextPlan(TwoDevices(), [INSISTS, CHOOSES], [PlanFor(INSISTS, [SMALL])]) == PlanFor(CHOOSES, [LARGE])
  {
    BudgetIsThree();
    BothAreSelected();
    LargeIsLeft();
    HostOfBoth();
    assert [INSISTS, CHOOSES][..2] == [INSISTS, CHOOSES];
    assert Accepts(TwoDevices().checks, CHOOSES, Manifest(false, None), [LARGE]);
  }

  /** In the other order both get a device: an assignment exists that choosing first does not find. */
  lemma InsistingFirstSucceeds() returns (plans: seq<Plan>)
    ensures Admitted(TwoDevices(), [INSISTS, CHOOSES], plans)
  {
    var env, profiles := TwoDevices(), [INSISTS, CHOOSES];
    plans := [PlanFor(INSISTS, [SMALL]), PlanFor(CHOOSES, [LARGE])];
    InsistingIsPossible();
    ChoosingIsPossible();
    HostOfBoth();
    assert plans[..0] == [] && plans[..1] == [PlanFor(INSISTS, [SMALL])];
    assert StepOk(env, profiles, plans, 0) && StepOk(env, profiles, plans, 1);
  }

  /** With automatic profiles the order does matter. */
  lemma OrderMatters()
    ensures Resolvable(TwoDevices(), [INSISTS, CHOOSES]) && !Resolvable(TwoDevices(), [CHOOSES, INSISTS])
  {
    var plans := InsistingFirstSucceeds();
    forall q | Admitted(TwoDevices(), [CHOOSES, INSISTS], q) ensures false {
      ChoosingFirstFails(q);
    }
  }
}
