/** Generation ceilings and reasoning budgets: src/generation_limits.rs and src/reasoning.rs. */
module Reasoning {
  import opened Common

  /* ---------- Generation ceilings ---------- */

  /** A model constraint in JSON: a number, an object with a `max`, or something that bounds nothing. */
  datatype Constraint = Number(n: u64) | Range(max: Option<u64>) | NoBound

  /** JSON values as far as effort names are concerned. */
  datatype Value = Text(text: string) | OtherValue(code: int)

  datatype Manifest = Manifest(
    constraints: map<string, Constraint>, allowedEfforts: Option<seq<Value>>, defaultEffort: Option<Value>)

  const LARGEST_BOUND := 2000000
  const CONTEXT_KEYS: seq<string> := ["max_position_embeddings", "model_max_length", "max_sequence_length"]
  const OUTPUT_KEYS: seq<string> := ["max_output_tokens", "max_completion_tokens", "max_new_tokens"]

  /** The positive bound a constraint states, if it is a sensible one. */
  function Positive(c: Constraint): Option<u64> {
    var stated := match c case Number(n) => Some(n) case Range(max) => max case NoBound => None;
    if stated.Some? && 0 < stated.value <= LARGEST_BOUND then stated else None
  }

  function BoundOf(m: Manifest, key: string): Option<u64> {
    if key in m.constraints then Positive(m.constraints[key]) else None
  }

  /** The smaller of two bounds, where there is one. */
  function Tighter(a: Option<u64>, b: Option<u64>): Option<u64> {
    if a.None? then b else if b.None? || a.value <= b.value then a else b
  }

  function LeastBound(m: Manifest, keys: seq<string>): Option<u64> {
    if keys == [] then None else Tighter(BoundOf(m, keys[0]), LeastBound(m, keys[1..]))
  }

  function SaturatingSub(a: u64, b: u64): u64 {
    if a >= b then a - b else 0
  }

  datatype Ceilings = Ceilings(context: Option<u64>, maximum: Option<u64>)

  /** `generation_limits::profile`. */
  function CeilingsOf(m: Manifest, context: Option<u64>): Ceilings {
    var window := if context.Some? then context else LeastBound(m, CONTEXT_KEYS);
    var cap := if window.Some? then Some(SaturatingSub(window.value, 1)) else None;
    Ceilings(window, Tighter(LeastBound(m, OUTPUT_KEYS), cap))
  }

  lemma {:induction false} LeastBoundIsLeast(m: Manifest, keys: seq<string>)
    ensures LeastBound(m, keys).None? <==> forall key :: key in keys ==> BoundOf(m, key).None?
    ensures forall key :: key in keys && BoundOf(m, key).Some? ==> LeastBound(m, keys).value <= BoundOf(m, key).value
    ensures LeastBound(m, keys).Some? ==> exists key :: key in keys && BoundOf(m, key) == LeastBound(m, keys)
  {
    if keys != [] {
      LeastBoundIsLeast(m, keys[1..]);
      assert keys == [keys[0]] + keys[1..];
      if LeastBound(m, keys).Some? && LeastBound(m, keys) != BoundOf(m, keys[0]) {
        var key :| key in keys[1..] && BoundOf(m, key) == LeastBound(m, keys[1..]);
        assert key in keys;
      }
    }
  }

  /** The output a request may really use: what it asked for, within the model's maximum and less 512 of its context. */
  function OutputLimit(m: Manifest, context: Option<u64>, requested: u64): u64 {
    var c := CeilingsOf(m, context);
    var capped := if c.maximum.Some? && c.maximum.value < requested then c.maximum.value else requested;
    if c.context.Some? && SaturatingSub(c.context.value, 512) < capped then SaturatingSub(c.context.value, 512)
    else capped
  }

  predicate Permitted(c: Ceilings, requested: u64, n: u64) {
    && n <= requested
    && (c.maximum.Some? ==> n <= c.maximum.value)
    && (c.context.Some? ==> n == 0 || n + 512 <= c.context.value)
  }

  /** It is the largest output that all the ceilings permit. */
  lemma OutputLimitIsBounded(m: Manifest, context: Option<u64>, requested: u64)
    ensures var limit, c := OutputLimit(m, context, requested), CeilingsOf(m, context);
      && Permitted(c, requested, limit)
      && (forall n: u64 :: Permitted(c, requested, n) ==> n <= limit)
  {
  }

  /* ---------- Budget tiers ---------- */

  /** What the running backend reports. */
  datatype Runtime = Runtime(
    effort: Option<Value>, thinking: Option<bool>, budget: Option<int>, budgetControl: bool, nativeEfforts: seq<Value>)

  datatype Tier = Tier(
    id: string, title: string, available: bool, tokens: Option<u64>, minimumOutput: u64, nativeEffort: Option<Value>)

  datatype Limits = Limits(context: Option<u64>, output: u64, reserve: u64, tokens: Option<u64>)

  datatype Profile = Profile(
    supported: bool, tiers: seq<Tier>, defaultTier: Option<string>, adjusted: bool, limits: Limits)

  const TIER_IDS: seq<string> := ["none", "low", "medium", "high", "max", "ultra"]
  const TIER_LABELS: seq<string> := ["Off", "Low", "Medium", "High", "Max", "Ultra"]
  const TIERS := 6

  function TokensAt(k: nat): u64
    requires k < TIERS
  {
    if k == 0 then 0
    else if k == 1 then 512
    else if k == 2 then 1024
    else if k == 3 then 2048
    else if k == 4 then 4096
    else 8192
  }

  function Reserve(output: u64): u64 {
    if output < 512 then output else 512
  }

  /** A negative configured budget means none. */
  function Configured(r: Runtime): Option<u64> {
    if r.budget.Some? && 0 <= r.budget.value < U64_LIMIT then Some(r.budget.value) else None
  }

  function Ceiling(r: Runtime, output: u64): u64 {
    var room := output - Reserve(output);
    if Configured(r).Some? && Configured(r).value < room then Configured(r).value else room
  }

  function BudgetTier(r: Runtime, output: u64, k: nat): Tier
    requires k < TIERS
  {
    var tokens := TokensAt(k);
    Tier(TIER_IDS[k], TIER_LABELS[k], output > 0 && tokens <= Ceiling(r, output), Some(tokens),
         if tokens == 0 then 1 else tokens + 512, None)
  }

  function BudgetTiers(r: Runtime, output: u64): seq<Tier> {
    seq(TIERS, k requires 0 <= k < TIERS => BudgetTier(r, output, k))
  }

  /** A tier is on offer exactly when its own minimum fits the output and its tokens the configured budget. */
  lemma TierAvailability(r: Runtime, output: u64, k: nat)
    requires k < TIERS
    ensures var t := BudgetTier(r, output, k);
      && (t.available <==>
            t.minimumOutput <= output && (Configured(r).Some? ==> t.tokens.value <= Configured(r).value))
      && (t.available ==> t.tokens.value + Reserve(output) <= output)
  {
  }

  /** The tokens of the tier that the backend's default effort names. */
  function NamedTokens(r: Runtime): Option<u64> {
    if r.effort.None? || !r.effort.value.Text? then None else NamedFrom(r.effort.value.text, 0)
  }

  function NamedFrom(id: string, k: nat): Option<u64>
    requires k <= TIERS
    decreases TIERS - k
  {
    if k == TIERS then None else if TIER_IDS[k] == id then Some(TokensAt(k)) else NamedFrom(id, k + 1)
  }

  predicate TurnedOff(r: Runtime) {
    r.thinking == Some(false) || Configured(r) == Some(0)
  }

  predicate Eligible(r: Runtime, output: u64, k: nat)
    requires k < TIERS
  {
    BudgetTier(r, output, k).available && (NamedTokens(r).Some? ==> TokensAt(k) <= NamedTokens(r).value)
  }

  /** The highest eligible tier below `n`. */
  function Highest(r: Runtime, output: u64, n: nat): (highest: Option<nat>)
    requires n <= TIERS
    ensures highest.Some? ==> highest.value < n
  {
    if n == 0 then None else if Eligible(r, output, n - 1) then Some(n - 1) else Highest(r, output, n - 1)
  }

  function DefaultIndex(r: Runtime, output: u64): (index: Option<nat>)
    ensures index.Some? ==> index.value < TIERS
  {
    if TurnedOff(r) then (if output > 0 then Some(0) else None) else Highest(r, output, TIERS)
  }

  lemma {:induction false} HighestIsHighest(r: Runtime, output: u64, n: nat)
    requires n <= TIERS
    ensures Highest(r, output, n).None? <==> forall k :: 0 <= k < n ==> !Eligible(r, output, k)
    ensures Highest(r, output, n).Some? ==>
      var h := Highest(r, output, n).value;
      h < n && Eligible(r, output, h) && forall k :: h < k < n ==> !Eligible(r, output, k)
  {
    if n > 0 {
      HighestIsHighest(r, output, n - 1);
    }
  }

  /** There is a default exactly when there is output to spend, and it is the largest tier that may be chosen. */
  lemma DefaultIsTheLargest(r: Runtime, output: u64)
    ensures DefaultIndex(r, output).Some? <==> output > 0
    ensures output > 0 ==>
      var d := DefaultIndex(r, output).value;
      && d < TIERS && BudgetTier(r, output, d).available
      && (TurnedOff(r) ==> TokensAt(d) == 0)
      && (!TurnedOff(r) ==>
            && Eligible(r, output, d)
            && forall k :: 0 <= k < TIERS && Eligible(r, output, k) ==> TokensAt(k) <= TokensAt(d))
  {
    HighestIsHighest(r, output, TIERS);
    assert output > 0 ==> Eligible(r, output, 0);
  }

  function DefaultTokens(r: Runtime, output: u64): Option<u64> {
    var index := DefaultIndex(r, output);
    if index.Some? then Some(TokensAt(index.value)) else None
  }

  /** The order Rust derives for `Option<u64>`: `None` is below every `Some`. */
  predicate AtMost(a: Option<u64>, b: Option<u64>) {
    a.None? || (b.Some? && a.value <= b.value)
  }

  /** More output never means a smaller default. */
  lemma DefaultIsMonotone(m: Manifest, context: Option<u64>, r: Runtime, requested: u64, more: u64)
    requires requested <= more
    ensures var a, b := OutputLimit(m, context, requested), OutputLimit(m, context, more);
      AtMost(DefaultTokens(r, a), DefaultTokens(r, b))
  {
    var a, b := OutputLimit(m, context, requested), OutputLimit(m, context, more);
    assert a <= b;
    DefaultIsTheLargest(r, a);
    DefaultIsTheLargest(r, b);
    if a > 0 {
      var d := DefaultIndex(r, a).value;
      TierAvailability(r, a, d);
      TierAvailability(r, b, d);
      assert !TurnedOff(r) ==> Eligible(r, b, d);
    }
  }

  /* ---------- Native effort tiers ---------- */

  predicate ValidId(id: string) {
    && 0 < |id| <= 64
    && forall i :: 0 <= i < |id| ==>
         || 'a' <= id[i] <= 'z' || 'A' <= id[i] <= 'Z' || '0' <= id[i] <= '9'
         || id[i] == '_' || id[i] == '-'
  }

  function NativeTier(id: string, output: u64): Tier {
    Tier(id, id, output > 0, None, 1, Some(Text(id)))
  }

  predicate Listed(tiers: seq<Tier>, id: string) {
    exists i :: 0 <= i < |tiers| && tiers[i].id == id
  }

  /** The tiers for the allowed efforts that the backend has, each once. */
  function NativeTiers(allowed: seq<Value>, native: seq<Value>, output: u64): seq<Tier> {
    if allowed == [] then []
    else
      var before, value := NativeTiers(allowed[..|allowed| - 1], native, output), allowed[|allowed| - 1];
      if value.Text? && ValidId(value.text) && value in native && !Listed(before, value.text)
      then before + [NativeTier(value.text, output)]
      else before
  }

  lemma {:induction false} NativeTiersAreTheCommonEfforts(allowed: seq<Value>, native: seq<Value>, output: u64)
    ensures var tiers := NativeTiers(allowed, native, output);
      && (forall i :: 0 <= i < |tiers| ==> tiers[i] == NativeTier(tiers[i].id, output))
      && (forall i, j :: 0 <= i < j < |tiers| ==> tiers[i].id != tiers[j].id)
      && (forall id :: Listed(tiers, id) <==> ValidId(id) && Text(id) in allowed && Text(id) in native)
  {
    if allowed != [] {
      var rest, value := allowed[..|allowed| - 1], allowed[|allowed| - 1];
      NativeTiersAreTheCommonEfforts(rest, native, output);
      assert allowed == rest + [value];
      var before, tiers := NativeTiers(rest, native, output), NativeTiers(allowed, native, output);
      forall id ensures Listed(tiers, id) <==> ValidId(id) && Text(id) in allowed && Text(id) in native {
        if Listed(before, id) {
          var i :| 0 <= i < |before| && before[i].id == id;
          assert tiers[i].id == id;
        }
        if |tiers| > |before| {
          assert tiers[|before|].id == value.text;
          assert forall i :: 0 <= i < |before| ==> tiers[i] == before[i];
        }
      }
    }
  }

  /** The effort that the native default refers to. */
  function NativeDefault(r: Runtime, m: Manifest): Option<Value> {
    if r.thinking == Some(false) then Some(Text("none")) else if r.effort.Some? then r.effort else m.defaultEffort
  }

  /** The first available tier with this effort. */
  function TierWith(tiers: seq<Tier>, effort: Option<Value>): Option<string> {
    if tiers == [] then None
    else if tiers[0].nativeEffort == effort && tiers[0].available then Some(tiers[0].id)
    else TierWith(tiers[1..], effort)
  }

  function AllowedEfforts(r: Runtime, m: Manifest): seq<Value> {
    if m.allowedEfforts.Some? then m.allowedEfforts.value else r.nativeEfforts
  }

  /* ---------- The profile ---------- */

  function BudgetProfile(r: Runtime, output: u64, context: Option<u64>): Profile {
    var index := DefaultIndex(r, output);
    var named := if NamedTokens(r).Some? then NamedTokens(r) else Configured(r);
    Profile(true, BudgetTiers(r, output), if index.Some? then Some(TIER_IDS[index.value]) else None,
            r.thinking != Some(false) && named != DefaultTokens(r, output),
            Limits(context, output, Reserve(output), Some(Ceiling(r, output))))
  }

  function NativeProfile(r: Runtime, m: Manifest, output: u64, context: Option<u64>): Profile {
    var tiers := NativeTiers(AllowedEfforts(r, m), r.nativeEfforts, output);
    Profile(tiers != [], tiers, TierWith(tiers, NativeDefault(r, m)), false, Limits(context, output, 0, None))
  }

  /** What `profile` returns. */
  function ProfileOf(m: Manifest, runtime: Option<Runtime>, context: Option<u64>, requested: u64): Profile {
    var output, window := OutputLimit(m, context, requested), CeilingsOf(m, context).context;
    if runtime.None? then Profile(false, [], None, false, Limits(window, output, 0, None))
    else if runtime.value.budgetControl then BudgetProfile(runtime.value, output, window)
    else NativeProfile(runtime.value, m, output, window)
  }

  /** `profile`. */
  method BuildProfile(m: Manifest, runtime: Option<Runtime>, context: Option<u64>, requested: u64)
    returns (profile: Profile)
    ensures profile == ProfileOf(m, runtime, context, requested)
  {
    var output, window := OutputLimit(m, context, requested), CeilingsOf(m, context).context;
    if runtime.None? {
      return Profile(false, [], None, false, Limits(window, output, 0, None));
    }
    if runtime.value.budgetControl {
      profile := BuildBudgetProfile(runtime.value, output, window);
    } else {
      profile := BuildNativeProfile(runtime.value, m, output, window);
    }
  }

  method PushTiers(r: Runtime, output: u64) returns (tiers: seq<Tier>)
    ensures tiers == BudgetTiers(r, output)
  {
    tiers := [];
    for k := 0 to TIERS
      invariant tiers == BudgetTiers(r, output)[..k]
    {
      tiers := tiers + [BudgetTier(r, output, k)];
    }
  }

  /** `named_default`: the tokens of the first tier with the name of the default effort. */
  method FindNamed(r: Runtime, tiers: seq<Tier>) returns (named: Option<u64>)
    requires |tiers| == TIERS && forall k :: 0 <= k < TIERS ==> tiers[k].tokens == Some(TokensAt(k))
    ensures named == NamedTokens(r)
  {
    if r.effort.None? || !r.effort.value.Text? {
      return None;
    }
    var k := 0;
    while k < TIERS && TIER_IDS[k] != r.effort.value.text
      invariant 0 <= k <= TIERS && NamedTokens(r) == NamedFrom(r.effort.value.text, k)
    {
      k := k + 1;
    }
    return if k < TIERS then tiers[k].tokens else None;
  }

  /** `default`: Off, or the last tier on offer that the named default allows. */
  method FindDefault(r: Runtime, output: u64, tiers: seq<Tier>, named: Option<u64>) returns (index: Option<nat>)
    requires tiers == BudgetTiers(r, output) && named == NamedTokens(r)
    ensures index == DefaultIndex(r, output)
  {
    if TurnedOff(r) {
      return if tiers[0].available then Some(0) else None;
    }
    var n := TIERS;
    while n > 0 && !(tiers[n - 1].available && (named.Some? ==> tiers[n - 1].tokens.value <= named.value))
      invariant 0 <= n <= TIERS && Highest(r, output, TIERS) == Highest(r, output, n)
    {
      n := n - 1;
    }
    return if n > 0 then Some(n - 1) else None;
  }

  /** The branch for backends with an enforceable token budget. */
  method BuildBudgetProfile(r: Runtime, output: u64, context: Option<u64>) returns (profile: Profile)
    ensures profile == BudgetProfile(r, output, context)
  {
    var tiers := PushTiers(r, output);
    var named := FindNamed(r, tiers);
    var index := FindDefault(r, output, tiers, named);
    var tokens := if index.Some? then tiers[index.value].tokens else None;
    profile := Profile(true, tiers, if index.Some? then Some(tiers[index.value].id) else None,
                       r.thinking != Some(false) && (if named.Some? then named else Configured(r)) != tokens,
                       Limits(context, output, Reserve(output), Some(Ceiling(r, output))));
  }

  /** The branch for backends that take an effort by name. */
  method BuildNativeProfile(r: Runtime, m: Manifest, output: u64, context: Option<u64>) returns (profile: Profile)
    ensures profile == NativeProfile(r, m, output, context)
  {
    var allowed := AllowedEfforts(r, m);
    var tiers: seq<Tier> := [];
    for i := 0 to |allowed|
      invariant tiers == NativeTiers(allowed[..i], r.nativeEfforts, output)
    {
      assert allowed[..i + 1][..i] == allowed[..i];
      var value := allowed[i];
      if value.Text? && ValidId(value.text) && value in r.nativeEfforts && !Listed(tiers, value.text) {
        tiers := tiers + [NativeTier(value.text, output)];
      }
    }
    assert allowed[..|allowed|] == allowed;
    profile := Profile(tiers != [], tiers, TierWith(tiers, NativeDefault(r, m)), false,
                       Limits(context, output, 0, None));
  }

  /* ---------- Resolving a request ---------- */

  datatype Controls = Unchanged | Budget(tokens: u64, thinking: bool) | Effort(effort: Option<Value>)

  datatype Refusal = Unsupported | NoOutput | NotAvailable(id: string)

  function FindTier(tiers: seq<Tier>, id: string): (r: Option<Tier>)
    ensures r.None? <==> forall t :: t in tiers && t.id == id ==> !t.available
    ensures r.Some? ==> r.value in tiers && r.value.id == id && r.value.available
  {
    if tiers == [] then None
    else if tiers[0].id == id && tiers[0].available then Some(tiers[0])
    else FindTier(tiers[1..], id)
  }

  const DEFAULT := "default"

  /** `ReasoningProfile::resolve`. */
  function Resolve(p: Profile, requested: string): Result<Controls, Refusal> {
    if !p.supported then Err(Unsupported)
    else if p.limits.output == 0 then Err(NoOutput)
    else if requested == DEFAULT && p.defaultTier.None? then Ok(Unchanged)
    else
      var id := if requested == DEFAULT then p.defaultTier.value else requested;
      match FindTier(p.tiers, id)
      case None => Err(NotAvailable(id))
      case Some(t) => Ok(if t.tokens.Some? then Budget(t.tokens.value, t.tokens.value > 0) else Effort(t.nativeEffort))
  }

  lemma TierIdsDiffer(i: nat, j: nat)
    requires i < j < TIERS
    ensures TIER_IDS[i] != TIER_IDS[j]
  {
    assert TIER_IDS[0][0] == 'n' && TIER_IDS[1][0] == 'l' && TIER_IDS[2][0] == 'm' && TIER_IDS[3][0] == 'h';
    assert TIER_IDS[4][0] == 'm' && TIER_IDS[5][0] == 'u' && TIER_IDS[2][1] == 'e' && TIER_IDS[4][1] == 'a';
  }

  lemma TierIsFoundByName(r: Runtime, output: u64, k: nat)
    requires k < TIERS && BudgetTier(r, output, k).available
    ensures FindTier(BudgetTiers(r, output), TIER_IDS[k]) == Some(BudgetTier(r, output, k))
  {
    var tiers := BudgetTiers(r, output);
    assert tiers[k] in tiers && tiers[k].id == TIER_IDS[k];
    var found := FindTier(tiers, TIER_IDS[k]).value;
    var j :| 0 <= j < TIERS && tiers[j] == found;
    if j < k {
      TierIdsDiffer(j, k);
    } else if k < j {
      TierIdsDiffer(k, j);
    }
  }

  lemma NoTierIsCalledDefault(k: nat)
    requires k < TIERS
    ensures TIER_IDS[k] != DEFAULT
  {
    assert DEFAULT[0] == 'd';
    assert TIER_IDS[0][0] == 'n' && TIER_IDS[1][0] == 'l' && TIER_IDS[2][0] == 'm' && TIER_IDS[3][0] == 'h';
    assert TIER_IDS[4][0] == 'm' && TIER_IDS[5][0] == 'u';
  }

  /**
   * Selecting the default is selecting the default tier by name, which is always on offer; no tier is called default.
   */
  lemma DefaultResolvesToItsTier(m: Manifest, r: Runtime, context: Option<u64>, requested: u64)
    requires r.budgetControl
    ensures var p := ProfileOf(m, Some(r), context, requested);
      && (p.defaultTier.Some? <==> p.limits.output > 0)
      && (p.defaultTier.Some? ==>
            && p.defaultTier.value != DEFAULT && Resolve(p, DEFAULT) == Resolve(p, p.defaultTier.value)
            && DefaultTokens(r, p.limits.output).Some?
            && var tokens := DefaultTokens(r, p.limits.output).value;
               Resolve(p, DEFAULT) == Ok(Budget(tokens, tokens > 0)))
      && (p.defaultTier.None? ==> Resolve(p, DEFAULT) == Err(NoOutput))
  {
    var output := OutputLimit(m, context, requested);
    DefaultIsTheLargest(r, output);
    if output > 0 {
      var d := DefaultIndex(r, output).value;
      TierIsFoundByName(r, output, d);
      NoTierIsCalledDefault(d);
    }
  }

  lemma FoundBudgetFits(r: Runtime, output: u64, id: string)
    requires FindTier(BudgetTiers(r, output), id).Some?
    ensures var t := FindTier(BudgetTiers(r, output), id).value;
      && t.tokens.Some? && t.tokens.value + Reserve(output) <= output
      && (Configured(r).Some? ==> t.tokens.value <= Configured(r).value)
  {
    var tiers := BudgetTiers(r, output);
    var k :| 0 <= k < TIERS && tiers[k] == FindTier(tiers, id).value;
    TierAvailability(r, output, k);
  }

  /** A budget that is granted leaves the answer its reserve, within every ceiling of the model. */
  lemma GrantedBudgetsFit(m: Manifest, r: Runtime, context: Option<u64>, requested: u64, id: string)
    requires r.budgetControl
    ensures var p := ProfileOf(m, Some(r), context, requested);
      Resolve(p, id).Ok? ==>
        && Resolve(p, id).value.Budget?
        && var tokens := Resolve(p, id).value.tokens;
           && tokens + p.limits.reserve <= p.limits.output
           && Permitted(CeilingsOf(m, context), requested, p.limits.output)
           && (Configured(r).Some? ==> tokens <= Configured(r).value)
  {
    var output := OutputLimit(m, context, requested);
    OutputLimitIsBounded(m, context, requested);
    DefaultIsTheLargest(r, output);
    var p := ProfileOf(m, Some(r), context, requested);
    if Resolve(p, id).Ok? {
      FoundBudgetFits(r, output, if id == DEFAULT then p.defaultTier.value else id);
    }
  }

  /**
   * A native tier is sent to the backend under its own name, unless its name is "default" and it is not the default:
   * then the request means the default and that tier cannot be selected.
   */
  lemma NativeTiersResolveToThemselves(m: Manifest, r: Runtime, context: Option<u64>, requested: u64, id: string)
    requires !r.budgetControl
    requires var p := ProfileOf(m, Some(r), context, requested); p.limits.output > 0 && Listed(p.tiers, id)
    ensures var p := ProfileOf(m, Some(r), context, requested);
      Resolve(p, id) == Ok(Effort(Some(Text(id)))) <==> id != DEFAULT || p.defaultTier == Some(DEFAULT)
  {
    var p := ProfileOf(m, Some(r), context, requested);
    NativeTiersAreTheCommonEfforts(AllowedEfforts(r, m), r.nativeEfforts, p.limits.output);
    NativeTierIsFound(p.tiers, id, p.limits.output);
    if id == DEFAULT && p.defaultTier.Some? {
      TierWithIsListed(p.tiers, NativeDefault(r, m));
      NativeTierIsFound(p.tiers, p.defaultTier.value, p.limits.output);
    }
  }

  lemma NativeTierIsFound(tiers: seq<Tier>, id: string, output: u64)
    requires output > 0 && Listed(tiers, id)
    requires forall i :: 0 <= i < |tiers| ==> tiers[i] == NativeTier(tiers[i].id, output)
    ensures FindTier(tiers, id) == Some(NativeTier(id, output))
  {
    var i :| 0 <= i < |tiers| && tiers[i].id == id;
    assert tiers[i] in tiers && tiers[i].available;
  }

  lemma {:induction false} TierWithIsListed(tiers: seq<Tier>, effort: Option<Value>)
    requires TierWith(tiers, effort).Some?
    ensures Listed(tiers, TierWith(tiers, effort).value)
  {
    if tiers[0].nativeEffort == effort && tiers[0].available {
      assert tiers[0].id == TierWith(tiers, effort).value;
    } else {
      TierWithIsListed(tiers[1..], effort);
      var i :| 0 <= i < |tiers| - 1 && tiers[1..][i].id == TierWith(tiers, effort).value;
      assert tiers[i + 1].id == TierWith(tiers, effort).value;
    }
  }

  /**
   * With efforts "default" and "low" and "low" as the default, the tier called "default" is on offer but out of
   * reach.
   */
  lemma NativeDefaultOutOfReach(m: Manifest, r: Runtime, context: Option<u64>, requested: u64)
    requires !r.budgetControl && r.nativeEfforts == [Text("default"), Text("low")] && m.allowedEfforts == None
    requires r.effort == Some(Text("low")) && r.thinking == None && OutputLimit(m, context, requested) > 0
    ensures var p := ProfileOf(m, Some(r), context, requested);
      Listed(p.tiers, DEFAULT) && Resolve(p, DEFAULT) != Ok(Effort(Some(Text(DEFAULT))))
  {
    var p, output := ProfileOf(m, Some(r), context, requested), OutputLimit(m, context, requested);
    assert DEFAULT[0] != "low"[0];
    NativeTiersAreTheCommonEfforts(r.nativeEfforts, r.nativeEfforts, output);
    assert ValidId(DEFAULT) && r.nativeEfforts[0] == Text(DEFAULT);
    TierWithMatches(p.tiers, Some(Text("low")), output);
    NativeTiersResolveToThemselves(m, r, context, requested, DEFAULT);
  }

  lemma {:induction false} TierWithMatches(tiers: seq<Tier>, effort: Option<Value>, output: u64)
    requires forall i :: 0 <= i < |tiers| ==> tiers[i] == NativeTier(tiers[i].id, output)
    ensures TierWith(tiers, effort).Some? ==> effort == Some(Text(TierWith(tiers, effort).value))
  {
    if tiers != [] && !(tiers[0].nativeEffort == effort && tiers[0].available) {
      TierWithMatches(tiers[1..], effort, output);
    }
  }

  /** With a vocabulary that has no effort called "default", every native tier is selected by its own name. */
  lemma NativeTiersAreSelectable(m: Manifest, r: Runtime, context: Option<u64>, requested: u64, id: string)
    requires !r.budgetControl && Text(DEFAULT) !in r.nativeEfforts
    requires var p := ProfileOf(m, Some(r), context, requested); p.limits.output > 0 && Listed(p.tiers, id)
    ensures Resolve(ProfileOf(m, Some(r), context, requested), id) == Ok(Effort(Some(Text(id))))
  {
    NativeTiersResolveToThemselves(m, r, context, requested, id);
    NativeTiersAreTheCommonEfforts(AllowedEfforts(r, m), r.nativeEfforts, OutputLimit(m, context, requested));
  }

  const MLX_EFFORTS: seq<Value> := [Text("none"), Text("low"), Text("high"), Text("max")]

  /** The vocabularies that the backends report: none at all, or these four. */
  lemma ReportedEffortsAreSelectable(m: Manifest, r: Runtime, context: Option<u64>, requested: u64, id: string)
    requires !r.budgetControl && (r.nativeEfforts == [] || r.nativeEfforts == MLX_EFFORTS)
    requires var p := ProfileOf(m, Some(r), context, requested); p.limits.output > 0 && Listed(p.tiers, id)
    ensures Resolve(ProfileOf(m, Some(r), context, requested), id) == Ok(Effort(Some(Text(id))))
  {
    assert DEFAULT[0] == 'd' && "none"[0] == 'n' && "low"[0] == 'l' && "high"[0] == 'h' && "max"[0] == 'm';
    NativeTiersAreSelectable(m, r, context, requested, id);
  }
}
