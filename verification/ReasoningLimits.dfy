/** The ceilings, tiers and defaults of src/generation_limits.rs and src/reasoning.rs in plain numbers and names. */
module ReasoningLimits {
  import opened Common
  import opened Reasoning

  /* ---------- Ceilings ---------- */

  /** The model's constraints state the bound `n` under this key, and it is between one and two million. */
  predicate States(m: Manifest, key: string, n: u64) {
    && key in m.constraints && (m.constraints[key] == Number(n) || m.constraints[key] == Range(Some(n)))
    && 1 <= n <= 2_000_000
  }

  /** `least` is the least bound stated under any of these keys, if one is stated. */
  ghost predicate LeastStated(m: Manifest, keys: seq<string>, least: Option<u64>) {
    && (least.Some? ==> exists key :: key in keys && States(m, key, least.value))
    && forall key, n: u64 :: key in keys && States(m, key, n) ==> least.Some? && least.value <= n
  }

  lemma BoundIsStated(m: Manifest, key: string, n: u64)
    ensures BoundOf(m, key) == Some(n) <==> States(m, key, n)
  {
  }

  lemma {:induction false} LeastBoundIsStated(m: Manifest, keys: seq<string>)
    ensures LeastStated(m, keys, LeastBound(m, keys))
  {
    LeastBoundIsLeast(m, keys);
    forall key, n: u64 | key in keys && States(m, key, n)
      ensures LeastBound(m, keys).Some? && LeastBound(m, keys).value <= n
    {
      BoundIsStated(m, key, n);
    }
    if LeastBound(m, keys).Some? {
      var key :| key in keys && BoundOf(m, key) == LeastBound(m, keys);
      BoundIsStated(m, key, LeastBound(m, keys).value);
    }
  }

  /** The context is the runtime's own, or the least the model states; the maximum is below both it and the model's. */
  lemma CeilingsMean(m: Manifest, context: Option<u64>)
    ensures var c := CeilingsOf(m, context);
      && (context.Some? ==> c.context == context)
      && (context.None? ==>
            LeastStated(m, ["max_position_embeddings", "model_max_length", "max_sequence_length"], c.context))
      && exists stated ::
           && LeastStated(m, ["max_output_tokens", "max_completion_tokens", "max_new_tokens"], stated)
           && IsMaximum(c, stated)
  {
    LeastBoundIsStated(m, CONTEXT_KEYS);
    LeastBoundIsStated(m, OUTPUT_KEYS);
    assert IsMaximum(CeilingsOf(m, context), LeastBound(m, OUTPUT_KEYS));
  }

  /** The smaller of the stated maximum and one less than the context, of those there are. */
  predicate IsMaximum(c: Ceilings, stated: Option<u64>) {
    && (c.maximum.None? <==> stated.None? && c.context.None?)
    && (c.maximum.Some? ==>
          && (stated.Some? ==> c.maximum.value <= stated.value)
          && (c.context.Some? ==> c.maximum.value < c.context.value || c.maximum.value == 0)
          && (stated == c.maximum
              || (c.context.Some? && c.context.value == c.maximum.value + 1)
              || (c.context == Some(0) && c.maximum.value == 0)))
  }

  /* ---------- Budget tiers ---------- */

  /** So many thinking tokens can be had: the answer keeps 512 tokens, or all of less, and the backend allows them. */
  predicate Affords(r: Runtime, output: u64, tokens: nat) {
    && output > 0 && tokens + (if output < 512 then output else 512) <= output
    && (r.budget.Some? && r.budget.value >= 0 ==> tokens <= r.budget.value)
  }

  lemma AffordsIsAvailable(r: Runtime, output: u64, k: nat)
    requires k < TIERS && (r.budget.Some? ==> r.budget.value < U64_LIMIT)
    ensures BudgetTier(r, output, k).available <==> Affords(r, output, TokensAt(k))
  {
  }

  /** The six tiers, with their names, tokens and least outputs. */
  lemma TierTable(r: Runtime, output: u64)
    requires r.budget.Some? ==> r.budget.value < U64_LIMIT
    ensures BudgetTiers(r, output)
      == [Tier("none", "Off", Affords(r, output, 0), Some(0), 1, None),
          Tier("low", "Low", Affords(r, output, 512), Some(512), 1024, None),
          Tier("medium", "Medium", Affords(r, output, 1024), Some(1024), 1536, None),
          Tier("high", "High", Affords(r, output, 2048), Some(2048), 2560, None),
          Tier("max", "Max", Affords(r, output, 4096), Some(4096), 4608, None),
          Tier("ultra", "Ultra", Affords(r, output, 8192), Some(8192), 8704, None)]
  {
    var tiers := BudgetTiers(r, output);
    AffordsIsAvailable(r, output, 0);
    AffordsIsAvailable(r, output, 1);
    AffordsIsAvailable(r, output, 2);
    AffordsIsAvailable(r, output, 3);
    AffordsIsAvailable(r, output, 4);
    AffordsIsAvailable(r, output, 5);
    assert |tiers| == 6;
  }

  /** The tokens that stand behind a tier's name. */
  function TokensNamed(id: string): Option<u64> {
    if id == "none" then Some(0)
    else if id == "low" then Some(512)
    else if id == "medium" then Some(1024)
    else if id == "high" then Some(2048)
    else if id == "max" then Some(4096)
    else if id == "ultra" then Some(8192)
    else None
  }

  lemma NamedIsTokensNamed(id: string)
    ensures NamedFrom(id, 0) == TokensNamed(id)
  {
    assert NamedFrom(id, 0) == if id == "none" then Some(0) else NamedFrom(id, 1);
    assert NamedFrom(id, 1) == if id == "low" then Some(512) else NamedFrom(id, 2);
    assert NamedFrom(id, 2) == if id == "medium" then Some(1024) else NamedFrom(id, 3);
    assert NamedFrom(id, 3) == if id == "high" then Some(2048) else NamedFrom(id, 4);
    assert NamedFrom(id, 4) == if id == "max" then Some(4096) else NamedFrom(id, 5);
    assert NamedFrom(id, 5) == if id == "ultra" then Some(8192) else NamedFrom(id, 6);
  }

  /** What the backend's default effort allows, if it is the name of a tier. */
  predicate AllowedByName(r: Runtime, tokens: u64) {
    match r.effort
    case Some(Text(id)) => TokensNamed(id).Some? ==> tokens <= TokensNamed(id).value
    case _ => true
  }

  predicate IsTierSize(tokens: u64) {
    tokens == 0 || tokens == 512 || tokens == 1024 || tokens == 2048 || tokens == 4096 || tokens == 8192
  }

  lemma TokensAtSizes(tokens: u64)
    ensures IsTierSize(tokens) <==> exists k :: 0 <= k < TIERS && TokensAt(k) == tokens
  {
    assert TokensAt(0) == 0 && TokensAt(1) == 512 && TokensAt(2) == 1024;
    assert TokensAt(3) == 2048 && TokensAt(4) == 4096 && TokensAt(5) == 8192;
  }

  lemma EligibleMeans(r: Runtime, output: u64, k: nat)
    requires k < TIERS && (r.budget.Some? ==> r.budget.value < U64_LIMIT)
    ensures Eligible(r, output, k) <==> Affords(r, output, TokensAt(k)) && AllowedByName(r, TokensAt(k))
  {
    AffordsIsAvailable(r, output, k);
    if r.effort.Some? && r.effort.value.Text? {
      NamedIsTokensNamed(r.effort.value.text);
    }
  }

  /**
   * The default: none at all without output, no thinking when the backend turns it off, and otherwise the largest
   * budget that can be had within what the backend's own default names.
   */
  lemma DefaultMeans(r: Runtime, output: u64)
    requires r.budget.Some? ==> r.budget.value < U64_LIMIT
    ensures DefaultTokens(r, output).Some? <==> output > 0
    ensures output > 0 && (r.thinking == Some(false) || r.budget == Some(0)) ==> DefaultTokens(r, output) == Some(0)
    ensures output > 0 && r.thinking != Some(false) && r.budget != Some(0) ==>
      var tokens := DefaultTokens(r, output).value;
      && IsTierSize(tokens) && Affords(r, output, tokens) && AllowedByName(r, tokens)
      && forall t: u64 :: IsTierSize(t) && Affords(r, output, t) && AllowedByName(r, t) ==> t <= tokens
  {
    DefaultIsTheLargest(r, output);
    if output > 0 && r.thinking != Some(false) && r.budget != Some(0) {
      var d := DefaultIndex(r, output).value;
      EligibleMeans(r, output, d);
      TokensAtSizes(TokensAt(d));
      forall t: u64 | IsTierSize(t) && Affords(r, output, t) && AllowedByName(r, t) ensures t <= TokensAt(d) {
        TokensAtSizes(t);
        var k :| 0 <= k < TIERS && TokensAt(k) == t;
        EligibleMeans(r, output, k);
      }
    }
  }

  /** The default counts as adjusted unless it is what the backend names, or else budgets, for itself. */
  lemma AdjustedMeans(m: Manifest, r: Runtime, context: Option<u64>, requested: u64)
    requires r.budgetControl && (r.budget.Some? ==> r.budget.value < U64_LIMIT)
    ensures var p := ProfileOf(m, Some(r), context, requested);
      p.adjusted <==>
        && r.thinking != Some(false)
        && match r.effort
           case Some(Text(id)) =>
             if TokensNamed(id).Some? then DefaultTokens(r, p.limits.output) != TokensNamed(id)
             else NotTheBudget(r, DefaultTokens(r, p.limits.output))
           case _ => NotTheBudget(r, DefaultTokens(r, p.limits.output))
  {
    if r.effort.Some? && r.effort.value.Text? {
      NamedIsTokensNamed(r.effort.value.text);
    }
  }

  predicate NotTheBudget(r: Runtime, tokens: Option<u64>) {
    if r.budget.Some? && r.budget.value >= 0 then tokens.None? || tokens.value != r.budget.value else tokens.Some?
  }

  /* ---------- Requests by name ---------- */

  lemma {:induction false} TierOfName(r: Runtime, output: u64, id: string)
    requires r.budget.Some? ==> r.budget.value < U64_LIMIT
    ensures var found := FindTier(BudgetTiers(r, output), id);
      if TokensNamed(id).Some? && Affords(r, output, TokensNamed(id).value)
      then found.Some? && found.value.tokens == TokensNamed(id)
      else found.None?
  {
    var tiers := BudgetTiers(r, output);
    NamedIsTokensNamed(id);
    forall k | 0 <= k < TIERS && tiers[k].id == id ensures TokensNamed(id) == Some(TokensAt(k)) {
      NamedAt(id, 0, k);
    }
    if TokensNamed(id).Some? {
      var k := NamedIndex(id, 0);
      AffordsIsAvailable(r, output, k);
      assert tiers[k] in tiers && tiers[k].id == id;
    }
    if FindTier(tiers, id).Some? {
      var j :| 0 <= j < TIERS && tiers[j] == FindTier(tiers, id).value;
      AffordsIsAvailable(r, output, j);
    }
  }

  lemma {:induction false} NamedIndex(id: string, from: nat) returns (k: nat)
    requires from <= TIERS && NamedFrom(id, from).Some?
    ensures from <= k < TIERS && TIER_IDS[k] == id && NamedFrom(id, from) == Some(TokensAt(k))
    decreases TIERS - from
  {
    k := from;
    if TIER_IDS[from] != id {
      k := NamedIndex(id, from + 1);
    }
  }

  lemma {:induction false} NamedAt(id: string, from: nat, k: nat)
    requires from <= k < TIERS && TIER_IDS[k] == id
    ensures NamedFrom(id, from) == Some(TokensAt(k))
    decreases TIERS - from
  {
    if from < k {
      TierIdsDiffer(from, k);
      NamedAt(id, from + 1, k);
    }
  }

  /** A tier by name is granted exactly when it is one of the six and can be had, and then with exactly its tokens. */
  lemma ResolvedByName(m: Manifest, r: Runtime, context: Option<u64>, requested: u64, id: string)
    requires r.budgetControl && (r.budget.Some? ==> r.budget.value < U64_LIMIT) && id != "default"
    ensures var output := OutputLimit(m, context, requested);
      Resolve(ProfileOf(m, Some(r), context, requested), id) ==
        if output == 0 then Err(NoOutput)
        else if TokensNamed(id).Some? && Affords(r, output, TokensNamed(id).value)
        then Ok(Budget(TokensNamed(id).value, TokensNamed(id).value > 0))
        else Err(NotAvailable(id))
  {
    TierOfName(r, OutputLimit(m, context, requested), id);
  }

  /* ---------- Native efforts ---------- */

  /** The effort a native backend falls back on: none when thinking is off, its own, or else the model's. */
  function Fallback(r: Runtime, m: Manifest): Option<Value> {
    match r.thinking
    case Some(false) => Some(Text("none"))
    case _ => match r.effort case None => m.defaultEffort case known => known
  }

  lemma {:induction false} TierWithIff(tiers: seq<Tier>, effort: Option<Value>, output: u64, id: string)
    requires forall i :: 0 <= i < |tiers| ==> tiers[i] == NativeTier(tiers[i].id, output)
    ensures TierWith(tiers, effort) == Some(id) <==> output > 0 && Listed(tiers, id) && effort == Some(Text(id))
  {
    if tiers != [] {
      TierWithIff(tiers[1..], effort, output, id);
      assert tiers[0].id == id ==> Listed(tiers, id);
      if Listed(tiers[1..], id) {
        var i :| 0 <= i < |tiers[1..]| && tiers[1..][i].id == id;
        assert tiers[i + 1].id == id;
      }
      if Listed(tiers, id) && tiers[0].id != id {
        var i :| 0 < i < |tiers| && tiers[i].id == id;
        assert tiers[1..][i - 1].id == id;
      }
    }
  }

  /** The native default is the tier of the fallback effort, if there is one and there is output. */
  lemma NativeDefaultMeans(m: Manifest, r: Runtime, context: Option<u64>, requested: u64, id: string)
    requires !r.budgetControl
    ensures var p := ProfileOf(m, Some(r), context, requested);
      p.defaultTier == Some(id) <==> p.limits.output > 0 && Listed(p.tiers, id) && Fallback(r, m) == Some(Text(id))
  {
    var p := ProfileOf(m, Some(r), context, requested);
    NativeTiersAreTheCommonEfforts(AllowedEfforts(r, m), r.nativeEfforts, p.limits.output);
    TierWithIff(p.tiers, NativeDefault(r, m), p.limits.output, id);
  }

  /** What a native request by name comes to in every case, with efforts that both the model and the backend know. */
  lemma NativeByName(m: Manifest, r: Runtime, context: Option<u64>, requested: u64, id: string)
    requires !r.budgetControl && id != "default"
    ensures var p, known := ProfileOf(m, Some(r), context, requested),
                            if m.allowedEfforts.Some? then m.allowedEfforts.value else r.nativeEfforts;
      && (p.supported <==> exists t :: ValidId(t) && Text(t) in known && Text(t) in r.nativeEfforts)
      && (!p.supported ==> Resolve(p, id) == Err(Unsupported))
      && (p.supported && p.limits.output == 0 ==> Resolve(p, id) == Err(NoOutput))
      && (p.supported && p.limits.output > 0 ==>
            Resolve(p, id) == if ValidId(id) && Text(id) in known && Text(id) in r.nativeEfforts
                              then Ok(Effort(Some(Text(id)))) else Err(NotAvailable(id)))
  {
    var p := ProfileOf(m, Some(r), context, requested);
    NativeTiersAreTheCommonEfforts(AllowedEfforts(r, m), r.nativeEfforts, p.limits.output);
    assert p.tiers != [] <==> exists t :: Listed(p.tiers, t) by {
      if p.tiers != [] {
        assert Listed(p.tiers, p.tiers[0].id);
      }
    }
    if p.supported && p.limits.output > 0 && Listed(p.tiers, id) {
      NativeTierIsFound(p.tiers, id, p.limits.output);
    }
    if p.supported && p.limits.output > 0 && !Listed(p.tiers, id) {
      NotFound(p.tiers, id);
    }
  }

  lemma NotFound(tiers: seq<Tier>, id: string)
    requires !Listed(tiers, id)
    ensures FindTier(tiers, id).None?
  {
    forall t | t in tiers ensures t.id != id {
      var i :| 0 <= i < |tiers| && tiers[i] == t;
      assert tiers[i].id != id;
    }
  }

  /** Asking for the default without one leaves the request as it is, and nothing is offered without a backend. */
  lemma DefaultWithoutTier(m: Manifest, runtime: Option<Runtime>, context: Option<u64>, requested: u64, id: string)
    ensures var p := ProfileOf(m, runtime, context, requested);
      && (runtime.None? ==> Resolve(p, id) == Err(Unsupported) && p.tiers == [] && p.defaultTier == None)
      && (p.supported && p.limits.output > 0 && p.defaultTier.None? ==> Resolve(p, "default") == Ok(Unchanged))
  {
  }
}
