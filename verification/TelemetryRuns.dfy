/** Any number of requests at once, their guards used in any order: the totals always account for every one of them. */
module TelemetryRuns {
  import opened Common
  import opened RecencyList
  import opened Telemetry
  import opened ObservedStreams

  /** What the owner of a guard may do with it. */
  datatype Act =
    | Note(value: RawValue)
    | Show
    | Conclude(reason: string, prompt: u64, output: u64, cached: Option<u64>)
    | CompleteRaw(value: RawValue)
    | Fail
    | Drop(panicking: bool)

  datatype Step = Begin(model: string) | Do(guard: nat, act: Act)

  /** How a request ends by an act, if it does. */
  function EndBy(act: Act): Option<Status> {
    match act
    case Note(_) => None
    case Show => None
    case Conclude(reason, _, _, _) => Some(Named(reason))
    case CompleteRaw(value) =>
      if value.choices.Some? && value.choices.value != [] && value.choices.value[0].finishReason.Some?
      then Some(Named(value.choices.value[0].finishReason.value))
      else Some(Done)
    case Fail => Some(Failed)
    case Drop(panicking) => Some(if panicking then Failed else Cancelled)
  }

  function Named(reason: string): Status {
    if reason == "length" then Length else if reason == "tool_calls" then ToolCalls else Done
  }

  /** What became of each request: the first act that ends one counts. */
  function Fates(steps: seq<Step>): seq<Option<Status>> {
    if steps == [] then []
    else
      var before := Fates(steps[..|steps| - 1]);
      match steps[|steps| - 1]
      case Begin(_) => before + [None]
      case Do(i, act) => if i < |before| && before[i] == None then before[i := EndBy(act)] else before
  }

  ghost predicate Met(g: RequestGuard, fate: Option<Status>)
    reads g
  {
    && (g.finished <==> fate.Some?)
    && (fate.Some? ==> g.counted.Some? && g.counted.value.state == Ended(fate.value))
  }

  /** The acts that end a request, unless one did before. */
  method End(guard: RequestGuard, act: Act, ghost fate: Option<Status>)
    requires guard.Valid() && Met(guard, fate) && !act.Note? && !act.Show?
    modifies guard, guard.telemetry
    ensures guard.Valid() && guard.entry.id == old(guard.entry.id) && guard.finished
    ensures fate.Some? ==>
      && guard.counted == old(guard.counted)
      && guard.Untouched(old(guard.telemetry.totals), old(guard.telemetry.open), old(guard.telemetry.log))
    ensures fate.None? ==>
      && guard.counted.Some? && guard.counted.value.state == Ended(EndBy(act).value)
      && guard.RecordedAs(guard.counted.value, old(guard.telemetry.totals), old(guard.telemetry.open),
                          old(guard.telemetry.log))
    ensures fate == None && act.Conclude? ==>
      && guard.counted.value.promptTokens == Some(act.prompt) && guard.counted.value.outputTokens == Some(act.output)
      && guard.counted.value.cachedTokens == act.cached
  {
    match act
    case Conclude(reason, prompt, output, cached) => guard.Done(reason, prompt, output, cached);
    case CompleteRaw(value) => guard.RawComplete(value);
    case Fail => guard.Error();
    case Drop(panicking) => guard.Drop(panicking);
  }

  /** The acts that leave a request as it is. */
  method Touch(guard: RequestGuard, act: Act)
    requires guard.Valid() && (act.Note? || act.Show?)
    modifies guard, guard.telemetry
    ensures guard.Valid() && guard.entry.id == old(guard.entry.id)
    ensures guard.finished == old(guard.finished) && guard.counted == old(guard.counted)
    ensures guard.Untouched(old(guard.telemetry.totals), old(guard.telemetry.open), old(guard.telemetry.log))
  {
    match act
    case Note(value) => guard.RawMetadata(value);
    case Show => guard.FirstOutput();
  }

  lemma NothingGrows(counted: Option<RequestSnapshot>, log: seq<RequestSnapshot>, open: set<nat>, id: nat)
    ensures Grows(counted, counted, log, log)
    ensures id !in open ==> open - {id} == open
  {
  }

  method Perform(guard: RequestGuard, act: Act, ghost fate: Option<Status>)
    requires guard.Valid() && Met(guard, fate)
    modifies guard, guard.telemetry
    ensures Met(guard, if fate.Some? then fate else EndBy(act))
    ensures guard.Valid() && guard.entry.id == old(guard.entry.id)
    ensures guard.telemetry.totals.started == old(guard.telemetry.totals.started)
    ensures Grows(old(guard.counted), guard.counted, old(guard.telemetry.log), guard.telemetry.log)
    ensures guard.telemetry.open
      == if guard.finished then old(guard.telemetry.open) - {guard.entry.id} else old(guard.telemetry.open)
  {
    NothingGrows(guard.counted, guard.telemetry.log, guard.telemetry.open, guard.entry.id);
    if act.Note? || act.Show? {
      Touch(guard, act);
    } else {
      End(guard, act, fate);
    }
  }

  /** What `RequestGuard.Valid` says of the guard beside its telemetry. */
  ghost predicate Sound(id: nat, finished: bool, counted: Option<RequestSnapshot>,
                        started: nat, open: set<nat>, log: seq<RequestSnapshot>)
  {
    && 1 <= id <= started && (!finished <==> id in open) && (finished <==> counted.Some?)
    && (finished ==> counted.value in log && counted.value.id == id)
  }

  ghost predicate SoundGuard(telemetry: Telemetry, g: RequestGuard)
    reads g, telemetry
  {
    && g.telemetry == telemetry
    && Sound(g.entry.id, g.finished, g.counted, telemetry.totals.started, telemetry.open, telemetry.log)
  }

  /** The identifiers are those of the guards, each guard with its own: the i-th request to begin has number i + 1. */
  ghost predicate AllSound(telemetry: Telemetry, guards: seq<RequestGuard>)
    reads telemetry, set i | 0 <= i < |guards| :: guards[i]
  {
    forall i :: 0 <= i < |guards| ==> SoundGuard(telemetry, guards[i]) && guards[i].entry.id == i + 1
  }

  /** The requests that began and were not counted yet. */
  ghost function Live(guards: seq<RequestGuard>): set<nat>
    reads set i | 0 <= i < |guards| :: guards[i]
  {
    set i | 0 <= i < |guards| && !guards[i].finished :: i + 1
  }

  ghost predicate AllMet(guards: seq<RequestGuard>, fates: seq<Option<Status>>)
    reads set i | 0 <= i < |guards| :: guards[i]
  {
    |guards| == |fates| && forall i :: 0 <= i < |guards| ==> Met(guards[i], fates[i])
  }

  method DoOne(telemetry: Telemetry, guards: seq<RequestGuard>, i: nat, act: Act, ghost fates: seq<Option<Status>>)
    requires telemetry.Valid() && AllSound(telemetry, guards) && i < |guards| && AllMet(guards, fates)
    modifies guards[i], telemetry
    ensures telemetry.Valid() && AllSound(telemetry, guards)
    ensures AllMet(guards, if fates[i] == None then fates[i := EndBy(act)] else fates)
    ensures telemetry.totals.started == old(telemetry.totals.started)
    ensures old(telemetry.log) <= telemetry.log
  {
    var g := guards[i];
    assert SoundGuard(telemetry, g);
    forall j | 0 <= j < |guards| && j != i ensures guards[j] != g && SoundGuard(telemetry, guards[j]) {
      assert SoundGuard(telemetry, guards[j]) && guards[j].entry.id == j + 1;
    }
    Perform(g, act, fates[i]);
    forall j | 0 <= j < |guards| ensures SoundGuard(telemetry, guards[j]) && guards[j].entry.id == j + 1 {
    }
  }

  method BeginOne(telemetry: Telemetry, guards: seq<RequestGuard>, model: string, ghost fates: seq<Option<Status>>)
    returns (more: seq<RequestGuard>)
    requires AllMet(guards, fates)
    requires telemetry.Valid() && AllSound(telemetry, guards) && telemetry.totals.started == |guards|
    modifies telemetry
    ensures telemetry.Valid() && AllSound(telemetry, more) && telemetry.totals.started == |more|
    ensures |more| == |guards| + 1 && more[..|guards|] == guards && fresh(more[|guards|])
    ensures telemetry.log == old(telemetry.log) && AllMet(more, fates + [None])
  {
    forall j | 0 <= j < |guards| ensures SoundGuard(telemetry, guards[j]) && guards[j].entry.id == j + 1 {
    }
    var guard := telemetry.Begin(model);
    more := guards + [guard];
    forall j | 0 <= j < |more| ensures SoundGuard(telemetry, more[j]) && more[j].entry.id == j + 1 {
      if j < |guards| {
        assert more[j] == guards[j];
      }
    }
  }

  lemma OpenAreTheLive(telemetry: Telemetry, guards: seq<RequestGuard>)
    requires telemetry.Valid() && AllSound(telemetry, guards) && telemetry.totals.started == |guards|
    ensures telemetry.open == Live(guards)
  {
    forall id: nat ensures id in telemetry.open <==> id in Live(guards) {
      assert IdPlaced(telemetry.totals.started, telemetry.open, telemetry.log, id);
      if 1 <= id <= |guards| {
        assert SoundGuard(telemetry, guards[id - 1]) && guards[id - 1].entry.id == id;
      }
    }
  }

  /** Every reachable state of the records, with any number of guards used in any order. */
  method Run(steps: seq<Step>) returns (telemetry: Telemetry, guards: seq<RequestGuard>)
    ensures telemetry.Valid() && AllSound(telemetry, guards) && AllMet(guards, Fates(steps))
    ensures var totals := telemetry.totals;
      && totals.started == |guards|
      && totals.started == totals.completed + totals.errors + totals.cancelled + totals.active
      && totals.active == |Live(guards)|
    ensures telemetry.active.Keys <= Live(guards) && |telemetry.active| <= DETAIL_LIMIT
    ensures telemetry.recent == Newest(telemetry.log, RECENT_LIMIT)
    ensures AllMatch(telemetry.totals, telemetry.log)
    ensures telemetry.totals.errors == |EndedAs(telemetry.log, {Failed})|
    ensures telemetry.totals.cancelled == |EndedAs(telemetry.log, {Cancelled})|
    ensures telemetry.totals.completed == |EndedAs(telemetry.log, {Done, ToolCalls, Length})|
  {
    telemetry := new Telemetry();
    guards := [];
    for n := 0 to |steps|
      invariant fresh(telemetry) && forall i :: 0 <= i < |guards| ==> fresh(guards[i])
      invariant telemetry.Valid() && AllSound(telemetry, guards) && telemetry.totals.started == |guards|
      invariant AllMet(guards, Fates(steps[..n]))
    {
      ghost var fates := Fates(steps[..n]);
      assert steps[..n + 1][..n] == steps[..n];
      match steps[n]
      case Begin(model) =>
        var more := BeginOne(telemetry, guards, model, fates);
        assert forall i :: 0 <= i < |guards| ==> more[i] == guards[i];
        guards := more;
      case Do(i, act) =>
        if i < |guards| {
          DoOne(telemetry, guards, i, act, fates);
        }
    }
    assert steps[..|steps|] == steps;
    OpenAreTheLive(telemetry, guards);
    StartedIsAccountedFor(telemetry.totals, telemetry.open, telemetry.log);
    CountersMean(telemetry.totals, telemetry.log);
  }
}
