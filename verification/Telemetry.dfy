/**
 * The inference telemetry of src/observability.rs: shared records, and the guards that own one entry each.
 */
module Telemetry {
  import opened Common
  import opened RecencyList

  const DETAIL_LIMIT := 128
  const RECENT_LIMIT := 64

  /* ---------- Records ---------- */

  datatype Status = Done | ToolCalls | Length | Failed | Cancelled

  datatype State = Waiting | Streaming | Ended(status: Status)

  datatype RequestSnapshot = RequestSnapshot(
    id: nat, model: string, state: State,
    promptTokens: Option<u64>, cachedTokens: Option<u64>, outputTokens: Option<u64>)

  datatype Totals = Totals(
    started: nat, completed: nat, errors: nat, cancelled: nat, active: nat,
    promptTokens: u64, outputTokens: u64, cachedTokens: u64)

  /** The three counters that a finished request can end up in. */
  datatype Kind = Completion | Error | Cancellation

  function KindOf(status: Status): Kind {
    match status
    case Failed => Error
    case Cancelled => Cancellation
    case Done | ToolCalls | Length => Completion
  }

  function StatusOf(reason: string): Status {
    if reason == "tool_calls" then ToolCalls else if reason == "length" then Length else Done
  }

  function OrZero(tokens: Option<u64>): u64 {
    if tokens.Some? then tokens.value else 0
  }

  /** `u64` addition as a release build does it. */
  function WrappingAdd(a: u64, b: u64): u64 {
    (a + b) % U64_LIMIT
  }

  /* ---------- What the records add up to ---------- */

  ghost function Count(log: seq<RequestSnapshot>, kind: Kind): nat {
    if log == [] then 0
    else
      var last := log[|log| - 1];
      Count(log[..|log| - 1], kind) + (if last.state.Ended? && KindOf(last.state.status) == kind then 1 else 0)
  }

  datatype Measure = PromptTokens | OutputTokens | CachedTokens

  function Tokens(e: RequestSnapshot, m: Measure): u64 {
    match m
    case PromptTokens => OrZero(e.promptTokens)
    case OutputTokens => OrZero(e.outputTokens)
    case CachedTokens => OrZero(e.cachedTokens)
  }

  ghost function Sum(log: seq<RequestSnapshot>, m: Measure): nat {
    if log == [] then 0 else Sum(log[..|log| - 1], m) + Tokens(log[|log| - 1], m)
  }

  lemma AddRemainders(sum: nat, x: u64)
    ensures (sum + x) % U64_LIMIT == (sum % U64_LIMIT + x) % U64_LIMIT
  {
    var q := sum / U64_LIMIT;
    assert sum + x == (sum % U64_LIMIT + x) + q * U64_LIMIT;
  }

  lemma SumPush(log: seq<RequestSnapshot>, e: RequestSnapshot, m: Measure)
    ensures Sum(log + [e], m) % U64_LIMIT == WrappingAdd(Sum(log, m) % U64_LIMIT, Tokens(e, m))
  {
    var all := log + [e];
    assert all[..|all| - 1] == log && all[|all| - 1] == e;
    assert Sum(all, m) == Sum(log, m) + Tokens(e, m);
    AddRemainders(Sum(log, m), Tokens(e, m));
  }

  lemma CountPush(log: seq<RequestSnapshot>, e: RequestSnapshot, kind: Kind)
    requires e.state.Ended?
    ensures Count(log + [e], kind) == Count(log, kind) + (if KindOf(e.state.status) == kind then 1 else 0)
  {
    assert (log + [e])[..|log|] == log;
  }

  ghost function Ids(log: seq<RequestSnapshot>): set<nat> {
    set e | e in log :: e.id
  }

  /** Every entry in the log ended, and under an identifier of its own. */
  ghost predicate Logged(log: seq<RequestSnapshot>) {
    (forall i :: 0 <= i < |log| ==> log[i].state.Ended?) && |Ids(log)| == |log|
  }

  function Tally(totals: Totals, kind: Kind): nat {
    match kind
    case Completion => totals.completed
    case Error => totals.errors
    case Cancellation => totals.cancelled
  }

  ghost predicate CounterMatches(totals: Totals, log: seq<RequestSnapshot>, kind: Kind) {
    Tally(totals, kind) == Count(log, kind)
  }

  function TokenTotal(totals: Totals, m: Measure): u64 {
    match m
    case PromptTokens => totals.promptTokens
    case OutputTokens => totals.outputTokens
    case CachedTokens => totals.cachedTokens
  }

  ghost predicate TotalMatches(totals: Totals, log: seq<RequestSnapshot>, m: Measure) {
    TokenTotal(totals, m) == Sum(log, m) % U64_LIMIT
  }

  /** Identifiers are handed out in order, and each is either open or in the log. */
  ghost predicate IdPlaced(started: nat, open: set<nat>, log: seq<RequestSnapshot>, id: nat) {
    && (id in open || id in Ids(log) <==> 1 <= id <= started)
    && !(id in open && id in Ids(log))
  }

  ghost predicate IdsMatch(started: nat, open: set<nat>, log: seq<RequestSnapshot>) {
    forall id: nat :: IdPlaced(started, open, log, id)
  }

  lemma {:induction false} CountsCoverLog(log: seq<RequestSnapshot>)
    requires forall i :: 0 <= i < |log| ==> log[i].state.Ended?
    ensures Count(log, Completion) + Count(log, Error) + Count(log, Cancellation) == |log|
  {
    if log != [] {
      CountsCoverLog(log[..|log| - 1]);
    }
  }

  lemma {:induction false} FirstNumbers(n: nat, s: set<nat>)
    requires forall id: nat :: id in s <==> 1 <= id <= n
    ensures |s| == n
  {
    if n == 0 {
      assert s == {};
    } else {
      FirstNumbers(n - 1, s - {n});
    }
  }

  /** The places in the log of the requests that ended in one of these ways. */
  ghost function EndedAs(log: seq<RequestSnapshot>, statuses: set<Status>): set<nat> {
    set i: nat | i < |log| && log[i].state.Ended? && log[i].state.status in statuses :: i
  }

  lemma {:induction false} CountIsEndedAs(log: seq<RequestSnapshot>, kind: Kind, statuses: set<Status>)
    requires forall s: Status :: s in statuses <==> KindOf(s) == kind
    ensures Count(log, kind) == |EndedAs(log, statuses)|
  {
    if log != [] {
      var n := |log| - 1;
      CountIsEndedAs(log[..n], kind, statuses);
      var fewer := EndedAs(log[..n], statuses);
      if log[n].state.Ended? && KindOf(log[n].state.status) == kind {
        assert EndedAs(log, statuses) == fewer + {n};
      } else {
        assert EndedAs(log, statuses) == fewer;
      }
    }
  }

  /** Each counter is the number of requests that ended in its own way. */
  lemma CountersMean(totals: Totals, log: seq<RequestSnapshot>)
    requires AllMatch(totals, log)
    ensures totals.errors == |EndedAs(log, {Failed})|
    ensures totals.cancelled == |EndedAs(log, {Cancelled})|
    ensures totals.completed == |EndedAs(log, {Done, ToolCalls, Length})|
  {
    assert CounterMatches(totals, log, Error) && CounterMatches(totals, log, Cancellation);
    assert CounterMatches(totals, log, Completion);
    CountIsEndedAs(log, Error, {Failed});
    CountIsEndedAs(log, Cancellation, {Cancelled});
    CountIsEndedAs(log, Completion, {Done, ToolCalls, Length});
  }

  /** The conservation law: whatever was started is finished in exactly one way, or still open. */
  lemma StartedIsAccountedFor(totals: Totals, open: set<nat>, log: seq<RequestSnapshot>)
    requires Logged(log) && IdsMatch(totals.started, open, log) && AllMatch(totals, log)
    ensures totals.started == totals.completed + totals.errors + totals.cancelled + |open|
  {
    CountsCoverLog(log);
    forall id: nat ensures id in open + Ids(log) <==> 1 <= id <= totals.started {
      assert IdPlaced(totals.started, open, log, id);
    }
    assert open !! Ids(log) by {
      forall id: nat | id in open ensures id !in Ids(log) {
        assert IdPlaced(totals.started, open, log, id);
      }
    }
    FirstNumbers(totals.started, open + Ids(log));
    assert CounterMatches(totals, log, Completion) && CounterMatches(totals, log, Error);
    assert CounterMatches(totals, log, Cancellation);
  }

  /** The books: totals, open identifiers and log agree. */
  ghost predicate Books(totals: Totals, open: set<nat>, log: seq<RequestSnapshot>) {
    && totals.active == |open|
    && Logged(log) && AllMatch(totals, log)
    && IdsMatch(totals.started, open, log)
  }

  /** The tables: bounded details of open requests, and the youngest finished ones. */
  ghost predicate Tables(active: map<nat, RequestSnapshot>, recent: seq<RequestSnapshot>,
                         open: set<nat>, log: seq<RequestSnapshot>)
  {
    active.Keys <= open && |active| <= DETAIL_LIMIT && recent == Newest(log, RECENT_LIMIT)
  }

  /** What holds of the records, the open identifiers and the log at all times. */
  ghost predicate Accounts(totals: Totals, active: map<nat, RequestSnapshot>, recent: seq<RequestSnapshot>,
                           open: set<nat>, log: seq<RequestSnapshot>)
  {
    Books(totals, open, log) && Tables(active, recent, open, log)
  }

  /** The totals after a request begins. */
  function Begun(totals: Totals): Totals {
    totals.(started := totals.started + 1, active := totals.active + 1)
  }

  /** The detail table after a request begins: a full one stays as it is. */
  function WithDetails(active: map<nat, RequestSnapshot>, e: RequestSnapshot): map<nat, RequestSnapshot> {
    if |active| < DETAIL_LIMIT then active[e.id := e] else active
  }

  lemma IdsAfterBegin(started: nat, open: set<nat>, log: seq<RequestSnapshot>)
    requires IdsMatch(started, open, log)
    ensures started + 1 !in open && IdsMatch(started + 1, open + {started + 1}, log)
  {
    assert IdPlaced(started, open, log, started + 1);
    var next, wider := started + 1, open + {started + 1};
    forall id: nat ensures IdPlaced(next, wider, log, id) {
      assert IdPlaced(started, open, log, id);
    }
  }

  lemma BeginAccounts(totals: Totals, active: map<nat, RequestSnapshot>, recent: seq<RequestSnapshot>,
                      open: set<nat>, log: seq<RequestSnapshot>, e: RequestSnapshot)
    requires Accounts(totals, active, recent, open, log) && e.id == totals.started + 1
    ensures Accounts(Begun(totals), WithDetails(active, e), recent, open + {e.id}, log)
    ensures e.id !in open
  {
    BooksAfterBegin(totals, open, log);
    TableAfterBegin(active, open, e);
  }

  lemma BooksAfterBegin(totals: Totals, open: set<nat>, log: seq<RequestSnapshot>)
    requires Books(totals, open, log)
    ensures totals.started + 1 !in open && Books(Begun(totals), open + {totals.started + 1}, log)
  {
    IdsAfterBegin(totals.started, open, log);
    TotalsAfterBegin(totals, log);
    assert |open + {totals.started + 1}| == |open| + 1;
  }

  lemma TableAfterBegin(active: map<nat, RequestSnapshot>, open: set<nat>, e: RequestSnapshot)
    requires active.Keys <= open && |active| <= DETAIL_LIMIT
    ensures var after := WithDetails(active, e);
      after.Keys <= open + {e.id} && |after| <= DETAIL_LIMIT
  {
    OneMoreKey(active, e.id, e);
  }

  ghost predicate AllMatch(totals: Totals, log: seq<RequestSnapshot>) {
    && (forall kind: Kind :: CounterMatches(totals, log, kind))
    && (forall m: Measure :: TotalMatches(totals, log, m))
  }

  lemma TotalsAfterBegin(totals: Totals, log: seq<RequestSnapshot>)
    requires AllMatch(totals, log)
    ensures AllMatch(Begun(totals), log)
  {
    var after := Begun(totals);
    forall kind: Kind ensures CounterMatches(after, log, kind) {
      assert CounterMatches(totals, log, kind);
    }
    forall m: Measure ensures TotalMatches(after, log, m) {
      assert TotalMatches(totals, log, m);
    }
  }

  lemma TotalsAfterFinish(totals: Totals, log: seq<RequestSnapshot>, e: RequestSnapshot)
    requires AllMatch(totals, log) && e.state.Ended?
    ensures AllMatch(Finished(totals, e, e.state.status), log + [e])
  {
    var after, longer := Finished(totals, e, e.state.status), log + [e];
    forall kind: Kind ensures CounterMatches(after, longer, kind) {
      assert CounterMatches(totals, log, kind);
      CountPush(log, e, kind);
    }
    forall m: Measure ensures TotalMatches(after, longer, m) {
      assert TotalMatches(totals, log, m);
      SumPush(log, e, m);
    }
  }

  lemma OneMoreKey(active: map<nat, RequestSnapshot>, id: nat, e: RequestSnapshot)
    ensures active[id := e].Keys == active.Keys + {id}
    ensures |active[id := e]| <= |active| + 1
  {
    var after := active[id := e];
    assert after.Keys == active.Keys + {id};
    assert |after| == |after.Keys| && |active| == |active.Keys|;
  }

  /** The totals after `e` was finished; the subtraction saturates as in the code. */
  function Finished(totals: Totals, e: RequestSnapshot, status: Status): Totals {
    totals.(
      active := if totals.active == 0 then 0 else totals.active - 1,
      errors := totals.errors + (if status == Failed then 1 else 0),
      cancelled := totals.cancelled + (if status == Cancelled then 1 else 0),
      completed := totals.completed + (if status != Failed && status != Cancelled then 1 else 0),
      promptTokens := WrappingAdd(totals.promptTokens, OrZero(e.promptTokens)),
      outputTokens := WrappingAdd(totals.outputTokens, OrZero(e.outputTokens)),
      cachedTokens := WrappingAdd(totals.cachedTokens, OrZero(e.cachedTokens)))
  }

  /** A finished request moves exactly one counter, and its own tokens are all that the token totals gain. */
  lemma FinishedMeans(totals: Totals, e: RequestSnapshot, status: Status)
    requires e.state == Ended(status) && totals.active > 0
    ensures var after := Finished(totals, e, status);
      && after.started == totals.started && after.active == totals.active - 1
      && after.errors == totals.errors + (if status == Failed then 1 else 0)
      && after.cancelled == totals.cancelled + (if status == Cancelled then 1 else 0)
      && after.completed
           == totals.completed + (if status == Done || status == ToolCalls || status == Length then 1 else 0)
    ensures var after := Finished(totals, e, status);
      && Gained(totals.promptTokens, after.promptTokens, e.promptTokens)
      && Gained(totals.outputTokens, after.outputTokens, e.outputTokens)
      && Gained(totals.cachedTokens, after.cachedTokens, e.cachedTokens)
  {
  }

  /** A total of 64 bits before and after some tokens, or none, were added to it. */
  predicate Gained(before: u64, after: u64, tokens: Option<u64>) {
    && (tokens.None? ==> after == before)
    && (tokens.Some? ==>
          after == before + tokens.value || after == before + tokens.value - 0x1_0000_0000_0000_0000)
  }

  lemma LoggedPush(log: seq<RequestSnapshot>, e: RequestSnapshot)
    requires Logged(log) && e.state.Ended? && e.id !in Ids(log)
    ensures Logged(log + [e]) && Ids(log + [e]) == Ids(log) + {e.id}
  {
    var all := log + [e];
    assert all[|log|] == e && e in all;
    assert forall x :: x in all <==> x in log || x == e;
    assert Ids(all) == Ids(log) + {e.id};
  }

  lemma IdsAfterFinish(started: nat, open: set<nat>, log: seq<RequestSnapshot>, e: RequestSnapshot)
    requires IdsMatch(started, open, log) && e.id in open && Logged(log) && e.state.Ended?
    ensures Logged(log + [e]) && IdsMatch(started, open - {e.id}, log + [e])
  {
    var fewer, longer := open - {e.id}, log + [e];
    assert IdPlaced(started, open, log, e.id);
    LoggedPush(log, e);
    forall id: nat ensures IdPlaced(started, fewer, longer, id) {
      assert IdPlaced(started, open, log, id);
    }
  }

  /** One more entry in a bounded list of the youngest, as the code keeps it. */
  function PushRecent(recent: seq<RequestSnapshot>, e: RequestSnapshot): seq<RequestSnapshot> {
    (if |recent| == RECENT_LIMIT then recent[1..] else recent) + [e]
  }

  lemma RecentAfterFinish(log: seq<RequestSnapshot>, e: RequestSnapshot)
    ensures PushRecent(Newest(log, RECENT_LIMIT), e) == Newest(log + [e], RECENT_LIMIT)
  {
  }

  lemma BooksAfterFinish(totals: Totals, open: set<nat>, log: seq<RequestSnapshot>, e: RequestSnapshot)
    requires Books(totals, open, log) && e.id in open && e.state.Ended?
    ensures Books(Finished(totals, e, e.state.status), open - {e.id}, log + [e]) && totals.active > 0
  {
    IdsAfterFinish(totals.started, open, log, e);
    TotalsAfterFinish(totals, log, e);
  }

  lemma TablesAfterFinish(active: map<nat, RequestSnapshot>, recent: seq<RequestSnapshot>,
                          open: set<nat>, log: seq<RequestSnapshot>, e: RequestSnapshot)
    requires Tables(active, recent, open, log)
    ensures Tables(active - {e.id}, PushRecent(recent, e), open - {e.id}, log + [e])
  {
    RecentAfterFinish(log, e);
    assert (active - {e.id}).Keys == active.Keys - {e.id};
    assert |active.Keys - {e.id}| <= |active.Keys|;
  }

  lemma FinishAccounts(totals: Totals, active: map<nat, RequestSnapshot>, recent: seq<RequestSnapshot>,
                       open: set<nat>, log: seq<RequestSnapshot>, e: RequestSnapshot)
    requires Accounts(totals, active, recent, open, log) && e.id in open && e.state.Ended?
    ensures Accounts(Finished(totals, e, e.state.status), active - {e.id}, PushRecent(recent, e),
                     open - {e.id}, log + [e])
    ensures totals.active > 0
  {
    BooksAfterFinish(totals, open, log, e);
    TablesAfterFinish(active, recent, open, log, e);
  }

  /* ---------- The shared records ---------- */

  class Telemetry {
    var totals: Totals
    var active: map<nat, RequestSnapshot>
    var recent: seq<RequestSnapshot>

    /** The identifiers whose guard has not finished, and every finished entry in order. */
    ghost var open: set<nat>
    ghost var log: seq<RequestSnapshot>

    ghost predicate Valid()
      reads this
    {
      Accounts(totals, active, recent, open, log)
    }

    constructor ()
      ensures Valid() && totals.started == 0 && open == {} && log == []
    {
      totals := Totals(0, 0, 0, 0, 0, 0, 0, 0);
      active, recent, open, log := map[], [], {}, [];
    }

    /** The part of `begin` that holds the lock. */
    method Enter(model: string) returns (entry: RequestSnapshot)
      requires Valid()
      modifies this
      ensures Valid()
      ensures entry
        == RequestSnapshot(old(totals.started) + 1, if |model| <= 256 then model else model[..256], Waiting,
                           None, None, None)
      ensures totals.started == old(totals.started) + 1
      ensures log == old(log) && open == old(open) + {entry.id} && entry.id !in old(open)
      ensures active == WithDetails(old(active), entry)
    {
      var id := totals.started + 1;
      entry := RequestSnapshot(id, if |model| <= 256 then model else model[..256], Waiting, None, None, None);
      BeginAccounts(totals, active, recent, open, log, entry);
      totals := Begun(totals);
      active := WithDetails(active, entry);
      open := open + {id};
    }

    /** `begin`. */
    method Begin(model: string) returns (guard: RequestGuard)
      requires Valid()
      modifies this
      ensures Valid() && guard.Valid() && fresh(guard) && guard.telemetry == this
      ensures !guard.finished && guard.raw == NO_TIMINGS
      ensures guard.entry.id == old(totals.started) + 1 && guard.entry.state == Waiting && guard.counted == None
      ensures guard.entry.promptTokens == None && guard.entry.outputTokens == None && guard.entry.cachedTokens == None
      ensures totals.started == old(totals.started) + 1
      ensures log == old(log) && open == old(open) + {guard.entry.id} && guard.entry.id !in old(open)
      ensures active == if |old(active)| < 128 then old(active)[guard.entry.id := guard.entry] else old(active)
    {
      var entry := Enter(model);
      guard := new RequestGuard(this, entry);
    }

    /** The part of `finish` that holds the lock. */
    method Record(entry: RequestSnapshot, status: Status)
      requires Valid() && entry.id in open && entry.state == Ended(status)
      modifies this
      ensures Valid() && totals == Finished(old(totals), entry, status) && totals.active == old(totals).active - 1
      ensures active == old(active) - {entry.id} && open == old(open) - {entry.id} && log == old(log) + [entry]
    {
      FinishAccounts(totals, active, recent, open, log, entry);
      active := active - {entry.id};
      totals := Finished(totals, entry, status);
      recent := PushRecent(recent, entry);
      open := open - {entry.id};
      log := log + [entry];
    }

    /** `snapshot`: the live details, then the finished ones, youngest first. */
    method Snapshot() returns (totals: Totals, live: map<nat, RequestSnapshot>, finished: seq<RequestSnapshot>)
      requires Valid()
      ensures totals == this.totals && live == active
      ensures |finished| == Min(|log|, RECENT_LIMIT)
      ensures forall i :: 0 <= i < |finished| ==> finished[i] == log[|log| - 1 - i]
      ensures totals.started == totals.completed + totals.errors + totals.cancelled + totals.active
    {
      StartedIsAccountedFor(this.totals, open, log);
      totals, live := this.totals, active;
      finished := seq(|recent|, i requires 0 <= i < |recent| reads this => recent[|recent| - 1 - i]);
    }
  }

  /* ---------- Guards ---------- */

  /** The scalar parts of a native API response that the guard looks at. */
  datatype RawValue = RawValue(
    hasError: bool, usagePrompt: Option<u64>, usageOutput: Option<u64>, usageCached: Option<u64>,
    timingsCached: Option<u64>, choices: Option<seq<Choice>>)

  datatype Choice = Choice(hasOutput: bool, finishReason: Option<string>, index: Option<u64>)

  datatype RawTimings = RawTimings(
    usagePrompt: Option<u64>, usageOutput: Option<u64>, usageCached: Option<u64>, cached: Option<u64>)

  const NO_TIMINGS := RawTimings(None, None, None, None)

  function Or(a: Option<u64>, b: Option<u64>): Option<u64> {
    if a.Some? then a else b
  }

  /** `raw_metadata`: a value that says nothing leaves what was noted before. */
  function Noted(raw: RawTimings, value: RawValue): RawTimings {
    RawTimings(Or(value.usagePrompt, raw.usagePrompt), Or(value.usageOutput, raw.usageOutput),
               Or(value.usageCached, raw.usageCached), Or(value.timingsCached, raw.cached))
  }

  function FirstReason(value: RawValue): string {
    if value.choices.Some? && value.choices.value != [] && value.choices.value[0].finishReason.Some?
    then value.choices.value[0].finishReason.value
    else "done"
  }

  class RequestGuard {
    const telemetry: Telemetry
    var entry: RequestSnapshot
    var finished: bool
    var first: bool
    var raw: RawTimings

    /** The entry under which the request was counted. */
    ghost var counted: Option<RequestSnapshot>

    ghost predicate Valid()
      reads this, telemetry
    {
      && telemetry.Valid()
      && 1 <= entry.id <= telemetry.totals.started
      && (!finished <==> entry.id in telemetry.open)
      && (finished <==> counted.Some?)
      && (finished ==> counted.value in telemetry.log && counted.value.id == entry.id)
    }

    constructor (telemetry: Telemetry, entry: RequestSnapshot)
      ensures this.telemetry == telemetry && this.entry == entry && !finished && !first
      ensures raw == NO_TIMINGS && counted == None
    {
      this.telemetry, this.entry, finished, first, raw, counted := telemetry, entry, false, false, NO_TIMINGS, None;
    }

    /** Nothing about the request has been recorded since `t`, `log` and `open`. */
    ghost predicate Untouched(totals: Totals, open: set<nat>, log: seq<RequestSnapshot>)
      reads this, telemetry
    {
      telemetry.totals == totals && telemetry.open == open && telemetry.log == log
    }

    /** The request has been recorded as `e`, and nothing else has. */
    ghost predicate RecordedAs(e: RequestSnapshot, totals: Totals, open: set<nat>, log: seq<RequestSnapshot>)
      reads this, telemetry
    {
      && finished && counted == Some(e) && e.state.Ended?
      && telemetry.totals == Finished(totals, e, e.state.status)
      && telemetry.open == open - {e.id} && telemetry.log == log + [e]
    }

    /** `finish`: the one place where a request is counted, and only the first time. */
    method Finish(status: Status)
      requires Valid()
      modifies this`entry, this`finished, this`counted, telemetry
      ensures Valid() && entry.id == old(entry.id)
      ensures old(finished) ==>
        && Untouched(old(telemetry.totals), old(telemetry.open), old(telemetry.log))
        && finished && counted == old(counted) && entry == old(entry)
      ensures !old(finished) ==>
        RecordedAs(old(entry).(state := Ended(status)), old(telemetry.totals), old(telemetry.open), old(telemetry.log))
    {
      if finished {
        return;
      }
      finished := true;
      entry := entry.(state := Ended(status));
      counted := Some(entry);
      telemetry.Record(entry, status);
    }

    /** `error`. */
    method Error()
      requires Valid()
      modifies this`entry, this`finished, this`counted, telemetry
      ensures Valid() && entry.id == old(entry.id)
      ensures old(finished) ==>
        && Untouched(old(telemetry.totals), old(telemetry.open), old(telemetry.log))
        && finished && counted == old(counted)
      ensures !old(finished) ==>
        RecordedAs(old(entry).(state := Ended(Failed)), old(telemetry.totals), old(telemetry.open), old(telemetry.log))
    {
      Finish(Failed);
    }

    /** `drop`: an unfinished request counts as cancelled, or as failed while its thread panics. */
    method Drop(panicking: bool)
      requires Valid()
      modifies this`entry, this`finished, this`counted, telemetry
      ensures Valid() && entry.id == old(entry.id) && finished && entry.id !in telemetry.open
      ensures old(finished) ==>
        && Untouched(old(telemetry.totals), old(telemetry.open), old(telemetry.log))
        && counted == old(counted)
      ensures !old(finished) ==>
        RecordedAs(old(entry).(state := Ended(if panicking then Failed else Cancelled)),
                   old(telemetry.totals), old(telemetry.open), old(telemetry.log))
    {
      Finish(if panicking then Failed else Cancelled);
    }

    /** `done`. */
    method Done(reason: string, prompt: u64, output: u64, cached: Option<u64>)
      requires Valid()
      modifies this`entry, this`finished, this`counted, telemetry
      ensures Valid() && entry.id == old(entry.id)
      ensures old(finished) ==>
        && Untouched(old(telemetry.totals), old(telemetry.open), old(telemetry.log))
        && finished && counted == old(counted)
      ensures !old(finished) ==>
        RecordedAs(old(entry).(state := Ended(StatusOf(reason)), promptTokens := Some(prompt),
                               outputTokens := Some(output),
                               cachedTokens := cached),
                   old(telemetry.totals), old(telemetry.open), old(telemetry.log))
    {
      if finished {
        return;
      }
      entry := entry.(promptTokens := Some(prompt), outputTokens := Some(output), cachedTokens := cached);
      Finish(StatusOf(reason));
    }

    /** `raw_complete`. */
    method RawComplete(value: RawValue)
      requires Valid()
      modifies this`entry, this`finished, this`counted, this`raw, telemetry
      ensures Valid() && entry.id == old(entry.id)
      ensures old(finished) ==>
        && Untouched(old(telemetry.totals), old(telemetry.open), old(telemetry.log))
        && finished && counted == old(counted) && raw == old(raw)
      ensures !old(finished) ==>
        var noted := Noted(old(raw), value);
        && raw == noted
        && RecordedAs(old(entry).(state := Ended(StatusOf(FirstReason(value))), promptTokens := noted.usagePrompt,
                                  outputTokens := noted.usageOutput,
                                  cachedTokens := Or(noted.usageCached, noted.cached)),
                      old(telemetry.totals), old(telemetry.open), old(telemetry.log))
    {
      if finished {
        return;
      }
      raw := Noted(raw, value);
      entry := entry.(promptTokens := raw.usagePrompt, outputTokens := raw.usageOutput,
                      cachedTokens := Or(raw.usageCached, raw.cached));
      Finish(StatusOf(FirstReason(value)));
    }

    /** `raw_metadata`. */
    method RawMetadata(value: RawValue)
      requires Valid()
      modifies this`raw
      ensures Valid() && raw == Noted(old(raw), value)
    {
      raw := Noted(raw, value);
    }

    /** `first_output`: also called after the request was counted, when it only touches the guard's own entry. */
    method FirstOutput()
      requires Valid()
      modifies this`entry, this`first, telemetry`active
      ensures Valid() && entry == if old(first) then old(entry) else old(entry).(state := Streaming)
      ensures Untouched(old(telemetry.totals), old(telemetry.open), old(telemetry.log))
      ensures telemetry.active.Keys == old(telemetry.active.Keys)
      ensures telemetry.active
        == if !old(first) && entry.id in old(telemetry.active) then old(telemetry.active)[entry.id := entry]
           else old(telemetry.active)
    {
      if first {
        return;
      }
      first := true;
      entry := entry.(state := Streaming);
      if entry.id in telemetry.active {
        assert telemetry.active[entry.id := entry].Keys == telemetry.active.Keys;
        telemetry.active := telemetry.active[entry.id := entry];
        assert |telemetry.active.Keys| == |old(telemetry.active).Keys|;
      }
    }
  }
}
