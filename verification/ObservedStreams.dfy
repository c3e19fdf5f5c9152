/**
 * The stream wrappers of src/observability.rs: they pass on what they wrap, and count the request by what they saw.
 */
module ObservedStreams {
  import opened Common
  import opened Telemetry

  /* ---------- Polling ---------- */

  datatype Poll<+T> = Pending | Item(value: T) | Exhausted

  /** A wrapped stream: what it answers to its first poll, its second, and so on. */
  class Source<T> {
    const script: nat -> Poll<T>
    var at: nat

    constructor (script: nat -> Poll<T>)
      ensures this.script == script && at == 0
    {
      this.script, at := script, 0;
    }

    method PollNext() returns (poll: Poll<T>)
      modifies this
      ensures poll == script(old(at)) && at == old(at) + 1
    {
      poll := script(at);
      at := at + 1;
    }
  }

  ghost predicate EndedBefore<T>(script: nat -> Poll<T>, n: nat) {
    exists i :: 0 <= i < n && script(i).Exhausted?
  }

  /** What a client of a transparent wrapper sees: the wrapped stream until it ends, and then its end for ever. */
  ghost function Shown<T>(script: nat -> Poll<T>, i: nat): Poll<T> {
    if EndedBefore(script, i) then Exhausted else script(i)
  }

  ghost function ShownUpTo<T>(script: nat -> Poll<T>, n: nat): seq<Poll<T>> {
    seq(n, (i: nat) requires i < n => Shown(script, i))
  }

  lemma ShownExtends<T>(script: nat -> Poll<T>, n: nat)
    ensures ShownUpTo(script, n + 1) == ShownUpTo(script, n) + [Shown(script, n)]
    ensures EndedBefore(script, n + 1) <==> EndedBefore(script, n) || script(n).Exhausted?
  {
  }

  /** How a request ends: its status and the tokens it is charged. */
  datatype Verdict = Verdict(status: Status, prompt: Option<u64>, output: Option<u64>, cached: Option<u64>)

  const FAILED := Verdict(Failed, None, None, None)

  /** A stream dropped without a verdict. */
  function Dropped(panicking: bool): Verdict {
    Verdict(if panicking then Failed else Cancelled, None, None, None)
  }

  function VerdictOf(e: RequestSnapshot): Option<Verdict> {
    if e.state.Ended? then Some(Verdict(e.state.status, e.promptTokens, e.outputTokens, e.cachedTokens)) else None
  }

  /** The guard has counted the request as `decided` says, or is still waiting for the first verdict. */
  ghost predicate Counts(guard: RequestGuard, decided: Option<Verdict>)
    reads guard
  {
    match guard.counted
    case Some(e) => decided.Some? && VerdictOf(e) == decided
    case None =>
      && decided.None? && guard.entry.promptTokens == None
      && guard.entry.outputTokens == None && guard.entry.cachedTokens == None
  }

  /** What counting the request added to the log. */
  function NewlyCounted(was: Option<RequestSnapshot>, counted: Option<RequestSnapshot>): seq<RequestSnapshot> {
    if was.None? && counted.Some? then [counted.value] else []
  }

  /** A request is counted at most once, and its entry is all that the log gains. */
  ghost predicate Grows(was: Option<RequestSnapshot>, counted: Option<RequestSnapshot>,
                        before: seq<RequestSnapshot>, after: seq<RequestSnapshot>)
  {
    (was.Some? ==> counted == was) && after == before + NewlyCounted(was, counted)
  }

  /** `error` for a request that the wrapper has followed so far. */
  method Fail(guard: RequestGuard, ghost decided: Option<Verdict>)
    requires guard.Valid() && Counts(guard, decided)
    modifies guard`entry, guard`finished, guard`counted, guard.telemetry
    ensures guard.Valid() && guard.finished && guard.entry.id == old(guard.entry.id)
    ensures Counts(guard, if decided.Some? then decided else Some(FAILED))
    ensures Grows(old(guard.counted), guard.counted, old(guard.telemetry.log), guard.telemetry.log)
    ensures guard.telemetry.open == old(guard.telemetry.open) - {guard.entry.id}
  {
    guard.Error();
  }

  /** `done` for a request that the wrapper has followed so far. */
  method Conclude(guard: RequestGuard, reason: string, prompt: u64, output: u64, cached: Option<u64>,
                  ghost decided: Option<Verdict>)
    requires guard.Valid() && Counts(guard, decided)
    modifies guard`entry, guard`finished, guard`counted, guard.telemetry
    ensures guard.Valid() && guard.finished && guard.entry.id == old(guard.entry.id)
    ensures var v := Verdict(StatusOf(reason), Some(prompt), Some(output), cached);
      Counts(guard, if decided.Some? then decided else Some(v))
    ensures Grows(old(guard.counted), guard.counted, old(guard.telemetry.log), guard.telemetry.log)
    ensures guard.telemetry.open == old(guard.telemetry.open) - {guard.entry.id}
  {
    guard.Done(reason, prompt, output, cached);
  }

  /** `first_output`, if there is any, for a request that the wrapper has followed so far. */
  method ShowOutput(guard: RequestGuard, some: bool, ghost decided: Option<Verdict>)
    requires guard.Valid() && Counts(guard, decided)
    modifies guard`entry, guard`first, guard.telemetry`active
    ensures guard.Valid() && guard.entry.id == old(guard.entry.id) && Counts(guard, decided)
    ensures Grows(old(guard.counted), guard.counted, old(guard.telemetry.log), guard.telemetry.log)
    ensures guard.telemetry.open
      == if guard.finished then old(guard.telemetry.open) - {guard.entry.id} else old(guard.telemetry.open)
  {
    if some {
      guard.FirstOutput();
    }
  }

  /* ---------- Generated text ---------- */

  datatype Event =
    | TextChunk(text: string)
    | ToolCallDelta(delta: seq<string>)
    | Finish(reason: string, prompt: u64, output: u64, cached: Option<u64>)

  /** The verdict that one poll can bring about. */
  function Deciding(poll: Poll<Result<Event, string>>): Option<Verdict> {
    match poll
    case Pending => None
    case Exhausted => Some(FAILED)
    case Item(Err(_)) => Some(FAILED)
    case Item(Ok(Finish(reason, prompt, output, cached))) =>
      Some(Verdict(StatusOf(reason), Some(prompt), Some(output), cached))
    case Item(Ok(_)) => None
  }

  /** The verdict of the first poll that has one. */
  function Decided(polls: seq<Poll<Result<Event, string>>>): Option<Verdict> {
    if polls == [] then None
    else if Deciding(polls[0]).Some? then Deciding(polls[0])
    else Decided(polls[1..])
  }

  lemma {:induction false} DecidedPush(polls: seq<Poll<Result<Event, string>>>, poll: Poll<Result<Event, string>>)
    ensures Decided(polls + [poll]) == if Decided(polls).Some? then Decided(polls) else Deciding(poll)
  {
    if polls == [] {
      assert [poll][1..] == [];
    } else {
      assert (polls + [poll])[1..] == polls[1..] + [poll];
      DecidedPush(polls[1..], poll);
    }
  }

  /** Poll `i` is the first with a verdict, and its verdict is `v`. */
  predicate DecidesAt(polls: seq<Poll<Result<Event, string>>>, i: nat, v: Verdict)
    requires i < |polls|
  {
    Deciding(polls[i]) == Some(v) && forall j :: 0 <= j < i ==> Deciding(polls[j]) == None
  }

  /** The first poll with a verdict decides, and only that one. */
  lemma {:induction false} DecidedIsTheFirst(polls: seq<Poll<Result<Event, string>>>, v: Verdict)
    ensures Decided(polls) == Some(v) <==> exists i :: 0 <= i < |polls| && DecidesAt(polls, i, v)
  {
    if polls != [] {
      var rest := polls[1..];
      DecidedIsTheFirst(rest, v);
      if Deciding(polls[0]) == Some(v) {
        assert DecidesAt(polls, 0, v);
      }
      if Deciding(polls[0]) == None {
        forall i | 0 <= i < |rest| ensures DecidesAt(rest, i, v) <==> DecidesAt(polls, i + 1, v) {
          DecidesLater(polls, i, v);
        }
        if i :| 0 <= i < |polls| && DecidesAt(polls, i, v) {
          assert i > 0;
          DecidesLater(polls, i - 1, v);
        }
      }
    }
  }

  lemma DecidesLater(polls: seq<Poll<Result<Event, string>>>, i: nat, v: Verdict)
    requires i + 1 < |polls| && Deciding(polls[0]) == None
    ensures DecidesAt(polls[1..], i, v) <==> DecidesAt(polls, i + 1, v)
  {
    var rest := polls[1..];
    assert forall j :: 0 <= j < i ==> rest[j] == polls[j + 1];
    assert forall j :: 0 < j < i + 1 ==> polls[j] == rest[j - 1];
  }

  /* ---------- The same, in terms of the events ---------- */

  /** A poll that ends the accounting: the closing event, an error, or the end of the stream. */
  predicate Closes(poll: Poll<Result<Event, string>>) {
    poll.Exhausted? || (poll.Item? && (poll.value.Err? || poll.value.value.Finish?))
  }

  ghost predicate FirstToClose(seen: seq<Poll<Result<Event, string>>>, i: nat) {
    i < |seen| && Closes(seen[i]) && forall j :: 0 <= j < i ==> !Closes(seen[j])
  }

  /** The entry carries the closing event's own tokens and the state its reason stands for. */
  predicate ChargedFor(poll: Poll<Result<Event, string>>, e: RequestSnapshot) {
    match poll
    case Item(Ok(Finish(reason, prompt, output, cached))) =>
      && e.promptTokens == Some(prompt) && e.outputTokens == Some(output) && e.cachedTokens == cached
      && (reason == "tool_calls" ==> e.state == Ended(ToolCalls))
      && (reason == "length" ==> e.state == Ended(Length))
      && (reason != "tool_calls" && reason != "length" ==> e.state == Ended(Done))
    case _ => e.state == Ended(Failed) && Uncharged(e)
  }

  predicate Uncharged(e: RequestSnapshot) {
    e.promptTokens == None && e.outputTokens == None && e.cachedTokens == None
  }

  lemma {:induction false} DecidedByTheClosing(seen: seq<Poll<Result<Event, string>>>, i: nat)
    requires FirstToClose(seen, i)
    ensures Decided(seen) == Deciding(seen[i])
  {
    DecidedIsTheFirst(seen, Deciding(seen[i]).value);
    assert DecidesAt(seen, i, Deciding(seen[i]).value);
  }

  lemma {:induction false} UndecidedWithoutClosing(seen: seq<Poll<Result<Event, string>>>)
    requires forall j :: 0 <= j < |seen| ==> !Closes(seen[j])
    ensures Decided(seen) == None
  {
    if seen != [] {
      UndecidedWithoutClosing(seen[1..]);
    }
  }

  /** What a verdict says of the events: the first closing poll is charged for, and none means cancelled or panicked. */
  lemma {:induction false} ChargedByEvents(seen: seq<Poll<Result<Event, string>>>, panicking: bool, e: RequestSnapshot)
    requires VerdictOf(e) == Some(if Decided(seen).Some? then Decided(seen).value else Dropped(panicking))
    ensures forall i: nat :: FirstToClose(seen, i) ==> ChargedFor(seen[i], e)
    ensures (forall j :: 0 <= j < |seen| ==> !Closes(seen[j])) ==>
      e.state == Ended(if panicking then Failed else Cancelled) && Uncharged(e)
  {
    forall i: nat | FirstToClose(seen, i) ensures ChargedFor(seen[i], e) {
      DecidedByTheClosing(seen, i);
    }
    if forall j :: 0 <= j < |seen| ==> !Closes(seen[j]) {
      UndecidedWithoutClosing(seen);
    }
  }

  class ObservedStream {
    const stream: Source<Result<Event, string>>
    const guard: RequestGuard
    var ended: bool
    ghost var polls: nat

    ghost predicate Valid()
      reads this, stream, guard, guard.telemetry
    {
      && guard.Valid()
      && (ended <==> EndedBefore(stream.script, polls))
      && (!ended ==> stream.at == polls)
      && (ended ==> guard.counted.Some?)
      && Counts(guard, Decided(ShownUpTo(stream.script, polls)))
    }

    /** `observe_stream`. */
    constructor (stream: Source<Result<Event, string>>, guard: RequestGuard)
      requires guard.Valid() && Counts(guard, None) && stream.at == 0
      ensures Valid() && polls == 0 && this.stream == stream && this.guard == guard
    {
      this.stream, this.guard, ended, polls := stream, guard, false, 0;
    }

    method SeeEvent(event: Event, ghost decided: Option<Verdict>)
      requires guard.Valid() && Counts(guard, decided)
      modifies guard, guard.telemetry
      ensures guard.Valid() && guard.entry.id == old(guard.entry.id)
      ensures Counts(guard, if decided.Some? then decided else Deciding(Item(Ok(event))))
      ensures Grows(old(guard.counted), guard.counted, old(guard.telemetry.log), guard.telemetry.log)
      ensures guard.telemetry.open
        == if guard.finished then old(guard.telemetry.open) - {guard.entry.id} else old(guard.telemetry.open)
    {
      match event
      case TextChunk(text) => ShowOutput(guard, text != "", decided);
      case ToolCallDelta(delta) => ShowOutput(guard, delta != [], decided);
      case Finish(reason, prompt, output, cached) => Conclude(guard, reason, prompt, output, cached, decided);
    }

    /** The part of `poll_next` that acts on what the wrapped stream answered. */
    method See(poll: Poll<Result<Event, string>>, ghost decided: Option<Verdict>)
      requires guard.Valid() && Counts(guard, decided)
      modifies guard, guard.telemetry
      ensures guard.Valid() && guard.entry.id == old(guard.entry.id)
      ensures Counts(guard, if decided.Some? then decided else Deciding(poll))
      ensures poll.Exhausted? ==> guard.counted.Some?
      ensures Grows(old(guard.counted), guard.counted, old(guard.telemetry.log), guard.telemetry.log)
      ensures guard.telemetry.open
        == if guard.finished then old(guard.telemetry.open) - {guard.entry.id} else old(guard.telemetry.open)
    {
      match poll
      case Item(Ok(event)) =>
        SeeEvent(event, decided);
      case Item(Err(_)) =>
        Fail(guard, decided);
      case Exhausted =>
        if !guard.finished {
          Fail(guard, decided);
        }
      case Pending =>
    }

    /** `poll_next`. */
    method PollNext() returns (poll: Poll<Result<Event, string>>)
      requires Valid()
      modifies this, stream, guard, guard.telemetry
      ensures Valid() && polls == old(polls) + 1
      ensures poll == Shown(stream.script, old(polls))
      ensures guard.entry.id == old(guard.entry.id)
      ensures Grows(old(guard.counted), guard.counted, old(guard.telemetry.log), guard.telemetry.log)
      ensures guard.telemetry.open
        == if guard.finished then old(guard.telemetry.open) - {guard.entry.id} else old(guard.telemetry.open)
    {
      ShownExtends(stream.script, polls);
      DecidedPush(ShownUpTo(stream.script, polls), Shown(stream.script, polls));
      polls := polls + 1;
      if ended {
        return Exhausted;
      }
      poll := stream.PollNext();
      See(poll, Decided(ShownUpTo(stream.script, polls - 1)));
      ended := poll.Exhausted?;
    }

    /** Dropping the wrapper drops the guard: without a verdict by then the request was cancelled. */
    method Drop(panicking: bool)
      requires Valid()
      modifies this, guard, guard.telemetry
      ensures guard.Valid() && guard.finished
      ensures var decided := Decided(ShownUpTo(stream.script, polls));
        Counts(guard, Some(if decided.Some? then decided.value else Dropped(panicking)))
      ensures polls == old(polls) && guard.entry.id == old(guard.entry.id)
      ensures Grows(old(guard.counted), guard.counted, old(guard.telemetry.log), guard.telemetry.log)
      ensures guard.telemetry.open
        == if guard.finished then old(guard.telemetry.open) - {guard.entry.id} else old(guard.telemetry.open)
    {
      guard.Drop(panicking);
    }
  }

  /** The records are what they were when the guard was handed out, but for the guard's own request. */
  ghost predicate OnlyOwn(guard: RequestGuard, open: set<nat>, log: seq<RequestSnapshot>)
    reads guard, guard.telemetry
  {
    && guard.entry.id !in open
    && guard.telemetry.open == (if guard.finished then open else open + {guard.entry.id})
    && guard.telemetry.log == log + NewlyCounted(None, guard.counted)
  }

  lemma OwnOpen(id: nat, open: set<nat>)
    requires id !in open
    ensures open + {id} - {id} == open && open - {id} == open
  {
  }

  lemma OwnLog(was: Option<RequestSnapshot>, counted: Option<RequestSnapshot>,
               log: seq<RequestSnapshot>, before: seq<RequestSnapshot>, after: seq<RequestSnapshot>)
    requires before == log + NewlyCounted(None, was) && Grows(was, counted, before, after)
    ensures after == log + NewlyCounted(None, counted)
  {
  }

  /** `observe_stream` for a new request. */
  method Attach(telemetry: Telemetry, script: nat -> Poll<Result<Event, string>>) returns (observed: ObservedStream)
    requires telemetry.Valid()
    modifies telemetry
    ensures fresh(observed) && fresh(observed.stream) && fresh(observed.guard)
    ensures observed.guard.telemetry == telemetry && observed.stream.script == script
    ensures observed.Valid() && observed.polls == 0
    ensures OnlyOwn(observed.guard, old(telemetry.open), old(telemetry.log))
  {
    var guard := telemetry.Begin("model");
    var stream := new Source(script);
    observed := new ObservedStream(stream, guard);
  }

  method PollTimes(observed: ObservedStream, n: nat, ghost open: set<nat>, ghost log: seq<RequestSnapshot>)
    returns (seen: seq<Poll<Result<Event, string>>>)
    requires observed.Valid() && observed.polls == 0 && OnlyOwn(observed.guard, open, log)
    modifies observed, observed.stream, observed.guard, observed.guard.telemetry
    ensures observed.Valid() && observed.polls == n && OnlyOwn(observed.guard, open, log)
    ensures seen == ShownUpTo(observed.stream.script, n)
  {
    seen := [];
    assert seen == ShownUpTo(observed.stream.script, 0);
    for i := 0 to n
      invariant observed.Valid() && observed.polls == i && OnlyOwn(observed.guard, open, log)
      invariant seen == ShownUpTo(observed.stream.script, i)
    {
      ghost var was, before := observed.guard.counted, observed.guard.telemetry.log;
      OwnOpen(observed.guard.entry.id, open);
      ShownExtends(observed.stream.script, i);
      var poll := observed.PollNext();
      OwnLog(was, observed.guard.counted, log, before, observed.guard.telemetry.log);
      seen := seen + [poll];
    }
  }

  /** One request from beginning to end, polled `n` times: how it is counted is a function of what the polls showed. */
  method Observe(telemetry: Telemetry, script: nat -> Poll<Result<Event, string>>, n: nat, panicking: bool)
    returns (seen: seq<Poll<Result<Event, string>>>, ghost counted: RequestSnapshot)
    requires telemetry.Valid()
    modifies telemetry
    ensures telemetry.Valid() && telemetry.open == old(telemetry.open)
    ensures seen == ShownUpTo(script, n)
    ensures telemetry.log == old(telemetry.log) + [counted]
    ensures VerdictOf(counted) == Some(if Decided(seen).Some? then Decided(seen).value else Dropped(panicking))
    ensures forall i: nat :: FirstToClose(seen, i) ==> ChargedFor(seen[i], counted)
    ensures (forall j :: 0 <= j < n ==> !Closes(seen[j])) ==>
      counted.state == Ended(if panicking then Failed else Cancelled) && Uncharged(counted)
    ensures forall i :: 0 <= i < n ==>
      seen[i] == if exists j :: 0 <= j < i && script(j).Exhausted? then Exhausted else script(i)
  {
    var observed := Attach(telemetry, script);
    seen := PollTimes(observed, n, old(telemetry.open), old(telemetry.log));
    counted := DropOwn(observed, panicking, old(telemetry.open), old(telemetry.log));
    ChargedByEvents(seen, panicking, counted);
  }

  method DropOwn(observed: ObservedStream, panicking: bool, ghost open: set<nat>, ghost log: seq<RequestSnapshot>)
    returns (ghost counted: RequestSnapshot)
    requires observed.Valid() && OnlyOwn(observed.guard, open, log)
    modifies observed, observed.guard, observed.guard.telemetry
    ensures observed.guard.telemetry.Valid()
    ensures observed.guard.telemetry.open == open && observed.guard.telemetry.log == log + [counted]
    ensures var decided := Decided(ShownUpTo(observed.stream.script, old(observed.polls)));
      VerdictOf(counted) == Some(if decided.Some? then decided.value else Dropped(panicking))
  {
    ghost var was, before := observed.guard.counted, observed.guard.telemetry.log;
    OwnOpen(observed.guard.entry.id, open);
    observed.Drop(panicking);
    OwnLog(was, observed.guard.counted, log, before, observed.guard.telemetry.log);
    counted := observed.guard.counted.value;
  }
}
