/** The wrapper for native API streams in src/observability.rs, which watches several choices at once. */
module RawStreams {
  import opened Common
  import opened Telemetry
  import opened ObservedStreams

  type RawPoll = Poll<Result<RawValue, string>>

  /* ---------- What a trace says ---------- */

  /** The choices that have reported their end, and the reason given last. */
  datatype Closed = Closed(finished: set<nat>, reason: string)

  predicate Closes(c: Choice, expected: nat) {
    c.finishReason.Some? && c.index.Some? && c.index.value < expected
  }

  function Close(closed: Closed, c: Choice, expected: nat): Closed {
    if Closes(c, expected) then Closed(closed.finished + {c.index.value}, c.finishReason.value) else closed
  }

  function CloseAll(closed: Closed, choices: seq<Choice>, expected: nat): Closed
    decreases |choices|
  {
    if choices == [] then closed else CloseAll(Close(closed, choices[0], expected), choices[1..], expected)
  }

  function ChoicesOf(poll: RawPoll): seq<Choice> {
    match poll
    case Item(Ok(value)) => if value.choices.Some? then value.choices.value else []
    case _ => []
  }

  function ClosedBy(polls: seq<RawPoll>, expected: nat): Closed {
    if polls == [] then Closed({}, "")
    else CloseAll(ClosedBy(polls[..|polls| - 1], expected), ChoicesOf(polls[|polls| - 1]), expected)
  }

  function NotedBy(polls: seq<RawPoll>): RawTimings {
    if polls == [] then NO_TIMINGS
    else
      match polls[|polls| - 1]
      case Item(Ok(value)) => Noted(NotedBy(polls[..|polls| - 1]), value)
      case _ => NotedBy(polls[..|polls| - 1])
  }

  predicate Fails(poll: RawPoll) {
    poll.Item? && (poll.value.Err? || poll.value.value.hasError)
  }

  /** The verdict that an exhausted stream brings about when nothing failed before. */
  function AtEnd(closed: Closed, raw: RawTimings, expected: nat): Verdict {
    if |closed.finished| == expected
    then Verdict(StatusOf(closed.reason), raw.usagePrompt, raw.usageOutput, Or(raw.usageCached, raw.cached))
    else FAILED
  }

  function RawDecided(polls: seq<RawPoll>, expected: nat): Option<Verdict> {
    if polls == [] then None
    else
      var before, poll := polls[..|polls| - 1], polls[|polls| - 1];
      if RawDecided(before, expected).Some? then RawDecided(before, expected)
      else if Fails(poll) then Some(FAILED)
      else if poll.Exhausted? then Some(AtEnd(ClosedBy(before, expected), NotedBy(before), expected))
      else None
  }

  /** How the verdict moves on with one more poll. */
  function DecidedNext(decided: Option<Verdict>, closed: Closed, raw: RawTimings, poll: RawPoll, expected: nat)
    : Option<Verdict>
  {
    if decided.Some? then decided
    else if Fails(poll) then Some(FAILED)
    else if poll.Exhausted? then Some(AtEnd(closed, raw, expected))
    else None
  }

  lemma OneMorePoll(polls: seq<RawPoll>, poll: RawPoll, expected: nat)
    ensures ClosedBy(polls + [poll], expected) == CloseAll(ClosedBy(polls, expected), ChoicesOf(poll), expected)
    ensures NotedBy(polls + [poll])
      == if poll.Item? && poll.value.Ok? then Noted(NotedBy(polls), poll.value.value) else NotedBy(polls)
    ensures RawDecided(polls + [poll], expected)
      == DecidedNext(RawDecided(polls, expected), ClosedBy(polls, expected), NotedBy(polls), poll, expected)
  {
    assert (polls + [poll])[..|polls|] == polls;
  }

  /** Choice `i` reported its end somewhere in the trace. */
  ghost predicate ChoiceEnded(polls: seq<RawPoll>, i: nat) {
    exists k, c :: 0 <= k < |polls| && c in ChoicesOf(polls[k]) && c.finishReason.Some? && c.index == Some(i)
  }

  lemma {:induction false} CloseAllFinishes(closed: Closed, choices: seq<Choice>, expected: nat, i: nat)
    ensures i in CloseAll(closed, choices, expected).finished <==>
      i in closed.finished || (i < expected && exists c :: c in choices && c.finishReason.Some? && c.index == Some(i))
    decreases |choices|
  {
    if choices != [] {
      CloseAllFinishes(Close(closed, choices[0], expected), choices[1..], expected, i);
      assert choices == [choices[0]] + choices[1..];
    }
  }

  lemma {:induction false} ClosedIffEnded(polls: seq<RawPoll>, expected: nat, i: nat)
    ensures i in ClosedBy(polls, expected).finished <==> i < expected && ChoiceEnded(polls, i)
  {
    if polls != [] {
      var before, last := polls[..|polls| - 1], polls[|polls| - 1];
      ClosedIffEnded(before, expected, i);
      CloseAllFinishes(ClosedBy(before, expected), ChoicesOf(last), expected, i);
      assert polls == before + [last];
      if ChoiceEnded(polls, i) {
        var k, c :| 0 <= k < |polls| && c in ChoicesOf(polls[k]) && c.finishReason.Some? && c.index == Some(i);
        assert k < |before| ==> before[k] == polls[k];
      }
      if ChoiceEnded(before, i) {
        var k, c :| 0 <= k < |before| && c in ChoicesOf(before[k]) && c.finishReason.Some? && c.index == Some(i);
        assert polls[k] == before[k];
      }
    }
  }

  lemma {:induction false} FullIffAll(s: set<nat>, n: nat)
    requires forall i :: i in s ==> i < n
    ensures |s| <= n
    ensures |s| == n <==> forall i :: 0 <= i < n ==> i in s
  {
    if n == 0 {
      assert s == {};
    } else {
      var rest := s - {n - 1};
      forall i | i in rest ensures i < n - 1 {
        assert i in s;
      }
      FullIffAll(rest, n - 1);
    }
  }

  ghost predicate NoneFails(polls: seq<RawPoll>) {
    forall k :: 0 <= k < |polls| ==> !Fails(polls[k])
  }

  ghost predicate NotOver(polls: seq<RawPoll>) {
    forall k :: 0 <= k < |polls| ==> !polls[k].Exhausted?
  }

  /** Before the end only a failure decides. */
  lemma {:induction false} WhileRunning(polls: seq<RawPoll>, expected: nat)
    requires NotOver(polls)
    ensures RawDecided(polls, expected) == if NoneFails(polls) then None else Some(FAILED)
  {
    if polls != [] {
      WhileRunning(polls[..|polls| - 1], expected);
    }
  }

  /** At the end the request is completed exactly when nothing failed and every expected choice reported its end. */
  lemma AtTheEnd(polls: seq<RawPoll>, expected: nat)
    requires NotOver(polls)
    ensures var v := RawDecided(polls + [Exhausted], expected);
      && v.Some?
      && (KindOf(v.value.status) == Completion <==>
            NoneFails(polls) && forall i :: 0 <= i < expected ==> ChoiceEnded(polls, i))
      && (KindOf(v.value.status) != Completion ==> v.value == FAILED)
  {
    var all := polls + [Exhausted];
    assert all[..|all| - 1] == polls && all[|all| - 1] == Exhausted;
    WhileRunning(polls, expected);
    var finished := ClosedBy(polls, expected).finished;
    forall i: nat ensures i in finished <==> i < expected && ChoiceEnded(polls, i) {
      ClosedIffEnded(polls, expected, i);
    }
    FullIffAll(finished, expected);
  }

  /* ---------- Tokens and reason of a completed request ---------- */

  function PromptIn(poll: RawPoll): Option<u64> {
    if poll.Item? && poll.value.Ok? then poll.value.value.usagePrompt else None
  }

  function OutputIn(poll: RawPoll): Option<u64> {
    if poll.Item? && poll.value.Ok? then poll.value.value.usageOutput else None
  }

  function CachedIn(poll: RawPoll): Option<u64> {
    if poll.Item? && poll.value.Ok? then poll.value.value.usageCached else None
  }

  function TimedCachedIn(poll: RawPoll): Option<u64> {
    if poll.Item? && poll.value.Ok? then poll.value.value.timingsCached else None
  }

  /** `said` is what the last poll with something to say said, and nothing when none had. */
  ghost predicate LastSaid(polls: seq<RawPoll>, says: RawPoll -> Option<u64>, said: Option<u64>) {
    if said == None then forall k :: 0 <= k < |polls| ==> says(polls[k]) == None
    else exists k :: 0 <= k < |polls| && says(polls[k]) == said && SilentAfter(polls, says, k)
  }

  ghost predicate SilentAfter(polls: seq<RawPoll>, says: RawPoll -> Option<u64>, k: nat) {
    forall j :: k < j < |polls| ==> says(polls[j]) == None
  }

  lemma LastSaidNext(polls: seq<RawPoll>, poll: RawPoll, says: RawPoll -> Option<u64>, said: Option<u64>)
    requires LastSaid(polls, says, said)
    ensures LastSaid(polls + [poll], says, Or(says(poll), said))
  {
    var all := polls + [poll];
    assert all[|polls|] == poll;
    if says(poll) == None && said != None {
      var k :| 0 <= k < |polls| && says(polls[k]) == said && SilentAfter(polls, says, k);
      assert all[k] == polls[k] && SilentAfter(all, says, k);
    }
  }

  /** Every number that was noted is the one reported last. */
  lemma {:induction false} NotedIsLastSaid(polls: seq<RawPoll>)
    ensures LastSaid(polls, PromptIn, NotedBy(polls).usagePrompt)
    ensures LastSaid(polls, OutputIn, NotedBy(polls).usageOutput)
    ensures LastSaid(polls, CachedIn, NotedBy(polls).usageCached)
    ensures LastSaid(polls, TimedCachedIn, NotedBy(polls).cached)
  {
    if polls != [] {
      var before, last := polls[..|polls| - 1], polls[|polls| - 1];
      assert polls == before + [last];
      NotedIsLastSaid(before);
      var raw := NotedBy(before);
      LastSaidNext(before, last, PromptIn, raw.usagePrompt);
      LastSaidNext(before, last, OutputIn, raw.usageOutput);
      LastSaidNext(before, last, CachedIn, raw.usageCached);
      LastSaidNext(before, last, TimedCachedIn, raw.cached);
    }
  }

  /** All choices of a trace, in the order in which they came. */
  function Reports(polls: seq<RawPoll>): seq<Choice> {
    if polls == [] then [] else Reports(polls[..|polls| - 1]) + ChoicesOf(polls[|polls| - 1])
  }

  /** `reason` was given by the last of these choices that ended one of those expected. */
  ghost predicate LastReason(reports: seq<Choice>, expected: nat, reason: string) {
    || (reason == "" && forall k :: 0 <= k < |reports| ==> !Closes(reports[k], expected))
    || exists k :: 0 <= k < |reports| && EndsLast(reports, expected, reason, k)
  }

  ghost predicate EndsLast(reports: seq<Choice>, expected: nat, reason: string, k: nat)
    requires k < |reports|
  {
    && Closes(reports[k], expected) && reports[k].finishReason.value == reason
    && forall j :: k < j < |reports| ==> !Closes(reports[j], expected)
  }

  lemma LastReasonNext(reports: seq<Choice>, c: Choice, expected: nat, reason: string)
    requires LastReason(reports, expected, reason)
    ensures LastReason(reports + [c], expected, if Closes(c, expected) then c.finishReason.value else reason)
  {
    var all := reports + [c];
    assert all[|reports|] == c;
    if Closes(c, expected) {
      assert EndsLast(all, expected, c.finishReason.value, |reports|);
    } else if k :| 0 <= k < |reports| && EndsLast(reports, expected, reason, k) {
      assert EndsLast(all, expected, reason, k);
    }
  }

  lemma {:induction false} CloseAllReason(closed: Closed, before: seq<Choice>, choices: seq<Choice>, expected: nat)
    requires LastReason(before, expected, closed.reason)
    ensures LastReason(before + choices, expected, CloseAll(closed, choices, expected).reason)
    decreases |choices|
  {
    if choices == [] {
      assert before + choices == before;
    } else {
      LastReasonNext(before, choices[0], expected, closed.reason);
      assert before + [choices[0]] + choices[1..] == before + choices;
      CloseAllReason(Close(closed, choices[0], expected), before + [choices[0]], choices[1..], expected);
    }
  }

  lemma {:induction false} ReasonIsTheLast(polls: seq<RawPoll>, expected: nat)
    ensures LastReason(Reports(polls), expected, ClosedBy(polls, expected).reason)
  {
    if polls != [] {
      var before, last := polls[..|polls| - 1], polls[|polls| - 1];
      ReasonIsTheLast(before, expected);
      CloseAllReason(ClosedBy(before, expected), Reports(before), ChoicesOf(last), expected);
    }
  }

  predicate StatusFor(reason: string, status: Status) {
    && (status == ToolCalls <==> reason == "tool_calls")
    && (status == Length <==> reason == "length")
    && (status == Done <==> reason != "tool_calls" && reason != "length")
  }

  /** The entry has the numbers reported last, and the state that the reason given last stands for. */
  ghost predicate ChargedLast(polls: seq<RawPoll>, expected: nat, e: RequestSnapshot) {
    && LastSaid(polls, PromptIn, e.promptTokens) && LastSaid(polls, OutputIn, e.outputTokens)
    && (if LastSaid(polls, CachedIn, None) then LastSaid(polls, TimedCachedIn, e.cachedTokens)
        else LastSaid(polls, CachedIn, e.cachedTokens))
    && e.state.Ended?
    && exists reason :: LastReason(Reports(polls), expected, reason) && StatusFor(reason, e.state.status)
  }

  /** A completed request is charged the numbers reported last, and its state follows the reason given last. */
  lemma ChargedAsReported(polls: seq<RawPoll>, expected: nat, e: RequestSnapshot)
    requires NotOver(polls) && NoneFails(polls) && forall i :: 0 <= i < expected ==> ChoiceEnded(polls, i)
    requires RawDecided(polls + [Exhausted], expected).Some?
    requires VerdictOf(e) == RawDecided(polls + [Exhausted], expected)
    ensures ChargedLast(polls, expected, e)
  {
    AtTheEnd(polls, expected);
    var all := polls + [Exhausted];
    assert all[..|all| - 1] == polls && all[|all| - 1] == Exhausted;
    WhileRunning(polls, expected);
    NotedIsLastSaid(polls);
    ReasonIsTheLast(polls, expected);
    assert StatusFor(ClosedBy(polls, expected).reason, StatusOf(ClosedBy(polls, expected).reason));
  }

  lemma {:induction false} RawDecidedStays(polls: seq<RawPoll>, expected: nat, n: nat)
    requires n <= |polls| && RawDecided(polls[..n], expected).Some?
    ensures RawDecided(polls, expected) == RawDecided(polls[..n], expected)
  {
    if n < |polls| {
      assert polls[..|polls| - 1][..n] == polls[..n];
      RawDecidedStays(polls[..|polls| - 1], expected, n);
    } else {
      assert polls[..n] == polls;
    }
  }

  /** The stream had neither failed nor ended before poll `i`. */
  ghost predicate Smooth(seen: seq<RawPoll>, i: nat)
    requires i <= |seen|
  {
    NoneFails(seen[..i]) && NotOver(seen[..i])
  }

  ghost predicate AllEnded(polls: seq<RawPoll>, expected: nat) {
    forall i :: 0 <= i < expected ==> ChoiceEnded(polls, i)
  }

  predicate CountsAsFailed(e: RequestSnapshot) {
    e.state == Ended(Failed) && Uncharged(e)
  }

  /** How the first poll that fails or ends the stream is counted. */
  lemma {:induction false} RawChargedByEvents(seen: seq<RawPoll>, expected: nat, i: nat, e: RequestSnapshot)
    requires i < |seen| && Smooth(seen, i) && (Fails(seen[i]) || seen[i].Exhausted?)
    requires RawDecided(seen, expected).Some? ==> VerdictOf(e) == RawDecided(seen, expected)
    ensures Fails(seen[i]) || !AllEnded(seen[..i], expected) ==> CountsAsFailed(e)
    ensures seen[i].Exhausted? && AllEnded(seen[..i], expected) ==> ChargedLast(seen[..i], expected, e)
  {
    var before := seen[..i];
    assert seen[..i + 1] == before + [seen[i]];
    OneMorePoll(before, seen[i], expected);
    WhileRunning(before, expected);
    RawDecidedStays(seen, expected, i + 1);
    if seen[i].Exhausted? {
      AtTheEnd(before, expected);
      if AllEnded(before, expected) {
        ChargedAsReported(before, expected, e);
      }
    }
  }

  /** `raw_complete` with a reason only, for a request that the wrapper has followed so far. */
  method Complete(guard: RequestGuard, reason: string, ghost decided: Option<Verdict>)
    requires guard.Valid() && Counts(guard, decided)
    modifies guard, guard.telemetry
    ensures guard.Valid() && guard.finished && guard.entry.id == old(guard.entry.id) && guard.raw == old(guard.raw)
    ensures var raw := guard.raw;
      var v := Verdict(StatusOf(reason), raw.usagePrompt, raw.usageOutput, Or(raw.usageCached, raw.cached));
      Counts(guard, if decided.Some? then decided else Some(v))
    ensures Grows(old(guard.counted), guard.counted, old(guard.telemetry.log), guard.telemetry.log)
  {
    guard.RawComplete(RawValue(false, None, None, None, None, Some([Choice(false, Some(reason), None)])));
  }

  /* ---------- The wrapper ---------- */

  class RawStream {
    const stream: Source<Result<RawValue, string>>
    const guard: RequestGuard
    const expected: nat
    var finished: set<nat>
    var reason: string
    var ended: bool
    ghost var polls: nat

    ghost function Trace(): seq<RawPoll>
      reads this, stream
    {
      ShownUpTo(stream.script, polls)
    }

    ghost predicate Valid()
      reads this, stream, guard, guard.telemetry
    {
      && guard.Valid()
      && (ended <==> EndedBefore(stream.script, polls))
      && (!ended ==> stream.at == polls)
      && (ended ==> guard.counted.Some?)
      && Closed(finished, reason) == ClosedBy(Trace(), expected)
      && guard.raw == NotedBy(Trace())
      && Counts(guard, RawDecided(Trace(), expected))
    }

    /** `observe_raw_stream`. */
    constructor (stream: Source<Result<RawValue, string>>, guard: RequestGuard, expected: nat)
      requires guard.Valid() && Counts(guard, None) && guard.raw == NO_TIMINGS && stream.at == 0
      ensures Valid() && polls == 0 && this.stream == stream && this.guard == guard && this.expected == expected
    {
      this.stream, this.guard, this.expected := stream, guard, expected;
      finished, reason, ended, polls := {}, "", false, 0;
    }

    /** The loop over the choices of one value. */
    method SeeChoices(choices: seq<Choice>)
      requires guard.Valid()
      modifies this`finished, this`reason, guard`entry, guard`first, guard.telemetry`active
      ensures guard.Valid() && guard.entry.(state := Waiting) == old(guard.entry).(state := Waiting)
      ensures Closed(finished, reason) == CloseAll(Closed(old(finished), old(reason)), choices, expected)
    {
      for m := 0 to |choices|
        invariant guard.Valid() && guard.entry.(state := Waiting) == old(guard.entry).(state := Waiting)
        invariant CloseAll(Closed(old(finished), old(reason)), choices, expected)
          == CloseAll(Closed(finished, reason), choices[m..], expected)
      {
        var choice := choices[m];
        assert choices[m..][1..] == choices[m + 1..];
        if choice.hasOutput {
          guard.FirstOutput();
        }
        if choice.finishReason.Some? && choice.index.Some? && choice.index.value < expected {
          finished, reason := finished + {choice.index.value}, choice.finishReason.value;
        }
      }
    }

    /** The part of `poll_next` that acts on a value. */
    method SeeValue(value: RawValue, ghost decided: Option<Verdict>)
      requires guard.Valid() && Counts(guard, decided)
      modifies this`finished, this`reason, guard, guard.telemetry
      ensures guard.Valid() && guard.entry.id == old(guard.entry.id)
      ensures Counts(guard, if decided.None? && value.hasError then Some(FAILED) else decided)
      ensures guard.raw == Noted(old(guard.raw), value)
      ensures Closed(finished, reason)
        == CloseAll(Closed(old(finished), old(reason)),
                    if value.choices.Some? then value.choices.value else [], expected)
      ensures Grows(old(guard.counted), guard.counted, old(guard.telemetry.log), guard.telemetry.log)
    {
      if value.hasError {
        Fail(guard, decided);
      }
      guard.RawMetadata(value);
      if value.choices.Some? {
        SeeChoices(value.choices.value);
      }
    }

    /** The part of `poll_next` that acts on the end of the wrapped stream. */
    method SeeEnd(ghost decided: Option<Verdict>)
      requires guard.Valid() && Counts(guard, decided)
      modifies guard, guard.telemetry
      ensures guard.Valid() && guard.entry.id == old(guard.entry.id) && guard.finished && guard.raw == old(guard.raw)
      ensures Counts(guard, if decided.Some? then decided
                            else Some(AtEnd(Closed(finished, reason), guard.raw, expected)))
      ensures Grows(old(guard.counted), guard.counted, old(guard.telemetry.log), guard.telemetry.log)
    {
      if |finished| == expected {
        Complete(guard, reason, decided);
      } else {
        Fail(guard, decided);
      }
    }

    /** The part of `poll_next` that acts on what the wrapped stream answered. */
    method See(poll: RawPoll, ghost decided: Option<Verdict>)
      requires guard.Valid() && Counts(guard, decided)
      modifies this`finished, this`reason, guard, guard.telemetry
      ensures guard.Valid() && guard.entry.id == old(guard.entry.id) && (poll.Exhausted? ==> guard.counted.Some?)
      ensures Closed(finished, reason) == CloseAll(Closed(old(finished), old(reason)), ChoicesOf(poll), expected)
      ensures guard.raw
        == if poll.Item? && poll.value.Ok? then Noted(old(guard.raw), poll.value.value) else old(guard.raw)
      ensures Counts(guard, DecidedNext(decided, Closed(old(finished), old(reason)), old(guard.raw), poll, expected))
      ensures Grows(old(guard.counted), guard.counted, old(guard.telemetry.log), guard.telemetry.log)
    {
      match poll
      case Item(Ok(value)) =>
        SeeValue(value, decided);
      case Item(Err(_)) =>
        Fail(guard, decided);
      case Exhausted =>
        SeeEnd(decided);
      case Pending =>
    }

    /** `poll_next` while the wrapped stream has not ended. */
    method PollLive() returns (poll: RawPoll)
      requires Valid() && !ended
      modifies this, stream, guard, guard.telemetry
      ensures Valid() && polls == old(polls) + 1
      ensures poll == Shown(stream.script, old(polls))
      ensures guard.entry.id == old(guard.entry.id)
      ensures Grows(old(guard.counted), guard.counted, old(guard.telemetry.log), guard.telemetry.log)
    {
      ShownExtends(stream.script, polls);
      ghost var before := Trace();
      poll := stream.PollNext();
      OneMorePoll(before, poll, expected);
      See(poll, RawDecided(before, expected));
      ended, polls := poll.Exhausted?, polls + 1;
      assert Trace() == before + [poll];
    }

    /** `poll_next`. */
    method PollNext() returns (poll: RawPoll)
      requires Valid()
      modifies this, stream, guard, guard.telemetry
      ensures Valid() && polls == old(polls) + 1
      ensures poll == Shown(stream.script, old(polls))
      ensures guard.entry.id == old(guard.entry.id)
      ensures Grows(old(guard.counted), guard.counted, old(guard.telemetry.log), guard.telemetry.log)
    {
      if ended {
        ShownExtends(stream.script, polls);
        OneMorePoll(Trace(), Exhausted, expected);
        polls := polls + 1;
        return Exhausted;
      }
      poll := PollLive();
    }

    /** Dropping the wrapper drops the guard. */
    method Drop(panicking: bool)
      requires Valid()
      modifies this, guard, guard.telemetry
      ensures guard.Valid() && guard.finished
      ensures var decided := RawDecided(old(Trace()), expected);
        Counts(guard, Some(if decided.Some? then decided.value else Dropped(panicking)))
      ensures Grows(old(guard.counted), guard.counted, old(guard.telemetry.log), guard.telemetry.log)
    {
      guard.Drop(panicking);
    }
  }

  /** One raw request from beginning to end, polled `n` times, and how it is counted. */
  method ObserveRaw(telemetry: Telemetry, script: nat -> RawPoll, expected: nat, n: nat, panicking: bool)
    returns (seen: seq<RawPoll>, ghost counted: RequestSnapshot)
    requires telemetry.Valid()
    modifies telemetry
    ensures telemetry.Valid() && telemetry.log == old(telemetry.log) + [counted]
    ensures |seen| == n && forall i :: 0 <= i < n ==>
      seen[i] == if exists j :: 0 <= j < i && script(j).Exhausted? then Exhausted else script(i)
    ensures forall i :: 0 <= i < n && Smooth(seen, i) && (Fails(seen[i]) || seen[i].Exhausted?) ==>
      if seen[i].Exhausted? && AllEnded(seen[..i], expected) then ChargedLast(seen[..i], expected, counted)
      else CountsAsFailed(counted)
    ensures Smooth(seen, n) ==> counted.state == Ended(if panicking then Failed else Cancelled) && Uncharged(counted)
  {
    var guard := telemetry.Begin("model");
    var stream := new Source(script);
    var raw := new RawStream(stream, guard, expected);
    seen := PollRawTimes(raw, n, telemetry.log);
    ghost var was, before := raw.guard.counted, telemetry.log;
    raw.Drop(panicking);
    OwnLog(was, guard.counted, old(telemetry.log), before, telemetry.log);
    counted := guard.counted.value;
    forall i | 0 <= i < n && Smooth(seen, i) && (Fails(seen[i]) || seen[i].Exhausted?)
      ensures if seen[i].Exhausted? && AllEnded(seen[..i], expected) then ChargedLast(seen[..i], expected, counted)
              else CountsAsFailed(counted)
    {
      RawChargedByEvents(seen, expected, i, counted);
    }
    if Smooth(seen, n) {
      assert seen[..n] == seen;
      WhileRunning(seen, expected);
    }
  }

  method PollRawTimes(raw: RawStream, n: nat, ghost log: seq<RequestSnapshot>) returns (seen: seq<RawPoll>)
    requires raw.Valid() && raw.polls == 0 && raw.guard.counted == None && raw.guard.telemetry.log == log
    modifies raw, raw.stream, raw.guard, raw.guard.telemetry
    ensures raw.Valid() && raw.polls == n && seen == ShownUpTo(raw.stream.script, n)
    ensures raw.guard.telemetry.log == log + NewlyCounted(None, raw.guard.counted)
  {
    seen := [];
    assert seen == ShownUpTo(raw.stream.script, 0);
    for i := 0 to n
      invariant raw.Valid() && raw.polls == i && seen == ShownUpTo(raw.stream.script, i)
      invariant raw.guard.telemetry.log == log + NewlyCounted(None, raw.guard.counted)
    {
      ghost var was, before := raw.guard.counted, raw.guard.telemetry.log;
      ShownExtends(raw.stream.script, i);
      var poll := raw.PollNext();
      OwnLog(was, raw.guard.counted, log, before, raw.guard.telemetry.log);
      seen := seen + [poll];
    }
  }
}
