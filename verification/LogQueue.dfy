/** The bounded log queue of src/logging.rs: any number of producers, one writer thread, flush barriers. */
module LogQueue {
  import opened Common
  import opened LogFile

  const CAPACITY := 4096

  datatype Message = Line(bytes: Bytes) | Flush(ticket: nat)

  function LinesIn(queue: seq<Message>): seq<Bytes> {
    if queue == [] then []
    else (if queue[0].Line? then [queue[0].bytes] else []) + LinesIn(queue[1..])
  }

  lemma {:induction false} LinesInAppend(a: seq<Message>, b: seq<Message>)
    ensures LinesIn(a + b) == LinesIn(a) + LinesIn(b)
  {
    if a == [] {
      assert a + b == b;
    } else {
      assert (a + b)[1..] == a[1..] + b;
      LinesInAppend(a[1..], b);
    }
  }

  /** The offered lines the queue had room for, in their order. */
  function Chosen(lines: seq<Bytes>, taken: seq<bool>): seq<Bytes>
    requires |lines| == |taken|
  {
    if lines == [] then []
    else Chosen(lines[..|lines| - 1], taken[..|lines| - 1]) + (if taken[|lines| - 1] then [lines[|lines| - 1]] else [])
  }

  lemma ChosenPush(lines: seq<Bytes>, taken: seq<bool>, line: Bytes, take: bool)
    requires |lines| == |taken|
    ensures Chosen(lines + [line], taken + [take]) == Chosen(lines, taken) + (if take then [line] else [])
  {
    assert (lines + [line])[..|lines|] == lines && (taken + [take])[..|lines|] == taken;
  }

  /** The barrier at `queue[i]` waits exactly for the lines handled before and queued in front of it. */
  ghost predicate WaitsFor(queue: seq<Message>, barrier: map<nat, nat>, handled: nat, i: nat)
    requires i < |queue|
  {
    queue[i].Flush? ==> queue[i].ticket in barrier && barrier[queue[i].ticket] == handled + |LinesIn(queue[..i])|
  }

  ghost predicate Barriers(queue: seq<Message>, barrier: map<nat, nat>, handled: nat) {
    forall i :: 0 <= i < |queue| ==> WaitsFor(queue, barrier, handled, i)
  }

  lemma BarriersPush(queue: seq<Message>, barrier: map<nat, nat>, handled: nat, message: Message, after: map<nat, nat>)
    requires Barriers(queue, barrier, handled)
    requires message.Line? ==> after == barrier
    requires message.Flush? ==>
      message.ticket !in barrier && after == barrier[message.ticket := handled + |LinesIn(queue)|]
    ensures Barriers(queue + [message], after, handled)
  {
    var longer := queue + [message];
    forall i | 0 <= i < |longer| ensures WaitsFor(longer, after, handled, i) {
      if i < |queue| {
        assert WaitsFor(queue, barrier, handled, i);
        assert longer[..i] == queue[..i];
      } else {
        assert longer[..i] == queue;
      }
    }
  }

  lemma BarriersPop(queue: seq<Message>, barrier: map<nat, nat>, handled: nat)
    requires queue != [] && Barriers(queue, barrier, handled)
    ensures Barriers(queue[1..], barrier, handled + (if queue[0].Line? then 1 else 0))
    ensures queue[0].Flush? ==> queue[0].ticket in barrier && barrier[queue[0].ticket] == handled
  {
    assert WaitsFor(queue, barrier, handled, 0);
    var shorter := queue[1..];
    var more := handled + (if queue[0].Line? then 1 else 0);
    forall i | 0 <= i < |shorter| ensures WaitsFor(shorter, barrier, more, i) {
      assert WaitsFor(queue, barrier, handled, i + 1);
      assert queue[..i + 1][1..] == shorter[..i] && queue[..i + 1][0] == queue[0];
    }
  }

  /** What a writer left of line `i`: the whole line, or after a failure a prefix. */
  ghost predicate LeftAt(landed: seq<Bytes>, lines: seq<Bytes>, failed: set<nat>, i: nat)
    requires i < |landed| == |lines|
  {
    landed[i] <= lines[i] && (i !in failed ==> landed[i] == lines[i])
  }

  ghost predicate LeftOf(landed: seq<Bytes>, lines: seq<Bytes>, failed: set<nat>) {
    && |landed| == |lines|
    && (forall i :: i in failed ==> i < |lines|)
    && (forall i :: 0 <= i < |lines| ==> LeftAt(landed, lines, failed, i))
  }

  lemma LeftOfPush(landed: seq<Bytes>, lines: seq<Bytes>, failed: set<nat>, part: Bytes, line: Bytes, ok: bool)
    requires LeftOf(landed, lines, failed) && part <= line && (ok ==> part == line)
    ensures LeftOf(landed + [part], lines + [line], if ok then failed else failed + {|lines|})
    ensures |if ok then failed else failed + {|lines|}| == |failed| + (if ok then 0 else 1)
  {
    assert |lines| !in failed;
    var moreLanded, moreLines, nowFailed := landed + [part], lines + [line], if ok then failed else failed + {|lines|};
    forall i | 0 <= i < |moreLines| ensures LeftAt(moreLanded, moreLines, nowFailed, i) {
      assert i < |lines| ==> LeftAt(landed, lines, failed, i);
    }
  }

  /** Every offered line was dropped or accepted, and every accepted one is handled or queued, in order. */
  ghost predicate Accounted(queue: seq<Message>, offered: seq<Bytes>, taken: seq<bool>, dropped: nat,
                            accepted: seq<Bytes>, handled: seq<Bytes>)
  {
    && |offered| == |taken| == dropped + |accepted|
    && accepted == Chosen(offered, taken)
    && accepted == handled + LinesIn(queue)
  }

  lemma AccountsAfterOffer(queue: seq<Message>, offered: seq<Bytes>, taken: seq<bool>, dropped: nat,
                           accepted: seq<Bytes>, handled: seq<Bytes>, line: Bytes)
    requires Accounted(queue, offered, taken, dropped, accepted, handled)
    ensures Accounted(queue + [Line(line)], offered + [line], taken + [true], dropped, accepted + [line], handled)
    ensures Accounted(queue, offered + [line], taken + [false], dropped + 1, accepted, handled)
  {
    ChosenPush(offered, taken, line, true);
    ChosenPush(offered, taken, line, false);
    LinesInAppend(queue, [Line(line)]);
    assert [Line(line)][1..] == [] && LinesIn([Line(line)]) == [line];
    AssociativeLines(handled, LinesIn(queue), [line]);
    assert LinesIn(queue + [Line(line)]) == LinesIn(queue) + [line];
    assert accepted + [] == accepted;
  }

  lemma AccountsAfterBarrier(queue: seq<Message>, offered: seq<Bytes>, taken: seq<bool>, dropped: nat,
                             accepted: seq<Bytes>, handled: seq<Bytes>, ticket: nat)
    requires Accounted(queue, offered, taken, dropped, accepted, handled)
    ensures Accounted(queue + [Flush(ticket)], offered, taken, dropped, accepted, handled)
    ensures |accepted| == |handled| + |LinesIn(queue)|
  {
    LinesInAppend(queue, [Flush(ticket)]);
    assert LinesIn([Flush(ticket)]) == [];
  }

  lemma AccountsAfterTake(queue: seq<Message>, offered: seq<Bytes>, taken: seq<bool>, dropped: nat,
                          accepted: seq<Bytes>, handled: seq<Bytes>)
    requires Accounted(queue, offered, taken, dropped, accepted, handled) && queue != []
    ensures var done := if queue[0].Line? then handled + [queue[0].bytes] else handled;
      Accounted(queue[1..], offered, taken, dropped, accepted, done)
  {
    assert [] + LinesIn(queue[1..]) == LinesIn(queue[1..]);
  }

  /** The handled lines that did not fail, in order. */
  function Written(handled: seq<Bytes>, failed: set<nat>): seq<Bytes> {
    if handled == [] then []
    else
      var last := |handled| - 1;
      Written(handled[..last], failed) + (if last in failed then [] else [handled[last]])
  }

  lemma {:induction false} WrittenOrFailed(handled: seq<Bytes>, failed: set<nat>)
    requires forall i :: i in failed ==> i < |handled|
    ensures |Written(handled, failed)| + |failed| == |handled|
  {
    if handled == [] {
      assert failed == {};
    } else {
      var last := |handled| - 1;
      var earlier := failed - {last};
      WrittenOrFailed(handled[..last], earlier);
      WrittenDependsOn(handled[..last], failed, earlier);
      assert last !in failed ==> earlier == failed;
    }
  }

  lemma {:induction false} WrittenDependsOn(handled: seq<Bytes>, a: set<nat>, b: set<nat>)
    requires forall i :: 0 <= i < |handled| ==> (i in a <==> i in b)
    ensures Written(handled, a) == Written(handled, b)
  {
    if handled != [] {
      WrittenDependsOn(handled[..|handled| - 1], a, b);
    }
  }

  /** What happens next: a producer offers a line, somebody queues a flush barrier, or the writer thread runs. */
  datatype Turn = Offer(line: Bytes) | Barrier | Write

  function Offers(turns: seq<Turn>): seq<Bytes> {
    if turns == [] then []
    else Offers(turns[..|turns| - 1]) + (if turns[|turns| - 1].Offer? then [turns[|turns| - 1].line] else [])
  }

  lemma OffersPush(turns: seq<Turn>, turn: Turn)
    ensures Offers(turns + [turn]) == Offers(turns) + (if turn.Offer? then [turn.line] else [])
  {
    assert (turns + [turn])[..|turns|] == turns;
  }

  lemma OffersNext(start: seq<Bytes>, turns: seq<Turn>, n: nat)
    requires n < |turns|
    ensures start + Offers(turns[..n + 1])
         == start + Offers(turns[..n]) + (if turns[n].Offer? then [turns[n].line] else [])
  {
    assert turns[..n] + [turns[n]] == turns[..n + 1];
    OffersPush(turns[..n], turns[n]);
  }

  /** How many messages wait in the queue, and how many lines have been dropped. */
  datatype Load = Load(waiting: nat, dropped: nat)

  function LoadAfter(l: Load, turn: Turn): Load {
    match turn
    case Offer(_) => if l.waiting < 4096 then Load(l.waiting + 1, l.dropped) else Load(l.waiting, l.dropped + 1)
    case Barrier => if l.waiting < 4096 then Load(l.waiting + 1, l.dropped) else l
    case Write => if l.waiting > 0 then Load(l.waiting - 1, l.dropped) else l
  }

  function LoadAfterAll(l: Load, turns: seq<Turn>): Load {
    if turns == [] then l else LoadAfter(LoadAfterAll(l, turns[..|turns| - 1]), turns[|turns| - 1])
  }

  lemma LoadNext(l: Load, turns: seq<Turn>, n: nat)
    requires n < |turns|
    ensures LoadAfterAll(l, turns[..n + 1]) == LoadAfter(LoadAfterAll(l, turns[..n]), turns[n])
  {
    assert turns[..n + 1][..n] == turns[..n];
  }

  /** The part of `Logger` that reaches the file. */
  class Logger {
    const writer: RotatingFile
    /** What was on disk when the log had been opened. */
    ghost const start: Files
    var queue: seq<Message>
    var dropped: nat
    var failures: nat
    /** How many acknowledgement channels have been made; each flush has its own. */
    var channels: nat

    /** Every line a producer offered, in the order of the atomic `try_send` calls. */
    ghost var offered: seq<Bytes>
    /** For every offered line, whether the queue had room for it. */
    ghost var taken: seq<bool>
    /** The lines the queue accepted, in acceptance order. */
    ghost var accepted: seq<Bytes>
    /** The lines handed to the file so far, and which of them failed. */
    ghost var handled: seq<Bytes>
    ghost var failed: set<nat>
    ghost var failedFlushes: nat
    /** For every accepted flush, how many lines had been accepted before it. */
    ghost var barrier: map<nat, nat>
    ghost var acknowledged: set<nat>

    ghost predicate Valid()
      reads this, writer
    {
      && writer.Valid() && 0 in start
      && |queue| <= CAPACITY
      && (failed == {} ==> writer.Mirrors(start, start[0], handled))
      && (writer.reliable ==> failed == {} && failures == 0)
      && Accounted(queue, offered, taken, dropped, accepted, handled)
      && LeftOf(writer.appended, handled, failed)
      && failures == |failed| + failedFlushes
      && Barriers(queue, barrier, |handled|)
      && (forall t :: t in barrier ==> t < channels)
      && forall t :: t in acknowledged ==> t in barrier && barrier[t] <= |handled|
    }

    constructor (existing: Files, maxMegabytes: nat, retention: nat, reliable: bool)
      ensures Valid() && fresh(writer)
      ensures queue == [] && dropped == failures == 0 && offered == [] && barrier == map[] && acknowledged == {}
      ensures writer.initial == Retained(existing, writer.keep) && writer.removed == []
      ensures writer.reliable == reliable
      ensures start == (if 0 in existing then existing else existing[0 := []])
      ensures writer.max == (if maxMegabytes == 0 then 1_048_576 else maxMegabytes * 1_048_576)
      ensures writer.keep == (if retention == 0 then 1 else retention)
    {
      var file := new RotatingFile(existing, Max(maxMegabytes, 1) * 1024 * 1024, Max(retention, 1), reliable);
      writer, start := file, file.files;
      ShowsAtStart(file.files, file.keep, file.max);
      queue, dropped, failures, channels := [], 0, 0, 0;
      offered, taken, accepted, handled, failed, failedFlushes := [], [], [], [], {}, 0;
      barrier, acknowledged := map[], {};
    }

    /** A producer offers a line; it never waits, and a full queue counts the line as dropped. */
    method Emit(line: Bytes)
      requires Valid()
      modifies this
      ensures Valid()
      ensures offered == old(offered) + [line]
      ensures if |old(queue)| < 4096
              then queue == old(queue) + [Line(line)] && dropped == old(dropped)
              else queue == old(queue) && dropped == old(dropped) + 1
      ensures handled == old(handled) && barrier == old(barrier) && acknowledged == old(acknowledged)
    {
      AccountsAfterOffer(queue, offered, taken, dropped, accepted, handled, line);
      offered, taken := offered + [line], taken + [|queue| < CAPACITY];
      if |queue| < CAPACITY {
        BarriersPush(queue, barrier, |handled|, Line(line), barrier);
        accepted := accepted + [line];
        queue := queue + [Line(line)];
      } else {
        dropped := dropped + 1;
      }
    }

    /** One attempt of `flush` to queue its barrier; the caller retries while the queue is full. */
    method TryFlush() returns (sent: bool, ticket: nat)
      requires Valid()
      modifies this
      ensures Valid()
      ensures ticket !in old(barrier)
      ensures sent <==> |old(queue)| < 4096
      ensures barrier == if sent then old(barrier)[ticket := |accepted|] else old(barrier)
      ensures queue == if sent then old(queue) + [Flush(ticket)] else old(queue)
      ensures offered == old(offered) && accepted == old(accepted) && dropped == old(dropped)
      ensures acknowledged == old(acknowledged) && handled == old(handled)
    {
      ticket := channels;
      channels := channels + 1;
      sent := |queue| < CAPACITY;
      if sent {
        AccountsAfterBarrier(queue, offered, taken, dropped, accepted, handled, ticket);
        BarriersPush(queue, barrier, |handled|, Flush(ticket), barrier[ticket := |accepted|]);
        barrier := barrier[ticket := |accepted|];
        queue := queue + [Flush(ticket)];
      }
    }

    /** One write to the file, counted as a failure unless it succeeds. */
    method WriteLine(bytes: Bytes)
      requires writer.Valid() && LeftOf(writer.appended, handled, failed)
      requires 0 in start && (failed == {} ==> writer.Mirrors(start, start[0], handled))
      modifies writer, this`failures, this`failed
      ensures writer.Valid() && LeftOf(writer.appended, handled + [bytes], failed)
      ensures failures - old(failures) == |failed| - |old(failed)|
      ensures writer.reliable ==> failed == old(failed)
      ensures failed == {} ==> writer.Mirrors(start, start[0], handled + [bytes])
    {
      ghost var left, before := writer.appended, writer.files;
      ghost var landed: Bytes;
      var ok: bool;
      ok, landed := writer.Write(bytes);
      LeftOfPush(left, handled, failed, landed, bytes, ok);
      if !ok {
        failures := failures + 1;
        failed := failed + {|handled|};
      } else if failed == {} {
        ShowsNext(before, writer.files, start, writer.keep, writer.max, start[0], handled, bytes);
      }
    }

    /** The writer thread takes a line: whatever happens to it, it is handled exactly once. */
    method TakeLine()
      requires Valid() && queue != [] && queue[0].Line?
      modifies this, writer
      ensures Valid()
      ensures queue == old(queue)[1..] && handled == old(handled) + [old(queue)[0].bytes]
      ensures offered == old(offered) && accepted == old(accepted) && dropped == old(dropped)
      ensures acknowledged == old(acknowledged) && barrier == old(barrier)
    {
      BarriersPop(queue, barrier, |handled|);
      AccountsAfterTake(queue, offered, taken, dropped, accepted, handled);
      WriteLine(queue[0].bytes);
      handled := handled + [queue[0].bytes];
      queue := queue[1..];
    }

    /** The writer thread takes a flush barrier: every line accepted before it has been handled by now. */
    method TakeFlush()
      requires Valid() && queue != [] && queue[0].Flush?
      modifies this
      ensures Valid()
      ensures queue == old(queue)[1..] && handled == old(handled)
      ensures offered == old(offered) && accepted == old(accepted) && dropped == old(dropped)
      ensures acknowledged == old(acknowledged) + {old(queue)[0].ticket} && barrier == old(barrier)
      ensures old(queue)[0].ticket in barrier && barrier[old(queue)[0].ticket] == |handled|
    {
      BarriersPop(queue, barrier, |handled|);
      AccountsAfterTake(queue, offered, taken, dropped, accepted, handled);
      var ok := writer.Succeeds();
      if !ok {
        failures := failures + 1;
        failedFlushes := failedFlushes + 1;
      }
      acknowledged := acknowledged + {queue[0].ticket};
      queue := queue[1..];
    }

    method Step(turn: Turn)
      requires Valid()
      modifies this, writer
      ensures Valid()
      ensures offered == old(offered) + (if turn.Offer? then [turn.line] else [])
      ensures Load(|queue|, dropped) == LoadAfter(Load(|old(queue)|, old(dropped)), turn)
      ensures turn.Write? && old(queue) != [] ==> queue == old(queue)[1..]
    {
      match turn {
        case Offer(line) => Emit(line);
        case Barrier =>
          var _, _ := TryFlush();
        case Write =>
          if queue != [] {
            if queue[0].Line? {
              TakeLine();
            } else {
              TakeFlush();
            }
          }
      }
    }

    /** Any interleaving of producers, flushers and the writer thread. */
    method RunSchedule(turns: seq<Turn>)
      requires Valid()
      modifies this, writer
      ensures Valid()
      ensures offered == old(offered) + Offers(turns)
      ensures Load(|queue|, dropped) == LoadAfterAll(Load(|old(queue)|, old(dropped)), turns)
    {
      ghost var load := Load(|queue|, dropped);
      ghost var start := offered;
      assert turns[..0] == [];
      for n := 0 to |turns|
        invariant Valid()
        invariant offered == start + Offers(turns[..n])
        invariant Load(|queue|, dropped) == LoadAfterAll(load, turns[..n])
      {
        OffersNext(start, turns, n);
        LoadNext(load, turns, n);
        Step(turns[n]);
      }
      assert turns[..|turns|] == turns;
    }
  }

  /** What a state of the logger accounts for, the text on disk included. */
  ghost predicate Conserved(log: Logger)
    reads log, log.writer
  {
    var written := Written(log.handled, log.failed);
    && |log.offered| == |log.taken| == log.dropped + |LinesIn(log.queue)| + |written| + |log.failed|
    && log.handled + LinesIn(log.queue) == Chosen(log.offered, log.taken)
    && LeftOf(log.writer.appended, log.handled, log.failed)
    && Flatten(log.writer.removed) + Retained(log.writer.files, log.writer.keep)
       == log.writer.initial + Flatten(log.writer.appended)
    && (forall t :: t in log.acknowledged ==> t in log.barrier && log.barrier[t] <= |log.handled|)
  }

  /**
   * In every reachable state: lines offered = dropped + queued + written + failed, the handled lines are the accepted
   * ones in acceptance order, and the disk with the removed files is the initial text and what was left of them.
   */
  lemma Conservation(log: Logger)
    requires log.Valid()
    ensures Conserved(log)
  {
    WrittenOrFailed(log.handled, log.failed);
  }

  /** As long as no line failed, the disk shows the greedy grouping of exactly the lines handled so far. */
  ghost predicate Mirrored(log: Logger)
    reads log, log.writer
  {
    0 in log.start
    && (log.failed == {} ==>
          Shows(log.writer.files, log.start, log.writer.keep, Grouped(log.start[0], log.handled, log.writer.max)))
  }

  lemma DiskIsMirrored(log: Logger)
    requires log.Valid()
    ensures Mirrored(log) && (log.writer.reliable ==> log.failed == {} && log.failures == 0)
  {
  }

  /** A logger from its start, through any schedule of any number of producers, flushes and writer turns. */
  method Log(existing: Files, maxMegabytes: nat, retention: nat, reliable: bool, turns: seq<Turn>) returns (log: Logger)
    ensures log.Valid() && log.offered == Offers(turns)
    ensures Load(|log.queue|, log.dropped) == LoadAfterAll(Load(0, 0), turns)
    ensures var written := Written(log.handled, log.failed);
      |Offers(turns)| == log.dropped + |LinesIn(log.queue)| + |written| + |log.failed|
    ensures Conserved(log) && log.writer.initial == Retained(existing, log.writer.keep)
    ensures log.writer.max == (if maxMegabytes == 0 then 1_048_576 else maxMegabytes * 1_048_576)
    ensures log.writer.keep == (if retention == 0 then 1 else retention)
    ensures reliable ==> log.failed == {} && log.failures == 0
    ensures log.start == (if 0 in existing then existing else existing[0 := []]) && Mirrored(log)
  {
    log := new Logger(existing, maxMegabytes, retention, reliable);
    log.RunSchedule(turns);
    assert [] + Offers(turns) == Offers(turns);
    Conservation(log);
    DiskIsMirrored(log);
  }
}
