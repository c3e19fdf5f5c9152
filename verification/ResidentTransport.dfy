/** `ResidentTransport` of src/media_companion.rs, statement by statement, as a run of the protocol machine. */
module ResidentTransport {
  import opened Common
  import opened ResidentEnvelope
  import opened ResidentProtocol
  import opened ResidentOutcomes

  datatype Outcome = Reply(value: Json) | FellBack | Error

  /** What the clock, the operating system and the negotiation process do to one request. */
  datatype Fortune = Fortune(
    patience: nat, handshake: Handshake, inspection: Inspection, spawning: Spawning,
    inTime: bool, sends: bool, arrives: bool)

  /** Nothing fails on the way to the worker and back. */
  predicate Favourable(f: Fortune) {
    f.inspection != InspectFailed && f.spawning != SpawnFailed && f.inTime && f.sends && f.arrives
  }

  /** What a call gets when it reads the worker's output in this state. */
  ghost function AnswerIn(s: System, id: nat): Outcome {
    if s.process.Some? && s.process.value.stdout != [] && AnswerTo(s.process.value.stdout[0], id)
    then Reply(Contents(s.process.value.stdout[0]))
    else Error
  }

  /** The `i`-th step leads from the `i`-th state to the next. */
  ghost predicate StepAt(states: seq<System>, steps: seq<Step>, i: nat)
    requires i < |steps| && |states| == |steps| + 1
  {
    Enabled(states[i], steps[i]) && states[i + 1] == Next(states[i], steps[i])
  }

  /** A run written out with the states it passes through. */
  ghost predicate Chain(start: System, states: seq<System>, steps: seq<Step>, end: System) {
    && |states| == |steps| + 1 && states[0] == start && states[|steps|] == end
    && forall i :: 0 <= i < |steps| ==> StepAt(states, steps, i)
  }

  lemma ChainExtends(start: System, states: seq<System>, steps: seq<Step>, end: System, step: Step)
    requires Chain(start, states, steps, end) && Enabled(end, step)
    ensures Chain(start, states + [Next(end, step)], steps + [step], Next(end, step))
  {
    var allStates, allSteps := states + [Next(end, step)], steps + [step];
    forall i | 0 <= i < |allSteps| ensures StepAt(allStates, allSteps, i) {
      assert i < |steps| ==> StepAt(states, steps, i);
    }
  }

  lemma {:induction false} ChainIsRun(start: System, states: seq<System>, steps: seq<Step>, end: System)
    requires Chain(start, states, steps, end)
    ensures IsRun(start, steps, end)
    decreases |steps|
  {
    if steps != [] {
      assert StepAt(states, steps, 0);
      forall i | 0 <= i < |steps[1..]| ensures StepAt(states[1..], steps[1..], i) {
        assert StepAt(states, steps, i + 1);
      }
      ChainIsRun(states[1], states[1..], steps[1..], end);
    }
  }

  /** What the rest of the world may do while `call` waits for the mutex or holds it. */
  predicate OthersMay(s: System, call: nat, step: Step) {
    && Enabled(s, step)
    && match step
       case Arrive(c, _, _) => c != call
       case LockTimeout(c) => c != call
       case Acquire(c) => c != call
       case OneShot(c, _) => c != call
       case WorkerConsumes(_) => true
       case WorkerReads => true
       case WorkerPrints(_) => true
       case WorkerDies => true
       case _ => s.holder != call
  }

  /** `call` is where it was; while it holds the mutex, so is everything the mutex protects but the pipes. */
  ghost predicate Undisturbed(before: System, after: System, call: nat) {
    && call in before.calls && call in after.calls && after.calls[call] == before.calls[call]
    && (before.phase != Free && before.holder == call ==>
          && after.phase == before.phase && after.holder == call && after.negotiation == before.negotiation
          && after.nextId == before.nextId && after.process.Some? == before.process.Some?)
  }

  /** A step of somebody else does not touch a waiting call. */
  lemma WaitingUntouched(s: System, step: Step, call: nat)
    requires ControlSound(s) && OthersMay(s, call, step) && call in s.calls && s.calls[call].status == Waiting
    ensures call in Next(s, step).calls && Next(s, step).calls[call] == s.calls[call]
  {
    assert s.phase != Free ==> s.holder != call;
    match step
    case Negotiate(h) => HandshakeOthers(s, h, call);
    case Receive(r) => ReceiveOthers(s, r, call);
    case Equip(_) =>
    case Send(_) =>
    case Inspect(_) =>
    case OneShot(_, _) =>
    case WorkerConsumes(_) =>
    case _ =>
  }

  lemma HandshakeOthers(s: System, h: Handshake, call: nat)
    requires Enabled(s, Negotiate(h)) && call in s.calls && s.holder != call
    ensures call in AfterHandshake(s, h).calls && AfterHandshake(s, h).calls[call] == s.calls[call]
  {
  }

  lemma ReceiveOthers(s: System, r: Reception, call: nat)
    requires Enabled(s, Receive(r)) && call in s.calls && s.holder != call
    ensures call in Next(s, Receive(r)).calls && Next(s, Receive(r)).calls[call] == s.calls[call]
  {
  }

  /** Neither does it touch the holder of the mutex, or anything the mutex protects but the pipes. */
  lemma HolderUntouched(s: System, step: Step)
    requires ControlSound(s) && s.phase != Free && OthersMay(s, s.holder, step)
    ensures Undisturbed(s, Next(s, step), s.holder)
  {
  }

  lemma UndisturbedStep(before: System, mid: System, call: nat, step: Step)
    requires ControlSound(before) && ControlSound(mid)
    requires Undisturbed(before, mid, call) && OthersMay(mid, call, step)
    requires before.calls[call].status == Waiting || (before.phase != Free && before.holder == call)
    ensures Undisturbed(before, Next(mid, step), call)
  {
    if before.phase != Free && before.holder == call {
      HolderUntouched(mid, step);
    } else {
      WaitingUntouched(mid, step, call);
    }
  }

  /* ---------- What one step of the holder does ---------- */

  predicate Confirms(h: Handshake, id: nat) {
    h.HandshakeLine? && Decode(h.line, id).Response?
  }

  predicate MeansLegacy(h: Handshake, id: nat) {
    h.HandshakeWriteBroken? || h.HandshakeEof? || (h.HandshakeLine? && Decode(h.line, id).LegacyResponse?)
  }

  /** The holder's call has come to `status` and the mutex is free. */
  predicate LetGo(s: System, call: nat, status: Status) {
    s.phase == Free && call in s.calls && s.calls[call].status == status
  }

  lemma NegotiateEffect(s: System, h: Handshake)
    requires ControlSound(s) && Enabled(s, Negotiate(h))
    ensures var t := Next(s, Negotiate(h));
      && t.process == s.process && t.nextId == s.nextId + 1 && t.holder == s.holder && s.holder in t.calls
      && (Confirms(h, s.nextId) ==> t.negotiation == Confirmed && t.phase == Negotiated)
      && (MeansLegacy(h, s.nextId) ==> t.negotiation == OneShotFallback && LetGo(t, s.holder, FallingBack))
      && (!Confirms(h, s.nextId) && !MeansLegacy(h, s.nextId) ==>
            t.negotiation == s.negotiation && LetGo(t, s.holder, Failed))
  {
  }

  lemma HandshakeByFields(h: Handshake, id: nat)
    ensures id < U64_LIMIT ==>
      && (Confirms(h, id) <==> Confirming(h, id)) && (MeansLegacy(h, id) <==> Legacy(h))
      && !(Confirming(h, id) && Legacy(h))
  {
    if id < U64_LIMIT && h.HandshakeLine? {
      DecodedByFields(h.line, id);
    }
  }

  lemma ReadFailedEffect(s: System)
    requires ControlSound(s) && Enabled(s, Receive(ReadFailed))
    ensures var t := Next(s, Receive(ReadFailed));
      t.process == None && t.nextId == s.nextId && t.negotiation == s.negotiation && LetGo(t, s.holder, Failed)
  {
  }

  lemma NextLineEffect(s: System)
    requires ControlSound(s) && Enabled(s, Receive(NextLine))
    ensures var t, w := Next(s, Receive(NextLine)), s.process.value;
      var exchange := Decode(w.stdout[0], s.phase.id);
      && t.nextId == s.nextId && t.negotiation == s.negotiation
      && (exchange.Response? ==>
            t.process == Some(w.(stdout := w.stdout[1..])) && LetGo(t, s.holder, Answered(s.phase.id, exchange.value)))
      && (!exchange.Response? ==> t.process == None && LetGo(t, s.holder, Failed))
  {
  }

  lemma LineByFields(line: Line, id: nat)
    ensures id < U64_LIMIT ==>
      && (AnswerTo(line, id) <==> Decode(line, id).Response?)
      && (AnswerTo(line, id) ==> Decode(line, id) == Response(Contents(line)))
  {
    if id < U64_LIMIT {
      DecodedByFields(line, id);
    }
  }

  class ResidentTransport {
    /** The fields of the Rust struct: the mutex, what it protects, and the request counter. */
    var locked: bool
    var negotiation: Negotiation
    var process: Option<Worker>
    var nextRequestId: nat

    /** Clients, worker and wires as the protocol machine sees them, and the steps that led here. */
    var world: System
    const embedded: bool
    ghost var trace: seq<Step>
    ghost var states: seq<System>

    ghost predicate Valid()
      reads this
    {
      && Chain(Start(embedded), states, trace, world) && ControlSound(world)
      && (locked <==> world.phase != Free)
      && negotiation == world.negotiation && process == world.process && nextRequestId == world.nextId
    }

    constructor (embedded: bool)
      ensures Valid() && !locked && this.embedded == embedded && world.calls == map[]
      ensures negotiation == if embedded then Confirmed else Unknown
    {
      this.embedded := embedded;
      locked, negotiation, process, nextRequestId := false, if embedded then Confirmed else Unknown, None, 1;
      world, trace, states := Start(embedded), [], [Start(embedded)];
    }

    /** The machine takes the step the statement before it has just performed. */
    method Took(step: Step)
      requires Chain(Start(embedded), states, trace, world) && ControlSound(world) && Enabled(world, step)
      modifies this`world, this`trace, this`states
      ensures Chain(Start(embedded), states, trace, world) && ControlSound(world)
      ensures world == Next(old(world), step)
      ensures states == old(states) + [world] && trace == old(trace) + [step]
    {
      ChainExtends(Start(embedded), states, trace, world, step);
      ControlStep(world, step);
      world, trace, states := Next(world, step), trace + [step], states + [Next(world, step)];
    }

    /** One step of anybody else, if it is one that others may take. */
    method OtherStep(call: nat, step: Step, ghost before: System)
      requires Valid() && ControlSound(before) && Undisturbed(before, world, call)
      requires before.calls[call].status == Waiting || (before.phase != Free && before.holder == call)
      modifies this
      ensures Valid() && Undisturbed(before, world, call)
    {
      if OthersMay(world, call, step) {
        UndisturbedStep(before, world, call, step);
        Took(step);
        locked, negotiation := world.phase != Free, world.negotiation;
        process, nextRequestId := world.process, world.nextId;
      }
    }

    /** Anybody else runs for a while. */
    method Others(call: nat)
      requires Valid() && call in world.calls
      requires world.calls[call].status == Waiting || (world.phase != Free && world.holder == call)
      modifies this
      ensures Valid() && Undisturbed(old(world), world, call)
    {
      var turns: nat := *;
      while turns > 0
        invariant Valid() && Undisturbed(old(world), world, call)
      {
        turns := turns - 1;
        var step: Step := *;
        OtherStep(call, step, old(world));
      }
    }

    ghost predicate Holds(call: nat, phase: Phase)
      reads this
    {
      Valid() && world.phase == phase && world.holder == call && call in world.calls && phase != Free
    }

    /** The call is over, and the machine agrees on what it came to. */
    ghost predicate CallEnded(call: nat, r: Outcome)
      reads this
    {
      && Valid() && call in world.calls
      && match r
         case Reply(value) => world.calls[call].status.Answered? && world.calls[call].status.value == value
         case FellBack => world.calls[call].status == FallingBack
         case Error => world.calls[call].status == Failed
    }

    ghost predicate Ended(call: nat, r: Outcome)
      reads this
    {
      CallEnded(call, r) && !locked
    }

    /** The `try_lock` loop; how long it may wait is not modelled, only that it may give up. */
    method Lock(call: nat, patience: nat) returns (ok: bool)
      requires Valid() && call in world.calls && world.calls[call].status == Waiting
      modifies this
      ensures call in world.calls && world.calls[call].operation == old(world.calls[call].operation)
        && world.calls[call].payload == old(world.calls[call].payload)
      ensures if ok then Holds(call, Locked) else Valid() && world.calls[call].status == Failed
      ensures !ok ==> locked && old(locked)
    {
      var left := patience;
      while locked
        invariant Valid() && Undisturbed(old(world), world, call)
        invariant locked ==> old(locked)
        decreases left
      {
        if left == 0 {
          Took(LockTimeout(call));
          return false;
        }
        left := left - 1;
        Others(call);
      }
      locked := true;
      Took(Acquire(call));
      return true;
    }

    /** What the outcome of the handshake means. */
    method Shake(requestId: nat, handshake: Handshake) returns (settled: bool, r: Outcome)
      ensures settled == Confirms(handshake, requestId)
      ensures r == if MeansLegacy(handshake, requestId) then FellBack else Error
    {
      settled, r := false, Error;
      match handshake {
        case HandshakeNotStarted =>
        case HandshakeWriteBroken(_) => r := FellBack;
        case HandshakeWriteFailed(_) =>
        case HandshakeEof => r := FellBack;
        case HandshakeReadFailed =>
        case HandshakeLine(line) =>
          match Decode(line, requestId) {
            case Response(_) => settled := true;
            case LegacyResponse => r := FellBack;
            case Undecodable(_) =>
          }
      }
    }

    /** `Unknown` is settled by one handshake with a worker of its own; the operation is not sent. */
    method NegotiateResidentSupport(call: nat, handshake: Handshake) returns (settled: bool, r: Outcome)
      requires Holds(call, Locked) && negotiation == Unknown
      modifies this
      ensures if settled then Holds(call, Negotiated) else Ended(call, r)
      ensures old(nextRequestId) < U64_LIMIT ==>
        && (settled <==> Confirming(handshake, old(nextRequestId)))
        && (!settled ==> r == if Legacy(handshake) then FellBack else Error)
      ensures nextRequestId == old(nextRequestId) + 1
    {
      var requestId := nextRequestId;
      nextRequestId := nextRequestId + 1;
      settled, r := Shake(requestId, handshake);
      if settled {
        negotiation := Confirmed;
      } else if r == FellBack {
        negotiation := OneShotFallback;
      }
      locked := settled;
      NegotiateEffect(world, handshake);
      HandshakeByFields(handshake, requestId);
      Took(Negotiate(handshake));
    }

    /** Drop a worker that is seen to have exited; an exit may also go unnoticed. */
    method InspectProcess(call: nat, inspected: Inspection) returns (ok: bool)
      requires Holds(call, Negotiated)
      modifies this
      ensures if ok then Holds(call, Inspected) else Ended(call, Error)
      ensures ok <==> old(process).None? || inspected != InspectFailed
      ensures process == if old(process).Some? && inspected == SeenExited && !old(process).value.running then None
                         else old(process)
      ensures nextRequestId == old(nextRequestId)
    {
      var inspection := SeenRunning;
      if process.Some? && !(inspected == SeenExited && process.value.running) {
        inspection := inspected;
      }
      ok := true;
      match inspection {
        case InspectFailed => locked, ok := false, false;
        case SeenExited => process := None;
        case SeenRunning =>
      }
      Took(Inspect(inspection));
    }

    method StartProcess(call: nat, spawning: Spawning) returns (ok: bool)
      requires Holds(call, Inspected)
      modifies this
      ensures if ok then Holds(call, Equipped) else Ended(call, Error)
      ensures ok <==> old(process).Some? || spawning != SpawnFailed
      ensures old(process).Some? ==> process == old(process)
      ensures old(process).None? && spawning == Spawned ==> process == Some(Worker(old(world.nextWid), true, [], []))
      ensures nextRequestId == old(nextRequestId)
    {
      ok := true;
      if process.None? {
        match spawning {
          case SpawnFailed => locked, ok := false, false;
          case Spawned => process := Some(Worker(world.nextWid, true, [], []));
          case SpawnedBroken(error) =>
            process := Some(Worker(world.nextWid, false, [], [Parsed(ResidentResponse(Null, Raised(error)))]));
        }
      }
      Took(Equip(spawning));
    }

    /** Nothing has been sent yet when the deadline has passed here. */
    method CheckDeadline(call: nat, inTime: bool) returns (ok: bool)
      requires Holds(call, Equipped)
      modifies this
      ensures if ok then Holds(call, Equipped) else Ended(call, Error)
      ensures ok == inTime && nextRequestId == old(nextRequestId)
    {
      Others(call);
      ok := inTime;
      if !ok {
        locked := false;
        Took(Expire);
      }
    }

    /** `Confirmed` is kept, `Unknown` is settled, `OneShotFallback` is reported at once. */
    method Settle(call: nat, handshake: Handshake) returns (ok: bool, r: Outcome)
      requires Holds(call, Locked)
      modifies this
      ensures if ok then Holds(call, Negotiated) else Ended(call, r)
      ensures old(negotiation) == Confirmed ==> ok && nextRequestId == old(nextRequestId)
      ensures old(negotiation) == OneShotFallback ==> !ok && r == FellBack
      ensures old(negotiation) == Unknown && old(nextRequestId) < U64_LIMIT ==>
        && nextRequestId == old(nextRequestId) + 1
        && (ok <==> Confirming(handshake, old(nextRequestId)))
        && (!ok ==> r == if Legacy(handshake) then FellBack else Error)
    {
      ok, r := true, Error;
      match negotiation {
        case OneShotFallback =>
          locked := false;
          Took(TakeFallback);
          return false, FellBack;
        case Unknown => ok, r := NegotiateResidentSupport(call, handshake);
        case Confirmed => Took(AlreadyConfirmed);
      }
    }

    /** Write the frame of this call to the worker; on failure the worker is killed and the failure returned. */
    method SendRequest(call: nat, sends: bool) returns (ok: bool)
      requires Holds(call, Equipped)
      modifies this
      ensures if ok then Holds(call, AwaitingReply(old(nextRequestId))) else Ended(call, Error) && process == None
      ensures ok == sends
      ensures ok ==> process == Some(old(process.value).(stdin := old(process.value).stdin
        + [Frame(old(nextRequestId), old(world.calls[call]).operation, old(world.calls[call]).payload)]))
    {
      var w := process.value;
      var frame := Frame(nextRequestId, world.calls[call].operation, world.calls[call].payload);
      nextRequestId := nextRequestId + 1;
      ok := sends;
      if ok {
        process := Some(w.(stdin := w.stdin + [frame]));
      } else {
        process, locked := None, false;
      }
      Took(Send(ok));
    }

    /** The call has just read the worker's output, under this id, and got what was there. */
    ghost predicate JustRead(id: nat, r: Outcome)
      reads this
    {
      && |states| >= 2 && trace != [] && trace[|trace| - 1].Receive?
      && var before := states[|states| - 2];
         && before.phase == AwaitingReply(id) && before.process.Some?
         && (id < U64_LIMIT ==> r == AnswerIn(before, id))
    }

    /** Wait for one line; anything but a response to this very request resets the worker. */
    method ReadResponse(call: nat, arrives: bool) returns (r: Outcome)
      requires world.phase.AwaitingReply? && Holds(call, world.phase)
      modifies this
      ensures Ended(call, r) && r != FellBack
      ensures if arrives then JustRead(old(world.phase.id), r) else r == Error
      ensures r == Error ==> process == None
    {
      if !arrives || process.value.stdout == [] {
        locked, process := false, None;
        ReadFailedEffect(world);
        Took(Receive(ReadFailed));
        return Error;
      }
      r := DecodeResponse(call);
    }

    /** The line that arrived is the reply to this request, or the worker is reset. */
    method DecodeResponse(call: nat) returns (r: Outcome)
      requires world.phase.AwaitingReply? && Holds(call, world.phase) && process.value.stdout != []
      modifies this
      ensures Ended(call, r) && r != FellBack
      ensures JustRead(old(world.phase.id), r) && (r == Error ==> process == None)
    {
      var w := process.value;
      var exchange := Decode(w.stdout[0], world.phase.id);
      locked := false;
      if exchange.Response? {
        process := Some(w.(stdout := w.stdout[1..]));
        r := Reply(exchange.value);
      } else {
        process, r := None, Error;
      }
      NextLineEffect(world);
      LineByFields(w.stdout[0], world.phase.id);
      Took(Receive(NextLine));
    }

    /** What a request comes to once support is confirmed: its answer, or a failure. */
    ghost predicate Exchanged(id: nat, f: Fortune, r: Outcome)
      reads this
    {
      && (Favourable(f) ==> JustRead(id, r))
      && (!f.inTime || !f.sends || !f.arrives ==> r == Error)
    }

    /** What a request comes to that got the mutex in state `start`. */
    ghost predicate Concluded(start: System, f: Fortune, r: Outcome)
      reads this
    {
      match start.negotiation
      case OneShotFallback => r == FellBack
      case Confirmed => Exchanged(start.nextId, f, r)
      case Unknown =>
        start.nextId < U64_LIMIT ==>
          if Confirming(f.handshake, start.nextId) then Exchanged(start.nextId + 1, f, r)
          else r == if Legacy(f.handshake) then FellBack else Error
    }

    /**
     * `ResidentTransport::request`: every path through it is a run of the protocol machine. A call that got the
     * mutex leaves it free; one that did not leaves it with whoever holds it. When nothing fails on the way, the call
     * gets what the worker has printed for it.
     */
    method Request(call: nat, f: Fortune) returns (r: Outcome, ghost begun: Option<System>)
      requires Valid() && call in world.calls && world.calls[call].status == Waiting
      modifies this
      ensures CallEnded(call, r)
      ensures world.phase == Free || world.holder != call
      ensures begun.None? ==> r == Error && old(locked)
      ensures begun.Some? ==>
        && begun.value.phase == Locked && begun.value.holder == call
        && !locked && Concluded(begun.value, f, r)
    {
      var ok := Lock(call, f.patience);
      begun := None;
      if !ok {
        return Error, None;
      }
      begun := Some(world);
      r := Exchange(call, f);
    }

    /** The part of `request` that runs under the mutex. */
    method Exchange(call: nat, f: Fortune) returns (r: Outcome)
      requires Holds(call, Locked)
      modifies this
      ensures Ended(call, r) && Concluded(old(world), f, r)
    {
      var ok;
      ok, r := Settle(call, f.handshake);
      if ok {
        r := Deliver(call, f);
      }
    }

    /** The rest of `request`, with support confirmed. */
    method Deliver(call: nat, f: Fortune) returns (r: Outcome)
      requires Holds(call, Negotiated)
      modifies this
      ensures Ended(call, r) && Exchanged(old(nextRequestId), f, r)
    {
      var ok := InspectProcess(call, f.inspection);
      if !ok {
        return Error;
      }
      Others(call);
      ok := StartProcess(call, f.spawning);
      if !ok {
        return Error;
      }
      ok := CheckDeadline(call, f.inTime);
      if !ok {
        return Error;
      }
      ok := SendRequest(call, f.sends);
      if !ok {
        return Error;
      }
      Others(call);
      r := ReadResponse(call, f.arrives);
    }
  }

  /** Whatever the methods have done so far is a run of the protocol machine, so all that holds of runs holds of it. */
  lemma MethodsAreRuns(t: ResidentTransport)
    requires t.Valid()
    ensures IsRun(Start(t.embedded), t.trace, t.world) && Inv(t.world)
  {
    ChainIsRun(Start(t.embedded), t.states, t.trace, t.world);
    StartIsSound(t.embedded);
    RunKeepsInv(Start(t.embedded), t.trace, t.world);
  }
}
