/**
 * What the steps of src/media_companion.rs come to, told by the fields of the lines a worker prints: when a worker
 * counts as resident or as legacy, what a caller is answered, and that a call to a healthy worker succeeds.
 */
module ResidentOutcomes {
  import opened Common
  import opened ResidentEnvelope
  import opened ResidentProtocol

  /* ---------- Lines by their fields ---------- */

  ghost predicate HasField(line: Line, key: string, value: Json) {
    line.Parsed? && line.value.Obj? && key in line.value.fields && line.value.fields[key] == value
  }

  /** An envelope for request `id`. */
  ghost predicate AnswerTo(line: Line, id: nat) {
    HasField(line, "transport_version", Num(1)) && HasField(line, "request_id", Num(id))
  }

  /** What a companion that knows no envelopes prints. */
  ghost predicate LegacyLine(line: Line) {
    && (HasField(line, "ok", Bool(true)) || HasField(line, "ok", Bool(false)))
    && forall key :: key in ["transport_version", "request_id", "response"] ==> key !in line.value.fields
  }

  /** The `response` field of an envelope, or else all of it but the two transport fields. */
  ghost function Contents(line: Line): Json
    requires line.Parsed? && line.value.Obj?
  {
    var fields := line.value.fields;
    if "response" in fields then fields["response"]
    else Obj(map key | key in fields && key != "transport_version" && key != "request_id" :: fields[key])
  }

  lemma LegacyKeys(line: Line)
    requires line.Parsed? && line.value.Obj?
    ensures (forall key :: key in ["transport_version", "request_id", "response"] ==> key !in line.value.fields)
      <==> !EnvelopeLike(line.value.fields)
  {
    var keys := ["transport_version", "request_id", "response"];
    assert keys[0] in keys && keys[1] in keys && keys[2] in keys;
  }

  lemma DecodedByFields(line: Line, id: u64)
    ensures AnswerTo(line, id) <==> Decode(line, id).Response?
    ensures AnswerTo(line, id) ==> Decode(line, id) == Response(Contents(line))
    ensures LegacyLine(line) <==> Decode(line, id).LegacyResponse?
  {
    if line.Parsed? && line.value.Obj? {
      var fields := line.value.fields;
      LegacyKeys(line);
      assert fields - {"transport_version", "request_id"}
          == map key | key in fields && key != "transport_version" && key != "request_id" :: fields[key];
    }
  }

  /** A response is a success, a described failure or no response at all, by its boolean `ok`. */
  lemma ParsedByFields(value: Json)
    ensures ParseCompanionResponse(value) == Success(value) <==> HasField(Parsed(value), "ok", Bool(true))
    ensures ParseCompanionResponse(value).OperationFailed? <==> HasField(Parsed(value), "ok", Bool(false))
    ensures forall error :: ParseCompanionResponse(value) == OperationFailed(Some(error)) <==>
      HasField(Parsed(value), "ok", Bool(false)) && HasField(Parsed(value), "error", error)
  {
  }

  /* ---------- Negotiation ---------- */

  ghost predicate Confirming(h: Handshake, id: nat) {
    h.HandshakeLine? && AnswerTo(h.line, id)
  }

  /** A legacy companion prints a plain response, or goes away before or after it could read the handshake. */
  ghost predicate Legacy(h: Handshake) {
    h.HandshakeWriteBroken? || h.HandshakeEof? || (h.HandshakeLine? && LegacyLine(h.line))
  }

  ghost predicate CallIs(s: System, call: nat, status: Status) {
    call in s.calls && s.calls[call].status == status
  }

  /**
   * A handshake settles support for good exactly when it is answered under its id, or shows a legacy companion; every
   * other outcome fails this call only and leaves the question open.
   */
  lemma NegotiationOutcome(s: System, h: Handshake)
    requires ControlSound(s) && Enabled(s, Negotiate(h)) && s.nextId < U64_LIMIT
    ensures var t := Next(s, Negotiate(h));
      && (t.negotiation == Confirmed && t.phase == Negotiated && CallIs(t, s.holder, Holding)
          <==> Confirming(h, s.nextId))
      && (t.negotiation == OneShotFallback && t.phase == Free && CallIs(t, s.holder, FallingBack) <==> Legacy(h))
      && (t.negotiation == Unknown && t.phase == Free && CallIs(t, s.holder, Failed)
          <==> !Confirming(h, s.nextId) && !Legacy(h))
      && t.process == s.process && t.nextId == s.nextId + 1
  {
    if h.HandshakeLine? {
      DecodedByFields(h.line, s.nextId);
    }
  }

  /** A companion known to be legacy gets the operation in a process of its own, unsent before and whole. */
  lemma FallbackOutcome(s: System)
    requires ControlSound(s) && Enabled(s, TakeFallback)
    ensures var t := Next(s, TakeFallback);
      && t.phase == Free && CallIs(t, s.holder, FallingBack) && t.sent == s.sent && t.negotiation == OneShotFallback
      && Enabled(t, OneShot(s.holder, true))
      && var u := Next(t, OneShot(s.holder, true));
         && CallIs(u, s.holder, OneShotEnded)
         && u.sent == s.sent + [ToOneShot(s.holder, s.calls[s.holder].operation, s.calls[s.holder].payload)]
  {
  }

  /* ---------- The exchange ---------- */

  /** The next line answers the call if it is an envelope for it; otherwise the call fails and the worker is killed. */
  lemma ReplyOutcome(s: System)
    requires ControlSound(s) && Enabled(s, Receive(NextLine)) && s.phase.id < U64_LIMIT
    ensures var t, line, w := Next(s, Receive(NextLine)), s.process.value.stdout[0], s.process.value;
      && t.phase == Free && t.negotiation == s.negotiation
      && (AnswerTo(line, s.phase.id) ==>
            CallIs(t, s.holder, Answered(s.phase.id, Contents(line))) && t.process == Some(w.(stdout := w.stdout[1..])))
      && (!AnswerTo(line, s.phase.id) ==> CallIs(t, s.holder, Failed) && t.process == None)
  {
    DecodedByFields(s.process.value.stdout[0], s.phase.id);
  }

  /** A call fails after its frame may have been sent only together with the worker, which is never used again. */
  lemma FailureKillsWorker(s: System, step: Step)
    requires ControlSound(s) && Enabled(s, step) && (step.Send? || step.Receive?)
    requires CallIs(Next(s, step), s.holder, Failed)
    ensures Next(s, step).process == None && Next(s, step).phase == Free
  {
  }

  /** A worker that is seen to have exited is replaced; one that runs is kept, and none is started when one is held. */
  lemma WorkerReplaced(s: System, inspection: Inspection, spawning: Spawning)
    requires ControlSound(s) && Enabled(s, Inspect(inspection)) && inspection != InspectFailed
    ensures var t := Next(s, Inspect(inspection));
      && t.phase == Inspected && t.process == (if inspection == SeenExited then None else s.process)
      && Enabled(t, Equip(spawning))
      && var u := Next(t, Equip(spawning));
         if t.process.Some? then u.process == t.process && u.phase == Equipped
         else if spawning == SpawnFailed then u.process == None && CallIs(u, s.holder, Failed)
         else u.process.Some? && u.process.value.wid == s.nextWid && u.process.value.stdin == [] && u.phase == Equipped
  {
  }

  /* ---------- A healthy call ---------- */

  /** Support is confirmed, the mutex is free, and the worker held, if any, runs with nothing in its pipes. */
  predicate Healthy(s: System) {
    && s.negotiation == Confirmed && s.phase == Free
    && (s.process.Some? ==> s.process.value.running && s.process.value.stdin == [] && s.process.value.stdout == [])
  }

  lemma HealthyIsEquipped(s: System, call: nat) returns (steps: seq<Step>, t: System)
    requires ControlSound(s) && Healthy(s) && CallIs(s, call, Waiting)
    ensures IsRun(s, steps, t) && ControlSound(t)
    ensures t.phase == Equipped && t.holder == call
    ensures t.nextId == s.nextId && t.sent == s.sent && t.answers == s.answers
    ensures t.process.Some? && t.process.value.running && t.process.value.stdin == [] && t.process.value.stdout == []
    ensures CallIs(t, call, Holding) && t.calls[call].operation == s.calls[call].operation
    ensures t.calls[call].payload == s.calls[call].payload
  {
    steps, t := [], s;
    RunThen(s, steps, t, Acquire(call));
    ControlStep(t, Acquire(call));
    steps, t := steps + [Acquire(call)], Next(t, Acquire(call));
    RunThen(s, steps, t, AlreadyConfirmed);
    ControlStep(t, AlreadyConfirmed);
    steps, t := steps + [AlreadyConfirmed], Next(t, AlreadyConfirmed);
    RunThen(s, steps, t, Inspect(SeenRunning));
    ControlStep(t, Inspect(SeenRunning));
    steps, t := steps + [Inspect(SeenRunning)], Next(t, Inspect(SeenRunning));
    RunThen(s, steps, t, Equip(Spawned));
    ControlStep(t, Equip(Spawned));
    steps, t := steps + [Equip(Spawned)], Next(t, Equip(Spawned));
  }

  lemma EquippedIsAsked(s: System, line: Line) returns (t: System)
    requires ControlSound(s) && s.phase == Equipped && s.process.Some? && s.process.value.running
    requires s.process.value.stdin == [] && s.process.value.stdout == []
    ensures Enabled(s, Send(true)) && Enabled(Next(s, Send(true)), WorkerConsumes(line))
    ensures t == Next(Next(s, Send(true)), WorkerConsumes(line)) && ControlSound(t)
    ensures t.phase == AwaitingReply(s.nextId) && t.holder == s.holder && t.negotiation == s.negotiation
    ensures t.process.Some? && t.process.value.running
    ensures t.process.value.stdin == [] && t.process.value.stdout == [line]
    ensures var frame := Frame(s.nextId, s.calls[s.holder].operation, s.calls[s.holder].payload);
      t.sent == s.sent + [ToResident(s.holder, s.process.value.wid, frame)]
  {
    ControlStep(s, Send(true));
    var sent := Next(s, Send(true));
    assert sent.process.value.stdout == [] && |sent.process.value.stdin| == 1;
    ControlStep(sent, WorkerConsumes(line));
    t := Next(sent, WorkerConsumes(line));
  }

  /**
   * A call to a healthy worker that answers it gets that answer: it is sent once, as the caller put it, and the worker
   * is kept for the next call.
   */
  lemma HealthyCallIsAnswered(s: System, call: nat, line: Line) returns (steps: seq<Step>, t: System)
    requires ControlSound(s) && Healthy(s) && CallIs(s, call, Waiting)
    requires s.nextId < U64_LIMIT && AnswerTo(line, s.nextId)
    ensures IsRun(s, steps, t) && Healthy(t) && CallIs(t, call, Answered(s.nextId, Contents(line)))
    ensures |t.sent| == |s.sent| + 1 && t.sent[..|s.sent|] == s.sent && t.sent[|s.sent|].ToResident?
    ensures t.sent[|s.sent|].frame == Frame(s.nextId, s.calls[call].operation, s.calls[call].payload)
  {
    var ready, asked;
    steps, ready := HealthyIsEquipped(s, call);
    asked := EquippedIsAsked(ready, line);
    t := AskedIsAnswered(asked, line);
    steps := RunThree(s, steps, ready, Send(true), WorkerConsumes(line), Receive(NextLine));
  }

  lemma AskedIsAnswered(s: System, line: Line) returns (t: System)
    requires ControlSound(s) && s.phase.AwaitingReply? && s.phase.id < U64_LIMIT && AnswerTo(line, s.phase.id)
    requires s.process.Some? && s.process.value.stdout == [line]
    ensures Enabled(s, Receive(NextLine)) && t == Next(s, Receive(NextLine))
    ensures t.phase == Free && t.negotiation == s.negotiation && t.sent == s.sent
    ensures CallIs(t, s.holder, Answered(s.phase.id, Contents(line)))
    ensures t.process == Some(s.process.value.(stdout := []))
  {
    assert s.process.value.stdout[1..] == [];
    ReplyOutcome(s);
    ReceiveLogsNothing(s);
    t := Next(s, Receive(NextLine));
  }

  lemma RunThree(s: System, steps: seq<Step>, t: System, x: Step, y: Step, z: Step) returns (longer: seq<Step>)
    requires IsRun(s, steps, t) && Enabled(t, x) && Enabled(Next(t, x), y) && Enabled(Next(Next(t, x), y), z)
    ensures IsRun(s, longer, Next(Next(Next(t, x), y), z))
  {
    RunThen(s, steps, t, x);
    RunThen(s, steps + [x], Next(t, x), y);
    RunThen(s, steps + [x] + [y], Next(Next(t, x), y), z);
    longer := steps + [x] + [y] + [z];
  }

  lemma ReceiveLogsNothing(s: System)
    requires Enabled(s, Receive(NextLine))
    ensures Next(s, Receive(NextLine)).sent == s.sent
  {
  }
}
