/**
 * The resident worker protocol of src/media_companion.rs as a step machine: any number of clients, one mutex,
 * one worker that may be legacy, broken, slow, crashed or restarted at any moment.
 */
module ResidentProtocol {
  import opened Common
  import opened ResidentEnvelope

  datatype Negotiation = Unknown | Confirmed | OneShotFallback

  datatype Frame = Frame(id: nat, operation: string, payload: Json)

  /** A worker process with its two pipes. */
  datatype Worker = Worker(wid: nat, running: bool, stdin: seq<Frame>, stdout: seq<Line>)

  /** Everything ever written to a worker, in order. */
  datatype Sent =
    | ToNegotiation(frame: Frame)
    | ToResident(call: nat, wid: nat, frame: Frame)
    | ToOneShot(call: nat, operation: string, payload: Json)

  /** How far a client's call has come. */
  datatype Status =
    | Waiting
    | Holding
    | FallingBack
    | Answered(id: nat, value: Json)
    | OneShotEnded
    | Failed

  datatype Call = Call(operation: string, payload: Json, status: Status)

  /** Where the client holding the mutex is inside `ResidentTransport::request`. */
  datatype Phase = Free | Locked | Negotiated | Inspected | Equipped | AwaitingReply(id: nat)

  datatype System = System(
    negotiation: Negotiation,
    process: Option<Worker>,
    nextId: nat,
    nextWid: nat,
    phase: Phase,
    holder: nat,
    calls: map<nat, Call>,
    sent: seq<Sent>,
    answers: map<nat, set<Line>>)

  /** The request id a printed line carries, if any. */
  function Carries(line: Line): Option<nat> {
    if line.Parsed? && line.value.Obj? && AsU64(line.value.fields, "request_id").Some?
    then Some(AsU64(line.value.fields, "request_id").value)
    else None
  }

  lemma DecodedIdIsCarried(line: Line, id: nat)
    requires Decode(line, id).Response?
    ensures Carries(line) == Some(id)
  {
  }

  /** What the negotiation process was seen to do. */
  datatype Handshake =
    | HandshakeNotStarted
    | HandshakeWriteBroken(reached: bool)
    | HandshakeWriteFailed(reached: bool)
    | HandshakeEof
    | HandshakeReadFailed
    | HandshakeLine(line: Line)

  datatype Inspection = InspectFailed | SeenExited | SeenRunning
  datatype Spawning = SpawnFailed | Spawned | SpawnedBroken(error: Json)
  datatype Reception = NextLine | ReadFailed

  datatype Step =
    | Arrive(call: nat, operation: string, payload: Json)
    | LockTimeout(call: nat)
    | Acquire(call: nat)
    | TakeFallback
    | Negotiate(handshake: Handshake)
    | AlreadyConfirmed
    | Inspect(inspection: Inspection)
    | Equip(spawning: Spawning)
    | Expire
    | Send(ok: bool)
    | WorkerConsumes(line: Line)
    | WorkerReads
    | WorkerPrints(line: Line)
    | WorkerDies
    | Receive(reception: Reception)
    | OneShot(call: nat, started: bool)

  /** `ResidentTransport::new`: a worker embedded in the binary needs no negotiation. */
  function Start(embedded: bool): System {
    System(if embedded then Confirmed else Unknown, None, 1, 0, Free, 0, map[], [], map[])
  }

  predicate Enabled(s: System, step: Step) {
    match step
    case Arrive(c, _, _) => c !in s.calls
    case LockTimeout(c) => c in s.calls && s.calls[c].status == Waiting && s.phase != Free
    case Acquire(c) => c in s.calls && s.calls[c].status == Waiting && s.phase == Free
    case TakeFallback => s.phase == Locked && s.negotiation == OneShotFallback
    case Negotiate(_) => s.phase == Locked && s.negotiation == Unknown
    case AlreadyConfirmed => s.phase == Locked && s.negotiation == Confirmed
    case Inspect(i) => s.phase == Negotiated && (i == SeenExited ==> s.process.Some? && !s.process.value.running)
    case Equip(_) => s.phase == Inspected
    case Expire => s.phase == Equipped
    case Send(_) => s.phase == Equipped && s.process.Some? && s.holder in s.calls
    case WorkerConsumes(_) => s.process.Some? && s.process.value.running && s.process.value.stdin != []
    case WorkerReads => s.process.Some? && s.process.value.running && s.process.value.stdin != []
    case WorkerPrints(_) => s.process.Some? && s.process.value.running
    case WorkerDies => s.process.Some?
    case Receive(NextLine) => s.phase.AwaitingReply? && s.process.Some? && s.process.value.stdout != []
    case Receive(ReadFailed) => s.phase.AwaitingReply?
    case OneShot(c, _) => c in s.calls && s.calls[c].status == FallingBack
  }

  function SetStatus(s: System, c: nat, status: Status): System {
    if c in s.calls then s.(calls := s.calls[c := s.calls[c].(status := status)]) else s
  }

  /** The holder's call ends and the mutex is released. */
  function Release(s: System, status: Status): System {
    SetStatus(s, s.holder, status).(phase := Free)
  }

  /** `reset_resident_after_error`: kill and drop the worker, report the failure. */
  function Reset(s: System): System {
    Release(s, Failed).(process := None)
  }

  /** The worker takes the next frame; lines that carry its id count as answers to it from now on. */
  function Consumed(s: System): System
    requires s.process.Some? && s.process.value.stdin != []
  {
    var w := s.process.value;
    var id := w.stdin[0].id;
    s.(process := Some(w.(stdin := w.stdin[1..])),
       answers := if id in s.answers then s.answers else s.answers[id := {}])
  }

  /** The worker prints a line: an answer if it carries the id of a frame consumed before. */
  function Printed(s: System, line: Line): System
    requires s.process.Some?
  {
    var w := s.process.value;
    s.(process := Some(w.(stdout := w.stdout + [line])), answers := Recorded(s.answers, line))
  }

  function Recorded(answers: map<nat, set<Line>>, line: Line): map<nat, set<Line>> {
    match Carries(line)
    case Some(id) => if id in answers then answers[id := answers[id] + {line}] else answers
    case None => answers
  }

  const HANDSHAKE := "transport-handshake"

  /** `negotiate_resident_support`: a worker of its own gets the synthetic handshake and is then terminated. */
  function AfterHandshake(s: System, h: Handshake): System {
    var frame := Frame(s.nextId, HANDSHAKE, Obj(map[]));
    var asked := s.(nextId := s.nextId + 1, sent := s.sent + [ToNegotiation(frame)]);
    var notAsked := s.(nextId := s.nextId + 1);
    match h
    case HandshakeNotStarted => Release(notAsked, Failed)
    case HandshakeWriteBroken(reached) =>
      Release(if reached then asked else notAsked, FallingBack).(negotiation := OneShotFallback)
    case HandshakeWriteFailed(reached) => Release(if reached then asked else notAsked, Failed)
    case HandshakeEof => Release(asked, FallingBack).(negotiation := OneShotFallback)
    case HandshakeReadFailed => Release(asked, Failed)
    case HandshakeLine(line) =>
      match Decode(line, s.nextId)
      case Response(_) => asked.(negotiation := Confirmed, phase := Negotiated)
      case LegacyResponse => Release(asked, FallingBack).(negotiation := OneShotFallback)
      case Undecodable(_) => Release(asked, Failed)
  }

  function AfterEquip(s: System, spawning: Spawning): System {
    if s.process.Some? then s.(phase := Equipped)
    else
      match spawning
      case SpawnFailed => Release(s, Failed)
      case Spawned =>
        s.(process := Some(Worker(s.nextWid, true, [], [])), nextWid := s.nextWid + 1, phase := Equipped)
      case SpawnedBroken(error) =>
        s.(process := Some(Worker(s.nextWid, false, [], [Parsed(ResidentResponse(Null, Raised(error)))])),
           nextWid := s.nextWid + 1, phase := Equipped)
  }

  /** `resident_exchange` up to the flush: on failure the worker is reset. */
  function AfterSend(s: System, ok: bool): System
    requires Enabled(s, Send(ok))
  {
    var w := s.process.value;
    var frame := Frame(s.nextId, s.calls[s.holder].operation, s.calls[s.holder].payload);
    var attempted := s.(nextId := s.nextId + 1, sent := s.sent + [ToResident(s.holder, w.wid, frame)]);
    if ok then attempted.(process := Some(w.(stdin := w.stdin + [frame])), phase := AwaitingReply(s.nextId))
    else Reset(attempted)
  }

  /** `resident_exchange` from the wait for a line on. */
  function AfterReceive(s: System, r: Reception): System
    requires Enabled(s, Receive(r))
  {
    match r
    case ReadFailed => Reset(s)
    case NextLine =>
      var w := s.process.value;
      var read := s.(process := Some(w.(stdout := w.stdout[1..])));
      match Decode(w.stdout[0], s.phase.id)
      case Response(value) => Release(read, Answered(s.phase.id, value))
      case LegacyResponse => Reset(read)
      case Undecodable(_) => Reset(read)
  }

  function Next(s: System, step: Step): System
    requires Enabled(s, step)
  {
    match step
    case Arrive(c, operation, payload) => s.(calls := s.calls[c := Call(operation, payload, Waiting)])
    case LockTimeout(c) => SetStatus(s, c, Failed)
    case Acquire(c) => SetStatus(s, c, Holding).(phase := Locked, holder := c)
    case TakeFallback => Release(s, FallingBack)
    case Negotiate(h) => AfterHandshake(s, h)
    case AlreadyConfirmed => s.(phase := Negotiated)
    case Inspect(InspectFailed) => Release(s, Failed)
    case Inspect(SeenExited) => s.(process := None, phase := Inspected)
    case Inspect(SeenRunning) => s.(phase := Inspected)
    case Equip(spawning) => AfterEquip(s, spawning)
    case Expire => Release(s, Failed)
    case Send(ok) => AfterSend(s, ok)
    case WorkerConsumes(line) => Printed(Consumed(s), line)
    case WorkerReads => Consumed(s)
    case WorkerPrints(line) => Printed(s, line)
    case WorkerDies => s.(process := Some(s.process.value.(running := false)))
    case Receive(r) => AfterReceive(s, r)
    case OneShot(c, started) =>
      if started
      then SetStatus(s, c, OneShotEnded).(sent := s.sent + [ToOneShot(c, s.calls[c].operation, s.calls[c].payload)])
      else SetStatus(s, c, Failed)
  }

  /** A run is a list of steps, each enabled where it is taken. */
  ghost predicate IsRun(s: System, steps: seq<Step>, t: System)
    decreases |steps|
  {
    if steps == [] then s == t
    else Enabled(s, steps[0]) && IsRun(Next(s, steps[0]), steps[1..], t)
  }

  /** A worker that answers each frame by one line, in order; what the line says is left open. */
  predicate AnswersOnce(step: Step) {
    !step.WorkerReads? && !step.WorkerPrints?
  }

  /** A worker that prints any number of lines, but none under the id of a frame that has not been consumed. */
  predicate Truthful(s: System, step: Step)
    requires Enabled(s, step)
  {
    match step
    case WorkerConsumes(line) => Carries(line).Some? ==> Carries(line).value in Consumed(s).answers
    case WorkerPrints(line) => Carries(line).Some? ==> Carries(line).value in s.answers
    case _ => true
  }

  ghost predicate TruthfulRun(s: System, steps: seq<Step>, t: System)
    requires IsRun(s, steps, t)
    decreases |steps|
  {
    steps != [] ==> Truthful(s, steps[0]) && TruthfulRun(Next(s, steps[0]), steps[1..], t)
  }

  /* ---------- What every reachable state keeps ---------- */

  /** How many times call `c` was handed to any worker. */
  function Attempts(sent: seq<Sent>, c: nat): nat {
    if sent == [] then 0
    else
      var last := sent[|sent| - 1];
      Attempts(sent[..|sent| - 1], c) + (if !last.ToNegotiation? && last.call == c then 1 else 0)
  }

  /** The most a call may have been handed over, by how far it has come. */
  function Allowed(s: System, c: nat): nat {
    if c !in s.calls then 0
    else match s.calls[c].status
         case Waiting => 0
         case Holding => if s.phase.AwaitingReply? then 1 else 0
         case FallingBack => 0
         case Answered(_, _) => 1
         case OneShotEnded => 1
         case Failed => 1
  }

  /** Frames carry increasing ids, all of them handed out before. */
  ghost predicate SentIds(sent: seq<Sent>, nextId: nat) {
    && (forall i, j :: 0 <= i < j < |sent| && !sent[i].ToOneShot? && !sent[j].ToOneShot? ==>
          sent[i].frame.id < sent[j].frame.id)
    && (forall i :: 0 <= i < |sent| && !sent[i].ToOneShot? ==> sent[i].frame.id < nextId)
  }

  ghost predicate AnswerIds(s: System) {
    && (forall id :: id in s.answers ==> id < s.nextId)
    && (s.process.Some? ==> forall i :: 0 <= i < |s.process.value.stdin| ==> s.process.value.stdin[i].id < s.nextId)
  }

  ghost predicate IdsUnique(s: System) {
    SentIds(s.sent, s.nextId) && AnswerIds(s)
  }

  /**
   * Every entry carries its own call's operation and payload and belongs to the settled kind of worker;
   * negotiation carries nothing but the handshake.
   */
  ghost predicate FramesFaithful(s: System) {
    forall i :: 0 <= i < |s.sent| ==> Faithful(s, s.sent[i])
  }

  predicate Faithful(s: System, entry: Sent) {
    match entry
    case ToNegotiation(frame) => frame.operation == HANDSHAKE && frame.payload == Obj(map[])
    case ToResident(c, _, frame) =>
      && c in s.calls && frame.operation == s.calls[c].operation && frame.payload == s.calls[c].payload
      && s.negotiation == Confirmed
    case ToOneShot(c, operation, payload) =>
      && c in s.calls && operation == s.calls[c].operation && payload == s.calls[c].payload
      && s.negotiation == OneShotFallback
  }

  predicate StartupFailure(line: Line) {
    line.Parsed? && line.value.Obj? && "transport_version" in line.value.fields
    && line.value.fields["transport_version"] == Num(1)
    && "request_id" in line.value.fields && line.value.fields["request_id"] == Null
  }

  /** No request and no reply is in the pipes; a worker that never started may have printed its one complaint. */
  predicate Quiet(w: Worker) {
    w.stdin == [] && (w.stdout == [] || (!w.running && |w.stdout| == 1 && StartupFailure(w.stdout[0])))
  }

  /** Exactly the current request is on its way in, or exactly its answer on its way out. */
  predicate OneOutstanding(s: System, w: Worker, id: nat) {
    var startup := |w.stdout| > 0 && StartupFailure(w.stdout[0]) && !w.running;
    || (|w.stdin| == 1 && w.stdin[0].id == id && (w.stdout == [] || (|w.stdout| == 1 && startup)))
    || (w.stdin == [] && |w.stdout| == 1 && RecordedFor(s.answers, w.stdout[0], id))
  }

  /** If the line is a response under this id, it is on record as an answer to the frame with this id. */
  predicate RecordedFor(answers: map<nat, set<Line>>, line: Line, id: nat) {
    Decode(line, id).Response? ==> id in answers && line in answers[id]
  }

  /** Call `c` was handed to a resident worker under this id. */
  ghost predicate SentFor(sent: seq<Sent>, c: nat, id: nat) {
    exists i :: 0 <= i < |sent| && sent[i].ToResident? && sent[i].call == c && sent[i].frame.id == id
  }

  /** The holder's frame is out, under an id of its own. */
  ghost predicate ReplyAwaited(s: System) {
    s.phase.AwaitingReply? ==> s.phase.id < s.nextId && SentFor(s.sent, s.holder, s.phase.id)
  }

  /** With one line per frame, nothing but the current request or its answer is ever in the pipes. */
  ghost predicate PipesSound(s: System) {
    s.process.Some? ==>
      if s.phase.AwaitingReply? then OneOutstanding(s, s.process.value, s.phase.id) else Quiet(s.process.value)
  }

  /** With truthful ids, every line in the pipe is on record under the id it carries. */
  ghost predicate LinesTruthful(s: System) {
    s.process.Some? ==>
      forall i :: 0 <= i < |s.process.value.stdout| ==> OnRecord(s.answers, s.process.value.stdout[i])
  }

  predicate OnRecord(answers: map<nat, set<Line>>, line: Line) {
    Carries(line).Some? ==> Carries(line).value in answers && line in answers[Carries(line).value]
  }

  /** What is read next can only be taken for an answer if it is one. */
  ghost predicate FrontSound(s: System) {
    s.phase.AwaitingReply? && s.process.Some? && s.process.value.stdout != [] ==>
      RecordedFor(s.answers, s.process.value.stdout[0], s.phase.id)
  }

  /** The value a call returned is the decoded answer of a resident worker to the frame of that very call. */
  ghost predicate AnswerOf(s: System, c: nat, id: nat, value: Json) {
    && id in s.answers && (exists line :: line in s.answers[id] && Decode(line, id) == Response(value))
    && SentFor(s.sent, c, id)
  }

  /** Who holds the mutex, and what the holder may rely on. */
  ghost predicate ControlSound(s: System) {
    && (s.process.Some? ==> s.negotiation == Confirmed)
    && (s.phase != Free && s.phase != Locked ==> s.negotiation == Confirmed)
    && (s.phase.Equipped? || s.phase.AwaitingReply? ==> s.process.Some?)
    && (s.phase != Free ==> s.holder in s.calls && s.calls[s.holder].status == Holding)
    && (forall c :: c in s.calls && s.calls[c].status == Holding ==> s.phase != Free && c == s.holder)
    && (forall c :: c in s.calls && s.calls[c].status == FallingBack ==> s.negotiation == OneShotFallback)
  }

  ghost predicate AttemptsBounded(s: System) {
    forall c: nat :: Attempts(s.sent, c) <= Allowed(s, c)
  }

  ghost predicate AnswersSound(s: System) {
    forall c :: c in s.calls && s.calls[c].status.Answered? ==>
      AnswerOf(s, c, s.calls[c].status.id, s.calls[c].status.value)
  }

  /** What no worker, however it behaves, can break. */
  ghost predicate Inv(s: System) {
    ControlSound(s) && AttemptsBounded(s) && IdsUnique(s) && FramesFaithful(s) && ReplyAwaited(s)
  }

  /** How one step may change what is known of one call. */
  predicate CallMoves(step: Step, before: Call, after: Call) {
    && after.operation == before.operation && after.payload == before.payload
    && (after.status == before.status
        || match before.status
           case Waiting => after.status.Holding? || after.status.Failed?
           case Holding =>
             after.status.FallingBack? || after.status.Failed? || (step.Receive? && after.status.Answered?)
           case FallingBack => step.OneShot? && (after.status.OneShotEnded? || after.status.Failed?)
           case _ => false)
  }

  lemma HandshakeCallStep(s: System, h: Handshake, c: nat)
    requires ControlSound(s) && Enabled(s, Negotiate(h))
    ensures (c in AfterHandshake(s, h).calls <==> c in s.calls)
    ensures c in s.calls ==> CallMoves(Negotiate(h), s.calls[c], AfterHandshake(s, h).calls[c])
  {
  }

  lemma ReceiveCallStep(s: System, r: Reception, c: nat)
    requires ControlSound(s) && Enabled(s, Receive(r))
    ensures (c in Next(s, Receive(r)).calls <==> c in s.calls)
    ensures c in s.calls ==> CallMoves(Receive(r), s.calls[c], Next(s, Receive(r)).calls[c])
  {
  }

  lemma CallStep(s: System, step: Step, c: nat)
    requires ControlSound(s) && Enabled(s, step)
    ensures var t := Next(s, step);
      && (c in s.calls ==> c in t.calls && CallMoves(step, s.calls[c], t.calls[c]))
      && (c !in s.calls && c in t.calls ==> step.Arrive? && t.calls[c].status == Waiting)
  {
    match step
    case Negotiate(h) => HandshakeCallStep(s, h, c);
    case Receive(r) => ReceiveCallStep(s, r, c);
    case OneShot(_, _) =>
    case Equip(_) =>
    case Send(_) =>
    case _ =>
  }

  lemma HandshakeControlStep(s: System, h: Handshake)
    requires ControlSound(s) && Enabled(s, Negotiate(h))
    ensures ControlSound(AfterHandshake(s, h))
  {
  }

  lemma ReceiveControlStep(s: System, r: Reception)
    requires ControlSound(s) && Enabled(s, Receive(r))
    ensures ControlSound(Next(s, Receive(r)))
  {
  }

  lemma SendControlStep(s: System, ok: bool)
    requires ControlSound(s) && Enabled(s, Send(ok))
    ensures ControlSound(Next(s, Send(ok)))
  {
  }

  lemma EquipControlStep(s: System, spawning: Spawning)
    requires ControlSound(s) && Enabled(s, Equip(spawning))
    ensures ControlSound(Next(s, Equip(spawning)))
  {
  }

  lemma ControlStep(s: System, step: Step)
    requires ControlSound(s) && Enabled(s, step)
    ensures ControlSound(Next(s, step))
  {
    match step
    case Negotiate(h) => HandshakeControlStep(s, h);
    case Receive(r) => ReceiveControlStep(s, r);
    case Send(ok) => SendControlStep(s, ok);
    case Equip(spawning) => EquipControlStep(s, spawning);
    case _ => OtherControlStep(s, step);
  }

  lemma OtherControlStep(s: System, step: Step)
    requires ControlSound(s) && Enabled(s, step)
    requires !step.Negotiate? && !step.Receive? && !step.Send? && !step.Equip?
    ensures ControlSound(Next(s, step))
  {
  }

  /** What a step adds to the log of frames: nothing, the handshake, or the one entry of the call it works on. */
  function Logged(s: System, step: Step): seq<Sent>
    requires Enabled(s, step)
  {
    match step
    case Negotiate(h) =>
      if h.HandshakeNotStarted? || ((h.HandshakeWriteBroken? || h.HandshakeWriteFailed?) && !h.reached) then []
      else [ToNegotiation(Frame(s.nextId, HANDSHAKE, Obj(map[])))]
    case Send(_) =>
      var frame := Frame(s.nextId, s.calls[s.holder].operation, s.calls[s.holder].payload);
      [ToResident(s.holder, s.process.value.wid, frame)]
    case OneShot(c, true) => [ToOneShot(c, s.calls[c].operation, s.calls[c].payload)]
    case _ => []
  }

  lemma SentStep(s: System, step: Step)
    requires Enabled(s, step)
    ensures Next(s, step).sent == s.sent + Logged(s, step)
    ensures Next(s, step).nextId == s.nextId + (if step.Negotiate? || step.Send? then 1 else 0)
  {
    assert s.sent + [] == s.sent;
    match step
    case Negotiate(_) => HandshakeLogged(s, step);
    case Send(_) =>
    case OneShot(_, _) =>
    case Receive(_) =>
    case Equip(_) =>
    case Inspect(_) =>
    case _ =>
  }

  lemma HandshakeLogged(s: System, step: Step)
    requires Enabled(s, step) && step.Negotiate?
    ensures AfterHandshake(s, step.handshake).sent == s.sent + Logged(s, step)
    ensures AfterHandshake(s, step.handshake).nextId == s.nextId + 1
  {
    assert s.sent + [] == s.sent;
    match step.handshake
    case HandshakeLine(_) =>
    case HandshakeWriteBroken(_) =>
    case HandshakeWriteFailed(_) =>
    case _ =>
  }

  lemma HandshakeKeepsPipes(s: System, h: Handshake)
    requires Enabled(s, Negotiate(h))
    ensures AfterHandshake(s, h).answers == s.answers && AfterHandshake(s, h).process == s.process
    ensures AfterHandshake(s, h).nextId == s.nextId + 1
    ensures !AfterHandshake(s, h).phase.AwaitingReply?
  {
  }

  lemma SentForGrows(sent: seq<Sent>, more: seq<Sent>, c: nat, id: nat)
    requires SentFor(sent, c, id)
    ensures SentFor(sent + more, c, id)
  {
    var i :| 0 <= i < |sent| && sent[i].ToResident? && sent[i].call == c && sent[i].frame.id == id;
    assert (sent + more)[i] == sent[i];
  }

  lemma AttemptsPush(sent: seq<Sent>, entry: Sent, c: nat)
    ensures Attempts(sent + [entry], c)
      == Attempts(sent, c) + (if !entry.ToNegotiation? && entry.call == c then 1 else 0)
  {
    assert (sent + [entry])[..|sent|] == sent;
  }

  lemma {:induction false} AttemptsCount(sent: seq<Sent>, c: nat, i: nat, j: nat)
    requires i < j < |sent| && !sent[i].ToNegotiation? && !sent[j].ToNegotiation? && sent[i].call == sent[j].call == c
    ensures Attempts(sent, c) >= 2
  {
    var last := |sent| - 1;
    if j < last {
      AttemptsCount(sent[..last], c, i, j);
    } else {
      AttemptsCountOne(sent[..last], c, i);
    }
  }

  lemma {:induction false} AttemptsCountOne(sent: seq<Sent>, c: nat, i: nat)
    requires i < |sent| && !sent[i].ToNegotiation? && sent[i].call == c
    ensures Attempts(sent, c) >= 1
  {
    var last := |sent| - 1;
    if i < last {
      AttemptsCountOne(sent[..last], c, i);
    }
  }

  lemma AttemptsStepAt(s: System, step: Step, c: nat)
    requires ControlSound(s) && Attempts(s.sent, c) <= Allowed(s, c) && Enabled(s, step)
    ensures Attempts(Next(s, step).sent, c) <= Allowed(Next(s, step), c)
  {
    SentStep(s, step);
    var logged := Logged(s, step);
    if logged == [] {
      assert s.sent + logged == s.sent;
    } else {
      AttemptsPush(s.sent, logged[0], c);
    }
    AllowedStep(s, step, c);
  }

  /** A step that hands over call `c` raises what is allowed by one; no step lowers it. */
  lemma AllowedStep(s: System, step: Step, c: nat)
    requires ControlSound(s) && Enabled(s, step)
    ensures Allowed(Next(s, step), c) >=
      Allowed(s, c) + (if Logged(s, step) != [] && !step.Negotiate? && Logged(s, step)[0].call == c then 1 else 0)
  {
    CallStep(s, step, c);
    match step
    case Negotiate(_) =>
    case Send(_) =>
    case OneShot(_, _) =>
    case Receive(_) =>
    case _ =>
  }

  lemma AttemptsStep(s: System, step: Step)
    requires ControlSound(s) && AttemptsBounded(s) && Enabled(s, step)
    ensures AttemptsBounded(Next(s, step))
  {
    var t := Next(s, step);
    forall c: nat ensures Attempts(t.sent, c) <= Allowed(t, c) {
      AttemptsStepAt(s, step, c);
    }
  }

  lemma SentIdsPush(sent: seq<Sent>, nextId: nat, entry: Sent)
    requires SentIds(sent, nextId)
    ensures entry.ToOneShot? ==> SentIds(sent + [entry], nextId)
    ensures !entry.ToOneShot? && entry.frame.id == nextId ==> SentIds(sent + [entry], nextId + 1)
  {
  }

  lemma SentIdsStep(s: System, step: Step)
    requires SentIds(s.sent, s.nextId) && Enabled(s, step)
    ensures SentIds(Next(s, step).sent, Next(s, step).nextId)
  {
    SentStep(s, step);
    var logged := Logged(s, step);
    if logged == [] {
      assert s.sent + logged == s.sent;
    } else {
      SentIdsPush(s.sent, s.nextId, logged[0]);
    }
  }

  lemma AnswerIdsStep(s: System, step: Step)
    requires AnswerIds(s) && Enabled(s, step)
    ensures AnswerIds(Next(s, step))
  {
    match step
    case Negotiate(h) => HandshakeKeepsPipes(s, h);
    case WorkerConsumes(_) =>
    case Receive(_) =>
    case Equip(_) =>
    case Send(_) =>
    case _ =>
  }

  lemma IdsStep(s: System, step: Step)
    requires IdsUnique(s) && Enabled(s, step)
    ensures IdsUnique(Next(s, step))
  {
    SentIdsStep(s, step);
    AnswerIdsStep(s, step);
  }

  lemma SettledStays(s: System, step: Step)
    requires Enabled(s, step) && s.negotiation != Unknown
    ensures Next(s, step).negotiation == s.negotiation
  {
  }

  lemma FaithfulStays(s: System, step: Step, entry: Sent)
    requires ControlSound(s) && Enabled(s, step) && Faithful(s, entry)
    ensures Faithful(Next(s, step), entry)
  {
    if !entry.ToNegotiation? {
      CallStep(s, step, entry.call);
      SettledStays(s, step);
    }
  }

  lemma FaithfulArrives(s: System, step: Step)
    requires ControlSound(s) && Enabled(s, step) && Logged(s, step) != []
    ensures |Logged(s, step)| == 1 && Faithful(Next(s, step), Logged(s, step)[0])
  {
    if !step.Negotiate? {
      CallStep(s, step, Logged(s, step)[0].call);
    }
  }

  lemma FaithfulStep(s: System, step: Step)
    requires ControlSound(s) && FramesFaithful(s) && Enabled(s, step)
    ensures FramesFaithful(Next(s, step))
  {
    SentStep(s, step);
    var t, logged := Next(s, step), Logged(s, step);
    forall i | 0 <= i < |t.sent| ensures Faithful(t, t.sent[i]) {
      if i < |s.sent| {
        assert t.sent[i] == s.sent[i];
        FaithfulStays(s, step, s.sent[i]);
      } else {
        FaithfulArrives(s, step);
        assert t.sent[i] == logged[0];
      }
    }
  }

  lemma AwaitedStep(s: System, step: Step)
    requires ControlSound(s) && ReplyAwaited(s) && Enabled(s, step)
    ensures ReplyAwaited(Next(s, step))
  {
    SentStep(s, step);
    if step.Send? && step.ok {
      assert Next(s, step).sent[|s.sent|].frame.id == s.nextId;
    } else if s.phase.AwaitingReply? {
      SentForGrows(s.sent, Logged(s, step), s.holder, s.phase.id);
    }
  }

  /* ---------- Answers ---------- */

  /** What is on record stays on record. */
  lemma AnswersGrow(s: System, step: Step, id: nat)
    requires Enabled(s, step) && id in s.answers
    ensures id in Next(s, step).answers && s.answers[id] <= Next(s, step).answers[id]
  {
    match step
    case Negotiate(h) => HandshakeKeepsPipes(s, h);
    case Receive(_) =>
    case WorkerConsumes(_) =>
    case _ =>
  }

  lemma AnswerStays(s: System, step: Step, c: nat, id: nat, value: Json)
    requires Enabled(s, step) && AnswerOf(s, c, id, value)
    ensures AnswerOf(Next(s, step), c, id, value)
  {
    SentStep(s, step);
    SentForGrows(s.sent, Logged(s, step), c, id);
    AnswersGrow(s, step, id);
  }

  lemma AnswerArrives(s: System, step: Step)
    requires ReplyAwaited(s) && FrontSound(s) && Enabled(s, step) && step.Receive? && step.reception.NextLine?
    requires Decode(s.process.value.stdout[0], s.phase.id).Response?
    ensures AnswerOf(Next(s, step), s.holder, s.phase.id, Decode(s.process.value.stdout[0], s.phase.id).value)
  {
    assert RecordedFor(s.answers, s.process.value.stdout[0], s.phase.id);
  }

  lemma AnswersStep(s: System, step: Step)
    requires ControlSound(s) && ReplyAwaited(s) && FrontSound(s) && AnswersSound(s) && Enabled(s, step)
    ensures AnswersSound(Next(s, step))
  {
    var t := Next(s, step);
    forall c | c in t.calls && t.calls[c].status.Answered?
      ensures AnswerOf(t, c, t.calls[c].status.id, t.calls[c].status.value)
    {
      CallStep(s, step, c);
      if s.calls[c].status.Answered? {
        AnswerStays(s, step, c, s.calls[c].status.id, s.calls[c].status.value);
      } else {
        AnswerArrives(s, step);
      }
    }
  }

  /* ---------- One line per frame ---------- */

  lemma PipesStep(s: System, step: Step)
    requires ControlSound(s) && PipesSound(s) && Enabled(s, step) && AnswersOnce(step)
    ensures PipesSound(Next(s, step))
  {
    match step
    case WorkerConsumes(line) => ConsumedPipes(s, line);
    case Negotiate(h) => HandshakeKeepsPipes(s, h);
    case Receive(_) =>
    case Equip(_) =>
    case Send(_) =>
    case _ =>
  }

  lemma ConsumedPipes(s: System, line: Line)
    requires PipesSound(s) && Enabled(s, WorkerConsumes(line))
    ensures PipesSound(Next(s, WorkerConsumes(line)))
  {
    var t, id := Next(s, WorkerConsumes(line)), s.phase.id;
    assert s.process.value.stdin[0].id == id && s.process.value.stdout == [];
    if Decode(line, id).Response? {
      DecodedIdIsCarried(line, id);
    }
    assert RecordedFor(t.answers, line, id);
  }

  lemma PipesGiveFront(s: System)
    requires PipesSound(s)
    ensures FrontSound(s)
  {
  }

  /* ---------- Truthful ids ---------- */

  lemma RecordGrows(s: System, step: Step, line: Line)
    requires Enabled(s, step) && OnRecord(s.answers, line)
    ensures OnRecord(Next(s, step).answers, line)
  {
    if Carries(line).Some? {
      AnswersGrow(s, step, Carries(line).value);
    }
  }

  /** The lines a step may leave in the pipe: some that were there, and one it prints. */
  lemma PipeGrows(s: System, step: Step, i: nat)
    requires ControlSound(s) && Enabled(s, step) && Next(s, step).process.Some?
    requires i < |Next(s, step).process.value.stdout|
    ensures var line := Next(s, step).process.value.stdout[i];
      || (s.process.Some? && line in s.process.value.stdout)
      || (step.WorkerConsumes? && line == step.line)
      || (step.WorkerPrints? && line == step.line)
      || StartupFailure(line)
  {
    match step
    case Negotiate(h) => HandshakeKeepsPipes(s, h);
    case Receive(_) =>
    case Equip(_) =>
    case _ =>
  }

  lemma TruthStep(s: System, step: Step)
    requires ControlSound(s) && LinesTruthful(s) && Enabled(s, step) && Truthful(s, step)
    ensures LinesTruthful(Next(s, step))
  {
    var t := Next(s, step);
    if t.process.Some? {
      forall i | 0 <= i < |t.process.value.stdout| ensures OnRecord(t.answers, t.process.value.stdout[i]) {
        var line := t.process.value.stdout[i];
        PipeGrows(s, step, i);
        if s.process.Some? && line in s.process.value.stdout {
          var j :| 0 <= j < |s.process.value.stdout| && s.process.value.stdout[j] == line;
          RecordGrows(s, step, line);
        }
      }
    }
  }

  lemma TruthGivesFront(s: System)
    requires LinesTruthful(s)
    ensures FrontSound(s)
  {
    if s.phase.AwaitingReply? && s.process.Some? && s.process.value.stdout != [] {
      var line := s.process.value.stdout[0];
      assert OnRecord(s.answers, line);
      if Decode(line, s.phase.id).Response? {
        DecodedIdIsCarried(line, s.phase.id);
      }
    }
  }

  /* ---------- Whole runs ---------- */

  lemma StartIsSound(embedded: bool)
    ensures Inv(Start(embedded)) && AnswersSound(Start(embedded))
    ensures PipesSound(Start(embedded)) && LinesTruthful(Start(embedded))
  {
  }

  lemma StepKeepsInv(s: System, step: Step)
    requires Inv(s) && Enabled(s, step)
    ensures Inv(Next(s, step))
  {
    ControlStep(s, step);
    AttemptsStep(s, step);
    IdsStep(s, step);
    FaithfulStep(s, step);
    AwaitedStep(s, step);
  }

  lemma {:induction false} RunKeepsInv(s: System, steps: seq<Step>, t: System)
    requires Inv(s) && IsRun(s, steps, t)
    ensures Inv(t)
    decreases |steps|
  {
    if steps != [] {
      StepKeepsInv(s, steps[0]);
      RunKeepsInv(Next(s, steps[0]), steps[1..], t);
    }
  }

  lemma {:induction false} RunKeepsPipes(s: System, steps: seq<Step>, t: System)
    requires Inv(s) && PipesSound(s) && AnswersSound(s) && IsRun(s, steps, t)
    requires forall i :: 0 <= i < |steps| ==> AnswersOnce(steps[i])
    ensures PipesSound(t) && AnswersSound(t)
    decreases |steps|
  {
    if steps != [] {
      StepKeepsInv(s, steps[0]);
      PipesStep(s, steps[0]);
      PipesGiveFront(s);
      AnswersStep(s, steps[0]);
      RunKeepsPipes(Next(s, steps[0]), steps[1..], t);
    }
  }

  lemma {:induction false} RunKeepsTruth(s: System, steps: seq<Step>, t: System)
    requires Inv(s) && LinesTruthful(s) && AnswersSound(s) && IsRun(s, steps, t) && TruthfulRun(s, steps, t)
    ensures LinesTruthful(t) && AnswersSound(t)
    decreases |steps|
  {
    if steps != [] {
      StepKeepsInv(s, steps[0]);
      TruthStep(s, steps[0]);
      TruthGivesFront(s);
      AnswersStep(s, steps[0]);
      RunKeepsTruth(Next(s, steps[0]), steps[1..], t);
    }
  }

  lemma {:induction false} RunThen(s: System, steps: seq<Step>, t: System, step: Step)
    requires IsRun(s, steps, t) && Enabled(t, step)
    ensures IsRun(s, steps + [step], Next(t, step))
    decreases |steps|
  {
    if steps == [] {
      assert ([] + [step])[1..] == [];
    } else {
      assert (steps + [step])[0] == steps[0] && (steps + [step])[1..] == steps[1..] + [step];
      RunThen(Next(s, steps[0]), steps[1..], t, step);
    }
  }

  /* ---------- The guarantees over whole runs ---------- */

  /** `sent[i]` is call `c`'s own request frame, and no other frame ever carried its id. */
  ghost predicate OnlyFrameOf(t: System, c: nat, i: nat)
    requires c in t.calls && t.calls[c].status.Answered? && i < |t.sent|
  {
    && t.sent[i].ToResident? && t.sent[i].call == c
    && t.sent[i].frame == Frame(t.calls[c].status.id, t.calls[c].operation, t.calls[c].payload)
    && forall j :: 0 <= j < |t.sent| && j != i && !t.sent[j].ToOneShot? ==> t.sent[j].frame.id != t.sent[i].frame.id
  }

  /** Either discipline of a worker: one line per frame whatever it says, or any lines under truthful ids. */
  ghost predicate WellBehaved(s: System, steps: seq<Step>, t: System)
    requires IsRun(s, steps, t)
  {
    (forall i :: 0 <= i < |steps| ==> AnswersOnce(steps[i])) || TruthfulRun(s, steps, t)
  }

  /**
   * No stale answer: in every run a value returned to a call decodes a line that a resident worker printed after
   * consuming a frame with that call's operation and payload, and no other frame ever carried the frame's id.
   */
  lemma NoStaleAnswer(embedded: bool, steps: seq<Step>, t: System, c: nat)
    requires IsRun(Start(embedded), steps, t) && WellBehaved(Start(embedded), steps, t)
    requires c in t.calls && t.calls[c].status.Answered?
    ensures exists i :: 0 <= i < |t.sent| && OnlyFrameOf(t, c, i)
    ensures var Answered(id, value) := t.calls[c].status;
      id in t.answers && exists line :: line in t.answers[id] && Decode(line, id) == Response(value)
  {
    StartIsSound(embedded);
    RunKeepsInv(Start(embedded), steps, t);
    if forall i :: 0 <= i < |steps| ==> AnswersOnce(steps[i]) {
      RunKeepsPipes(Start(embedded), steps, t);
    } else {
      RunKeepsTruth(Start(embedded), steps, t);
    }
    assert AnswerOf(t, c, t.calls[c].status.id, t.calls[c].status.value);
    SentIsOnly(t, c);
  }

  /**
   * One of the two disciplines is needed: a worker that prints a line too many, under the id of a frame it has not
   * been sent yet, has that line taken for the answer.
   */
  lemma AnswerAheadOfTime(payload: Json, body: Json) returns (steps: seq<Step>, t: System)
    requires body.Obj? ==> !EnvelopeLike(body.fields)
    ensures IsRun(Start(true), steps, t) && !WellBehaved(Start(true), steps, t)
    ensures 0 in t.calls && t.calls[0].status == Answered(1, Expected(body)) && 1 !in t.answers
  {
    var line := Parsed(ResidentResponse(Num(1), Body(body)));
    var ready;
    steps, ready := SpawnedForOne(payload);
    t := PrintedEarly(ready, line, body);
    var extra := WorkerPrints(line);
    RunThen(Start(true), steps, ready, extra);
    steps := steps + [extra];
    assert !AnswersOnce(steps[|steps| - 1]);
    RunThen(Start(true), steps, Next(ready, extra), Send(true));
    steps := steps + [Send(true)];
    RunThen(Start(true), steps, Next(Next(ready, extra), Send(true)), Receive(NextLine));
    steps := steps + [Receive(NextLine)];
    if WellBehaved(Start(true), steps, t) {
      NoStaleAnswer(true, steps, t, 0);
    }
  }

  /** Ready to send its first request to a fresh worker. */
  predicate Ready(s: System, stdout: seq<Line>) {
    && s.phase == Equipped && s.process == Some(Worker(0, true, [], stdout)) && s.answers == map[]
    && s.holder == 0 && 0 in s.calls && s.nextId == 1
  }

  lemma PrintsAhead(ready: System, line: Line)
    requires Ready(ready, [])
    ensures Enabled(ready, WorkerPrints(line)) && Ready(Next(ready, WorkerPrints(line)), [line])
  {
    assert ready.process.value.stdout + [line] == [line];
  }

  lemma PrintedEarly(ready: System, line: Line, body: Json) returns (t: System)
    requires Ready(ready, [])
    requires line == Parsed(ResidentResponse(Num(1), Body(body))) && (body.Obj? ==> !EnvelopeLike(body.fields))
    ensures Enabled(ready, WorkerPrints(line)) && Enabled(Next(ready, WorkerPrints(line)), Send(true))
    ensures var sent := Next(Next(ready, WorkerPrints(line)), Send(true));
      Enabled(sent, Receive(NextLine)) && t == Next(sent, Receive(NextLine))
    ensures 0 in t.calls && t.calls[0].status == Answered(1, Expected(body)) && t.answers == map[]
  {
    PrintsAhead(ready, line);
    t := AcceptedUnasked(Next(ready, WorkerPrints(line)), line, body);
  }

  lemma AcceptedUnasked(printed: System, line: Line, body: Json) returns (t: System)
    requires Ready(printed, [line])
    requires line == Parsed(ResidentResponse(Num(1), Body(body))) && (body.Obj? ==> !EnvelopeLike(body.fields))
    ensures Enabled(printed, Send(true)) && Enabled(Next(printed, Send(true)), Receive(NextLine))
    ensures t == Next(Next(printed, Send(true)), Receive(NextLine))
    ensures 0 in t.calls && t.calls[0].status == Answered(1, Expected(body)) && t.answers == map[]
  {
    EnvelopeRoundTrip(body, 1);
    var sent := Next(printed, Send(true));
    assert sent.phase == AwaitingReply(1) && sent.process.value.stdout == [line] && sent.answers == map[];
    t := Next(sent, Receive(NextLine));
  }

  lemma LockedForOne(payload: Json) returns (steps: seq<Step>, t: System)
    ensures IsRun(Start(true), steps, t)
    ensures t == System(Confirmed, None, 1, 0, Locked, 0, map[0 := Call("execute", payload, Holding)], [], map[])
  {
    var s0, arrival := Start(true), Arrive(0, "execute", payload);
    steps, t := [], s0;
    RunThen(s0, steps, t, arrival);
    steps, t := steps + [arrival], Next(t, arrival);
    RunThen(s0, steps, t, Acquire(0));
    steps, t := steps + [Acquire(0)], Next(t, Acquire(0));
  }

  /** The run up to the point where the only client may send. */
  lemma SpawnedForOne(payload: Json) returns (steps: seq<Step>, t: System)
    ensures IsRun(Start(true), steps, t) && Ready(t, [])
  {
    steps, t := LockedForOne(payload);
    RunThen(Start(true), steps, t, AlreadyConfirmed);
    steps, t := steps + [AlreadyConfirmed], t.(phase := Negotiated);
    RunThen(Start(true), steps, t, Inspect(SeenRunning));
    steps, t := steps + [Inspect(SeenRunning)], t.(phase := Inspected);
    RunThen(Start(true), steps, t, Equip(Spawned));
    steps, t := steps + [Equip(Spawned)], Next(t, Equip(Spawned));
  }

  lemma SentIsOnly(t: System, c: nat)
    requires IdsUnique(t) && FramesFaithful(t) && c in t.calls && t.calls[c].status.Answered?
    requires SentFor(t.sent, c, t.calls[c].status.id)
    ensures exists i :: 0 <= i < |t.sent| && OnlyFrameOf(t, c, i)
  {
    var id := t.calls[c].status.id;
    var i :| 0 <= i < |t.sent| && t.sent[i].ToResident? && t.sent[i].call == c && t.sent[i].frame.id == id;
    assert Faithful(t, t.sent[i]);
    assert OnlyFrameOf(t, c, i);
  }

  /** With the bundled Python worker the value is the body of that operation, with `ok` set. */
  lemma BundledWorkerAnswer(embedded: bool, steps: seq<Step>, t: System, c: nat, body: Json)
    requires IsRun(Start(embedded), steps, t) && WellBehaved(Start(embedded), steps, t)
    requires c in t.calls && t.calls[c].status.Answered?
    requires var id := t.calls[c].status.id;
      id in t.answers && forall line :: line in t.answers[id] ==> line == Parsed(ResidentResponse(Num(id), Body(body)))
    requires body.Obj? ==> !EnvelopeLike(body.fields)
    ensures t.calls[c].status.value == Expected(body)
    ensures ParseCompanionResponse(t.calls[c].status.value) == Success(Expected(body))
  {
    NoStaleAnswer(embedded, steps, t, c);
    EnvelopeRoundTrip(body, t.calls[c].status.id);
  }

  /** At most once: over a whole run no call is handed to two workers, resident or one-shot, nor twice to one. */
  lemma AtMostOnceDelivery(embedded: bool, steps: seq<Step>, t: System)
    requires IsRun(Start(embedded), steps, t)
    ensures forall i, j :: 0 <= i < j < |t.sent| && !t.sent[i].ToNegotiation? && !t.sent[j].ToNegotiation? ==>
      t.sent[i].call != t.sent[j].call && (t.sent[i].ToResident? <==> t.sent[j].ToResident?)
    ensures forall i :: 0 <= i < |t.sent| && t.sent[i].ToNegotiation? ==>
      t.sent[i].frame.operation == HANDSHAKE && t.sent[i].frame.payload == Obj(map[])
    ensures t.process.Some? ==> t.negotiation == Confirmed
  {
    StartIsSound(embedded);
    RunKeepsInv(Start(embedded), steps, t);
    forall i, j | 0 <= i < j < |t.sent| && !t.sent[i].ToNegotiation? && !t.sent[j].ToNegotiation?
      ensures t.sent[i].call != t.sent[j].call
    {
      var c := t.sent[i].call;
      assert Attempts(t.sent, c) <= Allowed(t, c);
      if t.sent[j].call == c {
        AttemptsCount(t.sent, c, i, j);
      }
    }
  }

  /** With the mutex free no request and no reply is under way, so nothing can be left over for the next call. */
  lemma NothingOutstandingWhenFree(embedded: bool, steps: seq<Step>, t: System)
    requires IsRun(Start(embedded), steps, t)
    requires forall i :: 0 <= i < |steps| ==> AnswersOnce(steps[i])
    requires t.phase == Free && t.process.Some?
    ensures t.process.value.stdin == []
    ensures forall line :: line in t.process.value.stdout ==>
      StartupFailure(line) && forall id: nat :: Decode(line, id) == Undecodable(NoRequestId)
  {
    StartIsSound(embedded);
    RunKeepsPipes(Start(embedded), steps, t);
  }

  /** Negotiation is settled once: `Confirmed` and `OneShotFallback` are never left. */
  lemma {:induction false} NegotiationIsAbsorbing(s: System, steps: seq<Step>, t: System)
    requires IsRun(s, steps, t) && s.negotiation != Unknown
    ensures t.negotiation == s.negotiation
    decreases |steps|
  {
    if steps != [] {
      NegotiationIsAbsorbing(Next(s, steps[0]), steps[1..], t);
    }
  }

  /** A call that ended is never touched again: a failure after sending is reported and not replayed. */
  lemma {:induction false} EndedCallsStayEnded(s: System, steps: seq<Step>, t: System, c: nat)
    requires Inv(s) && IsRun(s, steps, t)
    requires c in s.calls
    requires s.calls[c].status.Failed? || s.calls[c].status.Answered? || s.calls[c].status.OneShotEnded?
    ensures c in t.calls && t.calls[c] == s.calls[c] && Attempts(t.sent, c) == Attempts(s.sent, c)
    decreases |steps|
  {
    if steps != [] {
      var mid := Next(s, steps[0]);
      StepKeepsInv(s, steps[0]);
      CallStep(s, steps[0], c);
      SentStep(s, steps[0]);
      var logged := Logged(s, steps[0]);
      if logged == [] {
        assert s.sent + logged == s.sent;
      } else {
        AttemptsPush(s.sent, logged[0], c);
      }
      EndedCallsStayEnded(mid, steps[1..], t, c);
    }
  }
}
