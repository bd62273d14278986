/** The run of the agent loop as a function of its surroundings: what each part does to transcript and history. */
module AgentSpec {
  import opened Wrappers
  import opened Messages
  import opened Context
  import opened Approval
  import opened AgentWorld
  import opened AgentMonitor

  datatype LoopState = LoopState(transcript: seq<Message>, history: seq<Step>, outstanding: Option<string>)

  datatype Tally = Tally(usage: Usage, toolCalls: nat, refusals: nat)

  datatype RunOutcome = RunOutcome(stop: StopReason, turns: nat, tally: Tally, finalText: string)

  datatype CallOutcome = Done(ok: bool, content: string) | Refused(refusal: Refusal)

  function Now(s: LoopState): nat {
    |s.history|
  }

  /** One more exchange. */
  function Tell(s: LoopState, step: Step): LoopState {
    s.(history := s.history + [step])
  }

  function Emit(s: LoopState, e: Event): LoopState {
    Tell(s, Emitted(e))
  }

  function Push(s: LoopState, m: Message): LoopState {
    Tell(s, Pushed(m)).(transcript := s.transcript + [m])
  }

  function Append(x: Setup, s: LoopState, m: Message): (LoopState, Option<string>) {
    if x.c.hasSink then
      var error := x.w.store(Now(s), m);
      var told := Tell(s, SinkTold(m, error.None?));
      if error.Some? then (told, error) else (Push(told, m), None)
    else (Push(s, m), None)
  }

  // ------------------------------------------------------------------ one call

  datatype Clearance = Clearance(
    call: Prepared,
    enforced: Option<(Resource, Action)>,
    preOpen: Option<(string, Action, Option<nat>)>)

  function AskCapability(x: Setup, s: LoopState, now: nat, resource: Resource, action: Action, bytes: Option<nat>)
    : (LoopState, Decision)
  {
    var d := x.w.capability(now, resource, action, bytes);
    (Tell(s, CapabilityAsked(resource, action, bytes, d)), d)
  }

  function ResolvePath(x: Setup, s: LoopState, path: string): (LoopState, Option<string>) {
    var canonical := x.w.canonicalize(Now(s), path);
    (Tell(s, PathResolved(path, canonical)), canonical)
  }

  /** The capability, on the named path and on the path the host would open. */
  function Clear(x: Setup, s: LoopState, call: Prepared): (LoopState, Result<Clearance, Refusal>) {
    if call.requirement.None? then (s, Success(Clearance(call, None, None)))
    else
      var r := call.requirement.value;
      var now := Now(s);
      var (s1, d) := AskCapability(x, s, now, r.resource, r.action, r.bytes);
      if d.Withheld? then (s1, Failure(NotCovered(d.reason)))
      else if !r.resource.FsPath? then (s1, Success(Clearance(call, Some((r.resource, r.action)), None)))
      else
        var path := r.resource.path;
        var preOpen := Some((path, r.action, r.bytes));
        var (s2, canonical) := ResolvePath(x, s1, path);
        if canonical.None? then (s2, Success(Clearance(call, Some((r.resource, r.action)), preOpen)))
        else
          var target := FsPath(canonical.value);
          var (s3, again) := AskCapability(x, s2, now, target, r.action, r.bytes);
          if again.Withheld? then (s3, Failure(Escapes(path, canonical.value)))
          else if canonical.value != path then
            (s3, Success(Clearance(SetPath(call, canonical.value), Some((target, r.action)), preOpen)))
          else (s3, Success(Clearance(call, Some((r.resource, r.action)), preOpen)))
  }

  function ActionFor(x: Setup, now: nat, call: Prepared, r: Requirement): ActionRequest {
    var (risk, reason) :=
      if r.resource.Process? && call.name == "shell" then x.w.shellRisk(r.describes) else RiskOf(r);
    var targets := x.w.targets(now, call);
    ActionRequest(call.name, r.describes, risk, reason,
                  if targets.Some? then targets.value else [], x.w.undo(now, call), x.w.confinement(now, call))
  }

  /** Put the question, take the answer, settle it. */
  function Prompt(x: Setup, s: LoopState, id: CallId, request: ApprovalRequest, action: ActionRequest)
    : (LoopState, Resolution, string)
  {
    var s2 := Emit(s, ApprovalRequested(request.id, id, request.reason, action.targets));
    var answer := x.w.approver(Now(s2), request, action);
    var s3 := Tell(s2, ApproverAnswered(request, action, answer));
    var resolution := Resolve(s3.outstanding, request.id, answer.option);
    var s4 := Tell(s3, ApprovalSettled(request.id, resolution));
    (Emit(if resolution.Mismatched? then s4 else s4.(outstanding := None),
          ApprovalResolved(request.id, resolution.Approved?, answer.who)), resolution, answer.who)
  }

  /** The approval policy, and whoever it says to ask. `None` lets the call go on. */
  function SeekApproval(x: Setup, s: LoopState, id: CallId, call: Prepared): (LoopState, Option<Refusal>) {
    if call.requirement.None? then (s, None)
    else
      var action := ActionFor(x, Now(s), call, call.requirement.value);
      var verdict := x.w.policy(Now(s), action);
      var s1 := Tell(s, PolicyDecided(action, verdict));
      match verdict
      case Allowed => (s1, None)
      case Denied(why) => (s1, Some(ByPolicy(why)))
      case Ask(request) =>
        var (s2, resolution, who) := Prompt(x, s1.(outstanding := Some(request.id)), id, request, action);
        (s2, if resolution.Approved? then None else Some(ByApprover(who, resolution)))
  }

  /** The named path is resolved again after the tool opened it. */
  function CheckAfterOpen(x: Setup, s: LoopState, preOpen: Option<(string, Action, Option<nat>)>)
    : (LoopState, Option<Refusal>)
  {
    if preOpen.None? then (s, None)
    else
      var (path, action, bytes) := preOpen.value;
      var (s1, canonical) := ResolvePath(x, s, path);
      if canonical.None? then (s1, None)
      else
        var (s2, d) := AskCapability(x, s1, Now(s1), FsPath(canonical.value), action, bytes);
        (s2, if d.Granted? then None else Some(Moved(path, canonical.value, IsMutating(action))))
  }

  /** A size no one could state beforehand is measured against the grant's bound. */
  function CheckBytes(x: Setup, s: LoopState, gate: Option<(Resource, Action)>, moved: Option<nat>)
    : (LoopState, Option<Refusal>)
  {
    if gate.None? || moved.None? then (s, None)
    else
      var (resource, action) := gate.value;
      var cap := x.w.maxBytes(Now(s), resource, action);
      var s1 := Tell(s, ByteCapRead(resource, action, cap));
      (s1, if cap.Some? && moved.value > cap.value
           then Some(OverBound(moved.value, cap.value, IsMutating(action))) else None)
  }

  function RunTool(x: Setup, s: LoopState, k: Clearance): (LoopState, CallOutcome) {
    var byteGate := if k.call.requirement.Some? && k.call.requirement.value.bytes.None? then k.enforced else None;
    var outcome := x.w.runTool(Now(s), k.call);
    var s1 := Tell(s, ToolRan(k.call, outcome));
    match outcome
    case Failure(Arguments(message)) => (s1, Refused(BadArguments(message)))
    case Failure(Unavailable(message)) => (s1, Refused(CouldNotAct(message)))
    case Success(o) =>
      if !o.ok then (s1, Done(false, Shown(o)))
      else
        var (s2, moved) := CheckAfterOpen(x, s1, k.preOpen);
        if moved.Some? then (s2, Refused(moved.value))
        else
          var (s3, over) := CheckBytes(x, s2, byteGate, o.bytesMoved);
          if over.Some? then (s3, Refused(over.value)) else (s3, Done(true, Shown(o)))
  }

  function HandleCall(x: Setup, s: LoopState, call: Call): (LoopState, CallOutcome) {
    var prepared := x.w.prepare(Now(s), call.name, call.arguments);
    var s1 := Tell(s, CallPrepared(call, prepared));
    if prepared.Failure? then (s1, Refused(CannotPrepare(call.name, prepared.error)))
    else
      var (s2, clearance) := Clear(x, s1, prepared.value);
      if clearance.Failure? then (s2, Refused(clearance.error))
      else
        var (s3, refusal) := SeekApproval(x, s2, call.id, clearance.value.call);
        if refusal.Some? then (s3, Refused(refusal.value)) else RunTool(x, s3, clearance.value)
  }

  // ------------------------------------------------------------------ the calls of one turn

  predicate Ok(o: CallOutcome) {
    o.Done? && o.ok
  }

  function Summary(x: Setup, o: CallOutcome): string {
    match o
    case Done(_, content) => content
    case Refused(refusal) => x.w.wording(refusal)
  }

  function Counted(t: Tally, o: CallOutcome): Tally {
    if o.Done? then t.(toolCalls := t.toolCalls + 1) else t.(refusals := t.refusals + 1)
  }

  function ServeCall(x: Setup, s: LoopState, t: Tally, call: Call): (LoopState, Tally, Option<string>) {
    var s1 := Emit(s, ToolCallStarted(call));
    var (s2, o) := HandleCall(x, s1, call);
    var (s3, error) := Append(x, s2, ToolResultMessage(call.id, Ok(o), Summary(x, o)));
    if error.Some? then (s3, Counted(t, o), error)
    else (Emit(s3, ToolCallFinished(call.id, Ok(o), Summary(x, o))), Counted(t, o), None)
  }

  function ServeCalls(x: Setup, s: LoopState, t: Tally, calls: seq<Call>): (LoopState, Tally, Option<string>)
    decreases |calls|
  {
    if calls == [] then (s, t, None)
    else
      var (s1, t1, error) := ServeCall(x, s, t, calls[0]);
      if error.Some? then (s1, t1, error) else ServeCalls(x, s1, t1, calls[1..])
  }

  // ------------------------------------------------------------------ one turn

  datatype TurnEnd = Ended(result: Result<RunOutcome, string>) | Continues(tally: Tally)

  function Finish(s: LoopState, turn: nat, stop: StopReason, turns: nat, t: Tally, text: string)
    : (LoopState, TurnEnd)
  {
    (Emit(s, TurnFinished(turn, stop)), Ended(Success(RunOutcome(stop, turns, t, text))))
  }

  function OutOfBudget(s: LoopState, turn: nat, t: Tally): (LoopState, TurnEnd)
    requires turn > 0
  {
    Finish(s, turn, BudgetExhausted, turn - 1, t, LastAssistantText(s.transcript))
  }

  function ReadDeadline(x: Setup, s: LoopState): (LoopState, bool) {
    if x.c.deadline.None? then (s, false)
    else
      var elapsed := x.w.elapsed(Now(s));
      (Tell(s, DeadlineRead(elapsed)), elapsed >= x.c.deadline.value)
  }

  function ReadSpend(x: Setup, s: LoopState): (LoopState, bool) {
    if x.c.budget.None? then (s, false)
    else
      var spent := x.w.spent(Now(s));
      (Tell(s, SpendRead(spent)), spent > x.c.budget.value)
  }

  function AskModel(x: Setup, s: LoopState): (LoopState, Reply) {
    var request := Request(x.c.facts, x.w.modelName(Now(s)), s.transcript);
    var reply :=
      if x.c.deadline.Some? && x.w.stalls(Now(s)) then TimedOut
      else
        var answer := x.w.complete(Now(s), request);
        if answer.Success? then Answered(answer.value) else Failed(answer.error);
    (Tell(s, ModelAsked(request, reply)), reply)
  }

  /** The model answered: record the answer, then end the run or serve its calls. */
  function TakeAnswer(x: Setup, s: LoopState, t: Tally, turn: nat, response: ChatResponse): (LoopState, TurnEnd) {
    var t1 := t.(usage := AddUsage(t.usage, response.usage));
    var text := TextOf(response.message);
    var calls := ToolCallsOf(response.message);
    var s1 := Emit(s, UsageReported(response.usage.input, response.usage.output));
    var s2 := if text == "" then s1 else Emit(s1, TextDelta(text));
    var (s3, error) := Append(x, s2, response.message);
    if error.Some? then (s3, Ended(Failure(error.value)))
    else if calls == [] then Finish(s3, turn, Completed, turn, t1, text)
    else
      var (s4, t2, stopped) := ServeCalls(x, s3, t1, calls);
      (s4, if stopped.Some? then Ended(Failure(stopped.value)) else Continues(t2))
  }

  /** What a turn does once its bounds allow it. */
  function AskedTurn(x: Setup, s: LoopState, t: Tally, turn: nat): (LoopState, TurnEnd)
    requires turn > 0
  {
    var (s1, reply) := AskModel(x, Emit(s, TurnStarted(turn)));
    match reply
    case TimedOut => OutOfBudget(s1, turn, t)
    case Failed(error) => (Emit(s1, ErrorRaised(error)), Ended(Failure(error)))
    case Answered(response) => TakeAnswer(x, s1, t, turn, response)
  }

  function Turn(x: Setup, s: LoopState, t: Tally, turn: nat): (LoopState, TurnEnd)
    requires turn > 0
  {
    var (s1, expired) := ReadDeadline(x, s);
    if expired then OutOfBudget(s1, turn, t)
    else
      var (s2, over) := ReadSpend(x, s1);
      if over then OutOfBudget(s2, turn, t)
      else AskedTurn(x, s2, t, turn)
  }

  function Turns(x: Setup, s: LoopState, t: Tally, turn: nat): (LoopState, Result<RunOutcome, string>)
    requires 0 < turn <= x.c.maxTurns + 1
    decreases x.c.maxTurns + 1 - turn
  {
    if turn > x.c.maxTurns then
      (Emit(s, TurnFinished(x.c.maxTurns, MaxTurns)),
       Success(RunOutcome(MaxTurns, x.c.maxTurns, t, LastAssistantText(s.transcript))))
    else
      var (s1, end) := Turn(x, s, t, turn);
      match end
      case Ended(result) => (s1, result)
      case Continues(t1) => Turns(x, s1, t1, turn + 1)
  }

  const NOTHING_YET := Tally(Usage(0, 0, 0, 0), 0, 0)

  function Begin(x: Setup): LoopState {
    LoopState(x.start, [], None)
  }

  /** A whole run. */
  function Run(x: Setup): (LoopState, Result<RunOutcome, string>) {
    Turns(x, Begin(x), NOTHING_YET, 1)
  }
}
