/**
 * What every run of the agent loop must look like from outside, said without reference to how the loop works:
 * observers that read the exchanges one by one and turn to a failed state the moment one is out of place.
 */
module AgentMonitor {
  import opened Wrappers
  import opened Messages
  import opened Context
  import opened Approval
  import opened AgentWorld

  /** A run's fixed surroundings: its configuration, the world it meets, the transcript it was handed. */
  datatype Setup = Setup(c: Config, w: World, start: seq<Message>)

  // ------------------------------------------------------------------ brackets

  datatype Bracket =
    | Ready                                   // before the first turn
    | Bounded(deadline: bool, spend: bool)    // these bounds were read, and not reached
    | Stopping                                // a bound was reached: only a budget stop may follow
    | InTurn                                  // announced, the model not yet asked
    | Serving                                 // the model answered
    | InCall(id: CallId)
    | Asking(id: CallId, approval: string)
    | Failing(error: string)                  // the model failed: only that error may follow
    | Finished(stop: StopReason)
    | Aborted(error: string)
    | Unbracketed

  predicate AtBoundary(b: Bracket) {
    b.Ready? || b.Serving?
  }

  /** A turn starts only once every bound the run has was read and not reached. */
  predicate MayStart(c: Config, b: Bracket) {
    match b
    case Bounded(deadline, spend) => (c.deadline.Some? ==> deadline) && (c.budget.Some? ==> spend)
    case _ => AtBoundary(b) && c.deadline.None? && c.budget.None?
  }

  function BracketEvent(c: Config, b: Bracket, e: Event): Bracket {
    match e
    case TurnStarted(_) => if MayStart(c, b) then InTurn else Unbracketed
    case UsageReported(_, _) => if b.Serving? then b else Unbracketed
    case TextDelta(_) => if b.Serving? then b else Unbracketed
    case ToolCallStarted(call) => if b.Serving? then InCall(call.id) else Unbracketed
    case ToolCallFinished(id, _, _) => if b == InCall(id) then Serving else Unbracketed
    case ApprovalRequested(approval, id, _, _) => if b == InCall(id) then Asking(id, approval) else Unbracketed
    case ApprovalResolved(approval, _, _) =>
      if b.Asking? && b.approval == approval then InCall(b.id) else Unbracketed
    case TurnFinished(_, stop) =>
      if (match stop
          case BudgetExhausted => b.Stopping?
          case Completed => b.Serving?
          case MaxTurns => AtBoundary(b)) then Finished(stop) else Unbracketed
    case ErrorRaised(message) => if b == Failing(message) then Aborted(message) else Unbracketed
  }

  function BracketStep(c: Config, b: Bracket, step: Step): Bracket {
    match step
    case Emitted(e) => BracketEvent(c, b, e)
    case DeadlineRead(elapsed) =>
      if !(AtBoundary(b) && c.deadline.Some?) then Unbracketed
      else if elapsed >= c.deadline.value then Stopping
      else Bounded(true, false)
    case SpendRead(spent) =>
      if !((AtBoundary(b) || b == Bounded(true, false)) && c.budget.Some?) then Unbracketed
      else if spent > c.budget.value then Stopping
      else Bounded(b.Bounded?, true)
    case ModelAsked(_, reply) =>
      if !b.InTurn? then Unbracketed
      else (match reply
            case Answered(_) => Serving
            case Failed(error) => Failing(error)
            case TimedOut => Stopping)
    case SinkTold(_, _) => if b.Serving? || b.InCall? then b else Unbracketed
    case Pushed(_) => if b.Serving? || b.InCall? then b else Unbracketed
    case ApproverAnswered(prompt, _, _) => if b.Asking? && b.approval == prompt.id then b else Unbracketed
    case ApprovalSettled(id, _) => if b.Asking? && b.approval == id then b else Unbracketed
    case _ => if b.InCall? then b else Unbracketed
  }

  // ------------------------------------------------------------------ the gate in front of every tool

  datatype Evidence = Evidence(
    granted: set<(Resource, Action, Option<nat>)>,
    withheld: Option<(Resource, Action, Option<nat>, string)>,
    paths: seq<(string, Option<string>)>,
    caps: seq<(Resource, Action, Option<nat>)>,
    asked: Option<Prepared>,
    denied: Option<string>,
    prompt: Option<(ApprovalRequest, ActionRequest)>,
    answer: Option<ApprovalDecision>,
    settled: Option<Resolution>,
    approved: bool)

  const NO_EVIDENCE := Evidence({}, None, [], [], None, None, None, None, None, false)

  datatype Gate =
    | Closed(said: Option<ChatResponse>)      // the model's answer, while not yet in the transcript
    | Opened(call: Call, failure: Option<string>)
    | Judging(call: Call, prepared: Prepared, seen: Evidence)
    | Ran(call: Call, prepared: Prepared, target: Resource, outcome: Result<ToolOutcome, ToolError>, seen: Evidence)
    | Delivered(call: Call, ok: bool, content: string)
    | Violated

  /** The requirement itself was granted, and nothing asked for this call was withheld. */
  predicate Covered(p: Prepared, e: Evidence) {
    p.requirement.Some? ==>
      (p.requirement.value.resource, p.requirement.value.action, p.requirement.value.bytes) in e.granted
      && e.withheld.None?
  }

  /** The host was asked about the named path, and what it opens was granted as well. */
  predicate ResolvedAndGranted(r: Requirement, e: Evidence) {
    r.resource.FsPath? ==>
      && |e.paths| == 1 && e.paths[0].0 == r.resource.path
      && (e.paths[0].1.Some? ==> (FsPath(e.paths[0].1.value), r.action, r.bytes) in e.granted)
  }

  predicate Redirected(r: Requirement, e: Evidence) {
    && r.resource.FsPath?
    && |e.paths| == 1 && e.paths[0].1.Some? && e.paths[0].1.value != r.resource.path
  }

  /** What the tool opens: the resolved path where it differs from the named one. */
  function Target(r: Requirement, e: Evidence): Resource {
    if Redirected(r, e) then FsPath(e.paths[0].1.value) else r.resource
  }

  /** The call as it will run: on the resolved path where that differs from the named one. */
  function Actual(p: Prepared, e: Evidence): Prepared {
    if p.requirement.Some? && Redirected(p.requirement.value, e) && p.path.Some? then p.(path := e.paths[0].1) else p
  }

  /** The question is about this very call: its tool, its purpose, its class, and what it would touch. */
  ghost predicate AsksAbout(w: World, call: Prepared, action: ActionRequest) {
    && call.requirement.Some?
    && var r := call.requirement.value;
       && action.tool == call.name && action.summary == r.describes
       && (action.risk, action.reason)
          == (if r.resource.Process? && call.name == "shell" then w.shellRisk(r.describes) else RiskOf(r))
       && exists now: nat ::
            && action.targets == (match w.targets(now, call) case Some(found) => found case None => [])
            && action.undo == w.undo(now, call) && action.confinement == w.confinement(now, call)
  }

  predicate MayRun(p: Prepared, e: Evidence, ran: Prepared) {
    match p.requirement
    case None => ran == p
    case Some(r) =>
      Covered(p, e) && ResolvedAndGranted(r, e) && e.approved && e.asked == Some(ran) && ran == Actual(p, e)
  }

  function Shown(o: ToolOutcome): string {
    if o.truncated then o.content + "\n[output truncated]" else o.content
  }

  /** Text of a success may be shown: the path still resolves inside the grants, and the bytes fit the bound. */
  predicate MayShow(p: Prepared, target: Resource, o: ToolOutcome, e: Evidence) {
    p.requirement.Some? ==>
      var r := p.requirement.value;
      && e.withheld.None? && ResolvedAndGranted(r, e)
      && (r.bytes.None? && o.bytesMoved.Some? ==>
            && |e.caps| == 1 && e.caps[0].0 == target && e.caps[0].1 == r.action
            && (e.caps[0].2.Some? ==> o.bytesMoved.value <= e.caps[0].2.value))
  }

  predicate Names(p: Prepared, path: string) {
    p.requirement.Some? && p.requirement.value.resource == FsPath(path)
  }

  /** The host resolved the named path to this one, and the capability did not grant that. */
  predicate LeadsOutside(p: Prepared, e: Evidence, path: string, canonical: string) {
    && Names(p, path) && e.paths == [(path, Some(canonical))] && e.withheld.Some?
    && var (resource, action, bytes, _) := e.withheld.value;
       (resource, action, bytes) == (FsPath(canonical), p.requirement.value.action, p.requirement.value.bytes)
  }

  predicate Lands(p: Prepared, landed: bool) {
    p.requirement.Some? && landed == IsMutating(p.requirement.value.action)
  }

  /**
   * A refusal says why the open call stands where it does, and everything it names was part of that: in particular,
   * once a tool succeeded, nothing but a path or two numbers.
   */
  predicate Explains(g: Gate, r: Refusal) {
    match r
    case CannotPrepare(name, error) => g.Opened? && name == g.call.name && g.failure == Some(error)
    case NotCovered(reason) =>
      && g.Judging? && g.prepared.requirement.Some? && g.seen.paths == []
      && var r := g.prepared.requirement.value; g.seen.withheld == Some((r.resource, r.action, r.bytes, reason))
    case Escapes(path, canonical) => g.Judging? && LeadsOutside(g.prepared, g.seen, path, canonical)
    case ByPolicy(why) => g.Judging? && g.seen.denied == Some(why)
    case ByApprover(who, resolution) =>
      && g.Judging? && g.seen.answer.Some? && g.seen.answer.value.who == who
      && g.seen.settled == Some(resolution) && !resolution.Approved?
    case BadArguments(message) => g.Ran? && g.outcome == Failure(Arguments(message))
    case CouldNotAct(message) => g.Ran? && g.outcome == Failure(Unavailable(message))
    case Moved(path, canonical, landed) =>
      && g.Ran? && g.outcome.Success? && g.outcome.value.ok
      && LeadsOutside(g.prepared, g.seen, path, canonical) && Lands(g.prepared, landed)
    case OverBound(moved, cap, landed) =>
      && g.Ran? && g.outcome.Success? && g.outcome.value.ok && g.outcome.value.bytesMoved == Some(moved)
      && Lands(g.prepared, landed) && moved > cap
      && g.seen.caps == [(g.target, g.prepared.requirement.value.action, Some(cap))]
  }

  /** The tool ran, and nothing found afterwards takes its text back. */
  predicate Passed(g: Gate) {
    && g.Ran? && g.outcome.Success?
    && (g.outcome.value.ok ==> MayShow(g.prepared, g.target, g.outcome.value, g.seen))
  }

  /** What enters the transcript as the answer to the open call: the tool's own report if it passed, else a refusal. */
  ghost predicate MayDeliver(w: World, g: Gate, ok: bool, content: string) {
    if Passed(g) then ok == g.outcome.value.ok && content == Shown(g.outcome.value)
    else !ok && exists r: Refusal :: Explains(g, r) && content == w.wording(r)
  }

  function Note(g: Gate, e: Evidence): Gate
    requires g.Judging? || g.Ran?
  {
    match g
    case Judging(call, prepared, _) => Judging(call, prepared, e)
    case Ran(call, prepared, target, outcome, _) => Ran(call, prepared, target, outcome, e)
  }

  ghost function GateEvent(g: Gate, event: Event): Gate {
    match event
    case UsageReported(input, output) =>
      if g.Closed? && g.said.Some? && g.said.value.usage.input == input && g.said.value.usage.output == output
      then g else Violated
    case TextDelta(text) =>
      if g.Closed? && g.said.Some? && TextOf(g.said.value.message) == text != "" then g else Violated
    case ToolCallStarted(call) => if g == Closed(None) then Opened(call, None) else Violated
    case ToolCallFinished(id, ok, summary) =>
      if g.Delivered? && g.call.id == id && g.ok == ok && g.content == summary then Closed(None) else Violated
    case ApprovalRequested(approval, id, reason, targets) =>
      if g.Judging? && g.call.id == id && g.seen.prompt.Some?
         && g.seen.prompt.value.0.id == approval && g.seen.prompt.value.0.reason == reason
         && g.seen.prompt.value.1.targets == targets then g else Violated
    case ApprovalResolved(_, approved, _) => if g.Judging? && approved == g.seen.approved then g else Violated
    case _ => if g == Closed(None) then g else Violated
  }

  /** Capability and host are consulted before anyone is asked, and again after the tool ran; never past a refusal. */
  predicate MayLook(g: Gate) {
    (g.Judging? || g.Ran?) && g.seen.asked.None? && g.seen.withheld.None?
  }

  ghost function GateStep(w: World, g: Gate, step: Step): Gate {
    match step
    case Emitted(event) => GateEvent(g, event)
    case CallPrepared(call, prepared) =>
      if g != Opened(call, None) then Violated
      else (match prepared
            case Success(p) => Judging(call, p, NO_EVIDENCE)
            case Failure(error) => Opened(call, Some(error)))
    case CapabilityAsked(resource, action, bytes, decision) =>
      if !MayLook(g) then Violated
      else (match decision
            case Granted => Note(g, g.seen.(granted := g.seen.granted + {(resource, action, bytes)}))
            case Withheld(reason) => Note(g, g.seen.(withheld := Some((resource, action, bytes, reason)))))
    case PathResolved(path, canonical) =>
      if !MayLook(g) then Violated
      else Note(g, g.seen.(paths := g.seen.paths + [(path, canonical)]))
    case PolicyDecided(action, verdict) =>
      // A withheld capability is never put to anyone, and the question is about the call that will run.
      if !(g.Judging? && g.seen.asked.None? && g.prepared.requirement.Some? && Covered(g.prepared, g.seen)
           && ResolvedAndGranted(g.prepared.requirement.value, g.seen)
           && AsksAbout(w, Actual(g.prepared, g.seen), action)) then Violated
      else
        var e := g.seen.(asked := Some(Actual(g.prepared, g.seen)));
        (match verdict
         case Allowed => Note(g, e.(approved := true))
         case Denied(why) => Note(g, e.(denied := Some(why)))
         case Ask(request) => Note(g, e.(prompt := Some((request, action)))))
    case ApproverAnswered(prompt, about, answer) =>
      if g.Judging? && g.seen.prompt == Some((prompt, about)) && g.seen.answer.None?
      then Note(g, g.seen.(answer := Some(answer))) else Violated
    case ApprovalSettled(id, resolution) =>
      if g.Judging? && g.seen.prompt.Some? && g.seen.prompt.value.0.id == id && g.seen.answer.Some?
         && resolution == (if g.seen.answer.value.option == Deny then Rejected else Approved)
      then Note(g, g.seen.(settled := Some(resolution), approved := resolution.Approved?)) else Violated
    case ToolRan(ran, outcome) =>
      if g.Judging? && MayRun(g.prepared, g.seen, ran)
      then Ran(g.call, g.prepared,
               if g.prepared.requirement.Some? then Target(g.prepared.requirement.value, g.seen) else Process,
               outcome, NO_EVIDENCE)
      else Violated
    case ByteCapRead(resource, action, cap) =>
      if g.Ran? then Note(g, g.seen.(caps := g.seen.caps + [(resource, action, cap)])) else Violated
    case ModelAsked(_, reply) =>
      if g != Closed(None) then Violated
      else if reply.Answered? then Closed(Some(reply.response)) else g
    case SinkTold(_, _) => g
    case Pushed(m) =>
      if g.Closed? then (if g.said.Some? && g.said.value.message == m then Closed(None) else Violated)
      else if (g.Opened? || g.Judging? || g.Ran?)
              && m.role == Tool && |m.parts| == 1 && m.parts[0].ToolResult? && m.parts[0].id == g.call.id
              && MayDeliver(w, g, m.parts[0].ok, m.parts[0].content)
      then Delivered(g.call, m.parts[0].ok, m.parts[0].content)
      else Violated
    case _ => if g.Closed? then g else Violated
  }

  // ------------------------------------------------------------------ the calls still due

  /**
   * The calls of the latest answer that are not yet announced, from when the answer enters the transcript: each call
   * announced is the next of them, and none is left when the model is asked again, a turn starts, or the run ends.
   * `None` is the failed state.
   */
  function DueStep(g: Gate, due: Option<seq<Call>>, step: Step): Option<seq<Call>> {
    match step
    case Pushed(m) => if g.Closed? then (if due == Some([]) then Some(ToolCallsOf(m)) else None) else due
    case Emitted(ToolCallStarted(call)) =>
      if due.Some? && due.value != [] && due.value[0] == call then Some(due.value[1..]) else None
    case Emitted(TurnStarted(_)) => if due == Some([]) then due else None
    case Emitted(TurnFinished(_, _)) => if due == Some([]) then due else None
    case ModelAsked(_, _) => if due == Some([]) then due else None
    case _ => due
  }

  // ------------------------------------------------------------------ store, counts, requests

  datatype Store = Agree | Ahead(message: Message) | Halted | Disagree

  /** With a sink, a message is pushed exactly when the sink has just accepted it, and a refusal is the last step. */
  function StoreStep(hasSink: bool, s: Store, step: Step): Store {
    match step
    case SinkTold(m, accepted) =>
      if s.Agree? && hasSink then (if accepted then Ahead(m) else Halted) else Disagree
    case Pushed(m) => if s == (if hasSink then Ahead(m) else Agree) then Agree else Disagree
    case _ => if s.Agree? then s else Disagree
  }

  // `passed` counts the results whose tool ran and was not taken back, `revoked` those whose tool ran and was.
  datatype Counts = Counts(
    answered: nat, used: Usage, finished: nat, succeeded: nat, results: nat, ran: nat, passed: nat, revoked: nat)

  const NO_COUNTS := Counts(0, Usage(0, 0, 0, 0), 0, 0, 0, 0, 0, 0)

  predicate IsResult(m: Message) {
    MessageResults(m) != {}
  }

  function CountStep(n: Counts, g: Gate, step: Step): Counts {
    match step
    case ModelAsked(_, Answered(response)) => n.(answered := n.answered + 1, used := AddUsage(n.used, response.usage))
    case Emitted(ToolCallFinished(_, ok, _)) =>
      n.(finished := n.finished + 1, succeeded := n.succeeded + if ok then 1 else 0)
    case Pushed(m) =>
      n.(results := n.results + (if IsResult(m) then 1 else 0),
         passed := n.passed + (if Passed(g) then 1 else 0),
         revoked := n.revoked + (if g.Ran? && !Passed(g) then 1 else 0))
    case ToolRan(_, _) => n.(ran := n.ran + 1)
    case _ => n
  }

  /** Turns are numbered by the answers so far, and there are no more of them than the run may take. */
  predicate Numbered(c: Config, n: Counts, step: Step) {
    match step
    case Emitted(TurnStarted(turn)) => turn == n.answered + 1 <= c.maxTurns
    case Emitted(TurnFinished(turn, stop)) => turn == n.answered + if stop.BudgetExhausted? then 1 else 0
    case _ => true
  }

  /** A request is the view of the transcript as it stands, and that transcript is whole and in order. */
  predicate RequestFits(x: Setup, transcript: seq<Message>, request: ChatRequest) {
    && request.messages == MessagesFor(x.c.facts, transcript)
    && request.system == x.c.facts.system && request.tools == x.c.facts.tools
    && request.maxTokens == x.c.facts.maxTokens
    && PairComplete(transcript) && ResultsFollowCalls(transcript)
  }

  // ------------------------------------------------------------------ all observers at once

  datatype Watch = Watch(
    bracket: Bracket, gate: Gate, due: Option<seq<Call>>, store: Store, pushed: seq<Message>,
    counts: Counts, numbered: bool, fits: bool)

  ghost function WatchStep(x: Setup, v: Watch, step: Step): Watch {
    Watch(
      BracketStep(x.c, v.bracket, step),
      GateStep(x.w, v.gate, step),
      DueStep(v.gate, v.due, step),
      StoreStep(x.c.hasSink, v.store, step),
      if step.Pushed? then v.pushed + [step.message] else v.pushed,
      CountStep(v.counts, v.gate, step),
      v.numbered && Numbered(x.c, v.counts, step),
      v.fits && (step.ModelAsked? ==> RequestFits(x, x.start + v.pushed, step.request)))
  }

  ghost function Observe(x: Setup, h: seq<Step>): Watch {
    if h == [] then Watch(Ready, Closed(None), Some([]), Agree, [], NO_COUNTS, true, true)
    else WatchStep(x, Observe(x, h[..|h| - 1]), h[|h| - 1])
  }

  lemma ObserveOneMore(x: Setup, h: seq<Step>, step: Step)
    ensures Observe(x, h + [step]) == WatchStep(x, Observe(x, h), step)
  {
    assert (h + [step])[..|h|] == h;
  }
}
