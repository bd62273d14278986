/** Risk classes, in escalating order, and the one comparison made between them. */
module Risk {
  datatype RiskClass = Read | Mutate | External | ThirdParty | Destructive | Privileged

  function Rank(r: RiskClass): nat {
    match r
    case Read => 0
    case Mutate => 1
    case External => 2
    case ThirdParty => 3
    case Destructive => 4
    case Privileged => 5
  }

  /** May a surface with this ceiling authorise that risk? */
  predicate Covers(ceiling: RiskClass, risk: RiskClass) {
    Rank(risk) <= Rank(ceiling)
  }

  /** A ceiling covers exactly the classes up to its own, in the order they escalate. */
  lemma CeilingsCoverUpToThemselves(risk: RiskClass)
    ensures Covers(Read, risk) <==> risk == Read
    ensures Covers(Mutate, risk) <==> risk == Read || risk == Mutate
    ensures Covers(External, risk) <==> risk == Read || risk == Mutate || risk == External
    ensures Covers(ThirdParty, risk) <==> risk != Destructive && risk != Privileged
    ensures Covers(Destructive, risk) <==> risk != Privileged
    ensures Covers(Privileged, risk)
  {
  }
}

/** What an approval asks and how it is answered; shared by the loop and the queue. */
module Approval {
  import opened Wrappers
  import opened Risk

  datatype ApprovalOption = AllowOnce | AllowForChat | AllowAlways | Deny

  datatype ActionRequest = ActionRequest(
    tool: string, summary: string, risk: RiskClass, reason: string,
    targets: seq<string>, undo: Option<string>, confinement: string)

  datatype ApprovalRequest = ApprovalRequest(id: string, risk: RiskClass, reason: string, session: Option<string>)

  datatype ApprovalDecision = ApprovalDecision(option: ApprovalOption, who: string)

  datatype Verdict = Allowed | Denied(why: string) | Ask(request: ApprovalRequest)

  datatype Resolution = Approved | Rejected | Mismatched

  /** What an answer does to the prompt it is meant for. */
  function Resolve(outstanding: Option<string>, id: string, option: ApprovalOption): Resolution {
    if outstanding != Some(id) then Mismatched
    else if option == Deny then Rejected
    else Approved
  }
}

/**
 * Everything the agent loop talks to, as answers that may differ at every query: each answer is a function of
 * the number of exchanges so far, so no two queries need agree.
 */
module AgentWorld {
  import opened Wrappers
  import opened Messages
  import opened Context
  import opened Risk
  import opened Approval

  datatype Resource =
    | FsPath(path: string)
    | Host(id: string)
    | Sandbox(id: string)
    | NetworkHost(host: string)
    | Provider(id: string)
    | Secret(name: string)
    | Process

  datatype Action = Read | Write | Execute | Connect | Spawn | Delete | Admin

  predicate IsMutating(a: Action) {
    a == Write || a == Delete || a == Execute || a == Spawn || a == Admin
  }

  datatype Requirement = Requirement(
    resource: Resource, action: Action, describes: string, thirdParty: bool, bytes: Option<nat>)

  // `path` is the call's "path" argument, when it takes one.
  datatype Prepared = Prepared(name: string, arguments: string, path: Option<string>, requirement: Option<Requirement>)

  function SetPath(call: Prepared, canonical: string): Prepared {
    if call.path.Some? then call.(path := Some(canonical)) else call
  }

  datatype ToolOutcome = ToolOutcome(content: string, ok: bool, truncated: bool, bytesMoved: Option<nat>)

  datatype ToolError = Arguments(message: string) | Unavailable(message: string)

  datatype Decision = Granted | Withheld(reason: string)

  datatype Usage = Usage(input: nat, output: nat, cached: nat, reasoning: nat)

  function AddUsage(a: Usage, b: Usage): Usage {
    Usage(a.input + b.input, a.output + b.output, a.cached + b.cached, a.reasoning + b.reasoning)
  }

  datatype ChatResponse = ChatResponse(message: Message, usage: Usage, model: string)

  datatype Reply = Answered(response: ChatResponse) | Failed(error: string) | TimedOut

  datatype StopReason = Completed | MaxTurns | BudgetExhausted

  /** Why a call produced no tool text. It carries names, reasons and counts, never what a successful tool returned. */
  datatype Refusal =
    | CannotPrepare(name: string, error: string)
    | NotCovered(reason: string)
    | Escapes(path: string, canonical: string)
    | ByPolicy(why: string)
    | ByApprover(who: string, resolution: Resolution)
    | Moved(path: string, canonical: string, landed: bool)
    | OverBound(moved: nat, cap: nat, landed: bool)
    | BadArguments(message: string)
    | CouldNotAct(message: string)

  datatype World = World(
    elapsed: nat -> nat,
    spent: nat -> real,
    modelName: nat -> string,
    stalls: nat -> bool,
    complete: (nat, ChatRequest) -> Result<ChatResponse, string>,
    prepare: (nat, string, string) -> Result<Prepared, string>,
    capability: (nat, Resource, Action, Option<nat>) -> Decision,
    maxBytes: (nat, Resource, Action) -> Option<nat>,
    canonicalize: (nat, string) -> Option<string>,
    targets: (nat, Prepared) -> Option<seq<string>>,
    undo: (nat, Prepared) -> Option<string>,
    confinement: (nat, Prepared) -> string,
    shellRisk: string -> (RiskClass, string),
    policy: (nat, ActionRequest) -> Verdict,
    approver: (nat, ApprovalRequest, ActionRequest) -> ApprovalDecision,
    runTool: (nat, Prepared) -> Result<ToolOutcome, ToolError>,
    store: (nat, Message) -> Option<string>,
    wording: Refusal -> string)

  datatype Config = Config(
    maxTurns: nat,
    deadline: Option<nat>,
    budget: Option<real>,
    hasSink: bool,
    facts: ContextFacts)

  datatype Event =
    | TurnStarted(turn: nat)
    | UsageReported(input: nat, output: nat)
    | TextDelta(text: string)
    | ToolCallStarted(call: Call)
    | ApprovalRequested(approval: string, callId: CallId, reason: string, targets: seq<string>)
    | ApprovalResolved(approval: string, approved: bool, who: string)
    | ToolCallFinished(callId: CallId, ok: bool, summary: string)
    | TurnFinished(finished: nat, stop: StopReason)
    | ErrorRaised(message: string)

  /** One exchange between a run and the outside, or one push onto the transcript. */
  datatype Step =
    | Emitted(event: Event)
    | DeadlineRead(elapsed: nat)
    | SpendRead(spent: real)
    | ModelAsked(request: ChatRequest, reply: Reply)
    | SinkTold(message: Message, accepted: bool)
    | Pushed(message: Message)
    | CallPrepared(call: Call, prepared: Result<Prepared, string>)
    | CapabilityAsked(resource: Resource, action: Action, bytes: Option<nat>, decision: Decision)
    | PathResolved(path: string, canonical: Option<string>)
    | PolicyDecided(asked: ActionRequest, verdict: Verdict)
    | ApproverAnswered(prompt: ApprovalRequest, about: ActionRequest, answer: ApprovalDecision)
    | ApprovalSettled(id: string, resolution: Resolution)
    | ToolRan(ran: Prepared, outcome: Result<ToolOutcome, ToolError>)
    | ByteCapRead(capped: Resource, under: Action, cap: Option<nat>)

  /** The class, and the reason for it, of a call that no shell classifier judges. */
  function RiskOf(r: Requirement): (RiskClass, string) {
    match r.resource
    case Process => if r.thirdParty then (ThirdParty, "runs a program the operator did not write")
                    else (Mutate, "runs a process")
    case FsPath(path) => if r.action == Action.Read then (RiskClass.Read, "reads " + path)
                         else if r.action == Delete then (Destructive, "deletes " + path)
                         else (Mutate, "changes " + path)
    case NetworkHost(host) => (External, "reaches " + host + " over the network")
    case Provider(_) => (External, "spends model budget")
    case Secret(_) => (Privileged, "touches a secret")
    case _ => if r.action == Action.Read then (RiskClass.Read, "reads the host") else (Mutate, "acts on the host")
  }

  /** A surface limited to external effects may authorise all but deletions, secrets and programs of third parties. */
  lemma RiskAboveExternal(r: Requirement)
    ensures Covers(External, RiskOf(r).0) <==>
      && !(r.resource.FsPath? && r.action == Delete)
      && !r.resource.Secret?
      && !(r.resource.Process? && r.thirdParty)
  {
  }

  /** The class of every call, resource by resource and action by action. */
  lemma RiskIsByResourceAndAction(r: Requirement)
    ensures var risk := RiskOf(r).0; var onHost := r.resource.Host? || r.resource.Sandbox?;
      && (risk == RiskClass.Read <==> (r.resource.FsPath? || onHost) && r.action == Action.Read)
      && (risk == Destructive <==> r.resource.FsPath? && r.action == Delete)
      && (risk == Privileged <==> r.resource.Secret?)
      && (risk == ThirdParty <==> r.resource.Process? && r.thirdParty)
      && (risk == External <==> r.resource.NetworkHost? || r.resource.Provider?)
      && (risk == Mutate <==>
            || (r.resource.Process? && !r.thirdParty)
            || (r.resource.FsPath? && r.action != Action.Read && r.action != Delete)
            || (onHost && r.action != Action.Read))
  {
  }

  /** Only reading and connecting leave nothing behind. */
  lemma MutatingIsAllButReadingAndConnecting(a: Action)
    ensures IsMutating(a) <==> a != Action.Read && a != Connect
  {
  }
}
