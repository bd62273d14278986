/** What a run records of the world is what the world answered. */
module AgentTruth {
  import opened Wrappers
  import opened Messages
  import opened Context
  import opened Approval
  import opened AgentWorld
  import opened AgentMonitor
  import opened AgentSpec

  /** What exchange `k` records is what the world answers at `k`. */
  predicate TrueTo(x: Setup, k: nat, step: Step) {
    match step
    case DeadlineRead(elapsed) => x.c.deadline.Some? && elapsed == x.w.elapsed(k)
    case SpendRead(spent) => x.c.budget.Some? && spent == x.w.spent(k)
    case ModelAsked(request, reply) =>
      && request.model == x.w.modelName(k)
      && (match reply
          case TimedOut => x.c.deadline.Some? && x.w.stalls(k)
          case Answered(response) => x.w.complete(k, request) == Success(response)
          case Failed(error) => x.w.complete(k, request) == Failure(error))
    case SinkTold(m, accepted) => accepted <==> x.w.store(k, m).None?
    case CallPrepared(call, prepared) => prepared == x.w.prepare(k, call.name, call.arguments)
    case CapabilityAsked(resource, action, bytes, decision) =>
      // The check of a resolved path is made as of the moment the named path was checked, two exchanges earlier.
      || decision == x.w.capability(k, resource, action, bytes)
      || (k >= 2 && decision == x.w.capability(k - 2, resource, action, bytes))
    case PathResolved(path, canonical) => canonical == x.w.canonicalize(k, path)
    case PolicyDecided(asked, verdict) => verdict == x.w.policy(k, asked)
    case ApproverAnswered(prompt, about, answer) => answer == x.w.approver(k, prompt, about)
    case ToolRan(ran, outcome) => outcome == x.w.runTool(k, ran)
    case ByteCapRead(resource, action, cap) => cap == x.w.maxBytes(k, resource, action)
    case _ => true
  }

  /** From one moment to the next, only true exchanges were added. */
  predicate AddsTruth(x: Setup, s: LoopState, r: LoopState) {
    && s.history <= r.history
    && forall k :: |s.history| <= k < |r.history| ==> TrueTo(x, k, r.history[k])
  }

  lemma TruthAdds(x: Setup, s: LoopState, m: LoopState, r: LoopState)
    requires AddsTruth(x, s, m) && AddsTruth(x, m, r)
    ensures AddsTruth(x, s, r)
  {
    hide TrueTo;
  }

  lemma ClearIsTrue(x: Setup, s: LoopState, call: Prepared)
    ensures AddsTruth(x, s, Clear(x, s, call).0)
  {
  }

  lemma PromptIsTrue(x: Setup, s: LoopState, id: CallId, request: ApprovalRequest, action: ActionRequest)
    ensures AddsTruth(x, s, Prompt(x, s, id, request, action).0)
  {
  }

  lemma ApprovalIsTrue(x: Setup, s: LoopState, id: CallId, call: Prepared)
    ensures AddsTruth(x, s, SeekApproval(x, s, id, call).0)
  {
    hide Prompt;
    if call.requirement.Some? {
      var action := ActionFor(x, Now(s), call, call.requirement.value);
      var verdict := x.w.policy(Now(s), action);
      if verdict.Ask? {
        var s1 := Tell(s, PolicyDecided(action, verdict)).(outstanding := Some(verdict.request.id));
        PromptIsTrue(x, s1, id, verdict.request, action);
        TruthAdds(x, s, s1, Prompt(x, s1, id, verdict.request, action).0);
      }
    }
  }

  lemma ChecksAreTrue(x: Setup, s: LoopState, preOpen: Option<(string, Action, Option<nat>)>,
                      gate: Option<(Resource, Action)>, moved: Option<nat>)
    ensures AddsTruth(x, s, CheckAfterOpen(x, s, preOpen).0)
    ensures AddsTruth(x, s, CheckBytes(x, s, gate, moved).0)
  {
  }

  lemma ExecutionIsTrue(x: Setup, s: LoopState, k: Clearance)
    ensures AddsTruth(x, s, RunTool(x, s, k).0)
  {
    hide CheckAfterOpen, CheckBytes, Shown;
    var outcome := x.w.runTool(Now(s), k.call);
    var s1 := Tell(s, ToolRan(k.call, outcome));
    if outcome.Success? {
      var byteGate := if k.call.requirement.Some? && k.call.requirement.value.bytes.None? then k.enforced else None;
      var s2 := CheckAfterOpen(x, s1, k.preOpen).0;
      ChecksAreTrue(x, s1, k.preOpen, byteGate, None);
      ChecksAreTrue(x, s2, k.preOpen, byteGate, outcome.value.bytesMoved);
      TruthAdds(x, s, s1, s2);
      TruthAdds(x, s, s2, CheckBytes(x, s2, byteGate, outcome.value.bytesMoved).0);
    }
  }

  lemma CallIsTrue(x: Setup, s: LoopState, call: Call)
    ensures AddsTruth(x, s, HandleCall(x, s, call).0)
  {
    hide Clear, SeekApproval, RunTool;
    var prepared := x.w.prepare(Now(s), call.name, call.arguments);
    var s1 := Tell(s, CallPrepared(call, prepared));
    if prepared.Success? {
      var (s2, k) := Clear(x, s1, prepared.value);
      ClearIsTrue(x, s1, prepared.value);
      TruthAdds(x, s, s1, s2);
      if k.Success? {
        var (s3, refusal) := SeekApproval(x, s2, call.id, k.value.call);
        ApprovalIsTrue(x, s2, call.id, k.value.call);
        TruthAdds(x, s, s2, s3);
        ExecutionIsTrue(x, s3, k.value);
        TruthAdds(x, s, s3, RunTool(x, s3, k.value).0);
      }
    }
  }

  lemma AppendIsTrue(x: Setup, s: LoopState, m: Message)
    ensures AddsTruth(x, s, Append(x, s, m).0)
  {
  }

  lemma ServedCallIsTrue(x: Setup, s: LoopState, t: Tally, call: Call)
    ensures AddsTruth(x, s, ServeCall(x, s, t, call).0)
  {
    hide HandleCall, Append;
    var s1 := Emit(s, ToolCallStarted(call));
    var (s2, o) := HandleCall(x, s1, call);
    CallIsTrue(x, s1, call);
    TruthAdds(x, s, s1, s2);
    var m := ToolResultMessage(call.id, Ok(o), Summary(x, o));
    AppendIsTrue(x, s2, m);
    TruthAdds(x, s, s2, Append(x, s2, m).0);
  }

  lemma {:induction false} ServedCallsAreTrue(x: Setup, s: LoopState, t: Tally, calls: seq<Call>)
    ensures AddsTruth(x, s, ServeCalls(x, s, t, calls).0)
    decreases |calls|
  {
    hide ServeCall, TrueTo;
    if calls != [] {
      var (s1, t1, error) := ServeCall(x, s, t, calls[0]);
      ServedCallIsTrue(x, s, t, calls[0]);
      if error.None? {
        ServedCallsAreTrue(x, s1, t1, calls[1..]);
        TruthAdds(x, s, s1, ServeCalls(x, s1, t1, calls[1..]).0);
      }
    }
  }

  lemma AnswerIsTrue(x: Setup, s: LoopState, t: Tally, turn: nat, response: ChatResponse)
    ensures AddsTruth(x, s, TakeAnswer(x, s, t, turn, response).0)
  {
    hide Append, ServeCalls, TextOf, ToolCallsOf;
    var s1 := Emit(s, UsageReported(response.usage.input, response.usage.output));
    var s2 := if TextOf(response.message) == "" then s1 else Emit(s1, TextDelta(TextOf(response.message)));
    var s3 := Append(x, s2, response.message).0;
    AppendIsTrue(x, s2, response.message);
    TruthAdds(x, s, s2, s3);
    var t1 := t.(usage := AddUsage(t.usage, response.usage));
    ServedCallsAreTrue(x, s3, t1, ToolCallsOf(response.message));
    TruthAdds(x, s, s3, ServeCalls(x, s3, t1, ToolCallsOf(response.message)).0);
  }

  lemma AskedTurnIsTrue(x: Setup, s: LoopState, t: Tally, turn: nat)
    requires turn > 0
    ensures AddsTruth(x, s, AskedTurn(x, s, t, turn).0)
  {
    hide TakeAnswer, MessagesFor, LastAssistantText;
    var (s1, reply) := AskModel(x, Emit(s, TurnStarted(turn)));
    if reply.Answered? {
      AnswerIsTrue(x, s1, t, turn, reply.response);
      TruthAdds(x, s, s1, TakeAnswer(x, s1, t, turn, reply.response).0);
    }
  }

  lemma TurnIsTrue(x: Setup, s: LoopState, t: Tally, turn: nat)
    requires turn > 0
    ensures AddsTruth(x, s, Turn(x, s, t, turn).0)
  {
    hide AskedTurn, LastAssistantText;
    var (s1, _) := ReadDeadline(x, s);
    var (s2, _) := ReadSpend(x, s1);
    assert AddsTruth(x, s, s2);
    AskedTurnIsTrue(x, s2, t, turn);
    TruthAdds(x, s, s2, AskedTurn(x, s2, t, turn).0);
  }

  lemma {:induction false} TurnsAreTrue(x: Setup, s: LoopState, t: Tally, turn: nat)
    requires 0 < turn <= x.c.maxTurns + 1
    ensures AddsTruth(x, s, Turns(x, s, t, turn).0)
    decreases x.c.maxTurns + 1 - turn
  {
    hide Turn, LastAssistantText;
    if turn <= x.c.maxTurns {
      var (s1, end) := Turn(x, s, t, turn);
      TurnIsTrue(x, s, t, turn);
      if end.Continues? {
        TurnsAreTrue(x, s1, end.tally, turn + 1);
        TruthAdds(x, s, s1, Turns(x, s1, end.tally, turn + 1).0);
      }
    }
  }

  /** In every run, each exchange on record is what the world answered when it was had. */
  lemma EveryExchangeIsTrue(x: Setup, k: nat)
    requires k < |Run(x).0.history|
    ensures TrueTo(x, k, Run(x).0.history[k])
  {
    hide Turns, TrueTo;
    TurnsAreTrue(x, Begin(x), NOTHING_YET, 1);
  }
}
