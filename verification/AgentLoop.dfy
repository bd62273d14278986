/** The agent loop as it runs: state updated in place, proved to do what the functions of AgentSpec say. */
module AgentLoop {
  import opened Wrappers
  import opened Messages
  import opened Context
  import opened Approval
  import opened AgentWorld
  import opened AgentMonitor
  import Spec = AgentSpec
  import Compaction

  class AgentLoop {
    const x: Setup
    var transcript: seq<Message>
    var history: seq<Step>
    var outstanding: Option<string>

    constructor (config: Config, world: World, start: seq<Message>)
      ensures x == Setup(config, world, start) && State() == Spec.Begin(x)
    {
      x := Setup(config, world, start);
      transcript := start;
      history := [];
      outstanding := None;
    }

    function State(): Spec.LoopState
      reads this
    {
      Spec.LoopState(transcript, history, outstanding)
    }

    method Tell(step: Step)
      modifies this
      ensures State() == Spec.Tell(old(State()), step)
    {
      history := history + [step];
    }

    method Emit(e: Event)
      modifies this
      ensures State() == Spec.Emit(old(State()), e)
    {
      Tell(Emitted(e));
    }

    /** Store before transcript: what the store refuses is never pushed. */
    method Append(m: Message) returns (error: Option<string>)
      modifies this
      ensures (State(), error) == Spec.Append(x, old(State()), m)
    {
      error := None;
      if x.c.hasSink {
        error := x.w.store(|history|, m);
        Tell(SinkTold(m, error.None?));
        if error.Some? {
          return;
        }
      }
      Tell(Pushed(m));
      transcript := transcript + [m];
    }

    method AskCapability(now: nat, resource: Resource, action: Action, bytes: Option<nat>) returns (d: Decision)
      modifies this
      ensures (State(), d) == Spec.AskCapability(x, old(State()), now, resource, action, bytes)
    {
      d := x.w.capability(now, resource, action, bytes);
      Tell(CapabilityAsked(resource, action, bytes, d));
    }

    method ResolvePath(path: string) returns (canonical: Option<string>)
      modifies this
      ensures (State(), canonical) == Spec.ResolvePath(x, old(State()), path)
    {
      canonical := x.w.canonicalize(|history|, path);
      Tell(PathResolved(path, canonical));
    }

    method Clear(call: Prepared) returns (result: Result<Spec.Clearance, Refusal>)
      modifies this
      ensures (State(), result) == Spec.Clear(x, old(State()), call)
    {
      var prepared := call;
      var enforced: Option<(Resource, Action)> := None;
      var preOpen: Option<(string, Action, Option<nat>)> := None;
      if call.requirement.Some? {
        var r := call.requirement.value;
        var now := |history|;
        var d := AskCapability(now, r.resource, r.action, r.bytes);
        if d.Withheld? {
          return Failure(NotCovered(d.reason));
        }
        enforced := Some((r.resource, r.action));
        if r.resource.FsPath? {
          preOpen := Some((r.resource.path, r.action, r.bytes));
          var canonical := ResolvePath(r.resource.path);
          if canonical.Some? {
            var again := AskCapability(now, FsPath(canonical.value), r.action, r.bytes);
            if again.Withheld? {
              return Failure(Escapes(r.resource.path, canonical.value));
            }
            if canonical.value != r.resource.path {
              prepared := SetPath(prepared, canonical.value);
              enforced := Some((FsPath(canonical.value), r.action));
            }
          }
        }
      }
      result := Success(Spec.Clearance(prepared, enforced, preOpen));
    }

    method SeekApproval(id: CallId, call: Prepared) returns (refusal: Option<Refusal>)
      modifies this
      ensures (State(), refusal) == Spec.SeekApproval(x, old(State()), id, call)
    {
      if call.requirement.None? {
        return None;
      }
      var action := Spec.ActionFor(x, |history|, call, call.requirement.value);
      var verdict := x.w.policy(|history|, action);
      Tell(PolicyDecided(action, verdict));
      match verdict {
        case Allowed => return None;
        case Denied(why) => return Some(ByPolicy(why));
        case Ask(request) =>
          outstanding := Some(request.id);
          Emit(ApprovalRequested(request.id, id, request.reason, action.targets));
          var answer := x.w.approver(|history|, request, action);
          Tell(ApproverAnswered(request, action, answer));
          var resolution := Resolve(outstanding, request.id, answer.option);
          Tell(ApprovalSettled(request.id, resolution));
          if !resolution.Mismatched? {
            outstanding := None;
          }
          Emit(ApprovalResolved(request.id, resolution.Approved?, answer.who));
          return if resolution.Approved? then None else Some(ByApprover(answer.who, resolution));
      }
    }

    method CheckAfterOpen(preOpen: Option<(string, Action, Option<nat>)>) returns (refusal: Option<Refusal>)
      modifies this
      ensures (State(), refusal) == Spec.CheckAfterOpen(x, old(State()), preOpen)
    {
      refusal := None;
      if preOpen.Some? {
        var (path, action, bytes) := preOpen.value;
        var canonical := ResolvePath(path);
        if canonical.Some? {
          var d := AskCapability(|history|, FsPath(canonical.value), action, bytes);
          if !d.Granted? {
            refusal := Some(Moved(path, canonical.value, IsMutating(action)));
          }
        }
      }
    }

    method CheckBytes(gate: Option<(Resource, Action)>, moved: Option<nat>) returns (refusal: Option<Refusal>)
      modifies this
      ensures (State(), refusal) == Spec.CheckBytes(x, old(State()), gate, moved)
    {
      refusal := None;
      if gate.Some? && moved.Some? {
        var (resource, action) := gate.value;
        var cap := x.w.maxBytes(|history|, resource, action);
        Tell(ByteCapRead(resource, action, cap));
        if cap.Some? && moved.value > cap.value {
          refusal := Some(OverBound(moved.value, cap.value, IsMutating(action)));
        }
      }
    }

    method RunTool(k: Spec.Clearance) returns (o: Spec.CallOutcome)
      modifies this
      ensures (State(), o) == Spec.RunTool(x, old(State()), k)
    {
      var byteGate := if k.call.requirement.Some? && k.call.requirement.value.bytes.None? then k.enforced else None;
      var outcome := x.w.runTool(|history|, k.call);
      Tell(ToolRan(k.call, outcome));
      match outcome {
        case Failure(Arguments(message)) => return Spec.Refused(BadArguments(message));
        case Failure(Unavailable(message)) => return Spec.Refused(CouldNotAct(message));
        case Success(result) =>
          if result.ok {
            var moved := CheckAfterOpen(k.preOpen);
            if moved.Some? {
              return Spec.Refused(moved.value);
            }
            var over := CheckBytes(byteGate, result.bytesMoved);
            if over.Some? {
              return Spec.Refused(over.value);
            }
          }
          return Spec.Done(result.ok, Shown(result));
      }
    }

    method HandleCall(call: Call) returns (o: Spec.CallOutcome)
      modifies this
      ensures (State(), o) == Spec.HandleCall(x, old(State()), call)
    {
      var prepared := x.w.prepare(|history|, call.name, call.arguments);
      Tell(CallPrepared(call, prepared));
      if prepared.Failure? {
        return Spec.Refused(CannotPrepare(call.name, prepared.error));
      }
      var clearance := Clear(prepared.value);
      if clearance.Failure? {
        return Spec.Refused(clearance.error);
      }
      var refusal := SeekApproval(call.id, clearance.value.call);
      if refusal.Some? {
        return Spec.Refused(refusal.value);
      }
      o := RunTool(clearance.value);
    }

    method ServeCalls(t: Spec.Tally, calls: seq<Call>) returns (tally: Spec.Tally, error: Option<string>)
      modifies this
      ensures (State(), tally, error) == Spec.ServeCalls(x, old(State()), t, calls)
    {
      tally, error := t, None;
      for i := 0 to |calls|
        invariant Spec.ServeCalls(x, old(State()), t, calls) == Spec.ServeCalls(x, State(), tally, calls[i..])
        invariant error == None
      {
        var call := calls[i];
        assert calls[i..][0] == call && calls[i..][1..] == calls[i + 1..];
        Emit(ToolCallStarted(call));
        var o := HandleCall(call);
        var ok, summary := Spec.Ok(o), Spec.Summary(x, o);
        if o.Done? {
          tally := tally.(toolCalls := tally.toolCalls + 1);
        } else {
          tally := tally.(refusals := tally.refusals + 1);
        }
        error := Append(ToolResultMessage(call.id, ok, summary));
        if error.Some? {
          return;
        }
        Emit(ToolCallFinished(call.id, ok, summary));
      }
    }

    method AskModel() returns (reply: Reply)
      modifies this
      ensures (State(), reply) == Spec.AskModel(x, old(State()))
    {
      var model := x.w.modelName(|history|);
      var messages := transcript;
      if x.c.facts.compactAtTokens != 0 {
        var compacted := Compaction.CompactAt(transcript, x.c.facts.compactAtTokens);
        messages := compacted.messages;
      }
      var request := ChatRequest(model, x.c.facts.system, messages, x.c.facts.tools, x.c.facts.maxTokens);
      if x.c.deadline.Some? && x.w.stalls(|history|) {
        reply := TimedOut;
      } else {
        var answer := x.w.complete(|history|, request);
        reply := if answer.Success? then Answered(answer.value) else Failed(answer.error);
      }
      Tell(ModelAsked(request, reply));
    }

    method OutOfBudget(turn: nat, t: Spec.Tally) returns (end: Spec.TurnEnd)
      requires turn > 0
      modifies this
      ensures (State(), end) == Spec.OutOfBudget(old(State()), turn, t)
    {
      Emit(TurnFinished(turn, BudgetExhausted));
      end := Spec.Ended(Success(Spec.RunOutcome(BudgetExhausted, turn - 1, t, LastAssistantText(transcript))));
    }

    method TakeAnswer(t: Spec.Tally, turn: nat, response: ChatResponse) returns (end: Spec.TurnEnd)
      modifies this
      ensures (State(), end) == Spec.TakeAnswer(x, old(State()), t, turn, response)
    {
      var tally := t.(usage := AddUsage(t.usage, response.usage));
      Emit(UsageReported(response.usage.input, response.usage.output));
      var text := RenderText(response.message);
      if text != "" {
        Emit(TextDelta(text));
      }
      var calls := ToolCallsOf(response.message);
      var error := Append(response.message);
      if error.Some? {
        return Spec.Ended(Failure(error.value));
      }
      if calls == [] {
        Emit(TurnFinished(turn, Completed));
        return Spec.Ended(Success(Spec.RunOutcome(Completed, turn, tally, text)));
      }
      tally, error := ServeCalls(tally, calls);
      end := if error.Some? then Spec.Ended(Failure(error.value)) else Spec.Continues(tally);
    }

    method Turn(t: Spec.Tally, turn: nat) returns (end: Spec.TurnEnd)
      requires turn > 0
      modifies this
      ensures (State(), end) == Spec.Turn(x, old(State()), t, turn)
    {
      if x.c.deadline.Some? {
        var elapsed := x.w.elapsed(|history|);
        Tell(DeadlineRead(elapsed));
        if elapsed >= x.c.deadline.value {
          end := OutOfBudget(turn, t);
          return;
        }
      }
      if x.c.budget.Some? {
        var spent := x.w.spent(|history|);
        Tell(SpendRead(spent));
        if spent > x.c.budget.value {
          end := OutOfBudget(turn, t);
          return;
        }
      }
      Emit(TurnStarted(turn));
      var reply := AskModel();
      match reply {
        case TimedOut =>
          end := OutOfBudget(turn, t);
        case Failed(error) =>
          Emit(ErrorRaised(error));
          end := Spec.Ended(Failure(error));
        case Answered(response) =>
          end := TakeAnswer(t, turn, response);
      }
    }

    /** Turn after turn, until one of them ends the run or the last one allowed is over. */
    method Run() returns (result: Result<Spec.RunOutcome, string>)
      modifies this
      ensures (State(), result) == Spec.Turns(x, old(State()), Spec.NOTHING_YET, 1)
    {
      var tally := Spec.NOTHING_YET;
      for turn := 1 to x.c.maxTurns + 1
        invariant Spec.Turns(x, old(State()), Spec.NOTHING_YET, 1) == Spec.Turns(x, State(), tally, turn)
      {
        var end := Turn(tally, turn);
        match end {
          case Ended(outcome) => return outcome;
          case Continues(t) => tally := t;
        }
      }
      Emit(TurnFinished(x.c.maxTurns, MaxTurns));
      result := Success(Spec.RunOutcome(MaxTurns, x.c.maxTurns, tally, LastAssistantText(transcript)));
    }
  }
}
