/** What every run keeps, for every configuration, world and starting transcript. */
module AgentTheorems {
  import opened Wrappers
  import opened Messages
  import opened Context
  import opened Approval
  import opened AgentWorld
  import opened AgentMonitor
  import opened AgentSpec

  ghost function Seen(x: Setup, s: LoopState): Watch {
    Observe(x, s.history)
  }

  /** Between two moments inside one call, nothing but the gate has moved. */
  ghost predicate OnlyTheGate(v: Watch, r: Watch) {
    r == v.(gate := r.gate)
  }

  function OneMoreRan(n: Counts): Counts {
    n.(ran := n.ran + 1)
  }

  // ------------------------------------------------------------------ one call

  ghost predicate Unasked(e: Evidence) {
    e.asked.None? && e.denied.None? && e.prompt.None? && e.answer.None? && e.settled.None? && !e.approved
  }

  /** What a clearance says of the evidence it rests on. */
  ghost predicate Rests(p: Prepared, e: Evidence, k: Clearance) {
    match p.requirement
    case None => k == Clearance(p, None, None)
    case Some(r) =>
      && Covered(p, e) && ResolvedAndGranted(r, e)
      && k == Clearance(
           Actual(p, e),
           Some((Target(r, e), r.action)),
           if r.resource.FsPath? then Some((r.resource.path, r.action, r.bytes)) else None)
  }

  /** The exchanges that only the gate watches. */
  predicate ForTheGate(step: Step) {
    || step.CallPrepared? || step.CapabilityAsked? || step.PathResolved?
    || step.PolicyDecided? || step.ToolRan? || step.ByteCapRead?
  }

  lemma GateMoves(x: Setup, s: LoopState, step: Step)
    requires ForTheGate(step) && Seen(x, s).bracket.InCall? && Seen(x, s).store.Agree?
    ensures var r := Tell(s, step);
      && Seen(x, r).gate == GateStep(x.w, Seen(x, s).gate, step)
      && Seen(x, r) == Seen(x, s).(gate := Seen(x, r).gate,
           counts := if step.ToolRan? then OneMoreRan(Seen(x, s).counts) else Seen(x, s).counts)
  {
    ObserveOneMore(x, s.history, step);
  }

  /** Looking up a path adds what was found to the evidence, and moves nothing else. */
  lemma PathIsSeen(x: Setup, s: LoopState, path: string, canonical: Option<string>)
    requires Seen(x, s).bracket.InCall? && Seen(x, s).store.Agree? && MayLook(Seen(x, s).gate)
    ensures var g := Seen(x, s).gate;
      Seen(x, Tell(s, PathResolved(path, canonical)))
      == Seen(x, s).(gate := Note(g, g.seen.(paths := g.seen.paths + [(path, canonical)])))
  {
    hide Observe, MayDeliver, AsksAbout, MayRun;
    GateMoves(x, s, PathResolved(path, canonical));
  }

  lemma DecisionIsSeen(x: Setup, s: LoopState, resource: Resource, action: Action, bytes: Option<nat>, d: Decision)
    requires Seen(x, s).bracket.InCall? && Seen(x, s).store.Agree? && MayLook(Seen(x, s).gate)
    ensures var g := Seen(x, s).gate;
      Seen(x, Tell(s, CapabilityAsked(resource, action, bytes, d)))
      == Seen(x, s).(gate := Note(g, match d
           case Granted => g.seen.(granted := g.seen.granted + {(resource, action, bytes)})
           case Withheld(reason) => g.seen.(withheld := Some((resource, action, bytes, reason)))))
  {
    hide Observe, MayDeliver, AsksAbout, MayRun;
    GateMoves(x, s, CapabilityAsked(resource, action, bytes, d));
  }

  lemma ClearIsSeen(x: Setup, s: LoopState, call: Call, p: Prepared)
    requires Seen(x, s).bracket.InCall? && Seen(x, s).store.Agree?
    requires Seen(x, s).gate == Judging(call, p, NO_EVIDENCE)
    ensures var (r, k) := Clear(x, s, p);
      && r.transcript == s.transcript && OnlyTheGate(Seen(x, s), Seen(x, r))
      && Seen(x, r).gate.Judging? && Seen(x, r).gate.call == call && Seen(x, r).gate.prepared == p
      && Unasked(Seen(x, r).gate.seen)
      && (k.Success? ==> Rests(p, Seen(x, r).gate.seen, k.value))
      && (k.Failure? ==> Explains(Seen(x, r).gate, k.error))
  {
    hide Observe, GateStep;
    if p.requirement.Some? {
      var r := p.requirement.value;
      var (s1, d) := AskCapability(x, s, Now(s), r.resource, r.action, r.bytes);
      DecisionIsSeen(x, s, r.resource, r.action, r.bytes, d);
      if d.Granted? && r.resource.FsPath? {
        var (s2, canonical) := ResolvePath(x, s1, r.resource.path);
        PathIsSeen(x, s1, r.resource.path, canonical);
        if canonical.Some? {
          var (s3, again) := AskCapability(x, s2, Now(s), FsPath(canonical.value), r.action, r.bytes);
          DecisionIsSeen(x, s2, FsPath(canonical.value), r.action, r.bytes, again);
        }
      }
    }
  }

  lemma ApprovalIsSeen(x: Setup, s: LoopState, call: Call, p: Prepared, k: Clearance)
    requires Seen(x, s).bracket == InCall(call.id) && Seen(x, s).store.Agree?
    requires Seen(x, s).gate.Judging? && Seen(x, s).gate.call == call && Seen(x, s).gate.prepared == p
    requires Unasked(Seen(x, s).gate.seen) && Rests(p, Seen(x, s).gate.seen, k)
    ensures var (r, refusal) := SeekApproval(x, s, call.id, k.call);
      && r.transcript == s.transcript && OnlyTheGate(Seen(x, s), Seen(x, r))
      && Seen(x, r).gate.Judging? && Seen(x, r).gate.call == call && Seen(x, r).gate.prepared == p
      && Rests(p, Seen(x, r).gate.seen, k)
      && (refusal.None? && p.requirement.Some? ==>
            Seen(x, r).gate.seen.approved && Seen(x, r).gate.seen.asked == Some(k.call))
      && (refusal.Some? ==> Explains(Seen(x, r).gate, refusal.value))
  {
    hide Observe, GateStep, AsksAbout, ActionFor, LeadsOutside;
    if k.call.requirement.Some? {
      var action := ActionFor(x, Now(s), k.call, k.call.requirement.value);
      var verdict := x.w.policy(Now(s), action);
      var s1 := Tell(s, PolicyDecided(action, verdict));
      PolicyIsSeen(x, s, call, p, k);
      if verdict.Ask? {
        PromptIsSeen(x, s1.(outstanding := Some(verdict.request.id)), call, verdict.request, action);
      }
    }
  }

  /** The policy is asked about the call as it will run, and its verdict is noted. */
  lemma PolicyIsSeen(x: Setup, s: LoopState, call: Call, p: Prepared, k: Clearance)
    requires Seen(x, s).bracket == InCall(call.id) && Seen(x, s).store.Agree?
    requires Seen(x, s).gate.Judging? && Seen(x, s).gate.call == call && Seen(x, s).gate.prepared == p
    requires Unasked(Seen(x, s).gate.seen) && Rests(p, Seen(x, s).gate.seen, k) && k.call.requirement.Some?
    ensures var action := ActionFor(x, Now(s), k.call, k.call.requirement.value);
      var verdict := x.w.policy(Now(s), action); var v := Seen(x, s);
      var e := v.gate.seen.(asked := Some(k.call));
      Seen(x, Tell(s, PolicyDecided(action, verdict))) == v.(gate := Judging(call, p,
        match verdict
        case Allowed => e.(approved := true)
        case Denied(why) => e.(denied := Some(why))
        case Ask(request) => e.(prompt := Some((request, action)))))
  {
    hide Observe, MayDeliver, MayRun;
    var action := ActionFor(x, Now(s), k.call, k.call.requirement.value);
    GateMoves(x, s, PolicyDecided(action, x.w.policy(Now(s), action)));
  }

  lemma QuestionIsSeen(x: Setup, s: LoopState, id: CallId, request: ApprovalRequest, action: ActionRequest)
    requires Seen(x, s).bracket == InCall(id) && Seen(x, s).store.Agree?
    requires Seen(x, s).gate.Judging? && Seen(x, s).gate.call.id == id
    requires Seen(x, s).gate.seen.prompt == Some((request, action))
    ensures Seen(x, Emit(s, ApprovalRequested(request.id, id, request.reason, action.targets)))
            == Seen(x, s).(bracket := Asking(id, request.id))
  {
    ObserveOneMore(x, s.history, Emitted(ApprovalRequested(request.id, id, request.reason, action.targets)));
  }

  lemma AnswerIsSeen(x: Setup, s: LoopState, request: ApprovalRequest, action: ActionRequest, answer: ApprovalDecision)
    requires Seen(x, s).bracket.Asking? && Seen(x, s).bracket.approval == request.id && Seen(x, s).store.Agree?
    requires Seen(x, s).gate.Judging?
    requires var e := Seen(x, s).gate.seen; e.prompt == Some((request, action)) && e.answer.None?
    ensures Seen(x, Tell(s, ApproverAnswered(request, action, answer)))
            == Seen(x, s).(gate := Note(Seen(x, s).gate, Seen(x, s).gate.seen.(answer := Some(answer))))
  {
    ObserveOneMore(x, s.history, ApproverAnswered(request, action, answer));
  }

  lemma SettlementIsSeen(x: Setup, s: LoopState, id: string, resolution: Resolution)
    requires Seen(x, s).bracket.Asking? && Seen(x, s).bracket.approval == id && Seen(x, s).store.Agree?
    requires Seen(x, s).gate.Judging?
    requires var e := Seen(x, s).gate.seen;
      && e.prompt.Some? && e.prompt.value.0.id == id && e.answer.Some?
      && resolution == (if e.answer.value.option == Deny then Rejected else Approved)
    ensures Seen(x, Tell(s, ApprovalSettled(id, resolution)))
            == Seen(x, s).(gate := Note(Seen(x, s).gate, Seen(x, s).gate.seen.(
                 settled := Some(resolution), approved := resolution.Approved?)))
  {
    ObserveOneMore(x, s.history, ApprovalSettled(id, resolution));
  }

  lemma ResolutionIsSeen(x: Setup, s: LoopState, id: string, approved: bool, who: string)
    requires Seen(x, s).bracket.Asking? && Seen(x, s).bracket.approval == id && Seen(x, s).store.Agree?
    requires Seen(x, s).gate.Judging? && Seen(x, s).gate.seen.approved == approved
    ensures Seen(x, Emit(s, ApprovalResolved(id, approved, who)))
            == Seen(x, s).(bracket := InCall(Seen(x, s).bracket.id))
  {
    ObserveOneMore(x, s.history, Emitted(ApprovalResolved(id, approved, who)));
  }

  lemma PromptIsSeen(x: Setup, s: LoopState, call: Call, request: ApprovalRequest, action: ActionRequest)
    requires Seen(x, s).bracket == InCall(call.id) && Seen(x, s).store.Agree?
    requires Seen(x, s).gate.Judging? && Seen(x, s).gate.call == call && s.outstanding == Some(request.id)
    requires var e := Seen(x, s).gate.seen; e.prompt == Some((request, action)) && e.answer.None?
    ensures var (r, resolution, who) := Prompt(x, s, call.id, request, action);
      && r.transcript == s.transcript
      && resolution == (if x.w.approver(Now(s) + 1, request, action).option == Deny then Rejected else Approved)
      && Seen(x, r) == Seen(x, s).(gate := Note(Seen(x, s).gate, Seen(x, s).gate.seen.(
           answer := Some(x.w.approver(Now(s) + 1, request, action)),
           settled := Some(resolution), approved := resolution.Approved?)))
      && who == x.w.approver(Now(s) + 1, request, action).who
  {
    hide Observe;
    var s2 := Emit(s, ApprovalRequested(request.id, call.id, request.reason, action.targets));
    QuestionIsSeen(x, s, call.id, request, action);
    var answer := x.w.approver(Now(s2), request, action);
    var s3 := Tell(s2, ApproverAnswered(request, action, answer));
    AnswerIsSeen(x, s2, request, action, answer);
    var resolution := Resolve(s.outstanding, request.id, answer.option);
    var s4 := Tell(s3, ApprovalSettled(request.id, resolution));
    SettlementIsSeen(x, s3, request.id, resolution);
    ResolutionIsSeen(x, s4.(outstanding := None), request.id, resolution.Approved?, answer.who);
  }

  lemma OpeningIsSeen(x: Setup, s: LoopState, r: Requirement)
    requires Seen(x, s).bracket.InCall? && Seen(x, s).store.Agree?
    requires Seen(x, s).gate.Ran? && Seen(x, s).gate.seen == NO_EVIDENCE
    requires Seen(x, s).gate.prepared.requirement == Some(r)
    requires Seen(x, s).gate.outcome.Success? && Seen(x, s).gate.outcome.value.ok
    ensures var preOpen := if r.resource.FsPath? then Some((r.resource.path, r.action, r.bytes)) else None;
      var (s1, refusal) := CheckAfterOpen(x, s, preOpen);
      && s1.transcript == s.transcript && OnlyTheGate(Seen(x, s), Seen(x, s1))
      && Seen(x, s1).gate.Ran? && Seen(x, s1).gate == Note(Seen(x, s).gate, Seen(x, s1).gate.seen)
      && Seen(x, s1).gate.seen.caps == []
      && (refusal.None? <==> Seen(x, s1).gate.seen.withheld.None?)
      && (refusal.Some? ==> Explains(Seen(x, s1).gate, refusal.value))
      && (refusal.None? ==> ResolvedAndGranted(r, Seen(x, s1).gate.seen))
  {
    hide Observe, GateStep;
    if r.resource.FsPath? {
      var (s1, canonical) := ResolvePath(x, s, r.resource.path);
      PathIsSeen(x, s, r.resource.path, canonical);
      if canonical.Some? {
        var d := x.w.capability(Now(s1), FsPath(canonical.value), r.action, r.bytes);
        DecisionIsSeen(x, s1, FsPath(canonical.value), r.action, r.bytes, d);
      }
    }
  }

  lemma BytesAreSeen(x: Setup, s: LoopState, target: Resource, action: Action, moved: Option<nat>)
    requires Seen(x, s).bracket.InCall? && Seen(x, s).store.Agree?
    requires Seen(x, s).gate.Ran? && Seen(x, s).gate.seen.caps == [] && Seen(x, s).gate.target == target
    requires var p := Seen(x, s).gate.prepared; p.requirement.Some? && p.requirement.value.action == action
    requires var o := Seen(x, s).gate.outcome; o.Success? && o.value.ok && o.value.bytesMoved == moved
    ensures var (s1, refusal) := CheckBytes(x, s, Some((target, action)), moved);
      && s1.transcript == s.transcript && OnlyTheGate(Seen(x, s), Seen(x, s1))
      && Seen(x, s1).gate.Ran?
      && Seen(x, s1).gate == Note(Seen(x, s).gate, Seen(x, s).gate.seen.(caps := Seen(x, s1).gate.seen.caps))
      && (moved.None? ==> refusal.None?)
      && (refusal.Some? ==> Explains(Seen(x, s1).gate, refusal.value))
      && (moved.Some? ==>
            && |Seen(x, s1).gate.seen.caps| == 1
            && var cap := Seen(x, s1).gate.seen.caps[0];
               && cap.0 == target && cap.1 == action
               && (refusal.None? <==> (cap.2.Some? ==> moved.value <= cap.2.value)))
  {
    if moved.Some? {
      GateMoves(x, s, ByteCapRead(target, action, x.w.maxBytes(Now(s), target, action)));
    }
  }

  lemma SuccessIsSeen(x: Setup, s: LoopState, s1: LoopState, call: Call, p: Prepared, k: Clearance,
                      target: Resource, out: ToolOutcome)
    requires s1 == Tell(s, ToolRan(k.call, Success(out))) && x.w.runTool(Now(s), k.call) == Success(out) && out.ok
    requires Seen(x, s1).bracket == InCall(call.id) && Seen(x, s1).store.Agree?
    requires Seen(x, s1).gate == Ran(call, p, target, Success(out), NO_EVIDENCE)
    requires k.call.requirement == p.requirement
    requires match p.requirement
      case None => k.enforced.None? && k.preOpen.None?
      case Some(r) =>
        && k.enforced == Some((target, r.action))
        && k.preOpen == if r.resource.FsPath? then Some((r.resource.path, r.action, r.bytes)) else None
    ensures var (r, o) := RunTool(x, s, k);
      && r.transcript == s1.transcript && OnlyTheGate(Seen(x, s1), Seen(x, r))
      && Seen(x, r).gate.Ran? && Seen(x, r).gate.call == call && (o.Done? <==> Passed(Seen(x, r).gate))
      && MayDeliver(x.w, Seen(x, r).gate, Ok(o), Summary(x, o))
  {
    hide Observe, GateStep, Explains, IsMutating;
    if p.requirement.Some? {
      var r := p.requirement.value;
      OpeningIsSeen(x, s1, r);
      var (s2, refusal) := CheckAfterOpen(x, s1, k.preOpen);
      if refusal.None? && r.bytes.None? {
        BytesAreSeen(x, s2, target, r.action, out.bytesMoved);
      }
    }
    var (end, o) := RunTool(x, s, k);
    if o.Refused? {
      RefusalIsDeliverable(x, Seen(x, end).gate, o);
    }
  }

  lemma ExecutionIsSeen(x: Setup, s: LoopState, call: Call, p: Prepared, k: Clearance)
    requires Seen(x, s).bracket == InCall(call.id) && Seen(x, s).store.Agree?
    requires Seen(x, s).gate.Judging? && Seen(x, s).gate.call == call && Seen(x, s).gate.prepared == p
    requires Rests(p, Seen(x, s).gate.seen, k)
    requires p.requirement.Some? ==> Seen(x, s).gate.seen.approved && Seen(x, s).gate.seen.asked == Some(k.call)
    ensures var (r, o) := RunTool(x, s, k);
      && r.transcript == s.transcript
      && Seen(x, r) == Seen(x, s).(gate := Seen(x, r).gate, counts := OneMoreRan(Seen(x, s).counts))
      && Seen(x, r).gate.Ran? && Seen(x, r).gate.call == call && (o.Done? <==> Passed(Seen(x, r).gate))
      && MayDeliver(x.w, Seen(x, r).gate, Ok(o), Summary(x, o))
  {
    hide Observe, AsksAbout, MayShow;
    var outcome := x.w.runTool(Now(s), k.call);
    var s1 := Tell(s, ToolRan(k.call, outcome));
    var target := if p.requirement.Some? then Target(p.requirement.value, Seen(x, s).gate.seen) else Process;
    var v := Seen(x, s);
    assert Seen(x, s1) == v.(gate := Ran(call, p, target, outcome, NO_EVIDENCE), counts := OneMoreRan(v.counts)) by {
      GateMoves(x, s, ToolRan(k.call, outcome));
    }
    if outcome.Success? && outcome.value.ok {
      SuccessIsSeen(x, s, s1, call, p, k, target, outcome.value);
    } else {
      var (_, o) := RunTool(x, s, k);
      if o.Refused? {
        RefusalIsDeliverable(x, Seen(x, s1).gate, o);
      }
    }
  }

  lemma RefusalIsDeliverable(x: Setup, g: Gate, o: CallOutcome)
    requires o.Refused? && Explains(g, o.refusal) && !Passed(g)
    ensures MayDeliver(x.w, g, Ok(o), Summary(x, o))
  {
    assert Summary(x, o) == x.w.wording(o.refusal);
  }

  lemma CallIsSeen(x: Setup, s: LoopState, call: Call)
    requires Seen(x, s).bracket == InCall(call.id) && Seen(x, s).store.Agree? && Seen(x, s).gate == Opened(call, None)
    ensures var (r, o) := HandleCall(x, s, call);
      && r.transcript == s.transcript && (o.Done? <==> Passed(Seen(x, r).gate))
      && Seen(x, r) == Seen(x, s).(gate := Seen(x, r).gate,
           counts := if Seen(x, r).gate.Ran? then OneMoreRan(Seen(x, s).counts) else Seen(x, s).counts)
      && (Seen(x, r).gate.Opened? || Seen(x, r).gate.Judging? || Seen(x, r).gate.Ran?) && Seen(x, r).gate.call == call
      && MayDeliver(x.w, Seen(x, r).gate, Ok(o), Summary(x, o))
  {
    hide Observe, MayDeliver;
    var prepared := x.w.prepare(Now(s), call.name, call.arguments);
    var s1 := Tell(s, CallPrepared(call, prepared));
    GateMoves(x, s, CallPrepared(call, prepared));
    var (r, o) := HandleCall(x, s, call);
    if prepared.Success? {
      ClearIsSeen(x, s1, call, prepared.value);
      var (s2, k) := Clear(x, s1, prepared.value);
      if k.Success? {
        ApprovalIsSeen(x, s2, call, prepared.value, k.value);
        var (s3, refusal) := SeekApproval(x, s2, call.id, k.value.call);
        if refusal.None? {
          ExecutionIsSeen(x, s3, call, prepared.value, k.value);
        }
      }
    }
    if !Seen(x, r).gate.Ran? {
      RefusalIsDeliverable(x, Seen(x, r).gate, o);
    }
  }

  // ------------------------------------------------------------------ one turn

  /** Every call is counted once, as executed exactly when its tool ran and was not taken back. */
  predicate Credited(n: Counts, t: Tally) {
    && t.toolCalls == n.passed && t.toolCalls + t.refusals == n.finished
    && n.ran == n.passed + n.revoked && n.succeeded <= n.passed && t.usage == n.used
  }

  /** The transcript is what was handed in and then pushed, as the store has it. */
  ghost predicate Whole(x: Setup, s: LoopState) {
    var v := Seen(x, s);
    v.store.Agree? && v.numbered && s.transcript == x.start + v.pushed
  }

  /** And no call is open, and no answer is waiting to be pushed. */
  ghost predicate Settled(x: Setup, s: LoopState) {
    Whole(x, s) && Seen(x, s).gate == Closed(None)
  }

  /** And no call of the latest answer is still to be served. */
  ghost predicate Idle(x: Setup, s: LoopState) {
    Settled(x, s) && Seen(x, s).due == Some([])
  }

  /** A message was refused by the store: it is the last exchange, and neither side holds the message. */
  ghost predicate Halting(x: Setup, s: LoopState) {
    var v := Seen(x, s);
    && (v.bracket.Serving? || v.bracket.InCall?) && !v.gate.Violated? && v.due.Some? && v.store.Halted? && v.numbered
    && s.transcript == x.start + v.pushed
  }

  lemma AppendIsSeen(x: Setup, s: LoopState, m: Message)
    requires Seen(x, s).bracket.Serving? || Seen(x, s).bracket.InCall?
    requires Seen(x, s).store.Agree?
    ensures var (r, error) := Append(x, s, m); var v := Seen(x, s);
      if error.Some? then r.transcript == s.transcript && Seen(x, r) == v.(store := Halted)
      else
        && r.transcript == s.transcript + [m]
        && Seen(x, r) == v.(gate := GateStep(x.w, v.gate, Pushed(m)), due := DueStep(v.gate, v.due, Pushed(m)),
                            pushed := v.pushed + [m], counts := CountStep(v.counts, v.gate, Pushed(m)))
  {
    if x.c.hasSink {
      var error := x.w.store(Now(s), m);
      var told := Tell(s, SinkTold(m, error.None?));
      assert Seen(x, told) == Seen(x, s).(store := if error.None? then Ahead(m) else Halted) by {
        ObserveOneMore(x, s.history, SinkTold(m, error.None?));
      }
      ObserveOneMore(x, told.history, Pushed(m));
    } else {
      ObserveOneMore(x, s.history, Pushed(m));
    }
  }

  predicate IsNext(due: Option<seq<Call>>, call: Call) {
    due.Some? && due.value != [] && due.value[0] == call
  }

  lemma StartIsSeen(x: Setup, s: LoopState, call: Call)
    requires Seen(x, s).bracket.Serving? && Seen(x, s).store.Agree? && Seen(x, s).gate == Closed(None)
    requires IsNext(Seen(x, s).due, call)
    ensures Seen(x, Emit(s, ToolCallStarted(call)))
            == Seen(x, s).(bracket := InCall(call.id), gate := Opened(call, None),
                           due := Some(Seen(x, s).due.value[1..]))
  {
    ObserveOneMore(x, s.history, Emitted(ToolCallStarted(call)));
  }

  lemma ServedCallIsSeen(x: Setup, s: LoopState, t: Tally, call: Call)
    requires Seen(x, s).bracket.Serving? && Settled(x, s) && IsNext(Seen(x, s).due, call)
    ensures var (r, t1, error) := ServeCall(x, s, t, call); var v := Seen(x, s);
      && Seen(x, r).fits == v.fits
      && (error.Some? ==> Halting(x, r))
      && (error.None? ==>
            && Seen(x, r).bracket.Serving? && Settled(x, r) && Seen(x, r).due == Some(v.due.value[1..])
            && Seen(x, r).counts.answered == v.counts.answered
            && Seen(x, r).counts.results - v.counts.results == Seen(x, r).counts.finished - v.counts.finished == 1
            && (Credited(v.counts, t) ==> Credited(Seen(x, r).counts, t1))
            && exists ok, content :: r.transcript == s.transcript + [ToolResultMessage(call.id, ok, content)])
  {
    hide Observe, HandleCall, Append, MayDeliver;
    var s1 := Emit(s, ToolCallStarted(call));
    StartIsSeen(x, s, call);
    CallIsSeen(x, s1, call);
    var (s2, o) := HandleCall(x, s1, call);
    var m := ToolResultMessage(call.id, Ok(o), Summary(x, o));
    assert m.parts[0] in m.parts && call.id in MessageResults(m);
    AppendIsSeen(x, s2, m);
    var (s3, error) := Append(x, s2, m);
    if error.None? {
      assert GateStep(x.w, Seen(x, s2).gate, Pushed(m)) == Delivered(call, Ok(o), Summary(x, o));
      FinishIsSeen(x, s3, call, Ok(o), Summary(x, o));
      assert x.start + (Seen(x, s2).pushed + [m]) == x.start + Seen(x, s2).pushed + [m];
    }
  }

  lemma FinishIsSeen(x: Setup, s: LoopState, call: Call, ok: bool, content: string)
    requires Seen(x, s).bracket == InCall(call.id) && Seen(x, s).store.Agree?
    requires Seen(x, s).gate == Delivered(call, ok, content)
    ensures var v := Seen(x, s);
      Seen(x, Emit(s, ToolCallFinished(call.id, ok, content)))
      == v.(bracket := Serving, gate := Closed(None), counts := v.counts.(
           finished := v.counts.finished + 1, succeeded := v.counts.succeeded + if ok then 1 else 0))
  {
    ObserveOneMore(x, s.history, Emitted(ToolCallFinished(call.id, ok, content)));
  }

  lemma OneMoreResult(t: seq<Message>, id: CallId, ok: bool, content: string)
    requires ResultsFollowCalls(t) && id in CallIds(t)
    ensures var r := t + [ToolResultMessage(id, ok, content)];
      && ResultsFollowCalls(r) && CallIds(r) == CallIds(t) && ResultIds(r) == ResultIds(t) + {id}
  {
    var m := ToolResultMessage(id, ok, content);
    IdsOfConcat(t, [m]);
    IdsOfOne(m);
    assert m.parts[0] in m.parts;
    assert MessageCalls(m) == {} && MessageResults(m) == {id};
    OrderOfConcat(t, [m]);
  }

  /** Serving calls keeps every observer content, and counts each call once. */
  lemma {:induction false} ServedCallsAreSeen(x: Setup, s: LoopState, t: Tally, calls: seq<Call>)
    requires Seen(x, s).bracket.Serving? && Settled(x, s) && Seen(x, s).due == Some(calls)
    ensures var (r, t1, error) := ServeCalls(x, s, t, calls); var v := Seen(x, s);
      && Seen(x, r).fits == v.fits
      && (error.Some? ==> Halting(x, r))
      && (error.None? ==>
            && Seen(x, r).bracket.Serving? && Idle(x, r)
            && Seen(x, r).counts.answered == v.counts.answered
            && Seen(x, r).counts.results - v.counts.results == Seen(x, r).counts.finished - v.counts.finished == |calls|
            && (Credited(v.counts, t) ==> Credited(Seen(x, r).counts, t1)))
    decreases |calls|
  {
    hide Observe, ServeCall;
    if calls != [] {
      ServedCallIsSeen(x, s, t, calls[0]);
      var (s1, t1, error) := ServeCall(x, s, t, calls[0]);
      if error.None? {
        ServedCallsAreSeen(x, s1, t1, calls[1..]);
      }
    }
  }

  /** Serving calls the transcript already holds answers exactly those calls, after the calls. */
  lemma {:induction false} ServedCallsAreAnswered(x: Setup, s: LoopState, t: Tally, calls: seq<Call>)
    requires Seen(x, s).bracket.Serving? && Settled(x, s) && Seen(x, s).due == Some(calls)
    requires ResultsFollowCalls(s.transcript) && IdsOf(calls) <= CallIds(s.transcript)
    ensures var (r, _, error) := ServeCalls(x, s, t, calls);
      error.None? ==>
        && ResultsFollowCalls(r.transcript)
        && CallIds(r.transcript) == CallIds(s.transcript)
        && ResultIds(r.transcript) == ResultIds(s.transcript) + IdsOf(calls)
    decreases |calls|
  {
    hide Observe, ServeCall, ResultsFollowCalls, CallIds, ResultIds;
    if calls != [] {
      ServedCallIsSeen(x, s, t, calls[0]);
      var (s1, t1, error) := ServeCall(x, s, t, calls[0]);
      assert IdsOf(calls) == {calls[0].id} + IdsOf(calls[1..]) by {
        assert calls == [calls[0]] + calls[1..];
      }
      if error.None? {
        var ok, content :| s1.transcript == s.transcript + [ToolResultMessage(calls[0].id, ok, content)];
        OneMoreResult(s.transcript, calls[0].id, ok, content);
        ServedCallsAreAnswered(x, s1, t1, calls[1..]);
      }
    }
  }

  // ------------------------------------------------------------------ turns

  /** Model answers carry no tool results of their own. */
  ghost predicate HonestModel(w: World) {
    forall now: nat, request: ChatRequest ::
      w.complete(now, request).Success? ==> MessageResults(w.complete(now, request).value.message) == {}
  }

  /** The run was handed a transcript every provider accepts, and an honest model. */
  ghost predicate SoundStart(x: Setup) {
    HonestModel(x.w) && PairComplete(x.start) && ResultsFollowCalls(x.start)
  }

  /** What a sound start buys: sendable requests, a whole and ordered transcript, a result for every finished call. */
  ghost predicate Sound(x: Setup, s: LoopState) {
    && Seen(x, s).fits && PairComplete(s.transcript) && ResultsFollowCalls(s.transcript)
    && Seen(x, s).counts.results == Seen(x, s).counts.finished
  }

  ghost predicate Accounted(x: Setup, s: LoopState, t: Tally, turns: nat) {
    Credited(Seen(x, s).counts, t) && Seen(x, s).counts.answered == turns
  }

  /** The start of turn `turn`. */
  ghost predicate Boundary(x: Setup, s: LoopState, t: Tally, turn: nat) {
    && AtBoundary(Seen(x, s).bracket)
    && turn > 0 && Idle(x, s) && Accounted(x, s, t, turn - 1)
    && (SoundStart(x) ==> Sound(x, s))
  }

  /** A completed run answers with its last message, which calls nothing; any other with the last assistant text. */
  predicate RightText(t: seq<Message>, o: RunOutcome) {
    if o.stop.Completed? then t != [] && ToolCallsOf(t[|t| - 1]) == [] && o.finalText == TextOf(t[|t| - 1])
    else o.finalText == LastAssistantText(t)
  }

  /** How a run may end. */
  ghost predicate WellEnded(x: Setup, s: LoopState, result: Result<RunOutcome, string>) {
    match result
    case Success(o) =>
      && Seen(x, s).bracket == Finished(o.stop) && Idle(x, s) && Accounted(x, s, o.tally, o.turns)
      && o.turns <= x.c.maxTurns && RightText(s.transcript, o)
      && (SoundStart(x) ==> Sound(x, s))
    case Failure(error) =>
      && (Halting(x, s) || (Seen(x, s).bracket == Aborted(error) && Idle(x, s)))
      && (SoundStart(x) ==> Seen(x, s).fits)
  }

  ghost predicate WellTurned(x: Setup, s: LoopState, end: TurnEnd, turn: nat) {
    match end
    case Ended(result) => WellEnded(x, s, result)
    case Continues(t) => Boundary(x, s, t, turn + 1)
  }

  lemma EndIsSeen(x: Setup, s: LoopState, turn: nat, stop: StopReason)
    requires Seen(x, s).store.Agree? && Seen(x, s).gate == Closed(None) && Seen(x, s).due == Some([])
    requires var b := Seen(x, s).bracket;
      match stop
      case BudgetExhausted => b.Stopping?
      case Completed => b.Serving?
      case MaxTurns => AtBoundary(b)
    requires turn == Seen(x, s).counts.answered + if stop.BudgetExhausted? then 1 else 0
    ensures Seen(x, Emit(s, TurnFinished(turn, stop))) == Seen(x, s).(bracket := Finished(stop))
  {
    ObserveOneMore(x, s.history, Emitted(TurnFinished(turn, stop)));
  }

  lemma QuietEventIsSeen(x: Setup, s: LoopState, e: Event)
    requires Seen(x, s).bracket.Serving? && Seen(x, s).store.Agree?
    requires Seen(x, s).gate.Closed? && Seen(x, s).gate.said.Some?
    requires var r := Seen(x, s).gate.said.value;
      || e == UsageReported(r.usage.input, r.usage.output)
      || (e == TextDelta(TextOf(r.message)) && TextOf(r.message) != "")
    ensures Seen(x, Emit(s, e)) == Seen(x, s)
  {
    ObserveOneMore(x, s.history, Emitted(e));
  }

  lemma AnswerPairs(t: seq<Message>, m: Message)
    requires PairComplete(t) && ResultsFollowCalls(t) && MessageResults(m) == {}
    ensures var r := t + [m];
      ResultsFollowCalls(r) && CallIds(r) == CallIds(t) + MessageCalls(m) && ResultIds(r) == ResultIds(t)
  {
    IdsOfConcat(t, [m]);
    IdsOfOne(m);
    OrderOfConcat(t, [m]);
  }

  /** Calls the transcript holds and has not answered: serving them leads to the next boundary, or halts. */
  lemma PushedAnswerIsServed(x: Setup, s: LoopState, t: Tally, turn: nat, calls: seq<Call>)
    requires turn > 0 && Seen(x, s).bracket.Serving? && Settled(x, s) && Accounted(x, s, t, turn)
    requires Seen(x, s).due == Some(calls)
    requires SoundStart(x) ==>
      && Seen(x, s).fits && Seen(x, s).counts.results == Seen(x, s).counts.finished
      && ResultsFollowCalls(s.transcript) && CallIds(s.transcript) == ResultIds(s.transcript) + IdsOf(calls)
    ensures var (r, t1, stopped) := ServeCalls(x, s, t, calls);
      && (stopped.None? ==> Boundary(x, r, t1, turn + 1))
      && (stopped.Some? ==> Halting(x, r) && (SoundStart(x) ==> Seen(x, r).fits))
  {
    hide Observe, ServeCalls, ResultsFollowCalls, CallIds, ResultIds, HonestModel, SoundStart, IdsOf;
    ServedCallsAreSeen(x, s, t, calls);
    if SoundStart(x) {
      ServedCallsAreAnswered(x, s, t, calls);
    }
  }

  /** The events that report an answer. */
  function Reported(s: LoopState, response: ChatResponse): LoopState {
    var s1 := Emit(s, UsageReported(response.usage.input, response.usage.output));
    if TextOf(response.message) == "" then s1 else Emit(s1, TextDelta(TextOf(response.message)))
  }

  lemma AnswerIsReported(x: Setup, s: LoopState, response: ChatResponse)
    requires Seen(x, s).bracket.Serving? && Seen(x, s).store.Agree? && Seen(x, s).gate == Closed(Some(response))
    ensures Seen(x, Reported(s, response)) == Seen(x, s) && Reported(s, response).transcript == s.transcript
  {
    hide Observe, TextOf;
    var s1 := Emit(s, UsageReported(response.usage.input, response.usage.output));
    QuietEventIsSeen(x, s, UsageReported(response.usage.input, response.usage.output));
    if TextOf(response.message) != "" {
      QuietEventIsSeen(x, s1, TextDelta(TextOf(response.message)));
    }
  }

  /** A pushed answer makes its calls due, and leaves what the transcript lacks to be their results. */
  lemma AnswerIsPushed(x: Setup, s: LoopState, response: ChatResponse)
    requires Seen(x, s).bracket.Serving? && Whole(x, s)
    requires Seen(x, s).gate == Closed(Some(response)) && Seen(x, s).due == Some([])
    requires SoundStart(x) ==> Sound(x, s) && MessageResults(response.message) == {}
    ensures var m := response.message;
      var (r, error) := Append(x, s, m); var v := Seen(x, s);
      && (error.Some? ==> Halting(x, r) && Seen(x, r).fits == v.fits)
      && (error.None? ==>
            && r.transcript == s.transcript + [m] && Seen(x, r).bracket.Serving? && Settled(x, r)
            && Seen(x, r).due == Some(ToolCallsOf(m))
            && Seen(x, r).counts.(results := v.counts.results) == v.counts
            && (SoundStart(x) ==>
                  && Seen(x, r).fits && Seen(x, r).counts.results == Seen(x, r).counts.finished
                  && ResultsFollowCalls(r.transcript)
                  && CallIds(r.transcript) == ResultIds(r.transcript) + IdsOf(ToolCallsOf(m))))
  {
    hide Observe, Append, ResultsFollowCalls, CallIds, ResultIds, SoundStart, ToolCallsOf;
    var m := response.message;
    AppendIsSeen(x, s, m);
    assert x.start + (Seen(x, s).pushed + [m]) == x.start + Seen(x, s).pushed + [m];
    CallsAreTheMessagesCalls(m);
    if SoundStart(x) {
      AnswerPairs(s.transcript, m);
    }
  }

  lemma AnswerIsTaken(x: Setup, s: LoopState, t: Tally, turn: nat, response: ChatResponse)
    requires 0 < turn <= x.c.maxTurns && Seen(x, s).bracket.Serving? && Whole(x, s)
    requires Seen(x, s).gate == Closed(Some(response)) && Seen(x, s).due == Some([])
    requires Accounted(x, s, t.(usage := AddUsage(t.usage, response.usage)), turn)
    requires SoundStart(x) ==> Sound(x, s) && MessageResults(response.message) == {}
    ensures var (r, end) := TakeAnswer(x, s, t, turn, response); WellTurned(x, r, end, turn)
  {
    hide Observe, ServeCalls, Append, ResultsFollowCalls, CallIds, ResultIds, SoundStart, Boundary, ToolCallsOf, TextOf;
    var m, calls := response.message, ToolCallsOf(response.message);
    var t1 := t.(usage := AddUsage(t.usage, response.usage));
    var s2 := Reported(s, response);
    AnswerIsReported(x, s, response);
    AnswerIsPushed(x, s2, response);
    var (s3, error) := Append(x, s2, m);
    if error.None? && calls == [] {
      assert IdsOf(calls) == {};
      EndIsSeen(x, s3, turn, Completed);
    } else if error.None? {
      PushedAnswerIsServed(x, s3, t1, turn, calls);
      var (s4, t2, stopped) := ServeCalls(x, s3, t1, calls);
      assert stopped.None? ==> Boundary(x, s4, t2, turn + 1);
    }
  }

  lemma TurnIsSeen(x: Setup, s: LoopState, t: Tally, turn: nat)
    requires Boundary(x, s, t, turn) && turn <= x.c.maxTurns
    ensures var (r, end) := Turn(x, s, t, turn); WellTurned(x, r, end, turn)
  {
    hide Observe, AskedTurn, PairComplete, ResultsFollowCalls, CallIds, ResultIds, HonestModel;
    var (s1, expired) := ReadDeadline(x, s);
    if x.c.deadline.Some? {
      BoundIsSeen(x, s, DeadlineRead(x.w.elapsed(Now(s))));
    }
    if expired {
      EndIsSeen(x, s1, turn, BudgetExhausted);
      return;
    }
    var (s2, over) := ReadSpend(x, s1);
    if x.c.budget.Some? {
      BoundIsSeen(x, s1, SpendRead(x.w.spent(Now(s1))));
    }
    if over {
      EndIsSeen(x, s2, turn, BudgetExhausted);
      return;
    }
    AskedTurnIsSeen(x, s2, t, turn);
  }

  lemma AskedTurnIsSeen(x: Setup, s: LoopState, t: Tally, turn: nat)
    requires 0 < turn <= x.c.maxTurns && MayStart(x.c, Seen(x, s).bracket)
    requires Idle(x, s) && Accounted(x, s, t, turn - 1) && (SoundStart(x) ==> Sound(x, s))
    ensures var (r, end) := AskedTurn(x, s, t, turn); WellTurned(x, r, end, turn)
  {
    hide Observe, TakeAnswer, PairComplete, ResultsFollowCalls, CallIds, ResultIds, HonestModel;
    var s3 := Emit(s, TurnStarted(turn));
    TurnStartIsSeen(x, s, turn);
    AskedIsSeen(x, s3);
    var (s4, reply) := AskModel(x, s3);
    match reply {
      case TimedOut => EndIsSeen(x, s4, turn, BudgetExhausted);
      case Failed(error) => ObserveOneMore(x, s4.history, Emitted(ErrorRaised(error)));
      case Answered(response) => AnswerIsTaken(x, s4, t, turn, response);
    }
  }

  lemma TurnStartIsSeen(x: Setup, s: LoopState, turn: nat)
    requires MayStart(x.c, Seen(x, s).bracket) && Idle(x, s)
    requires turn == Seen(x, s).counts.answered + 1 <= x.c.maxTurns
    ensures Seen(x, Emit(s, TurnStarted(turn))) == Seen(x, s).(bracket := InTurn)
  {
    ObserveOneMore(x, s.history, Emitted(TurnStarted(turn)));
  }

  lemma BoundIsSeen(x: Setup, s: LoopState, step: Step)
    requires Settled(x, s)
    requires var b := Seen(x, s).bracket; AtBoundary(b) || (step.SpendRead? && b == Bounded(true, false))
    requires (step.DeadlineRead? && x.c.deadline.Some?) || (step.SpendRead? && x.c.budget.Some?)
    ensures Seen(x, Tell(s, step)) == Seen(x, s).(bracket := BracketStep(x.c, Seen(x, s).bracket, step))
  {
    ObserveOneMore(x, s.history, step);
  }

  lemma AskedIsSeen(x: Setup, s: LoopState)
    requires Seen(x, s).bracket.InTurn? && Idle(x, s) && (SoundStart(x) ==> Sound(x, s))
    ensures var (r, reply) := AskModel(x, s); var v := Seen(x, s);
      && Whole(x, r) && (SoundStart(x) ==> Sound(x, r)) && r.transcript == s.transcript && Seen(x, r).due == Some([])
      && Seen(x, r).gate == Closed(if reply.Answered? then Some(reply.response) else None)
      && (match reply
          case Answered(response) =>
            && Seen(x, r).bracket.Serving?
            && Seen(x, r).counts == v.counts.(
                 answered := v.counts.answered + 1, used := AddUsage(v.counts.used, response.usage))
            && (SoundStart(x) ==> MessageResults(response.message) == {})
          case Failed(error) => Seen(x, r).bracket == Failing(error) && Seen(x, r).counts == v.counts
          case TimedOut => Seen(x, r).bracket.Stopping? && Seen(x, r).counts == v.counts)
  {
    hide PairComplete, ResultsFollowCalls;
    var request := Request(x.c.facts, x.w.modelName(Now(s)), s.transcript);
    var (_, reply) := AskModel(x, s);
    ObserveOneMore(x, s.history, ModelAsked(request, reply));
  }

  lemma {:induction false} TurnsAreSeen(x: Setup, s: LoopState, t: Tally, turn: nat)
    requires turn <= x.c.maxTurns + 1 && Boundary(x, s, t, turn)
    ensures var (r, result) := Turns(x, s, t, turn); WellEnded(x, r, result)
    decreases x.c.maxTurns + 1 - turn
  {
    hide Observe, Turn, PairComplete, ResultsFollowCalls;
    if turn > x.c.maxTurns {
      EndIsSeen(x, s, x.c.maxTurns, MaxTurns);
    } else {
      TurnIsSeen(x, s, t, turn);
      var (s1, end) := Turn(x, s, t, turn);
      if end.Continues? {
        TurnsAreSeen(x, s1, end.tally, turn + 1);
      }
    }
  }

  /** Every run ends with every observer content. */
  lemma RunIsSeen(x: Setup)
    ensures var (r, result) := Run(x); WellEnded(x, r, result)
  {
    assert x.start + [] == x.start;
    TurnsAreSeen(x, Begin(x), NOTHING_YET, 1);
  }
}
