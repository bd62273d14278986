/** What stood in front of every tool, and behind every message, of any run, in terms of its exchanges alone. */
module AgentGate {
  import opened Wrappers
  import opened Messages
  import opened Approval
  import opened AgentWorld
  import opened AgentMonitor
  import opened AgentSpec
  import opened AgentTheorems
  import opened AgentResults

  // ------------------------------------------------------------------ what a stretch of exchanges says

  /** The policy said yes to this question, or whoever it was put to did, and the answer was settled as a yes. */
  ghost predicate SaidYes(h: seq<Step>, about: ActionRequest) {
    || PolicyDecided(about, Allowed) in h
    || exists prompt, answer ::
         && ApproverAnswered(prompt, about, answer) in h && answer.option != Deny
         && PolicyDecided(about, Ask(prompt)) in h && ApprovalSettled(prompt.id, Approved) in h
  }

  /** Someone entitled to said yes to a question about this very call. */
  ghost predicate Consented(w: World, h: seq<Step>, call: Prepared) {
    exists about :: AsksAbout(w, call, about) && SaidYes(h, about)
  }

  /** No capability question was answered with a refusal. */
  ghost predicate NothingWithheld(h: seq<Step>) {
    forall step :: step in h && step.CapabilityAsked? ==> step.decision.Granted?
  }

  /** This path, and no other, was resolved, and to this. */
  ghost predicate OnlyPath(h: seq<Step>, path: string, canonical: Option<string>) {
    && PathResolved(path, canonical) in h
    && forall p, c :: PathResolved(p, c) in h ==> p == path && c == canonical
  }

  /** This bound, and no other, was read. */
  ghost predicate OnlyCap(h: seq<Step>, resource: Resource, action: Action, cap: Option<nat>) {
    && ByteCapRead(resource, action, cap) in h
    && forall r, a, c :: ByteCapRead(r, a, c) in h ==> r == resource && a == action && c == cap
  }

  /** For a filesystem requirement: the host resolved the named path, and what it found was granted too. */
  ghost predicate PathIsCovered(h: seq<Step>, r: Requirement) {
    r.resource.FsPath? ==>
      exists canonical ::
        && OnlyPath(h, r.resource.path, canonical)
        && (canonical.Some? ==> CapabilityAsked(FsPath(canonical.value), r.action, r.bytes, Granted) in h)
  }

  /** What a requirement opens: for a path, what the host resolved it to. */
  ghost predicate Opens(h: seq<Step>, r: Requirement, target: Resource) {
    if r.resource.FsPath? then
      exists canonical ::
        && OnlyPath(h, r.resource.path, canonical)
        && target == (match canonical case Some(found) => FsPath(found) case None => r.resource)
    else target == r.resource
  }

  /** A size first known afterwards was measured against the bound in force on what was opened. */
  ghost predicate BytesFit(h: seq<Step>, r: Requirement, target: Resource, o: ToolOutcome) {
    r.bytes.None? && o.bytesMoved.Some? ==>
      exists cap :: OnlyCap(h, target, r.action, cap) && (cap.Some? ==> o.bytesMoved.value <= cap.value)
  }

  /** Capability and host have not been consulted. */
  ghost predicate Untouched(h: seq<Step>) {
    forall step :: step in h ==> !step.CapabilityAsked? && !step.PathResolved? && !step.ByteCapRead?
  }

  lemma OneMore(h: seq<Step>, step: Step)
    ensures forall t :: t in h + [step] <==> t in h || t == step
  {
    assert (h + [step])[|h|] == step;
  }

  lemma ConsentLasts(w: World, h: seq<Step>, step: Step, call: Prepared)
    requires Consented(w, h, call)
    ensures Consented(w, h + [step], call)
  {
    hide AsksAbout;
    OneMore(h, step);
    var about :| AsksAbout(w, call, about) && SaidYes(h, about);
    if PolicyDecided(about, Allowed) !in h {
      var prompt, answer :| ApproverAnswered(prompt, about, answer) in h && answer.option != Deny
        && PolicyDecided(about, Ask(prompt)) in h && ApprovalSettled(prompt.id, Approved) in h;
      assert ApproverAnswered(prompt, about, answer) in h + [step];
    }
    assert SaidYes(h + [step], about);
  }

  lemma PathsStay(h: seq<Step>, step: Step, r: Requirement)
    requires !step.PathResolved?
    ensures PathIsCovered(h, r) ==> PathIsCovered(h + [step], r)
  {
    OneMore(h, step);
    if r.resource.FsPath? && PathIsCovered(h, r) {
      var canonical :| OnlyPath(h, r.resource.path, canonical)
        && (canonical.Some? ==> CapabilityAsked(FsPath(canonical.value), r.action, r.bytes, Granted) in h);
      assert OnlyPath(h + [step], r.resource.path, canonical);
    }
  }

  lemma CapsStay(h: seq<Step>, step: Step, r: Requirement, target: Resource, o: ToolOutcome)
    requires !step.ByteCapRead?
    ensures BytesFit(h, r, target, o) ==> BytesFit(h + [step], r, target, o)
  {
    OneMore(h, step);
    if r.bytes.None? && o.bytesMoved.Some? && BytesFit(h, r, target, o) {
      var cap :| OnlyCap(h, target, r.action, cap) && (cap.Some? ==> o.bytesMoved.value <= cap.value);
      assert OnlyCap(h + [step], target, r.action, cap);
    }
  }

  // ------------------------------------------------------------------ the evidence is what was exchanged

  ghost predicate LookedUp(h: seq<Step>, e: Evidence) {
    && (forall g :: g in e.granted ==> CapabilityAsked(g.0, g.1, g.2, Granted) in h)
    && (forall path, canonical :: PathResolved(path, canonical) in h <==> (path, canonical) in e.paths)
    && (forall resource, action, cap :: ByteCapRead(resource, action, cap) in h <==> (resource, action, cap) in e.caps)
    && (e.withheld.None? ==> NothingWithheld(h))
    && (e.withheld.Some? ==>
          var (resource, action, bytes, reason) := e.withheld.value;
          CapabilityAsked(resource, action, bytes, Withheld(reason)) in h)
  }

  ghost predicate Questioned(w: World, h: seq<Step>, e: Evidence) {
    && (e.asked.Some? ==> e.withheld.None?)
    && (e.prompt.Some? ==>
          && e.asked.Some? && AsksAbout(w, e.asked.value, e.prompt.value.1)
          && PolicyDecided(e.prompt.value.1, Ask(e.prompt.value.0)) in h)
    && (e.denied.Some? ==> exists about :: PolicyDecided(about, Denied(e.denied.value)) in h)
    && (e.answer.Some? ==>
          e.prompt.Some? && ApproverAnswered(e.prompt.value.0, e.prompt.value.1, e.answer.value) in h)
    && (e.settled.Some? ==>
          && e.prompt.Some? && e.answer.Some? && ApprovalSettled(e.prompt.value.0.id, e.settled.value) in h
          && e.settled.value == if e.answer.value.option == Deny then Rejected else Approved)
    && (e.approved ==> e.asked.Some? && Consented(w, h, e.asked.value))
  }

  ghost predicate Holds(w: World, h: seq<Step>, e: Evidence) {
    LookedUp(h, e) && Questioned(w, h, e)
  }

  lemma NoEvidenceHolds(w: World, h: seq<Step>)
    requires Untouched(h)
    ensures Holds(w, h, NO_EVIDENCE)
  {
  }

  /** Each look-up adds to the evidence what it found, and nothing else does. */
  lemma LookUpsMove(g: Gate, w: World, step: Step)
    requires g.Judging? || g.Ran?
    requires var r := GateStep(w, g, step); (g.Judging? && r.Judging?) || (g.Ran? && r.Ran?)
    ensures var (e, r) := (g.seen, GateStep(w, g, step).seen);
      match step
      case CapabilityAsked(resource, action, bytes, decision) =>
        && e.withheld.None? && r.paths == e.paths && r.caps == e.caps
        && (match decision
            case Granted => r.granted == e.granted + {(resource, action, bytes)} && r.withheld.None?
            case Withheld(reason) => r.granted == e.granted && r.withheld == Some((resource, action, bytes, reason)))
      case PathResolved(path, canonical) =>
        && r.paths == e.paths + [(path, canonical)]
        && r.granted == e.granted && r.withheld == e.withheld && r.caps == e.caps
      case ByteCapRead(resource, action, cap) =>
        && r.caps == e.caps + [(resource, action, cap)]
        && r.granted == e.granted && r.withheld == e.withheld && r.paths == e.paths
      case _ => r.granted == e.granted && r.withheld == e.withheld && r.paths == e.paths && r.caps == e.caps
  {
    hide MayDeliver, AsksAbout, Covered, ResolvedAndGranted, Actual, MayRun, Target;
  }

  lemma LookUpsOneMore(h: seq<Step>, g: Gate, w: World, step: Step)
    requires (g.Judging? || g.Ran?) && LookedUp(h, g.seen)
    requires var r := GateStep(w, g, step); (g.Judging? && r.Judging?) || (g.Ran? && r.Ran?)
    ensures LookedUp(h + [step], GateStep(w, g, step).seen)
  {
    hide GateStep;
    OneMore(h, step);
    LookUpsMove(g, w, step);
  }

  lemma QuestionsLast(w: World, h: seq<Step>, e: Evidence, step: Step)
    requires Questioned(w, h, e)
    ensures Questioned(w, h + [step], e)
  {
    hide AsksAbout, Consented;
    OneMore(h, step);
    if e.approved {
      ConsentLasts(w, h, step, e.asked.value);
    }
    if e.denied.Some? {
      var about :| PolicyDecided(about, Denied(e.denied.value)) in h;
      assert PolicyDecided(about, Denied(e.denied.value)) in h + [step];
    }
  }

  lemma SettlingConsents(w: World, h: seq<Step>, e: Evidence, id: string)
    requires Questioned(w, h, e) && e.answer.Some? && e.answer.value.option != Deny && e.prompt.value.0.id == id
    ensures Consented(w, h + [ApprovalSettled(id, Approved)], e.asked.value)
  {
    hide AsksAbout;
    OneMore(h, ApprovalSettled(id, Approved));
    var (prompt, about) := e.prompt.value;
    assert ApproverAnswered(prompt, about, e.answer.value) in h + [ApprovalSettled(id, Approved)];
    assert SaidYes(h + [ApprovalSettled(id, Approved)], about);
  }

  lemma QuestionsOneMore(h: seq<Step>, g: Gate, w: World, step: Step)
    requires (g.Judging? || g.Ran?) && Questioned(w, h, g.seen)
    requires var r := GateStep(w, g, step); (g.Judging? && r.Judging?) || (g.Ran? && r.Ran?)
    ensures Questioned(w, h + [step], GateStep(w, g, step).seen)
  {
    hide MayDeliver, AsksAbout, Covered, ResolvedAndGranted, Actual, Consented;
    var e := g.seen;
    QuestionsLast(w, h, e, step);
    OneMore(h, step);
    match step {
      case PolicyDecided(action, verdict) =>
        PolicyIsAboutTheCall(g, w, step);
        if verdict.Allowed? {
          AllowedIsConsent(w, h, Actual(g.prepared, e), action);
        }
      case ApproverAnswered(prompt, about, answer) =>
        assert ApproverAnswered(prompt, about, answer) in h + [step];
      case ApprovalSettled(id, resolution) =>
        if resolution.Approved? {
          SettlingConsents(w, h, e, id);
        }
      case _ =>
    }
  }

  lemma PolicyIsAboutTheCall(g: Gate, w: World, step: Step)
    requires step.PolicyDecided? && !GateStep(w, g, step).Violated?
    ensures g.Judging? && g.seen.withheld.None? && AsksAbout(w, Actual(g.prepared, g.seen), step.asked)
  {
  }

  lemma AllowedIsConsent(w: World, h: seq<Step>, call: Prepared, about: ActionRequest)
    requires AsksAbout(w, call, about)
    ensures Consented(w, h + [PolicyDecided(about, Allowed)], call)
  {
    OneMore(h, PolicyDecided(about, Allowed));
    assert SaidYes(h + [PolicyDecided(about, Allowed)], about);
  }

  lemma HoldsOneMore(h: seq<Step>, g: Gate, w: World, step: Step)
    requires (g.Judging? || g.Ran?) && Holds(w, h, g.seen)
    requires var r := GateStep(w, g, step); (g.Judging? && r.Judging?) || (g.Ran? && r.Ran?)
    ensures Holds(w, h + [step], GateStep(w, g, step).seen)
  {
    hide GateStep, LookedUp, Questioned;
    LookUpsOneMore(h, g, w, step);
    QuestionsOneMore(h, g, w, step);
  }

  // ------------------------------------------------------------------ where in the history a gate stands

  /** The call was announced at `from`; nothing has run, started or been pushed since. */
  ghost predicate OpenSince(h: seq<Step>, from: nat, call: Call) {
    && from < |h| && h[from] == Emitted(ToolCallStarted(call))
    && forall k :: from < k < |h| ==> !h[k].ToolRan? && !Starts(h[k]) && !h[k].Pushed?
  }

  predicate Starts(step: Step) {
    step.Emitted? && step.event.ToolCallStarted?
  }

  /** The tool that ran at `at` is the one run of the call that started at `from`, and no call has started since. */
  ghost predicate RunOf(h: seq<Step>, from: nat, at: nat, call: Call) {
    && at < |h| && h[at].ToolRan? && OpenSince(h[..at], from, call)
    && forall k :: at < k < |h| ==> !h[k].ToolRan? && !Starts(h[k])
  }

  ghost predicate RanAt(h: seq<Step>, from: nat, at: nat, call: Call, p: Prepared, target: Resource,
                        outcome: Result<ToolOutcome, ToolError>)
  {
    && RunOf(h, from, at, call) && h[at].outcome == outcome && h[at].ran.requirement == p.requirement
    && (p.requirement.Some? ==> Opens(h[from..at], p.requirement.value, target))
    && forall k :: at < k < |h| ==> !h[k].Pushed?
  }

  /** What was found after the tool ran allows its text to be shown. */
  ghost predicate Checked(before: seq<Step>, after: seq<Step>, r: Requirement, o: ToolOutcome) {
    && NothingWithheld(after) && PathIsCovered(after, r)
    && exists target :: Opens(before, r, target) && BytesFit(after, r, target, o)
  }

  /** A tool's report is what it said, and whether that was cut short. */
  function Report(o: ToolOutcome): string {
    o.content + if o.truncated then "\n[output truncated]" else ""
  }

  /** The text is what the call's own tool returned, and what was found afterwards allows it to be shown. */
  ghost predicate ShownFrom(h: seq<Step>, from: nat, at: nat, call: Call, content: string) {
    && RunOf(h, from, at, call) && h[at].outcome.Success? && h[at].outcome.value.ok
    && content == Report(h[at].outcome.value)
    && (h[at].ran.requirement.Some? ==>
          Checked(h[from..at], h[at + 1..], h[at].ran.requirement.value, h[at].outcome.value))
  }

  /** The model's latest answer, at `k`, was this very message, and nothing has been pushed since. */
  ghost predicate SaidAt(h: seq<Step>, k: nat, m: Message) {
    && k < |h| && h[k].ModelAsked? && h[k].reply.Answered? && h[k].reply.response.message == m
    && forall j :: k < j < |h| ==> !h[j].ModelAsked? && !h[j].Pushed?
  }

  ghost predicate UntouchedSince(h: seq<Step>, from: nat, call: Call, failure: Option<string>) {
    && OpenSince(h, from, call) && Untouched(h[from..])
    && (failure.Some? ==> CallPrepared(call, Failure(failure.value)) in h[from..])
  }

  ghost predicate JudgedSince(w: World, h: seq<Step>, from: nat, call: Call, p: Prepared, e: Evidence) {
    OpenSince(h, from, call) && CallPrepared(call, Success(p)) in h[from..] && Holds(w, h[from..], e)
  }

  ghost predicate RanSince(w: World, h: seq<Step>, from: nat, at: nat, g: Gate)
    requires g.Ran?
  {
    RanAt(h, from, at, g.call, g.prepared, g.target, g.outcome) && Holds(w, h[at + 1..], g.seen)
  }

  ghost predicate Backed(w: World, h: seq<Step>, g: Gate) {
    match g
    case Closed(Some(response)) => exists k: nat :: SaidAt(h, k, response.message)
    case Opened(call, failure) => exists from: nat :: UntouchedSince(h, from, call, failure)
    case Judging(call, p, e) => exists from: nat :: JudgedSince(w, h, from, call, p, e)
    case Ran(_, _, _, _, _) => exists from: nat, at: nat :: RanSince(w, h, from, at, g)
    case Delivered(call, ok, content) => ok ==> exists from: nat, at: nat :: ShownFrom(h, from, at, call, content)
    case _ => true
  }

  lemma AnswerIsBacked(h: seq<Step>, g: Gate, w: World, step: Step)
    requires Backed(w, h, g) && GateStep(w, g, step).Closed?
    ensures Backed(w, h + [step], GateStep(w, g, step))
  {
    hide MayRun, MayDeliver, AsksAbout;
    var r := GateStep(w, g, step);
    if r.said.Some? {
      if step.ModelAsked? {
        assert SaidAt(h + [step], |h|, r.said.value.message);
      } else {
        var k: nat :| SaidAt(h, k, r.said.value.message);
        assert SaidAt(h + [step], k, r.said.value.message);
      }
    }
  }

  lemma OpeningIsBacked(h: seq<Step>, g: Gate, w: World, step: Step)
    requires Backed(w, h, g) && GateStep(w, g, step).Opened?
    ensures Backed(w, h + [step], GateStep(w, g, step))
  {
    hide MayRun, MayDeliver, AsksAbout;
    var more, r := h + [step], GateStep(w, g, step);
    if g.Opened? {
      var from: nat :| UntouchedSince(h, from, g.call, g.failure);
      assert more[from..] == h[from..] + [step];
      OneMore(h[from..], step);
      assert UntouchedSince(more, from, r.call, r.failure);
    } else {
      assert more[|h|..] == [step];
      assert UntouchedSince(more, |h|, r.call, r.failure);
    }
  }

  lemma JudgingIsBacked(h: seq<Step>, g: Gate, w: World, step: Step)
    requires Backed(w, h, g) && GateStep(w, g, step).Judging?
    ensures Backed(w, h + [step], GateStep(w, g, step))
  {
    hide Holds, MayRun, MayDeliver, AsksAbout;
    var more, r := h + [step], GateStep(w, g, step);
    if g.Judging? {
      var from: nat :| JudgedSince(w, h, from, g.call, g.prepared, g.seen);
      HoldsOneMore(h[from..], g, w, step);
      assert more[from..] == h[from..] + [step];
      assert JudgedSince(w, more, from, r.call, r.prepared, r.seen);
    } else {
      var from: nat :| UntouchedSince(h, from, g.call, g.failure);
      assert more[from..] == h[from..] + [step];
      OneMore(h[from..], step);
      NoEvidenceHolds(w, more[from..]);
      assert JudgedSince(w, more, from, r.call, r.prepared, r.seen);
    }
  }

  lemma RunningGate(g: Gate, w: World, step: Step)
    requires step.ToolRan? && !GateStep(w, g, step).Violated?
    ensures g.Judging? && MayRun(g.prepared, g.seen, step.ran)
    ensures GateStep(w, g, step) == Ran(g.call, g.prepared,
              if g.prepared.requirement.Some? then Target(g.prepared.requirement.value, g.seen) else Process,
              step.outcome, NO_EVIDENCE)
  {
  }

  lemma TargetIsOpened(w: World, h: seq<Step>, p: Prepared, e: Evidence)
    requires LookedUp(h, e) && p.requirement.Some? && ResolvedAndGranted(p.requirement.value, e)
    ensures Opens(h, p.requirement.value, Target(p.requirement.value, e))
  {
    var r := p.requirement.value;
    if r.resource.FsPath? {
      var canonical := e.paths[0].1;
      assert e.paths[0] == (r.resource.path, canonical) && e.paths[0] in e.paths;
      assert forall q :: q in e.paths ==> q == e.paths[0];
      assert OnlyPath(h, r.resource.path, canonical);
    }
  }

  lemma RunIsBacked(h: seq<Step>, g: Gate, w: World, step: Step)
    requires Backed(w, h, g) && GateStep(w, g, step).Ran?
    ensures Backed(w, h + [step], GateStep(w, g, step))
  {
    hide Holds, MayDeliver, MayRun, AsksAbout, Opens;
    var more, r := h + [step], GateStep(w, g, step);
    if g.Ran? {
      var from: nat, at: nat :| RanSince(w, h, from, at, g);
      HoldsOneMore(h[at + 1..], g, w, step);
      assert more[at + 1..] == h[at + 1..] + [step] && more[..at] == h[..at] && more[from..at] == h[from..at];
      assert RanSince(w, more, from, at, r);
    } else {
      FirstRunIsBacked(h, g, w, step);
    }
  }

  lemma FirstRunIsBacked(h: seq<Step>, g: Gate, w: World, step: Step)
    requires Backed(w, h, g) && step.ToolRan? && GateStep(w, g, step).Ran?
    ensures Backed(w, h + [step], GateStep(w, g, step))
  {
    hide GateStep, Questioned, LookedUp, AsksAbout, Opens, Target;
    var more, r := h + [step], GateStep(w, g, step);
    RunningGate(g, w, step);
    var from: nat :| JudgedSince(w, h, from, g.call, g.prepared, g.seen);
    assert more[..|h|] == h && more[|h| + 1..] == [] && more[from..|h|] == h[from..];
    if g.prepared.requirement.Some? {
      TargetIsOpened(w, h[from..], g.prepared, g.seen);
    }
    NoEvidenceHolds(w, []);
    assert RanSince(w, more, from, |h|, r);
  }

  lemma SuccessIsChecked(w: World, before: seq<Step>, after: seq<Step>, g: Gate, o: ToolOutcome)
    requires g.Ran? && g.prepared.requirement.Some? && LookedUp(after, g.seen)
    requires Opens(before, g.prepared.requirement.value, g.target)
    requires MayShow(g.prepared, g.target, o, g.seen)
    ensures Checked(before, after, g.prepared.requirement.value, o)
  {
    hide Opens, PathIsCovered, BytesFit, LookedUp, ResolvedAndGranted;
    PathWasChecked(after, g.prepared.requirement.value, g.seen);
    BytesWereChecked(after, g, o);
  }

  lemma PathWasChecked(h: seq<Step>, r: Requirement, e: Evidence)
    requires LookedUp(h, e) && ResolvedAndGranted(r, e)
    ensures PathIsCovered(h, r) && (e.withheld.None? ==> NothingWithheld(h))
  {
    if r.resource.FsPath? {
      assert e.paths[0] == (r.resource.path, e.paths[0].1) && e.paths[0] in e.paths;
      assert forall q :: q in e.paths ==> q == e.paths[0];
      assert OnlyPath(h, r.resource.path, e.paths[0].1);
    }
  }

  lemma BytesWereChecked(h: seq<Step>, g: Gate, o: ToolOutcome)
    requires g.Ran? && g.prepared.requirement.Some? && LookedUp(h, g.seen)
    requires MayShow(g.prepared, g.target, o, g.seen)
    ensures BytesFit(h, g.prepared.requirement.value, g.target, o)
  {
    hide ResolvedAndGranted;
    var r, e := g.prepared.requirement.value, g.seen;
    if r.bytes.None? && o.bytesMoved.Some? {
      assert e.caps[0] == (g.target, r.action, e.caps[0].2) && e.caps[0] in e.caps;
      assert forall q :: q in e.caps ==> q == e.caps[0];
      assert OnlyCap(h, g.target, r.action, e.caps[0].2);
    }
  }

  lemma DeliveryIsBacked(h: seq<Step>, from: nat, at: nat, g: Gate, w: World)
    requires g.Ran? && RanSince(w, h, from, at, g) && Passed(g) && g.outcome.value.ok
    ensures ShownFrom(h, from, at, g.call, Shown(g.outcome.value))
  {
    hide LookedUp, Questioned, MayShow, Checked, Opens;
    if g.prepared.requirement.Some? {
      SuccessIsChecked(w, h[from..at], h[at + 1..], g, g.outcome.value);
    }
  }

  lemma CheckedStays(before: seq<Step>, after: seq<Step>, r: Requirement, o: ToolOutcome, step: Step)
    requires Checked(before, after, r, o)
    requires !step.CapabilityAsked? && !step.PathResolved? && !step.ByteCapRead?
    ensures Checked(before, after + [step], r, o)
  {
    hide Opens, BytesFit, PathIsCovered;
    OneMore(after, step);
    PathsStay(after, step, r);
    var target :| Opens(before, r, target) && BytesFit(after, r, target, o);
    CapsStay(after, step, r, target, o);
  }

  lemma ShownOneMore(h: seq<Step>, from: nat, at: nat, call: Call, content: string, step: Step)
    requires ShownFrom(h, from, at, call, content) && (step.Pushed? || step.SinkTold?)
    ensures ShownFrom(h + [step], from, at, call, content)
  {
    hide Checked;
    var more := h + [step];
    assert more[..at] == h[..at] && more[from..at] == h[from..at] && more[at + 1..] == h[at + 1..] + [step];
    if h[at].ran.requirement.Some? {
      CheckedStays(h[from..at], h[at + 1..], h[at].ran.requirement.value, h[at].outcome.value, step);
    }
  }

  lemma DeliveringGate(g: Gate, w: World, step: Step)
    requires GateStep(w, g, step).Delivered?
    ensures step.SinkTold? ==> GateStep(w, g, step) == g
    ensures !step.SinkTold? ==>
              && step.Pushed? && (g.Opened? || g.Judging? || g.Ran?)
              && var r := GateStep(w, g, step);
                 r.call == g.call && step.message == ToolResultMessage(r.call.id, r.ok, r.content)
                 && MayDeliver(w, g, r.ok, r.content)
  {
    hide MayRun, MayDeliver, AsksAbout;
  }

  lemma TextIsBacked(h: seq<Step>, g: Gate, w: World, step: Step)
    requires Backed(w, h, g) && GateStep(w, g, step).Delivered? && GateStep(w, g, step).ok
    ensures Backed(w, h + [step], GateStep(w, g, step))
  {
    hide GateStep, RanSince, ShownFrom, MayShow;
    DeliveringGate(g, w, step);
    var r := GateStep(w, g, step);
    if step.SinkTold? {
      var from: nat, at: nat :| ShownFrom(h, from, at, g.call, g.content);
      ShownOneMore(h, from, at, g.call, g.content, step);
    } else {
      var from: nat, at: nat :| RanSince(w, h, from, at, g);
      DeliveryIsBacked(h, from, at, g, w);
      ShownOneMore(h, from, at, r.call, r.content, step);
    }
  }

  lemma BackedOneMore(h: seq<Step>, g: Gate, w: World, step: Step)
    requires Backed(w, h, g) && !GateStep(w, g, step).Violated?
    ensures Backed(w, h + [step], GateStep(w, g, step))
  {
    hide GateStep, UntouchedSince, JudgedSince, RanSince, ShownFrom, SaidAt;
    var r := GateStep(w, g, step);
    match r {
      case Closed(_) => AnswerIsBacked(h, g, w, step);
      case Opened(_, _) => OpeningIsBacked(h, g, w, step);
      case Judging(_, _, _) => JudgingIsBacked(h, g, w, step);
      case Ran(_, _, _, _, _) => RunIsBacked(h, g, w, step);
      case Delivered(_, ok, _) => if ok { TextIsBacked(h, g, w, step); }
      case Violated =>
    }
  }

  lemma GateOneMore(x: Setup, h: seq<Step>, step: Step)
    ensures Observe(x, h + [step]).gate == GateStep(x.w, Observe(x, h).gate, step)
    ensures Observe(x, h).gate.Violated? ==> Observe(x, h + [step]).gate.Violated?
  {
    hide StoreStep, CountStep, BracketStep, RequestFits, MayRun, MayDeliver, AsksAbout;
    ObserveOneMore(x, h, step);
  }

  lemma {:induction false} GateWasNeverViolated(x: Setup, h: seq<Step>, i: nat)
    requires i <= |h| && !Observe(x, h).gate.Violated?
    ensures !Observe(x, h[..i]).gate.Violated?
  {
    hide Observe;
    if i == |h| {
      assert h[..i] == h;
    } else {
      assert h == h[..|h| - 1] + [h[|h| - 1]] && h[..|h| - 1][..i] == h[..i];
      GateOneMore(x, h[..|h| - 1], h[|h| - 1]);
      GateWasNeverViolated(x, h[..|h| - 1], i);
    }
  }

  lemma {:induction false} GateIsBacked(x: Setup, h: seq<Step>)
    requires !Observe(x, h).gate.Violated?
    ensures Backed(x.w, h, Observe(x, h).gate)
  {
    hide GateStep, BracketStep, StoreStep, CountStep, RequestFits, Backed;
    if h == [] {
      NothingToBack(x.w);
    } else {
      var was, step := h[..|h| - 1], h[|h| - 1];
      assert h == was + [step];
      GateOneMore(x, was, step);
      GateIsBacked(x, was);
      BackedOneMore(was, Observe(x, was).gate, x.w, step);
    }
  }

  lemma NothingToBack(w: World)
    ensures Backed(w, [], Closed(None))
  {
  }

  /** Before any exchange of any run: the gate as its observer has it, backed, and open to that exchange. */
  lemma GateAt(x: Setup, i: nat)
    requires i < |History(x)|
    ensures var (g, step) := (Observe(x, History(x)[..i]).gate, History(x)[i]);
      Backed(x.w, History(x)[..i], g) && !GateStep(x.w, g, step).Violated?
  {
    RunIsSeen(x);
    hide Run, Observe, GateStep, Backed, Accounted, Sound, RightText;
    var h := History(x);
    GateWasNeverViolated(x, h, i + 1);
    GateWasNeverViolated(x, h, i);
    assert h[..i + 1] == h[..i] + [h[i]];
    GateOneMore(x, h[..i], h[i]);
    GateIsBacked(x, h[..i]);
  }

  // ------------------------------------------------------------------ what every run keeps

  /** Where the named path resolves elsewhere, that was granted, and a tool that takes a path is given that one. */
  ghost predicate OpensWhatWasGranted(h: seq<Step>, p: Prepared, r: Requirement, ran: Prepared)
    requires r.resource.FsPath?
  {
    exists canonical :: OnlyPath(h, r.resource.path, canonical) &&
      match canonical
      case None => ran == p
      case Some(found) =>
        && CapabilityAsked(FsPath(found), r.action, r.bytes, Granted) in h
        && ran == if found != r.resource.path && p.path.Some? then p.(path := Some(found)) else p
  }

  ghost predicate Cleared(w: World, h: seq<Step>, call: Call, ran: Prepared) {
    exists p :: CallPrepared(call, Success(p)) in h &&
      match p.requirement
      case None => ran == p
      case Some(r) =>
        && CapabilityAsked(r.resource, r.action, r.bytes, Granted) in h && NothingWithheld(h) && Consented(w, h, ran)
        && if r.resource.FsPath? then OpensWhatWasGranted(h, p, r, ran) else ran == p
  }

  lemma EvidenceClears(w: World, h: seq<Step>, call: Call, p: Prepared, e: Evidence, ran: Prepared)
    requires CallPrepared(call, Success(p)) in h && Holds(w, h, e) && MayRun(p, e, ran)
    ensures Cleared(w, h, call, ran)
  {
    hide Consented, AsksAbout;
    if p.requirement.Some? && p.requirement.value.resource.FsPath? {
      var r := p.requirement.value;
      var canonical := e.paths[0].1;
      assert e.paths[0] == (r.resource.path, canonical) && e.paths[0] in e.paths;
      assert forall q :: q in e.paths ==> q == e.paths[0];
      assert OnlyPath(h, r.resource.path, canonical);
      assert OpensWhatWasGranted(h, p, r, ran);
    }
  }

  /**
   * In every run, a tool runs only inside a call announced for it, as prepared for that call; one with a stated
   * requirement only after, within that call, the capability granted the requirement, no capability question was
   * refused, and a question naming this very tool, purpose and risk was allowed by the policy, or put to the approver,
   * answered with a yes and settled as one; and one that names a path only on what the host resolved that path to,
   * which was granted as well.
   */
  lemma EveryToolRunWasCleared(x: Setup, i: nat)
    requires i < |History(x)| && History(x)[i].ToolRan?
    ensures exists from: nat, call: Call ::
              OpenSince(History(x)[..i], from, call) && Cleared(x.w, History(x)[from..i], call, History(x)[i].ran)
  {
    hide Run, Observe, GateStep, Holds, MayRun, Cleared;
    GateAt(x, i);
    var h, g := History(x), Observe(x, History(x)[..i]).gate;
    RunningGate(g, x.w, h[i]);
    var from: nat :| JudgedSince(x.w, h[..i], from, g.call, g.prepared, g.seen);
    assert h[..i][from..] == h[from..i];
    EvidenceClears(x.w, h[from..i], g.call, g.prepared, g.seen, h[i].ran);
  }

  /** The steps by which anyone is asked: the policy, the prompt put on show, the approver. */
  predicate AsksSomeone(step: Step) {
    step.PolicyDecided? || step.ApproverAnswered? || (step.Emitted? && step.event.ApprovalRequested?)
  }

  lemma AskingGate(g: Gate, w: World, step: Step)
    requires AsksSomeone(step) && !GateStep(w, g, step).Violated?
    ensures g.Judging? && (g.seen.prompt.Some? || g.seen.withheld.None?)
  {
  }

  /** A denial by the capability is final: once given, no policy is consulted, no prompt shown, nobody asked. */
  lemma NobodyIsAskedPastADenial(x: Setup, i: nat)
    requires i < |History(x)| && AsksSomeone(History(x)[i])
    ensures exists from: nat, call: Call ::
              OpenSince(History(x)[..i], from, call) && NothingWithheld(History(x)[from..i])
  {
    hide Run, Observe, GateStep, NothingWithheld, AsksAbout;
    GateAt(x, i);
    var h, g := History(x), Observe(x, History(x)[..i]).gate;
    AskingGate(g, x.w, h[i]);
    var from: nat :| JudgedSince(x.w, h[..i], from, g.call, g.prepared, g.seen);
    assert h[..i][from..] == h[from..i];
  }

  /**
   * In every run, a call reported as successful carries the text its own tool returned, run inside that call, whose
   * path was resolved and granted again after it ran, and whose bytes fit the bound then in force on what was opened.
   */
  lemma EverySuccessWasChecked(x: Setup, i: nat)
    requires i < |History(x)| && History(x)[i].Emitted?
    requires History(x)[i].event.ToolCallFinished? && History(x)[i].event.ok
    ensures exists from: nat, at: nat, call: Call ::
              call.id == History(x)[i].event.callId
              && ShownFrom(History(x)[..i], from, at, call, History(x)[i].event.summary)
  {
    hide Run, Observe, GateStep, ShownFrom;
    GateAt(x, i);
    FinishedMeansDelivered(Observe(x, History(x)[..i]).gate, x.w, History(x)[i]);
  }

  lemma FinishedMeansDelivered(g: Gate, w: World, step: Step)
    requires step.Emitted? && step.event.ToolCallFinished? && !GateStep(w, g, step).Violated?
    ensures g.Delivered? && g.call.id == step.event.callId && g.ok == step.event.ok && g.content == step.event.summary
  {
  }

  // ------------------------------------------------------------------ what enters the transcript

  /** The call was announced at `from`; no other has started and nothing has been pushed since. */
  ghost predicate UnansweredSince(h: seq<Step>, from: nat, call: Call) {
    && from < |h| && h[from] == Emitted(ToolCallStarted(call))
    && forall k :: from < k < |h| ==> !Starts(h[k]) && !h[k].Pushed?
  }

  /** The tool of the call that started at `from` ran, reported failure itself, and said this. */
  ghost predicate FailedFrom(h: seq<Step>, from: nat, at: nat, call: Call, content: string) {
    && RunOf(h, from, at, call) && h[at].outcome.Success? && !h[at].outcome.value.ok
    && content == Report(h[at].outcome.value)
  }

  /** The host resolved the path to this one, which the capability withheld. */
  ghost predicate FoundOutside(h: seq<Step>, p: Prepared, path: string, canonical: string) {
    && Names(p, path) && OnlyPath(h, path, Some(canonical))
    && var r := p.requirement.value;
       exists reason :: CapabilityAsked(FsPath(canonical), r.action, r.bytes, Withheld(reason)) in h
  }

  /** The tool ran in this call and succeeded, and what was found afterwards is why its text is not shown. */
  ghost predicate TakenBackFor(h: seq<Step>, from: nat, at: nat, call: Call, r: Refusal) {
    && RunOf(h, from, at, call) && h[at].outcome.Success? && h[at].outcome.value.ok
    && h[at].ran.requirement.Some?
    && var need := h[at].ran.requirement.value;
       match r
       case Moved(path, canonical, landed) =>
         && need.resource == FsPath(path) && landed == IsMutating(need.action)
         && OnlyPath(h[at + 1..], path, Some(canonical))
         && exists reason ::
              CapabilityAsked(FsPath(canonical), need.action, need.bytes, Withheld(reason)) in h[at + 1..]
       case OverBound(moved, cap, landed) =>
         && h[at].outcome.value.bytesMoved == Some(moved) && landed == IsMutating(need.action) && moved > cap
         && exists target ::
              Opens(h[from..at], need, target) && OnlyCap(h[at + 1..], target, need.action, Some(cap))
       case _ => false
  }

  /** What stopped the call before any tool ran. */
  ghost predicate StoppedFor(h: seq<Step>, call: Call, r: Refusal) {
    match r
    case CannotPrepare(name, error) => name == call.name && CallPrepared(call, Failure(error)) in h
    case NotCovered(reason) =>
      exists p :: CallPrepared(call, Success(p)) in h && p.requirement.Some?
        && CapabilityAsked(p.requirement.value.resource, p.requirement.value.action, p.requirement.value.bytes,
                           Withheld(reason)) in h
    case Escapes(path, canonical) =>
      exists p :: CallPrepared(call, Success(p)) in h && FoundOutside(h, p, path, canonical)
    case ByPolicy(why) => exists about :: PolicyDecided(about, Denied(why)) in h
    case ByApprover(who, resolution) =>
      && resolution == Rejected
      && exists prompt, about, answer ::
           && ApproverAnswered(prompt, about, answer) in h && answer.who == who && answer.option == Deny
           && ApprovalSettled(prompt.id, Rejected) in h
    case _ => false
  }

  /** What the refusal says is what happened in the call that started at `from`. */
  ghost predicate Accounts(h: seq<Step>, from: nat, call: Call, r: Refusal) {
    match r
    case BadArguments(message) => exists at: nat :: ErredAt(h, from, at, call, Arguments(message))
    case CouldNotAct(message) => exists at: nat :: ErredAt(h, from, at, call, Unavailable(message))
    case Moved(_, _, _) => exists at: nat :: TakenBackFor(h, from, at, call, r)
    case OverBound(_, _, _) => exists at: nat :: TakenBackFor(h, from, at, call, r)
    case _ => OpenSince(h, from, call) && StoppedFor(h[from..], call, r)
  }

  ghost predicate ErredAt(h: seq<Step>, from: nat, at: nat, call: Call, error: ToolError) {
    RunOf(h, from, at, call) && h[at].outcome == Failure(error)
  }

  ghost predicate RefusedFor(w: World, h: seq<Step>, from: nat, call: Call, content: string) {
    exists r: Refusal :: content == w.wording(r) && Accounts(h, from, call, r)
  }

  /**
   * The first result of the call now open: checked text of a success, the tool's own account of a failure, or the
   * wording of a refusal that says what happened in this very call.
   */
  ghost predicate AnswersCall(w: World, h: seq<Step>, from: nat, call: Call, ok: bool, content: string) {
    && UnansweredSince(h, from, call)
    && if ok then exists at: nat :: ShownFrom(h, from, at, call, content)
       else RefusedFor(w, h, from, call, content) || exists at: nat :: FailedFrom(h, from, at, call, content)
  }

  ghost predicate Warranted(w: World, h: seq<Step>, m: Message) {
    || (exists k: nat :: SaidAt(h, k, m))
    || (exists from: nat, call: Call, ok: bool, content: string ::
          m == ToolResultMessage(call.id, ok, content) && AnswersCall(w, h, from, call, ok, content))
  }

  lemma RunIsUnanswered(h: seq<Step>, from: nat, at: nat, g: Gate, w: World)
    requires g.Ran? && RanSince(w, h, from, at, g)
    ensures UnansweredSince(h, from, g.call)
  {
    hide Holds, Opens;
    assert h[..at][from] == h[from];
    assert forall k :: from < k < at ==> h[..at][k] == h[k];
  }

  lemma OnePath(h: seq<Step>, e: Evidence, path: string, canonical: Option<string>)
    requires LookedUp(h, e) && e.paths == [(path, canonical)]
    ensures OnlyPath(h, path, canonical)
  {
    assert (path, canonical) in e.paths;
    assert forall q :: q in e.paths ==> q == e.paths[0];
  }

  lemma OutsideIsFound(h: seq<Step>, p: Prepared, e: Evidence, path: string, canonical: string)
    requires LookedUp(h, e) && LeadsOutside(p, e, path, canonical)
    ensures FoundOutside(h, p, path, canonical)
  {
    OnePath(h, e, path, Some(canonical));
    var (resource, action, bytes, reason) := e.withheld.value;
    assert CapabilityAsked(resource, action, bytes, Withheld(reason)) in h;
  }

  lemma JudgedRefusalIsBacked(w: World, h: seq<Step>, from: nat, g: Gate, r: Refusal)
    requires g.Judging? && JudgedSince(w, h, from, g.call, g.prepared, g.seen) && Explains(g, r)
    ensures Accounts(h, from, g.call, r)
  {
    hide AsksAbout, Consented, LeadsOutside, FoundOutside, OpenSince, NothingWithheld;
    var s, e := h[from..], g.seen;
    match r {
      case NotCovered(reason) =>
        assert CallPrepared(g.call, Success(g.prepared)) in s;
      case Escapes(path, canonical) =>
        OutsideIsFound(s, g.prepared, e, path, canonical);
        assert CallPrepared(g.call, Success(g.prepared)) in s;
      case ByPolicy(why) =>
      case ByApprover(who, resolution) =>
        var (prompt, about) := e.prompt.value;
        assert ApproverAnswered(prompt, about, e.answer.value) in s;
    }
  }

  lemma RunRefusalIsBacked(w: World, h: seq<Step>, from: nat, at: nat, g: Gate, r: Refusal)
    requires g.Ran? && RanSince(w, h, from, at, g) && Explains(g, r)
    ensures Accounts(h, from, g.call, r)
  {
    hide Questioned, Opens, LeadsOutside, NothingWithheld;
    match r {
      case BadArguments(message) => assert ErredAt(h, from, at, g.call, Arguments(message));
      case CouldNotAct(message) => assert ErredAt(h, from, at, g.call, Unavailable(message));
      case Moved(path, canonical, landed) =>
        OutsideIsFound(h[at + 1..], g.prepared, g.seen, path, canonical);
        assert TakenBackFor(h, from, at, g.call, r);
      case OverBound(moved, cap, landed) =>
        OneCap(h[at + 1..], g.seen, g.target, g.prepared.requirement.value.action, Some(cap));
        assert TakenBackFor(h, from, at, g.call, r);
    }
  }

  lemma OneCap(h: seq<Step>, e: Evidence, resource: Resource, action: Action, cap: Option<nat>)
    requires LookedUp(h, e) && e.caps == [(resource, action, cap)]
    ensures OnlyCap(h, resource, action, cap)
  {
    assert (resource, action, cap) in e.caps;
    assert forall q :: q in e.caps ==> q == e.caps[0];
  }

  lemma PushComesFromTheGate(h: seq<Step>, g: Gate, w: World, m: Message)
    requires Backed(w, h, g) && !g.Closed? && GateStep(w, g, Pushed(m)).Delivered?
    ensures Warranted(w, h, m)
  {
    hide GateStep, RanSince, ShownFrom, MayShow, Explains, Accounts, Holds;
    DeliveringGate(g, w, Pushed(m));
    var r := GateStep(w, g, Pushed(m));
    if g.Ran? {
      var from: nat, at: nat :| RanSince(w, h, from, at, g);
      RunIsUnanswered(h, from, at, g, w);
      if r.ok {
        DeliveryIsBacked(h, from, at, g, w);
      } else if Passed(g) {
        FailureIsBacked(h, from, at, g, w);
      } else {
        var why: Refusal :| Explains(g, why) && r.content == w.wording(why);
        RunRefusalIsBacked(w, h, from, at, g, why);
      }
      assert AnswersCall(w, h, from, r.call, r.ok, r.content);
    } else {
      var why: Refusal :| Explains(g, why) && r.content == w.wording(why);
      if g.Opened? {
        var from: nat :| UntouchedSince(h, from, g.call, g.failure);
        OpenRefusalIsBacked(h, from, g, why);
        assert AnswersCall(w, h, from, r.call, r.ok, r.content);
      } else {
        var from: nat :| JudgedSince(w, h, from, g.call, g.prepared, g.seen);
        JudgedRefusalIsBacked(w, h, from, g, why);
        assert AnswersCall(w, h, from, r.call, r.ok, r.content);
      }
    }
  }

  lemma OpenRefusalIsBacked(h: seq<Step>, from: nat, g: Gate, r: Refusal)
    requires g.Opened? && UntouchedSince(h, from, g.call, g.failure) && Explains(g, r)
    ensures Accounts(h, from, g.call, r)
  {
  }

  lemma FailureIsBacked(h: seq<Step>, from: nat, at: nat, g: Gate, w: World)
    requires g.Ran? && RanSince(w, h, from, at, g) && g.outcome.Success? && !g.outcome.value.ok
    ensures FailedFrom(h, from, at, g.call, Shown(g.outcome.value))
  {
  }

  lemma PushingGate(g: Gate, w: World, m: Message)
    requires !GateStep(w, g, Pushed(m)).Violated?
    ensures if g.Closed? then g.said.Some? && g.said.value.message == m else GateStep(w, g, Pushed(m)).Delivered?
  {
    hide MayDeliver;
  }

  /**
   * In every run, each message that enters the transcript is the model's latest answer, word for word and for the
   * first time, or the first and only result of the call then open; and a result marked as a success carries only text
   * that was checked as above, one marked as a failure only the tool's own account or the wording of a refusal that
   * names what happened in the call; once a tool succeeded, that is a path or two numbers.
   */
  lemma NothingUncheckedIsPushed(x: Setup, i: nat)
    requires i < |History(x)| && History(x)[i].Pushed?
    ensures Warranted(x.w, History(x)[..i], History(x)[i].message)
  {
    hide Run, Observe, GateStep, SaidAt, AnswersCall;
    GateAt(x, i);
    var h, g, m := History(x)[..i], Observe(x, History(x)[..i]).gate, History(x)[i].message;
    PushingGate(g, x.w, m);
    if !g.Closed? {
      PushComesFromTheGate(h, g, x.w, m);
    }
  }
}
