/** The observers' verdicts, read back as plain statements about the history of any run. */
module AgentResults {
  import opened Wrappers
  import opened Messages
  import opened Context
  import opened Risk
  import opened Approval
  import opened AgentWorld
  import opened AgentMonitor
  import opened AgentSpec
  import opened AgentTheorems
  import opened AgentTruth
  import Compaction

  function History(x: Setup): seq<Step> {
    Run(x).0.history
  }

  // ------------------------------------------------------------------ requests

  /** The messages a history pushed, in order. */
  function PushedOnto(h: seq<Step>): seq<Message> {
    if h == [] then [] else PushedOnto(h[..|h| - 1]) + match h[|h| - 1] { case Pushed(m) => [m] case _ => [] }
  }

  /** The transcript just before exchange `i`. */
  function TranscriptAt(x: Setup, i: nat): seq<Message>
    requires i <= |History(x)|
  {
    x.start + PushedOnto(History(x)[..i])
  }

  lemma PushOneMore(x: Setup, h: seq<Step>, step: Step)
    ensures var more := Observe(x, h + [step]);
      && more.pushed == Observe(x, h).pushed + (match step { case Pushed(m) => [m] case _ => [] })
      && more.fits == (Observe(x, h).fits
                       && (step.ModelAsked? ==> RequestFits(x, x.start + Observe(x, h).pushed, step.request)))
  {
    hide GateStep, StoreStep, CountStep, BracketStep, RequestFits;
    ObserveOneMore(x, h, step);
  }

  lemma {:induction false} PushedIsPushedOnto(x: Setup, h: seq<Step>)
    ensures Observe(x, h).pushed == PushedOnto(h)
  {
    if h != [] {
      hide Observe;
      assert h == h[..|h| - 1] + [h[|h| - 1]];
      PushOneMore(x, h[..|h| - 1], h[|h| - 1]);
      PushedIsPushedOnto(x, h[..|h| - 1]);
    }
  }

  lemma {:induction false} FitsAtEachRequest(x: Setup, h: seq<Step>, i: nat)
    requires Observe(x, h).fits && i < |h| && h[i].ModelAsked?
    ensures RequestFits(x, x.start + Observe(x, h[..i]).pushed, h[i].request)
    ensures Observe(x, h[..i]).pushed <= Observe(x, h).pushed
  {
    hide Observe, RequestFits;
    var last := |h| - 1;
    assert h == h[..last] + [h[last]];
    PushOneMore(x, h[..last], h[last]);
    if i < last {
      FitsAtEachRequest(x, h[..last], i);
      assert h[..last][..i] == h[..i];
    }
  }

  /**
   * Whatever the world answers: every request sent is the view of the transcript as it stood, with each call answered
   * and each result's call present. Each result comes after its call whenever the view is the transcript itself, and
   * on a compacted view whenever the calls so far have unique ids.
   */
  lemma EveryRequestIsSendable(x: Setup, i: nat)
    requires SoundStart(x) && i < |History(x)| && History(x)[i].ModelAsked?
    ensures var (sent, sofar) := (History(x)[i].request.messages, TranscriptAt(x, i));
      && sofar <= Run(x).0.transcript && sent == Compaction.Compact(sofar, x.c.facts.compactAtTokens).messages
      && PairComplete(sent)
      && (sent == sofar || UniqueCalls(sofar) ==> ResultsFollowCalls(sent))
    ensures var request := History(x)[i].request;
      && request.system == x.c.facts.system && request.tools == x.c.facts.tools
      && request.maxTokens == x.c.facts.maxTokens
  {
    hide Run, ResultsFollowCalls, PairComplete, MessagesFor, Observe, Accounted, RightText, Compaction.Compact;
    RunIsSeen(x);
    assert Seen(x, Run(x).0).fits;
    FitsAtEachRequest(x, History(x), i);
    PushedIsPushedOnto(x, History(x)[..i]);
    RequestIsSendable(x.c.facts, TranscriptAt(x, i));
  }

  lemma {:induction false} PushesGrow(h: seq<Step>, i: nat)
    requires i <= |h|
    ensures PushedOnto(h[..i]) <= PushedOnto(h)
  {
    if i == |h| {
      assert h[..i] == h;
    } else {
      PushesGrow(h[..|h| - 1], i);
      assert h[..|h| - 1][..i] == h[..i];
    }
  }

  /**
   * What a run has added since an earlier request, up to twelve messages of it, stands whole at the end of the next
   * request it sends, however much of the transcript that request elides.
   */
  lemma RecentTurnsAreSentWhole(x: Setup, j: nat, i: nat)
    requires SoundStart(x) && j < i < |History(x)| && History(x)[j].ModelAsked? && History(x)[i].ModelAsked?
    requires UniqueCalls(TranscriptAt(x, i)) && UniqueResults(TranscriptAt(x, i))
    requires |TranscriptAt(x, i)| <= |TranscriptAt(x, j)| + Compaction.KEEP_TAIL
    ensures var (sent, earlier, now) := (History(x)[i].request.messages, TranscriptAt(x, j), TranscriptAt(x, i));
      && earlier <= now && |now| - |earlier| <= |sent|
      && sent[|sent| - (|now| - |earlier|)..] == now[|earlier|..]
  {
    hide Run, Observe, UniqueCalls, UniqueResults, Accounted, RightText, MessagesFor, Compaction.Compact;
    hide PairComplete, ResultsFollowCalls;
    RunIsSeen(x);
    var h := History(x);
    var earlier, now := TranscriptAt(x, j), TranscriptAt(x, i);
    assert Seen(x, Run(x).0).fits;
    FitsAtEachRequest(x, h, j);
    FitsAtEachRequest(x, h, i);
    PushedIsPushedOnto(x, h[..j]);
    PushedIsPushedOnto(x, h[..i]);
    PushesGrow(h[..i], j);
    assert h[..i][..j] == h[..j] && now[..|earlier|] == earlier;
    RequestIsSendable(x.c.facts, now);
    Compaction.RecentTurnSurvives(now, x.c.facts.compactAtTokens, |earlier|);
  }

  /** A run that returns leaves the transcript ready for the next one. */
  lemma TranscriptStaysSendable(x: Setup)
    requires SoundStart(x) && Run(x).1.Success?
    ensures x.start <= Run(x).0.transcript
    ensures PairComplete(Run(x).0.transcript) && ResultsFollowCalls(Run(x).0.transcript)
  {
    RunIsSeen(x);
  }

  // ------------------------------------------------------------------ brackets and counts

  lemma BracketGoesOn(x: Setup, h: seq<Step>)
    requires h != [] && !Observe(x, h).bracket.Unbracketed?
    ensures var b := Observe(x, h[..|h| - 1]).bracket; !b.Unbracketed? && !b.Finished? && !b.Aborted?
  {
    hide GateStep, DueStep, StoreStep, CountStep, RequestFits, Numbered;
  }

  lemma {:induction false} NoStepIsOutOfPlace(x: Setup, h: seq<Step>, i: nat)
    requires i <= |h| && !Observe(x, h).bracket.Unbracketed?
    ensures !Observe(x, h[..i]).bracket.Unbracketed?
    ensures i < |h| ==> !Observe(x, h[..i]).bracket.Finished? && !Observe(x, h[..i]).bracket.Aborted?
  {
    hide Observe;
    if i == |h| {
      assert h[..i] == h;
    } else {
      BracketGoesOn(x, h);
      NoStepIsOutOfPlace(x, h[..|h| - 1], i);
      assert h[..|h| - 1][..i] == h[..i];
    }
  }

  lemma BracketAt(x: Setup, h: seq<Step>, i: nat)
    requires i < |h| && !Observe(x, h).bracket.Unbracketed?
    ensures Observe(x, h[..i + 1]).bracket == BracketStep(x.c, Observe(x, h[..i]).bracket, h[i])
    ensures !Observe(x, h[..i + 1]).bracket.Unbracketed?
  {
    hide GateStep, StoreStep, CountStep, BracketStep, RequestFits;
    NoStepIsOutOfPlace(x, h, i + 1);
    assert h[..i + 1][..i] == h[..i];
  }

  lemma FinishedMeansFinishing(x: Setup, h: seq<Step>)
    requires Observe(x, h).bracket.Finished?
    ensures |h| > 0 && h[|h| - 1].Emitted? && h[|h| - 1].event.TurnFinished?
    ensures h[|h| - 1].event.stop == Observe(x, h).bracket.stop
  {
    hide GateStep, StoreStep, CountStep, RequestFits;
  }

  /** A run that returns ends with its one turn-finished event, which says why. */
  lemma RunEndsOnce(x: Setup)
    requires Run(x).1.Success?
    ensures var h := History(x);
      && |h| > 0 && h[|h| - 1].Emitted? && h[|h| - 1].event.TurnFinished?
      && h[|h| - 1].event.stop == Run(x).1.value.stop
      && (forall i :: 0 <= i < |h| && h[i].Emitted? && h[i].event.TurnFinished? ==> i == |h| - 1)
  {
    RunIsSeen(x);
    hide Run, Observe, Settled, Accounted, Sound, RightText;
    var h := History(x);
    assert h[..|h|] == h;
    FinishedMeansFinishing(x, h);
    forall i | 0 <= i < |h| && h[i].Emitted? && h[i].event.TurnFinished? ensures i == |h| - 1 {
      BracketAt(x, h, i);
      NoStepIsOutOfPlace(x, h, i + 1);
    }
  }

  function Sum(h: seq<Step>, each: Step -> nat): nat {
    if h == [] then 0 else Sum(h[..|h| - 1], each) + each(h[|h| - 1])
  }

  function AnUsage(step: Step): Usage {
    match step case ModelAsked(_, Answered(response)) => response.usage case _ => Usage(0, 0, 0, 0)
  }

  function InputOf(step: Step): nat { AnUsage(step).input }

  function OutputOf(step: Step): nat { AnUsage(step).output }

  function CachedOf(step: Step): nat { AnUsage(step).cached }

  function ReasoningOf(step: Step): nat { AnUsage(step).reasoning }

  function AnAnswer(step: Step): nat {
    if step.ModelAsked? && step.reply.Answered? then 1 else 0
  }

  function ARun(step: Step): nat {
    if step.ToolRan? then 1 else 0
  }

  function AFinish(step: Step): nat {
    if step.Emitted? && step.event.ToolCallFinished? then 1 else 0
  }

  lemma {:induction false} CountsAreSums(x: Setup, h: seq<Step>)
    ensures var n := Observe(x, h).counts;
      && n.answered == Sum(h, AnAnswer) && n.ran == Sum(h, ARun) && n.finished == Sum(h, AFinish)
      && n.used == Usage(Sum(h, InputOf), Sum(h, OutputOf), Sum(h, CachedOf), Sum(h, ReasoningOf))
  {
    hide GateStep, DueStep, StoreStep, BracketStep, RequestFits, Numbered, Passed, IsResult;
    if h != [] {
      CountsAreSums(x, h[..|h| - 1]);
    }
  }

  /**
   * What a run reports is what happened in it: its turns are the model's answers, each counter of its usage the sum
   * over them, its executed calls the tool runs less those taken back afterwards, and its refusals the other finished
   * calls.
   */
  lemma ReportIsTheHistory(x: Setup)
    requires Run(x).1.Success?
    ensures var (h, o) := (History(x), Run(x).1.value); var n := Observe(x, h).counts;
      && o.turns == Sum(h, AnAnswer) <= x.c.maxTurns
      && o.tally.usage == Usage(Sum(h, InputOf), Sum(h, OutputOf), Sum(h, CachedOf), Sum(h, ReasoningOf))
      && o.tally.toolCalls == Sum(h, ARun) - n.revoked
      && o.tally.refusals == Sum(h, AFinish) - o.tally.toolCalls
      && n.succeeded <= o.tally.toolCalls
      && (SoundStart(x) ==> n.results == Sum(h, AFinish))
  {
    hide Run, Observe, Sum;
    RunIsSeen(x);
    CountsAreSums(x, History(x));
  }

  /**
   * A run that completes reports the text of the last message, which calls nothing; one stopped short reports the
   * last message the assistant wrote, and nothing when it wrote none.
   */
  lemma ReportedTextIsTheLast(x: Setup)
    requires Run(x).1.Success?
    ensures var (t, o) := (Run(x).0.transcript, Run(x).1.value);
      && (o.stop.Completed? ==> t != [] && ToolCallsOf(t[|t| - 1]) == [] && o.finalText == TextOf(t[|t| - 1]))
      && (!o.stop.Completed? ==>
            && (forall k ::
                  (0 <= k < |t| && t[k].role == Assistant && forall j :: k < j < |t| ==> t[j].role != Assistant)
                  ==> o.finalText == TextOf(t[k]))
            && ((forall k :: 0 <= k < |t| ==> t[k].role != Assistant) ==> o.finalText == ""))
  {
    hide Run, Observe;
    RunIsSeen(x);
    LastAssistantTextIs(Run(x).0.transcript);
  }

  /**
   * Every model call is made directly inside a newly announced turn no later than the last one allowed, and that turn
   * was announced only after each bound the run has was read, there and then: the time elapsed was short of the
   * deadline, and the spend within the budget.
   */
  lemma NoTurnPastABound(x: Setup, i: nat)
    requires i < |History(x)| && History(x)[i].ModelAsked?
    ensures var h := History(x);
      && i > 0 && h[i - 1].Emitted? && h[i - 1].event.TurnStarted? && h[i - 1].event.turn <= x.c.maxTurns
      && (x.c.budget.Some? ==>
            i > 1 && h[i - 2] == SpendRead(x.w.spent(i - 2)) && x.w.spent(i - 2) <= x.c.budget.value)
      && (x.c.deadline.Some? ==>
            var k := i - if x.c.budget.Some? then 3 else 2;
            k >= 0 && h[k] == DeadlineRead(x.w.elapsed(k)) && x.w.elapsed(k) < x.c.deadline.value)
  {
    RunIsSeen(x);
    hide Run, Observe;
    var h := History(x);
    BracketAt(x, h, i);
    InTurnMeansAnnounced(x, h[..i]);
    assert h[..i][..i - 1] == h[..i - 1];
    NumberedAt(x, h, i);
    if MayStart(x.c, Observe(x, h[..i - 1]).bracket) && (x.c.deadline.Some? || x.c.budget.Some?) {
      BoundedMeansRead(x, h[..i - 1]);
      assert h[..i - 1][..i - 2] == h[..i - 2];
      EveryExchangeIsTrue(x, i - 2);
      if Observe(x, h[..i - 1]).bracket.spend && x.c.deadline.Some? {
        BoundedMeansRead(x, h[..i - 2]);
        EveryExchangeIsTrue(x, i - 3);
      }
    }
  }

  lemma InTurnMeansAnnounced(x: Setup, h: seq<Step>)
    requires Observe(x, h).bracket.InTurn?
    ensures h != [] && h[|h| - 1].Emitted? && h[|h| - 1].event.TurnStarted?
    ensures MayStart(x.c, Observe(x, h[..|h| - 1]).bracket)
    ensures Observe(x, h).numbered ==> h[|h| - 1].event.turn <= x.c.maxTurns
  {
    hide GateStep, StoreStep, RequestFits;
  }

  lemma BoundedMeansRead(x: Setup, h: seq<Step>)
    requires Observe(x, h).bracket.Bounded?
    ensures var b := Observe(x, h).bracket;
      && h != [] && (b.spend ==> x.c.budget.Some?) && (!b.spend ==> x.c.deadline.Some?)
      && (if b.spend then h[|h| - 1].SpendRead? && h[|h| - 1].spent <= x.c.budget.value
          else h[|h| - 1].DeadlineRead? && h[|h| - 1].elapsed < x.c.deadline.value)
      && (b.spend && b.deadline ==> Observe(x, h[..|h| - 1]).bracket == Bounded(true, false))
      && (b.spend || b.deadline)
  {
    hide GateStep, StoreStep, RequestFits;
  }

  lemma {:induction false} NumberedAt(x: Setup, h: seq<Step>, i: nat)
    requires i <= |h| && Observe(x, h).numbered
    ensures Observe(x, h[..i]).numbered
  {
    if i == |h| {
      assert h[..i] == h;
    } else {
      NumberedAt(x, h[..|h| - 1], i);
      assert h[..|h| - 1][..i] == h[..i];
    }
  }

  lemma {:induction false} CallStaysOpen(x: Setup, h: seq<Step>, i: nat, j: nat, call: Call)
    requires i < j <= |h| && !Observe(x, h).bracket.Unbracketed?
    requires h[i] == Emitted(ToolCallStarted(call))
    requires forall k :: i < k < j ==> !(h[k].Emitted? && h[k].event.ToolCallFinished? && h[k].event.callId == call.id)
    ensures var b := Observe(x, h[..j]).bracket; (b.InCall? || b.Asking?) && b.id == call.id
    decreases j
  {
    hide Observe;
    BracketAt(x, h, j - 1);
    if i < j - 1 {
      CallStaysOpen(x, h, i, j - 1, call);
    }
  }

  /** A started call is finished before another call starts, the model is asked again, or the run reports its end. */
  lemma CallsDoNotOverlap(x: Setup, i: nat, j: nat, call: Call)
    requires i < j < |History(x)| && History(x)[i] == Emitted(ToolCallStarted(call))
    requires var step := History(x)[j];
      step.ModelAsked? || (step.Emitted? && (step.event.ToolCallStarted? || step.event.TurnFinished?))
    ensures exists k :: i < k < j && History(x)[k].Emitted? && History(x)[k].event.ToolCallFinished?
                        && History(x)[k].event.callId == call.id
  {
    RunIsSeen(x);
    hide Run, Observe, Accounted, Sound, RightText;
    var h := History(x);
    if forall k :: i < k < j ==> !(h[k].Emitted? && h[k].event.ToolCallFinished? && h[k].event.callId == call.id) {
      CallStaysOpen(x, h, i, j, call);
      BracketAt(x, h, j);
    }
  }

  lemma {:induction false} QuestionStaysOpen(x: Setup, h: seq<Step>, i: nat, j: nat, approval: string)
    requires i < j <= |h| && !Observe(x, h).bracket.Unbracketed?
    requires h[i].Emitted? && h[i].event.ApprovalRequested? && h[i].event.approval == approval
    requires forall k :: i < k < j ==> !h[k].Emitted?
    ensures Observe(x, h[..j]).bracket == Asking(h[i].event.callId, approval)
    decreases j
  {
    hide Observe;
    BracketAt(x, h, j - 1);
    if i < j - 1 {
      QuestionStaysOpen(x, h, i, j - 1, approval);
    }
  }

  ghost predicate ResolvedAt(h: seq<Step>, i: nat, j: nat, approval: string) {
    && i < j < |h| && h[j].Emitted? && h[j].event.ApprovalResolved? && h[j].event.approval == approval
    && forall k :: i < k < j ==> !h[k].Emitted? && !h[k].ToolRan?
  }

  /** Every approval request is resolved: the very next event is its own resolution, and no tool runs in between. */
  lemma QuestionsAreResolvedNext(x: Setup, i: nat)
    requires i < |History(x)| && History(x)[i].Emitted? && History(x)[i].event.ApprovalRequested?
    ensures exists j: nat :: ResolvedAt(History(x), i, j, History(x)[i].event.approval)
  {
    RunIsSeen(x);
    hide Run, Observe, GateStep, StoreStep, CountStep;
    var h := History(x);
    var approval, j := h[i].event.approval, i + 1;
    assert h[..|h|] == h;
    while j < |h| && !h[j].Emitted?
      invariant i < j <= |h|
      invariant forall k :: i < k < j ==> !h[k].Emitted? && !h[k].ToolRan?
    {
      QuestionStaysOpen(x, h, i, j, approval);
      BracketAt(x, h, j);
      j := j + 1;
    }
    QuestionStaysOpen(x, h, i, j, approval);
    assert j < |h|;
    BracketAt(x, h, j);
    assert ResolvedAt(h, i, j, approval);
  }

  // ------------------------------------------------------------------ refusals

  predicate ToolRanSince(s: LoopState, r: LoopState) {
    && s.history <= r.history
    && exists k :: |s.history| <= k < |r.history| && r.history[k].ToolRan?
  }

  predicate QuietSince(s: LoopState, r: LoopState) {
    && s.history <= r.history
    && forall k :: |s.history| <= k < |r.history| ==> !r.history[k].ToolRan?
  }

  /** Preparation, capability and approval let the call through: the state in which it runs, and as what. */
  function LetThrough(x: Setup, s: LoopState, call: Call): Option<(LoopState, Clearance)> {
    var prepared := x.w.prepare(Now(s), call.name, call.arguments);
    if prepared.Failure? then None
    else
      var (s2, k) := Clear(x, Tell(s, CallPrepared(call, prepared)), prepared.value);
      if k.Failure? then None
      else
        var (s3, refusal) := SeekApproval(x, s2, call.id, k.value.call);
        if refusal.None? then Some((s3, k.value)) else None
  }

  /** From exchange `now` on, the named path resolves to what the capability does not grant. */
  predicate PathMoved(w: World, now: nat, preOpen: Option<(string, Action, Option<nat>)>) {
    preOpen.Some? &&
    var (path, action, bytes) := preOpen.value;
    var found := w.canonicalize(now, path);
    found.Some? && w.capability(now + 1, FsPath(found.value), action, bytes).Withheld?
  }

  /** The exchanges it takes to find that the path has not moved. */
  function PathLooks(w: World, now: nat, preOpen: Option<(string, Action, Option<nat>)>): nat {
    if preOpen.None? then 0 else if w.canonicalize(now, preOpen.value.0).None? then 1 else 2
  }

  /** More bytes moved than the bound in force allows, where their number could not be stated beforehand. */
  predicate OverItsBound(w: World, now: nat, k: Clearance, o: ToolOutcome) {
    && k.call.requirement.Some? && k.call.requirement.value.bytes.None?
    && k.enforced.Some? && o.bytesMoved.Some?
    && var cap := w.maxBytes(now, k.enforced.value.0, k.enforced.value.1);
       cap.Some? && o.bytesMoved.value > cap.value
  }

  /** The tool run at exchange `now` fails to act, or what it did is found to lie outside its grants. */
  predicate TakenBack(w: World, now: nat, k: Clearance) {
    match w.runTool(now, k.call)
    case Failure(_) => true
    case Success(o) =>
      o.ok && (PathMoved(w, now + 1, k.preOpen) || OverItsBound(w, now + 1 + PathLooks(w, now + 1, k.preOpen), k, o))
  }

  lemma GateRunsNothing(x: Setup, s: LoopState, id: CallId, call: Prepared)
    ensures QuietSince(s, Clear(x, s, call).0)
    ensures QuietSince(s, SeekApproval(x, s, id, call).0)
  {
  }

  lemma RunningIsSeen(x: Setup, s: LoopState, k: Clearance)
    ensures ToolRanSince(s, RunTool(x, s, k).0)
  {
    var (r, _) := RunTool(x, s, k);
    assert r.history[|s.history|].ToolRan?;
  }

  lemma RefusedMeansTakenBack(x: Setup, s: LoopState, k: Clearance)
    ensures RunTool(x, s, k).1.Refused? <==> TakenBack(x.w, Now(s), k)
  {
    hide Shown, IsMutating;
  }

  /**
   * A call counted as executed did run its tool, and one the gate stopped ran nothing. A call counted as refused ran
   * its tool exactly when the gate let it through and then the tool failed to act, or its path no longer resolved
   * inside the grants, or it moved more than the bound allows.
   */
  lemma RefusedUnrunUnless(x: Setup, s: LoopState, call: Call)
    ensures var (r, o) := HandleCall(x, s, call); var through := LetThrough(x, s, call);
      && (through.Some? ==> ToolRanSince(s, r))
      && (through.None? ==> o.Refused? && QuietSince(s, r))
      && (o.Done? <==> through.Some? && !TakenBack(x.w, Now(through.value.0), through.value.1))
      && (o.Refused? && ToolRanSince(s, r) <==>
            through.Some? && TakenBack(x.w, Now(through.value.0), through.value.1))
  {
    hide Clear, SeekApproval, RunTool, TakenBack;
    var prepared := x.w.prepare(Now(s), call.name, call.arguments);
    var s1 := Tell(s, CallPrepared(call, prepared));
    if prepared.Success? {
      GateRunsNothing(x, s1, call.id, prepared.value);
      var (s2, k) := Clear(x, s1, prepared.value);
      if k.Success? {
        GateRunsNothing(x, s2, call.id, k.value.call);
        var (s3, refusal) := SeekApproval(x, s2, call.id, k.value.call);
        if refusal.None? {
          RunningIsSeen(x, s3, k.value);
          RefusedMeansTakenBack(x, s3, k.value);
        }
      }
    }
  }

  const WRITE_CALL := Call("c", "write", "")
  const WRITE_ANSWER :=
    ChatResponse(Message(Assistant, [ToolCall("c", "write", "")]), Usage(0, 0, 0, 0), "")

  /** A model that asks for one write, on a host where every write moves two bytes under a grant of one. */
  function OverfullWorld(): World {
    var wants := Requirement(Host("box"), Write, "write", false, None);
    World(
      n => 0, n => 0.0, n => "", n => false,
      (n, request) => Success(WRITE_ANSWER),
      (n, name, arguments) => Success(Prepared(name, arguments, None, Some(wants))),
      (n, resource, action, bytes) => Granted,
      (n, resource, action) => Some(1),
      (n, path) => None, (n, call) => None, (n, call) => None, (n, call) => "",
      command => (RiskClass.Read, ""),
      (n, action) => Allowed,
      (n, request, action) => ApprovalDecision(Deny, ""),
      (n, call) => Success(ToolOutcome("", true, false, Some(2))),
      (n, message) => None,
      refusal => "")
  }

  function OneTurn(): Setup {
    Setup(Config(1, None, None, false, ContextFacts(None, [], 0, 0)), OverfullWorld(), [])
  }

  predicate Overwrote(step: Step) {
    && step.ToolRan? && step.outcome.Success? && step.outcome.value.bytesMoved == Some(2)
    && step.ran.requirement.Some? && step.ran.requirement.value.action == Write
  }

  predicate HasOverwritten(h: seq<Step>) {
    exists k :: 0 <= k < |h| && Overwrote(h[k])
  }

  const ONE_REFUSAL := Tally(Usage(0, 0, 0, 0), 0, 1)

  lemma OverfullCallIsRefused(s: LoopState)
    ensures var (r, o) := HandleCall(OneTurn(), s, WRITE_CALL);
      && o == Refused(OverBound(2, 1, true)) && s.history <= r.history
      && |r.history| == |s.history| + 5 && Overwrote(r.history[|s.history| + 3])
  {
  }

  lemma OverfullCallIsServed(s: LoopState)
    ensures var (r, t, error) := ServeCalls(OneTurn(), s, NOTHING_YET, [WRITE_CALL]);
      error.None? && t == ONE_REFUSAL && HasOverwritten(r.history)
  {
    hide HandleCall;
    var s1 := Emit(s, ToolCallStarted(WRITE_CALL));
    OverfullCallIsRefused(s1);
    assert [WRITE_CALL][1..] == [];
    var (s2, o) := HandleCall(OneTurn(), s1, WRITE_CALL);
    var (s3, t, error) := ServeCall(OneTurn(), s, NOTHING_YET, WRITE_CALL);
    assert s2.history <= s3.history && Overwrote(s3.history[|s1.history| + 3]);
    assert ServeCalls(OneTurn(), s, NOTHING_YET, [WRITE_CALL]) == (s3, ONE_REFUSAL, None);
  }

  lemma OneCallOnly(m: Message, call: Call)
    requires m.parts == [ToolCall(call.id, call.name, call.arguments)]
    ensures TextOf(m) == "" && ToolCallsOf(m) == [call]
  {
    var parts := m.parts;
    assert |parts| == 1 && parts[0].ToolCall? && parts[..|parts| - 1] == [] && parts[1..] == [];
    assert TextFrom(parts) == "" + "";
    assert CallsFrom(parts) == [call] + [];
  }

  lemma NothingUsed(a: Usage, b: Usage)
    requires b == Usage(0, 0, 0, 0)
    ensures AddUsage(a, b) == a
  {
  }

  lemma AnswerMakesTheCall(x: Setup, t: Tally, response: ChatResponse)
    requires x == OneTurn() && t == NOTHING_YET && response == WRITE_ANSWER
    ensures !x.c.hasSink && AddUsage(t.usage, response.usage) == t.usage
    ensures TextOf(response.message) == "" && ToolCallsOf(response.message) == [WRITE_CALL]
  {
    hide OverfullWorld, TextOf, ToolCallsOf, AddUsage;
    OneCallOnly(response.message, WRITE_CALL);
    NothingUsed(t.usage, response.usage);
  }

  /** The answer reported and pushed. */
  function Taken(s: LoopState, response: ChatResponse): LoopState {
    Push(Emit(s, UsageReported(response.usage.input, response.usage.output)), response.message)
  }

  /** Without a store, an answer that says and costs nothing but makes calls is pushed, and its calls are served. */
  lemma AnswerIsServed(x: Setup, s: LoopState, t: Tally, response: ChatResponse, calls: seq<Call>)
    requires !x.c.hasSink && TextOf(response.message) == "" && ToolCallsOf(response.message) == calls != []
    requires AddUsage(t.usage, response.usage) == t.usage
    ensures var (r, t1, error) := ServeCalls(x, Taken(s, response), t, calls);
      error.None? ==> TakeAnswer(x, s, t, 1, response) == (r, Continues(t1))
  {
    hide ServeCalls, TextOf, ToolCallsOf, AddUsage;
    assert t.(usage := t.usage) == t;
  }

  lemma OverfullAnswer(x: Setup, s: LoopState, t: Tally, response: ChatResponse)
    requires x == OneTurn() && t == NOTHING_YET && response == WRITE_ANSWER
    ensures var (r, end) := TakeAnswer(x, s, t, 1, response);
      end == Continues(ONE_REFUSAL) && HasOverwritten(r.history)
  {
    hide ServeCalls, TextOf, ToolCallsOf, TakeAnswer, OneTurn, HasOverwritten, Taken, AddUsage;
    AnswerMakesTheCall(x, t, response);
    AnswerIsServed(x, s, t, response, [WRITE_CALL]);
    OverfullCallIsServed(Taken(s, response));
  }

  lemma OverfullTurn()
    ensures var (r, end) := Turn(OneTurn(), Begin(OneTurn()), NOTHING_YET, 1);
      end == Continues(ONE_REFUSAL) && HasOverwritten(r.history)
  {
    hide TakeAnswer;
    var (s, reply) := AskModel(OneTurn(), Emit(Begin(OneTurn()), TurnStarted(1)));
    OverfullAnswer(OneTurn(), s, NOTHING_YET, WRITE_ANSWER);
  }

  /** A refusal does not always mean that nothing happened: this run reports one refusal and no call, and it wrote. */
  lemma ARefusedCallCanHaveRun()
    ensures exists x: Setup, i: nat ::
      && SoundStart(x) && Run(x).1.Success?
      && Run(x).1.value.tally.toolCalls == 0 && Run(x).1.value.tally.refusals == 1
      && i < |History(x)| && Overwrote(History(x)[i])
  {
    hide Turn;
    var x := OneTurn();
    OverfullTurn();
    var (r, end) := Turn(x, Begin(x), NOTHING_YET, 1);
    var i :| 0 <= i < |r.history| && Overwrote(r.history[i]);
    assert History(x)[i] == r.history[i];
    assert CallIds([]) == {} && ResultIds([]) == {};
    assert SoundStart(x);
  }

  // ------------------------------------------------------------------ the store

  function Accepted(h: seq<Step>): seq<Message> {
    if h == [] then []
    else Accepted(h[..|h| - 1]) + match h[|h| - 1] { case SinkTold(m, true) => [m] case _ => [] }
  }

  lemma {:induction false} StoreKeepsPace(x: Setup, h: seq<Step>)
    requires x.c.hasSink && !Observe(x, h).store.Disagree?
    ensures match Observe(x, h).store
      case Ahead(m) => Accepted(h) == PushedOnto(h) + [m]
      case _ => Accepted(h) == PushedOnto(h)
  {
    hide GateStep, CountStep, BracketStep, RequestFits;
    if h != [] {
      StoreKeepsPace(x, h[..|h| - 1]);
    }
  }

  lemma {:induction false} StoreNeverDisagreed(x: Setup, h: seq<Step>, i: nat)
    requires i <= |h| && !Observe(x, h).store.Disagree?
    ensures !Observe(x, h[..i]).store.Disagree?
    ensures i < |h| ==> !Observe(x, h[..i]).store.Halted?
  {
    hide GateStep, CountStep, BracketStep, RequestFits;
    if i == |h| {
      assert h[..i] == h;
    } else {
      StoreNeverDisagreed(x, h[..|h| - 1], i);
      assert h[..|h| - 1][..i] == h[..i];
    }
  }

  /**
   * At every moment of every run with a store, the messages added to the transcript are those the store accepted,
   * in order, save one accepted an instant ago; a refused message ends the run and is on neither side.
   */
  lemma StoreAndTranscriptAgree(x: Setup, i: nat)
    requires x.c.hasSink && i <= |History(x)|
    ensures var (h, now) := (History(x), History(x)[..i]);
      && (Accepted(now) == PushedOnto(now)
          || (i > 0 && h[i - 1].SinkTold? && h[i - 1].accepted
              && Accepted(now) == PushedOnto(now) + [h[i - 1].message]))
      && (i < |h| && h[i].SinkTold? && !h[i].accepted ==> i == |h| - 1 && Run(x).1.Failure?)
    ensures Run(x).0.transcript == x.start + Accepted(History(x))
  {
    RunIsSeen(x);
    hide Run, Observe, Accepted, PushedOnto, Accounted, Sound, RightText;
    var h := History(x);
    PushedIsPushedOnto(x, h);
    StoreKeepsPace(x, h);
    StoreNeverDisagreed(x, h, i);
    StoreKeepsPace(x, h[..i]);
    if Observe(x, h[..i]).store.Ahead? {
      AheadIsJustAccepted(x, h[..i]);
    }
    if i < |h| && h[i].SinkTold? && !h[i].accepted {
      StoreNeverDisagreed(x, h, i + 1);
      HaltsAtARefusal(x, h, i);
      assert h[..|h|] == h;
    }
  }

  lemma AheadIsJustAccepted(x: Setup, h: seq<Step>)
    requires Observe(x, h).store.Ahead?
    ensures h != [] && h[|h| - 1] == SinkTold(Observe(x, h).store.message, true)
  {
    hide GateStep, CountStep, BracketStep, RequestFits;
  }

  lemma HaltsAtARefusal(x: Setup, h: seq<Step>, i: nat)
    requires i < |h| && h[i].SinkTold? && !h[i].accepted && !Observe(x, h[..i + 1]).store.Disagree?
    ensures Observe(x, h[..i + 1]).store.Halted?
  {
    hide GateStep, CountStep, BracketStep, RequestFits;
    assert h[..i + 1][..i] == h[..i];
  }
}
