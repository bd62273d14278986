/**
 * The approval queue: runs put a question and wait, clients answer through the queue, and silence is a denial.
 * Each function here is one section of the code that no other task can interleave with; a run is named by the
 * number of questions asked before its own, and its one-shot reply channel by the same number.
 */
module QueueProtocol {
  import opened Wrappers
  import opened Risk
  import opened Approval

  type RunId = nat

  datatype Waiting = Waiting(request: ApprovalRequest, session: Option<string>, reply: RunId)

  datatype Phase =
    | Listening                               // waiting on its channel
    | Delivered(answer: ApprovalDecision)     // an answer is in its channel
    | Disconnected                            // its sender was dropped unused
    | Elapsed                                 // its timer fired; the receiver is about to be dropped
    | Leaving(decision: ApprovalDecision)     // receiver gone, entry not yet removed
    | Done(decision: ApprovalDecision)

  datatype Run = Run(request: ApprovalRequest, session: Option<string>, phase: Phase)

  datatype Queue = Queue(pending: map<string, Waiting>, runs: seq<Run>)

  datatype AnswerResult = Answered | Unknown | AboveCeiling(risk: RiskClass, ceiling: RiskClass)

  const CLOSED := ApprovalDecision(Deny, "the approval channel closed before answering")
  const SILENCE := ApprovalDecision(Deny, "nobody answered in time")

  /** The question as clients see it: it names its session. */
  function ShownRequest(request: ApprovalRequest, session: Option<string>): ApprovalRequest {
    if request.session.None? then request.(session := session) else request
  }

  function SetPhase(runs: seq<Run>, r: RunId, phase: Phase): seq<Run>
    requires r < |runs|
  {
    runs[r := runs[r].(phase := phase)]
  }

  /** A sender goes away without having sent. */
  function DropSender(runs: seq<Run>, r: RunId): seq<Run> {
    if r < |runs| && runs[r].phase.Listening? then SetPhase(runs, r, Disconnected) else runs
  }

  function Remove(q: Queue, id: string): Queue {
    if id in q.pending then Queue(q.pending - {id}, DropSender(q.runs, q.pending[id].reply)) else q
  }

  /** Inserting under an id already there replaces the entry, and with it the other run's sender. */
  function Ask(q: Queue, request: ApprovalRequest, session: Option<string>): Queue {
    var entry := Waiting(ShownRequest(request, session), session, |q.runs|);
    Queue(q.pending[request.id := entry], Remove(q, request.id).runs + [Run(request, session, Listening)])
  }

  function Answer(q: Queue, id: string, option: ApprovalOption, who: string, ceiling: RiskClass)
    : (Queue, AnswerResult)
  {
    if id !in q.pending then (q, Unknown)
    else
      var entry := q.pending[id];
      if !Covers(ceiling, entry.request.risk) then (q, AboveCeiling(entry.request.risk, ceiling))
      else
        var rest := q.pending - {id};
        if entry.reply >= |q.runs| then (q.(pending := rest), Unknown)
        else
          match q.runs[entry.reply].phase
          case Listening =>
            (Queue(rest, SetPhase(q.runs, entry.reply, Delivered(ApprovalDecision(option, who)))), Answered)
          case Elapsed => (q.(pending := rest), Answered)
          case _ => (q.(pending := rest), Unknown)
  }

  /** The timer wins only over a channel with nothing in it. */
  function TimerFires(q: Queue, r: RunId): Queue {
    if r < |q.runs| && q.runs[r].phase.Listening? then q.(runs := SetPhase(q.runs, r, Elapsed)) else q
  }

  /** The wait is over, however it ended, and the receiver is dropped. */
  function Wake(q: Queue, r: RunId): Queue {
    if r >= |q.runs| then q
    else
      match q.runs[r].phase
      case Delivered(answer) => q.(runs := SetPhase(q.runs, r, Leaving(answer)))
      case Disconnected => q.(runs := SetPhase(q.runs, r, Leaving(CLOSED)))
      case Elapsed => q.(runs := SetPhase(q.runs, r, Leaving(SILENCE)))
      case _ => q
  }

  /** Whatever happened, the entry under the run's id goes, even when it is by now another run's. */
  function Finish(q: Queue, r: RunId): Queue {
    if r < |q.runs| && q.runs[r].phase.Leaving? then
      var decision := q.runs[r].phase.decision;
      var left := Remove(q, q.runs[r].request.id);
      left.(runs := SetPhase(left.runs, r, Done(decision)))
    else q
  }

  datatype Step =
    | Asked(request: ApprovalRequest, session: Option<string>)
    | Answering(id: string, option: ApprovalOption, who: string, ceiling: RiskClass)
    | TimerFired(run: RunId)
    | Woke(run: RunId)
    | Finished(run: RunId)

  /** A step that is not possible changes nothing, so every sequence of steps is an interleaving. */
  function Apply(q: Queue, step: Step): Queue {
    match step
    case Asked(request, session) => Ask(q, request, session)
    case Answering(id, option, who, ceiling) => Answer(q, id, option, who, ceiling).0
    case TimerFired(r) => TimerFires(q, r)
    case Woke(r) => Wake(q, r)
    case Finished(r) => Finish(q, r)
  }

  function After(steps: seq<Step>): Queue {
    if steps == [] then Queue(map[], []) else Apply(After(steps[..|steps| - 1]), steps[|steps| - 1])
  }

  // ------------------------------------------------------------------ what every interleaving keeps

  /** The entry holds a run's own question beside that run's own sender, and the run still waits for it. */
  predicate Owned(q: Queue, id: string)
    requires id in q.pending
  {
    var entry := q.pending[id];
    && entry.reply < |q.runs|
    && var run := q.runs[entry.reply];
       && run.request.id == id && entry.session == run.session
       && entry.request == run.request.(session := if run.request.session.Some? then run.request.session
                                                   else run.session)
       && (run.phase.Listening? || run.phase.Elapsed? || run.phase == Leaving(SILENCE))
  }

  predicate EveryEntryOwned(q: Queue) {
    forall id :: id in q.pending ==> Owned(q, id)
  }

  lemma AskKeepsOwners(q: Queue, request: ApprovalRequest, session: Option<string>)
    requires EveryEntryOwned(q)
    ensures EveryEntryOwned(Ask(q, request, session))
  {
    var r := Ask(q, request, session);
    forall id | id in r.pending ensures Owned(r, id) {
      if id in q.pending {
        assert Owned(q, id);
      }
    }
  }

  lemma AnswerKeepsOwners(q: Queue, a: Step)
    requires EveryEntryOwned(q) && a.Answering?
    ensures EveryEntryOwned(Answer(q, a.id, a.option, a.who, a.ceiling).0)
  {
    var r := Answer(q, a.id, a.option, a.who, a.ceiling).0;
    if a.id in q.pending {
      assert Owned(q, a.id);
    }
    forall id | id in r.pending ensures Owned(r, id) {
      assert Owned(q, id);
    }
  }

  lemma FinishKeepsOwners(q: Queue, run: RunId)
    requires EveryEntryOwned(q)
    ensures EveryEntryOwned(Finish(q, run))
  {
    var r := Finish(q, run);
    forall id | id in r.pending ensures Owned(r, id) {
      assert Owned(q, id);
    }
  }

  lemma StepKeepsOwners(q: Queue, step: Step)
    requires EveryEntryOwned(q)
    ensures EveryEntryOwned(Apply(q, step))
  {
    hide Ask, Answer, Finish;
    match step {
      case Asked(request, session) => AskKeepsOwners(q, request, session);
      case Answering(_, _, _, _) => AnswerKeepsOwners(q, step);
      case Finished(run) => FinishKeepsOwners(q, run);
      case _ =>
        forall id | id in q.pending ensures Owned(Apply(q, step), id) {
          assert Owned(q, id);
        }
    }
  }

  /** In every interleaving each open question is owned by a run that has not finished. */
  lemma {:induction false} EntriesAreOwned(steps: seq<Step>)
    ensures EveryEntryOwned(After(steps))
  {
    if steps != [] {
      EntriesAreOwned(steps[..|steps| - 1]);
      StepKeepsOwners(After(steps[..|steps| - 1]), steps[|steps| - 1]);
    }
  }

  /** Once every run has ended nothing is left to answer. */
  lemma QueueDrains(steps: seq<Step>)
    requires forall r :: 0 <= r < |After(steps).runs| ==> After(steps).runs[r].phase.Done?
    ensures After(steps).pending == map[]
  {
    EntriesAreOwned(steps);
    var q := After(steps);
    forall id ensures id !in q.pending {}
  }

  /** A run that still listens has its question open, under its own id and beside its own sender. */
  predicate EveryListenerListed(q: Queue) {
    forall r :: 0 <= r < |q.runs| && q.runs[r].phase.Listening? ==>
      q.runs[r].request.id in q.pending && q.pending[q.runs[r].request.id].reply == r
  }

  lemma AskKeepsListeners(q: Queue, request: ApprovalRequest, session: Option<string>)
    requires EveryEntryOwned(q) && EveryListenerListed(q)
    ensures EveryListenerListed(Ask(q, request, session))
  {
    if request.id in q.pending {
      assert Owned(q, request.id);
    }
  }

  lemma AnswerKeepsListeners(q: Queue, a: Step)
    requires EveryEntryOwned(q) && EveryListenerListed(q) && a.Answering?
    ensures EveryListenerListed(Answer(q, a.id, a.option, a.who, a.ceiling).0)
  {
    if a.id in q.pending {
      assert Owned(q, a.id);
    }
  }

  lemma StepKeepsListeners(q: Queue, step: Step)
    requires EveryEntryOwned(q) && EveryListenerListed(q)
    ensures EveryListenerListed(Apply(q, step))
  {
    hide Ask, Answer, EveryEntryOwned;
    match step {
      case Asked(request, session) => AskKeepsListeners(q, request, session);
      case Answering(_, _, _, _) => AnswerKeepsListeners(q, step);
      case _ =>
    }
  }

  /** In every interleaving each run that still waits can be found by whoever would answer it. */
  lemma {:induction false} ListenersAreListed(steps: seq<Step>)
    ensures EveryListenerListed(After(steps))
  {
    hide Apply;
    if steps != [] {
      ListenersAreListed(steps[..|steps| - 1]);
      EntriesAreOwned(steps[..|steps| - 1]);
      StepKeepsListeners(After(steps[..|steps| - 1]), steps[|steps| - 1]);
    }
  }

  /** A run that ends leaves no question under its id, whoever asked it. */
  lemma FinishingClearsTheId(steps: seq<Step>, r: RunId)
    requires r < |After(steps).runs| && After(steps).runs[r].phase.Leaving?
    ensures var q, left := After(steps), Apply(After(steps), Finished(r));
      && left.pending == q.pending - {q.runs[r].request.id}
      && |left.runs| == |q.runs| && left.runs[r] == q.runs[r].(phase := Done(q.runs[r].phase.decision))
  {
  }

  lemma StepKeepsQuestion(q: Queue, step: Step, r: RunId)
    requires r < |q.runs|
    ensures r < |Apply(q, step).runs| && Apply(q, step).runs[r].request == q.runs[r].request
  {
  }

  lemma {:induction false} RunsKeepTheirQuestion(steps: seq<Step>, k: nat, r: RunId)
    requires k <= |steps| && r < |After(steps[..k]).runs|
    ensures r < |After(steps).runs|
    ensures After(steps).runs[r].request == After(steps[..k]).runs[r].request
  {
    hide Apply;
    if k == |steps| {
      assert steps[..k] == steps;
    } else {
      assert steps[..|steps| - 1][..k] == steps[..k];
      RunsKeepTheirQuestion(steps[..|steps| - 1], k, r);
      StepKeepsQuestion(After(steps[..|steps| - 1]), steps[|steps| - 1], r);
    }
  }

  // ------------------------------------------------------------------ where a decision comes from

  /** Step `k` answered run `r`: it found that run's entry, its ceiling covered the risk, and the send went through. */
  predicate AnsweredAt(steps: seq<Step>, k: nat, r: RunId) {
    && k < |steps| && steps[k].Answering?
    && var q := After(steps[..k]);
       && steps[k].id in q.pending && q.pending[steps[k].id].reply == r
       && Answer(q, steps[k].id, steps[k].option, steps[k].who, steps[k].ceiling).1 == Answered
  }

  predicate Heard(steps: seq<Step>, k: nat, r: RunId) {
    && AnsweredAt(steps, k, r) && r < |After(steps[..k]).runs| && After(steps[..k]).runs[r].phase.Listening?
  }

  predicate Granted(steps: seq<Step>, k: nat, r: RunId, answer: ApprovalDecision) {
    && Heard(steps, k, r) && r < |After(steps).runs|
    && answer == ApprovalDecision(steps[k].option, steps[k].who)
    && Covers(steps[k].ceiling, After(steps).runs[r].request.risk)
  }

  /** What a run was told, if it was told anything. */
  function Told(phase: Phase): Option<ApprovalDecision> {
    match phase
    case Delivered(answer) => Some(answer)
    case Leaving(decision) => if decision == SILENCE || decision == CLOSED then None else Some(decision)
    case Done(decision) => if decision == SILENCE || decision == CLOSED then None else Some(decision)
    case _ => None
  }

  lemma GrantedLater(steps: seq<Step>, k: nat, r: RunId, answer: ApprovalDecision)
    requires steps != [] && Granted(steps[..|steps| - 1], k, r, answer)
    ensures Granted(steps, k, r, answer)
  {
    var was := steps[..|steps| - 1];
    assert was[..k] == steps[..k] && was[k] == steps[k];
    RunsKeepTheirQuestion(steps, |was|, r);
  }

  /** A run is told something new only by an answer to its own entry. */
  lemma NewsComesFromAnAnswer(q: Queue, step: Step, r: RunId)
    requires EveryEntryOwned(q) && r < |Apply(q, step).runs| && Told(Apply(q, step).runs[r].phase).Some?
    requires !(r < |q.runs| && Told(q.runs[r].phase) == Told(Apply(q, step).runs[r].phase))
    ensures step.Answering? && step.id in q.pending && q.pending[step.id].reply == r
    ensures Answer(q, step.id, step.option, step.who, step.ceiling).1 == Answered
    ensures r < |q.runs| && q.runs[r].phase.Listening?
    ensures Told(Apply(q, step).runs[r].phase) == Some(ApprovalDecision(step.option, step.who))
    ensures Covers(step.ceiling, q.runs[r].request.risk)
  {
    assert step.Answering? && Owned(q, step.id);
  }

  lemma {:induction false} WhateverIsToldWasGranted(steps: seq<Step>, r: RunId)
    requires r < |After(steps).runs| && Told(After(steps).runs[r].phase).Some?
    ensures exists k :: Granted(steps, k, r, Told(After(steps).runs[r].phase).value)
  {
    hide Apply, Answer;
    var was, last := steps[..|steps| - 1], |steps| - 1;
    var q, step := After(was), steps[last];
    EntriesAreOwned(was);
    var answer := Told(After(steps).runs[r].phase).value;
    if r < |q.runs| && Told(q.runs[r].phase) == Some(answer) {
      WhateverIsToldWasGranted(was, r);
      var k :| Granted(was, k, r, answer);
      GrantedLater(steps, k, r, answer);
    } else {
      NewsComesFromAnAnswer(q, step, r);
      StepKeepsQuestion(q, step, r);
      assert steps[..last] == was;
      assert Granted(steps, last, r, answer);
    }
  }

  /**
   * In every interleaving, a run ends allowed only if some answer delivered that very option to that very run from
   * a surface whose ceiling covers the risk of the run's own question; every other ending is a denial.
   */
  lemma AllowedRunsWereGranted(steps: seq<Step>, r: RunId)
    requires r < |After(steps).runs| && After(steps).runs[r].phase.Done?
    ensures var decision := After(steps).runs[r].phase.decision;
      decision.option != Deny ==> exists k :: Granted(steps, k, r, decision)
  {
    var decision := After(steps).runs[r].phase.decision;
    if decision.option != Deny {
      WhateverIsToldWasGranted(steps, r);
    }
  }

  // ------------------------------------------------------------------ one answer, and what it does

  predicate NoEntryFor(q: Queue, r: RunId) {
    r < |q.runs| && forall id :: id in q.pending ==> q.pending[id].reply != r
  }

  lemma NoEntryComesBack(q: Queue, step: Step, r: RunId)
    requires NoEntryFor(q, r)
    ensures NoEntryFor(Apply(q, step), r)
  {
  }

  lemma {:induction false} AnsweredEntriesStayGone(steps: seq<Step>, k: nat, r: RunId)
    requires k <= |steps| && NoEntryFor(After(steps[..k]), r)
    ensures NoEntryFor(After(steps), r)
  {
    hide Apply, NoEntryFor;
    if k == |steps| {
      assert steps[..k] == steps;
    } else {
      assert steps[..|steps| - 1][..k] == steps[..k];
      AnsweredEntriesStayGone(steps[..|steps| - 1], k, r);
      NoEntryComesBack(After(steps[..|steps| - 1]), steps[|steps| - 1], r);
    }
  }

  lemma AnswerTakesTheEntry(steps: seq<Step>, k: nat, r: RunId)
    requires AnsweredAt(steps, k, r)
    ensures NoEntryFor(After(steps[..k + 1]), r)
  {
    assert steps[..k + 1][..k] == steps[..k];
    EntriesAreOwned(steps[..k]);
    var q, r' := After(steps[..k]), After(steps[..k + 1]);
    assert Owned(q, steps[k].id);
    forall id | id in r'.pending ensures r'.pending[id].reply != r {
      assert Owned(q, id);
    }
  }

  /** At most one answer to a question is ever told that it was taken. */
  lemma OneAnswerPerQuestion(steps: seq<Step>, j: nat, k: nat, r: RunId)
    requires AnsweredAt(steps, j, r) && AnsweredAt(steps, k, r)
    ensures j == k
  {
    var first, second := if j < k then j else k, if j < k then k else j;
    if first < second {
      AnswerTakesTheEntry(steps, first, r);
      assert steps[..second][..first + 1] == steps[..first + 1];
      AnsweredEntriesStayGone(steps[..second], first + 1, r);
    }
  }

  /** What step `k` was told, if it is an answer. */
  function ToldAt(steps: seq<Step>, k: nat): AnswerResult
    requires k < |steps| && steps[k].Answering?
  {
    Answer(After(steps[..k]), steps[k].id, steps[k].option, steps[k].who, steps[k].ceiling).1
  }

  /**
   * In every interleaving, an answer to no open question is told so and changes nothing. An answer to an open one is
   * judged against the risk of the run's own question; taken, it closes the question and no other, and a run that
   * still listens is handed that option and that name.
   */
  lemma AnswersAreJudged(steps: seq<Step>, k: nat)
    requires k < |steps| && steps[k].Answering?
    ensures var q, a, next := After(steps[..k]), steps[k], After(steps[..k + 1]);
      if a.id !in q.pending then ToldAt(steps, k) == Unknown && next == q
      else
        && var r := q.pending[a.id].reply;
        && r < |q.runs| && q.runs[r].request.id == a.id
        && var run := q.runs[r];
        && (ToldAt(steps, k) == Answered <==>
              Covers(a.ceiling, run.request.risk) && (run.phase.Listening? || run.phase.Elapsed?))
        && (ToldAt(steps, k).AboveCeiling? <==> !Covers(a.ceiling, run.request.risk))
        && (ToldAt(steps, k).AboveCeiling? ==> ToldAt(steps, k) == AboveCeiling(run.request.risk, a.ceiling))
        && next.pending == (if Covers(a.ceiling, run.request.risk) then q.pending - {a.id} else q.pending)
        && next.runs == if Covers(a.ceiling, run.request.risk) && run.phase.Listening?
                        then q.runs[r := run.(phase := Delivered(ApprovalDecision(a.option, a.who)))] else q.runs
  {
    EntriesAreOwned(steps[..k]);
    assert steps[..k + 1][..k] == steps[..k];
    if steps[k].id in After(steps[..k]).pending {
      assert Owned(After(steps[..k]), steps[k].id);
    }
  }

  lemma {:induction false} OnlyAskingReopens(steps: seq<Step>, k: nat, id: string)
    requires k <= |steps| && id !in After(steps[..k]).pending
    requires forall j :: k <= j < |steps| && steps[j].Asked? ==> steps[j].request.id != id
    ensures id !in After(steps).pending
  {
    if k == |steps| {
      assert steps[..k] == steps;
    } else {
      assert steps[..|steps| - 1][..k] == steps[..k];
      OnlyAskingReopens(steps[..|steps| - 1], k, id);
    }
  }

  /** Once an answer to an id was taken, the next is told that nobody waits, until somebody asks under that id again. */
  lemma ASecondAnswerIsUnknown(steps: seq<Step>, j: nat, k: nat)
    requires j < k < |steps| && steps[j].Answering? && steps[k].Answering? && steps[j].id == steps[k].id
    requires ToldAt(steps, j) == Answered
    requires forall i :: j < i < k && steps[i].Asked? ==> steps[i].request.id != steps[k].id
    ensures ToldAt(steps, k) == Unknown
  {
    hide After, Answer;
    AnswersAreJudged(steps, j);
    assert steps[..k][..j + 1] == steps[..j + 1];
    OnlyAskingReopens(steps[..k], j + 1, steps[k].id);
    AnswersAreJudged(steps, k);
  }

  // ------------------------------------------------------------------ why a run ended as it did

  /** Step `k` is the run's timer, and the run was still waiting. */
  predicate TimedOutAt(steps: seq<Step>, k: nat, r: RunId) {
    && k < |steps| && steps[k] == TimerFired(r)
    && r < |After(steps[..k]).runs| && After(steps[..k]).runs[r].phase.Listening?
  }

  /** Step `k` took the run's sender away: another run asked under its id, or ended under it. */
  predicate CutOffAt(steps: seq<Step>, k: nat, r: RunId) {
    && k < |steps|
    && var q := After(steps[..k]);
       && r < |q.runs| && q.runs[r].phase.Listening?
       && match steps[k] {
            case Asked(request, _) => request.id == q.runs[r].request.id
            case Finished(other) => other < |q.runs| && other != r && q.runs[other].request.id == q.runs[r].request.id
            case _ => false
          }
  }

  ghost predicate WasGranted(steps: seq<Step>, r: RunId, answer: ApprovalDecision) {
    exists k :: Granted(steps, k, r, answer)
  }

  ghost predicate WasTimedOut(steps: seq<Step>, r: RunId) {
    exists k :: TimedOutAt(steps, k, r)
  }

  ghost predicate WasCutOff(steps: seq<Step>, r: RunId) {
    exists k :: CutOffAt(steps, k, r)
  }

  ghost predicate Caused(steps: seq<Step>, r: RunId, decision: ApprovalDecision) {
    || WasGranted(steps, r, decision)
    || (decision == SILENCE && WasTimedOut(steps, r))
    || (decision == CLOSED && WasCutOff(steps, r))
  }

  ghost predicate Explained(steps: seq<Step>, r: RunId)
    requires r < |After(steps).runs|
  {
    match After(steps).runs[r].phase
    case Listening => true
    case Delivered(answer) => WasGranted(steps, r, answer)
    case Disconnected => WasCutOff(steps, r)
    case Elapsed => WasTimedOut(steps, r)
    case Leaving(decision) => Caused(steps, r, decision)
    case Done(decision) => Caused(steps, r, decision)
  }

  lemma CausesRemain(steps: seq<Step>, r: RunId)
    requires steps != []
    ensures forall answer | WasGranted(steps[..|steps| - 1], r, answer) :: WasGranted(steps, r, answer)
    ensures WasTimedOut(steps[..|steps| - 1], r) ==> WasTimedOut(steps, r)
    ensures WasCutOff(steps[..|steps| - 1], r) ==> WasCutOff(steps, r)
  {
    hide After;
    var was := steps[..|steps| - 1];
    forall k | 0 <= k < |was| ensures was[..k] == steps[..k] && was[k] == steps[k] {}
    forall answer | WasGranted(was, r, answer) ensures WasGranted(steps, r, answer) {
      var k :| Granted(was, k, r, answer);
      GrantedLater(steps, k, r, answer);
    }
    if WasTimedOut(was, r) {
      var k :| TimedOutAt(was, k, r);
      assert TimedOutAt(steps, k, r);
    }
    if WasCutOff(was, r) {
      var k :| CutOffAt(was, k, r);
      assert CutOffAt(steps, k, r);
    }
  }

  /** What one step can make of one run. */
  lemma PhasesMove(q: Queue, step: Step, r: RunId)
    requires EveryEntryOwned(q) && EveryListenerListed(q) && r < |Apply(q, step).runs|
    ensures var phase := Apply(q, step).runs[r].phase;
      if r >= |q.runs| then phase == Listening
      else
        match q.runs[r].phase {
          case Listening =>
            || phase == Listening
            || (step == TimerFired(r) && phase == Elapsed)
            || (step.Answering? && phase == Delivered(ApprovalDecision(step.option, step.who)))
            || (step.Asked? && step.request.id == q.runs[r].request.id && phase == Disconnected)
            || (step.Finished? && step.run < |q.runs| && step.run != r
                && q.runs[step.run].request.id == q.runs[r].request.id && phase == Disconnected)
          case Delivered(answer) => phase == Delivered(answer) || phase == Leaving(answer)
          case Disconnected => phase == Disconnected || phase == Leaving(CLOSED)
          case Elapsed => phase == Elapsed || phase == Leaving(SILENCE)
          case Leaving(decision) => phase == Leaving(decision) || phase == Done(decision)
          case Done(decision) => phase == Done(decision)
        }
  {
    if step.Answering? && step.id in q.pending {
      assert Owned(q, step.id);
    }
    if step.Asked? && step.request.id in q.pending {
      assert Owned(q, step.request.id);
    }
    if step.Finished? && step.run < |q.runs| && q.runs[step.run].request.id in q.pending {
      assert Owned(q, q.runs[step.run].request.id);
    }
  }

  lemma {:induction false} EveryPhaseIsExplained(steps: seq<Step>, r: RunId)
    requires r < |After(steps).runs|
    ensures Explained(steps, r)
  {
    hide Apply, WasGranted, WasTimedOut, WasCutOff, EveryEntryOwned, EveryListenerListed;
    var was := steps[..|steps| - 1];
    EntriesAreOwned(was);
    ListenersAreListed(was);
    PhasesMove(After(was), steps[|steps| - 1], r);
    if r < |After(was).runs| {
      EveryPhaseIsExplained(was, r);
      CausesRemain(steps, r);
      if After(was).runs[r].phase.Listening? {
        ListenerIsExplained(steps, r);
      }
    }
  }

  lemma ListenerIsExplained(steps: seq<Step>, r: RunId)
    requires steps != [] && r < |After(steps).runs|
    requires var q := After(steps[..|steps| - 1]); r < |q.runs| && q.runs[r].phase.Listening?
    ensures Explained(steps, r)
  {
    hide Apply, Answer;
    var was, last := steps[..|steps| - 1], |steps| - 1;
    var q, step := After(was), steps[last];
    assert steps[..last] == was;
    EntriesAreOwned(was);
    ListenersAreListed(was);
    PhasesMove(q, step, r);
    match After(steps).runs[r].phase {
      case Elapsed => assert TimedOutAt(steps, last, r);
      case Disconnected => assert CutOffAt(steps, last, r);
      case Delivered(answer) =>
        NewsComesFromAnAnswer(q, step, r);
        StepKeepsQuestion(q, step, r);
        assert Granted(steps, last, r, answer);
      case _ =>
    }
  }

  /**
   * In every interleaving a run ends for one of three reasons: an answer its own ceiling allowed was delivered to it
   * and is what it ends with, its timer found it waiting, or another run under its id took its sender away.
   */
  lemma EveryEndHasItsCause(steps: seq<Step>, r: RunId)
    requires r < |After(steps).runs| && After(steps).runs[r].phase.Done?
    ensures Caused(steps, r, After(steps).runs[r].phase.decision)
  {
    EveryPhaseIsExplained(steps, r);
  }

  predicate DecidedBy(phase: Phase, answer: ApprovalDecision) {
    phase == Delivered(answer) || phase == Leaving(answer) || phase == Done(answer)
  }

  lemma StepKeepsDecisions(q: Queue, step: Step, r: RunId, answer: ApprovalDecision)
    requires EveryEntryOwned(q) && r < |q.runs|
    requires DecidedBy(q.runs[r].phase, answer)
    ensures r < |Apply(q, step).runs| && DecidedBy(Apply(q, step).runs[r].phase, answer)
  {
    if step.Answering? && step.id in q.pending {
      assert Owned(q, step.id);
    }
  }

  lemma {:induction false} AnswersStick(steps: seq<Step>, k: nat, r: RunId, answer: ApprovalDecision)
    requires k <= |steps| && r < |After(steps[..k]).runs| && DecidedBy(After(steps[..k]).runs[r].phase, answer)
    ensures r < |After(steps).runs| && DecidedBy(After(steps).runs[r].phase, answer)
  {
    hide Apply;
    if k == |steps| {
      assert steps[..k] == steps;
    } else {
      var was := steps[..|steps| - 1];
      assert was[..k] == steps[..k];
      AnswersStick(was, k, r, answer);
      EntriesAreOwned(was);
      StepKeepsDecisions(After(was), steps[|steps| - 1], r, answer);
    }
  }

  lemma LateStaysLate(q: Queue, step: Step, r: RunId)
    requires EveryEntryOwned(q) && r < |q.runs| && q.runs[r].phase.Elapsed?
    ensures r < |Apply(q, step).runs|
    ensures Apply(q, step).runs[r].phase.Elapsed? || DecidedBy(Apply(q, step).runs[r].phase, SILENCE)
  {
    if step.Answering? && step.id in q.pending {
      assert Owned(q, step.id);
    }
  }

  lemma {:induction false} LateRunsAreDenied(steps: seq<Step>, k: nat, r: RunId)
    requires k <= |steps| && r < |After(steps[..k]).runs|
    requires After(steps[..k]).runs[r].phase.Elapsed? || DecidedBy(After(steps[..k]).runs[r].phase, SILENCE)
    ensures r < |After(steps).runs|
    ensures After(steps).runs[r].phase.Elapsed? || DecidedBy(After(steps).runs[r].phase, SILENCE)
  {
    hide Apply;
    if k == |steps| {
      assert steps[..k] == steps;
    } else {
      var was := steps[..|steps| - 1];
      assert was[..k] == steps[..k];
      LateRunsAreDenied(was, k, r);
      EntriesAreOwned(was);
      if After(was).runs[r].phase.Elapsed? {
        LateStaysLate(After(was), steps[|steps| - 1], r);
      } else {
        StepKeepsDecisions(After(was), steps[|steps| - 1], r, SILENCE);
      }
    }
  }

  /**
   * An answer that was taken decides its run exactly when the run's timer had not fired: otherwise the caller was told
   * "answered", and the run still ends as nobody having answered.
   */
  lemma TakenAnswersDecideUnlessLate(steps: seq<Step>, k: nat, r: RunId)
    requires AnsweredAt(steps, k, r) && r < |After(steps).runs| && After(steps).runs[r].phase.Done?
    ensures After(steps).runs[r].phase.decision
            == if Heard(steps, k, r) then ApprovalDecision(steps[k].option, steps[k].who) else SILENCE
  {
    EntriesAreOwned(steps[..k]);
    assert Owned(After(steps[..k]), steps[k].id);
    assert steps[..k + 1][..k] == steps[..k];
    if Heard(steps, k, r) {
      AnswersStick(steps, k + 1, r, ApprovalDecision(steps[k].option, steps[k].who));
    } else {
      LateRunsAreDenied(steps, k, r);
    }
  }

  lemma OneMoreStep(steps: seq<Step>, step: Step, more: seq<Step>)
    requires more == steps + [step]
    ensures After(more) == Apply(After(steps), step)
  {
    assert more[..|steps|] == steps;
  }

  /** Such a late answer: told "answered" with a yes, for any question, and the run still ends as unanswered. */
  lemma ALateAnswerIsTakenInVain(request: ApprovalRequest, who: string)
    ensures var steps := [Asked(request, None), TimerFired(0), Answering(request.id, AllowOnce, who, request.risk),
                          Woke(0), Finished(0)];
      && AnsweredAt(steps, 2, 0) && !Heard(steps, 2, 0)
      && |After(steps).runs| == 1 && After(steps).runs[0].phase == Done(SILENCE)
  {
    var asked, fired := Asked(request, None), TimerFired(0);
    var answering := Answering(request.id, AllowOnce, who, request.risk);
    var steps := [asked, fired, answering, Woke(0), Finished(0)];
    hide After;
    assert After([]) == Queue(map[], []) by { NothingYet(); }
    OneMoreStep([], asked, [asked]);
    OneMoreStep([asked], fired, [asked, fired]);
    OneMoreStep([asked, fired], answering, [asked, fired, answering]);
    OneMoreStep([asked, fired, answering], Woke(0), [asked, fired, answering, Woke(0)]);
    OneMoreStep([asked, fired, answering, Woke(0)], Finished(0), steps);
    assert steps[..2] == [asked, fired];
  }

  lemma NothingYet()
    ensures After([]) == Queue(map[], [])
  {
  }

  /** An answer is refused exactly when its surface's ceiling is too low for the question held; nothing changes then. */
  lemma AboveCeilingChangesNothing(q: Queue, a: Step)
    requires a.Answering?
    ensures var result := Answer(q, a.id, a.option, a.who, a.ceiling).1;
      && (result.AboveCeiling? <==> a.id in q.pending && !Covers(a.ceiling, q.pending[a.id].request.risk))
      && (result.AboveCeiling? ==> Apply(q, a) == q)
  {
  }

  /** A refused answer leaves no trace: whatever happens later happens as if it had never been given. */
  lemma {:induction false} AboveCeilingLeavesNoTrace(steps: seq<Step>, k: nat)
    requires k < |steps| && steps[k].Answering?
    requires var a := steps[k]; Answer(After(steps[..k]), a.id, a.option, a.who, a.ceiling).1.AboveCeiling?
    ensures After(steps) == After(steps[..k] + steps[k + 1..])
  {
    hide After, Apply, Answer;
    var last := |steps| - 1;
    var was, without := steps[..last], steps[..k] + steps[k + 1..];
    OneMoreStep(was, steps[last], steps);
    if k == last {
      assert without == was;
      AboveCeilingChangesNothing(After(was), steps[k]);
    } else {
      assert was[..k] == steps[..k];
      AboveCeilingLeavesNoTrace(was, k);
      OneMoreStep(was[..k] + was[k + 1..], steps[last], without);
    }
  }
}

/** Strings in the order a map of strings lists its keys. */
module KeyOrder {
  predicate Less(a: string, b: string) {
    b != [] && (a == [] || a[0] < b[0] || (a[0] == b[0] && Less(a[1..], b[1..])))
  }

  lemma {:induction false} Total(a: string, b: string)
    ensures a == b || Less(a, b) || Less(b, a)
    ensures !(Less(a, b) && Less(b, a)) && !Less(a, a)
  {
    if a != [] && b != [] && a[0] == b[0] {
      Total(a[1..], b[1..]);
      assert a == [a[0]] + a[1..] && b == [b[0]] + b[1..];
    }
    if a != [] {
      Total(a[1..], a[1..]);
    }
  }

  lemma {:induction false} Transitive(a: string, b: string, c: string)
    requires Less(a, b) && Less(b, c)
    ensures Less(a, c)
  {
    if a != [] && a[0] == b[0] && b[0] == c[0] {
      Transitive(a[1..], b[1..], c[1..]);
    }
  }

  predicate IsLeast(k: string, keys: set<string>) {
    k in keys && forall j :: j in keys && j != k ==> Less(k, j)
  }

  method Least(keys: set<string>) returns (k: string)
    requires keys != {}
    ensures IsLeast(k, keys)
  {
    k :| k in keys;
    var left := keys - {k};
    while left != {}
      invariant left <= keys && k in keys && k !in left
      invariant forall j :: j in keys - left && j != k ==> Less(k, j)
      decreases left
    {
      var j :| j in left;
      Total(j, k);
      if Less(j, k) {
        forall i | i in keys - left && i != k ensures Less(j, i) {
          Transitive(j, k, i);
        }
        k := j;
      }
      left := left - {j};
    }
  }
}

/** The queue as it is kept: one map, updated in place by every task. */
module ApprovalQueue {
  import opened Wrappers
  import opened Risk
  import opened Approval
  import opened QueueProtocol
  import opened KeyOrder

  /** `shown` is the open questions of one session, or of all, each once and in the order of their ids. */
  ghost predicate Lists(pending: map<string, Waiting>, session: Option<string>, shown: seq<ApprovalRequest>) {
    && (forall i, j :: 0 <= i < j < |shown| ==> Less(shown[i].id, shown[j].id))
    && (forall request :: request in shown <==>
          exists id :: id in pending && (session.None? || pending[id].session == session)
                       && pending[id].request == request)
  }

  predicate Wanted(entry: Waiting, session: Option<string>) {
    session.None? || entry.session == session
  }

  /** Each question shown was asked before the next: runs are named in the order of their asking. */
  predicate OldestFirst(pending: map<string, Waiting>, shown: seq<ApprovalRequest>) {
    && (forall request :: request in shown ==> request.id in pending)
    && forall i, j :: 0 <= i < j < |shown| ==> pending[shown[i].id].reply < pending[shown[j].id].reply
  }

  /** Among a session's open questions, ids in increasing order were asked in that order. */
  predicate IdsFollowAge(pending: map<string, Waiting>, session: Option<string>) {
    forall a, b ::
      (a in pending && b in pending && Wanted(pending[a], session) && Wanted(pending[b], session) && Less(a, b)) ==>
        pending[a].reply < pending[b].reply
  }

  lemma ShownAt(q: Queue, session: Option<string>, shown: seq<ApprovalRequest>, id: string) returns (k: nat)
    requires EveryEntryOwned(q) && Lists(q.pending, session, shown)
    requires id in q.pending && Wanted(q.pending[id], session)
    ensures k < |shown| && shown[k].id == id
  {
    assert Owned(q, id);
    assert q.pending[id].request in shown;
    k :| k < |shown| && shown[k] == q.pending[id].request;
  }

  lemma ShownIsOpen(q: Queue, session: Option<string>, shown: seq<ApprovalRequest>, k: nat)
    requires EveryEntryOwned(q) && Lists(q.pending, session, shown) && k < |shown|
    ensures shown[k].id in q.pending && Wanted(q.pending[shown[k].id], session)
    ensures q.pending[shown[k].id].request == shown[k]
  {
    assert shown[k] in shown;
    var id :| id in q.pending && Wanted(q.pending[id], session) && q.pending[id].request == shown[k];
    assert Owned(q, id);
  }

  /** A listing is oldest first exactly when the session's open questions happen to have been asked in id order. */
  lemma ListedOldestFirstExactlyWhen(q: Queue, session: Option<string>, shown: seq<ApprovalRequest>)
    requires EveryEntryOwned(q) && Lists(q.pending, session, shown)
    ensures OldestFirst(q.pending, shown) <==> IdsFollowAge(q.pending, session)
  {
    hide EveryEntryOwned;
    forall request | request in shown ensures request.id in q.pending {
      var k :| 0 <= k < |shown| && shown[k] == request;
      ShownIsOpen(q, session, shown, k);
    }
    if OldestFirst(q.pending, shown) {
      forall a, b | a in q.pending && b in q.pending && Wanted(q.pending[a], session) && Wanted(q.pending[b], session)
                    && Less(a, b)
        ensures q.pending[a].reply < q.pending[b].reply
      {
        var i := ShownAt(q, session, shown, a);
        var j := ShownAt(q, session, shown, b);
        Total(a, b);
      }
    }
    if IdsFollowAge(q.pending, session) {
      forall i, j | 0 <= i < j < |shown| ensures q.pending[shown[i].id].reply < q.pending[shown[j].id].reply {
        ShownIsOpen(q, session, shown, i);
        ShownIsOpen(q, session, shown, j);
      }
    }
  }

  /** Two questions asked against the order of their ids are listed the younger first. */
  lemma TheYoungerCanComeFirst(shown: seq<ApprovalRequest>)
    requires Lists(After([Asked(SECOND, None), Asked(FIRST, None)]).pending, None, shown)
    ensures shown == [FIRST, SECOND]
    ensures !OldestFirst(After([Asked(SECOND, None), Asked(FIRST, None)]).pending, shown)
  {
    var steps := [Asked(SECOND, None), Asked(FIRST, None)];
    NothingYet();
    OneMoreStep([], steps[0], [steps[0]]);
    OneMoreStep([steps[0]], steps[1], steps);
    EntriesAreOwned(steps);
    var q := After(steps);
    assert q.pending == map["b" := Waiting(SECOND, None, 0), "a" := Waiting(FIRST, None, 1)];
    var i := ShownAt(q, None, shown, "a");
    var j := ShownAt(q, None, shown, "b");
    assert Less("a", "b") && !Less("b", "a");
    assert i < j;
    OnePlaceEach(q, shown, i, j, 0);
    OnePlaceEach(q, shown, i, j, 1);
    if |shown| > 2 {
      OnePlaceEach(q, shown, i, j, 2);
    }
    ShownIsOpen(q, None, shown, 0);
    ShownIsOpen(q, None, shown, 1);
  }

  /** With two questions open, one shown at `i` and the other at `j`, there is no third place. */
  lemma OnePlaceEach(q: Queue, shown: seq<ApprovalRequest>, i: nat, j: nat, k: nat)
    requires EveryEntryOwned(q) && Lists(q.pending, None, shown)
    requires i < j < |shown| && k < |shown| && q.pending.Keys == {shown[i].id, shown[j].id}
    ensures k == i || k == j
  {
    ShownIsOpen(q, None, shown, k);
    Total(shown[i].id, shown[i].id);
    Total(shown[j].id, shown[j].id);
  }

  const FIRST := ApprovalRequest("a", RiskClass.Read, "", None)
  const SECOND := ApprovalRequest("b", RiskClass.Read, "", None)

  class ApprovalQueue {
    var pending: map<string, Waiting>
    var runs: seq<Run>

    function State(): Queue
      reads this
    {
      Queue(pending, runs)
    }

    constructor ()
      ensures State() == After([])
    {
      pending := map[];
      runs := [];
    }

    /** A run puts its question, and gets the name of its reply channel. */
    method Ask(request: ApprovalRequest, session: Option<string>) returns (run: RunId)
      modifies this
      ensures State() == Apply(old(State()), Asked(request, session))
      ensures run == |old(runs)| && runs[run] == Run(request, session, Listening)
    {
      run := |runs|;
      if request.id in pending {
        runs := DropSender(runs, pending[request.id].reply);
      }
      pending := pending[request.id := Waiting(ShownRequest(request, session), session, run)];
      runs := runs + [Run(request, session, Listening)];
    }

    method Answer(id: string, option: ApprovalOption, who: string, ceiling: RiskClass) returns (result: AnswerResult)
      modifies this
      ensures (State(), result) == QueueProtocol.Answer(old(State()), id, option, who, ceiling)
    {
      if id !in pending {
        return Unknown;
      }
      var risk := pending[id].request.risk;
      if !Covers(ceiling, risk) {
        return AboveCeiling(risk, ceiling);
      }
      var reply := pending[id].reply;
      pending := pending - {id};
      if reply < |runs| && runs[reply].phase.Listening? {
        runs := SetPhase(runs, reply, Delivered(ApprovalDecision(option, who)));
        return Answered;
      }
      result := if reply < |runs| && runs[reply].phase.Elapsed? then Answered else Unknown;
    }

    method FireTimer(run: RunId)
      modifies this
      ensures State() == Apply(old(State()), TimerFired(run))
    {
      if run < |runs| && runs[run].phase.Listening? {
        runs := SetPhase(runs, run, Elapsed);
      }
    }

    method StopWaiting(run: RunId)
      modifies this
      ensures State() == Apply(old(State()), Woke(run))
    {
      if run < |runs| {
        match runs[run].phase {
          case Delivered(answer) => runs := SetPhase(runs, run, Leaving(answer));
          case Disconnected => runs := SetPhase(runs, run, Leaving(CLOSED));
          case Elapsed => runs := SetPhase(runs, run, Leaving(SILENCE));
          case _ =>
        }
      }
    }

    /** The run removes whatever stands under its id, and returns its decision. */
    method TakeDecision(run: RunId) returns (decision: ApprovalDecision)
      requires run < |runs| && runs[run].phase.Leaving?
      modifies this
      ensures State() == Apply(old(State()), Finished(run))
      ensures decision == old(runs[run].phase.decision)
    {
      decision := runs[run].phase.decision;
      var id := runs[run].request.id;
      if id in pending {
        runs := DropSender(runs, pending[id].reply);
        pending := pending - {id};
      }
      runs := SetPhase(runs, run, Done(decision));
    }

    method Outstanding(session: Option<string>) returns (shown: seq<ApprovalRequest>)
      requires EveryEntryOwned(State())
      ensures Lists(pending, session, shown)
    {
      shown := [];
      var left := pending.Keys;
      while left != {}
        invariant left <= pending.Keys
        invariant forall i, j :: 0 <= i < j < |shown| ==> Less(shown[i].id, shown[j].id)
        invariant forall request, id :: request in shown && id in left ==> Less(request.id, id)
        invariant forall request :: request in shown <==>
          exists id :: id in pending.Keys - left && Wanted(pending[id], session) && pending[id].request == request
        decreases left
      {
        var id := Least(left);
        var before, entry := left, pending[id];
        assert Owned(State(), id);
        left := left - {id};
        if Wanted(entry, session) {
          shown := shown + [entry.request];
        }
        forall request ensures request in shown <==>
          exists id :: id in pending.Keys - left && Wanted(pending[id], session) && pending[id].request == request
        {
          assert forall k :: k in pending.Keys - left <==> k in pending.Keys - before || k == id;
        }
      }
    }

    method IsEmpty() returns (empty: bool)
      ensures empty <==> forall id :: id !in pending
    {
      empty := pending == map[];
    }
  }
}
