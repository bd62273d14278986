/** The calls a run announces are the calls its model made: each once, in order, and all of them. */
module AgentCalls {
  import opened Wrappers
  import opened Messages
  import opened Context
  import opened AgentWorld
  import opened AgentMonitor
  import opened AgentSpec
  import opened AgentTheorems
  import opened AgentResults
  import opened AgentGate

  predicate Answers(step: Step) {
    step.ModelAsked? && step.reply.Answered?
  }

  /** The model's latest answer is the one at `k`. */
  predicate LatestAnswer(h: seq<Step>, k: nat) {
    k < |h| && Answers(h[k]) && forall j :: k < j < |h| ==> !Answers(h[j])
  }

  function Said(h: seq<Step>, k: nat): Message
    requires LatestAnswer(h, k)
  {
    h[k].reply.response.message
  }

  /** The calls announced over a stretch, in order. */
  function Announced(h: seq<Step>): seq<Call> {
    if h == [] then []
    else Announced(h[..|h| - 1]) + match h[|h| - 1] { case Emitted(ToolCallStarted(call)) => [call] case _ => [] }
  }

  /** The calls announced since the latest answer. */
  function Since(h: seq<Step>, k: nat): seq<Call>
    requires LatestAnswer(h, k)
  {
    Announced(h[k..])
  }

  lemma OneMoreAnnounced(h: seq<Step>, step: Step)
    ensures Announced(h + [step])
            == Announced(h) + match step { case Emitted(ToolCallStarted(call)) => [call] case _ => [] }
  {
    assert (h + [step])[..|h|] == h;
  }

  /** The calls due are those of the latest answer less those announced since, once the answer is pushed. */
  ghost predicate DueAre(h: seq<Step>, g: Gate, due: seq<Call>) {
    if g.Closed? && g.said.Some? then
      due == [] && exists k: nat :: LatestAnswer(h, k) && Said(h, k) == g.said.value.message && Since(h, k) == []
    else
      || (due == [] && forall k :: 0 <= k < |h| ==> !Answers(h[k]))
      || exists k: nat :: LatestAnswer(h, k) && Since(h, k) + due == ToolCallsOf(Said(h, k))
  }

  lemma LatestStays(h: seq<Step>, k: nat, step: Step)
    requires LatestAnswer(h, k) && !Answers(step)
    ensures LatestAnswer(h + [step], k) && Said(h + [step], k) == Said(h, k)
    ensures Since(h + [step], k)
            == Since(h, k) + match step { case Emitted(ToolCallStarted(call)) => [call] case _ => [] }
  {
    assert (h + [step])[k..] == h[k..] + [step];
    OneMoreAnnounced(h[k..], step);
  }

  lemma AnswerResets(h: seq<Step>, step: Step)
    requires Answers(step)
    ensures LatestAnswer(h + [step], |h|) && Said(h + [step], |h|) == step.reply.response.message
    ensures Since(h + [step], |h|) == []
  {
    hide Announced;
    assert (h + [step])[|h|..] == [] + [step];
    OneMoreAnnounced([], step);
    NothingAnnounced();
  }

  lemma NothingAnnounced()
    ensures Announced([]) == []
  {
  }

  predicate ClosesTheTurn(step: Step) {
    step.ModelAsked? || (step.Emitted? && (step.event.TurnStarted? || step.event.TurnFinished?))
  }

  /** What a step other than an answer does to the gate's hold on the latest answer. */
  lemma SaidMoves(w: World, g: Gate, step: Step)
    requires !GateStep(w, g, step).Violated?
    ensures var r := GateStep(w, g, step);
      && (Answers(step) ==> g == Closed(None) && r == Closed(Some(step.reply.response)))
      && (!Answers(step) && r.Closed? && r.said.Some? ==> r == g)
      && (!Answers(step) && g.Closed? && g.said.Some? && r != g ==> step.Pushed?)
      && (g.Closed? && step.Pushed? ==> g.said.Some? && step.message == g.said.value.message && r == Closed(None))
      && (Starts(step) || ClosesTheTurn(step) ==> g == Closed(None))
  {
    hide MayRun, MayDeliver, AsksAbout, Covered, ResolvedAndGranted;
  }

  lemma DueOneMore(h: seq<Step>, w: World, g: Gate, due: seq<Call>, step: Step)
    requires DueAre(h, g, due) && !GateStep(w, g, step).Violated? && DueStep(g, Some(due), step).Some?
    ensures DueAre(h + [step], GateStep(w, g, step), DueStep(g, Some(due), step).value)
  {
    hide GateStep, LatestAnswer, Announced, Since, ToolCallsOf;
    SaidMoves(w, g, step);
    var more := h + [step];
    if Answers(step) {
      AnswerResets(h, step);
    } else if g.Closed? && g.said.Some? {
      var k: nat :| LatestAnswer(h, k) && Said(h, k) == g.said.value.message && Since(h, k) == [];
      LatestStays(h, k, step);
    } else if k: nat :| LatestAnswer(h, k) && Since(h, k) + due == ToolCallsOf(Said(h, k)) {
      LatestStays(h, k, step);
      NotYetPushed(g, due, step);
      assert Since(more, k) + DueStep(g, Some(due), step).value == Since(h, k) + due;
    } else {
      NotYetPushed(g, due, step);
    }
  }

  lemma NotYetPushed(g: Gate, due: seq<Call>, step: Step)
    requires !(g.Closed? && step.Pushed?) && DueStep(g, Some(due), step).Some?
    ensures due == (match step { case Emitted(ToolCallStarted(call)) => [call] case _ => [] })
                   + DueStep(g, Some(due), step).value
  {
  }

  lemma {:induction false} DueIsBacked(x: Setup, h: seq<Step>)
    requires !Observe(x, h).gate.Violated? && Observe(x, h).due.Some?
    ensures DueAre(h, Observe(x, h).gate, Observe(x, h).due.value)
  {
    hide GateStep, DueAre, DueStep;
    if h == [] {
      NothingDue();
    } else {
      var was, step := h[..|h| - 1], h[|h| - 1];
      assert h == was + [step];
      GateOneMore(x, was, step);
      StillDue(x, was, step);
      DueIsBacked(x, was);
      DueOneMore(was, x.w, Observe(x, was).gate, Observe(x, was).due.value, step);
    }
  }

  lemma NothingDue()
    ensures DueAre([], Closed(None), [])
  {
  }

  lemma StillDue(x: Setup, h: seq<Step>, step: Step)
    ensures Observe(x, h + [step]).due == DueStep(Observe(x, h).gate, Observe(x, h).due, step)
    ensures Observe(x, h).due.None? ==> Observe(x, h + [step]).due.None?
  {
    hide GateStep, StoreStep, CountStep, BracketStep, RequestFits;
    ObserveOneMore(x, h, step);
  }

  lemma {:induction false} DueWasNeverLost(x: Setup, h: seq<Step>, i: nat)
    requires i <= |h| && Observe(x, h).due.Some?
    ensures Observe(x, h[..i]).due.Some?
  {
    hide Observe;
    if i == |h| {
      assert h[..i] == h;
    } else {
      assert h == h[..|h| - 1] + [h[|h| - 1]] && h[..|h| - 1][..i] == h[..i];
      StillDue(x, h[..|h| - 1], h[|h| - 1]);
      DueWasNeverLost(x, h[..|h| - 1], i);
    }
  }

  lemma RunKeepsItsCalls(x: Setup)
    ensures Observe(x, History(x)).due.Some? && !Observe(x, History(x)).gate.Violated?
  {
    RunIsSeen(x);
    hide Run, Observe, Accounted, Sound, RightText;
  }

  /** Before exchange `i`, what is due is what the history says, and the exchange respects it. */
  lemma DueAt(x: Setup, i: nat)
    requires i < |History(x)|
    ensures var (h, v, step) := (History(x)[..i], Observe(x, History(x)[..i]), History(x)[i]);
      v.due.Some? && DueAre(h, v.gate, v.due.value) && DueStep(v.gate, v.due, step).Some?
      && !GateStep(x.w, v.gate, step).Violated?
  {
    hide Run, Observe, GateStep, DueStep, DueAre, Backed;
    GateAt(x, i);
    RunKeepsItsCalls(x);
    var h := History(x);
    DueWasNeverLost(x, h, i + 1);
    DueWasNeverLost(x, h, i);
    GateWasNeverViolated(x, h, i);
    assert h[..i + 1] == h[..i] + [h[i]];
    StillDue(x, h[..i], h[i]);
    DueIsBacked(x, h[..i]);
  }

  /**
   * In every run, each call announced is the next call of the model's latest answer, name and arguments and all; and
   * when the model is asked again, a turn starts or the run reports its end, every call of that answer was announced.
   */
  lemma CallsAreServedAsMade(x: Setup, i: nat)
    requires i < |History(x)|
    ensures var (h, step) := (History(x)[..i], History(x)[i]);
      && (Starts(step) ==>
            exists k: nat :: LatestAnswer(h, k) && Since(h, k) + [step.event.call] <= ToolCallsOf(Said(h, k)))
      && (ClosesTheTurn(step) ==>
            forall k: nat :: LatestAnswer(h, k) ==> Since(h, k) == ToolCallsOf(Said(h, k)))
  {
    hide Run, Observe, GateStep, Since, ToolCallsOf;
    DueAt(x, i);
    var (h, v, step) := (History(x)[..i], Observe(x, History(x)[..i]), History(x)[i]);
    SaidMoves(x.w, v.gate, step);
    if Starts(step) {
      assert v.due.value[..1] == [step.event.call];
      var k: nat :| LatestAnswer(h, k) && Since(h, k) + v.due.value == ToolCallsOf(Said(h, k));
      assert Since(h, k) + [step.event.call] <= Since(h, k) + v.due.value;
    }
    if ClosesTheTurn(step) {
      forall k: nat | LatestAnswer(h, k) ensures Since(h, k) == ToolCallsOf(Said(h, k)) {
        var j: nat :| LatestAnswer(h, j) && Since(h, j) + v.due.value == ToolCallsOf(Said(h, j));
        assert j == k;
      }
    }
  }
}
