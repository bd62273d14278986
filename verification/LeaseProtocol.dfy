/**
 * A routed model call: reserve, resolve, call, settle. Any number of calls through any number of callables interleave
 * at the lock boundaries of one shared router; each step below is what one call does between two such boundaries.
 */
module LeaseProtocol {
  import opened Wrappers

  type Callable = nat

  datatype Lease = Lease(id: nat, provider: string, credential: string, model: string)

  datatype Settlement = Settlement(lease: Lease, callable: Callable, kind: Kind)

  datatype Kind = Reconciled(tokens: nat, cost: real) | Released

  datatype Phase =
    | Arrived
    | Estimated
    | Holding(lease: Lease)                               // reserved, the adapter not yet found
    | Resolved(lease: Lease)                              // adapter found, the key not yet read
    | Calling(lease: Lease)                               // the request is with the provider, no lock held
    | Answered(lease: Lease, tokens: nat)
    | Failed(lease: Lease, auth: bool)
    | Settled(lease: Lease)                               // reconciled, the route not yet recorded
    | Returned(used: Option<Lease>, ok: bool)

  datatype Call = Call(callable: Callable, phase: Phase)

  datatype Deployment = Deployment(
    next: nat,
    live: set<nat>,
    log: seq<Settlement>,
    benched: set<(string, string)>,
    spent: map<Callable, real>,
    last: map<Callable, (string, string)>,
    calls: seq<Call>)

  const IDLE := Deployment(0, {}, [], {}, map[], map[], [])

  datatype Step =
    | Arrives(callable: Callable)
    | Estimates(call: nat, possible: bool)
    | Acquires(call: nat, route: Option<(string, string, string)>)
    | FindsProvider(call: nat, found: bool)
    | FindsKey(call: nat, found: bool)
    | ProviderAnswers(call: nat, tokens: nat)
    | ProviderFails(call: nat, auth: bool)
    | Reconciles(call: nat, cost: real)
    | GivesBack(call: nat)
    | Records(call: nat)

  predicate Holds(phase: Phase) {
    phase.Holding? || phase.Resolved? || phase.Calling? || phase.Answered? || phase.Failed?
  }

  function SpentBy(d: Deployment, c: Callable): real {
    if c in d.spent then d.spent[c] else 0.0
  }

  function At(d: Deployment, c: nat, phase: Phase): Deployment
    requires c < |d.calls|
  {
    d.(calls := d.calls[c := d.calls[c].(phase := phase)])
  }

  /** The lease leaves the books, and how it left is on record. */
  function Settle(d: Deployment, lease: Lease, callable: Callable, kind: Kind): Deployment {
    d.(live := d.live - {lease.id}, log := d.log + [Settlement(lease, callable, kind)])
  }

  function ReleaseAndReturn(d: Deployment, c: nat, lease: Lease): Deployment
    requires c < |d.calls|
  {
    At(Settle(d, lease, d.calls[c].callable, Released), c, Returned(Some(lease), false))
  }

  /** What call `c` does next, when `step` is what it does next. */
  function Move(d: Deployment, c: nat, step: Step): Deployment
    requires c < |d.calls|
  {
    var call := d.calls[c];
    match (call.phase, step)
    case (Arrived, Estimates(_, possible)) => At(d, c, if possible then Estimated else Returned(None, false))
    case (Estimated, Acquires(_, None)) => At(d, c, Returned(None, false))
    case (Estimated, Acquires(_, Some(route))) =>
      At(d.(next := d.next + 1, live := d.live + {d.next}), c, Holding(Lease(d.next, route.0, route.1, route.2)))
    case (Holding(lease), FindsProvider(_, found)) =>
      if found then At(d, c, Resolved(lease)) else ReleaseAndReturn(d, c, lease)
    case (Resolved(lease), FindsKey(_, found)) =>
      if found then At(d, c, Calling(lease)) else ReleaseAndReturn(d, c, lease)
    case (Calling(lease), ProviderAnswers(_, tokens)) => At(d, c, Answered(lease, tokens))
    case (Calling(lease), ProviderFails(_, auth)) => At(d, c, Failed(lease, auth))
    case (Answered(lease, tokens), Reconciles(_, cost)) =>
      var paid := d.(spent := d.spent[call.callable := SpentBy(d, call.callable) + cost]);
      At(Settle(paid, lease, call.callable, Reconciled(tokens, cost)), c, Settled(lease))
    case (Failed(lease, auth), GivesBack(_)) =>
      ReleaseAndReturn(if auth then d.(benched := d.benched + {(lease.provider, lease.credential)}) else d, c, lease)
    case (Settled(lease), Records(_)) =>
      At(d.(last := d.last[call.callable := (lease.provider, lease.credential)]), c, Returned(Some(lease), true))
    case _ => d
  }

  /** A step that is not possible changes nothing, so every sequence of steps is an interleaving. */
  function Apply(d: Deployment, step: Step): Deployment {
    if step.Arrives? then d.(calls := d.calls + [Call(step.callable, Arrived)])
    else if step.call < |d.calls| then Move(d, step.call, step)
    else d
  }

  function ApplyAll(d: Deployment, steps: seq<Step>): Deployment {
    if steps == [] then d else Apply(ApplyAll(d, steps[..|steps| - 1]), steps[|steps| - 1])
  }

  function After(steps: seq<Step>): Deployment {
    ApplyAll(IDLE, steps)
  }

  // ------------------------------------------------------------------ the books

  /** How often a lease was settled. */
  function TimesSettled(log: seq<Settlement>, id: nat): nat {
    if log == [] then 0
    else TimesSettled(log[..|log| - 1], id) + if log[|log| - 1].lease.id == id then 1 else 0
  }

  /** What was paid through one callable. */
  function Paid(log: seq<Settlement>, c: Callable): real {
    if log == [] then 0.0
    else
      var s := log[|log| - 1];
      Paid(log[..|log| - 1], c) + if s.callable == c && s.kind.Reconciled? then s.kind.cost else 0.0
  }

  function HoldingCalls(calls: seq<Call>): nat {
    if calls == [] then 0
    else HoldingCalls(calls[..|calls| - 1]) + if Holds(calls[|calls| - 1].phase) then 1 else 0
  }

  function LeaseOf(phase: Phase): Option<Lease> {
    match phase
    case Arrived => None
    case Estimated => None
    case Returned(used, _) => used
    case _ => Some(phase.lease)
  }

  /** The lease of a call that is over, or as good as over, has one entry in the log, of the right kind. */
  predicate SettledRight(d: Deployment, call: Call) {
    var lease := LeaseOf(call.phase);
    (call.phase.Settled? || call.phase.Returned?) && lease.Some? ==>
      exists k :: 0 <= k < |d.log| && d.log[k].lease == lease.value && d.log[k].callable == call.callable
                  && (d.log[k].kind.Reconciled? <==> call.phase.Settled? || call.phase.ok)
  }

  predicate CallInOrder(d: Deployment, c: nat)
    requires c < |d.calls|
  {
    var call := d.calls[c];
    && (LeaseOf(call.phase).Some? ==>
          var id := LeaseOf(call.phase).value.id;
          && id < d.next
          && (id in d.live <==> Holds(call.phase))
          && TimesSettled(d.log, id) == (if Holds(call.phase) then 0 else 1))
    && (LeaseOf(call.phase).None? && call.phase.Returned? ==> !call.phase.ok)
    && SettledRight(d, call)
  }

  predicate CallsInOrder(d: Deployment) {
    forall c :: 0 <= c < |d.calls| ==> CallInOrder(d, c)
  }

  /** No two calls ever get the same lease. */
  predicate LeasesDistinct(d: Deployment) {
    forall c, e :: 0 <= c < e < |d.calls| && LeaseOf(d.calls[c].phase).Some? && LeaseOf(d.calls[e].phase).Some? ==>
      LeaseOf(d.calls[c].phase).value.id != LeaseOf(d.calls[e].phase).value.id
  }

  /** There are as many live leases as calls between acquire and settle. */
  predicate LiveCounted(d: Deployment) {
    && (forall id :: id in d.live ==> id < d.next)
    && |d.live| == HoldingCalls(d.calls)
    && (forall k :: 0 <= k < |d.log| ==> d.log[k].lease.id < d.next)
  }

  /** What a callable reports as spent is what was reconciled through it. */
  ghost predicate SpendMatches(d: Deployment) {
    forall c: Callable :: SpentBy(d, c) == Paid(d.log, c)
  }

  ghost predicate BooksBalance(d: Deployment) {
    CallsInOrder(d) && LeasesDistinct(d) && LiveCounted(d) && SpendMatches(d)
  }

  lemma {:induction false} UnseenLeaseUnsettled(log: seq<Settlement>, id: nat)
    requires forall k :: 0 <= k < |log| ==> log[k].lease.id != id
    ensures TimesSettled(log, id) == 0
  {
    if log != [] {
      UnseenLeaseUnsettled(log[..|log| - 1], id);
    }
  }

  lemma {:induction false} HoldingAfter(calls: seq<Call>, c: nat, call: Call)
    requires c < |calls|
    ensures HoldingCalls(calls[c := call])
            == HoldingCalls(calls) - (if Holds(calls[c].phase) then 1 else 0) + (if Holds(call.phase) then 1 else 0)
  {
    var was, now := calls[..|calls| - 1], calls[c := call];
    if c < |calls| - 1 {
      HoldingAfter(was, c, call);
      assert now[..|calls| - 1] == was[c := call];
    } else {
      assert now[..|calls| - 1] == was;
    }
  }

  predicate SameBooks(d: Deployment, r: Deployment) {
    r.next == d.next && r.live == d.live && r.log == d.log && r.spent == d.spent
  }

  /** A move that neither takes nor settles a lease. */
  lemma QuietMove(d: Deployment, r: Deployment, c: nat, phase: Phase)
    requires BooksBalance(d) && SameBooks(d, r) && c < |d.calls|
    requires r.calls == d.calls[c := d.calls[c].(phase := phase)]
    requires LeaseOf(phase) == LeaseOf(d.calls[c].phase) && Holds(phase) == Holds(d.calls[c].phase)
    requires phase.Returned? ==> phase.ok == d.calls[c].phase.Settled?
    requires !phase.Settled? && !d.calls[c].phase.Returned?
    ensures BooksBalance(r)
  {
    assert CallsInOrder(r) by {
      forall e | 0 <= e < |r.calls| ensures CallInOrder(r, e) {
        assert CallInOrder(d, e);
      }
    }
    assert LeasesDistinct(r);
    HoldingAfter(d.calls, c, r.calls[c]);
    assert SpendMatches(r) by {
      forall k: Callable ensures SpentBy(r, k) == Paid(r.log, k) {
        assert SpentBy(d, k) == Paid(d.log, k);
      }
    }
  }

  lemma AcquireMove(d: Deployment, c: nat, route: (string, string, string))
    requires BooksBalance(d) && c < |d.calls| && d.calls[c].phase.Estimated?
    ensures BooksBalance(Move(d, c, Acquires(c, Some(route))))
  {
    var r := Move(d, c, Acquires(c, Some(route)));
    assert CallsInOrder(r) by {
      UnseenLeaseUnsettled(d.log, d.next);
      forall e | 0 <= e < |r.calls| ensures CallInOrder(r, e) {
        assert CallInOrder(d, e);
      }
    }
    assert LeasesDistinct(r) by {
      forall e | 0 <= e < |d.calls| && LeaseOf(d.calls[e].phase).Some?
        ensures LeaseOf(d.calls[e].phase).value.id != d.next
      {
        assert CallInOrder(d, e);
      }
    }
    assert LiveCounted(r) by {
      HoldingAfter(d.calls, c, r.calls[c]);
      assert d.next !in d.live;
    }
    assert SpendMatches(r) by {
      forall k: Callable ensures SpentBy(r, k) == Paid(r.log, k) {
        assert SpentBy(d, k) == Paid(d.log, k);
      }
    }
  }

  /** Call `c` settles the lease it holds, in this way. */
  predicate Settles(d: Deployment, r: Deployment, c: nat, kind: Kind)
    requires c < |d.calls| && Holds(d.calls[c].phase)
  {
    var lease := LeaseOf(d.calls[c].phase).value;
    && r.next == d.next && r.live == d.live - {lease.id}
    && r.log == d.log + [Settlement(lease, d.calls[c].callable, kind)]
    && r.calls == d.calls[c := d.calls[c].(phase :=
         if kind.Reconciled? then Phase.Settled(lease) else Returned(Some(lease), false))]
  }

  lemma OneMoreSettlement(log: seq<Settlement>, s: Settlement)
    ensures forall id :: TimesSettled(log + [s], id) == TimesSettled(log, id) + if id == s.lease.id then 1 else 0
    ensures forall c: Callable ::
              Paid(log + [s], c) == Paid(log, c) + if c == s.callable && s.kind.Reconciled? then s.kind.cost else 0.0
  {
    assert (log + [s])[..|log|] == log;
  }

  lemma SettlingKeepsOrder(d: Deployment, r: Deployment, c: nat, kind: Kind, e: nat)
    requires CallsInOrder(d) && LeasesDistinct(d) && c < |d.calls| && Holds(d.calls[c].phase)
    requires Settles(d, r, c, kind) && e < |d.calls|
    ensures CallInOrder(r, e)
  {
    var lease := LeaseOf(d.calls[c].phase).value;
    OneMoreSettlement(d.log, Settlement(lease, d.calls[c].callable, kind));
    assert CallInOrder(d, e) && CallInOrder(d, c);
    var call := d.calls[e];
    if e == c {
      assert r.log[|d.log|] == Settlement(lease, d.calls[c].callable, kind);
    } else if (call.phase.Settled? || call.phase.Returned?) && LeaseOf(call.phase).Some? {
      var k :| 0 <= k < |d.log| && d.log[k].lease == LeaseOf(call.phase).value && d.log[k].callable == call.callable
               && (d.log[k].kind.Reconciled? <==> call.phase.Settled? || call.phase.ok);
      assert r.log[k] == d.log[k];
    }
  }

  lemma SettlingMove(d: Deployment, r: Deployment, c: nat, kind: Kind)
    requires BooksBalance(d) && c < |d.calls| && Holds(d.calls[c].phase) && Settles(d, r, c, kind)
    requires forall k: Callable :: SpentBy(r, k)
               == SpentBy(d, k) + if k == d.calls[c].callable && kind.Reconciled? then kind.cost else 0.0
    ensures BooksBalance(r)
  {
    assert CallsInOrder(r) by {
      forall e | 0 <= e < |r.calls| ensures CallInOrder(r, e) {
        SettlingKeepsOrder(d, r, c, kind, e);
      }
    }
    SettlingKeepsCount(d, r, c, kind);
    assert SpendMatches(r) by {
      hide SpentBy, Paid, TimesSettled;
      OneMoreSettlement(d.log, r.log[|d.log|]);
      forall k: Callable ensures SpentBy(r, k) == Paid(r.log, k) {
        assert SpentBy(d, k) == Paid(d.log, k);
      }
    }
  }

  lemma SettlingKeepsCount(d: Deployment, r: Deployment, c: nat, kind: Kind)
    requires CallsInOrder(d) && LeasesDistinct(d) && LiveCounted(d)
    requires c < |d.calls| && Holds(d.calls[c].phase) && Settles(d, r, c, kind)
    ensures LeasesDistinct(r) && LiveCounted(r)
  {
    assert CallInOrder(d, c);
    HoldingAfter(d.calls, c, r.calls[c]);
  }

  lemma ArrivalMove(d: Deployment, callable: Callable)
    requires BooksBalance(d)
    ensures BooksBalance(Apply(d, Arrives(callable)))
  {
    var r := Apply(d, Arrives(callable));
    assert r.calls[..|r.calls| - 1] == d.calls;
    assert CallsInOrder(r) by {
      forall e | 0 <= e < |r.calls| ensures CallInOrder(r, e) {
        assert e < |d.calls| ==> CallInOrder(d, e);
      }
    }
    assert SpendMatches(r) by {
      forall k: Callable ensures SpentBy(r, k) == Paid(r.log, k) {
        assert SpentBy(d, k) == Paid(d.log, k);
      }
    }
  }

  lemma ReleaseStep(d: Deployment, step: Step)
    requires BooksBalance(d) && !step.Arrives? && step.call < |d.calls| && Holds(d.calls[step.call].phase)
    requires Apply(d, step).calls[step.call].phase.Returned?
    ensures BooksBalance(Apply(d, step))
  {
    hide BooksBalance;
    SettlingMove(d, Apply(d, step), step.call, Released);
  }

  lemma QuietStep(d: Deployment, step: Step)
    requires BooksBalance(d) && !step.Arrives? && step.call < |d.calls| && Apply(d, step) != d
    requires var phase := d.calls[step.call].phase;
      && !(phase.Estimated? && step.Acquires? && step.route.Some?)
      && !(phase.Answered? && step.Reconciles?)
      && !(Holds(phase) && Apply(d, step).calls[step.call].phase.Returned?)
    ensures BooksBalance(Apply(d, step))
  {
    hide BooksBalance;
    QuietMove(d, Apply(d, step), step.call, Apply(d, step).calls[step.call].phase);
  }

  lemma StepKeepsBooks(d: Deployment, step: Step)
    requires BooksBalance(d)
    ensures BooksBalance(Apply(d, step))
  {
    hide BooksBalance;
    var r := Apply(d, step);
    if step.Arrives? {
      ArrivalMove(d, step.callable);
    } else if step.call < |d.calls| && r != d {
      var c := step.call;
      var phase := d.calls[c].phase;
      if phase.Estimated? && step.Acquires? && step.route.Some? {
        AcquireMove(d, c, step.route.value);
      } else if phase.Answered? && step.Reconciles? {
        SettlingMove(d, r, c, Reconciled(phase.tokens, step.cost));
      } else if Holds(phase) && r.calls[c].phase.Returned? {
        ReleaseStep(d, step);
      } else {
        QuietStep(d, step);
      }
    }
  }

  lemma {:induction false} BooksAlwaysBalance(steps: seq<Step>)
    ensures BooksBalance(After(steps))
  {
    if steps != [] {
      BooksAlwaysBalance(steps[..|steps| - 1]);
      StepKeepsBooks(After(steps[..|steps| - 1]), steps[|steps| - 1]);
    }
  }

  // ------------------------------------------------------------------ what that means for callers

  predicate WithProvider(steps: seq<Step>, k: nat, c: nat, lease: Lease) {
    && k < |steps| && c < |After(steps[..k]).calls| && After(steps[..k]).calls[c].phase == Calling(lease)
  }

  /** Step `k` is the provider answering call `c`, which was carrying `lease`. */
  predicate ProviderAnswered(steps: seq<Step>, k: nat, c: nat, lease: Lease, tokens: nat) {
    k < |steps| && steps[k] == ProviderAnswers(c, tokens) && WithProvider(steps, k, c, lease)
  }

  /** Step `j` settles the answer call `c` got, at this cost. */
  predicate ReconciledAt(steps: seq<Step>, j: nat, c: nat, lease: Lease, tokens: nat, cost: real) {
    && j < |steps| && steps[j] == Reconciles(c, cost)
    && c < |After(steps[..j]).calls| && After(steps[..j]).calls[c].phase == Answered(lease, tokens)
  }

  /** The log charges `lease` for these tokens, at the very cost its settling step named. */
  ghost predicate Charged(steps: seq<Step>, c: nat, lease: Lease, tokens: nat) {
    && c < |After(steps).calls|
    && exists j, cost ::
         ReconciledAt(steps, j, c, lease, tokens, cost)
         && Settlement(lease, After(steps).calls[c].callable, Reconciled(tokens, cost)) in After(steps).log
  }

  /** What a call has been told by its provider follows from the steps so far. */
  ghost predicate OwedToAnAnswer(steps: seq<Step>, c: nat)
    requires c < |After(steps).calls|
  {
    var (d, call) := (After(steps), After(steps).calls[c]);
    match call.phase
    case Answered(lease, tokens) => exists k :: ProviderAnswered(steps, k, c, lease, tokens)
    case Settled(lease) => PaidAnswer(steps, c, lease)
    case Returned(Some(lease), true) => PaidAnswer(steps, c, lease)
    case _ => true
  }

  ghost predicate PaidAnswer(steps: seq<Step>, c: nat, lease: Lease) {
    exists k, tokens :: ProviderAnswered(steps, k, c, lease, tokens) && Charged(steps, c, lease, tokens)
  }

  /** From an answer on, a call only moves towards returning it; and it gets there in no other way. */
  lemma AnswerMoves(d: Deployment, step: Step, c: nat)
    requires c < |d.calls|
    ensures c < |Apply(d, step).calls| && d.log <= Apply(d, step).log
    ensures Apply(d, step).calls[c].callable == d.calls[c].callable
    ensures var (was, now) := (d.calls[c].phase, Apply(d, step).calls[c].phase);
      && (now.Answered? && now != was ==>
            step == ProviderAnswers(c, now.tokens) && was == Calling(now.lease))
      && (now.Settled? && now != was ==>
            && was.Answered? && was.lease == now.lease && step.Reconciles? && step.call == c
            && Settlement(was.lease, d.calls[c].callable, Reconciled(was.tokens, step.cost)) in Apply(d, step).log)
      && (now.Returned? && now.ok && now != was ==> was.Settled? && now.used == Some(was.lease))
      && (was.Calling? && step.ProviderAnswers? && step.call == c ==> now == Answered(was.lease, step.tokens))
      && (was.Answered? && now != was ==> now == Settled(was.lease))
      && (was.Settled? && now != was ==> now == Returned(Some(was.lease), true))
      && (was.Returned? ==> now == was)
  {
    if step.Arrives? || step.call != c {
      OthersStay(d, step, c);
    } else if d.calls[c].phase.Answered? && Apply(d, step).calls[c].phase.Settled? {
      var log := Apply(d, step).log;
      assert log[|d.log|].kind == Reconciled(d.calls[c].phase.tokens, step.cost);
    }
  }

  lemma AnsweredEarlier(steps: seq<Step>, k: nat, c: nat, lease: Lease, tokens: nat)
    requires steps != [] && ProviderAnswered(steps[..|steps| - 1], k, c, lease, tokens)
    ensures ProviderAnswered(steps, k, c, lease, tokens)
  {
    assert steps[..|steps| - 1][..k] == steps[..k];
  }

  lemma StillCharged(steps: seq<Step>, c: nat, lease: Lease, tokens: nat)
    requires steps != [] && Charged(steps[..|steps| - 1], c, lease, tokens)
    ensures Charged(steps, c, lease, tokens)
  {
    hide Apply;
    var was, step := steps[..|steps| - 1], steps[|steps| - 1];
    var j: nat, cost :| ReconciledAt(was, j, c, lease, tokens, cost)
                   && Settlement(lease, After(was).calls[c].callable, Reconciled(tokens, cost)) in After(was).log;
    AnswerMoves(After(was), step, c);
    assert was[..j] == steps[..j];
    assert ReconciledAt(steps, j, c, lease, tokens, cost);
  }

  lemma NewCallsAreNew(d: Deployment, step: Step, c: nat)
    requires c < |Apply(d, step).calls| && c >= |d.calls|
    ensures Apply(d, step).calls[c].phase.Arrived?
  {
  }

  lemma {:induction false} AnswersAreOwed(steps: seq<Step>, c: nat)
    requires c < |After(steps).calls|
    ensures OwedToAnAnswer(steps, c)
  {
    hide Apply, Charged, WithProvider;
    if steps != [] {
      var was, step := steps[..|steps| - 1], steps[|steps| - 1];
      var d := After(was);
      if c >= |d.calls| {
        NewCallsAreNew(d, step, c);
      } else {
        AnswersAreOwed(was, c);
        AnswerMoves(d, step, c);
        OwedOneMore(steps, c);
      }
    }
  }

  lemma OwedOneMore(steps: seq<Step>, c: nat)
    requires steps != [] && c < |After(steps[..|steps| - 1]).calls| && OwedToAnAnswer(steps[..|steps| - 1], c)
    ensures c < |After(steps).calls| && OwedToAnAnswer(steps, c)
  {
    hide Apply;
    var was, step := steps[..|steps| - 1], steps[|steps| - 1];
    var d, r := After(was), After(steps);
    AnswerMoves(d, step, c);
    var before, now := d.calls[c].phase, r.calls[c].phase;
    if before.Answered? {
      var k :| ProviderAnswered(was, k, c, before.lease, before.tokens);
      AnsweredEarlier(steps, k, c, before.lease, before.tokens);
      if now.Settled? {
        assert steps[..|was|] == was;
        assert ReconciledAt(steps, |was|, c, before.lease, before.tokens, step.cost);
        assert Settlement(before.lease, r.calls[c].callable, Reconciled(before.tokens, step.cost)) in r.log;
      }
    } else if before.Settled? || (before.Returned? && before.used.Some? && before.ok) {
      var lease := LeaseOf(before).value;
      var k, tokens :| ProviderAnswered(was, k, c, lease, tokens) && Charged(was, c, lease, tokens);
      AnsweredEarlier(steps, k, c, lease, tokens);
      StillCharged(steps, c, lease, tokens);
    } else if now.Answered? {
      assert steps[..|was|] == was;
      assert ProviderAnswered(steps, |was|, c, now.lease, now.tokens);
    }
  }

  /** A call told by its provider is on its way to returning that, and nothing else. */
  lemma {:induction false} AnsweredCallsReturnIt(steps: seq<Step>, k: nat, c: nat, lease: Lease, tokens: nat)
    requires ProviderAnswered(steps, k, c, lease, tokens)
    ensures c < |After(steps).calls|
    ensures var phase := After(steps).calls[c].phase;
      phase == Answered(lease, tokens) || phase == Settled(lease) || phase == Returned(Some(lease), true)
  {
    hide Apply;
    var last := |steps| - 1;
    var was := steps[..last];
    if k == last {
      assert steps[..k] == was;
      AnswerMoves(After(was), steps[last], c);
    } else {
      assert was[..k] == steps[..k];
      AnsweredCallsReturnIt(was, k, c, lease, tokens);
      AnswerMoves(After(was), steps[last], c);
    }
  }

  /**
   * A call that returned had its lease settled exactly once, and the call returned a reply exactly when the provider
   * answered it: then the lease is charged for the very tokens of that answer, and otherwise it is released.
   */
  lemma ReturnedCallsSettledOnce(steps: seq<Step>, c: nat)
    requires c < |After(steps).calls| && After(steps).calls[c].phase.Returned?
    ensures var (d, call) := (After(steps), After(steps).calls[c]);
      && (call.phase.ok <==> exists k, lease, tokens :: ProviderAnswered(steps, k, c, lease, tokens))
      && (call.phase.used.None? ==> !call.phase.ok)
      && (call.phase.used.Some? ==>
            var lease := call.phase.used.value;
            && TimesSettled(d.log, lease.id) == 1 && lease.id !in d.live
            && (if call.phase.ok then PaidAnswer(steps, c, lease)
                else exists j :: 0 <= j < |d.log| && d.log[j] == Settlement(lease, call.callable, Released)))
  {
    hide Apply, Charged, WithProvider;
    BooksAlwaysBalance(steps);
    AnswersAreOwed(steps, c);
    var (d, call) := (After(steps), After(steps).calls[c]);
    assert CallInOrder(d, c);
    if k, lease, tokens :| ProviderAnswered(steps, k, c, lease, tokens) {
      AnsweredCallsReturnIt(steps, k, c, lease, tokens);
    }
    if call.phase.used.Some? && !call.phase.ok {
      var j :| 0 <= j < |d.log| && d.log[j].lease == call.phase.used.value && d.log[j].callable == call.callable
               && (d.log[j].kind.Reconciled? <==> call.phase.Settled? || call.phase.ok);
      assert d.log[j] == Settlement(call.phase.used.value, call.callable, Released);
    }
  }

  /** What step `k` pays through one callable: the cost it names, if it settles an answered call of that callable. */
  function PaidAt(steps: seq<Step>, k: nat, callable: Callable): real
    requires k < |steps|
  {
    var d, step := After(steps[..k]), steps[k];
    if step.Reconciles? && step.call < |d.calls|
       && d.calls[step.call].callable == callable && d.calls[step.call].phase.Answered?
    then step.cost else 0.0
  }

  function PaidSoFar(steps: seq<Step>, k: nat, callable: Callable): real
    requires k <= |steps|
  {
    if k == 0 then 0.0 else PaidSoFar(steps, k - 1, callable) + PaidAt(steps, k - 1, callable)
  }

  lemma StepPays(d: Deployment, step: Step, callable: Callable)
    ensures SpentBy(Apply(d, step), callable)
            == SpentBy(d, callable)
               + if step.Reconciles? && step.call < |d.calls| && d.calls[step.call].callable == callable
                    && d.calls[step.call].phase.Answered?
                 then step.cost else 0.0
  {
  }

  /** In every interleaving a callable has spent, at each moment, the sum of the costs settled through it until then. */
  lemma {:induction false} SpendIsTheCostsSettled(steps: seq<Step>, k: nat, callable: Callable)
    requires k <= |steps|
    ensures SpentBy(After(steps[..k]), callable) == PaidSoFar(steps, k, callable)
  {
    hide Apply, SpentBy;
    if k == 0 {
      NothingSpentYet(callable);
    } else {
      assert steps[..k][..k - 1] == steps[..k - 1];
      SpendIsTheCostsSettled(steps, k - 1, callable);
      StepPays(After(steps[..k - 1]), steps[k - 1], callable);
    }
  }

  lemma NothingSpentYet(callable: Callable)
    ensures SpentBy(After([]), callable) == 0.0
  {
  }

  /** What must have happened for a call to be where it is: it passed every check before, and its lease is the route. */
  predicate CameThrough(steps: seq<Step>, c: nat, phase: Phase) {
    match phase
    case Arrived => true
    case Estimated => Estimates(c, true) in steps
    case Holding(lease) => Reserved(steps, c, lease)
    case Resolved(lease) => Reserved(steps, c, lease) && FindsProvider(c, true) in steps
    case Returned(used, ok) =>
      && (used.Some? ==> Reserved(steps, c, used.value))
      && (ok ==> used.Some? && Ready(steps, c, used.value))
    case _ => Ready(steps, c, phase.lease)
  }

  predicate Reserved(steps: seq<Step>, c: nat, lease: Lease) {
    Estimates(c, true) in steps && Acquires(c, Some((lease.provider, lease.credential, lease.model))) in steps
  }

  predicate Ready(steps: seq<Step>, c: nat, lease: Lease) {
    Reserved(steps, c, lease) && FindsProvider(c, true) in steps && FindsKey(c, true) in steps
  }

  lemma StepComesThrough(d: Deployment, was: seq<Step>, step: Step, c: nat)
    requires c < |d.calls| && CameThrough(was, c, d.calls[c].phase)
    ensures c < |Apply(d, step).calls| && CameThrough(was + [step], c, Apply(d, step).calls[c].phase)
  {
    if !step.Arrives? && step.call == c {
      assert Apply(d, step) == Move(d, c, step);
    } else {
      hide CameThrough, Move;
      OthersStay(d, step, c);
    }
    StillThrough(was, step, c, d.calls[c].phase);
  }

  lemma StillThrough(was: seq<Step>, step: Step, c: nat, phase: Phase)
    requires CameThrough(was, c, phase)
    ensures CameThrough(was + [step], c, phase)
  {
  }

  lemma OthersStay(d: Deployment, step: Step, c: nat)
    requires c < |d.calls| && (step.Arrives? || step.call != c)
    ensures c < |Apply(d, step).calls| && Apply(d, step).calls[c] == d.calls[c]
  {
    if !step.Arrives? && step.call < |d.calls| {
      var _ := MovesItself(d, step.call, step);
    }
  }

  lemma MovesItself(d: Deployment, c: nat, step: Step) returns (phase: Phase)
    requires c < |d.calls|
    ensures Move(d, c, step).calls == d.calls[c := d.calls[c].(phase := phase)]
  {
    phase := Move(d, c, step).calls[c].phase;
  }

  /** No request leaves before its estimate, its reservation, its adapter and its key; and it goes where it reserved. */
  lemma {:induction false} CallsCameThrough(steps: seq<Step>, c: nat)
    requires c < |After(steps).calls|
    ensures CameThrough(steps, c, After(steps).calls[c].phase)
  {
    hide Apply, Ready, Reserved;
    if steps != [] {
      var was, step := steps[..|steps| - 1], steps[|steps| - 1];
      assert steps == was + [step];
      if c < |After(was).calls| {
        CallsCameThrough(was, c);
        StepComesThrough(After(was), was, step, c);
      } else {
        NewCallsAreNew(After(was), step, c);
      }
    }
  }

  /** Step `k` records the route of a call that succeeded through this callable. */
  predicate RecordedAt(steps: seq<Step>, k: nat, callable: Callable, lease: Lease) {
    && k < |steps| && steps[k].Records?
    && var d, c := After(steps[..k]), steps[k].call;
       c < |d.calls| && d.calls[c].callable == callable && d.calls[c].phase == Settled(lease)
  }

  /** The route on record is that of the latest call recorded. */
  lemma {:induction false} TheLatestRouteIsOnRecord(steps: seq<Step>, k: nat, callable: Callable, lease: Lease)
    requires RecordedAt(steps, k, callable, lease)
    requires forall j, other: Lease :: k < j ==> !RecordedAt(steps, j, callable, other)
    ensures callable in After(steps).last && After(steps).last[callable] == (lease.provider, lease.credential)
  {
    hide Apply;
    var was, step := steps[..|steps| - 1], steps[|steps| - 1];
    StepRecords(After(was), step, callable);
    assert steps[..|steps| - 1] == was;
    if k < |was| {
      assert forall j | 0 <= j < |was| :: was[..j] == steps[..j] && was[j] == steps[j];
      assert forall j, other: Lease :: RecordedAt(was, j, callable, other) ==> RecordedAt(steps, j, callable, other);
      TheLatestRouteIsOnRecord(was, k, callable, lease);
      assert !RecordedAt(steps, |was|, callable, LeaseAt(After(was), step));
    }
  }

  /** Before any call through it was recorded, a callable has no route on record. */
  lemma {:induction false} NoRouteBeforeTheFirst(steps: seq<Step>, callable: Callable)
    requires forall j, lease: Lease :: !RecordedAt(steps, j, callable, lease)
    ensures callable !in After(steps).last
  {
    hide Apply;
    if steps != [] {
      var was, step := steps[..|steps| - 1], steps[|steps| - 1];
      StepRecords(After(was), step, callable);
      assert forall j | 0 <= j < |was| :: was[..j] == steps[..j] && was[j] == steps[j];
      assert forall j, lease: Lease :: RecordedAt(was, j, callable, lease) ==> RecordedAt(steps, j, callable, lease);
      NoRouteBeforeTheFirst(was, callable);
      assert steps[..|was|] == was && !RecordedAt(steps, |was|, callable, LeaseAt(After(was), step));
    }
  }

  /** The lease a step finds settled, if it finds one. */
  function LeaseAt(d: Deployment, step: Step): Lease {
    if step.Records? && step.call < |d.calls| && d.calls[step.call].phase.Settled?
    then d.calls[step.call].phase.lease else Lease(0, "", "", "")
  }

  lemma StepRecords(d: Deployment, step: Step, callable: Callable)
    ensures var last := Apply(d, step).last;
      if step.Records? && step.call < |d.calls| && d.calls[step.call].callable == callable
         && d.calls[step.call].phase.Settled?
      then
        var lease := d.calls[step.call].phase.lease;
        callable in last && last[callable] == (lease.provider, lease.credential)
      else
        (callable in last <==> callable in d.last) && (callable in last ==> last[callable] == d.last[callable])
  {
  }

  lemma {:induction false} NobodyHolding(calls: seq<Call>)
    requires forall c :: 0 <= c < |calls| ==> !Holds(calls[c].phase)
    ensures HoldingCalls(calls) == 0
  {
    if calls != [] {
      NobodyHolding(calls[..|calls| - 1]);
    }
  }

  /** When every call has returned no lease is out, and each callable's spend is the sum of what it reconciled. */
  lemma NothingLeaks(steps: seq<Step>)
    requires forall c :: 0 <= c < |After(steps).calls| ==> After(steps).calls[c].phase.Returned?
    ensures After(steps).live == {}
    ensures forall c: Callable :: SpentBy(After(steps), c) == Paid(After(steps).log, c)
  {
    BooksAlwaysBalance(steps);
    NobodyHolding(After(steps).calls);
  }

  /** Step `k` is the provider refusing the key of `lease`. */
  predicate RefusedKey(steps: seq<Step>, k: nat, lease: Lease) {
    k < |steps| && steps[k].ProviderFails? && steps[k].auth && WithProvider(steps, k, steps[k].call, lease)
  }

  lemma RefusedKeyEarlier(steps: seq<Step>, k: nat, lease: Lease)
    requires steps != [] && RefusedKey(steps[..|steps| - 1], k, lease)
    ensures RefusedKey(steps, k, lease)
  {
    assert steps[..|steps| - 1][..k] == steps[..k];
  }

  lemma FailuresAreNews(d: Deployment, step: Step, c: nat)
    requires c < |Apply(d, step).calls| && Apply(d, step).calls[c].phase.Failed?
    requires !(c < |d.calls| && d.calls[c] == Apply(d, step).calls[c])
    ensures c < |d.calls| && step == ProviderFails(c, Apply(d, step).calls[c].phase.auth)
    ensures d.calls[c].phase == Calling(Apply(d, step).calls[c].phase.lease)
  {
  }

  lemma {:induction false} AuthFailuresComeFromTheProvider(steps: seq<Step>, c: nat)
    requires c < |After(steps).calls| && After(steps).calls[c].phase.Failed? && After(steps).calls[c].phase.auth
    ensures exists k :: RefusedKey(steps, k, After(steps).calls[c].phase.lease)
  {
    hide Apply;
    var last, was := |steps| - 1, steps[..|steps| - 1];
    var lease := After(steps).calls[c].phase.lease;
    if c < |After(was).calls| && After(was).calls[c] == After(steps).calls[c] {
      AuthFailuresComeFromTheProvider(was, c);
      var k :| RefusedKey(was, k, lease);
      RefusedKeyEarlier(steps, k, lease);
    } else {
      assert steps[..last] == was;
      FailuresAreNews(After(was), steps[last], c);
      assert RefusedKey(steps, last, lease);
    }
  }

  /** A credential is benched only after the provider itself refused a call that was carrying it. */
  lemma {:induction false} BenchedOnlyAfterRefusal(steps: seq<Step>, provider: string, credential: string)
    requires (provider, credential) in After(steps).benched
    ensures exists k, lease: Lease ::
              RefusedKey(steps, k, lease) && lease.provider == provider && lease.credential == credential
  {
    var was := steps[..|steps| - 1];
    if (provider, credential) in After(was).benched {
      BenchedOnlyAfterRefusal(was, provider, credential);
      var k, lease: Lease :| RefusedKey(was, k, lease) && lease.provider == provider && lease.credential == credential;
      RefusedKeyEarlier(steps, k, lease);
    } else {
      var c := steps[|steps| - 1].call;
      AuthFailuresComeFromTheProvider(was, c);
      var lease := After(was).calls[c].phase.lease;
      var k :| RefusedKey(was, k, lease);
      RefusedKeyEarlier(steps, k, lease);
    }
  }

  /** Every refused key is benched by the time its call returns, whatever else went on between. */
  lemma {:induction false} RefusalsAreBenched(steps: seq<Step>, k: nat, lease: Lease)
    requires RefusedKey(steps, k, lease)
    ensures steps[k].call < |After(steps).calls|
    ensures var phase := After(steps).calls[steps[k].call].phase;
      || phase == Failed(lease, true)
      || (phase == Returned(Some(lease), false) && (lease.provider, lease.credential) in After(steps).benched)
  {
    hide Apply;
    var was, c := steps[..|steps| - 1], steps[k].call;
    assert steps[..|was|] == was;
    if k < |was| {
      assert was[..k] == steps[..k];
      RefusalsAreBenched(was, k, lease);
    }
    RefusalMoves(After(was), steps[|was|], c);
  }

  lemma RefusalMoves(d: Deployment, step: Step, c: nat)
    requires c < |d.calls|
    ensures c < |Apply(d, step).calls| && d.benched <= Apply(d, step).benched
    ensures var was, now := d.calls[c].phase, Apply(d, step).calls[c].phase;
      && (was.Calling? && step.ProviderFails? && step.call == c ==> now == Failed(was.lease, step.auth))
      && (was.Failed? && now != was ==>
            && now == Returned(Some(was.lease), false)
            && (was.auth ==> (was.lease.provider, was.lease.credential) in Apply(d, step).benched))
      && (was.Returned? ==> now == was)
  {
    if step.Arrives? || step.call != c {
      OthersStay(d, step, c);
      hide Move;
      OnlyOneIsBenched(d, step);
    }
  }

  lemma OnlyOneIsBenched(d: Deployment, step: Step)
    ensures d.benched <= Apply(d, step).benched
  {
  }

  // ------------------------------------------------------------------ one call, start to end

  datatype Reply = Replied(tokens: nat, cost: real) | Refused(auth: bool)

  /** Everything one call is told on its way. */
  datatype Answers = Answers(
    estimates: bool, route: Option<(string, string, string)>, provider: bool, key: bool, reply: Reply)

  /** From the request leaving to the call's return. */
  function Exchange(c: nat, reply: Reply): seq<Step> {
    match reply
    case Replied(tokens, cost) => [ProviderAnswers(c, tokens), Reconciles(c, cost), Records(c)]
    case Refused(auth) => [ProviderFails(c, auth), GivesBack(c)]
  }

  /** The steps one call takes, exit by exit. */
  function Script(c: nat, a: Answers): seq<Step> {
    if !a.estimates then [Estimates(c, false)]
    else if a.route.None? then [Estimates(c, true), Acquires(c, None)]
    else if !a.provider then [Estimates(c, true), Acquires(c, a.route), FindsProvider(c, false)]
    else if !a.key then [Estimates(c, true), Acquires(c, a.route), FindsProvider(c, true), FindsKey(c, false)]
    else [Estimates(c, true), Acquires(c, a.route), FindsProvider(c, true), FindsKey(c, true)] + Exchange(c, a.reply)
  }

  lemma OneMoreStep(d: Deployment, steps: seq<Step>, step: Step, more: seq<Step>)
    requires more == steps + [step]
    ensures ApplyAll(d, more) == Apply(ApplyAll(d, steps), step)
  {
    assert more[..|steps|] == steps;
  }

  lemma Start(d: Deployment)
    ensures ApplyAll(d, []) == d
  {
  }

  lemma {:induction false} InTwoParts(d: Deployment, a: seq<Step>, b: seq<Step>)
    ensures ApplyAll(d, a + b) == ApplyAll(ApplyAll(d, a), b)
  {
    hide ApplyAll, Apply;
    if b == [] {
      assert a + b == a;
      Start(ApplyAll(d, a));
    } else {
      var init, last := b[..|b| - 1], b[|b| - 1];
      InTwoParts(d, a, init);
      assert b == init + [last] && a + b == a + init + [last];
      OneMoreStep(d, a + init, last, a + b);
      OneMoreStep(ApplyAll(d, a), init, last, b);
    }
  }

  lemma SendingMoves(d: Deployment, c: nat, reply: Reply)
    requires c < |d.calls| && d.calls[c].phase.Calling?
    ensures match reply
      case Replied(tokens, cost) =>
        Move(d, c, ProviderAnswers(c, tokens)) == At(d, c, Answered(d.calls[c].phase.lease, tokens))
      case Refused(auth) =>
        Move(d, c, ProviderFails(c, auth)) == At(d, c, Failed(d.calls[c].phase.lease, auth))
  {
  }

  lemma ReservingMoves(d: Deployment, c: nat, a: Answers)
    requires c < |d.calls|
    ensures match d.calls[c].phase
      case Arrived =>
        Move(d, c, Estimates(c, a.estimates)) == At(d, c, if a.estimates then Estimated else Returned(None, false))
      case Estimated => Move(d, c, Acquires(c, None)) == At(d, c, Returned(None, false))
      case Holding(lease) =>
        Apply(d, FindsProvider(c, a.provider)) == Move(d, c, FindsProvider(c, a.provider))
        == if a.provider then At(d, c, Resolved(lease)) else ReleaseAndReturn(d, c, lease)
      case Resolved(lease) =>
        Apply(d, FindsKey(c, a.key)) == Move(d, c, FindsKey(c, a.key))
        == if a.key then At(d, c, Calling(lease)) else ReleaseAndReturn(d, c, lease)
      case _ => true
  {
  }

  /** The shared routing table with its callables, updated in place under locks. */
  class RouterModel {
    var next: nat
    var live: set<nat>
    var log: seq<Settlement>
    var benched: set<(string, string)>
    var spent: map<Callable, real>
    var last: map<Callable, (string, string)>
    var calls: seq<Call>

    function State(): Deployment
      reads this
    {
      Deployment(next, live, log, benched, spent, last, calls)
    }

    method Reach(c: nat, phase: Phase)
      requires c < |calls|
      modifies this`calls
      ensures State() == At(old(State()), c, phase)
    {
      calls := calls[c := calls[c].(phase := phase)];
    }

    method AcquireForRole(c: nat, route: (string, string, string)) returns (lease: Lease)
      requires c < |calls| && calls[c].phase.Estimated?
      modifies this
      ensures State() == Apply(old(State()), Acquires(c, Some(route))) && calls[c].phase == Holding(lease)
      ensures |calls| == |old(calls)|
    {
      lease := Lease(next, route.0, route.1, route.2);
      live := live + {next};
      next := next + 1;
      Reach(c, Holding(lease));
    }

    method Release(c: nat, lease: Lease)
      requires c < |calls|
      modifies this
      ensures State() == ReleaseAndReturn(old(State()), c, lease)
      ensures |calls| == |old(calls)| && calls[c].phase == Returned(Some(lease), false)
    {
      live := live - {lease.id};
      log := log + [Settlement(lease, calls[c].callable, Released)];
      Reach(c, Returned(Some(lease), false));
    }

    method Reconcile(c: nat, lease: Lease, tokens: nat, cost: real)
      requires c < |calls| && calls[c].phase == Answered(lease, tokens)
      modifies this
      ensures State() == Apply(old(State()), Reconciles(c, cost)) && |calls| == |old(calls)|
      ensures calls[c].phase == Settled(lease)
    {
      var callable := calls[c].callable;
      live := live - {lease.id};
      log := log + [Settlement(lease, callable, Reconciled(tokens, cost))];
      spent := spent[callable := (if callable in spent then spent[callable] else 0.0) + cost];
      Reach(c, Settled(lease));
    }

    method Record(c: nat, lease: Lease)
      requires c < |calls| && calls[c].phase == Settled(lease)
      modifies this
      ensures State() == Apply(old(State()), Records(c)) && |calls| == |old(calls)|
      ensures calls[c].phase == Returned(Some(lease), true)
    {
      last := last[calls[c].callable := (lease.provider, lease.credential)];
      Reach(c, Returned(Some(lease), true));
    }

    method Bench(c: nat, lease: Lease, auth: bool)
      requires c < |calls| && calls[c].phase == Failed(lease, auth)
      modifies this
      ensures State() == Apply(old(State()), GivesBack(c)) && |calls| == |old(calls)|
      ensures calls[c].phase == Returned(Some(lease), false)
    {
      if auth {
        benched := benched + {(lease.provider, lease.credential)};
      }
      Release(c, lease);
    }

    /** A move from one phase to the next that leaves the books alone. */
    method Advance(c: nat, step: Step, phase: Phase)
      requires c < |calls| && !step.Arrives? && step.call == c && Move(State(), c, step) == At(State(), c, phase)
      modifies this
      ensures State() == Apply(old(State()), step) && |calls| == |old(calls)| && calls[c].phase == phase
    {
      Reach(c, phase);
    }

    /** Reserved and resolved: send the request, and settle by what comes back. */
    method Send(c: nat, lease: Lease, reply: Reply) returns (ok: bool)
      requires c < |calls| && calls[c].phase == Calling(lease)
      modifies this
      ensures State() == ApplyAll(old(State()), Exchange(c, reply)) && (ok <==> reply.Replied?)
      ensures |calls| == |old(calls)| && calls[c].phase == Returned(Some(lease), ok)
    {
      hide ApplyAll, Apply, Move;
      ghost var was := State();
      Start(was);
      SendingMoves(was, c, reply);
      match reply {
        case Replied(tokens, cost) =>
          ghost var one, two := [ProviderAnswers(c, tokens)], [ProviderAnswers(c, tokens), Reconciles(c, cost)];
          OneMoreStep(was, [], ProviderAnswers(c, tokens), one);
          OneMoreStep(was, one, Reconciles(c, cost), two);
          OneMoreStep(was, two, Records(c), Exchange(c, reply));
          Advance(c, ProviderAnswers(c, tokens), Answered(lease, tokens));
          Reconcile(c, lease, tokens, cost);
          Record(c, lease);
          ok := true;
        case Refused(auth) =>
          ghost var one := [ProviderFails(c, auth)];
          OneMoreStep(was, [], ProviderFails(c, auth), one);
          OneMoreStep(was, one, GivesBack(c), Exchange(c, reply));
          Advance(c, ProviderFails(c, auth), Failed(lease, auth));
          Bench(c, lease, auth);
          ok := false;
      }
    }

    /** One call while no other moves: it takes the steps of its script, and says whether the provider answered. */
    method Complete(c: nat, a: Answers) returns (ok: bool)
      requires c < |calls| && calls[c].phase.Arrived?
      modifies this
      ensures State() == ApplyAll(old(State()), Script(c, a))
      ensures |calls| == |old(calls)| && calls[c].phase.Returned? && ok == calls[c].phase.ok
      ensures ok <==> a.estimates && a.route.Some? && a.provider && a.key && a.reply.Replied?
    {
      hide ApplyAll, Apply, Move, At, ReleaseAndReturn;
      ghost var was := State();
      ghost var one := [Estimates(c, a.estimates)];
      ghost var two := one + [Acquires(c, a.route)];
      ghost var three := two + [FindsProvider(c, a.provider)];
      ghost var four := three + [FindsKey(c, a.key)];
      Start(was);
      OneMoreStep(was, [], Estimates(c, a.estimates), one);
      ReservingMoves(State(), c, a);
      Advance(c, Estimates(c, a.estimates), if a.estimates then Estimated else Returned(None, false));
      if !a.estimates {
        return false;
      }
      OneMoreStep(was, one, Acquires(c, a.route), two);
      if a.route.None? {
        assert two == Script(c, a);
        ReservingMoves(State(), c, a);
        Advance(c, Acquires(c, None), Returned(None, false));
        return false;
      }
      var lease := AcquireForRole(c, a.route.value);
      OneMoreStep(was, two, FindsProvider(c, a.provider), three);
      ReservingMoves(State(), c, a);
      if !a.provider {
        assert three == Script(c, a);
        Release(c, lease);
        return false;
      }
      Advance(c, FindsProvider(c, true), Resolved(lease));
      OneMoreStep(was, three, FindsKey(c, a.key), four);
      ReservingMoves(State(), c, a);
      if !a.key {
        assert four == Script(c, a);
        Release(c, lease);
        return false;
      }
      Advance(c, FindsKey(c, true), Calling(lease));
      ok := Send(c, lease, a.reply);
      InTwoParts(was, four, Exchange(c, a.reply));
      assert four + Exchange(c, a.reply) == Script(c, a);
    }
  }
}
