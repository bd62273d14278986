/** The failures a fetch can meet, sorted into those that send it up a rung and those that end it. */
module FetchErrors {
  datatype FetchError =
    | Refused(reason: string)
    | Transport(reason: string)
    | Http(status: nat)
    | NotText(contentType: string)
    | TooLarge(bytes: nat, limit: nat)
    | Unavailable(reason: string)
    | Interactive(reason: string)
    | Blocked(reason: string)

  datatype Disposition = Escalate | Stop

  function DispositionOf(e: FetchError): Disposition {
    match e
    case Refused(_) => Escalate
    case Unavailable(_) => Escalate
    case Transport(_) => Stop
    case Http(_) => Stop
    case NotText(_) => Stop
    case TooLarge(_, _) => Stop
    case Interactive(_) => Stop
    case Blocked(_) => Stop
  }
}

/** Climbing from the cheap rung to the dear one, with every attempt on record. */
module Ladder {
  import opened Wrappers
  import opened FetchErrors

  type Target = string

  datatype Profile = Profile(session: string, dir: string)

  datatype Outcome = Page(body: string) | Error(error: FetchError) | TimedOut

  /** A rung answers as it likes; the wording of its failures is its own. */
  datatype Rung = Rung(
    kind: string, name: string,
    fetch: (Target, Profile) -> Outcome,
    wording: FetchError -> string,
    timeoutWording: string)

  datatype Attempt = Attempt(kind: string, name: string, failure: Option<string>, escalated: bool)

  datatype FetchReport = FetchReport(page: Option<string>, stopReason: Option<string>, attempts: seq<Attempt>)

  const NO_RUNGS := "the ladder has no rungs to try"

  predicate Escalates(o: Outcome) {
    o.Error? && DispositionOf(o.error) == Escalate
  }

  function FailureOf(rung: Rung, o: Outcome): Option<string> {
    match o
    case Page(_) => None
    case Error(e) => Some(rung.wording(e))
    case TimedOut => Some(rung.timeoutWording)
  }

  function AttemptOf(rung: Rung, o: Outcome): Attempt {
    Attempt(rung.kind, rung.name, FailureOf(rung, o), Escalates(o))
  }

  function Before(a: Attempt, r: FetchReport): FetchReport {
    r.(attempts := [a] + r.attempts)
  }

  /** Take the first outcome that does not escalate; `last` is why the rung before these gave no page. */
  function Climb(rungs: seq<Rung>, target: Target, profile: Profile, last: string): FetchReport {
    if rungs == [] then FetchReport(None, Some(last), [])
    else
      var o := rungs[0].fetch(target, profile);
      if Escalates(o) then
        Before(AttemptOf(rungs[0], o), Climb(rungs[1..], target, profile, rungs[0].wording(o.error)))
      else FetchReport(if o.Page? then Some(o.body) else None, FailureOf(rungs[0], o), [AttemptOf(rungs[0], o)])
  }

  function Allowed(rungs: seq<Rung>, maxAttempts: nat): seq<Rung> {
    if maxAttempts < |rungs| then rungs[..maxAttempts] else rungs
  }

  lemma ClimbOn(rungs: seq<Rung>, i: nat, target: Target, profile: Profile, last: string, done: seq<Attempt>)
    requires i < |rungs| && Escalates(rungs[i].fetch(target, profile))
    ensures var o := rungs[i].fetch(target, profile);
      var here := Climb(rungs[i..], target, profile, last);
      var next := Climb(rungs[i + 1..], target, profile, rungs[i].wording(o.error));
      && here.page == next.page && here.stopReason == next.stopReason
      && done + here.attempts == done + [AttemptOf(rungs[i], o)] + next.attempts
  {
    assert rungs[i..][0] == rungs[i] && rungs[i..][1..] == rungs[i + 1..];
  }

  class Ladder {
    const rungs: seq<Rung>
    const maxAttempts: nat
    /** Which rungs were called, over the ladder's whole life. */
    var called: seq<nat>

    constructor (rungs: seq<Rung>, maxAttempts: nat)
      ensures this.rungs == rungs && this.maxAttempts == maxAttempts && called == []
    {
      this.rungs := rungs;
      this.maxAttempts := maxAttempts;
      called := [];
    }

    /** One climb: the rungs called are exactly those with an attempt on record, in order. */
    method Fetch(target: Target, profile: Profile) returns (report: FetchReport)
      modifies this
      ensures report == Climb(Allowed(rungs, maxAttempts), target, profile, NO_RUNGS)
      ensures called == old(called) + seq(|report.attempts|, i => i)
    {
      var allowed := Allowed(rungs, maxAttempts);
      var attempts: seq<Attempt> := [];
      var last := NO_RUNGS;
      ghost var all := Climb(allowed, target, profile, NO_RUNGS);
      assert allowed[0..] == allowed;
      for i := 0 to |allowed|
        invariant |attempts| == i && called == old(called) + seq(i, k => k)
        invariant var rest := Climb(allowed[i..], target, profile, last);
          all == FetchReport(rest.page, rest.stopReason, attempts + rest.attempts)
      {
        var rung := allowed[i];
        assert allowed[i..][0] == rung;
        var outcome := rung.fetch(target, profile);
        called := called + [i];
        assert seq(i, k => k) + [i] == seq(i + 1, k => k);
        match outcome {
          case Page(body) =>
            attempts := attempts + [Attempt(rung.kind, rung.name, None, false)];
            return FetchReport(Some(body), None, attempts);
          case TimedOut =>
            attempts := attempts + [Attempt(rung.kind, rung.name, Some(rung.timeoutWording), false)];
            return FetchReport(None, Some(rung.timeoutWording), attempts);
          case Error(e) =>
            var failure, escalated := rung.wording(e), DispositionOf(e) == Escalate;
            if escalated {
              ClimbOn(allowed, i, target, profile, last, attempts);
            }
            attempts := attempts + [Attempt(rung.kind, rung.name, Some(failure), escalated)];
            if !escalated {
              return FetchReport(None, Some(failure), attempts);
            }
            last := failure;
        }
      }
      report := FetchReport(None, Some(last), attempts);
      assert attempts + [] == attempts;
    }
  }

  /** The first rung whose outcome settles the matter. */
  function FirstDecisive(rungs: seq<Rung>, target: Target, profile: Profile): (k: nat)
    ensures k <= |rungs|
    ensures forall i :: 0 <= i < k ==> Escalates(rungs[i].fetch(target, profile))
    ensures k < |rungs| ==> !Escalates(rungs[k].fetch(target, profile))
  {
    if rungs == [] || !Escalates(rungs[0].fetch(target, profile)) then 0
    else 1 + FirstDecisive(rungs[1..], target, profile)
  }

  /** One attempt for each rung up to and including the first decisive one; all but that one escalated. */
  lemma {:induction false} AttemptsTellTheClimb(rungs: seq<Rung>, target: Target, profile: Profile, last: string)
    ensures var (r, k) := (Climb(rungs, target, profile, last), FirstDecisive(rungs, target, profile));
      && |r.attempts| == (if k < |rungs| then k + 1 else |rungs|)
      && (forall i :: 0 <= i < |r.attempts| ==>
            && r.attempts[i] == AttemptOf(rungs[i], rungs[i].fetch(target, profile))
            && (r.attempts[i].escalated <==> i < k))
  {
    hide FailureOf;
    if rungs != [] && Escalates(rungs[0].fetch(target, profile)) {
      var next := rungs[0].wording(rungs[0].fetch(target, profile).error);
      AttemptsTellTheClimb(rungs[1..], target, profile, next);
      var r, rest := Climb(rungs, target, profile, last), Climb(rungs[1..], target, profile, next);
      assert r.attempts == [AttemptOf(rungs[0], rungs[0].fetch(target, profile))] + rest.attempts;
      hide Climb, FirstDecisive, AttemptOf, Escalates;
      assert forall i :: 0 < i < |r.attempts| ==>
               r.attempts[i] == rest.attempts[i - 1] && rungs[i] == rungs[1..][i - 1];
    }
  }

  /** No more attempts than rungs or than allowed, each of its own rung, and why the climb went on. */
  lemma OnlyRefusalsAndAbsencesEscalate(rungs: seq<Rung>, maxAttempts: nat, target: Target, profile: Profile)
    ensures var tried := Climb(Allowed(rungs, maxAttempts), target, profile, NO_RUNGS).attempts;
      && |tried| <= maxAttempts && |tried| <= |rungs|
      && (tried == [] ==> maxAttempts == 0 || rungs == [])
      && forall i :: 0 <= i < |tried| ==>
           var o := rungs[i].fetch(target, profile);
           && tried[i].kind == rungs[i].kind && tried[i].name == rungs[i].name
           && tried[i].failure == (match o { case Page(_) => None
                                             case Error(e) => Some(rungs[i].wording(e))
                                             case TimedOut => Some(rungs[i].timeoutWording) })
           && (tried[i].escalated <==> o.Error? && (o.error.Refused? || o.error.Unavailable?))
           && (i + 1 < |tried| ==> tried[i].escalated)
           && (i + 1 == |tried| && tried[i].escalated ==> |tried| == maxAttempts || |tried| == |rungs|)
  {
    hide Climb;
    var allowed := Allowed(rungs, maxAttempts);
    AttemptsTellTheClimb(allowed, target, profile, NO_RUNGS);
    assert forall i :: 0 <= i < |allowed| ==> allowed[i] == rungs[i];
  }

  /** The page is the decisive rung's, if it gave one; there is a reason exactly when there is no page. */
  lemma {:induction false} OutcomeIsTheLastAttempts(rungs: seq<Rung>, target: Target, profile: Profile, last: string)
    ensures var (r, k) := (Climb(rungs, target, profile, last), FirstDecisive(rungs, target, profile));
      && (r.page.Some? <==> k < |rungs| && rungs[k].fetch(target, profile).Page?)
      && (r.page.Some? ==> r.page.value == rungs[k].fetch(target, profile).body)
      && (r.page.Some? <==> r.stopReason.None?)
      && r.stopReason == (if r.attempts == [] then Some(last) else r.attempts[|r.attempts| - 1].failure)
  {
    if rungs != [] && Escalates(rungs[0].fetch(target, profile)) {
      OutcomeIsTheLastAttempts(rungs[1..], target, profile, rungs[0].wording(rungs[0].fetch(target, profile).error));
    }
  }
}

/** One profile a session, kept from its first use on; each fetch is made in its own session's. */
module BrowserPool {
  import opened Wrappers
  import opened Ladder

  datatype Refusal = Refusal(display: string, reason: string)

  /** What the pool was built with; minting a profile may go differently each time it is tried. */
  datatype Setting = Setting(
    rungs: seq<Rung>,
    maxAttempts: nat,
    admit: string -> Result<Target, Refusal>,
    mint: (nat, string) -> Result<Profile, string>)

  datatype State = State(sessions: map<string, Profile>, minted: nat)

  function SessionOf(x: Setting, s: State, id: string): (State, Result<Profile, string>) {
    if id in s.sessions then (s, Success(s.sessions[id]))
    else
      var profile := x.mint(s.minted, id);
      var tried := s.(minted := s.minted + 1);
      if profile.Failure? then (tried, profile)
      else (tried.(sessions := s.sessions[id := profile.value]), profile)
  }

  function Stopped(reason: string): FetchReport {
    FetchReport(None, Some(reason), [])
  }

  function FetchFor(x: Setting, s: State, id: string, url: string): (State, FetchReport) {
    var target := x.admit(url);
    if target.Failure? then (s, Stopped(target.error.reason))
    else
      var (s1, profile) := SessionOf(x, s, id);
      if profile.Failure? then (s1, Stopped(profile.error))
      else (s1, Climb(Allowed(x.rungs, x.maxAttempts), target.value, profile.value, NO_RUNGS))
  }

  class BrowserPool {
    const x: Setting
    const ladder: Ladder
    var sessions: map<string, Profile>
    var minted: nat

    constructor (x: Setting)
      ensures this.x == x && Now() == State(map[], 0) && fresh(ladder)
      ensures ladder.rungs == x.rungs && ladder.maxAttempts == x.maxAttempts && ladder.called == []
    {
      this.x := x;
      ladder := new Ladder(x.rungs, x.maxAttempts);
      sessions := map[];
      minted := 0;
    }

    function Now(): State
      reads this
    {
      State(sessions, minted)
    }

    method Session(id: string) returns (profile: Result<Profile, string>)
      modifies this
      ensures (Now(), profile) == SessionOf(x, old(Now()), id)
    {
      if id in sessions {
        return Success(sessions[id]);
      }
      profile := x.mint(minted, id);
      minted := minted + 1;
      if profile.Success? {
        sessions := sessions[id := profile.value];
      }
    }

    /** Admission runs first: a refused target creates nothing and calls no rung. */
    method Fetch(id: string, url: string) returns (report: FetchReport)
      requires ladder.rungs == x.rungs && ladder.maxAttempts == x.maxAttempts
      modifies this, ladder
      ensures (Now(), report) == FetchFor(x, old(Now()), id, url)
      ensures ladder.called == old(ladder.called) + seq(|report.attempts|, i => i)
    {
      var target := x.admit(url);
      if target.Failure? {
        return Stopped(target.error.reason);
      }
      var profile := Session(id);
      if profile.Failure? {
        return Stopped(profile.error);
      }
      report := ladder.Fetch(target.value, profile.value);
    }
  }

  /** A target that is not admitted leaves no attempt, no profile and no other trace. */
  lemma RefusedTargetsLeaveNothing(x: Setting, s: State, id: string, url: string)
    requires x.admit(url).Failure?
    ensures FetchFor(x, s, id, url).0 == s && FetchFor(x, s, id, url).1.attempts == []
    ensures FetchFor(x, s, id, url).1.page.None?
  {
  }

  /** A session's first fetch mints a profile under its own name and climbs in it; failing that, nothing is kept. */
  lemma FirstFetchMintsTheProfile(x: Setting, s: State, id: string, url: string)
    requires id !in s.sessions && x.admit(url).Success?
    ensures FetchFor(x, s, id, url) == match x.mint(s.minted, id)
      case Success(profile) =>
        (State(s.sessions[id := profile], s.minted + 1),
         Climb(if x.maxAttempts < |x.rungs| then x.rungs[..x.maxAttempts] else x.rungs,
               x.admit(url).value, profile, NO_RUNGS))
      case Failure(reason) => (State(s.sessions, s.minted + 1), FetchReport(None, Some(reason), []))
  {
    hide Climb;
  }

  datatype Request = Request(id: string, url: string)

  function AfterAll(x: Setting, requests: seq<Request>): State {
    if requests == [] then State(map[], 0)
    else
      var last := requests[|requests| - 1];
      FetchFor(x, AfterAll(x, requests[..|requests| - 1]), last.id, last.url).0
  }

  /** Whatever is fetched in between, and however minting would go a second time, a session keeps its first profile. */
  lemma {:induction false} SessionsKeepTheirProfile(x: Setting, requests: seq<Request>, k: nat, id: string)
    requires k <= |requests| && id in AfterAll(x, requests[..k]).sessions
    ensures id in AfterAll(x, requests).sessions
    ensures AfterAll(x, requests).sessions[id] == AfterAll(x, requests[..k]).sessions[id]
  {
    if k == |requests| {
      assert requests[..k] == requests;
    } else {
      var before := requests[..|requests| - 1];
      assert before[..k] == requests[..k];
      SessionsKeepTheirProfile(x, before, k, id);
    }
  }

  /** A session has a profile only from an admitted request of its own, minted under its own name. */
  lemma {:induction false} ProfilesAreMintedForTheirSession(x: Setting, requests: seq<Request>, id: string)
    requires id in AfterAll(x, requests).sessions
    ensures exists k, n :: 0 <= k < |requests| && requests[k].id == id && x.admit(requests[k].url).Success?
              && 0 <= n < AfterAll(x, requests).minted && x.mint(n, id) == Success(AfterAll(x, requests).sessions[id])
  {
    hide Climb;
    var last, before := requests[|requests| - 1], requests[..|requests| - 1];
    var was := AfterAll(x, before);
    if id in was.sessions {
      ProfilesAreMintedForTheirSession(x, before, id);
      var k, n :| 0 <= k < |before| && before[k].id == id && x.admit(before[k].url).Success?
                  && 0 <= n < was.minted && x.mint(n, id) == Success(was.sessions[id]);
      assert requests[k] == before[k];
    } else {
      assert requests[|before|].id == id && x.mint(was.minted, id) == Success(AfterAll(x, requests).sessions[id]);
    }
  }

  /** A later fetch of a known session climbs in the profile the session had all along. */
  lemma LaterFetchesReuseTheProfile(x: Setting, requests: seq<Request>, k: nat, id: string, url: string)
    requires k <= |requests| && id in AfterAll(x, requests[..k]).sessions && x.admit(url).Success?
    ensures var profile := AfterAll(x, requests[..k]).sessions[id];
      FetchFor(x, AfterAll(x, requests), id, url)
      == (AfterAll(x, requests), Climb(Allowed(x.rungs, x.maxAttempts), x.admit(url).value, profile, NO_RUNGS))
  {
    SessionsKeepTheirProfile(x, requests, k, id);
  }
}
