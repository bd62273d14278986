/** Decimal rendering of counts and indexes, as `format!("{n}")` and `f"{n}"` print them. */
module Decimal {
  import opened Wrappers

  function Digit(d: nat): char
    requires d < 10
  {
    '0' + d as char
  }

  function Render(n: nat): string {
    if n < 10 then [Digit(n)] else Render(n / 10) + [Digit(n % 10)]
  }

  function Parse(s: string): (n: nat)
    requires forall c :: c in s ==> '0' <= c <= '9'
  {
    if s == [] then 0
    else
      var rest, last := s[..|s| - 1], s[|s| - 1];
      assert last in s && forall c :: c in rest ==> c in s;
      Parse(rest) * 10 + (last as int - '0' as int)
  }

  lemma {:induction false} RenderParses(n: nat)
    ensures forall c :: c in Render(n) ==> '0' <= c <= '9'
    ensures Parse(Render(n)) == n
  {
    var s := Render(n);
    if n >= 10 {
      RenderParses(n / 10);
      assert s[..|s| - 1] == Render(n / 10);
    } else {
      assert s[..|s| - 1] == [];
    }
  }

  /** A larger number prints no shorter. */
  lemma {:induction false} RenderGrows(a: nat, b: nat)
    requires a <= b
    ensures |Render(a)| <= |Render(b)|
  {
    if a >= 10 {
      RenderGrows(a / 10, b / 10);
    }
  }

  /** Two numbers never print alike. */
  lemma RenderInjective(a: nat, b: nat)
    requires Render(a) == Render(b)
    ensures a == b
  {
    RenderParses(a);
    RenderParses(b);
  }
}

/** The view of a long transcript: both ends whole, the middle replaced by a marker. */
module Compaction {
  import opened Wrappers
  import opened Messages
  import Decimal

  const KEEP_HEAD: nat := 2
  const KEEP_TAIL: nat := 12

  datatype Compacted = Compacted(messages: seq<Message>, head: nat, tail: nat, elided: nat)

  const MARKER_OPENING := "[The middle of this conversation \U{2014} "
  const MARKER_CLOSING :=
    " message(s) \U{2014} was elided to fit the context window. " +
    "The full transcript is retained in the session store. " +
    "Continue from the current state below, and re-derive anything you need from the tools rather than assuming you " +
    "remember what was trimmed.]"

  function Marker(elided: nat): Message {
    Message(Assistant, [Text(MARKER_OPENING + Decimal.Render(elided) + MARKER_CLOSING)])
  }

  // ------------------------------------------------------------------ what is chosen

  /** `end` is the longest pair-complete prefix of at most `want` messages. */
  ghost predicate IsSafeHead(t: seq<Message>, want: nat, end: nat) {
    && end <= want && end <= |t|
    && PairComplete(t[..end])
    && forall e :: end < e <= want && e <= |t| ==> !PairComplete(t[..e])
  }

  /** `start` begins the longest pair-complete suffix of at most `want` messages. */
  ghost predicate IsSafeTail(t: seq<Message>, want: nat, start: nat) {
    && start <= |t| <= start + want
    && PairComplete(t[start..])
    && forall s :: 0 <= s < start && |t| <= s + want ==> !PairComplete(t[s..])
  }

  function SafeHeadEnd(t: seq<Message>, end: nat): (e: nat)
    requires end <= |t|
    ensures e <= end
  {
    if end > 0 && !PairComplete(t[..end]) then SafeHeadEnd(t, end - 1) else end
  }

  function SafeTailStart(t: seq<Message>, start: nat): (s: nat)
    requires start <= |t|
    ensures start <= s <= |t|
    decreases |t| - start
  {
    if start < |t| && !PairComplete(t[start..]) then SafeTailStart(t, start + 1) else start
  }

  function HeadWanted(t: seq<Message>): nat {
    if KEEP_HEAD < |t| then KEEP_HEAD else |t|
  }

  function TailWanted(t: seq<Message>): nat {
    if |t| < KEEP_TAIL then 0 else |t| - KEEP_TAIL
  }

  function Whole(t: seq<Message>): Compacted {
    Compacted(t, |t|, 0, 0)
  }

  /** The request's view of transcript `t` under a token threshold; 0 never compacts. */
  function Compact(t: seq<Message>, threshold: nat): Compacted {
    if threshold == 0 || ApproximateTokens(t) <= threshold then Whole(t)
    else
      var head, tail := SafeHeadEnd(t, HeadWanted(t)), SafeTailStart(t, TailWanted(t));
      if head >= tail then Whole(t)
      else Compacted(t[..head] + [Marker(tail - head)] + t[tail..], head, |t| - tail, tail - head)
  }

  // ------------------------------------------------------------------ how it is computed

  method IsPairSafe(messages: seq<Message>) returns (safe: bool)
    ensures safe <==> PairComplete(messages)
  {
    var calls: set<CallId>, results: set<CallId> := {}, {};
    for i := 0 to |messages|
      invariant calls == CallIds(messages[..i]) && results == ResultIds(messages[..i])
    {
      var m := messages[i];
      for j := 0 to |m.parts|
        invariant calls == CallIds(messages[..i]) + MessageCalls(Message(m.role, m.parts[..j]))
        invariant results == ResultIds(messages[..i]) + MessageResults(Message(m.role, m.parts[..j]))
      {
        assert forall p :: p in m.parts[..j + 1] <==> p in m.parts[..j] || p == m.parts[j];
        match m.parts[j] {
          case ToolCall(id, _, _) => calls := calls + {id};
          case ToolResult(id, _, _) => results := results + {id};
          case _ =>
        }
      }
      assert m.parts[..|m.parts|] == m.parts;
      assert messages[..i + 1] == messages[..i] + [m];
      IdsOfConcat(messages[..i], [m]);
      IdsOfOne(m);
    }
    assert messages[..|messages|] == messages;
    safe := calls == results;
  }

  method FindHeadEnd(t: seq<Message>, want: nat) returns (end: nat)
    ensures end == SafeHeadEnd(t, if want < |t| then want else |t|)
  {
    end := if want < |t| then want else |t|;
    var safe := IsPairSafe(t[..end]);
    while end > 0 && !safe
      invariant end <= |t| && (safe <==> PairComplete(t[..end]))
      invariant SafeHeadEnd(t, end) == SafeHeadEnd(t, if want < |t| then want else |t|)
    {
      end := end - 1;
      safe := IsPairSafe(t[..end]);
    }
  }

  method FindTailStart(t: seq<Message>, want: nat) returns (start: nat)
    ensures start == SafeTailStart(t, if |t| < want then 0 else |t| - want)
  {
    start := if |t| < want then 0 else |t| - want;
    var safe := IsPairSafe(t[start..]);
    while start < |t| && !safe
      invariant start <= |t| && (safe <==> PairComplete(t[start..]))
      invariant SafeTailStart(t, start) == SafeTailStart(t, if |t| < want then 0 else |t| - want)
    {
      start := start + 1;
      safe := IsPairSafe(t[start..]);
    }
  }

  method CompactAt(t: seq<Message>, threshold: nat) returns (c: Compacted)
    ensures c == Compact(t, threshold)
    ensures c.elided > 0 ==> IsSafeHead(t, KEEP_HEAD, c.head) && IsSafeTail(t, KEEP_TAIL, |t| - c.tail)
  {
    hide ApproximateTokens, PairComplete, SafeHeadEnd, SafeTailStart, Marker, IsSafeHead, IsSafeTail;
    ChoiceIsLongest(t, threshold);
    if threshold == 0 || ApproximateTokens(t) <= threshold {
      return Whole(t);
    }
    var head := FindHeadEnd(t, KEEP_HEAD);
    var tail := FindTailStart(t, KEEP_TAIL);
    if head >= tail {
      return Whole(t);
    }
    var messages := t[..head];
    messages := messages + [Marker(tail - head)];
    messages := messages + t[tail..];
    c := Compacted(messages, head, |t| - tail, tail - head);
  }

  // ------------------------------------------------------------------ what the choice means

  lemma EmptyIsPairComplete()
    ensures PairComplete([])
  {
    assert CallIds([]) == {} && ResultIds([]) == {};
  }

  lemma {:induction false} HeadIsLongest(t: seq<Message>, end: nat)
    requires end <= |t|
    ensures PairComplete(t[..SafeHeadEnd(t, end)])
    ensures forall e :: SafeHeadEnd(t, end) < e <= end ==> !PairComplete(t[..e])
  {
    if end == 0 {
      EmptyIsPairComplete();
      assert t[..0] == [];
    } else if !PairComplete(t[..end]) {
      HeadIsLongest(t, end - 1);
    }
  }

  lemma {:induction false} TailIsLongest(t: seq<Message>, start: nat)
    requires start <= |t|
    ensures PairComplete(t[SafeTailStart(t, start)..])
    ensures forall s :: start <= s < SafeTailStart(t, start) ==> !PairComplete(t[s..])
    decreases |t| - start
  {
    if start == |t| {
      EmptyIsPairComplete();
      assert t[|t|..] == [];
    } else if !PairComplete(t[start..]) {
      TailIsLongest(t, start + 1);
    }
  }

  /** The choice in one statement: where something is elided, the head and the tail are the longest safe ones. */
  lemma ChoiceIsLongest(t: seq<Message>, threshold: nat)
    ensures var c := Compact(t, threshold);
      && (c.elided == 0 ==> c == Whole(t))
      && (c.elided > 0 ==>
            && IsSafeHead(t, 2, c.head)
            && IsSafeTail(t, 12, |t| - c.tail)
            && c.messages == t[..c.head] + [Marker(c.elided)] + t[|t| - c.tail..])
  {
    HeadIsLongest(t, HeadWanted(t));
    TailIsLongest(t, TailWanted(t));
  }

  /** More than fourteen messages are cut exactly when there is a threshold and they outweigh it. */
  lemma LongTranscriptsAreCutExactlyWhen(t: seq<Message>, threshold: nat)
    requires |t| > 14
    ensures Compact(t, threshold).elided > 0 <==> threshold > 0 && ApproximateTokens(t) > threshold
  {
    hide ApproximateTokens, PairComplete, Marker, SafeHeadEnd, SafeTailStart;
  }

  /** One text, call or result of more than four characters to a token of the threshold is enough. */
  lemma ALongPartCutsTheView(t: seq<Message>, threshold: nat, k: nat, j: nat)
    requires |t| > 14 && threshold > 0
    requires k < |t| && j < |t[k].parts|
    requires match t[k].parts[j] {
               case Text(text) => |text| > 4 * threshold
               case ToolCall(_, name, arguments) => |name| + |arguments| > 4 * threshold
               case ToolResult(_, _, content) => |content| > 4 * threshold
               case Image(_, _) => false
             }
    ensures Compact(t, threshold).elided > 0
  {
    OnePartWeighs(t, k, j);
    LongTranscriptsAreCutExactlyWhen(t, threshold);
  }

  /** Nothing is lost track of, nothing grows, and an elided view is short. */
  lemma EveryMessageIsAccountedFor(t: seq<Message>, threshold: nat)
    ensures var c := Compact(t, threshold);
      && c.head + c.elided + c.tail == |t|
      && |c.messages| <= |t|
      && (c.elided > 0 ==> |c.messages| <= 15)
  {
    ChoiceIsLongest(t, threshold);
  }

  /** The marker is the assistant's, and the digits between its opening and its closing are the count. */
  lemma MarkerNamesTheCount(n: nat)
    ensures Marker(n).role == Assistant && |Marker(n).parts| == 1 && Marker(n).parts[0].Text?
    ensures var text := Marker(n).parts[0].text;
      exists digits | text == MARKER_OPENING + digits + MARKER_CLOSING ::
        (forall c :: c in digits ==> '0' <= c <= '9') && Decimal.Parse(digits) == n
  {
    hide Decimal.Render, Decimal.Parse;
    Decimal.RenderParses(n);
    var digits := Decimal.Render(n);
    assert Marker(n).parts[0].text == MARKER_OPENING + digits + MARKER_CLOSING;
  }

  lemma EqualMarkersNameEqualCounts(a: nat, b: nat)
    requires Marker(a) == Marker(b)
    ensures a == b
  {
    var x := MARKER_OPENING + Decimal.Render(a) + MARKER_CLOSING;
    var y := MARKER_OPENING + Decimal.Render(b) + MARKER_CLOSING;
    assert Marker(a).parts[0].text == Marker(b).parts[0].text;
    var from, to := |MARKER_OPENING|, |x| - |MARKER_CLOSING|;
    assert x[from..to] == Decimal.Render(a) && y[from..to] == Decimal.Render(b);
    Decimal.RenderInjective(a, b);
  }

  lemma MarkerIsNeutral(n: nat)
    ensures CallIds([Marker(n)]) == {} && ResultIds([Marker(n)]) == {}
  {
    IdsOfOne(Marker(n));
  }

  lemma IdsOfSplice(head: seq<Message>, n: nat, tail: seq<Message>)
    ensures CallIds(head + [Marker(n)] + tail) == CallIds(head) + CallIds(tail)
    ensures ResultIds(head + [Marker(n)] + tail) == ResultIds(head) + ResultIds(tail)
  {
    MarkerIsNeutral(n);
    IdsOfConcat(head + [Marker(n)], tail);
    IdsOfConcat(head, [Marker(n)]);
  }

  /** A view can be sent exactly when something was elided or the whole transcript could be sent. */
  lemma ViewIsPairComplete(t: seq<Message>, threshold: nat)
    ensures PairComplete(Compact(t, threshold).messages)
            <==> (Compact(t, threshold).elided > 0 || PairComplete(t))
  {
    ChoiceIsLongest(t, threshold);
    var c := Compact(t, threshold);
    if c.elided > 0 {
      IdsOfSplice(t[..c.head], c.elided, t[|t| - c.tail..]);
    }
  }

  /** Under unique call ids, every result of a view still comes after its call. */
  lemma ViewKeepsOrder(t: seq<Message>, threshold: nat)
    requires ResultsFollowCalls(t) && UniqueCalls(t)
    ensures ResultsFollowCalls(Compact(t, threshold).messages)
  {
    hide Compact, CallIds, PairComplete;
    EveryMessageIsAccountedFor(t, threshold);
    ChoiceIsLongest(t, threshold);
    var c := Compact(t, threshold);
    if c.elided > 0 {
      var head, marker, tail := t[..c.head], Marker(c.elided), t[|t| - c.tail..];
      assert t[0..c.head] == head && t[|t| - c.tail..|t|] == tail;
      OrderOfStretch(t, 0, c.head);
      OrderOfStretch(t, |t| - c.tail, |t|);
      assert MessageResults(marker) == {};
      OrderOfConcat(head, [marker]);
      OrderOfConcat(head + [marker], tail);
    }
  }

  lemma CallsKeepApart(t: seq<Message>, k: nat)
    requires k <= |t| && UniqueCalls(t)
    ensures CallIds(t[..k]) !! CallIds(t[k..])
  {
    forall id | id in CallIds(t[..k]) ensures id !in CallIds(t[k..]) {
      var i := CallAt(t[..k], id);
      forall m | m in t[k..] ensures id !in MessageCalls(m) {
        var j :| 0 <= j < |t[k..]| && t[k..][j] == m;
        assert t[i] == t[..k][i] && t[k + j] == m;
      }
    }
  }

  lemma ResultsKeepApart(t: seq<Message>, k: nat)
    requires k <= |t| && UniqueResults(t)
    ensures ResultIds(t[..k]) !! ResultIds(t[k..])
  {
    forall id | id in ResultIds(t[..k]) ensures id !in ResultIds(t[k..]) {
      var i := ResultAt(t[..k], id);
      forall m | m in t[k..] ensures id !in MessageResults(m) {
        var j :| 0 <= j < |t[k..]| && t[k..][j] == m;
        assert t[i] == t[..k][i] && t[k + j] == m;
      }
    }
  }

  lemma SplitIds(t: seq<Message>, k: nat)
    requires k <= |t|
    requires UniqueCalls(t) && UniqueResults(t)
    ensures CallIds(t[..k]) !! CallIds(t[k..]) && CallIds(t) == CallIds(t[..k]) + CallIds(t[k..])
    ensures ResultIds(t[..k]) !! ResultIds(t[k..]) && ResultIds(t) == ResultIds(t[..k]) + ResultIds(t[k..])
    ensures UniqueCalls(t[k..]) && UniqueResults(t[k..])
  {
    assert t == t[..k] + t[k..];
    IdsOfConcat(t[..k], t[k..]);
    CallsKeepApart(t, k);
    ResultsKeepApart(t, k);
  }

  /** Under unique ids, a pair-complete transcript cut at a pair-complete prefix leaves a pair-complete rest. */
  lemma RestIsPairComplete(t: seq<Message>, k: nat)
    requires k <= |t|
    requires UniqueCalls(t) && UniqueResults(t)
    requires PairComplete(t) && PairComplete(t[..k])
    ensures PairComplete(t[k..])
  {
    SplitIds(t, k);
    assert CallIds(t[k..]) == CallIds(t) - CallIds(t[..k]);
    assert ResultIds(t[k..]) == ResultIds(t) - ResultIds(t[..k]);
  }

  /** What is dropped is whole exchanges: the elided middle is itself pair-complete. */
  lemma ElidedMiddleIsWholeExchanges(t: seq<Message>, threshold: nat)
    requires UniqueCalls(t) && UniqueResults(t) && PairComplete(t)
    requires Compact(t, threshold).elided > 0
    ensures var c := Compact(t, threshold); PairComplete(t[c.head..|t| - c.tail])
  {
    ChoiceIsLongest(t, threshold);
    EveryMessageIsAccountedFor(t, threshold);
    var c := Compact(t, threshold);
    RestIsPairComplete(t, c.head);
    var rest := t[c.head..];
    SplitIds(t, c.head);
    assert rest[c.elided..] == t[|t| - c.tail..] && rest[..c.elided] == t[c.head..|t| - c.tail];
    SplitIds(rest, c.elided);
    assert CallIds(rest[..c.elided]) == CallIds(rest) - CallIds(rest[c.elided..]);
    assert ResultIds(rest[..c.elided]) == ResultIds(rest) - ResultIds(rest[c.elided..]);
  }

  /** The turn that began at a boundary among the last twelve messages survives whole, at the end of the view. */
  lemma RecentTurnSurvives(t: seq<Message>, threshold: nat, k: nat)
    requires UniqueCalls(t) && UniqueResults(t) && PairComplete(t)
    requires k <= |t| <= k + KEEP_TAIL && PairComplete(t[..k])
    ensures var view := Compact(t, threshold).messages;
      |t| - k <= |view| && view[|view| - (|t| - k)..] == t[k..]
  {
    RestIsPairComplete(t, k);
    TailIsLongest(t, TailWanted(t));
    HeadIsLongest(t, HeadWanted(t));
    var c := Compact(t, threshold);
    if c.elided > 0 {
      var start := |t| - c.tail;
      assert start <= k;
      assert t[k..] == t[start..][k - start..];
    }
  }

  // ------------------------------------------------------------------ how much a view still weighs

  function MarkerTokens(n: nat): nat {
    MessageTokens(Marker(n))
  }

  lemma SplicedTokens(head: seq<Message>, n: nat, tail: seq<Message>)
    ensures ApproximateTokens(head + [Marker(n)] + tail)
            == ApproximateTokens(head) + MarkerTokens(n) + ApproximateTokens(tail)
  {
    hide Marker;
    assert [Marker(n)][1..] == [];
    TokensOfConcat(head + [Marker(n)], tail);
    TokensOfConcat(head, [Marker(n)]);
  }

  /**
   * A view stays under its threshold exactly when the transcript did, or when the safe head and the safe tail leave
   * something between them and weigh, with the marker, no more than the threshold.
   */
  lemma ViewFitsExactlyWhenHeadAndTailDo(t: seq<Message>, threshold: nat)
    requires threshold > 0
    ensures var head, tail := SafeHeadEnd(t, HeadWanted(t)), SafeTailStart(t, TailWanted(t));
      ApproximateTokens(Compact(t, threshold).messages) <= threshold <==>
        || ApproximateTokens(t) <= threshold
        || (head < tail
            && ApproximateTokens(t[..head]) + MarkerTokens(tail - head) + ApproximateTokens(t[tail..]) <= threshold)
  {
    var head, tail := SafeHeadEnd(t, HeadWanted(t)), SafeTailStart(t, TailWanted(t));
    if head < tail {
      SplicedTokens(t[..head], tail - head, t[tail..]);
    }
  }

  lemma PartsWeigh(s: seq<Message>, from: nat, to: nat)
    requires from <= to <= |s|
    ensures ApproximateTokens(s[from..to]) <= ApproximateTokens(s)
  {
    hide ApproximateTokens;
    assert s == s[..to] + s[to..] && s[..to] == s[..from] + s[from..to];
    TokensOfConcat(s[..to], s[to..]);
    TokensOfConcat(s[..from], s[from..to]);
  }

  lemma LargerMarkersWeighMore(a: nat, b: nat)
    requires a <= b
    ensures MarkerTokens(a) <= MarkerTokens(b)
  {
    Decimal.RenderGrows(a, b);
    MarkerWeight(a);
    MarkerWeight(b);
  }

  lemma MarkerWeight(n: nat)
    ensures MarkerTokens(n) == (|MARKER_OPENING| + |Decimal.Render(n)| + |MARKER_CLOSING| + 3) / 4 + 4
  {
    hide Decimal.Render;
    TextWeight(Assistant, MARKER_OPENING + Decimal.Render(n) + MARKER_CLOSING);
  }

  lemma TextWeight(role: Role, text: string)
    ensures MessageTokens(Message(role, [Text(text)])) == (|text| + 3) / 4 + 4
  {
    var parts := [Text(text)];
    assert parts[1..] == [] && PartChars(parts[0]) == |text|;
    assert PartsChars(parts) == |text|;
  }

  /**
   * What can be checked without the walk: when more than fourteen messages are there, and the first two, the last
   * twelve and a marker for all of them weigh no more than the threshold, the view stays under it.
   */
  lemma ViewFitsWhenTheEndsDo(t: seq<Message>, threshold: nat)
    requires |t| > KEEP_HEAD + KEEP_TAIL
    requires ApproximateTokens(t[..KEEP_HEAD]) + MarkerTokens(|t|) + ApproximateTokens(t[|t| - KEEP_TAIL..])
             <= threshold
    ensures ApproximateTokens(Compact(t, threshold).messages) <= threshold
  {
    hide MarkerTokens, Compact, SafeHeadEnd, SafeTailStart, ApproximateTokens;
    MarkerWeight(|t|);
    var head, tail := SafeHeadEnd(t, HeadWanted(t)), SafeTailStart(t, TailWanted(t));
    ViewFitsExactlyWhenHeadAndTailDo(t, threshold);
    var first, last := t[..KEEP_HEAD], t[|t| - KEEP_TAIL..];
    assert t[..head] == first[0..head] && t[tail..] == last[tail - (|t| - KEEP_TAIL)..|last|];
    PartsWeigh(first, 0, head);
    PartsWeigh(last, tail - (|t| - KEEP_TAIL), |last|);
    LargerMarkersWeighMore(tail - head, |t|);
  }

  /** A pair-complete transcript of up to twelve messages is always sent whole, however far over the threshold. */
  lemma ShortTranscriptsAreSentWhole(t: seq<Message>, threshold: nat)
    requires |t| <= 12 && PairComplete(t)
    ensures Compact(t, threshold) == Whole(t)
  {
    assert t[0..] == t;
  }

  /** One such: a single message against a threshold of one token. */
  lemma AViewOverItsThreshold()
    ensures exists t, threshold: nat :: threshold > 0 && ApproximateTokens(Compact(t, threshold).messages) > threshold
  {
    var t := [Message(User, [])];
    assert CallIds(t) == {} && ResultIds(t) == {};
    ShortTranscriptsAreSentWhole(t, 1);
    assert ApproximateTokens(Compact(t, 1).messages) > 1;
  }
}
