/** Values shared by the modules that follow a conversation. */
module Wrappers {
  datatype Option<+T> = None | Some(value: T)

  datatype Result<+T, +E> = Success(value: T) | Failure(error: E)
}

/** The provider-neutral conversation message: roles, parts, and what a message calls or answers. */
module Messages {
  import opened Wrappers

  type CallId = string

  datatype Role = System | User | Assistant | Tool

  // `arguments` is the JSON text of the call's arguments.
  datatype Part =
    | Text(text: string)
    | Image(mime: string, data: string)
    | ToolCall(id: CallId, name: string, arguments: string)
    | ToolResult(id: CallId, ok: bool, content: string)

  datatype Message = Message(role: Role, parts: seq<Part>)

  datatype Call = Call(id: CallId, name: string, arguments: string)

  function ToolResultMessage(id: CallId, ok: bool, content: string): Message {
    Message(Tool, [ToolResult(id, ok, content)])
  }

  // ------------------------------------------------------------------ calls and results

  function MessageCalls(m: Message): set<CallId> {
    set p | p in m.parts && p.ToolCall? :: p.id
  }

  function MessageResults(m: Message): set<CallId> {
    set p | p in m.parts && p.ToolResult? :: p.id
  }

  function CallIds(messages: seq<Message>): set<CallId> {
    set m, id | m in messages && id in MessageCalls(m) :: id
  }

  function ResultIds(messages: seq<Message>): set<CallId> {
    set m, id | m in messages && id in MessageResults(m) :: id
  }

  /** Every call is answered and every answer has its call: the shape a provider accepts. */
  predicate PairComplete(messages: seq<Message>) {
    CallIds(messages) == ResultIds(messages)
  }

  /** Every answer comes in a later message than a call of its id. */
  predicate ResultsFollowCalls(messages: seq<Message>) {
    forall i :: 0 <= i < |messages| ==> MessageResults(messages[i]) <= CallIds(messages[..i])
  }

  /** No two messages make a call under one id. */
  predicate UniqueCalls(messages: seq<Message>) {
    forall i, j :: 0 <= i < j < |messages| ==> MessageCalls(messages[i]) !! MessageCalls(messages[j])
  }

  /** No two messages answer one id. */
  predicate UniqueResults(messages: seq<Message>) {
    forall i, j :: 0 <= i < j < |messages| ==> MessageResults(messages[i]) !! MessageResults(messages[j])
  }

  lemma IdsOfConcat(a: seq<Message>, b: seq<Message>)
    ensures CallIds(a + b) == CallIds(a) + CallIds(b)
    ensures ResultIds(a + b) == ResultIds(a) + ResultIds(b)
  {
    forall m ensures m in a + b <==> m in a || m in b {}
  }

  lemma IdsOfOne(m: Message)
    ensures CallIds([m]) == MessageCalls(m)
    ensures ResultIds([m]) == MessageResults(m)
  {
    assert m in [m];
  }

  lemma CallAt(messages: seq<Message>, id: CallId) returns (k: nat)
    requires id in CallIds(messages)
    ensures k < |messages| && id in MessageCalls(messages[k])
  {
    var m :| m in messages && id in MessageCalls(m);
    k :| k < |messages| && messages[k] == m;
  }

  lemma ResultAt(messages: seq<Message>, id: CallId) returns (k: nat)
    requires id in ResultIds(messages)
    ensures k < |messages| && id in MessageResults(messages[k])
  {
    var m :| m in messages && id in MessageResults(m);
    k :| k < |messages| && messages[k] == m;
  }

  lemma OrderOfConcat(a: seq<Message>, b: seq<Message>)
    requires ResultsFollowCalls(a)
    requires forall i :: 0 <= i < |b| ==> MessageResults(b[i]) <= CallIds(a) + CallIds(b[..i])
    ensures ResultsFollowCalls(a + b)
  {
    forall i | 0 <= i < |a + b|
      ensures MessageResults((a + b)[i]) <= CallIds((a + b)[..i])
    {
      if i < |a| {
        assert (a + b)[..i] == a[..i];
      } else {
        assert (a + b)[..i] == a + b[..i - |a|];
        IdsOfConcat(a, b[..i - |a|]);
      }
    }
  }

  /** A stretch that is pair-complete keeps the order of the transcript it was cut from. */
  lemma OrderOfStretch(t: seq<Message>, from: nat, to: nat)
    requires from <= to <= |t|
    requires ResultsFollowCalls(t) && UniqueCalls(t) && PairComplete(t[from..to])
    ensures ResultsFollowCalls(t[from..to])
  {
    var s := t[from..to];
    forall i, id | 0 <= i < |s| && id in MessageResults(s[i])
      ensures id in CallIds(s[..i])
    {
      assert s[i] == t[from + i] && s[i] in s;
      var before := CallAt(t[..from + i], id);
      assert id in ResultIds(s);
      var inside := CallAt(s, id);
      assert s[inside] == t[from + inside];
      assert from + inside == before;
      assert s[..i][inside] == s[inside];
    }
  }

  ghost predicate HasCall(messages: seq<Message>, id: CallId) {
    exists m, p :: m in messages && p in m.parts && p.ToolCall? && p.id == id
  }

  ghost predicate HasResult(messages: seq<Message>, id: CallId) {
    exists m, p :: m in messages && p in m.parts && p.ToolResult? && p.id == id
  }

  /** Pair-complete, read off the parts: an id is called somewhere exactly when it is answered somewhere. */
  lemma PairsAreOfParts(messages: seq<Message>)
    ensures PairComplete(messages) <==> forall id :: HasCall(messages, id) <==> HasResult(messages, id)
  {
    forall id ensures HasCall(messages, id) <==> id in CallIds(messages) {
      if HasCall(messages, id) {
        var m, p :| m in messages && p in m.parts && p.ToolCall? && p.id == id;
        assert id in MessageCalls(m);
      }
    }
    forall id ensures HasResult(messages, id) <==> id in ResultIds(messages) {
      if HasResult(messages, id) {
        var m, p :| m in messages && p in m.parts && p.ToolResult? && p.id == id;
        assert id in MessageResults(m);
      }
    }
  }

  // ------------------------------------------------------------------ text and calls

  function TextFrom(parts: seq<Part>): string {
    if parts == [] then "" else
      TextFrom(parts[..|parts| - 1]) +
      match parts[|parts| - 1] {
        case Text(text) => text
        case ToolResult(_, _, content) => content
        case _ => ""
      }
  }

  function TextOf(m: Message): string {
    TextFrom(m.parts)
  }

  method RenderText(m: Message) returns (out: string)
    ensures out == TextOf(m)
  {
    out := "";
    for i := 0 to |m.parts|
      invariant out == TextFrom(m.parts[..i])
    {
      assert m.parts[..i + 1][..i] == m.parts[..i];
      match m.parts[i] {
        case Text(text) => out := out + text;
        case ToolResult(_, _, content) => out := out + content;
        case _ =>
      }
    }
    assert m.parts[..|m.parts|] == m.parts;
  }

  lemma {:induction false} TextOfConcat(a: seq<Part>, b: seq<Part>)
    ensures TextFrom(a + b) == TextFrom(a) + TextFrom(b)
  {
    if b == [] {
      assert a + b == a;
    } else {
      assert (a + b)[..|a + b| - 1] == a + b[..|b| - 1];
      TextOfConcat(a, b[..|b| - 1]);
    }
  }

  /** A message's text part by part: what its texts and results say, in their order, and nothing else. */
  lemma TextPartByPart(a: seq<Part>, p: Part, b: seq<Part>)
    ensures p.Text? ==> TextFrom(a + [p] + b) == TextFrom(a) + p.text + TextFrom(b)
    ensures p.ToolResult? ==> TextFrom(a + [p] + b) == TextFrom(a) + p.content + TextFrom(b)
    ensures p.Image? || p.ToolCall? ==> TextFrom(a + [p] + b) == TextFrom(a) + TextFrom(b)
    ensures TextFrom([]) == ""
  {
    TextOfConcat(a + [p], b);
    TextOfConcat(a, [p]);
    assert [p][..0] == [];
  }

  /** The calls of a message, in the order its parts make them. */
  function CallsFrom(parts: seq<Part>): seq<Call> {
    if parts == [] then []
    else
      var p, rest := parts[0], CallsFrom(parts[1..]);
      if p.ToolCall? then [Call(p.id, p.name, p.arguments)] + rest else rest
  }

  function ToolCallsOf(m: Message): seq<Call> {
    CallsFrom(m.parts)
  }

  function IdsOf(calls: seq<Call>): set<CallId> {
    set c | c in calls :: c.id
  }

  lemma {:induction false} CallsFromIds(parts: seq<Part>)
    ensures IdsOf(CallsFrom(parts)) == set p | p in parts && p.ToolCall? :: p.id
  {
    if parts != [] {
      var p, rest := parts[0], CallsFrom(parts[1..]);
      CallsFromIds(parts[1..]);
      assert forall q :: q in parts <==> q == p || q in parts[1..];
      if p.ToolCall? {
        var head := Call(p.id, p.name, p.arguments);
        assert forall c :: c in [head] + rest <==> c == head || c in rest;
        assert IdsOf([head] + rest) == {p.id} + IdsOf(rest);
      }
    }
  }

  function CountCalls(parts: seq<Part>): nat {
    if parts == [] then 0 else (if parts[0].ToolCall? then 1 else 0) + CountCalls(parts[1..])
  }

  lemma {:induction false} CallsInOrder(parts: seq<Part>)
    ensures |CallsFrom(parts)| == CountCalls(parts)
    ensures forall k :: 0 <= k < |parts| && parts[k].ToolCall? ==>
              && CountCalls(parts[..k]) < |CallsFrom(parts)|
              && CallsFrom(parts)[CountCalls(parts[..k])] == Call(parts[k].id, parts[k].name, parts[k].arguments)
  {
    if parts != [] {
      CallsInOrder(parts[1..]);
      forall k | 0 <= k < |parts| && parts[k].ToolCall?
        ensures CountCalls(parts[..k]) < |CallsFrom(parts)|
        ensures CallsFrom(parts)[CountCalls(parts[..k])] == Call(parts[k].id, parts[k].name, parts[k].arguments)
      {
        if k > 0 {
          assert parts[..k][0] == parts[0] && parts[..k][1..] == parts[1..][..k - 1];
        }
      }
    }
  }

  /**
   * The calls handed to the tools are exactly the calls the message makes, with their names and arguments, as many
   * and in the order its parts make them.
   */
  lemma CallsAreTheMessagesCalls(m: Message)
    ensures IdsOf(ToolCallsOf(m)) == MessageCalls(m)
    ensures |ToolCallsOf(m)| == CountCalls(m.parts)
    ensures forall k :: 0 <= k < |m.parts| && m.parts[k].ToolCall? ==>
              && CountCalls(m.parts[..k]) < |ToolCallsOf(m)|
              && ToolCallsOf(m)[CountCalls(m.parts[..k])]
                 == Call(m.parts[k].id, m.parts[k].name, m.parts[k].arguments)
  {
    CallsFromIds(m.parts);
    CallsInOrder(m.parts);
  }

  function LastAssistantText(transcript: seq<Message>): string {
    if transcript == [] then ""
    else
      var last := transcript[|transcript| - 1];
      if last.role == Assistant then TextOf(last) else LastAssistantText(transcript[..|transcript| - 1])
  }

  /** It is the text of the last message the assistant wrote, whatever came after, and empty when it wrote none. */
  lemma {:induction false} LastAssistantTextIs(t: seq<Message>)
    ensures forall k :: 0 <= k < |t| && t[k].role == Assistant && (forall j :: k < j < |t| ==> t[j].role != Assistant)
              ==> LastAssistantText(t) == TextOf(t[k])
    ensures (forall k :: 0 <= k < |t| ==> t[k].role != Assistant) ==> LastAssistantText(t) == ""
  {
    if t != [] {
      var before := t[..|t| - 1];
      LastAssistantTextIs(before);
      assert forall k :: 0 <= k < |before| ==> before[k] == t[k];
    }
  }

  // ------------------------------------------------------------------ the size estimate

  function PartChars(p: Part): nat {
    match p
    case Text(text) => |text|
    case Image(_, data) => |data| / 4
    case ToolCall(_, name, arguments) => |name| + |arguments|
    case ToolResult(_, _, content) => |content|
  }

  function PartsChars(parts: seq<Part>): nat {
    if parts == [] then 0 else PartChars(parts[0]) + PartsChars(parts[1..])
  }

  /** Four characters to a token, rounded up, plus four a message. */
  function MessageTokens(m: Message): nat {
    (PartsChars(m.parts) + 3) / 4 + 4
  }

  function ApproximateTokens(messages: seq<Message>): nat {
    if messages == [] then 0 else MessageTokens(messages[0]) + ApproximateTokens(messages[1..])
  }

  lemma {:induction false} TokensOfConcat(a: seq<Message>, b: seq<Message>)
    ensures ApproximateTokens(a + b) == ApproximateTokens(a) + ApproximateTokens(b)
  {
    if a == [] {
      assert a + b == b;
    } else {
      assert (a + b)[1..] == a[1..] + b;
      TokensOfConcat(a[1..], b);
    }
  }

  lemma {:induction false} CharsOfConcat(a: seq<Part>, b: seq<Part>)
    ensures PartsChars(a + b) == PartsChars(a) + PartsChars(b)
  {
    if a == [] {
      assert a + b == b;
    } else {
      assert (a + b)[1..] == a[1..] + b;
      CharsOfConcat(a[1..], b);
    }
  }

  /** What one part adds to the characters counted, wherever it stands: one equation for each kind of part. */
  lemma CharsPartByPart(a: seq<Part>, p: Part, b: seq<Part>)
    ensures var more := PartsChars(a + [p] + b) - PartsChars(a) - PartsChars(b);
      && (p.Text? ==> more == |p.text|)
      && (p.Image? ==> more == |p.data| / 4)
      && (p.ToolCall? ==> more == |p.name| + |p.arguments|)
      && (p.ToolResult? ==> more == |p.content|)
    ensures PartsChars([]) == 0
  {
    CharsOfConcat(a + [p], b);
    CharsOfConcat(a, [p]);
    assert [p][1..] == [];
  }

  /** What one message adds: a fourth of its characters, rounded up, and four tokens of its own. */
  lemma TokensMessageByMessage(a: seq<Message>, m: Message, b: seq<Message>)
    ensures var more := ApproximateTokens(a + [m] + b) - ApproximateTokens(a) - ApproximateTokens(b);
      PartsChars(m.parts) <= 4 * (more - 4) < PartsChars(m.parts) + 4
    ensures ApproximateTokens([]) == 0
  {
    TokensOfConcat(a + [m], b);
    TokensOfConcat(a, [m]);
    assert [m][1..] == [];
  }

  /** A transcript weighs at least a fourth of any text, call or result in it. */
  lemma OnePartWeighs(t: seq<Message>, k: nat, j: nat)
    requires k < |t| && j < |t[k].parts|
    ensures var p := t[k].parts[j];
      && (p.Text? ==> |p.text| < 4 * ApproximateTokens(t))
      && (p.ToolCall? ==> |p.name| + |p.arguments| < 4 * ApproximateTokens(t))
      && (p.ToolResult? ==> |p.content| < 4 * ApproximateTokens(t))
  {
    hide PartsChars, ApproximateTokens;
    var parts := t[k].parts;
    assert t == t[..k] + [t[k]] + t[k + 1..];
    TokensMessageByMessage(t[..k], t[k], t[k + 1..]);
    assert parts == parts[..j] + [parts[j]] + parts[j + 1..];
    CharsPartByPart(parts[..j], parts[j], parts[j + 1..]);
  }
}
