/** The request of a turn: the run's fixed facts around a view of the transcript. */
module Context {
  import opened Wrappers
  import opened Messages
  import Compaction

  // A tool schema is carried as the text the registry declared.
  type ToolSpec = string

  datatype ChatRequest = ChatRequest(
    model: string,
    system: Option<string>,
    messages: seq<Message>,
    tools: seq<ToolSpec>,
    maxTokens: nat)

  datatype ContextFacts = ContextFacts(
    system: Option<string>,
    tools: seq<ToolSpec>,
    maxTokens: nat,
    compactAtTokens: nat)

  function MessagesFor(facts: ContextFacts, transcript: seq<Message>): seq<Message> {
    if facts.compactAtTokens == 0 then transcript
    else Compaction.Compact(transcript, facts.compactAtTokens).messages
  }

  function Request(facts: ContextFacts, model: string, transcript: seq<Message>): ChatRequest {
    ChatRequest(model, facts.system, MessagesFor(facts, transcript), facts.tools, facts.maxTokens)
  }

  /** A request carries the compacted view, which can be sent whenever the transcript could and keeps its order. */
  lemma RequestIsSendable(facts: ContextFacts, transcript: seq<Message>)
    requires PairComplete(transcript)
    ensures MessagesFor(facts, transcript) == Compaction.Compact(transcript, facts.compactAtTokens).messages
    ensures PairComplete(MessagesFor(facts, transcript))
    ensures ResultsFollowCalls(transcript) && UniqueCalls(transcript)
            ==> ResultsFollowCalls(MessagesFor(facts, transcript))
  {
    Compaction.ViewIsPairComplete(transcript, facts.compactAtTokens);
    if ResultsFollowCalls(transcript) && UniqueCalls(transcript) {
      Compaction.ViewKeepsOrder(transcript, facts.compactAtTokens);
    }
  }
}
