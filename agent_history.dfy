/**
 * The chat history the agent passes to the language model
 * (`_history_to_messages` in agent/main.py): only the user and assistant
 * turns whose content is text are kept, in order.
 */
module AgentHistory {
  import opened Wrappers
  import opened Json
  import opened PyValue
  import opened Loops

  datatype ChatMessage = ChatMessage(role: string, content: string)

  /** The entry is a user or assistant turn with text content. */
  predicate IsChatTurn(fs: Fields) {
    Get(fs, "role") in [JStr("user"), JStr("assistant")] && Get(fs, "content").JStr?
  }

  /** One iteration: an entry that is not a dict raises on `.get`; a chat turn is kept as a message. */
  function HistoryEntry(entry: Json): (r: Result<Option<ChatMessage>, string>)
    ensures r.Failure? <==> !entry.JObj?
    ensures r.Success? && r.value.Some? <==> entry.JObj? && IsChatTurn(entry.fields)
    ensures r.Success? && r.value.Some? ==>
              JStr(r.value.value.role) == Get(entry.fields, "role") && JStr(r.value.value.content) == Get(entry.fields, "content")
  {
    if !entry.JObj? then Failure(NoGetMessage(entry))
    else if IsChatTurn(entry.fields) then Success(Some(ChatMessage(Get(entry.fields, "role").s, Get(entry.fields, "content").s)))
    else Success(None)
  }

  function HistoryStep(): (step: Json -> Result<Option<ChatMessage>, string>)
    ensures forall x :: step(x) == HistoryEntry(x)
  {
    x => HistoryEntry(x)
  }

  /** `_history_to_messages(history)`; `None` is an absent history. */
  function HistoryToMessages(history: Option<seq<Json>>): Result<seq<ChatMessage>, string> {
    if history.None? || history.value == [] then Success([])
    else Collect(history.value, HistoryStep())
  }

  method HistoryMessages(history: Option<seq<Json>>) returns (r: Result<seq<ChatMessage>, string>)
    ensures r == HistoryToMessages(history)
  {
    if history.None? || history.value == [] {
      return Success([]);
    }
    r := CollectLoop(history.value, HistoryStep());
  }

  /** The history is read exactly when every entry is a dict. */
  lemma HistoryFails(history: seq<Json>)
    ensures HistoryToMessages(Some(history)).Failure? <==> exists k :: 0 <= k < |history| && !history[k].JObj?
  {
    CollectSucceeds(history, HistoryStep());
  }

  /**
   * A message is kept exactly when it is the text of a user or assistant
   * turn in the history; the role and content are copied unchanged.
   */
  lemma HistoryKeepsChatTurns(history: seq<Json>, m: ChatMessage)
    requires HistoryToMessages(Some(history)).Success?
    ensures m in HistoryToMessages(Some(history)).value <==>
              exists k :: 0 <= k < |history| && history[k].JObj? && IsChatTurn(history[k].fields)
                          && Get(history[k].fields, "role") == JStr(m.role) && Get(history[k].fields, "content") == JStr(m.content)
  {
    var step := HistoryStep();
    if m in HistoryToMessages(Some(history)).value {
      CollectedFrom(history, step, m);
      var k :| 0 <= k < |history| && step(history[k]) == Success(Some(m));
      assert HistoryEntry(history[k]) == Success(Some(m));
    }
    if exists k :: 0 <= k < |history| && history[k].JObj? && IsChatTurn(history[k].fields)
                   && Get(history[k].fields, "role") == JStr(m.role) && Get(history[k].fields, "content") == JStr(m.content) {
      var k :| 0 <= k < |history| && history[k].JObj? && IsChatTurn(history[k].fields)
               && Get(history[k].fields, "role") == JStr(m.role) && Get(history[k].fields, "content") == JStr(m.content);
      assert HistoryEntry(history[k]) == Success(Some(m));
      CollectedAll(history, step, k, m);
    }
  }

  /** The messages of two histories in turn are the messages of each, in order: nothing is reordered. */
  lemma HistoryKeepsOrder(first: seq<Json>, second: seq<Json>)
    requires HistoryToMessages(Some(first)).Success? && HistoryToMessages(Some(second)).Success?
    ensures HistoryToMessages(Some(first + second))
              == Success(HistoryToMessages(Some(first)).value + HistoryToMessages(Some(second)).value)
  {
    CollectAppend(first, second, HistoryStep());
    if first == [] {
      assert first + second == second;
    }
    if second == [] {
      assert first + second == first;
    }
  }

  /** There are never more messages than history entries. */
  lemma HistoryNoLonger(history: seq<Json>)
    requires HistoryToMessages(Some(history)).Success?
    ensures |HistoryToMessages(Some(history)).value| <= |history|
  {
    if history != [] {
      CollectLength(history, HistoryStep());
    }
  }
}
