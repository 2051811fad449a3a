/** The chat session (handlers/session_manager.py): the history, the markdown
    flag, and one request/response exchange. */
module Sessions {
  import opened Wrappers
  import opened PySlice
  import opened Config
  import opened ChatModels
  import opened Clients

  const ProviderUnavailable := "**Error**: Provider tidak tersedia!"
  const NoResponse := "**Maaf**, tidak ada response dari AI."

  /** A history made of whole exchanges: user and assistant messages
      alternate, starting with the user. */
  predicate IsExchangeLog(ms: seq<Message>) {
    |ms| % 2 == 0 &&
    forall i :: 0 <= i < |ms| ==> ms[i].role == (if i % 2 == 0 then UserRole else AssistantRole)
  }

  /** The trim after a committed exchange: only when the history is longer
      than the limit, keep its newest `maxLen` messages. For a limit of 0
      the slice `messages[-0:]` is the whole list, so nothing is dropped. */
  function TrimHistory(ms: seq<Message>, maxLen: int): (r: seq<Message>)
    ensures maxLen >= 1 ==> |r| == Min(|ms|, maxLen) && r == ms[|ms| - |r|..]
    ensures maxLen == 0 ==> r == ms
    ensures maxLen < 0 ==> r == ms[Min(-maxLen, |ms|)..]
  {
    if |ms| > maxLen then Last(ms, maxLen) else ms
  }

  /** Trimming to an even limit never splits an exchange. */
  lemma TrimKeepsExchangeLog(ms: seq<Message>, maxLen: int)
    requires IsExchangeLog(ms) && maxLen >= 1 && maxLen % 2 == 0
    ensures IsExchangeLog(TrimHistory(ms, maxLen))
  {
    var r := TrimHistory(ms, maxLen);
    var k := |ms| - |r|;
    assert k % 2 == 0;
    forall i | 0 <= i < |r|
      ensures r[i].role == (if i % 2 == 0 then UserRole else AssistantRole)
    {
      assert r[i] == ms[k + i];
    }
  }

  /** The value-level outcome of one exchange: the text returned and the
      history afterwards, given whether the provider has a client and what
      the client's `stream_response` answered. */
  function Exchange(ms: seq<Message>, hasClient: bool, reply: Option<string>, userInput: string, maxLen: int)
    : (string, seq<Message>)
  {
    if !hasClient then (ProviderUnavailable, ms)
    else if reply.Some? && reply.value != "" then
      (reply.value, TrimHistory(ms + [Message(UserRole, userInput), Message(AssistantRole, reply.value)], maxLen))
    else (NoResponse, ms)
  }

  /** A missing client, a failed call (None) or an empty reply leaves the
      history as it was and returns the matching message. */
  lemma FailedExchangeKeepsHistory(ms: seq<Message>, hasClient: bool, reply: Option<string>, userInput: string, maxLen: int)
    requires !hasClient || reply.None? || reply.value == ""
    ensures Exchange(ms, hasClient, reply, userInput, maxLen).1 == ms
    ensures Exchange(ms, hasClient, reply, userInput, maxLen).0 == if hasClient then NoResponse else ProviderUnavailable
  {
  }

  /** A non-empty reply is returned verbatim; the history keeps the newest
      `maxLen` messages of the old history followed by the new pair, so the
      oldest go first, and (for a limit of at least 2) it ends with the
      user's turn and the reply. */
  lemma SuccessfulExchangeCommits(ms: seq<Message>, reply: string, userInput: string, maxLen: int)
    requires reply != "" && maxLen >= 1
    ensures var (r, h) := Exchange(ms, true, Some(reply), userInput, maxLen);
      var all := ms + [Message(UserRole, userInput), Message(AssistantRole, reply)];
      r == reply && |h| == Min(|all|, maxLen) && h == all[|all| - |h|..] &&
      (maxLen >= 2 ==> h[|h| - 2..] == [Message(UserRole, userInput), Message(AssistantRole, reply)])
  {
    var all := ms + [Message(UserRole, userInput), Message(AssistantRole, reply)];
    var h := Exchange(ms, true, Some(reply), userInput, maxLen).1;
    if maxLen >= 2 {
      assert h[|h| - 2] == all[|all| - 2];
      assert h[|h| - 1] == all[|all| - 1];
    }
  }

  /** A history within the limit stays within it, and with an even limit a
      history of whole exchanges stays one. */
  lemma ExchangeKeepsInvariant(ms: seq<Message>, hasClient: bool, reply: Option<string>, userInput: string, maxLen: int)
    requires maxLen >= 1 && |ms| <= maxLen
    requires maxLen % 2 == 0 ==> IsExchangeLog(ms)
    ensures var h := Exchange(ms, hasClient, reply, userInput, maxLen).1;
      |h| <= maxLen && (maxLen % 2 == 0 ==> IsExchangeLog(h))
  {
    if hasClient && reply.Some? && reply.value != "" && maxLen % 2 == 0 {
      var all := ms + [Message(UserRole, userInput), Message(AssistantRole, reply.value)];
      assert IsExchangeLog(all) by {
        forall i | 0 <= i < |all|
          ensures all[i].role == (if i % 2 == 0 then UserRole else AssistantRole)
        {
          if i < |ms| {
            assert all[i] == ms[i];
          }
        }
      }
      TrimKeepsExchangeLog(all, maxLen);
    }
  }

  /** A history full at 20 messages that takes one more exchange stays at
      20: its two oldest messages are gone and the new pair is last. */
  lemma FullHistoryDropsOldestPair(ms: seq<Message>, reply: string, userInput: string)
    requires |ms| == 20 && reply != ""
    ensures Exchange(ms, true, Some(reply), userInput, 20).1 ==
      ms[2..] + [Message(UserRole, userInput), Message(AssistantRole, reply)]
  {
    var pair := [Message(UserRole, userInput), Message(AssistantRole, reply)];
    var h := Exchange(ms, true, Some(reply), userInput, 20).1;
    assert h == (ms + pair)[2..];
    assert (ms + pair)[2..] == ms[2..] + pair;
  }

  /** The first exchange of a session: "hi" answered by "Hello". */
  lemma FirstExchange()
    ensures Exchange([], true, Some("Hello"), "hi", 20) ==
      ("Hello", [Message(UserRole, "hi"), Message(AssistantRole, "Hello")])
  {
  }

  class SessionManager {
    const settings: Settings
    const history: ChatHistory
    var useMarkdown: bool

    /** The history never holds more than `max_history_length` messages, and
        with an even limit (the default 20) it is made of whole exchanges. */
    ghost predicate Valid()
      reads this, history
    {
      settings.maxHistoryLength >= 1 &&
      |history.messages| <= settings.maxHistoryLength &&
      (settings.maxHistoryLength % 2 == 0 ==> IsExchangeLog(history.messages))
    }

    /** `__init__`: an empty history and markdown on. A limit of 0 would
        never trim and a negative one would drop messages from the front;
        both are excluded. */
    constructor (settings: Settings)
      requires settings.maxHistoryLength >= 1
      ensures this.settings == settings && fresh(history)
      ensures history.messages == [] && useMarkdown
      ensures Valid()
    {
      this.settings := settings;
      history := new ChatHistory();
      useMarkdown := true;
    }

    /** The request for a new user turn: the history, in the provider's
        shape, followed by the user's input; the Gemini shape for "gemini"
        and the OpenAI shape for any other provider. */
    function BuildRequest(provider: string, userInput: string): (request: Request)
      reads this, history
      ensures request.GeminiContents? <==> provider == GeminiName
      ensures request.GeminiContents? ==>
        |request.contents| == |history.messages| + 1 && request.contents[|history.messages|] == userInput &&
        forall i :: 0 <= i < |history.messages| ==> request.contents[i] == history.messages[i].content
      ensures request.OpenAIMessages? ==>
        |request.messages| == |history.messages| + 1 &&
        request.messages[|history.messages|] == RoleContent(UserRole, userInput) &&
        forall i :: 0 <= i < |history.messages| ==>
          request.messages[i] == RoleContent(history.messages[i].role, history.messages[i].content)
    {
      if provider == GeminiName then GeminiContents(history.ToGeminiFormat() + [userInput])
      else OpenAIMessages(history.ToOpenAIFormat() + [RoleContent(UserRole, userInput)])
    }

    /** `get_ai_response`: looks up the client, sends the request built from
        the history and the new turn, commits the (user, assistant) pair only
        for a non-empty reply, then trims the history to its newest
        `max_history_length` messages. */
    method GetAIResponse(clientManager: ClientManager, provider: string, model: string, userInput: string, network: Network)
      returns (response: string)
      requires Valid()
      modifies history
      ensures Valid()
      ensures var client := clientManager.GetClient(provider);
        var reply := if client.Some? then Reply(network(old(BuildRequest(provider, userInput)), model)) else None;
        (response, history.messages) ==
          Exchange(old(history.messages), client.Some?, reply, userInput, settings.maxHistoryLength)
    {
      ghost var before := history.messages;
      var client := clientManager.GetClient(provider);
      if client.None? {
        response := ProviderUnavailable;
        return;
      }
      var messages := BuildRequest(provider, userInput);
      assert messages == old(BuildRequest(provider, userInput));
      var fullResponse := StreamResponse(client.value, messages, model, useMarkdown, network);
      ExchangeKeepsInvariant(before, true, fullResponse, userInput, settings.maxHistoryLength);
      if fullResponse.Some? && fullResponse.value != "" {
        CommitExchange(userInput, fullResponse.value);
        response := fullResponse.value;
      } else {
        response := NoResponse;
      }
    }

    /** The commit of a successful exchange: the user's turn and the reply
        are appended, then the history is trimmed to its newest
        `max_history_length` messages. */
    method CommitExchange(userInput: string, reply: string)
      modifies history
      ensures history.messages ==
        TrimHistory(old(history.messages) + [Message(UserRole, userInput), Message(AssistantRole, reply)],
          settings.maxHistoryLength)
    {
      history.AddMessage(UserRole, userInput);
      history.AddMessage(AssistantRole, reply);
      if |history.messages| > settings.maxHistoryLength {
        history.messages := Last(history.messages, settings.maxHistoryLength);
      }
    }
  }

  /** With the default settings, the session history is always within the
      default window of `get_recent_messages`: its 10 most recent exchanges
      are all of it. */
  lemma DefaultWindowCoversHistory(s: SessionManager)
    requires s.Valid() && s.settings.maxHistoryLength == NewSettings(None, None).maxHistoryLength
    ensures s.history.GetRecentMessages() == s.history.messages
  {
  }
}
