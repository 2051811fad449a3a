/** The conversation history (models/chat_models.py): an ordered list of
    (role, content) messages with in-place append and clear, a "recent
    exchanges" window, and two read-only projections into the request shapes
    of the two provider families. */
module ChatModels {
  import opened PySlice

  const UserRole := "user"
  const AssistantRole := "assistant"

  datatype Message = Message(role: string, content: string)

  /** The `{"role": ..., "content": ...}` record of an OpenAI-style request. */
  datatype RoleContent = RoleContent(role: string, content: string)

  class ChatHistory {
    var messages: seq<Message>

    constructor ()
      ensures messages == []
    {
      messages := [];
    }

    /** `add_message`: one message at the tail, the earlier ones untouched. */
    method AddMessage(role: string, content: string)
      modifies this
      ensures messages == old(messages) + [Message(role, content)]
    {
      messages := messages + [Message(role, content)];
    }

    /** `get_recent_messages`: the newest 2 * maxExchanges messages, or all
        of them when there are fewer. Python reads `messages[-0:]` as the
        whole list, so 0 exchanges gives everything; a negative count drops
        that many exchanges from the front instead. */
    function GetRecentMessages(maxExchanges: int := 10): (r: seq<Message>)
      reads this
      ensures maxExchanges >= 1 ==>
        |r| == Min(2 * maxExchanges, |messages|) && r == messages[|messages| - |r|..]
      ensures maxExchanges == 0 ==> r == messages
      ensures maxExchanges < 0 ==> r == messages[Min(-2 * maxExchanges, |messages|)..]
    {
      Last(messages, maxExchanges * 2)
    }

    /** `clear`: empties the history in place. */
    method Clear()
      modifies this
      ensures messages == [] && Length() == 0
    {
      messages := [];
    }

    /** `to_gemini_format`: the contents alone, in conversation order. */
    function ToGeminiFormat(): (r: seq<string>)
      reads this
      ensures |r| == |messages|
      ensures forall i :: 0 <= i < |r| ==> r[i] == messages[i].content
    {
      var ms := messages;
      seq(|ms|, i requires 0 <= i < |ms| => ms[i].content)
    }

    /** `to_openai_format`: one role/content record per message, in order. */
    function ToOpenAIFormat(): (r: seq<RoleContent>)
      reads this
      ensures |r| == |messages|
      ensures forall i :: 0 <= i < |r| ==> r[i] == RoleContent(messages[i].role, messages[i].content)
    {
      var ms := messages;
      seq(|ms|, i requires 0 <= i < |ms| => RoleContent(ms[i].role, ms[i].content))
    }

    /** The `length` property. */
    function Length(): (n: nat)
      reads this
      ensures n == |messages|
    {
      |messages|
    }
  }

  /** Reads an OpenAI-style record list back as messages. */
  function FromRoleContents(rs: seq<RoleContent>): (ms: seq<Message>)
  {
    if rs == [] then [] else FromRoleContents(rs[..|rs| - 1]) + [Message(rs[|rs| - 1].role, rs[|rs| - 1].content)]
  }

  /** The OpenAI projection loses nothing: reading it back gives the
      history itself. */
  lemma OpenAIFormatLossless(h: ChatHistory)
    ensures FromRoleContents(h.ToOpenAIFormat()) == h.messages
  {
    var rs := h.ToOpenAIFormat();
    FromRoleContentsAt(rs);
  }

  lemma {:induction false} FromRoleContentsAt(rs: seq<RoleContent>)
    ensures |FromRoleContents(rs)| == |rs|
    ensures forall i :: 0 <= i < |rs| ==> FromRoleContents(rs)[i] == Message(rs[i].role, rs[i].content)
  {
    if rs != [] {
      FromRoleContentsAt(rs[..|rs| - 1]);
    }
  }

  /** The Gemini projection is the content column of the OpenAI one. */
  lemma GeminiIsOpenAIContents(h: ChatHistory)
    ensures |h.ToGeminiFormat()| == |h.ToOpenAIFormat()|
    ensures forall i :: 0 <= i < |h.messages| ==> h.ToGeminiFormat()[i] == h.ToOpenAIFormat()[i].content
  {
  }

  /** A history that ends with a completed exchange U, A shows U then A, with
      their roles, at the end of both request shapes. */
  lemma ExchangeSurfaces(h: ChatHistory, u: string, a: string)
    requires |h.messages| >= 2
    requires h.messages[|h.messages| - 2..] == [Message(UserRole, u), Message(AssistantRole, a)]
    ensures var g := h.ToGeminiFormat(); g[|g| - 2..] == [u, a]
    ensures var o := h.ToOpenAIFormat(); o[|o| - 2..] == [RoleContent(UserRole, u), RoleContent(AssistantRole, a)]
  {
    var n := |h.messages|;
    assert h.messages[n - 2] == Message(UserRole, u);
    assert h.messages[n - 1] == Message(AssistantRole, a);
  }
}
