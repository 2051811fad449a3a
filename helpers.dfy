/** Small helpers (utils/helpers.py); their console messages are not
    modelled. */
module Helpers {
  import opened Wrappers
  import opened PyText
  import opened ChatModels
  import opened Sessions

  /** A Python value as `validate_response` distinguishes it. */
  datatype PyValue = PyNone | PyStr(s: string) | PyOther

  /** `validate_response`: None and all-whitespace strings are invalid;
      everything else, non-strings included, is valid. */
  function ValidateResponse(response: PyValue): (valid: bool)
    ensures !valid <==> response.PyNone? || (response.PyStr? && IsBlank(response.s))
  {
    if response.PyNone? then false
    else if response.PyStr? && Strip(response.s) == "" then false
    else true
  }

  /** The validator is stricter than the session's commit rule: every reply
      it accepts is committed by a session exchange, but a reply of one
      space is committed although the validator rejects it. */
  lemma ValidatorStricterThanCommit(reply: string, messages: seq<Message>, userInput: string, maxLen: int)
    ensures ValidateResponse(PyStr(reply)) ==>
      Exchange(messages, true, Some(reply), userInput, maxLen) ==
        (reply, TrimHistory(messages + [Message(UserRole, userInput), Message(AssistantRole, reply)], maxLen))
    ensures !ValidateResponse(PyStr(" "))
    ensures Exchange(messages, true, Some(" "), userInput, maxLen) ==
      (" ", TrimHistory(messages + [Message(UserRole, userInput), Message(AssistantRole, " ")], maxLen))
  {
    assert IsBlank(" ") by {
      assert IsSpace(" "[0]);
    }
  }

  /** `format_provider_name`: the name in capitals, equal to it up to letter
      case. */
  function FormatProviderName(provider: string): (name: string)
    ensures |name| == |provider|
    ensures Lower(name) == Lower(provider)
    ensures forall i :: 0 <= i < |name| ==> !('a' <= name[i] <= 'z')
  {
    var name := Upper(provider);
    assert forall i :: 0 <= i < |name| ==> LowerChar(UpperChar(provider[i])) == LowerChar(provider[i]);
    name
  }

  lemma ProviderNamesInCapitals()
    ensures FormatProviderName("gemini") == "GEMINI"
    ensures FormatProviderName("openai") == "OPENAI"
  {
  }
}
