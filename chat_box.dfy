/**
  The input row of the chat panel: the text being typed, the send button
  and the quick-reply chips. A message is handed to the session only when
  its text is not blank once trimmed; it is handed over as typed, untrimmed.
*/
module ChatBox {
  import opened Types
  import opened Text

  /** The longest text the input field accepts. */
  const MaxLength := 500

  /** The send button is enabled exactly when the trimmed input is not empty. */
  predicate SendEnabled(inputText: string) {
    Trim(inputText) != []
  }

  /** What typing into the field leaves in it: the text, cut at the field's maximum length. */
  function Typed(text: string): (r: string)
    ensures |r| <= MaxLength && |r| <= |text| && r == text[..|r|]
    ensures |text| <= MaxLength ==> r == text
  {
    if |text| <= MaxLength then text else text[..MaxLength]
  }

  /** The gate agrees with the white-space rule: blank input never leaves the panel. */
  lemma {:induction false} SendEnabledIff(inputText: string)
    ensures SendEnabled(inputText) <==> exists i :: 0 <= i < |inputText| && !IsWhitespace(inputText[i])
  {
    TrimEmptyIff(inputText);
  }

  class ChatInput {
    var inputText: string

    constructor ()
      ensures inputText == ""
    {
      inputText := "";
    }

    /** `onChangeText`. */
    method ChangeText(text: string)
      modifies this
      ensures inputText == Typed(text)
    {
      inputText := Typed(text);
    }

    /**
      `handleSend`: when the trimmed input is not empty, the input as typed
      is forwarded once and the field is cleared; otherwise nothing is
      forwarded and the field keeps its text.
    */
    method Send() returns (forwarded: Option<string>)
      modifies this
      ensures forwarded.Some? <==> SendEnabled(old(inputText))
      ensures forwarded.Some? ==> forwarded.value == old(inputText) && inputText == ""
      ensures forwarded.None? ==> inputText == old(inputText)
    {
      if Trim(inputText) != [] {
        forwarded := Some(inputText);
        inputText := "";
      } else {
        forwarded := None;
      }
    }

    /** `handleQuickReplyPress`: the chip is forwarded as it is and the field is left alone. */
    method QuickReplyPress(reply: QuickReply) returns (forwarded: QuickReply)
      ensures forwarded == reply
    {
      forwarded := reply;
    }
  }
}
