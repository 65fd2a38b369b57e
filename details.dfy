/** The reply box of the grievance details view (`GrievanceDetailsView`,
    components/Views.tsx:338-345, 395-404). */
module Details {
  import opened Types
  import opened JsText

  /** The Send button is enabled and `handleSubmitReply` goes through:
      `replyText.trim()` is not empty. */
  predicate CanSend(text: string) {
    Trim(text) != []
  }

  /** A message can be sent exactly when it holds a character that is not
      white space. */
  lemma CanSendIff(text: string)
    ensures CanSend(text) <==> exists i :: 0 <= i < |text| && !IsJsWhiteSpace(text[i])
  {
    TrimEmptyIff(text);
  }

  class ReplyBox {
    var replyText: string

    constructor ()
      ensures replyText == ""
    {
      replyText := "";
    }

    /** The text area's `onChange`. */
    method Edit(text: string)
      modifies this
      ensures replyText == text
    {
      replyText := text;
    }

    /** `handleSubmitReply`: a blank message is neither sent nor cleared; any
        other is handed to `onReply` untrimmed and the box empties. */
    method SubmitReply() returns (sent: Option<string>)
      modifies this
      ensures !CanSend(old(replyText)) ==> sent == None && replyText == old(replyText)
      ensures CanSend(old(replyText)) ==> sent == Some(old(replyText)) && replyText == ""
    {
      if !CanSend(replyText) {
        return None;
      }
      sent := Some(replyText);
      replyText := "";
    }
  }
}
