/**
 * The guard both chat components put in front of sending:
 * `if (!newMessage.trim() || isSending) return;`
 */
module SendGuard {
  import opened Text

  /** A send goes ahead when the trimmed input is non-empty and no send is in flight. */
  predicate CanSend(input: string, isSending: bool) {
    Trim(input) != "" && !isSending
  }

  /** The guard lets a send through exactly when the input holds a non-whitespace character. */
  lemma CanSendIff(input: string, isSending: bool)
    ensures CanSend(input, isSending) <==>
            !isSending && exists i :: 0 <= i < |input| && !IsWhitespace(input[i])
  {
    TrimEmptyIff(input);
  }
}
