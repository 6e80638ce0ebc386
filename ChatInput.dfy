/**
 * The message box of the chat page (dashboard/src/components/ChatInput.jsx).
 *
 * The component keeps the typed text; submitting sends the trimmed text
 * through `onSend` and clears the box, unless the text is blank or the
 * parent has disabled the input. Enter submits, Shift+Enter does not. The
 * `onSend` callback is recorded as the list of texts it received.
 */
module ChatInput {
  import opened Base

  /** A sent message is never empty and never starts or ends with whitespace. */
  predicate Tidy(m: string) {
    m != [] && !IsSpace(m[0]) && !IsSpace(m[|m| - 1])
  }

  class ChatInput {
    /** The `text` state. */
    var text: string
    /** The `disabled` prop. */
    var disabled: bool
    /** Every argument `onSend` has been called with, in order. */
    var sent: seq<string>

    predicate Valid()
      reads this
    {
      forall i :: 0 <= i < |sent| ==> Tidy(sent[i])
    }

    constructor(disabled: bool)
      ensures Valid()
      ensures text == "" && this.disabled == disabled && sent == []
    {
      text := "";
      this.disabled := disabled;
      sent := [];
    }

    /** The send button's `disabled={!text.trim() || disabled}`. */
    function SendDisabled(): (r: bool)
      reads this
      ensures r <==> IsBlank(text) || disabled
    {
      TrimEmpty(text);
      Trim(text) == "" || disabled
    }

    /** `onChange`: the box shows what was typed. */
    method Type(t: string)
      modifies this
      requires Valid()
      ensures Valid()
      ensures text == t && disabled == old(disabled) && sent == old(sent)
    {
      text := t;
    }

    /** The parent changes the `disabled` prop. */
    method SetDisabled(d: bool)
      modifies this
      requires Valid()
      ensures Valid()
      ensures disabled == d && text == old(text) && sent == old(sent)
    {
      disabled := d;
    }

    /**
     * `handleSubmit`: when the button would be disabled nothing happens;
     * otherwise `onSend` gets the trimmed text and the box is cleared.
     */
    method HandleSubmit()
      modifies this
      requires Valid()
      ensures Valid()
      ensures disabled == old(disabled)
      ensures old(SendDisabled()) ==> text == old(text) && sent == old(sent)
      ensures !old(SendDisabled()) ==> text == "" && sent == old(sent) + [Trim(old(text))]
    {
      var trimmed := Trim(text);
      if trimmed == "" || disabled {
        return;
      }
      TrimParts(text);
      sent := sent + [trimmed];
      text := "";
    }

    /** `handleKeyDown`: Enter without Shift prevents the newline and submits; any other key does nothing here. */
    method HandleKeyDown(key: string, shiftKey: bool) returns (preventDefault: bool)
      modifies this
      requires Valid()
      ensures Valid()
      ensures preventDefault <==> key == "Enter" && !shiftKey
      ensures disabled == old(disabled)
      ensures !preventDefault || old(SendDisabled()) ==> text == old(text) && sent == old(sent)
      ensures preventDefault && !old(SendDisabled()) ==> text == "" && sent == old(sent) + [Trim(old(text))]
    {
      preventDefault := key == "Enter" && !shiftKey;
      if preventDefault {
        HandleSubmit();
      }
    }
  }
}
