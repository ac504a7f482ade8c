/**
 * The input box (src/components/ChatInput.jsx): a draft string that typing
 * overwrites and a guarded submit that hands the draft to `onSend` and clears it.
 * `onSend` is modelled by returning the string it would be called with; the
 * `disabled` prop is a parameter.
 */
module InputBar {
  import opened Js

  /** `disabled={!message.trim() || disabled}` on the send button: disabled while the
      box is, or while the draft holds nothing but white space. */
  predicate SendButtonDisabled(message: string, disabled: bool)
    ensures SendButtonDisabled(message, disabled) <==>
      (disabled || forall i :: 0 <= i < |message| ==> IsWhiteSpace(message[i]))
  {
    IsBlank(message) || disabled
  }

  /** `message.trim() && !disabled`, the guard of `handleSubmit`: the box is enabled
      and the draft has a character that is not white space. */
  predicate SubmitGuard(message: string, disabled: bool)
    ensures SubmitGuard(message, disabled) <==>
      (!disabled && exists i :: 0 <= i < |message| && !IsWhiteSpace(message[i]))
  {
    !IsBlank(message) && !disabled
  }

  /** The button is enabled exactly when pressing it would send: it is disabled
      when the draft holds only white space or the box is disabled. */
  lemma ButtonEnabledIffSubmitSends(message: string, disabled: bool)
    ensures !SendButtonDisabled(message, disabled) <==> SubmitGuard(message, disabled)
    ensures SendButtonDisabled(message, disabled) <==>
      (disabled || forall i :: 0 <= i < |message| ==> IsWhiteSpace(message[i]))
  {
  }

  /** `e.key === 'Enter' && !e.shiftKey` */
  predicate SubmitsOnKey(key: string, shiftKey: bool) {
    key == "Enter" && !shiftKey
  }

  class ChatInput {
    /** `const [message, setMessage] = useState('')` */
    var message: string

    constructor ()
      ensures message == ""
    {
      message := "";
    }

    /** `onChange`: the draft becomes the field's value. */
    method OnChange(value: string)
      modifies this
      ensures message == value
    {
      message := value;
    }

    /** `handleSubmit`: with a non-blank draft and the box enabled, call `onSend` once
        with the untrimmed draft and clear it; otherwise do nothing. */
    method HandleSubmit(disabled: bool) returns (sent: Option<string>)
      modifies this
      ensures SubmitGuard(old(message), disabled) ==> sent == Some(old(message)) && message == ""
      ensures !SubmitGuard(old(message), disabled) ==> sent == None && message == old(message)
      ensures sent.Some? ==> !IsBlank(sent.value)
    {
      if !IsBlank(message) && !disabled {
        sent := Some(message);
        message := "";
      } else {
        sent := None;
      }
    }

    /** `handleKeyPress`: Enter without Shift submits; every other key, Shift+Enter
        included, leaves the draft to the text field. */
    method HandleKeyPress(key: string, shiftKey: bool, disabled: bool) returns (sent: Option<string>)
      modifies this
      ensures SubmitsOnKey(key, shiftKey) && SubmitGuard(old(message), disabled) ==>
        sent == Some(old(message)) && message == ""
      ensures !(SubmitsOnKey(key, shiftKey) && SubmitGuard(old(message), disabled)) ==>
        sent == None && message == old(message)
    {
      if key == "Enter" && !shiftKey {
        sent := HandleSubmit(disabled);
      } else {
        sent := None;
      }
    }
  }
}
