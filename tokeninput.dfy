/**
 * The token form (TokenInput.tsx): the raw text typed so far, a submit that hands on the
 * trimmed text only when it is not blank, the button's disabled state and the error box.
 */
module TokenInput {
  import opened Types
  import opened Text

  /** The form's `token` state, the text exactly as typed. */
  class TokenForm {
    var token: string

    constructor ()
      ensures token == ""
    {
      token := "";
    }

    /** The input's `onChange`. */
    method OnChange(value: string)
      modifies this
      ensures token == value
    {
      token := value;
    }

    /** `handleSubmit`: the trimmed text is submitted exactly when it is not empty. */
    method HandleSubmit() returns (submitted: Option<string>)
      ensures submitted.Some? <==> exists i :: 0 <= i < |token| && !IsSpace(token[i])
      ensures submitted.Some? ==> submitted.value == Trim(token)
      ensures submitted.Some? ==> Trim(submitted.value) == submitted.value && submitted.value != ""
    {
      TrimEmptyIff(token);
      var trimmed := Trim(token);
      if trimmed != "" {
        TrimIdempotent(token);
        submitted := Some(trimmed);
      } else {
        submitted := None;
      }
    }

    /** `isLoading || !token`: the raw text decides, not the trimmed one. */
    predicate ButtonDisabled(isLoading: bool)
      reads this
    {
      isLoading || token == ""
    }
  }

  /** `{error && (...)}`: the error box shows for a non-empty error. */
  predicate ErrorShown(error: Option<string>)
    ensures ErrorShown(error) <==> error.Some? && |error.value| > 0
  {
    Truthy(error)
  }

  /** Nothing cut off is anything but white space: the submitted token is the typed text
      with white space removed from both ends only. */
  lemma SubmittedIsTypedText(token: string)
    requires Trim(token) != ""
    ensures exists a, b :: 0 <= a <= b <= |token| && Trim(token) == token[a..b]
    ensures !IsSpace(Trim(token)[0]) && !IsSpace(Trim(token)[|Trim(token)| - 1])
  {
    TrimShape(token);
  }

  /** Text made only of white space enables the button, yet submitting it does nothing. */
  method WhitespaceOnly(form: TokenForm, spaces: string) returns (submitted: Option<string>)
    requires spaces != "" && forall i :: 0 <= i < |spaces| ==> IsSpace(spaces[i])
    modifies form
    ensures !form.ButtonDisabled(false) && submitted == None
  {
    form.OnChange(spaces);
    submitted := form.HandleSubmit();
  }
}
