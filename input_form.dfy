/** The submit guard of components/InputForm.tsx. */
module InputForm {
  import opened Wrappers
  import JsString

  /** `input.trim() && !isLoading`: some non-whitespace text and no request
      outstanding. */
  predicate CanSubmit(input: string, isLoading: bool)
    ensures CanSubmit(input, isLoading) ==> !isLoading && input != ""
  {
    JsString.Trim(input) != "" && !isLoading
  }

  /** The submit button's `disabled={!input.trim() || isLoading}`: disabled
      exactly when the form handler would refuse to submit. */
  function SubmitDisabled(input: string, isLoading: bool): (disabled: bool)
    ensures disabled <==> !CanSubmit(input, isLoading)
  {
    JsString.Trim(input) == "" || isLoading
  }

  /** The guard in terms of the text alone: it passes exactly when nothing is
      loading and the text holds at least one non-whitespace character. */
  lemma CanSubmitIff(input: string, isLoading: bool)
    ensures CanSubmit(input, isLoading)
      <==> !isLoading && exists i :: 0 <= i < |input| && !JsString.IsWhitespace(input[i])
  {
    JsString.TrimEmptyIff(input);
  }

  /** Whitespace-only text (the empty text included) is never submitted. */
  lemma WhitespaceNeverSubmits(input: string, isLoading: bool)
    requires JsString.AllWhitespace(input)
    ensures !CanSubmit(input, isLoading)
  {
    JsString.TrimEmptyIff(input);
  }

  /** The form with its one state cell, the text being typed. */
  class Form {
    var input: string

    /** `useState('')` */
    constructor ()
      ensures input == ""
    {
      input := "";
    }

    /** The textarea's `onChange`: `setInput(e.target.value)`. */
    method SetInput(value: string)
      modifies this
      ensures input == value
    {
      input := value;
    }

    /** `handleSubmit`: the text handed to `onSubmit`, if any. It is handed on
        exactly when the guard passes, and untrimmed. */
    method HandleSubmit(isLoading: bool) returns (submitted: Option<string>)
      ensures submitted.Some? <==> CanSubmit(input, isLoading)
      ensures submitted.Some? ==> submitted.value == input
    {
      if JsString.Trim(input) != "" && !isLoading {
        submitted := Some(input);
      } else {
        submitted := None;
      }
    }

    /** `handleKeyDown`: only Enter with the meta key held submits, under the
        same guard as the form; every other key event submits nothing. */
    method HandleKeyDown(key: string, metaKey: bool, isLoading: bool) returns (submitted: Option<string>)
      ensures !(key == "Enter" && metaKey) ==> submitted == None
      ensures key == "Enter" && metaKey ==> (submitted.Some? <==> CanSubmit(input, isLoading))
      ensures submitted.Some? ==> submitted.value == input
    {
      submitted := None;
      if key == "Enter" && metaKey {
        if JsString.Trim(input) != "" && !isLoading {
          submitted := Some(input);
        }
      }
    }
  }
}
