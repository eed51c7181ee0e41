/** The form validator of validators.py: the `text` field of the mailing form
    must not be empty. */
module Validators {
  import opened PyValues

  const EmptyTextMessage: string := "Text field cannot be empty"

  /** `FormValidator.check_text_field`: `if not v: raise`, otherwise `v` itself. */
  function CheckTextField(v: string): (r: Result<string, Exception>)
    ensures r.Failure? <==> v == ""
    ensures r.Failure? ==> r.error == SmscApiError(Str(EmptyTextMessage))
    ensures r.Success? ==> r.value == v
  {
    if !Truthy(Str(v)) then Failure(SmscApiError(Str(EmptyTextMessage))) else Success(v)
  }

  /** A value the validator accepts is accepted again, unchanged. */
  lemma CheckTextFieldIdempotent(v: string)
    ensures CheckTextField(v).Success? ==> CheckTextField(CheckTextField(v).value) == CheckTextField(v)
  {
  }
}
