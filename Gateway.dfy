/** How the client turns a failed backend call into the text it shows: the
    shared error rule of `callBackendLLM` and of the upload handler. */
module Gateway {
  import opened Wrappers
  import opened Strings

  /** A backend call that did not succeed. `HttpError` is a reply whose status
      is not 2xx and whose body parsed, carrying that body's `error` field if
      any; `Thrown` is every exception raised on the way (the network failing,
      a body that is not JSON), carrying the exception's message. */
  datatype Failure = HttpError(status: nat, serverError: Option<string>) | Thrown(message: string)

  const HttpErrorPrefix := "HTTP error! status: "

  /** `errorData.error || \`HTTP error! status: ${response.status}\``, or the
      message of the exception: a non-empty server message wins, otherwise
      the status is rendered in decimal. */
  function ErrorMessage(f: Failure): (m: string)
    ensures f.Thrown? ==> m == f.message
    ensures f.HttpError? && f.serverError.Some? && f.serverError.value != "" ==> m == f.serverError.value
    ensures f.HttpError? && f.serverError.GetOr("") == "" ==> m == HttpErrorPrefix + NatToDecimal(f.status)
  {
    match f
    case Thrown(message) => message
    case HttpError(status, serverError) =>
      if serverError.Some? && serverError.value != "" then serverError.value
      else HttpErrorPrefix + NatToDecimal(status)
  }

  /** When the server gave no message, the status can be read back from the
      text shown, and that text is never empty. */
  lemma StatusRecoverable(status: nat, serverError: Option<string>)
    requires serverError.GetOr("") == ""
    ensures var m := ErrorMessage(HttpError(status, serverError));
      && |m| > |HttpErrorPrefix|
      && m[..|HttpErrorPrefix|] == HttpErrorPrefix
      && IsDigits(m[|HttpErrorPrefix|..])
      && DecimalValue(m[|HttpErrorPrefix|..]) == status
  {
    var m := ErrorMessage(HttpError(status, serverError));
    assert m[|HttpErrorPrefix|..] == NatToDecimal(status);
    DecimalRoundTrip(status);
  }
}
