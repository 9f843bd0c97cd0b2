/** The two error types of the client and their `Error()` strings. */
module Errors {
  import opened Wrappers
  import Strings
  import Fmt

  /** An error reported by the API, or made up by the client: a code and a message. */
  datatype APIError = APIError(code: string, message: string)

  /** An HTTP-level error: the request that failed, its status and the API's error. */
  datatype HTTPError = HTTPError(statusCode: int, apiErr: APIError, verb: string, path: string)

  const NilText: string := "nil APIError"
  const Prefix: string := "API Error: "
  const CodeOpen: string := " (code: "

  /** `(*APIError).Error()`; `None` is the nil pointer. */
  function APIErrorText(e: Option<APIError>): (s: string)
    ensures e.None? ==> s == NilText
    ensures e.Some? ==> Strings.StartsWith(s, Prefix) && Strings.EndsWith(s, ")")
    ensures e.Some? ==> |s| == |Prefix| + |e.value.message| + |CodeOpen| + |e.value.code| + 1
  {
    match e
    case None => NilText
    case Some(err) => Prefix + err.message + CodeOpen + err.code + ")"
  }

  /** The message and the code sit at fixed places of the text, so both can be read back
      once the length of the code is known, and the nil text is told apart from every
      non-nil one. */
  lemma APIErrorTextParts(e: APIError)
    ensures var s := APIErrorText(Some(e));
      && s[|Prefix|..|Prefix| + |e.message|] == e.message
      && s[|s| - 1 - |e.code|..|s| - 1] == e.code
      && s != APIErrorText(None)
  {
    var s := APIErrorText(Some(e));
    assert s[..|Prefix|] == Prefix;
    assert NilText[..|Prefix|] != Prefix by { assert NilText[0] != Prefix[0]; }
  }

  /** `(*HTTPError).Error()`: "VERB PATH -> STATUS CODE: MESSAGE", the status in `%d`. */
  function HTTPErrorText(e: HTTPError): string {
    e.verb + " " + e.path + " -> " + Fmt.IntToDecimal(e.statusCode) + " "
      + e.apiErr.code + ": " + e.apiErr.message
  }

  /** The text starts with the request line, carries the status as a decimal that
      reads back as the status code, then the error code, and ends with the message. */
  lemma HTTPErrorStatus(e: HTTPError)
    ensures var head := e.verb + " " + e.path + " -> ";
      var digits := Fmt.IntToDecimal(e.statusCode);
      var s := HTTPErrorText(e);
      && Strings.StartsWith(s, head)
      && s[|head|..|head| + |digits|] == digits
      && Fmt.ParseInt(s[|head|..|head| + |digits|]) == Some(e.statusCode)
      && s[|head| + |digits|..|head| + |digits| + |e.apiErr.code| + 3] == " " + e.apiErr.code + ": "
      && Strings.EndsWith(s, ": " + e.apiErr.message)
  {
    Fmt.ParseIntToDecimal(e.statusCode);
  }
}
