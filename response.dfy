/**
 * `ReCaptchaResponse`: the verification service's two-line plaintext reply,
 * parsed into a validity flag and an error code. The object is never changed
 * after it is built, so it is a value here; building it either yields the
 * value or throws, which is a `Result`.
 */
module Responses {

  import opened Wrappers
  import opened PhpText

  /** Error codes the verification service sends on the second line. */
  const INVALID_PRIVATE_KEY := "invalid-site-private-key"
  const INCORRECT_CAPTCHA_SOL := "incorrect-captcha-sol"
  const INVALID_PUBLIC_KEY := "invalid-site-public-key"
  const CAPTCHA_TIMEOUT := "captcha-timeout"

  /** The `ErrorException`s the library throws, told apart by their cause. */
  datatype Fault = MissingPublicKey | MissingPrivateKey | InvalidPrivateKey

  /**
   * A parsed reply. `error` is `None` when the reply had no second line
   * (PHP reads an undefined `$parse[1]` as `null`).
   */
  datatype ReCaptchaResponse = ReCaptchaResponse(isValid: bool, error: Option<string>, rawResponse: string)
  {
    /**
     * `has_error`: with a truthy `code`, whether the stored error equals it;
     * with a falsy one ("" by default, or "0"), the stored error itself.
     */
    function HasError(code: string): (q: ErrorQuery)
      ensures Truthy(code) ==> q.Flag? && (q.flag <==> error == Some(code))
      ensures !Truthy(code) ==> q.Code? && q.code == error
    {
      if Truthy(code) then Flag(error == Some(code)) else Code(error)
    }
  }

  /** What `has_error` returns: a boolean or the stored error string. */
  datatype ErrorQuery = Flag(flag: bool) | Code(code: Option<string>)

  /** The response before any parse: not valid, `incorrect-captcha-sol`, no raw text. */
  const Unparsed := ReCaptchaResponse(false, Some(INCORRECT_CAPTCHA_SOL), "")

  /**
   * `parseResponse`: explodes the reply on newlines; the first piece decides
   * validity, the second is the error code; the invalid-private-key code throws.
   */
  function ParseResponse(raw: string): (r: Result<ReCaptchaResponse, Fault>)
    ensures r.Failure? <==> SecondLine(raw) == Some(INVALID_PRIVATE_KEY)
    ensures r.Failure? ==> r.error == InvalidPrivateKey
    ensures r.Success? ==> r.value.rawResponse == raw
    ensures r.Success? ==> (r.value.isValid <==> FirstLine(raw) == "true")
    ensures r.Success? ==> r.value.error == SecondLine(raw)
  {
    var parse := Explode(raw);
    ExplodeLines(raw);
    var isValid := parse[0] == "true";
    var error := if |parse| >= 2 then Some(parse[1]) else None;
    if error == Some(INVALID_PRIVATE_KEY) then Failure(InvalidPrivateKey)
    else Success(ReCaptchaResponse(isValid, error, raw))
  }

  /**
   * `new ReCaptchaResponse($response)`: a falsy reply ("" or "0") is not
   * parsed and leaves the defaults; any other reply is parsed.
   */
  function NewResponse(raw: string): (r: Result<ReCaptchaResponse, Fault>)
    ensures !Truthy(raw) ==> r == Success(Unparsed)
    ensures Truthy(raw) ==> r == ParseResponse(raw)
  {
    if Truthy(raw) then ParseResponse(raw) else Success(Unparsed)
  }

  /**
   * A reply made of a first line, a second line and anything after a further
   * newline: only the first two lines matter.
   */
  lemma LaterLinesIgnored(first: string, second: string, rest: string)
    requires '\n' !in first && '\n' !in second
    requires rest == [] || rest[0] == '\n'
    ensures var raw := first + "\n" + second + rest;
      NewResponse(raw) ==
        if second == INVALID_PRIVATE_KEY then Failure(InvalidPrivateKey)
        else Success(ReCaptchaResponse(first == "true", Some(second), raw))
  {
    var raw := first + "\n" + second + rest;
    LinesOf(first, second, rest);
    assert raw[|first|] == '\n';
  }

  /** A reply without a newline has no error code and can never throw. */
  lemma SingleLineHasNoError(raw: string)
    requires '\n' !in raw
    ensures NewResponse(raw).Success?
    ensures NewResponse(raw).value.error == if Truthy(raw) then None else Some(INCORRECT_CAPTCHA_SOL)
    ensures NewResponse(raw).value.isValid <==> raw == "true"
  {
    assert forall i :: 0 <= i < |raw| ==> raw[i] in raw;
    assert raw[..|raw|] == raw;
  }

  /** A truthy `has_error` query holds for exactly one code: the stored error. */
  lemma HasErrorModesAgree(resp: ReCaptchaResponse, code: string)
    requires Truthy(code)
    ensures resp.HasError(code) == Flag(true) <==> resp.HasError("") == Code(Some(code))
  {
  }

  /** An empty reply is not parsed: not valid, `incorrect-captcha-sol`. */
  lemma EmptyReplyExample()
    ensures NewResponse("") == Success(Unparsed)
    ensures !Unparsed.isValid
    ensures Unparsed.HasError(INCORRECT_CAPTCHA_SOL) == Flag(true)
  {
  }

  /** A reply whose first line is "true" is valid, whatever its error code. */
  lemma ValidReplyExample()
    ensures NewResponse("true\nincorrect-captcha-sol").Success?
    ensures NewResponse("true\nincorrect-captcha-sol").value.isValid
  {
    assert "true\nincorrect-captcha-sol" == "true" + "\n" + INCORRECT_CAPTCHA_SOL + "";
    LaterLinesIgnored("true", INCORRECT_CAPTCHA_SOL, "");
  }

  /** A timed-out reply is not valid and carries `captcha-timeout`. */
  lemma TimeoutReplyExample()
    ensures NewResponse("false\ncaptcha-timeout") == Success(ReCaptchaResponse(false, Some(CAPTCHA_TIMEOUT), "false\ncaptcha-timeout"))
  {
    assert "false\ncaptcha-timeout" == "false" + "\n" + CAPTCHA_TIMEOUT + "";
    LaterLinesIgnored("false", CAPTCHA_TIMEOUT, "");
  }

  /** The timed-out reply reports `captcha-timeout` and no other code. */
  lemma TimeoutQueriesExample(resp: ReCaptchaResponse)
    requires resp.error == Some(CAPTCHA_TIMEOUT)
    ensures resp.HasError(CAPTCHA_TIMEOUT) == Flag(true)
    ensures resp.HasError(INVALID_PUBLIC_KEY) == Flag(false)
  {
  }

  /** A reply reporting an invalid private key throws. */
  lemma InvalidKeyReplyExample()
    ensures NewResponse("false\n" + INVALID_PRIVATE_KEY) == Failure(InvalidPrivateKey)
  {
    assert "false\n" + INVALID_PRIVATE_KEY == "false" + "\n" + INVALID_PRIVATE_KEY + "";
    LaterLinesIgnored("false", INVALID_PRIVATE_KEY, "");
  }
}
