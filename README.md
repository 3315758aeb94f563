# reCAPTCHA client wrapper, modelled in Dafny

This project models the core of a small PHP client for the reCAPTCHA (v1)
verification service, `ReCaptcha.php`. The file holds two classes:

- `ReCaptchaResponse` parses the service's two-line plaintext reply. The
  first line says whether the answer was valid. The second line is an error
  code. A reply whose second line is `invalid-site-private-key` throws.
- `ReCaptcha` is the client object. It stores the public and private keys and
  the `use_ssl` flag. It reads the challenge and response form fields once,
  when it is built. It renders the widget URLs and checks an answer by POSTing
  to the service.

Modules:

- `Wrappers` (`wrappers.dfy`): `Option`, used for PHP's `false`/`null` in a
  `string|false` slot, and `Result`, used for a call that throws.
- `PhpText` (`php_text.dfy`): the string built-ins the code uses. These are
  PHP string truthiness (`""` and `"0"` are falsy), `strtolower`, and
  `explode("\n", ...)`. `explode` is proved against `implode` in both
  directions and against a newline scan.
- `PhpArray` (`php_array.dfy`): PHP arrays with string keys. An array is a
  sequence of entries with distinct keys. `$a[$k] = $v` is `Put`, and
  `array_merge` is `Merge`.
- `Responses` (`response.dfy`): `ReCaptchaResponse`. Its fields are set only
  while the object is built, so it is a datatype value here. Building it is
  the function `NewResponse`, which returns the value or the thrown fault.
- `Client` (`recaptcha.dfy`): the `ReCaptcha` class. It has the PHP fields,
  and its constructor and setters update them in place. `GetServer` and
  `GetHtml` are functions that read the object. `CheckAnswer` and `Post`
  are methods that store the last response. `AnswerFor` is the pure decision
  `CheckAnswer` is proved against.

The superglobals `$_SERVER`, `$_POST` and `$_GET` become an explicit
`Request` value. It holds the method, the POST map, the GET map and the
client address. The network call in `post` becomes a `reply` parameter: the
raw text the service answers, which may be anything. A failed transfer
(`file_get_contents` returning `false`) is falsy, like the reply `""`, and
behaves the same way. So a failed transfer is the case `reply == ""`.

The model follows the code in these details:

- A reply of `"0"` is falsy too, so it is not parsed, just like `""`.
- The error code is the text between the first and the second newline. It
  is not "everything after the first newline".
- A reply with no newline has no error code. PHP reads the missing
  `$parse[1]` as `null`, so `error` is `None` here.

A detail of the code that the model keeps and proves (`ZeroFieldIsSkipped`):
a form field submitted as `"0"` is stored, because its length is 1. It is
still falsy, so `check_answer` discards the submission as incomplete.

## Model

| member | source | states |
|---|---|---|
| `PhpText.ToLower` | ReCaptcha.php:130 | `strtolower` keeps the length and lower-cases each ASCII letter |
| `PhpText.NewlineAt` | ReCaptcha.php:40 | the position found is within the text, has no newline before it, and holds a newline unless it is the end |
| `PhpText.Explode` | ReCaptcha.php:40 | `explode` gives at least one piece, and no piece contains a newline |
| `PhpText.ImplodeExplode` | ReCaptcha.php:40 | joining the pieces of `explode` with newlines gives back the original text |
| `PhpText.ExplodeImplode` | ReCaptcha.php:40 | exploding newline-free pieces joined by newlines gives back the pieces |
| `PhpText.ExplodeLines` | ReCaptcha.php:40-42 | `$parse[0]` is the text before the first newline; `$parse[1]` exists iff there is a newline, and is the text up to the next one |
| `PhpText.LinesOf` | ReCaptcha.php:40-42 | for `first\nsecond` followed by nothing or by a newline, the first line is `first` and the second is `second` |
| `PhpArray.Put` | ReCaptcha.php:206-214 | an array assignment adds exactly one entry when the key is new, and none otherwise |
| `PhpArray.PutLookup` | ReCaptcha.php:206-214 | after the assignment, the key holds the new value and every other key keeps its value |
| `PhpArray.PutKeys` | ReCaptcha.php:206-214 | the assignment keeps the keys in place and appends the key at the end only when it is new |
| `PhpArray.PutDistinct` | ReCaptcha.php:206-214 | the assignment keeps keys distinct |
| `PhpArray.NewKeys` | ReCaptcha.php:206-214 | the appended keys are keys of the extra array that the base lacks |
| `PhpArray.Merge` | ReCaptcha.php:206-214 | `array_merge`: each key maps to the extra array's value when it has one, else to the base value; the keys are the base keys in order, then the new extra keys in their order |
| `PhpArray.MergeKeys` | ReCaptcha.php:206-214 | a key is in the merged array iff it is a key of the base or of the extra array |
| `PhpArray.LookupAt` | ReCaptcha.php:206-214 | in an array with distinct keys, looking up an entry's key yields that entry's value |
| `Responses.ReCaptchaResponse.HasError` | ReCaptcha.php:60-65 | `has_error` with a truthy code returns whether the stored error equals it; with a falsy one it returns the stored error itself |
| `Responses.ParseResponse` | ReCaptcha.php:39-45 | throws iff the second line is `invalid-site-private-key`; otherwise valid iff the first line is `true`, error is the second line (absent without a newline), raw text kept |
| `Responses.NewResponse` | ReCaptcha.php:19-34 | a falsy reply (`""` or `"0"`) leaves the defaults (not valid, `incorrect-captcha-sol`, empty raw text); any other reply is parsed |
| `Responses.LaterLinesIgnored` | ReCaptcha.php:39-44 | a reply `first\nsecond...` depends only on its first two lines: valid iff `first` is `true`, error `second`, or the throw |
| `Responses.SingleLineHasNoError` | ReCaptcha.php:29-42 | a reply without a newline never throws, has no error code when truthy, and is valid iff it is exactly `true` |
| `Responses.HasErrorModesAgree` | ReCaptcha.php:60-65 | a truthy code matches exactly when the getter form returns that code |
| `Responses.EmptyReplyExample` | ReCaptcha.php:19-34 | the empty reply gives a response that is not valid and has the error `incorrect-captcha-sol` |
| `Responses.ValidReplyExample` | ReCaptcha.php:39-42 | `true\nincorrect-captcha-sol` is valid |
| `Responses.TimeoutReplyExample` | ReCaptcha.php:39-44 | `false\ncaptcha-timeout` is not valid and has the error `captcha-timeout` |
| `Responses.TimeoutQueriesExample` | ReCaptcha.php:60-65 | that response reports `captcha-timeout` and not `invalid-site-public-key` |
| `Responses.InvalidKeyReplyExample` | ReCaptcha.php:43-44 | `false\ninvalid-site-private-key` throws |
| `Client.IsPostMethodSpellings` | ReCaptcha.php:130 | the request counts as POST iff its method is `post` in any mix of letter case |
| `Client.RequestField` | ReCaptcha.php:285-306 | the parameter is read from `$_POST` when `is_post`, else from `$_GET`; a missing one reads as `""` |
| `Client.FormField` | ReCaptcha.php:285-306 | a form field is stored iff the chosen source (POST if `is_post`, else GET) has it non-empty, and then it is that value |
| `Client.ErrorPart` | ReCaptcha.php:173-175 | the error suffix is empty iff the error is not truthy, and is `&error=<error>` otherwise |
| `Client.PayloadShape` | ReCaptcha.php:206-214 | the posted data has the keys `privatekey`, `remoteip`, `challenge`, `response` first, then the new extra keys; each base key holds the extra value when given, else the base value |
| `Client.AnswerFor` | ReCaptcha.php:195-217 | no truthy private key throws first; then a missing field gives `Skipped`; with both fields the answer is exactly the request to `<server>/verify` with the two headers and the merged data, with the reply's parse, or the parse's throw |
| `Client.SkippedIgnoresReply` | ReCaptcha.php:199-203 | with a missing field the answer does not depend on the service's reply: no POST happens |
| `Client.ExtraOverridesChallenge` | ReCaptcha.php:206-214 | for a complete submission whose reply parses, an extra `challenge` entry replaces the posted challenge |
| `Client.ZeroFieldIsSkipped` | ReCaptcha.php:285-289 | a challenge submitted as `"0"` is stored, but `check_answer` treats it as missing |
| `Client.ReCaptcha.constructor` | ReCaptcha.php:128-134 | sets `use_ssl`, sets `is_post` iff the method lower-cases to `post`, reads both fields from the matching source, leaves keys and response unset |
| `Client.ReCaptcha.SetFormChallengeField` | ReCaptcha.php:285-289 | stores the challenge parameter when non-empty, else keeps the field |
| `Client.ReCaptcha.SetFormResponseField` | ReCaptcha.php:302-306 | stores the response parameter when non-empty, else keeps the field |
| `Client.ReCaptcha.SetPublicKey` | ReCaptcha.php:246-248 | the public key becomes the given key |
| `Client.ReCaptcha.SetPrivateKey` | ReCaptcha.php:262-264 | the private key becomes the given key |
| `Client.ReCaptcha.SetResponse` | ReCaptcha.php:320-322 | the stored response becomes the given one |
| `Client.ReCaptcha.GetServer` | ReCaptcha.php:270-272 | the server URL is `https://` with `use_ssl`, `http://` without, followed by `www.google.com/recaptcha/api` |
| `Client.ReCaptcha.GetHtml` | ReCaptcha.php:169-185 | throws iff the public key is not truthy; else the script URL is `<server>/challenge?k=<key>` and the no-script URL is `<server>/noscript?k=<key>`, each with the error suffix, and the fallback form uses the fields `recaptcha_challenge_field` and `recaptcha_response_field=manual_challenge` |
| `Client.ReCaptcha.CheckAnswer` | ReCaptcha.php:195-218 | returns what `AnswerFor` decides, with the client address of the request the object was built from; a skipped submission stores the default response, a verified one stores the parsed reply, a throw stores nothing |
| `Client.ReCaptcha.Post` | ReCaptcha.php:142-157 | posts the data to `<server>/verify` with the two headers; parses the reply; stores and returns it, or throws without storing |
| `Client.ReCaptcha.GetSignupUrl` | ReCaptcha.php:228-230 | the sign-up URL for each of the four null/given combinations: `domains=<domain>` and `app=<app>`, encoded and joined by `&`, with a null parameter dropped, so with both null the query is empty |
| `Client.BuildQuery` | ReCaptcha.php:229 | `http_build_query` is empty iff every value is null; when the first value is non-null, the query starts with that `key=value` pair |
| `Client.BuildQueryLeadingPair` | ReCaptcha.php:229 | the query starts with the first `key=value` pair whose value is non-null, whatever null values precede it |
| `Client.BuildQueryDropsNull` | ReCaptcha.php:229 | a null value anywhere among the parameters contributes nothing to the query |
| `Client.WidgetErrorSuffix` | ReCaptcha.php:173-180 | with a truthy error both URLs end in `&error=<error>`; without one they end right after the key |
| `Client.WidgetCarriesKey` | ReCaptcha.php:177-180 | both URLs start with the server URL and carry the public key right after `?k=` |
| `Client.ServerSchemeIff` | ReCaptcha.php:270-272 | the server URL starts with `https://` iff `use_ssl` is set |
| `Client.NoscriptSubmissionRead` | ReCaptcha.php:177-184 | POSTing back the widget's no-script form yields both fields to a new client: the typed challenge and `manual_challenge` |
| `Client.MissingFieldsNeverPost` | ReCaptcha.php:195-203 | a client built on a request lacking the challenge field, with a private key set, answers `Skipped` |
| `Client.UnconfiguredClientThrows` | ReCaptcha.php:195-197 | a client whose private key was never set throws on `check_answer` |

## Left out

- The network I/O of `post` (`stream_context_create`, `file_get_contents`). The service's reply is the `reply` parameter of `CheckAnswer` and `Post`. A failed transfer is the reply `""`.
- The superglobals. The request is an explicit `Request` value. The constructor keeps its client address (`$_SERVER['REMOTE_ADDR']`) in the field `remoteAddr`, which `CheckAnswer` reads: PHP reads the same `$_SERVER` in both places.
- `http_build_query`'s URL encoding. The POST body is kept as its form entries (`VerifyRequest.payload`). `GetSignupUrl` takes the encoding as a function parameter, `encode`.
- The HTML markup and whitespace of the widget. Only the two URLs and the fallback form's field names and value are modelled.
- PHP's loose `==` between numeric-looking strings in `parseResponse` and `has_error`. It is modelled as plain string equality.
- Integer-like string keys in `extra_params`. `array_merge` renumbers those. Only non-numeric string keys are modelled, and values are strings.
- Values that are not strings: arrays in `$_POST`/`$_GET`, and keys set to non-string values. Setters take strings, and `false` is `None`.
- `strtolower` under a non-ASCII locale. Only ASCII letters are lower-cased, as in PHP 8.2 and later.
- Exception message texts. A throw is one of the `Fault` values.
- The plain getters (`getPublicKey`, `getPrivateKey`, `getFormChallengeField`, `getFormResponseField`, `getResponse`, `isValid`). They are reads of the fields `publicKey`, `privateKey`, `formChallengeField`, `formResponseField`, `response` and `isValid`.
- `ReCaptchaResponse` as a mutable object. It is never changed after it is built, so a value models it fully.
