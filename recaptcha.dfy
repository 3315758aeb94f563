/**
 * `ReCaptcha`: the client object. It holds the keys and the transport flag,
 * reads the two form fields of the incoming request once, renders the widget
 * URLs and checks an answer against the verification service.
 *
 * The request the PHP code reads from `$_SERVER`, `$_POST` and `$_GET` is an
 * explicit `Request` value here, and the service's reply to the verification
 * POST is a `reply` parameter.
 */
module Client {

  import opened Wrappers
  import opened PhpText
  import opened PhpArray
  import opened Responses

  /** Host and path of the service, without the scheme. */
  const RECAPTCHA_VERIFY_SERVER := "www.google.com/recaptcha/api"
  const SIGNUP_URL := "https://www.google.com/recaptcha/admin/create"

  /** The form fields the widget submits and the constructor reads. */
  const CHALLENGE_FIELD := "recaptcha_challenge_field"
  const RESPONSE_FIELD := "recaptcha_response_field"
  /** The value of the hidden response field in the no-script fallback. */
  const MANUAL_CHALLENGE := "manual_challenge"

  /** The headers of the verification POST. */
  const POST_HEADERS := [
    "Content-Type: application/x-www-form-urlencoded",
    "User-Agent: reCAPTCHA/PHP-Alternative"
  ]

  /** The incoming HTTP request: method, POST body, query string, client address. */
  datatype Request = Request(verb: string, post: map<string, string>, get: map<string, string>, remoteAddr: string)

  /** The two URLs and the fixed field names of the widget `get_html` renders. */
  datatype Widget = Widget(
    scriptSrc: string,
    noscriptSrc: string,
    challengeFieldName: string,
    responseFieldName: string,
    responseFieldValue: string)

  /** The verification POST: its URL, its headers and the form data it carries. */
  datatype VerifyRequest = VerifyRequest(url: string, headers: seq<string>, payload: Assoc)

  /**
   * What `check_answer` returns: `false` for a submission without both fields,
   * or the parsed reply to the POST it sent.
   */
  datatype Answer = Skipped | Verified(request: VerifyRequest, response: ReCaptchaResponse)

  /** `!$x` is false: a `string|false` slot holding a truthy string. */
  predicate Present(v: Option<string>) {
    v.Some? && Truthy(v.value)
  }

  /** `strtolower($method) === strtolower('POST')`. */
  predicate IsPostMethod(verb: string) {
    ToLower(verb) == "post"
  }

  /** The method test is a case-insensitive comparison with "POST". */
  lemma IsPostMethodSpellings(verb: string)
    ensures IsPostMethod(verb) <==>
      |verb| == 4 && verb[0] in "pP" && verb[1] in "oO" && verb[2] in "sS" && verb[3] in "tT"
  {
    if |verb| == 4 && verb[0] in "pP" && verb[1] in "oO" && verb[2] in "sS" && verb[3] in "tT" {
      assert ToLower(verb) == "post";
    }
    if IsPostMethod(verb) {
      var low := ToLower(verb);
      assert low[0] == 'p' && low[1] == 'o' && low[2] == 's' && low[3] == 't';
    }
  }

  /**
   * `$_POST[$name]` or `$_GET[$name]`, by request method; a missing parameter
   * reads as `null`, whose length is 0, so it is "" here.
   */
  function RequestField(req: Request, isPost: bool, name: string): (f: string)
    ensures isPost && name in req.post ==> f == req.post[name]
    ensures !isPost && name in req.get ==> f == req.get[name]
    ensures name !in (if isPost then req.post else req.get) ==> f == ""
  {
    var source := if isPost then req.post else req.get;
    if name in source then source[name] else ""
  }

  /**
   * What `setFormChallengeField` and `setFormResponseField` store on a fresh
   * object: the parameter when it is non-empty, `false` otherwise.
   */
  function FormField(req: Request, isPost: bool, name: string): (field: Option<string>)
    ensures var source := if isPost then req.post else req.get;
      field.Some? <==> name in source && source[name] != ""
    ensures var source := if isPost then req.post else req.get;
      field.Some? ==> field.value == source[name]
  {
    var f := RequestField(req, isPost, name);
    if |f| > 0 then Some(f) else None
  }

  /** The `&error=` suffix of both widget URLs, present only for a truthy error. */
  function ErrorPart(error: Option<string>): (part: string)
    ensures part == "" <==> !Present(error)
    ensures Present(error) ==> part == "&error=" + error.value
  {
    if Present(error) then "&error=" + error.value else ""
  }

  /** The form data of the verification POST before the caller's extra parameters. */
  function BasePayload(privateKey: string, remoteIp: string, challenge: string, response: string): Assoc {
    [("privatekey", privateKey), ("remoteip", remoteIp), ("challenge", challenge), ("response", response)]
  }

  /**
   * The form data `check_answer` posts: `array_merge` of the base data and the
   * caller's extra parameters. Base keys come first, in their order; a caller
   * entry with a base key replaces that value; other caller entries follow.
   */
  lemma {:induction false} PayloadShape(privateKey: string, remoteIp: string, challenge: string, response: string, extra: Assoc)
    ensures var payload := Merge(BasePayload(privateKey, remoteIp, challenge, response), extra);
      var baseKeys := ["privatekey", "remoteip", "challenge", "response"];
      && Keys(payload) == baseKeys + NewKeys(baseKeys, Keys(extra))
      && Lookup(payload, "privatekey") == (if Lookup(extra, "privatekey").Some? then Lookup(extra, "privatekey") else Some(privateKey))
      && Lookup(payload, "remoteip") == (if Lookup(extra, "remoteip").Some? then Lookup(extra, "remoteip") else Some(remoteIp))
      && Lookup(payload, "challenge") == (if Lookup(extra, "challenge").Some? then Lookup(extra, "challenge") else Some(challenge))
      && Lookup(payload, "response") == (if Lookup(extra, "response").Some? then Lookup(extra, "response") else Some(response))
  {
    var base := BasePayload(privateKey, remoteIp, challenge, response);
    assert Keys(base) == ["privatekey", "remoteip", "challenge", "response"];
    LookupAt(base, 0);
    LookupAt(base, 1);
    LookupAt(base, 2);
    LookupAt(base, 3);
  }

  /**
   * The decision `check_answer` makes, from the object's keys and fields, the
   * client address, the extra parameters and the service's reply:
   * no private key throws first; a missing form field answers `Skipped`
   * without a POST; otherwise the merged data is posted and the reply parsed.
   */
  function AnswerFor(privateKey: Option<string>, challenge: Option<string>, response: Option<string>,
                     server: string, remoteAddr: string, extra: Assoc, reply: string): (r: Result<Answer, Fault>)
    ensures !Present(privateKey) ==> r == Failure(MissingPrivateKey)
    ensures Present(privateKey) && !(Present(challenge) && Present(response)) ==> r == Success(Skipped)
    ensures r.Success? && r.value.Verified? ==>
      && Present(privateKey) && Present(challenge) && Present(response)
      && r.value.request.url == server + "/verify"
      && r.value.request.payload == Merge(BasePayload(privateKey.value, remoteAddr, challenge.value, response.value), extra)
      && NewResponse(reply) == Success(r.value.response)
    ensures Present(privateKey) && Present(challenge) && Present(response) ==>
      (r == Failure(InvalidPrivateKey) <==> NewResponse(reply).Failure?)
    ensures Present(privateKey) && Present(challenge) && Present(response) && NewResponse(reply).Success? ==>
      r == Success(Verified(VerifyRequest(server + "/verify", POST_HEADERS,
        Merge(BasePayload(privateKey.value, remoteAddr, challenge.value, response.value), extra)), NewResponse(reply).value))
  {
    if !Present(privateKey) then Failure(MissingPrivateKey)
    else if !Present(challenge) || !Present(response) then Success(Skipped)
    else
      var payload := Merge(BasePayload(privateKey.value, remoteAddr, challenge.value, response.value), extra);
      match NewResponse(reply)
      case Failure(f) => Failure(f)
      case Success(resp) => Success(Verified(VerifyRequest(server + "/verify", POST_HEADERS, payload), resp))
  }

  /**
   * A submission without both fields never reaches the service: the answer
   * is the same whatever the service would have replied.
   */
  lemma SkippedIgnoresReply(privateKey: Option<string>, challenge: Option<string>, response: Option<string>,
                            server: string, remoteAddr: string, extra: Assoc, reply1: string, reply2: string)
    requires !(Present(challenge) && Present(response))
    ensures AnswerFor(privateKey, challenge, response, server, remoteAddr, extra, reply1)
         == AnswerFor(privateKey, challenge, response, server, remoteAddr, extra, reply2)
  {
  }

  /** A caller's extra `challenge` entry replaces the challenge posted. */
  lemma ExtraOverridesChallenge(privateKey: Option<string>, challenge: Option<string>, response: Option<string>,
                                server: string, remoteAddr: string, extra: Assoc, reply: string, i: nat)
    requires i < |extra| && extra[i].0 == "challenge"
    requires Present(privateKey) && Present(challenge) && Present(response)
    requires NewResponse(reply).Success?
    ensures Lookup(AnswerFor(privateKey, challenge, response, server, remoteAddr, extra, reply).value.request.payload, "challenge")
         == Some(extra[i].1)
  {
    LookupAt(extra, i);
    PayloadShape(privateKey.value, remoteAddr, challenge.value, response.value, extra);
  }

  /**
   * A challenge or response submitted as "0" is stored by the constructor
   * (its length is 1) but is falsy, so `check_answer` discards the submission.
   */
  lemma ZeroFieldIsSkipped(req: Request, privateKey: Option<string>, response: Option<string>,
                           server: string, extra: Assoc, reply: string)
    requires Present(privateKey)
    requires var source := if IsPostMethod(req.verb) then req.post else req.get;
      CHALLENGE_FIELD in source && source[CHALLENGE_FIELD] == "0"
    ensures FormField(req, IsPostMethod(req.verb), CHALLENGE_FIELD) == Some("0")
    ensures AnswerFor(privateKey, FormField(req, IsPostMethod(req.verb), CHALLENGE_FIELD), response,
                      server, req.remoteAddr, extra, reply) == Success(Skipped)
  {
  }

  class ReCaptcha {
    var publicKey: Option<string>
    var privateKey: Option<string>
    var useSsl: bool
    var isPost: bool
    var formChallengeField: Option<string>
    var formResponseField: Option<string>
    var response: Option<ReCaptchaResponse>
    /** `$_SERVER['REMOTE_ADDR']` of the request the object serves. */
    var remoteAddr: string

    /**
     * Detects the request method, then copies the two form fields from the
     * POST body or the query string when they are non-empty. No key is set.
     * The client address of the same request is kept for `CheckAnswer`.
     */
    constructor(useSsl: bool, req: Request)
      ensures this.useSsl == useSsl
      ensures isPost <==> IsPostMethod(req.verb)
      ensures formChallengeField == FormField(req, isPost, CHALLENGE_FIELD)
      ensures formResponseField == FormField(req, isPost, RESPONSE_FIELD)
      ensures publicKey == None && privateKey == None && response == None
      ensures remoteAddr == req.remoteAddr
    {
      this.useSsl := useSsl;
      remoteAddr := req.remoteAddr;
      isPost := IsPostMethod(req.verb);
      publicKey, privateKey := None, None;
      formChallengeField, formResponseField := None, None;
      response := None;
      new;
      SetFormChallengeField(req);
      SetFormResponseField(req);
    }

    /** Stores the challenge parameter when it is non-empty; otherwise keeps the field. */
    method SetFormChallengeField(req: Request)
      modifies this`formChallengeField
      ensures var f := RequestField(req, isPost, CHALLENGE_FIELD);
        formChallengeField == if |f| > 0 then Some(f) else old(formChallengeField)
    {
      var field := RequestField(req, isPost, CHALLENGE_FIELD);
      if |field| > 0 {
        formChallengeField := Some(field);
      }
    }

    /** Stores the response parameter when it is non-empty; otherwise keeps the field. */
    method SetFormResponseField(req: Request)
      modifies this`formResponseField
      ensures var f := RequestField(req, isPost, RESPONSE_FIELD);
        formResponseField == if |f| > 0 then Some(f) else old(formResponseField)
    {
      var field := RequestField(req, isPost, RESPONSE_FIELD);
      if |field| > 0 {
        formResponseField := Some(field);
      }
    }

    method SetPublicKey(key: string)
      modifies this`publicKey
      ensures publicKey == Some(key)
    {
      publicKey := Some(key);
    }

    method SetPrivateKey(key: string)
      modifies this`privateKey
      ensures privateKey == Some(key)
    {
      privateKey := Some(key);
    }

    method SetResponse(resp: ReCaptchaResponse)
      modifies this`response
      ensures response == Some(resp)
    {
      response := Some(resp);
    }

    /** The service's base URL: `https://` when `useSsl`, `http://` otherwise. */
    function GetServer(): (url: string)
      reads this
      ensures useSsl ==> url == "https://" + RECAPTCHA_VERIFY_SERVER
      ensures !useSsl ==> url == "http://" + RECAPTCHA_VERIFY_SERVER
    {
      (if useSsl then "https://" else "http://") + RECAPTCHA_VERIFY_SERVER
    }

    /**
     * `get_html`: throws without a truthy public key; otherwise the script
     * URL `<server>/challenge?k=<key>` and the no-script URL
     * `<server>/noscript?k=<key>`, each followed by `&error=<error>` when the
     * error is truthy, and the names of the fallback form's fields.
     */
    function GetHtml(error: Option<string>): (r: Result<Widget, Fault>)
      reads this
      ensures r.Failure? <==> !Present(publicKey)
      ensures r.Failure? ==> r.error == MissingPublicKey
      ensures r.Success? ==> r.value.scriptSrc == GetServer() + "/challenge?k=" + publicKey.value + ErrorPart(error)
      ensures r.Success? ==> r.value.noscriptSrc == GetServer() + "/noscript?k=" + publicKey.value + ErrorPart(error)
      ensures r.Success? ==> r.value.challengeFieldName == CHALLENGE_FIELD && r.value.responseFieldName == RESPONSE_FIELD
      ensures r.Success? ==> r.value.responseFieldValue == MANUAL_CHALLENGE
    {
      if !Present(publicKey) then Failure(MissingPublicKey)
      else
        var errorpart := ErrorPart(error);
        Success(Widget(
          GetServer() + "/challenge?k=" + publicKey.value + errorpart,
          GetServer() + "/noscript?k=" + publicKey.value + errorpart,
          CHALLENGE_FIELD, RESPONSE_FIELD, MANUAL_CHALLENGE))
    }

    /**
     * `check_answer`: decides as `AnswerFor` does, with the client address of
     * the request the object was built from; a skipped submission stores
     * an unparsed response, a verified one stores the parsed reply, and a
     * thrown fault leaves the stored response as it was.
     */
    method CheckAnswer(extraParams: Assoc, reply: string) returns (r: Result<Answer, Fault>)
      modifies this`response
      ensures r == AnswerFor(privateKey, formChallengeField, formResponseField, GetServer(), remoteAddr, extraParams, reply)
      ensures r.Failure? ==> response == old(response)
      ensures r == Success(Skipped) ==> response == Some(Unparsed)
      ensures r.Success? && r.value.Verified? ==> response == Some(r.value.response)
    {
      if !Present(privateKey) {
        return Failure(MissingPrivateKey);
      }
      if !Present(formChallengeField) || !Present(formResponseField) {
        SetResponse(Unparsed);
        return Success(Skipped);
      }
      var post := Merge(BasePayload(privateKey.value, remoteAddr, formChallengeField.value, formResponseField.value), extraParams);
      r := Post(post, reply);
    }

    /**
     * `post`: sends `data` to `<server>/verify`; the service answers `reply`,
     * which is parsed and stored. A thrown fault stores nothing.
     */
    method Post(data: Assoc, reply: string) returns (r: Result<Answer, Fault>)
      modifies this`response
      ensures NewResponse(reply).Failure? ==> r == Failure(NewResponse(reply).error) && response == old(response)
      ensures NewResponse(reply).Success? ==>
        && r == Success(Verified(VerifyRequest(GetServer() + "/verify", POST_HEADERS, data), NewResponse(reply).value))
        && response == Some(NewResponse(reply).value)
    {
      var request := VerifyRequest(GetServer() + "/verify", POST_HEADERS, data);
      var parsed := NewResponse(reply);
      if parsed.Failure? {
        return Failure(parsed.error);
      }
      SetResponse(parsed.value);
      r := Success(Verified(request, response.value));
    }

    /**
     * `get_signup_url`: the sign-up page with `domains` and `app` as query
     * parameters; `http_build_query` drops a parameter whose value is `null`.
     */
    static function GetSignupUrl(domain: Option<string>, appname: Option<string>, encode: string -> string): (url: string)
      ensures domain.None? && appname.None? ==> url == SIGNUP_URL + "?"
      ensures domain.Some? && appname.None? ==>
        url == SIGNUP_URL + "?" + encode("domains") + "=" + encode(domain.value)
      ensures domain.None? && appname.Some? ==>
        url == SIGNUP_URL + "?" + encode("app") + "=" + encode(appname.value)
      ensures domain.Some? && appname.Some? ==>
        url == SIGNUP_URL + "?" + encode("domains") + "=" + encode(domain.value) + "&" + encode("app") + "=" + encode(appname.value)
    {
      var params := [("domains", domain), ("app", appname)];
      assert params[1..] == [("app", appname)] && params[1..][1..] == [];
      assert BuildQuery(params[1..][1..], encode) == "";
      var appPart := BuildQuery(params[1..], encode);
      assert appPart == if appname.Some? then encode("app") + "=" + encode(appname.value) else "";
      assert BuildQuery(params, encode) == match domain
        case None => appPart
        case Some(d) => var pair := encode("domains") + "=" + encode(d); if appPart == "" then pair else pair + "&" + appPart;
      SIGNUP_URL + "?" + BuildQuery(params, encode)
    }
  }

  /**
   * `http_build_query` over string values: `key=value` pairs joined by `&`,
   * each part passed through the form encoding `encode`; null values are dropped.
   * The query is empty exactly when every value is null; when the first value
   * is non-null, it starts with that pair (`BuildQueryLeadingPair` gives the
   * first non-null pair in general).
   */
  function BuildQuery(params: seq<(string, Option<string>)>, encode: string -> string): (q: string)
    ensures q == "" <==> forall i :: 0 <= i < |params| ==> params[i].1.None?
    ensures params != [] && params[0].1.Some? ==>
      var pair := encode(params[0].0) + "=" + encode(params[0].1.value);
      |pair| <= |q| && q[..|pair|] == pair
    decreases |params|
  {
    if params == [] then ""
    else
      var rest := BuildQuery(params[1..], encode);
      assert forall i :: 1 <= i < |params| ==> params[i] == params[1..][i - 1];
      match params[0].1
      case None => rest
      case Some(v) =>
        var pair := encode(params[0].0) + "=" + encode(v);
        assert pair[|encode(params[0].0)|] == '=';
        if rest == "" then pair else pair + "&" + rest
  }

  /** A non-empty query starts with the first pair whose value is non-null. */
  lemma {:induction false} BuildQueryLeadingPair(params: seq<(string, Option<string>)>, i: nat, encode: string -> string)
    requires i < |params| && params[i].1.Some?
    requires forall j :: 0 <= j < i ==> params[j].1.None?
    ensures var pair := encode(params[i].0) + "=" + encode(params[i].1.value);
      |pair| <= |BuildQuery(params, encode)| && BuildQuery(params, encode)[..|pair|] == pair
  {
    if i > 0 {
      var tail := params[1..];
      assert params[0].1.None?;
      assert BuildQuery(params, encode) == BuildQuery(tail, encode);
      assert tail[i - 1] == params[i];
      BuildQueryLeadingPair(tail, i - 1, encode);
    }
  }

  /** `http_build_query` skips a null value wherever it sits among the parameters. */
  lemma {:induction false} BuildQueryDropsNull(before: seq<(string, Option<string>)>, key: string,
                                               after: seq<(string, Option<string>)>, encode: string -> string)
    ensures BuildQuery(before + [(key, None)] + after, encode) == BuildQuery(before + after, encode)
    decreases |before|
  {
    if before == [] {
      assert ([] + [(key, None)] + after)[1..] == after;
      assert [] + after == after;
    } else {
      BuildQueryDropsNull(before[1..], key, after, encode);
      assert before + [(key, None)] + after == [before[0]] + (before[1..] + [(key, None)] + after);
      assert before + after == [before[0]] + (before[1..] + after);
      BuildQueryCons(before[0], before[1..] + [(key, None)] + after, before[1..] + after, encode);
    }
  }

  /** Two parameter lists with the same query keep it when the same pair is put in front. */
  lemma BuildQueryCons(head: (string, Option<string>), tail1: seq<(string, Option<string>)>,
                       tail2: seq<(string, Option<string>)>, encode: string -> string)
    requires BuildQuery(tail1, encode) == BuildQuery(tail2, encode)
    ensures BuildQuery([head] + tail1, encode) == BuildQuery([head] + tail2, encode)
  {
    assert ([head] + tail1)[1..] == tail1 && ([head] + tail2)[1..] == tail2;
  }

  /** Without a truthy error, neither widget URL carries `&error=`; with one, both end in it. */
  lemma WidgetErrorSuffix(c: ReCaptcha, error: Option<string>)
    requires c.GetHtml(error).Success?
    ensures var w := c.GetHtml(error).value;
      var tail := "&error=" + (if Present(error) then error.value else "");
      && (Present(error) ==> w.scriptSrc[|w.scriptSrc| - |tail|..] == tail && w.noscriptSrc[|w.noscriptSrc| - |tail|..] == tail)
      && (!Present(error) ==> w.scriptSrc == c.GetServer() + "/challenge?k=" + c.publicKey.value)
      && (!Present(error) ==> w.noscriptSrc == c.GetServer() + "/noscript?k=" + c.publicKey.value)
  {
  }

  /** The pieces of a four-part concatenation sit at their offsets. */
  lemma ConcatParts(a: string, b: string, c: string, d: string)
    ensures (a + b + c + d)[..|a|] == a
    ensures (a + b + c + d)[|a| + |b|..|a| + |b| + |c|] == c
  {
    var s := a + b + c + d;
    assert s == a + (b + (c + d));
    assert s[|a| + |b|..] == c + d;
  }

  /** The key can be read back from both widget URLs, right after `?k=`. */
  lemma WidgetCarriesKey(c: ReCaptcha, error: Option<string>)
    requires c.GetHtml(error).Success?
    ensures var w := c.GetHtml(error).value;
      var key := c.publicKey.value;
      var s := |c.GetServer()| + |"/challenge?k="|;
      var n := |c.GetServer()| + |"/noscript?k="|;
      && w.scriptSrc[..|c.GetServer()|] == c.GetServer() && w.scriptSrc[s..s + |key|] == key
      && w.noscriptSrc[..|c.GetServer()|] == c.GetServer() && w.noscriptSrc[n..n + |key|] == key
  {
    var key := c.publicKey.value;
    var part := ErrorPart(error);
    var server := c.GetServer();
    ConcatParts(server, "/challenge?k=", key, part);
    ConcatParts(server, "/noscript?k=", key, part);
  }

  /** The scheme of every generated URL is `https` exactly when `useSsl` is set. */
  lemma ServerSchemeIff(c: ReCaptcha)
    ensures c.GetServer()[..8] == "https://" <==> c.useSsl
  {
    if !c.useSsl {
      assert c.GetServer()[7] == 'w';
    }
  }

  /**
   * A submission of the widget's no-script form (the typed challenge and the
   * hidden response field), POSTed back, is read by the constructor.
   */
  lemma NoscriptSubmissionRead(c: ReCaptcha, error: Option<string>, typed: string, verb: string, remoteAddr: string)
    requires c.GetHtml(error).Success?
    requires typed != ""
    requires IsPostMethod(verb)
    ensures var w := c.GetHtml(error).value;
      var req := Request(verb, map[w.challengeFieldName := typed, w.responseFieldName := w.responseFieldValue], map[], remoteAddr);
      && FormField(req, IsPostMethod(req.verb), CHALLENGE_FIELD) == Some(typed)
      && FormField(req, IsPostMethod(req.verb), RESPONSE_FIELD) == Some(MANUAL_CHALLENGE)
  {
  }

  /**
   * A client built on a request that lacks the challenge field, given a
   * private key, answers `Skipped` whatever the service would reply.
   */
  method MissingFieldsNeverPost(req: Request, key: string, extra: Assoc, reply: string) returns (r: Result<Answer, Fault>)
    requires Truthy(key)
    requires var source := if IsPostMethod(req.verb) then req.post else req.get;
      CHALLENGE_FIELD !in source
    ensures r == Success(Skipped)
  {
    var c := new ReCaptcha(true, req);
    c.SetPrivateKey(key);
    r := c.CheckAnswer(extra, reply);
  }

  /** A client whose private key was never set throws, whatever the request holds. */
  method UnconfiguredClientThrows(req: Request, extra: Assoc, reply: string) returns (r: Result<Answer, Fault>)
    ensures r == Failure(MissingPrivateKey)
  {
    var c := new ReCaptcha(true, req);
    r := c.CheckAnswer(extra, reply);
  }
}
