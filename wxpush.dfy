/**
  The /wxsend pipeline of go-wxpush (main.go): a request's parameters are
  merged with the process-wide defaults, the four required parameters are checked,
  an access token is obtained from the WeChat platform, a template message
  with a link to the detail page is built and sent, and the platform's answer
  is relayed to the caller.

  The two HTTPS calls to the platform are not made here: what each call
  returned is an input (an Exchange), and the handler reports the calls it
  makes, in order, so that which calls happen, with what payload, is part of
  what is proved.
 */
module WxPush {
  import opened Bytes
  import opened Wrappers
  import opened QueryEscape
  import opened Query

  // ---------------------------------------------------------------------------
  // Request parameters and the process-wide defaults

  /** The eight parameters of a send request; an empty string means "not given". */
  datatype RequestParams = RequestParams(
    title: Bytes,
    content: Bytes,
    appID: Bytes,
    secret: Bytes,
    userID: Bytes,
    templateID: Bytes,
    baseURL: Bytes,
    timezone: Bytes)

  /** The values given on the command line or in the environment at startup
      (cliTitle ... cliTimezone), read-only afterwards; one per parameter. */
  type Defaults = RequestParams

  datatype Field = Title | Content | AppID | Secret | UserID | TemplateID | BaseURL | Timezone

  function Get(p: RequestParams, f: Field): (v: Bytes) {
    match f
    case Title => p.title
    case Content => p.content
    case AppID => p.appID
    case Secret => p.secret
    case UserID => p.userID
    case TemplateID => p.templateID
    case BaseURL => p.baseURL
    case Timezone => p.timezone
  }

  /** The zero value of the Go struct: nothing given. */
  const Blank := RequestParams([], [], [], [], [], [], [], [])

  /** The merge of the request with the defaults: each field keeps the
      request's value when it is non-empty and takes the default otherwise. */
  function Resolve(p: RequestParams, d: Defaults): (r: RequestParams)
  {
    RequestParams(
      if p.title != [] then p.title else d.title,
      if p.content != [] then p.content else d.content,
      if p.appID != [] then p.appID else d.appID,
      if p.secret != [] then p.secret else d.secret,
      if p.userID != [] then p.userID else d.userID,
      if p.templateID != [] then p.templateID else d.templateID,
      if p.baseURL != [] then p.baseURL else d.baseURL,
      if p.timezone != [] then p.timezone else d.timezone)
  }

  /** Precedence, field by field: the request's value when it is non-empty,
      otherwise the default. */
  lemma ResolveField(p: RequestParams, d: Defaults, f: Field)
    ensures Get(Resolve(p, d), f) == if Get(p, f) != [] then Get(p, f) else Get(d, f)
  {
  }

  /** Two records are equal when they agree on every field. */
  lemma FieldsDetermine(p: RequestParams, q: RequestParams)
    requires forall f :: Get(p, f) == Get(q, f)
    ensures p == q
  {
    assert Get(p, Title) == Get(q, Title) && Get(p, Content) == Get(q, Content);
    assert Get(p, AppID) == Get(q, AppID) && Get(p, Secret) == Get(q, Secret);
    assert Get(p, UserID) == Get(q, UserID) && Get(p, TemplateID) == Get(q, TemplateID);
    assert Get(p, BaseURL) == Get(q, BaseURL) && Get(p, Timezone) == Get(q, Timezone);
  }

  /** A request that gives nothing is served entirely from the defaults. */
  lemma ResolveBlank(d: Defaults)
    ensures Resolve(Blank, d) == d
  {
  }

  /** A request that gives every field ignores the defaults. */
  lemma ResolveComplete(p: RequestParams, d: Defaults)
    requires forall f :: Get(p, f) != []
    ensures Resolve(p, d) == p
  {
    forall f ensures Get(Resolve(p, d), f) == Get(p, f) { ResolveField(p, d, f); }
    FieldsDetermine(Resolve(p, d), p);
  }

  /** Merging a second time with the same defaults changes nothing. */
  lemma ResolveIdempotent(p: RequestParams, d: Defaults)
    ensures Resolve(Resolve(p, d), d) == Resolve(p, d)
  {
  }

  /** A merged field is empty only when both the request and the default left it empty. */
  lemma ResolveEmptyField(p: RequestParams, d: Defaults, f: Field)
    ensures Get(Resolve(p, d), f) == [] <==> Get(p, f) == [] && Get(d, f) == []
  {
  }

  // ---------------------------------------------------------------------------
  // Validation

  /** The parameters without which no message can be sent. */
  const Required: set<Field> := {AppID, Secret, UserID, TemplateID}

  /** The required parameters that are still empty. */
  function Missing(p: RequestParams): (m: set<Field>)
    ensures m <= Required
  {
    set f | f in Required && Get(p, f) == []
  }

  /** Validation fails exactly when one of appid, secret, userid and
      template_id is empty. */
  lemma MissingExactly(p: RequestParams)
    ensures Missing(p) == {} <==> p.appID != [] && p.secret != [] && p.userID != [] && p.templateID != []
  {
    if p.appID == [] { assert AppID in Missing(p); }
    if p.secret == [] { assert Secret in Missing(p); }
    if p.userID == [] { assert UserID in Missing(p); }
    if p.templateID == [] { assert TemplateID in Missing(p); }
  }

  /** Title, content, base URL and time zone never decide validation. */
  lemma MissingIgnoresOptional(p: RequestParams, title: Bytes, content: Bytes, baseURL: Bytes, timezone: Bytes)
    ensures Missing(p.(title := title, content := content, baseURL := baseURL, timezone := timezone)) == Missing(p)
  {
  }

  // ---------------------------------------------------------------------------
  // The platform: the two calls and what they returned

  datatype AccessTokenResponse = AccessTokenResponse(accessToken: Bytes, expiresIn: int)

  datatype WechatAPIResponse = WechatAPIResponse(errcode: int, errmsg: Bytes)

  /** What json.Unmarshal made of a response body. An unparseable body leaves
      the zero value, whose error is ignored by the program. */
  datatype Reply<T> = Unparseable | Parsed(value: T)

  /** What one POST to the platform returned: a transport error, or a body. */
  datatype Exchange<T> = TransportError(err: Bytes) | Responded(reply: Reply<T>)

  /** The template message posted to the platform. */
  datatype TemplateMessage = TemplateMessage(
    toUser: Bytes,
    templateID: Bytes,
    url: Bytes,
    data: map<Bytes, map<Bytes, Bytes>>)

  /** An outbound POST: its URL and its JSON payload. */
  datatype Call =
    | TokenCall(url: Bytes, grantType: Bytes, appID: Bytes, secret: Bytes)
    | SendCall(url: Bytes, message: TemplateMessage)

  const TokenEndpoint: Bytes := Ascii("https://api.weixin.qq.com/cgi-bin/stable_token")
  const GrantType: Bytes := Ascii("client_credential")
  const SendEndpoint: Bytes := Ascii("https://api.weixin.qq.com/cgi-bin/message/template/send?access_token=")

  /** The credential exchange getAccessToken posts. */
  function TokenRequest(appID: Bytes, secret: Bytes): (c: Call)
  {
    TokenCall(TokenEndpoint, GrantType, appID, secret)
  }

  /** getAccessToken's result: an error only when the POST itself failed;
      otherwise the access_token of the body, empty when the body had none
      or could not be parsed. */
  function AccessToken(exchange: Exchange<AccessTokenResponse>): (r: Result<Bytes>)
  {
    match exchange
    case TransportError(e) => Err(e)
    case Responded(Unparseable) => Ok([])
    case Responded(Parsed(v)) => Ok(v.accessToken)
  }

  /** sendTemplateMessage's result: an error only when the POST itself failed;
      otherwise the platform's errcode and errmsg, zero and empty when the body
      could not be parsed. A non-zero errcode is not an error. */
  function Delivery(exchange: Exchange<WechatAPIResponse>): (r: Result<WechatAPIResponse>)
  {
    match exchange
    case TransportError(e) => Err(e)
    case Responded(Unparseable) => Ok(WechatAPIResponse(0, []))
    case Responded(Parsed(v)) => Ok(v)
  }

  // ---------------------------------------------------------------------------
  // The template message and its detail link

  /** The current instant, already formatted as "2006-01-02 15:04:05" in each
      zone time.LoadLocation accepts, and in the host's local zone. */
  datatype Clock = Clock(inZone: map<Bytes, Bytes>, local: Bytes)

  /** The timestamp of the message: in the named zone, or in the local zone
      when the name is not one time.LoadLocation accepts. Never an error. */
  function Timestamp(clock: Clock, timezone: Bytes): (ts: Bytes)
  {
    if timezone in clock.inZone then clock.inZone[timezone] else clock.local
  }

  const DetailPath: Bytes := Ascii("/detail?")
  const TitleParam: Bytes := Ascii("title")
  const MessageParam: Bytes := Ascii("message")
  const DateParam: Bytes := Ascii("date")

  /** The link to the detail page, as sendTemplateMessage writes it. */
  function DetailUrl(baseURL: Bytes, title: Bytes, content: Bytes, timestamp: Bytes): (url: Bytes) {
    baseURL + Ascii("/detail?title=") + Escape(title)
      + Ascii("&message=") + Escape(content)
      + Ascii("&date=") + Escape(timestamp)
  }

  /** The parameters a reader of url finds after baseURL + "/detail?", or
      None when url does not start that way or its query does not decode. */
  function DetailQuery(url: Bytes, baseURL: Bytes): (r: Option<seq<(Bytes, Bytes)>>) {
    var n := |baseURL| + |DetailPath|;
    if n <= |url| && url[..n] == baseURL + DetailPath then ParseQuery(url[n..]) else None
  }

  /** The three query keys need no escaping. */
  lemma ParamsUnreserved()
    ensures forall i | 0 <= i < |TitleParam| :: Unreserved(TitleParam[i])
    ensures forall i | 0 <= i < |MessageParam| :: Unreserved(MessageParam[i])
    ensures forall i | 0 <= i < |DateParam| :: Unreserved(DateParam[i])
  {
  }

  /** The literals of the link, cut at the delimiters. */
  lemma DetailLiterals()
    ensures Ascii("/detail?title=") == DetailPath + TitleParam + [Equals]
    ensures Ascii("&message=") == [Amp] + MessageParam + [Equals]
    ensures Ascii("&date=") == [Amp] + DateParam + [Equals]
  {
  }

  /** The link is baseURL + "/detail?" followed by the three parameters in the
      order title, message, date, each written key=QueryEscape(value) and
      joined by '&'. */
  lemma DetailUrlShape(baseURL: Bytes, title: Bytes, content: Bytes, timestamp: Bytes)
    ensures DetailUrl(baseURL, title, content, timestamp)
         == baseURL + DetailPath
          + EncodePairs([(TitleParam, title), (MessageParam, content), (DateParam, timestamp)])
  {
    var pairs := [(TitleParam, title), (MessageParam, content), (DateParam, timestamp)];
    var t, c, d := Escape(title), Escape(content), Escape(timestamp);
    var date := DateParam + [Equals] + d;
    var message := MessageParam + [Equals] + c;
    assert EncodePairs(pairs[2..]) == date;
    assert EncodePairs(pairs[1..]) == message + [Amp] + date;
    assert EncodePairs(pairs) == TitleParam + [Equals] + t + [Amp] + (message + [Amp] + date);
    DetailLiterals();
    Regroup(baseURL, DetailPath, TitleParam, t, MessageParam, c, DateParam, d);
  }

  /** Concatenation regrouped: the link's literals cut at their delimiters. */
  lemma Regroup(b: Bytes, path: Bytes, k1: Bytes, v1: Bytes, k2: Bytes, v2: Bytes, k3: Bytes, v3: Bytes)
    ensures b + (path + k1 + [Equals]) + v1 + ([Amp] + k2 + [Equals]) + v2 + ([Amp] + k3 + [Equals]) + v3
         == b + path + (k1 + [Equals] + v1 + [Amp] + (k2 + [Equals] + v2 + [Amp] + (k3 + [Equals] + v3)))
  {
  }

  /** The link leads to baseURL's detail page and carries exactly three
      parameters, title, message and date, which decode to the title, the
      content and the timestamp whatever bytes they hold. */
  lemma DetailUrlDecodes(baseURL: Bytes, title: Bytes, content: Bytes, timestamp: Bytes)
    ensures DetailQuery(DetailUrl(baseURL, title, content, timestamp), baseURL)
         == Some([(TitleParam, title), (MessageParam, content), (DateParam, timestamp)])
  {
    var pairs := [(TitleParam, title), (MessageParam, content), (DateParam, timestamp)];
    var prefix, q := baseURL + DetailPath, EncodePairs(pairs);
    DetailUrlShape(baseURL, title, content, timestamp);
    assert (prefix + q)[..|prefix|] == prefix;
    assert (prefix + q)[|prefix|..] == q;
    ParamsUnreserved();
    ParseEncodePairs(pairs);
  }

  const DataTitle: Bytes := Ascii("title")
  const DataContent: Bytes := Ascii("content")
  const DataValue: Bytes := Ascii("value")

  /** The message sendTemplateMessage posts for the merged parameters: sent to
      the user ID with the template ID, the data holding exactly the title and
      the content, and a link whose query gives back title, content and time. */
  function BuildMessage(p: RequestParams, timestamp: Bytes): (m: TemplateMessage)
    ensures m.toUser == p.userID && m.templateID == p.templateID
    ensures m.data.Keys == {DataTitle, DataContent}
    ensures m.data[DataTitle] == map[DataValue := p.title]
    ensures m.data[DataContent] == map[DataValue := p.content]
    ensures DetailQuery(m.url, p.baseURL)
         == Some([(TitleParam, p.title), (MessageParam, p.content), (DateParam, timestamp)])
  {
    DetailUrlDecodes(p.baseURL, p.title, p.content, timestamp);
    TemplateMessage(
      p.userID,
      p.templateID,
      DetailUrl(p.baseURL, p.title, p.content, timestamp),
      map[DataTitle := map[DataValue := p.title], DataContent := map[DataValue := p.content]])
  }

  /** The delivery POST: the token goes into the URL as it is, unescaped. */
  function SendRequest(token: Bytes, p: RequestParams, clock: Clock): (c: Call)
  {
    SendCall(SendEndpoint + token, BuildMessage(p, Timestamp(clock, p.timezone)))
  }

  /** A time zone that time.LoadLocation does not know is no error: the link
      of the message sent carries the time in the host's local zone. */
  lemma UnknownZoneLinksLocalTime(token: Bytes, p: RequestParams, clock: Clock)
    requires p.timezone !in clock.inZone
    ensures DetailQuery(SendRequest(token, p, clock).message.url, p.baseURL)
         == Some([(TitleParam, p.title), (MessageParam, p.content), (DateParam, clock.local)])
  {
  }

  // ---------------------------------------------------------------------------
  // The handler

  datatype HttpMethod = POST | GET | OtherMethod

  /** What the JSON decoder made of a POST body. */
  datatype Decoded = Decoded(params: RequestParams) | DecodeError(err: Bytes)

  /** An inbound request: its method (verb), its decoded body, and its parsed query
      (url.Values: every value given for each key, in order). */
  datatype Request = Request(verb: HttpMethod, body: Decoded, query: map<Bytes, seq<Bytes>>)

  datatype Body = ErrorBody(message: Bytes) | Relayed(reply: WechatAPIResponse)

  /** A response: its status and either the text of {"error": "<message>"}
      or the platform's reply encoded as JSON. */
  datatype Response = Response(status: int, body: Body)

  const StatusOK := 200
  const StatusBadRequest := 400
  const StatusInternalServerError := 500

  const InvalidJson: Bytes := Ascii("Invalid JSON format: ")
  const MissingParameters: Bytes := Ascii("Missing required parameters")
  const TokenFailed: Bytes := Ascii("Failed to get access token: ")
  const SendFailed: Bytes := Ascii("Failed to send template message: ")

  /** url.Values.Get: the first value given for key, or "" when there is none. */
  function QueryValue(query: map<Bytes, seq<Bytes>>, key: Bytes): (v: Bytes) {
    if key in query && query[key] != [] then query[key][0] else []
  }

  /** The name of each parameter in a query string (and in a JSON body). */
  function ParamName(f: Field): (name: Bytes) {
    match f
    case Title => Ascii("title")
    case Content => Ascii("content")
    case AppID => Ascii("appid")
    case Secret => Ascii("secret")
    case UserID => Ascii("userid")
    case TemplateID => Ascii("template_id")
    case BaseURL => Ascii("base_url")
    case Timezone => Ascii("tz")
  }

  /** The parameters a request carries before the merge: the decoded body of a
      POST (an error when it does not decode), the first value of each named
      query parameter of a GET, nothing for any other method. */
  function Received(req: Request): (r: Result<RequestParams>)
    ensures r.Err? <==> req.verb == POST && req.body.DecodeError?
    ensures r.Err? ==> r.err == req.body.err
    ensures req.verb == POST && req.body.Decoded? ==> r == Ok(req.body.params)
    ensures req.verb == GET ==> r.Ok? && forall f :: Get(r.value, f) == QueryValue(req.query, ParamName(f))
    ensures req.verb == OtherMethod ==> r == Ok(Blank)
  {
    match req.verb
    case POST =>
      if req.body.Decoded? then Ok(req.body.params) else Err(req.body.err)
    case GET =>
      var q := req.query;
      Ok(RequestParams(
        QueryValue(q, ParamName(Title)), QueryValue(q, ParamName(Content)),
        QueryValue(q, ParamName(AppID)), QueryValue(q, ParamName(Secret)),
        QueryValue(q, ParamName(UserID)), QueryValue(q, ParamName(TemplateID)),
        QueryValue(q, ParamName(BaseURL)), QueryValue(q, ParamName(Timezone))))
    case OtherMethod => Ok(Blank)
  }

  /** A request with a method other than GET or POST is answered from the
      defaults alone: its body and query play no part. */
  lemma OtherMethodUsesDefaults(req: Request, d: Defaults)
    requires req.verb == OtherMethod
    ensures Received(req).Ok? && Resolve(Received(req).value, d) == d
  {
  }

  /** The merge as handleWxSend performs it: each empty field of params is
      overwritten with the default, one field after the other. */
  method ApplyDefaults(params: RequestParams, d: Defaults) returns (merged: RequestParams)
    ensures merged == Resolve(params, d)
  {
    merged := params;
    if merged.title == [] { merged := merged.(title := d.title); }
    if merged.content == [] { merged := merged.(content := d.content); }
    if merged.appID == [] { merged := merged.(appID := d.appID); }
    if merged.secret == [] { merged := merged.(secret := d.secret); }
    if merged.userID == [] { merged := merged.(userID := d.userID); }
    if merged.templateID == [] { merged := merged.(templateID := d.templateID); }
    if merged.baseURL == [] { merged := merged.(baseURL := d.baseURL); }
    if merged.timezone == [] { merged := merged.(timezone := d.timezone); }
  }

  /** The parameters the handler works with once the merge is done, or the
      decoding error of the body. */
  function Effective(req: Request, d: Defaults): (r: Result<RequestParams>)
  {
    var received := Received(req);
    if received.Ok? then Ok(Resolve(received.value, d)) else received
  }

  /**
    handleWxSend. The request's parameters are read into a record, each empty
    field is filled from the defaults, and the request is rejected with 400 if
    a required parameter (appid, secret, userid or template_id) is still
    missing; only then is the token fetched, and only with a token is the
    message sent. Each failure ends the request at once.
    `calls` lists the POSTs made to the platform, in order.
   */
  method HandleWxSend(req: Request, d: Defaults, clock: Clock,
                      tokenExchange: Exchange<AccessTokenResponse>,
                      sendExchange: Exchange<WechatAPIResponse>)
    returns (resp: Response, calls: seq<Call>)
    // an undecodable POST body: 400 before the merge and before any call
    ensures Effective(req, d).Err? ==>
      resp == Response(StatusBadRequest, ErrorBody(InvalidJson + req.body.err)) && calls == []
    // a required parameter (appid, secret, userid or template_id) still
    // missing after the merge: 400 and no call
    ensures Effective(req, d).Ok? && Missing(Effective(req, d).value) != {} ==>
      resp == Response(StatusBadRequest, ErrorBody(MissingParameters)) && calls == []
    // otherwise the token is requested first, with the merged credentials
    ensures Effective(req, d).Ok? && Missing(Effective(req, d).value) == {} ==>
      |calls| >= 1 && calls[0] == TokenRequest(Effective(req, d).value.appID, Effective(req, d).value.secret)
    // no token: 500, and the message is never sent
    ensures |calls| >= 1 && tokenExchange.TransportError? ==>
      resp == Response(StatusInternalServerError, ErrorBody(TokenFailed + tokenExchange.err)) && |calls| == 1
    // a token, even an empty one: the merged message is sent with it
    ensures |calls| >= 1 && AccessToken(tokenExchange).Ok? ==>
      |calls| == 2 && calls[1] == SendRequest(AccessToken(tokenExchange).value, Effective(req, d).value, clock)
    // any reply to the token request, parsed or not, is followed by the send
    ensures |calls| >= 1 && tokenExchange.Responded? ==> |calls| == 2
    // an unparseable token reply is not an error: the message goes out with an empty token
    ensures |calls| >= 1 && tokenExchange == Responded(Unparseable) ==>
      |calls| == 2 && calls[1].url == SendEndpoint
    // a failed delivery: 500; a delivered one: the platform's reply, whatever its errcode
    ensures |calls| == 2 && sendExchange.TransportError? ==>
      resp == Response(StatusInternalServerError, ErrorBody(SendFailed + sendExchange.err))
    ensures |calls| == 2 && Delivery(sendExchange).Ok? ==>
      resp == Response(StatusOK, Relayed(Delivery(sendExchange).value))
    // the status tells how far the request got
    ensures |calls| <= 2
    ensures resp.status == StatusBadRequest <==> calls == []
    ensures resp.status == StatusOK <==> |calls| == 2 && sendExchange.Responded?
  {
    var params := Blank;
    if req.verb == POST {
      if req.body.DecodeError? {
        resp := Response(StatusBadRequest, ErrorBody(InvalidJson + req.body.err));
        return resp, [];
      }
      params := req.body.params;
    } else if req.verb == GET {
      var q := req.query;
      params := params.(title := QueryValue(q, ParamName(Title)));
      params := params.(content := QueryValue(q, ParamName(Content)));
      params := params.(appID := QueryValue(q, ParamName(AppID)));
      params := params.(secret := QueryValue(q, ParamName(Secret)));
      params := params.(userID := QueryValue(q, ParamName(UserID)));
      params := params.(templateID := QueryValue(q, ParamName(TemplateID)));
      params := params.(baseURL := QueryValue(q, ParamName(BaseURL)));
      params := params.(timezone := QueryValue(q, ParamName(Timezone)));
    }
    assert Received(req) == Ok(params);

    params := ApplyDefaults(params, d);
    assert Effective(req, d) == Ok(params);

    MissingExactly(params);
    if params.appID == [] || params.secret == [] || params.userID == [] || params.templateID == [] {
      resp := Response(StatusBadRequest, ErrorBody(MissingParameters));
      return resp, [];
    }

    calls := [TokenRequest(params.appID, params.secret)];
    var token := AccessToken(tokenExchange);
    if token.Err? {
      resp := Response(StatusInternalServerError, ErrorBody(TokenFailed + token.err));
      return;
    }

    calls := calls + [SendRequest(token.value, params, clock)];
    var sent := Delivery(sendExchange);
    if sent.Err? {
      resp := Response(StatusInternalServerError, ErrorBody(SendFailed + sent.err));
      return;
    }
    resp := Response(StatusOK, Relayed(sent.value));
  }
}
