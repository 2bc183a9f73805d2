# go-wxpush: the /wxsend pipeline in Dafny

go-wxpush is a small HTTP bridge that sends WeChat template messages. A
request to `/wxsend` names a title, a content, the app credentials
(`appid`, `secret`), the recipient (`userid`), the template (`template_id`),
the base URL of the detail page and a time zone (`tz`). Any of them may be
left out. The service then:

1. fills each missing one from the process-wide defaults given at startup;
2. rejects the request if a required parameter (appid, secret, userid or
   template_id) is still missing;
3. exchanges `appid` and `secret` for an access token;
4. posts a template message whose link points to `<base_url>/detail`;
5. relays the platform's `{errcode, errmsg}` answer to the caller.

This project models that pipeline, all of it in `main.go`, and proves its
precedence, validation, short-circuit and link-construction rules.

Files:

- `bytes.dfy`: module `Bytes`. Go strings are byte sequences, and the model
  uses `seq<byte>` throughout. Literals are converted with `Ascii`.
- `wrappers.dfy`: module `Wrappers`, with `Option` and `Result`. A `Result`
  error carries the text of the Go `error`.
- `query_escape.dfy`: module `QueryEscape`. `Escape` is `url.QueryEscape`
  written out. It copies the unreserved characters of section 2.3 of
  RFC 3986, turns a space into `+`, and writes every other byte as `%XX`
  with upper-case hex digits. `Unescape` is its inverse (`url.QueryUnescape`).
- `query.dfy`: module `Query`. It holds a reference reader for query
  strings: split on `&`, cut each piece at its first `=`, unescape both
  halves. It also holds `EncodePairs`, the matching writer.
- `wxpush.dfy`: module `WxPush`. This is `main.go`'s core:
  - `RequestParams` and the `Defaults` record;
  - the merge (`Resolve`, carried out by `ApplyDefaults`);
  - validation (`Missing`);
  - the two platform calls: `TokenRequest` with `AccessToken`, and
    `SendRequest` with `Delivery`;
  - the time-zone fallback (`Timestamp`);
  - the message (`BuildMessage`, `DetailUrl`);
  - the handler, `HandleWxSend`.

How the outside world appears in the model:

- **Defaults.** The `cli*` globals are an immutable `Defaults` value passed
  to the handler.
- **Calls to the platform.** Each HTTPS call is an input, an `Exchange`: a
  transport error, or a body that `json.Unmarshal` either parsed or could
  not parse. The handler returns the list of calls it made (URL and
  payload), so "no call was made" can be stated and proved.
- **The POST body.** What `json.Decoder` made of it is an input (`Decoded`).
- **The time.** The current time is a `Clock`. It holds the instant
  already formatted in each zone `time.LoadLocation` accepts, and in the
  host's local zone.

## Model

| member | source | states |
|---|---|---|
| `WxPush.ResolveField` | main.go:137-144 | After the merge, each of the eight fields holds the request's value if that is non-empty, and the default otherwise. |
| `WxPush.ResolveBlank` | main.go:137-144 | A request that gives no field resolves to exactly the defaults. |
| `WxPush.ResolveComplete` | main.go:137-144 | A request that gives every field is not changed by any defaults. |
| `WxPush.ResolveIdempotent` | main.go:137-144 | Merging an already merged record with the same defaults changes nothing. |
| `WxPush.ResolveEmptyField` | main.go:137-144 | A field is empty after the merge exactly when both the request and the default left it empty. |
| `WxPush.ApplyDefaults` | main.go:136-144 | The eight in-place "if empty, take the default" updates produce exactly the merge `Resolve`. |
| `WxPush.MissingExactly` | main.go:146 | Validation fails exactly when one of appid, secret, userid and template_id is empty. |
| `WxPush.MissingIgnoresOptional` | main.go:146 | No value of title, content, base_url or tz changes the outcome of validation. |
| `WxPush.Received` | main.go:116-134 | For a POST, the parameters are the decoded body, or the decoder's error. For a GET, each parameter is the first query value under its name ("" when absent). Any other method gives all-empty parameters. |
| `WxPush.OtherMethodUsesDefaults` | main.go:116-144 | For a method other than GET or POST, the merged parameters are exactly the defaults, whatever the body and query hold. |
| `WxPush.UnknownZoneLinksLocalTime` | main.go:188-195 | When time.LoadLocation does not know the requested zone (`Timestamp` falls back to `clock.local`), the link of the message sent carries the time in the host's local zone, next to the title and the content. |
| `WxPush.DetailUrlShape` | main.go:195 | The link is base_url + "/detail?" followed by title, message and date, each as key=escaped value, joined by "&". |
| `WxPush.DetailUrlDecodes` | main.go:195 | Reading the link back after base_url + "/detail?" gives exactly three parameters, title, message and date. They decode to the title, the content and the timestamp, for any bytes those hold. |
| `WxPush.BuildMessage` | main.go:192-200 | The message goes to userid with template_id. Its data has exactly the keys "title" and "content", each holding {"value": …} with the merged title and content. Its URL reads back to the title, the content and the timestamp. |
| `WxPush.HandleWxSend` | main.go:115-166 | A POST body that does not decode gives 400 with no call. A required parameter (appid, secret, userid or template_id) still missing after the merge gives 400 with no call. Otherwise the first call is the token exchange (`TokenRequest`): grant_type "client_credential" with the merged appid and secret, to the stable_token endpoint. A token transport error gives 500 and nothing is sent. Any reply to the token request, parsed or not, is followed by the send. Any token the exchange yields (`AccessToken`), even the empty one an unparseable reply gives, leads to exactly one send (`SendRequest`). That send goes to the send endpoint with the token appended unescaped, and carries the message built from the merged parameters. A send transport error gives 500. Otherwise the platform's reply (`Delivery`) is relayed with 200, whatever its errcode; an unparseable reply is relayed as errcode 0. 400 happens exactly when no call was made, and 200 exactly when both calls were made and the second one answered. The response does not depend on the clock or the time zone. |
| `QueryEscape.Escape` | main.go:195 | url.QueryEscape's output holds only unreserved bytes, '+' and '%', so it never contains '&' or '='. It is between one and three times as long as its input. |
| `QueryEscape.UnescapeEscape` | main.go:195 | Unescaping an escaped string gives back the original exactly, including '&', '=', '+', '%', spaces and non-ASCII bytes. |
| `QueryEscape.EscapeInjective` | main.go:195 | Two different strings never escape to the same text. |
| `QueryEscape.EscapeUnreserved` | main.go:195 | A string made only of unreserved bytes is its own escape. |
| `Query.ParseEncodePairs` | main.go:195 | A query written as key=QueryEscape(value) pairs joined by '&', with keys that need no escaping, reads back as exactly the same pairs in the same order. |

## Left out

- `main` (main.go:66-101) is not modelled. It parses flags and environment variables, registers the routes and the "/" banner, picks the port and starts the listener. This is configuration and transport; its only product, the defaults, is the `Defaults` input.
- `handleDetail` (main.go:104-113) is not modelled. It serves an embedded HTML file as it is.
- The HTTP clients are not modelled, including the TLS configuration that skips certificate checks. Neither are reading the bodies and JSON marshalling and unmarshalling. Their results are the `Exchange` and `Decoded` inputs.
- `expires_in` is kept in `AccessTokenResponse` but never used, as in the source.
- Error responses keep only the message. On the wire they are the text `{"error": "<message>"}`, written without JSON escaping. The success body keeps the reply value rather than `json.Encoder`'s bytes.
- `time.Now`, `time.LoadLocation` and `Format` are not modelled. The `Clock` supplies the formatted instant per zone, so which names the zone database knows (the empty name loads UTC) is part of that input.
- Concurrency across requests is not modelled: requests share no mutable state.
- `Ascii` takes the low byte of each character's code. It is applied only to the program's ASCII literals, so it does not model UTF-8 encoding of other text.
- `json.Unmarshal`'s error is ignored in both calls (main.go:182, 208). An unparseable token reply gives an empty token, which is still used to send. An unparseable delivery reply is relayed as errcode 0 with an empty errmsg and status 200. The model keeps this behaviour.
