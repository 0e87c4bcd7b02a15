# Anime search proxy: response classification

A Dafny model of the decision logic in `server.js`, an Express server that
proxies a third-party episode-link API and third-party images for a
browser front end.

- `/api/search-anime` requires two truthy query parameters, `animename`
  and `episode`. It asks the episode API and classifies the JSON payload
  of a successful answer through a fixed chain of early-return checks:
  the payload is not an object; the upstream's "200 OK with a `detail`
  error" convention applies; a title or a non-empty `sub`/`dub` link
  table is missing; or the payload is passed through. When the call
  throws, it maps axios's error three ways: the upstream answered with an
  error status, nothing answered, or the request could not be set up.
- `/api/image-proxy` requires a truthy `url` and maps a failed fetch with
  the same three-way split, with its own texts.

Files:

- `json_value.dfy` (module `JsValue`): JavaScript values as the handlers
  see them. It gives `typeof`, truthiness, property reads and
  `Object.keys(x).length` (`KeyCount`).
- `decimal.dfy` (module `Decimal`): how a template literal renders an
  integer status (`IntToString`). It also has a parser as that
  rendering's inverse, with the round trip proved.
- `server.dfy` (module `Server`): the two handlers as functions. The
  upstream call is a function parameter `fetch`, and a reply is a status
  and the body given to `res.json` or `res.send`.
- `server_properties.dfy` (module `ServerProperties`): lemmas relating the
  handlers to what the endpoints promise.

Points where the code's behaviour is easy to misread:

- A missing or empty `episode` is rejected with 400, like a missing
  `animename` (server.js:19-21).
- An upstream error whose `detail` is truthy but not a string (an array,
  say) is sent as the message unchanged. Only the 200-OK detail check
  asks for a string.
- A JSON array payload passes the "is an object" check, as `typeof`
  says. It is then answered 404 by the link check.

## Model

| member | source | states |
|---|---|---|
| `JsValue.TypeOf` | server.js:29 | `typeof` gives one of five type names, and "object" exactly for `null`, arrays and objects. |
| `JsValue.Truthy` | server.js:19 | JavaScript truthiness: a value is falsy exactly when it is `undefined`, `null`, `false`, `0` or the empty string. |
| `JsValue.IsObject` | server.js:29 | The test `typeof x === 'object' && x !== null` holds exactly for arrays and objects. |
| `JsValue.Prop` | server.js:34 | Only an object's own entry can read as truthy: a read on a non-object, or of an absent key, is falsy. |
| `JsValue.PropFrame` | server.js:34 | Removing one entry from an object leaves the reads of every other key unchanged. |
| `JsValue.KeyCount` | server.js:39-40 | `Object.keys(x).length` is positive only for a truthy value. For `null`/`undefined`, the guard before the call also prevents the TypeError `Object.keys` throws; the model gives them 0. |
| `Decimal.NatToString` | server.js:54 | Renders a non-negative status as a non-empty string of decimal digits with no leading zero; 0 renders as exactly `"0"`. |
| `Decimal.IntToString` | server.js:54 | Renders an integer status as `${status}` does. The result starts with `-` exactly when the status is negative. |
| `Decimal.ParseNatToString` | server.js:54 | Parsing the rendered digits of `n` gives back `n`. |
| `Decimal.ParseIntToString` | server.js:54 | The rendering of any integer is a well-formed integer literal, and parsing it gives back that integer. |
| `Decimal.IntToStringInjective` | server.js:54 | Distinct statuses render as distinct strings. |
| `Server.ParamTruthy` | server.js:19 | A query parameter passes `!param` exactly when it is present and JavaScript-truthy as a string. |
| `Server.NotFoundMessage` | server.js:44 | The not-found message starts with `Anime "`, then gives the anime name, then `" episode `, then the episode, and ends with ` not found or no download links available.`; the name and the episode appear verbatim. |
| `Server.StatusMessage` | server.js:54 | The fallback message is the fixed prefix followed by an integer literal that reads back as the status. |
| `Server.DetailRejects` | server.js:34 | The detail check fires only for a non-empty string `detail`. A payload it rejects never has a title and a non-empty link table, so it never blocks a usable payload. |
| `Server.LinksExist` | server.js:39-40 | A link table "exists" exactly when `links[kind]` has at least one key, and only when `links` is an object. In the model, where `KeyCount` of `undefined` is 0, the guards change no answer. In the source they keep the property read and `Object.keys` from throwing a TypeError. |
| `Server.HasEpisodeLinks` | server.js:42 | A usable payload is an object whose `links` is truthy. |
| `Server.ClassifyPayload` | server.js:29-47 | Replies 500 with the invalid-format message exactly when the payload is not a non-null object. When the detail check fires on an object, the reply is 404 with that `detail`. An object the detail check passes, but with no title or no non-empty `sub`/`dub` table, gets 404 naming the anime and episode. Replies 200 exactly when the payload is an object with a truthy title and a non-empty `sub` or `dub` table, and then the body is the payload unchanged. |
| `Server.TransportStatus` | server.js:51-62 | A thrown call never yields status 0. A truthy upstream status is kept and a falsy one becomes 500. No response gives 503, and a setup failure gives 500. |
| `Server.ClassifySearchError` | server.js:49-63 | The status is the shared transport status. The message is the upstream `data.detail` if truthy, else "Error from external anime API: Status N". Fixed messages cover no-response and setup failure. |
| `Server.SearchAnime` | server.js:16-64 | A falsy `animename` or `episode` gives 400 with the fixed "required" message. Otherwise the reply is the classification of what `fetch` returns for exactly those two parameters. |
| `Server.ClassifyImageError` | server.js:87-101 | The image proxy replies with the same transport status as the search. Its three texts tell the three error kinds apart. |
| `Server.ImageProxy` | server.js:66-101 | A falsy `url` gives 400 "Image URL is required". Otherwise the image is proxied exactly when the fetch succeeds, and a failed fetch is classified by `ClassifyImageError`. |
| `ServerProperties.MissingParamsSkipFetch` | server.js:19-21 | With a falsy parameter, the reply is 400 and is the same whatever the episode API would have answered, so the API is never consulted. |
| `ServerProperties.DetailReported` | server.js:34-37 | A payload with a non-empty string `detail` and a falsy `title` or `links` is a 404 whose message is exactly that detail. |
| `ServerProperties.DetailIgnoredWhenComplete` | server.js:34 | With a truthy `title` and `links`, removing `detail` from the payload does not change the status. |
| `ServerProperties.MissingLinksNotFound` | server.js:39-45 | An object whose `detail` is not a non-empty string (or whose `title` and `links` are truthy), and whose `title` is falsy or whose `links.sub` and `links.dub` both have no keys, is a 404 naming the anime and episode. |
| `ServerProperties.ArrayPayloadNotFound` | server.js:29-45 | An array payload passes the object check and ends as the not-found 404. |
| `ServerProperties.DetailOnlyPayload` | server.js:34-37 | `{"detail": s}` with a non-empty `s` is a 404 whose message is `s`. |
| `ServerProperties.EmptyLinkTablesNotFound` | server.js:39-45 | A truthy title with empty `sub` and `dub` tables is the not-found 404: empty `{}` tables are truthy yet have no keys. |
| `ServerProperties.DetailWithLinksServed` | server.js:34-47 | A payload with a detail, a title and a one-entry `sub` table is served as 200 with the payload itself. |
| `ServerProperties.SearchSucceedsIff` | server.js:16-64 | Suppose axios rejects every non-2xx status. Then the search replies 200 exactly when both parameters are truthy, the API answered, and the payload is an object with a title and a non-empty link table. The 200 body is that payload. |
| `ServerProperties.SearchStatuses` | server.js:16-64 | Every search reply has status 200, 400, 404, 500 or 503, or the status the upstream returned with its error. |
| `ServerProperties.StatusMessageInjective` | server.js:54 | Two statuses give the same fallback error message only if they are equal. |
| `ServerProperties.SearchErrorNamesStatus` | server.js:51-55 | Two upstream errors without a truthy `detail` produce the same reply body only if their upstream statuses are equal. This holds even when the reply status fell back to 500. |
| `ServerProperties.EndpointsAgreeOnStatus` | server.js:51-62 | The same transport error gives the same status from the search and from the image proxy. |

## Left out

- Express setup, static files, the `/` route and `app.listen`
  (server.js:6-14, 105-110): routing and I/O, with no decision in them.
- The axios calls (server.js:26, 74-76): the network. Their outcome is
  the `fetch` parameter. Each search outcome is a 2xx payload or one of
  the three error kinds.
- Building the upstream URL with `encodeURIComponent` (server.js:23): a
  library call. `fetch` receives the two parameters themselves.
- The image proxy's success path (server.js:78-86). The bytes and the
  copy of `Content-Type` when present are not modelled. A successful
  fetch is the reply `SendImage`.
- Logging through `console.*`: side effects with no effect on replies.
- Query parameters that Express parses into arrays or objects (repeated
  or bracketed keys). A parameter here is either absent or one string.
- JavaScript numbers are integers here: fractions, `NaN` and `-0` are
  not modelled. `IntToString` also does not model the exponent notation
  JavaScript uses for integers of 10^21 and above.
- Property reads model own properties only. On a string, `links.sub`
  reads the inherited `String.prototype.sub`, a function. A function is
  truthy and has no keys, so every check gives the same answer as for
  `undefined`, which is what the model reads.
- `KeyCount` counts characters, not UTF-16 code units. JavaScript throws
  on `null`/`undefined`, and the handler never asks for those.
