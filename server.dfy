/**
  The decision logic of the two proxy endpoints in server.js.

  `/api/search-anime` validates its two query parameters, asks the episode
  API, and classifies what comes back: the payload of a 2xx response, or
  the error axios throws. `/api/image-proxy` validates its `url` parameter
  and classifies the error of a failed image fetch with the same
  three-way split (the upstream answered / nothing answered / the request
  could not be set up).

  The upstream call is a parameter (`fetch`), so the network is not part
  of the model; a reply is the status and the JSON body handed to
  `res.status(..).json(..)`, or the status and text handed to `.send(..)`.
 */
module Server {
  import opened JsValue
  import opened Decimal

  /** A query parameter: absent (`undefined`) or present as a string. */
  datatype Option<T> = None | Some(value: T)

  /**
    The error axios throws, told apart by the handlers through
    `error.response` and `error.request`.
   */
  datatype TransportError =
    | ResponseError(status: int, data: Json) // the upstream answered with an error status
    | NoResponse                             // the request went out, no answer came back
    | SetupFailure                           // the request could not be set up

  /** What the episode API call yields: the payload of a 2xx answer, or the error thrown. */
  datatype Upstream = Received(data: Json) | Failed(error: TransportError)

  /** A JSON reply: `res.status(status).json(body)`. */
  datatype Reply = Reply(status: int, body: Json)

  const MissingParamsMessage: string := "Anime name and episode number are required"
  const InvalidFormatMessage: string := "Received invalid data format from anime API."
  const SearchUnavailableMessage: string := "Service unavailable: No response from the external anime service."
  const SearchSetupMessage: string := "Internal server error: Failed to set up anime search request."
  const StatusMessagePrefix: string := "Error from external anime API: Status "

  /** The body `{ message: m }`. */
  function MessageBody(m: Json): Json
  {
    JObj(map["message" := m])
  }

  /** A query parameter that passes `!param`: present and not the empty string. */
  predicate ParamTruthy(p: Option<string>)
    ensures ParamTruthy(p) <==> p.Some? && Truthy(JStr(p.value))
  {
    p.Some? && p.value != ""
  }

  const NotFoundPrefix: string := "Anime \""
  const NotFoundInfix: string := "\" episode "
  const NotFoundSuffix: string := " not found or no download links available."

  /** The not-found message names the anime and then the episode, each verbatim. */
  function NotFoundMessage(animename: string, episode: string): (m: string)
    ensures |m| == |NotFoundPrefix| + |animename| + |NotFoundInfix| + |episode| + |NotFoundSuffix|
    ensures m[..|NotFoundPrefix|] == NotFoundPrefix
    ensures m[|NotFoundPrefix|..|NotFoundPrefix| + |animename|] == animename
    ensures var j := |NotFoundPrefix| + |animename|;
      m[j..j + |NotFoundInfix|] == NotFoundInfix
    ensures var k := |NotFoundPrefix| + |animename| + |NotFoundInfix|;
      m[k..k + |episode|] == episode
    ensures m[|m| - |NotFoundSuffix|..] == NotFoundSuffix
  {
    NotFoundPrefix + animename + NotFoundInfix + episode + NotFoundSuffix
  }

  /** The fallback error message: the fixed prefix, then the status read back exactly. */
  function StatusMessage(status: int): (m: string)
    ensures |m| > |StatusMessagePrefix| && m[..|StatusMessagePrefix|] == StatusMessagePrefix
    ensures IsIntLiteral(m[|StatusMessagePrefix|..]) && ParseInt(m[|StatusMessagePrefix|..]) == status
  {
    ParseIntToString(status);
    assert (StatusMessagePrefix + IntToString(status))[|StatusMessagePrefix|..] == IntToString(status);
    StatusMessagePrefix + IntToString(status)
  }

  /**
    The episode API's "200 OK carrying an error" convention: a non-empty
    string `detail` while `title` or `links` is falsy.
   */
  predicate DetailRejects(data: Json)
    ensures DetailRejects(data) ==> Prop(data, "detail").JStr? && Prop(data, "detail").s != ""
    ensures DetailRejects(data) ==> !HasEpisodeLinks(data)
  {
    var detail := Prop(data, "detail");
    Truthy(detail) && detail.JStr? && (!Truthy(Prop(data, "title")) || !Truthy(Prop(data, "links")))
  }

  /** `links && links[kind] && Object.keys(links[kind]).length > 0` for kind "sub" or "dub". */
  predicate LinksExist(data: Json, kind: string)
    ensures LinksExist(data, kind) <==> KeyCount(Prop(Prop(data, "links"), kind)) > 0
    ensures LinksExist(data, kind) ==> Prop(data, "links").JObj?
  {
    var links := Prop(data, "links");
    Truthy(links) && Truthy(Prop(links, kind)) && KeyCount(Prop(links, kind)) > 0
  }

  /** The payload is usable: a title and at least one non-empty link table. */
  predicate HasEpisodeLinks(data: Json)
    ensures HasEpisodeLinks(data) ==> data.JObj? && Truthy(Prop(data, "links"))
  {
    Truthy(Prop(data, "title")) && (LinksExist(data, "sub") || LinksExist(data, "dub"))
  }

  /**
    The checks the search handler runs, in order, on the payload of a
    successful upstream call.
   */
  function ClassifyPayload(animename: string, episode: string, data: Json): (r: Reply)
    ensures r.status in {200, 404, 500}
    ensures r.status == 500 <==> !IsObject(data)
    ensures r.status == 500 ==> r.body == MessageBody(JStr(InvalidFormatMessage))
    ensures r.status == 200 <==> IsObject(data) && HasEpisodeLinks(data)
    ensures r.status == 200 ==> r.body == data
    ensures IsObject(data) && DetailRejects(data) ==> r == Reply(404, MessageBody(Prop(data, "detail")))
    ensures IsObject(data) && !DetailRejects(data) && !HasEpisodeLinks(data) ==>
      r == Reply(404, MessageBody(JStr(NotFoundMessage(animename, episode))))
  {
    if !IsObject(data) then
      Reply(500, MessageBody(JStr(InvalidFormatMessage)))
    else if DetailRejects(data) then
      Reply(404, MessageBody(Prop(data, "detail")))
    else if !HasEpisodeLinks(data) then
      Reply(404, MessageBody(JStr(NotFoundMessage(animename, episode))))
    else
      Reply(200, data)
  }

  /**
    The status both endpoints reply with when the upstream call throws:
    the upstream's own status unless it is falsy, then 500; 503 when
    nothing answered; 500 when the request could not be set up.
   */
  function TransportStatus(error: TransportError): (s: int)
    ensures s != 0
    ensures error.ResponseError? && error.status != 0 ==> s == error.status
    ensures error.ResponseError? && error.status == 0 ==> s == 500
    ensures error.NoResponse? ==> s == 503
    ensures error.SetupFailure? ==> s == 500
  {
    match error
    case ResponseError(status, _) => if Truthy(JNum(status)) then status else 500
    case NoResponse => 503
    case SetupFailure => 500
  }

  /** The search handler's `catch` block. */
  function ClassifySearchError(error: TransportError): (r: Reply)
    ensures r.status == TransportStatus(error)
    ensures error.ResponseError? ==>
      r.body == MessageBody(
        if Truthy(Prop(error.data, "detail")) then Prop(error.data, "detail")
        else JStr(StatusMessage(error.status)))
    ensures error.NoResponse? ==> r.body == MessageBody(JStr(SearchUnavailableMessage))
    ensures error.SetupFailure? ==> r.body == MessageBody(JStr(SearchSetupMessage))
  {
    match error
    case ResponseError(status, data) =>
      var detail := Prop(data, "detail");
      Reply(TransportStatus(error), MessageBody(if Truthy(detail) then detail else JStr(StatusMessage(status))))
    case NoResponse =>
      Reply(TransportStatus(error), MessageBody(JStr(SearchUnavailableMessage)))
    case SetupFailure =>
      Reply(TransportStatus(error), MessageBody(JStr(SearchSetupMessage)))
  }

  /**
    The `/api/search-anime` handler. `fetch` stands for the call to the
    episode API with the two parameters; it is asked only once both
    parameters are truthy.
   */
  function SearchAnime(animename: Option<string>, episode: Option<string>,
                       fetch: (string, string) -> Upstream): (r: Reply)
    ensures !ParamTruthy(animename) || !ParamTruthy(episode) ==>
      r == Reply(400, MessageBody(JStr(MissingParamsMessage)))
    ensures ParamTruthy(animename) && ParamTruthy(episode) && fetch(animename.value, episode.value).Received? ==>
      r == ClassifyPayload(animename.value, episode.value, fetch(animename.value, episode.value).data)
    ensures ParamTruthy(animename) && ParamTruthy(episode) && fetch(animename.value, episode.value).Failed? ==>
      r == ClassifySearchError(fetch(animename.value, episode.value).error)
  {
    if !ParamTruthy(animename) || !ParamTruthy(episode) then
      Reply(400, MessageBody(JStr(MissingParamsMessage)))
    else
      match fetch(animename.value, episode.value)
      case Received(data) => ClassifyPayload(animename.value, episode.value, data)
      case Failed(error) => ClassifySearchError(error)
  }

  // ---------------------------------------------------------------------
  // /api/image-proxy

  /** A text reply, `res.status(status).send(text)`, or the proxied image. */
  datatype ImageReply = SendText(status: int, text: string) | SendImage

  /** What the image fetch yields; the bytes and their content type are not modelled. */
  datatype ImageOutcome = Fetched | ImageFailed(error: TransportError)

  const ImageUrlRequiredMessage: string := "Image URL is required"
  const ImageSourceErrorMessage: string := "Error fetching image from source via proxy."
  const ImageUnavailableMessage: string := "Service unavailable: No response from image source via proxy."
  const ImageSetupMessage: string := "Internal server error: Failed to set up image proxy request."

  /** The image proxy's `catch` block. */
  function ClassifyImageError(error: TransportError): (r: ImageReply)
    ensures r.SendText? && r.status == TransportStatus(error)
    ensures r.SendText? && (r.text == ImageSourceErrorMessage <==> error.ResponseError?)
    ensures r.SendText? && (r.text == ImageUnavailableMessage <==> error.NoResponse?)
    ensures r.SendText? && (r.text == ImageSetupMessage <==> error.SetupFailure?)
  {
    match error
    case ResponseError(_, _) => SendText(TransportStatus(error), ImageSourceErrorMessage)
    case NoResponse => SendText(TransportStatus(error), ImageUnavailableMessage)
    case SetupFailure => SendText(TransportStatus(error), ImageSetupMessage)
  }

  /** The `/api/image-proxy` handler; `fetch` is asked only for a truthy `url`. */
  function ImageProxy(url: Option<string>, fetch: string -> ImageOutcome): (r: ImageReply)
    ensures !ParamTruthy(url) ==> r == SendText(400, ImageUrlRequiredMessage)
    ensures ParamTruthy(url) ==> (r.SendImage? <==> fetch(url.value).Fetched?)
    ensures ParamTruthy(url) && fetch(url.value).ImageFailed? ==>
      r == ClassifyImageError(fetch(url.value).error)
  {
    if !ParamTruthy(url) then
      SendText(400, ImageUrlRequiredMessage)
    else
      match fetch(url.value)
      case Fetched => SendImage
      case ImageFailed(error) => ClassifyImageError(error)
  }
}
