/**
  Properties of the two endpoints, each relating the handlers to the
  behaviour server.js promises its callers.
 */
module ServerProperties {
  import opened JsValue
  import opened Decimal
  import opened Server

  /** A missing or empty parameter is rejected before the episode API is asked. */
  lemma MissingParamsSkipFetch(animename: Option<string>, episode: Option<string>,
                               f: (string, string) -> Upstream, g: (string, string) -> Upstream)
    requires !ParamTruthy(animename) || !ParamTruthy(episode)
    ensures SearchAnime(animename, episode, f) == SearchAnime(animename, episode, g)
    ensures SearchAnime(animename, episode, f).status == 400
  {
  }

  /**
    A "200 OK" payload whose `detail` is a non-empty string and whose
    `title` or `links` is falsy is a 404 carrying exactly that detail.
   */
  lemma DetailReported(animename: string, episode: string, data: Json, detail: string)
    requires IsObject(data) && Prop(data, "detail") == JStr(detail) && detail != ""
    requires !Truthy(Prop(data, "title")) || !Truthy(Prop(data, "links"))
    ensures ClassifyPayload(animename, episode, data) == Reply(404, MessageBody(JStr(detail)))
  {
  }

  /**
    With a truthy `title` and `links`, the `detail` field decides nothing:
    removing it leaves the status unchanged.
   */
  lemma DetailIgnoredWhenComplete(animename: string, episode: string, fields: map<string, Json>)
    requires Truthy(Prop(JObj(fields), "title")) && Truthy(Prop(JObj(fields), "links"))
    ensures ClassifyPayload(animename, episode, JObj(fields)).status
         == ClassifyPayload(animename, episode, JObj(fields - {"detail"})).status
  {
    PropFrame(fields, "detail", "title");
    PropFrame(fields, "detail", "links");
  }

  /**
    An object payload gets the 404 naming the anime and episode when the
    detail check lets it through (no non-empty string `detail`, or a truthy
    `title` and `links`) and it has a falsy `title` or no key in either of
    `links.sub` and `links.dub`.
   */
  lemma MissingLinksNotFound(animename: string, episode: string, data: Json)
    requires IsObject(data)
    requires var detail := Prop(data, "detail");
      !(detail.JStr? && detail.s != "")
      || (Truthy(Prop(data, "title")) && Truthy(Prop(data, "links")))
    requires var links := Prop(data, "links");
      !Truthy(Prop(data, "title"))
      || (KeyCount(Prop(links, "sub")) == 0 && KeyCount(Prop(links, "dub")) == 0)
    ensures ClassifyPayload(animename, episode, data)
         == Reply(404, MessageBody(JStr(NotFoundMessage(animename, episode))))
  {
  }

  /** A JSON array is an object to `typeof`, so it reaches the link check and is not found. */
  lemma ArrayPayloadNotFound(animename: string, episode: string, elems: seq<Json>)
    ensures ClassifyPayload(animename, episode, JArr(elems))
         == Reply(404, MessageBody(JStr(NotFoundMessage(animename, episode))))
  {
  }

  /** `{"detail": s}` with a non-empty `s` is a 404 whose message is `s`. */
  lemma DetailOnlyPayload(animename: string, episode: string, detail: string)
    requires detail != ""
    ensures ClassifyPayload(animename, episode, JObj(map["detail" := JStr(detail)]))
         == Reply(404, MessageBody(JStr(detail)))
  {
  }

  /**
    A title with empty `sub` and `dub` tables is not found: empty objects
    are truthy, but they have no keys.
   */
  lemma EmptyLinkTablesNotFound(animename: string, episode: string, title: Json)
    requires Truthy(title)
    ensures
      var links := JObj(map["sub" := JObj(map[]), "dub" := JObj(map[])]);
      ClassifyPayload(animename, episode, JObj(map["title" := title, "links" := links]))
        == Reply(404, MessageBody(JStr(NotFoundMessage(animename, episode))))
  {
  }

  /**
    A payload with a detail message, a title and a non-empty `sub` table
    is served as it came.
   */
  lemma DetailWithLinksServed(animename: string, episode: string, detail: string, title: string,
                              quality: string, url: string)
    requires title != ""
    ensures
      var links := JObj(map["sub" := JObj(map[quality := JStr(url)])]);
      var data := JObj(map["detail" := JStr(detail), "title" := JStr(title), "links" := links]);
      ClassifyPayload(animename, episode, data) == Reply(200, data)
  {
  }

  /** axios rejects the call for any status outside 2xx (its default `validateStatus`). */
  predicate AxiosOutcome(u: Upstream)
  {
    u.Failed? && u.error.ResponseError? ==> !(200 <= u.error.status < 300)
  }

  /**
    End to end: the search replies 200 exactly when both parameters are
    given, the episode API answers, and the payload is an object with a
    title and a non-empty link table; the 200 body is the payload itself.
   */
  lemma SearchSucceedsIff(animename: Option<string>, episode: Option<string>,
                          fetch: (string, string) -> Upstream)
    requires ParamTruthy(animename) && ParamTruthy(episode) ==> AxiosOutcome(fetch(animename.value, episode.value))
    ensures var r := SearchAnime(animename, episode, fetch);
      r.status == 200 <==>
        && ParamTruthy(animename) && ParamTruthy(episode)
        && fetch(animename.value, episode.value).Received?
        && IsObject(fetch(animename.value, episode.value).data)
        && HasEpisodeLinks(fetch(animename.value, episode.value).data)
    ensures var r := SearchAnime(animename, episode, fetch);
      r.status == 200 ==> r.body == fetch(animename.value, episode.value).data
  {
  }

  /** Every status the search replies with is one of its own or the upstream's. */
  lemma SearchStatuses(animename: Option<string>, episode: Option<string>,
                       fetch: (string, string) -> Upstream)
    ensures var r := SearchAnime(animename, episode, fetch);
      || r.status in {200, 400, 404, 500, 503}
      || (&& ParamTruthy(animename) && ParamTruthy(episode)
          && fetch(animename.value, episode.value).Failed?
          && fetch(animename.value, episode.value).error.ResponseError?
          && r.status == fetch(animename.value, episode.value).error.status)
  {
  }

  /**
    The fallback message of an upstream error names its status: two
    statuses give the same message only if they are equal.
   */
  lemma StatusMessageInjective(s1: int, s2: int)
    ensures StatusMessage(s1) == StatusMessage(s2) ==> s1 == s2
  {
    if StatusMessage(s1) == StatusMessage(s2) {
      var n := |StatusMessagePrefix|;
      assert IntToString(s1) == StatusMessage(s1)[n..];
      assert IntToString(s2) == StatusMessage(s2)[n..];
      IntToStringInjective(s1, s2);
    }
  }

  /**
    An upstream error without a truthy `detail` gives a message from which
    the upstream status can be recovered, even when the reply's own
    status fell back to 500.
   */
  lemma SearchErrorNamesStatus(e1: TransportError, e2: TransportError)
    requires e1.ResponseError? && !Truthy(Prop(e1.data, "detail"))
    requires e2.ResponseError? && !Truthy(Prop(e2.data, "detail"))
    ensures ClassifySearchError(e1).body == ClassifySearchError(e2).body ==> e1.status == e2.status
  {
    if ClassifySearchError(e1).body == ClassifySearchError(e2).body {
      assert MessageBody(JStr(StatusMessage(e1.status))).fields["message"] == JStr(StatusMessage(e1.status));
      StatusMessageInjective(e1.status, e2.status);
    }
  }

  /** Both endpoints map a transport error to the same status. */
  lemma EndpointsAgreeOnStatus(error: TransportError, animename: string, episode: string, url: string,
                               searchFetch: (string, string) -> Upstream, imageFetch: string -> ImageOutcome)
    requires animename != "" && episode != "" && url != ""
    requires searchFetch(animename, episode) == Failed(error) && imageFetch(url) == ImageFailed(error)
    ensures SearchAnime(Some(animename), Some(episode), searchFetch).status
         == ImageProxy(Some(url), imageFetch).status
         == TransportStatus(error)
  {
  }
}
