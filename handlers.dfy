/** The three API handlers: `POST /api/fetch-media` (validate, ask the
    upstream media-info service, normalize), `POST /api/download` (record an
    entry in the history) and `GET /api/history` (the newest entries). The
    upstream request is not made here: its outcome is an input, and the
    fetch handler reports which requests it would have sent. */
module Handlers {
  import opened JsValues
  import opened InstagramUrl
  import opened MediaNormalizer
  import opened DownloadLog

  const URL_REQUIRED: string := "URL is required"
  const INVALID_URL: string := "Invalid Instagram URL"
  const FETCH_FAILED: string := "Failed to fetch media"
  const DOWNLOAD_INITIATED: string := "Download initiated"

  /** How the upstream request ends: `response.data`, or a rejected promise
      (timeout, transport error, non-2xx status) with its error message. */
  datatype Upstream = Fetched(data: Value) | Unavailable(message: string)

  /** The JSON body of a reply. `Failure` is `{success: false, error}`; the
      others carry `success: true`. */
  datatype Body =
    | Failure(error: string)
    | MediaFound(media: Media)
    | Initiated(message: string)
    | HistoryList(history: seq<Entry>)

  datatype Reply = Reply(status: int, body: Body) {
    /** The `success` field of the body. */
    predicate Success() {
      !body.Failure?
    }
  }

  /** The reply to one fetch-media request, and the `url` values it passed
      to the upstream service, in order. */
  datatype Exchange = Exchange(reply: Reply, upstreamCalls: seq<Value>)

  /** `req.body.key`, `undefined` (and so falsy) when the key is absent. */
  function Field(body: map<string, Value>, key: string): (r: Value)
    ensures key !in body ==> r == Undefined && !Truthy(r)
    ensures key in body ==> r == body[key]
  {
    Get(Obj(body), key)
  }

  /** The url passes both checks: it is truthy, converts to text without
      throwing, and the pattern matches that text. */
  predicate Accepted(url: Value) {
    Truthy(url) && ToJsString(url).Some? && IsPostUrl(ToJsString(url).value)
  }

  /** `POST /api/fetch-media`. A falsy `url` is rejected first, then a url
      whose text the pattern does not match, both with 400 and before any
      upstream request. Converting the url to text can itself throw (an
      object with its own `toString` key); the handler's `catch` answers
      that with the generic 500 reply, also before any upstream request. An
      accepted url is sent upstream exactly once. Every failure there (the
      request rejects, or the payload is null so reading its fields throws)
      gives the same 500 reply; otherwise the reply is 200 with the
      normalized media. */
  function FetchMedia(body: map<string, Value>, upstream: Upstream): (x: Exchange)
    ensures x.reply.status == 200 || x.reply.status == 400 || x.reply.status == 500
    ensures x.reply.Success() <==> x.reply.status == 200
    ensures x.reply.status == 400 <==>
      !Truthy(Field(body, "url"))
      || (ToJsString(Field(body, "url")).Some? && !IsPostUrl(ToJsString(Field(body, "url")).value))
    ensures x.upstreamCalls == if Accepted(Field(body, "url")) then [Field(body, "url")] else []
    ensures x.reply.status == 400 ==> x.reply.body == Failure(URL_REQUIRED) || x.reply.body == Failure(INVALID_URL)
    ensures x.reply.status == 500 ==> x.reply.body == Failure(FETCH_FAILED)
  {
    var url := Field(body, "url");
    var format := Field(body, "format");
    if !Truthy(url) then
      Exchange(Reply(400, Failure(URL_REQUIRED)), [])
    else if ToJsString(url).None? then
      Exchange(Reply(500, Failure(FETCH_FAILED)), [])
    else if !IsPostUrl(ToJsString(url).value) then
      Exchange(Reply(400, Failure(INVALID_URL)), [])
    else
      match upstream
      case Unavailable(_) => Exchange(Reply(500, Failure(FETCH_FAILED)), [url])
      case Fetched(data) =>
        match Normalize(data, format)
        case None => Exchange(Reply(500, Failure(FETCH_FAILED)), [url])
        case Some(media) => Exchange(Reply(200, MediaFound(media)), [url])
  }

  /** A missing or falsy url is answered "URL is required", whatever the
      upstream would have said, and nothing is sent upstream. */
  lemma MissingUrlRejectedFirst(body: map<string, Value>, upstream: Upstream)
    requires !Truthy(Field(body, "url"))
    ensures FetchMedia(body, upstream) == Exchange(Reply(400, Failure(URL_REQUIRED)), [])
  {
  }

  /** A truthy url the pattern does not match is answered "Invalid Instagram
      URL", and nothing is sent upstream. */
  lemma UnmatchedUrlRejected(body: map<string, Value>, upstream: Upstream)
    requires Truthy(Field(body, "url"))
    requires ToJsString(Field(body, "url")).Some? && !IsPostUrl(ToJsString(Field(body, "url")).value)
    ensures FetchMedia(body, upstream) == Exchange(Reply(400, Failure(INVALID_URL)), [])
  {
  }

  /** A url whose conversion to text throws is answered with the generic
      500 reply, whatever the upstream would have said, and nothing is sent
      upstream. */
  lemma ThrowingUrlAnsweredGenerically(body: map<string, Value>, upstream: Upstream)
    requires StringConversionThrows(Field(body, "url"))
    ensures FetchMedia(body, upstream) == Exchange(Reply(500, Failure(FETCH_FAILED)), [])
  {
  }

  /** A truthy url that is a number, a boolean or an object never passes the
      pattern: an object with its own `toString` key makes the conversion
      throw and gets the generic 500 reply, and every other such url prints
      as text without the letter `i`. */
  lemma NonTextUrlRejected(body: map<string, Value>, upstream: Upstream)
    requires Truthy(Field(body, "url"))
    requires Field(body, "url").Num? || Field(body, "url").Bool? || Field(body, "url").Obj?
    ensures FetchMedia(body, upstream) ==
      if StringConversionThrows(Field(body, "url")) then Exchange(Reply(500, Failure(FETCH_FAILED)), [])
      else Exchange(Reply(400, Failure(INVALID_URL)), [])
  {
    var url := Field(body, "url");
    if !StringConversionThrows(url) {
      ScalarStringsHaveNoLetterI(url);
      RejectsWithoutLetterI(ToJsString(url).value);
    }
  }

  /** `RegExp.prototype.test` reads an array as its comma-joined text, so a
      one-element array holding an accepted url is accepted too. */
  lemma SingletonArrayUrlAccepted(s: string, body: map<string, Value>, upstream: Upstream)
    requires IsPostUrl(s)
    requires "url" in body && body["url"] == Arr([Str(s)])
    ensures FetchMedia(body, upstream).upstreamCalls == [Arr([Str(s)])]
  {
    SingletonArrayString(s);
  }

  /** `{url: {toString: 1}}` is answered 500 "Failed to fetch media" with no
      upstream request. */
  lemma ToStringKeyExample(upstream: Upstream)
    ensures FetchMedia(map["url" := Obj(map["toString" := Num(1)])], upstream)
      == Exchange(Reply(500, Failure(FETCH_FAILED)), [])
  {
  }

  /** An array holding an accepted url and an object with its own
      `toString` key throws before the pattern is tried. */
  lemma ThrowingArrayElementExample(upstream: Upstream)
    ensures FetchMedia(map["url" := Arr([Str("https://instagram.com/p/ABC123"), Obj(map["toString" := Str("x")])])], upstream)
      == Exchange(Reply(500, Failure(FETCH_FAILED)), [])
  {
    var items := [Str("https://instagram.com/p/ABC123"), Obj(map["toString" := Str("x")])];
    assert StringConversionThrows(items[1]);
    ThrowingUrlAnsweredGenerically(map["url" := Arr(items)], upstream);
  }

  /** A rejected request's reply does not depend on the upstream. */
  lemma RejectionIgnoresUpstream(body: map<string, Value>, u1: Upstream, u2: Upstream)
    requires FetchMedia(body, u1).reply.status == 400
    ensures FetchMedia(body, u1) == FetchMedia(body, u2)
  {
  }

  /** The reply to an upstream failure carries no part of its message. */
  lemma FailureDetailNotLeaked(body: map<string, Value>, m1: string, m2: string)
    ensures FetchMedia(body, Unavailable(m1)) == FetchMedia(body, Unavailable(m2))
  {
  }

  /** 200 exactly when the url is accepted and the upstream returns a
      payload that is not null; the media is then that payload normalized
      with the requested format. */
  lemma SuccessIffAcceptedAndFetched(body: map<string, Value>, upstream: Upstream)
    ensures var x := FetchMedia(body, upstream);
      x.reply.status == 200 <==>
        Accepted(Field(body, "url")) && upstream.Fetched? && !Nullish(upstream.data)
    ensures var x := FetchMedia(body, upstream);
      x.reply.status == 200 ==>
        x.reply.body == MediaFound(Normalize(upstream.data, Field(body, "format")).value)
  {
  }

  /** `{url: ""}` is answered 400 "URL is required". */
  lemma EmptyUrlExample(upstream: Upstream)
    ensures FetchMedia(map["url" := Str("")], upstream).reply == Reply(400, Failure(URL_REQUIRED))
  {
  }

  /** `{url: "https://instagram.com/p/ABC123"}` with an upstream timeout is
      answered 500 "Failed to fetch media". */
  lemma UpstreamTimeoutExample()
    ensures FetchMedia(map["url" := Str("https://instagram.com/p/ABC123")],
                       Unavailable("timeout of 15000ms exceeded")).reply
      == Reply(500, Failure(FETCH_FAILED))
  {
    CanonicalPostAccepted();
  }

  /** `POST /api/download` with the clock readings `id` (`Date.now()`) and
      `timestamp` (`toISOString()`) as inputs. A falsy url is answered 400
      and leaves the history as it was; any truthy url, matching the
      pattern or not, is recorded and answered "Download initiated". */
  method Download(history: DownloadHistory, body: map<string, Value>, id: int, timestamp: string)
    returns (reply: Reply)
    requires history.Valid()
    modifies history
    ensures history.Valid()
    ensures !Truthy(Field(body, "url")) ==>
      reply == Reply(400, Failure(URL_REQUIRED)) && history.entries == old(history.entries)
    ensures Truthy(Field(body, "url")) ==>
      reply == Reply(200, Initiated(DOWNLOAD_INITIATED))
      && history.entries == AfterRecord(old(history.entries),
           Entry(id, Field(body, "url"), Field(body, "format"), Field(body, "resolution"), timestamp))
  {
    var url := Field(body, "url");
    if !Truthy(url) {
      return Reply(400, Failure(URL_REQUIRED));
    }
    var item := Entry(id, url, Field(body, "format"), Field(body, "resolution"), timestamp);
    history.Record(item);
    reply := Reply(200, Initiated(DOWNLOAD_INITIATED));
  }

  /** `GET /api/history`: the newest ten entries, most recent first; the
      history itself is only read. */
  function HistoryReply(history: DownloadHistory): (r: Reply)
    reads history
    ensures r.status == 200 && r.body.HistoryList?
    ensures |r.body.history| == Min(PAGE_SIZE, |history.entries|)
    ensures forall k :: 0 <= k < |r.body.history| ==>
      r.body.history[k] == history.entries[|history.entries| - 1 - k]
  {
    Reply(200, HistoryList(Recent(history.entries)))
  }

  /** A download with a truthy url followed by a history read: the recorded
      entry comes first. */
  method DownloadThenHistory(history: DownloadHistory, body: map<string, Value>, id: int, timestamp: string)
    returns (r: Reply)
    requires history.Valid()
    requires Truthy(Field(body, "url"))
    modifies history
    ensures history.Valid()
    ensures r.status == 200 && r.body.HistoryList? && |r.body.history| > 0
    ensures r.body.history[0] ==
      Entry(id, Field(body, "url"), Field(body, "format"), Field(body, "resolution"), timestamp)
  {
    var d := Download(history, body, id, timestamp);
    RecordedEntryComesFirst(old(history.entries),
      Entry(id, Field(body, "url"), Field(body, "format"), Field(body, "resolution"), timestamp));
    r := HistoryReply(history);
  }
}
