/** The `mediaData` record that the fetch-media handler builds from the
    upstream payload `data` and the requested `format`: six fields, each a
    chain of `||` fallbacks, with `?.` on `owner`. */
module MediaNormalizer {
  import opened JsValues

  /** The six fields of `mediaData`; `mediaType` is the field `type`.
      `thumbnail` and `videoUrl` have no literal default: when both of their
      sources are falsy they hold the second source, possibly `undefined`. */
  datatype Media = Media(
    mediaType: Value,
    thumbnail: Value,
    videoUrl: Value,
    title: Value,
    username: Value,
    duration: Value)

  const DEFAULT_TYPE: Value := Str("video")
  const DEFAULT_TITLE: Value := Str("Instagram Media")
  const DEFAULT_USERNAME: Value := Str("@user")
  const DEFAULT_DURATION: Value := Str("00:00")

  /** The payload keys the normalizer reads. */
  const PAYLOAD_KEYS: set<string> :=
    {"thumbnail_url", "display_url", "video_url", "download_url", "title", "owner", "video_duration"}

  /** JavaScript's `c0 || c1 || ... || cn`: the first truthy operand, or the
      last operand when none is truthy. */
  function FirstTruthy(candidates: seq<Value>): (r: Value)
    requires |candidates| > 0
    ensures exists k :: (0 <= k < |candidates| && r == candidates[k]
                         && (forall j :: 0 <= j < k ==> !Truthy(candidates[j]))
                         && (Truthy(r) || k == |candidates| - 1))
    ensures Truthy(r) <==> exists j :: 0 <= j < |candidates| && Truthy(candidates[j])
  {
    if |candidates| == 1 || Truthy(candidates[0]) then candidates[0]
    else
      var r := FirstTruthy(candidates[1..]);
      assert forall j :: 1 <= j < |candidates| ==> candidates[j] == candidates[1..][j - 1];
      r
  }

  /** Builds `mediaData`: `format || 'video'`, `data.thumbnail_url ||
      data.display_url`, `data.video_url || data.download_url`, `data.title
      || 'Instagram Media'`, `data.owner?.username || '@user'`,
      `data.video_duration || '00:00'`. Reading a property of a null or
      undefined `data` throws, which the model gives as `None`. The four
      fields with a literal default are always truthy, and a field with two
      sources is truthy exactly when one of them is. */
  function Normalize(data: Value, format: Value): (r: Option<Media>)
    ensures r.None? <==> Nullish(data)
    ensures r.Some? ==>
      Truthy(r.value.mediaType) && Truthy(r.value.title)
      && Truthy(r.value.username) && Truthy(r.value.duration)
    ensures r.Some? ==>
      (Truthy(r.value.thumbnail) <==> Truthy(Get(data, "thumbnail_url")) || Truthy(Get(data, "display_url")))
    ensures r.Some? ==>
      (Truthy(r.value.videoUrl) <==> Truthy(Get(data, "video_url")) || Truthy(Get(data, "download_url")))
  {
    if Nullish(data) then None
    else
      Some(Media(
        mediaType := Or(format, DEFAULT_TYPE),
        thumbnail := Or(Get(data, "thumbnail_url"), Get(data, "display_url")),
        videoUrl := Or(Get(data, "video_url"), Get(data, "download_url")),
        title := Or(Get(data, "title"), DEFAULT_TITLE),
        username := Or(OptGet(Get(data, "owner"), "username"), DEFAULT_USERNAME),
        duration := Or(Get(data, "video_duration"), DEFAULT_DURATION)))
  }

  /** The fallback table, one ordered list of attempts per output field.
      Every field of a normalized payload is the first truthy attempt of its
      row (or the last attempt when none is truthy). */
  lemma NormalizeFollowsFallbackTable(data: Value, format: Value)
    requires !Nullish(data)
    ensures var m := Normalize(data, format).value;
      && m.mediaType == FirstTruthy([format, DEFAULT_TYPE])
      && m.thumbnail == FirstTruthy([Get(data, "thumbnail_url"), Get(data, "display_url")])
      && m.videoUrl == FirstTruthy([Get(data, "video_url"), Get(data, "download_url")])
      && m.title == FirstTruthy([Get(data, "title"), DEFAULT_TITLE])
      && m.username == FirstTruthy([OptGet(Get(data, "owner"), "username"), DEFAULT_USERNAME])
      && m.duration == FirstTruthy([Get(data, "video_duration"), DEFAULT_DURATION])
  {
    forall a: Value, b: Value ensures FirstTruthy([a, b]) == Or(a, b) {
      assert [a, b][1..] == [b];
    }
  }

  /** `thumbnail_url` wins over `display_url` when it is truthy, and
      `display_url` is used otherwise; likewise `video_url` over
      `download_url`. */
  lemma TwoSourcePrecedence(data: Value, format: Value)
    requires !Nullish(data)
    ensures var m := Normalize(data, format).value;
      && (Truthy(Get(data, "thumbnail_url")) ==> m.thumbnail == Get(data, "thumbnail_url"))
      && (!Truthy(Get(data, "thumbnail_url")) ==> m.thumbnail == Get(data, "display_url"))
      && (Truthy(Get(data, "video_url")) ==> m.videoUrl == Get(data, "video_url"))
      && (!Truthy(Get(data, "video_url")) ==> m.videoUrl == Get(data, "download_url"))
  {
  }

  /** A truthy requested format becomes `type`; otherwise `type` is "video". */
  lemma TypeFromFormat(data: Value, format: Value)
    requires !Nullish(data)
    ensures Normalize(data, format).value.mediaType == if Truthy(format) then format else DEFAULT_TYPE
  {
  }

  /** `username` is `owner.username` when truthy, and "@user" otherwise,
      also when `owner` is missing, null or not an object. */
  lemma UsernameFallback(data: Value, format: Value)
    requires !Nullish(data)
    ensures var owner := Get(data, "owner");
      Normalize(data, format).value.username ==
        if !owner.Obj? || !Truthy(Get(owner, "username")) then DEFAULT_USERNAME else Get(owner, "username")
  {
  }

  /** An empty payload object with no format gives exactly the defaults,
      with `thumbnail` and `videoUrl` undefined. */
  lemma EmptyPayloadGivesDefaults()
    ensures Normalize(Obj(map[]), Undefined) ==
      Some(Media(DEFAULT_TYPE, Undefined, Undefined, DEFAULT_TITLE, DEFAULT_USERNAME, DEFAULT_DURATION))
  {
  }

  /** Two precedence examples: `{thumbnail_url: "A", display_url:
      "B"}` gives "A", and `{display_url: "B"}` gives "B". */
  lemma ThumbnailExamples()
    ensures Normalize(Obj(map["thumbnail_url" := Str("A"), "display_url" := Str("B")]), Undefined).value.thumbnail == Str("A")
    ensures Normalize(Obj(map["display_url" := Str("B")]), Undefined).value.thumbnail == Str("B")
  {
  }

  /** Keys outside the seven the normalizer reads change nothing. */
  lemma OnlyReadKeysMatter(m1: map<string, Value>, m2: map<string, Value>, format: Value)
    requires forall k :: k in PAYLOAD_KEYS ==> (k in m1 <==> k in m2) && (k in m1 ==> m1[k] == m2[k])
    ensures Normalize(Obj(m1), format) == Normalize(Obj(m2), format)
  {
  }

  /** A payload that is a string, number, boolean or array has none of the
      keys and normalizes like the empty object. */
  lemma NonObjectPayloadGivesDefaults(data: Value, format: Value)
    requires !Nullish(data) && !data.Obj?
    ensures Normalize(data, format) == Normalize(Obj(map[]), format)
  {
  }
}
