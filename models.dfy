/** The persisted video entity and its cleaning into the document written to MongoDB
    (backend/app/models/models.py). */
module Models {
  import opened Wrappers
  import opened Json
  import opened Strings

  const WidthPlaceholder: string := "%{width}"
  const HeightPlaceholder: string := "%{height}"
  const ThumbnailKey: string := "thumbnail_url"

  /** A thumbnail URL in which neither size placeholder is left. */
  predicate NoPlaceholders(s: string)
  {
    !Occurs(s, WidthPlaceholder) && !Occurs(s, HeightPlaceholder)
  }

  /** A value that survives the cleaning filter: not None and not the empty string. */
  predicate Kept(v: Value)
  {
    v != Null && v != Str("")
  }

  /** The video record. `mongoId` is the `_id` alias, filled by a random ObjectId when
      the caller gives none; timestamps are the instants their ISO strings denote. */
  datatype Video = Video(
    mongoId: Option<string>,
    id: string,
    streamId: Option<string>,
    userId: string,
    userLogin: Option<string>,
    userName: string,
    title: string,
    description: Option<string>,
    createdAt: int,
    publishedAt: int,
    url: string,
    thumbnailUrl: string,
    viewable: string,
    viewCount: int,
    language: string,
    videoType: string,
    duration: string,
    mutedSegments: Option<seq<Record>>,
    gameId: Option<string>,
    tagIds: Option<seq<string>>)
  {
    /** Every field except the ObjectId, None values included, under its Python name. */
    function Fields(): (d: Record)
      ensures "_id" !in d && "mongo_id" !in d
      ensures "id" in d && d["id"] == Str(id)
      ensures ThumbnailKey in d && d[ThumbnailKey] == Str(thumbnailUrl)
      ensures "view_count" in d && d["view_count"] == Int(viewCount)
      ensures "game_id" in d && d["game_id"] == OptStr(gameId)
    {
      map[
        "stream_id" := OptStr(streamId),
        "user_id" := Str(userId),
        "user_login" := OptStr(userLogin),
        "user_name" := Str(userName),
        "title" := Str(title),
        "description" := OptStr(description),
        "created_at" := Time(createdAt),
        "published_at" := Time(publishedAt),
        "url" := Str(url),
        "viewable" := Str(viewable),
        "language" := Str(language),
        "type" := Str(videoType),
        "duration" := Str(duration),
        "muted_segments" := match mutedSegments
          case None => Null
          case Some(segs) => List(seq(|segs|, i requires 0 <= i < |segs| => Dict(segs[i]))),
        "tag_ids" := match tagIds
          case None => Null
          case Some(tags) => List(seq(|tags|, i requires 0 <= i < |tags| => Str(tags[i]))),
        "game_id" := OptStr(gameId),
        "view_count" := Int(viewCount),
        ThumbnailKey := Str(thumbnailUrl),
        "id" := Str(id)
      ]
    }

    /** Pydantic's `dict(by_alias=True)`: the ObjectId under "_id". */
    function ByAlias(): (d: Record)
      ensures "_id" in d && d["_id"] == OptStr(mongoId) && "mongo_id" !in d
      ensures "id" in d && d["id"] == Str(id)
      ensures ThumbnailKey in d && d[ThumbnailKey] == Str(thumbnailUrl)
      ensures "view_count" in d && d["view_count"] == Int(viewCount)
      ensures "game_id" in d && d["game_id"] == OptStr(gameId)
    {
      Fields()["_id" := OptStr(mongoId)]
    }

    /** Pydantic's `dict()`: the ObjectId under its field name "mongo_id". */
    function ByName(): (d: Record)
      ensures "mongo_id" in d && d["mongo_id"] == OptStr(mongoId) && "_id" !in d
      ensures "id" in d && d["id"] == Str(id)
      ensures ThumbnailKey in d && d[ThumbnailKey] == Str(thumbnailUrl)
    {
      Fields()["mongo_id" := OptStr(mongoId)]
    }

    /** `to_mongo_dict`: the document written by the batch upsert. */
    function ToMongoDict(): (r: Record)
      ensures "_id" !in r && "mongo_id" !in r
      ensures "view_count" in r && r["view_count"] == Int(viewCount)
      ensures ("id" in r <==> id != "") && ("id" in r ==> r["id"] == Str(id))
      ensures ("game_id" in r <==> Given(gameId)) && ("game_id" in r ==> r["game_id"] == OptStr(gameId))
      ensures ThumbnailKey in r <==> thumbnailUrl != ""
      ensures ThumbnailKey in r ==> r[ThumbnailKey].Str? && NoPlaceholders(r[ThumbnailKey].s)
    {
      CleanDict(ByAlias())
    }
  }

  /** Both placeholders replaced by the fixed sizes, width first. */
  function FillDims(s: string): (r: string)
    ensures NoPlaceholders(r)
    ensures |s| > 0 ==> |r| > 0
  {
    var w := Replace(s, WidthPlaceholder, "1920");
    var r := Replace(w, HeightPlaceholder, "1080");
    ReplaceRemoves(s, WidthPlaceholder, "1920");
    ReplaceRemoves(w, HeightPlaceholder, "1080");
    ReplaceKeepsAbsent(w, HeightPlaceholder, "1080", WidthPlaceholder);
    ReplaceNonEmpty(s, WidthPlaceholder, "1920");
    ReplaceNonEmpty(w, HeightPlaceholder, "1080");
    r
  }

  /** The dictionary comprehension: `_id`, None and "" entries dropped. */
  function DropEmpty(d: Record): (r: Record)
    ensures "_id" !in r
    ensures forall k | k in r :: Kept(r[k]) && k in d && r[k] == d[k]
  {
    map k | k in d && k != "_id" && Kept(d[k]) :: d[k]
  }

  /** The conditional rewrite of `thumbnail_url` when it contains "%{". */
  function ResolveThumbnail(m: Record): (r: Record)
    ensures r.Keys == m.Keys
    ensures forall k | k in m && k != ThumbnailKey :: r[k] == m[k]
    ensures forall k | k in m && Kept(m[k]) :: Kept(r[k])
  {
    if ThumbnailKey in m && m[ThumbnailKey].Str? && Occurs(m[ThumbnailKey].s, "%{") then
      m[ThumbnailKey := Str(FillDims(m[ThumbnailKey].s))]
    else
      m
  }

  /** A placeholder occurrence contains "%{". */
  lemma PlaceholderHasMarker(s: string)
    ensures !Occurs(s, "%{") ==> NoPlaceholders(s)
  {
    if Occurs(s, WidthPlaceholder) {
      var i :| 0 <= i <= |s| - |WidthPlaceholder| && At(s, WidthPlaceholder, i);
      assert s[i..i + 2] == s[i..i + |WidthPlaceholder|][..2];
      assert At(s, "%{", i);
    }
    if Occurs(s, HeightPlaceholder) {
      var i :| 0 <= i <= |s| - |HeightPlaceholder| && At(s, HeightPlaceholder, i);
      assert s[i..i + 2] == s[i..i + |HeightPlaceholder|][..2];
      assert At(s, "%{", i);
    }
  }

  /** The cleaning done by `to_mongo_dict` on the aliased dictionary `d`. */
  function CleanDict(d: Record): (r: Record)
    ensures "_id" !in r
    ensures forall k | k in r :: Kept(r[k])
    ensures forall k :: k in r <==> k in d && k != "_id" && Kept(d[k])
    ensures forall k | k in r && k != ThumbnailKey :: r[k] == d[k]
    ensures ThumbnailKey in r && r[ThumbnailKey].Str? ==> NoPlaceholders(r[ThumbnailKey].s)
  {
    var m := DropEmpty(d);
    var r := ResolveThumbnail(m);
    var t := if ThumbnailKey in m && m[ThumbnailKey].Str? then m[ThumbnailKey].s else "";
    PlaceholderHasMarker(t);
    r
  }

  /** A URL without placeholders is left as it is. */
  lemma FillDimsNoop(s: string)
    requires NoPlaceholders(s)
    ensures FillDims(s) == s
  {
    ReplaceIdentity(s, WidthPlaceholder, "1920");
    ReplaceIdentity(s, HeightPlaceholder, "1080");
  }

  /** Filling the sizes a second time changes nothing. */
  lemma FillDimsIdempotent(s: string)
    ensures FillDims(FillDims(s)) == FillDims(s)
  {
    FillDimsNoop(FillDims(s));
  }

  /** The width pass steps over a height placeholder. */
  lemma WidthPassSkipsHeight(suffix: string)
    requires '%' !in suffix
    ensures Replace(HeightPlaceholder + suffix, WidthPlaceholder, "1920") == HeightPlaceholder + suffix
  {
    var W, H := WidthPlaceholder, HeightPlaceholder;
    var t := H + suffix;
    assert t[..|W|][2] == 'h' != W[2];
    assert t[1..] == H[1..] + suffix;
    assert '%' !in H[1..];
    ReplaceSkipsPrefix(H[1..] + suffix, "", W, "1920");
    assert H[1..] + suffix + "" == H[1..] + suffix;
    assert [t[0]] + t[1..] == t;
  }

  /** A URL of the form `prefix%{width}mid%{height}suffix` gets both sizes filled in. */
  lemma FillDimsTemplate(prefix: string, mid: string, suffix: string)
    requires '%' !in prefix && '%' !in mid && '%' !in suffix
    ensures FillDims(prefix + WidthPlaceholder + mid + HeightPlaceholder + suffix)
         == prefix + "1920" + mid + "1080" + suffix
  {
    var W, H := WidthPlaceholder, HeightPlaceholder;
    // width pass
    var rest := mid + (H + suffix);
    var w := prefix + "1920" + mid + H + suffix;
    calc {
      Replace(prefix + W + mid + H + suffix, W, "1920");
      { assert prefix + W + mid + H + suffix == prefix + (W + rest); }
      Replace(prefix + (W + rest), W, "1920");
      { ReplaceSkipsPrefix(prefix, W + rest, W, "1920"); }
      prefix + Replace(W + rest, W, "1920");
      { ReplaceAtStart(rest, W, "1920"); }
      prefix + ("1920" + Replace(rest, W, "1920"));
      { ReplaceSkipsPrefix(mid, H + suffix, W, "1920"); }
      prefix + ("1920" + (mid + Replace(H + suffix, W, "1920")));
      { WidthPassSkipsHeight(suffix); }
      prefix + ("1920" + (mid + (H + suffix)));
      w;
    }
    // height pass
    var head := prefix + "1920" + mid;
    calc {
      Replace(w, H, "1080");
      { assert w == head + (H + suffix); }
      Replace(head + (H + suffix), H, "1080");
      { ReplaceSkipsPrefix(head, H + suffix, H, "1080"); }
      head + Replace(H + suffix, H, "1080");
      { ReplaceAtStart(suffix, H, "1080"); }
      head + ("1080" + Replace(suffix, H, "1080"));
      { ReplaceSkipsPrefix(suffix, "", H, "1080"); assert suffix + "" == suffix; }
      head + ("1080" + suffix);
      prefix + "1920" + mid + "1080" + suffix;
    }
  }

  /** After a rewrite the URL has no placeholder left, so rewriting again is a no-op:
      this is why the second rewrite in the batch upsert changes nothing. */
  lemma ResolveThumbnailIdempotent(m: Record)
    ensures ResolveThumbnail(ResolveThumbnail(m)) == ResolveThumbnail(m)
  {
    var r := ResolveThumbnail(m);
    if ThumbnailKey in r && r[ThumbnailKey].Str? && Occurs(r[ThumbnailKey].s, "%{") {
      var s := r[ThumbnailKey].s;
      if ThumbnailKey in m && m[ThumbnailKey].Str? && Occurs(m[ThumbnailKey].s, "%{") {
        FillDimsIdempotent(m[ThumbnailKey].s);
      } else {
        PlaceholderHasMarker(s);
        FillDimsNoop(s);
      }
      assert r[ThumbnailKey := Str(FillDims(s))] == r;
    }
  }

  /** A cleaned document has no thumbnail rewrite left to do. */
  lemma ResolveThumbnailAfterClean(d: Record)
    ensures ResolveThumbnail(CleanDict(d)) == CleanDict(d)
  {
    ResolveThumbnailIdempotent(DropEmpty(d));
  }

  /** Cleaning a cleaned document changes nothing. */
  lemma CleanDictIdempotent(d: Record)
    ensures CleanDict(CleanDict(d)) == CleanDict(d)
  {
    var c := CleanDict(d);
    assert DropEmpty(c) == c;
    calc {
      CleanDict(c);
      ResolveThumbnail(c);
      ResolveThumbnail(ResolveThumbnail(DropEmpty(d)));
      { ResolveThumbnailIdempotent(DropEmpty(d)); }
      c;
    }
  }

  /** A templated thumbnail URL is stored with both sizes filled in. */
  lemma ThumbnailResolved(d: Record)
    requires ThumbnailKey in d && d[ThumbnailKey].Str? && Occurs(d[ThumbnailKey].s, "%{")
    ensures ThumbnailKey in CleanDict(d)
    ensures CleanDict(d)[ThumbnailKey] == Str(FillDims(d[ThumbnailKey].s))
  {
  }

  /** A thumbnail URL without "%{" is stored as it is. */
  lemma ThumbnailCopied(d: Record)
    requires ThumbnailKey in d && Kept(d[ThumbnailKey])
    requires !(d[ThumbnailKey].Str? && Occurs(d[ThumbnailKey].s, "%{"))
    ensures ThumbnailKey in CleanDict(d) && CleanDict(d)[ThumbnailKey] == d[ThumbnailKey]
  {
  }
}
