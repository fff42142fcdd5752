/** The read side of backend/app/services/mongo_services.py: `get_videos` and
    `get_videos_from_db`, as functions of the collection's documents in natural
    (insertion) order. `find`, `count_documents`, `sort`, `skip` and `limit` are
    pymongo's; their meaning is written out here. */
module Queries {
  import opened Wrappers
  import opened Json
  import opened Store

  const Day: int := 86400
  const Week: int := 7 * Day
  const Month: int := 30 * Day

  /** The projection `{"_id": 0}`. */
  function Project(r: Record): (p: Record)
    ensures "_id" !in p
    ensures forall k | k in r && k != "_id" :: k in p && p[k] == r[k]
    ensures forall k | k in p :: k in r
  {
    r - {"_id"}
  }

  /** `get_videos`: every document, in natural order, without `_id`. */
  function GetVideos(docs: seq<Record>): (vs: seq<Record>)
    ensures |vs| == |docs|
    ensures forall i | 0 <= i < |vs| :: vs[i] == Project(docs[i])
  {
    seq(|docs|, i requires 0 <= i < |docs| => Project(docs[i]))
  }

  /** The equality filter of `find_one({"id": id})`. */
  predicate HasId(r: Record, id: string)
  {
    "id" in r && r["id"] == Str(id)
  }

  /** `find_one({"id": id}, {"_id": 0})`: the first document in natural order with that id. */
  function FindOne(docs: seq<Record>, id: string): (r: Option<Record>)
    ensures r.None? <==> forall i | 0 <= i < |docs| :: !HasId(docs[i], id)
    ensures r.Some? ==> exists i | 0 <= i < |docs| ::
              HasId(docs[i], id) && r.value == Project(docs[i]) &&
              forall j | 0 <= j < i :: !HasId(docs[j], id)
    decreases |docs|
  {
    if docs == [] then None
    else if HasId(docs[0], id) then Some(Project(docs[0]))
    else
      var rest := FindOne(docs[1..], id);
      assert forall i | 1 <= i < |docs| :: docs[1..][i - 1] == docs[i];
      rest
  }

  /** On the stored collection, the lookup finds exactly the document upserted under
      that id: the unique index leaves no other candidate. */
  lemma FindOneStored(c: Collection, id: string)
    requires Valid(c)
    ensures id in c.docs ==> FindOne(Snapshot(c), id) == Some(Project(c.docs[id]))
    ensures id !in c.docs ==> FindOne(Snapshot(c), id) == None
  {
    var s := Snapshot(c);
    if id in c.docs {
      var r := FindOne(s, id);
      var k :| 0 <= k < |c.order| && c.order[k] == id;
      assert HasId(s[k], id);
      var i :| 0 <= i < |s| && HasId(s[i], id) && r.value == Project(s[i]);
      assert c.docs[c.order[i]]["id"] == Str(c.order[i]);
    } else {
      forall i | 0 <= i < |s|
        ensures !HasId(s[i], id)
      {
        assert s[i]["id"] == Str(c.order[i]);
      }
    }
  }

  /** The AND filter built from the query parameters. */
  datatype Filter = Filter(gameId: Option<string>, language: Option<string>, createdSince: Option<int>)

  /** How far back each `period` reaches, in seconds; `None` for any other value. */
  function PeriodWindow(period: string): (w: Option<int>)
    ensures period == "day" ==> w == Some(Day)
    ensures period == "week" ==> w == Some(Week)
    ensures period == "month" ==> w == Some(Month)
    ensures w.None? <==> period !in {"day", "week", "month"}
  {
    if period == "day" then Some(Day)
    else if period == "week" then Some(Week)
    else if period == "month" then Some(Month)
    else None
  }

  /** `filter_query`: a truthy `game_id` and `language` are equality constraints, and a
      truthy `period` with a known window sets the `created_at` lower bound. */
  function BuildFilter(gameId: Option<string>, language: Option<string>, period: Option<string>, now: int): (f: Filter)
    ensures f.gameId.Some? <==> Given(gameId)
    ensures f.gameId.Some? ==> f.gameId == gameId
    ensures f.language.Some? <==> Given(language)
    ensures f.language.Some? ==> f.language == language
    ensures f.createdSince.Some? <==> Given(period) && PeriodWindow(period.value).Some?
    ensures f.createdSince.Some? ==> f.createdSince.value == now - PeriodWindow(period.value).value
  {
    Filter(
      if Given(gameId) then gameId else None,
      if Given(language) then language else None,
      if Given(period) && PeriodWindow(period.value).Some? then Some(now - PeriodWindow(period.value).value) else None)
  }

  /** A document satisfies every constraint of the filter. A timestamp bound only
      matches timestamps (`$gte` on a string compares strings only). */
  predicate Matches(r: Record, f: Filter): (m: bool)
    ensures f.gameId.None? && f.language.None? && f.createdSince.None? ==> m
  {
    && (f.gameId.Some? ==> "game_id" in r && r["game_id"] == Str(f.gameId.value))
    && (f.language.Some? ==> "language" in r && r["language"] == Str(f.language.value))
    && (f.createdSince.Some? ==> "created_at" in r && r["created_at"].Time? && r["created_at"].t >= f.createdSince.value)
  }

  /** The documents that match, in natural order. */
  function FilterDocs(docs: seq<Record>, f: Filter): (r: seq<Record>)
    ensures |r| <= |docs|
    ensures forall i | 0 <= i < |r| :: Matches(r[i], f)
    ensures multiset(r) <= multiset(docs)
    decreases |docs|
  {
    if docs == [] then []
    else
      var last := docs[|docs| - 1];
      var init := docs[..|docs| - 1];
      assert docs == init + [last];
      var pre := FilterDocs(init, f);
      if Matches(last, f) then pre + [last] else pre
  }

  /** Filtering keeps exactly the matching documents, each as often as it is stored. */
  lemma {:induction false} FilterDocsCount(docs: seq<Record>, f: Filter, r: Record)
    ensures multiset(FilterDocs(docs, f))[r] == if Matches(r, f) then multiset(docs)[r] else 0
    decreases |docs|
  {
    if docs != [] {
      var last := docs[|docs| - 1];
      var init := docs[..|docs| - 1];
      assert docs == init + [last];
      FilterDocsCount(init, f, r);
    }
  }
  /** Filtering one document keeps it exactly when it matches. */
  lemma FilterDocsSingle(d: Record, f: Filter)
    ensures FilterDocs([d], f) == if Matches(d, f) then [d] else []
  {
    assert [d][..0] == [];
  }

  /** Filtering works document by document and keeps the natural order: the matches
      of a concatenation are the matches of the first part followed by those of the second. */
  lemma {:induction false} FilterDocsAppend(a: seq<Record>, b: seq<Record>, f: Filter)
    ensures FilterDocs(a + b, f) == FilterDocs(a, f) + FilterDocs(b, f)
    decreases |b|
  {
    if b == [] {
      assert a + b == a;
    } else {
      var init := b[..|b| - 1];
      var last := b[|b| - 1];
      assert (a + b)[..|a + b| - 1] == a + init;
      assert (a + b)[|a + b| - 1] == last;
      FilterDocsAppend(a, init, f);
    }
  }


  /** The sort key list chosen by `sort`; every field is sorted descending. */
  function SortKeys(sort: Option<string>): (keys: seq<string>)
    ensures sort == Some("time") ==> keys == ["created_at"]
    ensures sort == Some("views") ==> keys == ["view_count"]
    ensures sort == Some("trending") ==> keys == ["view_count", "created_at"]
    ensures keys == [] <==> !(sort.Some? && sort.value in {"time", "views", "trending"})
  {
    match sort
    case Some("time") => ["created_at"]
    case Some("views") => ["view_count"]
    case Some("trending") => ["view_count", "created_at"]
    case _ => []
  }

  /** Where a value sorts: a missing field or null lowest, then numbers, then strings
      (a timestamp by its instant), then lists and dictionaries. */
  datatype SortKey = SortKey(rank: int, n: int)

  function KeyOf(r: Record, field: string): (k: SortKey)
    ensures field in r && r[field].Int? ==> k == SortKey(1, r[field].n)
    ensures field in r && r[field].Time? ==> k == SortKey(2, r[field].t)
    ensures field !in r ==> k == SortKey(0, 0)
  {
    if field !in r then SortKey(0, 0)
    else match r[field]
      case Null => SortKey(0, 0)
      case Int(n) => SortKey(1, n)
      case Time(t) => SortKey(2, t)
      case Str(_) => SortKey(2, 0)
      case List(_) => SortKey(3, 0)
      case Dict(_) => SortKey(3, 0)
  }

  predicate Greater(x: SortKey, y: SortKey)
  {
    x.rank > y.rank || (x.rank == y.rank && x.n > y.n)
  }

  /** `a` may come before `b` when sorting descending on `keys`: the first key on which
      they differ is greater in `a`, or they agree on all keys. */
  predicate Before(a: Record, b: Record, keys: seq<string>)
    decreases |keys|
  {
    if keys == [] then true
    else
      var x := KeyOf(a, keys[0]);
      var y := KeyOf(b, keys[0]);
      if x == y then Before(a, b, keys[1..]) else Greater(x, y)
  }

  lemma {:induction false} BeforeTotal(a: Record, b: Record, keys: seq<string>)
    ensures Before(a, b, keys) || Before(b, a, keys)
    decreases |keys|
  {
    if keys != [] {
      BeforeTotal(a, b, keys[1..]);
    }
  }

  lemma {:induction false} BeforeTransitive(a: Record, b: Record, c: Record, keys: seq<string>)
    requires Before(a, b, keys) && Before(b, c, keys)
    ensures Before(a, c, keys)
    decreases |keys|
  {
    if keys != [] {
      var x, y, z := KeyOf(a, keys[0]), KeyOf(b, keys[0]), KeyOf(c, keys[0]);
      if x == y && y == z {
        BeforeTransitive(a, b, c, keys[1..]);
      }
    }
  }

  /** Sorted descending on `keys`. */
  predicate Sorted(s: seq<Record>, keys: seq<string>)
  {
    forall i, j | 0 <= i < j < |s| :: Before(s[i], s[j], keys)
  }

  /** Insert `x` after every element it may follow, scanning from the end. */
  function Insert(s: seq<Record>, x: Record, keys: seq<string>): (r: seq<Record>)
    ensures multiset(r) == multiset(s) + multiset{x}
    decreases |s|
  {
    if s == [] then [x]
    else
      var last := s[|s| - 1];
      var init := s[..|s| - 1];
      assert s == init + [last];
      if Before(last, x, keys) then s + [x] else Insert(init, x, keys) + [last]
  }

  /** `cursor.sort(...)`: a stable insertion sort stands for the server's sort. */
  function SortDocs(s: seq<Record>, keys: seq<string>): (r: seq<Record>)
    ensures multiset(r) == multiset(s)
    decreases |s|
  {
    if s == [] then []
    else
      var init := s[..|s| - 1];
      assert s == init + [s[|s| - 1]];
      Insert(SortDocs(init, keys), s[|s| - 1], keys)
  }

  lemma {:induction false} InsertSorted(s: seq<Record>, x: Record, keys: seq<string>)
    requires Sorted(s, keys)
    ensures Sorted(Insert(s, x, keys), keys)
    decreases |s|
  {
    if s != [] {
      var last := s[|s| - 1];
      var init := s[..|s| - 1];
      if Before(last, x, keys) {
        var r := s + [x];
        forall i, j | 0 <= i < j < |r|
          ensures Before(r[i], r[j], keys)
        {
          if j == |s| && i < |s| - 1 {
            BeforeTransitive(s[i], last, x, keys);
          }
        }
      } else {
        var t := Insert(init, x, keys);
        InsertSorted(init, x, keys);
        BeforeTotal(last, x, keys);
        var r := t + [last];
        forall i, j | 0 <= i < j < |r|
          ensures Before(r[i], r[j], keys)
        {
          if j == |t| {
            assert r[i] == t[i];
            assert t[i] in multiset(t);
            if t[i] != x {
              assert t[i] in multiset(init);
              var k :| 0 <= k < |init| && init[k] == t[i];
              assert s[k] == init[k];
            }
          }
        }
      }
    }
  }

  /** The sort orders the documents descending on the keys. */
  lemma {:induction false} SortDocsSorted(s: seq<Record>, keys: seq<string>)
    ensures Sorted(SortDocs(s, keys), keys)
    decreases |s|
  {
    if s != [] {
      SortDocsSorted(s[..|s| - 1], keys);
      InsertSorted(SortDocs(s[..|s| - 1], keys), s[|s| - 1], keys);
    }
  }

  /** With no key every order is sorted, and the sort keeps the natural order. */
  lemma {:induction false} SortDocsNoKeys(s: seq<Record>)
    ensures SortDocs(s, []) == s
    decreases |s|
  {
    if s != [] {
      SortDocsNoKeys(s[..|s| - 1]);
      assert s == s[..|s| - 1] + [s[|s| - 1]];
    }
  }

  /** `trending` sorts by views, and breaks a tie in views with the newer video first. */
  lemma TrendingTieBreak(a: Record, b: Record)
    requires "view_count" in a && "view_count" in b && a["view_count"] == b["view_count"]
    requires "created_at" in a && a["created_at"].Time? && "created_at" in b && b["created_at"].Time?
    requires a["created_at"].t > b["created_at"].t
    ensures Before(a, b, SortKeys(Some("trending")))
    ensures !Before(b, a, SortKeys(Some("trending")))
  {
    var keys := SortKeys(Some("trending"));
    assert keys[1..] == ["created_at"];
    assert keys[1..][1..] == [];
  }

  /** `views` puts the more viewed video strictly first. */
  lemma ViewsOrder(a: Record, b: Record)
    requires "view_count" in a && a["view_count"].Int? && "view_count" in b && b["view_count"].Int?
    requires a["view_count"].n > b["view_count"].n
    ensures Before(a, b, SortKeys(Some("views"))) && !Before(b, a, SortKeys(Some("views")))
  {
  }

  /** `cursor.skip(skip).limit(limit)`: a limit of 0 means none, and a negative limit
      counts as its absolute value. */
  function Slice(s: seq<Record>, skip: nat, limit: int): (r: seq<Record>)
    ensures skip >= |s| ==> r == []
    ensures |r| <= |s|
    ensures limit != 0 ==> |r| <= if limit < 0 then -limit else limit
    ensures forall i | 0 <= i < |r| :: skip + i < |s| && r[i] == s[skip + i]
    ensures skip <= |s| && limit == 0 ==> |r| == |s| - skip
    ensures skip <= |s| && limit != 0 ==> |r| == Min(|s| - skip, if limit < 0 then -limit else limit)
  {
    var start := if skip < |s| then skip else |s|;
    var n := if limit < 0 then -limit else limit;
    var end := if limit == 0 || start + n > |s| then |s| else start + n;
    s[start..end]
  }

  function Min(a: int, b: int): int
  {
    if a < b then a else b
  }

  /** Consecutive pages of the same size, read with the skip of the first plus its
      size, join into one page of twice the size. */
  lemma SlicePages(s: seq<Record>, skip: nat, limit: nat)
    requires limit > 0
    ensures Slice(s, skip, limit) + Slice(s, skip + limit, limit) == Slice(s, skip, 2 * limit)
  {
    var a, b, c := Slice(s, skip, limit), Slice(s, skip + limit, limit), Slice(s, skip, 2 * limit);
    if skip + limit <= |s| {
      assert |a| == limit;
      assert |a + b| == |c|;
      forall i | 0 <= i < |c|
        ensures (a + b)[i] == c[i]
      {
        if i >= limit {
          assert (a + b)[i] == b[i - limit];
        }
      }
    } else {
      assert b == [];
      assert |a| == |c|;
    }
  }

  /** The matching documents in the order the cursor yields them: sorted when a sort
      key list was chosen, natural order otherwise. */
  function Ordered(matching: seq<Record>, keys: seq<string>): (r: seq<Record>)
    ensures multiset(r) == multiset(matching)
    ensures |r| == |matching|
    ensures Sorted(r, keys)
    ensures keys == [] ==> r == matching
  {
    SortDocsSorted(matching, keys);
    assert |multiset(SortDocs(matching, keys))| == |multiset(matching)|;
    if keys != [] then SortDocs(matching, keys) else matching
  }

  /** What `get_videos_from_db` returns: one document (or none) for an id lookup, or a
      page with the count of all matches. */
  datatype Reply = SingleVideo(video: Option<Record>) | VideoPage(videos: seq<Record>, totalCount: nat)

  /** `cursor.skip` raises ValueError for a negative skip. */
  datatype QueryError = NegativeSkip(skip: int)

  /** The cursor's documents from position `skip` on, limited and projected. */
  function Projected(o: seq<Record>, skip: nat, limit: int): (vs: seq<Record>)
    ensures skip >= |o| ==> vs == []
    ensures skip <= |o| && limit == 0 ==> |vs| == |o| - skip
    ensures skip <= |o| && limit != 0 ==> |vs| == Min(|o| - skip, if limit < 0 then -limit else limit)
    ensures forall i | 0 <= i < |vs| :: skip + i < |o| && vs[i] == Project(o[skip + i])
  {
    GetVideos(Slice(o, skip, limit))
  }

  /** `get_videos_from_db` over the documents in natural order, `now` being the clock. */
  function GetVideosFromDb(docs: seq<Record>, videoId: Option<string>, gameId: Option<string>,
                           language: Option<string>, sort: Option<string>, period: Option<string>,
                           skip: int, limit: int, now: int): (r: Result<Reply, QueryError>)
    ensures Given(videoId) ==> r == Success(SingleVideo(FindOne(docs, videoId.value)))
    ensures !Given(videoId) && skip < 0 ==> r == Failure(NegativeSkip(skip))
    ensures !Given(videoId) && skip >= 0 ==>
              var matching := FilterDocs(docs, BuildFilter(gameId, language, period, now));
              r == Success(VideoPage(Projected(Ordered(matching, SortKeys(sort)), skip, limit), |matching|))
  {
    if Given(videoId) then Success(SingleVideo(FindOne(docs, videoId.value)))
    else
      var matching := FilterDocs(docs, BuildFilter(gameId, language, period, now));
      if skip < 0 then Failure(NegativeSkip(skip))
      else Success(VideoPage(Projected(Ordered(matching, SortKeys(sort)), skip, limit), |matching|))
  }

  /** A page of a sorted sequence of matching documents stays sorted and matching
      once projected. */
  lemma ProjectedPage(s: seq<Record>, f: Filter, keys: seq<string>, skip: nat, limit: int)
    requires "_id" !in keys
    requires forall i | 0 <= i < |s| :: Matches(s[i], f)
    requires Sorted(s, keys)
    ensures var vs := Projected(s, skip, limit);
      && (forall i | 0 <= i < |vs| :: Matches(vs[i], f) && "_id" !in vs[i])
      && Sorted(vs, keys)
  {
    var vs := Projected(s, skip, limit);
    forall i | 0 <= i < |vs|
      ensures Matches(vs[i], f)
    {
      assert Matches(s[skip + i], f);
    }
    forall i, j | 0 <= i < j < |vs|
      ensures Before(vs[i], vs[j], keys)
    {
      assert Before(s[skip + i], s[skip + j], keys);
      ProjectKeepsBefore(s[skip + i], s[skip + j], keys);
    }
  }

  /** Sorting keeps every document matching. */
  lemma OrderedMatches(matching: seq<Record>, keys: seq<string>, f: Filter)
    requires forall i | 0 <= i < |matching| :: Matches(matching[i], f)
    ensures forall i | 0 <= i < |Ordered(matching, keys)| :: Matches(Ordered(matching, keys)[i], f)
  {
    var ordered := Ordered(matching, keys);
    forall i | 0 <= i < |ordered|
      ensures Matches(ordered[i], f)
    {
      assert ordered[i] in multiset(matching);
    }
  }

  /** The page of a query: at most `limit` (when non-zero) and at most all of the
      matches; all of them after `skip` for limit 0; every document matching, without
      `_id`, in sorted order; and exactly the ordered matches from position `skip` on. */
  lemma PageOf(matching: seq<Record>, f: Filter, keys: seq<string>, skip: nat, limit: int)
    requires "_id" !in keys
    requires forall i | 0 <= i < |matching| :: Matches(matching[i], f)
    ensures var o := Ordered(matching, keys);
      var vs := Projected(o, skip, limit);
      && |vs| <= |matching|
      && (limit != 0 ==> |vs| <= if limit < 0 then -limit else limit)
      && (skip < |matching| && limit == 0 ==> |vs| == |matching| - skip)
      && (forall i | 0 <= i < |vs| :: Matches(vs[i], f) && "_id" !in vs[i])
      && Sorted(vs, keys)
      && (skip >= |o| ==> vs == [])
      && (skip <= |o| && limit != 0 ==> |vs| == Min(|o| - skip, if limit < 0 then -limit else limit))
      && (forall i | 0 <= i < |vs| :: skip + i < |o| && vs[i] == Project(o[skip + i]))
  {
    var o := Ordered(matching, keys);
    OrderedMatches(matching, keys, f);
    ProjectedPage(o, f, keys, skip, limit);
  }

  /** A page holds at most `limit` (when non-zero) documents and at most `total_count`;
      `total_count` counts all matches whatever the paging; each document matches the
      filter, lacks `_id`, and the page is sorted on the chosen keys. The page is the
      ordered matches from position `skip` on, as many as the limit allows and all of
      them for limit 0, each projected; a skip past the last match gives an empty page. */
  lemma PageProperties(docs: seq<Record>, gameId: Option<string>, language: Option<string>,
                       sort: Option<string>, period: Option<string>, skip: nat, limit: int, now: int)
    ensures var r := GetVideosFromDb(docs, None, gameId, language, sort, period, skip, limit, now);
      var f := BuildFilter(gameId, language, period, now);
      && r.Success? && r.value.VideoPage?
      && r.value.totalCount == |FilterDocs(docs, f)|
      && |r.value.videos| <= r.value.totalCount
      && (limit != 0 ==> |r.value.videos| <= if limit < 0 then -limit else limit)
      && (skip < r.value.totalCount && limit == 0 ==> |r.value.videos| == r.value.totalCount - skip)
      && (forall i | 0 <= i < |r.value.videos| :: Matches(r.value.videos[i], f) && "_id" !in r.value.videos[i])
      && Sorted(r.value.videos, SortKeys(sort))
      && var o := Ordered(FilterDocs(docs, f), SortKeys(sort));
         && (skip >= |o| ==> r.value.videos == [])
         && (skip <= |o| && limit != 0 ==> |r.value.videos| == Min(|o| - skip, if limit < 0 then -limit else limit))
         && (forall i | 0 <= i < |r.value.videos| :: skip + i < |o| && r.value.videos[i] == Project(o[skip + i]))
  {
    var f := BuildFilter(gameId, language, period, now);
    PageOf(FilterDocs(docs, f), f, SortKeys(sort), skip, limit);
  }

  /** Sorting ignores `_id` (no sort key is `_id`). */
  lemma {:induction false} ProjectKeepsBefore(a: Record, b: Record, keys: seq<string>)
    requires "_id" !in keys
    requires Before(a, b, keys)
    ensures Before(Project(a), Project(b), keys)
    decreases |keys|
  {
    if keys != [] {
      assert KeyOf(Project(a), keys[0]) == KeyOf(a, keys[0]);
      assert KeyOf(Project(b), keys[0]) == KeyOf(b, keys[0]);
      if KeyOf(a, keys[0]) == KeyOf(b, keys[0]) {
        ProjectKeepsBefore(a, b, keys[1..]);
      }
    }
  }

  /** An id lookup ignores every filter and all paging. */
  lemma ByIdIgnoresRest(docs: seq<Record>, videoId: string,
                        g1: Option<string>, l1: Option<string>, s1: Option<string>, p1: Option<string>, k1: int, n1: int, t1: int,
                        g2: Option<string>, l2: Option<string>, s2: Option<string>, p2: Option<string>, k2: int, n2: int, t2: int)
    requires videoId != ""
    ensures GetVideosFromDb(docs, Some(videoId), g1, l1, s1, p1, k1, n1, t1)
         == GetVideosFromDb(docs, Some(videoId), g2, l2, s2, p2, k2, n2, t2)
  {
  }

  /** `get_videos` is the query with no parameter set and no limit. */
  lemma GetVideosIsUnfilteredQuery(docs: seq<Record>, sort: Option<string>, now: int)
    requires !(sort.Some? && sort.value in {"time", "views", "trending"})
    ensures GetVideosFromDb(docs, None, None, None, sort, None, 0, 0, now) == Success(VideoPage(GetVideos(docs), |docs|))
  {
    var f := BuildFilter(None, None, None, now);
    FilterAll(docs, f);
    assert Slice(docs, 0, 0) == docs;
  }

  lemma {:induction false} FilterAll(docs: seq<Record>, f: Filter)
    requires f.gameId.None? && f.language.None? && f.createdSince.None?
    ensures FilterDocs(docs, f) == docs
    decreases |docs|
  {
    if docs != [] {
      FilterAll(docs[..|docs| - 1], f);
      assert docs == docs[..|docs| - 1] + [docs[|docs| - 1]];
    }
  }

  /** With `period=week` a video is kept exactly when created at most 7 days before now:
      one created 8 days ago is excluded and one created 3 days ago is kept. */
  lemma WeekWindow(r: Record, now: int)
    requires "created_at" in r && r["created_at"].Time?
    ensures Matches(r, BuildFilter(None, None, Some("week"), now)) <==> r["created_at"].t >= now - 7 * 86400
    ensures r["created_at"].t == now - 8 * 86400 ==> !Matches(r, BuildFilter(None, None, Some("week"), now))
    ensures r["created_at"].t == now - 3 * 86400 ==> Matches(r, BuildFilter(None, None, Some("week"), now))
  {
  }

  /** An unknown period value imposes no bound at all. */
  lemma UnknownPeriodUnbounded(period: string, now: int)
    requires period !in {"day", "week", "month"}
    ensures BuildFilter(None, None, Some(period), now) == Filter(None, None, None)
  {
  }
}
