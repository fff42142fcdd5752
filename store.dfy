/** The MongoDB `videos` collection and the two upsert operations of
    backend/app/services/mongo_services.py. The unique index on `id`
    (backend/app/db/mongo.py) makes the collection a map from `id` to document;
    `order` records insertion order, which the model takes as the order an
    unsorted `find` returns. */
module Store {
  import opened Wrappers
  import opened Json
  import opened Strings
  import opened Models

  /** The collection's contents: documents by `id`, and the ids in insertion order. */
  datatype Collection = Collection(docs: map<string, Record>, order: seq<string>)

  /** Every id listed once, every listed id stored, and each document's `id` field
      holding its key: the unique index. */
  ghost predicate Valid(c: Collection)
  {
    && (forall i | 0 <= i < |c.order| :: c.order[i] in c.docs)
    && (forall k | k in c.docs :: k in c.order)
    && (forall i, j | 0 <= i < j < |c.order| :: c.order[i] != c.order[j])
    && (forall k | k in c.docs :: "id" in c.docs[k] && c.docs[k]["id"] == Str(k))
  }

  /** The documents in insertion order: what an unsorted `find` walks through. */
  function Snapshot(c: Collection): (s: seq<Record>)
    requires Valid(c)
    ensures |s| == |c.order|
    ensures forall i | 0 <= i < |s| :: s[i] == c.docs[c.order[i]]
  {
    seq(|c.order|, i requires 0 <= i < |c.order| => c.docs[c.order[i]])
  }

  /** The unique index: no two documents of a snapshot carry the same `id`. */
  lemma SnapshotIdsUnique(c: Collection, i: int, j: int)
    requires Valid(c)
    requires 0 <= i < |c.order| && 0 <= j < |c.order|
    requires Snapshot(c)[i]["id"] == Snapshot(c)[j]["id"]
    ensures i == j
  {
  }

  /** The document an upsert starts from: the stored one, or a new one holding the
      filter's equality field `id`. */
  function Base(c: Collection, id: string): (b: Record)
    ensures (id !in c.docs || Valid(c)) ==> "id" in b && b["id"] == Str(id)
  {
    if id in c.docs then c.docs[id] else map["id" := Str(id)]
  }

  /** `update_one({"id": id}, {"$set": fields}, upsert=True)`. */
  function Upsert(c: Collection, id: string, fields: Record): (r: Collection)
    ensures r.docs.Keys == c.docs.Keys + {id}
    ensures forall k | k in c.docs && k != id :: r.docs[k] == c.docs[k]
    ensures id in c.docs ==> r.order == c.order
    ensures id !in c.docs ==> r.order == c.order + [id]
  {
    Collection(c.docs[id := Base(c, id) + fields], if id in c.docs then c.order else c.order + [id])
  }

  /** `$set` merge: every written field takes its new value, every other field of the
      starting document is kept, and no other field appears. */
  lemma UpsertMerge(c: Collection, id: string, fields: Record)
    ensures var d := Upsert(c, id, fields).docs[id];
      && (forall f | f in fields :: f in d && d[f] == fields[f])
      && (forall f | f in Base(c, id) && f !in fields :: f in d && d[f] == Base(c, id)[f])
      && (forall f | f in d :: f in fields || f in Base(c, id))
  {
  }

  /** An upsert keeps the unique index when `$set` does not move the `id` field. */
  lemma UpsertValid(c: Collection, id: string, fields: Record)
    requires Valid(c)
    requires "id" in fields ==> fields["id"] == Str(id)
    ensures Valid(Upsert(c, id, fields))
  {
    var r := Upsert(c, id, fields);
    if id !in c.docs {
      forall i, j | 0 <= i < j < |r.order|
        ensures r.order[i] != r.order[j]
      {
        if j == |c.order| {
          assert r.order[i] == c.order[i] && c.order[i] in c.docs;
        }
      }
    }
  }

  /** One `$set` upsert of a batch: the `id` of the filter and the fields written. */
  datatype Write = Write(id: string, fields: Record)

  /** The write leaves the `id` field equal to the filter's id. */
  predicate Consistent(w: Write)
  {
    "id" in w.fields ==> w.fields["id"] == Str(w.id)
  }

  /** The writes of `save_multiple_videos`: each video's cleaned document under its id. */
  function BatchWrites(videos: seq<Video>): (ws: seq<Write>)
    ensures |ws| == |videos|
    ensures forall i | 0 <= i < |ws| :: Consistent(ws[i])
    decreases |videos|
  {
    if videos == [] then []
    else
      var last := videos[|videos| - 1];
      var pre := BatchWrites(videos[..|videos| - 1]);
      pre + [Write(last.id, last.ToMongoDict())]
  }

  /** The write for video `i` is its cleaned document under its id. */
  lemma {:induction false} BatchWritesAt(videos: seq<Video>, i: int)
    requires 0 <= i < |videos|
    ensures BatchWrites(videos)[i] == Write(videos[i].id, videos[i].ToMongoDict())
    decreases |videos|
  {
    var pre := videos[..|videos| - 1];
    if i < |videos| - 1 {
      BatchWritesAt(pre, i);
      assert pre[i] == videos[i];
    }
  }

  /** The writes of one more video extend the writes of those before it. */
  lemma BatchWritesSnoc(videos: seq<Video>, i: int)
    requires 0 <= i < |videos|
    ensures BatchWrites(videos[..i + 1]) == BatchWrites(videos[..i]) + [Write(videos[i].id, videos[i].ToMongoDict())]
  {
    assert videos[..i + 1][..i] == videos[..i];
  }

  /** The batch upsert: write `i` is skipped when it raises (`i in failed`), and every
      other write is applied, in order. */
  function SaveAll(c: Collection, ws: seq<Write>, failed: set<int>): (r: Collection)
    ensures c.docs.Keys <= r.docs.Keys
    ensures c.order <= r.order
    decreases |ws|
  {
    if ws == [] then c
    else
      var prev := SaveAll(c, ws[..|ws| - 1], failed);
      var last := |ws| - 1;
      if last in failed then prev
      else Upsert(prev, ws[last].id, ws[last].fields)
  }

  /** One more write of the batch. */
  lemma SaveAllStep(c: Collection, ws: seq<Write>, failed: set<int>, i: int)
    requires 0 <= i < |ws|
    ensures i in failed ==> SaveAll(c, ws[..i + 1], failed) == SaveAll(c, ws[..i], failed)
    ensures i !in failed ==>
              SaveAll(c, ws[..i + 1], failed) == Upsert(SaveAll(c, ws[..i], failed), ws[i].id, ws[i].fields)
  {
    assert ws[..i + 1][..i] == ws[..i];
  }

  /** Some write to id `k` succeeded. */
  predicate Touched(ws: seq<Write>, failed: set<int>, k: string)
  {
    exists i | 0 <= i < |ws| :: i !in failed && ws[i].id == k
  }

  /** What the successful writes to id `k` set, later writes winning. */
  function Writes(ws: seq<Write>, failed: set<int>, k: string): (w: Record)
    ensures !Touched(ws, failed, k) ==> w == map[]
    decreases |ws|
  {
    if ws == [] then map[]
    else
      var last := |ws| - 1;
      var pre := Writes(ws[..last], failed, k);
      assert forall i | 0 <= i < last :: ws[..last][i] == ws[i];
      if last !in failed && ws[last].id == k then pre + ws[last].fields else pre
  }

  /** A batch of consistent writes keeps the unique index. */
  lemma {:induction false} SaveAllValid(c: Collection, ws: seq<Write>, failed: set<int>)
    requires Valid(c)
    requires forall i | 0 <= i < |ws| :: Consistent(ws[i])
    ensures Valid(SaveAll(c, ws, failed))
    decreases |ws|
  {
    if ws != [] {
      var last := |ws| - 1;
      assert forall i | 0 <= i < last :: ws[..last][i] == ws[i];
      SaveAllValid(c, ws[..last], failed);
      if last !in failed {
        UpsertValid(SaveAll(c, ws[..last], failed), ws[last].id, ws[last].fields);
      }
    }
  }

  /** What one upsert does to the document under `k`. */
  lemma UpsertAt(c: Collection, id: string, fields: Record, k: string)
    ensures k in Upsert(c, id, fields).docs <==> k in c.docs || k == id
    ensures k == id ==> Upsert(c, id, fields).docs[k] == Base(c, k) + fields
    ensures k != id && k in c.docs ==> Upsert(c, id, fields).docs[k] == c.docs[k]
  {
  }

  /** A batch touches `k` when its prefix does or its last write does. */
  lemma TouchedStep(ws: seq<Write>, failed: set<int>, k: string)
    requires ws != []
    ensures Touched(ws, failed, k) <==>
              Touched(ws[..|ws| - 1], failed, k) || (|ws| - 1 !in failed && ws[|ws| - 1].id == k)
  {
    var pre := ws[..|ws| - 1];
    if Touched(pre, failed, k) {
      var i :| 0 <= i < |pre| && i !in failed && pre[i].id == k;
      assert ws[i] == pre[i];
    }
    if Touched(ws, failed, k) {
      var i :| 0 <= i < |ws| && i !in failed && ws[i].id == k;
      if i < |ws| - 1 {
        assert pre[i] == ws[i];
      }
    }
  }

  /** The last write to `k` merges onto what the earlier writes left. */
  lemma MergeLast(c: Collection, prev: Collection, k: string, w: Record, fields: Record)
    requires k in prev.docs ==> prev.docs[k] == Base(c, k) + w
    requires k !in prev.docs ==> k !in c.docs && w == map[]
    ensures Base(prev, k) + fields == Base(c, k) + (w + fields)
  {
    if k !in prev.docs {
      assert w + fields == fields;
    }
  }

  /** `$set` merge over a batch: each stored document is its starting document
      overridden by the batch's successful writes to it, in batch order. */
  lemma {:induction false} SaveAllAt(c: Collection, ws: seq<Write>, failed: set<int>, k: string)
    ensures k in SaveAll(c, ws, failed).docs <==> k in c.docs || Touched(ws, failed, k)
    ensures k in SaveAll(c, ws, failed).docs ==>
              SaveAll(c, ws, failed).docs[k] == Base(c, k) + Writes(ws, failed, k)
    decreases |ws|
  {
    if ws != [] {
      var last := |ws| - 1;
      var pre := ws[..last];
      var prev := SaveAll(c, pre, failed);
      var w := Writes(pre, failed, k);
      SaveAllAt(c, pre, failed, k);
      TouchedStep(ws, failed, k);
      if last !in failed {
        var fields := ws[last].fields;
        assert SaveAll(c, ws, failed) == Upsert(prev, ws[last].id, fields);
        UpsertAt(prev, ws[last].id, fields, k);
        if ws[last].id == k {
          assert Writes(ws, failed, k) == w + fields;
          MergeLast(c, prev, k, w, fields);
        } else {
          assert Writes(ws, failed, k) == w;
        }
      } else {
        assert SaveAll(c, ws, failed) == prev;
        assert Writes(ws, failed, k) == w;
      }
    }
  }

  /** A batch whose written ids are all stored already keeps the insertion order. */
  lemma {:induction false} SaveAllKeepsOrder(c: Collection, ws: seq<Write>, failed: set<int>)
    requires forall i | 0 <= i < |ws| && i !in failed :: ws[i].id in c.docs
    ensures SaveAll(c, ws, failed).order == c.order
    decreases |ws|
  {
    if ws != [] {
      var last := |ws| - 1;
      var pre := ws[..last];
      assert forall i | 0 <= i < last :: pre[i] == ws[i];
      SaveAllKeepsOrder(c, pre, failed);
      if last !in failed {
        SaveAllAt(c, pre, failed, ws[last].id);
      }
    }
  }

  /** Saving the same batch twice (with the same writes failing) gives the same
      collection as saving it once. */
  lemma SaveAllIdempotent(c: Collection, ws: seq<Write>, failed: set<int>)
    ensures SaveAll(SaveAll(c, ws, failed), ws, failed) == SaveAll(c, ws, failed)
  {
    var once := SaveAll(c, ws, failed);
    var twice := SaveAll(once, ws, failed);
    forall i | 0 <= i < |ws| && i !in failed
      ensures ws[i].id in once.docs
    {
      SaveAllAt(c, ws, failed, ws[i].id);
    }
    SaveAllKeepsOrder(once, ws, failed);
    forall k
      ensures k in twice.docs <==> k in once.docs
      ensures k in twice.docs ==> twice.docs[k] == once.docs[k]
    {
      SaveAllAt(c, ws, failed, k);
      SaveAllAt(once, ws, failed, k);
      if k in twice.docs {
        var w := Writes(ws, failed, k);
        assert Base(c, k) + w + w == Base(c, k) + w;
      }
    }
    assert twice.docs == once.docs;
  }

  /** Failures are isolated: a write that succeeds has all its fields stored unless a
      later successful write to the same id overrides them, whatever fails before or
      after it. */
  lemma {:induction false} SaveAllWritesItem(c: Collection, ws: seq<Write>, failed: set<int>, j: int)
    requires 0 <= j < |ws| && j !in failed
    requires forall i | j < i < |ws| && i !in failed :: ws[i].id != ws[j].id
    ensures ws[j].id in SaveAll(c, ws, failed).docs
    ensures forall f | f in ws[j].fields ::
              f in SaveAll(c, ws, failed).docs[ws[j].id] &&
              SaveAll(c, ws, failed).docs[ws[j].id][f] == ws[j].fields[f]
    decreases |ws|
  {
    var last := |ws| - 1;
    var pre := ws[..last];
    var prev := SaveAll(c, pre, failed);
    var id := ws[j].id;
    if j < last {
      assert forall i | 0 <= i < last :: pre[i] == ws[i];
      SaveAllWritesItem(c, pre, failed, j);
      if last !in failed {
        assert SaveAll(c, ws, failed) == Upsert(prev, ws[last].id, ws[last].fields);
        UpsertAt(prev, ws[last].id, ws[last].fields, id);
      } else {
        assert SaveAll(c, ws, failed) == prev;
      }
    } else {
      assert SaveAll(c, ws, failed) == Upsert(prev, id, ws[j].fields);
      UpsertMerge(prev, id, ws[j].fields);
    }
  }

  /** `save_video` writes pydantic's `dict()`: the ObjectId under "mongo_id", None
      values stored as nulls, the thumbnail URL as given. */
  lemma SaveVideoDocument(c: Collection, v: Video)
    ensures var d := Upsert(c, v.id, v.ByName()).docs[v.id];
      && "mongo_id" in d && d["mongo_id"] == OptStr(v.mongoId)
      && "description" in d && d["description"] == OptStr(v.description)
      && ThumbnailKey in d && d[ThumbnailKey] == Str(v.thumbnailUrl)
      && "id" in d && d["id"] == Str(v.id)
  {
    assert v.ByName()["description"] == OptStr(v.description);
  }

  /** The document the batch upsert writes for one video: `to_mongo_dict()` followed by
      the loop's own second thumbnail rewrite, which leaves it unchanged. */
  method CleanData(video: Video) returns (clean: Record)
    ensures clean == video.ToMongoDict()
  {
    clean := video.ToMongoDict();
    if ThumbnailKey in clean && clean[ThumbnailKey].Str? && Occurs(clean[ThumbnailKey].s, "%{") {
      FillDimsNoop(clean[ThumbnailKey].s);
      clean := clean[ThumbnailKey := Str(FillDims(clean[ThumbnailKey].s))];
    }
  }

  /** The `videos` collection as the services module sees it. */
  class VideoCollection {
    var docs: map<string, Record>
    var order: seq<string>

    /** The collection's contents as a value. */
    function State(): Collection
      reads this
    {
      Collection(docs, order)
    }

    /** The unique index on `id` holds. */
    ghost predicate Invariant()
      reads this
    {
      Valid(State())
    }

    /** An empty collection with the index created. */
    constructor ()
      ensures State() == Collection(map[], [])
      ensures Invariant()
    {
      docs := map[];
      order := [];
    }

    /** `update_one({"id": id}, {"$set": fields}, upsert=True)`. */
    method UpdateOne(id: string, fields: Record)
      modifies this
      ensures State() == Upsert(old(State()), id, fields)
      ensures old(Invariant()) && Consistent(Write(id, fields)) ==> Invariant()
    {
      ghost var before := State();
      var base := if id in docs then docs[id] else map["id" := Str(id)];
      if id !in docs {
        order := order + [id];
      }
      docs := docs[id := base + fields];
      if Valid(before) && Consistent(Write(id, fields)) {
        UpsertValid(before, id, fields);
      }
    }

    /** `save_video`: one upsert of the uncleaned field-name dictionary. */
    method SaveVideo(video: Video)
      modifies this
      ensures State() == Upsert(old(State()), video.id, video.ByName())
      ensures old(Invariant()) ==> Invariant()
    {
      UpdateOne(video.id, video.ByName());
    }

    /** The loop body for video `i`: clean it and upsert it, unless its write raises. */
    method SaveCleaned(video: Video, i: int, failed: set<int>, ghost start: Collection, ghost done: seq<Write>)
      requires |done| == i && State() == SaveAll(start, done, failed)
      modifies this
      ensures State() == SaveAll(start, done + [Write(video.id, video.ToMongoDict())], failed)
    {
      var clean := CleanData(video);
      ghost var w := Write(video.id, clean);
      SaveAllStep(start, done + [w], failed, i);
      assert (done + [w])[..i] == done;
      if i !in failed {
        UpdateOne(video.id, clean);
      }
    }

    /** One more video of the batch saved. */
    method SaveNext(videos: seq<Video>, i: int, failed: set<int>, ghost start: Collection)
      requires 0 <= i < |videos| && State() == SaveAll(start, BatchWrites(videos[..i]), failed)
      modifies this
      ensures State() == SaveAll(start, BatchWrites(videos[..i + 1]), failed)
    {
      SaveCleaned(videos[i], i, failed, start, BatchWrites(videos[..i]));
      BatchWritesSnoc(videos, i);
    }

    /** `save_multiple_videos`: each video cleaned, its thumbnail rewritten a second
        time, and upserted; the upserts whose index is in `failed` raise, are logged
        and skipped. */
    method SaveMultipleVideos(videos: seq<Video>, failed: set<int>)
      modifies this
      ensures State() == SaveAll(old(State()), BatchWrites(videos), failed)
      ensures old(Invariant()) ==> Invariant()
    {
      ghost var start := State();
      var i := 0;
      assert videos[..0] == [];
      while i < |videos|
        invariant 0 <= i <= |videos|
        invariant State() == SaveAll(start, BatchWrites(videos[..i]), failed)
      {
        SaveNext(videos, i, failed, start);
        i := i + 1;
      }
      assert videos[..|videos|] == videos;
      if Valid(start) {
        SaveAllValid(start, BatchWrites(videos), failed);
      }
    }
  }
}
