/** convex/videos.ts: the mutations and queries on the `videos` table. */
module Videos {
  import opened Wrappers
  import opened Tables
  import opened Schema
  import opened Store

  /*
   * Pure transitions: what each patch mutation does to the store. The pipelines are
   * specified with these; the methods further down perform them on a `Db`.
   */

  /** `t` is `s` with the video `id` replaced by `v`; every other document and table is unchanged. */
  ghost predicate PatchedTo(s: State, t: State, id: Id, v: Video) {
    t == s.(videos := t.videos) && Replaced(s.videos, t.videos, id, v)
  }

  lemma SetIsPatch(s: State, id: Id, v: Video)
    requires WellFormed(s) && Has(s.videos, id)
    ensures PatchedTo(s, s.(videos := Set(s.videos, id, v)), id, v)
    ensures WellFormed(s.(videos := Set(s.videos, id, v)))
  {
    SetReplaces(s.videos, id, v, s.nextId);
  }

  /** `updateVideoStatus`: patches `status` and `updatedAt`. */
  function PatchStatus(s: State, id: Id, status: string, updatedAt: Timestamp): (r: Result<State>)
    ensures r.Ok? <==> Has(s.videos, id)
    ensures r.Ok? && WellFormed(s) ==>
      WellFormed(r.value) && PatchedTo(s, r.value, id, Get(s.videos, id).value.(status := status, updatedAt := updatedAt))
  {
    match Get(s.videos, id)
    case None => Err(NONEXISTENT)
    case Some(v) =>
      var v' := v.(status := status, updatedAt := updatedAt);
      SetIsPatchIfWellFormed(s, id, v');
      Ok(s.(videos := Set(s.videos, id, v')))
  }

  /** `updateVideo`: patches the generated data together with `status` and `updatedAt`. */
  function PatchData(s: State, id: Id, audioUrl: string, captions: seq<Word>, images: seq<string>,
                     title: string, status: string, updatedAt: Timestamp): (r: Result<State>)
    ensures r.Ok? <==> Has(s.videos, id)
    ensures r.Ok? && WellFormed(s) ==>
      WellFormed(r.value) && PatchedTo(s, r.value, id, Get(s.videos, id).value.(audioUrl := Some(audioUrl),
        captions := Some(captions), images := Some(images), title := Some(title), status := status, updatedAt := updatedAt))
  {
    match Get(s.videos, id)
    case None => Err(NONEXISTENT)
    case Some(v) =>
      var v' := v.(audioUrl := Some(audioUrl), captions := Some(captions), images := Some(images),
                   title := Some(title), status := status, updatedAt := updatedAt);
      SetIsPatchIfWellFormed(s, id, v');
      Ok(s.(videos := Set(s.videos, id, v')))
  }

  /** `updateVideoUrl`: patches `videoUrl` only. */
  function PatchVideoUrl(s: State, id: Id, videoUrl: string): (r: Result<State>)
    ensures r.Ok? <==> Has(s.videos, id)
    ensures r.Ok? && WellFormed(s) ==>
      WellFormed(r.value) && PatchedTo(s, r.value, id, Get(s.videos, id).value.(videoUrl := Some(videoUrl)))
  {
    match Get(s.videos, id)
    case None => Err(NONEXISTENT)
    case Some(v) =>
      SetIsPatchIfWellFormed(s, id, v.(videoUrl := Some(videoUrl)));
      Ok(s.(videos := Set(s.videos, id, v.(videoUrl := Some(videoUrl)))))
  }

  /** `updateVideoRenderStatus`: patches `rendering` only. */
  function PatchRendering(s: State, id: Id, rendering: string): (r: Result<State>)
    ensures r.Ok? <==> Has(s.videos, id)
    ensures r.Ok? && WellFormed(s) ==>
      WellFormed(r.value) && PatchedTo(s, r.value, id, Get(s.videos, id).value.(rendering := Some(rendering)))
  {
    match Get(s.videos, id)
    case None => Err(NONEXISTENT)
    case Some(v) =>
      SetIsPatchIfWellFormed(s, id, v.(rendering := Some(rendering)));
      Ok(s.(videos := Set(s.videos, id, v.(rendering := Some(rendering)))))
  }

  lemma SetIsPatchIfWellFormed(s: State, id: Id, v: Video)
    requires Has(s.videos, id)
    ensures WellFormed(s) ==>
      PatchedTo(s, s.(videos := Set(s.videos, id, v)), id, v) && WellFormed(s.(videos := Set(s.videos, id, v)))
  {
    if WellFormed(s) { SetIsPatch(s, id, v); }
  }

  /*
   * getVideos: the caller's videos, newest first, each projected to the fields the list shows.
   */

  datatype VideoSummary = VideoSummary(id: Id, title: Option<string>, updatedAt: Timestamp, image: Option<string>, status: string)

  /** `v.images?.[0] ?? null`: the first image, or null when there is none. */
  function FirstImage(v: Video): Option<string> {
    if v.images.Some? && |v.images.value| > 0 then Some(v.images.value[0]) else None
  }

  function Summary(d: Doc<Video>): VideoSummary {
    VideoSummary(d.id, d.value.title, d.value.updatedAt, FirstImage(d.value), d.value.status)
  }

  function Summaries(docs: seq<Doc<Video>>): (r: seq<VideoSummary>)
    ensures |r| == |docs| && forall i :: 0 <= i < |docs| ==> r[i] == Summary(docs[i])
  {
    seq(|docs|, i requires 0 <= i < |docs| => Summary(docs[i]))
  }

  function Owned(videos: seq<Doc<Video>>, subject: string): seq<Doc<Video>> {
    Filter(videos, (v: Video) => v.clerkId == subject)
  }

  /**
   * `getVideos`. `time` is `new Date(_).getTime()`, the instant a date string denotes; the
   * comparator orders by it, most recent first.
   */
  function GetVideos(s: State, identity: Option<Identity>, time: string -> int): (r: Result<seq<VideoSummary>>)
    ensures r.Err? <==> identity.None?
    ensures r.Err? ==> r.msg == UNAUTHORIZED
    ensures r.Ok? ==> Listing(s.videos, identity.value.subject, time, r.value)
  {
    if identity.None? then Err(UNAUTHORIZED)
    else
      ListingOfSorted(s.videos, identity.value.subject, time);
      Ok(Summaries(SortDesc(Owned(s.videos, identity.value.subject), UpdatedAt(time))))
  }

  function UpdatedAt(time: string -> int): Video -> int {
    (v: Video) => time(v.updatedAt)
  }

  /**
   * `out` lists the videos of `subject` most recently updated first: one summary per owned video,
   * and nothing else.
   */
  ghost predicate Listing(videos: seq<Doc<Video>>, subject: string, time: string -> int, out: seq<VideoSummary>) {
    && |out| == |Owned(videos, subject)|
    && (forall i, j :: 0 <= i < j < |out| ==> time(out[i].updatedAt) >= time(out[j].updatedAt))
    && (forall i :: 0 <= i < |out| ==> SummaryOfOwned(videos, subject, out[i]))
    && (forall k :: 0 <= k < |videos| && videos[k].value.clerkId == subject ==> Summary(videos[k]) in out)
  }

  /** `x` is the summary of one of the videos that `subject` owns. */
  ghost predicate SummaryOfOwned(videos: seq<Doc<Video>>, subject: string, x: VideoSummary) {
    exists k :: 0 <= k < |videos| && videos[k].value.clerkId == subject && x == Summary(videos[k])
  }

  lemma ListingOfSorted(videos: seq<Doc<Video>>, subject: string, time: string -> int)
    ensures Listing(videos, subject, time, Summaries(SortDesc(Owned(videos, subject), UpdatedAt(time))))
  {
    var mine := Owned(videos, subject);
    var sorted := SortDesc(mine, UpdatedAt(time));
    assert |sorted| == |mine| by { assert |multiset(sorted)| == |multiset(mine)|; }
    SummariesFromOwned(videos, subject, mine, sorted);
    OwnedAreSummarised(videos, subject, mine, sorted);
    SummariesNewestFirst(sorted, time);
  }

  lemma SummariesFromOwned(videos: seq<Doc<Video>>, subject: string, mine: seq<Doc<Video>>, sorted: seq<Doc<Video>>)
    requires mine == Owned(videos, subject) && multiset(sorted) == multiset(mine)
    ensures forall i :: 0 <= i < |sorted| ==> SummaryOfOwned(videos, subject, Summaries(sorted)[i])
  {
    var out := Summaries(sorted);
    forall i | 0 <= i < |sorted| ensures SummaryOfOwned(videos, subject, out[i]) {
      assert sorted[i] in multiset(mine);
      var j :| 0 <= j < |mine| && mine[j] == sorted[i];
      assert mine[j].value.clerkId == subject;
      var k :| 0 <= k < |videos| && videos[k] == sorted[i];
      assert out[i] == Summary(videos[k]);
    }
  }

  lemma OwnedAreSummarised(videos: seq<Doc<Video>>, subject: string, mine: seq<Doc<Video>>, sorted: seq<Doc<Video>>)
    requires mine == Owned(videos, subject) && multiset(sorted) == multiset(mine)
    ensures forall k :: 0 <= k < |videos| && videos[k].value.clerkId == subject ==> Summary(videos[k]) in Summaries(sorted)
  {
    var out := Summaries(sorted);
    forall k | 0 <= k < |videos| && videos[k].value.clerkId == subject
      ensures Summary(videos[k]) in out
    {
      assert videos[k] in mine;
      assert videos[k] in multiset(sorted);
      var i :| 0 <= i < |sorted| && sorted[i] == videos[k];
      assert out[i] == Summary(videos[k]);
    }
  }

  lemma SummariesNewestFirst(sorted: seq<Doc<Video>>, time: string -> int)
    requires Descending(sorted, UpdatedAt(time))
    ensures forall i, j :: 0 <= i < j < |sorted| ==> time(Summaries(sorted)[i].updatedAt) >= time(Summaries(sorted)[j].updatedAt)
  {
    var out := Summaries(sorted);
    forall i, j | 0 <= i < j < |out| ensures time(out[i].updatedAt) >= time(out[j].updatedAt) {
      assert UpdatedAt(time)(sorted[i].value) >= UpdatedAt(time)(sorted[j].value);
    }
  }

  /*
   * The mutations, on the store object.
   */

  /** `createVideo`: inserts exactly the given fields (the generated ones absent) and returns the new id. */
  method CreateVideo(db: Db, clerkId: string, script: string, topic: string, captionStyle: CaptionStyle,
                     videoStyle: string, voice: string, status: string, title: Option<string>,
                     updatedAt: Timestamp, rendering: string) returns (id: Id)
    requires db.Valid()
    modifies db
    ensures db.Valid()
    ensures id == old(db.nextId) && !Has(old(db.videos), id)
    ensures db.Snapshot() == old(db.Snapshot()).(
      videos := old(db.videos) + [Doc(id, Video(clerkId, title, voice, script, captionStyle, topic, videoStyle,
                                                None, None, None, status, updatedAt, None, Some(rendering)))],
      nextId := id + 1)
  {
    id := db.nextId;
    var v := Video(clerkId, title, voice, script, captionStyle, topic, videoStyle, None, None, None, status, updatedAt, None, Some(rendering));
    AppendKeepsIncreasing(db.videos, id, v);
    db.videos := db.videos + [Doc(id, v)];
    db.nextId := id + 1;
  }

  /** `updateVideoStatus`. */
  method UpdateVideoStatus(db: Db, videoId: Id, status: string, updatedAt: Timestamp) returns (r: Result<()>)
    requires db.Valid()
    modifies db
    ensures db.Valid()
    ensures var p := PatchStatus(old(db.Snapshot()), videoId, status, updatedAt);
      r.Ok? == p.Ok? && db.Snapshot() == if p.Ok? then p.value else old(db.Snapshot())
  {
    var v := Get(db.videos, videoId);
    if v.None? {
      return Err(NONEXISTENT);
    }
    SetIsPatch(db.Snapshot(), videoId, v.value.(status := status, updatedAt := updatedAt));
    db.videos := Set(db.videos, videoId, v.value.(status := status, updatedAt := updatedAt));
    r := Ok(());
  }

  /** `updateVideo`. */
  method UpdateVideo(db: Db, videoId: Id, audioUrl: string, captions: seq<Word>, images: seq<string>,
                     status: string, updatedAt: Timestamp, title: string) returns (r: Result<()>)
    requires db.Valid()
    modifies db
    ensures db.Valid()
    ensures var p := PatchData(old(db.Snapshot()), videoId, audioUrl, captions, images, title, status, updatedAt);
      r.Ok? == p.Ok? && db.Snapshot() == if p.Ok? then p.value else old(db.Snapshot())
  {
    var v := Get(db.videos, videoId);
    if v.None? {
      return Err(NONEXISTENT);
    }
    var v' := v.value.(audioUrl := Some(audioUrl), captions := Some(captions), images := Some(images),
                       title := Some(title), status := status, updatedAt := updatedAt);
    SetIsPatch(db.Snapshot(), videoId, v');
    db.videos := Set(db.videos, videoId, v');
    r := Ok(());
  }

  /** `updateVideoUrl`. */
  method UpdateVideoUrl(db: Db, videoId: Id, videoUrl: string) returns (r: Result<()>)
    requires db.Valid()
    modifies db
    ensures db.Valid()
    ensures var p := PatchVideoUrl(old(db.Snapshot()), videoId, videoUrl);
      r.Ok? == p.Ok? && db.Snapshot() == if p.Ok? then p.value else old(db.Snapshot())
  {
    var v := Get(db.videos, videoId);
    if v.None? {
      return Err(NONEXISTENT);
    }
    SetIsPatch(db.Snapshot(), videoId, v.value.(videoUrl := Some(videoUrl)));
    db.videos := Set(db.videos, videoId, v.value.(videoUrl := Some(videoUrl)));
    r := Ok(());
  }

  /** `updateVideoRenderStatus`. */
  method UpdateVideoRenderStatus(db: Db, videoId: Id, rendering: string) returns (r: Result<()>)
    requires db.Valid()
    modifies db
    ensures db.Valid()
    ensures var p := PatchRendering(old(db.Snapshot()), videoId, rendering);
      r.Ok? == p.Ok? && db.Snapshot() == if p.Ok? then p.value else old(db.Snapshot())
  {
    var v := Get(db.videos, videoId);
    if v.None? {
      return Err(NONEXISTENT);
    }
    SetIsPatch(db.Snapshot(), videoId, v.value.(rendering := Some(rendering)));
    db.videos := Set(db.videos, videoId, v.value.(rendering := Some(rendering)));
    r := Ok(());
  }

  /** `deleteVideo`: removes the document; deleting an id that is not there fails. */
  method DeleteVideo(db: Db, videoId: Id) returns (r: Result<()>)
    requires db.Valid()
    modifies db
    ensures db.Valid()
    ensures r.Ok? <==> Has(old(db.videos), videoId)
    ensures !Has(db.videos, videoId)
    ensures forall j :: j != videoId ==> Get(db.videos, j) == Get(old(db.videos), j)
    ensures db.Snapshot() == old(db.Snapshot()).(videos := Remove(old(db.videos), videoId))
  {
    GetAfterRemove(db.videos, videoId, videoId);
    forall j ensures Get(Remove(db.videos, videoId), j) == if j == videoId then None else Get(db.videos, j) {
      GetAfterRemove(db.videos, videoId, j);
    }
    RemoveKeepsIncreasing(db.videos, videoId, db.nextId);
    if !Has(db.videos, videoId) {
      db.videos := Remove(db.videos, videoId);
      return Err("Delete on nonexistent document ID");
    }
    db.videos := Remove(db.videos, videoId);
    r := Ok(());
  }
}
