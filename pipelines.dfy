/**
 * inngest/functions.ts: the four Inngest functions. Each is given as the flow of its `try`
 * block, a run that adds what its `catch` does, and a method that performs the function on the
 * store and the run and is proved to do exactly what the run says. Cancellation is not an
 * exception: once the engine has seen the cancel event no step starts and the `catch` never runs.
 */
module Pipelines {
  import opened Wrappers
  import opened Tables
  import opened Schema
  import opened Store
  import opened LibHelpers
  import opened Collaborators
  import opened Events
  import opened Steps
  import opened InngestHelpers
  import Videos
  import Schedules

  const GENERATE_TITLE := "generate-title"
  const UPDATE_DB_WITH_DATA := "update-db-with-data"
  const WAIT_FOR_SCHEDULED_TIME := "wait-for-scheduled-time"

  /** How a function run ends: it returned a value, its `catch` threw, or it was cancelled. */
  datatype Ending = Returned(value: bool) | Threw | Cancelled

  /** A whole function run: where it leaves the ledger, the store and the effects, and how it ended. */
  datatype Run = Run(ctx: Ctx, ending: Ending)

  /** The ending of a function whose last piece left by `exit`, returning `value` when it completed. */
  function EndingOf(exit: Exit<()>, value: bool): Ending {
    match exit
    case Next(_) => Returned(value)
    case Raise => Threw
    case Halt => Cancelled
  }

  function Finish(f: Flow<()>, value: bool): Run {
    Run(f.ctx, EndingOf(f.exit, value))
  }

  /*
   * createVideo
   */

  /** The values of a list of optional strings, when none of them is missing. */
  function Present(xs: seq<Option<string>>): (r: Option<seq<string>>)
    ensures r.Some? <==> forall i :: 0 <= i < |xs| ==> xs[i].Some?
    ensures r.Some? ==> |r.value| == |xs| && forall i :: 0 <= i < |xs| ==> xs[i] == Some(r.value[i])
    decreases |xs|
  {
    if xs == [] then Some([])
    else match xs[0]
      case None => None
      case Some(x) =>
        match Present(xs[1..])
        case None => None
        case Some(rest) => Some([x] + rest)
  }

  /**
   * One empty url among the generated images leaves an undefined entry in the list, which the
   * validator rejects.
   */
  lemma EmptyUrlRejected(prompts: seq<Option<string>>, generate: Option<string> -> Result<Option<string>>, i: nat)
    requires i < |prompts| && generate(prompts[i]) == Ok(Some(""))
    requires GenerateAll(prompts, generate).Ok?
    ensures Present(GenerateAll(prompts, generate).value).None?
  {
    assert GenerateAll(prompts, generate).value[i] == None;
  }

  /**
   * The body of "update-db-with-data": the `updateVideo` mutation with the earlier steps'
   * results and status COMPLETED. Undefined captions, image urls or title have become null in
   * the step ledger, and the mutation's validators reject null.
   */
  function VideoDataAttempt(s: State, videoId: Id, audioUrl: string, captions: Option<seq<Word>>,
                            images: seq<Option<string>>, title: Option<string>, now: Timestamp): (a: Attempt<()>)
    ensures a.result.Ok? <==> captions.Some? && title.Some? && Present(images).Some? && Has(s.videos, videoId)
    ensures a.result.Ok? ==>
      a.effects == [VideoData(videoId, audioUrl, captions.value, Present(images).value, title.value, COMPLETED)]
    ensures a.result.Err? ==> a.state == s && a.effects == []
    ensures a.state.schedulers == s.schedulers && a.state.imageGenerations == s.imageGenerations && a.state.users == s.users
    ensures a.result.Ok? && WellFormed(s) ==> WellFormed(a.state) && Videos.PatchedTo(s, a.state, videoId,
      Get(s.videos, videoId).value.(audioUrl := Some(audioUrl), captions := captions, images := Present(images),
                                   title := title, status := COMPLETED, updatedAt := now))
  {
    if captions.None? || title.None? || Present(images).None? then Attempt(s, [], Err(INVALID))
    else WriteAttempt(s, Videos.PatchData(s, videoId, audioUrl, captions.value, Present(images).value, title.value, COMPLETED, now),
                      VideoData(videoId, audioUrl, captions.value, Present(images).value, title.value, COMPLETED))
  }

  function VideoDataFlow(c: Ctx, cancel: Option<nat>, p: Providers, videoId: Id, audioUrl: string,
                         captions: Option<seq<Word>>, images: seq<Option<string>>, title: Option<string>): Flow<()> {
    RunStep(c, cancel, UPDATE_DB_WITH_DATA, VideoDataAttempt(c.state, videoId, audioUrl, captions, images, title, p.clock(|c.log|)))
  }

  /** The `try` block of createVideo: mark the video PROCESSING, read it, then generate its data. */
  function CreateVideoFlow(c: Ctx, cancel: Option<nat>, p: Providers, t: Templates, videoId: Id): Flow<()> {
    var started :- UpdateVideoStatusFlow(c, cancel, p, videoId, PROCESSING);
    var fetched :- GetVideoDataFlow(started.ctx, cancel, videoId);
    var video :- Found(fetched.ctx, fetched.value);
    GenerateFlow(video.ctx, cancel, p, t, videoId, video.value.value)
  }

  /** From the script on: the audio and its captions, then the images and title and the one write of all of them. */
  function GenerateFlow(c: Ctx, cancel: Option<nat>, p: Providers, t: Templates, videoId: Id, video: Video): Flow<()> {
    var audio :- CallFlow(c, cancel, GENERATE_AUDIO_URL, AudioUrl(p, video.script, video.voice));
    var captions :- CaptionsFlow(audio.ctx, cancel, p, audio.value);
    DescribeFlow(captions.ctx, cancel, p, t, videoId, video, audio.value, captions.value)
  }

  function DescribeFlow(c: Ctx, cancel: Option<nat>, p: Providers, t: Templates, videoId: Id, video: Video,
                        audioUrl: string, captions: Option<seq<Word>>): Flow<()> {
    var images :- GenerateImagesFlow(c, cancel, p, t, video.script, video.videoStyle);
    var title :- CallFlow(images.ctx, cancel, GENERATE_TITLE, TitleGenerator(t.title, video.script, p.gemini));
    VideoDataFlow(title.ctx, cancel, p, videoId, audioUrl, captions, images.value, title.value)
  }

  /** createVideo: a thrown error marks the video FAILED and the function returns false. */
  function CreateVideoRun(c: Ctx, cancel: Option<nat>, p: Providers, t: Templates, videoId: Id): Run {
    var body := CreateVideoFlow(c, cancel, p, t, videoId);
    if body.exit.Raise? then Finish(UpdateVideoStatusFlow(body.ctx, cancel, p, videoId, FAILED), false)
    else Finish(body, true)
  }

  method UpdateDbWithData(db: Db, ex: Execution, p: Providers, videoId: Id, audioUrl: string,
                          captions: Option<seq<Word>>, images: seq<Option<string>>, title: Option<string>)
    returns (exit: Exit<()>)
    requires db.Valid() && ex.Valid()
    modifies db, ex
    ensures db.Valid() && ex.Valid()
    ensures Flow(Current(db, ex), exit) == VideoDataFlow(old(Current(db, ex)), ex.cancel, p, videoId, audioUrl, captions, images, title)
  {
    if ex.Halted() {
      return Halt;
    }
    var present := Present(images);
    if captions.None? || title.None? || present.None? {
      ex.Log(UPDATE_DB_WITH_DATA, Failed);
      return Raise;
    }
    var r := Videos.UpdateVideo(db, videoId, audioUrl, captions.value, present.value, COMPLETED, p.clock(|ex.log|), title.value);
    if r.Err? {
      ex.Log(UPDATE_DB_WITH_DATA, Failed);
      return Raise;
    }
    ex.Emit([VideoData(videoId, audioUrl, captions.value, present.value, title.value, COMPLETED)]);
    ex.Log(UPDATE_DB_WITH_DATA, Succeeded);
    exit := Next(());
  }

  method Generate(db: Db, ex: Execution, p: Providers, t: Templates, videoId: Id, video: Video) returns (exit: Exit<()>)
    requires db.Valid() && ex.Valid()
    modifies db, ex
    ensures db.Valid() && ex.Valid()
    ensures Flow(Current(db, ex), exit) == GenerateFlow(old(Current(db, ex)), ex.cancel, p, t, videoId, video)
  {
    var audio := GenerateAudioUrl(db, ex, p, video.script, video.voice);
    if !audio.Next? {
      return audio.Propagate();
    }
    var captions := GenerateCaptions(db, ex, p, audio.value);
    if !captions.Next? {
      return captions.Propagate();
    }
    exit := Describe(db, ex, p, t, videoId, video, audio.value, captions.value);
  }

  method Describe(db: Db, ex: Execution, p: Providers, t: Templates, videoId: Id, video: Video,
                  audioUrl: string, captions: Option<seq<Word>>) returns (exit: Exit<()>)
    requires db.Valid() && ex.Valid()
    modifies db, ex
    ensures db.Valid() && ex.Valid()
    ensures Flow(Current(db, ex), exit) == DescribeFlow(old(Current(db, ex)), ex.cancel, p, t, videoId, video, audioUrl, captions)
  {
    var images := GenerateImages(db, ex, p, t, video.script, video.videoStyle);
    if !images.Next? {
      return images.Propagate();
    }
    var title := RunCall(db, ex, GENERATE_TITLE, TitleGenerator(t.title, video.script, p.gemini));
    if !title.Next? {
      return title.Propagate();
    }
    exit := UpdateDbWithData(db, ex, p, videoId, audioUrl, captions, images.value, title.value);
  }

  method CreateVideoTry(db: Db, ex: Execution, p: Providers, t: Templates, videoId: Id) returns (exit: Exit<()>)
    requires db.Valid() && ex.Valid()
    modifies db, ex
    ensures db.Valid() && ex.Valid()
    ensures Flow(Current(db, ex), exit) == CreateVideoFlow(old(Current(db, ex)), ex.cancel, p, t, videoId)
  {
    var started := UpdateVideoStatus(db, ex, p, videoId, PROCESSING);
    if !started.Next? {
      return started.Propagate();
    }
    var fetched := GetVideoData(db, ex, videoId);
    if !fetched.Next? {
      return fetched.Propagate();
    }
    if fetched.value.None? {
      return Raise;
    }
    exit := Generate(db, ex, p, t, videoId, fetched.value.value.value);
  }

  method CreateVideo(db: Db, ex: Execution, p: Providers, t: Templates, videoId: Id) returns (ending: Ending)
    requires db.Valid() && ex.Valid()
    modifies db, ex
    ensures db.Valid() && ex.Valid()
    ensures Run(Current(db, ex), ending) == CreateVideoRun(old(Current(db, ex)), ex.cancel, p, t, videoId)
  {
    var body := CreateVideoTry(db, ex, p, t, videoId);
    if body.Raise? {
      var failed := UpdateVideoStatus(db, ex, p, videoId, FAILED);
      return EndingOf(failed, false);
    }
    ending := EndingOf(body, true);
  }

  /** The steps of a createVideo that completed, in order. */
  const CREATE_VIDEO_STEPS := [UPDATE_VIDEO_STATUS, GET_VIDEO_DATA, GENERATE_AUDIO_URL, GENERATE_CAPTIONS,
                               GENERATE_IMAGES_PROMPTS, GENERATE_IMAGES_FROM_PROMPTS, GENERATE_TITLE, UPDATE_DB_WITH_DATA]

  /** The steps of the generation part, in order. */
  const GENERATE_STEPS := [GENERATE_AUDIO_URL, GENERATE_CAPTIONS, GENERATE_IMAGES_PROMPTS, GENERATE_IMAGES_FROM_PROMPTS,
                           GENERATE_TITLE, UPDATE_DB_WITH_DATA]

  /** A completed data write recorded its step and wrote the step results, COMPLETED. */
  lemma VideoDataCompleted(c: Ctx, cancel: Option<nat>, p: Providers, videoId: Id, audioUrl: string,
                           captions: Option<seq<Word>>, images: seq<Option<string>>, title: Option<string>)
    requires VideoDataFlow(c, cancel, p, videoId, audioUrl, captions, images, title).exit.Next?
    ensures captions.Some? && title.Some? && Present(images).Some?
    ensures var f := VideoDataFlow(c, cancel, p, videoId, audioUrl, captions, images, title);
      && Names(f.ctx.log) == Names(c.log) + [UPDATE_DB_WITH_DATA]
      && f.ctx.effects == c.effects + [VideoData(videoId, audioUrl, captions.value, Present(images).value, title.value, COMPLETED)]
  {
    NamesRecord(c.log, UPDATE_DB_WITH_DATA, Succeeded);
  }

  /** Generating the images writes nothing, however it ends. */
  lemma ImagesQuiet(c: Ctx, cancel: Option<nat>, p: Providers, t: Templates, script: string, style: string)
    ensures GenerateImagesFlow(c, cancel, p, t, script, style).ctx.state == c.state
    ensures GenerateImagesFlow(c, cancel, p, t, script, style).ctx.effects == c.effects
    ensures GenerateImagesFlow(c, cancel, p, t, script, style).exit.Next? ==>
      Names(GenerateImagesFlow(c, cancel, p, t, script, style).ctx.log) == Names(c.log) + [GENERATE_IMAGES_PROMPTS, GENERATE_IMAGES_FROM_PROMPTS]
  {
    var prompts := CallFlow(c, cancel, GENERATE_IMAGES_PROMPTS, ImagePrompts(p, t, style, script));
    if prompts.exit.Next? {
      NamesRecord(c.log, GENERATE_IMAGES_PROMPTS, Succeeded);
      NamesRecord(prompts.ctx.log, GENERATE_IMAGES_FROM_PROMPTS, Succeeded);
    }
  }

  /** A data write that does not complete writes nothing. */
  lemma VideoDataStopped(c: Ctx, cancel: Option<nat>, p: Providers, videoId: Id, audioUrl: string,
                         captions: Option<seq<Word>>, images: seq<Option<string>>, title: Option<string>)
    requires !VideoDataFlow(c, cancel, p, videoId, audioUrl, captions, images, title).exit.Next?
    ensures VideoDataFlow(c, cancel, p, videoId, audioUrl, captions, images, title).ctx.state == c.state
    ensures VideoDataFlow(c, cancel, p, videoId, audioUrl, captions, images, title).ctx.effects == c.effects
  {
  }

  /** The images, title and data steps write nothing unless the last one completes. */
  lemma DescribeStopped(c: Ctx, cancel: Option<nat>, p: Providers, t: Templates, videoId: Id, video: Video,
                        audioUrl: string, captions: Option<seq<Word>>)
    requires !DescribeFlow(c, cancel, p, t, videoId, video, audioUrl, captions).exit.Next?
    ensures DescribeFlow(c, cancel, p, t, videoId, video, audioUrl, captions).ctx.state == c.state
    ensures DescribeFlow(c, cancel, p, t, videoId, video, audioUrl, captions).ctx.effects == c.effects
  {
    var images := GenerateImagesFlow(c, cancel, p, t, video.script, video.videoStyle);
    ImagesQuiet(c, cancel, p, t, video.script, video.videoStyle);
    if images.exit.Next? {
      var title := CallFlow(images.ctx, cancel, GENERATE_TITLE, TitleGenerator(t.title, video.script, p.gemini));
      if title.exit.Next? {
        VideoDataStopped(title.ctx, cancel, p, videoId, audioUrl, captions, images.exit.value, title.exit.value);
      }
    }
  }

  /** A completed describe made the image, title and data steps and wrote the data, COMPLETED, once. */
  lemma DescribeCompleted(c: Ctx, cancel: Option<nat>, p: Providers, t: Templates, videoId: Id, video: Video,
                          audioUrl: string, captions: Option<seq<Word>>)
    requires DescribeFlow(c, cancel, p, t, videoId, video, audioUrl, captions).exit.Next?
    ensures captions.Some?
    ensures var f := DescribeFlow(c, cancel, p, t, videoId, video, audioUrl, captions);
      && Names(f.ctx.log) == Names(c.log) + [GENERATE_IMAGES_PROMPTS, GENERATE_IMAGES_FROM_PROMPTS, GENERATE_TITLE, UPDATE_DB_WITH_DATA]
      && exists images, title :: f.ctx.effects == c.effects + [VideoData(videoId, audioUrl, captions.value, images, title, COMPLETED)]
  {
    var images := GenerateImagesFlow(c, cancel, p, t, video.script, video.videoStyle);
    ImagesQuiet(c, cancel, p, t, video.script, video.videoStyle);
    var title := CallFlow(images.ctx, cancel, GENERATE_TITLE, TitleGenerator(t.title, video.script, p.gemini));
    var f := VideoDataFlow(title.ctx, cancel, p, videoId, audioUrl, captions, images.exit.value, title.exit.value);
    VideoDataCompleted(title.ctx, cancel, p, videoId, audioUrl, captions, images.exit.value, title.exit.value);
    NamesRecord(images.ctx.log, GENERATE_TITLE, Succeeded);
    DescribeNames(Names(c.log), Names(images.ctx.log), Names(title.ctx.log), Names(f.ctx.log));
  }

  lemma DescribeNames(n0: seq<string>, n1: seq<string>, n2: seq<string>, n3: seq<string>)
    requires n1 == n0 + [GENERATE_IMAGES_PROMPTS, GENERATE_IMAGES_FROM_PROMPTS] && n2 == n1 + [GENERATE_TITLE]
    requires n3 == n2 + [UPDATE_DB_WITH_DATA]
    ensures n3 == n0 + [GENERATE_IMAGES_PROMPTS, GENERATE_IMAGES_FROM_PROMPTS, GENERATE_TITLE, UPDATE_DB_WITH_DATA]
  {
  }

  /** The generation part of createVideo writes nothing unless it completes. */
  lemma GenerateStopped(c: Ctx, cancel: Option<nat>, p: Providers, t: Templates, videoId: Id, video: Video)
    requires !GenerateFlow(c, cancel, p, t, videoId, video).exit.Next?
    ensures GenerateFlow(c, cancel, p, t, videoId, video).ctx.state == c.state
    ensures GenerateFlow(c, cancel, p, t, videoId, video).ctx.effects == c.effects
  {
    var audio := CallFlow(c, cancel, GENERATE_AUDIO_URL, AudioUrl(p, video.script, video.voice));
    if audio.exit.Next? {
      var captions := CaptionsFlow(audio.ctx, cancel, p, audio.exit.value);
      if captions.exit.Next? {
        DescribeStopped(captions.ctx, cancel, p, t, videoId, video, audio.exit.value, captions.exit.value);
      }
    }
  }

  /** A completed generation made its six steps in order and wrote the generated data, COMPLETED, once. */
  lemma GenerateCompleted(c: Ctx, cancel: Option<nat>, p: Providers, t: Templates, videoId: Id, video: Video)
    requires GenerateFlow(c, cancel, p, t, videoId, video).exit.Next?
    ensures var f := GenerateFlow(c, cancel, p, t, videoId, video);
      && Names(f.ctx.log) == Names(c.log) + GENERATE_STEPS
      && exists audio, captions, images, title ::
           f.ctx.effects == c.effects + [VideoData(videoId, audio, captions, images, title, COMPLETED)]
  {
    var audio := CallFlow(c, cancel, GENERATE_AUDIO_URL, AudioUrl(p, video.script, video.voice));
    var captions := CaptionsFlow(audio.ctx, cancel, p, audio.exit.value);
    assert audio.exit.Next? && captions.exit.Next?;
    var f := DescribeFlow(captions.ctx, cancel, p, t, videoId, video, audio.exit.value, captions.exit.value);
    assert GenerateFlow(c, cancel, p, t, videoId, video) == f;
    DescribeCompleted(captions.ctx, cancel, p, t, videoId, video, audio.exit.value, captions.exit.value);
    assert captions.ctx.effects == c.effects;
    var images, title :| f.ctx.effects == c.effects + [VideoData(videoId, audio.exit.value, captions.exit.value.value, images, title, COMPLETED)];
    NamesRecord(c.log, GENERATE_AUDIO_URL, Succeeded);
    NamesRecord(audio.ctx.log, GENERATE_CAPTIONS, Succeeded);
    GenerateNames(Names(c.log), Names(audio.ctx.log), Names(captions.ctx.log), Names(f.ctx.log));
  }

  lemma GenerateNames(n0: seq<string>, n1: seq<string>, n2: seq<string>, n3: seq<string>)
    requires n1 == n0 + [GENERATE_AUDIO_URL] && n2 == n1 + [GENERATE_CAPTIONS]
    requires n3 == n2 + [GENERATE_IMAGES_PROMPTS, GENERATE_IMAGES_FROM_PROMPTS, GENERATE_TITLE, UPDATE_DB_WITH_DATA]
    ensures n3 == n0 + GENERATE_STEPS
  {
  }

  /** A thrown `try` block of createVideo either wrote nothing, the video being missing, or wrote only PROCESSING. */
  lemma CreateVideoRaised(c: Ctx, cancel: Option<nat>, p: Providers, t: Templates, videoId: Id)
    requires CreateVideoFlow(c, cancel, p, t, videoId).exit.Raise?
    ensures var f := CreateVideoFlow(c, cancel, p, t, videoId);
      || (f.ctx.state == c.state && f.ctx.effects == c.effects && !Has(c.state.videos, videoId))
      || f.ctx.effects == c.effects + [VideoStatus(videoId, PROCESSING)]
  {
    var started := UpdateVideoStatusFlow(c, cancel, p, videoId, PROCESSING);
    if started.exit.Next? {
      var fetched := GetVideoDataFlow(started.ctx, cancel, videoId);
      if fetched.exit.Next? && fetched.exit.value.Some? {
        GenerateStopped(fetched.ctx, cancel, p, t, videoId, fetched.exit.value.value.value);
      }
    }
  }

  /** A completed `try` block of createVideo went through its first two steps to the generation. */
  lemma CreateVideoUnfold(c: Ctx, cancel: Option<nat>, p: Providers, t: Templates, videoId: Id)
    requires CreateVideoFlow(c, cancel, p, t, videoId).exit.Next?
    ensures var started := UpdateVideoStatusFlow(c, cancel, p, videoId, PROCESSING);
      && started.exit.Next?
      && started.ctx.log == Record(c.log, UPDATE_VIDEO_STATUS, Succeeded)
      && started.ctx.effects == c.effects + [VideoStatus(videoId, PROCESSING)]
      && var fetched := GetVideoDataFlow(started.ctx, cancel, videoId);
      && fetched.exit.Next? && fetched.exit.value.Some?
      && fetched.ctx == Ctx(Record(started.ctx.log, GET_VIDEO_DATA, Succeeded), started.ctx.state, started.ctx.effects)
      && CreateVideoFlow(c, cancel, p, t, videoId) == GenerateFlow(fetched.ctx, cancel, p, t, videoId, fetched.exit.value.value.value)
  {
  }

  /** A completed `try` block of createVideo: PROCESSING, then the fetch, then the generation. */
  lemma CreateVideoFlowCompleted(c: Ctx, cancel: Option<nat>, p: Providers, t: Templates, videoId: Id)
    requires CreateVideoFlow(c, cancel, p, t, videoId).exit.Next?
    ensures var f := CreateVideoFlow(c, cancel, p, t, videoId);
      && Names(f.ctx.log) == Names(c.log) + CREATE_VIDEO_STEPS
      && exists audio, captions, images, title ::
           f.ctx.effects == c.effects + [VideoStatus(videoId, PROCESSING), VideoData(videoId, audio, captions, images, title, COMPLETED)]
  {
    CreateVideoUnfold(c, cancel, p, t, videoId);
    var started := UpdateVideoStatusFlow(c, cancel, p, videoId, PROCESSING);
    var fetched := GetVideoDataFlow(started.ctx, cancel, videoId);
    var video := fetched.exit.value.value.value;
    var f := GenerateFlow(fetched.ctx, cancel, p, t, videoId, video);
    GenerateCompleted(fetched.ctx, cancel, p, t, videoId, video);
    NamesRecord(c.log, UPDATE_VIDEO_STATUS, Succeeded);
    NamesRecord(started.ctx.log, GET_VIDEO_DATA, Succeeded);
    CreateVideoNames(Names(c.log), Names(started.ctx.log), Names(fetched.ctx.log), Names(f.ctx.log));
    var audio, captions, images, title :| f.ctx.effects == fetched.ctx.effects + [VideoData(videoId, audio, captions, images, title, COMPLETED)];
    EffectsAfterStart(c.effects, fetched.ctx.effects, f.ctx.effects, VideoStatus(videoId, PROCESSING),
      VideoData(videoId, audio, captions, images, title, COMPLETED));
  }

  lemma EffectsAfterStart(e0: seq<Effect>, e1: seq<Effect>, e2: seq<Effect>, first: Effect, last: Effect)
    requires e1 == e0 + [first] && e2 == e1 + [last]
    ensures e2 == e0 + [first, last]
  {
  }

  lemma CreateVideoNames(n0: seq<string>, n1: seq<string>, n2: seq<string>, n3: seq<string>)
    requires n1 == n0 + [UPDATE_VIDEO_STATUS] && n2 == n1 + [GET_VIDEO_DATA] && n3 == n2 + GENERATE_STEPS
    ensures n3 == n0 + CREATE_VIDEO_STEPS
  {
  }

  /**
   * A createVideo that returned true made all eight steps in order, and its only writes are the
   * PROCESSING status and then the generated data with status COMPLETED.
   */
  lemma CreateVideoSucceeds(c: Ctx, cancel: Option<nat>, p: Providers, t: Templates, videoId: Id)
    requires CreateVideoRun(c, cancel, p, t, videoId).ending == Returned(true)
    ensures var r := CreateVideoRun(c, cancel, p, t, videoId);
      && Names(r.ctx.log) == Names(c.log) + CREATE_VIDEO_STEPS
      && exists audio, captions, images, title ::
           r.ctx.effects == c.effects + [VideoStatus(videoId, PROCESSING), VideoData(videoId, audio, captions, images, title, COMPLETED)]
  {
    CreateVideoFlowCompleted(c, cancel, p, t, videoId);
  }

  /**
   * A createVideo that returned false wrote PROCESSING and then FAILED, and nothing else: a
   * failure after the first step never leaves generated data behind.
   */
  lemma CreateVideoFails(c: Ctx, cancel: Option<nat>, p: Providers, t: Templates, videoId: Id)
    requires CreateVideoRun(c, cancel, p, t, videoId).ending == Returned(false)
    ensures CreateVideoRun(c, cancel, p, t, videoId).ctx.effects
      == c.effects + [VideoStatus(videoId, PROCESSING), VideoStatus(videoId, FAILED)]
  {
    var body := CreateVideoFlow(c, cancel, p, t, videoId);
    CreateVideoRaised(c, cancel, p, t, videoId);
    VideoFailedAfterProcessing(c, body.ctx, cancel, p, videoId);
  }

  /** The `catch` of createVideo can only write FAILED after a PROCESSING write, the video being stored. */
  lemma VideoFailedAfterProcessing(c: Ctx, body: Ctx, cancel: Option<nat>, p: Providers, videoId: Id)
    requires || (body.state == c.state && body.effects == c.effects && !Has(c.state.videos, videoId))
             || body.effects == c.effects + [VideoStatus(videoId, PROCESSING)]
    requires UpdateVideoStatusFlow(body, cancel, p, videoId, FAILED).exit.Next?
    ensures UpdateVideoStatusFlow(body, cancel, p, videoId, FAILED).ctx.effects
      == c.effects + [VideoStatus(videoId, PROCESSING), VideoStatus(videoId, FAILED)]
  {
    assert Has(body.state.videos, videoId);
  }

  /** createVideo of a video that is not stored: both status writes fail, and the `catch` throws. */
  lemma CreateVideoMissing(c: Ctx, cancel: Option<nat>, p: Providers, t: Templates, videoId: Id)
    requires !Has(c.state.videos, videoId) && !Halts(cancel, |c.log| + 1)
    ensures CreateVideoRun(c, cancel, p, t, videoId)
      == Run(Ctx(Record(Record(c.log, UPDATE_VIDEO_STATUS, Failed), UPDATE_VIDEO_STATUS, Failed), c.state, c.effects), Threw)
  {
    var started := UpdateVideoStatusFlow(c, cancel, p, videoId, PROCESSING);
    assert started.exit.Raise? && started.ctx.state == c.state;
  }

  /** A createVideo cancelled before it starts does nothing. */
  lemma CreateVideoCancelled(c: Ctx, cancel: Option<nat>, p: Providers, t: Templates, videoId: Id)
    requires Halts(cancel, |c.log|)
    ensures CreateVideoRun(c, cancel, p, t, videoId) == Run(c, Cancelled)
  {
  }

  /*
   * generateImage
   */

  /** The `try` block of generateImage: mark the job PROCESSING with an empty image, read it, then draw it. */
  function GenerateImageFlow(c: Ctx, cancel: Option<nat>, p: Providers, t: Templates, imageId: Id): Flow<()> {
    var started :- UpdateImageFlow(c, cancel, imageId, PROCESSING, Some(""));
    var generation :- GetImageDataFlow(started.ctx, cancel, imageId);
    DrawFlow(generation.ctx, cancel, p, t, imageId, generation.value)
  }

  /** The props, the image url, and the write of that url with status COMPLETED. */
  function DrawFlow(c: Ctx, cancel: Option<nat>, p: Providers, t: Templates, imageId: Id,
                    generation: Option<ImageGeneration>): Flow<()> {
    var props :- DesiredPropsFlow(c, cancel, p, t, generation);
    var url :- CallFlow(props.ctx, cancel, GENERATE_IMAGE_URL, ImageUrl(p, generation, props.value));
    UpdateImageFlow(url.ctx, cancel, imageId, COMPLETED, url.value)
  }

  /** generateImage: a thrown error marks the job FAILED with an empty image and the function returns false. */
  function GenerateImageRun(c: Ctx, cancel: Option<nat>, p: Providers, t: Templates, imageId: Id): Run {
    var body := GenerateImageFlow(c, cancel, p, t, imageId);
    if body.exit.Raise? then Finish(UpdateImageFlow(body.ctx, cancel, imageId, FAILED, Some("")), false)
    else Finish(body, true)
  }

  method Draw(db: Db, ex: Execution, p: Providers, t: Templates, imageId: Id, generation: Option<ImageGeneration>)
    returns (exit: Exit<()>)
    requires db.Valid() && ex.Valid()
    modifies db, ex
    ensures db.Valid() && ex.Valid()
    ensures Flow(Current(db, ex), exit) == DrawFlow(old(Current(db, ex)), ex.cancel, p, t, imageId, generation)
  {
    var props := GetDesiredImageProps(db, ex, p, t, generation);
    if !props.Next? {
      return props.Propagate();
    }
    var url := GenerateImageUrl(db, ex, p, generation, props.value);
    if !url.Next? {
      return url.Propagate();
    }
    exit := UpdateImage(db, ex, imageId, COMPLETED, url.value);
  }

  method GenerateImageTry(db: Db, ex: Execution, p: Providers, t: Templates, imageId: Id) returns (exit: Exit<()>)
    requires db.Valid() && ex.Valid()
    modifies db, ex
    ensures db.Valid() && ex.Valid()
    ensures Flow(Current(db, ex), exit) == GenerateImageFlow(old(Current(db, ex)), ex.cancel, p, t, imageId)
  {
    var started := UpdateImage(db, ex, imageId, PROCESSING, Some(""));
    if !started.Next? {
      return started.Propagate();
    }
    var generation := GetImageData(db, ex, imageId);
    if !generation.Next? {
      return generation.Propagate();
    }
    exit := Draw(db, ex, p, t, imageId, generation.value);
  }

  method GenerateImage(db: Db, ex: Execution, p: Providers, t: Templates, imageId: Id) returns (ending: Ending)
    requires db.Valid() && ex.Valid()
    modifies db, ex
    ensures db.Valid() && ex.Valid()
    ensures Run(Current(db, ex), ending) == GenerateImageRun(old(Current(db, ex)), ex.cancel, p, t, imageId)
  {
    var body := GenerateImageTry(db, ex, p, t, imageId);
    if body.Raise? {
      var failed := UpdateImage(db, ex, imageId, FAILED, Some(""));
      return EndingOf(failed, false);
    }
    ending := EndingOf(body, true);
  }

  /** The steps of a generateImage that completed, in order. */
  const GENERATE_IMAGE_STEPS := [UPDATE_IMAGE_GENERATION, GET_IMAGE_GENERATION, GET_DESIRED_IMAGE_PROPS,
                                 GENERATE_IMAGE_URL, UPDATE_IMAGE_GENERATION]

  /** Drawing writes nothing unless its last step completes. */
  lemma DrawStopped(c: Ctx, cancel: Option<nat>, p: Providers, t: Templates, imageId: Id, generation: Option<ImageGeneration>)
    requires !DrawFlow(c, cancel, p, t, imageId, generation).exit.Next?
    ensures DrawFlow(c, cancel, p, t, imageId, generation).ctx.state == c.state
    ensures DrawFlow(c, cancel, p, t, imageId, generation).ctx.effects == c.effects
  {
    var props := DesiredPropsFlow(c, cancel, p, t, generation);
    if props.exit.Next? {
      var url := CallFlow(props.ctx, cancel, GENERATE_IMAGE_URL, ImageUrl(p, generation, props.exit.value));
      if url.exit.Next? {
        assert DrawFlow(c, cancel, p, t, imageId, generation) == UpdateImageFlow(url.ctx, cancel, imageId, COMPLETED, url.exit.value);
      }
    }
  }

  /** A completed drawing went through the props and url steps, and the url step gave a url. */
  lemma DrawUnfold(c: Ctx, cancel: Option<nat>, p: Providers, t: Templates, imageId: Id, generation: Option<ImageGeneration>)
    requires DrawFlow(c, cancel, p, t, imageId, generation).exit.Next?
    ensures var props := DesiredPropsFlow(c, cancel, p, t, generation);
      && props.exit.Next? && props.ctx == Ctx(Record(c.log, GET_DESIRED_IMAGE_PROPS, Succeeded), c.state, c.effects)
      && var url := CallFlow(props.ctx, cancel, GENERATE_IMAGE_URL, ImageUrl(p, generation, props.exit.value));
      && url.exit.Next? && url.ctx == Ctx(Record(props.ctx.log, GENERATE_IMAGE_URL, Succeeded), c.state, c.effects)
      && ImageUrl(p, generation, props.exit.value) == Ok(url.exit.value)
      && DrawFlow(c, cancel, p, t, imageId, generation) == UpdateImageFlow(url.ctx, cancel, imageId, COMPLETED, url.exit.value)
  {
  }

  /**
   * A completed drawing made the props, url and update steps, and wrote, COMPLETED, a url the
   * image step uploaded.
   */
  lemma DrawCompleted(c: Ctx, cancel: Option<nat>, p: Providers, t: Templates, imageId: Id, generation: Option<ImageGeneration>)
    requires DrawFlow(c, cancel, p, t, imageId, generation).exit.Next?
    ensures var f := DrawFlow(c, cancel, p, t, imageId, generation);
      && Names(f.ctx.log) == Names(c.log) + [GET_DESIRED_IMAGE_PROPS, GENERATE_IMAGE_URL, UPDATE_IMAGE_GENERATION]
      && exists props, url :: ImageUrl(p, generation, props) == Ok(Some(url))
           && f.ctx.effects == c.effects + [ImageJob(imageId, COMPLETED, Some(url))]
  {
    DrawUnfold(c, cancel, p, t, imageId, generation);
    var props := DesiredPropsFlow(c, cancel, p, t, generation);
    var url := CallFlow(props.ctx, cancel, GENERATE_IMAGE_URL, ImageUrl(p, generation, props.exit.value));
    var f := UpdateImageFlow(url.ctx, cancel, imageId, COMPLETED, url.exit.value);
    NamesRecord(c.log, GET_DESIRED_IMAGE_PROPS, Succeeded);
    NamesRecord(props.ctx.log, GENERATE_IMAGE_URL, Succeeded);
    NamesRecord(url.ctx.log, UPDATE_IMAGE_GENERATION, Succeeded);
    assert ImageUrl(p, generation, props.exit.value) == Ok(Some(url.exit.value.value));
  }

  /** A thrown `try` block of generateImage either wrote nothing, the job being missing, or wrote only PROCESSING. */
  lemma GenerateImageRaised(c: Ctx, cancel: Option<nat>, p: Providers, t: Templates, imageId: Id)
    requires GenerateImageFlow(c, cancel, p, t, imageId).exit.Raise?
    ensures var f := GenerateImageFlow(c, cancel, p, t, imageId);
      || (f.ctx.state == c.state && f.ctx.effects == c.effects && !Has(c.state.imageGenerations, imageId))
      || f.ctx.effects == c.effects + [ImageJob(imageId, PROCESSING, Some(""))]
  {
    var started := UpdateImageFlow(c, cancel, imageId, PROCESSING, Some(""));
    if started.exit.Next? {
      var generation := GetImageDataFlow(started.ctx, cancel, imageId);
      if generation.exit.Next? {
        DrawStopped(generation.ctx, cancel, p, t, imageId, generation.exit.value);
      }
    }
  }

  /** A completed `try` block of generateImage went through its first two steps to the drawing. */
  lemma GenerateImageUnfold(c: Ctx, cancel: Option<nat>, p: Providers, t: Templates, imageId: Id)
    requires GenerateImageFlow(c, cancel, p, t, imageId).exit.Next?
    ensures var started := UpdateImageFlow(c, cancel, imageId, PROCESSING, Some(""));
      && started.exit.Next?
      && started.ctx.log == Record(c.log, UPDATE_IMAGE_GENERATION, Succeeded)
      && started.ctx.effects == c.effects + [ImageJob(imageId, PROCESSING, Some(""))]
      && var generation := GetImageDataFlow(started.ctx, cancel, imageId);
      && generation.exit.Next?
      && generation.ctx == Ctx(Record(started.ctx.log, GET_IMAGE_GENERATION, Succeeded), started.ctx.state, started.ctx.effects)
      && GenerateImageFlow(c, cancel, p, t, imageId) == DrawFlow(generation.ctx, cancel, p, t, imageId, generation.exit.value)
  {
    var started := UpdateImageFlow(c, cancel, imageId, PROCESSING, Some(""));
    assert started.exit.Next?;
    var generation := GetImageDataFlow(started.ctx, cancel, imageId);
    assert generation.exit.Next?;
    assert started.ctx.effects + [] == started.ctx.effects;
  }

  /** A completed `try` block of generateImage: PROCESSING, the read, then the drawing. */
  lemma GenerateImageFlowCompleted(c: Ctx, cancel: Option<nat>, p: Providers, t: Templates, imageId: Id)
    requires GenerateImageFlow(c, cancel, p, t, imageId).exit.Next?
    ensures var f := GenerateImageFlow(c, cancel, p, t, imageId);
      && Names(f.ctx.log) == Names(c.log) + GENERATE_IMAGE_STEPS
      && var g := Get(c.state.imageGenerations, imageId);
      && g.Some?
      && exists props, url :: ImageUrl(p, Some(g.value.(status := PROCESSING, image := Some(""))), props) == Ok(Some(url))
           && f.ctx.effects == c.effects + [ImageJob(imageId, PROCESSING, Some("")), ImageJob(imageId, COMPLETED, Some(url))]
  {
    GenerateImageUnfold(c, cancel, p, t, imageId);
    var started := UpdateImageFlow(c, cancel, imageId, PROCESSING, Some(""));
    var generation := GetImageDataFlow(started.ctx, cancel, imageId);
    ImageReadBack(c.state, imageId, PROCESSING, Some(""));
    var f := DrawFlow(generation.ctx, cancel, p, t, imageId, generation.exit.value);
    DrawCompleted(generation.ctx, cancel, p, t, imageId, generation.exit.value);
    NamesRecord(c.log, UPDATE_IMAGE_GENERATION, Succeeded);
    NamesRecord(started.ctx.log, GET_IMAGE_GENERATION, Succeeded);
    GenerateImageNames(Names(c.log), Names(started.ctx.log), Names(generation.ctx.log), Names(f.ctx.log));
    var props, url :| ImageUrl(p, generation.exit.value, props) == Ok(Some(url))
      && f.ctx.effects == generation.ctx.effects + [ImageJob(imageId, COMPLETED, Some(url))];
    EffectsAfterStart(c.effects, generation.ctx.effects, f.ctx.effects, ImageJob(imageId, PROCESSING, Some("")),
      ImageJob(imageId, COMPLETED, Some(url)));
  }

  /** A successful update of a job reads back as the job with the new status and image. */
  lemma ImageReadBack(s: State, imageId: Id, status: string, image: Option<string>)
    requires ImageJobAttempt(s, imageId, status, image).result.Ok?
    ensures Get(s.imageGenerations, imageId).Some?
    ensures Get(ImageJobAttempt(s, imageId, status, image).state.imageGenerations, imageId)
      == Some(Get(s.imageGenerations, imageId).value.(status := status, image := image))
  {
  }

  lemma GenerateImageNames(n0: seq<string>, n1: seq<string>, n2: seq<string>, n3: seq<string>)
    requires n1 == n0 + [UPDATE_IMAGE_GENERATION] && n2 == n1 + [GET_IMAGE_GENERATION]
    requires n3 == n2 + [GET_DESIRED_IMAGE_PROPS, GENERATE_IMAGE_URL, UPDATE_IMAGE_GENERATION]
    ensures n3 == n0 + GENERATE_IMAGE_STEPS
  {
  }

  /**
   * A generateImage that returned true made its five steps in order, and its only writes are
   * PROCESSING with an empty image and then COMPLETED with a url the image step produced for
   * the job as it was read back.
   */
  lemma GenerateImageSucceeds(c: Ctx, cancel: Option<nat>, p: Providers, t: Templates, imageId: Id)
    requires GenerateImageRun(c, cancel, p, t, imageId).ending == Returned(true)
    ensures var r := GenerateImageRun(c, cancel, p, t, imageId);
      && Names(r.ctx.log) == Names(c.log) + GENERATE_IMAGE_STEPS
      && var g := Get(c.state.imageGenerations, imageId);
      && g.Some?
      && exists props, url :: ImageUrl(p, Some(g.value.(status := PROCESSING, image := Some(""))), props) == Ok(Some(url))
           && r.ctx.effects == c.effects + [ImageJob(imageId, PROCESSING, Some("")), ImageJob(imageId, COMPLETED, Some(url))]
  {
    GenerateImageReturnedTrue(c, cancel, p, t, imageId);
    GenerateImageFlowCompleted(c, cancel, p, t, imageId);
  }

  lemma GenerateImageReturnedTrue(c: Ctx, cancel: Option<nat>, p: Providers, t: Templates, imageId: Id)
    requires GenerateImageRun(c, cancel, p, t, imageId).ending == Returned(true)
    ensures GenerateImageFlow(c, cancel, p, t, imageId).exit.Next?
    ensures GenerateImageRun(c, cancel, p, t, imageId).ctx == GenerateImageFlow(c, cancel, p, t, imageId).ctx
  {
  }

  /** A generateImage that returned false wrote PROCESSING and then FAILED, both with an empty image, and nothing else. */
  lemma GenerateImageFails(c: Ctx, cancel: Option<nat>, p: Providers, t: Templates, imageId: Id)
    requires GenerateImageRun(c, cancel, p, t, imageId).ending == Returned(false)
    ensures GenerateImageRun(c, cancel, p, t, imageId).ctx.effects
      == c.effects + [ImageJob(imageId, PROCESSING, Some("")), ImageJob(imageId, FAILED, Some(""))]
  {
    var body := GenerateImageFlow(c, cancel, p, t, imageId);
    assert body.exit.Raise?;
    GenerateImageRaised(c, cancel, p, t, imageId);
    assert GenerateImageRun(c, cancel, p, t, imageId) == Finish(UpdateImageFlow(body.ctx, cancel, imageId, FAILED, Some("")), false);
    FailedAfterProcessing(c, body.ctx, cancel, imageId);
  }

  /** The FAILED write of the `catch`, when it succeeds, follows the PROCESSING write of the `try` block. */
  lemma FailedAfterProcessing(c: Ctx, body: Ctx, cancel: Option<nat>, imageId: Id)
    requires || (body.state == c.state && body.effects == c.effects && !Has(c.state.imageGenerations, imageId))
             || body.effects == c.effects + [ImageJob(imageId, PROCESSING, Some(""))]
    requires UpdateImageFlow(body, cancel, imageId, FAILED, Some("")).exit.Next?
    ensures UpdateImageFlow(body, cancel, imageId, FAILED, Some("")).ctx.effects
      == c.effects + [ImageJob(imageId, PROCESSING, Some("")), ImageJob(imageId, FAILED, Some(""))]
  {
    assert Has(body.state.imageGenerations, imageId);
  }

  /**
   * When the image model's reply carries no image data, the null url is rejected by the update
   * and generateImage never returns true.
   */
  lemma GenerateImageWithoutData(c: Ctx, cancel: Option<nat>, p: Providers, t: Templates, imageId: Id, g: ImageGeneration)
    requires Get(c.state.imageGenerations, imageId) == Some(g)
    requires forall props :: ImageUrl(p, Some(g.(status := PROCESSING, image := Some(""))), props) == Ok(None)
    ensures GenerateImageRun(c, cancel, p, t, imageId).ending != Returned(true)
  {
    if GenerateImageRun(c, cancel, p, t, imageId).ending == Returned(true) {
      GenerateImageSucceeds(c, cancel, p, t, imageId);
    }
  }

  /** generateImage of a job that is not stored: both updates fail, and the `catch` throws. */
  lemma GenerateImageMissing(c: Ctx, cancel: Option<nat>, p: Providers, t: Templates, imageId: Id)
    requires !Has(c.state.imageGenerations, imageId) && !Halts(cancel, |c.log| + 1)
    ensures GenerateImageRun(c, cancel, p, t, imageId)
      == Run(Ctx(Record(Record(c.log, UPDATE_IMAGE_GENERATION, Failed), UPDATE_IMAGE_GENERATION, Failed), c.state, c.effects), Threw)
  {
    var started := UpdateImageFlow(c, cancel, imageId, PROCESSING, Some(""));
    assert started.exit.Raise? && started.ctx.state == c.state;
  }

  /** A generateImage cancelled before it starts does nothing. */
  lemma GenerateImageCancelled(c: Ctx, cancel: Option<nat>, p: Providers, t: Templates, imageId: Id)
    requires Halts(cancel, |c.log|)
    ensures GenerateImageRun(c, cancel, p, t, imageId) == Run(c, Cancelled)
  {
  }

  /*
   * renderZentroVideo
   */

  /** The `try` block of renderZentroVideo: read the video, render it, store the render's result as its url. */
  function RenderZentroFlow(c: Ctx, cancel: Option<nat>, p: Providers, videoId: Id, limit: nat): Flow<()> {
    var fetched :- GetVideoDataFlow(c, cancel, videoId);
    StoreRenderFlow(fetched.ctx, cancel, p, videoId, fetched.value, limit)
  }

  function StoreRenderFlow(c: Ctx, cancel: Option<nat>, p: Providers, videoId: Id, video: Option<Doc<Video>>, limit: nat): Flow<()> {
    var rendered :- RenderFlow(c, cancel, p, video, limit);
    UpdateVideoUrlFlow(rendered.ctx, cancel, videoId, rendered.value)
  }

  /** renderZentroVideo: the `catch` only returns false. */
  function RenderZentroRun(c: Ctx, cancel: Option<nat>, p: Providers, videoId: Id, limit: nat): Run {
    var body := RenderZentroFlow(c, cancel, p, videoId, limit);
    if body.exit.Raise? then Run(body.ctx, Returned(false)) else Finish(body, true)
  }

  method StoreRender(db: Db, ex: Execution, p: Providers, videoId: Id, video: Option<Doc<Video>>, limit: nat)
    returns (exit: Exit<()>)
    requires db.Valid() && ex.Valid()
    modifies db, ex
    ensures db.Valid() && ex.Valid()
    ensures Flow(Current(db, ex), exit) == StoreRenderFlow(old(Current(db, ex)), ex.cancel, p, videoId, video, limit)
  {
    var rendered := RenderVideo(db, ex, p, video, limit);
    if !rendered.Next? {
      return rendered.Propagate();
    }
    exit := UpdateVideoUrl(db, ex, videoId, rendered.value);
  }

  method RenderZentroVideo(db: Db, ex: Execution, p: Providers, videoId: Id, limit: nat) returns (ending: Ending)
    requires db.Valid() && ex.Valid()
    modifies db, ex
    ensures db.Valid() && ex.Valid()
    ensures Run(Current(db, ex), ending) == RenderZentroRun(old(Current(db, ex)), ex.cancel, p, videoId, limit)
  {
    var body: Exit<()>;
    var fetched := GetVideoData(db, ex, videoId);
    if !fetched.Next? {
      body := fetched.Propagate();
    } else {
      body := StoreRender(db, ex, p, videoId, fetched.value, limit);
    }
    ending := if body.Raise? then Returned(false) else EndingOf(body, true);
  }

  /** The steps of a renderZentroVideo that completed, in order. */
  const RENDER_ZENTRO_STEPS := [GET_VIDEO_DATA, RENDER_VIDEO, UPDATE_VIDEO_URL]

  /** Unless cancelled at once, renderZentroVideo reads the video and goes on to the render with what it read. */
  lemma RenderZentroFetch(c: Ctx, cancel: Option<nat>, p: Providers, videoId: Id, limit: nat)
    requires !Halts(cancel, |c.log|)
    ensures RenderZentroFlow(c, cancel, p, videoId, limit) == StoreRenderFlow(
      Ctx(Record(c.log, GET_VIDEO_DATA, Succeeded), c.state, c.effects), cancel, p, videoId, Lookup(c.state.videos, videoId), limit)
  {
    assert c.effects + [] == c.effects;
    assert GetVideoDataFlow(c, cancel, videoId) == Flow(Ctx(Record(c.log, GET_VIDEO_DATA, Succeeded), c.state, c.effects), Next(Lookup(c.state.videos, videoId)));
  }

  /** A completed render and url write: the video was stored, and RENDERED came before the url. */
  lemma StoreRenderCompleted(c: Ctx, cancel: Option<nat>, p: Providers, videoId: Id, video: Option<Doc<Video>>, limit: nat)
    requires video.Some? && video.value.id == videoId
    requires StoreRenderFlow(c, cancel, p, videoId, video, limit).exit.Next?
    ensures var f := StoreRenderFlow(c, cancel, p, videoId, video, limit);
      && f.ctx.log == Record(Record(c.log, RENDER_VIDEO, Succeeded), UPDATE_VIDEO_URL, Succeeded)
      && exists file :: f.ctx.effects == c.effects + [VideoRendering(videoId, RENDERING), VideoRendering(videoId, RENDERED), VideoUrl(videoId, file)]
  {
    var rendered := RenderFlow(c, cancel, p, video, limit);
    var f := UpdateVideoUrlFlow(rendered.ctx, cancel, videoId, rendered.exit.value);
    UpdateVideoUrlCompleted(rendered.ctx, cancel, videoId, rendered.exit.value);
    assert rendered.exit.value.Output?;
    assert f.ctx.effects == c.effects + [VideoRendering(videoId, RENDERING), VideoRendering(videoId, RENDERED), VideoUrl(videoId, UrlOf(rendered.exit.value).value)];
  }

  /**
   * A renderZentroVideo that returned true made its three steps in order; it wrote RENDERING,
   * then RENDERED, then the rendered file as the video's url.
   */
  lemma RenderZentroSucceeds(c: Ctx, cancel: Option<nat>, p: Providers, videoId: Id, limit: nat)
    requires RenderZentroRun(c, cancel, p, videoId, limit).ending == Returned(true)
    ensures var r := RenderZentroRun(c, cancel, p, videoId, limit);
      && Names(r.ctx.log) == Names(c.log) + RENDER_ZENTRO_STEPS
      && exists file :: r.ctx.effects == c.effects + [VideoRendering(videoId, RENDERING), VideoRendering(videoId, RENDERED), VideoUrl(videoId, file)]
  {
    RenderZentroFetch(c, cancel, p, videoId, limit);
    var c1 := Ctx(Record(c.log, GET_VIDEO_DATA, Succeeded), c.state, c.effects);
    var video := Lookup(c.state.videos, videoId);
    assert video.Some?;
    StoreRenderCompleted(c1, cancel, p, videoId, video, limit);
    var r := RenderZentroRun(c, cancel, p, videoId, limit);
    var c2 := Record(c1.log, RENDER_VIDEO, Succeeded);
    NamesRecord(c.log, GET_VIDEO_DATA, Succeeded);
    NamesRecord(c1.log, RENDER_VIDEO, Succeeded);
    NamesRecord(c2, UPDATE_VIDEO_URL, Succeeded);
    RenderZentroNames(Names(c.log), Names(c1.log), Names(c2), Names(r.ctx.log));
  }

  lemma RenderZentroNames(n0: seq<string>, n1: seq<string>, n2: seq<string>, n3: seq<string>)
    requires n1 == n0 + [GET_VIDEO_DATA] && n2 == n1 + [RENDER_VIDEO] && n3 == n2 + [UPDATE_VIDEO_URL]
    ensures n3 == n0 + RENDER_ZENTRO_STEPS
  {
  }

  /** A render that reports errors leaves NOT_RENDERED, and the url step rejects the error object. */
  lemma StoreRenderFailure(c: Ctx, cancel: Option<nat>, p: Providers, videoId: Id, video: Option<Doc<Video>>,
                           limit: nat, errors: seq<string>)
    requires video.Some? && video.value.id == videoId && !Halts(cancel, |c.log| + 1)
    requires RenderAttempt(c.state, p, video, limit).result == Ok(RenderFailure(errors))
    ensures StoreRenderFlow(c, cancel, p, videoId, video, limit) == Flow(
      Ctx(Record(Record(c.log, RENDER_VIDEO, Succeeded), UPDATE_VIDEO_URL, Failed), RenderAttempt(c.state, p, video, limit).state,
          c.effects + [VideoRendering(videoId, RENDERING), VideoRendering(videoId, NOT_RENDERED)]), Raise)
  {
    var a := RenderAttempt(c.state, p, video, limit);
    var c1 := Ctx(Record(c.log, RENDER_VIDEO, Succeeded), a.state, c.effects + a.effects);
    assert RenderFlow(c, cancel, p, video, limit) == Flow(c1, Next(RenderFailure(errors)));
  }

  /**
   * A render that reports errors is caught by the url step: the error object is never stored as
   * the url, the video is left NOT_RENDERED, and the function returns false.
   */
  lemma RenderZentroFailureNotStored(c: Ctx, cancel: Option<nat>, p: Providers, videoId: Id, limit: nat, errors: seq<string>)
    requires !Halts(cancel, |c.log| + 2)
    requires RenderAttempt(c.state, p, Lookup(c.state.videos, videoId), limit).result == Ok(RenderFailure(errors))
    ensures var r := RenderZentroRun(c, cancel, p, videoId, limit);
      && r.ending == Returned(false)
      && r.ctx.state == RenderAttempt(c.state, p, Lookup(c.state.videos, videoId), limit).state
      && r.ctx.effects == c.effects + [VideoRendering(videoId, RENDERING), VideoRendering(videoId, NOT_RENDERED)]
  {
    RenderZentroFetch(c, cancel, p, videoId, limit);
    var c1 := Ctx(Record(c.log, GET_VIDEO_DATA, Succeeded), c.state, c.effects);
    StoreRenderFailure(c1, cancel, p, videoId, Lookup(c.state.videos, videoId), limit, errors);
  }

  /** A renderZentroVideo cancelled before it starts does nothing. */
  lemma RenderZentroCancelled(c: Ctx, cancel: Option<nat>, p: Providers, videoId: Id, limit: nat)
    requires Halts(cancel, |c.log|)
    ensures RenderZentroRun(c, cancel, p, videoId, limit) == Run(c, Cancelled)
  {
  }

  /*
   * scheduleUpload
   */

  /**
   * `step.sleepUntil("wait-for-scheduled-time", until)`: a step of its own that resumes at
   * `until`. Without a time to wake at (the schedule was not found) it throws and records nothing.
   */
  function SleepFlow(c: Ctx, cancel: Option<nat>, until: Option<Timestamp>): Flow<()> {
    if Halts(cancel, |c.log|) then Flow(c, Halt)
    else if until.None? then Flow(c, Raise)
    else Flow(c.(log := Record(c.log, WAIT_FOR_SCHEDULED_TIME, Slept(until.value))), Next(()))
  }

  /** `inngest.send(e)`: not a step, so it is neither recorded nor stopped by the cancel event; a failed send throws. */
  function SendFlow(c: Ctx, p: Providers, e: Event): Flow<()> {
    if p.sendEvent.Ok? then Flow(c.(effects := c.effects + [Sent(e)]), Next(())) else Flow(c, Raise)
  }

  /**
   * The `try` block of scheduleUpload: read the schedule, sleep until its `datetime`, then upload
   * its video between the PROCESSING and COMPLETED writes. The two branches on the schedule type
   * differ only in the event a SMART schedule sends at the end.
   */
  function ScheduleUploadFlow(c: Ctx, cancel: Option<nat>, p: Providers, t: Templates, scheduleId: Id,
                              refreshToken: string, limit: nat): Flow<()>
  {
    var fetched :- GetScheduleFlow(c, cancel, scheduleId);
    match fetched.value
    case None => SleepFlow(fetched.ctx, cancel, None)
    case Some(sc) =>
      var slept :- SleepFlow(fetched.ctx, cancel, Some(sc.datetime));
      UploadScheduledFlow(slept.ctx, cancel, p, t, scheduleId, sc, refreshToken, limit)
  }

  function UploadScheduledFlow(c: Ctx, cancel: Option<nat>, p: Providers, t: Templates, scheduleId: Id, sc: Schedule,
                               refreshToken: string, limit: nat): Flow<()>
  {
    var processing :- UpdateScheduleStatusFlow(c, cancel, scheduleId, PROCESSING);
    UploadAndCompleteFlow(processing.ctx, cancel, p, t, scheduleId, sc, refreshToken, limit)
  }

  function UploadAndCompleteFlow(c: Ctx, cancel: Option<nat>, p: Providers, t: Templates, scheduleId: Id, sc: Schedule,
                                 refreshToken: string, limit: nat): Flow<()>
  {
    var uploaded :- UploadVideoFlow(c, cancel, p, t, sc.videoId, refreshToken, limit);
    CompleteScheduleFlow(uploaded.ctx, cancel, p, scheduleId, sc.scheduleType, refreshToken)
  }

  /** COMPLETED, and for a SMART schedule the trigger event sent again with the same data. */
  function CompleteScheduleFlow(c: Ctx, cancel: Option<nat>, p: Providers, scheduleId: Id, scheduleType: string,
                                refreshToken: string): Flow<()>
  {
    var completed :- UpdateScheduleStatusFlow(c, cancel, scheduleId, COMPLETED);
    if scheduleType == SMART then SendFlow(completed.ctx, p, ScheduleUploadEvent(scheduleId, refreshToken))
    else Flow(completed.ctx, Next(()))
  }

  /** scheduleUpload: the `catch` only returns false; it does not mark the schedule FAILED. */
  function ScheduleUploadRun(c: Ctx, cancel: Option<nat>, p: Providers, t: Templates, scheduleId: Id,
                             refreshToken: string, limit: nat): Run
  {
    var body := ScheduleUploadFlow(c, cancel, p, t, scheduleId, refreshToken, limit);
    if body.exit.Raise? then Run(body.ctx, Returned(false)) else Finish(body, true)
  }

  method SleepUntil(db: Db, ex: Execution, until: Option<Timestamp>) returns (exit: Exit<()>)
    requires ex.Valid()
    modifies ex
    ensures ex.Valid()
    ensures Flow(Current(db, ex), exit) == SleepFlow(old(Current(db, ex)), ex.cancel, until)
  {
    if ex.Halted() {
      return Halt;
    }
    if until.None? {
      return Raise;
    }
    ex.Log(WAIT_FOR_SCHEDULED_TIME, Slept(until.value));
    exit := Next(());
  }

  method SendEvent(db: Db, ex: Execution, p: Providers, e: Event) returns (exit: Exit<()>)
    requires ex.Valid()
    modifies ex
    ensures ex.Valid()
    ensures Flow(Current(db, ex), exit) == SendFlow(old(Current(db, ex)), p, e)
  {
    if p.sendEvent.Err? {
      return Raise;
    }
    ex.Emit([Sent(e)]);
    exit := Next(());
  }

  method CompleteSchedule(db: Db, ex: Execution, p: Providers, scheduleId: Id, scheduleType: string, refreshToken: string)
    returns (exit: Exit<()>)
    requires db.Valid() && ex.Valid()
    modifies db, ex
    ensures db.Valid() && ex.Valid()
    ensures Flow(Current(db, ex), exit) == CompleteScheduleFlow(old(Current(db, ex)), ex.cancel, p, scheduleId, scheduleType, refreshToken)
  {
    var completed := UpdateScheduleStatus(db, ex, scheduleId, COMPLETED);
    if !completed.Next? {
      return completed.Propagate();
    }
    if scheduleType == SMART {
      exit := SendEvent(db, ex, p, ScheduleUploadEvent(scheduleId, refreshToken));
    } else {
      exit := Next(());
    }
  }

  method UploadAndComplete(db: Db, ex: Execution, p: Providers, t: Templates, scheduleId: Id, sc: Schedule,
                           refreshToken: string, limit: nat) returns (exit: Exit<()>)
    requires db.Valid() && ex.Valid()
    modifies db, ex
    ensures db.Valid() && ex.Valid()
    ensures Flow(Current(db, ex), exit) == UploadAndCompleteFlow(old(Current(db, ex)), ex.cancel, p, t, scheduleId, sc, refreshToken, limit)
  {
    var uploaded := UploadVideo(db, ex, p, t, sc.videoId, refreshToken, limit);
    if !uploaded.Next? {
      return uploaded.Propagate();
    }
    exit := CompleteSchedule(db, ex, p, scheduleId, sc.scheduleType, refreshToken);
  }

  method UploadScheduled(db: Db, ex: Execution, p: Providers, t: Templates, scheduleId: Id, sc: Schedule,
                         refreshToken: string, limit: nat) returns (exit: Exit<()>)
    requires db.Valid() && ex.Valid()
    modifies db, ex
    ensures db.Valid() && ex.Valid()
    ensures Flow(Current(db, ex), exit) == UploadScheduledFlow(old(Current(db, ex)), ex.cancel, p, t, scheduleId, sc, refreshToken, limit)
  {
    var processing := UpdateScheduleStatus(db, ex, scheduleId, PROCESSING);
    if !processing.Next? {
      return processing.Propagate();
    }
    exit := UploadAndComplete(db, ex, p, t, scheduleId, sc, refreshToken, limit);
  }

  method ScheduleUpload(db: Db, ex: Execution, p: Providers, t: Templates, scheduleId: Id, refreshToken: string, limit: nat)
    returns (ending: Ending)
    requires db.Valid() && ex.Valid()
    modifies db, ex
    ensures db.Valid() && ex.Valid()
    ensures Run(Current(db, ex), ending) == ScheduleUploadRun(old(Current(db, ex)), ex.cancel, p, t, scheduleId, refreshToken, limit)
  {
    var body: Exit<()>;
    var fetched := GetSchedule(db, ex, scheduleId);
    if !fetched.Next? {
      body := fetched.Propagate();
    } else if fetched.value.None? {
      body := SleepUntil(db, ex, None);
    } else {
      var slept := SleepUntil(db, ex, Some(fetched.value.value.datetime));
      if !slept.Next? {
        body := slept.Propagate();
      } else {
        body := UploadScheduled(db, ex, p, t, scheduleId, fetched.value.value, refreshToken, limit);
      }
    }
    ending := if body.Raise? then Returned(false) else EndingOf(body, true);
  }

  /**
   * Unless cancelled within its first two steps, scheduleUpload on a stored schedule reads it and
   * sleeps until the schedule's `datetime` before anything else happens.
   */
  lemma ScheduleSleepsFirst(c: Ctx, cancel: Option<nat>, p: Providers, t: Templates, scheduleId: Id,
                            refreshToken: string, limit: nat, sc: Schedule)
    requires Get(c.state.schedulers, scheduleId) == Some(sc) && !Halts(cancel, |c.log| + 1)
    ensures ScheduleUploadFlow(c, cancel, p, t, scheduleId, refreshToken, limit) == UploadScheduledFlow(
      Ctx(Record(Record(c.log, GET_SCHEDULE, Succeeded), WAIT_FOR_SCHEDULED_TIME, Slept(sc.datetime)), c.state, c.effects),
      cancel, p, t, scheduleId, sc, refreshToken, limit)
  {
    assert c.effects + [] == c.effects;
    var c1 := Ctx(Record(c.log, GET_SCHEDULE, Succeeded), c.state, c.effects);
    assert GetScheduleFlow(c, cancel, scheduleId) == Flow(c1, Next(Some(sc)));
  }

  /** A schedule that is not in the store: the sleep has no time to wake at, and the function returns false having written nothing. */
  lemma ScheduleMissing(c: Ctx, cancel: Option<nat>, p: Providers, t: Templates, scheduleId: Id, refreshToken: string, limit: nat)
    requires !Has(c.state.schedulers, scheduleId) && !Halts(cancel, |c.log| + 1)
    ensures ScheduleUploadRun(c, cancel, p, t, scheduleId, refreshToken, limit)
      == Run(Ctx(Record(c.log, GET_SCHEDULE, Succeeded), c.state, c.effects), Returned(false))
  {
    assert c.effects + [] == c.effects;
    var c1 := Ctx(Record(c.log, GET_SCHEDULE, Succeeded), c.state, c.effects);
    assert GetScheduleFlow(c, cancel, scheduleId) == Flow(c1, Next(None));
  }

  /**
   * A completed COMPLETED write: the schedule was stored, one step was recorded, and a SMART
   * schedule's trigger event was sent again after the write.
   */
  lemma CompleteScheduleCompleted(c: Ctx, cancel: Option<nat>, p: Providers, scheduleId: Id, scheduleType: string, refreshToken: string)
    requires CompleteScheduleFlow(c, cancel, p, scheduleId, scheduleType, refreshToken).exit.Next?
    ensures var f := CompleteScheduleFlow(c, cancel, p, scheduleId, scheduleType, refreshToken);
      && Has(c.state.schedulers, scheduleId)
      && f.ctx.log == Record(c.log, UPDATE_SCHEDULE_STATUS, Succeeded)
      && f.ctx.state == Schedules.StatusUpdate(c.state, scheduleId, COMPLETED)
      && f.ctx.effects == c.effects + [ScheduleStatus(scheduleId, COMPLETED)]
           + (if scheduleType == SMART then [Sent(ScheduleUploadEvent(scheduleId, refreshToken))] else [])
  {
    assert c.effects + [ScheduleStatus(scheduleId, COMPLETED)] + [] == c.effects + [ScheduleStatus(scheduleId, COMPLETED)];
  }

  /**
   * A SMART schedule whose re-send fails: the schedule is already COMPLETED, yet the run throws
   * and scheduleUpload returns false, and no event for the next upload exists.
   */
  lemma CompleteScheduleSendFails(c: Ctx, cancel: Option<nat>, p: Providers, scheduleId: Id, refreshToken: string)
    requires Has(c.state.schedulers, scheduleId) && !Halts(cancel, |c.log|) && p.sendEvent.Err?
    ensures var f := CompleteScheduleFlow(c, cancel, p, scheduleId, SMART, refreshToken);
      && f.exit.Raise?
      && f.ctx.state == Schedules.StatusUpdate(c.state, scheduleId, COMPLETED)
      && f.ctx.effects == c.effects + [ScheduleStatus(scheduleId, COMPLETED)]
  {
  }

  lemma UploadAndCompleteUnfold(c: Ctx, cancel: Option<nat>, p: Providers, t: Templates, scheduleId: Id, sc: Schedule,
                                refreshToken: string, limit: nat)
    requires UploadAndCompleteFlow(c, cancel, p, t, scheduleId, sc, refreshToken, limit).exit.Next?
    ensures var uploaded := UploadVideoFlow(c, cancel, p, t, sc.videoId, refreshToken, limit);
      && uploaded.exit.Next?
      && UploadAndCompleteFlow(c, cancel, p, t, scheduleId, sc, refreshToken, limit)
         == CompleteScheduleFlow(uploaded.ctx, cancel, p, scheduleId, sc.scheduleType, refreshToken)
  {
  }

  /** A completed `uploadVideo` on a stored video only adds effects after those already made. */
  lemma UploadVideoExtends(c: Ctx, cancel: Option<nat>, p: Providers, t: Templates, videoId: Id,
                           refreshToken: string, limit: nat, video: Video)
    requires Get(c.state.videos, videoId) == Some(video)
    requires UploadVideoFlow(c, cancel, p, t, videoId, refreshToken, limit).exit.Next?
    ensures var e := UploadVideoFlow(c, cancel, p, t, videoId, refreshToken, limit).ctx.effects;
      |c.effects| <= |e| && e == c.effects + e[|c.effects|..]
  {
    UploadVideoUnfold(c, cancel, p, t, videoId, refreshToken, limit, video);
    var c1 := Ctx(Record(c.log, GET_VIDEO_DATA, Succeeded), c.state, c.effects);
    var rendered := RenderOrReuse(c1, cancel, p, Doc(videoId, video), limit);
    RenderOrReuseCompleted(c1, cancel, p, Doc(videoId, video), limit);
    var r := rendered.ctx.effects;
    assert |c.effects| <= |r| && r[..|c.effects|] == c.effects;
    var f := PublishFlow(rendered.ctx, cancel, p, t, videoId, video, rendered.exit.value, refreshToken);
    PublishAppends(rendered.ctx, cancel, p, t, videoId, video, rendered.exit.value, refreshToken);
    ExtendsTrans(c.effects, r, f.ctx.effects);
  }

  /** Two prefix facts compose. */
  lemma ExtendsTrans(a: seq<Effect>, b: seq<Effect>, d: seq<Effect>)
    requires |a| <= |b| && b[..|a|] == a
    requires |b| <= |d| && d[..|b|] == b
    ensures |a| <= |d| && d == a + d[|a|..]
  {
    assert d[..|a|] == b[..|a|];
  }

  /**
   * A completed upload-and-complete on a stored video: the upload's steps, then the COMPLETED
   * write, which leaves the schedule as it was found with the status COMPLETED.
   */
  lemma UploadAndCompleteCompleted(c: Ctx, cancel: Option<nat>, p: Providers, t: Templates, scheduleId: Id, sc: Schedule,
                                   refreshToken: string, limit: nat, current: Schedule, video: Video)
    requires Get(c.state.schedulers, scheduleId) == Some(current) && Get(c.state.videos, sc.videoId) == Some(video)
    requires UploadAndCompleteFlow(c, cancel, p, t, scheduleId, sc, refreshToken, limit).exit.Next?
    ensures var f := UploadAndCompleteFlow(c, cancel, p, t, scheduleId, sc, refreshToken, limit);
      && Names(f.ctx.log) == Names(c.log) + [GET_VIDEO_DATA] + (if NeedsRender(video) then [RENDER_VIDEO] else [])
           + PUBLISH_STEPS + [UPDATE_SCHEDULE_STATUS]
      && Get(f.ctx.state.schedulers, scheduleId) == Some(current.(status := COMPLETED))
      && exists u :: f.ctx.effects == c.effects + u + [ScheduleStatus(scheduleId, COMPLETED)]
           + (if sc.scheduleType == SMART then [Sent(ScheduleUploadEvent(scheduleId, refreshToken))] else [])
  {
    UploadAndCompleteUnfold(c, cancel, p, t, scheduleId, sc, refreshToken, limit);
    var uploaded := UploadVideoFlow(c, cancel, p, t, sc.videoId, refreshToken, limit);
    UploadVideoOrder(c, cancel, p, t, sc.videoId, refreshToken, limit, video);
    UploadVideoKeepsSchedules(c, cancel, p, t, sc.videoId, refreshToken, limit);
    UploadVideoExtends(c, cancel, p, t, sc.videoId, refreshToken, limit, video);
    UploadThenComplete(c, uploaded.ctx, cancel, p, scheduleId, sc.scheduleType, refreshToken, current, NeedsRender(video));
  }

  /** The COMPLETED write after an upload that kept the schedules and only added steps and effects. */
  lemma UploadThenComplete(c: Ctx, uploaded: Ctx, cancel: Option<nat>, p: Providers, scheduleId: Id, scheduleType: string,
                           refreshToken: string, current: Schedule, render: bool)
    requires Get(c.state.schedulers, scheduleId) == Some(current) && uploaded.state.schedulers == c.state.schedulers
    requires Names(uploaded.log) == Names(c.log) + [GET_VIDEO_DATA] + (if render then [RENDER_VIDEO] else []) + PUBLISH_STEPS
    requires |c.effects| <= |uploaded.effects| && uploaded.effects == c.effects + uploaded.effects[|c.effects|..]
    requires CompleteScheduleFlow(uploaded, cancel, p, scheduleId, scheduleType, refreshToken).exit.Next?
    ensures var f := CompleteScheduleFlow(uploaded, cancel, p, scheduleId, scheduleType, refreshToken);
      && Names(f.ctx.log) == Names(c.log) + [GET_VIDEO_DATA] + (if render then [RENDER_VIDEO] else [])
           + PUBLISH_STEPS + [UPDATE_SCHEDULE_STATUS]
      && Get(f.ctx.state.schedulers, scheduleId) == Some(current.(status := COMPLETED))
      && exists u :: f.ctx.effects == c.effects + u + [ScheduleStatus(scheduleId, COMPLETED)]
           + (if scheduleType == SMART then [Sent(ScheduleUploadEvent(scheduleId, refreshToken))] else [])
  {
    CompleteScheduleCompleted(uploaded, cancel, p, scheduleId, scheduleType, refreshToken);
    Schedules.StatusUpdateReadBack(uploaded.state, scheduleId, current, COMPLETED);
    NamesRecord(uploaded.log, UPDATE_SCHEDULE_STATUS, Succeeded);
    var u := uploaded.effects[|c.effects|..];
    assert uploaded.effects == c.effects + u;
  }

  lemma UploadScheduledUnfold(c: Ctx, cancel: Option<nat>, p: Providers, t: Templates, scheduleId: Id, sc: Schedule,
                              refreshToken: string, limit: nat)
    requires Has(c.state.schedulers, scheduleId) && !Halts(cancel, |c.log|)
    ensures UploadScheduledFlow(c, cancel, p, t, scheduleId, sc, refreshToken, limit) == UploadAndCompleteFlow(
      Ctx(Record(c.log, UPDATE_SCHEDULE_STATUS, Succeeded), Schedules.StatusUpdate(c.state, scheduleId, PROCESSING),
          c.effects + [ScheduleStatus(scheduleId, PROCESSING)]),
      cancel, p, t, scheduleId, sc, refreshToken, limit)
  {
    var c1 := Ctx(Record(c.log, UPDATE_SCHEDULE_STATUS, Succeeded), Schedules.StatusUpdate(c.state, scheduleId, PROCESSING),
                  c.effects + [ScheduleStatus(scheduleId, PROCESSING)]);
    assert UpdateScheduleStatusFlow(c, cancel, scheduleId, PROCESSING) == Flow(c1, Next(()));
  }

  /**
   * A completed upload of a stored schedule's stored video: PROCESSING, the upload, COMPLETED;
   * the schedule ends as it was read with the status COMPLETED.
   */
  lemma UploadScheduledCompleted(c: Ctx, cancel: Option<nat>, p: Providers, t: Templates, scheduleId: Id, sc: Schedule,
                                 refreshToken: string, limit: nat, video: Video)
    requires Get(c.state.schedulers, scheduleId) == Some(sc) && Get(c.state.videos, sc.videoId) == Some(video)
    requires UploadScheduledFlow(c, cancel, p, t, scheduleId, sc, refreshToken, limit).exit.Next?
    ensures var f := UploadScheduledFlow(c, cancel, p, t, scheduleId, sc, refreshToken, limit);
      && Names(f.ctx.log) == Names(c.log) + [UPDATE_SCHEDULE_STATUS] + [GET_VIDEO_DATA]
           + (if NeedsRender(video) then [RENDER_VIDEO] else []) + PUBLISH_STEPS + [UPDATE_SCHEDULE_STATUS]
      && Get(f.ctx.state.schedulers, scheduleId) == Some(sc.(status := COMPLETED))
      && exists u :: f.ctx.effects == c.effects + [ScheduleStatus(scheduleId, PROCESSING)] + u + [ScheduleStatus(scheduleId, COMPLETED)]
           + (if sc.scheduleType == SMART then [Sent(ScheduleUploadEvent(scheduleId, refreshToken))] else [])
  {
    assert UpdateScheduleStatusFlow(c, cancel, scheduleId, PROCESSING).exit.Next?;
    UploadScheduledUnfold(c, cancel, p, t, scheduleId, sc, refreshToken, limit);
    var c1 := Ctx(Record(c.log, UPDATE_SCHEDULE_STATUS, Succeeded), Schedules.StatusUpdate(c.state, scheduleId, PROCESSING),
                  c.effects + [ScheduleStatus(scheduleId, PROCESSING)]);
    Schedules.StatusUpdateReadBack(c.state, scheduleId, sc, PROCESSING);
    NamesRecord(c.log, UPDATE_SCHEDULE_STATUS, Succeeded);
    UploadAndCompleteCompleted(c1, cancel, p, t, scheduleId, sc, refreshToken, limit, sc.(status := PROCESSING), video);
  }

  /** Cancelled before the sleep is over, scheduleUpload ends cancelled having written nothing. */
  lemma ScheduleCancelledEarly(c: Ctx, cancel: Option<nat>, p: Providers, t: Templates, scheduleId: Id, refreshToken: string, limit: nat)
    ensures var r := ScheduleUploadRun(c, cancel, p, t, scheduleId, refreshToken, limit);
      Halts(cancel, |c.log| + 1) ==> r.ending == Cancelled && r.ctx.state == c.state && r.ctx.effects == c.effects
  {
    if Halts(cancel, |c.log| + 1) && !Halts(cancel, |c.log|) {
      assert c.effects + [] == c.effects;
      var c1 := Ctx(Record(c.log, GET_SCHEDULE, Succeeded), c.state, c.effects);
      assert GetScheduleFlow(c, cancel, scheduleId) == Flow(c1, Next(Get(c.state.schedulers, scheduleId)));
    }
  }

  /**
   * A scheduleUpload that returned true on a stored schedule: it read the schedule, slept, then
   * made the PROCESSING write, the upload's steps and the COMPLETED write, in that order; the
   * schedule ends COMPLETED, and only a SMART schedule sends its trigger event again, last.
   */
  lemma ScheduleUploadSucceeds(c: Ctx, cancel: Option<nat>, p: Providers, t: Templates, scheduleId: Id,
                               refreshToken: string, limit: nat, sc: Schedule, video: Video)
    requires Get(c.state.schedulers, scheduleId) == Some(sc) && Get(c.state.videos, sc.videoId) == Some(video)
    requires ScheduleUploadRun(c, cancel, p, t, scheduleId, refreshToken, limit).ending == Returned(true)
    ensures var r := ScheduleUploadRun(c, cancel, p, t, scheduleId, refreshToken, limit);
      && Names(r.ctx.log) == Names(c.log) + [GET_SCHEDULE] + [WAIT_FOR_SCHEDULED_TIME] + [UPDATE_SCHEDULE_STATUS] + [GET_VIDEO_DATA]
           + (if NeedsRender(video) then [RENDER_VIDEO] else []) + PUBLISH_STEPS + [UPDATE_SCHEDULE_STATUS]
      && Get(r.ctx.state.schedulers, scheduleId) == Some(sc.(status := COMPLETED))
      && exists u :: r.ctx.effects == c.effects + [ScheduleStatus(scheduleId, PROCESSING)] + u + [ScheduleStatus(scheduleId, COMPLETED)]
           + (if sc.scheduleType == SMART then [Sent(ScheduleUploadEvent(scheduleId, refreshToken))] else [])
  {
    ScheduleCancelledEarly(c, cancel, p, t, scheduleId, refreshToken, limit);
    ScheduleSleepsFirst(c, cancel, p, t, scheduleId, refreshToken, limit, sc);
    var log1 := Record(c.log, GET_SCHEDULE, Succeeded);
    var c2 := Ctx(Record(log1, WAIT_FOR_SCHEDULED_TIME, Slept(sc.datetime)), c.state, c.effects);
    NamesRecord(c.log, GET_SCHEDULE, Succeeded);
    NamesRecord(log1, WAIT_FOR_SCHEDULED_TIME, Slept(sc.datetime));
    UploadScheduledCompleted(c2, cancel, p, t, scheduleId, sc, refreshToken, limit, video);
  }

  /**
   * The event a completed SMART run sends starts a new run for the same schedule, and that run
   * sleeps until the very same `datetime`: the schedule is never moved to the next day.
   */
  lemma SmartRerunSleepsUntilSameTime(c: Ctx, cancel: Option<nat>, p: Providers, t: Templates, scheduleId: Id,
                                      refreshToken: string, limit: nat, sc: Schedule, video: Video, next: Option<nat>)
    requires Get(c.state.schedulers, scheduleId) == Some(sc) && Get(c.state.videos, sc.videoId) == Some(video)
    requires sc.scheduleType == SMART && !Halts(next, 1)
    requires ScheduleUploadRun(c, cancel, p, t, scheduleId, refreshToken, limit).ending == Returned(true)
    ensures var r := ScheduleUploadRun(c, cancel, p, t, scheduleId, refreshToken, limit);
      var e := ScheduleUploadEvent(scheduleId, refreshToken);
      && |r.ctx.effects| > 0 && r.ctx.effects[|r.ctx.effects| - 1] == Sent(e)
      && Subject(SCHEDULE_UPLOAD_FN, e) == IdField(scheduleId)
      && ScheduleUploadFlow(Ctx([], r.ctx.state, []), next, p, t, scheduleId, refreshToken, limit) == UploadScheduledFlow(
           Ctx(Record(Record([], GET_SCHEDULE, Succeeded), WAIT_FOR_SCHEDULED_TIME, Slept(sc.datetime)), r.ctx.state, []),
           next, p, t, scheduleId, sc.(status := COMPLETED), refreshToken, limit)
  {
    ScheduleUploadSucceeds(c, cancel, p, t, scheduleId, refreshToken, limit, sc, video);
    var r := ScheduleUploadRun(c, cancel, p, t, scheduleId, refreshToken, limit);
    var e := ScheduleUploadEvent(scheduleId, refreshToken);
    var u :| r.ctx.effects == c.effects + [ScheduleStatus(scheduleId, PROCESSING)] + u + [ScheduleStatus(scheduleId, COMPLETED)] + [Sent(e)];
    assert r.ctx.effects[|r.ctx.effects| - 1] == Sent(e);
    ScheduleSleepsFirst(Ctx([], r.ctx.state, []), next, p, t, scheduleId, refreshToken, limit, sc.(status := COMPLETED));
  }

  /** The statuses scheduleUpload can leave on a schedule read as `sc`: as read, PROCESSING or COMPLETED. */
  predicate StatusOnly(s: State, scheduleId: Id, sc: Schedule) {
    Get(s.schedulers, scheduleId) in {Some(sc), Some(sc.(status := PROCESSING)), Some(sc.(status := COMPLETED))}
  }

  lemma CompleteScheduleKeeps(c: Ctx, cancel: Option<nat>, p: Providers, scheduleId: Id, scheduleType: string,
                              refreshToken: string, current: Schedule)
    requires Get(c.state.schedulers, scheduleId) == Some(current)
    ensures Get(CompleteScheduleFlow(c, cancel, p, scheduleId, scheduleType, refreshToken).ctx.state.schedulers, scheduleId)
      in {Some(current), Some(current.(status := COMPLETED))}
  {
    Schedules.StatusUpdateReadBack(c.state, scheduleId, current, COMPLETED);
  }

  lemma UploadAndCompleteKeeps(c: Ctx, cancel: Option<nat>, p: Providers, t: Templates, scheduleId: Id, sc: Schedule,
                               refreshToken: string, limit: nat, current: Schedule)
    requires Get(c.state.schedulers, scheduleId) == Some(current)
    ensures Get(UploadAndCompleteFlow(c, cancel, p, t, scheduleId, sc, refreshToken, limit).ctx.state.schedulers, scheduleId)
      in {Some(current), Some(current.(status := COMPLETED))}
  {
    var uploaded := UploadVideoFlow(c, cancel, p, t, sc.videoId, refreshToken, limit);
    UploadVideoKeepsSchedules(c, cancel, p, t, sc.videoId, refreshToken, limit);
    if uploaded.exit.Next? {
      CompleteScheduleKeeps(uploaded.ctx, cancel, p, scheduleId, sc.scheduleType, refreshToken, current);
    }
  }

  lemma UploadScheduledKeeps(c: Ctx, cancel: Option<nat>, p: Providers, t: Templates, scheduleId: Id, sc: Schedule,
                             refreshToken: string, limit: nat)
    requires Get(c.state.schedulers, scheduleId) == Some(sc)
    ensures StatusOnly(UploadScheduledFlow(c, cancel, p, t, scheduleId, sc, refreshToken, limit).ctx.state, scheduleId, sc)
  {
    if !Halts(cancel, |c.log|) {
      UploadScheduledUnfold(c, cancel, p, t, scheduleId, sc, refreshToken, limit);
      var c1 := Ctx(Record(c.log, UPDATE_SCHEDULE_STATUS, Succeeded), Schedules.StatusUpdate(c.state, scheduleId, PROCESSING),
                    c.effects + [ScheduleStatus(scheduleId, PROCESSING)]);
      Schedules.StatusUpdateReadBack(c.state, scheduleId, sc, PROCESSING);
      UploadAndCompleteKeeps(c1, cancel, p, t, scheduleId, sc, refreshToken, limit, sc.(status := PROCESSING));
    }
  }

  /**
   * scheduleUpload never marks a schedule FAILED and changes nothing else in it: however the run
   * ends, the schedule it read is left as read, PROCESSING or COMPLETED. A run that throws
   * after the PROCESSING write leaves the schedule PROCESSING.
   */
  lemma ScheduleUploadNeverFails(c: Ctx, cancel: Option<nat>, p: Providers, t: Templates, scheduleId: Id,
                                 refreshToken: string, limit: nat, sc: Schedule)
    requires Get(c.state.schedulers, scheduleId) == Some(sc)
    ensures StatusOnly(ScheduleUploadRun(c, cancel, p, t, scheduleId, refreshToken, limit).ctx.state, scheduleId, sc)
  {
    ScheduleCancelledEarly(c, cancel, p, t, scheduleId, refreshToken, limit);
    if !Halts(cancel, |c.log| + 1) {
      ScheduleSleepsFirst(c, cancel, p, t, scheduleId, refreshToken, limit, sc);
      var c2 := Ctx(Record(Record(c.log, GET_SCHEDULE, Succeeded), WAIT_FOR_SCHEDULED_TIME, Slept(sc.datetime)), c.state, c.effects);
      UploadScheduledKeeps(c2, cancel, p, t, scheduleId, sc, refreshToken, limit);
    }
  }

  /** A scheduleUpload cancelled before it starts does nothing. */
  lemma ScheduleUploadCancelled(c: Ctx, cancel: Option<nat>, p: Providers, t: Templates, scheduleId: Id, refreshToken: string, limit: nat)
    requires Halts(cancel, |c.log|)
    ensures ScheduleUploadRun(c, cancel, p, t, scheduleId, refreshToken, limit) == Run(c, Cancelled)
  {
  }
}
