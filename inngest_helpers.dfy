/**
 * inngest/helpers.ts: the steps the pipelines are built from. Each helper is a pure function
 * giving the step's flow from a context, and a method that performs the step on the store and
 * the run and is proved to do exactly that.
 */
module InngestHelpers {
  import opened Wrappers
  import opened Tables
  import opened Schema
  import opened Store
  import opened JsStrings
  import opened LibHelpers
  import opened Collaborators
  import opened Steps
  import Videos
  import Images
  import Schedules
  import Users

  const GET_VIDEO_DATA := "get-video-data"
  const UPDATE_VIDEO_STATUS := "update-video-status"
  const GENERATE_AUDIO_URL := "generate-audio-url"
  const GENERATE_CAPTIONS := "generate-captions"
  const GENERATE_IMAGES_PROMPTS := "generate-images-prompts"
  const GENERATE_IMAGES_FROM_PROMPTS := "generate-images-from-prompts"
  const UPDATE_IMAGE_GENERATION := "update-image-generation"
  const GET_IMAGE_GENERATION := "get-image-generation"
  const GET_DESIRED_IMAGE_PROPS := "get-desired-image-props"
  const GENERATE_IMAGE_URL := "generate-image-url"
  const UPDATE_VIDEO_URL := "update-video-url"
  const RENDER_VIDEO := "renderVideo"
  const GENERATE_METADATA := "generate-metadata"
  const GENERATE_ACCESS_TOKEN := "generate-access-token"
  const UPLOAD_TO_YOUTUBE := "upload-to-youtube-server"
  const SEND_EMAIL := "send-email-notification"
  const GET_SCHEDULE := "get-schedule"
  const UPDATE_SCHEDULE_STATUS := "update-schedule-status"

  const NO_AUDIO_STREAM := "No audio stream received"
  /** A property read on null or undefined, or a call on a value that has no such method. */
  const TYPE_ERROR := "TypeError"
  /** The host stops a step that runs longer than it allows. */
  const TIMED_OUT := "Step timed out"

  /*
   * Generic step shapes.
   */

  /** A step whose body only asks a provider (or a query) for `r`. */
  function CallFlow<T>(c: Ctx, cancel: Option<nat>, name: string, r: Result<T>): Flow<T> {
    RunStep(c, cancel, name, Attempt(c.state, [], r))
  }

  /** Code between steps: a throw leaves the run where it is. */
  function Outside<T>(c: Ctx, r: Result<T>): (f: Flow<T>)
    ensures f.ctx == c && (f.exit.Next? <==> r.Ok?) && !f.exit.Halt?
    ensures r.Ok? ==> f.exit == Next(r.value)
  {
    if r.Ok? then Flow(c, Next(r.value)) else Flow(c, Raise)
  }

  /** A step body that is one mutation: on success the store is `p`'s and the effect is `e`. */
  function WriteAttempt(s: State, p: Result<State>, e: Effect): (a: Attempt<()>)
    ensures a.result.Ok? <==> p.Ok?
    ensures p.Ok? ==> a.state == p.value && a.effects == [e]
    ensures p.Err? ==> a.state == s && a.effects == []
  {
    match p
    case Ok(t) => Attempt(t, [e], Ok(()))
    case Err(m) => Attempt(s, [], Err(m))
  }

  /** The document `id` of a table, with its id, as a query returns it. */
  function Lookup<T>(docs: seq<Doc<T>>, id: Id): (r: Option<Doc<T>>)
    ensures r.Some? <==> Has(docs, id)
    ensures r.Some? ==> r.value.id == id && r.value in docs
  {
    match Get(docs, id)
    case None => None
    case Some(v) => Some(Doc(id, v))
  }

  /** `reply as string` handed to cleanJSONResponse: an undefined reply has no `replace` and throws. */
  function CleanReply<J>(reply: Option<string>, parse: string -> Result<J>): (r: Result<J>)
    ensures reply.None? ==> r.Err?
    ensures reply.Some? ==> r == parse(CleanJsonText(reply.value))
  {
    match reply
    case None => Err(TYPE_ERROR)
    case Some(text) => CleanJsonResponse(text, parse)
  }

  /*
   * getVideoData, updateVideoStatus
   */

  function GetVideoDataFlow(c: Ctx, cancel: Option<nat>, videoId: Id): Flow<Option<Doc<Video>>> {
    CallFlow(c, cancel, GET_VIDEO_DATA, Ok(Lookup(c.state.videos, videoId)))
  }

  method GetVideoData(db: Db, ex: Execution, videoId: Id) returns (exit: Exit<Option<Doc<Video>>>)
    requires ex.Valid()
    modifies ex
    ensures ex.Valid()
    ensures Flow(Current(db, ex), exit) == GetVideoDataFlow(old(Current(db, ex)), ex.cancel, videoId)
  {
    exit := RunCall(db, ex, GET_VIDEO_DATA, Ok(Lookup(db.videos, videoId)));
  }

  /** The body of "update-video-status": the `updateVideoStatus` mutation, stamped with the step's time. */
  function VideoStatusAttempt(s: State, videoId: Id, status: string, now: Timestamp): (a: Attempt<()>)
    ensures a.result.Ok? <==> Has(s.videos, videoId)
    ensures a.result.Ok? ==> a.effects == [VideoStatus(videoId, status)]
    ensures a.result.Err? ==> a.state == s && a.effects == []
    ensures a.state.schedulers == s.schedulers && a.state.imageGenerations == s.imageGenerations && a.state.users == s.users
    ensures a.result.Ok? && WellFormed(s) ==> WellFormed(a.state) && Videos.PatchedTo(s, a.state, videoId,
      Get(s.videos, videoId).value.(status := status, updatedAt := now))
  {
    WriteAttempt(s, Videos.PatchStatus(s, videoId, status, now), VideoStatus(videoId, status))
  }

  function UpdateVideoStatusFlow(c: Ctx, cancel: Option<nat>, p: Providers, videoId: Id, status: string): Flow<()> {
    RunStep(c, cancel, UPDATE_VIDEO_STATUS, VideoStatusAttempt(c.state, videoId, status, p.clock(|c.log|)))
  }

  method UpdateVideoStatus(db: Db, ex: Execution, p: Providers, videoId: Id, status: string) returns (exit: Exit<()>)
    requires db.Valid() && ex.Valid()
    modifies db, ex
    ensures db.Valid() && ex.Valid()
    ensures Flow(Current(db, ex), exit) == UpdateVideoStatusFlow(old(Current(db, ex)), ex.cancel, p, videoId, status)
  {
    if ex.Halted() {
      return Halt;
    }
    var r := Videos.UpdateVideoStatus(db, videoId, status, p.clock(|ex.log|));
    if r.Err? {
      ex.Log(UPDATE_VIDEO_STATUS, Failed);
      return Raise;
    }
    ex.Emit([VideoStatus(videoId, status)]);
    ex.Log(UPDATE_VIDEO_STATUS, Succeeded);
    exit := Next(());
  }

  /*
   * generateAudioUrl, generateCaptions
   */

  /** The body of "generate-audio-url": speak, read the whole stream, upload the buffer. */
  function AudioUrl(p: Providers, script: string, voice: string): (r: Result<string>)
    ensures p.speak(script, voice).Err? ==> r == Err(p.speak(script, voice).msg)
    ensures p.speak(script, voice) == Ok(None) ==> r == Err(NO_AUDIO_STREAM)
    ensures forall stream :: p.speak(script, voice) == Ok(Some(stream)) ==>
      && (AudioBufferOf(stream).Err? ==> r == Err(AudioBufferOf(stream).msg))
      && (AudioBufferOf(stream).Ok? ==> r == p.uploadAudio(AudioBufferOf(stream).value))
    ensures r.Ok? ==> exists stream ::
      && p.speak(script, voice) == Ok(Some(stream))
      && AudioBufferOf(stream).Ok? && r == p.uploadAudio(AudioBufferOf(stream).value)
  {
    match p.speak(script, voice)
    case Err(m) => Err(m)
    case Ok(None) => Err(NO_AUDIO_STREAM)
    case Ok(Some(stream)) =>
      match AudioBufferOf(stream)
      case Err(m) => Err(m)
      case Ok(buffer) => p.uploadAudio(buffer)
  }

  method GenerateAudioUrl(db: Db, ex: Execution, p: Providers, script: string, voice: string) returns (exit: Exit<string>)
    requires ex.Valid()
    modifies ex
    ensures ex.Valid()
    ensures Flow(Current(db, ex), exit) == CallFlow(old(Current(db, ex)), ex.cancel, GENERATE_AUDIO_URL, AudioUrl(p, script, voice))
  {
    if ex.Halted() {
      return Halt;
    }
    var spoken := p.speak(script, voice);
    var r: Result<string>;
    if spoken.Err? {
      r := Err(spoken.msg);
    } else if spoken.value.None? {
      r := Err(NO_AUDIO_STREAM);
    } else {
      var reader := new StreamReader(spoken.value.value);
      var buffer := GetAudioBuffer(reader);
      if buffer.Err? {
        r := Err(buffer.msg);
      } else {
        r := p.uploadAudio(buffer.value);
      }
    }
    exit := RunCall(db, ex, GENERATE_AUDIO_URL, r);
  }

  function CaptionsFlow(c: Ctx, cancel: Option<nat>, p: Providers, audioUrl: string): Flow<Option<seq<Word>>> {
    CallFlow(c, cancel, GENERATE_CAPTIONS, p.transcribe(audioUrl))
  }

  method GenerateCaptions(db: Db, ex: Execution, p: Providers, audioUrl: string) returns (exit: Exit<Option<seq<Word>>>)
    requires ex.Valid()
    modifies ex
    ensures ex.Valid()
    ensures Flow(Current(db, ex), exit) == CaptionsFlow(old(Current(db, ex)), ex.cancel, p, audioUrl)
  {
    exit := RunCall(db, ex, GENERATE_CAPTIONS, p.transcribe(audioUrl));
  }

  /*
   * generateImages
   */

  const STYLE_SLOT := "{{STYLE}}"
  const SCRIPT_SLOT := "{{SCRIPT}}"
  const TYPE_SLOT := "{{TYPE}}"

  /** The image-prompt request: the first `{{STYLE}}` filled, then the first `{{SCRIPT}}`. */
  function ImagePromptText(template: string, style: string, script: string): string {
    ReplaceFirst(ReplaceFirst(template, STYLE_SLOT, style), SCRIPT_SLOT, script)
  }

  /** With the style slot before the script slot, as in the template, each value lands in its slot. */
  lemma ImagePromptFills(a: string, b: string, c: string, style: string, script: string)
    requires NoDoubleBrace(a) && NoDoubleBrace(b) && NoDoubleBrace(style)
    requires DollarFree(style) && DollarFree(script)
    ensures ImagePromptText(a + STYLE_SLOT + b + SCRIPT_SLOT + c, style, script) == a + style + b + script + c
  {
    assert a + STYLE_SLOT + b + SCRIPT_SLOT + c == a + STYLE_SLOT + (b + SCRIPT_SLOT + c);
    FillOne(a, STYLE_SLOT, b + SCRIPT_SLOT + c, style);
    NoDoubleBraceConcat(a, style);
    NoDoubleBraceConcat(a + style, b);
    assert a + style + (b + SCRIPT_SLOT + c) == (a + style + b) + SCRIPT_SLOT + c;
    FillOne(a + style + b, SCRIPT_SLOT, c, script);
  }

  /** The body of "generate-images-prompts": the model's reply, cleaned and parsed. */
  function ImagePrompts(p: Providers, t: Templates, style: string, script: string): (r: Result<Option<seq<Option<string>>>>)
    ensures p.gemini(ImagePromptText(t.imagePrompt, style, script)).Err? ==> r.Err?
    ensures p.gemini(ImagePromptText(t.imagePrompt, style, script)) == Ok(None) ==> r.Err?
    ensures forall reply :: p.gemini(ImagePromptText(t.imagePrompt, style, script)) == Ok(Some(reply)) ==>
      r == p.parsePrompts(CleanJsonText(reply))
    ensures r.Ok? ==> exists reply ::
      && p.gemini(ImagePromptText(t.imagePrompt, style, script)) == Ok(Some(reply))
      && r == p.parsePrompts(CleanJsonText(reply))
  {
    match p.gemini(ImagePromptText(t.imagePrompt, style, script))
    case Err(m) => Err(m)
    case Ok(reply) => CleanReply(reply, p.parsePrompts)
  }

  /** `if (url) return url;`: only a non-empty url is returned, any other answer gives undefined. */
  function Truthy(url: Option<string>): (r: Option<string>)
    ensures r.Some? <==> url.Some? && url.value != ""
    ensures r.Some? ==> r == url
  {
    if url.Some? && url.value != "" then url else None
  }

  /**
   * `Promise.all(prompts.map(...))`, one request per prompt: the truthy urls in prompt order, or
   * the failure of the first request (in prompt order) that fails.
   */
  function GenerateAll(prompts: seq<Option<string>>, generate: Option<string> -> Result<Option<string>>): (r: Result<seq<Option<string>>>)
    ensures r.Ok? <==> forall i :: 0 <= i < |prompts| ==> generate(prompts[i]).Ok?
    ensures r.Ok? ==> |r.value| == |prompts| && forall i :: 0 <= i < |prompts| ==> r.value[i] == Truthy(generate(prompts[i]).value)
    ensures r.Err? ==> exists i ::
      && 0 <= i < |prompts| && generate(prompts[i]) == Err(r.msg)
      && forall j :: 0 <= j < i ==> generate(prompts[j]).Ok?
    decreases |prompts|
  {
    if prompts == [] then Ok([])
    else match generate(prompts[0])
      case Err(m) => Err(m)
      case Ok(url) =>
        var rest := GenerateAll(prompts[1..], generate);
        assert forall i :: 1 <= i < |prompts| ==> prompts[i] == prompts[1..][i - 1];
        if rest.Err? then
          assert exists i ::
            && 1 <= i < |prompts| && generate(prompts[i]) == Err(rest.msg)
            && forall j :: 0 <= j < i ==> generate(prompts[j]).Ok? by {
            var k :|
              && 0 <= k < |prompts| - 1 && generate(prompts[1..][k]) == Err(rest.msg)
              && forall j :: 0 <= j < k ==> generate(prompts[1..][j]).Ok?;
            assert generate(prompts[k + 1]) == Err(rest.msg);
            forall j | 0 <= j < k + 1 ensures generate(prompts[j]).Ok? {
              if j > 0 { assert prompts[j] == prompts[1..][j - 1]; }
            }
          }
          Err(rest.msg)
        else Ok([Truthy(url)] + rest.value)
  }

  /** The body of "generate-images-from-prompts"; a parsed reply that is no array has no `map`. */
  function ImagesFromPrompts(p: Providers, prompts: Option<seq<Option<string>>>): (r: Result<seq<Option<string>>>)
    ensures prompts.None? ==> r.Err?
    ensures prompts.Some? ==> r == GenerateAll(prompts.value, p.generateImage)
  {
    match prompts
    case None => Err(TYPE_ERROR)
    case Some(ps) => GenerateAll(ps, p.generateImage)
  }

  /** `generateImages`: the prompts step, then the images step on the prompts it returned. */
  function GenerateImagesFlow(c: Ctx, cancel: Option<nat>, p: Providers, t: Templates, script: string, style: string)
    : Flow<seq<Option<string>>>
  {
    var prompts :- CallFlow(c, cancel, GENERATE_IMAGES_PROMPTS, ImagePrompts(p, t, style, script));
    CallFlow(prompts.ctx, cancel, GENERATE_IMAGES_FROM_PROMPTS, ImagesFromPrompts(p, prompts.value))
  }

  method GenerateImages(db: Db, ex: Execution, p: Providers, t: Templates, script: string, style: string)
    returns (exit: Exit<seq<Option<string>>>)
    requires ex.Valid()
    modifies ex
    ensures ex.Valid()
    ensures Flow(Current(db, ex), exit) == GenerateImagesFlow(old(Current(db, ex)), ex.cancel, p, t, script, style)
  {
    var prompts := RunCall(db, ex, GENERATE_IMAGES_PROMPTS, ImagePrompts(p, t, style, script));
    if !prompts.Next? {
      return prompts.Propagate();
    }
    exit := RunCall(db, ex, GENERATE_IMAGES_FROM_PROMPTS, ImagesFromPrompts(p, prompts.value));
  }

  /*
   * updateImage, getImageData, getDesiredImageProps, generateImageUrl
   */

  /**
   * The body of "update-image-generation". The `image` argument is a step result, so an
   * undefined url has become null, which the `v.optional(v.string())` validator rejects.
   */
  function ImageJobAttempt(s: State, imageId: Id, status: string, image: Option<string>): (a: Attempt<()>)
    ensures a.result.Ok? <==> image.Some? && Has(s.imageGenerations, imageId)
    ensures a.result.Ok? ==> a.effects == [ImageJob(imageId, status, image)]
    ensures a.result.Err? ==> a.state == s && a.effects == []
    ensures a.state.schedulers == s.schedulers && a.state.videos == s.videos && a.state.users == s.users
    ensures a.result.Ok? ==> a.state == s.(imageGenerations := a.state.imageGenerations)
    ensures a.result.Ok? && WellFormed(s) ==>
      && WellFormed(a.state)
      && Replaced(s.imageGenerations, a.state.imageGenerations, imageId,
                  Get(s.imageGenerations, imageId).value.(status := status, image := image))
  {
    if image.None? then Attempt(s, [], Err(INVALID))
    else WriteAttempt(s, Images.PatchImageGeneration(s, imageId, status, image), ImageJob(imageId, status, image))
  }

  function UpdateImageFlow(c: Ctx, cancel: Option<nat>, imageId: Id, status: string, image: Option<string>): Flow<()> {
    RunStep(c, cancel, UPDATE_IMAGE_GENERATION, ImageJobAttempt(c.state, imageId, status, image))
  }

  method UpdateImage(db: Db, ex: Execution, imageId: Id, status: string, image: Option<string>) returns (exit: Exit<()>)
    requires db.Valid() && ex.Valid()
    modifies db, ex
    ensures db.Valid() && ex.Valid()
    ensures Flow(Current(db, ex), exit) == UpdateImageFlow(old(Current(db, ex)), ex.cancel, imageId, status, image)
  {
    if ex.Halted() {
      return Halt;
    }
    if image.None? {
      ex.Log(UPDATE_IMAGE_GENERATION, Failed);
      return Raise;
    }
    var r := Images.UpdateImageGeneration(db, imageId, status, image);
    if r.Err? {
      ex.Log(UPDATE_IMAGE_GENERATION, Failed);
      return Raise;
    }
    ex.Emit([ImageJob(imageId, status, image)]);
    ex.Log(UPDATE_IMAGE_GENERATION, Succeeded);
    exit := Next(());
  }

  function GetImageDataFlow(c: Ctx, cancel: Option<nat>, imageId: Id): Flow<Option<ImageGeneration>> {
    CallFlow(c, cancel, GET_IMAGE_GENERATION, Ok(Get(c.state.imageGenerations, imageId)))
  }

  method GetImageData(db: Db, ex: Execution, imageId: Id) returns (exit: Exit<Option<ImageGeneration>>)
    requires ex.Valid()
    modifies ex
    ensures ex.Valid()
    ensures Flow(Current(db, ex), exit) == GetImageDataFlow(old(Current(db, ex)), ex.cancel, imageId)
  {
    exit := RunCall(db, ex, GET_IMAGE_GENERATION, Ok(Get(db.imageGenerations, imageId)));
  }

  /** The request `getDesiredImageProps` sends: the first `{{PROMPT}}` filled, then the first `{{TYPE}}`. */
  function DesiredPropsText(template: string, prompt: string, imageType: string): string {
    ReplaceFirst(ReplaceFirst(template, PROMPT_SLOT, prompt), TYPE_SLOT, imageType)
  }

  /** `p` occurs in `x + y` at `|x| + k` exactly when it occurs in `y` at `k`. */
  lemma OccursShift(x: string, y: string, p: string, k: nat)
    ensures OccursAt(x + y, p, |x| + k) <==> OccursAt(y, p, k)
  {
    if k + |p| <= |y| {
      assert (x + y)[|x| + k..|x| + k + |p|] == y[k..k + |p|];
    }
  }

  /** No `{{PROMPT}}` starts inside a `{{TYPE}}`. */
  lemma NoPromptInTypeSlot(x: string, y: string, k: nat)
    requires |x| <= k < |x| + |TYPE_SLOT|
    ensures !OccursAt(x + TYPE_SLOT + y, PROMPT_SLOT, k)
  {
    var s := x + TYPE_SLOT + y;
    assert s[k] == TYPE_SLOT[k - |x|];
    if k == |x| {
      assert s[k + 2] == TYPE_SLOT[2] != PROMPT_SLOT[2];
    } else if k == |x| + 1 {
      assert s[k + 1] == TYPE_SLOT[2] != PROMPT_SLOT[1];
    } else {
      assert s[k] != PROMPT_SLOT[0];
    }
  }

  /** In a template holding `{{TYPE}}` before `{{PROMPT}}`, the first `{{PROMPT}}` is the template's slot. */
  lemma PromptSlotAfterType(a: string, b: string, c: string)
    requires NoDoubleBrace(a) && NoDoubleBrace(b)
    ensures FindFirst(a + TYPE_SLOT + b + PROMPT_SLOT + c, PROMPT_SLOT) == Some(|a| + |TYPE_SLOT| + |b|)
  {
    var h := a + TYPE_SLOT + b;
    NoPromptInHead(a, b, PROMPT_SLOT + c);
    assert h + PROMPT_SLOT + c == h + (PROMPT_SLOT + c);
    assert (h + (PROMPT_SLOT + c))[|h|..|h| + |PROMPT_SLOT|] == PROMPT_SLOT;
    FirstOccurrence(h + PROMPT_SLOT + c, PROMPT_SLOT, |h|);
  }

  /** No `{{PROMPT}}` starts in `a + {{TYPE}} + b`, whatever follows. */
  lemma NoPromptInHead(a: string, b: string, y: string)
    requires NoDoubleBrace(a) && NoDoubleBrace(b)
    ensures forall k :: 0 <= k < |a| + |TYPE_SLOT| + |b| ==> !OccursAt(a + TYPE_SLOT + b + y, PROMPT_SLOT, k)
  {
    var n := |a| + |TYPE_SLOT|;
    forall k | 0 <= k < n + |b| ensures !OccursAt(a + TYPE_SLOT + b + y, PROMPT_SLOT, k) {
      if k < |a| {
        NoPlaceholderStartsIn(a, TYPE_SLOT + b + y, PROMPT_SLOT);
        assert a + TYPE_SLOT + b + y == a + (TYPE_SLOT + b + y);
      } else if k < n {
        NoPromptInTypeSlot(a, b + y, k);
        assert a + TYPE_SLOT + b + y == a + TYPE_SLOT + (b + y);
      } else {
        NoPlaceholderStartsIn(b, y, PROMPT_SLOT);
        OccursShift(a + TYPE_SLOT, b + y, PROMPT_SLOT, k - n);
        assert a + TYPE_SLOT + b + y == (a + TYPE_SLOT) + (b + y);
      }
    }
  }

  /**
   * With `{{TYPE}}` before `{{PROMPT}}`, as in the template: the prompt lands in the prompt slot
   * and the type in the type slot, whatever the two contain.
   */
  lemma DesiredPropsFills(a: string, b: string, c: string, prompt: string, imageType: string)
    requires NoDoubleBrace(a) && NoDoubleBrace(b) && DollarFree(prompt) && DollarFree(imageType)
    ensures DesiredPropsText(a + TYPE_SLOT + b + PROMPT_SLOT + c, prompt, imageType) == a + imageType + b + prompt + c
  {
    PromptFilledFirst(a, b, c, prompt);
    FillOne(a, TYPE_SLOT, b + prompt + c, imageType);
  }

  /** The first fill, of `{{PROMPT}}`, leaves `{{TYPE}}` in place for the second. */
  lemma PromptFilledFirst(a: string, b: string, c: string, prompt: string)
    requires NoDoubleBrace(a) && NoDoubleBrace(b) && DollarFree(prompt)
    ensures ReplaceFirst(a + TYPE_SLOT + b + PROMPT_SLOT + c, PROMPT_SLOT, prompt) == a + TYPE_SLOT + (b + prompt + c)
  {
    PromptSlotAfterType(a, b, c);
    ReplaceAt(a + TYPE_SLOT + b, PROMPT_SLOT, c, prompt);
    assert a + TYPE_SLOT + b + prompt + c == a + TYPE_SLOT + (b + prompt + c);
  }

  /** What "get-desired-image-props" returns: the two fields it copies off the parsed reply. */
  datatype ImageProps = ImageProps(prompt: Option<string>, responseExtension: Option<string>)

  function Field(o: JsonObject, key: string): (r: Option<string>)
    ensures r.Some? <==> key in o
    ensures r.Some? ==> r.value == o[key]
  {
    if key in o then Some(o[key]) else None
  }

  /** Keeps `prompt` and `responseExtension`; any other field of the reply is dropped. */
  function PropsOf(o: JsonObject): (r: ImageProps)
    ensures r.prompt == Field(o, "prompt") && r.responseExtension == Field(o, "responseExtension")
  {
    ImageProps(Field(o, "prompt"), Field(o, "responseExtension"))
  }

  /** Replies that agree on the two kept fields give the same props. */
  lemma PropsIgnoreOtherFields(o1: JsonObject, o2: JsonObject)
    requires forall k :: k in {"prompt", "responseExtension"} ==> (k in o1 <==> k in o2) && (k in o1 ==> o1[k] == o2[k])
    ensures PropsOf(o1) == PropsOf(o2)
  {
    assert "prompt" in {"prompt", "responseExtension"};
    assert "responseExtension" in {"prompt", "responseExtension"};
  }

  /** The body of "get-desired-image-props"; a missing generation has no `prompt` and throws. */
  function DesiredProps(p: Providers, t: Templates, generation: Option<ImageGeneration>): (r: Result<ImageProps>)
    ensures generation.None? ==> r.Err?
    ensures generation.Some? ==> var text := DesiredPropsText(t.imageGeneration, generation.value.prompt, generation.value.imageType);
      && (p.gemini(text).Err? || p.gemini(text) == Ok(None) ==> r.Err?)
      && forall reply :: p.gemini(text) == Ok(Some(reply)) ==>
           && (p.parseProps(CleanJsonText(reply)).Err? ==> r.Err?)
           && (p.parseProps(CleanJsonText(reply)).Ok? ==> r == Ok(PropsOf(p.parseProps(CleanJsonText(reply)).value)))
    ensures r.Ok? ==> exists reply, o ::
      && p.gemini(DesiredPropsText(t.imageGeneration, generation.value.prompt, generation.value.imageType)) == Ok(Some(reply))
      && p.parseProps(CleanJsonText(reply)) == Ok(o) && r.value == PropsOf(o)
  {
    match generation
    case None => Err(TYPE_ERROR)
    case Some(g) =>
      match p.gemini(DesiredPropsText(t.imageGeneration, g.prompt, g.imageType))
      case Err(m) => Err(m)
      case Ok(reply) =>
        match CleanReply(reply, p.parseProps)
        case Err(m) => Err(m)
        case Ok(o) => Ok(PropsOf(o))
  }

  function DesiredPropsFlow(c: Ctx, cancel: Option<nat>, p: Providers, t: Templates, generation: Option<ImageGeneration>)
    : Flow<ImageProps>
  {
    CallFlow(c, cancel, GET_DESIRED_IMAGE_PROPS, DesiredProps(p, t, generation))
  }

  method GetDesiredImageProps(db: Db, ex: Execution, p: Providers, t: Templates, generation: Option<ImageGeneration>)
    returns (exit: Exit<ImageProps>)
    requires ex.Valid()
    modifies ex
    ensures ex.Valid()
    ensures Flow(Current(db, ex), exit) == DesiredPropsFlow(old(Current(db, ex)), ex.cancel, p, t, generation)
  {
    exit := RunCall(db, ex, GET_DESIRED_IMAGE_PROPS, DesiredProps(p, t, generation));
  }

  const DEFAULT_MIME := "image/jpeg"

  /**
   * `selectedImage && mime.lookup(url)?.toString() || "image/jpeg"` as written: a failed lookup
   * yields `false`, whose `toString()` is the non-empty "false", so the default never applies.
   */
  function MimeTypeAsWritten(lookup: string -> Option<string>, url: string): string {
    match lookup(url)
    case None => "false"
    case Some(t) => if t == "" then DEFAULT_MIME else t
  }

  /** The unknown-extension case: the request goes out labelled "false". */
  lemma MimeTypeAsWrittenUnknown(url: string)
    ensures MimeTypeAsWritten((u: string) => None, url) == "false"
    ensures MimeTypeAsWritten((u: string) => None, url) != DEFAULT_MIME
  {
  }

  /** The mime type as intended: the looked-up type, or "image/jpeg" when there is none. */
  function MimeType(lookup: string -> Option<string>, url: string): (m: string)
    ensures lookup(url).None? ==> m == DEFAULT_MIME
    ensures lookup(url).Some? && lookup(url).value != "" ==> m == lookup(url).value
    ensures m != ""
  {
    match lookup(url)
    case None => DEFAULT_MIME
    case Some(t) => if t == "" then DEFAULT_MIME else t
  }

  /** The two agree whenever the lookup succeeds. */
  lemma MimeTypeAgreesOnKnown(lookup: string -> Option<string>, url: string)
    requires lookup(url).Some?
    ensures MimeTypeAsWritten(lookup, url) == MimeType(lookup, url)
  {
  }

  /** The reference image: present exactly when the generation has a selected image. */
  function ReferenceImage(p: Providers, g: ImageGeneration): (r: Result<Option<InlineImage>>)
    ensures g.selectedImage.None? ==> r == Ok(None)
    ensures g.selectedImage.Some? && r.Ok? ==>
      && r.value.Some?
      && p.fetchImage(g.selectedImage.value.url) == Ok(r.value.value.data)
      && r.value.value.mimeType == MimeType(p.lookupMime, g.selectedImage.value.url)
    ensures g.selectedImage.Some? ==> (r.Err? <==> p.fetchImage(g.selectedImage.value.url).Err?)
  {
    match g.selectedImage
    case None => Ok(None)
    case Some(sel) =>
      match p.fetchImage(sel.url)
      case Err(m) => Err(m)
      case Ok(data) => Ok(Some(InlineImage(MimeType(p.lookupMime, sel.url), data)))
  }

  /** `part.inlineData && part.inlineData.data`: an empty string does not count. */
  predicate HasInlineData(part: Part) {
    part.inlineData.Some? && part.inlineData.value != ""
  }

  /** The index of the first part at or after `i` that carries image data. */
  function FirstInlineFrom(parts: seq<Part>, i: nat): (r: Option<nat>)
    requires i <= |parts|
    ensures r.Some? ==>
      && i <= r.value < |parts| && HasInlineData(parts[r.value])
      && forall j :: i <= j < r.value ==> !HasInlineData(parts[j])
    ensures r.None? ==> forall j :: i <= j < |parts| ==> !HasInlineData(parts[j])
    decreases |parts| - i
  {
    if i == |parts| then None
    else if HasInlineData(parts[i]) then Some(i)
    else FirstInlineFrom(parts, i + 1)
  }

  function FirstInline(parts: seq<Part>): Option<nat> {
    FirstInlineFrom(parts, 0)
  }

  /** The `for (const part of parts)` loop with its early return. */
  method FindInline(parts: seq<Part>) returns (r: Option<nat>)
    ensures r == FirstInline(parts)
  {
    for i := 0 to |parts|
      invariant FirstInlineFrom(parts, i) == FirstInline(parts)
    {
      if HasInlineData(parts[i]) {
        return Some(i);
      }
    }
    r := None;
  }

  /**
   * The body of "generate-image-url": ask the image model (with the reference image when one
   * is selected), then upload the first part that carries data. A reply with parts but no data
   * gives null; a reply without parts gives undefined, which the step stores as null too.
   */
  function ImageUrl(p: Providers, generation: Option<ImageGeneration>, props: ImageProps): (r: Result<Option<string>>)
    ensures generation.None? ==> r.Err?
  {
    match generation
    case None => Err(TYPE_ERROR)
    case Some(g) =>
      match ReferenceImage(p, g)
      case Err(m) => Err(m)
      case Ok(reference) =>
        match p.imageModel(props.prompt, reference)
        case Err(m) => Err(m)
        case Ok(None) => Ok(None)
        case Ok(Some(parts)) =>
          match FirstInline(parts)
          case None => Ok(None)
          case Some(i) =>
            match p.uploadImage(parts[i].inlineData.value)
            case Err(m) => Err(m)
            case Ok(url) => Ok(Some(url))
  }

  /** The uploaded part is the first one with data, whatever the parts after it hold. */
  lemma ImageUrlUploadsFirstInline(p: Providers, g: ImageGeneration, props: ImageProps, parts: seq<Part>, i: nat, url: string)
    requires ReferenceImage(p, g).Ok? && p.imageModel(props.prompt, ReferenceImage(p, g).value) == Ok(Some(parts))
    requires i < |parts| && HasInlineData(parts[i]) && forall j :: 0 <= j < i ==> !HasInlineData(parts[j])
    requires p.uploadImage(parts[i].inlineData.value) == Ok(url)
    ensures ImageUrl(p, Some(g), props) == Ok(Some(url))
  {
    var f := FirstInline(parts);
    assert f.Some? by {
      assert HasInlineData(parts[i]);
    }
    assert f.value == i by {
      assert HasInlineData(parts[f.value]) && forall j :: 0 <= j < f.value ==> !HasInlineData(parts[j]);
    }
  }

  /** Parts without data give null: nothing is uploaded. */
  lemma ImageUrlNullWithoutData(p: Providers, g: ImageGeneration, props: ImageProps, parts: seq<Part>)
    requires ReferenceImage(p, g).Ok? && p.imageModel(props.prompt, ReferenceImage(p, g).value) == Ok(Some(parts))
    requires forall j :: 0 <= j < |parts| ==> !HasInlineData(parts[j])
    ensures ImageUrl(p, Some(g), props) == Ok(None)
  {
  }

  method GenerateImageUrl(db: Db, ex: Execution, p: Providers, generation: Option<ImageGeneration>, props: ImageProps)
    returns (exit: Exit<Option<string>>)
    requires ex.Valid()
    modifies ex
    ensures ex.Valid()
    ensures Flow(Current(db, ex), exit) == CallFlow(old(Current(db, ex)), ex.cancel, GENERATE_IMAGE_URL, ImageUrl(p, generation, props))
  {
    if ex.Halted() {
      return Halt;
    }
    var r: Result<Option<string>>;
    if generation.None? {
      r := Err(TYPE_ERROR);
    } else {
      var reference := ReferenceImage(p, generation.value);
      if reference.Err? {
        r := Err(reference.msg);
      } else {
        var response := p.imageModel(props.prompt, reference.value);
        if response.Err? {
          r := Err(response.msg);
        } else if response.value.None? {
          r := Ok(None);
        } else {
          var parts := response.value.value;
          var i := FindInline(parts);
          if i.None? {
            r := Ok(None);
          } else {
            var upload := p.uploadImage(parts[i.value].inlineData.value);
            r := if upload.Err? then Err(upload.msg) else Ok(Some(upload.value));
          }
        }
      }
    }
    exit := RunCall(db, ex, GENERATE_IMAGE_URL, r);
  }

  /*
   * renderVideo
   */

  /** What "renderVideo" returns: the output file, or `{ message: "Error", data: errors }`. */
  datatype RenderResult = Output(file: Option<string>) | RenderFailure(errors: seq<string>)

  /** A settled poll: the rendering status is written, then the step returns `value`. */
  function Settle(s: State, videoId: Id, rendering: string, value: RenderResult): (a: Attempt<RenderResult>)
    ensures a.result.Ok? <==> Has(s.videos, videoId)
    ensures a.result.Ok? ==> a.result.value == value && a.effects == [VideoRendering(videoId, rendering)]
    ensures a.result.Err? ==> a.state == s && a.effects == []
    ensures a.state.schedulers == s.schedulers && a.state.users == s.users
    ensures a.result.Ok? && WellFormed(s) ==> WellFormed(a.state) && Videos.PatchedTo(s, a.state, videoId,
      Get(s.videos, videoId).value.(rendering := Some(rendering)))
  {
    match Videos.PatchRendering(s, videoId, rendering)
    case Err(m) => Attempt(s, [], Err(m))
    case Ok(t) => Attempt(t, [VideoRendering(videoId, rendering)], Ok(value))
  }

  /**
   * The poll loop from poll `k` on, when the host allows `limit` polls. In-progress polls write
   * nothing; the first poll that is done or fatal settles the loop, `done` tested first.
   */
  function Poll(s: State, p: Providers, videoId: Id, job: string, k: nat, limit: nat): (a: Attempt<RenderResult>)
    ensures a.effects == [] || a.effects == [VideoRendering(videoId, RENDERED)] || a.effects == [VideoRendering(videoId, NOT_RENDERED)]
    ensures a.effects == [] ==> a.state == s && a.result.Err?
    ensures a.result.Ok? ==> (a.result.value.Output? <==> a.effects == [VideoRendering(videoId, RENDERED)])
    ensures a.effects == [VideoRendering(videoId, RENDERED)] ==>
      exists j :: k <= j < limit && p.renderProgress(job, j).Ok? && p.renderProgress(job, j).value.done
    ensures a.effects == [VideoRendering(videoId, NOT_RENDERED)] ==>
      exists j :: k <= j < limit && p.renderProgress(job, j).Ok? && p.renderProgress(job, j).value.fatalErrorEncountered
        && !p.renderProgress(job, j).value.done
    ensures a.state.schedulers == s.schedulers && a.state.users == s.users
    decreases limit - k
  {
    if k >= limit then Attempt(s, [], Err(TIMED_OUT))
    else match p.renderProgress(job, k)
      case Err(m) => Attempt(s, [], Err(m))
      case Ok(progress) =>
        if progress.done then Settle(s, videoId, RENDERED, Output(progress.outputFile))
        else if progress.fatalErrorEncountered then Settle(s, videoId, NOT_RENDERED, RenderFailure(progress.errors))
        else Poll(s, p, videoId, job, k + 1, limit)
  }

  /** A poll that answers and is neither done nor fatal: the loop goes round again. */
  predicate Pending(r: Result<Progress>) {
    r.Ok? && !r.value.done && !r.value.fatalErrorEncountered
  }

  /**
   * The first poll from `k` on that is done or fatal settles the loop: RENDERED with the output
   * file when it is done, NOT_RENDERED with its errors otherwise.
   */
  lemma {:induction false} PollSettlesAtFirst(s: State, p: Providers, videoId: Id, job: string, k: nat, j: nat, limit: nat,
                                              progress: Progress)
    requires k <= j < limit && forall i :: k <= i < j ==> Pending(p.renderProgress(job, i))
    requires p.renderProgress(job, j) == Ok(progress) && (progress.done || progress.fatalErrorEncountered)
    ensures Poll(s, p, videoId, job, k, limit) ==
      if progress.done then Settle(s, videoId, RENDERED, Output(progress.outputFile))
      else Settle(s, videoId, NOT_RENDERED, RenderFailure(progress.errors))
    decreases j - k
  {
    if k < j {
      assert Pending(p.renderProgress(job, k));
      PollSettlesAtFirst(s, p, videoId, job, k + 1, j, limit, progress);
    }
  }

  /** When every poll up to the limit is still in progress, the step throws and writes nothing. */
  lemma {:induction false} PollTimesOut(s: State, p: Providers, videoId: Id, job: string, k: nat, limit: nat)
    requires forall i :: k <= i < limit ==> Pending(p.renderProgress(job, i))
    ensures Poll(s, p, videoId, job, k, limit) == Attempt(s, [], Err(TIMED_OUT))
    decreases limit - k
  {
    if k < limit {
      assert Pending(p.renderProgress(job, k));
      PollTimesOut(s, p, videoId, job, k + 1, limit);
    }
  }

  /** A poll that reports both `done` and a fatal error counts as done. */
  lemma DoneBeforeFatal(s: State, p: Providers, videoId: Id, job: string, k: nat, limit: nat, progress: Progress)
    requires k < limit && p.renderProgress(job, k) == Ok(progress) && progress.done && Has(s.videos, videoId)
    ensures Poll(s, p, videoId, job, k, limit).result == Ok(Output(progress.outputFile))
    ensures Poll(s, p, videoId, job, k, limit).effects == [VideoRendering(videoId, RENDERED)]
  {
  }

  /** A loop stopped before any poll is done never leaves RENDERED. */
  lemma StoppedPollNeverRendered(s: State, p: Providers, videoId: Id, job: string, k: nat, limit: nat)
    requires forall j :: k <= j < limit && p.renderProgress(job, j).Ok? ==> !p.renderProgress(job, j).value.done
    ensures Poll(s, p, videoId, job, k, limit).effects != [VideoRendering(videoId, RENDERED)]
    ensures Poll(s, p, videoId, job, k, limit).result.Ok? ==> Poll(s, p, videoId, job, k, limit).result.value.RenderFailure?
  {
  }

  /** The loop itself: `while (true)`, one `getRenderProgress` per round, until the host's budget is spent. */
  method PollRender(db: Db, ex: Execution, p: Providers, videoId: Id, job: string, limit: nat) returns (r: Result<RenderResult>)
    requires db.Valid()
    modifies db, ex
    ensures db.Valid() && ex.log == old(ex.log)
    ensures var a := Poll(old(db.Snapshot()), p, videoId, job, 0, limit);
      db.Snapshot() == a.state && ex.effects == old(ex.effects) + a.effects
      && r.Ok? == a.result.Ok? && (r.Ok? ==> r.value == a.result.value)
  {
    var k := 0;
    while true
      invariant db.Valid() && db.Snapshot() == old(db.Snapshot())
      invariant ex.effects == old(ex.effects) && ex.log == old(ex.log)
      invariant Poll(db.Snapshot(), p, videoId, job, k, limit) == Poll(db.Snapshot(), p, videoId, job, 0, limit)
      decreases limit - k
    {
      if k >= limit {
        return Err(TIMED_OUT);
      }
      var progress := p.renderProgress(job, k);
      if progress.Err? {
        return Err(progress.msg);
      }
      if progress.value.done {
        var w := Videos.UpdateVideoRenderStatus(db, videoId, RENDERED);
        if w.Err? {
          return Err(NONEXISTENT);
        }
        ex.Emit([VideoRendering(videoId, RENDERED)]);
        return Ok(Output(progress.value.outputFile));
      }
      if progress.value.fatalErrorEncountered {
        var w := Videos.UpdateVideoRenderStatus(db, videoId, NOT_RENDERED);
        if w.Err? {
          return Err(NONEXISTENT);
        }
        ex.Emit([VideoRendering(videoId, NOT_RENDERED)]);
        return Ok(RenderFailure(progress.value.errors));
      }
      k := k + 1;
    }
  }

  /** After RENDERING is written: find a render function, submit the job, poll it. */
  function SubmitAndPoll(s: State, p: Providers, video: Doc<Video>, limit: nat): (a: Attempt<RenderResult>)
    ensures a.effects == [] || a.effects == [VideoRendering(video.id, RENDERED)] || a.effects == [VideoRendering(video.id, NOT_RENDERED)]
    ensures a.effects == [] ==> a.state == s && a.result.Err?
    ensures a.result.Ok? ==> (a.result.value.Output? <==> a.effects == [VideoRendering(video.id, RENDERED)])
    ensures a.effects == [VideoRendering(video.id, RENDERED)] ==> exists fns, job, j: nat ::
      && p.renderFunctions == Ok(fns) && |fns| > 0 && p.submitRender(fns[0], video.value) == Ok(job)
      && j < limit && p.renderProgress(job, j).Ok? && p.renderProgress(job, j).value.done
    ensures a.state.schedulers == s.schedulers && a.state.users == s.users
  {
    match p.renderFunctions
    case Err(m) => Attempt(s, [], Err(m))
    case Ok(fns) =>
      if fns == [] then Attempt(s, [], Err(TYPE_ERROR))
      else match p.submitRender(fns[0], video.value)
        case Err(m) => Attempt(s, [], Err(m))
        case Ok(job) => Poll(s, p, video.id, job, 0, limit)
  }

  /**
   * The body of "renderVideo": RENDERING is written before anything is submitted, and stays
   * written when a later part of the body throws. A missing video has no `_id` and throws.
   */
  function RenderAttempt(s: State, p: Providers, video: Option<Doc<Video>>, limit: nat): (a: Attempt<RenderResult>)
    ensures video.None? ==> a == Attempt(s, [], Err(TYPE_ERROR))
    ensures video.Some? && !Has(s.videos, video.value.id) ==> a.state == s && a.effects == [] && a.result.Err?
    ensures a.effects != [] ==>
      && video.Some? && a.effects[0] == VideoRendering(video.value.id, RENDERING)
      && (|a.effects| == 1 || a.effects[1..] == [VideoRendering(video.value.id, RENDERED)]
          || a.effects[1..] == [VideoRendering(video.value.id, NOT_RENDERED)])
    ensures a.result.Ok? ==> video.Some? && a.effects == [VideoRendering(video.value.id, RENDERING),
      VideoRendering(video.value.id, if a.result.value.Output? then RENDERED else NOT_RENDERED)]
    ensures a.state.schedulers == s.schedulers && a.state.users == s.users
  {
    match video
    case None => Attempt(s, [], Err(TYPE_ERROR))
    case Some(d) =>
      match Videos.PatchRendering(s, d.id, RENDERING)
      case Err(m) => Attempt(s, [], Err(m))
      case Ok(s1) =>
        var rest := SubmitAndPoll(s1, p, d, limit);
        Attempt(rest.state, [VideoRendering(d.id, RENDERING)] + rest.effects, rest.result)
  }

  function RenderFlow(c: Ctx, cancel: Option<nat>, p: Providers, video: Option<Doc<Video>>, limit: nat): Flow<RenderResult> {
    RunStep(c, cancel, RENDER_VIDEO, RenderAttempt(c.state, p, video, limit))
  }

  /** The part of the "renderVideo" body after RENDERING is written. */
  method SubmitAndPollRender(db: Db, ex: Execution, p: Providers, video: Doc<Video>, limit: nat) returns (r: Result<RenderResult>)
    requires db.Valid()
    modifies db, ex
    ensures db.Valid() && ex.log == old(ex.log)
    ensures var a := SubmitAndPoll(old(db.Snapshot()), p, video, limit);
      db.Snapshot() == a.state && ex.effects == old(ex.effects) + a.effects
      && r.Ok? == a.result.Ok? && (r.Ok? ==> r.value == a.result.value)
  {
    var functions := p.renderFunctions;
    if functions.Err? {
      return Err(functions.msg);
    }
    if functions.value == [] {
      return Err(TYPE_ERROR);
    }
    var job := p.submitRender(functions.value[0], video.value);
    if job.Err? {
      return Err(job.msg);
    }
    r := PollRender(db, ex, p, video.id, job.value, limit);
  }

  /** The body of "renderVideo" on the store and the run's effects. */
  method RenderBody(db: Db, ex: Execution, p: Providers, video: Option<Doc<Video>>, limit: nat) returns (r: Result<RenderResult>)
    requires db.Valid()
    modifies db, ex
    ensures db.Valid() && ex.log == old(ex.log)
    ensures var a := RenderAttempt(old(db.Snapshot()), p, video, limit);
      db.Snapshot() == a.state && ex.effects == old(ex.effects) + a.effects
      && r.Ok? == a.result.Ok? && (r.Ok? ==> r.value == a.result.value)
  {
    if video.None? {
      return Err(TYPE_ERROR);
    }
    var d := video.value;
    ghost var s0 := db.Snapshot();
    var w := Videos.UpdateVideoRenderStatus(db, d.id, RENDERING);
    if w.Err? {
      return Err(NONEXISTENT);
    }
    RenderAttemptAfterPatch(s0, db.Snapshot(), p, d, limit);
    r := MarkAndRender(db, ex, p, d, limit);
  }

  /** The "renderVideo" body once RENDERING is in the store: its effect, then the job. */
  method MarkAndRender(db: Db, ex: Execution, p: Providers, video: Doc<Video>, limit: nat) returns (r: Result<RenderResult>)
    requires db.Valid()
    modifies db, ex
    ensures db.Valid() && ex.log == old(ex.log)
    ensures var a := SubmitAndPoll(old(db.Snapshot()), p, video, limit);
      db.Snapshot() == a.state && ex.effects == old(ex.effects) + ([VideoRendering(video.id, RENDERING)] + a.effects)
      && r.Ok? == a.result.Ok? && (r.Ok? ==> r.value == a.result.value)
  {
    ghost var e0 := ex.effects;
    ex.Emit([VideoRendering(video.id, RENDERING)]);
    ghost var rest := SubmitAndPoll(db.Snapshot(), p, video, limit);
    r := SubmitAndPollRender(db, ex, p, video, limit);
    assert ex.effects == e0 + ([VideoRendering(video.id, RENDERING)] + rest.effects);
  }

  lemma RenderAttemptAfterPatch(s0: State, s1: State, p: Providers, d: Doc<Video>, limit: nat)
    requires Videos.PatchRendering(s0, d.id, RENDERING) == Ok(s1)
    ensures var rest := SubmitAndPoll(s1, p, d, limit);
      RenderAttempt(s0, p, Some(d), limit) == Attempt(rest.state, [VideoRendering(d.id, RENDERING)] + rest.effects, rest.result)
  {
  }

  method RenderVideo(db: Db, ex: Execution, p: Providers, video: Option<Doc<Video>>, limit: nat) returns (exit: Exit<RenderResult>)
    requires db.Valid() && ex.Valid()
    modifies db, ex
    ensures db.Valid() && ex.Valid()
    ensures Flow(Current(db, ex), exit) == RenderFlow(old(Current(db, ex)), ex.cancel, p, video, limit)
  {
    if ex.Halted() {
      return Halt;
    }
    var r := RenderBody(db, ex, p, video, limit);
    if r.Err? {
      ex.Log(RENDER_VIDEO, Failed);
      return Raise;
    }
    ex.Log(RENDER_VIDEO, Succeeded);
    exit := Next(r.value);
  }

  /*
   * updateVideoUrl
   */

  /** The url a render result stands for, when it is a string. */
  function UrlOf(r: RenderResult): Option<string> {
    if r.Output? then r.file else None
  }

  /**
   * The body of "update-video-url". `videoUrl` is whatever the caller passes; the mutation's
   * `v.string()` validator rejects the error object and a null output file.
   */
  function VideoUrlAttempt(s: State, videoId: Id, url: RenderResult): (a: Attempt<()>)
    ensures a.result.Ok? <==> UrlOf(url).Some? && Has(s.videos, videoId)
    ensures a.result.Ok? ==> a.effects == [VideoUrl(videoId, UrlOf(url).value)]
    ensures a.result.Err? ==> a.state == s && a.effects == []
    ensures a.state.schedulers == s.schedulers && a.state.users == s.users
    ensures a.result.Ok? && WellFormed(s) ==> WellFormed(a.state) && Videos.PatchedTo(s, a.state, videoId,
      Get(s.videos, videoId).value.(videoUrl := Some(UrlOf(url).value)))
  {
    match UrlOf(url)
    case None => Attempt(s, [], Err(INVALID))
    case Some(u) => WriteAttempt(s, Videos.PatchVideoUrl(s, videoId, u), VideoUrl(videoId, u))
  }

  function UpdateVideoUrlFlow(c: Ctx, cancel: Option<nat>, videoId: Id, url: RenderResult): Flow<()> {
    RunStep(c, cancel, UPDATE_VIDEO_URL, VideoUrlAttempt(c.state, videoId, url))
  }

  method UpdateVideoUrl(db: Db, ex: Execution, videoId: Id, url: RenderResult) returns (exit: Exit<()>)
    requires db.Valid() && ex.Valid()
    modifies db, ex
    ensures db.Valid() && ex.Valid()
    ensures Flow(Current(db, ex), exit) == UpdateVideoUrlFlow(old(Current(db, ex)), ex.cancel, videoId, url)
  {
    if ex.Halted() {
      return Halt;
    }
    var u := UrlOf(url);
    if u.None? {
      ex.Log(UPDATE_VIDEO_URL, Failed);
      return Raise;
    }
    var r := Videos.UpdateVideoUrl(db, videoId, u.value);
    if r.Err? {
      ex.Log(UPDATE_VIDEO_URL, Failed);
      return Raise;
    }
    ex.Emit([VideoUrl(videoId, u.value)]);
    ex.Log(UPDATE_VIDEO_URL, Succeeded);
    exit := Next(());
  }

  /*
   * generateMetaDataForYoutubeVideo, uploadOnYoutube, sendEmailForYoutubeVideoUpload
   */

  /** The metadata request: the first `{{SCRIPT}}` of the template filled with the script. */
  function MetadataText(template: string, script: string): string {
    ReplaceFirst(template, SCRIPT_SLOT, script)
  }

  lemma MetadataFills(head: string, rest: string, script: string)
    requires NoDoubleBrace(head) && DollarFree(script)
    ensures MetadataText(head + SCRIPT_SLOT + rest, script) == head + script + rest
  {
    FillOne(head, SCRIPT_SLOT, rest, script);
  }

  /** `generateMetaDataForYoutubeVideo`: the reply is the step's value; it is cleaned and parsed after the step. */
  function MetadataFlow(c: Ctx, cancel: Option<nat>, p: Providers, t: Templates, video: Video): Flow<Metadata> {
    var reply :- CallFlow(c, cancel, GENERATE_METADATA, p.gemini(MetadataText(t.metadata, video.script)));
    Outside(reply.ctx, CleanReply(reply.value, p.parseMetadata))
  }

  method GenerateMetadata(db: Db, ex: Execution, p: Providers, t: Templates, video: Video) returns (exit: Exit<Metadata>)
    requires ex.Valid()
    modifies ex
    ensures ex.Valid()
    ensures Flow(Current(db, ex), exit) == MetadataFlow(old(Current(db, ex)), ex.cancel, p, t, video)
  {
    var reply := RunCall(db, ex, GENERATE_METADATA, p.gemini(MetadataText(t.metadata, video.script)));
    if !reply.Next? {
      return reply.Propagate();
    }
    var metadata := CleanReply(reply.value, p.parseMetadata);
    exit := if metadata.Ok? then Next(metadata.value) else Raise;
  }

  /** `uploadOnYoutube`: a fresh access token, then the upload made with it. */
  function UploadOnYoutubeFlow(c: Ctx, cancel: Option<nat>, p: Providers, videoUrl: string, metadata: Metadata,
                               refreshToken: string): Flow<UploadResponse>
  {
    var token :- CallFlow(c, cancel, GENERATE_ACCESS_TOKEN, p.accessToken(refreshToken));
    CallFlow(token.ctx, cancel, UPLOAD_TO_YOUTUBE, p.youtubeUpload(videoUrl, metadata, token.value))
  }

  method UploadOnYoutube(db: Db, ex: Execution, p: Providers, videoUrl: string, metadata: Metadata, refreshToken: string)
    returns (exit: Exit<UploadResponse>)
    requires ex.Valid()
    modifies ex
    ensures ex.Valid()
    ensures Flow(Current(db, ex), exit) == UploadOnYoutubeFlow(old(Current(db, ex)), ex.cancel, p, videoUrl, metadata, refreshToken)
  {
    var token := RunCall(db, ex, GENERATE_ACCESS_TOKEN, p.accessToken(refreshToken));
    if !token.Next? {
      return token.Propagate();
    }
    exit := RunCall(db, ex, UPLOAD_TO_YOUTUBE, p.youtubeUpload(videoUrl, metadata, token.value));
  }

  const WATCH_PREFIX := "https://www.youtube.com/watch?v="

  /** `value || fallback` on an optional string: absent and "" both fall back. */
  function OrElse(value: Option<string>, fallback: string): (r: string)
    ensures r == fallback <==> value.None? || value.value == "" || value.value == fallback
    ensures r != fallback ==> value == Some(r)
  {
    if value.Some? && value.value != "" then value.value else fallback
  }

  /** `value || 0` on an optional number. */
  function OrZero(value: Option<int>): (r: int)
    ensures r == 0 <==> value.None? || value.value == 0
    ensures r != 0 ==> value == Some(r)
  {
    if value.Some? && value.value != 0 then value.value else 0
  }

  /** The `emailObj` for the uploaded video. */
  function EmailPayloadOf(user: User, upload: UploadResponse): (e: EmailPayload)
    ensures e.name == user.name && e.videoUrl == WATCH_PREFIX + upload.id
  {
    var sn := upload.snippet;
    var thumb := if sn.Some? then sn.value.medium else None;
    EmailPayload(
      user.name,
      WATCH_PREFIX + upload.id,
      OrElse(if sn.Some? then sn.value.channelTitle else None, "Unknown Channel"),
      OrElse(if sn.Some? then sn.value.title else None, "Untitled Video"),
      OrElse(if sn.Some? then sn.value.description else None, "No description available"),
      if sn.Some? && sn.value.tags.Some? then sn.value.tags.value else [],
      OrElse(if thumb.Some? then thumb.value.url else None, ""),
      OrZero(if thumb.Some? then thumb.value.height else None),
      OrZero(if thumb.Some? then thumb.value.width else None))
  }

  /** A response without a snippet gets every fallback. */
  lemma EmailDefaults(user: User, upload: UploadResponse)
    requires upload.snippet.None?
    ensures EmailPayloadOf(user, upload) == EmailPayload(user.name, WATCH_PREFIX + upload.id,
      "Unknown Channel", "Untitled Video", "No description available", [], "", 0, 0)
  {
  }

  /** What the snippet does say, non-empty, is what the e-mail shows. */
  lemma EmailKeepsSnippet(user: User, upload: UploadResponse, sn: Snippet)
    requires upload.snippet == Some(sn)
    ensures sn.channelTitle.Some? && sn.channelTitle.value != "" ==> EmailPayloadOf(user, upload).channelName == sn.channelTitle.value
    ensures sn.title.Some? && sn.title.value != "" ==> EmailPayloadOf(user, upload).videoTitle == sn.title.value
    ensures sn.description.Some? && sn.description.value != "" ==>
      EmailPayloadOf(user, upload).videoDescription == sn.description.value
    ensures EmailPayloadOf(user, upload).videoTags == sn.tags.GetOr([])
  {
  }

  /**
   * The body of "send-email-notification": a missing user has no `name` and throws; otherwise
   * the e-mail is handed over, and a failure to send is returned as `{ error }`, not thrown.
   */
  function EmailAttempt(s: State, user: Option<Doc<User>>, upload: UploadResponse): (a: Attempt<()>)
    ensures a.state == s
    ensures a.result.Ok? <==> user.Some?
    ensures user.Some? ==> a.effects == [Mailed(user.value.value.email, EmailPayloadOf(user.value.value, upload))]
    ensures user.None? ==> a.effects == []
  {
    match user
    case None => Attempt(s, [], Err(TYPE_ERROR))
    case Some(u) => Attempt(s, [Mailed(u.value.email, EmailPayloadOf(u.value, upload))], Ok(()))
  }

  function EmailFlow(c: Ctx, cancel: Option<nat>, user: Option<Doc<User>>, upload: UploadResponse): Flow<()> {
    RunStep(c, cancel, SEND_EMAIL, EmailAttempt(c.state, user, upload))
  }

  method SendEmail(db: Db, ex: Execution, user: Option<Doc<User>>, upload: UploadResponse) returns (exit: Exit<()>)
    requires ex.Valid()
    modifies ex
    ensures ex.Valid()
    ensures Flow(Current(db, ex), exit) == EmailFlow(old(Current(db, ex)), ex.cancel, user, upload)
  {
    if ex.Halted() {
      return Halt;
    }
    if user.None? {
      ex.Log(SEND_EMAIL, Failed);
      return Raise;
    }
    ex.Emit([Mailed(user.value.value.email, EmailPayloadOf(user.value.value, upload))]);
    ex.Log(SEND_EMAIL, Succeeded);
    exit := Next(());
  }

  /*
   * getSchedule, updateScheduleStatus
   */

  function GetScheduleFlow(c: Ctx, cancel: Option<nat>, scheduleId: Id): Flow<Option<Schedule>> {
    CallFlow(c, cancel, GET_SCHEDULE, Ok(Get(c.state.schedulers, scheduleId)))
  }

  method GetSchedule(db: Db, ex: Execution, scheduleId: Id) returns (exit: Exit<Option<Schedule>>)
    requires ex.Valid()
    modifies ex
    ensures ex.Valid()
    ensures Flow(Current(db, ex), exit) == GetScheduleFlow(old(Current(db, ex)), ex.cancel, scheduleId)
  {
    exit := RunCall(db, ex, GET_SCHEDULE, Ok(Get(db.schedulers, scheduleId)));
  }

  function ScheduleStatusAttempt(s: State, scheduleId: Id, status: string): (a: Attempt<()>)
    ensures a.result.Ok? <==> Has(s.schedulers, scheduleId)
    ensures a.result.Ok? ==> a.effects == [ScheduleStatus(scheduleId, status)] && a.state == Schedules.StatusUpdate(s, scheduleId, status)
    ensures a.result.Err? ==> a.state == s && a.effects == []
  {
    WriteAttempt(s, Schedules.PatchScheduleStatus(s, scheduleId, status), ScheduleStatus(scheduleId, status))
  }

  function UpdateScheduleStatusFlow(c: Ctx, cancel: Option<nat>, scheduleId: Id, status: string): Flow<()> {
    RunStep(c, cancel, UPDATE_SCHEDULE_STATUS, ScheduleStatusAttempt(c.state, scheduleId, status))
  }

  method UpdateScheduleStatus(db: Db, ex: Execution, scheduleId: Id, status: string) returns (exit: Exit<()>)
    requires db.Valid() && ex.Valid()
    modifies db, ex
    ensures db.Valid() && ex.Valid()
    ensures Flow(Current(db, ex), exit) == UpdateScheduleStatusFlow(old(Current(db, ex)), ex.cancel, scheduleId, status)
  {
    if ex.Halted() {
      return Halt;
    }
    var r := Schedules.UpdateScheduleStatus(db, scheduleId, status);
    if r.Err? {
      ex.Log(UPDATE_SCHEDULE_STATUS, Failed);
      return Raise;
    }
    ex.Emit([ScheduleStatus(scheduleId, status)]);
    ex.Log(UPDATE_SCHEDULE_STATUS, Succeeded);
    exit := Next(());
  }

  /*
   * uploadVideo
   */

  /** `!videoData.videoUrl`: no url, or the empty one. */
  predicate NeedsRender(v: Video) {
    v.videoUrl.None? || v.videoUrl == Some("")
  }

  /** Render when the video has no url yet; otherwise the stored url is used and nothing runs. */
  function RenderOrReuse(c: Ctx, cancel: Option<nat>, p: Providers, video: Doc<Video>, limit: nat): (f: Flow<RenderResult>)
    ensures !NeedsRender(video.value) ==> f == Flow(c, Next(Output(video.value.videoUrl)))
    ensures NeedsRender(video.value) ==> f == RenderFlow(c, cancel, p, Some(video), limit)
  {
    if NeedsRender(video.value) then RenderFlow(c, cancel, p, Some(video), limit)
    else Flow(c, Next(Output(video.value.videoUrl)))
  }

  /**
   * `uploadVideo`: fetch the video, render it or reuse its url, then publish it.
   */
  function UploadVideoFlow(c: Ctx, cancel: Option<nat>, p: Providers, t: Templates, videoId: Id,
                           refreshToken: string, limit: nat): Flow<()>
  {
    var fetched :- GetVideoDataFlow(c, cancel, videoId);
    var video :- Found(fetched.ctx, fetched.value);
    var rendered :- RenderOrReuse(video.ctx, cancel, p, video.value, limit);
    PublishFlow(rendered.ctx, cancel, p, t, videoId, video.value.value, rendered.value, refreshToken)
  }

  /**
   * The rest of `uploadVideo`: store the url, generate the metadata, upload, then look the owner
   * up (a query, not a step) and e-mail them.
   */
  function PublishFlow(c: Ctx, cancel: Option<nat>, p: Providers, t: Templates, videoId: Id, video: Video,
                       rendered: RenderResult, refreshToken: string): Flow<()>
  {
    var stored :- UpdateVideoUrlFlow(c, cancel, videoId, rendered);
    var metadata :- MetadataFlow(stored.ctx, cancel, p, t, video);
    var url :- Found(metadata.ctx, UrlOf(rendered));
    var upload :- UploadOnYoutubeFlow(url.ctx, cancel, p, url.value, metadata.value, refreshToken);
    EmailFlow(upload.ctx, cancel, Users.GetUser(upload.ctx.state, video.clerkId), upload.value)
  }

  method UploadVideo(db: Db, ex: Execution, p: Providers, t: Templates, videoId: Id, refreshToken: string, limit: nat)
    returns (exit: Exit<()>)
    requires db.Valid() && ex.Valid()
    modifies db, ex
    ensures db.Valid() && ex.Valid()
    ensures Flow(Current(db, ex), exit) == UploadVideoFlow(old(Current(db, ex)), ex.cancel, p, t, videoId, refreshToken, limit)
  {
    var fetched := GetVideoData(db, ex, videoId);
    if !fetched.Next? {
      return fetched.Propagate();
    }
    if fetched.value.None? {
      return Raise;
    }
    var video := fetched.value.value;
    var rendered: Exit<RenderResult>;
    if NeedsRender(video.value) {
      rendered := RenderVideo(db, ex, p, Some(video), limit);
    } else {
      rendered := Next(Output(video.value.videoUrl));
    }
    if !rendered.Next? {
      return rendered.Propagate();
    }
    exit := Publish(db, ex, p, t, videoId, video.value, rendered.value, refreshToken);
  }

  method Publish(db: Db, ex: Execution, p: Providers, t: Templates, videoId: Id, video: Video,
                 rendered: RenderResult, refreshToken: string) returns (exit: Exit<()>)
    requires db.Valid() && ex.Valid()
    modifies db, ex
    ensures db.Valid() && ex.Valid()
    ensures Flow(Current(db, ex), exit) == PublishFlow(old(Current(db, ex)), ex.cancel, p, t, videoId, video, rendered, refreshToken)
  {
    var stored := UpdateVideoUrl(db, ex, videoId, rendered);
    if !stored.Next? {
      return stored.Propagate();
    }
    var metadata := GenerateMetadata(db, ex, p, t, video);
    if !metadata.Next? {
      return metadata.Propagate();
    }
    var url := UrlOf(rendered);
    if url.None? {
      return Raise;
    }
    var upload := UploadOnYoutube(db, ex, p, url.value, metadata.value, refreshToken);
    if !upload.Next? {
      return upload.Propagate();
    }
    var user := Users.GetUser(db.Snapshot(), video.clerkId);
    exit := SendEmail(db, ex, user, upload.value);
  }

  /** A completed metadata step leaves the store and the effects as they were. */
  lemma MetadataCompleted(c: Ctx, cancel: Option<nat>, p: Providers, t: Templates, video: Video)
    requires MetadataFlow(c, cancel, p, t, video).exit.Next?
    ensures MetadataFlow(c, cancel, p, t, video).ctx == Ctx(Record(c.log, GENERATE_METADATA, Succeeded), c.state, c.effects)
  {
  }

  /** A completed upload made the token step, then the upload step, and wrote nothing. */
  lemma UploadOnYoutubeCompleted(c: Ctx, cancel: Option<nat>, p: Providers, videoUrl: string, metadata: Metadata, refreshToken: string)
    requires UploadOnYoutubeFlow(c, cancel, p, videoUrl, metadata, refreshToken).exit.Next?
    ensures var f := UploadOnYoutubeFlow(c, cancel, p, videoUrl, metadata, refreshToken);
      && Names(f.ctx.log) == Names(c.log) + [GENERATE_ACCESS_TOKEN, UPLOAD_TO_YOUTUBE]
      && f.ctx.state == c.state && f.ctx.effects == c.effects
  {
    var token := CallFlow(c, cancel, GENERATE_ACCESS_TOKEN, p.accessToken(refreshToken));
    assert token.exit.Next? && token.ctx == Ctx(Record(c.log, GENERATE_ACCESS_TOKEN, Succeeded), c.state, c.effects);
    var upload := CallFlow(token.ctx, cancel, UPLOAD_TO_YOUTUBE, p.youtubeUpload(videoUrl, metadata, token.exit.value));
    assert UploadOnYoutubeFlow(c, cancel, p, videoUrl, metadata, refreshToken) == upload;
    assert upload.ctx == Ctx(Record(token.ctx.log, UPLOAD_TO_YOUTUBE, Succeeded), c.state, c.effects);
    NamesRecord(c.log, GENERATE_ACCESS_TOKEN, Succeeded);
    NamesRecord(token.ctx.log, UPLOAD_TO_YOUTUBE, Succeeded);
  }

  /** The steps after the url is stored. */
  const PUBLISH_STEPS := [UPDATE_VIDEO_URL, GENERATE_METADATA, GENERATE_ACCESS_TOKEN, UPLOAD_TO_YOUTUBE, SEND_EMAIL]

  /** A completed url step wrote the url, and only that. */
  lemma UpdateVideoUrlCompleted(c: Ctx, cancel: Option<nat>, videoId: Id, url: RenderResult)
    requires UpdateVideoUrlFlow(c, cancel, videoId, url).exit.Next?
    ensures UrlOf(url).Some?
    ensures var f := UpdateVideoUrlFlow(c, cancel, videoId, url);
      && f.ctx.log == Record(c.log, UPDATE_VIDEO_URL, Succeeded)
      && f.ctx.state.users == c.state.users && Has(c.state.videos, videoId)
      && f.ctx.effects == c.effects + [VideoUrl(videoId, UrlOf(url).value)]
  {
  }

  /** A completed e-mail step found the user and handed over one e-mail to them. */
  lemma EmailCompleted(c: Ctx, cancel: Option<nat>, user: Option<Doc<User>>, upload: UploadResponse)
    requires EmailFlow(c, cancel, user, upload).exit.Next?
    ensures user.Some?
    ensures EmailFlow(c, cancel, user, upload).ctx
      == Ctx(Record(c.log, SEND_EMAIL, Succeeded), c.state, c.effects + [Mailed(user.value.value.email, EmailPayloadOf(user.value.value, upload))])
  {
  }

  /** A completed publish went through every piece of its chain. */
  lemma PublishUnfold(c: Ctx, cancel: Option<nat>, p: Providers, t: Templates, videoId: Id, video: Video,
                      rendered: RenderResult, refreshToken: string)
    requires PublishFlow(c, cancel, p, t, videoId, video, rendered, refreshToken).exit.Next?
    ensures UpdateVideoUrlFlow(c, cancel, videoId, rendered).exit.Next? && UrlOf(rendered).Some?
    ensures var stored := UpdateVideoUrlFlow(c, cancel, videoId, rendered).ctx;
      var metadata := MetadataFlow(stored, cancel, p, t, video);
      && metadata.exit.Next?
      && var upload := UploadOnYoutubeFlow(metadata.ctx, cancel, p, UrlOf(rendered).value, metadata.exit.value, refreshToken);
      && upload.exit.Next?
      && PublishFlow(c, cancel, p, t, videoId, video, rendered, refreshToken)
         == EmailFlow(upload.ctx, cancel, Users.GetUser(upload.ctx.state, video.clerkId), upload.exit.value)
  {
  }

  /**
   * A completed publish: the render result was a url, and the run stored it, then made the
   * metadata, token, upload and e-mail steps in that order; its only effects are the url write
   * and the e-mail to the video's owner.
   */
  lemma PublishCompleted(c: Ctx, cancel: Option<nat>, p: Providers, t: Templates, videoId: Id, video: Video,
                         rendered: RenderResult, refreshToken: string)
    requires PublishFlow(c, cancel, p, t, videoId, video, rendered, refreshToken).exit.Next?
    ensures var f := PublishFlow(c, cancel, p, t, videoId, video, rendered, refreshToken);
      && UrlOf(rendered).Some? && Has(c.state.videos, videoId)
      && Names(f.ctx.log) == Names(c.log) + PUBLISH_STEPS
      && Users.GetUser(c.state, video.clerkId).Some?
      && exists upload :: f.ctx.effects == c.effects + [VideoUrl(videoId, UrlOf(rendered).value),
           Mailed(Users.GetUser(c.state, video.clerkId).value.value.email,
                  EmailPayloadOf(Users.GetUser(c.state, video.clerkId).value.value, upload))]
  {
    PublishOrder(c, cancel, p, t, videoId, video, rendered, refreshToken);
    PublishUnfold(c, cancel, p, t, videoId, video, rendered, refreshToken);
    var f := PublishFlow(c, cancel, p, t, videoId, video, rendered, refreshToken);
    var stored := UpdateVideoUrlFlow(c, cancel, videoId, rendered);
    var metadata := MetadataFlow(stored.ctx, cancel, p, t, video);
    var url := UrlOf(rendered).value;
    var upload := UploadOnYoutubeFlow(metadata.ctx, cancel, p, url, metadata.exit.value, refreshToken);
    var user := Users.GetUser(upload.ctx.state, video.clerkId);
    UpdateVideoUrlCompleted(c, cancel, videoId, rendered);
    MetadataCompleted(stored.ctx, cancel, p, t, video);
    UploadOnYoutubeCompleted(metadata.ctx, cancel, p, url, metadata.exit.value, refreshToken);
    EmailCompleted(upload.ctx, cancel, user, upload.exit.value);
    assert user == Users.GetUser(c.state, video.clerkId);
    var owner := user.value.value;
    assert upload.ctx.effects == c.effects + [VideoUrl(videoId, url)];
    var mail := Mailed(owner.email, EmailPayloadOf(owner, upload.exit.value));
    assert f.ctx.effects == upload.ctx.effects + [mail];
    assert f.ctx.effects == c.effects + [VideoUrl(videoId, url), mail];
  }

  /** The steps of a completed publish, in order. */
  lemma PublishOrder(c: Ctx, cancel: Option<nat>, p: Providers, t: Templates, videoId: Id, video: Video,
                     rendered: RenderResult, refreshToken: string)
    requires PublishFlow(c, cancel, p, t, videoId, video, rendered, refreshToken).exit.Next?
    ensures Names(PublishFlow(c, cancel, p, t, videoId, video, rendered, refreshToken).ctx.log) == Names(c.log) + PUBLISH_STEPS
  {
    PublishUnfold(c, cancel, p, t, videoId, video, rendered, refreshToken);
    var stored := UpdateVideoUrlFlow(c, cancel, videoId, rendered);
    var metadata := MetadataFlow(stored.ctx, cancel, p, t, video);
    var upload := UploadOnYoutubeFlow(metadata.ctx, cancel, p, UrlOf(rendered).value, metadata.exit.value, refreshToken);
    UpdateVideoUrlCompleted(c, cancel, videoId, rendered);
    MetadataCompleted(stored.ctx, cancel, p, t, video);
    UploadOnYoutubeCompleted(metadata.ctx, cancel, p, UrlOf(rendered).value, metadata.exit.value, refreshToken);
    EmailCompleted(upload.ctx, cancel, Users.GetUser(upload.ctx.state, video.clerkId), upload.exit.value);
    PublishNames(c.log, stored.ctx.log, metadata.ctx.log, upload.ctx.log,
      PublishFlow(c, cancel, p, t, videoId, video, rendered, refreshToken).ctx.log);
  }

  /** A completed publish only adds effects after those already made. */
  lemma PublishAppends(c: Ctx, cancel: Option<nat>, p: Providers, t: Templates, videoId: Id, video: Video,
                       rendered: RenderResult, refreshToken: string)
    requires PublishFlow(c, cancel, p, t, videoId, video, rendered, refreshToken).exit.Next?
    ensures var e := PublishFlow(c, cancel, p, t, videoId, video, rendered, refreshToken).ctx.effects;
      |c.effects| <= |e| && e[..|c.effects|] == c.effects
  {
    PublishCompleted(c, cancel, p, t, videoId, video, rendered, refreshToken);
    var e := PublishFlow(c, cancel, p, t, videoId, video, rendered, refreshToken).ctx.effects;
    var owner := Users.GetUser(c.state, video.clerkId).value.value;
    var upload :| e == c.effects + [VideoUrl(videoId, UrlOf(rendered).value), Mailed(owner.email, EmailPayloadOf(owner, upload))];
    assert e[..|c.effects|] == c.effects;
  }

  lemma PublishNames(log0: seq<Entry>, log1: seq<Entry>, log2: seq<Entry>, log3: seq<Entry>, log4: seq<Entry>)
    requires log1 == Record(log0, UPDATE_VIDEO_URL, Succeeded) && log2 == Record(log1, GENERATE_METADATA, Succeeded)
    requires Names(log3) == Names(log2) + [GENERATE_ACCESS_TOKEN, UPLOAD_TO_YOUTUBE] && log4 == Record(log3, SEND_EMAIL, Succeeded)
    ensures Names(log4) == Names(log0) + PUBLISH_STEPS
  {
    NamesRecord(log0, UPDATE_VIDEO_URL, Succeeded);
    NamesRecord(log1, GENERATE_METADATA, Succeeded);
    NamesRecord(log3, SEND_EMAIL, Succeeded);
    var n := Names(log0);
    assert n + [UPDATE_VIDEO_URL] + [GENERATE_METADATA] + [GENERATE_ACCESS_TOKEN, UPLOAD_TO_YOUTUBE] + [SEND_EMAIL] == n + PUBLISH_STEPS;
  }

  /**
   * A completed render-or-reuse: reusing runs nothing; rendering made the one render step, whose
   * writes are RENDERING and then RENDERED exactly when it produced an output file.
   */
  lemma RenderOrReuseCompleted(c: Ctx, cancel: Option<nat>, p: Providers, video: Doc<Video>, limit: nat)
    requires RenderOrReuse(c, cancel, p, video, limit).exit.Next?
    ensures var f := RenderOrReuse(c, cancel, p, video, limit);
      && f.ctx.state.users == c.state.users
      && (!NeedsRender(video.value) ==> f.ctx == c)
      && (NeedsRender(video.value) ==>
           && Names(f.ctx.log) == Names(c.log) + [RENDER_VIDEO]
           && f.ctx.effects == c.effects + [VideoRendering(video.id, RENDERING),
                VideoRendering(video.id, if f.exit.value.Output? then RENDERED else NOT_RENDERED)])
  {
    if NeedsRender(video.value) {
      NamesRecord(c.log, RENDER_VIDEO, Succeeded);
    }
  }

  /** A completed `uploadVideo` on a stored video fetched it, rendered or reused, then published. */
  lemma UploadVideoUnfold(c: Ctx, cancel: Option<nat>, p: Providers, t: Templates, videoId: Id,
                          refreshToken: string, limit: nat, video: Video)
    requires Get(c.state.videos, videoId) == Some(video)
    requires UploadVideoFlow(c, cancel, p, t, videoId, refreshToken, limit).exit.Next?
    ensures var fetched := GetVideoDataFlow(c, cancel, videoId);
      && fetched == Flow(Ctx(Record(c.log, GET_VIDEO_DATA, Succeeded), c.state, c.effects), Next(Some(Doc(videoId, video))))
      && var rendered := RenderOrReuse(fetched.ctx, cancel, p, Doc(videoId, video), limit);
      && rendered.exit.Next?
      && UploadVideoFlow(c, cancel, p, t, videoId, refreshToken, limit)
         == PublishFlow(rendered.ctx, cancel, p, t, videoId, video, rendered.exit.value, refreshToken)
  {
  }

  lemma UploadNames(log0: seq<Entry>, log1: seq<Entry>, log2: seq<Entry>, log3: seq<Entry>, render: bool)
    requires log1 == Record(log0, GET_VIDEO_DATA, Succeeded)
    requires Names(log2) == Names(log1) + (if render then [RENDER_VIDEO] else [])
    requires Names(log3) == Names(log2) + PUBLISH_STEPS
    ensures Names(log3) == Names(log0) + [GET_VIDEO_DATA] + (if render then [RENDER_VIDEO] else []) + PUBLISH_STEPS
  {
    NamesRecord(log0, GET_VIDEO_DATA, Succeeded);
  }

  /**
   * The steps of a completed `uploadVideo` on a stored video: the fetch, the render only when
   * the video had no url, then the url write, metadata, token, upload and e-mail.
   */
  lemma UploadVideoOrder(c: Ctx, cancel: Option<nat>, p: Providers, t: Templates, videoId: Id,
                         refreshToken: string, limit: nat, video: Video)
    requires Get(c.state.videos, videoId) == Some(video)
    requires UploadVideoFlow(c, cancel, p, t, videoId, refreshToken, limit).exit.Next?
    ensures Names(UploadVideoFlow(c, cancel, p, t, videoId, refreshToken, limit).ctx.log)
      == Names(c.log) + [GET_VIDEO_DATA] + (if NeedsRender(video) then [RENDER_VIDEO] else []) + PUBLISH_STEPS
  {
    UploadVideoUnfold(c, cancel, p, t, videoId, refreshToken, limit, video);
    var c1 := Ctx(Record(c.log, GET_VIDEO_DATA, Succeeded), c.state, c.effects);
    var rendered := RenderOrReuse(c1, cancel, p, Doc(videoId, video), limit);
    RenderOrReuseCompleted(c1, cancel, p, Doc(videoId, video), limit);
    PublishOrder(rendered.ctx, cancel, p, t, videoId, video, rendered.exit.value, refreshToken);
    UploadNames(c.log, c1.log, rendered.ctx.log,
      PublishFlow(rendered.ctx, cancel, p, t, videoId, video, rendered.exit.value, refreshToken).ctx.log, NeedsRender(video));
  }

  /** A completed `uploadVideo` of a video that has a url writes that url back and e-mails the owner; nothing renders. */
  lemma UploadVideoReusesUrl(c: Ctx, cancel: Option<nat>, p: Providers, t: Templates, videoId: Id,
                             refreshToken: string, limit: nat, video: Video)
    requires Get(c.state.videos, videoId) == Some(video) && !NeedsRender(video)
    requires UploadVideoFlow(c, cancel, p, t, videoId, refreshToken, limit).exit.Next?
    ensures Users.GetUser(c.state, video.clerkId).Some?
    ensures var owner := Users.GetUser(c.state, video.clerkId).value.value;
      exists upload :: UploadVideoFlow(c, cancel, p, t, videoId, refreshToken, limit).ctx.effects
        == c.effects + [VideoUrl(videoId, video.videoUrl.value), Mailed(owner.email, EmailPayloadOf(owner, upload))]
  {
    UploadVideoUnfold(c, cancel, p, t, videoId, refreshToken, limit, video);
    var c1 := Ctx(Record(c.log, GET_VIDEO_DATA, Succeeded), c.state, c.effects);
    var rendered := RenderOrReuse(c1, cancel, p, Doc(videoId, video), limit);
    assert rendered == Flow(c1, Next(Output(video.videoUrl)));
    PublishCompleted(c1, cancel, p, t, videoId, video, Output(video.videoUrl), refreshToken);
  }

  /**
   * A completed `uploadVideo` of a video without a url: RENDERING, then RENDERED, then the
   * output file written as the url, then the e-mail to the owner.
   */
  lemma UploadVideoRendersFirst(c: Ctx, cancel: Option<nat>, p: Providers, t: Templates, videoId: Id,
                                refreshToken: string, limit: nat, video: Video)
    requires Get(c.state.videos, videoId) == Some(video) && NeedsRender(video)
    requires UploadVideoFlow(c, cancel, p, t, videoId, refreshToken, limit).exit.Next?
    ensures Users.GetUser(c.state, video.clerkId).Some?
    ensures var owner := Users.GetUser(c.state, video.clerkId).value.value;
      exists file, upload :: UploadVideoFlow(c, cancel, p, t, videoId, refreshToken, limit).ctx.effects
        == c.effects + [VideoRendering(videoId, RENDERING), VideoRendering(videoId, RENDERED)]
                     + [VideoUrl(videoId, file), Mailed(owner.email, EmailPayloadOf(owner, upload))]
  {
    UploadVideoUnfold(c, cancel, p, t, videoId, refreshToken, limit, video);
    var c1 := Ctx(Record(c.log, GET_VIDEO_DATA, Succeeded), c.state, c.effects);
    var rendered := RenderOrReuse(c1, cancel, p, Doc(videoId, video), limit);
    RenderOrReuseCompleted(c1, cancel, p, Doc(videoId, video), limit);
    PublishCompleted(rendered.ctx, cancel, p, t, videoId, video, rendered.exit.value, refreshToken);
    assert rendered.exit.value.Output?;
  }

  /** The metadata step changes no record, however it ends. */
  lemma MetadataQuiet(c: Ctx, cancel: Option<nat>, p: Providers, t: Templates, video: Video)
    ensures MetadataFlow(c, cancel, p, t, video).ctx.state == c.state
  {
    var reply := CallFlow(c, cancel, GENERATE_METADATA, p.gemini(MetadataText(t.metadata, video.script)));
    assert reply.ctx.state == c.state;
  }

  /** The token and upload steps change no record, however they end. */
  lemma UploadOnYoutubeQuiet(c: Ctx, cancel: Option<nat>, p: Providers, videoUrl: string, metadata: Metadata, refreshToken: string)
    ensures UploadOnYoutubeFlow(c, cancel, p, videoUrl, metadata, refreshToken).ctx.state == c.state
  {
    var token := CallFlow(c, cancel, GENERATE_ACCESS_TOKEN, p.accessToken(refreshToken));
    assert token.ctx.state == c.state;
  }

  /** Publishing writes to the videos table only: the schedules are as they were, however it ends. */
  lemma PublishKeepsSchedules(c: Ctx, cancel: Option<nat>, p: Providers, t: Templates, videoId: Id, video: Video,
                              rendered: RenderResult, refreshToken: string)
    ensures PublishFlow(c, cancel, p, t, videoId, video, rendered, refreshToken).ctx.state.schedulers == c.state.schedulers
  {
    var stored := UpdateVideoUrlFlow(c, cancel, videoId, rendered);
    assert stored.ctx.state.schedulers == c.state.schedulers;
    if stored.exit.Next? {
      var metadata := MetadataFlow(stored.ctx, cancel, p, t, video);
      MetadataQuiet(stored.ctx, cancel, p, t, video);
      if metadata.exit.Next? && UrlOf(rendered).Some? {
        var upload := UploadOnYoutubeFlow(metadata.ctx, cancel, p, UrlOf(rendered).value, metadata.exit.value, refreshToken);
        UploadOnYoutubeQuiet(metadata.ctx, cancel, p, UrlOf(rendered).value, metadata.exit.value, refreshToken);
        if upload.exit.Next? {
          var user := Users.GetUser(upload.ctx.state, video.clerkId);
          assert EmailFlow(upload.ctx, cancel, user, upload.exit.value).ctx.state == upload.ctx.state;
        }
      }
    }
  }

  /** `uploadVideo` writes to the videos table only: the schedules are as they were, however it ends. */
  lemma UploadVideoKeepsSchedules(c: Ctx, cancel: Option<nat>, p: Providers, t: Templates, videoId: Id,
                                  refreshToken: string, limit: nat)
    ensures UploadVideoFlow(c, cancel, p, t, videoId, refreshToken, limit).ctx.state.schedulers == c.state.schedulers
  {
    var fetched := GetVideoDataFlow(c, cancel, videoId);
    assert fetched.ctx.state == c.state;
    if fetched.exit.Next? && fetched.exit.value.Some? {
      var video := fetched.exit.value.value;
      var rendered := RenderOrReuse(fetched.ctx, cancel, p, video, limit);
      assert rendered.ctx.state.schedulers == c.state.schedulers;
      if rendered.exit.Next? {
        PublishKeepsSchedules(rendered.ctx, cancel, p, t, videoId, video.value, rendered.exit.value, refreshToken);
      }
    }
  }
}
