/**
 * The hosted services the step helpers call: text-to-speech, transcription, the text and image
 * models, the image host, the render farm, the OAuth token endpoint and the YouTube API. Each
 * call is given as a function from its arguments to its outcome, so a run of a pipeline is
 * determined by the store, the providers and where the run is cancelled.
 */
module Collaborators {
  import opened Wrappers
  import opened Schema
  import opened LibHelpers

  /** The fields `getDesiredImageProps` reads off the parsed reply, as the parser finds them. */
  type JsonObject = map<string, string>

  /** The reference image sent along with an image request. */
  datatype InlineImage = InlineImage(mimeType: string, data: string)

  /** One part of the image model's reply; `inlineData` holds the base64 image data if any. */
  datatype Part = Part(inlineData: Option<string>)

  /** What `getRenderProgress` reports on one poll. */
  datatype Progress = Progress(done: bool, fatalErrorEncountered: bool, outputFile: Option<string>, errors: seq<string>)

  /** The parsed metadata reply handed to the YouTube upload. */
  datatype Metadata = Metadata(title: Option<string>, description: Option<string>, tags: Option<seq<string>>)

  datatype Thumbnail = Thumbnail(url: Option<string>, height: Option<int>, width: Option<int>)

  datatype Snippet = Snippet(
    channelTitle: Option<string>,
    title: Option<string>,
    description: Option<string>,
    tags: Option<seq<string>>,
    medium: Option<Thumbnail>)

  /** The body YouTube returns for an inserted video. */
  datatype UploadResponse = UploadResponse(id: string, snippet: Option<Snippet>)

  /** The `emailObj` handed to the e-mail template. */
  datatype EmailPayload = EmailPayload(
    name: string,
    videoUrl: string,
    channelName: string,
    videoTitle: string,
    videoDescription: string,
    videoTags: seq<string>,
    thumbnailUrl: string,
    thumbnailHeight: int,
    thumbnailWidth: int)

  datatype Providers = Providers(
    // `new Date().toISOString()` at the n-th step of a run.
    clock: nat -> Timestamp,
    // Deepgram text-to-speech for (script, voice): the audio stream, or none.
    speak: (string, string) -> Result<Option<seq<ReadResult>>>,
    // ImageKit upload of a byte buffer: the file's url.
    uploadAudio: seq<byte> -> Result<string>,
    // Deepgram transcription of an audio url: the words of the first channel, if present.
    transcribe: string -> Result<Option<seq<Word>>>,
    gemini: Gemini,
    // JSON.parse of the image-prompt reply: the array's `imagePrompt` fields, or None when it is no array.
    parsePrompts: string -> Result<Option<seq<Option<string>>>>,
    // Nebius image generation for one prompt: `data[0].url`, if present.
    generateImage: Option<string> -> Result<Option<string>>,
    // JSON.parse of the image-props reply.
    parseProps: string -> Result<JsonObject>,
    // axios download of the reference image, base64-encoded.
    fetchImage: string -> Result<string>,
    // `mime.lookup(url)`: a mime type, or None for `false`.
    lookupMime: string -> Option<string>,
    // The image model for (prompt, reference image): the first candidate's parts, if present.
    imageModel: (Option<string>, Option<InlineImage>) -> Result<Option<seq<Part>>>,
    // ImageKit upload of base64 image data: the file's url.
    uploadImage: string -> Result<string>,
    // `getFunctions`: the names of the deployed render functions.
    renderFunctions: Result<seq<string>>,
    // `renderMediaOnLambda` with a function name and the video's images, audio and captions: the job.
    submitRender: (string, Video) -> Result<string>,
    // `getRenderProgress` of a job on its n-th poll.
    renderProgress: (string, nat) -> Result<Progress>,
    // JSON.parse of the metadata reply.
    parseMetadata: string -> Result<Metadata>,
    // The OAuth token endpoint: an access token for a refresh token.
    accessToken: string -> Result<string>,
    // `youtube.videos.insert` of (video url, metadata, access token).
    youtubeUpload: (string, Metadata, string) -> Result<UploadResponse>,
    // `inngest.send`.
    sendEvent: Result<()>)

  /** The prompt templates of constants/prompts.ts the pipelines fill. */
  datatype Templates = Templates(imagePrompt: string, title: string, imageGeneration: string, metadata: string)
}
