/**
 * The record types of convex/schema.ts and the vocabularies the code writes into their
 * `status`, `rendering` and `type` fields. Fields that the schema declares optional are
 * `Option`s. Timestamps (`updatedAt`, `datetime`) are the date strings the schema stores.
 */
module Schema {
  import opened Wrappers
  import opened Tables

  type Timestamp = string

  // Job status of videos, image generations and schedules.
  const QUEUED := "QUEUED"
  const PROCESSING := "PROCESSING"
  const COMPLETED := "COMPLETED"
  const FAILED := "FAILED"

  // Render sub-status of a video, as the code writes it.
  const NOT_RENDERED := "NOT_RENDERED"
  const RENDERING := "RENDERING"
  const RENDERED := "RENDERED"

  // Schedule types.
  const SMART := "SMART"
  const NORMAL := "NORMAL"

  datatype User = User(clerkId: string, name: string, email: string, picture: string)

  datatype CaptionStyle = CaptionStyle(labelText: string, className: string)

  /** One word of the captions: its text and when it is spoken. */
  datatype Word = Word(text: string, start: int, end: int)

  datatype Video = Video(
    clerkId: string,
    title: Option<string>,
    voice: string,
    script: string,
    captionStyle: CaptionStyle,
    topic: string,
    videoStyle: string,
    captions: Option<seq<Word>>,
    images: Option<seq<string>>,
    audioUrl: Option<string>,
    status: string,
    updatedAt: Timestamp,
    videoUrl: Option<string>,
    rendering: Option<string>)

  /** The reference image a user picked for an image generation. */
  datatype SelectedImage = SelectedImage(url: string)

  datatype ImageGeneration = ImageGeneration(
    clerkId: string,
    prompt: string,
    imageType: string,
    image: Option<string>,
    status: string,
    selectedImage: Option<SelectedImage>)

  datatype Schedule = Schedule(
    videoId: Id,
    clerkId: string,
    datetime: Timestamp,
    status: string,
    description: Option<string>,
    scheduleType: string)

  datatype Image = Image(url: string, clerkId: string)

  /** What `ctx.auth.getUserIdentity()` yields for a signed-in caller. */
  datatype Identity = Identity(subject: string, name: Option<string>, email: Option<string>, pictureUrl: Option<string>)

  /** The whole document store: one table per `defineTable`, and the next id Convex hands out. */
  datatype State = State(
    users: seq<Doc<User>>,
    videos: seq<Doc<Video>>,
    imageGenerations: seq<Doc<ImageGeneration>>,
    schedulers: seq<Doc<Schedule>>,
    images: seq<Doc<Image>>,
    nextId: nat)

  ghost predicate WellFormed(s: State) {
    && Increasing(s.users) && Below(s.users, s.nextId)
    && Increasing(s.videos) && Below(s.videos, s.nextId)
    && Increasing(s.imageGenerations) && Below(s.imageGenerations, s.nextId)
    && Increasing(s.schedulers) && Below(s.schedulers, s.nextId)
    && Increasing(s.images) && Below(s.images, s.nextId)
  }

  const NONEXISTENT := "Update on nonexistent document ID"
  const UNAUTHORIZED := "Unauthorized"
  /** What a validator reports for a value of the wrong type: a null, or a required field left undefined. */
  const INVALID := "Value does not match validator"
}
