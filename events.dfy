/**
 * The Inngest events of inngest/functions.ts: each function is triggered by one event and
 * cancelled by another whose `data` carries the same id under the same key.
 */
module Events {
  import opened Tables

  /** A value in an event's `data`: a document id or a text. */
  datatype Field = IdField(id: Id) | TextField(text: string)

  datatype Event = Event(name: string, data: map<string, Field>)

  /** What `inngest.createFunction` declares: the trigger event, the cancel event and its `match` key. */
  datatype FunctionDef = FunctionDef(id: string, trigger: string, cancelEvent: string, matchKey: string)

  const CREATE_VIDEO_FN := FunctionDef("create-video", "zentro.video.create", "zentro.video.cancel", "videoId")
  const GENERATE_IMAGE_FN := FunctionDef("generate-image", "zentro.image.generate", "zentro.image.cancel", "imageId")
  const SCHEDULE_UPLOAD_FN := FunctionDef("schedule-upload", "zentro.schedule.upload", "zentro.schedule.cancel", "scheduleId")
  const RENDER_VIDEO_FN := FunctionDef("render-video", "zentro.render.video", "zentro.render.cancel", "videoId")

  const FUNCTIONS := [CREATE_VIDEO_FN, GENERATE_IMAGE_FN, SCHEDULE_UPLOAD_FN, RENDER_VIDEO_FN]

  /** The id a run of `f` works on: the trigger's `data` field under the match key. */
  function Subject(f: FunctionDef, trigger: Event): (r: Field)
    requires f.matchKey in trigger.data
    ensures r == trigger.data[f.matchKey]
  {
    trigger.data[f.matchKey]
  }

  /** `cancel` stops the run of `f` that `trigger` started: `data.<matchKey>` is equal in both events. */
  predicate Cancels(f: FunctionDef, trigger: Event, cancel: Event) {
    && trigger.name == f.trigger
    && cancel.name == f.cancelEvent
    && f.matchKey in trigger.data && f.matchKey in cancel.data
    && trigger.data[f.matchKey] == cancel.data[f.matchKey]
  }

  /** The cancel event the routes under app/api/cancel send for the document `id`. */
  function CancelEvent(f: FunctionDef, id: Id): Event {
    Event(f.cancelEvent, map[f.matchKey := IdField(id)])
  }

  /**
   * A cancel event for `id` stops exactly the runs of `f` started for `id`: every declared
   * function matches its cancel event on the key it read its id from.
   */
  lemma CancelMatchesSubject(f: FunctionDef, trigger: Event, id: Id)
    requires f in FUNCTIONS
    requires trigger.name == f.trigger && f.matchKey in trigger.data
    ensures Cancels(f, trigger, CancelEvent(f, id)) <==> Subject(f, trigger) == IdField(id)
  {
  }

  /** A function's own cancel event never cancels another function's run: the event names differ. */
  lemma CancelEventsDistinct(i: nat, j: nat, trigger: Event, id: Id)
    requires i < |FUNCTIONS| && j < |FUNCTIONS| && i != j
    ensures !Cancels(FUNCTIONS[j], trigger, CancelEvent(FUNCTIONS[i], id))
  {
  }

  /** The event scheduleUpload is triggered with, and re-sends for a SMART schedule. */
  function ScheduleUploadEvent(scheduleId: Id, googleRefreshToken: string): (e: Event)
    ensures e.name == SCHEDULE_UPLOAD_FN.trigger && SCHEDULE_UPLOAD_FN.matchKey in e.data
    ensures Subject(SCHEDULE_UPLOAD_FN, e) == IdField(scheduleId)
    ensures "googleRefreshToken" in e.data && e.data["googleRefreshToken"] == TextField(googleRefreshToken)
  {
    Event(SCHEDULE_UPLOAD_FN.trigger, map["googleRefreshToken" := TextField(googleRefreshToken), "scheduleId" := IdField(scheduleId)])
  }
}
