/**
 * The three routes under app/api/cancel: each sends the cancel event of one pipeline for a
 * document id and then deletes that document. A send that fails throws before the delete, so
 * the document is deleted only after its cancel event is on its way.
 */
module CancelRoutes {
  import opened Wrappers
  import opened Tables
  import opened Schema
  import opened Store
  import opened Events
  import Videos
  import Images
  import Schedules

  /** `POST /api/cancel/video`: cancel createVideo for the video, then delete it. */
  method CancelVideo(db: Db, sendEvent: Result<()>, videoId: Id) returns (sent: seq<Event>, r: Result<()>)
    requires db.Valid()
    modifies db
    ensures db.Valid()
    ensures sendEvent.Err? ==> sent == [] && r.Err? && db.Snapshot() == old(db.Snapshot())
    ensures sendEvent.Ok? ==>
      && sent == [CancelEvent(CREATE_VIDEO_FN, videoId)]
      && (r.Ok? <==> Has(old(db.videos), videoId))
      && db.Snapshot() == old(db.Snapshot()).(videos := Remove(old(db.videos), videoId))
  {
    if sendEvent.Err? {
      return [], Err(sendEvent.msg);
    }
    sent := [CancelEvent(CREATE_VIDEO_FN, videoId)];
    r := Videos.DeleteVideo(db, videoId);
  }

  /** `POST /api/cancel/image`: cancel generateImage for the job, then delete it. */
  method CancelImage(db: Db, sendEvent: Result<()>, imageId: Id) returns (sent: seq<Event>, r: Result<()>)
    requires db.Valid()
    modifies db
    ensures db.Valid()
    ensures sendEvent.Err? ==> sent == [] && r.Err? && db.Snapshot() == old(db.Snapshot())
    ensures sendEvent.Ok? ==>
      && sent == [CancelEvent(GENERATE_IMAGE_FN, imageId)]
      && (r.Ok? <==> Has(old(db.imageGenerations), imageId))
      && db.Snapshot() == old(db.Snapshot()).(imageGenerations := Remove(old(db.imageGenerations), imageId))
  {
    if sendEvent.Err? {
      return [], Err(sendEvent.msg);
    }
    sent := [CancelEvent(GENERATE_IMAGE_FN, imageId)];
    var deleted := Images.DeleteImageGeneration(db, imageId);
    r := if deleted.Ok? then Ok(()) else Err(deleted.msg);
  }

  /** `POST /api/cancel/schedule`: cancel scheduleUpload for the schedule, then delete it. */
  method CancelSchedule(db: Db, sendEvent: Result<()>, scheduleId: Id) returns (sent: seq<Event>, r: Result<()>)
    requires db.Valid()
    modifies db
    ensures db.Valid()
    ensures sendEvent.Err? ==> sent == [] && r.Err? && db.Snapshot() == old(db.Snapshot())
    ensures sendEvent.Ok? ==>
      && sent == [CancelEvent(SCHEDULE_UPLOAD_FN, scheduleId)]
      && (r.Ok? <==> Has(old(db.schedulers), scheduleId))
      && db.Snapshot() == old(db.Snapshot()).(schedulers := Remove(old(db.schedulers), scheduleId))
  {
    if sendEvent.Err? {
      return [], Err(sendEvent.msg);
    }
    sent := [CancelEvent(SCHEDULE_UPLOAD_FN, scheduleId)];
    r := Schedules.DeleteSchedule(db, scheduleId);
  }

  /**
   * The schedule route's event stops the run of scheduleUpload for that schedule, whether it was
   * started by the scheduler page or by a SMART run's re-send, and no run for another schedule.
   */
  lemma ScheduleCancelStopsReruns(scheduleId: Id, refreshToken: string, id: Id)
    ensures Cancels(SCHEDULE_UPLOAD_FN, ScheduleUploadEvent(scheduleId, refreshToken), CancelEvent(SCHEDULE_UPLOAD_FN, id))
      <==> id == scheduleId
  {
    CancelMatchesSubject(SCHEDULE_UPLOAD_FN, ScheduleUploadEvent(scheduleId, refreshToken), id);
  }

  /**
   * The video route's event cancels createVideo only: a renderZentroVideo run for the same video
   * goes on after the video is deleted.
   */
  lemma VideoCancelMissesRender(trigger: Event, videoId: Id)
    ensures !Cancels(RENDER_VIDEO_FN, trigger, CancelEvent(CREATE_VIDEO_FN, videoId))
  {
    CancelEventsDistinct(0, 3, trigger, videoId);
  }
}
