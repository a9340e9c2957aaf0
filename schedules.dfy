/** convex/schedules.ts: scheduled uploads of a video. */
module Schedules {
  import opened Wrappers
  import opened Tables
  import opened Schema
  import opened Store

  /** `updateScheduleStatus`: patches `status` only. */
  function PatchScheduleStatus(s: State, id: Id, status: string): (r: Result<State>)
    ensures r.Ok? <==> Has(s.schedulers, id)
    ensures r.Ok? ==> r.value == s.(schedulers := r.value.schedulers)
    ensures r.Ok? && WellFormed(s) ==>
      && WellFormed(r.value)
      && Replaced(s.schedulers, r.value.schedulers, id, Get(s.schedulers, id).value.(status := status))
  {
    match Get(s.schedulers, id)
    case None => Err(NONEXISTENT)
    case Some(sc) =>
      PatchKeepsWellFormed(s, id, sc.(status := status));
      Ok(s.(schedulers := Set(s.schedulers, id, sc.(status := status))))
  }

  lemma PatchKeepsWellFormed(s: State, id: Id, sc: Schedule)
    requires Has(s.schedulers, id)
    ensures WellFormed(s) ==>
      && WellFormed(s.(schedulers := Set(s.schedulers, id, sc)))
      && Replaced(s.schedulers, Set(s.schedulers, id, sc), id, sc)
  {
    if WellFormed(s) {
      SetReplaces(s.schedulers, id, sc, s.nextId);
    }
  }

  /**
   * Patching the status never moves a schedule in time: every schedule keeps its `datetime`,
   * whatever sequence of status updates is applied.
   */
  lemma {:induction false} StatusUpdatesKeepDatetime(s: State, updates: seq<(Id, string)>, j: Id)
    requires WellFormed(s) && Has(s.schedulers, j)
    ensures var t := ApplyStatusUpdates(s, updates);
      WellFormed(t) && Has(t.schedulers, j) && Get(t.schedulers, j).value.datetime == Get(s.schedulers, j).value.datetime
    decreases |updates|
  {
    if updates != [] {
      var s' := StatusUpdate(s, updates[0].0, updates[0].1);
      StatusUpdateKeepsDatetime(s, updates[0].0, updates[0].1, j);
      StatusUpdatesKeepDatetime(s', updates[1..], j);
    }
  }

  lemma StatusUpdateKeepsDatetime(s: State, id: Id, status: string, j: Id)
    requires WellFormed(s) && Has(s.schedulers, j)
    ensures var t := StatusUpdate(s, id, status);
      WellFormed(t) && Has(t.schedulers, j) && Get(t.schedulers, j).value.datetime == Get(s.schedulers, j).value.datetime
  {
    var p := PatchScheduleStatus(s, id, status);
    if p.Ok? && j != id {
      assert Get(p.value.schedulers, j) == Get(s.schedulers, j);
    }
  }

  /** One `updateScheduleStatus` call; on a missing id it fails and the store is unchanged. */
  function StatusUpdate(s: State, id: Id, status: string): State {
    var p := PatchScheduleStatus(s, id, status);
    if p.Ok? then p.value else s
  }

  /** A status update on a stored schedule reads back as that schedule with the new status and nothing else changed. */
  lemma StatusUpdateReadBack(s: State, id: Id, sc: Schedule, status: string)
    requires Get(s.schedulers, id) == Some(sc)
    ensures StatusUpdate(s, id, status) == s.(schedulers := Set(s.schedulers, id, sc.(status := status)))
    ensures Get(StatusUpdate(s, id, status).schedulers, id) == Some(sc.(status := status))
  {
    var docs := Set(s.schedulers, id, sc.(status := status));
    var r := Get(docs, id);
    assert Has(docs, id) by {
      var i :| 0 <= i < |s.schedulers| && s.schedulers[i] == Doc(id, sc);
      assert docs[i].id == id;
    }
    var i :| 0 <= i < |docs| && docs[i] == Doc(id, r.value);
  }

  /** The store after a sequence of `updateScheduleStatus` calls; a call on a missing id changes nothing. */
  function ApplyStatusUpdates(s: State, updates: seq<(Id, string)>): State
    decreases |updates|
  {
    if updates == [] then s
    else ApplyStatusUpdates(StatusUpdate(s, updates[0].0, updates[0].1), updates[1..])
  }

  /** `getSchedules`: the caller's schedules in creation order. */
  function GetSchedules(s: State, identity: Option<Identity>): (r: Result<seq<Doc<Schedule>>>)
    ensures r.Err? <==> identity.None?
    ensures r.Err? ==> r.msg == UNAUTHORIZED
    ensures r.Ok? ==> forall i :: 0 <= i < |r.value| ==>
      r.value[i] in s.schedulers && r.value[i].value.clerkId == identity.value.subject
    ensures r.Ok? ==> forall k :: 0 <= k < |s.schedulers| && s.schedulers[k].value.clerkId == identity.value.subject ==>
      s.schedulers[k] in r.value
    ensures r.Ok? && WellFormed(s) ==> forall i, j :: 0 <= i < j < |r.value| ==> r.value[i].id < r.value[j].id
  {
    if identity.None? then Err(UNAUTHORIZED)
    else
      var keep := (sc: Schedule) => sc.clerkId == identity.value.subject;
      FilterKeepsIncreasing(s.schedulers, keep);
      Ok(Filter(s.schedulers, keep))
  }

  /** `createSchedule`: inserts exactly the given fields; no caller check. */
  method CreateSchedule(db: Db, videoId: Id, clerkId: string, datetime: Timestamp, status: string,
                        description: Option<string>, scheduleType: string) returns (id: Id)
    requires db.Valid()
    modifies db
    ensures db.Valid()
    ensures id == old(db.nextId) && !Has(old(db.schedulers), id)
    ensures db.Snapshot() == old(db.Snapshot()).(
      schedulers := old(db.schedulers) + [Doc(id, Schedule(videoId, clerkId, datetime, status, description, scheduleType))],
      nextId := id + 1)
  {
    id := db.nextId;
    var sc := Schedule(videoId, clerkId, datetime, status, description, scheduleType);
    AppendKeepsIncreasing(db.schedulers, id, sc);
    db.schedulers := db.schedulers + [Doc(id, sc)];
    db.nextId := id + 1;
  }

  /** `updateScheduleStatus`. */
  method UpdateScheduleStatus(db: Db, scheduleId: Id, status: string) returns (r: Result<()>)
    requires db.Valid()
    modifies db
    ensures db.Valid()
    ensures var p := PatchScheduleStatus(old(db.Snapshot()), scheduleId, status);
      r.Ok? == p.Ok? && db.Snapshot() == if p.Ok? then p.value else old(db.Snapshot())
  {
    var sc := Get(db.schedulers, scheduleId);
    if sc.None? {
      return Err(NONEXISTENT);
    }
    SetReplaces(db.schedulers, scheduleId, sc.value.(status := status), db.nextId);
    db.schedulers := Set(db.schedulers, scheduleId, sc.value.(status := status));
    r := Ok(());
  }

  /** `deleteSchedule`; a missing id fails. */
  method DeleteSchedule(db: Db, scheduleId: Id) returns (r: Result<()>)
    requires db.Valid()
    modifies db
    ensures db.Valid()
    ensures r.Ok? <==> Has(old(db.schedulers), scheduleId)
    ensures !Has(db.schedulers, scheduleId)
    ensures forall j :: j != scheduleId ==> Get(db.schedulers, j) == Get(old(db.schedulers), j)
    ensures db.Snapshot() == old(db.Snapshot()).(schedulers := Remove(old(db.schedulers), scheduleId))
  {
    forall j ensures Get(Remove(db.schedulers, scheduleId), j) == if j == scheduleId then None else Get(db.schedulers, j) {
      GetAfterRemove(db.schedulers, scheduleId, j);
    }
    RemoveKeepsIncreasing(db.schedulers, scheduleId, db.nextId);
    var present := Has(db.schedulers, scheduleId);
    db.schedulers := Remove(db.schedulers, scheduleId);
    if !present {
      return Err("Delete on nonexistent document ID");
    }
    r := Ok(());
  }
}
