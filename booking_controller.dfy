/**
 * The booking handlers: `getBooking` (either party may look), `startBooking`
 * and `completeBooking` (the provider moves a booking scheduled, then in
 * progress, then completed, and the task with it), `cancelBooking` (either
 * party, only while scheduled, which reopens the task) and
 * `getBookingTimeline` (the events a booking's status implies).
 */
module BookingController {
  import opened Wrappers
  import opened Store

  /** A party to the booking. */
  predicate Party(b: Booking, caller: Caller)
  {
    b.customerId == caller.id || b.providerId == caller.id
  }

  /** `getBooking`: the booking, or the 404 / 403 refusal. */
  function ViewBooking(db: Db, caller: Caller, bookingId: nat): (r: Result<Booking, Response>)
    ensures r.Success? <==> bookingId in db.bookings && Party(db.bookings[bookingId], caller)
    ensures r.Success? ==> r.value == db.bookings[bookingId]
    ensures bookingId !in db.bookings ==> r == Failure(Response(404, "Booking not found"))
    ensures bookingId in db.bookings && !Party(db.bookings[bookingId], caller) ==> r == Failure(Response(403, "Unauthorized"))
  {
    if bookingId !in db.bookings then Failure(Response(404, "Booking not found"))
    else if !Party(db.bookings[bookingId], caller) then Failure(Response(403, "Unauthorized"))
    else Success(db.bookings[bookingId])
  }

  /** `startBooking`: the conditional update on id, provider and `scheduled`; then the task follows. */
  function StartBookingEffect(db: Db, caller: Caller, bookingId: nat): (r: Effect)
    ensures r.response.code == 200 <==>
      bookingId in db.bookings && db.bookings[bookingId].providerId == caller.id && db.bookings[bookingId].status == Scheduled
    ensures r.response.code == 200 ==>
      var b := db.bookings[bookingId];
      r.db == db.(bookings := db.bookings[bookingId := b.(status := InProgress)],
                  tasks := SetTaskStatus(db.tasks, b.taskId, TaskInProgress))
    ensures r.response.code != 200 ==> r == Effect(db, Response(400, "Failed to start booking or unauthorized"))
  {
    if bookingId in db.bookings && db.bookings[bookingId].providerId == caller.id && db.bookings[bookingId].status == Scheduled then
      var b := db.bookings[bookingId];
      Effect(db.(bookings := db.bookings[bookingId := b.(status := InProgress)], tasks := SetTaskStatus(db.tasks, b.taskId, TaskInProgress)),
        Response(200, "Booking started"))
    else Effect(db, Response(400, "Failed to start booking or unauthorized"))
  }

  method StartBooking(store: Database, caller: Caller, bookingId: nat) returns (response: Response)
    modifies store
    ensures Effect(store.Snapshot(), response) == StartBookingEffect(old(store.Snapshot()), caller, bookingId)
  {
    if !(bookingId in store.bookings && store.bookings[bookingId].providerId == caller.id && store.bookings[bookingId].status == Scheduled) {
      return Response(400, "Failed to start booking or unauthorized");
    }
    var b := store.bookings[bookingId].(status := InProgress);
    store.bookings := store.bookings[bookingId := b];
    if b.taskId in store.tasks {
      store.tasks := store.tasks[b.taskId := store.tasks[b.taskId].(status := TaskInProgress)];
    }
    response := Response(200, "Booking started");
  }

  /** The provider's completed-jobs counter after one more job; a provider without a profile row has none to bump. */
  function Incremented(profiles: map<nat, Profile>, providerId: nat): (r: map<nat, Profile>)
    ensures r.Keys == profiles.Keys
    ensures providerId in profiles ==> r[providerId].completedJobs == profiles[providerId].completedJobs + 1
    ensures forall k :: k in profiles && k != providerId ==> r[k] == profiles[k]
  {
    if providerId in profiles then profiles[providerId := Profile(profiles[providerId].completedJobs + 1)] else profiles
  }

  /** `completeBooking`: the conditional update on id, provider and `in_progress`, stamping the completion time; then task and counter. */
  function CompleteBookingEffect(db: Db, caller: Caller, bookingId: nat, now: int): (r: Effect)
    ensures r.response.code == 200 <==>
      bookingId in db.bookings && db.bookings[bookingId].providerId == caller.id && db.bookings[bookingId].status == InProgress
    ensures r.response.code == 200 ==>
      var b := db.bookings[bookingId];
      r.db == Db(SetTaskStatus(db.tasks, b.taskId, TaskCompleted), db.bids,
                 db.bookings[bookingId := b.(status := Completed, completionTime := Some(now))],
                 Incremented(db.profiles, caller.id), db.nextId)
    ensures r.response.code != 200 ==> r == Effect(db, Response(400, "Failed to complete booking or unauthorized"))
  {
    if bookingId in db.bookings && db.bookings[bookingId].providerId == caller.id && db.bookings[bookingId].status == InProgress then
      var b := db.bookings[bookingId];
      Effect(Db(SetTaskStatus(db.tasks, b.taskId, TaskCompleted), db.bids,
                db.bookings[bookingId := b.(status := Completed, completionTime := Some(now))],
                Incremented(db.profiles, caller.id), db.nextId),
        Response(200, "Booking completed"))
    else Effect(db, Response(400, "Failed to complete booking or unauthorized"))
  }

  method CompleteBooking(store: Database, caller: Caller, bookingId: nat, now: int) returns (response: Response)
    modifies store
    ensures Effect(store.Snapshot(), response) == CompleteBookingEffect(old(store.Snapshot()), caller, bookingId, now)
  {
    if !(bookingId in store.bookings && store.bookings[bookingId].providerId == caller.id && store.bookings[bookingId].status == InProgress) {
      return Response(400, "Failed to complete booking or unauthorized");
    }
    var b := store.bookings[bookingId].(status := Completed, completionTime := Some(now));
    store.bookings := store.bookings[bookingId := b];
    if b.taskId in store.tasks {
      store.tasks := store.tasks[b.taskId := store.tasks[b.taskId].(status := TaskCompleted)];
    }
    if caller.id in store.profiles {
      store.profiles := store.profiles[caller.id := Profile(store.profiles[caller.id].completedJobs + 1)];
    }
    response := Response(200, "Booking completed");
  }

  /** `cancelBooking`: 404, 403, then only a scheduled booking is cancelled and its task reopened. */
  function CancelBookingEffect(db: Db, caller: Caller, bookingId: nat): (r: Effect)
    ensures bookingId !in db.bookings ==> r == Effect(db, Response(404, "Booking not found"))
    ensures r.response.code == 200 <==>
      bookingId in db.bookings && Party(db.bookings[bookingId], caller) && db.bookings[bookingId].status == Scheduled
    ensures r.response.code == 200 ==>
      var b := db.bookings[bookingId];
      r.db == db.(bookings := db.bookings[bookingId := b.(status := Cancelled)], tasks := SetTaskStatus(db.tasks, b.taskId, Open))
    ensures r.response.code != 200 ==> r.db == db
  {
    if bookingId !in db.bookings then Effect(db, Response(404, "Booking not found"))
    else
      var b := db.bookings[bookingId];
      if !Party(b, caller) then Effect(db, Response(403, "Unauthorized"))
      else if b.status != Scheduled then Effect(db, Response(400, "Can only cancel scheduled bookings"))
      else Effect(db.(bookings := db.bookings[bookingId := b.(status := Cancelled)], tasks := SetTaskStatus(db.tasks, b.taskId, Open)),
        Response(200, "Booking cancelled"))
  }

  method CancelBooking(store: Database, caller: Caller, bookingId: nat) returns (response: Response)
    modifies store
    ensures Effect(store.Snapshot(), response) == CancelBookingEffect(old(store.Snapshot()), caller, bookingId)
  {
    if bookingId !in store.bookings {
      return Response(404, "Booking not found");
    }
    var existing := store.bookings[bookingId];
    if !(existing.customerId == caller.id || existing.providerId == caller.id) {
      return Response(403, "Unauthorized");
    }
    if existing.status != Scheduled {
      return Response(400, "Can only cancel scheduled bookings");
    }
    store.bookings := store.bookings[bookingId := existing.(status := Cancelled)];
    if existing.taskId in store.tasks {
      store.tasks := store.tasks[existing.taskId := store.tasks[existing.taskId].(status := Open)];
    }
    response := Response(200, "Booking cancelled");
  }

  /** One timeline entry: the event, its timestamp column (possibly null) and the status it stands for. */
  datatype Entry = Entry(event: string, timestamp: Option<int>, status: string)

  predicate HasEvent(t: seq<Entry>, event: string)
  {
    exists i :: 0 <= i < |t| && t[i].event == event
  }

  /** The timeline a booking's current status implies, in the order the events happen. */
  function Timeline(b: Booking): (t: seq<Entry>)
    ensures 1 <= |t| <= 3
    ensures t[0] == Entry("Booking Created", Some(b.createdAt), "scheduled")
    ensures HasEvent(t, "Job Started") <==> b.status == InProgress || b.status == Completed
    ensures HasEvent(t, "Job Completed") <==> b.status == Completed
    ensures HasEvent(t, "Booking Cancelled") <==> b.status == Cancelled
    ensures b.status == Completed ==> t[|t| - 1] == Entry("Job Completed", b.completionTime, "completed")
    ensures b.status == Scheduled ==> t == [t[0]]
    ensures b.status == InProgress ==> t == [t[0], Entry("Job Started", Some(b.updatedAt), "in_progress")]
    ensures b.status == Completed ==> t == [t[0], Entry("Job Started", Some(b.updatedAt), "in_progress"), t[2]]
    ensures b.status == Cancelled ==> t == [t[0], Entry("Booking Cancelled", Some(b.updatedAt), "cancelled")]
  {
    var created := [Entry("Booking Created", Some(b.createdAt), "scheduled")];
    var started := if b.status == InProgress || b.status == Completed then [Entry("Job Started", Some(b.updatedAt), "in_progress")] else [];
    var completed := if b.status == Completed then [Entry("Job Completed", b.completionTime, "completed")] else [];
    var cancelled := if b.status == Cancelled then [Entry("Booking Cancelled", Some(b.updatedAt), "cancelled")] else [];
    var t := created + started + completed + cancelled;
    assert t[0] == created[0];
    assert HasEvent(t, "Job Started") <==> started != [] by {
      if started != [] { assert t[1] == started[0]; }
    }
    assert HasEvent(t, "Job Completed") <==> completed != [] by {
      if completed != [] { assert t[2] == completed[0]; }
    }
    assert HasEvent(t, "Booking Cancelled") <==> cancelled != [] by {
      if cancelled != [] { assert t[1] == cancelled[0]; }
    }
    t
  }

  /** `getBookingTimeline`: the list built by appends; no party check is made. */
  method GetBookingTimeline(store: Database, bookingId: nat) returns (r: Result<seq<Entry>, Response>)
    ensures bookingId !in store.bookings ==> r == Failure(Response(404, "Booking not found"))
    ensures bookingId in store.bookings ==> r == Success(Timeline(store.bookings[bookingId]))
  {
    if bookingId !in store.bookings {
      return Failure(Response(404, "Booking not found"));
    }
    var booking := store.bookings[bookingId];
    var timeline := [Entry("Booking Created", Some(booking.createdAt), "scheduled")];
    if booking.status == InProgress || booking.status == Completed {
      timeline := timeline + [Entry("Job Started", Some(booking.updatedAt), "in_progress")];
    }
    if booking.status == Completed {
      timeline := timeline + [Entry("Job Completed", booking.completionTime, "completed")];
    }
    if booking.status == Cancelled {
      timeline := timeline + [Entry("Booking Cancelled", Some(booking.updatedAt), "cancelled")];
    }
    assert booking.status == Cancelled ==> timeline == [Entry("Booking Created", Some(booking.createdAt), "scheduled")] + [] + [] + [timeline[1]];
    assert booking.status == Scheduled ==> timeline == [Entry("Booking Created", Some(booking.createdAt), "scheduled")] + [] + [] + [];
    assert booking.status == InProgress ==> timeline == [Entry("Booking Created", Some(booking.createdAt), "scheduled")] + [timeline[1]] + [] + [];
    assert booking.status == Completed ==> timeline == [Entry("Booking Created", Some(booking.createdAt), "scheduled")] + [timeline[1]] + [timeline[2]] + [];
    r := Success(timeline);
  }

  // Properties

  /** A provider runs a booking through: start, then complete, leaves it completed with the time stamped and the task completed. */
  lemma StartThenComplete(db: Db, provider: Caller, bookingId: nat, now: int)
    requires bookingId in db.bookings && db.bookings[bookingId].providerId == provider.id
    requires db.bookings[bookingId].status == Scheduled && db.bookings[bookingId].taskId in db.tasks
    ensures var s := StartBookingEffect(db, provider, bookingId);
      var c := CompleteBookingEffect(s.db, provider, bookingId, now);
      s.response.code == 200 && c.response.code == 200
      && c.db.bookings[bookingId].status == Completed && c.db.bookings[bookingId].completionTime == Some(now)
      && c.db.tasks[db.bookings[bookingId].taskId].status == TaskCompleted
  {
    var s := StartBookingEffect(db, provider, bookingId);
    assert s.db.bookings[bookingId].status == InProgress;
  }

  /** A booking that has started can no longer be cancelled, by either party. */
  lemma StartedCannotBeCancelled(db: Db, caller: Caller, bookingId: nat)
    requires bookingId in db.bookings && db.bookings[bookingId].status in {InProgress, Completed}
    ensures CancelBookingEffect(db, caller, bookingId).db == db
  {
  }

  /** A completed booking cannot be completed a second time, so the job counter moves once per booking. */
  lemma CompleteOnce(db: Db, caller: Caller, bookingId: nat, now: int, later: int)
    requires CompleteBookingEffect(db, caller, bookingId, now).response.code == 200
    ensures var c := CompleteBookingEffect(db, caller, bookingId, now);
      CompleteBookingEffect(c.db, caller, bookingId, later) == Effect(c.db, Response(400, "Failed to complete booking or unauthorized"))
  {
  }

  /** Somebody who is neither customer nor provider sees nothing and changes nothing. */
  lemma OutsidersLockedOut(db: Db, caller: Caller, bookingId: nat, now: int)
    requires bookingId in db.bookings && !Party(db.bookings[bookingId], caller)
    ensures ViewBooking(db, caller, bookingId) == Failure(Response(403, "Unauthorized"))
    ensures StartBookingEffect(db, caller, bookingId).db == db
    ensures CompleteBookingEffect(db, caller, bookingId, now).db == db
    ensures CancelBookingEffect(db, caller, bookingId) == Effect(db, Response(403, "Unauthorized"))
  {
  }

  /** A completed booking's timeline is created, started, completed. */
  lemma CompletedTimeline(b: Booking)
    requires b.status == Completed
    ensures Timeline(b) == [Entry("Booking Created", Some(b.createdAt), "scheduled"),
      Entry("Job Started", Some(b.updatedAt), "in_progress"), Entry("Job Completed", b.completionTime, "completed")]
  {
  }
}
