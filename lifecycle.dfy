/**
 * The task, bid and booking lifecycle as a whole: every state-changing
 * handler behind one request type, and the invariants they keep together.
 * Ids stay below the next id and references resolve, records are never
 * removed, statuses only move forward, refusals change nothing, and every
 * booking stands on an accepted bid of the same provider and amount.
 * `rejectBid` appears here in its corrected form; the last lemmas show which
 * of these the handler as written breaks.
 */
module Lifecycle {
  import opened Wrappers
  import opened Store
  import TaskClassification
  import PriceEstimation
  import TaskController
  import BidController
  import BookingController

  /** A state-changing request; `createTask` carries the classification and the estimate the AI services produced. */
  datatype Request =
    | CreateTask(description: string, classification: TaskClassification.Classification, estimate: PriceEstimation.Estimation)
    | UpdateTaskStatus(taskId: nat, status: string)
    | DeleteTask(taskId: nat)
    | CreateBid(bidTaskId: nat, amount: real, hours: Option<real>, message: Option<string>)
    | AcceptBid(bidId: nat)
    | RejectBid(bidId: nat)
    | WithdrawBid(bidId: nat)
    | StartBooking(bookingId: nat)
    | CompleteBooking(bookingId: nat)
    | CancelBooking(bookingId: nat)

  /** The handler a request is routed to. */
  function Handle(db: Db, caller: Caller, req: Request, now: int): (r: Effect)
    requires Valid(db)
    ensures Refused(r.response) ==> r.db == db
  {
    match req
    case CreateTask(d, c, e) => TaskController.CreateTaskEffect(db, caller, d, c, e)
    case UpdateTaskStatus(t, s) => TaskController.UpdateTaskStatusEffect(db, caller, t, s)
    case DeleteTask(t) => TaskController.DeleteTaskEffect(db, caller, t)
    case CreateBid(t, a, h, m) => BidController.CreateBidEffect(db, caller, t, a, h, m)
    case AcceptBid(b) => BidController.AcceptBidEffect(db, caller, b, now)
    case RejectBid(b) => BidController.RejectBidEffect(db, caller, b)
    case WithdrawBid(b) => BidController.WithdrawBidEffect(db, caller, b)
    case StartBooking(k) => BookingController.StartBookingEffect(db, caller, k)
    case CompleteBooking(k) => BookingController.CompleteBookingEffect(db, caller, k, now)
    case CancelBooking(k) => BookingController.CancelBookingEffect(db, caller, k)
  }

  /** A bid record moves on only from pending, and only its status changes. */
  predicate BidStep(b: Bid, b': Bid)
  {
    b' == b.(status := b'.status) && (b'.status == b.status || b.status == Pending)
  }

  /** A booking goes scheduled, in progress, completed, or scheduled, cancelled; its parties, bid and price never change. */
  predicate BookingStep(b: Booking, b': Booking)
  {
    b'.taskId == b.taskId && b'.customerId == b.customerId && b'.providerId == b.providerId
    && b'.bidId == b.bidId && b'.paymentAmount == b.paymentAmount && b'.createdAt == b.createdAt
    && (b'.status == b.status
        || (b.status == Scheduled && b'.status == InProgress)
        || (b.status == InProgress && b'.status == Completed)
        || (b.status == Scheduled && b'.status == Cancelled))
  }

  /** What one handler may do to the tables: nothing is removed, statuses step forward, new records start at the beginning. */
  predicate Steps(db: Db, db': Db)
  {
    db.nextId <= db'.nextId
    && (forall k :: k in db.tasks ==> k in db'.tasks && db'.tasks[k].customerId == db.tasks[k].customerId)
    && (forall k :: k in db'.tasks && k !in db.tasks ==> db'.tasks[k].status == Open)
    && (forall k :: k in db.bids ==> k in db'.bids && BidStep(db.bids[k], db'.bids[k]))
    && (forall k :: k in db'.bids && k !in db.bids ==> db'.bids[k].status == Pending)
    && (forall k :: k in db.bookings ==> k in db'.bookings && BookingStep(db.bookings[k], db'.bookings[k]))
    && (forall k :: k in db'.bookings && k !in db.bookings ==> db'.bookings[k].status == Scheduled)
  }

  /** Every booking stands on an accepted bid for its task, with the bid's provider and amount and the task's customer. */
  predicate Consistent(db: Db)
  {
    forall k :: k in db.bookings ==>
      var bk := db.bookings[k];
      bk.bidId in db.bids && bk.taskId in db.tasks
      && db.bids[bk.bidId].status == Accepted && db.bids[bk.bidId].taskId == bk.taskId
      && db.bids[bk.bidId].providerId == bk.providerId && db.bids[bk.bidId].amount == bk.paymentAmount
      && db.tasks[bk.taskId].customerId == bk.customerId
  }

  // Each handler keeps the tables valid.

  lemma AcceptKeepsValid(db: Db, caller: Caller, bidId: nat, now: int)
    requires Valid(db)
    ensures Valid(BidController.AcceptBidEffect(db, caller, bidId, now).db)
  {
    var r := BidController.AcceptBidEffect(db, caller, bidId, now);
    if r.response.code == 201 {
      assert r.db.bids.Keys == db.bids.Keys && r.db.tasks.Keys == db.tasks.Keys;
      forall k | k in r.db.bids
        ensures r.db.bids[k].taskId in r.db.tasks
      {
        assert r.db.bids[k].taskId == db.bids[k].taskId;
      }
    }
  }

  /** Rewriting a booking without touching its task or bid, and setting a task's status, keeps the tables valid. */
  lemma BookingEditKeepsValid(db: Db, k: nat, b': Booking, t: nat, s: TaskStatus, profiles: map<nat, Profile>)
    requires Valid(db) && k in db.bookings
    requires b'.taskId == db.bookings[k].taskId && b'.bidId == db.bookings[k].bidId
    ensures Valid(Db(SetTaskStatus(db.tasks, t, s), db.bids, db.bookings[k := b'], profiles, db.nextId))
  {
  }

  lemma BookingHandlersKeepValid(db: Db, caller: Caller, k: nat, now: int)
    requires Valid(db)
    ensures Valid(BookingController.StartBookingEffect(db, caller, k).db)
    ensures Valid(BookingController.CompleteBookingEffect(db, caller, k, now).db)
    ensures Valid(BookingController.CancelBookingEffect(db, caller, k).db)
  {
    if k in db.bookings {
      var b := db.bookings[k];
      BookingEditKeepsValid(db, k, b.(status := InProgress), b.taskId, TaskInProgress, db.profiles);
      BookingEditKeepsValid(db, k, b.(status := Completed, completionTime := Some(now)), b.taskId, TaskCompleted,
        BookingController.Incremented(db.profiles, caller.id));
      BookingEditKeepsValid(db, k, b.(status := Cancelled), b.taskId, Open, db.profiles);
    }
  }

  lemma TaskHandlersKeepValid(db: Db, caller: Caller, req: Request)
    requires Valid(db)
    requires req.CreateTask? || req.UpdateTaskStatus? || req.DeleteTask?
    ensures Valid(Handle(db, caller, req, 0).db)
  {
  }

  lemma BidHandlersKeepValid(db: Db, caller: Caller, req: Request)
    requires Valid(db)
    requires req.CreateBid? || req.RejectBid? || req.WithdrawBid?
    ensures Valid(Handle(db, caller, req, 0).db)
  {
  }

  /** Every handler keeps ids below the next id and every reference resolvable. */
  lemma HandleKeepsValid(db: Db, caller: Caller, req: Request, now: int)
    requires Valid(db)
    ensures Valid(Handle(db, caller, req, now).db)
  {
    match req
    case AcceptBid(b) => AcceptKeepsValid(db, caller, b, now);
    case StartBooking(k) => BookingHandlersKeepValid(db, caller, k, now);
    case CompleteBooking(k) => BookingHandlersKeepValid(db, caller, k, now);
    case CancelBooking(k) => BookingHandlersKeepValid(db, caller, k, now);
    case CreateBid(_, _, _, _) => BidHandlersKeepValid(db, caller, req);
    case RejectBid(_) => BidHandlersKeepValid(db, caller, req);
    case WithdrawBid(_) => BidHandlersKeepValid(db, caller, req);
    case _ => TaskHandlersKeepValid(db, caller, req);
  }

  // Each handler only steps statuses forward.

  lemma AcceptSteps(db: Db, caller: Caller, bidId: nat, now: int)
    requires Valid(db)
    ensures Steps(db, BidController.AcceptBidEffect(db, caller, bidId, now).db)
  {
    var r := BidController.AcceptBidEffect(db, caller, bidId, now);
    if r.response.code == 201 {
      forall k | k in db.bids
        ensures k in r.db.bids && BidStep(db.bids[k], r.db.bids[k])
      {
      }
      assert forall k :: k in r.db.bids ==> k in db.bids;
      assert r.db.tasks.Keys == db.tasks.Keys;
    }
  }

  /** Rewriting one booking by a step, with its task's status set, is a step of the tables. */
  lemma BookingEditSteps(db: Db, k: nat, b': Booking, t: nat, s: TaskStatus, profiles: map<nat, Profile>)
    requires k in db.bookings && BookingStep(db.bookings[k], b')
    ensures Steps(db, Db(SetTaskStatus(db.tasks, t, s), db.bids, db.bookings[k := b'], profiles, db.nextId))
  {
  }

  /** Rewriting one bid by a step is a step of the tables. */
  lemma BidEditSteps(db: Db, k: nat, b': Bid)
    requires k in db.bids && BidStep(db.bids[k], b')
    ensures Steps(db, db.(bids := db.bids[k := b']))
  {
  }

  /** Setting one task's status is a step of the tables. */
  lemma TaskEditSteps(db: Db, k: nat, s: TaskStatus)
    requires k in db.tasks
    ensures Steps(db, db.(tasks := db.tasks[k := db.tasks[k].(status := s)]))
  {
  }

  /** Inserting an open task under the next id is a step of the tables. */
  lemma TaskInsertSteps(db: Db, t: Task)
    requires db.nextId !in db.tasks && t.status == Open
    ensures Steps(db, db.(tasks := db.tasks[db.nextId := t], nextId := db.nextId + 1))
  {
  }

  /** Inserting a pending bid under the next id is a step of the tables. */
  lemma BidInsertSteps(db: Db, b: Bid)
    requires db.nextId !in db.bids && b.status == Pending
    ensures Steps(db, db.(bids := db.bids[db.nextId := b], nextId := db.nextId + 1))
  {
  }

  lemma StartSteps(db: Db, caller: Caller, k: nat)
    ensures Steps(db, BookingController.StartBookingEffect(db, caller, k).db)
  {
    if BookingController.StartBookingEffect(db, caller, k).response.code == 200 {
      var b := db.bookings[k];
      BookingEditSteps(db, k, b.(status := InProgress), b.taskId, TaskInProgress, db.profiles);
    }
  }

  lemma CompleteSteps(db: Db, caller: Caller, k: nat, now: int)
    ensures Steps(db, BookingController.CompleteBookingEffect(db, caller, k, now).db)
  {
    if BookingController.CompleteBookingEffect(db, caller, k, now).response.code == 200 {
      var b := db.bookings[k];
      BookingEditSteps(db, k, b.(status := Completed, completionTime := Some(now)), b.taskId, TaskCompleted,
        BookingController.Incremented(db.profiles, caller.id));
    }
  }

  lemma CancelSteps(db: Db, caller: Caller, k: nat)
    ensures Steps(db, BookingController.CancelBookingEffect(db, caller, k).db)
  {
    if BookingController.CancelBookingEffect(db, caller, k).response.code == 200 {
      var b := db.bookings[k];
      BookingEditSteps(db, k, b.(status := Cancelled), b.taskId, Open, db.profiles);
    }
  }

  lemma CreateTaskSteps(db: Db, caller: Caller, d: string, c: TaskClassification.Classification, e: PriceEstimation.Estimation)
    requires Valid(db)
    ensures Steps(db, TaskController.CreateTaskEffect(db, caller, d, c, e).db)
  {
    assert db.nextId !in db.tasks;
    TaskInsertSteps(db, TaskController.NewTask(caller.id, d, c, e));
  }

  lemma CreateBidSteps(db: Db, caller: Caller, t: nat, a: real, h: Option<real>, m: Option<string>)
    requires Valid(db)
    ensures Steps(db, BidController.CreateBidEffect(db, caller, t, a, h, m).db)
  {
    assert db.nextId !in db.bids;
    BidInsertSteps(db, Bid(t, caller.id, a, h, m, Pending));
  }

  lemma UpdateStatusSteps(db: Db, caller: Caller, t: nat, st: string)
    ensures Steps(db, TaskController.UpdateTaskStatusEffect(db, caller, t, st).db)
  {
    if TaskController.UpdateTaskStatusEffect(db, caller, t, st).response.code == 200 {
      TaskEditSteps(db, t, ParseTaskStatus(st).value);
    }
  }

  lemma DeleteSteps(db: Db, caller: Caller, t: nat)
    ensures Steps(db, TaskController.DeleteTaskEffect(db, caller, t).db)
  {
    if TaskController.DeleteTaskEffect(db, caller, t).response.code == 200 {
      TaskEditSteps(db, t, TaskCancelled);
    }
  }

  lemma RejectSteps(db: Db, caller: Caller, b: nat)
    requires Valid(db)
    ensures Steps(db, BidController.RejectBidEffect(db, caller, b).db)
  {
    if BidController.RejectBidEffect(db, caller, b).response.code == 200 {
      BidEditSteps(db, b, db.bids[b].(status := Rejected));
    }
  }

  lemma WithdrawSteps(db: Db, caller: Caller, b: nat)
    ensures Steps(db, BidController.WithdrawBidEffect(db, caller, b).db)
  {
    if BidController.WithdrawBidEffect(db, caller, b).response.code == 200 {
      BidEditSteps(db, b, db.bids[b].(status := Withdrawn));
    }
  }

  /** No handler removes a record, moves a status backwards or rewrites what a bid or booking agreed. */
  lemma HandleSteps(db: Db, caller: Caller, req: Request, now: int)
    requires Valid(db)
    ensures Steps(db, Handle(db, caller, req, now).db)
  {
    match req
    case AcceptBid(b) => AcceptSteps(db, caller, b, now);
    case StartBooking(k) => StartSteps(db, caller, k);
    case CompleteBooking(k) => CompleteSteps(db, caller, k, now);
    case CancelBooking(k) => CancelSteps(db, caller, k);
    case CreateTask(d, c, e) => CreateTaskSteps(db, caller, d, c, e);
    case CreateBid(t, a, h, m) => CreateBidSteps(db, caller, t, a, h, m);
    case UpdateTaskStatus(t, st) => UpdateStatusSteps(db, caller, t, st);
    case DeleteTask(t) => DeleteSteps(db, caller, t);
    case RejectBid(b) => RejectSteps(db, caller, b);
    case WithdrawBid(b) => WithdrawSteps(db, caller, b);
  }

  // Bookings stay backed by their accepted bids.

  lemma AcceptKeepsConsistent(db: Db, caller: Caller, bidId: nat, now: int)
    requires Valid(db) && Consistent(db)
    ensures Consistent(BidController.AcceptBidEffect(db, caller, bidId, now).db)
  {
    var r := BidController.AcceptBidEffect(db, caller, bidId, now);
    if r.response.code == 201 {
      forall k | k in r.db.bookings
        ensures var bk := r.db.bookings[k];
          bk.bidId in r.db.bids && bk.taskId in r.db.tasks
          && r.db.bids[bk.bidId].status == Accepted && r.db.bids[bk.bidId].taskId == bk.taskId
          && r.db.bids[bk.bidId].providerId == bk.providerId && r.db.bids[bk.bidId].amount == bk.paymentAmount
          && r.db.tasks[bk.taskId].customerId == bk.customerId
      {
        if k != db.nextId {
          var bk := db.bookings[k];
          assert db.bids[bk.bidId].status == Accepted;
        }
      }
    }
  }

  /** A step that adds no booking keeps every booking backed: an accepted bid stays accepted and no booking changes its parties. */
  lemma StepsKeepConsistent(db: Db, db': Db)
    requires Consistent(db) && Steps(db, db') && db'.bookings.Keys <= db.bookings.Keys
    ensures Consistent(db')
  {
    forall k | k in db'.bookings
      ensures var bk := db'.bookings[k];
        bk.bidId in db'.bids && bk.taskId in db'.tasks
        && db'.bids[bk.bidId].status == Accepted && db'.bids[bk.bidId].taskId == bk.taskId
        && db'.bids[bk.bidId].providerId == bk.providerId && db'.bids[bk.bidId].amount == bk.paymentAmount
        && db'.tasks[bk.taskId].customerId == bk.customerId
    {
      var bk := db.bookings[k];
      assert BookingStep(bk, db'.bookings[k]);
      assert BidStep(db.bids[bk.bidId], db'.bids[bk.bidId]);
    }
  }

  lemma OtherHandlersKeepConsistent(db: Db, caller: Caller, req: Request, now: int)
    requires Valid(db) && Consistent(db)
    requires !req.AcceptBid?
    ensures Consistent(Handle(db, caller, req, now).db)
  {
    HandleSteps(db, caller, req, now);
    StepsKeepConsistent(db, Handle(db, caller, req, now).db);
  }

  /** Every handler keeps each booking backed by an accepted bid with the booking's provider, amount and task. */
  lemma HandleKeepsConsistent(db: Db, caller: Caller, req: Request, now: int)
    requires Valid(db) && Consistent(db)
    ensures Consistent(Handle(db, caller, req, now).db)
  {
    if req.AcceptBid? {
      AcceptKeepsConsistent(db, caller, req.bidId, now);
    } else {
      OtherHandlersKeepConsistent(db, caller, req, now);
    }
  }

  /** Cancelling a booking reopens the task but leaves its bid accepted, so the task can no longer be deleted. */
  lemma CancelledBookingBlocksDelete(db: Db, customer: Caller, bookingId: nat)
    requires Valid(db) && Consistent(db)
    requires bookingId in db.bookings && db.bookings[bookingId].customerId == customer.id
    requires db.bookings[bookingId].status == Scheduled
    ensures var c := BookingController.CancelBookingEffect(db, customer, bookingId);
      var t := db.bookings[bookingId].taskId;
      c.response.code == 200 && c.db.tasks[t].status == Open
      && TaskController.DeleteTaskEffect(c.db, customer, t) == Effect(c.db, Response(400, "Cannot delete task with accepted bids"))
  {
    var c := BookingController.CancelBookingEffect(db, customer, bookingId);
    var bk := db.bookings[bookingId];
    assert c.db.bids[bk.bidId].taskId == bk.taskId && c.db.bids[bk.bidId].status == Accepted;
  }

  // `rejectBid` as written.

  /** A task of customer 10 whose bid 2 by provider 20 was accepted and booked as booking 3. */
  function BookedExample(): (db: Db)
    ensures Valid(db) && Consistent(db)
  {
    Db(map[1 := Task(10, "Fix the sink", None, None, None, None, None, None, Assigned)],
       map[2 := Bid(1, 20, 500.0, None, None, Accepted)],
       map[3 := Booking(1, 10, 20, 2, 500.0, Scheduled, 0, 0, None)],
       map[],
       4)
  }

  /** As written, a stranger's reject is answered 403 yet the bid has already been rejected. */
  lemma AsWrittenRefusalWrites()
    ensures var r := BidController.RejectBidAsWritten(BookedExample(), Caller(99, "customer"), 2);
      Refused(r.response) && r.db != BookedExample() && r.db.bids[2].status == Rejected
  {
  }

  /** As written, the owner can reject an accepted bid, so a booking loses the accepted bid it stands on. */
  lemma AsWrittenRejectsAcceptedBid()
    ensures var r := BidController.RejectBidAsWritten(BookedExample(), Caller(10, "customer"), 2);
      r.response == Response(200, "Bid rejected")
      && !BidStep(BookedExample().bids[2], r.db.bids[2]) && !Consistent(r.db)
  {
    var r := BidController.RejectBidAsWritten(BookedExample(), Caller(10, "customer"), 2);
    assert r.db.bookings[3].bidId == 2;
  }

  /** The corrected reject refuses both without touching the tables. */
  lemma CorrectedRejectRefusesBoth()
    ensures BidController.RejectBidEffect(BookedExample(), Caller(99, "customer"), 2) == Effect(BookedExample(), Response(403, "Unauthorized"))
    ensures BidController.RejectBidEffect(BookedExample(), Caller(10, "customer"), 2) == Effect(BookedExample(), Response(400, "Bid is no longer available"))
  {
  }
}
