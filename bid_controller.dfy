/**
 * The bid handlers: `createBid` (providers with a profile, on somebody else's
 * open task, stored as pending), `acceptBid` (the task's customer takes a
 * pending bid: the others are rejected, the task assigned and a booking
 * scheduled), `rejectBid` and `withdrawBid`.
 */
module BidController {
  import opened Wrappers
  import opened Store
  import PriceEstimation

  /** The out-of-range test `createBid` only logs: more than 50% below the minimum or above the maximum. */
  predicate AmountWarning(t: Task, amount: real)
  {
    !PriceEstimation.FalsyNumber(t.priceMin) && !PriceEstimation.FalsyNumber(t.priceMax)
    && (amount < t.priceMin.value * 0.5 || amount > t.priceMax.value * 1.5)
  }

  /** `createBid`: five guards in order, then a pending bid under a fresh id. */
  function CreateBidEffect(db: Db, caller: Caller, taskId: nat, amount: real, hours: Option<real>, message: Option<string>): (r: Effect)
    ensures caller.role != "provider" ==> r == Effect(db, Response(403, "Only providers can create bids"))
    ensures r.response.code == 201 <==>
      caller.role == "provider" && caller.id in db.profiles && taskId in db.tasks
      && db.tasks[taskId].customerId != caller.id && db.tasks[taskId].status == Open
    ensures r.response.code == 201 ==>
      r.db == db.(bids := db.bids[db.nextId := Bid(taskId, caller.id, amount, hours, message, Pending)], nextId := db.nextId + 1)
    ensures r.response.code != 201 ==> r.db == db
  {
    if caller.role != "provider" then Effect(db, Response(403, "Only providers can create bids"))
    else if caller.id !in db.profiles then Effect(db, Response(400, "Please complete your provider profile first"))
    else if taskId !in db.tasks then Effect(db, Response(404, "Task not found"))
    else if db.tasks[taskId].customerId == caller.id then Effect(db, Response(400, "Cannot bid on your own task"))
    else if db.tasks[taskId].status != Open then Effect(db, Response(400, "Task is not open for bidding"))
    else Effect(db.(bids := db.bids[db.nextId := Bid(taskId, caller.id, amount, hours, message, Pending)], nextId := db.nextId + 1),
      Response(201, "Bid submitted successfully"))
  }

  /** `createBid`; `warned` is the logged out-of-range warning, which changes nothing else. */
  method CreateBid(store: Database, caller: Caller, taskId: nat, amount: real, hours: Option<real>, message: Option<string>)
    returns (response: Response, warned: bool)
    modifies store
    ensures Effect(store.Snapshot(), response) == CreateBidEffect(old(store.Snapshot()), caller, taskId, amount, hours, message)
    ensures warned <==> response.code == 201 && AmountWarning(old(store.tasks)[taskId], amount)
  {
    warned := false;
    if caller.role != "provider" {
      return Response(403, "Only providers can create bids"), false;
    }
    if caller.id !in store.profiles {
      return Response(400, "Please complete your provider profile first"), false;
    }
    if taskId !in store.tasks {
      return Response(404, "Task not found"), false;
    }
    var task := store.tasks[taskId];
    if task.customerId == caller.id {
      return Response(400, "Cannot bid on your own task"), false;
    }
    if task.status != Open {
      return Response(400, "Task is not open for bidding"), false;
    }
    if !PriceEstimation.FalsyNumber(task.priceMin) && !PriceEstimation.FalsyNumber(task.priceMax) {
      var minAllowed := task.priceMin.value * 0.5;
      var maxAllowed := task.priceMax.value * 1.5;
      if amount < minAllowed || amount > maxAllowed {
        warned := true;
      }
    }
    var id := store.FreshId();
    store.bids := store.bids[id := Bid(taskId, caller.id, amount, hours, message, Pending)];
    response := Response(201, "Bid submitted successfully");
  }

  /** The bids after an accept of `bidId` on `taskId`: it is accepted, the task's other pending bids rejected, the rest untouched. */
  function AcceptedBids(bids: map<nat, Bid>, bidId: nat, taskId: nat): (r: map<nat, Bid>)
    ensures r.Keys == bids.Keys
    ensures forall k :: k in bids ==>
      r[k] == if k == bidId then bids[k].(status := Accepted)
              else if bids[k].taskId == taskId && bids[k].status == Pending then bids[k].(status := Rejected)
              else bids[k]
  {
    map k | k in bids :: if k == bidId then bids[k].(status := Accepted)
      else if bids[k].taskId == taskId && bids[k].status == Pending then bids[k].(status := Rejected)
      else bids[k]
  }

  /** The booking an accept creates. */
  function NewBooking(b: Bid, bidId: nat, customerId: nat, now: int): Booking
  {
    Booking(b.taskId, customerId, b.providerId, bidId, b.amount, Scheduled, now, now, None)
  }

  /** The bid's task exists, as the bids-to-tasks foreign key guarantees. */
  predicate TaskOfBidExists(db: Db, bidId: nat)
  {
    bidId in db.bids ==> db.bids[bidId].taskId in db.tasks
  }

  /** `acceptBid`. */
  function AcceptBidEffect(db: Db, caller: Caller, bidId: nat, now: int): (r: Effect)
    requires TaskOfBidExists(db, bidId)
    ensures bidId !in db.bids ==> r == Effect(db, Response(404, "Bid not found"))
    ensures r.response.code == 201 <==>
      bidId in db.bids && db.tasks[db.bids[bidId].taskId].customerId == caller.id && db.bids[bidId].status == Pending
    ensures r.response.code != 201 ==> r.db == db
    ensures r.response.code == 201 ==>
      var b := db.bids[bidId];
      r.db.bids.Keys == db.bids.Keys && r.db.bids[bidId] == b.(status := Accepted)
      && (forall k :: k in db.bids && k != bidId && db.bids[k].taskId == b.taskId && db.bids[k].status == Pending ==>
            r.db.bids[k] == db.bids[k].(status := Rejected))
      && (forall k :: k in db.bids && k != bidId && (db.bids[k].taskId != b.taskId || db.bids[k].status != Pending) ==>
            r.db.bids[k] == db.bids[k])
      && r.db.tasks == db.tasks[b.taskId := db.tasks[b.taskId].(status := Assigned)]
      && r.db.bookings == db.bookings[db.nextId := NewBooking(b, bidId, db.tasks[b.taskId].customerId, now)]
      && r.db.profiles == db.profiles && r.db.nextId == db.nextId + 1
  {
    if bidId !in db.bids then Effect(db, Response(404, "Bid not found"))
    else
      var b := db.bids[bidId];
      var customerId := db.tasks[b.taskId].customerId;
      if customerId != caller.id then Effect(db, Response(403, "Unauthorized"))
      else if b.status != Pending then Effect(db, Response(400, "Bid is no longer available"))
      else Effect(
        Db(SetTaskStatus(db.tasks, b.taskId, Assigned), AcceptedBids(db.bids, bidId, b.taskId),
          db.bookings[db.nextId := NewBooking(b, bidId, customerId, now)], db.profiles, db.nextId + 1),
        Response(201, "Bid accepted and booking created"))
  }

  /** `acceptBid`: accept, bulk-reject the task's other pending bids, assign the task, insert the booking. */
  method AcceptBid(store: Database, caller: Caller, bidId: nat, now: int) returns (response: Response)
    requires TaskOfBidExists(store.Snapshot(), bidId)
    modifies store
    ensures Effect(store.Snapshot(), response) == AcceptBidEffect(old(store.Snapshot()), caller, bidId, now)
  {
    if bidId !in store.bids {
      return Response(404, "Bid not found");
    }
    var b := store.bids[bidId];
    var customerId := store.tasks[b.taskId].customerId;
    if customerId != caller.id {
      return Response(403, "Unauthorized");
    }
    if b.status != Pending {
      return Response(400, "Bid is no longer available");
    }
    store.bids := store.bids[bidId := b.(status := Accepted)];
    store.bids := map k | k in store.bids ::
      if store.bids[k].taskId == b.taskId && store.bids[k].status == Pending && k != bidId
      then store.bids[k].(status := Rejected) else store.bids[k];
    store.tasks := store.tasks[b.taskId := store.tasks[b.taskId].(status := Assigned)];
    var id := store.FreshId();
    store.bookings := store.bookings[id := NewBooking(b, bidId, customerId, now)];
    assert store.bids == AcceptedBids(old(store.bids), bidId, b.taskId);
    response := Response(201, "Bid accepted and booking created");
  }

  /**
   * `rejectBid` as written: the bid is set to rejected first, matched on its id
   * alone, and only then is the caller compared with the task's customer.
   */
  function RejectBidAsWritten(db: Db, caller: Caller, bidId: nat): (r: Effect)
    requires TaskOfBidExists(db, bidId)
    ensures bidId !in db.bids ==> r == Effect(db, Response(400, "Failed to reject bid"))
    ensures bidId in db.bids ==> r.db == db.(bids := db.bids[bidId := db.bids[bidId].(status := Rejected)])
    ensures bidId in db.bids ==> (r.response.code == 403 <==> db.tasks[db.bids[bidId].taskId].customerId != caller.id)
  {
    if bidId !in db.bids then Effect(db, Response(400, "Failed to reject bid"))
    else
      var after := db.(bids := db.bids[bidId := db.bids[bidId].(status := Rejected)]);
      if db.tasks[db.bids[bidId].taskId].customerId != caller.id then Effect(after, Response(403, "Unauthorized"))
      else Effect(after, Response(200, "Bid rejected"))
  }

  /** `rejectBid` corrected: only the task's customer, and only a pending bid; a refusal changes nothing. */
  function RejectBidEffect(db: Db, caller: Caller, bidId: nat): (r: Effect)
    requires TaskOfBidExists(db, bidId)
    ensures r.response.code == 200 <==>
      bidId in db.bids && db.tasks[db.bids[bidId].taskId].customerId == caller.id && db.bids[bidId].status == Pending
    ensures r.response.code == 200 ==> r.db == db.(bids := db.bids[bidId := db.bids[bidId].(status := Rejected)])
    ensures r.response.code != 200 ==> r.db == db
  {
    if bidId !in db.bids then Effect(db, Response(400, "Failed to reject bid"))
    else if db.tasks[db.bids[bidId].taskId].customerId != caller.id then Effect(db, Response(403, "Unauthorized"))
    else if db.bids[bidId].status != Pending then Effect(db, Response(400, "Bid is no longer available"))
    else Effect(db.(bids := db.bids[bidId := db.bids[bidId].(status := Rejected)]), Response(200, "Bid rejected"))
  }

  method RejectBid(store: Database, caller: Caller, bidId: nat) returns (response: Response)
    requires TaskOfBidExists(store.Snapshot(), bidId)
    modifies store
    ensures Effect(store.Snapshot(), response) == RejectBidEffect(old(store.Snapshot()), caller, bidId)
  {
    if bidId !in store.bids {
      return Response(400, "Failed to reject bid");
    }
    var b := store.bids[bidId];
    if store.tasks[b.taskId].customerId != caller.id {
      return Response(403, "Unauthorized");
    }
    if b.status != Pending {
      return Response(400, "Bid is no longer available");
    }
    store.bids := store.bids[bidId := b.(status := Rejected)];
    response := Response(200, "Bid rejected");
  }

  /** `withdrawBid`: only the caller's own pending bid becomes withdrawn. */
  function WithdrawBidEffect(db: Db, caller: Caller, bidId: nat): (r: Effect)
    ensures r.response.code == 200 <==>
      bidId in db.bids && db.bids[bidId].providerId == caller.id && db.bids[bidId].status == Pending
    ensures r.response.code == 200 ==> r.db == db.(bids := db.bids[bidId := db.bids[bidId].(status := Withdrawn)])
    ensures r.response.code != 200 ==> r == Effect(db, Response(400, "Failed to withdraw bid. Bid may be already accepted."))
  {
    if bidId in db.bids && db.bids[bidId].providerId == caller.id && db.bids[bidId].status == Pending then
      Effect(db.(bids := db.bids[bidId := db.bids[bidId].(status := Withdrawn)]), Response(200, "Bid withdrawn successfully"))
    else Effect(db, Response(400, "Failed to withdraw bid. Bid may be already accepted."))
  }

  method WithdrawBid(store: Database, caller: Caller, bidId: nat) returns (response: Response)
    modifies store
    ensures Effect(store.Snapshot(), response) == WithdrawBidEffect(old(store.Snapshot()), caller, bidId)
  {
    if !(bidId in store.bids && store.bids[bidId].providerId == caller.id && store.bids[bidId].status == Pending) {
      return Response(400, "Failed to withdraw bid. Bid may be already accepted.");
    }
    store.bids := store.bids[bidId := store.bids[bidId].(status := Withdrawn)];
    response := Response(200, "Bid withdrawn successfully");
  }

  // Properties

  /** The logged range check never decides: two amounts get the same answer and create the same kind of record. */
  lemma AmountOnlyLogged(db: Db, caller: Caller, taskId: nat, a1: real, a2: real, hours: Option<real>, message: Option<string>)
    ensures CreateBidEffect(db, caller, taskId, a1, hours, message).response == CreateBidEffect(db, caller, taskId, a2, hours, message).response
  {
  }

  /** A provider never bids on a task they posted. */
  lemma NoBidOnOwnTask(db: Db, caller: Caller, taskId: nat, amount: real, hours: Option<real>, message: Option<string>)
    requires taskId in db.tasks && db.tasks[taskId].customerId == caller.id
    ensures CreateBidEffect(db, caller, taskId, amount, hours, message).db == db
  {
  }

  /** After an accept no bid of the task is still pending. */
  lemma AcceptLeavesNoPending(db: Db, caller: Caller, bidId: nat, now: int)
    requires TaskOfBidExists(db, bidId)
    requires AcceptBidEffect(db, caller, bidId, now).response.code == 201
    ensures var t := db.bids[bidId].taskId;
      forall k :: k in AcceptBidEffect(db, caller, bidId, now).db.bids ==>
        AcceptBidEffect(db, caller, bidId, now).db.bids[k].taskId == t ==>
        AcceptBidEffect(db, caller, bidId, now).db.bids[k].status != Pending
  {
    var r := AcceptBidEffect(db, caller, bidId, now);
    forall k | k in r.db.bids
      ensures r.db.bids[k].taskId == db.bids[bidId].taskId ==> r.db.bids[k].status != Pending
    {
      assert k in db.bids;
    }
  }

  /** The booking records the task's customer, the bid's provider, the bid and its amount. */
  lemma AcceptBooksTheBid(db: Db, caller: Caller, bidId: nat, now: int)
    requires TaskOfBidExists(db, bidId)
    requires AcceptBidEffect(db, caller, bidId, now).response.code == 201
    ensures var bk := AcceptBidEffect(db, caller, bidId, now).db.bookings[db.nextId];
      bk.customerId == caller.id && bk.providerId == db.bids[bidId].providerId && bk.bidId == bidId
      && bk.paymentAmount == db.bids[bidId].amount && bk.status == Scheduled && bk.taskId == db.bids[bidId].taskId
  {
  }
}
