/**
 * The task handlers: `createTask` (customers only, classified and priced by
 * the AI services, stored as open), `updateTaskStatus` (any of the six
 * statuses, only on the caller's own task) and `deleteTask` (a cancel that is
 * refused once a bid has been accepted).
 */
module TaskController {
  import opened Wrappers
  import opened Store
  import Gateway
  import TaskClassification
  import PriceEstimation

  /** The task `createTask` inserts, from the classification and the estimate. */
  function NewTask(customerId: nat, description: string, c: TaskClassification.Classification, e: PriceEstimation.Estimation): Task
  {
    Task(customerId, description, c.serviceCategory, c.issueType, c.complexity, c.urgency, e.minPrice, e.maxPrice, Open)
  }

  /** `createTask`, once the classification and the estimate are known. */
  function CreateTaskEffect(db: Db, caller: Caller, description: string,
    c: TaskClassification.Classification, e: PriceEstimation.Estimation): (r: Effect)
    ensures caller.role != "customer" ==> r == Effect(db, Response(403, "Only customers can create tasks"))
    ensures caller.role == "customer" ==>
      r.response == Response(201, "Task created successfully") && db.nextId in r.db.tasks
      && r.db == db.(tasks := db.tasks[db.nextId := r.db.tasks[db.nextId]], nextId := db.nextId + 1)
      && r.db.tasks[db.nextId].status == Open && r.db.tasks[db.nextId].customerId == caller.id
      && r.db.tasks[db.nextId].priceMin == e.minPrice && r.db.tasks[db.nextId].priceMax == e.maxPrice
      && r.db.tasks[db.nextId].category == c.serviceCategory && r.db.tasks[db.nextId].complexity == c.complexity
      && r.db.tasks[db.nextId].description == description && r.db.tasks[db.nextId].issueType == c.issueType
      && r.db.tasks[db.nextId].urgency == c.urgency
  {
    if caller.role != "customer" then Effect(db, Response(403, "Only customers can create tasks"))
    else Effect(db.(tasks := db.tasks[db.nextId := NewTask(caller.id, description, c, e)], nextId := db.nextId + 1),
      Response(201, "Task created successfully"))
  }

  /** `createTask`: the role check, then classification, then an estimate from the classification's category and complexity, then the insert. */
  method CreateTask(store: Database, caller: Caller, description: string,
    classifyReply: nat -> Gateway.Reply, classifyParse: string -> Result<TaskClassification.Classification, string>,
    estimateReply: nat -> Gateway.Reply, estimateParse: string -> Result<PriceEstimation.Estimation, string>)
    returns (response: Response)
    modifies store
    ensures var c := TaskClassification.Classified(Gateway.Outcome(classifyReply, classifyParse, Gateway.DefaultMaxRetries));
      var e := PriceEstimation.Estimated(Gateway.Outcome(estimateReply, estimateParse, Gateway.DefaultMaxRetries), c.serviceCategory, c.complexity);
      Effect(store.Snapshot(), response) == CreateTaskEffect(old(store.Snapshot()), caller, description, c, e)
  {
    if caller.role != "customer" {
      return Response(403, "Only customers can create tasks");
    }
    var c := TaskClassification.ClassifyTask(classifyReply, classifyParse);
    var e := PriceEstimation.EstimatePrice(estimateReply, estimateParse, c.serviceCategory, c.complexity);
    var id := store.FreshId();
    store.tasks := store.tasks[id := NewTask(caller.id, description, c, e)];
    response := Response(201, "Task created successfully");
  }

  /** `updateTaskStatus`: a valid status is written to the caller's own task, whatever its current status. */
  function UpdateTaskStatusEffect(db: Db, caller: Caller, taskId: nat, status: string): (r: Effect)
    ensures ParseTaskStatus(status).None? ==> r == Effect(db, Response(400, "Invalid status"))
    ensures ParseTaskStatus(status).Some? && !(taskId in db.tasks && db.tasks[taskId].customerId == caller.id) ==>
      r == Effect(db, Response(400, "Failed to update task or unauthorized"))
    ensures r.response.code == 200 <==>
      ParseTaskStatus(status).Some? && taskId in db.tasks && db.tasks[taskId].customerId == caller.id
    ensures r.response.code == 200 ==>
      r.db == db.(tasks := db.tasks[taskId := db.tasks[taskId].(status := ParseTaskStatus(status).value)])
      && TaskStatusName(r.db.tasks[taskId].status) == status
  {
    match ParseTaskStatus(status)
    case None => Effect(db, Response(400, "Invalid status"))
    case Some(s) =>
      if taskId in db.tasks && db.tasks[taskId].customerId == caller.id then
        Effect(db.(tasks := db.tasks[taskId := db.tasks[taskId].(status := s)]), Response(200, "Task status updated"))
      else Effect(db, Response(400, "Failed to update task or unauthorized"))
  }

  method UpdateTaskStatus(store: Database, caller: Caller, taskId: nat, status: string) returns (response: Response)
    modifies store
    ensures Effect(store.Snapshot(), response) == UpdateTaskStatusEffect(old(store.Snapshot()), caller, taskId, status)
  {
    var s := ParseTaskStatus(status);
    if s.None? {
      return Response(400, "Invalid status");
    }
    if !(taskId in store.tasks && store.tasks[taskId].customerId == caller.id) {
      return Response(400, "Failed to update task or unauthorized");
    }
    store.tasks := store.tasks[taskId := store.tasks[taskId].(status := s.value)];
    response := Response(200, "Task status updated");
  }

  /** Whether some bid of the task is accepted. */
  predicate HasAcceptedBid(db: Db, taskId: nat)
  {
    exists k :: k in db.bids && db.bids[k].taskId == taskId && db.bids[k].status == Accepted
  }

  /** `deleteTask`: refused while a bid of the task is accepted; otherwise the caller's own task is cancelled. */
  function DeleteTaskEffect(db: Db, caller: Caller, taskId: nat): (r: Effect)
    ensures HasAcceptedBid(db, taskId) ==> r == Effect(db, Response(400, "Cannot delete task with accepted bids"))
    ensures r.response.code == 200 <==>
      !HasAcceptedBid(db, taskId) && taskId in db.tasks && db.tasks[taskId].customerId == caller.id
    ensures r.response.code == 200 ==> r.db == db.(tasks := db.tasks[taskId := db.tasks[taskId].(status := TaskCancelled)])
    ensures r.response.code != 200 ==> r.db == db
  {
    if HasAcceptedBid(db, taskId) then Effect(db, Response(400, "Cannot delete task with accepted bids"))
    else if taskId in db.tasks && db.tasks[taskId].customerId == caller.id then
      Effect(db.(tasks := db.tasks[taskId := db.tasks[taskId].(status := TaskCancelled)]), Response(200, "Task cancelled successfully"))
    else Effect(db, Response(400, "Failed to cancel task or unauthorized"))
  }

  method DeleteTask(store: Database, caller: Caller, taskId: nat) returns (response: Response)
    modifies store
    ensures Effect(store.Snapshot(), response) == DeleteTaskEffect(old(store.Snapshot()), caller, taskId)
  {
    var accepted := exists k :: k in store.bids && store.bids[k].taskId == taskId && store.bids[k].status == Accepted;
    if accepted {
      return Response(400, "Cannot delete task with accepted bids");
    }
    if !(taskId in store.tasks && store.tasks[taskId].customerId == caller.id) {
      return Response(400, "Failed to cancel task or unauthorized");
    }
    store.tasks := store.tasks[taskId := store.tasks[taskId].(status := TaskCancelled)];
    response := Response(200, "Task cancelled successfully");
  }

  // Properties

  /** There is no transition graph: the owner can move a task from any status to any of the six. */
  lemma AnyStatusFromAny(db: Db, caller: Caller, taskId: nat, s: TaskStatus)
    requires taskId in db.tasks && db.tasks[taskId].customerId == caller.id
    ensures var r := UpdateTaskStatusEffect(db, caller, taskId, TaskStatusName(s));
      r.response.code == 200 && r.db.tasks[taskId].status == s
  {
    ParseTaskStatusName(s);
  }

  /** Somebody else's task is never changed, whatever the status asked for. */
  lemma OthersTasksUntouched(db: Db, caller: Caller, taskId: nat, status: string)
    requires taskId in db.tasks && db.tasks[taskId].customerId != caller.id
    ensures UpdateTaskStatusEffect(db, caller, taskId, status).db == db
    ensures DeleteTaskEffect(db, caller, taskId).db == db
  {
  }

  /** A status outside the six is refused with 400, leaving the tables as they were. */
  lemma UnknownStatusRefused(db: Db, caller: Caller, taskId: nat)
    ensures UpdateTaskStatusEffect(db, caller, taskId, "done") == Effect(db, Response(400, "Invalid status"))
  {
  }
}
