/**
 * The marketplace's tables, as the controllers use them: tasks, bids,
 * bookings and provider profiles keyed by id, each record carrying a status.
 * `Db` is a value snapshot of the tables; `Database` is the mutable store the
 * handlers update.
 */
module Store {
  import opened Wrappers

  datatype TaskStatus = Open | Bidding | Assigned | TaskInProgress | TaskCompleted | TaskCancelled
  datatype BidStatus = Pending | Accepted | Rejected | Withdrawn
  datatype BookingStatus = Scheduled | InProgress | Completed | Cancelled

  /** The column value of a task status. */
  function TaskStatusName(s: TaskStatus): string
  {
    match s
    case Open => "open"
    case Bidding => "bidding"
    case Assigned => "assigned"
    case TaskInProgress => "in_progress"
    case TaskCompleted => "completed"
    case TaskCancelled => "cancelled"
  }

  /** The six values `updateTaskStatus` accepts, read back as a status. */
  function ParseTaskStatus(s: string): (r: Option<TaskStatus>)
    ensures r.Some? ==> TaskStatusName(r.value) == s
  {
    match s
    case "open" => Some(Open)
    case "bidding" => Some(Bidding)
    case "assigned" => Some(Assigned)
    case "in_progress" => Some(TaskInProgress)
    case "completed" => Some(TaskCompleted)
    case "cancelled" => Some(TaskCancelled)
    case _ => None
  }

  /** Every status is accepted under its own name. */
  lemma ParseTaskStatusName(s: TaskStatus)
    ensures ParseTaskStatus(TaskStatusName(s)) == Some(s)
  {
  }

  /** The caller, as the authentication middleware attaches it. */
  datatype Caller = Caller(id: nat, role: string)

  datatype Task = Task(
    customerId: nat,
    description: string,
    category: Option<string>,
    issueType: Option<string>,
    complexity: Option<string>,
    urgency: Option<string>,
    priceMin: Option<real>,
    priceMax: Option<real>,
    status: TaskStatus)

  datatype Bid = Bid(
    taskId: nat,
    providerId: nat,
    amount: real,
    estimatedHours: Option<real>,
    message: Option<string>,
    status: BidStatus)

  datatype Booking = Booking(
    taskId: nat,
    customerId: nat,
    providerId: nat,
    bidId: nat,
    paymentAmount: real,
    status: BookingStatus,
    createdAt: int,
    updatedAt: int,
    completionTime: Option<int>)

  /** The part of a provider profile the lifecycle touches. */
  datatype Profile = Profile(completedJobs: int)

  /** A snapshot of the tables; `nextId` is the next unused id. */
  datatype Db = Db(
    tasks: map<nat, Task>,
    bids: map<nat, Bid>,
    bookings: map<nat, Booking>,
    profiles: map<nat, Profile>,
    nextId: nat)

  /** Ids are below `nextId`, and every reference the foreign keys guarantee holds. */
  predicate Valid(db: Db)
  {
    (forall k :: k in db.tasks ==> k < db.nextId)
    && (forall k :: k in db.bids ==> k < db.nextId)
    && (forall k :: k in db.bookings ==> k < db.nextId)
    && (forall k :: k in db.bids ==> db.bids[k].taskId in db.tasks)
    && (forall k :: k in db.bookings ==> db.bookings[k].taskId in db.tasks && db.bookings[k].bidId in db.bids)
  }

  /** The HTTP status and message a handler sends. */
  datatype Response = Response(code: int, message: string)

  /** A handler's result: the tables afterwards and the response sent. */
  datatype Effect = Effect(db: Db, response: Response)

  predicate Refused(r: Response)
  {
    r.code >= 400
  }

  /** `update({ status }).eq('id', id)` on the tasks table: no row, no change. */
  function SetTaskStatus(tasks: map<nat, Task>, id: nat, s: TaskStatus): (r: map<nat, Task>)
    ensures r.Keys == tasks.Keys
    ensures id in tasks ==> r[id] == tasks[id].(status := s)
    ensures forall k :: k in tasks && k != id ==> r[k] == tasks[k]
  {
    if id in tasks then tasks[id := tasks[id].(status := s)] else tasks
  }

  /** The mutable tables. */
  class Database {
    var tasks: map<nat, Task>
    var bids: map<nat, Bid>
    var bookings: map<nat, Booking>
    var profiles: map<nat, Profile>
    var nextId: nat

    function Snapshot(): Db
      reads this
    {
      Db(tasks, bids, bookings, profiles, nextId)
    }

    constructor (db: Db)
      ensures Snapshot() == db
    {
      tasks, bids, bookings, profiles, nextId := db.tasks, db.bids, db.bookings, db.profiles, db.nextId;
    }

    /** An insert: the record goes under the next id, which is then used up. */
    method FreshId() returns (id: nat)
      modifies this
      ensures id == old(nextId) && nextId == id + 1
      ensures tasks == old(tasks) && bids == old(bids) && bookings == old(bookings) && profiles == old(profiles)
    {
      id := nextId;
      nextId := nextId + 1;
    }
  }
}
