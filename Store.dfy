/** The two MongoDB collections the application keeps, `users` and `tasks`, as maps from
    opaque id strings to documents, together with the records stored in them. */
module Store {
  import opened JsNumber

  type Id = string

  datatype Option<T> = None | Some(value: T)

  /** The ways an operation of the core throws. */
  datatype Error =
    | UserNotFound        // no user document has the id
    | TaskNotFound        // no task document has the id
    | InvalidExperience   // `awardExp` got a falsy, non-numeric or negative amount
    | EmailTaken          // another account's email equals the new one ignoring case
    | UsernameTaken       // another account's username equals the new one ignoring case

  /** A thrown error is a `Failure`; `:-` propagates it as an exception would. */
  datatype Result<T> = Success(value: T) | Failure(error: Error) {
    predicate IsFailure() {
      Failure?
    }

    function PropagateFailure<U>(): Result<U>
      requires Failure?
    {
      Failure(error)
    }

    function Extract(): T
      requires Success?
    {
      value
    }
  }

  /** A document of the `tasks` collection (without its `_id`). */
  datatype Task = Task(name: string, points: Num, level: Num, description: string)

  /** A task together with its id, as `getTaskById` returns it and as user lists embed it. */
  datatype TaskDoc = TaskDoc(id: Id, task: Task)

  /** A document of the `users` collection (without its `_id`). */
  datatype User = User(
    firstName: string,
    lastName: string,
    username: string,
    hashedPassword: string,
    companyEmail: string,
    level: int,
    currXP: int,
    activeTasks: seq<TaskDoc>,
    completedTasks: seq<TaskDoc>)

  /** A user together with its id, as `getUserById` returns it. */
  datatype UserDoc = UserDoc(id: Id, user: User)

  /** The database: both collections, updated in place by the operations of the core. */
  class Database {
    var users: map<Id, User>
    var tasks: map<Id, Task>

    constructor ()
      ensures users == map[] && tasks == map[]
    {
      users := map[];
      tasks := map[];
    }
  }

  /** A bound on the length of every id in a set. */
  ghost function LongestId(ids: set<Id>): (n: nat)
    ensures forall id :: id in ids ==> |id| <= n
    decreases ids
  {
    if ids == {} then 0
    else
      var id :| id in ids;
      var rest := LongestId(ids - {id});
      if |id| > rest then |id| else rest
  }

  lemma FreshIdExists(used: set<Id>)
    ensures exists id :: id !in used
  {
    var id: Id := seq(LongestId(used) + 1, _ => '0');
    assert id !in used;
  }

  /** `insertOne` assigns the new document an id that no document of the collection has. */
  method NewId(used: set<Id>) returns (id: Id)
    ensures id !in used
  {
    FreshIdExists(used);
    id :| id !in used;
  }
}
