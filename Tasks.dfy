/** The task operations of `data/tasks.js`: look a task up, create one and assign it to a
    user, assign the fixed starter tasks of the conditions a user reports, and list a user's
    active tasks. */
module Tasks {
  import opened JsNumber
  import opened Store

  /** `getTaskById`: the stored task under its own id, or None when no task has that id. */
  function GetTaskById(db: Database, id: Id): (r: Option<TaskDoc>)
    reads db
    ensures r.Some? <==> id in db.tasks
    ensures r.Some? ==> r.value.id == id && r.value.task == db.tasks[id]
  {
    if id in db.tasks then Some(TaskDoc(id, db.tasks[id])) else None
  }

  /** The user with `docs` appended to the end of its active tasks. */
  function Assigned(u: User, docs: seq<TaskDoc>): User {
    u.(activeTasks := u.activeTasks + docs)
  }

  lemma AssignedTwice(u: User, a: seq<TaskDoc>, b: seq<TaskDoc>)
    ensures Assigned(Assigned(u, a), b) == Assigned(u, a + b)
  {
    assert u.activeTasks + a + b == u.activeTasks + (a + b);
  }

  /** `addTask`: store `{name, points, level, description}` with points and level passed
      through `parseInt` (category and select are not stored), then append the stored task
      to the user's active tasks. When the user does not exist the task is already stored
      and the call throws. */
  method AddTask(db: Database, userId: Id, name: string, points: Arg, level: Arg,
                 description: string, category: Option<string>, select: Option<string>)
    returns (r: Result<TaskDoc>, ghost inserted: TaskDoc)
    modifies db
    ensures inserted.id !in old(db.tasks)
    ensures inserted.task == Task(name, ParseInt(points), ParseInt(level), description)
    ensures db.tasks == old(db.tasks)[inserted.id := inserted.task]
    ensures GetTaskById(db, inserted.id) == Some(inserted)
    ensures userId in old(db.users) ==>
              && r == Success(inserted)
              && db.users == old(db.users)[userId := Assigned(old(db.users[userId]), [inserted])]
    ensures userId !in old(db.users) ==> r == Failure(UserNotFound) && db.users == old(db.users)
  {
    var newTask := Task(name, ParseInt(points), ParseInt(level), description);
    var newId := NewId(db.tasks.Keys);
    db.tasks := db.tasks[newId := newTask];
    var task := GetTaskById(db, newId).value;
    inserted := task;
    if userId !in db.users {
      // `user.activeTasks` on a null user throws after the insert
      return Failure(UserNotFound), inserted;
    }
    var user := db.users[userId];
    db.users := db.users[userId := Assigned(user, [task])];
    r := Success(task);
  }

  datatype Condition = Anxiety | Depression | EatingDisorder | Schizophrenia

  /** A task of the fixed starter catalog, before it is stored: the literals `selectTasks`
      passes to `addTask`. */
  datatype Assignment = Assignment(name: string, points: int, level: int, description: string)

  const Walk := Assignment("Go for a walk", 25, 1, "It will refresh you!")
  const Massage := Assignment("Get a massage", 50, 2,
    "While massages can be stressful initially, they help your body and mind relax while providing a positive experience with others.")
  const Exercise := Assignment("Exercise for 15 minutes", 25, 1,
    "Exercising for a small amount of time can help channel negative emotions into a positive activity.")
  const Gathering := Assignment("Get to gather with your friends", 50, 2,
    "Social gatherings are hard when you're suffering from depression, but as long as you have quality friends, seeing them is oftentimes very helpful.")
  const Research := Assignment("Do research on side effects of eating disorders", 25, 1,
    "Researching the effects is often used as a preventative measure as people see how much it messes with your body.")
  const Affirmations := Assignment("Make a list of positive affirmations", 50, 2,
    "Making a list of positive statements about yourself helps combat self-image issues because you can always look at the list to see good things about yourself.")
  const Support := Assignment("Talk to friends and family", 25, 1,
    "Building a support network of friends and family is crucial to living with schizophrenia.")
  const Medication := Assignment("Take your medication", 50, 2,
    "Taking medication is the single most important part of controlling schizophrenia.")
  /** The large task every condition ends with. */
  const Painting := Assignment("Painting", 100, 3, "It will refresh you!")

  /** The three tasks `selectTasks` assigns for one condition: a small (25 points, level 1),
      a medium (50 points, level 2) and the large one. */
  function Starter(c: Condition): (r: seq<Assignment>)
    ensures |r| == 3
    ensures r[0].points == 25 && r[0].level == 1 && r[1].points == 50 && r[1].level == 2
    ensures r[2] == Painting
  {
    match c
    case Anxiety => [Walk, Massage, Painting]
    case Depression => [Exercise, Gathering, Painting]
    case EatingDisorder => [Research, Affirmations, Painting]
    case Schizophrenia => [Support, Medication, Painting]
  }

  /** The task a catalog entry becomes once `addTask` has stored it. */
  function Stored(a: Assignment): Task {
    Task(a.name, Int(a.points), Int(a.level), a.description)
  }

  function Rank(c: Condition): nat {
    match c
    case Anxiety => 0
    case Depression => 1
    case EatingDisorder => 2
    case Schizophrenia => 3
  }

  /** `flag == "true"`: only the string "true" selects a condition. */
  function Flagged(flag: string, c: Condition): seq<Condition> {
    if flag == "true" then [c] else []
  }

  /** The conditions whose flag is the string "true", in the order the flags are tested. */
  function Chosen(anxiety: string, depression: string, disorder: string, schizo: string)
    : (r: seq<Condition>)
    ensures Anxiety in r <==> anxiety == "true"
    ensures Depression in r <==> depression == "true"
    ensures EatingDisorder in r <==> disorder == "true"
    ensures Schizophrenia in r <==> schizo == "true"
    ensures forall i, j :: 0 <= i < j < |r| ==> Rank(r[i]) < Rank(r[j])
  {
    Flagged(anxiety, Anxiety) + Flagged(depression, Depression)
    + Flagged(disorder, EatingDisorder) + Flagged(schizo, Schizophrenia)
  }

  /** The blocks of the given keys, one after the other. */
  function Flatten<K, T>(ks: seq<K>, block: K -> seq<T>): seq<T> {
    if ks == [] then [] else block(ks[0]) + Flatten(ks[1..], block)
  }

  /** The starter tasks of the given conditions, one condition after the other. */
  function Selected(cs: seq<Condition>): seq<Assignment> {
    Flatten(cs, Starter)
  }

  lemma {:induction false} FlattenConcat<K, T>(a: seq<K>, b: seq<K>, block: K -> seq<T>)
    ensures Flatten(a + b, block) == Flatten(a, block) + Flatten(b, block)
  {
    if a == [] {
      assert a + b == b;
    } else {
      assert (a + b)[1..] == a[1..] + b;
      FlattenConcat(a[1..], b, block);
    }
  }

  lemma {:induction false} FlattenSize<K, T>(ks: seq<K>, block: K -> seq<T>)
    requires forall k :: |block(k)| == 3
    ensures |Flatten(ks, block)| == 3 * |ks|
  {
    if ks != [] {
      FlattenSize(ks[1..], block);
    }
  }

  /** With three entries per key, entry 3k+j is entry j of the k-th key's block. */
  lemma {:induction false} FlattenAt<K, T>(ks: seq<K>, block: K -> seq<T>, k: nat, j: nat)
    requires forall key :: |block(key)| == 3
    requires k < |ks| && j < 3
    ensures |Flatten(ks, block)| == 3 * |ks|
    ensures Flatten(ks, block)[3 * k + j] == block(ks[k])[j]
  {
    FlattenSize(ks, block);
    var head, tail := block(ks[0]), Flatten(ks[1..], block);
    assert Flatten(ks, block) == head + tail;
    if k > 0 {
      FlattenAt(ks[1..], block, k - 1, j);
      assert ks[1..][k - 1] == ks[k];
      assert Flatten(ks, block)[3 * k + j] == tail[3 * (k - 1) + j];
    }
  }

  /** Every chosen condition contributes (25 points, level 1), (50, 2) and then
      "Painting" (100, 3), in that order. */
  lemma SelectedShape(cs: seq<Condition>, k: nat)
    requires k < |cs|
    ensures |Selected(cs)| == 3 * |cs|
    ensures Selected(cs)[3 * k].points == 25 && Selected(cs)[3 * k].level == 1
    ensures Selected(cs)[3 * k + 1].points == 50 && Selected(cs)[3 * k + 1].level == 2
    ensures Selected(cs)[3 * k + 2] == Painting
  {
    FlattenAt(cs, Starter, k, 0);
    FlattenAt(cs, Starter, k, 1);
    FlattenAt(cs, Starter, k, 2);
  }

  /** The stored tasks are, index by index, the catalog entries wanted. */
  predicate Realizes(docs: seq<TaskDoc>, wanted: seq<Assignment>) {
    |docs| == |wanted| && forall i :: 0 <= i < |docs| ==> docs[i].task == Stored(wanted[i])
  }

  /** The collection after inserting the documents one after the other. */
  function InsertAll(m: map<Id, Task>, docs: seq<TaskDoc>): map<Id, Task>
    decreases |docs|
  {
    if docs == [] then m else InsertAll(m[docs[0].id := docs[0].task], docs[1..])
  }

  /** Each document got an id that no earlier document of the collection had. */
  predicate AllFresh(m: map<Id, Task>, docs: seq<TaskDoc>)
    decreases |docs|
  {
    docs == [] || (docs[0].id !in m && AllFresh(m[docs[0].id := docs[0].task], docs[1..]))
  }

  lemma {:induction false} InsertAllConcat(m: map<Id, Task>, a: seq<TaskDoc>, b: seq<TaskDoc>)
    ensures InsertAll(m, a + b) == InsertAll(InsertAll(m, a), b)
    ensures AllFresh(m, a + b) <==> AllFresh(m, a) && AllFresh(InsertAll(m, a), b)
    decreases |a|
  {
    if a == [] {
      assert a + b == b;
    } else {
      assert (a + b)[1..] == a[1..] + b;
      InsertAllConcat(m[a[0].id := a[0].task], a[1..], b);
    }
  }

  /** After the documents are inserted under fresh ids, each of them can be looked up and
      every earlier document is still there, unchanged. */
  lemma {:induction false} InsertAllKeeps(m: map<Id, Task>, docs: seq<TaskDoc>)
    requires AllFresh(m, docs)
    ensures forall id :: id in m ==> id in InsertAll(m, docs) && InsertAll(m, docs)[id] == m[id]
    ensures forall i :: 0 <= i < |docs| ==>
              && docs[i].id !in m && docs[i].id in InsertAll(m, docs)
              && InsertAll(m, docs)[docs[i].id] == docs[i].task
    decreases |docs|
  {
    if docs != [] {
      var m' := m[docs[0].id := docs[0].task];
      InsertAllKeeps(m', docs[1..]);
      assert forall i :: 1 <= i < |docs| ==> docs[i] == docs[1..][i - 1];
    }
  }

  /** `addTask` called with a catalog entry's literals, as `selectTasks` calls it. */
  method AddAssignment(db: Database, userId: Id, e: Assignment)
    returns (r: Result<TaskDoc>, ghost d: TaskDoc)
    modifies db
    ensures d.task == Stored(e)
    ensures AllFresh(old(db.tasks), [d]) && db.tasks == InsertAll(old(db.tasks), [d])
    ensures userId in old(db.users) ==>
              && r.Success?
              && db.users == old(db.users)[userId := Assigned(old(db.users[userId]), [d])]
    ensures userId !in old(db.users) ==> r == Failure(UserNotFound) && db.users == old(db.users)
  {
    r, d := AddTask(db, userId, e.name, Number(e.points), Number(e.level), e.description,
                    None, None);
    ghost var m := old(db.tasks)[d.id := d.task];
    assert [d][1..] == [];
    assert InsertAll(m, []) == m;
  }

  /** One condition's block of `selectTasks`: `addTask` for each of its three catalog
      entries in turn, stopping at the first call that throws. */
  method AssignBlock(db: Database, userId: Id, block: seq<Assignment>)
    returns (r: Result<()>, ghost added: seq<TaskDoc>)
    requires |block| == 3
    modifies db
    ensures AllFresh(old(db.tasks), added) && db.tasks == InsertAll(old(db.tasks), added)
    ensures userId in old(db.users) ==>
              && r.Success? && Realizes(added, block)
              && db.users == old(db.users)[userId := Assigned(old(db.users[userId]), added)]
    ensures userId !in old(db.users) ==>
              && r == Failure(UserNotFound) && Realizes(added, block[..1])
              && db.users == old(db.users)
  {
    ghost var tasks0, users0 := db.tasks, db.users;
    var x: Result<TaskDoc>;
    ghost var d0, d1, d2: TaskDoc;
    x, d0 := AddAssignment(db, userId, block[0]);
    added := [d0];
    if x.Failure? {
      return Failure(x.error), added;
    }
    x, d1 := AddAssignment(db, userId, block[1]);
    assert x.Success?;  // the user exists, so the later calls cannot throw
    InsertAllConcat(tasks0, [d0], [d1]);
    assert [d0] + [d1] == [d0, d1];
    AssignedTwice(users0[userId], [d0], [d1]);
    x, d2 := AddAssignment(db, userId, block[2]);
    assert x.Success?;
    InsertAllConcat(tasks0, [d0, d1], [d2]);
    assert [d0, d1] + [d2] == [d0, d1, d2];
    added := [d0, d1, d2];
    AssignedTwice(users0[userId], [d0, d1], [d2]);
    r := Success(());
  }

  /** The entries one `if (flag == "true") { ... }` block assigns. */
  function When(flag: string, block: seq<Assignment>): seq<Assignment> {
    if flag == "true" then block else []
  }

  lemma SelectedFlagged(flag: string, c: Condition)
    ensures Selected(Flagged(flag, c)) == When(flag, Starter(c))
  {
    if flag == "true" {
      assert [c][1..] == [];
      assert Flatten([c], Starter) == Starter(c) + Flatten([], Starter);
    }
  }

  /** The entries `selectTasks` assigns are those of its four blocks, in order. */
  lemma ChosenBlocks(anxiety: string, depression: string, disorder: string, schizo: string)
    ensures Selected(Chosen(anxiety, depression, disorder, schizo))
            == When(anxiety, Starter(Anxiety)) + When(depression, Starter(Depression))
               + When(disorder, Starter(EatingDisorder)) + When(schizo, Starter(Schizophrenia))
  {
    var f1, f2, f3, f4 :=
      Flagged(anxiety, Anxiety), Flagged(depression, Depression),
      Flagged(disorder, EatingDisorder), Flagged(schizo, Schizophrenia);
    FlattenConcat(f1 + f2 + f3, f4, Starter);
    FlattenConcat(f1 + f2, f3, Starter);
    FlattenConcat(f1, f2, Starter);
    SelectedFlagged(anxiety, Anxiety);
    SelectedFlagged(depression, Depression);
    SelectedFlagged(disorder, EatingDisorder);
    SelectedFlagged(schizo, Schizophrenia);
  }

  /** How far `selectTasks` has got: the entries `done` are stored under fresh ids and
      appended, in order, to the user's active tasks. */
  predicate Stage(tasks0: map<Id, Task>, users0: map<Id, User>, tasks: map<Id, Task>,
                  users: map<Id, User>, userId: Id, done: seq<Assignment>, added: seq<TaskDoc>)
  {
    && AllFresh(tasks0, added) && tasks == InsertAll(tasks0, added)
    && (userId in users0 ==>
          && Realizes(added, done)
          && users == users0[userId := Assigned(users0[userId], added)])
    && (userId !in users0 ==> users == users0 && done == [] && added == [])
  }

  /** What `selectTasks` leaves behind, given the catalog entries `wanted` its flags select:
      the stored tasks `added` have fresh ids; for an existing user they are the wanted
      tasks, appended to its active tasks; for a missing user the first `addTask` stores
      the first wanted task and throws, and no user changes. */
  predicate Selection(tasks0: map<Id, Task>, users0: map<Id, User>, tasks: map<Id, Task>,
                      users: map<Id, User>, userId: Id, wanted: seq<Assignment>,
                      ok: bool, added: seq<TaskDoc>)
  {
    && AllFresh(tasks0, added) && tasks == InsertAll(tasks0, added)
    && (userId in users0 ==>
          && ok && Realizes(added, wanted)
          && users == users0[userId := Assigned(users0[userId], added)])
    && (userId !in users0 ==>
          && users == users0
          && (ok <==> wanted == [])
          && |added| == (if wanted == [] then 0 else 1)
          && Realizes(added, wanted[..|added|]))
  }

  lemma RealizesConcat(a: seq<TaskDoc>, b: seq<TaskDoc>, x: seq<Assignment>, y: seq<Assignment>)
    requires Realizes(a, x) && Realizes(b, y)
    ensures Realizes(a + b, x + y)
  {
  }

  /** Before the first block nothing has been selected. */
  lemma SelectionStart(tasks0: map<Id, Task>, users0: map<Id, User>, userId: Id)
    ensures Stage(tasks0, users0, tasks0, users0, userId, [], [])
  {
    assert InsertAll(tasks0, []) == tasks0;
    if userId in users0 {
      assert users0[userId].activeTasks + [] == users0[userId].activeTasks;
      assert users0[userId := Assigned(users0[userId], [])] == users0;
    }
  }

  /** When every block has run, the selection is complete. */
  lemma SelectionDone(tasks0: map<Id, Task>, users0: map<Id, User>, tasks: map<Id, Task>,
                      users: map<Id, User>, userId: Id, done: seq<Assignment>, added: seq<TaskDoc>)
    requires Stage(tasks0, users0, tasks, users, userId, done, added)
    ensures Selection(tasks0, users0, tasks, users, userId, done, true, added)
  {
  }

  /** When a block throws, nothing before it was selected. */
  lemma SelectionFailed(tasks0: map<Id, Task>, users0: map<Id, User>, tasks: map<Id, Task>,
                        users: map<Id, User>, userId: Id, block: seq<Assignment>,
                        rest: seq<Assignment>, added: seq<TaskDoc>)
    requires |block| == 3
    requires userId !in users0 && users == users0
    requires AllFresh(tasks0, added) && tasks == InsertAll(tasks0, added)
    requires Realizes(added, block[..1])
    ensures Selection(tasks0, users0, tasks, users, userId, block + rest, false, added)
  {
    assert (block + rest)[..1] == block[..1];
  }

  /** One `if (flag == "true") { ... }` block of `selectTasks`, assigning `block`, run after
      the blocks that assigned `done` and before those that assign `rest`. */
  method AssignWhen(db: Database, userId: Id, flag: string, block: seq<Assignment>,
                    ghost tasks0: map<Id, Task>, ghost users0: map<Id, User>,
                    ghost done: seq<Assignment>, ghost rest: seq<Assignment>,
                    ghost added0: seq<TaskDoc>)
    returns (r: Result<()>, ghost a: seq<TaskDoc>)
    requires |block| == 3
    requires Stage(tasks0, users0, db.tasks, db.users, userId, done, added0)
    modifies db
    ensures r.Success? ==>
              Stage(tasks0, users0, db.tasks, db.users, userId, done + When(flag, block), added0 + a)
    ensures r.Failure? ==>
              Selection(tasks0, users0, db.tasks, db.users, userId,
                        done + When(flag, block) + rest, false, added0 + a)
  {
    if flag == "true" {
      r, a := AssignBlock(db, userId, block);
      InsertAllConcat(tasks0, added0, a);
      if r.Success? {
        RealizesConcat(added0, a, done, block);
        AssignedTwice(users0[userId], added0, a);
      } else {
        assert userId !in users0;
        assert done == [] && added0 == [];
        assert added0 + a == a;
        assert done + block == block;
        SelectionFailed(tasks0, users0, db.tasks, db.users, userId, block, rest, a);
      }
    } else {
      r, a := Success(()), [];
      assert done + [] == done && added0 + [] == added0;
    }
  }

  /** The selection of four blocks, split before each block. */
  lemma BlockSplits<T>(f1: seq<T>, f2: seq<T>, f3: seq<T>, f4: seq<T>)
    ensures f1 + f2 + f3 + f4 == [] + f1 + (f2 + f3 + f4)
    ensures f1 + f2 + f3 + f4 == f1 + f2 + (f3 + f4)
    ensures f1 + f2 + f3 + f4 == f1 + f2 + f3 + f4 + []
    ensures [] + f1 == f1
  {
    assert [] + f1 == f1;
    assert f1 + f2 + f3 + f4 + [] == f1 + f2 + f3 + f4;
  }

  /** `selectTasks`: for each of the flags anxiety, depression, disorder and schizo, in this
      order, that equals the string "true", assign that condition's three starter tasks
      (`Selection` says what that leaves behind). The stored tasks are returned as the
      ghost `added`. */
  method SelectTasks(db: Database, userId: Id, anxiety: string, depression: string,
                     disorder: string, schizo: string)
    returns (r: Result<()>, ghost added: seq<TaskDoc>)
    modifies db
    ensures Selection(old(db.tasks), old(db.users), db.tasks, db.users, userId,
                      Selected(Chosen(anxiety, depression, disorder, schizo)), r.Success?, added)
  {
    ghost var tasks0, users0 := db.tasks, db.users;
    var b1, b2, b3, b4 :=
      Starter(Anxiety), Starter(Depression), Starter(EatingDisorder), Starter(Schizophrenia);
    ghost var f1, f2, f3, f4 := When(anxiety, b1), When(depression, b2), When(disorder, b3),
                                When(schizo, b4);
    ChosenBlocks(anxiety, depression, disorder, schizo);
    BlockSplits(f1, f2, f3, f4);
    ghost var a: seq<TaskDoc>;
    added := [];
    SelectionStart(tasks0, users0, userId);
    r, a := AssignWhen(db, userId, anxiety, b1, tasks0, users0, [], f2 + f3 + f4, added);
    added := added + a;
    if r.Failure? {
      return;
    }
    r, a := AssignWhen(db, userId, depression, b2, tasks0, users0, f1, f3 + f4, added);
    added := added + a;
    if r.Failure? {
      return;
    }
    r, a := AssignWhen(db, userId, disorder, b3, tasks0, users0, f1 + f2, f4, added);
    added := added + a;
    if r.Failure? {
      return;
    }
    r, a := AssignWhen(db, userId, schizo, b4, tasks0, users0, f1 + f2 + f3, [], added);
    added := added + a;
    if r.Failure? {
      return;
    }
    SelectionDone(tasks0, users0, db.tasks, db.users, userId, f1 + f2 + f3 + f4, added);
  }

  /** What `getAllTasks` lists of a task: its id and its name. */
  datatype TaskSummary = TaskSummary(id: Id, name: string)

  /** `getAllTasks`: one summary per active task of the user, in the same order; a missing
      user makes the call throw. */
  method GetAllTasks(db: Database, userId: Id) returns (r: Result<seq<TaskSummary>>)
    ensures userId !in db.users ==> r == Failure(UserNotFound)
    ensures userId in db.users ==>
              && r.Success?
              && |r.value| == |db.users[userId].activeTasks|
              && forall i :: 0 <= i < |r.value| ==>
                   r.value[i] == TaskSummary(db.users[userId].activeTasks[i].id,
                                             db.users[userId].activeTasks[i].task.name)
  {
    if userId !in db.users {
      // `userData[0].activeTasks` on an empty result throws
      return Failure(UserNotFound);
    }
    var active := db.users[userId].activeTasks;
    var result: seq<TaskSummary> := [];
    for i := 0 to |active|
      invariant |result| == i
      invariant forall k :: 0 <= k < i ==>
                  result[k] == TaskSummary(active[k].id, active[k].task.name)
    {
      result := result + [TaskSummary(active[i].id, active[i].task.name)];
    }
    r := Success(result);
  }
}
