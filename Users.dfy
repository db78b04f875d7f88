/** The `users` collection: registration, experience awards, level-ups and task completion. */
module Users {
  import opened JsNumber
  import opened Store
  import opened Leveling
  import Tasks

  /** `getUserById`: the user document with the id, or nothing (`null`). */
  function GetUserById(db: Database, id: Id): (r: Option<UserDoc>)
    reads db
    ensures r.Some? <==> id in db.users
    ensures r.Some? ==> r.value.id == id && r.value.user == db.users[id]
  {
    if id in db.users then Some(UserDoc(id, db.users[id])) else None
  }

  // ---------------------------------------------------------------------------------------
  // Case-insensitive comparison, as the `^...$` regular expressions with flag `i` perform it
  // ---------------------------------------------------------------------------------------

  function LowerChar(c: char): (d: char)
    ensures 'A' <= c <= 'Z' ==> 'a' <= d <= 'z' && d as int == c as int + 32
    ensures !('A' <= c <= 'Z') ==> d == c
  {
    if 'A' <= c <= 'Z' then (c as int + 32) as char else c
  }

  function Lower(s: string): (r: string)
    ensures |r| == |s| && forall i :: 0 <= i < |s| ==> r[i] == LowerChar(s[i])
  {
    seq(|s|, i requires 0 <= i < |s| => LowerChar(s[i]))
  }

  /** Whole-string match ignoring the case of ASCII letters. */
  predicate SameIgnoringCase(a: string, b: string) {
    Lower(a) == Lower(b)
  }

  /** Two strings match ignoring case exactly when they have the same length and agree,
      position by position, up to the case of a letter. */
  lemma SameIgnoringCaseAt(a: string, b: string)
    ensures SameIgnoringCase(a, b) <==>
              |a| == |b| && forall i :: 0 <= i < |a| ==> LowerChar(a[i]) == LowerChar(b[i])
  {
    if |a| == |b| && forall i :: 0 <= i < |a| ==> LowerChar(a[i]) == LowerChar(b[i]) {
      assert forall i :: 0 <= i < |a| ==> Lower(a)[i] == Lower(b)[i];
    }
  }

  /** "Ann@Corp.com" is already taken by "ann@corp.COM", but not by "ann@corp.co". */
  lemma SameIgnoringCaseExamples()
    ensures SameIgnoringCase("Ann@Corp.com", "ann@corp.COM")
    ensures !SameIgnoringCase("Ann@Corp.com", "ann@corp.co")
  {
    SameIgnoringCaseAt("Ann@Corp.com", "ann@corp.COM");
  }

  predicate EmailRegistered(users: map<Id, User>, email: string) {
    exists id :: id in users && SameIgnoringCase(users[id].companyEmail, email)
  }

  predicate UsernameRegistered(users: map<Id, User>, username: string) {
    exists id :: id in users && SameIgnoringCase(users[id].username, username)
  }

  /** No two accounts share an email or a username, ignoring case. */
  predicate Distinct(users: map<Id, User>) {
    forall i, j :: i in users && j in users && i != j ==>
      && !SameIgnoringCase(users[i].companyEmail, users[j].companyEmail)
      && !SameIgnoringCase(users[i].username, users[j].username)
  }

  // ---------------------------------------------------------------------------------------
  // Settled accounts
  // ---------------------------------------------------------------------------------------

  /** A user whose level-ups are all done: the experience left is below the threshold. */
  predicate Settled(u: User) {
    u.level >= 1 && 0 <= u.currXP < Threshold(u.level)
  }

  predicate AllSettled(users: map<Id, User>) {
    forall id :: id in users ==> Settled(users[id])
  }

  /** The experience a user has earned overall: the thresholds of the levels passed plus
      the experience toward the next. */
  function Earned(u: User): int
    requires u.level >= 1
  {
    Consumed(1, u.level) + u.currXP
  }

  /** What `incrementLevel` makes of a user: its (level, currXP) pair settled. */
  function Raised(u: User): (r: User)
    ensures r == u.(level := r.level, currXP := r.currXP)
    ensures r.level >= u.level && r.currXP < Threshold(r.level)
    ensures u.currXP >= 0 ==> r.currXP >= 0
  {
    var p := Settle(u.level, u.currXP);
    u.(level := p.level, currXP := p.xp)
  }

  /** Raising keeps the experience earned, turns a valid account into a settled one, and
      leaves a settled account as it is. */
  lemma RaisedEarned(u: User)
    requires u.level >= 1 && u.currXP >= 0
    ensures Settled(Raised(u)) && Earned(Raised(u)) == Earned(u)
    ensures Settled(u) ==> Raised(u) == u
  {
    SettleConsumes(u.level, u.currXP);
    ConsumedSplit(1, u.level, Raised(u).level);
  }

  /** The account `addUser` creates: level 1, no experience, no tasks. */
  function NewUser(fname: string, lname: string, username: string, hashedPassword: string,
                   companyEmail: string): (u: User)
    ensures Settled(u) && Earned(u) == 0
    ensures u.activeTasks == [] && u.completedTasks == []
    ensures u.username == username && u.companyEmail == companyEmail
  {
    User(fname, lname, username, hashedPassword, companyEmail, 1, 0, [], [])
  }

  /** Admitting an account whose email and username are both new keeps accounts distinct. */
  lemma {:induction false} AdmitKeepsDistinct(users: map<Id, User>, id: Id, u: User)
    requires Distinct(users) && id !in users
    requires !EmailRegistered(users, u.companyEmail)
    requires !UsernameRegistered(users, u.username)
    ensures Distinct(users[id := u])
  {
    var m := users[id := u];
    forall i, j | i in m && j in m && i != j
      ensures !SameIgnoringCase(m[i].companyEmail, m[j].companyEmail)
      ensures !SameIgnoringCase(m[i].username, m[j].username)
    {
      if i == id {
        assert j in users;
      } else if j == id {
        assert i in users;
      }
    }
  }

  /** `addUser`: refuse an email, then a username, that an account already has (ignoring
      case); otherwise insert a new settled account under a fresh id and return it. */
  method AddUser(db: Database, fname: string, lname: string, username: string,
                 hashedPassword: string, companyEmail: string)
    returns (r: Result<UserDoc>)
    modifies db
    ensures db.tasks == old(db.tasks)
    ensures EmailRegistered(old(db.users), companyEmail) ==>
              r == Failure(EmailTaken) && db.users == old(db.users)
    ensures !EmailRegistered(old(db.users), companyEmail)
            && UsernameRegistered(old(db.users), username) ==>
              r == Failure(UsernameTaken) && db.users == old(db.users)
    ensures !EmailRegistered(old(db.users), companyEmail)
            && !UsernameRegistered(old(db.users), username) ==>
              && r.Success? && r.value.id !in old(db.users)
              && r.value.user == NewUser(fname, lname, username, hashedPassword, companyEmail)
              && db.users == old(db.users)[r.value.id := r.value.user]
              && GetUserById(db, r.value.id) == Some(r.value)
    ensures Distinct(old(db.users)) ==> Distinct(db.users)
    ensures AllSettled(old(db.users)) ==> AllSettled(db.users)
  {
    if EmailRegistered(db.users, companyEmail) {
      return Failure(EmailTaken);
    }
    if UsernameRegistered(db.users, username) {
      return Failure(UsernameTaken);
    }
    var user := NewUser(fname, lname, username, hashedPassword, companyEmail);
    var id := NewId(db.users.Keys);
    if Distinct(db.users) {
      AdmitKeepsDistinct(db.users, id, user);
    }
    db.users := db.users[id := user];
    r := Success(UserDoc(id, user));
  }

  // ---------------------------------------------------------------------------------------
  // Experience
  // ---------------------------------------------------------------------------------------

  /** The guard of `awardExp`, `!exp || typeof exp !== 'number' || exp < 0`, negated: NaN and
      0 are falsy, and a negative amount is refused. */
  function ValidExp(exp: Num): (ok: bool)
    ensures ok <==> exp.Int? && exp.value > 0
  {
    match exp
    case NaN => false
    case Int(v) => v != 0 && !(v < 0)
  }

  /** `awardExp`: refuse an invalid amount, then a missing user; otherwise add the amount to
      the user's experience, without leveling, and return the updated user. */
  method AwardExp(db: Database, exp: Num, userId: Id) returns (r: Result<UserDoc>)
    modifies db
    ensures db.tasks == old(db.tasks)
    ensures !ValidExp(exp) ==> r == Failure(InvalidExperience) && db.users == old(db.users)
    ensures ValidExp(exp) && userId !in old(db.users) ==>
              r == Failure(UserNotFound) && db.users == old(db.users)
    ensures ValidExp(exp) && userId in old(db.users) ==>
              var u := old(db.users)[userId];
              && db.users == old(db.users)[userId := u.(currXP := u.currXP + exp.value)]
              && r == Success(UserDoc(userId, db.users[userId]))
  {
    if !ValidExp(exp) {
      return Failure(InvalidExperience);
    }
    if userId !in db.users {
      return Failure(UserNotFound);
    }
    var u := db.users[userId];
    db.users := db.users[userId := u.(currXP := u.currXP + exp.value)];
    r := Success(UserDoc(userId, db.users[userId]));
  }

  /** `incrementLevel`: re-read the user and, while its experience reaches the threshold of
      its level, move it one level up and subtract the threshold; return the user as last
      read. Each step is written back before the next read. */
  method IncrementLevel(db: Database, userId: Id) returns (r: Result<UserDoc>)
    modifies db
    ensures db.tasks == old(db.tasks)
    ensures userId !in old(db.users) ==> r == Failure(UserNotFound) && db.users == old(db.users)
    ensures userId in old(db.users) ==>
              && db.users == old(db.users)[userId := Raised(old(db.users)[userId])]
              && r == Success(UserDoc(userId, db.users[userId]))
  {
    var leveling := true;
    var last: Option<UserDoc> := None;
    while leveling
      invariant db.tasks == old(db.tasks)
      invariant userId !in old(db.users) ==> db.users == old(db.users) && leveling
      invariant userId in old(db.users) ==>
                  && userId in db.users
                  && db.users == old(db.users)[userId := db.users[userId]]
                  && Raised(db.users[userId]) == Raised(old(db.users)[userId])
      invariant !leveling ==> last == Some(UserDoc(userId, db.users[userId]))
                              && db.users[userId].currXP < Threshold(db.users[userId].level)
      decreases leveling, if userId in db.users then db.users[userId].currXP else 0
    {
      var found := GetUserById(db, userId);
      if found.None? {
        return Failure(UserNotFound);
      }
      var user := found.value.user;
      var needed := Threshold(user.level);
      if user.currXP >= needed {
        db.users := db.users[userId := user.(level := user.level + 1, currXP := user.currXP - needed)];
      } else {
        leveling := false;
        last := found;
      }
    }
    r := Success(last.value);
  }

  // ---------------------------------------------------------------------------------------
  // Completing a task
  // ---------------------------------------------------------------------------------------

  /** The active tasks whose id differs from `taskId`, in their order. */
  function WithoutTask(docs: seq<TaskDoc>, taskId: Id): (r: seq<TaskDoc>)
    ensures |r| <= |docs|
    ensures forall d :: d in r <==> d in docs && d.id != taskId
  {
    if docs == [] then []
    else (if docs[0].id == taskId then [] else [docs[0]]) + WithoutTask(docs[1..], taskId)
  }

  /** Filtering distributes over concatenation, so it keeps the order of the other tasks. */
  lemma {:induction false} WithoutTaskConcat(a: seq<TaskDoc>, b: seq<TaskDoc>, taskId: Id)
    ensures WithoutTask(a + b, taskId) == WithoutTask(a, taskId) + WithoutTask(b, taskId)
  {
    if a == [] {
      assert a + b == b;
    } else {
      assert (a + b)[1..] == a[1..] + b;
      WithoutTaskConcat(a[1..], b, taskId);
    }
  }

  /** A task that is not active leaves the active list as it is. */
  lemma {:induction false} WithoutTaskAbsent(docs: seq<TaskDoc>, taskId: Id)
    requires forall i :: 0 <= i < |docs| ==> docs[i].id != taskId
    ensures WithoutTask(docs, taskId) == docs
  {
    if docs != [] {
      WithoutTaskAbsent(docs[1..], taskId);
    }
  }

  /** What `markTaskCompleted` makes of a user completing the task `doc` worth `points`: the
      points are awarded and settled, the task leaves the active list and joins the
      completed list. */
  function Completed(u: User, doc: TaskDoc, points: int): (r: User)
    ensures r.firstName == u.firstName && r.lastName == u.lastName
    ensures r.username == u.username && r.hashedPassword == u.hashedPassword
    ensures r.companyEmail == u.companyEmail
    ensures r.completedTasks == u.completedTasks + [doc]
    ensures r.activeTasks == WithoutTask(u.activeTasks, doc.id)
  {
    var raised := Raised(u.(currXP := u.currXP + points));
    raised.(activeTasks := WithoutTask(u.activeTasks, doc.id),
            completedTasks := u.completedTasks + [doc])
  }

  /** Completing a task keeps an account settled, adds the points to what it has earned,
      and never lowers its level. */
  lemma CompletedEarned(u: User, doc: TaskDoc, points: int)
    requires Settled(u) && points > 0
    ensures var c := Completed(u, doc, points);
            Settled(c) && Earned(c) == Earned(u) + points && c.level >= u.level
  {
    RaisedEarned(u.(currXP := u.currXP + points));
  }

  /** Completing two tasks one after the other gives the level and experience of one
      award of both amounts. */
  lemma CompletedTwice(u: User, d1: TaskDoc, d2: TaskDoc, p1: int, p2: int)
    requires u.currXP >= 0 && p1 > 0 && p2 > 0
    ensures var c := Completed(Completed(u, d1, p1), d2, p2);
            Progress(c.level, c.currXP) == Settle(u.level, u.currXP + p1 + p2)
  {
    var c1 := Completed(u, d1, p1);
    var c2 := Completed(c1, d2, p2);
    var a := Settle(u.level, u.currXP + p1);
    assert a == Progress(c1.level, c1.currXP) by {
      CompletedProgress(u, d1, p1);
    }
    assert Progress(c2.level, c2.currXP) == Settle(a.level, a.xp + p2) by {
      CompletedProgress(c1, d2, p2);
    }
    SettleThenAward(u.level, u.currXP + p1, p2);
  }

  lemma CompletedProgress(u: User, doc: TaskDoc, points: int)
    ensures Progress(Completed(u, doc, points).level, Completed(u, doc, points).currXP)
            == Settle(u.level, u.currXP + points)
  {
  }

  /** Nothing checks that the task was active: completing an inactive task still awards its
      points and records it, and leaves the active list unchanged. */
  lemma CompletedInactive(u: User, doc: TaskDoc, points: int)
    requires forall i :: 0 <= i < |u.activeTasks| ==> u.activeTasks[i].id != doc.id
    ensures Completed(u, doc, points).activeTasks == u.activeTasks
    ensures Completed(u, doc, points).completedTasks == u.completedTasks + [doc]
  {
    WithoutTaskAbsent(u.activeTasks, doc.id);
  }

  /** `markTaskCompleted`: fail when the user, then the task, is missing, or when the task's
      points are refused by `awardExp`; otherwise award the points, settle the levels, drop
      the task from the active list, append it to the completed list and return the user. */
  method MarkTaskCompleted(db: Database, userId: Id, taskId: Id) returns (r: Result<UserDoc>)
    modifies db
    ensures db.tasks == old(db.tasks)
    ensures userId !in old(db.users) ==> r == Failure(UserNotFound) && db.users == old(db.users)
    ensures userId in old(db.users) && taskId !in old(db.tasks) ==>
              r == Failure(TaskNotFound) && db.users == old(db.users)
    ensures userId in old(db.users) && taskId in old(db.tasks)
            && !ValidExp(old(db.tasks)[taskId].points) ==>
              r == Failure(InvalidExperience) && db.users == old(db.users)
    ensures userId in old(db.users) && taskId in old(db.tasks)
            && ValidExp(old(db.tasks)[taskId].points) ==>
              var t := old(db.tasks)[taskId];
              var u := Completed(old(db.users)[userId], TaskDoc(taskId, t), t.points.value);
              && db.users == old(db.users)[userId := u]
              && r == Success(UserDoc(userId, u))
    ensures AllSettled(old(db.users)) ==> AllSettled(db.users)
  {
    var userToUpdate := GetUserById(db, userId);
    var taskToAdd := Tasks.GetTaskById(db, taskId);
    if userToUpdate.None? {
      return Failure(UserNotFound);
    }
    if taskToAdd.None? {
      return Failure(TaskNotFound);
    }
    var before := userToUpdate.value.user;
    var doc := taskToAdd.value;
    var completed := before.completedTasks + [doc];
    var expUser :- AwardExp(db, doc.task.points, userId);
    var levelUser := IncrementLevel(db, expUser.id);
    var newTasks := WithoutTask(before.activeTasks, taskId);
    db.users := db.users[userId := levelUser.value.user.(activeTasks := newTasks,
                                                         completedTasks := completed)];
    if AllSettled(old(db.users)) {
      CompletedEarned(before, doc, doc.task.points.value);
    }
    r := Success(UserDoc(userId, db.users[userId]));
  }
}
