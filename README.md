# Task and experience core of a wellness-tracking web application

The application keeps two MongoDB collections, `users` and `tasks`. A user registers with a
unique (case-insensitive) company email and username. A user is assigned starter tasks for
the conditions they report, and completes tasks. Completing a task earns the task's points
as experience, and experience turns into levels along a fixed curve.

This project models the data layer that does this, `data/users.js` and `data/tasks.js`:

- `Store` holds the records and the database. `Database` is a class whose two fields, the
  collections as maps from id to document, are updated in place by the operations.
- `JsNumber` models JavaScript's `parseInt`, which `addTask` applies to a task's points and
  level.
- `Leveling` gives the experience curve of `incrementLevel`:
  - `Threshold(level)` is the experience needed to leave a level;
  - `Consumed(lo, hi)` is the experience spent going from level `lo` to level `hi`;
  - `Settle(level, xp)` is the state that repeated level-ups reach.
- `Tasks` models `getTaskById`, `addTask`, `selectTasks` and `getAllTasks`.
- `Users` models `getUserById`, `addUser`, `awardExp`, `incrementLevel` and
  `markTaskCompleted`.

Operations that change the collections are methods with `modifies db`, and each states the
whole new state of both collections. Each one is tied to a specification function:
- `Raised` for `incrementLevel`;
- `Completed` for `markTaskCompleted`;
- `Selection` and `Chosen` for `selectTasks`.

The lemmas prove what those functions promise:
- settling keeps every point of experience;
- settling is the unique settled split;
- two awards settle like one;
- registration keeps accounts distinct;
- `addUser` and `markTaskCompleted` keep every account settled. `awardExp` alone may
  leave experience at or above the threshold, until `incrementLevel` runs.

A JavaScript `throw` is a `Failure` with an `Error` kind, and so is a `TypeError` on a
`null` document. The kinds are user not found, task not found, invalid experience, email
taken and username taken. Writes that happened before the throw are kept, as they are in
the database: `addTask` for a missing user still stores the task.

Where the code and its documentation disagree, the model follows the code:
- `markTaskCompleted` does not check that the task is one of the user's active tasks. It
  awards the points and records the task either way (`Users.CompletedInactive`).
- `selectTasks` is documented as a random selection. It is in fact a fixed catalog, three
  tasks per reported condition (`Tasks.Starter`).
- Level 5 takes 200 experience. Every level below 6 other than 1 to 4 falls into the same
  `else` branch.

## Model

| member | source | states |
|---|---|---|
| Users.GetUserById | data/users.js:45-55 | the user document exactly when the id is a user's, with that id and that user; nothing otherwise |
| Tasks.GetTaskById | data/tasks.js:51-59 | the task document exactly when the id is a task's, with that id and that task; nothing otherwise |
| Store.NewId | data/tasks.js:88-91 | `insertOne` gives the new document an id no document of the collection has |
| JsNumber.ParseInt | data/tasks.js:75-76 | `parseInt` of an integral number gives that number back |
| JsNumber.DecimalRoundTrip | data/tasks.js:75-76 | the decimal text of every integer, negative ones included, reads back as that integer |
| JsNumber.LeadingWhitespaceIgnored | data/tasks.js:75-76 | leading white space never changes what `parseInt` reads |
| JsNumber.TrailingTextIgnored | data/tasks.js:75-76 | the digits of n followed by any non-digit text read as n ("25px" is 25) |
| JsNumber.NoDigitsIsNaN | data/tasks.js:75-76 | text with no decimal digit after the leading white space and the optional sign reads as NaN ("", "-", "+abc", "  x") |
| JsNumber.NaNExamples | data/tasks.js:75-76 | "", "-", "+abc" and "  x" read as NaN |
| JsNumber.SignRead | data/tasks.js:75-76 | one leading `-` negates what follows, and one leading `+` is dropped |
| JsNumber.HexRead | data/tasks.js:75-76 | after a `0x` prefix the hex digits are read in radix 16, up to the first non-hex character |
| JsNumber.HexExample | data/tasks.js:75-76 | "0x1A" reads as 26 |
| JsNumber.DigitPrefixAppend | data/tasks.js:75-76 | the digit prefix of digits followed by a non-digit is exactly those digits |
| Tasks.AddTask | data/tasks.js:69-104 | stores `{name, parseInt(points), parseInt(level), description}` under a fresh id, so that `getTaskById` finds it; appends it to an existing user's active tasks; for a missing user the task is still stored, the call fails, and no user changes |
| Tasks.AssignedTwice | data/tasks.js:98-101 | appending to the active tasks twice is appending the concatenation once |
| Tasks.Starter | data/tasks.js:111-179 | each condition assigns three tasks: 25 points at level 1, 50 points at level 2, then "Painting" |
| Tasks.Chosen | data/tasks.js:111-179 | a condition is chosen exactly when its flag is the string "true", and the chosen conditions keep the order of the `if` blocks |
| Tasks.SelectedShape | data/tasks.js:111-179 | a selection has three tasks per chosen condition; task 3k is (25, 1), task 3k+1 is (50, 2), and task 3k+2 is "Painting" |
| Tasks.FlattenConcat | data/tasks.js:111-179 | the tasks of consecutive blocks are the first block's tasks followed by the rest's |
| Tasks.FlattenAt | data/tasks.js:111-179 | with three tasks per block, task 3k+j of the selection is task j of the k-th block |
| Tasks.SelectedFlagged | data/tasks.js:112 | one block assigns its condition's tasks when its flag is "true", and nothing otherwise |
| Tasks.ChosenBlocks | data/tasks.js:111-179 | the tasks of the chosen conditions are those of the four `if` blocks, in order |
| Tasks.InsertAllConcat | data/tasks.js:88 | inserting two runs of documents is inserting their concatenation, and the ids are fresh for the whole exactly when fresh for each run in turn |
| Tasks.InsertAllKeeps | data/tasks.js:88 | after fresh inserts every earlier task is unchanged and every inserted task can be found under its id |
| Tasks.AddAssignment | data/tasks.js:113-119 | `addTask` with a catalog entry's literals stores exactly that entry, and fails only for a missing user |
| Tasks.AssignBlock | data/tasks.js:112-128 | the three `addTask` calls of one block store the three entries in order and append them to the user; for a missing user the first call stores the first entry and fails |
| Tasks.RealizesConcat | data/tasks.js:111-179 | stored runs that realise two runs of entries realise their concatenation |
| Tasks.SelectionStart | data/tasks.js:111 | before the first block nothing has been assigned |
| Tasks.SelectionDone | data/tasks.js:163-180 | when all four blocks have run, the selection is complete and succeeded |
| Tasks.SelectionFailed | data/tasks.js:113-119 | when a block fails, the user is missing, only that block's first entry was stored, and no block before it assigned anything |
| Tasks.AssignWhen | data/tasks.js:112-128 | one `if (flag == "true")` block extends the assignments made so far by its block, or by nothing when the flag is anything else; when it fails, the whole selection is left in the failed state |
| Tasks.SelectTasks | data/tasks.js:111-180 | for an existing user, the tasks of the chosen conditions are stored under fresh ids in order and appended to its active tasks; for a missing user the first chosen task is stored, the call fails, and no user changes; with no flag set nothing happens |
| Tasks.GetAllTasks | data/tasks.js:26-44 | one `{id, name}` per active task of the user, in the same order; fails for a missing user |
| Users.SameIgnoringCaseAt | data/users.js:74-75 | the anchored case-insensitive match holds exactly when the lengths agree and every position agrees up to letter case |
| Users.SameIgnoringCaseExamples | data/users.js:74-89 | "Ann@Corp.com" collides with "ann@corp.COM" but not with "ann@corp.co" |
| Users.NewUser | data/users.js:91-109 | a new account has level 1, no experience and no tasks, so it is settled with nothing earned |
| Users.AdmitKeepsDistinct | data/users.js:74-89 | admitting an account whose email and username match no existing one (ignoring case) keeps all accounts pairwise distinct |
| Users.AddUser | data/users.js:65-117 | an email already registered (ignoring case) fails first, then a taken username; otherwise a new account is stored under a fresh id and returned; distinct and settled collections stay so |
| Users.ValidExp | data/users.js:172 | `awardExp` accepts an amount exactly when it is a number other than NaN that is greater than 0 |
| Users.AwardExp | data/users.js:169-185 | an invalid amount fails first, then a missing user; otherwise only the user's currXP grows by the amount, with no level-up, and the updated user is returned |
| Leveling.Threshold | data/users.js:213-227 | every level costs at least 50 experience |
| Leveling.ThresholdIncreasing | data/users.js:186-194 | the thresholds grow strictly from level 1 on |
| Leveling.Consumed | data/users.js:206-240 | going up from lo to hi costs at least 50 experience per level |
| Leveling.Settle | data/users.js:206-240 | levelling up never lowers the level and stops below the current threshold, and non-negative experience stays non-negative |
| Leveling.SettleConsumes | data/users.js:229-233 | no experience is lost: the thresholds of the levels gained plus what is left equal the experience settled |
| Leveling.ConsumedSplit | data/users.js:206-240 | the experience from a to c is that from a to b plus that from b to c |
| Leveling.SettleUnique | data/users.js:206-240 | `Settle` reaches the only settled (level, experience) split of the experience |
| Leveling.SettleIdempotent | data/users.js:206-240 | settling a settled state changes nothing |
| Leveling.SettleThenAward | data/users.js:134-135 | awarding x and settling, then awarding y and settling, ends where awarding x + y at once does |
| Leveling.SettleMonotone | data/users.js:206-240 | more experience never yields a lower level |
| Leveling.SettleExamples | data/users.js:186-194 | 50 points take a new user to level 2; 60 leave 10 over; 225 reach level 4 with nothing left |
| Users.Raised | data/users.js:206-240 | `incrementLevel` changes only level and currXP, never lowers the level, and ends below the threshold |
| Users.RaisedEarned | data/users.js:206-240 | levelling keeps the total experience earned and makes a valid account settled, and a settled account is left as it is |
| Users.IncrementLevel | data/users.js:198-242 | repeats the level-ups until the experience is below the threshold and returns the user as last read; only that user changes, to its settled state; fails for a missing user |
| Users.WithoutTask | data/users.js:136-138 | the kept tasks are exactly the active tasks with a different id |
| Users.WithoutTaskConcat | data/users.js:136-138 | the filter keeps the order of the remaining tasks |
| Users.WithoutTaskAbsent | data/users.js:136-138 | removing a task that is not active leaves the list as it is |
| Users.Completed | data/users.js:139-147 | completing a task keeps the names, username, password and email, drops the task from the active tasks and appends it to the completed tasks |
| Users.CompletedEarned | data/users.js:124-160 | completing a task keeps an account settled, adds exactly the task's points to what it has earned, and never lowers its level |
| Users.CompletedProgress | data/users.js:134-147 | the level and experience after completing are those of settling the old experience plus the points |
| Users.CompletedTwice | data/users.js:124-160 | completing two tasks in turn gives the level and experience of one award of both amounts |
| Users.CompletedInactive | data/users.js:136-144 | completing a task that is not active leaves the active tasks as they are and still records it as completed |
| Users.MarkTaskCompleted | data/users.js:124-160 | a missing user fails first, then a missing task, then points that `awardExp` refuses, each with no change; otherwise the user becomes `Completed` with the task's points and is returned; settled collections stay settled |

## Left out

- `validateUser` (data/users.js:249-274) is left out, because it is a bcrypt password comparison, which is foreign code.
- `getAllUsers` (data/users.js:23-37) is left out. It reads a `name` field that user documents do not have, and its order is the database's.
- `createObjectId` and ObjectId parsing are left out. Ids are opaque strings, so a malformed id string, which throws in the code, is not modelled.
- The argument checks of `verifyArg` and `argDNE` are left out, because the `inputVerification` module is not part of this model.
- The `insertedCount === 0` and `modifiedCount === 0` checks are modelled only where they report a missing document: `awardExp`'s `updateOne` on an unknown id throws at data/users.js:181, and that is `AwardExp`'s `UserNotFound`. Elsewhere the database writes are assumed to succeed.
- Users.IncrementLevel: the code does not await its `updateOne`, so a re-read may see an older document. The model performs each write before the next read.
- Users.AddUser: the email and username are placed inside a regular expression unescaped. The model treats them as literal text, so a metacharacter such as `.` or `+` is not modelled. Case folding covers ASCII letters only.
- Users.MarkTaskCompleted: the `$set` of `fname` and `lname` (undefined fields of the user) is not modelled. The code spells the completed-tasks field `completedtasks`, and the model keeps a single field for it.
- JsNumber.ParseInt: the result is the exact integer the digits denote. JavaScript converts it to a double, so the model does not capture:
  - rounding above 2^53 (`parseInt("9007199254740993")` is 9007199254740992);
  - `Infinity` for values above about 1.8e308.
  A number argument is rendered in plain decimal only, so exponent notation (magnitude of 1e21 and above) and non-integral numbers are not modelled.
- Users.AwardExp: an `Infinity` amount is not modelled. The code accepts it, since it is truthy, a number and not negative, and `$inc` makes currXP `Infinity`. Amounts past 2^53 are added exactly, where the code rounds them.
- Users.IncrementLevel: the model's termination and the conservation of experience (`Leveling.SettleConsumes`) hold only for the exact integers of the model. With currXP `Infinity` the code's loop never exits, because `Infinity - neededExp` is `Infinity`. Past 2^53 the subtractions round.
- Tasks.AddTask: `category` and `select` are accepted and ignored, as in the code.
- Tasks.GetAllTasks: the `console.log` of the user data is left out, because it is I/O.
- Express routes, `app.js` and the test files are left out, because they are outside the data layer.
- Concurrency between requests is not modelled. Each operation runs alone on the collections.
