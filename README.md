# Goal tracker: object lifecycle and access rules

A model of the core of a Django goal-tracking API. Boards hold a roster of
participants with roles (owner, writer, reader). A board holds goal
categories, and goals sit in categories. A goal can have comments.

The store is five tables, each a map from row id to row (`Model`):
boards, participants, categories, goals and comments. On that store the
model covers:

- `Queries`: the visibility filters of every list and detail view, and the
  title ordering of the board list.
- `Validators`: the serializer checks run at write time: the category and
  due date of a new goal, the category of an updated goal, the goal of a new
  comment, and the roles a roster entry may carry.
- `Lifecycle`: the writes. These are the soft-delete cascades of the board,
  category and goal delete views, board creation with its first participant,
  the category/goal/comment create views, and the roster replacement of a
  board update. Each write is a pure function on `Store` that states what
  the new tables are. Each is also a method of the class `Database`, which
  updates its table fields in place. Each method is proved to produce exactly
  that function's result, and to keep every foreign key pointing at an
  existing row with every id below its table's auto-increment counter.
- `Permissions`: the two object permissions on goal comments.
- `Accounts`: the password field's flags, the sign-up password-match check
  and the row sign-up stores, login, and the password change, full or
  partial. These are library calls whose workings are not modelled:
  password hashing, the password strength check, credential checking and
  authentication. Each is a function-typed parameter. The current date is
  a parameter `today`.

The model follows the code. Where the code does something other than a
plain reading of the system's design would suggest, the model keeps what
the code does and proves it as a lemma:

- Goal creation checks that the requester *wrote* the category. It does not
  check that they belong to its board (`GoalCreateIgnoresRoles`).
- Category creation does not check whether the board is deleted. So a new,
  active category can sit under a deleted board, which breaks "no active
  child under an inactive parent" (`CategoryCreatedUnderDeletedBoard`).
- On goal creation, the category field's lookup already skips deleted
  categories. So validation reports a deleted category as a missing key,
  and the validator's own deleted-category branch never fires on that path
  (`GoalCreateCategory`).
- The comment list has no goal-status filter
  (`CommentListIgnoresArchivedGoals`).

The models module is not part of this model. Two assumptions stand in for it:

- The goal statuses are to-do, in progress, done and archived.
- The roles are declared in the order owner, writer, reader, and a
  participant row created without a role is an owner.

## Model

| member | source | states |
|---|---|---|
| Queries.TitleLeTotal | goals/views.py:26 | any two titles are comparable under the title order |
| Queries.TitleLeTransitive | goals/views.py:26 | the title order is transitive |
| Queries.TitleMinimumExists | goals/views.py:26 | every non-empty set of boards has one whose title comes first |
| Queries.OrderByTitle | goals/views.py:26 | ordering a set of boards by title yields each of them exactly once, in non-decreasing title order |
| Queries.BoardListQuery | goals/views.py:28-32 | the board list's queryset is exactly the boards of the detail queryset that have a participant row for the requester |
| Queries.BoardDetailQuery | goals/views.py:39-40 | a board is in the detail queryset iff it is not deleted |
| Queries.CategoryQuery | goals/views.py:66-70 | a category is listed or fetched iff it is not deleted and the requester participates in its board (goals/views.py:77-81) |
| Queries.GoalQuery | goals/views.py:108-112 | a goal is listed or fetched iff it is not archived and its category is one the requester can see (goals/views.py:119-123) |
| Queries.CommentListQuery | goals/views.py:143-146 | a comment is listed iff the requester participates in the board of its goal |
| Queries.CommentDetailQuery | goals/views.py:153-154 | every comment the detail queryset yields was written by the requester |
| Queries.BoardList | goals/views.py:22-32 | the board list holds exactly the boards that are not deleted and have a participant row for the requester, each once, ordered by title |
| Queries.GoalVisibility | goals/views.py:108-112 | a goal is listed or fetched iff it is not archived, its category is not deleted and the requester participates in its board; a visible goal's category is itself visible (goals/views.py:119-123, 66-70) |
| Queries.CommentListIgnoresArchivedGoals | goals/views.py:143-146 | a comment on an archived goal stays in the comment list of every participant of the goal's board |
| Queries.CommentDetailOwnOnly | goals/views.py:153-154 | the comment detail queryset holds a comment iff the requester wrote it |
| Validators.ValidateCreateCategory | goals/serializers.py:42-49 | a deleted category is rejected first, then one the requester did not write, each with its message on the `category` field; otherwise the category is accepted |
| Validators.GoalCreateCategory | goals/serializers.py:32-34 | goal creation accepts a category key iff the category exists, is not deleted and was written by the requester; every rejection is a validation error on `category` |
| Validators.GoalCreateIgnoresRoles | goals/serializers.py:46-47 | goal creation gives the same answer whatever the roster holds, so a board owner who did not write the category is rejected |
| Validators.ValidateDueDate | goals/serializers.py:51-54 | an absent due date is accepted, one before today is rejected with the past-date message, today or later is accepted |
| Validators.GoalUpdateCategory | goals/serializers.py:63-67 | goal update rejects only a missing or a deleted category, with no author check |
| Validators.ValidateCommentGoal | goals/serializers.py:73-82 | an archived goal is rejected with a validation error first; otherwise a requester without an owner or writer row on the goal's board gets permission-denied; otherwise the goal is accepted |
| Validators.CommentCreateGoal | goals/serializers.py:73-82 | comment creation accepts a goal key iff the goal exists, is not archived and the requester is an owner or writer of its board; permission-denied only for an existing, unarchived goal |
| Validators.ReaderCannotComment | goals/serializers.py:76-81 | a requester whose only rows on the goal's board are reader rows cannot comment |
| Validators.RosterRole | goals/serializers.py:107-109 | a roster role is accepted iff it is among the declared choices after the first, otherwise it is a not-a-choice error on `role` |
| Validators.RosterRoleExcludesOwner | goals/serializers.py:107-109 | owner is the one role a roster entry can never carry |
| Lifecycle.BoardDestroyed | goals/views.py:42-47 | after a board delete the board and all its categories are deleted and every goal under them is archived; other boards, categories of other boards and goals under them, all participants and all comments are unchanged, and only the deleted flag and the status are written |
| Lifecycle.CategoriesFlagged | goals/views.py:46 | the bulk update flags exactly the categories of the board as deleted, changes no other field, and adds or removes no row |
| Lifecycle.GoalsArchivedOnBoard | goals/views.py:47 | the bulk update archives exactly the goals whose category lies on the board, changes no other field, and adds or removes no row |
| Lifecycle.GoalsArchivedInCategory | goals/views.py:87 | the bulk update archives exactly the goals of the category, changes no other field, and adds or removes no row |
| Lifecycle.CategoryDestroyed | goals/views.py:83-87 | the category is deleted and exactly its goals are archived; sibling categories, other goals and the other tables are unchanged |
| Lifecycle.GoalDestroyed | goals/views.py:125-127 | the goal row is kept with only its status set to archived; deleting an archived goal leaves the store as it was |
| Lifecycle.BoardCreated | goals/views.py:18-19 | board creation adds the board and exactly one participant row, linking the creator to it with the default role; foreign keys still hold |
| Lifecycle.CategoryCreateBoard | goals/serializers.py:13-19 | the board key of a new category is accepted iff the board exists, deleted or not |
| Lifecycle.CategoryCreated | goals/serializers.py:13-19 | a new category is added, written by the requester and not deleted; nothing else changes |
| Lifecycle.GoalCreated | goals/serializers.py:31-40 | a new goal is added, written by the requester; nothing else changes |
| Lifecycle.CommentCreated | goals/serializers.py:70-71 | a new comment is added, written by the requester; nothing else changes |
| Lifecycle.KeptRows | goals/serializers.py:131-132 | the roster delete keeps exactly the rows of other boards and the requester's own rows, unchanged |
| Lifecycle.NewRows | goals/serializers.py:133-140 | the bulk insert adds one row on the board per submitted entry, in order, at consecutive new ids |
| Lifecycle.RosterReplaced | goals/serializers.py:131-140 | after the delete and the bulk insert, rows of other boards and the requester's rows are kept unchanged, the board's other rows are gone, each entry has its row at its new id, and there is no other row |
| Lifecycle.Entries | goals/serializers.py:139 | an omitted roster is an empty one |
| Lifecycle.RosterUpdated | goals/serializers.py:129-144 | after a roster update the board's rows are the requester's prior rows plus one per entry; rows of other boards are untouched; the title changes exactly when a non-empty title is given; nothing else changes |
| Lifecycle.BoardDestroyedHidesEverything | goals/views.py:39-47 | after a board delete the board is gone from the detail and list querysets, and none of its categories or goals is visible to anyone |
| Lifecycle.CategoryDestroyedHidesGoals | goals/views.py:83-87 | after a category delete neither it nor any of its goals is visible |
| Lifecycle.GoalDestroyedHidesGoal | goals/views.py:125-127 | after a goal delete the goal is neither listed nor fetched |
| Lifecycle.BoardDestroyedWellFormed | goals/views.py:42-47 | a board delete keeps every foreign key valid |
| Lifecycle.RosterUpdatedWellFormed | goals/serializers.py:129-144 | a roster update keeps every foreign key valid and all ids below the advanced counter |
| Lifecycle.BoardDestroyedConsistent | goals/views.py:42-47 | a board delete keeps "every category of a deleted board is deleted, every goal of a deleted category is archived" |
| Lifecycle.CategoryDestroyedConsistent | goals/views.py:83-87 | a category delete keeps the same invariant |
| Lifecycle.GoalDestroyedConsistent | goals/views.py:125-127 | a goal delete keeps the same invariant |
| Lifecycle.GoalCreatedConsistent | goals/serializers.py:32-34 | a goal created past validation keeps the invariant, since its category is not deleted |
| Lifecycle.BoardCreatedConsistent | goals/views.py:18-19 | board creation keeps the invariant |
| Lifecycle.RosterUpdatedConsistent | goals/serializers.py:129-144 | a roster update keeps the invariant |
| Lifecycle.CategoryCreatedUnderDeletedBoard | goals/serializers.py:13-19 | a category can be created under a deleted board, and the store then breaks the invariant |
| Lifecycle.BoardCreatedListed | goals/views.py:18-19 | the creator finds the new board in their board list, as its owner and only participant |
| Lifecycle.RosterAddsNoOwner | goals/serializers.py:107-109 | after a roster update whose roles passed the role field, every owner row of the board is one of the requester's prior rows |
| Lifecycle.RosterKeepsRequester | goals/serializers.py:131-139 | a requester on the board stays on it; with the roster omitted they are the only participant left |
| Lifecycle.BuildRows | goals/serializers.py:133-140 | the loop over the submitted entries builds exactly the rows of the bulk insert |
| Lifecycle.BoardDestroyedSound | goals/views.py:42-47 | a board delete keeps foreign keys valid and ids below the counters |
| Lifecycle.RosterReplacedSound | goals/serializers.py:131-140 | the roster replacement keeps foreign keys valid and ids below the advanced participant counter |
| Lifecycle.Database.DestroyBoard | goals/views.py:42-47 | the in-place cascade leaves exactly the tables of `BoardDestroyed` |
| Lifecycle.Database.DestroyCategory | goals/views.py:83-87 | the in-place cascade leaves exactly the tables of `CategoryDestroyed` |
| Lifecycle.Database.DestroyGoal | goals/views.py:125-127 | the status write leaves exactly the tables of `GoalDestroyed` |
| Lifecycle.Database.CreateBoard | goals/views.py:18-19 | both inserts leave exactly the tables of `BoardCreated`, at the next ids, and each of the two counters advances by one |
| Lifecycle.Database.CreateCategory | goals/serializers.py:13-19 | a missing board key is returned as its error with no write and the counter kept; otherwise the tables become those of `CategoryCreated` and the counter advances by one |
| Lifecycle.Database.CreateGoal | goals/serializers.py:31-54 | the category error comes first, then the due-date error, each with no write and the counter kept; otherwise the tables become those of `GoalCreated` and the counter advances by one |
| Lifecycle.Database.CreateComment | goals/serializers.py:70-82 | the goal field's error is returned with no write and the counter kept; otherwise the tables become those of `CommentCreated` and the counter advances by one |
| Lifecycle.Database.UpdateBoard | goals/serializers.py:129-144 | the in-place delete, bulk insert and rename leave exactly the tables of `RosterUpdated` |
| Lifecycle.Database.ReplaceRoster | goals/serializers.py:131-140 | the delete and the bulk insert change only the participants table, to the requester's kept rows plus the new rows |
| Lifecycle.Database.Rename | goals/serializers.py:141-143 | only the board's title is written |
| Permissions.IdOf | goals/permissions.py:10 | an anonymous requester has no id; a logged-in one has theirs |
| Permissions.CommentsHasPermission | goals/permissions.py:6 | the view-level check passes iff the requester is logged in |
| Permissions.CommentsHasObjectPermission | goals/permissions.py:7-11 | a safe method always passes; an unsafe one passes iff the requester is the comment's author |
| Permissions.OwnerOrReadOnly | goals/permissions.py:14-19 | a safe method always passes; an unsafe one passes iff the requester is the comment's author |
| Permissions.CommentViewAllows | goals/views.py:150 | the comment view admits a request only if both classes admit it |
| Permissions.ObjectPermissionsAgree | goals/permissions.py:7-19 | the two object permissions agree on every input, so their conjunction on the comment view equals either one |
| Permissions.CommentViewAccess | goals/views.py:150 | on the comment view an anonymous requester is refused; a logged-in one may read, and may change or delete iff they wrote the comment |
| Permissions.BoardOwnerCannotEditOthersComment | goals/permissions.py:7-11 | the owner of the comment's board who did not write it cannot change or delete it |
| Permissions.CommentDetailAlwaysAllowed | goals/views.py:149-154 | every comment the comment view's queryset yields passes both permission classes for its logged-in requester, whatever the method |
| Accounts.PasswordField | core/serialisers.py:10-16 | the field is styled as a password, is write-only unless told otherwise, keeps `required`, and has the strength validator appended to its validators |
| Accounts.RequiredPassword | core/serialisers.py:21-22 | a required password field is write-only and carries the strength validator |
| Accounts.Represent | core/serialisers.py:14 | a serializer's output holds exactly the row's fields that are not write-only, with their values |
| Accounts.PasswordsNeverShown | core/serialisers.py:20-26 | neither the password nor its repetition is in the sign-up or login output (core/serialisers.py:39-46); the username is |
| Accounts.CheckPasswordField | core/serialisers.py:16 | an absent password field is a required-field error unless the request is partial, when it is skipped; a present one passes iff the strength check passes it, else it is a validation error on that field with the check's reason |
| Accounts.ValidateSignUp | core/serialisers.py:28-31 | mismatched passwords are a validation error keyed `password_repeat`; matching ones return the attributes unchanged |
| Accounts.CreateUser | core/serialisers.py:33-36 | the stored row drops `password_repeat`, holds the hash of the password in its place, and keeps every other field as given |
| Accounts.SignUp | core/serialisers.py:20-36 | sign-up succeeds iff both passwords are present, both pass the strength check and they are equal; the password field's error comes first, then the repetition's, then the mismatch; a stored row drops the repetition, holds the hash of the password and keeps every other field |
| Accounts.Login | core/serialisers.py:48-55 | login returns the user authentication finds, and the authentication error iff it finds none |
| Accounts.LoginFailuresAlike | core/serialisers.py:53-54 | every login that authentication refuses gives the same error, so an unknown user and a wrong password look alike |
| Accounts.LoginRequest | core/serialisers.py:39-55 | login succeeds iff the username is present, the password is present and passes the strength check, and authentication finds a user; a refused password is a validation error on `password` before authentication is asked; the authentication error comes exactly when authentication finds nobody |
| Accounts.ValidateOldPassword | core/serialisers.py:68-71 | the old password is accepted iff it checks against the stored credential, otherwise it is a validation error on `old_password` |
| Accounts.ValidatePasswordChange | core/serialisers.py:64-76 | a change is accepted iff the new password is present and passes the strength check, and the old one either passes the strength check and checks against the stored credential or is left out of a partial request; a wrong old password gives its validation error; a partial request without the new password fails on the missing key |
| Accounts.PartialChangeSkipsOldPassword | core/serialisers.py:68-75 | a partial request without the old password, with a strong new one, is accepted whatever the stored credential is |
| Accounts.UpdatePassword | core/serialisers.py:73-76 | the stored credential becomes the hash of the new password and no other field is written |
| Accounts.ChangePassword | core/views.py:34-39 | the request's outcome is that of `ValidatePasswordChange` (core/serialisers.py:64-76); a rejected request leaves the row unchanged; an accepted one stores the hash of the new password |

## Left out

- `BoardPermissions`, `GoalCategoryPermissions` and `GoalPermissions`: the views name them, but their bodies are not part of this model. So role checks on board, category and goal views are not modelled.
- The date filter of the goal list, the search and ordering backends other than the board list's title order, and the comment list's `-created` order: the filter's definition is not part of this model, and the creation timestamps are not modelled. The board list's title order is only the default: a client can ask for another order through the ordering parameter, and that choice is not modelled.
- The models module: the status list and the default role are assumptions (see above). Description and priority fields, and the creation and update timestamps, are not modelled.
- The unique (board, user) constraint. A roster update can submit the requester, or one user twice. Under that constraint the bulk insert then fails, and the transaction rolls the delete back with it, so the request changes nothing. The model does not know the constraint: it writes the duplicate rows instead.
- How a query joined through the participants table repeats a row once per matching participant row: the querysets are sets.
- Resolving a roster entry's username to a user: entries carry user ids.
- How the framework gathers the errors of several fields into one response. The model returns the first field error: the category before the due date, the password before its repetition, the old password before the new one. The messages also leave out the rejected input: the key in the not-found message and the value in the not-a-choice message.
- `make_password`, `check_password`, `authenticate` and `validate_password`: library calls. They are the parameters `makePassword`, `checkPassword`, `authenticate` and `validatePassword`, which are left uninterpreted. So the model cannot state that a stored credential differs from the plaintext. `makePassword` is a function, while the library salts each hash at random, so the model states only which call's result is stored.
- Accounts.ValidateSignUp: requires both password keys. The fields are required, so validation only runs with both present.
- Sign-up username uniqueness and the model's own field validation: these are framework checks.
- The base text field's own checks and trimming: a blank value is refused, and surrounding whitespace is stripped before the validators run. These are framework behaviour, and the model passes passwords to the validators as given.
- Goal update itself: only its category check is modelled; the field writes of a generic update are framework code.
- The views' session login and logout, the profile view, the admin registrations and the URL routing: framework plumbing.
- Transactions: each atomic block is one method, with no concurrency.
- The server's time zone: `today` is a parameter.
- Title order compares code points. Database collations are not modelled.
