/** The write-time checks of the goal serializers: how a submitted category,
    due date, commented goal or roster role is accepted or rejected. */
module Validators {
  import opened Model

  const DELETED_CATEGORY := "not allowed in deleted category"
  const NOT_CATEGORY_OWNER := "not owner of category"
  const DUE_DATE_IN_PAST := "Failed to set due date in the past"
  const GOAL_NOT_FOUND := "Goal non found"
  /** The message of a primary-key field whose key matches no row of its queryset. */
  const DOES_NOT_EXIST := "Invalid pk - object does not exist."
  /** The message of a choice field given a value outside its choices. */
  const NOT_A_CHOICE := "is not a valid choice."

  /** The roles a roster entry may carry: every declared role but the first. */
  const ROSTER_ROLE_CHOICES: seq<Role> := ROLE_CHOICES[1..]

  /** `GoalCreateSerializer.validate_category`, given a category that exists. */
  function ValidateCreateCategory(s: Store, requester: UserId, c: CategoryId): (r: Result<CategoryId>)
    requires c in s.categories
    ensures s.categories[c].isDeleted ==> r == Err(ValidationError("category", DELETED_CATEGORY))
    ensures (!s.categories[c].isDeleted && s.categories[c].user != requester)
              ==> r == Err(ValidationError("category", NOT_CATEGORY_OWNER))
    ensures r.Ok? <==> !s.categories[c].isDeleted && s.categories[c].user == requester
    ensures r.Ok? ==> r.value == c
  {
    if s.categories[c].isDeleted then Err(ValidationError("category", DELETED_CATEGORY))
    else if s.categories[c].user != requester then Err(ValidationError("category", NOT_CATEGORY_OWNER))
    else Ok(c)
  }

  /** The goal-create `category` field: the key is looked up among the
      categories that are not deleted, then `validate_category` runs. */
  function GoalCreateCategory(s: Store, requester: UserId, c: CategoryId): (r: Result<CategoryId>)
    ensures r.Ok? <==> c in s.categories && !s.categories[c].isDeleted && s.categories[c].user == requester
    ensures r.Ok? ==> r.value == c
    ensures r.Err? ==> r.error.ValidationError? && r.error.field == "category"
  {
    if c !in s.categories || s.categories[c].isDeleted then Err(ValidationError("category", DOES_NOT_EXIST))
    else ValidateCreateCategory(s, requester, c)
  }

  /** The roster is never consulted on goal creation: only the category's
      author may create a goal in it, whatever role anyone has on its board. */
  lemma GoalCreateIgnoresRoles(s: Store, s': Store, requester: UserId, c: CategoryId)
    requires s'.categories == s.categories
    ensures GoalCreateCategory(s, requester, c) == GoalCreateCategory(s', requester, c)
    ensures (c in s.categories && s.categories[c].user != requester
               && HasRole(s, requester, s.categories[c].board, {Owner}))
              ==> GoalCreateCategory(s, requester, c).Err?
  {
  }

  /** `GoalCreateSerializer.validate_due_date` on the day `today`. */
  function ValidateDueDate(due: Option<Date>, today: Date): (r: Result<Option<Date>>)
    ensures due.None? ==> r == Ok(None)
    ensures due.Some? && due.value < today ==> r == Err(ValidationError("due_date", DUE_DATE_IN_PAST))
    ensures due.Some? && today <= due.value ==> r == Ok(due)
  {
    if due.Some? && due.value < today then Err(ValidationError("due_date", DUE_DATE_IN_PAST))
    else Ok(due)
  }

  /** `GoalSerializer.validate_category`, for a goal update: the key is looked
      up among all categories and only a deleted one is rejected. */
  function GoalUpdateCategory(s: Store, c: CategoryId): (r: Result<CategoryId>)
    ensures r.Ok? <==> c in s.categories && !s.categories[c].isDeleted
    ensures r.Ok? ==> r.value == c
    ensures c in s.categories && s.categories[c].isDeleted ==> r == Err(ValidationError("category", DELETED_CATEGORY))
    ensures c !in s.categories ==> r == Err(ValidationError("category", DOES_NOT_EXIST))
  {
    if c !in s.categories then Err(ValidationError("category", DOES_NOT_EXIST))
    else if s.categories[c].isDeleted then Err(ValidationError("category", DELETED_CATEGORY))
    else Ok(c)
  }

  /** `GoalCommentCreateSerializer.validate_goal`, given a goal that exists. */
  function ValidateCommentGoal(s: Store, requester: UserId, g: GoalId): (r: Result<GoalId>)
    requires WellFormed(s) && g in s.goals
    ensures s.goals[g].status == Archived ==> r == Err(ValidationError("goal", GOAL_NOT_FOUND))
    ensures (s.goals[g].status != Archived && !HasRole(s, requester, BoardOfGoal(s, g), {Owner, Writer}))
              ==> r == Err(PermissionDenied)
    ensures r.Ok? <==> s.goals[g].status != Archived && HasRole(s, requester, BoardOfGoal(s, g), {Owner, Writer})
    ensures r.Ok? ==> r.value == g
  {
    if s.goals[g].status == Archived then Err(ValidationError("goal", GOAL_NOT_FOUND))
    else if !HasRole(s, requester, s.categories[s.goals[g].category].board, {Owner, Writer}) then Err(PermissionDenied)
    else Ok(g)
  }

  /** The comment-create `goal` field: the key is looked up among all goals,
      then `validate_goal` runs. */
  function CommentCreateGoal(s: Store, requester: UserId, g: GoalId): (r: Result<GoalId>)
    requires WellFormed(s)
    ensures r.Ok? <==> g in s.goals && s.goals[g].status != Archived
                       && HasRole(s, requester, BoardOfGoal(s, g), {Owner, Writer})
    ensures r.Ok? ==> r.value == g
    ensures r == Err(PermissionDenied) ==> g in s.goals && s.goals[g].status != Archived
  {
    if g !in s.goals then Err(ValidationError("goal", DOES_NOT_EXIST))
    else ValidateCommentGoal(s, requester, g)
  }

  /** A requester whose only rows on the goal's board are reader rows cannot comment. */
  lemma ReaderCannotComment(s: Store, requester: UserId, g: GoalId)
    requires WellFormed(s) && g in s.goals
    requires forall p :: (p in s.participants && s.participants[p].user == requester
                          && s.participants[p].board == BoardOfGoal(s, g)) ==> s.participants[p].role == Reader
    ensures CommentCreateGoal(s, requester, g).Err?
  {
  }

  /** The roster's `role` field, a choice among `ROSTER_ROLE_CHOICES`. */
  function RosterRole(role: Role): (r: Result<Role>)
    ensures r.Ok? <==> role in ROSTER_ROLE_CHOICES
    ensures r.Ok? ==> r.value == role
    ensures r.Err? ==> r.error == ValidationError("role", NOT_A_CHOICE)
  {
    if role in ROSTER_ROLE_CHOICES then Ok(role) else Err(ValidationError("role", NOT_A_CHOICE))
  }

  /** The first declared role, owner, can never be assigned through a roster
      edit; every other role can. */
  lemma RosterRoleExcludesOwner(role: Role)
    ensures RosterRole(role).Ok? <==> role != Owner
  {
  }
}
