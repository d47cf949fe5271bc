/** The goal tracker's tables as values: boards, their participant roster,
    goal categories, goals and goal comments, each a map from row id to row.
    Row ids are the tables' auto-increment primary keys. */
module Model {

  type UserId = nat
  type BoardId = nat
  type ParticipantId = nat
  type CategoryId = nat
  type GoalId = nat
  type CommentId = nat

  /** A calendar date, as a day number. */
  type Date = int

  datatype Option<T> = None | Some(value: T)

  /** Roles of a board participant, in their declared order. */
  datatype Role = Owner | Writer | Reader

  /** The role choices in declaration order (`BoardParticipant.Role.choices`). */
  const ROLE_CHOICES: seq<Role> := [Owner, Writer, Reader]

  /** The role a participant row gets when none is given. */
  const DEFAULT_ROLE: Role := Owner

  datatype Status = ToDo | InProgress | Done | Archived

  datatype Board = Board(title: string, isDeleted: bool)

  datatype Participant = Participant(board: BoardId, user: UserId, role: Role)

  datatype Category = Category(board: BoardId, user: UserId, title: string, isDeleted: bool)

  datatype Goal = Goal(category: CategoryId, user: UserId, title: string, status: Status, dueDate: Option<Date>)

  datatype Comment = Comment(goal: GoalId, user: UserId, text: string)

  datatype Store = Store(
    boards: map<BoardId, Board>,
    participants: map<ParticipantId, Participant>,
    categories: map<CategoryId, Category>,
    goals: map<GoalId, Goal>,
    comments: map<CommentId, Comment>)

  /** The errors the serializers and views raise, by kind. */
  datatype Error =
    | ValidationError(field: string, message: string)
    | PermissionDenied
    | AuthenticationFailed
    /** A lookup of a key the data lacks, which the code does not catch: the
        request fails as a server error. */
    | KeyMissing(key: string)

  datatype Result<T> = Ok(value: T) | Err(error: Error)

  /** Every foreign key points at an existing row (the database's referential integrity). */
  predicate WellFormed(s: Store) {
    && (forall p :: p in s.participants ==> s.participants[p].board in s.boards)
    && (forall c :: c in s.categories ==> s.categories[c].board in s.boards)
    && (forall g :: g in s.goals ==> s.goals[g].category in s.categories)
    && (forall m :: m in s.comments ==> s.comments[m].goal in s.goals)
  }

  /** The board a goal belongs to, through its category. */
  function BoardOfGoal(s: Store, g: GoalId): (b: BoardId)
    requires WellFormed(s) && g in s.goals
    ensures b in s.boards
  {
    s.categories[s.goals[g].category].board
  }

  /** No active child under an inactive parent: every category of a deleted
      board is deleted and every goal of a deleted category is archived. */
  predicate Consistent(s: Store) {
    && (forall c :: c in s.categories && s.categories[c].board in s.boards && s.boards[s.categories[c].board].isDeleted
          ==> s.categories[c].isDeleted)
    && (forall g :: g in s.goals && s.goals[g].category in s.categories && s.categories[s.goals[g].category].isDeleted
          ==> s.goals[g].status == Archived)
  }

  /** Whether user `u` has a participant row on board `b`. */
  predicate Participates(s: Store, u: UserId, b: BoardId) {
    exists p :: p in s.participants && s.participants[p].board == b && s.participants[p].user == u
  }

  /** Whether user `u` has a participant row on board `b` with one of the roles `roles`. */
  predicate HasRole(s: Store, u: UserId, b: BoardId, roles: set<Role>) {
    exists p :: p in s.participants && s.participants[p].board == b && s.participants[p].user == u
                && s.participants[p].role in roles
  }
}
