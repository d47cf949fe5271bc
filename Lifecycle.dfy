/** The writes of the goal views and serializers: the soft-delete cascades of
    `perform_destroy`, board creation with its first participant, the create
    views of categories, goals and comments, and the roster replacement of
    `BoardSerializer.update`. Each write is a pure function on `Store`
    (stating the new tables) and a method of `Database` that updates the
    tables in place and is proved to produce exactly that function's result. */
module Lifecycle {
  import opened Model
  import opened Queries
  import opened Validators

  /** Goal `g` lies on board `b` through its category. */
  predicate OnBoard(s: Store, g: GoalId, b: BoardId)
    requires g in s.goals
  {
    s.goals[g].category in s.categories && s.categories[s.goals[g].category].board == b
  }

  /** A submitted roster entry: a user and their role. */
  datatype RosterEntry = RosterEntry(user: UserId, role: Role)

  // ---------------------------------------------------------------------------
  // The new tables after each write
  // ---------------------------------------------------------------------------

  /** `BoardView.perform_destroy`: the board, all its categories and every goal
      under them are soft-deleted; nothing else is written. */
  function BoardDestroyed(s: Store, b: BoardId): (t: Store)
    requires b in s.boards
    ensures t.boards.Keys == s.boards.Keys && t.boards[b] == s.boards[b].(isDeleted := true)
    ensures forall x :: x in s.boards && x != b ==> t.boards[x] == s.boards[x]
    ensures t.categories.Keys == s.categories.Keys
    ensures forall c :: c in s.categories && s.categories[c].board == b ==> t.categories[c].isDeleted
    ensures forall c :: c in s.categories && s.categories[c].board != b ==> t.categories[c] == s.categories[c]
    ensures forall c :: c in s.categories ==> t.categories[c].(isDeleted := s.categories[c].isDeleted) == s.categories[c]
    ensures t.goals.Keys == s.goals.Keys
    ensures forall g :: g in s.goals && OnBoard(s, g, b) ==> t.goals[g].status == Archived
    ensures forall g :: g in s.goals && !OnBoard(s, g, b) ==> t.goals[g] == s.goals[g]
    ensures forall g :: g in s.goals ==> t.goals[g].(status := s.goals[g].status) == s.goals[g]
    ensures t.participants == s.participants && t.comments == s.comments
  {
    var categories := CategoriesFlagged(s.categories, b);
    s.(boards := s.boards[b := s.boards[b].(isDeleted := true)],
       categories := categories,
       goals := GoalsArchivedOnBoard(s.goals, categories, b))
  }

  /** The bulk update flagging every category of board `b` as deleted. */
  function CategoriesFlagged(categories: map<CategoryId, Category>, b: BoardId): (t: map<CategoryId, Category>)
    ensures t.Keys == categories.Keys
    ensures forall c :: c in categories && categories[c].board == b ==> t[c] == categories[c].(isDeleted := true)
    ensures forall c :: c in categories && categories[c].board != b ==> t[c] == categories[c]
  {
    map c | c in categories :: if categories[c].board == b then categories[c].(isDeleted := true) else categories[c]
  }

  /** The bulk update archiving every goal whose category lies on board `b`. */
  function GoalsArchivedOnBoard(goals: map<GoalId, Goal>, categories: map<CategoryId, Category>, b: BoardId): (t: map<GoalId, Goal>)
    ensures t.Keys == goals.Keys
    ensures forall g :: (g in goals && goals[g].category in categories && categories[goals[g].category].board == b)
              ==> t[g] == goals[g].(status := Archived)
    ensures forall g :: (g in goals && !(goals[g].category in categories && categories[goals[g].category].board == b))
              ==> t[g] == goals[g]
  {
    map g | g in goals ::
      if goals[g].category in categories && categories[goals[g].category].board == b
      then goals[g].(status := Archived) else goals[g]
  }

  /** The bulk update archiving every goal of category `c`. */
  function GoalsArchivedInCategory(goals: map<GoalId, Goal>, c: CategoryId): (t: map<GoalId, Goal>)
    ensures t.Keys == goals.Keys
    ensures forall g :: g in goals && goals[g].category == c ==> t[g] == goals[g].(status := Archived)
    ensures forall g :: g in goals && goals[g].category != c ==> t[g] == goals[g]
  {
    map g | g in goals :: if goals[g].category == c then goals[g].(status := Archived) else goals[g]
  }

  /** `GoalCategoryView.perform_destroy`: the category is soft-deleted and its
      goals archived; its sibling categories and their goals are untouched. */
  function CategoryDestroyed(s: Store, c: CategoryId): (t: Store)
    requires c in s.categories
    ensures t.categories.Keys == s.categories.Keys && t.categories[c] == s.categories[c].(isDeleted := true)
    ensures forall x :: x in s.categories && x != c ==> t.categories[x] == s.categories[x]
    ensures t.goals.Keys == s.goals.Keys
    ensures forall g :: g in s.goals && s.goals[g].category == c ==> t.goals[g] == s.goals[g].(status := Archived)
    ensures forall g :: g in s.goals && s.goals[g].category != c ==> t.goals[g] == s.goals[g]
    ensures t.boards == s.boards && t.participants == s.participants && t.comments == s.comments
  {
    s.(categories := s.categories[c := s.categories[c].(isDeleted := true)],
       goals := GoalsArchivedInCategory(s.goals, c))
  }

  /** `GoalView.perform_destroy`: the goal row is kept and only its status
      becomes archived; destroying an archived goal changes nothing. */
  function GoalDestroyed(s: Store, g: GoalId): (t: Store)
    requires g in s.goals
    ensures t.goals.Keys == s.goals.Keys && t.goals[g].status == Archived
    ensures t.goals[g].(status := s.goals[g].status) == s.goals[g]
    ensures forall x :: x in s.goals && x != g ==> t.goals[x] == s.goals[x]
    ensures t.boards == s.boards && t.participants == s.participants
    ensures t.categories == s.categories && t.comments == s.comments
    ensures s.goals[g].status == Archived ==> t == s
  {
    s.(goals := s.goals[g := s.goals[g].(status := Archived)])
  }

  /** `BoardCreateView.perform_create`: the board row `b` and one participant
      row `p` linking the creator to it with the default role. */
  function BoardCreated(s: Store, b: BoardId, p: ParticipantId, title: string, isDeleted: bool, user: UserId): (t: Store)
    requires WellFormed(s) && b !in s.boards && p !in s.participants
    ensures WellFormed(t)
    ensures t.boards.Keys == s.boards.Keys + {b} && t.boards[b] == Board(title, isDeleted)
    ensures forall x :: x in s.boards ==> t.boards[x] == s.boards[x]
    ensures t.participants.Keys == s.participants.Keys + {p} && t.participants[p] == Participant(b, user, DEFAULT_ROLE)
    ensures forall q :: q in t.participants && t.participants[q].board == b ==> q == p
    ensures forall q :: q in s.participants ==> t.participants[q] == s.participants[q]
    ensures t.categories == s.categories && t.goals == s.goals && t.comments == s.comments
  {
    s.(boards := s.boards[b := Board(title, isDeleted)],
       participants := s.participants[p := Participant(b, user, DEFAULT_ROLE)])
  }

  /** The category-create `board` field: a key among all boards. No check of
      the board's `is_deleted` flag is made. */
  function CategoryCreateBoard(s: Store, b: BoardId): (r: Result<BoardId>)
    ensures r.Ok? <==> b in s.boards
    ensures r.Ok? ==> r.value == b
    ensures r.Err? ==> r == Err(ValidationError("board", DOES_NOT_EXIST))
  {
    if b in s.boards then Ok(b) else Err(ValidationError("board", DOES_NOT_EXIST))
  }

  /** `GoalCategoryCreateView`: a new category row, authored by the requester, not deleted. */
  function CategoryCreated(s: Store, c: CategoryId, requester: UserId, b: BoardId, title: string): (t: Store)
    requires c !in s.categories
    ensures t.categories.Keys == s.categories.Keys + {c}
    ensures t.categories[c] == Category(b, requester, title, false)
    ensures forall x :: x in s.categories ==> t.categories[x] == s.categories[x]
    ensures t.boards == s.boards && t.participants == s.participants
    ensures t.goals == s.goals && t.comments == s.comments
  {
    s.(categories := s.categories[c := Category(b, requester, title, false)])
  }

  /** `GoalCreateView`: a new goal row authored by the requester. */
  function GoalCreated(s: Store, g: GoalId, requester: UserId, c: CategoryId, title: string,
                       status: Status, due: Option<Date>): (t: Store)
    requires g !in s.goals
    ensures t.goals.Keys == s.goals.Keys + {g}
    ensures t.goals[g] == Goal(c, requester, title, status, due)
    ensures forall x :: x in s.goals ==> t.goals[x] == s.goals[x]
    ensures t.boards == s.boards && t.participants == s.participants
    ensures t.categories == s.categories && t.comments == s.comments
  {
    s.(goals := s.goals[g := Goal(c, requester, title, status, due)])
  }

  /** `GoalCommentCreateView`: a new comment row authored by the requester. */
  function CommentCreated(s: Store, m: CommentId, requester: UserId, g: GoalId, text: string): (t: Store)
    requires m !in s.comments
    ensures t.comments.Keys == s.comments.Keys + {m}
    ensures t.comments[m] == Comment(g, requester, text)
    ensures forall x :: x in s.comments ==> t.comments[x] == s.comments[x]
    ensures t.boards == s.boards && t.participants == s.participants
    ensures t.categories == s.categories && t.goals == s.goals
  {
    s.(comments := s.comments[m := Comment(g, requester, text)])
  }

  /** The participant rows kept by a roster replacement: those of other boards
      and the requester's own rows on board `b`. */
  function KeptRows(rows: map<ParticipantId, Participant>, b: BoardId, requester: UserId): (kept: map<ParticipantId, Participant>)
    ensures forall p :: p in kept <==> p in rows && (rows[p].board != b || rows[p].user == requester)
    ensures forall p :: p in kept ==> kept[p] == rows[p]
  {
    map p | p in rows && (rows[p].board != b || rows[p].user == requester) :: rows[p]
  }

  /** The rows bulk-inserted for `entries` on board `b`, one per entry, in
      order, at ids `from`, `from + 1`, .... */
  function NewRows(b: BoardId, entries: seq<RosterEntry>, from: nat): (rows: map<ParticipantId, Participant>)
    ensures forall p :: p in rows <==> from <= p < from + |entries|
    ensures forall p :: p in rows ==> rows[p].board == b
    ensures forall i :: 0 <= i < |entries| ==>
              from + i in rows && rows[from + i] == Participant(b, entries[i].user, entries[i].role)
    decreases |entries|
  {
    if entries == [] then map[]
    else
      var n := |entries| - 1;
      NewRows(b, entries[..n], from)[from + n := Participant(b, entries[n].user, entries[n].role)]
  }

  /** The entries of a roster submission; an omitted `participants` key counts as empty. */
  function Entries(participants: Option<seq<RosterEntry>>): (entries: seq<RosterEntry>)
    ensures participants.None? ==> entries == []
    ensures participants.Some? ==> entries == participants.value
  {
    if participants.Some? then participants.value else []
  }

  /** Whether a submitted title renames the board: only a non-empty one does. */
  predicate Renames(title: Option<string>) {
    title.Some? && title.value != ""
  }

  /** `BoardSerializer.update`: board `b`'s participants become the requester's
      prior rows plus one row per submitted entry (new ids from `from` on);
      the board is renamed only when a non-empty title is given. */
  function RosterUpdated(s: Store, b: BoardId, requester: UserId, entries: seq<RosterEntry>,
                         title: Option<string>, from: nat): (t: Store)
    requires b in s.boards
    requires forall p :: p in s.participants ==> p < from
    ensures forall p :: p in t.participants <==> p in KeptRows(s.participants, b, requester) || from <= p < from + |entries|
    ensures forall p :: p in s.participants && s.participants[p].board != b ==> p in t.participants && t.participants[p] == s.participants[p]
    ensures forall p :: p in s.participants && s.participants[p].board == b ==>
              (p in t.participants <==> s.participants[p].user == requester)
    ensures forall p :: p in s.participants && p in t.participants ==> t.participants[p] == s.participants[p]
    ensures forall i :: 0 <= i < |entries| ==> t.participants[from + i] == Participant(b, entries[i].user, entries[i].role)
    ensures forall p :: p in t.participants && p !in s.participants ==> t.participants[p].board == b
    ensures t.boards.Keys == s.boards.Keys
    ensures t.boards[b].title == (if Renames(title) then title.value else s.boards[b].title)
    ensures t.boards[b].isDeleted == s.boards[b].isDeleted
    ensures forall x :: x in s.boards && x != b ==> t.boards[x] == s.boards[x]
    ensures t.categories == s.categories && t.goals == s.goals && t.comments == s.comments
  {
    var boards := if Renames(title) then s.boards[b := s.boards[b].(title := title.value)] else s.boards;
    s.(participants := RosterReplaced(s.participants, b, requester, entries, from), boards := boards)
  }

  /** The participants table after the delete and the bulk insert of a roster replacement. */
  function RosterReplaced(rows: map<ParticipantId, Participant>, b: BoardId, requester: UserId,
                          entries: seq<RosterEntry>, from: nat): (t: map<ParticipantId, Participant>)
    requires forall p :: p in rows ==> p < from
    ensures forall p :: p in rows && (rows[p].board != b || rows[p].user == requester) ==> p in t && t[p] == rows[p]
    ensures forall p :: p in rows && rows[p].board == b && rows[p].user != requester ==> p !in t
    ensures forall i :: 0 <= i < |entries| ==> from + i in t && t[from + i] == Participant(b, entries[i].user, entries[i].role)
    ensures forall p :: p in t ==> p in rows || from <= p < from + |entries|
  {
    KeptRows(rows, b, requester) + NewRows(b, entries, from)
  }

  // ---------------------------------------------------------------------------
  // What the writes mean for the querysets and the store's invariants
  // ---------------------------------------------------------------------------

  /** After a board delete, neither the board, nor any of its categories, nor
      any goal under them is visible to anyone; a second delete finds nothing. */
  lemma BoardDestroyedHidesEverything(s: Store, b: BoardId, u: UserId)
    requires WellFormed(s) && b in s.boards
    ensures b !in BoardDetailQuery(BoardDestroyed(s, b)) && b !in BoardListQuery(BoardDestroyed(s, b), u)
    ensures forall c :: c in s.categories && s.categories[c].board == b ==> c !in CategoryQuery(BoardDestroyed(s, b), u)
    ensures forall g :: g in s.goals && OnBoard(s, g, b) ==> g !in GoalQuery(BoardDestroyed(s, b), u)
  {
  }

  /** After a category delete, neither it nor any of its goals is visible. */
  lemma CategoryDestroyedHidesGoals(s: Store, c: CategoryId, u: UserId)
    requires c in s.categories
    ensures c !in CategoryQuery(CategoryDestroyed(s, c), u)
    ensures forall g :: g in s.goals && s.goals[g].category == c ==> g !in GoalQuery(CategoryDestroyed(s, c), u)
  {
  }

  /** After a goal delete the goal is neither listed nor fetched. */
  lemma GoalDestroyedHidesGoal(s: Store, g: GoalId, u: UserId)
    requires g in s.goals
    ensures g !in GoalQuery(GoalDestroyed(s, g), u)
  {
  }

  lemma BoardDestroyedWellFormed(s: Store, b: BoardId)
    requires WellFormed(s) && b in s.boards
    ensures WellFormed(BoardDestroyed(s, b))
  {
  }

  lemma RosterUpdatedWellFormed(s: Store, b: BoardId, requester: UserId, entries: seq<RosterEntry>,
                                title: Option<string>, from: nat)
    requires WellFormed(s) && b in s.boards && forall p :: p in s.participants ==> p < from
    ensures WellFormed(RosterUpdated(s, b, requester, entries, title, from))
    ensures forall p :: p in RosterUpdated(s, b, requester, entries, title, from).participants ==> p < from + |entries|
  {
  }

  /** The three cascades keep "no active child under an inactive parent". */
  lemma BoardDestroyedConsistent(s: Store, b: BoardId)
    requires Consistent(s) && b in s.boards
    ensures Consistent(BoardDestroyed(s, b))
  {
  }

  lemma CategoryDestroyedConsistent(s: Store, c: CategoryId)
    requires Consistent(s) && c in s.categories
    ensures Consistent(CategoryDestroyed(s, c))
  {
  }

  lemma GoalDestroyedConsistent(s: Store, g: GoalId)
    requires Consistent(s) && g in s.goals
    ensures Consistent(GoalDestroyed(s, g))
  {
  }

  /** Goal creation passes only for a category that is not deleted, so it keeps the invariant. */
  lemma GoalCreatedConsistent(s: Store, g: GoalId, requester: UserId, c: CategoryId, title: string,
                              status: Status, due: Option<Date>)
    requires Consistent(s) && g !in s.goals && GoalCreateCategory(s, requester, c).Ok?
    ensures Consistent(GoalCreated(s, g, requester, c, title, status, due))
  {
  }

  lemma BoardCreatedConsistent(s: Store, b: BoardId, p: ParticipantId, title: string, isDeleted: bool, user: UserId)
    requires WellFormed(s) && Consistent(s) && b !in s.boards && p !in s.participants
    ensures Consistent(BoardCreated(s, b, p, title, isDeleted, user))
  {
  }

  lemma RosterUpdatedConsistent(s: Store, b: BoardId, requester: UserId, entries: seq<RosterEntry>,
                                title: Option<string>, from: nat)
    requires Consistent(s) && b in s.boards && forall p :: p in s.participants ==> p < from
    ensures Consistent(RosterUpdated(s, b, requester, entries, title, from))
  {
  }

  /** Category creation does not look at the board's `is_deleted` flag: a new,
      active category can appear under a deleted board, and the invariant
      "no active child under an inactive parent" no longer holds. */
  lemma CategoryCreatedUnderDeletedBoard(s: Store, c: CategoryId, requester: UserId, b: BoardId, title: string)
    requires c !in s.categories && b in s.boards && s.boards[b].isDeleted
    ensures CategoryCreateBoard(s, b).Ok?
    ensures !Consistent(CategoryCreated(s, c, requester, b, title))
  {
    var t := CategoryCreated(s, c, requester, b, title);
    assert c in t.categories && t.categories[c].board in t.boards && t.boards[t.categories[c].board].isDeleted;
  }

  /** The creator of a board that is not deleted finds it in their board list,
      and is its only participant, as its owner. */
  lemma BoardCreatedListed(s: Store, b: BoardId, p: ParticipantId, title: string, user: UserId)
    requires WellFormed(s) && b !in s.boards && p !in s.participants
    ensures b in BoardListQuery(BoardCreated(s, b, p, title, false, user), user)
    ensures HasRole(BoardCreated(s, b, p, title, false, user), user, b, {Owner})
    ensures forall u :: Participates(BoardCreated(s, b, p, title, false, user), u, b) ==> u == user
  {
    var t := BoardCreated(s, b, p, title, false, user);
    assert t.participants[p].board == b && t.participants[p].user == user;
  }

  /** A roster edit cannot add an owner: when every submitted role passed the
      role field, every owner row of the board afterwards is one of the
      requester's prior rows. */
  lemma {:induction false} RosterAddsNoOwner(s: Store, b: BoardId, requester: UserId, entries: seq<RosterEntry>,
                                             title: Option<string>, from: nat)
    requires b in s.boards && forall p :: p in s.participants ==> p < from
    requires forall i :: 0 <= i < |entries| ==> RosterRole(entries[i].role).Ok?
    ensures forall p :: p in RosterUpdated(s, b, requester, entries, title, from).participants
              && RosterUpdated(s, b, requester, entries, title, from).participants[p].board == b
              && RosterUpdated(s, b, requester, entries, title, from).participants[p].role == Owner
              ==> p in s.participants && s.participants[p].user == requester
  {
    var t := RosterUpdated(s, b, requester, entries, title, from);
    forall p | p in t.participants && t.participants[p].board == b && t.participants[p].role == Owner
      ensures p in s.participants && s.participants[p].user == requester
    {
      if p !in s.participants {
        var i := p - from;
        RosterRoleExcludesOwner(entries[i].role);
      }
    }
  }

  /** The requester keeps their rows, so a requester on the board stays on it
      and, when the `participants` key is omitted, is the only one left. */
  lemma RosterKeepsRequester(s: Store, b: BoardId, requester: UserId, participants: Option<seq<RosterEntry>>,
                             title: Option<string>, from: nat)
    requires b in s.boards && forall p :: p in s.participants ==> p < from
    ensures Participates(s, requester, b) ==> Participates(RosterUpdated(s, b, requester, Entries(participants), title, from), requester, b)
    ensures participants.None? ==>
              forall u :: Participates(RosterUpdated(s, b, requester, Entries(participants), title, from), u, b) ==> u == requester
  {
    var t := RosterUpdated(s, b, requester, Entries(participants), title, from);
    if Participates(s, requester, b) {
      var p :| p in s.participants && s.participants[p].board == b && s.participants[p].user == requester;
      assert p in t.participants;
    }
  }

  /** The list comprehension of `BoardSerializer.update`: one participant row
      per submitted entry, in order, numbered from `from` as the bulk insert
      numbers them. */
  method BuildRows(b: BoardId, entries: seq<RosterEntry>, from: nat) returns (added: map<ParticipantId, Participant>)
    ensures added == NewRows(b, entries, from)
  {
    added := map[];
    var i := 0;
    while i < |entries|
      invariant 0 <= i <= |entries|
      invariant added == NewRows(b, entries[..i], from)
    {
      assert entries[..i + 1][..i] == entries[..i];
      added := added[from + i := Participant(b, entries[i].user, entries[i].role)];
      i := i + 1;
    }
    assert entries[..i] == entries;
  }

  /** The next id of each table. */
  datatype Counters = Counters(board: nat, participant: nat, category: nat, goal: nat, comment: nat)

  /** Foreign keys hold and every id is below its table's counter. */
  predicate Sound(s: Store, n: Counters) {
    && WellFormed(s)
    && (forall b :: b in s.boards ==> b < n.board)
    && (forall p :: p in s.participants ==> p < n.participant)
    && (forall c :: c in s.categories ==> c < n.category)
    && (forall g :: g in s.goals ==> g < n.goal)
    && (forall m :: m in s.comments ==> m < n.comment)
  }

  lemma BoardDestroyedSound(s: Store, n: Counters, b: BoardId)
    requires Sound(s, n) && b in s.boards
    ensures Sound(BoardDestroyed(s, b), n)
  {
    BoardDestroyedWellFormed(s, b);
  }

  lemma RosterReplacedSound(s: Store, n: Counters, b: BoardId, requester: UserId, entries: seq<RosterEntry>)
    requires Sound(s, n) && b in s.boards
    ensures Sound(s.(participants := RosterReplaced(s.participants, b, requester, entries, n.participant)),
                  n.(participant := n.participant + |entries|))
  {
  }

  // ---------------------------------------------------------------------------
  // The tables, updated in place
  // ---------------------------------------------------------------------------

  /** The five tables and their auto-increment counters. */
  class Database {
    var boards: map<BoardId, Board>
    var participants: map<ParticipantId, Participant>
    var categories: map<CategoryId, Category>
    var goals: map<GoalId, Goal>
    var comments: map<CommentId, Comment>
    var nextBoard: nat
    var nextParticipant: nat
    var nextCategory: nat
    var nextGoal: nat
    var nextComment: nat

    /** The tables as one value. */
    function State(): Store
      reads this
    {
      Store(boards, participants, categories, goals, comments)
    }

    /** The counters as one value. */
    function Next(): Counters
      reads this
    {
      Counters(nextBoard, nextParticipant, nextCategory, nextGoal, nextComment)
    }

    ghost predicate Valid()
      reads this
    {
      Sound(State(), Next())
    }

    constructor ()
      ensures Valid() && State() == Store(map[], map[], map[], map[], map[])
    {
      boards, participants, categories, goals, comments := map[], map[], map[], map[], map[];
      nextBoard, nextParticipant, nextCategory, nextGoal, nextComment := 0, 0, 0, 0, 0;
    }

    /** `BoardView.perform_destroy`, one transaction: flag the board, then all
        its categories, then archive every goal whose category is on the board. */
    method DestroyBoard(b: BoardId)
      requires Valid() && b in boards
      modifies this`boards, this`categories, this`goals
      ensures Valid() && State() == BoardDestroyed(old(State()), b)
    {
      boards := boards[b := boards[b].(isDeleted := true)];
      categories := CategoriesFlagged(categories, b);
      goals := GoalsArchivedOnBoard(goals, categories, b);
      BoardDestroyedSound(old(State()), Next(), b);
    }

    /** `GoalCategoryView.perform_destroy`, one transaction: flag the category,
        then archive its goals. */
    method DestroyCategory(c: CategoryId)
      requires Valid() && c in categories
      modifies this`categories, this`goals
      ensures Valid() && State() == CategoryDestroyed(old(State()), c)
    {
      categories := categories[c := categories[c].(isDeleted := true)];
      goals := GoalsArchivedInCategory(goals, c);
    }

    /** `GoalView.perform_destroy`: write the archived status. */
    method DestroyGoal(g: GoalId)
      requires Valid() && g in goals
      modifies this`goals
      ensures Valid() && State() == GoalDestroyed(old(State()), g)
    {
      goals := goals[g := goals[g].(status := Archived)];
    }

    /** `BoardCreateView.perform_create`: save the board, then add the creator's participant row. */
    method CreateBoard(title: string, isDeleted: bool, user: UserId) returns (b: BoardId)
      requires Valid()
      modifies this`boards, this`participants, this`nextBoard, this`nextParticipant
      ensures Valid() && b == old(nextBoard)
      ensures nextBoard == old(nextBoard) + 1 && nextParticipant == old(nextParticipant) + 1
      ensures State() == BoardCreated(old(State()), b, old(nextParticipant), title, isDeleted, user)
    {
      b := nextBoard;
      boards := boards[b := Board(title, isDeleted)];
      nextBoard := nextBoard + 1;
      participants := participants[nextParticipant := Participant(b, user, DEFAULT_ROLE)];
      nextParticipant := nextParticipant + 1;
    }

    /** `GoalCategoryCreateView`: resolve the board key, then insert. */
    method CreateCategory(requester: UserId, b: BoardId, title: string) returns (r: Result<CategoryId>)
      requires Valid()
      modifies this`categories, this`nextCategory
      ensures Valid()
      ensures r.Err? <==> CategoryCreateBoard(old(State()), b).Err?
      ensures r.Err? ==> CategoryCreateBoard(old(State()), b) == Err(r.error) && State() == old(State())
      ensures r.Err? ==> nextCategory == old(nextCategory)
      ensures r.Ok? ==> nextCategory == old(nextCategory) + 1
      ensures r.Ok? ==> r.value == old(nextCategory) && State() == CategoryCreated(old(State()), r.value, requester, b, title)
    {
      var checked := CategoryCreateBoard(State(), b);
      if checked.Err? {
        return Err(checked.error);
      }
      var c := nextCategory;
      categories := categories[c := Category(b, requester, title, false)];
      nextCategory := nextCategory + 1;
      r := Ok(c);
    }

    /** `GoalCreateView`: check the category, then the due date, then insert. */
    method CreateGoal(requester: UserId, c: CategoryId, title: string, status: Status,
                      due: Option<Date>, today: Date) returns (r: Result<GoalId>)
      requires Valid()
      modifies this`goals, this`nextGoal
      ensures Valid()
      ensures GoalCreateCategory(old(State()), requester, c).Err? ==> r == Err(GoalCreateCategory(old(State()), requester, c).error)
      ensures (GoalCreateCategory(old(State()), requester, c).Ok? && ValidateDueDate(due, today).Err?)
                ==> r == Err(ValidateDueDate(due, today).error)
      ensures r.Err? ==> State() == old(State()) && nextGoal == old(nextGoal)
      ensures r.Ok? ==> nextGoal == old(nextGoal) + 1
      ensures r.Ok? <==> GoalCreateCategory(old(State()), requester, c).Ok? && ValidateDueDate(due, today).Ok?
      ensures r.Ok? ==> r.value == old(nextGoal) && State() == GoalCreated(old(State()), r.value, requester, c, title, status, due)
    {
      var category := GoalCreateCategory(State(), requester, c);
      if category.Err? {
        return Err(category.error);
      }
      var dueDate := ValidateDueDate(due, today);
      if dueDate.Err? {
        return Err(dueDate.error);
      }
      var g := nextGoal;
      goals := goals[g := Goal(c, requester, title, status, due)];
      nextGoal := nextGoal + 1;
      r := Ok(g);
    }

    /** `GoalCommentCreateView`: check the goal, then insert. */
    method CreateComment(requester: UserId, g: GoalId, text: string) returns (r: Result<CommentId>)
      requires Valid()
      modifies this`comments, this`nextComment
      ensures Valid()
      ensures CommentCreateGoal(old(State()), requester, g).Err? ==> r == Err(CommentCreateGoal(old(State()), requester, g).error)
      ensures r.Err? ==> State() == old(State()) && nextComment == old(nextComment)
      ensures r.Ok? ==> nextComment == old(nextComment) + 1
      ensures r.Ok? <==> CommentCreateGoal(old(State()), requester, g).Ok?
      ensures r.Ok? ==> r.value == old(nextComment) && State() == CommentCreated(old(State()), r.value, requester, g, text)
    {
      var goal := CommentCreateGoal(State(), requester, g);
      if goal.Err? {
        return Err(goal.error);
      }
      var m := nextComment;
      comments := comments[m := Comment(g, requester, text)];
      nextComment := nextComment + 1;
      r := Ok(m);
    }

    /** `BoardSerializer.update`, one transaction: replace the roster, then
        rename the board if a non-empty title was given. */
    method UpdateBoard(b: BoardId, requester: UserId, submitted: Option<seq<RosterEntry>>, title: Option<string>)
      requires Valid() && b in boards
      modifies this`participants, this`nextParticipant, this`boards
      ensures Valid()
      ensures nextParticipant == old(nextParticipant) + |Entries(submitted)|
      ensures State() == RosterUpdated(old(State()), b, requester, Entries(submitted), title, old(nextParticipant))
    {
      ReplaceRoster(b, requester, Entries(submitted));
      if Renames(title) {
        Rename(b, title.value);
      }
    }

    /** Delete the board's rows of everyone but the requester, then bulk-insert
        one row per entry. */
    method ReplaceRoster(b: BoardId, requester: UserId, entries: seq<RosterEntry>)
      requires Valid() && b in boards
      modifies this`participants, this`nextParticipant
      ensures Valid()
      ensures nextParticipant == old(nextParticipant) + |entries|
      ensures State() == old(State()).(participants := RosterReplaced(old(participants), b, requester, entries, old(nextParticipant)))
    {
      var from := nextParticipant;
      participants := KeptRows(participants, b, requester);
      var added := BuildRows(b, entries, from);
      participants := participants + added;
      nextParticipant := from + |entries|;
      RosterReplacedSound(old(State()), old(Next()), b, requester, entries);
    }

    /** Write the board's new title, and only the title. */
    method Rename(b: BoardId, title: string)
      requires Valid() && b in boards
      modifies this`boards
      ensures Valid()
      ensures State() == old(State()).(boards := old(boards)[b := old(boards)[b].(title := title)])
    {
      boards := boards[b := boards[b].(title := title)];
    }
  }

}
