/** The querysets of the goal views (`get_queryset`): which rows each
    requester can list or fetch, and the title ordering of the board list. */
module Queries {
  import opened Model

  /** Code-point lexicographic order on titles, the order `ordering = ["title"]`
      gives under a binary collation. */
  predicate TitleLe(a: string, b: string) {
    if a == [] then true
    else if b == [] then false
    else if a[0] != b[0] then a[0] < b[0]
    else TitleLe(a[1..], b[1..])
  }

  lemma {:induction false} TitleLeTotal(a: string, b: string)
    ensures TitleLe(a, b) || TitleLe(b, a)
  {
    if a != [] && b != [] && a[0] == b[0] {
      TitleLeTotal(a[1..], b[1..]);
    }
  }

  lemma {:induction false} TitleLeTransitive(a: string, b: string, c: string)
    requires TitleLe(a, b) && TitleLe(b, c)
    ensures TitleLe(a, c)
  {
    if a != [] && b != [] && c != [] && a[0] == b[0] && b[0] == c[0] {
      TitleLeTransitive(a[1..], b[1..], c[1..]);
    }
  }

  /** Board `x` of `ids` has a title no later than any other of `ids`. */
  predicate FirstByTitle(boards: map<BoardId, Board>, ids: set<BoardId>, x: BoardId)
    requires ids <= boards.Keys
  {
    x in ids && forall y :: y in ids ==> TitleLe(boards[x].title, boards[y].title)
  }

  /** Every non-empty set of boards has one whose title comes first. */
  lemma {:induction false} TitleMinimumExists(boards: map<BoardId, Board>, ids: set<BoardId>)
    requires ids != {} && ids <= boards.Keys
    ensures exists x :: FirstByTitle(boards, ids, x)
    decreases ids
  {
    var y :| y in ids;
    var ty := boards[y].title;
    TitleLeTotal(ty, ty);
    if ids == {y} {
      assert FirstByTitle(boards, ids, y);
    } else {
      var rest := ids - {y};
      TitleMinimumExists(boards, rest);
      var x :| FirstByTitle(boards, rest, x);
      var tx := boards[x].title;
      TitleLeTotal(tx, ty);
      if TitleLe(tx, ty) {
        assert FirstByTitle(boards, ids, x);
      } else {
        forall z | z in ids
          ensures TitleLe(ty, boards[z].title)
        {
          if z != y {
            assert z in rest;
            TitleLeTransitive(ty, tx, boards[z].title);
          }
        }
        assert FirstByTitle(boards, ids, y);
      }
    }
  }

  /** The boards `ids`, each once, in title order. */
  ghost function OrderByTitle(boards: map<BoardId, Board>, ids: set<BoardId>): (r: seq<BoardId>)
    requires ids <= boards.Keys
    ensures forall b :: b in r <==> b in ids
    ensures forall i, j :: 0 <= i < j < |r| ==> r[i] != r[j]
    ensures forall i, j :: 0 <= i < j < |r| ==> TitleLe(boards[r[i]].title, boards[r[j]].title)
    decreases ids
  {
    if ids == {} then []
    else
      TitleMinimumExists(boards, ids);
      var x :| FirstByTitle(boards, ids, x);
      [x] + OrderByTitle(boards, ids - {x})
  }

  /** `BoardListView.get_queryset`: boards the requester participates in that are not deleted. */
  function BoardListQuery(s: Store, u: UserId): (r: set<BoardId>)
    ensures r <= BoardDetailQuery(s)
    ensures forall b :: b in r <==> b in BoardDetailQuery(s) && Participates(s, u, b)
  {
    set b | b in s.boards && !s.boards[b].isDeleted && Participates(s, u, b)
  }

  /** The board list as served: the queryset ordered by title. */
  ghost function BoardList(s: Store, u: UserId): (r: seq<BoardId>)
    ensures forall b :: b in r <==> b in s.boards && !s.boards[b].isDeleted && Participates(s, u, b)
    ensures forall i, j :: 0 <= i < j < |r| ==> r[i] != r[j]
    ensures forall i, j :: 0 <= i < j < |r| ==> TitleLe(s.boards[r[i]].title, s.boards[r[j]].title)
  {
    OrderByTitle(s.boards, BoardListQuery(s, u))
  }

  /** `BoardView.get_queryset`: every board that is not deleted. */
  function BoardDetailQuery(s: Store): (r: set<BoardId>)
    ensures r <= s.boards.Keys
    ensures forall b :: b in s.boards ==> (b in r <==> !s.boards[b].isDeleted)
  {
    set b | b in s.boards && !s.boards[b].isDeleted
  }

  /** `GoalCategoryListView` and `GoalCategoryView`: categories that are not
      deleted, on boards the requester participates in. */
  function CategoryQuery(s: Store, u: UserId): (r: set<CategoryId>)
    ensures r <= s.categories.Keys
    ensures forall c :: c in s.categories ==>
              (c in r <==> !s.categories[c].isDeleted && Participates(s, u, s.categories[c].board))
  {
    set c | c in s.categories && !s.categories[c].isDeleted && Participates(s, u, s.categories[c].board)
  }

  /** `GoalListView` and `GoalView`: goals that are not archived, whose category
      is not deleted and lies on a board the requester participates in. */
  function GoalQuery(s: Store, u: UserId): (r: set<GoalId>)
    ensures r <= s.goals.Keys
    ensures forall g :: g in r ==> s.goals[g].status != Archived && s.goals[g].category in CategoryQuery(s, u)
    ensures forall g :: (g in s.goals && s.goals[g].status != Archived && s.goals[g].category in CategoryQuery(s, u))
              ==> g in r
  {
    set g | g in s.goals && s.goals[g].category in s.categories
              && !s.categories[s.goals[g].category].isDeleted
              && Participates(s, u, s.categories[s.goals[g].category].board)
              && s.goals[g].status != Archived
  }

  /** `GoalCommentListView`: comments on goals of boards the requester participates in. */
  function CommentListQuery(s: Store, u: UserId): (r: set<CommentId>)
    ensures r <= s.comments.Keys
    ensures forall m :: m in s.comments && WellFormed(s) ==>
              (m in r <==> Participates(s, u, BoardOfGoal(s, s.comments[m].goal)))
  {
    set m | m in s.comments && s.comments[m].goal in s.goals
              && s.goals[s.comments[m].goal].category in s.categories
              && Participates(s, u, s.categories[s.goals[s.comments[m].goal].category].board)
  }

  /** `GoalCommentView`: the requester's own comments. */
  function CommentDetailQuery(s: Store, u: UserId): (r: set<CommentId>)
    ensures r <= s.comments.Keys
    ensures forall m :: m in r ==> s.comments[m].user == u
  {
    set m | m in s.comments && s.comments[m].user == u
  }

  /** Archived goals, goals of deleted categories and goals of boards the
      requester is not on are neither listed nor fetched; all other goals are. */
  lemma GoalVisibility(s: Store, u: UserId, g: GoalId)
    requires WellFormed(s) && g in s.goals
    ensures g in GoalQuery(s, u) <==>
              && s.goals[g].status != Archived
              && !s.categories[s.goals[g].category].isDeleted
              && Participates(s, u, BoardOfGoal(s, g))
    ensures g in GoalQuery(s, u) ==> s.goals[g].category in CategoryQuery(s, u)
  {
  }

  /** The comment list has no goal-status filter: comments on an archived goal
      stay listed to every participant of its board. */
  lemma CommentListIgnoresArchivedGoals(s: Store, u: UserId, m: CommentId)
    requires WellFormed(s) && m in s.comments
    requires s.goals[s.comments[m].goal].status == Archived
    requires Participates(s, u, BoardOfGoal(s, s.comments[m].goal))
    ensures m in CommentListQuery(s, u)
  {
  }

  /** The comment detail queryset holds exactly the requester's own comments,
      whether or not the requester is still on the comment's board. */
  lemma CommentDetailOwnOnly(s: Store, u: UserId, m: CommentId)
    requires m in s.comments
    ensures m in CommentDetailQuery(s, u) <==> s.comments[m].user == u
  {
  }
}
