/** The object permissions of the comment views: who may read, change or
    delete a goal comment. */
module Permissions {
  import opened Model
  import opened Queries

  /** The HTTP request methods the views serve. */
  datatype Method = GET | HEAD | OPTIONS | POST | PUT | PATCH | DELETE

  /** The read-only methods, always allowed by both comment permissions. */
  const SAFE_METHODS: set<Method> := {GET, HEAD, OPTIONS}

  /** The user a request comes from: anonymous (no id) or a logged-in user. */
  datatype Requester = Anonymous | SignedIn(id: UserId)

  /** The requester's id, absent for an anonymous requester. */
  function IdOf(r: Requester): (id: Option<UserId>)
    ensures id.Some? <==> r.SignedIn?
    ensures r.SignedIn? ==> id.value == r.id
  {
    match r
    case Anonymous => None
    case SignedIn(u) => Some(u)
  }

  /** The view-level check `CommentsPermissions` inherits from `IsAuthenticated`:
      only a logged-in requester passes, whatever the method. */
  function CommentsHasPermission(m: Method, r: Requester): (allowed: bool)
    ensures allowed <==> IdOf(r).Some?
  {
    r.SignedIn?
  }

  /** `CommentsPermissions.has_object_permission`: a safe method, or the
      requester's id equals the comment author's id. */
  function CommentsHasObjectPermission(m: Method, r: Requester, c: Comment): (allowed: bool)
    ensures m in SAFE_METHODS ==> allowed
    ensures m !in SAFE_METHODS ==> (allowed <==> r.SignedIn? && r.id == c.user)
  {
    m in SAFE_METHODS || IdOf(r) == Some(c.user)
  }

  /** `IsOwnerOrReadOnly.has_object_permission`: true for a safe method,
      otherwise whether the comment's `user_id` is the requester's id. */
  function OwnerOrReadOnly(m: Method, r: Requester, c: Comment): (allowed: bool)
    ensures m in SAFE_METHODS ==> allowed
    ensures m !in SAFE_METHODS ==> (allowed <==> r.SignedIn? && r.id == c.user)
  {
    if m in SAFE_METHODS then true else IdOf(r) == Some(c.user)
  }

  /** `GoalCommentView` lists both classes: the request passes the view-level
      check of each (`IsOwnerOrReadOnly` keeps the default, which admits every
      request) and then the object check of each. */
  function CommentViewAllows(m: Method, r: Requester, c: Comment): (allowed: bool)
    ensures allowed ==> CommentsHasPermission(m, r)
    ensures allowed ==> CommentsHasObjectPermission(m, r, c) && OwnerOrReadOnly(m, r, c)
  {
    CommentsHasPermission(m, r) && CommentsHasObjectPermission(m, r, c) && OwnerOrReadOnly(m, r, c)
  }

  /** The two object permissions agree on every input, so listing both on
      the comment view is the same as listing either one. */
  lemma ObjectPermissionsAgree(m: Method, r: Requester, c: Comment)
    ensures CommentsHasObjectPermission(m, r, c) == OwnerOrReadOnly(m, r, c)
    ensures CommentViewAllows(m, r, c) == (CommentsHasPermission(m, r) && CommentsHasObjectPermission(m, r, c))
    ensures CommentViewAllows(m, r, c) == (CommentsHasPermission(m, r) && OwnerOrReadOnly(m, r, c))
  {
  }

  /** On the comment view, a logged-in requester may read any comment the
      queryset yields and may change or delete exactly their own; an anonymous
      requester may do nothing. */
  lemma CommentViewAccess(m: Method, r: Requester, c: Comment)
    ensures r.Anonymous? ==> !CommentViewAllows(m, r, c)
    ensures r.SignedIn? && m in SAFE_METHODS ==> CommentViewAllows(m, r, c)
    ensures r.SignedIn? && m !in SAFE_METHODS ==> (CommentViewAllows(m, r, c) <==> c.user == r.id)
  {
  }

  /** The board role is never consulted: the owner of the comment's board who
      did not write the comment cannot change or delete it. */
  lemma BoardOwnerCannotEditOthersComment(s: Store, m: Method, u: UserId, c: CommentId)
    requires WellFormed(s) && c in s.comments
    requires HasRole(s, u, BoardOfGoal(s, s.comments[c].goal), {Owner})
    requires s.comments[c].user != u && m !in SAFE_METHODS
    ensures !CommentsHasObjectPermission(m, SignedIn(u), s.comments[c])
    ensures !CommentViewAllows(m, SignedIn(u), s.comments[c])
  {
  }

  /** Every comment the comment view's queryset yields is the requester's own,
      so on that view neither permission class ever refuses a logged-in
      requester, whatever the method. */
  lemma CommentDetailAlwaysAllowed(s: Store, u: UserId, c: CommentId, m: Method)
    requires c in CommentDetailQuery(s, u)
    ensures CommentViewAllows(m, SignedIn(u), s.comments[c])
  {
  }
}
