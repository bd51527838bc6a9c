/** The user directory as the pages receive it from `User.list()` and
    `User.me()`, and the search and self-exclusion filters applied to it. */
module Users {
  import opened Wrappers
  import opened Text
  import opened Seqs

  type UserId = string

  /** A directory entry. Optional fields are `null` or `undefined` when
      absent; an absent `is_online` reads as false. */
  datatype User = User(
    id: UserId,
    username: Option<string>,
    fullName: Option<string>,
    bio: Option<string>,
    phoneNumber: Option<string>,
    email: Option<string>,
    avatarUrl: Option<string>,
    isOnline: bool,
    verificationType: Option<string>)

  /** `field?.toLowerCase().includes(term.toLowerCase())`: an absent field
      yields `undefined`, which never matches. */
  function FieldMatches(field: Option<string>, term: string): (r: bool)
    ensures r <==> field.Some? && IsSubstring(Lower(term), Lower(field.value))
  {
    if field.None? then false
    else
      IncludesCorrect(Lower(field.value), Lower(term));
      Includes(Lower(field.value), Lower(term))
  }

  /** The search rule shared by the contacts page, the chat list and the
      add-contact dialog: the lower-cased term is a substring of the
      lower-cased user name or of the lower-cased full name, and an absent
      field never matches. */
  function MatchesSearch(u: User, term: string): (r: bool)
    ensures r <==>
      (u.username.Some? && IsSubstring(Lower(term), Lower(u.username.value))) ||
      (u.fullName.Some? && IsSubstring(Lower(term), Lower(u.fullName.value)))
  {
    FieldMatches(u.username, term) || FieldMatches(u.fullName, term)
  }

  /** With the empty search term (the initial state) a user is kept exactly
      when a user name or a full name is present, even an empty one; a user
      with neither is never kept, whatever the term. */
  lemma EmptyTermKeepsNamed(u: User)
    ensures MatchesSearch(u, "") <==> u.username.Some? || u.fullName.Some?
  {
    assert Lower("") == "";
  }

  /** The search ignores the case of the term. */
  lemma SearchIgnoresTermCase(u: User, term: string)
    ensures MatchesSearch(u, Lower(term)) == MatchesSearch(u, term)
  {
    LowerIdempotent(term);
  }

  /** `users.filter(user => <search rule>)`, as in the chat list
      and the add-contact dialog. */
  function SearchFilter(users: seq<User>, term: string): (r: seq<User>)
    ensures forall u :: u in r <==> u in users && MatchesSearch(u, term)
    ensures IsSubsequence(r, users)
  {
    FilterIsSubsequence(users, u => MatchesSearch(u, term));
    Filter(users, u => MatchesSearch(u, term))
  }

  /** `user.id !== currentUser?.id`: with no current user, `currentUser?.id`
      is `undefined`, which no id equals. */
  function NotSelf(u: User, self: Option<User>): (r: bool)
    ensures self.Some? && u.id == self.value.id ==> !r
    ensures self.None? ==> r
  {
    self.None? || u.id != self.value.id
  }

  /** `users.filter(user => user.id !== currentUser?.id)`: removes exactly
      the entries carrying the current user's id and keeps the order. */
  function OtherUsers(users: seq<User>, self: Option<User>): (r: seq<User>)
    ensures forall u :: u in r <==> u in users && NotSelf(u, self)
    ensures self.Some? ==> forall u :: u in r ==> u.id != self.value.id
    ensures self.None? ==> r == users
    ensures IsSubsequence(r, users)
  {
    FilterIsSubsequence(users, u => NotSelf(u, self));
    var r := Filter(users, u => NotSelf(u, self));
    assert self.None? ==> r == users by {
      if self.None? { FilterAll(users, u => NotSelf(u, self)); }
    }
    r
  }

  /** `verification_type && verification_type !== 'none'`: the tier is
      present, non-empty and not `none`. */
  function IsVerified(u: User): (r: bool)
    ensures r ==> u.verificationType.Some?
    ensures u.verificationType == Some("none") ==> !r
    ensures u.verificationType.Some? && u.verificationType.value in {"monthly", "lifetime", "celebrity"} ==> r
  {
    u.verificationType.Some? && u.verificationType.value != "" && u.verificationType.value != "none"
  }
}
