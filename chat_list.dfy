/** The chat list sidebar: its search box (the shared search rule over the
    users the chats page passes in) and how each row presents a user. */
module ChatList {
  import opened Wrappers
  import opened Text
  import opened Users

  /** A string field is truthy: present and non-empty. */
  predicate Truthy(f: Option<string>) {
    f.Some? && f.value != ""
  }

  /** `field?.[0]?.toUpperCase()`: `undefined` when the field is absent or
      empty. */
  function FirstUpper(f: Option<string>): (r: Option<char>)
    ensures r.Some? <==> Truthy(f)
  {
    if Truthy(f) then Some(UpperChar(f.value[0])) else None
  }

  /** The avatar initial: the upper-cased first character of the user name,
      else of the full name, else `U`. */
  function Initial(u: User): (c: char)
    ensures Truthy(u.username) ==> c == UpperChar(u.username.value[0])
    ensures !Truthy(u.username) && Truthy(u.fullName) ==> c == UpperChar(u.fullName.value[0])
    ensures !Truthy(u.username) && !Truthy(u.fullName) ==> c == 'U'
  {
    FirstUpper(u.username).GetOr(FirstUpper(u.fullName).GetOr('U'))
  }

  /** The row title `user.username || user.full_name`: the user name when
      truthy, otherwise whatever the full name is (possibly absent). */
  function DisplayName(u: User): (n: Option<string>)
    ensures Truthy(u.username) ==> n == u.username
    ensures !Truthy(u.username) ==> n == u.fullName
  {
    if Truthy(u.username) then u.username else u.fullName
  }

  /** The initial is taken from the name the row shows, and is `U` exactly
      when the row shows no name. */
  lemma InitialAgreesWithDisplayName(u: User)
    ensures Truthy(DisplayName(u)) ==> Initial(u) == UpperChar(DisplayName(u).value[0])
    ensures !Truthy(DisplayName(u)) ==> Initial(u) == 'U'
  {
  }

  /** The initial is never a lower-case ASCII letter. */
  lemma InitialNotLowerCase(u: User)
    ensures !('a' <= Initial(u) <= 'z')
  {
  }

  /** The row subtitle: the bio when truthy, else `Online` or
      `Last seen recently` by presence. */
  function Subtitle(u: User): (s: string)
    ensures s != ""
    ensures Truthy(u.bio) ==> s == u.bio.value
    ensures !Truthy(u.bio) ==> s == if u.isOnline then "Online" else "Last seen recently"
  {
    if Truthy(u.bio) then u.bio.value
    else if u.isOnline then "Online" else "Last seen recently"
  }

  datatype Glyph = Crown | Star | Zap

  /** What `getVerificationIcon` renders: nothing, a tier's icon and colour
      class, or, for a tier missing from the lookup tables, an `undefined`
      component (which React cannot render). */
  datatype Badge = NoBadge | TierBadge(glyph: Glyph, color: string) | MissingIcon(tier: string)

  /** `getVerificationIcon(verification_type)`. */
  function VerificationIcon(vt: Option<string>): (b: Badge)
    ensures b == NoBadge <==> vt.None? || vt.value == "" || vt.value == "none"
    ensures vt == Some("celebrity") ==> b == TierBadge(Crown, "text-yellow-400")
    ensures vt == Some("lifetime") ==> b == TierBadge(Star, "text-purple-400")
    ensures vt == Some("monthly") ==> b == TierBadge(Zap, "text-blue-400")
    ensures b.MissingIcon? <==>
      vt.Some? && vt.value !in {"", "none", "celebrity", "lifetime", "monthly"}
  {
    if vt.None? || vt.value == "" || vt.value == "none" then NoBadge
    else if vt.value == "celebrity" then TierBadge(Crown, "text-yellow-400")
    else if vt.value == "lifetime" then TierBadge(Star, "text-purple-400")
    else if vt.value == "monthly" then TierBadge(Zap, "text-blue-400")
    else MissingIcon(vt.value)
  }

  /** The icon lookup runs (the none-check passes) exactly for the users the
      contacts page's "Verified" tab keeps; only the three known tiers then
      find an icon. */
  lemma BadgeIffVerified(u: User)
    ensures VerificationIcon(u.verificationType) != NoBadge <==> IsVerified(u)
  {
  }

  /** `selectedChat?.id === user.id`: nothing is highlighted without a
      selection, and a row whose id is the selection's id always is. */
  function IsHighlighted(selected: Option<User>, u: User): (r: bool)
    ensures r ==> selected.Some?
    ensures selected.Some? && selected.value.id == u.id ==> r
  {
    selected.Some? && selected.value.id == u.id
  }

  /** With distinct ids in the list, at most one row is highlighted, it
      carries the selected chat's id, and none is without a selection. */
  lemma AtMostOneHighlighted(rows: seq<User>, selected: Option<User>, i: int, j: int)
    requires forall k, l :: 0 <= k < l < |rows| ==> rows[k].id != rows[l].id
    requires 0 <= i < |rows| && 0 <= j < |rows|
    requires IsHighlighted(selected, rows[i]) && IsHighlighted(selected, rows[j])
    ensures i == j && selected.Some? && rows[i].id == selected.value.id
  {
  }
}
