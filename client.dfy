/** What the client pages share: the signed-in viewer, the organization
    filter every admin page applies, and the case-insensitive search match. */
module ClientView {
  import opened Wrappers
  import opened Schema
  import opened Text
  import Seqs
  import Server

  /** The current user as the pages read it. */
  datatype Viewer = Viewer(id: UserId, role: string, organizationId: Option<int>)

  /** `user?.organizationId` is truthy: there is a viewer with a non-zero organization. */
  predicate HasOrganization(viewer: Option<Viewer>)
  {
    viewer.Some? && viewer.value.organizationId.Some? && viewer.value.organizationId.value != 0
  }

  /** A row passes the organization filter. */
  predicate InViewerOrganization(viewer: Option<Viewer>, org: Option<int>)
  {
    !HasOrganization(viewer) || org == viewer.value.organizationId
  }

  lemma {:induction false} FilterKeepsAll<T(!new)>(xs: seq<T>, p: T -> bool)
    requires forall x :: x in xs ==> p(x)
    ensures Seqs.Filter(xs, p) == xs
  {
    if xs != [] {
      assert xs[0] in xs;
      assert forall x :: x in xs[1..] ==> x in xs;
      FilterKeepsAll(xs[1..], p);
      assert [xs[0]] + xs[1..] == xs;
    }
  }

  /** `rows.filter(r => !user?.organizationId || r.organizationId === user.organizationId)`:
      a viewer without an organization keeps every row, otherwise only the
      rows of the viewer's organization are kept, in their order. */
  function OrgFilter<T(!new)>(viewer: Option<Viewer>, xs: seq<T>, orgOf: T -> Option<int>): (r: seq<T>)
    ensures forall x :: x in r <==> x in xs && InViewerOrganization(viewer, orgOf(x))
    ensures Seqs.IsSubseq(r, xs)
    ensures !HasOrganization(viewer) ==> r == xs
  {
    var p := (x: T) => InViewerOrganization(viewer, orgOf(x));
    Seqs.FilterIsSubseq(xs, p);
    if !HasOrganization(viewer) then
      FilterKeepsAll(xs, p);
      Seqs.Filter(xs, p)
    else
      Seqs.Filter(xs, p)
  }

  /** `field.toLowerCase().includes(search.toLowerCase())`. */
  predicate Matches(field: string, search: string)
  {
    Includes(ToLower(field), ToLower(search))
  }

  /** An empty search matches every field. */
  lemma EmptySearchMatches(field: string)
    ensures Matches(field, "")
  {
    IncludesIff(ToLower(field), ToLower(""));
    assert OccursAt(ToLower(field), ToLower(""), 0);
  }

  /** The match does not depend on the case of either side. */
  lemma MatchIgnoresCase(field: string, search: string)
    ensures Matches(field, search) <==> Matches(ToLower(field), ToLower(search))
  {
    ToLowerIdempotent(field);
    ToLowerIdempotent(search);
  }

  /** `users.filter(u => u.role === "staff")` over the users listing: the
      users a picker offers, by the role their role row gives them. */
  function StaffUsers(users: seq<Server.UserEntry>): (r: seq<Server.UserEntry>)
    ensures forall u :: u in r <==> u in users && u.role == "staff"
    ensures Seqs.IsSubseq(r, users)
  {
    Seqs.FilterIsSubseq(users, (u: Server.UserEntry) => u.role == "staff");
    Seqs.Filter(users, (u: Server.UserEntry) => u.role == "staff")
  }

  /** The value a user picker stores for a listed user: `String(u.id)`. */
  function PickerValue(u: Server.UserEntry): string
  {
    IntToString(u.id)
  }

  /** In the listing every element carries its own user's id. */
  lemma ListedIdIsUserId(u: Server.UserEntry, users: seq<Server.UserEntry>, rows: map<UserId, RoleRow>,
                         authUser: UserId -> Option<User>)
    requires Server.UsersListed(users, rows, authUser) && u in users
    ensures u.id == u.userId
  {
    var i :| 0 <= i < |users| && users[i] == u;
  }

  /** `value || null` for a text field: the empty string is sent as null. */
  function OrNull(s: string): (r: Option<string>)
    ensures r.None? <==> s == ""
    ensures r.Some? ==> r.value == s
  {
    if s == "" then None else Some(s)
  }
}
