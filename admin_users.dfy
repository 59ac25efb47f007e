/** The admin console's user table with its name/email search. */
module AdminUsers {
  import Text
  import Collections

  datatype AdminUser = AdminUser(
    id: int,
    name: string,
    email: string,
    role: string,
    plan: string,
    status: string,
    totalInvoices: int,
    lastLogin: string)

  /** A user is listed when the query hits the name or the email, ignoring case. */
  function UserShown(u: AdminUser, query: string): (r: bool)
    ensures r <==> Text.MatchesSearch(u.name, query) || Text.MatchesSearch(u.email, query)
    ensures query == "" ==> r
  {
    Text.MatchesSearch(u.name, query) || Text.MatchesSearch(u.email, query)
  }

  function FilteredUsers(users: seq<AdminUser>, query: string): (r: seq<AdminUser>)
    ensures forall i :: 0 <= i < |r| ==> r[i] in users && UserShown(r[i], query)
    ensures forall i :: 0 <= i < |users| && UserShown(users[i], query) ==> users[i] in r
    ensures Collections.SubsequenceOf(r, users)
    ensures forall x :: multiset(r)[x] == if UserShown(x, query) then multiset(users)[x] else 0
  {
    Collections.FilterIsSubsequence(users, u => UserShown(u, query));
    Collections.FilterCounts(users, u => UserShown(u, query));
    Collections.Filter(users, u => UserShown(u, query))
  }

  lemma EmptyQueryShowsAll(users: seq<AdminUser>)
    ensures FilteredUsers(users, "") == users
  {
    Collections.FilterKeepsAll(users, u => UserShown(u, ""));
  }

  /** Role, plan and status are not searched: two users that differ only there are
      shown or hidden together. */
  lemma OnlyNameAndEmailSearched(u: AdminUser, role: string, plan: string, status: string, query: string)
    ensures UserShown(u.(role := role, plan := plan, status := status), query) == UserShown(u, query)
  {
  }
}
