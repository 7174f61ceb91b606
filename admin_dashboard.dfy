/**
 * The admin panel's user search: a search term matched against name, email
 * and business, combined with a formality status filter.
 */
module AdminDashboard {
  import opened Lists
  import opened Text

  datatype User = User(
    id: int, name: string, email: string, role: string, status: string,
    dianStatus: string, paymentStatus: string, joinDate: string,
    business: string, location: string)

  /** The search half: the term occurs, ignoring case, in the name, the email or the business. */
  predicate MatchesSearch(u: User, term: string)
  {
    MatchesTerm(u.name, term) || MatchesTerm(u.email, term) || MatchesTerm(u.business, term)
  }

  /** The status half: the filter is "all", or it is the user's status. */
  predicate MatchesStatus(u: User, statusFilter: string)
  {
    statusFilter == "all" || u.status == statusFilter
  }

  /** The test `filteredUsers` applies to each user. */
  function UserFilter(term: string, statusFilter: string): User -> bool
  {
    (u: User) => MatchesSearch(u, term) && MatchesStatus(u, statusFilter)
  }

  /** `filteredUsers`: the users that match the search term and the status filter, in their order. */
  function FilteredUsers(users: seq<User>, term: string, statusFilter: string): (r: seq<User>)
    ensures |r| <= |users|
    ensures forall i :: 0 <= i < |r| ==>
              r[i] in users && MatchesSearch(r[i], term) && MatchesStatus(r[i], statusFilter)
    ensures forall i :: 0 <= i < |users| ==>
              (MatchesSearch(users[i], term) && MatchesStatus(users[i], statusFilter) ==> users[i] in r)
    ensures statusFilter != "all" ==> forall i :: 0 <= i < |r| ==> r[i].status == statusFilter
  {
    Filter(UserFilter(term, statusFilter), users)
  }

  /** The filtered list keeps the users in their original order. */
  lemma FilteredUsersKeepOrder(s: seq<User>, t: seq<User>, term: string, statusFilter: string)
    ensures FilteredUsers(s + t, term, statusFilter) ==
            FilteredUsers(s, term, statusFilter) + FilteredUsers(t, term, statusFilter)
  {
    FilterAppend(UserFilter(term, statusFilter), s, t);
  }

  /** With an empty term and the filter "all", every user is listed. */
  lemma NoFilterListsAll(users: seq<User>)
    ensures FilteredUsers(users, "", "all") == users
  {
    forall u | u in users
      ensures UserFilter("", "all")(u)
    {
      MatchesEmptyTerm(u.name);
    }
    FilterAll(UserFilter("", "all"), users);
  }

  /** Two search terms that differ only in letter case list the same users. */
  lemma SearchIgnoresCase(users: seq<User>, t1: string, t2: string, statusFilter: string)
    requires Lower(t1) == Lower(t2)
    ensures FilteredUsers(users, t1, statusFilter) == FilteredUsers(users, t2, statusFilter)
  {
    forall u | u in users
      ensures UserFilter(t1, statusFilter)(u) == UserFilter(t2, statusFilter)(u)
    {
      MatchesTermCaseInsensitive(u.name, t1, t2);
      MatchesTermCaseInsensitive(u.email, t1, t2);
      MatchesTermCaseInsensitive(u.business, t1, t2);
    }
    FilterCongruent(UserFilter(t1, statusFilter), UserFilter(t2, statusFilter), users);
  }
}
