/** The user administration page: the search box over a list that the page
    never changes, and the status stat cards. */
module AdminUsers {

  import opened Text
  import Seqs

  /** `"admin" | "moderator" | "user"`; the last is `Member` here. */
  datatype Role = Admin | Moderator | Member
  datatype Status = Active | Banned | Pending

  datatype User = User(
    id: string, username: string, email: string, role: Role, status: Status,
    joinedAt: string, lastActive: string)

  /** Username or email contains the query, ignoring case. */
  predicate MatchesSearch(u: User, query: string)
  {
    ContainsIgnoringCase(u.username, query) || ContainsIgnoringCase(u.email, query)
  }

  /** `filteredUsers` */
  function Search(users: seq<User>, query: string): seq<User>
  {
    Seqs.Filter(users, (u: User) => MatchesSearch(u, query))
  }

  /** Exactly the matching users are listed, in their order and each as
      often as it occurs, and the empty query lists everyone. */
  lemma SearchSpec(users: seq<User>, query: string)
    ensures forall u :: u in Search(users, query) <==> u in users && MatchesSearch(u, query)
    ensures Seqs.Subseq(Search(users, query), users)
    ensures |Search(users, query)| == Seqs.Count(users, (u: User) => MatchesSearch(u, query))
    ensures query == "" ==> Search(users, query) == users
  {
    var p := (u: User) => MatchesSearch(u, query);
    Seqs.FilterLength(users, p);
    forall u ensures u in Search(users, query) <==> u in users && MatchesSearch(u, query) {
      Seqs.FilterMembership(users, p, u);
    }
    Seqs.FilterIsSubseq(users, p);
    if query == "" {
      forall i | 0 <= i < |users| ensures p(users[i]) {
        EmptyQueryMatches(users[i].username);
      }
      Seqs.FilterKeepsAll(users, p);
    }
  }

  /** Narrowing the query by appending to it can only shorten the list:
      whatever matches the longer query matches the shorter one. */
  lemma SearchNarrows(users: seq<User>, query: string, more: string)
    ensures forall u :: u in Search(users, query + more) ==> u in Search(users, query)
  {
    forall u | u in Search(users, query + more) ensures u in Search(users, query) {
      SearchSpec(users, query + more);
      SearchSpec(users, query);
      if ContainsIgnoringCase(u.username, query + more) {
        LongerQueryMatchesLess(u.username, query, more);
      } else {
        LongerQueryMatchesLess(u.email, query, more);
      }
    }
  }

  function IsActive(u: User): bool { u.status == Active }
  function IsPending(u: User): bool { u.status == Pending }
  function IsBanned(u: User): bool { u.status == Banned }

  /** The four stat cards, counted over the whole list. */
  datatype Stats = Stats(total: nat, active: nat, pending: nat, banned: nat)

  function StatsOf(users: seq<User>): Stats
  {
    Stats(|users|, Seqs.Count(users, IsActive), Seqs.Count(users, IsPending), Seqs.Count(users, IsBanned))
  }

  /** Every user has exactly one of the three statuses, so the three status
      cards add up to the total. */
  lemma StatsPartition(users: seq<User>)
    ensures StatsOf(users).active + StatsOf(users).pending + StatsOf(users).banned == StatsOf(users).total
  {
    Seqs.CountPartition3(users, IsActive, IsPending, IsBanned);
  }
}
