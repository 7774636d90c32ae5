/**
 The people search page (Search.tsx): a case-insensitive substring filter
 over a fixed list of users. The page shows the whole list until the first
 search; each search filters the full list again with the current query.
 */
module UserSearch {
  import Text

  datatype User = User(id: nat, name: string, age: nat, endorsements: nat, verified: bool)

  /** The fixed list the page searches. */
  const Users: seq<User> := [
    User(1, "Sarah Johnson", 28, 5, true),
    User(2, "Mike Chen", 32, 8, true),
    User(3, "Emily Davis", 26, 3, true),
    User(4, "James Wilson", 30, 12, true),
    User(5, "Lisa Martinez", 29, 7, true)
  ]

  /** The user's lower-cased name contains the lower-cased query. */
  predicate Matches(u: User, query: string)
  {
    Text.Contains(Text.ToLower(u.name), Text.ToLower(query))
  }

  /** `users.filter(user => Matches(user, query))`. */
  function Filter(users: seq<User>, query: string): (r: seq<User>)
    ensures |r| <= |users|
    ensures forall u :: u in r <==> u in users && Matches(u, query)
    decreases |users|
  {
    if users == [] then []
    else if Matches(users[0], query) then [users[0]] + Filter(users[1..], query)
    else Filter(users[1..], query)
  }

  /** `a` is `b` with some elements left out, the rest in the same order. */
  predicate IsSubsequence<T(==)>(a: seq<T>, b: seq<T>)
    decreases |b|
  {
    if a == [] then true
    else if b == [] then false
    else if a[0] == b[0] then IsSubsequence(a[1..], b[1..])
    else IsSubsequence(a, b[1..])
  }

  /** The results keep the list's order and add nothing. */
  lemma {:induction false} FilterIsSubsequence(users: seq<User>, query: string)
    ensures IsSubsequence(Filter(users, query), users)
    decreases |users|
  {
    if users != [] {
      FilterIsSubsequence(users[1..], query);
      var rest := Filter(users[1..], query);
      if Matches(users[0], query) {
        assert ([users[0]] + rest)[1..] == rest;
      } else {
        SubsequenceOfTail(rest, users);
      }
    }
  }

  /** A subsequence of the tail of `b` is a subsequence of `b`. */
  lemma {:induction false} SubsequenceOfTail<T>(a: seq<T>, b: seq<T>)
    requires b != [] && IsSubsequence(a, b[1..])
    ensures IsSubsequence(a, b)
    decreases |b|, 0
  {
    if a != [] && a[0] == b[0] {
      SubsequenceDropFirst(a, b[1..]);
    }
  }

  /** A subsequence stays one after its first element is dropped. */
  lemma {:induction false} SubsequenceDropFirst<T>(a: seq<T>, b: seq<T>)
    requires a != [] && IsSubsequence(a, b)
    ensures IsSubsequence(a[1..], b)
    decreases |b|, 1
  {
    if a[0] == b[0] {
      if a[1..] != [] {
        SubsequenceOfTail(a[1..], b);
      }
    } else {
      SubsequenceDropFirst(a, b[1..]);
      if a[1..] != [] {
        SubsequenceOfTail(a[1..], b);
      }
    }
  }

  /** The empty query matches every name, so it returns the whole list. */
  lemma {:induction false} EmptyQueryReturnsAll(users: seq<User>)
    ensures Filter(users, "") == users
    decreases |users|
  {
    if users != [] {
      Text.ContainsEmpty(Text.ToLower(users[0].name));
      assert Text.ToLower("") == "";
      EmptyQueryReturnsAll(users[1..]);
      assert [users[0]] + users[1..] == users;
    }
  }

  /** Filtering the results again with the same query changes nothing. */
  lemma {:induction false} FilterIdempotent(users: seq<User>, query: string)
    ensures Filter(Filter(users, query), query) == Filter(users, query)
    decreases |users|
  {
    if users != [] {
      FilterIdempotent(users[1..], query);
      var rest := Filter(users[1..], query);
      if Matches(users[0], query) {
        assert ([users[0]] + rest)[0] == users[0];
        assert ([users[0]] + rest)[1..] == rest;
      }
    }
  }

  /** Queries with the same lower-case form give the same results. */
  lemma {:induction false} FilterIgnoresQueryCase(users: seq<User>, q1: string, q2: string)
    requires Text.ToLower(q1) == Text.ToLower(q2)
    ensures Filter(users, q1) == Filter(users, q2)
    decreases |users|
  {
    if users != [] {
      FilterIgnoresQueryCase(users[1..], q1, q2);
    }
  }

  /** The page: the query text and the results on show. */
  datatype Page = Page(query: string, results: seq<User>)

  /** Before any search the whole list is shown. */
  const Initial: Page := Page("", Users)

  /** Typing changes the query only; the results stay until the next search. */
  function Type(p: Page, text: string): (r: Page)
    ensures r.query == text && r.results == p.results
  {
    p.(query := text)
  }

  /** `handleSearch`: always filters the full list, never the previous results. */
  function Search(p: Page): (r: Page)
    ensures r.query == p.query
    ensures forall u :: u in r.results <==> u in Users && Matches(u, p.query)
    ensures IsSubsequence(r.results, Users)
  {
    FilterIsSubsequence(Users, p.query);
    p.(results := Filter(Users, p.query))
  }

  /**
   The outcome of a search depends only on the current query: it ignores
   the results on show, and searching again gives the same page.
   */
  lemma SearchDependsOnlyOnQuery(p: Page, q: Page)
    requires p.query == q.query
    ensures Search(p) == Search(q)
    ensures Search(Search(p)) == Search(p)
  {
  }

  /** Searching with an empty query from the initial page shows every user again. */
  lemma InitialShowsAll()
    ensures Initial.results == Users
    ensures Search(Initial) == Initial
  {
    EmptyQueryReturnsAll(Users);
  }
}
