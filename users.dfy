/**
 * The tenant list: a search box that filters the tenants and a drop-down that
 * orders them, as one filter-then-sort expression over the tenant records.
 */
module UserList {
  import opened Options
  import opened Text

  /**
   * A tenant record as the list reads it; every field may be missing.
   * `creationDay` is the creation date as a day number, `None` when the date
   * is missing or does not parse.
   */
  datatype User = User(
    id: Option<int>,
    name: Option<string>,
    whatsappNumber: Option<string>,
    creationDay: Option<int>,
    activeUsers: Option<int>)

  /**
   * The search predicate: the lower-cased name contains the lower-cased
   * query, or the WhatsApp number contains the query as typed.
   */
  predicate Matches(u: User, query: string) {
    || (u.name.Some? && Contains(Lower(u.name.value), Lower(query)))
    || (u.whatsappNumber.Some? && Contains(u.whatsappNumber.value, query))
  }

  /** `users.filter(...)`: the matching tenants, in list order. */
  function Search(users: seq<User>, query: string): (r: seq<User>)
    ensures |r| <= |users|
  {
    if users == [] then []
    else
      var init, last := users[..|users| - 1], users[|users| - 1];
      Search(init, query) + (if Matches(last, query) then [last] else [])
  }

  /** A matching tenant keeps every one of its copies; any other tenant has none left. */
  lemma {:induction false} SearchCounts(users: seq<User>, query: string)
    ensures forall u :: multiset(Search(users, query))[u] == if Matches(u, query) then multiset(users)[u] else 0
  {
    if users != [] {
      var init, last := users[..|users| - 1], users[|users| - 1];
      SearchCounts(init, query);
      assert users == init + [last];
    }
  }

  /** A tenant is listed exactly when it is in the list and matches the query. */
  lemma SearchKeepsExactlyMatches(users: seq<User>, query: string)
    ensures forall u :: u in Search(users, query) <==> u in users && Matches(u, query)
  {
    SearchCounts(users, query);
    forall u ensures u in Search(users, query) <==> u in users && Matches(u, query) {
      assert u in Search(users, query) <==> multiset(Search(users, query))[u] > 0;
      assert u in users <==> multiset(users)[u] > 0;
    }
  }

  /** An empty search box keeps every tenant that has a name or a number. */
  lemma EmptyQueryKeepsNamedOrNumbered(u: User)
    ensures Matches(u, "") <==> u.name.Some? || u.whatsappNumber.Some?
  {
    if u.name.Some? {
      ContainsEmpty(Lower(u.name.value));
    }
    if u.whatsappNumber.Some? {
      ContainsEmpty(u.whatsappNumber.value);
    }
  }

  /**
   * The comparator of the `sort` call for the chosen order; negative puts `a`
   * first. `rank` stands for `localeCompare`: `x.localeCompare(y)` has the
   * sign of `rank(x) - rank(y)`.
   */
  function Compare(sortBy: string, rank: string -> int, a: User, b: User): int {
    if sortBy == "name" then
      // `a.name?.localeCompare(b.name!) ?? 0`; a missing `b.name` is compared as "undefined".
      if a.name.None? then 0 else rank(a.name.value) - rank(b.name.GetOr("undefined"))
    else if sortBy == "joinDate" then
      // Newest first; a date that does not parse makes the difference NaN, and `NaN || 0` is 0.
      if a.creationDay.Some? && b.creationDay.Some? then b.creationDay.value - a.creationDay.value else 0
    else if sortBy == "activeUsers" then
      b.activeUsers.GetOr(0) - a.activeUsers.GetOr(0)
    else 0
  }

  /**
   * Inserting one more element into a sorted run: it goes before the first
   * element that compares greater than it, so it stays after its equals.
   */
  function InsertBy(x: User, sorted: seq<User>, cmp: (User, User) -> int): (r: seq<User>)
    ensures |r| == |sorted| + 1
  {
    if sorted == [] then [x]
    else if cmp(sorted[0], x) > 0 then [x] + sorted
    else [sorted[0]] + InsertBy(x, sorted[1..], cmp)
  }

  /** `Array.prototype.sort` with a comparator: a stable sort, here by insertion in list order. */
  function SortBy(users: seq<User>, cmp: (User, User) -> int): (r: seq<User>)
    ensures |r| == |users|
  {
    if users == [] then []
    else InsertBy(users[|users| - 1], SortBy(users[..|users| - 1], cmp), cmp)
  }

  /** The list as shown: the matching tenants in the chosen order. */
  function Listed(users: seq<User>, query: string, sortBy: string, rank: string -> int): seq<User> {
    SortBy(Search(users, query), (a, b) => Compare(sortBy, rank, a, b))
  }

  lemma {:induction false} InsertByCounts(x: User, sorted: seq<User>, cmp: (User, User) -> int)
    ensures multiset(InsertBy(x, sorted, cmp)) == multiset(sorted) + multiset{x}
  {
    if sorted != [] && cmp(sorted[0], x) <= 0 {
      InsertByCounts(x, sorted[1..], cmp);
      assert sorted == [sorted[0]] + sorted[1..];
    }
  }

  /** Sorting neither adds, drops nor duplicates a tenant. */
  lemma {:induction false} SortByPermutes(users: seq<User>, cmp: (User, User) -> int)
    ensures multiset(SortBy(users, cmp)) == multiset(users)
  {
    if users != [] {
      var init, last := users[..|users| - 1], users[|users| - 1];
      SortByPermutes(init, cmp);
      InsertByCounts(last, SortBy(init, cmp), cmp);
      assert users == init + [last];
    }
  }

  /** With a comparator that never separates two tenants, the stable sort keeps the list as it is. */
  lemma {:induction false} SortByAllTiedKeepsOrder(users: seq<User>, cmp: (User, User) -> int)
    requires forall a, b :: cmp(a, b) == 0
    ensures SortBy(users, cmp) == users
  {
    if users != [] {
      var init, last := users[..|users| - 1], users[|users| - 1];
      SortByAllTiedKeepsOrder(init, cmp);
      InsertAfterTies(last, init, cmp);
      assert users == init + [last];
    }
  }

  lemma {:induction false} InsertAfterTies(x: User, sorted: seq<User>, cmp: (User, User) -> int)
    requires forall a, b :: cmp(a, b) == 0
    ensures InsertBy(x, sorted, cmp) == sorted + [x]
  {
    if sorted != [] {
      InsertAfterTies(x, sorted[1..], cmp);
      assert sorted == [sorted[0]] + sorted[1..];
    }
  }

  /** Every earlier tenant has a key at least that of every later one. */
  predicate NonIncreasing(s: seq<User>, key: User -> int) {
    forall i, j :: 0 <= i < j < |s| ==> key(s[i]) >= key(s[j])
  }

  /** On the tenants at hand, the comparator orders by `key`, largest first. */
  predicate DescendingOn(users: seq<User>, cmp: (User, User) -> int, key: User -> int) {
    forall i, j :: 0 <= i < |users| && 0 <= j < |users| ==> cmp(users[i], users[j]) == key(users[j]) - key(users[i])
  }

  /** A head whose key bounds every key of a sorted run keeps it sorted. */
  lemma PrependKeepsDescending(h: User, s: seq<User>, key: User -> int)
    requires NonIncreasing(s, key)
    requires forall j :: 0 <= j < |s| ==> key(h) >= key(s[j])
    ensures NonIncreasing([h] + s, key)
  {
    var r := [h] + s;
    forall i, j | 0 <= i < j < |r| ensures key(r[i]) >= key(r[j]) {
      if i > 0 {
        assert r[i] == s[i - 1];
      }
      assert r[j] == s[j - 1];
    }
  }

  /** Inserting into a run sorted by `key` keeps it sorted, when the comparisons with `x` follow `key`. */
  lemma {:induction false} InsertByKeepsDescending(x: User, sorted: seq<User>, cmp: (User, User) -> int, key: User -> int)
    requires NonIncreasing(sorted, key)
    requires forall k :: 0 <= k < |sorted| ==> cmp(sorted[k], x) == key(x) - key(sorted[k])
    ensures NonIncreasing(InsertBy(x, sorted, cmp), key)
  {
    if sorted != [] {
      var head, tail := sorted[0], sorted[1..];
      if cmp(head, x) > 0 {
        forall j | 0 <= j < |sorted| ensures key(x) >= key(sorted[j]) {
          if j > 0 {
            assert key(sorted[0]) >= key(sorted[j]);
          }
        }
        PrependKeepsDescending(x, sorted, key);
      } else {
        assert forall k :: 0 <= k < |tail| ==> tail[k] == sorted[k + 1];
        InsertByKeepsDescending(x, tail, cmp, key);
        var rest := InsertBy(x, tail, cmp);
        InsertByCounts(x, tail, cmp);
        forall j | 0 <= j < |rest| ensures key(head) >= key(rest[j]) {
          assert rest[j] in multiset(rest);
          if rest[j] != x {
            assert rest[j] in multiset(tail);
            var k :| 0 <= k < |tail| && tail[k] == rest[j];
            assert sorted[k + 1] == rest[j];
          }
        }
        PrependKeepsDescending(head, rest, key);
      }
    }
  }

  /** Sorting with a comparator that orders by a key puts the largest keys first. */
  lemma {:induction false} SortByDescending(users: seq<User>, cmp: (User, User) -> int, key: User -> int)
    requires DescendingOn(users, cmp, key)
    ensures NonIncreasing(SortBy(users, cmp), key)
  {
    if users != [] {
      var init, last := users[..|users| - 1], users[|users| - 1];
      assert forall i :: 0 <= i < |init| ==> init[i] == users[i];
      SortByDescending(init, cmp, key);
      var sorted := SortBy(init, cmp);
      SortByPermutes(init, cmp);
      forall k | 0 <= k < |sorted| ensures cmp(sorted[k], last) == key(last) - key(sorted[k]) {
        assert sorted[k] in multiset(init);
        var i :| 0 <= i < |init| && init[i] == sorted[k];
        assert users[i] == sorted[k];
      }
      InsertByKeepsDescending(last, sorted, cmp, key);
    }
  }

  /** The number of active users a tenant counts for, a missing count being 0. */
  function ActiveCount(u: User): int {
    u.activeUsers.GetOr(0)
  }

  /** Ordering by active users lists the tenants with the most active users first. */
  lemma ActiveUsersMostFirst(users: seq<User>, query: string, rank: string -> int)
    ensures NonIncreasing(Listed(users, query, "activeUsers", rank), ActiveCount)
  {
    var cmp := (a, b) => Compare("activeUsers", rank, a, b);
    SortByDescending(Search(users, query), cmp, ActiveCount);
  }

  function CreationDay(u: User): int {
    u.creationDay.GetOr(0)
  }

  /** Ordering by join date lists the newest tenants first, when every listed tenant has a date. */
  lemma JoinDateNewestFirst(users: seq<User>, query: string, rank: string -> int)
    requires forall u :: u in Search(users, query) ==> u.creationDay.Some?
    ensures NonIncreasing(Listed(users, query, "joinDate", rank), CreationDay)
  {
    var cmp := (a, b) => Compare("joinDate", rank, a, b);
    SortByDescending(Search(users, query), cmp, CreationDay);
  }

  /** Ordering by name lists the tenants in `localeCompare` order, when every listed tenant has a name. */
  lemma NameAscending(users: seq<User>, query: string, rank: string -> int)
    requires forall u :: u in Search(users, query) ==> u.name.Some?
    ensures NonIncreasing(Listed(users, query, "name", rank), (u: User) => -rank(u.name.GetOr("")))
  {
    var cmp := (a, b) => Compare("name", rank, a, b);
    var key := (u: User) => -rank(u.name.GetOr(""));
    var found := Search(users, query);
    forall i, j | 0 <= i < |found| && 0 <= j < |found| ensures cmp(found[i], found[j]) == key(found[j]) - key(found[i]) {
      var a, b := found[i], found[j];
      assert a in found && b in found;
      assert a.name.Some? && b.name.Some?;
      assert cmp(a, b) == rank(a.name.value) - rank(b.name.value);
      assert a.name.GetOr("") == a.name.value && b.name.GetOr("") == b.name.value;
      assert key(a) == -rank(a.name.value);
      assert key(b) == -rank(b.name.value);
    }
    SortByDescending(found, cmp, key);
  }

  /** Any other choice of order shows the matching tenants in list order. */
  lemma OtherOrderKeepsListOrder(users: seq<User>, query: string, sortBy: string, rank: string -> int)
    requires sortBy != "name" && sortBy != "joinDate" && sortBy != "activeUsers"
    ensures Listed(users, query, sortBy, rank) == Search(users, query)
  {
    SortByAllTiedKeepsOrder(Search(users, query), (a, b) => Compare(sortBy, rank, a, b));
  }

  /** Whatever the order, the list shows exactly the matching tenants, each as often as it occurs. */
  lemma ListedIsSearchPermuted(users: seq<User>, query: string, sortBy: string, rank: string -> int)
    ensures multiset(Listed(users, query, sortBy, rank)) == multiset(Search(users, query))
  {
    SortByPermutes(Search(users, query), (a, b) => Compare(sortBy, rank, a, b));
  }
}
