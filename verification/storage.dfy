/** `MemStorage` of server/storage.ts: users and analysis results kept in
    insertion order with their own auto-increment counters. A JavaScript
    `Map` iterates in insertion order, so each map is a sequence here; the
    `created_at` text is compared through a `timeOf` parameter standing for
    `new Date(…).getTime()`. */
module Storage {
  import opened Common

  datatype User = User(id: nat, username: string, password: string)
  datatype InsertUser = InsertUser(username: string, password: string)

  /** A stored result; `None` is the `null` of an omitted column. */
  datatype SeoResult = SeoResult(
    id: nat, url: string, title: Option<string>, description: Option<string>,
    score: Option<int>, analysisData: Option<string>, createdAt: string)

  /** What `createSeoResult` is given; `None` is an omitted (or null) field. */
  datatype InsertSeoResult = InsertSeoResult(
    url: string, title: Option<string>, description: Option<string>,
    score: Option<int>, analysisData: Option<string>, createdAt: string)

  datatype Store = Store(users: seq<User>, results: seq<SeoResult>, userCurrentId: nat, seoResultCurrentId: nat)

  /** What the constructor establishes and every operation keeps: the k-th
      stored record has id k + 1 and the counter is the next id. */
  predicate Valid(s: Store) {
    && s.userCurrentId == |s.users| + 1
    && s.seoResultCurrentId == |s.results| + 1
    && (forall i :: 0 <= i < |s.users| ==> s.users[i].id == i + 1)
    && (forall i :: 0 <= i < |s.results| ==> s.results[i].id == i + 1)
  }

  /** `new MemStorage()`. */
  function Empty(): (s: Store)
    ensures Valid(s)
    ensures s.userCurrentId == 1 && s.seoResultCurrentId == 1
    ensures s.users == [] && s.results == []
  {
    Store([], [], 1, 1)
  }

  // ---------------------------------------------------------------------
  // Lookups

  /** `map.get(id)`: the stored result with this id, if any. In a valid
      store that is the result at position id - 1. */
  function GetSeoResult(s: Store, id: nat): (r: Option<SeoResult>)
    ensures r.Some? ==> r.value in s.results && r.value.id == id
    ensures r.None? <==> forall i :: 0 <= i < |s.results| ==> s.results[i].id != id
    ensures Valid(s) ==> r == if 1 <= id <= |s.results| then Some(s.results[id - 1]) else None
  {
    var p := (x: SeoResult) => x.id == id;
    var r := Find(p, s.results);
    assert Valid(s) && 1 <= id <= |s.results| ==> r == Some(s.results[id - 1]) by {
      if Valid(s) && 1 <= id <= |s.results| {
        assert p(s.results[id - 1]);
        var i :| 0 <= i < |s.results| && s.results[i] == r.value && forall j :: 0 <= j < i ==> !p(s.results[j]);
        assert s.results[i].id == i + 1;
      }
    }
    r
  }

  /** `map.get(id)` on the users. */
  function GetUser(s: Store, id: nat): (r: Option<User>)
    ensures r.Some? ==> r.value in s.users && r.value.id == id
    ensures r.None? <==> forall i :: 0 <= i < |s.users| ==> s.users[i].id != id
    ensures Valid(s) ==> r == if 1 <= id <= |s.users| then Some(s.users[id - 1]) else None
  {
    var p := (x: User) => x.id == id;
    var r := Find(p, s.users);
    assert Valid(s) && 1 <= id <= |s.users| ==> r == Some(s.users[id - 1]) by {
      if Valid(s) && 1 <= id <= |s.users| {
        assert p(s.users[id - 1]);
        var i :| 0 <= i < |s.users| && s.users[i] == r.value && forall j :: 0 <= j < i ==> !p(s.users[j]);
        assert s.users[i].id == i + 1;
      }
    }
    r
  }

  /** The first stored result with this url, in insertion order. */
  function GetSeoResultByUrl(s: Store, url: string): (r: Option<SeoResult>)
    ensures r.Some? ==> r.value.url == url
    ensures r.Some? ==> exists i :: 0 <= i < |s.results| && s.results[i] == r.value
                                    && forall j :: 0 <= j < i ==> s.results[j].url != url
    ensures r.None? <==> forall i :: 0 <= i < |s.results| ==> s.results[i].url != url
  {
    Find((r: SeoResult) => r.url == url, s.results)
  }

  /** The first user with this username, in insertion order. */
  function GetUserByUsername(s: Store, username: string): (r: Option<User>)
    ensures r.Some? ==> r.value.username == username
    ensures r.Some? ==> exists i :: 0 <= i < |s.users| && s.users[i] == r.value
                                    && forall j :: 0 <= j < i ==> s.users[j].username != username
    ensures r.None? <==> forall i :: 0 <= i < |s.users| ==> s.users[i].username != username
  {
    Find((u: User) => u.username == username, s.users)
  }

  // ---------------------------------------------------------------------
  // Creation

  datatype Created<T> = Created(store: Store, record: T)

  /** `createSeoResult`: take the counter as the id, bump it, store the
      record with omitted fields as null. */
  function CreateSeoResult(s: Store, ins: InsertSeoResult): (c: Created<SeoResult>)
    requires Valid(s)
    ensures Valid(c.store)
    ensures c.record.id == s.seoResultCurrentId
    ensures c.store.seoResultCurrentId == s.seoResultCurrentId + 1
    ensures c.store.userCurrentId == s.userCurrentId && c.store.users == s.users
    ensures c.store.results == s.results + [c.record]
    ensures c.record.url == ins.url && c.record.createdAt == ins.createdAt
    ensures c.record.title == ins.title && c.record.description == ins.description
    ensures c.record.score == ins.score && c.record.analysisData == ins.analysisData
  {
    var r := SeoResult(s.seoResultCurrentId, ins.url, ins.title, ins.description, ins.score, ins.analysisData, ins.createdAt);
    Created(Store(s.users, s.results + [r], s.userCurrentId, s.seoResultCurrentId + 1), r)
  }

  /** `createUser`: `{ ...insertUser, id }` under the user counter. */
  function CreateUser(s: Store, ins: InsertUser): (c: Created<User>)
    requires Valid(s)
    ensures Valid(c.store)
    ensures c.record == User(s.userCurrentId, ins.username, ins.password)
    ensures c.store.userCurrentId == s.userCurrentId + 1
    ensures c.store.seoResultCurrentId == s.seoResultCurrentId && c.store.results == s.results
    ensures c.store.users == s.users + [c.record]
  {
    var u := User(s.userCurrentId, ins.username, ins.password);
    Created(Store(s.users + [u], s.results, s.userCurrentId + 1, s.seoResultCurrentId), u)
  }

  /** The first index of a match in a sequence extended by one element. */
  lemma {:induction false} FindIndexAppend<T>(p: T -> bool, a: seq<T>, x: T)
    ensures FindIndex(p, a + [x]) == if FindIndex(p, a).Some? then FindIndex(p, a) else if p(x) then Some(|a|) else None
    decreases |a|
  {
    if a != [] {
      assert (a + [x])[1..] == a[1..] + [x];
      FindIndexAppend(p, a[1..], x);
    }
  }

  lemma FindAppend<T>(p: T -> bool, a: seq<T>, x: T)
    ensures Find(p, a + [x]) == if Find(p, a).Some? then Find(p, a) else if p(x) then Some(x) else None
  {
    FindIndexAppend(p, a, x);
  }

  /** After `createSeoResult` returns r, looking up r's id gives r, and
      every other id answers as before. */
  lemma GetAfterCreate(s: Store, ins: InsertSeoResult, id: nat)
    requires Valid(s)
    ensures var c := CreateSeoResult(s, ins);
      && GetSeoResult(c.store, c.record.id) == Some(c.record)
      && (id != c.record.id ==> GetSeoResult(c.store, id) == GetSeoResult(s, id))
  {
    var c := CreateSeoResult(s, ins);
  }

  /** The same for users. */
  lemma GetUserAfterCreate(s: Store, ins: InsertUser, id: nat)
    requires Valid(s)
    ensures var c := CreateUser(s, ins);
      && GetUser(c.store, c.record.id) == Some(c.record)
      && (id != c.record.id ==> GetUser(c.store, id) == GetUser(s, id))
  {
    var c := CreateUser(s, ins);
  }

  /** A later result with the same url does not displace the earlier one. */
  lemma ByUrlKeepsEarliest(s: Store, ins: InsertSeoResult, url: string)
    requires Valid(s)
    ensures var c := CreateSeoResult(s, ins);
      GetSeoResultByUrl(c.store, url)
        == if GetSeoResultByUrl(s, url).Some? then GetSeoResultByUrl(s, url)
           else if ins.url == url then Some(c.record) else None
  {
    FindAppend((r: SeoResult) => r.url == url, s.results, CreateSeoResult(s, ins).record);
  }

  /** A later user with the same username does not displace the earlier one. */
  lemma ByUsernameKeepsEarliest(s: Store, ins: InsertUser, username: string)
    requires Valid(s)
    ensures var c := CreateUser(s, ins);
      GetUserByUsername(c.store, username)
        == if GetUserByUsername(s, username).Some? then GetUserByUsername(s, username)
           else if ins.username == username then Some(c.record) else None
  {
    FindAppend((u: User) => u.username == username, s.users, CreateUser(s, ins).record);
  }

  // ---------------------------------------------------------------------
  // getRecentSeoResults

  /** Newest first by `timeOf(created_at)`. */
  predicate NewestFirst(t: seq<SeoResult>, timeOf: string -> int) {
    forall i, j :: 0 <= i < j < |t| ==> timeOf(t[i].createdAt) >= timeOf(t[j].createdAt)
  }

  /** Insert `x` after every element at least as new: a stable descending
      insertion. */
  function Insert(x: SeoResult, t: seq<SeoResult>, timeOf: string -> int): (r: seq<SeoResult>)
    ensures |r| == |t| + 1
    ensures multiset(r) == multiset(t) + multiset{x}
    decreases |t|
  {
    if t == [] then [x]
    else if timeOf(t[0].createdAt) >= timeOf(x.createdAt) then
      assert t == [t[0]] + t[1..];
      [t[0]] + Insert(x, t[1..], timeOf)
    else [x] + t
  }

  lemma {:induction false} InsertKeepsOrder(x: SeoResult, t: seq<SeoResult>, timeOf: string -> int)
    requires NewestFirst(t, timeOf)
    ensures NewestFirst(Insert(x, t, timeOf), timeOf)
    decreases |t|
  {
    if t != [] && timeOf(t[0].createdAt) >= timeOf(x.createdAt) {
      InsertKeepsOrder(x, t[1..], timeOf);
      var r := Insert(x, t, timeOf);
      var rest := Insert(x, t[1..], timeOf);
      assert r == [t[0]] + rest;
      forall k | 0 <= k < |rest|
        ensures timeOf(t[0].createdAt) >= timeOf(rest[k].createdAt)
      {
        assert rest[k] in multiset(rest);
        assert rest[k] in multiset(t[1..]) + multiset{x};
        if rest[k] != x {
          assert rest[k] in t[1..];
        }
      }
    }
  }

  /** The array sort of `getRecentSeoResults`, newest first, as an insertion
      sort: a permutation of the stored results in descending time order. */
  function SortNewestFirst(t: seq<SeoResult>, timeOf: string -> int): (r: seq<SeoResult>)
    ensures multiset(r) == multiset(t)
    ensures |r| == |t|
    decreases |t|
  {
    if t == [] then []
    else
      assert t == t[..|t| - 1] + [t[|t| - 1]];
      Insert(t[|t| - 1], SortNewestFirst(t[..|t| - 1], timeOf), timeOf)
  }

  lemma {:induction false} SortIsNewestFirst(t: seq<SeoResult>, timeOf: string -> int)
    ensures NewestFirst(SortNewestFirst(t, timeOf), timeOf)
    decreases |t|
  {
    if t != [] {
      SortIsNewestFirst(t[..|t| - 1], timeOf);
      InsertKeepsOrder(t[|t| - 1], SortNewestFirst(t[..|t| - 1], timeOf), timeOf);
    }
  }

  /** `array.slice(0, limit)`: a negative limit counts back from the end. */
  function SliceEnd(n: nat, limit: int): (e: nat)
    ensures e <= n
    ensures limit >= 0 ==> e == if limit < n then limit else n
    ensures limit < 0 ==> e == if n + limit > 0 then n + limit else 0
  {
    if limit >= 0 then (if limit < n then limit else n)
    else if n + limit > 0 then n + limit else 0
  }

  /** `getRecentSeoResults(limit)`. */
  function GetRecentSeoResults(s: Store, limit: int, timeOf: string -> int): (r: seq<SeoResult>)
    ensures |r| == SliceEnd(|s.results|, limit)
    ensures forall i :: 0 <= i < |r| ==> r[i] in s.results
  {
    var sorted := SortNewestFirst(s.results, timeOf);
    var r := sorted[..SliceEnd(|sorted|, limit)];
    assert forall i :: 0 <= i < |r| ==> r[i] in multiset(s.results) by {
      forall i | 0 <= i < |r| ensures r[i] in multiset(s.results) {
        assert r[i] == sorted[i];
        assert sorted[i] in multiset(sorted);
      }
    }
    r
  }

  /** The recent list is newest first, and nothing left out is newer than
      anything returned. */
  lemma RecentAreNewest(s: Store, limit: int, timeOf: string -> int)
    ensures var r := GetRecentSeoResults(s, limit, timeOf);
      var sorted := SortNewestFirst(s.results, timeOf);
      && NewestFirst(r, timeOf)
      && r == sorted[..|r|]
      && forall i, j :: 0 <= i < |r| <= j < |sorted| ==> timeOf(r[i].createdAt) >= timeOf(sorted[j].createdAt)
  {
    SortIsNewestFirst(s.results, timeOf);
  }

  /** A limit at least the number of stored results returns all of them,
      each as often as it is stored. */
  lemma RecentWithLargeLimitIsEverything(s: Store, limit: int, timeOf: string -> int)
    requires limit >= |s.results|
    ensures multiset(GetRecentSeoResults(s, limit, timeOf)) == multiset(s.results)
  {
    var sorted := SortNewestFirst(s.results, timeOf);
    assert sorted[..|sorted|] == sorted;
  }
}
