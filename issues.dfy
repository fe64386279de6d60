/**
 * `GET /api/user/issues`: the signed-in user's reported issues, optionally
 * narrowed by exact-match `status` and `category` filters, newest first, with
 * summary metadata.
 */
module UserIssues {
  import opened Common

  /** An issue record as the issue store returns it; `createdAt` is an integer timestamp. */
  datatype Issue = Issue(id: string, userId: UserId, status: string, category: string, createdAt: int)

  /** The attributes an issue list is filtered on. */
  datatype Field = Owner | Status | Category

  /** The filters echoed back in `meta.filters`; `None` is JSON `null`. */
  datatype Filters = Filters(status: Option<string>, category: Option<string>)

  datatype Meta = Meta(total: nat, filtered: bool, filters: Filters)

  /** The JSON reply: 401, 500 with a fixed message, or 200 with the list and `meta`. */
  datatype Response =
    | Unauthorized
    | ServerError(error: string)
    | Ok(data: seq<Issue>, meta: Meta)

  const FetchFailed := "Failed to fetch issues"

  function FieldOf(i: Issue, f: Field): string
  {
    match f
    case Owner => i.userId
    case Status => i.status
    case Category => i.category
  }

  /**
   * A query-string filter takes effect only when it is present and non-empty:
   * the handler tests it for truthiness, and the empty string is falsy.
   */
  predicate Applies(q: Option<string>)
    ensures q.None? ==> !Applies(q)
    ensures q == Some("") ==> !Applies(q)
    ensures q.Some? && q.value != "" ==> Applies(q)
  {
    q.Some? && q.value != ""
  }

  /** The value an issue must have under filter `q` (any value when `q` does not apply). */
  predicate Matches(q: Option<string>, v: string)
  {
    !Applies(q) || v == q.value
  }

  /** `q || null`: the filter as echoed in `meta.filters`. */
  function Echo(q: Option<string>): (r: Option<string>)
    ensures r.Some? <==> Applies(q)
    ensures r.Some? ==> r == q
  {
    if Applies(q) then q else None
  }

  /** `.filter(issue => issue[f] === v)`: keeps, in order, the issues whose field `f` is `v`. */
  function KeepWhere(s: seq<Issue>, f: Field, v: string): (r: seq<Issue>)
    ensures |r| <= |s|
    ensures forall k :: 0 <= k < |r| ==> FieldOf(r[k], f) == v
    ensures forall x :: x in r ==> x in s
  {
    if s == [] then []
    else if FieldOf(s[0], f) == v then [s[0]] + KeepWhere(s[1..], f, v)
    else KeepWhere(s[1..], f, v)
  }

  /** The issue store's `findByUserId`: the issues the user reported, in store order. */
  function FindByUserId(store: seq<Issue>, user: UserId): (r: seq<Issue>)
    ensures forall k :: 0 <= k < |r| ==> r[k].userId == user
  {
    KeepWhere(store, Owner, user)
  }

  /**
   * The list after the status filter and then the category filter, before
   * sorting: no longer than the user's list, drawn from it, and every issue
   * in it matches both filters.
   */
  function Filtered(all: seq<Issue>, status: Option<string>, category: Option<string>): (r: seq<Issue>)
    ensures |r| <= |all|
    ensures forall x :: x in r ==> x in all && Matches(status, x.status) && Matches(category, x.category)
  {
    var byStatus := if Applies(status) then KeepWhere(all, Status, status.value) else all;
    if Applies(category) then KeepWhere(byStatus, Category, category.value) else byStatus
  }

  /** Newest first: `createdAt` never increases along the list. */
  predicate NewestFirst(s: seq<Issue>)
  {
    forall p, q :: 0 <= p < q < |s| ==> s[p].createdAt >= s[q].createdAt
  }

  /** Each issue is kept exactly as often as it occurs, when it matches, and dropped otherwise. */
  lemma {:induction false} KeepWhereCount(s: seq<Issue>, f: Field, v: string, x: Issue)
    ensures multiset(KeepWhere(s, f, v))[x] == if FieldOf(x, f) == v then multiset(s)[x] else 0
  {
    if s != [] {
      KeepWhereCount(s[1..], f, v, x);
      assert s == [s[0]] + s[1..];
    }
  }

  /** A filter drops nothing exactly when every issue already has the value. */
  lemma {:induction false} KeepWhereAll(s: seq<Issue>, f: Field, v: string)
    ensures |KeepWhere(s, f, v)| == |s| <==> forall k :: 0 <= k < |s| ==> FieldOf(s[k], f) == v
    ensures (forall k :: 0 <= k < |s| ==> FieldOf(s[k], f) == v) ==> KeepWhere(s, f, v) == s
  {
    if s != [] {
      KeepWhereAll(s[1..], f, v);
      if FieldOf(s[0], f) == v {
        assert forall k :: 1 <= k < |s| ==> s[1..][k - 1] == s[k];
      }
    }
  }

  /**
   * Membership with multiplicity: the filtered list holds every issue of the
   * user's list that matches both filters, as often as it occurs there, and
   * nothing else.
   */
  lemma FilteredCount(all: seq<Issue>, status: Option<string>, category: Option<string>, x: Issue)
    ensures multiset(Filtered(all, status, category))[x]
         == if Matches(status, x.status) && Matches(category, x.category) then multiset(all)[x] else 0
  {
    var byStatus := if Applies(status) then KeepWhere(all, Status, status.value) else all;
    if Applies(status) {
      KeepWhereCount(all, Status, status.value, x);
    }
    if Applies(category) {
      KeepWhereCount(byStatus, Category, category.value, x);
    }
  }

  /** The filtered list has a different length exactly when some issue fails a filter. */
  lemma FilteredChangesLength(all: seq<Issue>, status: Option<string>, category: Option<string>)
    ensures |Filtered(all, status, category)| != |all|
        <==> exists k :: 0 <= k < |all| && !(Matches(status, all[k].status) && Matches(category, all[k].category))
  {
    var byStatus := if Applies(status) then KeepWhere(all, Status, status.value) else all;
    if Applies(status) {
      KeepWhereAll(all, Status, status.value);
    }
    if Applies(category) {
      KeepWhereAll(byStatus, Category, category.value);
      if Applies(status) {
        KeepWhereAll(all, Category, category.value);
      }
    }
  }

  /** Without an applicable filter the list is passed through untouched. */
  lemma NoFilterKeepsAll(all: seq<Issue>, status: Option<string>, category: Option<string>)
    requires !Applies(status) && !Applies(category)
    ensures Filtered(all, status, category) == all
  {
  }

  /** Exchanges the neighbours `a[j - 1]` and `a[j]`. */
  method SwapWithPrevious(a: array<Issue>, j: int)
    requires 0 < j < a.Length
    modifies a
    ensures a[..] == old(a[..])[j - 1 := old(a[j])][j := old(a[j - 1])]
    ensures multiset(a[..]) == multiset(old(a[..]))
  {
    a[j - 1], a[j] := a[j], a[j - 1];
  }

  /** Moves `a[i]` left past every newer-than-it neighbour, so that `a[..i + 1]` is newest first. */
  method InsertNewestFirst(a: array<Issue>, i: int)
    requires 0 <= i < a.Length
    requires NewestFirst(a[..i])
    modifies a
    ensures NewestFirst(a[..i + 1])
    ensures multiset(a[..]) == multiset(old(a[..]))
  {
    var j := i;
    while j > 0 && a[j - 1].createdAt < a[j].createdAt
      invariant 0 <= j <= i
      invariant forall p, q :: 0 <= p < q <= i && q != j ==> a[p].createdAt >= a[q].createdAt
      invariant multiset(a[..]) == multiset(old(a[..]))
    {
      SwapWithPrevious(a, j);
      j := j - 1;
    }
  }

  /** The comparator `(a, b) => b.createdAt - a.createdAt`, applied in place: insertion sort. */
  method SortNewestFirst(a: array<Issue>)
    modifies a
    ensures NewestFirst(a[..])
    ensures multiset(a[..]) == multiset(old(a[..]))
  {
    var i := 0;
    while i < a.Length
      invariant 0 <= i <= a.Length
      invariant NewestFirst(a[..i])
      invariant multiset(a[..]) == multiset(old(a[..]))
    {
      InsertNewestFirst(a, i);
      i := i + 1;
    }
    assert a[..] == a[..a.Length];
  }

  /**
   * The handler. `user` is the session resolver's answer, `status` and
   * `category` the query parameters, `store` the issue store, and `readFails`
   * whether `findByUserId` throws. `readIssues` reports whether the store was
   * read at all.
   */
  method GetUserIssues(user: Option<UserId>, status: Option<string>, category: Option<string>,
                       store: seq<Issue>, readFails: bool)
    returns (r: Response, readIssues: bool)
    ensures readIssues <==> user.Some?
    ensures user.None? ==> r == Unauthorized
    ensures user.Some? && readFails ==> r == ServerError(FetchFailed)
    ensures user.Some? && !readFails ==> r.Ok?
    ensures r.Ok? ==>
      var mine := FindByUserId(store, user.value);
      && NewestFirst(r.data)
      && multiset(r.data) == multiset(Filtered(mine, status, category))
      && (forall x :: x in r.data <==>
            x in store && x.userId == user.value && Matches(status, x.status) && Matches(category, x.category))
      && r.meta.total == |r.data|
      && (r.meta.filtered <==> |r.data| != |mine|)
      && r.meta.filters == Filters(Echo(status), Echo(category))
  {
    if user.None? {
      return Unauthorized, false;
    }
    readIssues := true;
    if readFails {
      return ServerError(FetchFailed), readIssues;
    }
    var allUserIssues := FindByUserId(store, user.value);
    var filteredIssues := allUserIssues;
    if Applies(status) {
      filteredIssues := KeepWhere(filteredIssues, Status, status.value);
    }
    if Applies(category) {
      filteredIssues := KeepWhere(filteredIssues, Category, category.value);
    }
    assert filteredIssues == Filtered(allUserIssues, status, category);
    var a := new Issue[|filteredIssues|](k requires 0 <= k < |filteredIssues| => filteredIssues[k]);
    assert a[..] == filteredIssues;
    SortNewestFirst(a);
    var data := a[..];
    forall x
      ensures x in data <==>
        x in store && x.userId == user.value && Matches(status, x.status) && Matches(category, x.category)
    {
      assert x in data <==> x in multiset(data);
      FilteredCount(allUserIssues, status, category, x);
      KeepWhereCount(store, Owner, user.value, x);
    }
    r := Ok(data, Meta(|data|, |data| != |allUserIssues|, Filters(Echo(status), Echo(category))));
  }
}
