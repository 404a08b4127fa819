/**
 * The three SQL statements of the store, stated on the loaded table as a
 * sequence in its natural (load) order: `LIMIT ? OFFSET ?` with `COUNT(*)`,
 * `WHERE id = ?`, and the three-way ILIKE filter with `LIMIT ?`.
 */
module Queries {
  import opened Wrappers
  import opened Models
  import opened Text

  function Min(a: int, b: int): int { if a <= b then a else b }
  function Max(a: int, b: int): int { if a <= b then b else a }

  /** `LIMIT limit OFFSET offset`: the rows at positions `[offset, offset + limit)`. */
  function Paginate<T>(t: seq<T>, offset: nat, limit: nat): (r: seq<T>)
    ensures |r| == Min(limit, Max(0, |t| - offset))
    ensures forall i :: 0 <= i < |r| ==> r[i] == t[offset + i]
  {
    if offset >= |t| then [] else t[offset..Min(offset + limit, |t|)]
  }

  /** The offset `(page - 1) * page_size` the store computes for a page. */
  function PageOffset(page: int, pageSize: int): (offset: nat)
    requires page >= 1 && pageSize >= 1
    ensures offset % pageSize == 0 && offset / pageSize == page - 1
    ensures page == 1 <==> offset == 0
  {
    MultipleDivides(page - 1, pageSize);
    (page - 1) * pageSize
  }

  lemma MultipleDivides(k: nat, n: int)
    requires n >= 1
    ensures (k * n) % n == 0 && (k * n) / n == k
  {
    var q, r := (k * n) / n, (k * n) % n;
    assert k * n == q * n + r && 0 <= r < n;
    var d := q - k;
    assert d * n == -r;
    assert d >= 1 ==> d * n >= n;
    assert d <= -1 ==> d * n <= -n;
  }

  /** Two consecutive pages read the same rows as one page of the combined size. */
  lemma AdjacentPagesConcatenate<T>(t: seq<T>, offset: nat, n: nat, m: nat)
    ensures Paginate(t, offset, n) + Paginate(t, offset + n, m) == Paginate(t, offset, n + m)
  {
    var a, b, c := Paginate(t, offset, n), Paginate(t, offset + n, m), Paginate(t, offset, n + m);
    assert |a + b| == |c|;
    forall i | 0 <= i < |c| ensures (a + b)[i] == c[i] {
      if i < |a| { assert (a + b)[i] == a[i]; } else { assert (a + b)[i] == b[i - |a|]; }
    }
  }

  /** Every row appears on exactly one page: the page whose offset range covers its position. */
  lemma {:induction false} RowOnItsPage<T>(t: seq<T>, k: nat, pageSize: int)
    requires pageSize >= 1 && k < |t|
    ensures var page := k / pageSize + 1;
            var r := Paginate(t, PageOffset(page, pageSize), pageSize);
            0 <= k - PageOffset(page, pageSize) < |r| && r[k - PageOffset(page, pageSize)] == t[k]
  {
    var page := k / pageSize + 1;
    assert PageOffset(page, pageSize) == (k / pageSize) * pageSize;
    assert (k / pageSize) * pageSize <= k < (k / pageSize) * pageSize + pageSize;
  }

  /** Rows with ids 1..25: page 3 of size 10 holds ids 21..25, page 4 is empty. */
  lemma TwentyFiveRowsExample(t: seq<User>)
    requires |t| == 25 && forall i :: 0 <= i < |t| ==> t[i].id == i + 1
    ensures var p3 := Paginate(t, PageOffset(3, 10), 10);
            |p3| == 5 && forall i :: 0 <= i < 5 ==> p3[i].id == 21 + i
    ensures Paginate(t, PageOffset(4, 10), 10) == []
  {
  }

  /** `SELECT * FROM users WHERE id = ?`, first row: the first row in load order with that id. */
  function FirstWithId(t: seq<User>, id: int): (r: Option<User>)
    ensures r.None? <==> forall i :: 0 <= i < |t| ==> t[i].id != id
    ensures r.Some? ==> exists i :: 0 <= i < |t| && t[i] == r.value && r.value.id == id
                                    && forall j :: 0 <= j < i ==> t[j].id != id
  {
    if t == [] then None
    else if t[0].id == id then Some(t[0])
    else
      var r := FirstWithId(t[1..], id);
      assert forall i :: 0 < i < |t| ==> t[i] == t[1..][i - 1];
      r
  }

  /** Where ids are unique, the lookup returns the one row carrying the id. */
  lemma UniqueIdLookup(t: seq<User>, k: nat)
    requires k < |t|
    requires forall i, j :: 0 <= i < j < |t| ==> t[i].id != t[j].id
    ensures FirstWithId(t, t[k].id) == Some(t[k])
  {
  }

  /** `first_name ILIKE p OR last_name ILIKE p OR email ILIKE p` with `p = %query%`. */
  predicate RowMatches(u: User, query: string)
    ensures NoWildcards(query) ==>
      var q := Lower(query);
      (RowMatches(u, query) <==>
        Contains(Lower(u.firstName), q) || Contains(Lower(u.lastName), q) || Contains(Lower(u.email), q))
  {
    if NoWildcards(query) then
      ILikeSearchIsContains(u.firstName, query);
      ILikeSearchIsContains(u.lastName, query);
      ILikeSearchIsContains(u.email, query);
      AnyFieldLike(u, SearchPattern(query))
    else
      AnyFieldLike(u, SearchPattern(query))
  }

  predicate AnyFieldLike(u: User, p: string)
  {
    ILike(u.firstName, p) || ILike(u.lastName, p) || ILike(u.email, p)
  }

  /** The rows that satisfy the WHERE clause, in load order. */
  function Matching(t: seq<User>, query: string): (r: seq<User>)
    ensures |r| <= |t|
    ensures forall i :: 0 <= i < |r| ==> r[i] in t && RowMatches(r[i], query)
    ensures forall i :: 0 <= i < |t| && RowMatches(t[i], query) ==> t[i] in r
  {
    if t == [] then []
    else
      var rest := Matching(t[1..], query);
      assert forall i :: 0 < i < |t| ==> t[i] == t[1..][i - 1];
      if RowMatches(t[0], query) then [t[0]] + rest else rest
  }

  /** The filter distributes over concatenation: order and multiplicity are those of the table. */
  lemma {:induction false} MatchingAppend(a: seq<User>, b: seq<User>, query: string)
    ensures Matching(a + b, query) == Matching(a, query) + Matching(b, query)
  {
    if a == [] {
      assert a + b == b;
    } else {
      assert (a + b)[0] == a[0] && (a + b)[1..] == a[1..] + b;
      MatchingAppend(a[1..], b, query);
    }
  }

  /** A single row is kept exactly when it matches. */
  lemma MatchingSingle(u: User, query: string)
    ensures Matching([u], query) == if RowMatches(u, query) then [u] else []
  {
    assert [u][1..] == [];
  }

  /** The whole search statement: the first `limit` matching rows. */
  function SearchRows(t: seq<User>, query: string, limit: nat): (r: seq<User>)
    ensures |r| == Min(limit, |Matching(t, query)|)
    ensures r == Matching(t, query)[..|r|]
    ensures forall i :: 0 <= i < |r| ==> r[i] in t && RowMatches(r[i], query)
  {
    var m := Matching(t, query);
    m[..Min(limit, |m|)]
  }

  /** A query shaped like an SQL injection. */
  const InjectionProbe: string := "' OR '1'='1"

  lemma ProbeHasNoWildcards()
    ensures NoWildcards(InjectionProbe)
  {
    var q := InjectionProbe;
    assert q == ['\'', ' ', 'O', 'R', ' ', '\'', '1', '\'', '=', '\'', '1'];
  }

  lemma {:induction false} NoMatchingRowsSearchEmpty(t: seq<User>, query: string, limit: nat)
    requires forall i :: 0 <= i < |t| ==> !RowMatches(t[i], query)
    ensures Matching(t, query) == [] && SearchRows(t, query, limit) == []
  {
    if t != [] {
      assert !RowMatches(t[0], query);
      NoMatchingRowsSearchEmpty(t[1..], query, limit);
    }
  }

  /**
   * The query is data, not SQL: searching for `' OR '1'='1` finds no row
   * unless one of the three fields contains that text (ignoring case).
   */
  lemma InjectionAttemptFindsNothing(t: seq<User>, limit: nat)
    requires forall i :: 0 <= i < |t| ==>
      !Contains(Lower(t[i].firstName), Lower(InjectionProbe)) &&
      !Contains(Lower(t[i].lastName), Lower(InjectionProbe)) &&
      !Contains(Lower(t[i].email), Lower(InjectionProbe))
    ensures SearchRows(t, InjectionProbe, limit) == []
  {
    ProbeHasNoWildcards();
    forall i | 0 <= i < |t| ensures !RowMatches(t[i], InjectionProbe) {
      ILikeSearchIsContains(t[i].firstName, InjectionProbe);
      ILikeSearchIsContains(t[i].lastName, InjectionProbe);
      ILikeSearchIsContains(t[i].email, InjectionProbe);
    }
    NoMatchingRowsSearchEmpty(t, InjectionProbe, limit);
  }

  /** For a wildcard-free query, each row the search returns contains the query in a field. */
  lemma SearchHitsContainQuery(t: seq<User>, query: string, limit: nat, k: nat)
    requires NoWildcards(query)
    requires k < |SearchRows(t, query, limit)|
    ensures var u := SearchRows(t, query, limit)[k];
            var q := Lower(query);
            Contains(Lower(u.firstName), q) || Contains(Lower(u.lastName), q) || Contains(Lower(u.email), q)
  {
  }

  /** Wildcards reach the engine unescaped: the query `__` matches every row whose first name has two characters or more. */
  lemma SearchUnderscoresMatchLongFirstName(u: User)
    requires |u.firstName| >= 2
    ensures RowMatches(u, "__")
  {
    UnderscoresMatchAnyLongString(Lower(u.firstName));
    LowerAppend("%", "__");
    LowerAppend("%__", "%");
    assert Lower(SearchPattern("__")) == SearchPattern("__") by {
      assert SearchPattern("__") == "%__" + "%" && "%__" == "%" + "__";
      assert Lower("%") == "%" && Lower("__") == "__";
    }
    assert ILike(u.firstName, SearchPattern("__"));
  }

  /** Fewer than `limit` matches: the search returns all of them. */
  lemma SearchReturnsAllWhenUnderLimit(t: seq<User>, query: string, limit: nat)
    requires |Matching(t, query)| <= limit
    ensures SearchRows(t, query, limit) == Matching(t, query)
  {
  }
}
