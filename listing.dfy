/**
 * What the three list handlers share (server/api/users/index.get.ts,
 * server/api/roles/index.get.ts, server/api/tenants/index.get.ts): the
 * case-insensitive search filter, `skip`/`take` windows and the page count.
 */
module Listing {
  import opened Wrappers

  /** The `pagination` block of a list response. */
  datatype PageInfo = PageInfo(page: nat, limit: nat, total: nat, totalPages: nat)

  function Min(a: nat, b: nat): nat { if a <= b then a else b }

  /** Rows before page `page` of size `limit`: `(page - 1) * limit`. */
  function Skip(page: nat, limit: nat): (n: nat)
    requires page >= 1
    ensures page == 1 ==> n == 0
    ensures n + limit == page * limit
  {
    (page - 1) * limit
  }

  /** `skip`/`take` on an ordered result: at most `take` rows from position `skip` on. */
  function Window<T>(rows: seq<T>, skip: nat, take: nat): (r: seq<T>)
    ensures |r| == if skip >= |rows| then 0 else Min(take, |rows| - skip)
    ensures forall i :: 0 <= i < |r| ==> r[i] == rows[skip + i]
  {
    if skip >= |rows| then [] else rows[skip..skip + Min(take, |rows| - skip)]
  }

  /** `Math.ceil(total / limit)`: the fewest pages of `limit` rows that hold `total` rows. */
  function TotalPages(total: nat, limit: nat): (n: nat)
    requires limit >= 1
    ensures n * limit >= total
    ensures n == 0 || (n - 1) * limit < total
  {
    var n := (total + limit - 1) / limit;
    assert n * limit >= total by {
      assert (total + limit - 1) == n * limit + (total + limit - 1) % limit;
    }
    assert n == 0 || (n - 1) * limit < total by {
      assert n * limit <= total + limit - 1;
    }
    n
  }

  /**
   * Row `i` of the ordered result shows up on page `i / limit + 1`, at
   * position `i % limit`, and that page is within the page count; every page
   * past the count is empty.
   */
  lemma RowOnItsPage<T>(rows: seq<T>, limit: nat, i: nat)
    requires limit >= 1 && i < |rows|
    ensures var page := i / limit + 1;
            var w := Window(rows, Skip(page, limit), limit);
            && page <= TotalPages(|rows|, limit)
            && i % limit < |w| && w[i % limit] == rows[i]
  {
    var page := i / limit + 1;
    var n := TotalPages(|rows|, limit);
    assert Skip(page, limit) + i % limit == i;
  }

  /** Pages past the page count hold no rows. */
  lemma PastLastPageEmpty<T>(rows: seq<T>, page: nat, limit: nat)
    requires limit >= 1 && page > TotalPages(|rows|, limit)
    ensures Window(rows, Skip(page, limit), limit) == []
  {
    var n := TotalPages(|rows|, limit);
    assert n <= page - 1;
    assert n * limit <= (page - 1) * limit;
  }

  /** The rows that satisfy `keep`, in their order. */
  function Filter<T(!new)>(rows: seq<T>, keep: T -> bool): (r: seq<T>)
    ensures |r| <= |rows|
    ensures forall x :: x in r <==> x in rows && keep(x)
  {
    if rows == [] then []
    else
      var init := rows[..|rows| - 1];
      var last := rows[|rows| - 1];
      assert rows == init + [last];
      Filter(init, keep) + (if keep(last) then [last] else [])
  }

  /** `rows` sorted by `le`: every row sorts no later than each row after it. */
  predicate Ordered<T>(rows: seq<T>, le: (T, T) -> bool)
  {
    forall i, j :: 0 <= i < j < |rows| ==> le(rows[i], rows[j])
  }

  /** A filter keeps the order of the rows it keeps. */
  lemma {:induction false} FilterKeepsOrder<T(!new)>(rows: seq<T>, keep: T -> bool, le: (T, T) -> bool)
    requires Ordered(rows, le)
    ensures Ordered(Filter(rows, keep), le)
  {
    if rows != [] {
      var init := rows[..|rows| - 1];
      var last := rows[|rows| - 1];
      assert Ordered(init, le);
      FilterKeepsOrder(init, keep, le);
      var f := Filter(init, keep);
      forall i | 0 <= i < |f| ensures le(f[i], last) {
        assert f[i] in init;
        var k :| 0 <= k < |init| && init[k] == f[i];
        assert rows[k] == f[i];
      }
    }
  }

  /** A search and a window keep the order of the rows they select. */
  lemma PageKeepsOrder<T(!new)>(rows: seq<T>, search: Option<string>, matches: (T, string) -> bool,
                                skip: nat, take: nat, le: (T, T) -> bool)
    requires Ordered(rows, le)
    ensures Ordered(Window(Matching(rows, search, matches), skip, take), le)
  {
    if Searching(search) {
      FilterKeepsOrder(rows, (x: T) => matches(x, search.value), le);
    }
    var m := Matching(rows, search, matches);
    var w := Window(m, skip, take);
    forall i, j | 0 <= i < j < |w| ensures le(w[i], w[j]) {
      assert w[i] == m[skip + i] && w[j] == m[skip + j];
    }
  }

  /** `filter` counts each element as often as `rows` has it, if it is kept. */
  lemma {:induction false} FilterCounts<T(!new)>(rows: seq<T>, keep: T -> bool, x: T)
    ensures multiset(Filter(rows, keep))[x] == if keep(x) then multiset(rows)[x] else 0
  {
    if rows != [] {
      var init := rows[..|rows| - 1];
      assert rows == init + [rows[|rows| - 1]];
      FilterCounts(init, keep, x);
    }
  }

  /**
   * The number of kept rows depends on the rows only, not on their order:
   * what a `count` over the same `where` returns whatever the ordering.
   */
  lemma OrderFreeCount<T(!new)>(a: seq<T>, b: seq<T>, keep: T -> bool)
    requires multiset(a) == multiset(b)
    ensures |Filter(a, keep)| == |Filter(b, keep)|
  {
    forall x
      ensures multiset(Filter(a, keep))[x] == multiset(Filter(b, keep))[x]
    {
      FilterCounts(a, keep, x);
      FilterCounts(b, keep, x);
    }
    assert multiset(Filter(a, keep)) == multiset(Filter(b, keep));
    assert |multiset(Filter(a, keep))| == |multiset(Filter(b, keep))|;
  }

  /** ASCII lower-casing of one character. */
  function LowerChar(c: char): (d: char)
    ensures 'A' <= c <= 'Z' ==> 'a' <= d <= 'z' && d as int - c as int == 32
    ensures !('A' <= c <= 'Z') ==> d == c
  {
    if 'A' <= c <= 'Z' then (c as int + 32) as char else c
  }

  function Lower(s: string): (r: string)
    ensures |r| == |s|
    ensures forall i :: 0 <= i < |s| ==> r[i] == LowerChar(s[i])
  {
    if s == [] then [] else [LowerChar(s[0])] + Lower(s[1..])
  }

  /** `needle` occurs in `hay` at some position. */
  predicate Contains(hay: string, needle: string)
  {
    exists i :: 0 <= i <= |hay| && needle <= hay[i..]
  }

  /** Prisma's `contains` with `mode: 'insensitive'`, folding ASCII letters. */
  predicate ContainsInsensitive(hay: string, needle: string)
  {
    Contains(Lower(hay), Lower(needle))
  }

  /** A `search` parameter filters only when it is present and non-empty. */
  predicate Searching(search: Option<string>)
  {
    search.Some? && search.value != ""
  }

  /** The rows a `where` built from `search` selects, given what one row matching means. */
  function Matching<T(!new)>(rows: seq<T>, search: Option<string>, matches: (T, string) -> bool): (r: seq<T>)
    ensures !Searching(search) ==> r == rows
    ensures Searching(search) ==> forall x :: x in r <==> x in rows && matches(x, search.value)
  {
    if Searching(search) then Filter(rows, (x: T) => matches(x, search.value)) else rows
  }

  /**
   * The rows a search selects, and their number, depend on the rows only:
   * what `count` with the same `where` returns whatever the ordering.
   */
  lemma MatchingOrderFree<T(!new)>(a: seq<T>, b: seq<T>, search: Option<string>, matches: (T, string) -> bool)
    requires multiset(a) == multiset(b)
    ensures |Matching(a, search, matches)| == |Matching(b, search, matches)|
    ensures forall x :: x in Matching(a, search, matches) ==> x in b
  {
    if Searching(search) {
      OrderFreeCount(a, b, (x: T) => matches(x, search.value));
    } else {
      assert |multiset(a)| == |multiset(b)|;
    }
    forall x | x in Matching(a, search, matches) ensures x in b {
      assert x in multiset(a);
    }
  }

  /** Every text contains itself and the empty text, whatever the case. */
  lemma ContainsExamples(s: string)
    ensures ContainsInsensitive(s, "") && ContainsInsensitive(s, s)
    ensures ContainsInsensitive("Admin", "adm") && !ContainsInsensitive("Admin", "user")
  {
    assert "" <= Lower(s)[0..];
    assert Lower(s) <= Lower(s)[0..];
    assert Lower("adm") <= Lower("Admin")[0..];
    assert Lower("user") == "user";
    forall i | 0 <= i <= |Lower("Admin")|
      ensures !("user" <= Lower("Admin")[i..])
    {
      assert Lower("Admin") == "admin";
    }
  }
}
